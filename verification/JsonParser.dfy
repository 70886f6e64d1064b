/** The recursive-descent parser of adapters/config_file_store.py as a function on the bytes of a payload,
    and the proof that it accepts exactly the canonical texts and returns the tree each one prints. */
module JsonParser {
  import opened Options
  import opened Bytes
  import opened Decimal
  import opened Utf8
  import opened JsonText

  // ---------------------------------------------------------------- the parser

  /** The character a short escape stands for. */
  function Unescaped(letter: byte): Option<byte> {
    if letter == 0x22 || letter == 0x5C then Some(letter)
    else if letter == 0x62 then Some(0x08)
    else if letter == 0x66 then Some(0x0C)
    else if letter == 0x6E then Some(0x0A)
    else if letter == 0x72 then Some(0x0D)
    else if letter == 0x74 then Some(0x09)
    else None
  }

  predicate FourHexDigits(b: seq<byte>, p: nat) {
    p + 4 <= |b| && forall i :: p <= i < p + 4 ==> IsHexDigit(b[i])
  }

  /** The byte behind a backslash at p - 1; the hexadecimal form is only for control characters without a short one. */
  function ParseEscape(b: seq<byte>, p: nat): (r: Option<(byte, nat)>)
    ensures r.Some? ==> p < r.value.1 <= |b|
  {
    if p >= |b| then None
    else if Unescaped(b[p]).Some? then Some((Unescaped(b[p]).value, p + 1))
    else if b[p] == LETTER_U && FourHexDigits(b, p + 1) then
      var c := HexNumber(b[p + 1..p + 5]);
      if c >= 0x20 || EscapeSuffix(c).Some? then None else Some((c, p + 5))
    else None
  }

  /** The unescaped bytes up to the closing quote, and the position after it. */
  function ParseRaw(b: seq<byte>, p: nat): (r: Option<(seq<byte>, nat)>)
    ensures r.Some? ==> p < r.value.1 <= |b|
    decreases |b| - p
  {
    if p >= |b| then None
    else if b[p] == QUOTE then Some(([], p + 1))
    else
      var one := if b[p] == BACKSLASH then ParseEscape(b, p + 1) else if b[p] < 0x20 then None else Some((b[p], p + 1));
      if one.None? then None
      else
        var rest := ParseRaw(b, one.value.1);
        if rest.None? then None else Some(([one.value.0] + rest.value.0, rest.value.1))
  }

  function ParseString(b: seq<byte>, p: nat): (r: Option<(Text, nat)>)
    ensures r.Some? ==> p < r.value.1 <= |b|
  {
    if p >= |b| || b[p] != QUOTE then None
    else
      var raw := ParseRaw(b, p + 1);
      if raw.None? then None
      else
        var text := Utf8.Decode(raw.value.0);
        if text.None? then None else Some((text.value, raw.value.1))
  }

  function ScanDigits(b: seq<byte>, p: nat, value: nat): (r: (nat, nat))
    requires p <= |b|
    ensures p <= r.1 <= |b|
    decreases |b| - p
  {
    if p < |b| && IsDigit(b[p]) then ScanDigits(b, p + 1, value * 10 + DigitValue(b[p])) else (value, p)
  }

  predicate DigitAt(b: seq<byte>, p: nat) {
    p < |b| && IsDigit(b[p])
  }

  function ParseInteger(b: seq<byte>, p: nat): (r: Option<(int, nat)>)
    ensures r.Some? ==> p < r.value.1 <= |b|
  {
    var negative := p < |b| && b[p] == MINUS;
    var start := if negative then p + 1 else p;
    if !DigitAt(b, start) then None
    else if b[start] == ZERO then
      if negative || DigitAt(b, start + 1) then None else Some((0, start + 1))
    else
      var (value, end) := ScanDigits(b, start + 1, DigitValue(b[start]));
      var number: int := value;
      Some((if negative then -number else number, end))
  }

  function ParseValue(b: seq<byte>, p: nat, depth: nat): (r: Option<(Json, nat)>)
    ensures r.Some? ==> p < r.value.1 <= |b|
    decreases |b| - p, 0
  {
    if depth > MAX_DEPTH || p >= |b| then None
    else if b[p] == NULL_TEXT[0] then if Occurs(NULL_TEXT, b, p) then Some((Null, p + 4)) else None
    else if b[p] == TRUE_TEXT[0] then if Occurs(TRUE_TEXT, b, p) then Some((Boolean(true), p + 4)) else None
    else if b[p] == FALSE_TEXT[0] then if Occurs(FALSE_TEXT, b, p) then Some((Boolean(false), p + 5)) else None
    else if b[p] == QUOTE then
      var text := ParseString(b, p);
      if text.None? then None else Some((String(text.value.0), text.value.1))
    else if b[p] == OPEN_LIST then
      if p + 1 < |b| && b[p + 1] == CLOSE_LIST then Some((List([]), p + 2))
      else
        var items := ParseItems(b, p + 1, depth);
        if items.None? then None else Some((List(items.value.0), items.value.1))
    else if b[p] == OPEN_DICT then
      if p + 1 < |b| && b[p + 1] == CLOSE_DICT then Some((Dict([]), p + 2))
      else
        var entries := ParseEntries(b, p + 1, depth, None);
        if entries.None? then None else Some((Dict(entries.value.0), entries.value.1))
    else if b[p] == MINUS || IsDigit(b[p]) then
      var number := ParseInteger(b, p);
      if number.None? then None else Some((Number(number.value.0), number.value.1))
    else None
  }

  /** One or more values up to the closing bracket. */
  function ParseItems(b: seq<byte>, p: nat, depth: nat): (r: Option<(seq<Json>, nat)>)
    ensures r.Some? ==> p < r.value.1 <= |b|
    decreases |b| - p, 1
  {
    if p >= |b| then None
    else
      var item := ParseValue(b, p, depth + 1);
      if item.None? || item.value.1 >= |b| then None
      else
        var q := item.value.1;
        if b[q] == CLOSE_LIST then Some(([item.value.0], q + 1))
        else if b[q] == COMMA then
          var rest := ParseItems(b, q + 1, depth);
          if rest.None? then None else Some(([item.value.0] + rest.value.0, rest.value.1))
        else None
  }

  /** A key greater than `previous`, a colon and a value. */
  function ParseEntry(b: seq<byte>, p: nat, depth: nat, previous: Option<Text>): (r: Option<(Entry, nat)>)
    ensures r.Some? ==> p < r.value.1 <= |b|
    decreases |b| - p, 0
  {
    var key := ParseString(b, p);
    if key.None? || (previous.Some? && !Less(previous.value, key.value.0)) then None
    else if key.value.1 >= |b| || b[key.value.1] != COLON then None
    else
      var value := ParseValue(b, key.value.1 + 1, depth + 1);
      if value.None? then None else Some((Entry(key.value.0, value.value.0), value.value.1))
  }

  function ParseEntries(b: seq<byte>, p: nat, depth: nat, previous: Option<Text>): (r: Option<(seq<Entry>, nat)>)
    ensures r.Some? ==> p < r.value.1 <= |b|
    decreases |b| - p, 1
  {
    var entry := ParseEntry(b, p, depth, previous);
    if entry.None? || entry.value.1 >= |b| then None
    else
      var q := entry.value.1;
      if b[q] == CLOSE_DICT then Some(([entry.value.0], q + 1))
      else if b[q] == COMMA then
        var rest := ParseEntries(b, q + 1, depth, Some(entry.value.0.key));
        if rest.None? then None else Some(([entry.value.0] + rest.value.0, rest.value.1))
      else None
  }

  /** The whole payload is one value. */
  function Parse(b: seq<byte>): Option<Json> {
    var value := ParseValue(b, 0, 0);
    if value.None? || value.value.1 != |b| then None else Some(value.value.0)
  }

  // ---------------------------------------------------------------- strings

  /** The text of one byte of the UTF-8 form. */
  function ByteText(x: byte): (s: seq<byte>)
    ensures s != [] && s[0] != QUOTE
  {
    if EscapeSuffix(x).Some? then [BACKSLASH, EscapeSuffix(x).value]
    else if x < 0x20 then [BACKSLASH, LETTER_U] + Hex(x, 4)
    else [x]
  }

  /** The text of a UTF-8 form, and the closing quote. */
  function RawText(s: seq<byte>): seq<byte> {
    if s == [] then [QUOTE] else ByteText(s[0]) + RawText(s[1..])
  }

  lemma RawTextCons(x: byte, rest: seq<byte>)
    ensures RawText([x] + rest) == ByteText(x) + RawText(rest)
  {
    assert ([x] + rest)[1..] == rest;
  }

  lemma {:induction false} HighBytesAreRaw(s: seq<byte>, rest: seq<byte>)
    requires forall i :: 0 <= i < |s| ==> s[i] >= 0x80
    ensures RawText(s + rest) == s + RawText(rest)
    decreases |s|
  {
    if s == [] {
      assert s + rest == rest;
    } else {
      HighBytesAreRaw(s[1..], rest);
      Regroup(s, rest);
      RawTextCons(s[0], s[1..] + rest);
      Regroup(s, RawText(rest));
    }
  }

  lemma CharTextIsRaw(c: codepoint, rest: seq<byte>)
    ensures RawText(EncodeChar(c) + rest) == CharText(c) + RawText(rest)
  {
    if c < 0x80 { RawTextCons(c, rest); } else { HighBytesAreRaw(EncodeChar(c), rest); }
  }

  lemma {:induction false} CharsTextIsRaw(t: Text)
    ensures CharsText(t) == RawText(Utf8.Encode(t))
    decreases |t|
  {
    if t != [] {
      CharsTextIsRaw(t[1..]);
      CharTextIsRaw(t[0], Utf8.Encode(t[1..]));
    }
  }

  lemma HexEscapeRoundTrip(c: nat)
    requires c < 0x20
    ensures HexNumber(Hex(c, 4)) == c
  {
    assert Power16(0) == 1 && Power16(1) == 16 && Power16(2) == 0x100 && Power16(3) == 0x1000;
    HexNumberOfHex(c, 4);
  }

  /** A control character's escape read as its four digits. */
  lemma UnicodeEscape(b: seq<byte>, p: nat, c: nat)
    requires c < 0x20
    ensures Occurs([BACKSLASH, LETTER_U] + Hex(c, 4), b, p) <==>
      && p + 1 < |b| && b[p] == BACKSLASH && b[p + 1] == LETTER_U
      && FourHexDigits(b, p + 2) && HexNumber(b[p + 2..p + 6]) == c
  {
    HexEscapeRoundTrip(c);
    assert [BACKSLASH, LETTER_U] + Hex(c, 4) == [BACKSLASH] + ([LETTER_U] + Hex(c, 4));
    OccursAfter(BACKSLASH, [LETTER_U] + Hex(c, 4), b, p);
    OccursAfter(LETTER_U, Hex(c, 4), b, p + 1);
    OccursSlice(Hex(c, 4), b, p + 2);
    if p + 6 <= |b| {
      var digits := b[p + 2..p + 6];
      if digits == Hex(c, 4) {
        forall i | p + 2 <= i < p + 6 ensures IsHexDigit(b[i]) { assert b[i] == digits[i - p - 2]; }
      }
      if FourHexDigits(b, p + 2) && HexNumber(digits) == c {
        HexOfHexNumber(digits);
      }
    }
  }

  lemma ShortEscape(b: seq<byte>, p: nat, letter: byte)
    ensures Occurs([BACKSLASH, letter], b, p) <==> p + 1 < |b| && b[p] == BACKSLASH && b[p + 1] == letter
  {
    assert [BACKSLASH, letter] == [BACKSLASH] + [letter];
    OccursAfter(BACKSLASH, [letter], b, p);
    OccursOne(letter, b, p + 1);
  }

  lemma EscapeIsSound(b: seq<byte>, p: nat)
    requires ParseEscape(b, p + 1).Some? && p < |b| && b[p] == BACKSLASH
    ensures var (x, q) := ParseEscape(b, p + 1).value; Occurs(ByteText(x), b, p) && q == p + |ByteText(x)|
  {
    var (x, q) := ParseEscape(b, p + 1).value;
    if Unescaped(b[p + 1]).Some? { ShortEscape(b, p, b[p + 1]); } else { UnicodeEscape(b, p, x); }
  }

  lemma EscapeIsComplete(b: seq<byte>, p: nat, x: byte)
    requires Occurs(ByteText(x), b, p) && b[p] == BACKSLASH
    ensures ParseEscape(b, p + 1) == Some((x, p + |ByteText(x)|))
  {
    if EscapeSuffix(x).Some? {
      ShortEscape(b, p, EscapeSuffix(x).value);
    } else if x < 0x20 {
      UnicodeEscape(b, p, x);
    } else {
      OccursOne(x, b, p);
    }
  }

  lemma RawStep(b: seq<byte>, p: nat, x: byte, q: nat, rest: seq<byte>, end: nat)
    requires p < |b| && b[p] != QUOTE
    requires if b[p] == BACKSLASH then ParseEscape(b, p + 1) == Some((x, q)) else b[p] >= 0x20 && x == b[p] && q == p + 1
    requires ParseRaw(b, q) == Some((rest, end))
    ensures ParseRaw(b, p) == Some(([x] + rest, end))
  {
  }

  /** The first byte that ParseRaw consumes. */
  function FirstRaw(b: seq<byte>, p: nat): (byte, nat)
    requires p < |b| && b[p] != QUOTE && ParseRaw(b, p).Some?
  {
    if b[p] == BACKSLASH then ParseEscape(b, p + 1).value else (b[p], p + 1)
  }

  lemma FirstRawIsSound(b: seq<byte>, p: nat)
    requires p < |b| && b[p] != QUOTE && ParseRaw(b, p).Some?
    ensures var (x, q) := FirstRaw(b, p); q == p + |ByteText(x)| && Occurs(ByteText(x), b, p)
  {
    if b[p] == BACKSLASH { EscapeIsSound(b, p); } else { OccursOne(b[p], b, p); }
  }

  lemma FirstRawIsComplete(b: seq<byte>, p: nat, x: byte)
    requires Occurs(ByteText(x), b, p)
    ensures p < |b| && b[p] != QUOTE
    ensures if b[p] == BACKSLASH then ParseEscape(b, p + 1) == Some((x, p + |ByteText(x)|))
            else b[p] >= 0x20 && x == b[p] && |ByteText(x)| == 1
  {
    OccursHead(ByteText(x), b, p);
    if b[p] == BACKSLASH { EscapeIsComplete(b, p, x); }
  }

  lemma {:induction false} RawIsSound(b: seq<byte>, p: nat)
    requires ParseRaw(b, p).Some?
    ensures var (s, q) := ParseRaw(b, p).value; Occurs(RawText(s), b, p) && q == p + |RawText(s)|
    decreases |b| - p
  {
    if b[p] == QUOTE {
      OccursOne(QUOTE, b, p);
    } else {
      FirstRawIsSound(b, p);
      var (x, q) := FirstRaw(b, p);
      var (rest, end) := ParseRaw(b, q).value;
      RawIsSound(b, q);
      RawStep(b, p, x, q, rest, end);
      RawTextCons(x, rest);
      OccursSplit(ByteText(x), RawText(rest), b, p);
    }
  }

  lemma EmptyRawIsComplete(b: seq<byte>, p: nat)
    requires Occurs(RawText([]), b, p)
    ensures ParseRaw(b, p) == Some(([], p + |RawText([])|))
  {
    OccursOne(QUOTE, b, p);
  }

  lemma {:induction false} RawIsComplete(b: seq<byte>, p: nat, s: seq<byte>)
    requires Occurs(RawText(s), b, p)
    ensures ParseRaw(b, p) == Some((s, p + |RawText(s)|))
    decreases |s|
  {
    hide Occurs, ByteText, RawText, ParseRaw;
    if s == [] {
      EmptyRawIsComplete(b, p);
    } else {
      var x, rest := s[0], s[1..];
      assert s == [x] + rest;
      RawTextCons(x, rest);
      OccursSplit(ByteText(x), RawText(rest), b, p);
      FirstRawIsComplete(b, p, x);
      RawIsComplete(b, p + |ByteText(x)|, rest);
      RawStep(b, p, x, p + |ByteText(x)|, rest, p + |RawText(s)|);
    }
  }

  lemma StringIsSound(b: seq<byte>, p: nat)
    requires ParseString(b, p).Some?
    ensures var (t, q) := ParseString(b, p).value; Encodable(t) && Occurs(StringText(t), b, p) && q == p + |StringText(t)|
  {
    var raw := ParseRaw(b, p + 1).value.0;
    RawIsSound(b, p + 1);
    EncodeDecode(raw);
    var t := Utf8.Decode(raw).value;
    CharsTextIsRaw(t);
    OccursAfter(QUOTE, CharsText(t), b, p);
  }

  lemma StringIsComplete(b: seq<byte>, p: nat, t: Text)
    requires Encodable(t) && Occurs(StringText(t), b, p)
    ensures ParseString(b, p) == Some((t, p + |StringText(t)|))
  {
    OccursAfter(QUOTE, CharsText(t), b, p);
    hide ParseRaw, CharsText, Utf8.Encode, Utf8.Decode;
    CharsTextIsRaw(t);
    RawIsComplete(b, p + 1, Utf8.Encode(t));
    DecodeEncode(t);
  }

  // ---------------------------------------------------------------- integers

  lemma {:induction false} ScanIsSound(b: seq<byte>, start: nat, p: nat, value: nat)
    requires start < p <= |b| && value > 0 && Occurs(Digits(value), b, start) && p == start + |Digits(value)|
    ensures var (n, q) := ScanDigits(b, p, value);
            n > 0 && Occurs(Digits(n), b, start) && q == start + |Digits(n)| && !DigitAt(b, q)
    decreases |b| - p
  {
    if DigitAt(b, p) {
      var next := value * 10 + DigitValue(b[p]);
      assert next / 10 == value && next % 10 == DigitValue(b[p]);
      OccursOne(b[p], b, p);
      OccursSplit(Digits(value), [b[p]], b, start);
      ScanIsSound(b, start, p + 1, next);
    }
  }

  lemma {:induction false} ScanFollows(b: seq<byte>, start: nat, n: nat)
    requires n > 0 && Occurs(Digits(n), b, start)
    ensures DigitAt(b, start) && b[start] != ZERO && start + |Digits(n)| <= |b|
    ensures ScanDigits(b, start + 1, DigitValue(b[start])) == ScanDigits(b, start + |Digits(n)|, n)
    decreases n
  {
    var s := Digits(n);
    OccursHead(s, b, start);
    OccursFits(s, b, start);
    if n >= 10 {
      var front := Digits(n / 10);
      OccursSplit(front, [ZERO + n % 10], b, start);
      OccursOne(ZERO + n % 10, b, start + |front|);
      ScanFollows(b, start, n / 10);
    }
  }

  lemma IntegerIsSound(b: seq<byte>, p: nat)
    requires ParseInteger(b, p).Some?
    ensures var (n, q) := ParseInteger(b, p).value; Occurs(IntegerText(n), b, p) && q == p + |IntegerText(n)|
  {
    var negative := b[p] == MINUS;
    var start := if negative then p + 1 else p;
    OccursOne(b[start], b, start);
    if b[start] != ZERO {
      ScanIsSound(b, start, start + 1, DigitValue(b[start]));
      var n := ScanDigits(b, start + 1, DigitValue(b[start])).0;
      if negative {
        OccursOne(MINUS, b, p);
        OccursSplit([MINUS], Digits(n), b, p);
      }
    }
  }

  lemma IntegerIsComplete(b: seq<byte>, p: nat, n: int)
    requires Occurs(IntegerText(n), b, p) && !DigitAt(b, p + |IntegerText(n)|)
    ensures p < |b| && (b[p] == MINUS || IsDigit(b[p]))
    ensures ParseInteger(b, p) == Some((n, p + |IntegerText(n)|))
  {
    OccursHead(IntegerText(n), b, p);
    if n == 0 {
    } else if n < 0 {
      OccursSplit([MINUS], Digits(-n), b, p);
      ScanFollows(b, p + 1, -n);
    } else {
      ScanFollows(b, p, n);
    }
  }

  // ---------------------------------------------------------------- values

  predicate Printable(v: Json, depth: int) {
    Writable(v, depth) && IsCanonical(v)
  }

  predicate PrintableEntry(e: Entry, depth: int) {
    Encodable(e.key) && Printable(e.value, depth)
  }

  predicate Follows(previous: Option<Text>, key: Text) {
    previous.Some? ==> Less(previous.value, key)
  }

  predicate ItemsPrintable(items: seq<Json>, depth: int) {
    items == [] || (Printable(items[0], depth) && ItemsPrintable(items[1..], depth))
  }

  predicate EntriesPrintable(entries: seq<Entry>, depth: int, previous: Option<Text>) {
    entries == []
    || (Follows(previous, entries[0].key) && PrintableEntry(entries[0], depth)
        && EntriesPrintable(entries[1..], depth, Some(entries[0].key)))
  }

  lemma {:induction false} ItemsPrintableAll(items: seq<Json>, depth: int)
    ensures ItemsPrintable(items, depth) <==> forall i :: 0 <= i < |items| ==> Printable(items[i], depth)
    decreases |items|
  {
    if items != [] {
      var rest := items[1..];
      ItemsPrintableAll(rest, depth);
      assert forall i :: 0 < i < |items| ==> items[i] == rest[i - 1];
      assert forall i :: 0 <= i < |rest| ==> rest[i] == items[i + 1];
    }
  }

  lemma {:induction false} EntriesPrintableAll(entries: seq<Entry>, depth: int, previous: Option<Text>)
    ensures EntriesPrintable(entries, depth, previous) <==>
      && Ascending(entries) && (entries != [] ==> Follows(previous, entries[0].key))
      && forall i :: 0 <= i < |entries| ==> PrintableEntry(entries[i], depth)
    decreases |entries|
  {
    if entries != [] {
      var rest := entries[1..];
      EntriesPrintableAll(rest, depth, Some(entries[0].key));
      assert forall i :: 0 < i < |entries| ==> entries[i] == rest[i - 1];
      assert forall i :: 0 <= i < |rest| ==> rest[i] == entries[i + 1];
    }
  }

  lemma ListPrintable(items: seq<Json>, depth: int)
    ensures Printable(List(items), depth) <==> depth <= MAX_DEPTH && ItemsPrintable(items, depth + 1)
  {
    ItemsPrintableAll(items, depth + 1);
  }

  lemma DictPrintable(entries: seq<Entry>, depth: int)
    ensures Printable(Dict(entries), depth) <==> depth <= MAX_DEPTH && EntriesPrintable(entries, depth + 1, None)
  {
    EntriesPrintableAll(entries, depth + 1, None);
  }

  lemma ItemsTextCons(v: Json, rest: seq<Json>)
    requires rest != []
    ensures ItemsText([v] + rest) == TextOf(v) + ([COMMA] + ItemsText(rest))
  {
    assert ([v] + rest)[1..] == rest;
  }

  lemma EntriesTextCons(e: Entry, rest: seq<Entry>)
    requires rest != []
    ensures EntriesText([e] + rest) == EntryText(e) + ([COMMA] + EntriesText(rest))
  {
    assert ([e] + rest)[1..] == rest;
  }

  lemma {:induction false} ValueIsSound(b: seq<byte>, p: nat, depth: nat)
    requires ParseValue(b, p, depth).Some?
    ensures var (v, q) := ParseValue(b, p, depth).value;
            Printable(v, depth) && Occurs(TextOf(v), b, p) && q == p + |TextOf(v)|
    decreases |b| - p, 1
  {
    var (v, q) := ParseValue(b, p, depth).value;
    match v
    case String(t) => StringIsSound(b, p);
    case Number(n) => IntegerIsSound(b, p);
    case List(items) => ListIsSound(b, p, depth);
    case Dict(entries) => DictIsSound(b, p, depth);
    case _ =>
  }

  lemma {:induction false} ListIsSound(b: seq<byte>, p: nat, depth: nat)
    requires ParseValue(b, p, depth).Some? && ParseValue(b, p, depth).value.0.List?
    ensures var (v, q) := ParseValue(b, p, depth).value;
            Printable(v, depth) && Occurs(TextOf(v), b, p) && q == p + |TextOf(v)|
    decreases |b| - p, 0
  {
    var items := ParseValue(b, p, depth).value.0.items;
    ListPrintable(items, depth);
    if items == [] {
      OccursOne(CLOSE_LIST, b, p + 1);
      OccursAfter(OPEN_LIST, [CLOSE_LIST], b, p);
    } else {
      ItemsAreSound(b, p + 1, depth);
      OccursAfter(OPEN_LIST, ItemsText(items), b, p);
    }
  }

  lemma {:induction false} DictIsSound(b: seq<byte>, p: nat, depth: nat)
    requires ParseValue(b, p, depth).Some? && ParseValue(b, p, depth).value.0.Dict?
    ensures var (v, q) := ParseValue(b, p, depth).value;
            Printable(v, depth) && Occurs(TextOf(v), b, p) && q == p + |TextOf(v)|
    decreases |b| - p, 0
  {
    var entries := ParseValue(b, p, depth).value.0.entries;
    DictPrintable(entries, depth);
    if entries == [] {
      OccursOne(CLOSE_DICT, b, p + 1);
      OccursAfter(OPEN_DICT, [CLOSE_DICT], b, p);
    } else {
      EntriesAreSound(b, p + 1, depth, None);
      OccursAfter(OPEN_DICT, EntriesText(entries), b, p);
    }
  }

  lemma {:induction false} ItemsAreSound(b: seq<byte>, p: nat, depth: nat)
    requires ParseItems(b, p, depth).Some?
    ensures var (items, q) := ParseItems(b, p, depth).value;
            && items != [] && ItemsPrintable(items, depth + 1)
            && Occurs(ItemsText(items), b, p) && q == p + |ItemsText(items)|
    decreases |b| - p, 2
  {
    hide Occurs, ParseValue, TextOf, Printable;
    ValueIsSound(b, p, depth + 1);
    var (v, q) := ParseValue(b, p, depth + 1).value;
    if b[q] == CLOSE_LIST {
      OccursOne(CLOSE_LIST, b, q);
      OccursSplit(TextOf(v), [CLOSE_LIST], b, p);
    } else {
      ItemsAreSound(b, q + 1, depth);
      var rest := ParseItems(b, q + 1, depth).value.0;
      OccursAround(TextOf(v), COMMA, ItemsText(rest), b, p);
      ItemsTextCons(v, rest);
    }
  }

  lemma {:induction false} EntryIsSound(b: seq<byte>, p: nat, depth: nat, previous: Option<Text>)
    requires ParseEntry(b, p, depth, previous).Some?
    ensures var (e, q) := ParseEntry(b, p, depth, previous).value;
            && PrintableEntry(e, depth + 1) && Follows(previous, e.key)
            && Occurs(EntryText(e), b, p) && q == p + |EntryText(e)|
    decreases |b| - p, 1
  {
    hide Occurs, ParseString, ParseValue, StringText, TextOf, Printable;
    StringIsSound(b, p);
    var (key, q) := ParseString(b, p).value;
    ValueIsSound(b, q + 1, depth + 1);
    var v := ParseValue(b, q + 1, depth + 1).value.0;
    OccursAround(StringText(key), COLON, TextOf(v), b, p);
  }

  lemma {:induction false} EntriesAreSound(b: seq<byte>, p: nat, depth: nat, previous: Option<Text>)
    requires ParseEntries(b, p, depth, previous).Some?
    ensures var (entries, q) := ParseEntries(b, p, depth, previous).value;
            && entries != [] && EntriesPrintable(entries, depth + 1, previous)
            && Occurs(EntriesText(entries), b, p) && q == p + |EntriesText(entries)|
    decreases |b| - p, 2
  {
    hide Occurs, ParseEntry, EntryText, PrintableEntry, Follows;
    EntryIsSound(b, p, depth, previous);
    var (e, q) := ParseEntry(b, p, depth, previous).value;
    if b[q] == CLOSE_DICT {
      OccursOne(CLOSE_DICT, b, q);
      OccursSplit(EntryText(e), [CLOSE_DICT], b, p);
    } else {
      EntriesAreSound(b, q + 1, depth, Some(e.key));
      var rest := ParseEntries(b, q + 1, depth, Some(e.key)).value.0;
      OccursAround(EntryText(e), COMMA, EntriesText(rest), b, p);
      EntriesTextCons(e, rest);
      assert ([e] + rest)[1..] == rest;
    }
  }

  // ---------------------------------------------------------------- completeness

  lemma TextStarts(v: Json)
    requires !v.Foreign?
    ensures TextOf(v) != [] && TextOf(v)[0] != CLOSE_LIST
  {
  }

  lemma {:induction false} ValueIsComplete(b: seq<byte>, p: nat, depth: nat, v: Json)
    requires Printable(v, depth) && Occurs(TextOf(v), b, p) && !DigitAt(b, p + |TextOf(v)|)
    ensures ParseValue(b, p, depth) == Some((v, p + |TextOf(v)|))
    decreases |b| - p, 1
  {
    hide ParseItems, ParseEntries, ParseString, ParseInteger, DigitAt;
    TextStarts(v);
    OccursHead(TextOf(v), b, p);
    match v
    case String(t) => StringIsComplete(b, p, t);
    case Number(n) => IntegerIsComplete(b, p, n);
    case List(items) => ListIsComplete(b, p, depth, v);
    case Dict(entries) => DictIsComplete(b, p, depth, v);
    case _ =>
  }

  lemma {:induction false} ListIsComplete(b: seq<byte>, p: nat, depth: nat, v: Json)
    requires v.List? && Printable(v, depth) && Occurs(TextOf(v), b, p)
    ensures ParseValue(b, p, depth) == Some((v, p + |TextOf(v)|))
    decreases |b| - p, 0
  {
    var items := v.items;
    ListPrintable(items, depth);
    if items == [] {
      OccursAfter(OPEN_LIST, [CLOSE_LIST], b, p);
      OccursOne(CLOSE_LIST, b, p + 1);
    } else {
      OccursAfter(OPEN_LIST, ItemsText(items), b, p);
      TextStarts(items[0]);
      OccursHead(ItemsText(items), b, p + 1);
      ItemsAreComplete(b, p + 1, depth, items);
    }
  }

  lemma {:induction false} DictIsComplete(b: seq<byte>, p: nat, depth: nat, v: Json)
    requires v.Dict? && Printable(v, depth) && Occurs(TextOf(v), b, p)
    ensures ParseValue(b, p, depth) == Some((v, p + |TextOf(v)|))
    decreases |b| - p, 0
  {
    var entries := v.entries;
    DictPrintable(entries, depth);
    if entries == [] {
      OccursAfter(OPEN_DICT, [CLOSE_DICT], b, p);
      OccursOne(CLOSE_DICT, b, p + 1);
    } else {
      OccursAfter(OPEN_DICT, EntriesText(entries), b, p);
      OccursHead(EntriesText(entries), b, p + 1);
      EntriesAreComplete(b, p + 1, depth, entries, None);
    }
  }

  lemma ItemsStep(b: seq<byte>, p: nat, depth: nat, v: Json, q: nat, rest: seq<Json>, end: nat)
    requires ParseValue(b, p, depth + 1) == Some((v, q)) && q < |b| && b[q] == COMMA
    requires ParseItems(b, q + 1, depth) == Some((rest, end))
    ensures ParseItems(b, p, depth) == Some(([v] + rest, end))
  {
  }

  lemma {:induction false} ItemsAreComplete(b: seq<byte>, p: nat, depth: nat, items: seq<Json>)
    requires items != [] && ItemsPrintable(items, depth + 1)
    requires Occurs(ItemsText(items), b, p)
    ensures ParseItems(b, p, depth) == Some((items, p + |ItemsText(items)|))
    decreases |b| - p, 2
  {
    hide Occurs, ParseValue, TextOf, Printable;
    var v, rest := items[0], items[1..];
    var q := p + |TextOf(v)|;
    if rest == [] {
      OccursSplit(TextOf(v), [CLOSE_LIST], b, p);
      OccursOne(CLOSE_LIST, b, q);
      ValueIsComplete(b, p, depth + 1, v);
      assert items == [v];
    } else {
      OccursAround(TextOf(v), COMMA, ItemsText(rest), b, p);
      ValueIsComplete(b, p, depth + 1, v);
      ItemsAreComplete(b, q + 1, depth, rest);
      ItemsStep(b, p, depth, v, q, rest, p + |ItemsText(items)|);
      assert items == [v] + rest;
    }
  }

  lemma {:induction false} EntryIsComplete(b: seq<byte>, p: nat, depth: nat, e: Entry, previous: Option<Text>)
    requires PrintableEntry(e, depth + 1) && Follows(previous, e.key)
    requires Occurs(EntryText(e), b, p) && !DigitAt(b, p + |EntryText(e)|)
    ensures ParseEntry(b, p, depth, previous) == Some((e, p + |EntryText(e)|))
    decreases |b| - p, 1
  {
    hide Occurs, ParseString, ParseValue, StringText, TextOf, Printable, DigitAt;
    OccursAround(StringText(e.key), COLON, TextOf(e.value), b, p);
    StringIsComplete(b, p, e.key);
    ValueIsComplete(b, p + |StringText(e.key)| + 1, depth + 1, e.value);
  }

  lemma LastEntry(b: seq<byte>, p: nat, depth: nat, previous: Option<Text>, e: Entry, q: nat)
    requires ParseEntry(b, p, depth, previous) == Some((e, q)) && q < |b| && b[q] == CLOSE_DICT
    ensures ParseEntries(b, p, depth, previous) == Some(([e], q + 1))
  {
  }

  lemma EntriesStep(b: seq<byte>, p: nat, depth: nat, previous: Option<Text>, e: Entry, q: nat, rest: seq<Entry>, end: nat)
    requires ParseEntry(b, p, depth, previous) == Some((e, q)) && q < |b| && b[q] == COMMA
    requires ParseEntries(b, q + 1, depth, Some(e.key)) == Some((rest, end))
    ensures ParseEntries(b, p, depth, previous) == Some(([e] + rest, end))
  {
  }

  lemma EntriesTextSplit(b: seq<byte>, p: nat, e: Entry, rest: seq<Entry>)
    requires Occurs(EntriesText([e] + rest), b, p)
    ensures var q := p + |EntryText(e)|;
            && Occurs(EntryText(e), b, p) && q < |b| && b[q] == (if rest == [] then CLOSE_DICT else COMMA)
            && (rest != [] ==> Occurs(EntriesText(rest), b, q + 1) && |EntriesText([e] + rest)| == |EntryText(e)| + 1 + |EntriesText(rest)|)
            && (rest == [] ==> |EntriesText([e] + rest)| == |EntryText(e)| + 1)
  {
    if rest == [] {
      OccursSplit(EntryText(e), [CLOSE_DICT], b, p);
      OccursOne(CLOSE_DICT, b, p + |EntryText(e)|);
    } else {
      EntriesTextCons(e, rest);
      OccursAround(EntryText(e), COMMA, EntriesText(rest), b, p);
    }
  }

  /** The first entry parses, and leaves its separator and the text of the others. */
  lemma {:induction false} FirstEntryIsComplete(b: seq<byte>, p: nat, depth: nat, entries: seq<Entry>, previous: Option<Text>)
    returns (q: nat)
    requires entries != [] && EntriesPrintable(entries, depth + 1, previous)
    requires Occurs(EntriesText(entries), b, p)
    ensures p < q < |b| && ParseEntry(b, p, depth, previous) == Some((entries[0], q))
    ensures |entries| == 1 ==> b[q] == CLOSE_DICT && q + 1 == p + |EntriesText(entries)|
    ensures |entries| > 1 ==>
      b[q] == COMMA && Occurs(EntriesText(entries[1..]), b, q + 1) && q + 1 + |EntriesText(entries[1..])| == p + |EntriesText(entries)|
    decreases |b| - p, 2
  {
    hide Occurs, EntryText, StringText, TextOf;
    var e, rest := entries[0], entries[1..];
    assert entries == [e] + rest;
    EntriesTextSplit(b, p, e, rest);
    EntryIsComplete(b, p, depth, e, previous);
    q := p + |EntryText(e)|;
  }

  lemma {:induction false} EntriesAreComplete(b: seq<byte>, p: nat, depth: nat, entries: seq<Entry>, previous: Option<Text>)
    requires entries != [] && EntriesPrintable(entries, depth + 1, previous)
    requires Occurs(EntriesText(entries), b, p)
    ensures ParseEntries(b, p, depth, previous) == Some((entries, p + |EntriesText(entries)|))
    decreases |b| - p, 3
  {
    hide Occurs, EntryText, EntriesText, PrintableEntry;
    var q := FirstEntryIsComplete(b, p, depth, entries, previous);
    var e, rest := entries[0], entries[1..];
    if rest == [] {
      LastEntry(b, p, depth, previous, e, q);
      assert entries == [e];
    } else {
      EntriesAreComplete(b, q + 1, depth, rest, Some(e.key));
      EntriesStep(b, p, depth, previous, e, q, rest, q + 1 + |EntriesText(rest)|);
      assert entries == [e] + rest;
    }
  }

  // ---------------------------------------------------------------- the bijection

  /** The parser accepts exactly the texts the writer prints, and returns the tree each one was printed from. */
  lemma ParseInvertsPrint(b: seq<byte>, v: Json)
    ensures Parse(b) == Some(v) <==> Printable(v, 0) && TextOf(v) == b
  {
    if Parse(b) == Some(v) {
      ValueIsSound(b, 0, 0);
      OccursSlice(TextOf(v), b, 0);
    }
    if Printable(v, 0) && TextOf(v) == b {
      OccursSlice(TextOf(v), b, 0);
      ValueIsComplete(b, 0, 0, v);
    }
  }

  /** Whatever the writer accepts comes back as the same value with its keys in order. */
  lemma WrittenTreeIsParsed(v: Json)
    requires WellFormed(v) && Writable(v, 0)
    ensures Parse(TextOf(Canonical(v))) == Some(Canonical(v)) && SameValue(v, Canonical(v))
  {
    CanonicalIsCanonical(v);
    CanonicalIsWritable(v, 0);
    CanonicalIsSame(v);
    ParseInvertsPrint(TextOf(Canonical(v)), Canonical(v));
  }

  /** Every accepted byte string is rewritten to itself. */
  lemma ParsedTextIsRewritten(b: seq<byte>)
    requires Parse(b).Some?
    ensures var v := Parse(b).value; Writable(v, 0) && TextOf(Canonical(v)) == b
  {
    var v := Parse(b).value;
    ParseInvertsPrint(b, v);
    CanonicalStays(v);
  }
}
