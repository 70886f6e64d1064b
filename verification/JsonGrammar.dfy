/** JSON as RFC 8259 defines it, without insignificant whitespace: which byte strings denote which value. Nothing here knows
    how the store writes or reads; what it writes and what it accepts is JSON in this sense. */
module JsonGrammar {
  import opened Options
  import opened Bytes
  import opened Utf8
  import opened JsonText
  import Decimal
  import JsonParser
  import JsonWriter

  // ---------------------------------------------------------------- the grammar

  predicate IsAscii(s: string) {
    forall i :: 0 <= i < |s| ==> (s[i] as int) < 128
  }

  function Ascii(s: string): (b: seq<byte>)
    requires IsAscii(s)
    ensures |b| == |s| && forall i :: 0 <= i < |s| ==> b[i] == s[i] as int
  {
    seq(|s|, i requires 0 <= i < |s| => s[i] as int)
  }

  predicate Continuation(b: byte) {
    128 <= b < 192
  }

  function Above(b: byte, base: int): int {
    var n: int := b;
    n - base
  }

  /** Section 3 of RFC 3629: the bits of the character in one to four bytes, never more than needed, never a surrogate. */
  predicate Utf8Form(e: seq<byte>, c: codepoint) {
    || (|e| == 1 && e[0] < 128 && c == e[0])
    || (|e| == 2 && 192 <= e[0] < 224 && Continuation(e[1])
        && c == Above(e[0], 192) * 64 + Above(e[1], 128) && c >= 0x80)
    || (|e| == 3 && 224 <= e[0] < 240 && Continuation(e[1]) && Continuation(e[2])
        && c == Above(e[0], 224) * 4096 + Above(e[1], 128) * 64 + Above(e[2], 128) && c >= 0x800 && !(0xD800 <= c < 0xE000))
    || (|e| == 4 && 240 <= e[0] < 248 && Continuation(e[1]) && Continuation(e[2]) && Continuation(e[3])
        && c == Above(e[0], 240) * 262144 + Above(e[1], 128) * 4096 + Above(e[2], 128) * 64 + Above(e[3], 128) && c >= 0x10000)
  }

  /** The value of a hexadecimal digit of either case. */
  function HexOf(b: byte): Option<int> {
    if '0' as int <= b <= '9' as int then Some(b - '0' as int)
    else if 'a' as int <= b <= 'f' as int then Some(b - 'a' as int + 10)
    else if 'A' as int <= b <= 'F' as int then Some(b - 'A' as int + 10)
    else None
  }

  /** The sixteen bits behind a backslash and a letter u. */
  function UnitOf(e: seq<byte>): Option<int> {
    if |e| == 6 && e[..2] == Ascii("\\u") && HexOf(e[2]).Some? && HexOf(e[3]).Some? && HexOf(e[4]).Some? && HexOf(e[5]).Some?
    then Some(HexOf(e[2]).value * 4096 + HexOf(e[3]).value * 256 + HexOf(e[4]).value * 16 + HexOf(e[5]).value)
    else None
  }

  /** The two-character escapes of section 7. */
  predicate ShortEscape(e: seq<byte>, c: codepoint) {
    || (e == Ascii("\\\"") && c == 0x22)
    || (e == Ascii("\\\\") && c == 0x5C)
    || (e == Ascii("\\/") && c == 0x2F)
    || (e == Ascii("\\b") && c == 0x08)
    || (e == Ascii("\\f") && c == 0x0C)
    || (e == Ascii("\\n") && c == 0x0A)
    || (e == Ascii("\\r") && c == 0x0D)
    || (e == Ascii("\\t") && c == 0x09)
  }

  /** One character of a string: itself, a short escape, its number, or the numbers of a surrogate pair. */
  predicate Element(e: seq<byte>, c: codepoint) {
    || (c >= 0x20 && c != 0x22 && c != 0x5C && Utf8Form(e, c))
    || ShortEscape(e, c)
    || (UnitOf(e) == Some(c) && !(0xD800 <= c < 0xE000))
    || (|e| == 12 && UnitOf(e[..6]).Some? && UnitOf(e[6..]).Some?
        && 0xD800 <= UnitOf(e[..6]).value < 0xDC00 && 0xDC00 <= UnitOf(e[6..]).value < 0xE000
        && c == 0x10000 + (UnitOf(e[..6]).value - 0xD800) * 1024 + (UnitOf(e[6..]).value - 0xDC00))
  }

  ghost predicate CharsOf(b: seq<byte>, t: Text)
    decreases |t|
  {
    if t == [] then b == []
    else exists k :: 0 < k <= |b| && Element(b[..k], t[0]) && CharsOf(b[k..], t[1..])
  }

  ghost predicate StringOf(b: seq<byte>, t: Text) {
    |b| >= 2 && b[0] == '\"' as int && b[|b| - 1] == '\"' as int && CharsOf(b[1..|b| - 1], t)
  }

  predicate DigitsOf(d: seq<byte>) {
    && d != [] && (forall i :: 0 <= i < |d| ==> '0' as int <= d[i] <= '9' as int)
    && (|d| > 1 ==> d[0] != '0' as int)
  }

  function DecimalValue(d: seq<byte>): int {
    if d == [] then 0 else DecimalValue(d[..|d| - 1]) * 10 + (d[|d| - 1] - '0' as int)
  }

  /** An integer; fractions and exponents are no Python integers. */
  predicate NumberOf(b: seq<byte>, n: int) {
    || (DigitsOf(b) && n == DecimalValue(b))
    || (|b| > 1 && b[0] == '-' as int && DigitsOf(b[1..]) && n == -DecimalValue(b[1..]))
  }

  /** The text `b` denotes the value `v`, members in the order they stand. */
  ghost predicate Denotes(b: seq<byte>, v: Json) {
    match v
    case Null => b == Ascii("null")
    case Boolean(value) => b == (if value then Ascii("true") else Ascii("false"))
    case Number(n) => NumberOf(b, n)
    case String(t) => StringOf(b, t)
    case List(items) => |b| >= 2 && b[0] == '[' as int && b[|b| - 1] == ']' as int && ElementsOf(b[1..|b| - 1], items)
    case Dict(entries) => |b| >= 2 && b[0] == '{' as int && b[|b| - 1] == '}' as int && MembersOf(b[1..|b| - 1], entries)
    case Foreign => false
  }

  ghost predicate ElementsOf(b: seq<byte>, items: seq<Json>) {
    if items == [] then b == []
    else if |items| == 1 then Denotes(b, items[0])
    else exists k :: 0 <= k < |b| && Denotes(b[..k], items[0]) && b[k] == ',' as int && ElementsOf(b[k + 1..], items[1..])
  }

  ghost predicate MemberOf(b: seq<byte>, e: Entry) {
    exists k :: 0 <= k < |b| && StringOf(b[..k], e.key) && b[k] == ':' as int && Denotes(b[k + 1..], e.value)
  }

  ghost predicate MembersOf(b: seq<byte>, entries: seq<Entry>) {
    if entries == [] then b == []
    else if |entries| == 1 then MemberOf(b, entries[0])
    else exists k :: 0 <= k < |b| && MemberOf(b[..k], entries[0]) && b[k] == ',' as int && MembersOf(b[k + 1..], entries[1..])
  }

  // ---------------------------------------------------------------- what is written

  lemma EncodedIsUtf8(c: codepoint)
    requires !Surrogate(c)
    ensures Utf8Form(EncodeChar(c), c)
  {
    if c < 0x80 {
    } else if c < 0x800 {
      JoinInvertsSplit(c);
    } else if c < 0x10000 {
      JoinInvertsSplit(c);
      JoinInvertsSplit(c / 0x40);
    } else {
      JoinInvertsSplit(c);
      JoinInvertsSplit(c / 0x40);
      JoinInvertsSplit(c / 0x40 / 0x40);
    }
  }

  lemma CharTextIsElement(c: codepoint)
    requires !Surrogate(c)
    ensures Element(CharText(c), c) && CharText(c) != []
  {
    if EscapeSuffix(c).Some? {
      assert ShortEscape(CharText(c), c);
    } else if c < 0x20 {
      ControlIsUnit(c);
    } else {
      EncodedIsUtf8(c);
    }
  }

  lemma HexOfSmall(c: nat)
    requires c < 0x20
    ensures Decimal.Hex(c, 4) == [0x30, 0x30, Decimal.HexDigit(c / 16), Decimal.HexDigit(c % 16)]
  {
    assert Decimal.Hex(0, 0) == [];
    assert Decimal.Hex(c / 16 / 16 / 16, 1) == [0x30];
    assert Decimal.Hex(c / 16 / 16, 2) == [0x30, 0x30];
    assert Decimal.Hex(c / 16, 3) == [0x30, 0x30] + [Decimal.HexDigit(c / 16)];
  }

  lemma ControlIsUnit(c: codepoint)
    requires c < 0x20
    ensures UnitOf([BACKSLASH, LETTER_U] + Decimal.Hex(c, 4)) == Some(c)
  {
    hide Decimal.Hex, Decimal.HexDigit, HexOf;
    HexOfSmall(c);
    ZeroIsRead();
    HexIsRead(c / 16);
    HexIsRead(c % 16);
    var e := [BACKSLASH, LETTER_U] + Decimal.Hex(c, 4);
    assert e == [BACKSLASH, LETTER_U, 0x30, 0x30, Decimal.HexDigit(c / 16), Decimal.HexDigit(c % 16)];
    assert e[..2] == Ascii("\\u");
  }

  lemma ZeroIsRead()
    ensures HexOf(0x30) == Some(0)
  {
  }

  lemma HexIsRead(d: int)
    requires 0 <= d < 16
    ensures HexOf(Decimal.HexDigit(d)) == Some(d)
  {
  }

  /** The characters of a written string, without its closing quote. */
  lemma {:induction false} CharsAreWritten(t: Text) returns (body: seq<byte>)
    requires Encodable(t)
    ensures CharsText(t) == body + [QUOTE] && CharsOf(body, t)
    decreases |t|
  {
    if t == [] { return []; }
    hide Element, CharText;
    var rest := CharsAreWritten(t[1..]);
    var e := CharText(t[0]);
    CharTextIsElement(t[0]);
    body := e + rest;
    assert body[..|e|] == e && body[|e|..] == rest;
  }

  lemma StringIsWritten(t: Text)
    requires Encodable(t)
    ensures StringOf(StringText(t), t)
  {
    var body := CharsAreWritten(t);
    assert StringText(t) == [QUOTE] + body + [QUOTE];
    assert StringText(t)[1..|StringText(t)| - 1] == body;
    hide CharsOf, CharsText;
  }

  lemma {:induction false} DigitsAreDecimal(n: nat)
    ensures DigitsOf(Decimal.Digits(n)) && DecimalValue(Decimal.Digits(n)) == n
  {
    var d := Decimal.Digits(n);
    if n >= 10 {
      DigitsAreDecimal(n / 10);
      assert d[..|d| - 1] == Decimal.Digits(n / 10);
    } else {
      assert d[..|d| - 1] == [];
      assert DecimalValue([]) == 0;
    }
  }

  lemma NumberIsWritten(n: int)
    ensures NumberOf(Decimal.IntegerText(n), n)
  {
    hide DigitsOf, DecimalValue, Decimal.Digits;
    if n < 0 {
      DigitsAreDecimal(-n);
      assert Decimal.IntegerText(n)[1..] == Decimal.Digits(-n);
    } else {
      DigitsAreDecimal(n);
    }
  }

  /** Every text the writer prints denotes the tree it was printed from. */
  lemma {:induction false} WrittenDenotes(v: Json, depth: int)
    requires Writable(v, depth)
    ensures Denotes(TextOf(v), v)
    decreases v
  {
    match v
    case Number(n) => NumberIsWritten(n);
    case String(t) => StringIsWritten(t);
    case List(items) => ListIsWritten(v, depth);
    case Dict(entries) => DictIsWritten(v, depth);
    case _ =>
  }

  lemma {:induction false} ListIsWritten(v: Json, depth: int)
    requires v.List? && Writable(v, depth)
    ensures Denotes(TextOf(v), v)
    decreases v, 0
  {
    var items := v.items;
    if items != [] {
      var body := ItemsAreWritten(items, depth + 1);
      hide ElementsOf, ItemsText;
      assert TextOf(v) == [OPEN_LIST] + body + [CLOSE_LIST];
      assert TextOf(v)[1..|TextOf(v)| - 1] == body;
    } else {
      assert TextOf(v)[1..1] == [];
    }
  }

  lemma {:induction false} ItemsAreWritten(items: seq<Json>, depth: int) returns (body: seq<byte>)
    requires items != [] && forall i :: 0 <= i < |items| ==> Writable(items[i], depth)
    ensures ItemsText(items) == body + [CLOSE_LIST] && ElementsOf(body, items)
    decreases items, 0
  {
    hide Denotes, TextOf, Writable;
    var first := TextOf(items[0]);
    WrittenDenotes(items[0], depth);
    if |items| == 1 { return first; }
    var rest := ItemsAreWritten(items[1..], depth);
    body := first + ([COMMA] + rest);
    assert body[..|first|] == first && body[|first| + 1..] == rest;
  }

  lemma {:induction false} MemberIsWritten(e: Entry, depth: int)
    requires Encodable(e.key) && Writable(e.value, depth)
    ensures MemberOf(EntryText(e), e)
    decreases e
  {
    hide Denotes, TextOf, Writable, StringOf, StringText;
    StringIsWritten(e.key);
    WrittenDenotes(e.value, depth);
    var k := |StringText(e.key)|;
    assert EntryText(e)[..k] == StringText(e.key) && EntryText(e)[k + 1..] == TextOf(e.value);
  }

  lemma {:induction false} DictIsWritten(v: Json, depth: int)
    requires v.Dict? && Writable(v, depth)
    ensures Denotes(TextOf(v), v)
    decreases v, 0
  {
    var entries := v.entries;
    if entries != [] {
      var body := EntriesAreWritten(entries, depth + 1);
      hide MembersOf, EntriesText;
      assert TextOf(v) == [OPEN_DICT] + body + [CLOSE_DICT];
      assert TextOf(v)[1..|TextOf(v)| - 1] == body;
    } else {
      assert TextOf(v)[1..1] == [];
    }
  }

  lemma {:induction false} EntriesAreWritten(entries: seq<Entry>, depth: int) returns (body: seq<byte>)
    requires entries != [] && forall i :: 0 <= i < |entries| ==> Encodable(entries[i].key) && Writable(entries[i].value, depth)
    ensures EntriesText(entries) == body + [CLOSE_DICT] && MembersOf(body, entries)
    decreases entries, 0
  {
    hide MemberOf, EntryText, Writable;
    var first := EntryText(entries[0]);
    MemberIsWritten(entries[0], depth);
    if |entries| == 1 { return first; }
    var rest := EntriesAreWritten(entries[1..], depth);
    body := first + ([COMMA] + rest);
    assert body[..|first|] == first && body[|first| + 1..] == rest;
  }

  // ---------------------------------------------------------------- a text denotes one value

  /** The text goes on with nothing, or with what ends a value. */
  predicate Ended(x: seq<byte>) {
    x == [] || x[0] == ',' as int || x[0] == ']' as int || x[0] == '}' as int
  }

  lemma SameParts(a: seq<byte>, x: seq<byte>, b: seq<byte>, y: seq<byte>)
    requires a + x == b + y && |a| == |b|
    ensures a == b && x == y
  {
    assert a == (a + x)[..|a|] && b == (b + y)[..|b|];
    assert x == (a + x)[|a|..] && y == (b + y)[|b|..];
  }

  /** What comes first is shorter, or as long, or longer; the longer one goes on with what follows the other. */
  lemma LongerGoesOn(a: seq<byte>, x: seq<byte>, b: seq<byte>, y: seq<byte>)
    requires a + x == b + y && |a| < |b|
    ensures x != [] && b[|a|] == x[0] && b[..|a|] == a
  {
    assert (a + x)[|a|] == x[0] && (b + y)[|a|] == b[|a|];
    assert a == (a + x)[..|a|] && b[..|a|] == (b + y)[..|a|];
  }

  lemma SameHead(a: seq<byte>, x: seq<byte>, b: seq<byte>, y: seq<byte>, i: nat)
    requires a + x == b + y && i < |a| && i < |b|
    ensures a[i] == b[i]
  {
    assert (a + x)[i] == a[i] && (b + y)[i] == b[i];
  }

  /** How long an element is, read off its first bytes. */
  predicate ElementShape(e: seq<byte>) {
    && e != [] && e[0] != '\"' as int
    && (e[0] == '\\' as int ==> |e| >= 2 && (if e[1] != 'u' as int then |e| == 2 else |e| == 6 || |e| == 12))
    && (e[0] != '\\' as int ==> |e| == if e[0] < 128 then 1 else if e[0] < 224 then 2 else if e[0] < 240 then 3 else 4)
  }

  lemma ElementHasShape(e: seq<byte>, c: codepoint)
    requires Element(e, c)
    ensures ElementShape(e)
    ensures |e| == 6 && e[0] == '\\' as int ==> UnitOf(e) == Some(c) && !(0xD800 <= c < 0xE000)
    ensures |e| == 12 ==> e[..6][..2] == Ascii("\\u") && UnitOf(e[..6]).Some? && 0xD800 <= UnitOf(e[..6]).value < 0xE000
  {
    if UnitOf(e).Some? { assert e[0] == e[..2][0] && e[1] == e[..2][1]; }
    if |e| == 12 && UnitOf(e[..6]).Some? { assert e[0] == e[..6][..2][0] && e[1] == e[..6][..2][1]; }
  }

  lemma OneElement(e: seq<byte>, c: codepoint, d: codepoint)
    requires Element(e, c) && Element(e, d)
    ensures c == d
  {
    ElementHasShape(e, c);
    ElementHasShape(e, d);
    hide UnitOf;
  }

  lemma ElementEnds(e: seq<byte>, x: seq<byte>, f: seq<byte>, y: seq<byte>, c: codepoint, d: codepoint)
    requires Element(e, c) && Element(f, d) && e + x == f + y
    ensures e == f && x == y && c == d
  {
    ElementHasShape(e, c);
    ElementHasShape(f, d);
    SameHead(e, x, f, y, 0);
    if e[0] == '\\' as int { SameHead(e, x, f, y, 1); }
    if |e| == 6 && |f| == 12 { LongerGoesOn(e, x, f, y); }
    if |f| == 6 && |e| == 12 { LongerGoesOn(f, y, e, x); }
    hide Element, UnitOf;
    SameParts(e, x, f, y);
    OneElement(e, c, d);
  }

  lemma Grouped(b: seq<byte>, k: nat, x: seq<byte>)
    requires k <= |b|
    ensures b + x == b[..k] + (b[k..] + x)
  {
  }

  lemma {:induction false} CharsEnd(b: seq<byte>, x: seq<byte>, d: seq<byte>, y: seq<byte>, t: Text, u: Text)
    requires CharsOf(b, t) && CharsOf(d, u) && b + x == d + y
    requires x != [] && x[0] == '\"' as int && y != [] && y[0] == '\"' as int
    ensures b == d && x == y && t == u
    decreases |t|
  {
    hide Element;
    if t != [] && u != [] {
      var k :| 0 < k <= |b| && Element(b[..k], t[0]) && CharsOf(b[k..], t[1..]);
      var j :| 0 < j <= |d| && Element(d[..j], u[0]) && CharsOf(d[j..], u[1..]);
      Grouped(b, k, x);
      Grouped(d, j, y);
      ElementEnds(b[..k], b[k..] + x, d[..j], d[j..] + y, t[0], u[0]);
      CharsEnd(b[k..], x, d[j..], y, t[1..], u[1..]);
      assert b == b[..k] + b[k..] && d == d[..j] + d[j..];
      assert t == [t[0]] + t[1..] && u == [u[0]] + u[1..];
    } else {
      assert t == [] ==> b + x == x;
      assert u == [] ==> d + y == y;
      if t != [] { NotClosingQuote(b, x, y, t); }
      if u != [] { NotClosingQuote(d, y, x, u); }
    }
  }

  lemma NotClosingQuote(b: seq<byte>, x: seq<byte>, y: seq<byte>, t: Text)
    requires CharsOf(b, t) && t != [] && y != [] && y[0] == '\"' as int
    ensures b + x != y
  {
    var k :| 0 < k <= |b| && Element(b[..k], t[0]) && CharsOf(b[k..], t[1..]);
    ElementHasShape(b[..k], t[0]);
    assert (b + x)[0] == b[..k][0];
  }

  lemma StringEnds(b: seq<byte>, x: seq<byte>, d: seq<byte>, y: seq<byte>, t: Text, u: Text)
    requires StringOf(b, t) && StringOf(d, u) && b + x == d + y
    ensures b == d && x == y && t == u
  {
    hide CharsOf;
    var (p, q) := (b[1..|b| - 1], d[1..|d| - 1]);
    var (v, w) := ([b[|b| - 1]] + x, [d[|d| - 1]] + y);
    assert b + x == [b[0]] + (p + v) && d + y == [d[0]] + (q + w);
    assert (b + x)[1..] == p + v && (d + y)[1..] == q + w;
    CharsEnd(p, v, q, w, t, u);
    assert b == [b[0]] + p + [b[|b| - 1]] && d == [d[0]] + q + [d[|d| - 1]];
    SameParts(b, x, d, y);
  }

  // ---------------------------------------------------------------- numbers

  predicate Numeric(b: seq<byte>) {
    forall i :: 0 <= i < |b| ==> b[i] == '-' as int || '0' as int <= b[i] <= '9' as int
  }

  lemma NumberIsNumeric(b: seq<byte>, n: int)
    requires NumberOf(b, n)
    ensures Numeric(b) && b != []
  {
    if !DigitsOf(b) {
      forall i | 0 <= i < |b| ensures b[i] == '-' as int || '0' as int <= b[i] <= '9' as int {
        if i > 0 { assert b[i] == b[1..][i - 1]; }
      }
    }
  }

  lemma NumberEnds(b: seq<byte>, x: seq<byte>, d: seq<byte>, y: seq<byte>, m: int, n: int)
    requires NumberOf(b, m) && NumberOf(d, n) && b + x == d + y && Ended(x) && Ended(y)
    ensures b == d && x == y && m == n
  {
    NumberIsNumeric(b, m);
    NumberIsNumeric(d, n);
    if |b| < |d| { LongerGoesOn(b, x, d, y); }
    if |d| < |b| { LongerGoesOn(d, y, b, x); }
    SameParts(b, x, d, y);
  }

  // ---------------------------------------------------------------- values

  /** The first byte says what kind of value follows. */
  lemma FirstByte(b: seq<byte>, v: Json)
    requires Denotes(b, v)
    ensures b != [] && !v.Foreign?
    ensures v.Null? <==> b[0] == 'n' as int
    ensures v.Boolean? <==> b[0] == 't' as int || b[0] == 'f' as int
    ensures v.Boolean? ==> (v.b <==> b[0] == 't' as int)
    ensures v.String? <==> b[0] == '\"' as int
    ensures v.List? <==> b[0] == '[' as int
    ensures v.Dict? <==> b[0] == '{' as int
    ensures v.Number? ==> b[0] == '-' as int || '0' as int <= b[0] <= '9' as int
  {
    hide ElementsOf, MembersOf, CharsOf;
    if v.Number? { NumberIsNumeric(b, v.n); }
  }

  /** Two values that begin the same text, each ended properly, are one. */
  lemma {:induction false} ValueEnds(b: seq<byte>, x: seq<byte>, d: seq<byte>, y: seq<byte>, v: Json, w: Json)
    requires Denotes(b, v) && Denotes(d, w) && b + x == d + y && Ended(x) && Ended(y)
    ensures b == d && x == y && v == w
    decreases v
  {
    FirstByte(b, v);
    FirstByte(d, w);
    SameHead(b, x, d, y, 0);
    match v
    case String(t) => StringEnds(b, x, d, y, t, w.text);
    case Number(n) => NumberEnds(b, x, d, y, n, w.n);
    case List(items) => ListEnds(b, x, d, y, v, w);
    case Dict(entries) => DictEnds(b, x, d, y, v, w);
    case _ => SameParts(b, x, d, y);
  }

  /** A bracketed text and what stands inside. */
  lemma Inside(b: seq<byte>, x: seq<byte>)
    requires |b| >= 2
    ensures (b + x)[1..] == b[1..|b| - 1] + ([b[|b| - 1]] + x)
  {
  }

  lemma SameInside(b: seq<byte>, d: seq<byte>)
    requires |b| >= 2 && |d| >= 2 && b[0] == d[0] && b[|b| - 1] == d[|d| - 1] && b[1..|b| - 1] == d[1..|d| - 1]
    ensures b == d
  {
    assert b == [b[0]] + b[1..|b| - 1] + [b[|b| - 1]] && d == [d[0]] + d[1..|d| - 1] + [d[|d| - 1]];
  }

  lemma {:induction false} ListEnds(b: seq<byte>, x: seq<byte>, d: seq<byte>, y: seq<byte>, v: Json, w: Json)
    requires v.List? && w.List? && Denotes(b, v) && Denotes(d, w) && b + x == d + y
    ensures b == d && x == y && v == w
    decreases v, 0
  {
    hide ElementsOf;
    Inside(b, x);
    Inside(d, y);
    ElementsEnd(b[1..|b| - 1], [b[|b| - 1]] + x, d[1..|d| - 1], [d[|d| - 1]] + y, v.items, w.items);
    SameInside(b, d);
    SameParts(b, x, d, y);
  }

  lemma SplitAt(b: seq<byte>, k: nat, x: seq<byte>)
    requires k < |b|
    ensures b + x == b[..k] + ([b[k]] + b[k + 1..] + x) && [b[k]] + b[k + 1..] + x == [b[k]] + (b[k + 1..] + x)
    ensures b == b[..k] + ([b[k]] + b[k + 1..])
  {
  }

  lemma FirstElement(b: seq<byte>, items: seq<Json>) returns (first: seq<byte>, rest: seq<byte>)
    requires ElementsOf(b, items) && items != []
    ensures b == first + rest && Denotes(first, items[0])
    ensures |items| == 1 ==> rest == []
    ensures |items| > 1 ==> rest != [] && rest[0] == ',' as int && ElementsOf(rest[1..], items[1..])
  {
    hide Denotes;
    if |items| == 1 { return b, []; }
    var k :| 0 <= k < |b| && Denotes(b[..k], items[0]) && b[k] == ',' as int && ElementsOf(b[k + 1..], items[1..]);
    first, rest := b[..k], b[k..];
    assert rest[1..] == b[k + 1..];
  }

  lemma {:induction false} ElementsEnd(b: seq<byte>, x: seq<byte>, d: seq<byte>, y: seq<byte>, items: seq<Json>, others: seq<Json>)
    requires ElementsOf(b, items) && ElementsOf(d, others) && b + x == d + y
    requires x != [] && x[0] == ']' as int && y != [] && y[0] == ']' as int
    ensures b == d && x == y && items == others
    decreases items, 0
  {
    hide Denotes, ElementsOf;
    if items == [] || others == [] {
      NoElements(b, x, d, y, items, others);
    } else {
      var first, rest := FirstElement(b, items);
      var other, more := FirstElement(d, others);
      assert first + (rest + x) == b + x && other + (more + y) == d + y;
      ValueEnds(first, rest + x, other, more + y, items[0], others[0]);
      if |items| > 1 && |others| > 1 {
        assert (rest + x)[1..] == rest[1..] + x && (more + y)[1..] == more[1..] + y;
        ElementsEnd(rest[1..], x, more[1..], y, items[1..], others[1..]);
        assert items == [items[0]] + items[1..] && others == [others[0]] + others[1..];
        assert rest == [rest[0]] + rest[1..] && more == [more[0]] + more[1..];
      } else {
        assert |items| == 1 ==> rest + x == x;
        assert |others| == 1 ==> more + y == y;
        assert |items| == 1 ==> items == [items[0]];
        assert |others| == 1 ==> others == [others[0]];
      }
    }
  }

  lemma NotClosing(b: seq<byte>, x: seq<byte>, y: seq<byte>, items: seq<Json>)
    requires ElementsOf(b, items) && items != [] && y != [] && y[0] == ']' as int
    ensures b + x != y
  {
    var first, rest := FirstElement(b, items);
    FirstByte(first, items[0]);
    assert (b + x)[0] == first[0];
  }

  lemma NoElements(b: seq<byte>, x: seq<byte>, d: seq<byte>, y: seq<byte>, items: seq<Json>, others: seq<Json>)
    requires ElementsOf(b, items) && ElementsOf(d, others) && b + x == d + y && (items == [] || others == [])
    requires x != [] && x[0] == ']' as int && y != [] && y[0] == ']' as int
    ensures b == d && x == y && items == others
  {
    assert items == [] ==> b + x == x;
    assert others == [] ==> d + y == y;
    if items != [] { NotClosing(b, x, y, items); }
    if others != [] { NotClosing(d, y, x, others); }
  }

  lemma {:induction false} DictEnds(b: seq<byte>, x: seq<byte>, d: seq<byte>, y: seq<byte>, v: Json, w: Json)
    requires v.Dict? && w.Dict? && Denotes(b, v) && Denotes(d, w) && b + x == d + y
    ensures b == d && x == y && v == w
    decreases v, 0
  {
    hide MembersOf;
    Inside(b, x);
    Inside(d, y);
    MembersEnd(b[1..|b| - 1], [b[|b| - 1]] + x, d[1..|d| - 1], [d[|d| - 1]] + y, v.entries, w.entries);
    SameInside(b, d);
    SameParts(b, x, d, y);
  }

  lemma {:induction false} MemberEnds(b: seq<byte>, x: seq<byte>, d: seq<byte>, y: seq<byte>, e: Entry, f: Entry)
    requires MemberOf(b, e) && MemberOf(d, f) && b + x == d + y && Ended(x) && Ended(y)
    ensures b == d && x == y && e == f
    decreases e
  {
    hide StringOf, Denotes;
    var k :| 0 <= k < |b| && StringOf(b[..k], e.key) && b[k] == ':' as int && Denotes(b[k + 1..], e.value);
    var j :| 0 <= j < |d| && StringOf(d[..j], f.key) && d[j] == ':' as int && Denotes(d[j + 1..], f.value);
    Grouped(b, k, x);
    Grouped(d, j, y);
    StringEnds(b[..k], b[k..] + x, d[..j], d[j..] + y, e.key, f.key);
    assert (b[k..] + x)[1..] == b[k + 1..] + x && (d[j..] + y)[1..] == d[j + 1..] + y;
    ValueEnds(b[k + 1..], x, d[j + 1..], y, e.value, f.value);
    SameParts(b, x, d, y);
  }

  lemma FirstMember(b: seq<byte>, entries: seq<Entry>) returns (first: seq<byte>, rest: seq<byte>)
    requires MembersOf(b, entries) && entries != []
    ensures b == first + rest && MemberOf(first, entries[0]) && first != [] && first[0] == '\"' as int
    ensures |entries| == 1 ==> rest == []
    ensures |entries| > 1 ==> rest != [] && rest[0] == ',' as int && MembersOf(rest[1..], entries[1..])
  {
    hide MemberOf;
    if |entries| == 1 {
      first, rest := b, [];
    } else {
      var k :| 0 <= k < |b| && MemberOf(b[..k], entries[0]) && b[k] == ',' as int && MembersOf(b[k + 1..], entries[1..]);
      first, rest := b[..k], b[k..];
      assert rest[1..] == b[k + 1..];
    }
    MemberStarts(first, entries[0]);
  }

  lemma MemberStarts(b: seq<byte>, e: Entry)
    requires MemberOf(b, e)
    ensures b != [] && b[0] == '\"' as int
  {
    hide Denotes, CharsOf;
    var j :| 0 <= j < |b| && StringOf(b[..j], e.key) && b[j] == ':' as int && Denotes(b[j + 1..], e.value);
    assert b[0] == b[..j][0];
  }

  lemma {:induction false} MembersEnd(b: seq<byte>, x: seq<byte>, d: seq<byte>, y: seq<byte>, entries: seq<Entry>, others: seq<Entry>)
    requires MembersOf(b, entries) && MembersOf(d, others) && b + x == d + y
    requires x != [] && x[0] == '}' as int && y != [] && y[0] == '}' as int
    ensures b == d && x == y && entries == others
    decreases entries, 0
  {
    hide MemberOf, MembersOf;
    if entries == [] || others == [] {
      NoMembers(b, x, d, y, entries, others);
    } else {
      var first, rest := FirstMember(b, entries);
      var other, more := FirstMember(d, others);
      assert first + (rest + x) == b + x && other + (more + y) == d + y;
      MemberEnds(first, rest + x, other, more + y, entries[0], others[0]);
      if |entries| > 1 && |others| > 1 {
        assert (rest + x)[1..] == rest[1..] + x && (more + y)[1..] == more[1..] + y;
        MembersEnd(rest[1..], x, more[1..], y, entries[1..], others[1..]);
        assert entries == [entries[0]] + entries[1..] && others == [others[0]] + others[1..];
        assert rest == [rest[0]] + rest[1..] && more == [more[0]] + more[1..];
      } else {
        assert |entries| == 1 ==> rest + x == x;
        assert |others| == 1 ==> more + y == y;
        assert |entries| == 1 ==> entries == [entries[0]];
        assert |others| == 1 ==> others == [others[0]];
      }
    }
  }

  lemma NotClosingBrace(b: seq<byte>, x: seq<byte>, y: seq<byte>, entries: seq<Entry>)
    requires MembersOf(b, entries) && entries != [] && y != [] && y[0] == '}' as int
    ensures b + x != y
  {
    var first, rest := FirstMember(b, entries);
    assert (b + x)[0] == first[0];
  }

  lemma NoMembers(b: seq<byte>, x: seq<byte>, d: seq<byte>, y: seq<byte>, entries: seq<Entry>, others: seq<Entry>)
    requires MembersOf(b, entries) && MembersOf(d, others) && b + x == d + y && (entries == [] || others == [])
    requires x != [] && x[0] == '}' as int && y != [] && y[0] == '}' as int
    ensures b == d && x == y && entries == others
  {
    assert entries == [] ==> b + x == x;
    assert others == [] ==> d + y == y;
    if entries != [] { NotClosingBrace(b, x, y, entries); }
    if others != [] { NotClosingBrace(d, y, x, others); }
  }

  /** A text denotes at most one value. */
  lemma DenotesOneValue(b: seq<byte>, v: Json, w: Json)
    requires Denotes(b, v) && Denotes(b, w)
    ensures v == w
  {
    ValueEnds(b, [], b, [], v, w);
  }

  // ---------------------------------------------------------------- the store's texts are JSON

  /** The text the writer fills in denotes the value it was given, its members in key order. */
  lemma CanonicalTextDenotes(v: Json)
    requires Writable(v, 0)
    ensures Denotes(JsonWriter.CanonicalText(v), Canonical(v)) && SameValue(v, Canonical(v))
  {
    CanonicalIsWritable(v, 0);
    CanonicalIsSame(v);
    WrittenDenotes(Canonical(v), 0);
  }

  /** Whatever the parser accepts is JSON, and it returns the only value the text denotes. */
  lemma AcceptedDenotes(b: seq<byte>, v: Json, w: Json)
    requires JsonParser.Parse(b) == Some(v)
    ensures Denotes(b, w) <==> w == v
  {
    JsonParser.ParseInvertsPrint(b, v);
    WrittenDenotes(v, 0);
    if Denotes(b, w) { DenotesOneValue(b, v, w); }
  }

  /** A value that can be written, in key order, is accepted in exactly one spelling among all that denote it. */
  lemma OneSpellingIsAccepted(b: seq<byte>, v: Json)
    requires WellFormed(v) && Writable(v, 0) && Denotes(b, Canonical(v))
    ensures JsonParser.Parse(b) == Some(Canonical(v)) <==> b == JsonWriter.CanonicalText(v)
  {
    CanonicalIsCanonical(v);
    CanonicalIsWritable(v, 0);
    JsonParser.ParseInvertsPrint(b, Canonical(v));
  }

  // ---------------------------------------------------------------- and the shortest JSON

  lemma ElementIsNoShorter(e: seq<byte>, c: codepoint)
    requires Element(e, c)
    ensures |CharText(c)| <= |e|
  {
  }

  lemma {:induction false} CharsAreNoShorter(b: seq<byte>, t: Text)
    requires CharsOf(b, t)
    ensures |CharsText(t)| <= |b| + 1
    decreases |t|
  {
    hide Element, CharText;
    if t != [] {
      var k :| 0 < k <= |b| && Element(b[..k], t[0]) && CharsOf(b[k..], t[1..]);
      ElementIsNoShorter(b[..k], t[0]);
      CharsAreNoShorter(b[k..], t[1..]);
    }
  }

  lemma {:induction false} DecimalIsValue(d: seq<byte>)
    requires forall i :: 0 <= i < |d| ==> Decimal.IsDigit(d[i])
    ensures DecimalValue(d) == Decimal.ValueOf(d)
  {
    if d != [] { DecimalIsValue(d[..|d| - 1]); }
  }

  /** A number has one spelling; only zero also has one with a sign. */
  lemma NumberIsNoShorter(b: seq<byte>, n: int)
    requires NumberOf(b, n)
    ensures b == Decimal.IntegerText(n) || b == Ascii("-0")
    ensures |Decimal.IntegerText(n)| <= |b|
  {
    var d := if DigitsOf(b) then b else b[1..];
    DecimalIsValue(d);
    Decimal.DigitsOfValue(d);
    assert b == d || b == [b[0]] + d;
    hide Decimal.Digits, DecimalValue, Decimal.ValueOf;
    if DigitsOf(b) {
      assert n >= 0 && Decimal.IntegerText(n) == b;
    } else if n == 0 {
      assert b == Ascii("-0");
    }
  }

  /** No text that denotes a value is shorter than the one the writer prints of it. */
  lemma {:induction false} WrittenIsShortest(b: seq<byte>, v: Json)
    requires Denotes(b, v)
    ensures |TextOf(v)| <= |b|
    decreases v
  {
    match v
    case Number(n) => NumberIsNoShorter(b, n);
    case String(t) => CharsAreNoShorter(b[1..|b| - 1], t);
    case List(items) => if items != [] { ItemsAreNoShorter(b[1..|b| - 1], items); }
    case Dict(entries) => if entries != [] { EntriesAreNoShorter(b[1..|b| - 1], entries); }
    case _ =>
  }

  lemma {:induction false} ItemsAreNoShorter(b: seq<byte>, items: seq<Json>)
    requires items != [] && ElementsOf(b, items)
    ensures |ItemsText(items)| <= |b| + 1
    decreases items, 0
  {
    hide Denotes, TextOf, ElementsOf;
    var first, rest := FirstElement(b, items);
    WrittenIsShortest(first, items[0]);
    if |items| > 1 { ItemsAreNoShorter(rest[1..], items[1..]); }
  }

  lemma {:induction false} MemberIsNoShorter(b: seq<byte>, e: Entry)
    requires MemberOf(b, e)
    ensures |EntryText(e)| <= |b|
    decreases e
  {
    hide Denotes, CharsOf, TextOf, CharsText;
    var k :| 0 <= k < |b| && StringOf(b[..k], e.key) && b[k] == ':' as int && Denotes(b[k + 1..], e.value);
    CharsAreNoShorter(b[..k][1..k - 1], e.key);
    WrittenIsShortest(b[k + 1..], e.value);
  }

  lemma {:induction false} EntriesAreNoShorter(b: seq<byte>, entries: seq<Entry>)
    requires entries != [] && MembersOf(b, entries)
    ensures |EntriesText(entries)| <= |b| + 1
    decreases entries, 0
  {
    hide MemberOf, EntryText, MembersOf;
    var first, rest := FirstMember(b, entries);
    MemberIsNoShorter(first, entries[0]);
    if |entries| > 1 { EntriesAreNoShorter(rest[1..], entries[1..]); }
  }

  // ---------------------------------------------------------------- some texts in full

  /** The short escapes, the control characters without one in lower case, and everything else as it is. */
  lemma KnownEscapes()
    ensures CharText(0x22) == Ascii("\\\"") && CharText(0x5C) == Ascii("\\\\") && CharText(0x2F) == Ascii("/")
    ensures CharText(0x08) == Ascii("\\b") && CharText(0x0C) == Ascii("\\f") && CharText(0x0A) == Ascii("\\n")
    ensures CharText(0x0D) == Ascii("\\r") && CharText(0x09) == Ascii("\\t") && CharText(0x41) == Ascii("A")
    ensures CharText(0x00) == Ascii("\\u0000") && CharText(0x1F) == Ascii("\\u001f")
  {
    HexOfSmall(0x00);
    HexOfSmall(0x1F);
  }

  /** The examples of section 7 of RFC 3629. */
  lemma KnownCharacters()
    ensures EncodeChar(0x391) == [0xCE, 0x91] && EncodeChar(0x2262) == [0xE2, 0x89, 0xA2]
    ensures EncodeChar(0xD55C) == [0xED, 0x95, 0x9C] && EncodeChar(0x233B4) == [0xF0, 0xA3, 0x8E, 0xB4]
  {
  }

  const KNOWN_LIST := List([Null, Boolean(true), Boolean(false)])
  const KNOWN_TREE := Dict([Entry([0x41], KNOWN_LIST), Entry([], Number(-10))])

  /** One tree with every kind of value. */
  lemma KnownText()
    ensures TextOf(KNOWN_TREE) == Ascii("{") + Ascii("\"A\":[null,true,false]") + Ascii(",") + Ascii("\"\":-10") + Ascii("}")
  {
    hide EntryText;
    KnownEntries();
    var entries := KNOWN_TREE.entries;
    assert entries[1..] == [entries[1]];
    assert EntriesText([entries[1]]) == EntryText(entries[1]) + [CLOSE_DICT];
    assert EntriesText(entries) == EntryText(entries[0]) + ([COMMA] + EntriesText([entries[1]]));
  }

  lemma KnownEntries()
    ensures EntryText(Entry([0x41], KNOWN_LIST)) == Ascii("\"A\":[null,true,false]")
    ensures EntryText(Entry([], Number(-10))) == Ascii("\"\":-10")
  {
    KnownList();
    KnownStrings();
    KnownNumber();
    hide StringText, Decimal.IntegerText;
  }

  lemma KnownStrings()
    ensures StringText([0x41]) == Ascii("\"A\"") && StringText([]) == Ascii("\"\"")
  {
    KnownEscapes();
    assert [0x41][1..] == [];
    assert CharsText([]) == Ascii("\"");
  }

  lemma KnownNumber()
    ensures Decimal.IntegerText(-10) == Ascii("-10")
  {
    assert Decimal.Digits(10) == [0x31, 0x30];
  }

  lemma KnownList()
    ensures TextOf(KNOWN_LIST) == Ascii("[null,true,false]")
  {
    var items := KNOWN_LIST.items;
    var last, two := [Boolean(false)], [Boolean(true), Boolean(false)];
    assert items[1..] == two && two[1..] == last;
    assert ItemsText(last) == FALSE_TEXT + [CLOSE_LIST];
    assert ItemsText(two) == TRUE_TEXT + ([COMMA] + ItemsText(last));
    assert ItemsText(items) == NULL_TEXT + ([COMMA] + ItemsText(two));
    hide ItemsText;
  }
}
