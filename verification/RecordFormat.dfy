/** The stored record of adapters/config_file_store.py: a metadata line, the canonical payload, and the same
    metadata again behind it. The decoder accepts exactly the encodings, and no near miss of one. */
module RecordFormat {
  import opened Options
  import opened Bytes
  import opened Decimal
  import opened JsonText
  import opened JsonParser
  import opened Crc32
  import Utf8
  import opened SegmentedRecords

  const MAX_GENERATION := 0x7FFF_FFFF
  const BAR: byte := 0x7C

  /** "LANDY_CONFIG_SLOT_V1" */
  const MAGIC: seq<byte> := [
    0x4C, 0x41, 0x4E, 0x44, 0x59, 0x5F, 0x43, 0x4F, 0x4E, 0x46, 0x49, 0x47, 0x5F, 0x53, 0x4C, 0x4F, 0x54, 0x5F, 0x56, 0x31]

  /** "LANDY_CONFIG_END_V1" */
  const FOOTER_MAGIC: seq<byte> := [
    0x4C, 0x41, 0x4E, 0x44, 0x59, 0x5F, 0x43, 0x4F, 0x4E, 0x46, 0x49, 0x47, 0x5F, 0x45, 0x4E, 0x44, 0x5F, 0x56, 0x31]

  datatype Meta = Meta(generation: nat, length: nat, checksum: nat)

  predicate ValidMeta(m: Meta) {
    1 <= m.generation <= MAX_GENERATION && 1 <= m.length && m.checksum <= 0xFFFF_FFFF
  }

  // ---------------------------------------------------------------- metadata lines

  function Join(parts: seq<seq<byte>>): seq<byte>
    requires parts != []
  {
    parts[0] + (if |parts| == 1 then [] else [BAR] + Join(parts[1..]))
  }

  /** Python's split at every bar. */
  function Split(line: seq<byte>): (parts: seq<seq<byte>>)
    ensures parts != []
    decreases |line|
  {
    var i := IndexOf(line, BAR, 0);
    if i == |line| then [line] else [line[..i]] + Split(line[i + 1..])
  }

  function MetaParts(magic: seq<byte>, m: Meta): seq<seq<byte>> {
    [magic, Digits(m.generation), Digits(m.length), Hex(m.checksum, 8)]
  }

  function MetaLine(magic: seq<byte>, m: Meta): seq<byte> {
    Join(MetaParts(magic, m))
  }

  /** A part that reads as a number and prints as itself again. */
  function CanonicalNumber(part: seq<byte>): Option<nat> {
    if part == [] || (exists i :: 0 <= i < |part| && !IsDigit(part[i])) || (part[0] == ZERO && |part| > 1) then None
    else Some(ValueOf(part))
  }

  function CanonicalHex(part: seq<byte>): Option<nat> {
    if |part| != 8 || (exists i :: 0 <= i < |part| && !IsHexDigit(part[i])) then None else Some(HexNumber(part))
  }

  function ParseMeta(line: seq<byte>, magic: seq<byte>): Option<Meta> {
    var parts := Split(line);
    if |parts| != 4 || parts[0] != magic then None
    else
      var generation, length, checksum := CanonicalNumber(parts[1]), CanonicalNumber(parts[2]), CanonicalHex(parts[3]);
      if generation.None? || length.None? || checksum.None? then None
      else
        var m := Meta(generation.value, length.value, checksum.value);
        if ValidMeta(m) then Some(m) else None
  }

  lemma {:induction false} JoinSplit(line: seq<byte>)
    ensures Join(Split(line)) == line
    decreases |line|
  {
    var i := IndexOf(line, BAR, 0);
    if i < |line| {
      JoinSplit(line[i + 1..]);
      assert Split(line)[1..] == Split(line[i + 1..]);
      assert line == line[..i] + ([BAR] + line[i + 1..]);
    }
  }

  lemma {:induction false} FirstBar(part: seq<byte>, rest: seq<byte>, start: nat)
    requires Lacks(part, BAR) && start <= |part|
    ensures IndexOf(part + [BAR] + rest, BAR, start) == |part|
    decreases |part| - start
  {
    if start < |part| {
      assert (part + [BAR] + rest)[start] == part[start];
      FirstBar(part, rest, start + 1);
    }
  }

  lemma {:induction false} NoBar(part: seq<byte>, start: nat)
    requires Lacks(part, BAR) && start <= |part|
    ensures IndexOf(part, BAR, start) == |part|
    decreases |part| - start
  {
    if start < |part| { NoBar(part, start + 1); }
  }

  lemma JoinStep(parts: seq<seq<byte>>)
    requires |parts| > 1
    ensures Join(parts) == parts[0] + [BAR] + Join(parts[1..])
  {
  }

  lemma {:induction false} SplitJoin(parts: seq<seq<byte>>)
    requires parts != [] && forall k :: 0 <= k < |parts| ==> Lacks(parts[k], BAR)
    ensures Split(Join(parts)) == parts
    decreases |parts|
  {
    if |parts| == 1 {
      assert Join(parts) == parts[0];
      NoBar(parts[0], 0);
    } else {
      hide Join;
      var rest := Join(parts[1..]);
      SplitJoin(parts[1..]);
      FirstBar(parts[0], rest, 0);
      var line := parts[0] + [BAR] + rest;
      JoinStep(parts);
      assert line[..|parts[0]|] == parts[0] && line[|parts[0]| + 1..] == rest;
      assert parts == [parts[0]] + parts[1..];
    }
  }

  lemma CanonicalNumberPrints(part: seq<byte>, n: nat)
    ensures CanonicalNumber(part) == Some(n) <==> part == Digits(n)
  {
    if CanonicalNumber(part) == Some(n) {
      DigitsOfValue(part);
    }
    if part == Digits(n) {
      ValueOfDigits(n);
    }
  }

  lemma CanonicalHexPrints(part: seq<byte>, n: nat)
    requires n <= 0xFFFF_FFFF
    ensures CanonicalHex(part) == Some(n) <==> part == Hex(n, 8)
  {
    EightHexDigits();
    if CanonicalHex(part) == Some(n) {
      HexOfHexNumber(part);
    }
    if part == Hex(n, 8) {
      HexNumberOfHex(n, 8);
    }
  }

  lemma MagicsArePlain()
    ensures Lacks(MAGIC, BAR) && Lacks(FOOTER_MAGIC, BAR) && Lacks(MAGIC, NEWLINE) && Lacks(FOOTER_MAGIC, NEWLINE)
  {
  }

  lemma PartsArePlain(magic: seq<byte>, m: Meta, c: byte)
    requires Lacks(magic, c) && (c == BAR || c == NEWLINE)
    ensures forall k :: 0 <= k < 4 ==> Lacks(MetaParts(magic, m)[k], c)
  {
    var hex := Hex(m.checksum, 8);
    assert forall i :: 0 <= i < |hex| ==> IsHexDigit(hex[i]);
  }

  lemma AcceptedMetaIsPrinted(line: seq<byte>, magic: seq<byte>, m: Meta)
    requires ParseMeta(line, magic) == Some(m)
    ensures ValidMeta(m) && line == MetaLine(magic, m)
  {
    hide Split, Join, CanonicalNumber, CanonicalHex, Digits, Hex;
    var parts := Split(line);
    JoinSplit(line);
    assert parts == [parts[0], parts[1], parts[2], parts[3]];
    CanonicalNumberPrints(parts[1], m.generation);
    CanonicalNumberPrints(parts[2], m.length);
    CanonicalHexPrints(parts[3], m.checksum);
  }

  lemma PrintedMetaIsAccepted(magic: seq<byte>, m: Meta)
    requires Lacks(magic, BAR) && ValidMeta(m)
    ensures ParseMeta(MetaLine(magic, m), magic) == Some(m)
  {
    hide Split, Join, CanonicalNumber, CanonicalHex, Digits, Hex;
    var parts := MetaParts(magic, m);
    PartsArePlain(magic, m, BAR);
    SplitJoin(parts);
    CanonicalNumberPrints(parts[1], m.generation);
    CanonicalNumberPrints(parts[2], m.length);
    CanonicalHexPrints(parts[3], m.checksum);
  }

  /** A line is accepted exactly when it is the printed form of valid metadata. */
  lemma MetaIsExact(line: seq<byte>, magic: seq<byte>, m: Meta)
    requires Lacks(magic, BAR)
    ensures ParseMeta(line, magic) == Some(m) <==> ValidMeta(m) && line == MetaLine(magic, m)
  {
    hide ParseMeta, MetaLine;
    if ParseMeta(line, magic) == Some(m) { AcceptedMetaIsPrinted(line, magic, m); }
    if ValidMeta(m) && line == MetaLine(magic, m) { PrintedMetaIsAccepted(magic, m); }
  }

  lemma MetaLineIsInjective(magic: seq<byte>, m: Meta, n: Meta)
    requires Lacks(magic, BAR) && ValidMeta(m) && ValidMeta(n) && MetaLine(magic, m) == MetaLine(magic, n)
    ensures m == n
  {
    MetaIsExact(MetaLine(magic, m), magic, m);
    MetaIsExact(MetaLine(magic, m), magic, n);
  }

  lemma MetaLineLength(magic: seq<byte>, m: Meta)
    ensures |MetaLine(magic, m)| == |magic| + |Digits(m.generation)| + |Digits(m.length)| + 11
  {
    var parts := MetaParts(magic, m);
    assert |Join([parts[3]])| == 8;
    assert [parts[2], parts[3]][1..] == [parts[3]];
    assert |Join([parts[2], parts[3]])| == |parts[2]| + 9;
    assert [parts[1], parts[2], parts[3]][1..] == [parts[2], parts[3]];
    assert |Join([parts[1], parts[2], parts[3]])| == |parts[1]| + |parts[2]| + 10;
    assert parts[1..] == [parts[1], parts[2], parts[3]];
    assert Join(parts) == parts[0] + ([BAR] + Join(parts[1..]));
  }

  lemma {:induction false} JoinLacks(parts: seq<seq<byte>>, c: byte)
    requires parts != [] && c != BAR && forall k :: 0 <= k < |parts| ==> Lacks(parts[k], c)
    ensures Lacks(Join(parts), c)
    decreases |parts|
  {
    if |parts| > 1 { JoinLacks(parts[1..], c); }
  }

  lemma MetaLineHasNoNewline(magic: seq<byte>, m: Meta)
    requires Lacks(magic, NEWLINE)
    ensures Lacks(MetaLine(magic, m), NEWLINE)
  {
    PartsArePlain(magic, m, NEWLINE);
    JoinLacks(MetaParts(magic, m), NEWLINE);
  }

  // ---------------------------------------------------------------- records

  function MetaOf(text: seq<byte>, generation: nat): Meta {
    Meta(generation, |text|, Checksum(text))
  }

  function Framed(m: Meta, text: seq<byte>): seq<byte> {
    MetaLine(MAGIC, m) + [NEWLINE] + text + [NEWLINE] + MetaLine(FOOTER_MAGIC, m) + [NEWLINE]
  }

  /** The record of one payload text under one generation. */
  function RecordBytes(text: seq<byte>, generation: nat): seq<byte> {
    Framed(MetaOf(text, generation), text)
  }

  /** What decoding returns. The SHA-256 token of the payload is represented by the payload text it is computed from. */
  datatype Stored = Stored(generation: nat, payload: Json, fingerprint: nat, token: seq<byte>)

  /** Every check of the decoder, in its order. */
  function Decode(b: seq<byte>, maximum: nat): Option<Stored> {
    if b == [] || |b| > maximum then None
    else
      var headerEnd := IndexOf(b, NEWLINE, 0);
      if headerEnd == 0 || headerEnd == |b| then None
      else
        var header := ParseMeta(b[..headerEnd], MAGIC);
        if header.None? then None else DecodeBehind(b, headerEnd + 1, header.value)
  }

  function DecodeBehind(b: seq<byte>, start: nat, m: Meta): Option<Stored>
    requires start <= |b|
  {
    var end := start + m.length;
    if end >= |b| || b[end] != NEWLINE then None
    else
      var footerEnd := IndexOf(b, NEWLINE, end + 1);
      if footerEnd != |b| - 1 then None
      else if ParseMeta(b[end + 1..footerEnd], FOOTER_MAGIC) != Some(m) then None
      else
        var text := b[start..end];
        if Checksum(text) != m.checksum then None
        else
          var payload := Parse(text);
          if payload.None? then None else Some(Stored(m.generation, payload.value, m.checksum, text))
  }

  lemma FramedSlices(m: Meta, text: seq<byte>)
    ensures var h, f := |MetaLine(MAGIC, m)|, |MetaLine(FOOTER_MAGIC, m)|;
            var b := Framed(m, text);
            && |b| == h + 1 + |text| + 1 + f + 1
            && b[..h] == MetaLine(MAGIC, m) && b[h] == NEWLINE && b[h + 1..h + 1 + |text|] == text
            && b[h + 1 + |text|] == NEWLINE && b[h + 1 + |text| + 1..|b| - 1] == MetaLine(FOOTER_MAGIC, m) && b[|b| - 1] == NEWLINE
  {
  }

  lemma FramedFromSlices(b: seq<byte>, m: Meta, h: nat, end: nat)
    requires h < end < |b| - 1 && b[h] == NEWLINE && b[end] == NEWLINE && b[|b| - 1] == NEWLINE
    requires b[..h] == MetaLine(MAGIC, m) && b[end + 1..|b| - 1] == MetaLine(FOOTER_MAGIC, m)
    ensures b == Framed(m, b[h + 1..end])
  {
    assert b == b[..h] + [b[h]] + b[h + 1..end] + [b[end]] + b[end + 1..|b| - 1] + [b[|b| - 1]];
  }

  lemma {:induction false} IndexSkips(b: seq<byte>, start: nat, i: nat)
    requires start <= i < |b| && b[i] == NEWLINE && forall k :: start <= k < i ==> b[k] != NEWLINE
    ensures IndexOf(b, NEWLINE, start) == i
    decreases i - start
  {
    if start < i { IndexSkips(b, start + 1, i); }
  }

  /** A header line is never empty. */
  lemma HeaderIsNotEmpty(m: Meta)
    ensures |MetaLine(MAGIC, m)| > 0
  {
    MetaLineLength(MAGIC, m);
  }

  lemma FramedPositions(m: Meta, text: seq<byte>)
    ensures var h := |MetaLine(MAGIC, m)|;
            var b := Framed(m, text);
            && IndexOf(b, NEWLINE, 0) == h
            && IndexOf(b, NEWLINE, h + 1 + |text| + 1) == |b| - 1
  {
    var h := |MetaLine(MAGIC, m)|;
    var b := Framed(m, text);
    var e := h + 1 + |text|;
    FramedSlices(m, text);
    MagicsArePlain();
    MetaLineHasNoNewline(MAGIC, m);
    MetaLineHasNoNewline(FOOTER_MAGIC, m);
    forall k | 0 <= k < h ensures b[k] != NEWLINE { assert b[k] == b[..h][k]; }
    IndexSkips(b, 0, h);
    forall k | e + 1 <= k < |b| - 1 ensures b[k] != NEWLINE { assert b[k] == b[e + 1..|b| - 1][k - e - 1]; }
    IndexSkips(b, e + 1, |b| - 1);
  }

  predicate Decodable(r: Stored) {
    1 <= r.generation <= MAX_GENERATION && Printable(r.payload, 0)
    && r.token == TextOf(r.payload) && r.fingerprint == Checksum(r.token)
  }

  lemma DecodeIsSound(b: seq<byte>, maximum: nat)
    requires Decode(b, maximum).Some?
    ensures var r := Decode(b, maximum).value;
            Decodable(r) && b == RecordBytes(r.token, r.generation) && |b| <= maximum
  {
    hide Framed, MetaLine, ParseMeta, Checksum, Parse, TextOf, Printable;
    var r := Decode(b, maximum).value;
    var h := IndexOf(b, NEWLINE, 0);
    var m := ParseMeta(b[..h], MAGIC).value;
    var end := h + 1 + m.length;
    MagicsArePlain();
    MetaIsExact(b[..h], MAGIC, m);
    MetaIsExact(b[end + 1..|b| - 1], FOOTER_MAGIC, m);
    FramedFromSlices(b, m, h, end);
    ParseInvertsPrint(r.token, r.payload);
  }

  lemma TextIsNotEmpty(v: Json)
    requires Printable(v, 0)
    ensures |TextOf(v)| >= 1
  {
    TextStarts(v);
  }

  lemma DecodeIsComplete(r: Stored, maximum: nat)
    requires Decodable(r) && |RecordBytes(r.token, r.generation)| <= maximum
    ensures Decode(RecordBytes(r.token, r.generation), maximum) == Some(r)
  {
    hide Framed, MetaLine, ParseMeta, Checksum, Parse, TextOf, IndexOf, Printable;
    var m := MetaOf(r.token, r.generation);
    var b := Framed(m, r.token);
    TextIsNotEmpty(r.payload);
    MagicsArePlain();
    FramedSlices(m, r.token);
    FramedPositions(m, r.token);
    HeaderIsNotEmpty(m);
    MetaIsExact(MetaLine(MAGIC, m), MAGIC, m);
    MetaIsExact(MetaLine(FOOTER_MAGIC, m), FOOTER_MAGIC, m);
    ParseInvertsPrint(r.token, r.payload);
  }

  /** Decoding succeeds with `r` on exactly one byte string: the record of r's payload and generation. */
  lemma DecodeInvertsEncode(b: seq<byte>, maximum: nat, r: Stored)
    ensures Decode(b, maximum) == Some(r) <==>
      Decodable(r) && |b| <= maximum && b == RecordBytes(TextOf(r.payload), r.generation)
  {
    if Decode(b, maximum) == Some(r) { DecodeIsSound(b, maximum); }
    if Decodable(r) && |b| <= maximum && b == RecordBytes(TextOf(r.payload), r.generation) { DecodeIsComplete(r, maximum); }
  }

  // ---------------------------------------------------------------- near misses

  /** The record's newlines: behind the header, behind the payload, and at the very end. */
  predicate ThreeNewlines(b: seq<byte>, p: nat, q: nat) {
    && p < q < |b| - 1
    && forall i :: 0 <= i < |b| ==> (b[i] == NEWLINE <==> i == p || i == q || i == |b| - 1)
  }

  lemma FramedNewlines(m: Meta, text: seq<byte>)
    requires Lacks(text, NEWLINE)
    ensures ThreeNewlines(Framed(m, text), |MetaLine(MAGIC, m)|, |MetaLine(MAGIC, m)| + 1 + |text|)
  {
    var h := |MetaLine(MAGIC, m)|;
    var b := Framed(m, text);
    var e := h + 1 + |text|;
    FramedSlices(m, text);
    MagicsArePlain();
    MetaLineHasNoNewline(MAGIC, m);
    MetaLineHasNoNewline(FOOTER_MAGIC, m);
    forall i | 0 <= i < |b| ensures b[i] == NEWLINE <==> i == h || i == e || i == |b| - 1 {
      if i < h {
        assert b[i] == b[..h][i];
      } else if h < i < e {
        assert b[i] == b[h + 1..e][i - h - 1];
      } else if e < i < |b| - 1 {
        assert b[i] == b[e + 1..|b| - 1][i - e - 1];
      }
    }
  }

  /** What an accepted record is made of. */
  lemma Anatomy(b: seq<byte>, maximum: nat) returns (m: Meta, text: seq<byte>, p: nat, q: nat)
    requires Decode(b, maximum).Some?
    ensures ValidMeta(m) && m.checksum == Checksum(text) && b == Framed(m, text)
    ensures ThreeNewlines(b, p, q) && q == p + 1 + |text| && b[p + 1..q] == text
    ensures b[..p] == MetaLine(MAGIC, m) && b[q + 1..|b| - 1] == MetaLine(FOOTER_MAGIC, m)
  {
    hide Framed, MetaLine, ParseMeta, Checksum, Parse, TextOf, IndexOf, Printable, ThreeNewlines;
    DecodeIsSound(b, maximum);
    var r := Decode(b, maximum).value;
    m, text := MetaOf(r.token, r.generation), r.token;
    TextIsNotEmpty(r.payload);
    TextHasNoNewline(r.payload);
    FramedSlices(m, text);
    FramedNewlines(m, text);
    p, q := |MetaLine(MAGIC, m)|, |MetaLine(MAGIC, m)| + 1 + |text|;
  }

  /** No strict prefix of an accepted record is accepted: a truncated write is noticed at any length. */
  lemma PrefixIsRejected(b: seq<byte>, k: nat, maximum: nat)
    requires Decode(b, maximum).Some? && k < |b|
    ensures Decode(b[..k], maximum).None?
  {
    if Decode(b[..k], maximum).Some? {
      hide Decode;
      var m, text, p, q := Anatomy(b, maximum);
      var n, other, p', q' := Anatomy(b[..k], maximum);
      PrefixLosesNewline(b, k, p, q, p', q');
    }
  }

  lemma PrefixLosesNewline(b: seq<byte>, k: nat, p: nat, q: nat, p': nat, q': nat)
    requires ThreeNewlines(b, p, q) && k < |b|
    ensures !ThreeNewlines(b[..k], p', q')
  {
    if p' < q' < k - 1 {
      var r := if p' != p && p' != q then p' else if q' != p && q' != q then q' else k - 1;
      assert b[..k][r] == b[r] != NEWLINE;
    }
  }

  /** No change of exactly one byte of an accepted record is accepted, wherever it is and whatever its length. */
  lemma ChangedByteIsRejected(b: seq<byte>, i: nat, c: byte, maximum: nat)
    requires Decode(b, maximum).Some? && i < |b| && b[i] != c
    ensures Decode(b[i := c], maximum).None?
  {
    var d := b[i := c];
    if Decode(d, maximum).Some? {
      hide Decode, Framed, MetaLine, Checksum, ValidMeta;
      var m, text, p, q := Anatomy(b, maximum);
      var n, other, p', q' := Anatomy(d, maximum);
      SameNewlines(b, i, c, p, q, p', q');
      HeaderIsUnchanged(b, i, c, p, q, m, n);
      FooterIsUnchanged(b, i, c, p, q, m, n);
      TextIsUnchanged(b, i, c, p, q, m, n);
    }
  }

  lemma HeaderIsUnchanged(b: seq<byte>, i: nat, c: byte, p: nat, q: nat, m: Meta, n: Meta)
    requires i < |b| && b[i] != c && p < q < |b| - 1 && ValidMeta(m) && ValidMeta(n)
    requires b[..p] == MetaLine(MAGIC, m) && b[i := c][..p] == MetaLine(MAGIC, n)
    requires b[q + 1..|b| - 1] == MetaLine(FOOTER_MAGIC, m) && b[i := c][q + 1..|b| - 1] == MetaLine(FOOTER_MAGIC, n)
    ensures i >= p
  {
    hide MetaLine, ValidMeta;
    MagicsArePlain();
    if i < p {
      SliceNotices(b, i, c, 0, p);
      SliceStays(b, i, c, q + 1, |b| - 1);
      MetaLineIsInjective(FOOTER_MAGIC, m, n);
    }
  }

  lemma FooterIsUnchanged(b: seq<byte>, i: nat, c: byte, p: nat, q: nat, m: Meta, n: Meta)
    requires i < |b| && b[i] != c && p < q < |b| - 1 && ValidMeta(m) && ValidMeta(n)
    requires b[..p] == MetaLine(MAGIC, m) && b[i := c][..p] == MetaLine(MAGIC, n)
    requires b[q + 1..|b| - 1] == MetaLine(FOOTER_MAGIC, m) && b[i := c][q + 1..|b| - 1] == MetaLine(FOOTER_MAGIC, n)
    ensures !(q < i < |b| - 1)
  {
    hide MetaLine, ValidMeta;
    MagicsArePlain();
    if q < i < |b| - 1 {
      SliceNotices(b, i, c, q + 1, |b| - 1);
      SliceStays(b, i, c, 0, p);
      MetaLineIsInjective(MAGIC, m, n);
    }
  }

  lemma TextIsUnchanged(b: seq<byte>, i: nat, c: byte, p: nat, q: nat, m: Meta, n: Meta)
    requires i < |b| && b[i] != c && p < q < |b| - 1 && ValidMeta(m) && ValidMeta(n)
    requires b[..p] == MetaLine(MAGIC, m) && b[i := c][..p] == MetaLine(MAGIC, n)
    requires m.checksum == Checksum(b[p + 1..q]) && n.checksum == Checksum(b[i := c][p + 1..q])
    ensures !(p < i < q)
  {
    hide MetaLine, ValidMeta, Checksum;
    MagicsArePlain();
    if p < i < q {
      SliceStays(b, i, c, 0, p);
      MetaLineIsInjective(MAGIC, m, n);
      assert b[i := c][p + 1..q] == b[p + 1..q][i - p - 1 := c];
      ChecksumNoticesChange(b[p + 1..q], i - p - 1, c);
    }
  }

  lemma SameNewlines(b: seq<byte>, i: nat, c: byte, p: nat, q: nat, p': nat, q': nat)
    requires i < |b| && b[i] != c && ThreeNewlines(b, p, q) && ThreeNewlines(b[i := c], p', q')
    ensures p == p' && q == q' && i != p && i != q && i != |b| - 1
  {
    var d := b[i := c];
    assert d[p'] == NEWLINE && d[q'] == NEWLINE && d[|b| - 1] == NEWLINE;
    assert b[p] == NEWLINE && b[q] == NEWLINE && b[|b| - 1] == NEWLINE;
    assert d[p] == (if i == p then c else b[p]) && d[q] == (if i == q then c else b[q]);
    assert d[p'] == (if i == p' then c else b[p']) && d[q'] == (if i == q' then c else b[q']);
  }

  lemma SliceStays(b: seq<byte>, i: nat, c: byte, lo: nat, hi: nat)
    requires lo <= hi <= |b| && i < |b| && !(lo <= i < hi)
    ensures b[i := c][lo..hi] == b[lo..hi]
  {
  }

  lemma SliceNotices(b: seq<byte>, i: nat, c: byte, lo: nat, hi: nat)
    requires lo <= i < hi <= |b| && b[i] != c
    ensures b[lo..hi] != b[i := c][lo..hi]
  {
    assert b[lo..hi][i - lo] != b[i := c][lo..hi][i - lo];
  }

  // ---------------------------------------------------------------- texts without newlines

  lemma LacksJoin(s: seq<byte>, t: seq<byte>)
    requires Lacks(s, NEWLINE) && Lacks(t, NEWLINE)
    ensures Lacks(s + t, NEWLINE)
  {
  }

  lemma CharTextHasNoNewline(c: Utf8.codepoint)
    ensures Lacks(CharText(c), NEWLINE)
  {
    if EscapeSuffix(c).None? {
      if c < 0x20 {
        var hex := Hex(c, 4);
        assert forall i :: 0 <= i < |hex| ==> IsHexDigit(hex[i]);
        LacksJoin([BACKSLASH, LETTER_U], hex);
      } else {
        Utf8.PrintableCharBytes(c);
      }
    }
  }

  lemma {:induction false} CharsTextHasNoNewline(t: Utf8.Text)
    ensures Lacks(CharsText(t), NEWLINE)
    decreases |t|
  {
    hide CharText, Lacks;
    if t == [] {
      OneByteLacks(QUOTE);
    } else {
      CharTextHasNoNewline(t[0]);
      CharsTextHasNoNewline(t[1..]);
      LacksJoin(CharText(t[0]), CharsText(t[1..]));
    }
  }

  lemma OneByteLacks(c: byte)
    ensures Lacks([c], NEWLINE) <==> c != NEWLINE
  {
    assert [c][0] == c;
  }

  lemma StringTextHasNoNewline(t: Utf8.Text)
    ensures Lacks(StringText(t), NEWLINE)
  {
    CharsTextHasNoNewline(t);
    OneByteLacks(QUOTE);
    LacksJoin([QUOTE], CharsText(t));
  }

  lemma IntegerTextHasNoNewline(n: int)
    ensures Lacks(IntegerText(n), NEWLINE)
  {
    var digits := Digits(if n < 0 then -n else n);
    assert forall i :: 0 <= i < |digits| ==> IsDigit(digits[i]);
  }

  /** Canonical text spells every control character out. */
  lemma {:induction false} TextHasNoNewline(v: Json)
    ensures Lacks(TextOf(v), NEWLINE)
    decreases v, 1
  {
    match v
    case Number(n) => IntegerTextHasNoNewline(n);
    case String(t) => StringTextHasNoNewline(t);
    case List(items) =>
      if items != [] {
        ItemsTextHasNoNewline(items);
        LacksJoin([OPEN_LIST], ItemsText(items));
      }
    case Dict(entries) =>
      if entries != [] {
        EntriesTextHasNoNewline(entries);
        LacksJoin([OPEN_DICT], EntriesText(entries));
      }
    case _ =>
  }

  lemma {:induction false} ItemsTextHasNoNewline(items: seq<Json>)
    requires items != []
    ensures Lacks(ItemsText(items), NEWLINE)
    decreases items, 0
  {
    hide Lacks, TextOf;
    TextHasNoNewline(items[0]);
    OneByteLacks(CLOSE_LIST);
    OneByteLacks(COMMA);
    if |items| == 1 {
      LacksJoin(TextOf(items[0]), [CLOSE_LIST]);
    } else {
      ItemsTextHasNoNewline(items[1..]);
      LacksJoin([COMMA], ItemsText(items[1..]));
      LacksJoin(TextOf(items[0]), [COMMA] + ItemsText(items[1..]));
    }
  }

  lemma {:induction false} EntryTextHasNoNewline(e: Entry)
    ensures Lacks(EntryText(e), NEWLINE)
    decreases e, 2
  {
    hide Lacks, TextOf, StringText;
    StringTextHasNoNewline(e.key);
    TextHasNoNewline(e.value);
    OneByteLacks(COLON);
    LacksJoin([COLON], TextOf(e.value));
    LacksJoin(StringText(e.key), [COLON] + TextOf(e.value));
  }

  lemma {:induction false} EntriesTextHasNoNewline(entries: seq<Entry>)
    requires entries != []
    ensures Lacks(EntriesText(entries), NEWLINE)
    decreases entries, 0
  {
    hide Lacks, EntryText;
    EntryTextHasNoNewline(entries[0]);
    OneByteLacks(CLOSE_DICT);
    OneByteLacks(COMMA);
    if |entries| == 1 {
      LacksJoin(EntryText(entries[0]), [CLOSE_DICT]);
    } else {
      EntriesTextHasNoNewline(entries[1..]);
      LacksJoin([COMMA], EntriesText(entries[1..]));
      LacksJoin(EntryText(entries[0]), [COMMA] + EntriesText(entries[1..]));
    }
  }
}
