/** The stored record as a reader of the file sees it: two lines of text around the payload, spelled out. */
module RecordLayout {
  import opened Options
  import opened Bytes
  import opened JsonGrammar
  import opened RecordFormat
  import Crc32
  import Decimal

  /** Eight lower-case hexadecimal digits and the number they denote. */
  predicate Eight(h: seq<byte>, n: nat) {
    && |h| == 8 && (forall i :: 0 <= i < 8 ==> '0' as int <= h[i] <= '9' as int || 'a' as int <= h[i] <= 'f' as int)
    && n == HexadecimalValue(h)
  }

  function HexadecimalValue(h: seq<byte>): int {
    if h == [] then 0
    else
      var d := HexOf(h[|h| - 1]);
      HexadecimalValue(h[..|h| - 1]) * 16 + (if d.Some? then d.value else 0)
  }

  /** Generation, length and checksum of the payload, separated by bars. */
  predicate Figures(line: seq<byte>, generation: nat, length: nat, checksum: nat, g: seq<byte>, l: seq<byte>, h: seq<byte>) {
    && line == g + Ascii("|") + l + Ascii("|") + h
    && DigitsOf(g) && DecimalValue(g) == generation && DigitsOf(l) && DecimalValue(l) == length && Eight(h, checksum)
  }

  function SlotMark(): seq<byte> {
    Ascii("LANDY_CONFIG_SLOT_V1|")
  }

  function EndMark(): seq<byte> {
    Ascii("LANDY_CONFIG_END_V1|")
  }

  /** A file holding `text` under a generation. */
  ghost predicate Holds(b: seq<byte>, text: seq<byte>, generation: nat) {
    exists line, g, l, h ::
      && Figures(line, generation, |text|, Crc32.Checksum(text), g, l, h)
      && b == SlotMark() + line + Ascii("\n") + text + Ascii("\n")
              + EndMark() + line + Ascii("\n")
  }

  lemma MagicsAreNames()
    ensures MAGIC + [BAR] == SlotMark() && FOOTER_MAGIC + [BAR] == EndMark()
  {
  }

  lemma {:induction false} HexIsEight(n: nat, width: nat)
    ensures var h := Decimal.Hex(n, width);
            (forall i :: 0 <= i < |h| ==> '0' as int <= h[i] <= '9' as int || 'a' as int <= h[i] <= 'f' as int)
            && (n < Decimal.Power16(width) ==> HexadecimalValue(h) == n)
  {
    var h := Decimal.Hex(n, width);
    if width > 0 {
      HexIsEight(n / 16, width - 1);
      assert h[..|h| - 1] == Decimal.Hex(n / 16, width - 1);
      HexIsRead(n % 16);
    }
  }

  lemma PartsAreJoined(parts: seq<seq<byte>>)
    requires |parts| == 4
    ensures Join(parts) == parts[0] + [BAR] + (parts[1] + [BAR] + parts[2] + [BAR] + parts[3])
  {
    assert Join(parts[1..]) == parts[1] + ([BAR] + Join(parts[1..][1..]));
    assert parts[1..][1..] == parts[2..] && parts[2..][1..] == parts[3..];
    assert Join(parts[2..]) == parts[2] + ([BAR] + Join(parts[3..]));
    assert Join(parts[3..]) == parts[3];
  }

  /** The metadata line of either magic. */
  lemma MetaLineFigures(magic: seq<byte>, m: Meta) returns (line: seq<byte>, g: seq<byte>, l: seq<byte>, h: seq<byte>)
    requires m.checksum <= 0xFFFF_FFFF
    ensures line == Decimal.Digits(m.generation) + [BAR] + Decimal.Digits(m.length) + [BAR] + Decimal.Hex(m.checksum, 8)
    ensures MetaLine(magic, m) == magic + [BAR] + line && Figures(line, m.generation, m.length, m.checksum, g, l, h)
  {
    g, l, h := Decimal.Digits(m.generation), Decimal.Digits(m.length), Decimal.Hex(m.checksum, 8);
    line := g + [BAR] + l + [BAR] + h;
    PartsAreJoined(MetaParts(magic, m));
    DigitsAreDecimal(m.generation);
    DigitsAreDecimal(m.length);
    HexIsEight(m.checksum, 8);
    assert Decimal.Power16(8) == 0x1_0000_0000;
    assert Ascii("|") == [BAR];
    hide Join, DigitsOf, DecimalValue, Decimal.Digits, Decimal.Hex, HexadecimalValue;
  }

  /** Every record is written in this layout. */
  lemma RecordIsLaidOut(text: seq<byte>, generation: nat)
    ensures Holds(RecordBytes(text, generation), text, generation)
  {
    var m := MetaOf(text, generation);
    hide MetaLine, Figures, Crc32.Checksum;
    var line, g, l, h := MetaLineFigures(MAGIC, m);
    var same, g', l', h' := MetaLineFigures(FOOTER_MAGIC, m);
    MagicsAreNames();
    hide SlotMark, EndMark;
    assert Ascii("\n") == [NEWLINE];
    assert RecordBytes(text, generation) ==
        SlotMark() + line + Ascii("\n") + text + Ascii("\n") + EndMark() + line + Ascii("\n");
  }
}
