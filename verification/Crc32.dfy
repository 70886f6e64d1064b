/** The IEEE CRC-32 of adapters/config_file_store.py, and why it notices any change of a single byte. */
module Crc32 {
  import opened Bytes

  const POLYNOMIAL: bv32 := 0xEDB88320
  const ALL_ONES: bv32 := 0xFFFF_FFFF

  function Bits(b: byte): bv32 {
    (b as bv8) as bv32
  }

  function Shift(v: bv32): bv32 {
    if v & 1 == 1 then (v >> 1) ^ POLYNOMIAL else v >> 1
  }

  function ShiftTimes(v: bv32, n: nat): bv32
    decreases n
  {
    if n == 0 then v else ShiftTimes(Shift(v), n - 1)
  }

  function Mix(v: bv32, x: bv32): bv32 {
    ShiftTimes(v ^ x, 8)
  }

  function Step(v: bv32, b: byte): bv32 {
    Mix(v, Bits(b))
  }

  function Fold(v: bv32, data: seq<byte>): bv32
    decreases |data|
  {
    if data == [] then v else Fold(Step(v, data[0]), data[1..])
  }

  function Register(data: seq<byte>): bv32 {
    Fold(ALL_ONES, data) ^ ALL_ONES
  }

  /** The checksum as the number the record prints. */
  function Checksum(data: seq<byte>): (c: int)
    ensures 0 <= c <= 0xFFFF_FFFF
  {
    Register(data) as int
  }

  method MixRounds(v: bv32, x: bv32) returns (value: bv32)
    ensures value == Mix(v, x)
  {
    value := v ^ x;
    var round := 0;
    while round < 8
      invariant 0 <= round <= 8
      invariant ShiftTimes(value, 8 - round) == ShiftTimes(v ^ x, 8)
    {
      if value & 1 == 1 { value := (value >> 1) ^ POLYNOMIAL; } else { value := value >> 1; }
      round := round + 1;
    }
  }

  method Compute(data: seq<byte>) returns (checksum: int)
    ensures checksum == Checksum(data)
  {
    var value: bv32 := ALL_ONES;
    var i := 0;
    while i < |data|
      invariant 0 <= i <= |data|
      invariant Fold(value, data[i..]) == Fold(ALL_ONES, data)
    {
      assert data[i..][1..] == data[i + 1..];
      value := MixRounds(value, Bits(data[i]));
      i := i + 1;
    }
    return (value ^ ALL_ONES) as int;
  }

  // The top bit of the polynomial is set, so the top bit of a shifted register tells which branch made it.
  lemma ShiftIsInjective(v: bv32, w: bv32)
    requires Shift(v) == Shift(w)
    ensures v == w
  {
  }

  lemma {:induction false} ShiftTimesIsInjective(v: bv32, w: bv32, n: nat)
    requires ShiftTimes(v, n) == ShiftTimes(w, n)
    ensures v == w
    decreases n
  {
    if n > 0 {
      ShiftTimesIsInjective(Shift(v), Shift(w), n - 1);
      ShiftIsInjective(v, w);
    }
  }

  lemma BitsAreInjective(a: byte, b: byte)
    requires Bits(a) == Bits(b)
    ensures a == b
  {
    WidenIsInjective(a as bv8, b as bv8);
    BitsHoldByte(a);
    BitsHoldByte(b);
  }

  lemma WidenIsInjective(a: bv8, b: bv8)
    requires a as bv32 == b as bv32
    ensures a == b
  {
  }

  lemma BitsHoldByte(b: int)
    requires 0 <= b < 256
    ensures (b as bv8) as int == b
  {
    if b < 128 { if b < 64 {} else {} } else { if b < 192 {} else {} }
  }

  lemma XorCancels(v: bv32, x: bv32, y: bv32)
    requires v ^ x == v ^ y
    ensures x == y
  {
  }

  lemma XorCancelsRight(v: bv32, w: bv32, x: bv32)
    requires v ^ x == w ^ x
    ensures v == w
  {
  }

  lemma MixIsInjective(v: bv32, w: bv32, x: bv32)
    requires Mix(v, x) == Mix(w, x)
    ensures v == w
  {
    ShiftTimesIsInjective(v ^ x, w ^ x, 8);
    XorCancelsRight(v, w, x);
  }

  lemma MixNotices(v: bv32, x: bv32, y: bv32)
    requires Mix(v, x) == Mix(v, y)
    ensures x == y
  {
    ShiftTimesIsInjective(v ^ x, v ^ y, 8);
    XorCancels(v, x, y);
  }

  lemma {:induction false} FoldIsInjective(v: bv32, w: bv32, data: seq<byte>)
    requires Fold(v, data) == Fold(w, data)
    ensures v == w
    decreases |data|
  {
    if data != [] {
      FoldIsInjective(Step(v, data[0]), Step(w, data[0]), data[1..]);
      MixIsInjective(v, w, Bits(data[0]));
    }
  }

  lemma {:induction false} FoldNoticesChange(v: bv32, data: seq<byte>, i: nat, b: byte)
    requires i < |data| && data[i] != b
    ensures Fold(v, data) != Fold(v, data[i := b])
    decreases |data|
  {
    var changed := data[i := b];
    if i == 0 {
      assert changed[1..] == data[1..];
      if Fold(v, data) == Fold(v, changed) {
        FoldIsInjective(Step(v, data[0]), Step(v, b), data[1..]);
        MixNotices(v, Bits(data[0]), Bits(b));
        BitsAreInjective(data[0], b);
      }
    } else {
      assert changed[1..] == data[1..][i - 1 := b];
      FoldNoticesChange(Step(v, data[0]), data[1..], i - 1, b);
    }
  }

  lemma NumberIsInjective(x: bv32, y: bv32)
    requires x as int == y as int
    ensures x == y
  {
    assert (x as int) as bv32 == x && (y as int) as bv32 == y;
  }

  /** At any length, changing exactly one byte changes the checksum. */
  lemma ChecksumNoticesChange(data: seq<byte>, i: nat, b: byte)
    requires i < |data| && data[i] != b
    ensures Checksum(data) != Checksum(data[i := b])
  {
    FoldNoticesChange(ALL_ONES, data, i, b);
    var changed := data[i := b];
    if Checksum(data) == Checksum(changed) {
      NumberIsInjective(Register(data), Register(changed));
      XorCancelsRight(Fold(ALL_ONES, data), Fold(ALL_ONES, changed), ALL_ONES);
    }
  }

  // ---------------------------------------------------------------- the polynomial

  lemma EightRounds(v: bv32)
    ensures ShiftTimes(v, 8) == Shift(Shift(Shift(Shift(Shift(Shift(Shift(Shift(v))))))))
  {
    assert ShiftTimes(v, 8) == ShiftTimes(Shift(Shift(Shift(Shift(v)))), 4);
  }

  lemma FirstSteps()
    ensures Step(0xFFFFFFFF, 0x31) == 0x7C231048
    ensures Step(0x7C231048, 0x32) == 0xB0ACBB32
    ensures Step(0xB0ACBB32, 0x33) == 0x77B79C2D
  {
    EightRounds(0xFFFFFFFF ^ 0x31);
    EightRounds(0x7C231048 ^ 0x32);
    EightRounds(0xB0ACBB32 ^ 0x33);
  }

  lemma SecondSteps()
    ensures Step(0x77B79C2D, 0x34) == 0x641C1F5C
    ensures Step(0x641C1F5C, 0x35) == 0x340AC5E3
    ensures Step(0x340AC5E3, 0x36) == 0xF68D2C9E
  {
    EightRounds(0x77B79C2D ^ 0x34);
    EightRounds(0x641C1F5C ^ 0x35);
    EightRounds(0x340AC5E3 ^ 0x36);
  }

  lemma ThirdSteps()
    ensures Step(0xF68D2C9E, 0x37) == 0xAFFC9660
    ensures Step(0xAFFC9660, 0x38) == 0x651F2550
    ensures Step(0x651F2550, 0x39) == 0x340BC6D9
  {
    EightRounds(0xF68D2C9E ^ 0x37);
    EightRounds(0xAFFC9660 ^ 0x38);
    EightRounds(0x651F2550 ^ 0x39);
  }

  lemma FoldNext(v: bv32, data: seq<byte>, i: nat, w: bv32)
    requires i < |data| && Step(v, data[i]) == w
    ensures Fold(v, data[i..]) == Fold(w, data[i + 1..])
  {
    assert data[i..][1..] == data[i + 1..];
  }

  /** The nine digits that CRCs are compared by. */
  const CHECKED: seq<byte> := [0x31, 0x32, 0x33, 0x34, 0x35, 0x36, 0x37, 0x38, 0x39]

  /** The published check value of this CRC: it depends on polynomial, bit order, start value and final complement. */
  lemma KnownChecksum()
    ensures Checksum(CHECKED) == 0xCBF43926
  {
    hide Step, Fold;
    FirstSteps();
    SecondSteps();
    ThirdSteps();
    FoldNext(0xFFFFFFFF, CHECKED, 0, 0x7C231048);
    FoldNext(0x7C231048, CHECKED, 1, 0xB0ACBB32);
    FoldNext(0xB0ACBB32, CHECKED, 2, 0x77B79C2D);
    FoldNext(0x77B79C2D, CHECKED, 3, 0x641C1F5C);
    FoldNext(0x641C1F5C, CHECKED, 4, 0x340AC5E3);
    FoldNext(0x340AC5E3, CHECKED, 5, 0xF68D2C9E);
    FoldNext(0xF68D2C9E, CHECKED, 6, 0xAFFC9660);
    FoldNext(0xAFFC9660, CHECKED, 7, 0x651F2550);
    FoldNext(0x651F2550, CHECKED, 8, 0x340BC6D9);
    NothingLeft(0x340BC6D9, CHECKED[9..]);
    assert CHECKED[0..] == CHECKED;
  }

  lemma NothingLeft(v: bv32, data: seq<byte>)
    requires data == []
    ensures Fold(v, data) == v
  {
  }
}
