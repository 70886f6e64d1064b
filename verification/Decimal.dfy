/** Numbers as the record prints them: decimal integers, and eight lower-case hexadecimal digits. */
module Decimal {
  import opened Bytes

  const MINUS: byte := 0x2D
  const ZERO: byte := 0x30

  predicate IsDigit(b: byte) {
    0x30 <= b <= 0x39
  }

  /** What `str` prints for a natural number. */
  function Digits(n: nat): (s: seq<byte>)
    ensures s != [] && forall i :: 0 <= i < |s| ==> IsDigit(s[i])
    ensures s[0] == ZERO ==> n == 0
    ensures n == 0 ==> s == [ZERO]
  {
    if n < 10 then [ZERO + n] else Digits(n / 10) + [ZERO + n % 10]
  }

  function IntegerText(n: int): (s: seq<byte>)
    ensures s != [] && (s[0] == MINUS || IsDigit(s[0]))
  {
    if n < 0 then [MINUS] + Digits(-n) else Digits(n)
  }

  function DigitValue(b: byte): nat
    requires IsDigit(b)
  {
    b - ZERO
  }

  function ValueOf(s: seq<byte>): nat
    requires forall i :: 0 <= i < |s| ==> IsDigit(s[i])
  {
    if s == [] then 0 else ValueOf(s[..|s| - 1]) * 10 + DigitValue(s[|s| - 1])
  }

  lemma {:induction false} ValueOfDigits(n: nat)
    ensures ValueOf(Digits(n)) == n
  {
    var s := Digits(n);
    if n < 10 {
      assert s[..|s| - 1] == [];
      assert ValueOf([]) == 0;
    } else {
      assert s[..|s| - 1] == Digits(n / 10);
      ValueOfDigits(n / 10);
    }
  }

  /** A digit string without a leading zero is the one its value prints. */
  lemma {:induction false} DigitsOfValue(s: seq<byte>)
    requires s != [] && forall i :: 0 <= i < |s| ==> IsDigit(s[i])
    requires s[0] == ZERO ==> |s| == 1
    ensures Digits(ValueOf(s)) == s
    ensures |s| > 1 ==> ValueOf(s) >= 10
    decreases |s|
  {
    var front, last := s[..|s| - 1], DigitValue(s[|s| - 1]);
    assert s == front + [s[|s| - 1]];
    if front == [] {
      assert ValueOf(front) == 0;
    } else {
      DigitsOfValue(front);
      assert Digits(ValueOf(front))[0] != ZERO;
      var n := ValueOf(s);
      assert n / 10 == ValueOf(front) && n % 10 == last;
    }
  }

  lemma DigitsAreInjective(m: nat, n: nat)
    requires Digits(m) == Digits(n)
    ensures m == n
  {
    ValueOfDigits(m);
    ValueOfDigits(n);
  }

  // ---------------------------------------------------------------- hexadecimal

  function HexDigit(d: int): (b: byte)
    requires 0 <= d < 16
  {
    if d < 10 then ZERO + d else 0x61 + d - 10
  }

  predicate IsHexDigit(b: byte) {
    0x30 <= b <= 0x39 || 0x61 <= b <= 0x66
  }

  function HexValue(b: byte): (d: int)
    requires IsHexDigit(b)
    ensures 0 <= d < 16 && HexDigit(d) == b
  {
    if b <= 0x39 then b - ZERO else b - 0x61 + 10
  }

  /** The low `width` hexadecimal digits of `n`. */
  function Hex(n: nat, width: nat): (s: seq<byte>)
    ensures |s| == width && forall i :: 0 <= i < |s| ==> IsHexDigit(s[i])
  {
    if width == 0 then [] else Hex(n / 16, width - 1) + [HexDigit(n % 16)]
  }

  function HexNumber(s: seq<byte>): nat
    requires forall i :: 0 <= i < |s| ==> IsHexDigit(s[i])
  {
    if s == [] then 0 else HexNumber(s[..|s| - 1]) * 16 + HexValue(s[|s| - 1])
  }

  function Power16(width: nat): (p: nat)
    ensures p > 0
  {
    if width == 0 then 1 else 16 * Power16(width - 1)
  }

  lemma {:induction false} HexNumberOfHex(n: nat, width: nat)
    requires n < Power16(width)
    ensures HexNumber(Hex(n, width)) == n
    decreases width
  {
    if width > 0 {
      var s := Hex(n, width);
      assert s[..|s| - 1] == Hex(n / 16, width - 1);
      HexNumberOfHex(n / 16, width - 1);
    }
  }

  lemma {:induction false} HexOfHexNumber(s: seq<byte>)
    requires forall i :: 0 <= i < |s| ==> IsHexDigit(s[i])
    ensures HexNumber(s) < Power16(|s|) && Hex(HexNumber(s), |s|) == s
    decreases |s|
  {
    if s != [] {
      var front, last := s[..|s| - 1], HexValue(s[|s| - 1]);
      HexOfHexNumber(front);
      var n := HexNumber(s);
      assert n / 16 == HexNumber(front) && n % 16 == last;
      assert s == front + [s[|s| - 1]];
    }
  }

  lemma EightHexDigits()
    ensures Power16(8) == 0x1_0000_0000
  {
    assert Power16(0) == 1 && Power16(1) == 16 && Power16(2) == 0x100 && Power16(3) == 0x1000;
    assert Power16(4) == 0x1_0000 && Power16(5) == 0x10_0000 && Power16(6) == 0x100_0000;
  }
}
