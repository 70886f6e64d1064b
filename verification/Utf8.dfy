/** UTF-8 as RFC 3629 defines it, over the code points of a Python string. */
module Utf8 {
  import opened Options
  import opened Bytes

  type codepoint = c: int | 0 <= c <= 0x10FFFF
  type Text = seq<codepoint>

  predicate Surrogate(c: codepoint) {
    0xD800 <= c <= 0xDFFF
  }

  /** What the writer accepts: no surrogate anywhere. */
  predicate Encodable(t: Text) {
    forall i :: 0 <= i < |t| ==> !Surrogate(t[i])
  }

  function Tail(bits: int): (b: byte) {
    0x80 + bits % 0x40
  }

  function EncodeChar(c: codepoint): seq<byte> {
    if c < 0x80 then [c]
    else if c < 0x800 then [0xC0 + c / 0x40, Tail(c)]
    else if c < 0x10000 then [0xE0 + c / 0x40 / 0x40, Tail(c / 0x40), Tail(c)]
    else [0xF0 + c / 0x40 / 0x40 / 0x40, Tail(c / 0x40 / 0x40), Tail(c / 0x40), Tail(c)]
  }

  function Encode(t: Text): seq<byte> {
    if t == [] then [] else EncodeChar(t[0]) + Encode(t[1..])
  }

  predicate IsTail(b: seq<byte>, i: nat) {
    i < |b| && 0x80 <= b[i] < 0xC0
  }

  /** `high` followed by the six bits of a tail byte. */
  function Joined(high: int, tail: byte): int {
    high * 0x40 + tail - 0x80
  }

  /** The character at the head of `b`; a lead byte fixes the length and the range of the second byte, so
      overlong forms, surrogates and anything beyond U+10FFFF are refused. */
  function DecodeChar(b: seq<byte>): Option<codepoint>
    requires b != []
  {
    var lead: int := b[0];
    if lead < 0x80 then Some(lead)
    else if 0xC2 <= lead < 0xE0 then
      if IsTail(b, 1) then Some(Joined(lead - 0xC0, b[1])) else None
    else if 0xE0 <= lead < 0xF0 then
      if IsTail(b, 1) && IsTail(b, 2) && (lead == 0xE0 ==> b[1] >= 0xA0) && (lead == 0xED ==> b[1] < 0xA0)
      then Some(Joined(Joined(lead - 0xE0, b[1]), b[2])) else None
    else if 0xF0 <= lead < 0xF5 then
      if IsTail(b, 1) && IsTail(b, 2) && IsTail(b, 3) && (lead == 0xF0 ==> b[1] >= 0x90) && (lead == 0xF4 ==> b[1] < 0x90)
      then Some(Joined(Joined(Joined(lead - 0xF0, b[1]), b[2]), b[3])) else None
    else None
  }

  function Decode(b: seq<byte>): Option<Text>
    decreases |b|
  {
    if b == [] then Some([])
    else
      match DecodeChar(b)
      case None => None
      case Some(c) =>
        if |EncodeChar(c)| > |b| then None
        else
          match Decode(b[|EncodeChar(c)|..])
          case None => None
          case Some(t) => Some([c] + t)
  }

  lemma JoinInvertsSplit(bits: nat)
    ensures Joined(bits / 0x40, Tail(bits)) == bits
  {
  }

  lemma SplitInvertsJoin(high: nat, tail: byte)
    requires 0x80 <= tail < 0xC0
    ensures Joined(high, tail) >= 0 && Joined(high, tail) / 0x40 == high && Tail(Joined(high, tail)) == tail
  {
  }

  lemma CharRoundTrip(c: codepoint, rest: seq<byte>)
    requires !Surrogate(c)
    ensures DecodeChar(EncodeChar(c) + rest) == Some(c)
  {
    if c < 0x80 {
    } else if c < 0x800 {
      TwoBytes(c, EncodeChar(c) + rest);
    } else if c < 0x10000 {
      ThreeBytes(c, EncodeChar(c) + rest);
    } else {
      FourBytes(c, EncodeChar(c) + rest);
    }
  }

  lemma TwoBytes(c: codepoint, b: seq<byte>)
    requires 0x80 <= c < 0x800 && |b| >= 2 && b[0] == 0xC0 + c / 0x40 && b[1] == Tail(c)
    ensures DecodeChar(b) == Some(c)
  {
    JoinInvertsSplit(c);
  }

  lemma ThreeBytes(c: codepoint, b: seq<byte>)
    requires 0x800 <= c < 0x10000 && !Surrogate(c)
    requires |b| >= 3 && b[0] == 0xE0 + c / 0x40 / 0x40 && b[1] == Tail(c / 0x40) && b[2] == Tail(c)
    ensures DecodeChar(b) == Some(c)
  {
    var high := c / 0x40;
    JoinInvertsSplit(c);
    JoinInvertsSplit(high);
  }

  lemma FourBytes(c: codepoint, b: seq<byte>)
    requires 0x10000 <= c
    requires |b| >= 4 && b[0] == 0xF0 + c / 0x40 / 0x40 / 0x40
    requires b[1] == Tail(c / 0x40 / 0x40) && b[2] == Tail(c / 0x40) && b[3] == Tail(c)
    ensures DecodeChar(b) == Some(c)
  {
    var high := c / 0x40;
    JoinInvertsSplit(c);
    JoinInvertsSplit(high);
    JoinInvertsSplit(high / 0x40);
  }

  lemma CharIsExact(b: seq<byte>)
    requires b != [] && DecodeChar(b).Some?
    ensures var c := DecodeChar(b).value;
            !Surrogate(c) && |EncodeChar(c)| <= |b| && b[..|EncodeChar(c)|] == EncodeChar(c)
  {
    var lead: int := b[0];
    if lead < 0x80 {
    } else if lead < 0xE0 {
      SplitInvertsJoin(lead - 0xC0, b[1]);
    } else if lead < 0xF0 {
      SplitInvertsJoin(lead - 0xE0, b[1]);
      SplitInvertsJoin(Joined(lead - 0xE0, b[1]), b[2]);
    } else {
      SplitInvertsJoin(lead - 0xF0, b[1]);
      SplitInvertsJoin(Joined(lead - 0xF0, b[1]), b[2]);
      SplitInvertsJoin(Joined(Joined(lead - 0xF0, b[1]), b[2]), b[3]);
    }
  }

  /** Decoding what was encoded gives the text back. */
  lemma {:induction false} DecodeEncode(t: Text)
    requires Encodable(t)
    ensures Decode(Encode(t)) == Some(t)
    decreases |t|
  {
    if t != [] {
      var head, rest := EncodeChar(t[0]), Encode(t[1..]);
      CharRoundTrip(t[0], rest);
      assert (head + rest)[|head|..] == rest;
      DecodeEncode(t[1..]);
      assert [t[0]] + t[1..] == t;
    }
  }

  /** Decoding takes one exact character off the front. */
  lemma DecodeStep(b: seq<byte>) returns (c: codepoint, rest: seq<byte>, t: Text)
    requires b != [] && Decode(b).Some?
    ensures b == EncodeChar(c) + rest && |rest| < |b| && !Surrogate(c)
    ensures Decode(rest) == Some(t) && Decode(b) == Some([c] + t)
  {
    hide DecodeChar, EncodeChar;
    CharIsExact(b);
    c := DecodeChar(b).value;
    rest := b[|EncodeChar(c)|..];
    t := Decode(rest).value;
    CharIsNotEmpty(c);
  }

  lemma PrintableCharBytes(c: codepoint)
    requires c >= 0x20
    ensures forall i :: 0 <= i < |EncodeChar(c)| ==> EncodeChar(c)[i] >= 0x20
  {
  }

  lemma CharIsNotEmpty(c: codepoint)
    ensures EncodeChar(c) != []
  {
  }

  lemma EncodeCons(c: codepoint, t: Text)
    ensures Encode([c] + t) == EncodeChar(c) + Encode(t)
  {
    assert ([c] + t)[1..] == t;
  }

  /** Only the encodings of surrogate-free texts decode. */
  lemma {:induction false} EncodeDecode(b: seq<byte>)
    requires Decode(b).Some?
    ensures Encodable(Decode(b).value) && Encode(Decode(b).value) == b
    decreases |b|
  {
    if b != [] {
      hide Decode, Encode, EncodeChar;
      var c, rest, t := DecodeStep(b);
      EncodeDecode(rest);
      EncodeCons(c, t);
    }
  }
}
