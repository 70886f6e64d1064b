/** Byte strings, and where one stands inside another. */
module Bytes {
  type byte = b: int | 0 <= b < 256

  const NEWLINE: byte := 0x0A

  predicate Lacks(s: seq<byte>, c: byte) {
    forall i :: 0 <= i < |s| ==> s[i] != c
  }

  /** `s` stands in `b` from position `p` on. */
  predicate Occurs(s: seq<byte>, b: seq<byte>, p: nat)
    decreases |s|
  {
    if s == [] then p <= |b| else p < |b| && b[p] == s[0] && Occurs(s[1..], b, p + 1)
  }

  lemma {:induction false} OccursFits(s: seq<byte>, b: seq<byte>, p: nat)
    requires Occurs(s, b, p)
    ensures p + |s| <= |b|
    decreases |s|
  {
    if s != [] { OccursFits(s[1..], b, p + 1); }
  }

  lemma {:induction false} OccursSlice(s: seq<byte>, b: seq<byte>, p: nat)
    ensures Occurs(s, b, p) <==> p + |s| <= |b| && b[p..p + |s|] == s
    decreases |s|
  {
    if s != [] {
      OccursSlice(s[1..], b, p + 1);
      if p + |s| <= |b| {
        assert b[p..p + |s|] == [b[p]] + b[p + 1..p + |s|];
        assert s == [s[0]] + s[1..];
      }
    }
  }

  lemma {:induction false} OccursSplit(s: seq<byte>, t: seq<byte>, b: seq<byte>, p: nat)
    ensures Occurs(s + t, b, p) <==> Occurs(s, b, p) && Occurs(t, b, p + |s|)
    decreases |s|
  {
    if s == [] {
      assert s + t == t;
      if Occurs(t, b, p) { OccursFits(t, b, p); }
    } else {
      assert (s + t)[1..] == s[1..] + t;
      OccursSplit(s[1..], t, b, p + 1);
    }
  }

  lemma OccursOne(c: byte, b: seq<byte>, p: nat)
    ensures Occurs([c], b, p) <==> p < |b| && b[p] == c
  {
    assert [c][1..] == [];
  }

  lemma Regroup(s: seq<byte>, rest: seq<byte>)
    requires s != []
    ensures s + rest == [s[0]] + (s[1..] + rest)
  {
  }

  /** A byte in front of `t`. */
  lemma OccursAfter(c: byte, t: seq<byte>, b: seq<byte>, p: nat)
    ensures Occurs([c] + t, b, p) <==> p < |b| && b[p] == c && Occurs(t, b, p + 1)
  {
    assert ([c] + t)[1..] == t;
  }

  /** `s`, a separating byte and `t`. */
  lemma OccursAround(s: seq<byte>, c: byte, t: seq<byte>, b: seq<byte>, p: nat)
    ensures Occurs(s + ([c] + t), b, p) <==>
      Occurs(s, b, p) && p + |s| < |b| && b[p + |s|] == c && Occurs(t, b, p + |s| + 1)
  {
    OccursSplit(s, [c] + t, b, p);
    OccursAfter(c, t, b, p + |s|);
  }

  lemma OccursHead(s: seq<byte>, b: seq<byte>, p: nat)
    requires Occurs(s, b, p) && s != []
    ensures p < |b| && b[p] == s[0]
  {
  }
}
