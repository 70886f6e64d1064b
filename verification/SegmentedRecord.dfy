/** A record of fixed length kept in chunks of at most 256 bytes (adapters/config_file_store.py). Every
    operation is specified on the flat byte string that the chunks stand for. */
module SegmentedRecords {
  import opened Options
  import opened Bytes

  const CHUNK_BYTES := 256

  /** `value` written over `s` from `offset` on. */
  function Overwritten(s: seq<byte>, offset: nat, value: seq<byte>): (r: seq<byte>)
    requires offset + |value| <= |s|
    ensures |r| == |s|
  {
    s[..offset] + value + s[offset + |value|..]
  }

  lemma OverwrittenTwice(s: seq<byte>, offset: nat, first: seq<byte>, second: seq<byte>)
    requires offset + |first| + |second| <= |s|
    ensures Overwritten(Overwritten(s, offset, first), offset + |first|, second) == Overwritten(s, offset, first + second)
  {
  }

  lemma OverwrittenStep(s: seq<byte>, offset: nat, value: seq<byte>, i: nat)
    requires offset + |value| <= |s| && i < |value|
    ensures Overwritten(Overwritten(s, offset, value[..i]), offset + i, [value[i]]) == Overwritten(s, offset, value[..i + 1])
  {
    OverwrittenTwice(s, offset, value[..i], [value[i]]);
    assert value[..i] + [value[i]] == value[..i + 1];
  }

  lemma OverwrittenNothing(s: seq<byte>, offset: nat)
    requires offset <= |s|
    ensures Overwritten(s, offset, []) == s
  {
  }

  lemma OverwrittenSlice(s: seq<byte>, offset: nat, value: seq<byte>)
    requires offset + |value| <= |s|
    ensures Overwritten(s, offset, value)[offset..offset + |value|] == value
  {
  }

  /** The first position of `value` from `start` on; the length when there is none. */
  function IndexOf(s: seq<byte>, value: byte, start: nat): (i: nat)
    requires start <= |s|
    ensures start <= i <= |s| && (i < |s| ==> s[i] == value)
    ensures forall k :: start <= k < i ==> s[k] != value
    decreases |s| - start
  {
    if start == |s| || s[start] == value then start else IndexOf(s, value, start + 1)
  }

  class SegmentedRecord {
    const length: nat
    const chunks: seq<array<byte>>

    /** Only the last chunk is shorter, and no chunk is shared. */
    ghost predicate Valid() {
      && |chunks| * CHUNK_BYTES < length + CHUNK_BYTES && length <= |chunks| * CHUNK_BYTES
      && (forall k :: 0 <= k < |chunks| ==> chunks[k].Length == if k < |chunks| - 1 then CHUNK_BYTES else length - k * CHUNK_BYTES)
      && (forall j, k :: 0 <= j < k < |chunks| ==> chunks[j] != chunks[k])
    }

    lemma Located(i: nat)
      requires Valid() && i < length
      ensures i / CHUNK_BYTES < |chunks| && i % CHUNK_BYTES < chunks[i / CHUNK_BYTES].Length
    {
    }

    ghost function ByteAt(i: nat): byte
      requires Valid() && i < length
      reads chunks
    {
      Located(i);
      chunks[i / CHUNK_BYTES][i % CHUNK_BYTES]
    }

    /** The flat record. */
    ghost function Contents(): (s: seq<byte>)
      requires Valid()
      reads chunks
      ensures |s| == length && forall i :: 0 <= i < length ==> s[i] == ByteAt(i)
    {
      seq(length, i requires 0 <= i < length && Valid() reads chunks => ByteAt(i))
    }

    constructor (length: nat)
      ensures this.length == length && Valid() && fresh(chunks)
    {
      var made: seq<array<byte>> := [];
      var remaining := length;
      while remaining > 0
        invariant 0 <= remaining <= length && fresh(made)
        invariant |made| * CHUNK_BYTES + remaining == length || (remaining == 0 && |made| * CHUNK_BYTES < length + CHUNK_BYTES && length <= |made| * CHUNK_BYTES)
        invariant forall k :: 0 <= k < |made| ==>
          made[k].Length == if k < |made| - 1 || remaining > 0 then CHUNK_BYTES else length - k * CHUNK_BYTES
        invariant forall j, k :: 0 <= j < k < |made| ==> made[j] != made[k]
      {
        var size := if remaining < CHUNK_BYTES then remaining else CHUNK_BYTES;
        var chunk := new byte[size](_ => 0);
        made := made + [chunk];
        remaining := remaining - size;
      }
      this.length := length;
      chunks := made;
    }

    /** Item assignment; an index outside the record is refused. */
    method Put(index: int, value: byte) returns (ok: bool)
      requires Valid()
      modifies chunks
      ensures ok == (0 <= index < length)
      ensures Contents() == if ok then Overwritten(old(Contents()), index, [value]) else old(Contents())
    {
      if index < 0 || index >= length { return false; }
      Located(index);
      var chunkIndex, chunkOffset := index / CHUNK_BYTES, index % CHUNK_BYTES;
      chunks[chunkIndex][chunkOffset] := value;
      forall i | 0 <= i < length ensures ByteAt(i) == if i == index then value else old(ByteAt(i)) {
        Located(i);
        assert i == (i / CHUNK_BYTES) * CHUNK_BYTES + i % CHUNK_BYTES;
      }
      return true;
    }

    /** Item access; an index outside the record is refused. */
    method Get(index: int) returns (value: Option<byte>)
      requires Valid()
      ensures value == if 0 <= index < length then Some(Contents()[index]) else None
    {
      if index < 0 || index >= length { return None; }
      Located(index);
      return Some(chunks[index / CHUNK_BYTES][index % CHUNK_BYTES]);
    }

    method FindByte(value: byte, start: nat) returns (position: int)
      requires Valid()
      ensures start >= length ==> position == -1
      ensures start < length ==>
        position == if IndexOf(Contents(), value, start) < length then IndexOf(Contents(), value, start) else -1
    {
      position := start;
      while position < length
        invariant start <= position
        invariant start < length ==> position <= length && IndexOf(Contents(), value, start) == IndexOf(Contents(), value, position)
      {
        var here := Get(position);
        if here.value == value { return; }
        position := position + 1;
      }
      return -1;
    }

    /** A copy of one range, gathered chunk by chunk. */
    method SliceBytes(start: nat, end: nat) returns (result: seq<byte>)
      requires Valid() && start <= end <= length
      ensures result == Contents()[start..end]
    {
      result := [];
      var position := start;
      while position < end
        invariant start <= position <= end
        invariant result == Contents()[start..position]
      {
        Located(position);
        var chunk := chunks[position / CHUNK_BYTES];
        var offset := position % CHUNK_BYTES;
        var stop := if chunk.Length < offset + end - position then chunk.Length else offset + end - position;
        ghost var base := position - offset;
        while offset < stop
          invariant offset <= stop <= chunk.Length
          invariant position == base + offset && start <= position <= end
          invariant result == Contents()[start..position]
          decreases stop - offset
        {
          assert chunk[offset] == ByteAt(position) by {
            assert position / CHUNK_BYTES == base / CHUNK_BYTES && position % CHUNK_BYTES == offset;
          }
          result := result + [chunk[offset]];
          offset := offset + 1;
          position := position + 1;
        }
      }
    }

    /** A stretch of bytes written in place. */
    method WriteBytes(offset: nat, value: seq<byte>) returns (end: nat)
      requires Valid() && offset + |value| <= length
      modifies chunks
      ensures end == offset + |value|
      ensures Contents() == Overwritten(old(Contents()), offset, value)
    {
      hide Overwritten;
      var i := 0;
      OverwrittenNothing(Contents(), offset);
      while i < |value|
        invariant 0 <= i <= |value|
        invariant Contents() == Overwritten(old(Contents()), offset, value[..i])
      {
        var ok := Put(offset + i, value[i]);
        OverwrittenStep(old(Contents()), offset, value, i);
        i := i + 1;
      }
      assert value[..i] == value;
      return offset + |value|;
    }
  }
}
