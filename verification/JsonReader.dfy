/** The parser object of adapters/config_file_store.py: a position that moves over a segmented record, proved
    to accept what JsonParser accepts, return the same tree and stop at the same place. */
module JsonReader {
  import opened Options
  import opened Bytes
  import opened Decimal
  import opened Utf8
  import opened JsonText
  import opened JsonParser
  import opened SegmentedRecords

  /** What `rest` yields once `done` stands in front of it. */
  function Prepended<T>(done: seq<T>, rest: Option<(seq<T>, nat)>): Option<(seq<T>, nat)> {
    if rest.None? then None else Some((done + rest.value.0, rest.value.1))
  }

  lemma PrependedOnce<T>(done: seq<T>, one: T, rest: Option<(seq<T>, nat)>)
    ensures Prepended(done, Prepended([one], rest)) == Prepended(done + [one], rest)
  {
    if rest.Some? { assert done + ([one] + rest.value.0) == done + [one] + rest.value.0; }
  }

  lemma PrependedNothing<T>(rest: Option<(seq<T>, nat)>)
    ensures Prepended([], rest) == rest
  {
    if rest.Some? { assert [] + rest.value.0 == rest.value.0; }
  }

  /** One step of the raw string loop. */
  function RawByte(b: seq<byte>, p: nat): Option<(byte, nat)> {
    if p >= |b| || b[p] == QUOTE then None
    else if b[p] == BACKSLASH then ParseEscape(b, p + 1)
    else if b[p] < 0x20 then None
    else Some((b[p], p + 1))
  }

  lemma RawUnfolds(b: seq<byte>, p: nat)
    requires p < |b| && b[p] != QUOTE
    ensures ParseRaw(b, p) == if RawByte(b, p).None? then None else Prepended([RawByte(b, p).value.0], ParseRaw(b, RawByte(b, p).value.1))
  {
  }

  lemma ItemsUnfold(b: seq<byte>, p: nat, depth: nat)
    requires p < |b|
    ensures var item := ParseValue(b, p, depth + 1);
            ParseItems(b, p, depth) ==
            if item.None? || item.value.1 >= |b| then None
            else if b[item.value.1] == CLOSE_LIST then Some(([item.value.0], item.value.1 + 1))
            else if b[item.value.1] == COMMA then Prepended([item.value.0], ParseItems(b, item.value.1 + 1, depth))
            else None
  {
  }

  lemma EntriesUnfold(b: seq<byte>, p: nat, depth: nat, previous: Option<Text>)
    ensures var entry := ParseEntry(b, p, depth, previous);
            ParseEntries(b, p, depth, previous) ==
            if entry.None? || entry.value.1 >= |b| then None
            else if b[entry.value.1] == CLOSE_DICT then Some(([entry.value.0], entry.value.1 + 1))
            else if b[entry.value.1] == COMMA then Prepended([entry.value.0], ParseEntries(b, entry.value.1 + 1, depth, Some(entry.value.0.key)))
            else None
  {
  }

  lemma HexNumberOfNothing(b: seq<byte>)
    requires b == []
    ensures HexNumber(b) == 0
  {
  }

  lemma HexNumberStep(b: seq<byte>, start: nat, p: nat)
    requires start <= p < |b| && forall k :: start <= k <= p ==> IsHexDigit(b[k])
    ensures HexNumber(b[start..p + 1]) == HexNumber(b[start..p]) * 16 + HexValue(b[p])
  {
    var digits := b[start..p + 1];
    assert digits[..|digits| - 1] == b[start..p];
  }

  class CanonicalParser {
    const record: SegmentedRecord
    const end: nat
    var position: nat

    ghost predicate Valid()
      reads this
    {
      record.Valid() && position <= end <= record.length
    }

    /** The bytes up to the end of the payload. */
    ghost function Input(): (b: seq<byte>)
      requires record.Valid() && end <= record.length
      reads record.chunks
      ensures |b| == end
    {
      record.Contents()[..end]
    }

    constructor (record: SegmentedRecord, start: nat, end: nat)
      requires record.Valid() && start <= end <= record.length
      ensures this.record == record && this.end == end && position == start && Valid()
    {
      this.record, this.end, position := record, end, start;
    }

    method Peek() returns (b: Option<byte>)
      requires Valid()
      ensures b == if position < end then Some(Input()[position]) else None
    {
      if position >= end { return None; }
      b := record.Get(position);
    }

    method Take() returns (b: Option<byte>)
      requires Valid()
      modifies `position
      ensures Valid() && b == if old(position) < end then Some(Input()[old(position)]) else None
      ensures position == if b.Some? then old(position) + 1 else old(position)
    {
      b := Peek();
      if b.Some? { position := position + 1; }
    }

    /** The rest of a literal, byte by byte. */
    method Literal(suffix: seq<byte>) returns (ok: bool)
      requires Valid()
      modifies `position
      ensures Valid() && ok == Occurs(suffix, Input(), old(position))
      ensures ok ==> position == old(position) + |suffix|
    {
      var i := 0;
      while i < |suffix|
        invariant Valid() && 0 <= i <= |suffix| && position == old(position) + i
        invariant Occurs(suffix[i..], Input(), position) == Occurs(suffix, Input(), old(position))
      {
        assert suffix[i..][1..] == suffix[i + 1..];
        var b := Take();
        if b != Some(suffix[i]) { return false; }
        i := i + 1;
      }
      return true;
    }

    method HexDigit() returns (digit: Option<byte>)
      requires Valid()
      modifies `position
      ensures Valid() && digit.Some? == (old(position) < end && IsHexDigit(Input()[old(position)]))
      ensures digit.Some? ==> digit.value == Input()[old(position)] && position == old(position) + 1
    {
      digit := Take();
      if digit.Some? && !IsHexDigit(digit.value) { digit := None; }
    }

    method FourDigits() returns (codepoint: Option<nat>)
      requires Valid()
      modifies `position
      ensures Valid() && codepoint.Some? == FourHexDigits(Input(), old(position))
      ensures codepoint.Some? ==> position == old(position) + 4 && codepoint.value == HexNumber(Input()[old(position)..position])
    {
      var value: nat := 0;
      var i := 0;
      hide HexNumber, IsHexDigit, Input, SegmentedRecord.Valid;
      ghost var input, start := Input(), position;
      HexNumberOfNothing(input[start..start]);
      while i < 4
        invariant Valid() && Input() == input && 0 <= i <= 4 && position == start + i
        invariant forall k :: start <= k < start + i ==> IsHexDigit(input[k])
        invariant value == HexNumber(input[start..start + i])
      {
        var digit := HexDigit();
        if digit.None? { return None; }
        HexNumberStep(input, start, start + i);
        value := value * 16 + HexValue(digit.value);
        i := i + 1;
      }
      return Some(value);
    }

    /** The byte behind a backslash. */
    method Escape() returns (b: Option<byte>)
      requires Valid()
      modifies `position
      ensures Valid() && (b.Some? <==> ParseEscape(Input(), old(position)).Some?)
      ensures b.Some? ==> ParseEscape(Input(), old(position)) == Some((b.value, position))
    {
      var escaped := Take();
      if escaped.None? { return None; }
      if Unescaped(escaped.value).Some? { return Unescaped(escaped.value); }
      if escaped.value != LETTER_U { return None; }
      var codepoint := FourDigits();
      if codepoint.None? || codepoint.value >= 0x20 || EscapeSuffix(codepoint.value).Some? { return None; }
      return Some(codepoint.value);
    }

    /** The unescaped bytes of a string, up to and including its closing quote. */
    method Raw() returns (raw: Option<seq<byte>>)
      requires Valid()
      modifies `position
      ensures Valid() && (raw.Some? <==> ParseRaw(Input(), old(position)).Some?)
      ensures raw.Some? ==> ParseRaw(Input(), old(position)) == Some((raw.value, position))
    {
      hide ParseEscape;
      var result: seq<byte> := [];
      PrependedNothing(ParseRaw(Input(), position));
      while true
        invariant Valid()
        invariant ParseRaw(Input(), old(position)) == Prepended(result, ParseRaw(Input(), position))
        decreases end - position
      {
        ghost var p := position;
        var b := Take();
        if b.None? { return None; }
        if b.value == QUOTE {
          assert result + [] == result;
          return Some(result);
        }
        RawUnfolds(Input(), p);
        var one := b;
        if b.value == BACKSLASH {
          one := Escape();
          if one.None? { return None; }
        } else if b.value < 0x20 {
          return None;
        }
        PrependedOnce(result, one.value, ParseRaw(Input(), position));
        result := result + [one.value];
      }
    }

    method Text() returns (text: Option<Text>)
      requires Valid()
      modifies `position
      ensures Valid() && (text.Some? <==> ParseString(Input(), old(position)).Some?)
      ensures text.Some? ==> ParseString(Input(), old(position)) == Some((text.value, position))
    {
      hide ParseRaw;
      var quote := Take();
      if quote != Some(QUOTE) { return None; }
      var raw := Raw();
      if raw.None? { return None; }
      return Utf8.Decode(raw.value);
    }

    method PeekDigit() returns (digit: bool)
      requires Valid()
      ensures digit == DigitAt(Input(), position)
    {
      var b := Peek();
      return b.Some? && IsDigit(b.value);
    }

    method Sign() returns (negative: bool)
      requires Valid()
      modifies `position
      ensures Valid() && negative == (old(position) < end && Input()[old(position)] == MINUS)
      ensures position == if negative then old(position) + 1 else old(position)
    {
      var sign := Peek();
      negative := sign == Some(MINUS);
      if negative { position := position + 1; }
    }

    method Integer() returns (number: Option<int>)
      requires Valid()
      modifies `position
      ensures Valid() && (number.Some? <==> ParseInteger(Input(), old(position)).Some?)
      ensures number.Some? ==> ParseInteger(Input(), old(position)) == Some((number.value, position))
    {
      hide ScanDigits, Input, SegmentedRecord.Valid, IsDigit, DigitValue;
      var negative := Sign();
      var first := Take();
      if first.None? || !IsDigit(first.value) { return None; }
      if first.value == ZERO {
        var more := PeekDigit();
        if negative || more { return None; }
        return Some(0);
      }
      var magnitude: int := DigitsAfter(DigitValue(first.value));
      return Some(if negative then -magnitude else magnitude);
    }

    method DigitsAfter(first: nat) returns (value: nat)
      requires Valid()
      modifies `position
      ensures Valid() && (value, position) == ScanDigits(Input(), old(position), first)
    {
      hide Input, SegmentedRecord.Valid, IsDigit;
      value := first;
      var more := PeekDigit();
      while more
        invariant Valid() && more == DigitAt(Input(), position)
        invariant ScanDigits(Input(), position, value) == ScanDigits(Input(), old(position), first)
        decreases end - position
      {
        var digit := Take();
        value := value * 10 + DigitValue(digit.value);
        more := PeekDigit();
      }
    }

    /** One value; failure leaves the position wherever it was noticed. */
    method Value(depth: nat) returns (value: Option<Json>)
      requires Valid()
      modifies `position
      ensures Valid() && (value.Some? <==> ParseValue(Input(), old(position), depth).Some?)
      ensures value.Some? ==> ParseValue(Input(), old(position), depth) == Some((value.value, position))
      decreases MAX_DEPTH + 1 - depth, 3
    {
      if depth > MAX_DEPTH { return None; }
      var byte := Peek();
      if byte.None? { return None; }
      var b := byte.value;
      if b == NULL_TEXT[0] || b == TRUE_TEXT[0] || b == FALSE_TEXT[0] {
        value := Word(b, depth);
      } else if b == QUOTE {
        hide ParseString;
        var text := Text();
        value := if text.None? then None else Some(String(text.value));
      } else if b == OPEN_LIST {
        value := ListValue(depth);
      } else if b == OPEN_DICT {
        value := DictValue(depth);
      } else if b == MINUS || IsDigit(b) {
        hide ParseInteger;
        var number := Integer();
        value := if number.None? then None else Some(Number(number.value));
      } else {
        return None;
      }
    }

    lemma WordUnfolds(b: seq<byte>, p: nat, depth: nat)
      requires depth <= MAX_DEPTH && p < |b|
      ensures b[p] == NULL_TEXT[0] ==> ParseValue(b, p, depth) == if Occurs(NULL_TEXT, b, p) then Some((Null, p + 4)) else None
      ensures b[p] == TRUE_TEXT[0] ==> ParseValue(b, p, depth) == if Occurs(TRUE_TEXT, b, p) then Some((Boolean(true), p + 4)) else None
      ensures b[p] == FALSE_TEXT[0] ==> ParseValue(b, p, depth) == if Occurs(FALSE_TEXT, b, p) then Some((Boolean(false), p + 5)) else None
    {
    }

    method Word(b: byte, depth: nat) returns (value: Option<Json>)
      requires Valid() && depth <= MAX_DEPTH && position < end && Input()[position] == b
      requires b == NULL_TEXT[0] || b == TRUE_TEXT[0] || b == FALSE_TEXT[0]
      modifies `position
      ensures Valid() && (value.Some? <==> ParseValue(Input(), old(position), depth).Some?)
      ensures value.Some? ==> ParseValue(Input(), old(position), depth) == Some((value.value, position))
    {
      hide ParseValue, Occurs;
      WordUnfolds(Input(), position, depth);
      var word := if b == NULL_TEXT[0] then NULL_TEXT else if b == TRUE_TEXT[0] then TRUE_TEXT else FALSE_TEXT;
      OccursAfter(b, word[1..], Input(), position);
      assert word == [b] + word[1..];
      position := position + 1;
      var ok := Literal(word[1..]);
      if !ok { return None; }
      return Some(if b == NULL_TEXT[0] then Null else Boolean(b == TRUE_TEXT[0]));
    }

    method ListValue(depth: nat) returns (value: Option<Json>)
      requires Valid() && depth <= MAX_DEPTH && position < end && Input()[position] == OPEN_LIST
      modifies `position
      ensures Valid() && (value.Some? <==> ParseValue(Input(), old(position), depth).Some?)
      ensures value.Some? ==> ParseValue(Input(), old(position), depth) == Some((value.value, position))
      decreases MAX_DEPTH + 1 - depth, 2
    {
      hide ParseItems;
      position := position + 1;
      var close := Peek();
      if close == Some(CLOSE_LIST) {
        position := position + 1;
        return Some(List([]));
      }
      var items := Items(depth);
      return if items.None? then None else Some(List(items.value));
    }

    method Items(depth: nat) returns (items: Option<seq<Json>>)
      requires Valid() && depth <= MAX_DEPTH
      modifies `position
      ensures Valid() && (items.Some? <==> ParseItems(Input(), old(position), depth).Some?)
      ensures items.Some? ==> ParseItems(Input(), old(position), depth) == Some((items.value, position))
      decreases MAX_DEPTH + 1 - depth, 1
    {
      hide ParseItems, ParseValue;
      var result: seq<Json> := [];
      PrependedNothing(ParseItems(Input(), position, depth));
      while true
        invariant Valid()
        invariant ParseItems(Input(), old(position), depth) == Prepended(result, ParseItems(Input(), position, depth))
        decreases end - position
      {
        NoItemsAtEnd(Input(), position, depth);
        if position < end { ItemsUnfold(Input(), position, depth); } else { return None; }
        var item := Value(depth + 1);
        if item.None? { return None; }
        var separator := Take();
        if separator.None? { return None; }
        if separator.value == CLOSE_LIST { return Some(result + [item.value]); }
        if separator.value != COMMA { return None; }
        PrependedOnce(result, item.value, ParseItems(Input(), position, depth));
        result := result + [item.value];
      }
    }

    lemma NoItemsAtEnd(b: seq<byte>, p: nat, depth: nat)
      ensures p >= |b| ==> ParseItems(b, p, depth).None?
    {
    }

    method DictValue(depth: nat) returns (value: Option<Json>)
      requires Valid() && depth <= MAX_DEPTH && position < end && Input()[position] == OPEN_DICT
      modifies `position
      ensures Valid() && (value.Some? <==> ParseValue(Input(), old(position), depth).Some?)
      ensures value.Some? ==> ParseValue(Input(), old(position), depth) == Some((value.value, position))
      decreases MAX_DEPTH + 1 - depth, 2
    {
      hide ParseEntries;
      position := position + 1;
      var close := Peek();
      if close == Some(CLOSE_DICT) {
        position := position + 1;
        return Some(Dict([]));
      }
      var entries := Entries(depth);
      return if entries.None? then None else Some(Dict(entries.value));
    }

    method EntryValue(depth: nat, previous: Option<Text>) returns (entry: Option<Entry>)
      requires Valid() && depth <= MAX_DEPTH
      modifies `position
      ensures Valid() && (entry.Some? <==> ParseEntry(Input(), old(position), depth, previous).Some?)
      ensures entry.Some? ==> ParseEntry(Input(), old(position), depth, previous) == Some((entry.value, position))
      decreases MAX_DEPTH + 1 - depth, 0
    {
      hide ParseValue, ParseString;
      var key := Text();
      if key.None? { return None; }
      if previous.Some? && !Less(previous.value, key.value) { return None; }
      var colon := Take();
      if colon != Some(COLON) { return None; }
      var value := Value(depth + 1);
      return if value.None? then None else Some(Entry(key.value, value.value));
    }

    method Entries(depth: nat) returns (entries: Option<seq<Entry>>)
      requires Valid() && depth <= MAX_DEPTH
      modifies `position
      ensures Valid() && (entries.Some? <==> ParseEntries(Input(), old(position), depth, None).Some?)
      ensures entries.Some? ==> ParseEntries(Input(), old(position), depth, None) == Some((entries.value, position))
      decreases MAX_DEPTH + 1 - depth, 1
    {
      hide ParseEntries, ParseEntry;
      var result: seq<Entry> := [];
      var previous: Option<Text> := None;
      PrependedNothing(ParseEntries(Input(), position, depth, None));
      while true
        invariant Valid()
        invariant ParseEntries(Input(), old(position), depth, None) == Prepended(result, ParseEntries(Input(), position, depth, previous))
        decreases end - position
      {
        EntriesUnfold(Input(), position, depth, previous);
        var entry := EntryValue(depth, previous);
        if entry.None? { return None; }
        var separator := Take();
        if separator.None? { return None; }
        if separator.value == CLOSE_DICT { return Some(result + [entry.value]); }
        if separator.value != COMMA { return None; }
        PrependedOnce(result, entry.value, ParseEntries(Input(), position, depth, Some(entry.value.key)));
        previous := Some(entry.value.key);
        result := result + [entry.value];
      }
    }
  }
}
