/** The sizing walk and the in-place writer of adapters/config_file_store.py, each proved against the
    canonical text: the sizer measures exactly what the writer writes, under any size limit. */
module JsonWriter {
  import opened Options
  import opened Bytes
  import opened Decimal
  import opened Utf8
  import opened JsonText
  import opened SegmentedRecords

  function CanonicalText(v: Json): seq<byte> {
    TextOf(Canonical(v))
  }

  predicate Fits(size: nat, maximum: Option<int>) {
    maximum.None? || size <= maximum.value
  }

  /** What measuring `size` bytes under a limit may answer. */
  function Measured(writable: bool, size: nat, maximum: Option<int>): Option<nat> {
    if writable && Fits(size, maximum) then Some(size) else None
  }

  function CheckedSize(total: nat, increment: nat, maximum: Option<int>): Option<nat> {
    if maximum.Some? && total + increment > maximum.value then None else Some(total + increment)
  }

  function RemainingOf(maximum: Option<int>, total: nat): Option<int> {
    if maximum.None? then None else Some(maximum.value - total)
  }

  // ---------------------------------------------------------------- texts from some element on

  function ItemsFrom(items: seq<Json>, i: nat): seq<byte>
    requires i <= |items|
  {
    if i == |items| then [CLOSE_LIST] else (if i > 0 then [COMMA] else []) + ItemsText(items[i..])
  }

  lemma ItemsFromStep(items: seq<Json>, i: nat)
    requires i < |items|
    ensures ItemsFrom(items, i) == (if i > 0 then [COMMA] else []) + (TextOf(items[i]) + ItemsFrom(items, i + 1))
  {
    assert items[i..][1..] == items[i + 1..];
  }

  lemma ListFromStart(items: seq<Json>)
    ensures TextOf(List(items)) == [OPEN_LIST] + ItemsFrom(items, 0)
  {
    assert items[0..] == items;
  }

  function EntriesFrom(entries: seq<Entry>, i: nat): seq<byte>
    requires i <= |entries|
  {
    if i == |entries| then [CLOSE_DICT] else (if i > 0 then [COMMA] else []) + EntriesText(entries[i..])
  }

  lemma EntriesFromStep(entries: seq<Entry>, i: nat)
    requires i < |entries|
    ensures EntriesFrom(entries, i) == (if i > 0 then [COMMA] else []) + (EntryText(entries[i]) + EntriesFrom(entries, i + 1))
  {
    assert entries[i..][1..] == entries[i + 1..];
  }

  lemma DictFromStart(entries: seq<Entry>)
    ensures TextOf(Dict(entries)) == [OPEN_DICT] + EntriesFrom(entries, 0)
  {
    assert entries[0..] == entries;
  }

  lemma {:induction false} ItemsTake(items: seq<Json>, i: nat)
    requires i <= |items| && forall k :: 0 <= k < |items| ==> !items[k].Foreign?
    ensures |ItemsFrom(items, i)| >= 2 * (|items| - i) + (if i == 0 < |items| then 0 else 1)
    decreases |items| - i
  {
    if i < |items| {
      ItemsFromStep(items, i);
      ItemsTake(items, i + 1);
      TextIsNotEmpty(items[i]);
    }
  }

  lemma {:induction false} EntriesTake(entries: seq<Entry>, i: nat)
    requires i <= |entries| && forall k :: 0 <= k < |entries| ==> !entries[k].value.Foreign?
    ensures |EntriesFrom(entries, i)| >= 5 * (|entries| - i) + (if i == 0 < |entries| then 0 else 1)
    decreases |entries| - i
  {
    if i < |entries| {
      EntriesFromStep(entries, i);
      EntriesTake(entries, i + 1);
      TextIsNotEmpty(entries[i].value);
      StringTakesTwo(entries[i].key);
    }
  }

  lemma TextIsNotEmpty(v: Json)
    requires !v.Foreign?
    ensures |TextOf(v)| >= 1
  {
  }

  lemma StringTakesTwo(t: Text)
    ensures |StringText(t)| >= 2
  {
    CharsTakeOne(t);
  }

  lemma {:induction false} CharsTakeOne(t: Text)
    ensures |CharsText(t)| >= 1
    decreases |t|
  {
    if t != [] { CharsTakeOne(t[1..]); }
  }

  // ---------------------------------------------------------------- sorted keys

  lemma {:induction false} InsertMaps(e: Entry, sorted: seq<Entry>)
    ensures CanonicalEntries(Insert(e, sorted)) == Insert(Entry(e.key, Canonical(e.value)), CanonicalEntries(sorted))
    decreases |sorted|
  {
    if sorted != [] && !Less(e.key, sorted[0].key) {
      InsertMaps(e, sorted[1..]);
      assert CanonicalEntries(sorted)[1..] == CanonicalEntries(sorted[1..]);
    }
  }

  /** Sorting the keys first and printing values as they come is printing the canonical tree. */
  lemma {:induction false} SortMaps(entries: seq<Entry>)
    ensures CanonicalEntries(SortByKey(entries)) == SortByKey(CanonicalEntries(entries))
    decreases |entries|
  {
    if entries != [] {
      SortMaps(entries[1..]);
      assert CanonicalEntries(entries)[1..] == CanonicalEntries(entries[1..]);
      InsertMaps(entries[0], SortByKey(entries[1..]));
    }
  }

  lemma SortedEntries(entries: seq<Entry>)
    ensures var sorted := SortByKey(entries);
            && |sorted| == |entries|
            && (forall i :: 0 <= i < |sorted| ==> sorted[i] in entries)
            && (forall i :: 0 <= i < |entries| ==> entries[i] in sorted)
            && Canonical(Dict(entries)) == Dict(CanonicalEntries(sorted))
  {
    var sorted := SortByKey(entries);
    SortIsPermutation(entries);
    SortMaps(entries);
    forall i | 0 <= i < |sorted| ensures sorted[i] in entries { MemberOfPermutation(sorted, entries, i); }
    forall i | 0 <= i < |entries| ensures entries[i] in sorted { MemberOfPermutation(entries, sorted, i); }
  }

  // ---------------------------------------------------------------- the sizer

  lemma SurrogateBreaks(t: Text, i: nat)
    requires i < |t| && Surrogate(t[i])
    ensures !Encodable(t)
  {
  }

  /** The width of one character; None where UTF-8 has no form for it. */
  function CharWidth(c: codepoint): Option<nat> {
    if EscapeSuffix(c).Some? then Some(2)
    else if c < 0x20 then Some(6)
    else if c < 0x80 then Some(1)
    else if c < 0x800 then Some(2)
    else if Surrogate(c) then None
    else if c < 0x10000 then Some(3)
    else Some(4)
  }

  lemma WidthIsExact(c: codepoint)
    ensures CharWidth(c) == if Surrogate(c) then None else Some(|CharText(c)|)
  {
  }

  lemma CharsStep(t: Text, i: nat)
    requires i < |t|
    ensures CharsText(t[i..]) == CharText(t[i]) + CharsText(t[i + 1..]) && |CharsText(t[i + 1..])| >= 1
  {
    assert t[i..][1..] == t[i + 1..];
    CharsTakeOne(t[i + 1..]);
  }

  lemma EncodableStep(t: Text, i: nat)
    requires i < |t| && Encodable(t[..i]) && !Surrogate(t[i])
    ensures Encodable(t[..i + 1])
  {
  }

  method StringSize(t: Text, maximum: Option<int>) returns (size: Option<nat>)
    ensures size == Measured(Encodable(t), |StringText(t)|, maximum)
  {
    hide CharsText, CharText, CharWidth, Encodable;
    CharsTakeOne(t);
    size := CheckedSize(0, 2, maximum);
    if size.None? { return; }
    var i := 0;
    assert t[0..] == t;
    EmptyIsEncodable(t[..0]);
    while i < |t|
      invariant 0 <= i <= |t| && Encodable(t[..i])
      invariant size.Some? && Fits(size.value, maximum)
      invariant size.value + |CharsText(t[i..])| == |StringText(t)| + 1
    {
      CharsStep(t, i);
      WidthIsExact(t[i]);
      var width := CharWidth(t[i]);
      if width.None? {
        SurrogateBreaks(t, i);
        return None;
      }
      EncodableStep(t, i);
      size := CheckedSize(size.value, width.value, maximum);
      if size.None? { return; }
      i := i + 1;
    }
    ClosingQuote(t[i..]);
    assert t[..i] == t;
  }

  lemma EmptyIsEncodable(t: Text)
    requires t == []
    ensures Encodable(t)
  {
  }

  lemma ClosingQuote(t: Text)
    requires t == []
    ensures CharsText(t) == [QUOTE]
  {
  }

  /** The exact size of the canonical text, or None when there is no such text or it exceeds `maximum`. */
  method JsonSize(v: Json, depth: nat, maximum: Option<int>) returns (size: Option<nat>)
    ensures size == Measured(Writable(v, depth), |CanonicalText(v)|, maximum)
    decreases v, 1
  {
    if depth > MAX_DEPTH { return None; }
    match v
    case Null => return CheckedSize(0, 4, maximum);
    case Boolean(b) => return CheckedSize(0, if b then 4 else 5, maximum);
    case Number(n) => return CheckedSize(0, |IntegerText(n)|, maximum);
    case String(t) => size := StringSize(t, maximum);
    case List(items) => size := ListSize(v, depth, maximum);
    case Dict(entries) => size := DictSize(v, depth, maximum);
    case Foreign => return None;
  }

  method ListSize(v: Json, depth: nat, maximum: Option<int>) returns (size: Option<nat>)
    requires v.List? && depth <= MAX_DEPTH
    ensures size == Measured(Writable(v, depth), |CanonicalText(v)|, maximum)
    decreases v, 0
  {
    var items := v.items;
    ghost var printed := Canonical(v).items;
    ListFromStart(printed);
    ListTakes(v, depth);
    if items != [] {
      size := CheckedSize(0, 2 * |items| + 1, maximum);
      if size.None? { return; }
    }
    size := CheckedSize(0, 2, maximum);
    if size.None? { return; }
    var i := 0;
    while i < |items|
      invariant 0 <= i <= |items|
      invariant forall k :: 0 <= k < i ==> Writable(items[k], depth + 1)
      invariant size.Some? && Fits(size.value, maximum)
      invariant size.value + |ItemsFrom(printed, i)| == |CanonicalText(v)| + 1
    {
      ItemsFromStep(printed, i);
      ItemsFromIsNotEmpty(printed, i + 1);
      size := ItemSize(items[i], depth + 1, size.value, i > 0, maximum);
      if size.None? { return; }
      i := i + 1;
    }
  }

  method ItemSize(item: Json, depth: nat, total: nat, behindComma: bool, maximum: Option<int>) returns (size: Option<nat>)
    requires Fits(total, maximum)
    ensures size == Measured(Writable(item, depth), total + (if behindComma then 1 else 0) + |CanonicalText(item)|, maximum)
    decreases item, 2
  {
    size := Some(total);
    if behindComma {
      size := CheckedSize(total, 1, maximum);
      if size.None? { return; }
    }
    var width := JsonSize(item, depth, RemainingOf(maximum, size.value));
    if width.None? { return None; }
    size := CheckedSize(size.value, width.value, maximum);
  }

  lemma ItemsFromIsNotEmpty(items: seq<Json>, i: nat)
    requires i <= |items|
    ensures |ItemsFrom(items, i)| >= 1
    decreases |items| - i
  {
    if 0 == i < |items| {
      ItemsFromStep(items, i);
      ItemsFromIsNotEmpty(items, i + 1);
    }
  }

  lemma EntriesFromIsNotEmpty(entries: seq<Entry>, i: nat)
    requires i <= |entries|
    ensures |EntriesFrom(entries, i)| >= 1
    decreases |entries| - i
  {
    if 0 == i < |entries| {
      EntriesFromStep(entries, i);
      EntriesFromIsNotEmpty(entries, i + 1);
    }
  }

  predicate EntryWritable(e: Entry, depth: int) {
    Encodable(e.key) && Writable(e.value, depth)
  }

  method EntrySize(e: Entry, depth: nat, total: nat, maximum: Option<int>) returns (size: Option<nat>)
    requires Fits(total, maximum)
    ensures size == Measured(EntryWritable(e, depth), total + |EntryText(Entry(e.key, Canonical(e.value)))|, maximum)
    decreases e.value, 2
  {
    var key := StringSize(e.key, RemainingOf(maximum, total));
    if key.None? { return None; }
    size := CheckedSize(total, key.value, maximum);
    if size.None? { return; }
    size := CheckedSize(size.value, 1, maximum);
    if size.None? { return; }
    var value := JsonSize(e.value, depth, RemainingOf(maximum, size.value));
    if value.None? { return None; }
    size := CheckedSize(size.value, value.value, maximum);
  }

  lemma WritableEntries(entries: seq<Entry>, depth: nat)
    requires depth <= MAX_DEPTH
    ensures Writable(Dict(entries), depth) <==> forall e :: e in SortByKey(entries) ==> EntryWritable(e, depth + 1)
  {
    SortedEntries(entries);
    var sorted := SortByKey(entries);
    if Writable(Dict(entries), depth) {
      forall e | e in sorted ensures EntryWritable(e, depth + 1) {
        var i :| 0 <= i < |sorted| && sorted[i] == e;
        var j :| 0 <= j < |entries| && entries[j] == sorted[i];
      }
    }
    if forall e :: e in sorted ==> EntryWritable(e, depth + 1) {
      forall i | 0 <= i < |entries| ensures Encodable(entries[i].key) && Writable(entries[i].value, depth + 1) {
        assert entries[i] in sorted;
      }
    }
  }

  /** The least a printable dictionary can take: what the early rejection counts on. */
  lemma DictTakes(v: Json, depth: nat)
    requires v.Dict?
    ensures Writable(v, depth) && v.entries != [] ==> |CanonicalText(v)| >= 5 * |v.entries| + 1
    ensures Writable(v, depth) ==> |CanonicalText(v)| >= 2
  {
    if Writable(v, depth) {
      var printed := Canonical(v).entries;
      CanonicalIsWritable(v, depth);
      SortedEntries(v.entries);
      DictFromStart(printed);
      EntriesTake(printed, 0);
    }
  }

  lemma ListTakes(v: Json, depth: nat)
    requires v.List?
    ensures Writable(v, depth) && v.items != [] ==> |CanonicalText(v)| >= 2 * |v.items| + 1
    ensures Writable(v, depth) ==> |CanonicalText(v)| >= 2
  {
    if Writable(v, depth) {
      CanonicalIsWritable(v, depth);
      ListFromStart(Canonical(v).items);
      ItemsTake(Canonical(v).items, 0);
    }
  }

  lemma EntriesFromEnd(entries: seq<Entry>)
    ensures EntriesFrom(entries, |entries|) == [CLOSE_DICT]
  {
  }

  method DictSize(v: Json, depth: nat, maximum: Option<int>) returns (size: Option<nat>)
    requires v.Dict? && depth <= MAX_DEPTH
    ensures size == Measured(Writable(v, depth), |CanonicalText(v)|, maximum)
    decreases v, 0
  {
    hide SortByKey, EntriesFrom, EntryText, EntryWritable, Writable, TextOf, Canonical;
    var entries := v.entries;
    SortedEntries(entries);
    WritableEntries(entries, depth);
    ghost var printed := Canonical(v).entries;
    DictFromStart(printed);
    DictTakes(v, depth);
    if entries != [] {
      size := CheckedSize(0, 5 * |entries| + 1, maximum);
      if size.None? { return; }
    }
    var sorted := SortByKey(entries);
    size := CheckedSize(0, 2, maximum);
    if size.None? { return; }
    var i := 0;
    while i < |sorted|
      invariant 0 <= i <= |sorted|
      invariant forall k :: 0 <= k < i ==> EntryWritable(sorted[k], depth + 1)
      invariant size.Some? && Fits(size.value, maximum)
      invariant size.value + |EntriesFrom(printed, i)| == |CanonicalText(v)| + 1
    {
      EntriesFromStep(printed, i);
      EntriesFromIsNotEmpty(printed, i + 1);
      if i > 0 {
        size := CheckedSize(size.value, 1, maximum);
        if size.None? { return; }
      }
      assert sorted[i] in entries;
      size := EntrySize(sorted[i], depth + 1, size.value, maximum);
      if size.None? { return; }
      i := i + 1;
    }
    EntriesFromEnd(printed);
  }

  // ---------------------------------------------------------------- the writer

  /** Since the record held `before`, `written` was put into it from `offset` up to `end`. */
  ghost predicate Holds(record: SegmentedRecord, before: seq<byte>, offset: nat, written: seq<byte>, end: nat)
    requires record.Valid()
    reads record.chunks
  {
    && offset + |written| <= |before| == record.length
    && record.Contents() == Overwritten(before, offset, written) && end == offset + |written|
  }

  method Append(record: SegmentedRecord, end: nat, value: seq<byte>, ghost before: seq<byte>, ghost offset: nat, ghost written: seq<byte>)
    returns (next: nat)
    requires record.Valid() && Holds(record, before, offset, written, end) && end + |value| <= record.length
    modifies record.chunks
    ensures Holds(record, before, offset, written + value, next)
  {
    OverwrittenTwice(before, offset, written, value);
    next := record.WriteBytes(end, value);
  }

  /** Writes the quoted text; false is the refusal of a text that has no UTF-8 form. */
  method WriteString(t: Text, record: SegmentedRecord, offset: nat) returns (ok: bool, end: nat)
    requires record.Valid() && offset + |StringText(t)| <= record.length
    modifies record.chunks
    ensures ok == Encodable(t)
    ensures ok ==> Holds(record, old(record.Contents()), offset, StringText(t), end)
  {
    hide CharsText, CharText, Encodable, Overwritten;
    ghost var before := record.Contents();
    ghost var written: seq<byte> := [];
    OverwrittenNothing(before, offset);
    end := Append(record, offset, [QUOTE], before, offset, written);
    written := written + [QUOTE];
    var i := 0;
    assert t[0..] == t;
    EmptyIsEncodable(t[..0]);
    while i < |t|
      invariant 0 <= i <= |t| && Encodable(t[..i])
      invariant offset + |StringText(t)| <= record.length
      invariant Holds(record, before, offset, written, end)
      invariant written + CharsText(t[i..]) == StringText(t)
    {
      CharsStep(t, i);
      if Surrogate(t[i]) {
        SurrogateBreaks(t, i);
        return false, end;
      }
      EncodableStep(t, i);
      assert written + CharsText(t[i..]) == written + CharText(t[i]) + CharsText(t[i + 1..]);
      end := Append(record, end, CharText(t[i]), before, offset, written);
      written := written + CharText(t[i]);
      i := i + 1;
    }
    ClosingQuote(t[i..]);
    assert t[..i] == t;
    end := Append(record, end, [QUOTE], before, offset, written);
    ok := true;
  }

  /** Writes the canonical text of `v`; false is the refusal of a value that has none. */
  method WriteJson(v: Json, record: SegmentedRecord, offset: nat, depth: nat) returns (ok: bool, end: nat)
    requires record.Valid() && offset + |CanonicalText(v)| <= record.length
    modifies record.chunks
    ensures ok == Writable(v, depth)
    ensures ok ==> Holds(record, old(record.Contents()), offset, CanonicalText(v), end)
    decreases v, 1
  {
    if depth > MAX_DEPTH { return false, offset; }
    match v
    case Null =>
      end := record.WriteBytes(offset, NULL_TEXT);
      ok := true;
    case Boolean(b) =>
      end := record.WriteBytes(offset, if b then TRUE_TEXT else FALSE_TEXT);
      ok := true;
    case Number(n) =>
      end := record.WriteBytes(offset, IntegerText(n));
      ok := true;
    case String(t) => ok, end := WriteString(t, record, offset);
    case List(items) => ok, end := WriteList(v, record, offset, depth);
    case Dict(entries) => ok, end := WriteDict(v, record, offset, depth);
    case Foreign => return false, offset;
  }

  method WriteList(v: Json, record: SegmentedRecord, offset: nat, depth: nat) returns (ok: bool, end: nat)
    requires v.List? && depth <= MAX_DEPTH
    requires record.Valid() && offset + |CanonicalText(v)| <= record.length
    modifies record.chunks
    ensures ok == Writable(v, depth)
    ensures ok ==> Holds(record, old(record.Contents()), offset, CanonicalText(v), end)
    decreases v, 0
  {
    hide Overwritten, ItemsFrom, TextOf;
    var items := v.items;
    ghost var printed := Canonical(v).items;
    ListFromStart(printed);
    ghost var before, written := record.Contents(), [];
    OverwrittenNothing(before, offset);
    end := Append(record, offset, [OPEN_LIST], before, offset, written);
    written := written + [OPEN_LIST];
    assert written == [OPEN_LIST];
    var i := 0;
    while i < |items|
      invariant 0 <= i <= |items|
      invariant forall k :: 0 <= k < i ==> Writable(items[k], depth + 1)
      invariant Holds(record, before, offset, written, end)
      invariant written + ItemsFrom(printed, i) == CanonicalText(v)
    {
      ItemsFromStep(printed, i);
      if i > 0 {
        end := Append(record, end, [COMMA], before, offset, written);
        written := written + [COMMA];
      }
      assert written + (TextOf(printed[i]) + ItemsFrom(printed, i + 1)) == CanonicalText(v);
      ok, end := AppendValue(items[i], record, end, depth + 1, before, offset, written);
      if !ok { return; }
      written := written + TextOf(printed[i]);
      i := i + 1;
    }
    ItemsFromEnd(printed);
    end := Append(record, end, [CLOSE_LIST], before, offset, written);
    ok := true;
  }

  lemma ItemsFromEnd(items: seq<Json>)
    ensures ItemsFrom(items, |items|) == [CLOSE_LIST]
  {
  }

  method AppendValue(
    v: Json, record: SegmentedRecord, end: nat, depth: nat, ghost before: seq<byte>, ghost offset: nat, ghost written: seq<byte>)
    returns (ok: bool, next: nat)
    requires record.Valid() && Holds(record, before, offset, written, end) && end + |CanonicalText(v)| <= record.length
    modifies record.chunks
    ensures ok == Writable(v, depth)
    ensures ok ==> Holds(record, before, offset, written + CanonicalText(v), next)
    decreases v, 2
  {
    OverwrittenTwice(before, offset, written, CanonicalText(v));
    ok, next := WriteJson(v, record, end, depth);
  }

  method WriteEntry(
    e: Entry, record: SegmentedRecord, end: nat, depth: nat, ghost before: seq<byte>, ghost offset: nat, ghost written: seq<byte>)
    returns (ok: bool, next: nat)
    requires record.Valid() && Holds(record, before, offset, written, end)
    requires end + |EntryText(Entry(e.key, Canonical(e.value)))| <= record.length
    modifies record.chunks
    ensures ok == EntryWritable(e, depth)
    ensures ok ==> Holds(record, before, offset, written + EntryText(Entry(e.key, Canonical(e.value))), next)
    decreases e.value, 3
  {
    hide StringText, TextOf, Writable, Encodable, SegmentedRecord.Valid, SegmentedRecord.Contents;
    ghost var key := StringText(e.key);
    OverwrittenTwice(before, offset, written, key);
    ok, next := WriteString(e.key, record, end);
    if !ok { return; }
    next := Append(record, next, [COLON], before, offset, written + key);
    ok, next := AppendValue(e.value, record, next, depth, before, offset, written + key + [COLON]);
    assert written + key + [COLON] + CanonicalText(e.value) == written + EntryText(Entry(e.key, Canonical(e.value)));
  }

  method WriteDict(v: Json, record: SegmentedRecord, offset: nat, depth: nat) returns (ok: bool, end: nat)
    requires v.Dict? && depth <= MAX_DEPTH
    requires record.Valid() && offset + |CanonicalText(v)| <= record.length
    modifies record.chunks
    ensures ok == Writable(v, depth)
    ensures ok ==> Holds(record, old(record.Contents()), offset, CanonicalText(v), end)
    decreases v, 0
  {
    hide Overwritten, SortByKey, EntriesFrom, EntryText, EntryWritable, Writable, TextOf, Canonical;
    var entries := v.entries;
    SortedEntries(entries);
    WritableEntries(entries, depth);
    ghost var printed := Canonical(v).entries;
    DictFromStart(printed);
    var sorted := SortByKey(entries);
    ghost var before, written := record.Contents(), [];
    OverwrittenNothing(before, offset);
    end := Append(record, offset, [OPEN_DICT], before, offset, written);
    written := written + [OPEN_DICT];
    assert written == [OPEN_DICT];
    var i := 0;
    while i < |sorted|
      invariant 0 <= i <= |sorted|
      invariant forall k :: 0 <= k < i ==> EntryWritable(sorted[k], depth + 1)
      invariant Holds(record, before, offset, written, end)
      invariant written + EntriesFrom(printed, i) == CanonicalText(v)
    {
      EntriesFromStep(printed, i);
      if i > 0 {
        end := Append(record, end, [COMMA], before, offset, written);
        written := written + [COMMA];
      }
      assert written + (EntryText(printed[i]) + EntriesFrom(printed, i + 1)) == CanonicalText(v);
      assert sorted[i] in entries;
      ok, end := WriteEntry(sorted[i], record, end, depth + 1, before, offset, written);
      if !ok { return; }
      written := written + EntryText(printed[i]);
      i := i + 1;
    }
    EntriesFromEnd(printed);
    end := Append(record, end, [CLOSE_DICT], before, offset, written);
    ok := true;
  }
}
