/** JSON trees and the one canonical text of each (adapters/config_file_store.py): keys in code-point order,
    no insignificant whitespace, the shortest escape of every character, raw UTF-8 otherwise. */
module JsonText {
  import opened Bytes
  import opened Decimal
  import opened Utf8
  import opened Options

  datatype Entry = Entry(key: Text, value: Json)

  /** A Python value. A dictionary is its entries in insertion order; Foreign stands for everything JSON has
      no text for, a dictionary with a key that is no string included. */
  datatype Json =
    | Null
    | Boolean(b: bool)
    | Number(n: int)
    | String(text: Text)
    | List(items: seq<Json>)
    | Dict(entries: seq<Entry>)
    | Foreign

  const MAX_DEPTH := 16

  const QUOTE: byte := 0x22
  const BACKSLASH: byte := 0x5C
  const COMMA: byte := 0x2C
  const COLON: byte := 0x3A
  const OPEN_LIST: byte := 0x5B
  const CLOSE_LIST: byte := 0x5D
  const OPEN_DICT: byte := 0x7B
  const CLOSE_DICT: byte := 0x7D
  const LETTER_U: byte := 0x75

  const NULL_TEXT: seq<byte> := [0x6E, 0x75, 0x6C, 0x6C]
  const TRUE_TEXT: seq<byte> := [0x74, 0x72, 0x75, 0x65]
  const FALSE_TEXT: seq<byte> := [0x66, 0x61, 0x6C, 0x73, 0x65]

  // ---------------------------------------------------------------- strings

  /** The letter that follows the backslash where JSON has a short escape. */
  function EscapeSuffix(c: int): Option<byte> {
    if c == 0x22 || c == 0x5C then Some(c)
    else if c == 0x08 then Some(0x62)
    else if c == 0x0C then Some(0x66)
    else if c == 0x0A then Some(0x6E)
    else if c == 0x0D then Some(0x72)
    else if c == 0x09 then Some(0x74)
    else None
  }

  function CharText(c: codepoint): (s: seq<byte>)
    ensures s != [] && s[0] != QUOTE
  {
    if EscapeSuffix(c).Some? then [BACKSLASH, EscapeSuffix(c).value]
    else if c < 0x20 then [BACKSLASH, LETTER_U] + Hex(c, 4)
    else EncodeChar(c)
  }

  /** The characters and the closing quote. */
  function CharsText(t: Text): seq<byte> {
    if t == [] then [QUOTE] else CharText(t[0]) + CharsText(t[1..])
  }

  function StringText(t: Text): seq<byte> {
    [QUOTE] + CharsText(t)
  }

  // ---------------------------------------------------------------- trees

  /** The text of a tree, its dictionaries printed in the order they stand. */
  function TextOf(v: Json): seq<byte> {
    match v
    case Null => NULL_TEXT
    case Boolean(b) => if b then TRUE_TEXT else FALSE_TEXT
    case Number(n) => IntegerText(n)
    case String(t) => StringText(t)
    case List(items) => [OPEN_LIST] + (if items == [] then [CLOSE_LIST] else ItemsText(items))
    case Dict(entries) => [OPEN_DICT] + (if entries == [] then [CLOSE_DICT] else EntriesText(entries))
    case Foreign => []
  }

  /** Values separated by commas, and the closing bracket. */
  function ItemsText(items: seq<Json>): seq<byte>
    requires items != []
  {
    TextOf(items[0]) + (if |items| == 1 then [CLOSE_LIST] else [COMMA] + ItemsText(items[1..]))
  }

  function EntryText(e: Entry): seq<byte> {
    StringText(e.key) + ([COLON] + TextOf(e.value))
  }

  /** Keys with their values separated by commas, and the closing brace. */
  function EntriesText(entries: seq<Entry>): seq<byte>
    requires entries != []
  {
    EntryText(entries[0]) + (if |entries| == 1 then [CLOSE_DICT] else [COMMA] + EntriesText(entries[1..]))
  }

  /** What writer and sizer accept below `depth`: JSON values only, encodable strings, bounded nesting. */
  predicate Writable(v: Json, depth: int) {
    && depth <= MAX_DEPTH
    && match v
       case String(t) => Encodable(t)
       case List(items) => forall i :: 0 <= i < |items| ==> Writable(items[i], depth + 1)
       case Dict(entries) => forall i :: 0 <= i < |entries| ==> Encodable(entries[i].key) && Writable(entries[i].value, depth + 1)
       case Foreign => false
       case _ => true
  }

  predicate DistinctKeys(entries: seq<Entry>) {
    forall i, j :: 0 <= i < j < |entries| ==> entries[i].key != entries[j].key
  }

  /** Every dictionary has its keys once each, as Python guarantees. */
  predicate WellFormed(v: Json) {
    match v
    case List(items) => forall i :: 0 <= i < |items| ==> WellFormed(items[i])
    case Dict(entries) =>
      && DistinctKeys(entries)
      && (forall i :: 0 <= i < |entries| ==> WellFormed(entries[i].value))
    case _ => true
  }

  // ---------------------------------------------------------------- key order

  /** Python's order of strings: by the first code point that differs. */
  predicate Less(a: Text, b: Text) {
    b != [] && (a == [] || a[0] < b[0] || (a[0] == b[0] && Less(a[1..], b[1..])))
  }

  predicate Ascending(entries: seq<Entry>) {
    |entries| < 2 || (Less(entries[0].key, entries[1].key) && Ascending(entries[1..]))
  }

  function Insert(e: Entry, sorted: seq<Entry>): seq<Entry> {
    if sorted == [] || Less(e.key, sorted[0].key) then [e] + sorted
    else [sorted[0]] + Insert(e, sorted[1..])
  }

  function SortByKey(entries: seq<Entry>): seq<Entry> {
    if entries == [] then [] else Insert(entries[0], SortByKey(entries[1..]))
  }

  /** The tree with every dictionary in key order: what the writer prints and the parser builds. */
  function Canonical(v: Json): Json {
    match v
    case List(items) => List(seq(|items|, i requires 0 <= i < |items| => Canonical(items[i])))
    case Dict(entries) => Dict(SortByKey(CanonicalEntries(entries)))
    case _ => v
  }

  function CanonicalEntries(entries: seq<Entry>): seq<Entry> {
    seq(|entries|, i requires 0 <= i < |entries| => Entry(entries[i].key, Canonical(entries[i].value)))
  }

  predicate IsCanonical(v: Json) {
    match v
    case List(items) => forall i :: 0 <= i < |items| ==> IsCanonical(items[i])
    case Dict(entries) => Ascending(entries) && forall i :: 0 <= i < |entries| ==> IsCanonical(entries[i].value)
    case _ => true
  }

  /** Python equality: dictionaries compare by key, whatever their insertion order. */
  predicate SameValue(v: Json, w: Json) {
    match v
    case List(items) =>
      w.List? && |w.items| == |items| && forall i :: 0 <= i < |items| ==> SameValue(items[i], w.items[i])
    case Dict(entries) =>
      && w.Dict? && |w.entries| == |entries|
      && forall i :: 0 <= i < |entries| ==>
           exists j :: 0 <= j < |w.entries| && w.entries[j].key == entries[i].key && SameValue(entries[i].value, w.entries[j].value)
    case _ => w == v
  }

  // ---------------------------------------------------------------- order and sorting

  lemma {:induction false} LessIsTotal(a: Text, b: Text)
    ensures a == b || Less(a, b) || Less(b, a)
    ensures !(Less(a, b) && Less(b, a))
    decreases |a| + |b|
  {
    if a != [] && b != [] {
      LessIsTotal(a[1..], b[1..]);
      assert a == [a[0]] + a[1..] && b == [b[0]] + b[1..];
    }
  }

  lemma AscendingCons(e: Entry, rest: seq<Entry>)
    requires Ascending(rest) && (rest != [] ==> Less(e.key, rest[0].key))
    ensures Ascending([e] + rest)
  {
    assert ([e] + rest)[1..] == rest;
  }

  lemma {:induction false} InsertHas(e: Entry, sorted: seq<Entry>)
    ensures multiset(Insert(e, sorted)) == multiset([e] + sorted)
    ensures |Insert(e, sorted)| == |sorted| + 1
    decreases |sorted|
  {
    if sorted != [] && !Less(e.key, sorted[0].key) {
      InsertHas(e, sorted[1..]);
      assert sorted == [sorted[0]] + sorted[1..];
    }
  }

  lemma {:induction false} InsertKeepsOrder(e: Entry, sorted: seq<Entry>)
    requires Ascending(sorted) && forall i :: 0 <= i < |sorted| ==> sorted[i].key != e.key
    ensures Ascending(Insert(e, sorted))
    ensures Insert(e, sorted)[0] == e || (sorted != [] && Insert(e, sorted)[0] == sorted[0])
    decreases |sorted|
  {
    if sorted != [] && !Less(e.key, sorted[0].key) {
      LessIsTotal(e.key, sorted[0].key);
      InsertKeepsOrder(e, sorted[1..]);
      AscendingCons(sorted[0], Insert(e, sorted[1..]));
    } else {
      AscendingCons(e, sorted);
    }
  }

  lemma {:induction false} SortIsPermutation(entries: seq<Entry>)
    ensures multiset(SortByKey(entries)) == multiset(entries) && |SortByKey(entries)| == |entries|
    decreases |entries|
  {
    if entries != [] {
      SortIsPermutation(entries[1..]);
      InsertHas(entries[0], SortByKey(entries[1..]));
      assert entries == [entries[0]] + entries[1..];
    }
  }

  lemma MemberOfPermutation(a: seq<Entry>, b: seq<Entry>, i: nat)
    requires multiset(a) == multiset(b) && i < |a|
    ensures a[i] in b
  {
    assert a[i] in multiset(a);
  }

  /** Sorting distinct keys puts them in strictly ascending order. */
  lemma {:induction false} SortAscends(entries: seq<Entry>)
    requires DistinctKeys(entries)
    ensures Ascending(SortByKey(entries))
    decreases |entries|
  {
    if entries != [] {
      var rest := entries[1..];
      SortAscends(rest);
      var sorted := SortByKey(rest);
      forall i | 0 <= i < |sorted| ensures sorted[i].key != entries[0].key {
        SortIsPermutation(rest);
        MemberOfPermutation(sorted, rest, i);
        var j :| 0 <= j < |rest| && rest[j] == sorted[i];
        assert entries[j + 1] == sorted[i];
      }
      InsertKeepsOrder(entries[0], sorted);
    }
  }

  lemma {:induction false} SortedStays(entries: seq<Entry>)
    requires Ascending(entries)
    ensures SortByKey(entries) == entries
    decreases |entries|
  {
    if entries != [] {
      var rest := entries[1..];
      SortedStays(rest);
      if rest != [] { assert Less(entries[0].key, entries[1].key); }
    }
  }

  // ---------------------------------------------------------------- the canonical tree

  lemma {:induction false} CanonicalIsCanonical(v: Json)
    requires WellFormed(v)
    ensures IsCanonical(Canonical(v))
    decreases v
  {
    match v
    case List(items) =>
      forall i | 0 <= i < |items| ensures IsCanonical(Canonical(items[i])) { CanonicalIsCanonical(items[i]); }
    case Dict(entries) =>
      var mapped := CanonicalEntries(entries);
      forall i | 0 <= i < |entries| ensures IsCanonical(mapped[i].value) { CanonicalIsCanonical(entries[i].value); }
      SortAscends(mapped);
      SortIsPermutation(mapped);
      forall i | 0 <= i < |SortByKey(mapped)| ensures IsCanonical(SortByKey(mapped)[i].value) {
        MemberOfPermutation(SortByKey(mapped), mapped, i);
      }
    case _ =>
  }

  lemma {:induction false} CanonicalStays(v: Json)
    requires IsCanonical(v)
    ensures Canonical(v) == v
    decreases v
  {
    match v
    case List(items) =>
      forall i | 0 <= i < |items| ensures Canonical(items[i]) == items[i] { CanonicalStays(items[i]); }
    case Dict(entries) =>
      forall i | 0 <= i < |entries| ensures CanonicalEntries(entries)[i] == entries[i] { CanonicalStays(entries[i].value); }
      assert CanonicalEntries(entries) == entries;
      SortedStays(entries);
    case _ =>
  }

  /** Ordering the keys changes no value Python could tell apart. */
  lemma {:induction false} CanonicalIsSame(v: Json)
    ensures SameValue(v, Canonical(v))
    decreases v
  {
    match v
    case List(items) =>
      forall i | 0 <= i < |items| ensures SameValue(items[i], Canonical(items[i])) { CanonicalIsSame(items[i]); }
    case Dict(entries) =>
      var mapped := CanonicalEntries(entries);
      var sorted := SortByKey(mapped);
      SortIsPermutation(mapped);
      forall i | 0 <= i < |entries|
        ensures exists j :: 0 <= j < |sorted| && sorted[j].key == entries[i].key && SameValue(entries[i].value, sorted[j].value)
      {
        CanonicalIsSame(entries[i].value);
        MemberOfPermutation(mapped, sorted, i);
        var j :| 0 <= j < |sorted| && sorted[j] == mapped[i];
      }
    case _ =>
  }

  lemma {:induction false} CanonicalIsWritable(v: Json, depth: int)
    ensures Writable(Canonical(v), depth) <==> Writable(v, depth)
    decreases v
  {
    match v
    case List(items) =>
      forall i | 0 <= i < |items| ensures Writable(Canonical(items[i]), depth + 1) <==> Writable(items[i], depth + 1) {
        CanonicalIsWritable(items[i], depth + 1);
      }
      assert forall i :: 0 <= i < |items| ==> Canonical(v).items[i] == Canonical(items[i]);
    case Dict(entries) =>
      EntriesAreWritable(entries, depth);
    case _ =>
  }

  lemma EntriesAreWritable(entries: seq<Entry>, depth: int)
    ensures Writable(Canonical(Dict(entries)), depth) <==> Writable(Dict(entries), depth)
    decreases entries
  {
    var mapped := CanonicalEntries(entries);
    var sorted := SortByKey(mapped);
    SortIsPermutation(mapped);
    forall i | 0 <= i < |entries| ensures Writable(mapped[i].value, depth + 1) <==> Writable(entries[i].value, depth + 1) {
      CanonicalIsWritable(entries[i].value, depth + 1);
    }
    forall i | 0 <= i < |sorted| ensures sorted[i] in mapped { MemberOfPermutation(sorted, mapped, i); }
    forall i | 0 <= i < |mapped| ensures mapped[i] in sorted { MemberOfPermutation(mapped, sorted, i); }
  }
}
