/** Two slots of stored records as a value: what loading them yields, which record is the newest, and which
    slot the next one goes to (adapters/config_file_store.py). */
module RecordSlots {
  import opened Options
  import opened Bytes
  import opened JsonText
  import opened JsonParser
  import opened RecordFormat
  import opened RecordCodec
  import JsonWriter
  import Crc32

  datatype Slot = A | B

  function Other(slot: Slot): Slot {
    if slot == A then B else A
  }

  /** What the two slot files hold; None is a missing file. */
  datatype Slots = Slots(a: Option<seq<byte>>, b: Option<seq<byte>>) {
    function At(slot: Slot): Option<seq<byte>> {
      if slot == A then a else b
    }

    function With(slot: Slot, content: Option<seq<byte>>): (s: Slots)
      ensures s.At(slot) == content && s.At(Other(slot)) == At(Other(slot))
    {
      if slot == A then Slots(content, b) else Slots(a, content)
    }
  }

  datatype Loaded = Loaded(slot: Slot, stored: Stored)

  function LoadSlot(s: Slots, slot: Slot, maximum: nat): Option<Stored> {
    if s.At(slot).None? then None else RecordFormat.Decode(s.At(slot).value, maximum)
  }

  predicate InvalidSlot(s: Slots, slot: Slot, maximum: nat) {
    s.At(slot).Some? && LoadSlot(s, slot, maximum).None?
  }

  /** The structurally valid records, slot a first. */
  function Records(s: Slots, maximum: nat): (records: seq<Loaded>)
    ensures |records| <= 2
  {
    var a, b := LoadSlot(s, A, maximum), LoadSlot(s, B, maximum);
    (if a.Some? then [Loaded(A, a.value)] else []) + (if b.Some? then [Loaded(B, b.value)] else [])
  }

  datatype Newest = Nothing | Conflict | Record(stored: Stored)

  /** Two slots of one generation must agree; otherwise the greater generation is the newest. */
  function LatestStructural(records: seq<Loaded>): Newest
    requires |records| <= 2
  {
    if records == [] then Nothing
    else if |records| == 1 then Record(records[0].stored)
    else
      var first, second := records[0].stored, records[1].stored;
      if first.generation == second.generation then
        if first.fingerprint != second.fingerprint || first.token != second.token then Conflict else Record(first)
      else if first.generation > second.generation then Record(first) else Record(second)
  }

  function GenerationOf(n: Newest): nat {
    if n.Record? then n.stored.generation else 0
  }

  /** The slot that does not hold the newest record. */
  function TargetSlot(records: seq<Loaded>): Slot
    requires |records| <= 2
  {
    if records == [] then A
    else if |records| == 1 then Other(records[0].slot)
    else if records[0].stored.generation < records[1].stored.generation then records[0].slot
    else if records[1].stored.generation < records[0].stored.generation then records[1].slot
    else B
  }

  function Recover(s: Slots, maximum: nat): Newest {
    LatestStructural(Records(s, maximum))
  }

  function StoredOf(payload: Json, generation: nat): Stored {
    var text := JsonWriter.CanonicalText(payload);
    Stored(generation, Canonical(payload), Crc32.Checksum(text), text)
  }

  /** What was encoded decodes to the canonical payload under the same generation. */
  lemma EncodedRecordDecodes(payload: Json, generation: int, maximum: nat)
    requires WellFormed(payload) && Storable(payload, generation, maximum)
    ensures RecordFormat.Decode(RecordOf(payload, generation), maximum) == Some(StoredOf(payload, generation))
  {
    hide RecordBytes, RecordFormat.Decode, Crc32.Checksum, TextOf;
    CanonicalIsCanonical(payload);
    CanonicalIsWritable(payload, 0);
    DecodeIsComplete(StoredOf(payload, generation), maximum);
  }

  /** The newest record survives beside the slot a commit writes, and the committed one is newer. */
  lemma CommitAdvances(s: Slots, payload: Json, generation: int, maximum: nat)
    requires WellFormed(payload) && Storable(payload, generation, maximum)
    requires !Recover(s, maximum).Conflict? && generation == GenerationOf(Recover(s, maximum)) + 1
    ensures var after := s.With(TargetSlot(Records(s, maximum)), Some(RecordOf(payload, generation)));
            Recover(after, maximum) == Record(StoredOf(payload, generation))
  {
    hide RecordFormat.Decode, StoredOf, RecordOf, Storable;
    EncodedRecordDecodes(payload, generation, maximum);
    GenerationIsKept(payload, generation);
    var target := TargetSlot(Records(s, maximum));
    var after := s.With(target, Some(RecordOf(payload, generation)));
    assert LoadSlot(after, target, maximum) == Some(StoredOf(payload, generation));
    assert LoadSlot(after, Other(target), maximum) == LoadSlot(s, Other(target), maximum);
  }

  lemma GenerationIsKept(payload: Json, generation: nat)
    ensures StoredOf(payload, generation).generation == generation
  {
  }

  // ---------------------------------------------------------------- resealing

  function InvalidSlotsOf(s: Slots, maximum: nat): seq<Slot> {
    (if InvalidSlot(s, A, maximum) then [A] else []) + (if InvalidSlot(s, B, maximum) then [B] else [])
  }

  /** The greatest generation any slot decodes to; 0 when none does. */
  function MaximumGeneration(records: seq<Loaded>): nat
    decreases |records|
  {
    if records == [] then 0
    else
      var rest := MaximumGeneration(records[1..]);
      if records[0].stored.generation > rest then records[0].stored.generation else rest
  }

  /** The slot a reseal replaces first: an undecodable one, else the older, else the missing one. */
  function FirstResealed(records: seq<Loaded>, invalid: seq<Slot>): Slot
    requires |records| <= 2
  {
    if invalid != [] then invalid[0]
    else if records == [] then A
    else if |records| == 1 then Other(records[0].slot)
    else if records[0].stored.generation < records[1].stored.generation then records[0].slot
    else if records[1].stored.generation < records[0].stored.generation then records[1].slot
    else A
  }

  /** What the slots hold once the reseal starts publishing: two undecodable slots are removed before. */
  function Cleared(s: Slots, maximum: nat): Slots {
    if |InvalidSlotsOf(s, maximum)| == 2 then Slots(None, None) else s
  }

  function FirstOf(s: Slots, maximum: nat): Slot {
    FirstResealed(Records(s, maximum), InvalidSlotsOf(s, maximum))
  }

  function Resealed(s: Slots, payload: Json, maximum: nat): Slots {
    Cleared(s, maximum).With(FirstOf(s, maximum), Some(RecordOf(payload, MaximumGeneration(Records(s, maximum)) + 1)))
  }

  function ResealedTwice(s: Slots, payload: Json, maximum: nat): Slots {
    Resealed(s, payload, maximum).With(Other(FirstOf(s, maximum)), Some(RecordOf(payload, MaximumGeneration(Records(s, maximum)) + 2)))
  }

  /** Every content the slots can have while a reseal runs. */
  function ResealStages(s: Slots, payload: Json, maximum: nat): set<Slots> {
    {s, if |InvalidSlotsOf(s, maximum)| == 2 then s.With(A, None) else s, Cleared(s, maximum),
     Resealed(s, payload, maximum), ResealedTwice(s, payload, maximum)}
  }

  predicate HoldsNewer(s: Slots, generation: nat, maximum: nat) {
    exists slot :: LoadSlot(s, slot, maximum).Some? && LoadSlot(s, slot, maximum).value.generation > generation
  }

  predicate CanReseal(s: Slots, payload: Json, maximum: nat) {
    var newest := MaximumGeneration(Records(s, maximum));
    WellFormed(payload) && Storable(payload, newest + 1, maximum) && Storable(payload, newest + 2, maximum)
  }

  lemma TwoInvalidSlots(s: Slots, maximum: nat)
    requires |InvalidSlotsOf(s, maximum)| == 2
    ensures InvalidSlotsOf(s, maximum) == [A, B] && LoadSlot(s, A, maximum).None? && LoadSlot(s, B, maximum).None?
    ensures Records(s, maximum) == []
  {
  }

  lemma MaximumOf(records: seq<Loaded>)
    requires |records| <= 2
    ensures records == [] ==> MaximumGeneration(records) == 0
    ensures |records| == 1 ==> MaximumGeneration(records) == records[0].stored.generation
    ensures |records| == 2 ==>
      MaximumGeneration(records) == if records[0].stored.generation > records[1].stored.generation
                                    then records[0].stored.generation else records[1].stored.generation
  {
    if |records| == 2 { assert MaximumGeneration(records[1..][1..]) == 0; }
  }

  /** What one stage of a reseal is in terms of its two slots. */
  lemma StageLoads(s: Slots, payload: Json, maximum: nat)
    requires CanReseal(s, payload, maximum)
    ensures var newest, first := MaximumGeneration(Records(s, maximum)), FirstOf(s, maximum);
            && LoadSlot(Resealed(s, payload, maximum), first, maximum) == Some(StoredOf(payload, newest + 1))
            && LoadSlot(Resealed(s, payload, maximum), Other(first), maximum) == LoadSlot(Cleared(s, maximum), Other(first), maximum)
            && LoadSlot(ResealedTwice(s, payload, maximum), first, maximum) == Some(StoredOf(payload, newest + 1))
            && LoadSlot(ResealedTwice(s, payload, maximum), Other(first), maximum) == Some(StoredOf(payload, newest + 2))
            && StoredOf(payload, newest + 1).generation == newest + 1 && StoredOf(payload, newest + 2).generation == newest + 2
  {
    hide RecordFormat.Decode, StoredOf, RecordOf, Storable, Records, MaximumGeneration, FirstResealed;
    var newest, first := MaximumGeneration(Records(s, maximum)), FirstOf(s, maximum);
    EncodedRecordDecodes(payload, newest + 1, maximum);
    EncodedRecordDecodes(payload, newest + 2, maximum);
    GenerationIsKept(payload, newest + 1);
    GenerationIsKept(payload, newest + 2);
  }

  /** At no stage of a reseal does the newest generation go down or the last valid record get lost, and beside
      a new record no undecodable slot is left. */
  lemma ResealIsSafe(s: Slots, payload: Json, maximum: nat, stage: Slots)
    requires CanReseal(s, payload, maximum) && stage in ResealStages(s, payload, maximum)
    ensures MaximumGeneration(Records(stage, maximum)) >= MaximumGeneration(Records(s, maximum))
    ensures Records(s, maximum) != [] ==> Records(stage, maximum) != []
    ensures HoldsNewer(stage, MaximumGeneration(Records(s, maximum)), maximum) ==> InvalidSlotsOf(stage, maximum) == []
  {
    hide RecordFormat.Decode, StoredOf, RecordOf, Storable, CanReseal;
    StageLoads(s, payload, maximum);
    MaximumOf(Records(s, maximum));
    MaximumOf(Records(stage, maximum));
  }

  /** A completed reseal leaves two records of the payload, the second one newest. */
  lemma ResealRecovers(s: Slots, payload: Json, maximum: nat)
    requires CanReseal(s, payload, maximum)
    ensures Recover(ResealedTwice(s, payload, maximum), maximum)
            == Record(StoredOf(payload, MaximumGeneration(Records(s, maximum)) + 2))
    ensures InvalidSlotsOf(ResealedTwice(s, payload, maximum), maximum) == []
  {
    hide RecordFormat.Decode, StoredOf, RecordOf, Storable, CanReseal, Resealed, ResealedTwice, MaximumGeneration, FirstOf;
    StageLoads(s, payload, maximum);
  }
}
