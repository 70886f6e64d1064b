/** The A/B store of adapters/config_file_store.py: loading, committing and resealing over a flash filesystem,
    with what a power loss at any point of them can leave. */
module ConfigStore {
  import opened Options
  import opened Bytes
  import opened JsonText
  import opened SegmentedRecords
  import opened RecordFormat
  import opened RecordCodec
  import opened RecordSlots
  import opened FlashFiles
  import JsonWriter

  /** A value, or a filesystem call that failed. */
  datatype Io<T> = Done(value: T) | Failed

  datatype Receipt = Receipt(slot: Slot, generation: int, content: seq<byte>)

  /** What identifies the view a recovery was confirmed on. */
  datatype Signature = Signature(records: seq<(Slot, nat, nat, seq<byte>)>, invalid: seq<Slot>)

  /** How a signature lists one slot: not at all, or by what its record decodes to. */
  function Entry(s: Slots, slot: Slot, maximum: nat): seq<(Slot, nat, nat, seq<byte>)> {
    var stored := LoadSlot(s, slot, maximum);
    if stored.None? then [] else [(slot, stored.value.generation, stored.value.fingerprint, stored.value.token)]
  }

  /** The signature is of exactly these slots: every decodable one with its generation, fingerprint and text, every
      undecodable one by its name. */
  predicate Describes(g: Signature, s: Slots, maximum: nat) {
    && g.records == Entry(s, A, maximum) + Entry(s, B, maximum)
    && g.invalid == (if InvalidSlot(s, A, maximum) then [A] else []) + (if InvalidSlot(s, B, maximum) then [B] else [])
  }

  /** A signature tells any two views apart that differ in what some slot decodes to or whether it decodes. */
  lemma SignatureTellsApart(g: Signature, s: Slots, t: Slots, slot: Slot, maximum: nat)
    requires Describes(g, s, maximum) && Describes(g, t, maximum)
    ensures LoadSlot(s, slot, maximum) == LoadSlot(t, slot, maximum)
    ensures InvalidSlot(s, slot, maximum) == InvalidSlot(t, slot, maximum)
  {
    hide RecordFormat.Decode, RecordBytes, TextOf;
    EntriesTellApart(s, t, maximum);
    var one, two := LoadSlot(s, slot, maximum), LoadSlot(t, slot, maximum);
    assert Entry(s, slot, maximum) == Entry(t, slot, maximum);
    assert InvalidSlot(s, slot, maximum) <==> slot in g.invalid;
    assert InvalidSlot(t, slot, maximum) <==> slot in g.invalid;
    if one.Some? {
      DecodeIsSound(s.At(slot).value, maximum);
      DecodeIsSound(t.At(slot).value, maximum);
      JsonParser.ParseInvertsPrint(one.value.token, one.value.payload);
      JsonParser.ParseInvertsPrint(two.value.token, two.value.payload);
    }
  }

  lemma EntriesTellApart(s: Slots, t: Slots, maximum: nat)
    requires Entry(s, A, maximum) + Entry(s, B, maximum) == Entry(t, A, maximum) + Entry(t, B, maximum)
    ensures Entry(s, A, maximum) == Entry(t, A, maximum) && Entry(s, B, maximum) == Entry(t, B, maximum)
  {
    hide RecordFormat.Decode;
    var one, two := Entry(s, A, maximum) + Entry(s, B, maximum), Entry(t, A, maximum) + Entry(t, B, maximum);
    if Entry(s, A, maximum) != [] { assert two[0].0 == A; }
    if Entry(t, A, maximum) != [] { assert one[0].0 == A; }
    assert Entry(s, B, maximum) == one[|Entry(s, A, maximum)|..];
    assert Entry(t, B, maximum) == two[|Entry(t, A, maximum)|..];
  }

  /** Why a commit cannot be made on these slots, in the order the store notices it; None when it can. */
  predicate CommitRefused(
    s: Slots, receipt: Option<Receipt>, payload: Json, generation: int, expected: int, maximum: nat, refusal: CommitOutcome)
  {
    if !(1 <= generation <= MAX_GENERATION && 0 <= expected <= MAX_GENERATION) then refusal.BadArgument?
    else if generation != expected + 1 then refusal.NotNext?
    else if !Storable(payload, generation, maximum) then refusal.Unstorable?
    else refusal.GenerationChanged? && (ReceiptBroken(s, receipt, expected) || !NewestIs(s, expected, maximum))
  }

  /** The newest record has this generation; 0 stands for no record at all. */
  predicate NewestIs(s: Slots, expected: int, maximum: nat) {
    var a, b := LoadSlot(s, A, maximum), LoadSlot(s, B, maximum);
    if a.None? && b.None? then expected == 0
    else if a.None? then expected == b.value.generation
    else if b.None? then expected == a.value.generation
    else if a.value.generation == b.value.generation then
      expected == a.value.generation && a.value.fingerprint == b.value.fingerprint && a.value.token == b.value.token
    else expected == if a.value.generation > b.value.generation then a.value.generation else b.value.generation
  }

  lemma NewestIsRecovered(s: Slots, expected: int, maximum: nat)
    ensures NewestIs(s, expected, maximum) <==>
      !Recover(s, maximum).Conflict? && GenerationOf(Recover(s, maximum)) == expected
  {
    hide RecordFormat.Decode;
  }

  /** The slot provisioned first is remembered for this generation, and is gone or, while it is alone, different. */
  predicate ReceiptBroken(s: Slots, receipt: Option<Receipt>, expected: int) {
    && receipt.Some? && receipt.value.generation == expected
    && (s.At(receipt.value.slot).None?
        || (s.At(Other(receipt.value.slot)).None? && s.At(receipt.value.slot) != Some(receipt.value.content)))
  }

  /** Why a reseal is refused on these slots, in the order the store notices it. */
  predicate ResealRefused(s: Slots, payload: Json, expected: Option<Signature>, maximum: nat, refusal: ResealOutcome) {
    var newest := MaximumGeneration(Records(s, maximum));
    if !Storable(payload, 1, maximum) then refusal.CannotStore?
    else if expected.Some? && !Describes(expected.value, s, maximum) then refusal.ViewChanged?
    else if newest > MAX_GENERATION - 2 then refusal.GenerationsExhausted?
    else refusal.CannotStore? && !(Storable(payload, newest + 1, maximum) && Storable(payload, newest + 2, maximum))
  }

  lemma Refusals(s: Slots, payload: Json, expected: Option<Signature>, maximum: nat)
    ensures
      var newest := MaximumGeneration(Records(s, maximum));
      var changed := expected.Some? && !Describes(expected.value, s, maximum);
      if !Storable(payload, 1, maximum) then ResealRefused(s, payload, expected, maximum, CannotStore)
      else if changed then ResealRefused(s, payload, expected, maximum, ViewChanged)
      else if newest > MAX_GENERATION - 2 then ResealRefused(s, payload, expected, maximum, GenerationsExhausted)
      else !(Storable(payload, newest + 1, maximum) && Storable(payload, newest + 2, maximum)) ==>
        ResealRefused(s, payload, expected, maximum, CannotStore)
  {
    hide Storable, MaximumGeneration, Records, Describes;
  }

  datatype ResealOutcome = ResealedAs(generation: nat) | CannotStore | ViewChanged | GenerationsExhausted | ResealFailed

  datatype ReceiptAnswer = NoReceipt | Changed | Use(slot: Slot)

  datatype Choice = Stale | Target(slot: Slot, first: bool)

  datatype CommitOutcome = Committed | BadArgument | NotNext | Unstorable | GenerationChanged | IoFailed

  /** The slots read `s` on flash, and nothing unsynced concerns them. */
  ghost predicate Settled(f: Flash, s: Slots) {
    f.durable.slots == s && Quiet(f)
  }

  /** At most one slot change is unsynced, and if it put the temporary file into a slot, that file was a record. A publish
      that failed between its rename and its last sync leaves such a flash, and so does every failed reseal. */
  ghost predicate Orderly(f: Flash, maximum: nat) {
    && Open(f, f.durable.slots, Visible(f).slots)
    && (OpenRename(f) ==> RecordFormat.Decode(f.durable.temp.value, maximum).Some?)
  }

  /** A power loss now leaves one of `stages` in the slots. */
  ghost predicate OutcomesIn(f: Flash, stages: set<Slots>) {
    forall d :: CrashOutcome(f, d) ==> d.slots in stages
  }

  /** That holds of everything the flash went through from entry `from` up to entry `to`. */
  ghost predicate AllBetween(past: seq<Flash>, from: nat, to: nat, stages: set<Slots>) {
    forall k :: from <= k < to && k < |past| ==> OutcomesIn(past[k], stages)
  }

  /** And of everything from entry `from` on. */
  ghost predicate AllIn(past: seq<Flash>, from: nat, stages: set<Slots>) {
    AllBetween(past, from, |past|, stages)
  }

  lemma OpenIsIn(f: Flash, s: Slots, t: Slots, stages: set<Slots>)
    requires Open(f, s, t) && s in stages && t in stages
    ensures OutcomesIn(f, stages) && Visible(f).slots == t
  {
    OpenOutcomes(f, s, t);
  }

  lemma SettledIsOpen(f: Flash, s: Slots)
    requires Settled(f, s)
    ensures Open(f, s, s) && Visible(f).slots == s && !OpenRename(f)
  {
    QuietShowsSlots(f.durable, f.pending);
  }

  lemma MoreStages(past: seq<Flash>, from: nat, to: nat, some: set<Slots>, stages: set<Slots>)
    requires AllBetween(past, from, to, some) && some <= stages
    ensures AllBetween(past, from, to, stages)
  {
    forall k | from <= k < to && k < |past| ensures OutcomesIn(past[k], stages) { assert OutcomesIn(past[k], some); }
  }

  /** With the rename just made, the candidate is in the slot or it is not. */
  lemma RenamedIsOpen(f: Flash, target: Slot, content: seq<byte>, maximum: nat)
    requires f.pending == [RenamedTemp(target)] && f.durable.temp == Some(content) && RecordFormat.Decode(content, maximum).Some?
    ensures Open(f, f.durable.slots, f.durable.slots.With(target, Some(content))) && Orderly(f, maximum)
  {
    assert f.pending[1..] == [];
    OpenOutcomes(f, f.durable.slots, f.durable.slots.With(target, Some(content)));
  }

  lemma RemovedIsOpen(f: Flash, slot: Slot, maximum: nat)
    requires Quiet(f)
    ensures
      var next := Flash(f.durable, f.pending + [Removed(SlotFile(slot))]);
      Open(next, f.durable.slots, f.durable.slots.With(slot, None)) && Orderly(next, maximum)
  {
    var next := Flash(f.durable, f.pending + [Removed(SlotFile(slot))]);
    RemovalNext(f.pending, slot, Removed(Temp));
    OpenOutcomes(next, f.durable.slots, f.durable.slots.With(slot, None));
  }

  /** Two undecodable slots are never the work of an unsynced change. */
  lemma BothInvalidIsQuiet(f: Flash, maximum: nat)
    requires Orderly(f, maximum) && |InvalidSlotsOf(Visible(f).slots, maximum)| == 2
    ensures Settled(f, Visible(f).slots)
  {
    hide RecordFormat.Decode;
    var s, t := f.durable.slots, Visible(f).slots;
    assert OpenRename(f) && t == s.With(f.pending[0].target, f.durable.temp) ==> LoadSlot(t, f.pending[0].target, maximum).Some?;
    assert forall slot :: t == s.With(slot, None) ==> t.At(slot).None?;
    if Quiet(f) { QuietShowsSlots(f.durable, f.pending); }
  }

  lemma ChunkGrows(written: seq<byte>, chunk: seq<byte>, offset: nat, count: nat)
    requires offset + count <= |chunk|
    ensures written + chunk[..offset] + chunk[offset..][..count] == written + chunk[..offset + count]
  {
    assert chunk[..offset] + chunk[offset..][..count] == chunk[..offset + count];
  }

  /** Wherever power was lost between these entries, the store recovers to one of two newest records. */
  ghost predicate RecoversWithin(past: seq<Flash>, from: nat, to: nat, maximum: nat, one: Newest, other: Newest) {
    forall k, d :: from <= k < to && k < |past| && CrashOutcome(past[k], d) ==>
      Recover(d.slots, maximum) == one || Recover(d.slots, maximum) == other
  }

  lemma StagesRecover(past: seq<Flash>, from: nat, to: nat, maximum: nat, s: Slots, t: Slots)
    requires AllBetween(past, from, to, {s, t})
    ensures RecoversWithin(past, from, to, maximum, Recover(s, maximum), Recover(t, maximum))
  {
    hide Recover;
    forall k, d | from <= k < to && k < |past| && CrashOutcome(past[k], d)
      ensures Recover(d.slots, maximum) == Recover(s, maximum) || Recover(d.slots, maximum) == Recover(t, maximum)
    {
      assert OutcomesIn(past[k], {s, t});
    }
  }

  lemma OrderlyNext(f: Flash, c: Change, s: Slots, t: Slots, maximum: nat)
    requires Orderly(f, maximum) && Open(f, s, t) && TouchesTempOnly(c)
    ensures var next := Flash(f.durable, f.pending + [c]);
      Orderly(next, maximum) && Open(next, s, t) && Visible(next) == Apply(Visible(f), c) && OutcomesIn(next, {s, t})
  {
    hide RecordFormat.Decode;
    var next := Flash(f.durable, f.pending + [c]);
    OpenNext(f, s, t, c);
    OpenIsIn(next, s, t, {s, t});
    OpenIsIn(f, s, t, {s, t});
    OpenNext(f, f.durable.slots, Visible(f).slots, c);
  }

  class AtomicStore {
    const files: FileSystem
    const maximum: nat
    var invalidSlots: seq<Slot>
    var filesPresent: nat
    var receipt: Option<Receipt>

    /** How many calls of the filesystem have failed. */
    ghost function Failures(): nat
      reads files.troubles
    {
      files.troubles.failures
    }

    ghost function Now(): Slots
      reads files
    {
      Visible(files.flash).slots
    }

    constructor (files: FileSystem, maximum: nat)
      ensures this.files == files && this.maximum == maximum && receipt == None
    {
      this.files, this.maximum := files, maximum;
      invalidSlots, filesPresent, receipt := [], 0, None;
    }

    // ------------------------------------------------------------ reading

    method BufferOf(content: seq<byte>) returns (record: SegmentedRecord)
      ensures fresh(record) && fresh(record.chunks) && record.Valid() && record.Contents() == content
    {
      record := new SegmentedRecord(|content|);
      var end := record.WriteBytes(0, content);
    }

    /** Reads a slot in full; false marks an existing file that is no record. */
    method DecodeSlot(slot: Slot) returns (outcome: Io<Option<Stored>>)
      requires Now().At(slot).Some?
      modifies files.troubles
      ensures Failures() >= old(Failures()) && (outcome.Failed? ==> Failures() > old(Failures()))
      ensures outcome.Done? ==> outcome.value == LoadSlot(Now(), slot, maximum)
    {
      hide RecordFormat.Decode;
      var content := files.Read(SlotFile(slot));
      if content.None? { return Failed; }
      var record := BufferOf(content.value);
      var stored := DecodeRecord(record, maximum);
      return Done(stored);
    }

    method ReadSlot(slot: Slot) returns (outcome: Io<Option<Stored>>)
      modifies this, files.troubles
      ensures Failures() >= old(Failures()) && (outcome.Failed? ==> Failures() > old(Failures()))
      ensures receipt == old(receipt)
      ensures outcome.Done? ==>
        && outcome.value == LoadSlot(Now(), slot, maximum)
        && invalidSlots == old(invalidSlots) + (if InvalidSlot(Now(), slot, maximum) then [slot] else [])
        && filesPresent == old(filesPresent) + (if Now().At(slot).Some? then 1 else 0)
    {
      hide RecordFormat.Decode;
      var present := files.Exists(SlotFile(slot));
      if present.None? { return Failed; }
      if !present.value { return Done(None); }
      filesPresent := filesPresent + 1;
      outcome := DecodeSlot(slot);
      if outcome == Done(None) { invalidSlots := invalidSlots + [slot]; }
    }

    /** The metadata line at the head of a file, looked for in its first chunk only. */
    method ReadHeader(content: seq<byte>) returns (m: Option<Meta>)
      ensures m.Some? ==> exists h :: 0 <= h < |content| && content[h] == NEWLINE && m == ParseMeta(content[..h], MAGIC)
    {
      if content == [] || |content| > maximum { return None; }
      var prefix := content[..if |content| < CHUNK_BYTES then |content| else CHUNK_BYTES];
      var headerEnd := IndexOf(prefix, NEWLINE, 0);
      if headerEnd == 0 || headerEnd == |prefix| { return None; }
      assert prefix[..headerEnd] == content[..headerEnd];
      return ParseMeta(prefix[..headerEnd], MAGIC);
    }

    /** Whether a slot is byte for byte the record of `reference`'s payload under the generation in its header. */
    method MatchesReference(content: seq<byte>, reference: Stored) returns (generation: Option<nat>)
      ensures generation.Some? ==>
        Storable(reference.payload, generation.value, maximum) && content == RecordOf(reference.payload, generation.value)
    {
      hide RecordOf, Storable;
      var m := ReadHeader(content);
      if m.None? || m.value.checksum != reference.fingerprint { return None; }
      var expected := EncodeRecord(reference.payload, m.value.generation, maximum);
      if expected == null || m.value.length + 1 >= expected.length { return None; }
      var same := Equal(content, expected);
      return if same then Some(m.value.generation) else None;
    }

    /** Chunk by chunk comparison of a file's content with a buffer. */
    method Equal(content: seq<byte>, expected: SegmentedRecord) returns (same: bool)
      requires expected.Valid()
      ensures same == (content == expected.Contents())
    {
      if |content| != expected.length { return false; }
      var position := 0;
      while position < expected.length
        invariant 0 <= position <= expected.length
        invariant content[..position] == expected.Contents()[..position]
      {
        var end := if position + CHUNK_BYTES < expected.length then position + CHUNK_BYTES else expected.length;
        var chunk := expected.SliceBytes(position, end);
        if content[position..end] != chunk {
          assert content != expected.Contents();
          return false;
        }
        assert content[..end] == content[..position] + content[position..end];
        assert expected.Contents()[..end] == expected.Contents()[..position] + expected.Contents()[position..end];
        position := end;
      }
      assert content[..position] == content && expected.Contents()[..position] == expected.Contents();
      return true;
    }

    lemma ReferenceIsWhatDecodes(reference: Stored, generation: nat)
      requires Decodable(reference) && Storable(reference.payload, generation, maximum)
      ensures RecordFormat.Decode(RecordOf(reference.payload, generation), maximum)
              == Some(Stored(generation, reference.payload, reference.fingerprint, reference.token))
    {
      hide TextOf, RecordBytes, RecordFormat.Decode;
      CanonicalStays(reference.payload);
      DecodeIsComplete(Stored(generation, reference.payload, reference.fingerprint, reference.token), maximum);
    }

    /** The fast path of the second slot: it answers exactly what decoding that slot would answer. */
    method ReadSlotReusingPayload(slot: Slot, reference: Stored) returns (outcome: Io<Option<Stored>>)
      requires Decodable(reference)
      modifies this, files.troubles
      ensures Failures() >= old(Failures()) && (outcome.Failed? ==> Failures() > old(Failures()))
      ensures receipt == old(receipt)
      ensures outcome.Done? ==>
        && outcome.value == LoadSlot(Now(), slot, maximum)
        && invalidSlots == old(invalidSlots) + (if InvalidSlot(Now(), slot, maximum) then [slot] else [])
        && filesPresent == old(filesPresent) + (if Now().At(slot).Some? then 1 else 0)
    {
      hide RecordFormat.Decode, Decodable, RecordOf, Storable;
      var present := files.Exists(SlotFile(slot));
      if present.None? { return Failed; }
      if !present.value { return Done(None); }
      filesPresent := filesPresent + 1;
      var content := files.Read(SlotFile(slot));
      if content.None? { return Failed; }
      var generation := MatchesReference(content.value, reference);
      if generation.Some? {
        ReferenceIsWhatDecodes(reference, generation.value);
        return Done(Some(Stored(generation.value, reference.payload, reference.fingerprint, reference.token)));
      }
      outcome := DecodeSlot(slot);
      if outcome == Done(None) { invalidSlots := invalidSlots + [slot]; }
    }

    /** Both slots, the second one by the fast path when the first held a record. */
    method LoadRecords() returns (outcome: Io<seq<Loaded>>)
      modifies this, files.troubles
      ensures Failures() >= old(Failures()) && (outcome.Failed? ==> Failures() > old(Failures()))
      ensures receipt == old(receipt)
      ensures outcome.Done? ==>
        outcome.value == Records(Now(), maximum) && invalidSlots == InvalidSlotsOf(Now(), maximum)
        && (filesPresent == 0 <==> Now() == Slots(None, None))
    {
      hide RecordFormat.Decode;
      invalidSlots, filesPresent := [], 0;
      var leftover := files.Exists(Temp);
      if leftover.None? { return Failed; }
      var first := ReadSlot(A);
      if first.Failed? { return Failed; }
      var second: Io<Option<Stored>>;
      if first.value.Some? {
        DecodeIsSound(Now().a.value, maximum);
        second := ReadSlotReusingPayload(B, first.value.value);
      } else {
        second := ReadSlot(B);
      }
      if second.Failed? { return Failed; }
      return Done((if first.value.Some? then [Loaded(A, first.value.value)] else [])
                  + (if second.value.Some? then [Loaded(B, second.value.value)] else []));
    }

    // ------------------------------------------------------------ publishing

    /** The flash is orderly, with `s` in its slots without what is unsynced and `t` with it; since entry `from` a power loss
        has left one or the other. */
    ghost predicate Poised(from: nat, s: Slots, t: Slots)
      reads files
    {
      files.Recorded() && Orderly(files.flash, maximum) && Open(files.flash, s, t) && AllIn(files.past, from, {s, t})
    }

    /** One change of the temporary file; the slots and their safety are as before. */
    method ChangeTemp(c: Change, ghost from: nat, ghost s: Slots, ghost t: Slots) returns (ok: bool)
      requires Poised(from, s, t) && TouchesTempOnly(c)
      modifies files, files.troubles
      ensures Failures() >= old(Failures()) && (!ok ==> Failures() > old(Failures()))
      ensures Poised(from, s, t) && old(files.past) <= files.past
      ensures ok ==> Visible(files.flash) == Apply(Visible(old(files.flash)), c)
    {
      hide Orderly, Open, OutcomesIn;
      OrderlyNext(files.flash, c, s, t, maximum);
      ok := files.Change(c);
    }

    method RemoveTempIfPresent(ghost from: nat, ghost s: Slots, ghost t: Slots) returns (ok: bool)
      requires Poised(from, s, t)
      modifies files, files.troubles
      ensures Failures() >= old(Failures()) && (!ok ==> Failures() > old(Failures()))
      ensures Poised(from, s, t) && old(files.past) <= files.past
    {
      var present := files.Exists(Temp);
      if present.None? { return false; }
      if !present.value { return true; }
      ok := ChangeTemp(Removed(Temp), from, s, t);
    }

    /** Writes one chunk, in as many calls as the port needs. */
    method WriteChunk(chunk: seq<byte>, ghost written: seq<byte>, ghost from: nat, ghost s: Slots, ghost t: Slots) returns (ok: bool)
      requires Poised(from, s, t) && Visible(files.flash).temp == Some(written)
      modifies files, files.troubles
      ensures Failures() >= old(Failures()) && (!ok ==> Failures() > old(Failures()))
      ensures Poised(from, s, t) && old(files.past) <= files.past
      ensures ok ==> Visible(files.flash).temp == Some(written + chunk)
    {
      hide Orderly, Open, OutcomesIn;
      var offset := 0;
      assert written + chunk[..0] == written;
      while offset < |chunk|
        invariant 0 <= offset <= |chunk|
        invariant Failures() >= old(Failures())
        invariant Poised(from, s, t) && old(files.past) <= files.past
        invariant Visible(files.flash).temp == Some(written + chunk[..offset])
      {
        var part := chunk[offset..];
        var count := WritePart(part, from, s, t);
        if count.None? { return false; }
        ChunkGrows(written, chunk, offset, count.value);
        offset := offset + count.value;
      }
      assert chunk[..offset] == chunk;
      return true;
    }

    method WritePart(part: seq<byte>, ghost from: nat, ghost s: Slots, ghost t: Slots) returns (count: Option<nat>)
      requires Poised(from, s, t) && part != []
      modifies files, files.troubles
      ensures Failures() >= old(Failures()) && (count.None? ==> Failures() > old(Failures()))
      ensures Poised(from, s, t) && old(files.past) <= files.past
      ensures count.Some? ==>
        1 <= count.value <= |part| && Visible(files.flash) == Apply(Visible(old(files.flash)), Extended(Temp, part[..count.value]))
    {
      hide Orderly, Open, OutcomesIn;
      ghost var f := files.flash;
      forall k: nat | k <= |part|
        ensures var next := Flash(f.durable, f.pending + [Extended(Temp, part[..k])]);
          Orderly(next, maximum) && Open(next, s, t) && OutcomesIn(next, {s, t})
      {
        OrderlyNext(f, Extended(Temp, part[..k]), s, t, maximum);
      }
      count := files.Write(Temp, part);
      if count.Some? { OrderlyNext(f, Extended(Temp, part[..count.value]), s, t, maximum); }
    }

    method WriteAll(record: SegmentedRecord, ghost from: nat, ghost s: Slots, ghost t: Slots) returns (ok: bool)
      requires record.Valid() && Poised(from, s, t)
      modifies files, files.troubles
      ensures Failures() >= old(Failures()) && (!ok ==> Failures() > old(Failures()))
      ensures Poised(from, s, t) && old(files.past) <= files.past
      ensures ok ==> Visible(files.flash).temp == Some(record.Contents())
    {
      ok := ChangeTemp(Truncated(Temp), from, s, t);
      if !ok { return; }
      var position := 0;
      ghost var content := record.Contents();
      while position < record.length
        invariant 0 <= position <= record.length
        invariant Failures() >= old(Failures())
        invariant Poised(from, s, t) && old(files.past) <= files.past
        invariant Visible(files.flash).temp == Some(content[..position])
      {
        var end := if position + CHUNK_BYTES < record.length then position + CHUNK_BYTES else record.length;
        var chunk := record.SliceBytes(position, end);
        assert content[..position] + content[position..end] == content[..end];
        var done := WriteChunk(chunk, content[..position], from, s, t);
        if !done { return false; }
        position := end;
      }
      assert content[..position] == content;
      ok := files.Close();
    }

    /** Reads a file back and compares every byte. */
    method Verify(file: File, expected: SegmentedRecord) returns (same: bool)
      requires expected.Valid()
      modifies files.troubles
      ensures Failures() >= old(Failures())
      ensures same ==> ContentOf(Visible(files.flash), file) == Some(expected.Contents())
      ensures !same && ContentOf(Visible(files.flash), file) == Some(expected.Contents()) ==> Failures() > old(Failures())
    {
      var content := files.Read(file);
      if content.None? { return false; }
      same := Equal(content.value, expected);
    }

    /** Makes everything durable that is visible; a failed sync may have done so too. */
    method SyncSlots(ghost from: nat, ghost s: Slots, ghost t: Slots) returns (ok: bool)
      requires Poised(from, s, t)
      modifies files, files.troubles
      ensures Failures() >= old(Failures()) && (!ok ==> Failures() > old(Failures()))
      ensures files.Recorded() && Orderly(files.flash, maximum) && AllIn(files.past, from, {s, t}) && old(files.past) <= files.past
      ensures Visible(files.flash) == Visible(old(files.flash))
      ensures Open(files.flash, s, t) || Settled(files.flash, t)
      ensures ok ==> files.flash == Flash(Visible(old(files.flash)), []) && Settled(files.flash, t) && |files.past| > |old(files.past)|
    {
      hide RecordFormat.Decode;
      ghost var shown := Visible(files.flash);
      OpenIsIn(files.flash, s, t, {s, t});
      SettledIsOpen(Flash(shown, []), t);
      OpenIsIn(Flash(shown, []), t, t, {s, t});
      hide Open, OutcomesIn, OpenRename;
      ok := files.Sync();
    }

    /** The candidate on flash, durable and read back, before any slot is touched; with it everything visible before is. */
    method StageCandidate(record: SegmentedRecord, ghost from: nat, ghost s: Slots, ghost t: Slots) returns (ok: bool)
      requires record.Valid() && Poised(from, s, t)
      modifies files, files.troubles
      ensures Failures() >= old(Failures()) && (!ok ==> Failures() > old(Failures()))
      ensures files.Recorded() && Orderly(files.flash, maximum) && AllIn(files.past, from, {s, t}) && old(files.past) <= files.past
      ensures ok ==> files.flash.pending == [] && files.flash.durable == Disk(t, Some(record.Contents())) && |files.past| > |old(files.past)|
    {
      hide Orderly, Open, OutcomesIn;
      ok := RemoveTempIfPresent(from, s, t);
      if !ok { return; }
      ok := WriteAll(record, from, s, t);
      if !ok { return; }
      ok := SyncSlots(from, s, t);
      if !ok { return; }
      ok := Verify(Temp, record);
    }

    /** The publication of one record over slots that read `t`, where something of it may still be unsynced. Until the
        candidate is durable a power loss leaves what one left before. From entry `staged` on it leaves the visible slots or
        those with the record, and after success the latter. */
    method PublishRecord(record: SegmentedRecord, target: Slot, ghost s: Slots, ghost t: Slots) returns (ok: bool, ghost staged: nat)
      requires record.Valid() && RecordFormat.Decode(record.Contents(), maximum).Some?
      requires files.Recorded() && Orderly(files.flash, maximum) && Open(files.flash, s, t)
      modifies files, files.troubles
      ensures Failures() >= old(Failures()) && (!ok ==> Failures() > old(Failures()))
      ensures files.Recorded() && Orderly(files.flash, maximum) && old(files.past) <= files.past
      ensures |old(files.past)| <= staged <= |files.past| && AllBetween(files.past, |old(files.past)|, staged, {s, t})
      ensures AllIn(files.past, staged, {t, t.With(target, Some(record.Contents()))})
      ensures ok ==> Settled(files.flash, t.With(target, Some(record.Contents())))
    {
      hide RecordFormat.Decode, OutcomesIn, Open, Orderly;
      ok := StageCandidate(record, |files.past|, s, t);
      staged := |files.past|;
      if !ok { return; }
      staged := staged - 1;
      ok := MoveCandidate(record, target, t);
    }

    /** The rename and what confirms it; the candidate is durable and nothing is unsynced. */
    method MoveCandidate(record: SegmentedRecord, target: Slot, ghost t: Slots) returns (ok: bool)
      requires record.Valid() && RecordFormat.Decode(record.Contents(), maximum).Some?
      requires files.Recorded() && files.flash == Flash(Disk(t, Some(record.Contents())), [])
      modifies files, files.troubles
      ensures Failures() >= old(Failures()) && (!ok ==> Failures() > old(Failures()))
      ensures files.Recorded() && Orderly(files.flash, maximum) && old(files.past) <= files.past
      ensures AllIn(files.past, |old(files.past)| - 1, {t, t.With(target, Some(record.Contents()))})
      ensures ok ==> Settled(files.flash, t.With(target, Some(record.Contents())))
    {
      hide RecordFormat.Decode, OutcomesIn;
      ghost var after, from := t.With(target, Some(record.Contents())), |files.past| - 1;
      ghost var stages := {t, after};
      SettledIsOpen(files.flash, t);
      OpenIsIn(files.flash, t, t, stages);
      ghost var renamed := Flash(files.flash.durable, [RenamedTemp(target)]);
      RenamedIsOpen(renamed, target, record.Contents(), maximum);
      OpenIsIn(renamed, t, after, stages);
      assert files.flash.pending + [RenamedTemp(target)] == [RenamedTemp(target)];
      hide Open, Orderly, OpenRename;
      ok := files.Change(RenamedTemp(target));
      if !ok { return; }
      ok := SyncSlots(from, t, after);
      if !ok { return; }
      ok := Verify(SlotFile(target), record);
    }

    // ------------------------------------------------------------ committing

    /** A receipt remembers a record that decodes under the generation it names. */
    ghost predicate Valid()
      reads this
    {
      receipt.Some? ==>
        var stored := RecordFormat.Decode(receipt.value.content, maximum);
        stored.Some? && stored.value.generation == receipt.value.generation
    }

    lemma OrderlyIsOpen()
      requires Orderly(files.flash, maximum)
      ensures Open(files.flash, files.flash.durable.slots, Now())
    {
      hide RecordFormat.Decode;
    }

    /** The slot to write next without a full scan: only while the slot provisioned first is alone and unchanged.
        The answer is the one the full scan would give. */
    method BootstrapReceiptTarget(expected: int) returns (answer: Io<ReceiptAnswer>)
      requires Valid()
      modifies this, files.troubles
      ensures Failures() >= old(Failures()) && (answer.Failed? ==> Failures() > old(Failures()))
      ensures Valid() && (receipt == old(receipt) || receipt == None)
      ensures answer.Done? ==> (answer.value.Changed? <==> ReceiptBroken(Now(), old(receipt), expected))
      ensures answer.Done? && answer.value.Use? ==>
        && answer.value.slot == TargetSlot(Records(Now(), maximum))
        && Recover(Now(), maximum).Record? && GenerationOf(Recover(Now(), maximum)) == expected
        && InvalidSlotsOf(Now(), maximum) == [] && Now() != Slots(None, None)
    {
      hide RecordFormat.Decode;
      if receipt.None? || receipt.value.generation != expected { return Done(NoReceipt); }
      var slot := receipt.value.slot;
      var present := files.Exists(SlotFile(slot));
      if present.None? { return Failed; }
      if !present.value {
        receipt := None;
        return Done(Changed);
      }
      var other := files.Exists(SlotFile(Other(slot)));
      if other.None? { return Failed; }
      if other.value {
        receipt := None;
        return Done(NoReceipt);
      }
      var content := files.Read(SlotFile(slot));
      if content.None? { return Failed; }
      if content.value != receipt.value.content {
        receipt := None;
        return Done(Changed);
      }
      var leftover := files.Exists(Temp);
      if leftover.None? { return Failed; }
      invalidSlots, filesPresent := [], 1;
      return Done(Use(Other(slot)));
    }

    /** The slot a commit on top of `expected` writes, and whether it is the first record of an empty store. */
    method ChooseTarget(expected: int) returns (choice: Io<Choice>)
      requires Valid()
      modifies this, files.troubles
      ensures Failures() >= old(Failures()) && (choice.Failed? ==> Failures() > old(Failures()))
      ensures Valid()
      ensures choice.Done? && choice.value.Target? ==>
        && choice.value.slot == TargetSlot(Records(Now(), maximum))
        && !Recover(Now(), maximum).Conflict? && GenerationOf(Recover(Now(), maximum)) == expected
        && choice.value.first == (Now() == Slots(None, None))
      ensures choice.Done? && choice.value.Stale? ==>
        ReceiptBroken(Now(), old(receipt), expected) || !NewestIs(Now(), expected, maximum)
      ensures choice.Done? && choice.value.Target? ==> NewestIs(Now(), expected, maximum) && !ReceiptBroken(Now(), old(receipt), expected)
    {
      hide RecordFormat.Decode;
      NewestIsRecovered(Now(), expected, maximum);
      var answer := BootstrapReceiptTarget(expected);
      if answer.Failed? { return Failed; }
      if answer.value.Changed? { return Done(Stale); }
      if answer.value.Use? { return Done(Target(answer.value.slot, false)); }
      var records := LoadRecords();
      if records.Failed? { return Failed; }
      var latest := LatestStructural(records.value);
      if latest.Conflict? || GenerationOf(latest) != expected { return Done(Stale); }
      NoFilesNoRecords(Now());
      return Done(Target(TargetSlot(records.value), GenerationOf(latest) == 0 && filesPresent == 0));
    }

    lemma NoFilesNoRecords(s: Slots)
      ensures s == Slots(None, None) ==> Records(s, maximum) == []
    {
    }

    /** The slots once a commit on top of `s` is through. */
    ghost function CommittedSlots(s: Slots, payload: Json, generation: nat): Slots {
      s.With(TargetSlot(Records(s, maximum)), Some(RecordOf(payload, generation)))
    }

    /** Publishes `payload` as generation `generation`, on top of exactly `expected`, over an orderly flash: one where an
        earlier publish may have failed between its rename and its last sync. Until the candidate is durable a power loss
        recovers to the newest durable record or to the newest visible one, from entry `staged` on to the visible one or to
        the new record, and to the new record once the call returned. Whatever happens the flash stays orderly. */
    method Commit(payload: Json, generation: int, expected: int) returns (outcome: CommitOutcome, ghost staged: nat)
      requires Valid() && files.Recorded() && WellFormed(payload) && Orderly(files.flash, maximum)
      modifies this, files, files.troubles
      ensures Failures() >= old(Failures()) && (outcome.IoFailed? ==> Failures() > old(Failures()))
      ensures Valid() && files.Recorded() && Orderly(files.flash, maximum) && old(files.past) <= files.past
      ensures |old(files.past)| <= staged <= |files.past|
      ensures RecoversWithin(files.past, |old(files.past)|, staged, maximum,
                             Recover(old(files.flash.durable.slots), maximum), Recover(old(Now()), maximum))
      ensures generation >= 0 ==>
        RecoversWithin(files.past, staged, |files.past|, maximum, Recover(old(Now()), maximum), Record(StoredOf(payload, generation)))
      ensures outcome.Committed? ==>
        && 1 <= generation == expected + 1 && Storable(payload, generation, maximum)
        && expected == GenerationOf(Recover(old(Now()), maximum))
      ensures outcome.Committed? ==> Settled(files.flash, CommittedSlots(old(Now()), payload, generation))
      ensures outcome.Committed? ==> Recover(Now(), maximum) == Record(StoredOf(payload, generation))
      ensures !outcome.Committed? && !outcome.IoFailed? ==>
        && files.flash == old(files.flash) && files.past == old(files.past)
        && CommitRefused(old(Now()), old(receipt), payload, generation, expected, maximum, outcome)
      ensures outcome.Committed? || outcome.IoFailed? ==>
        && 1 <= generation == expected + 1 && Storable(payload, generation, maximum)
      ensures outcome.Committed? ==> NewestIs(old(Now()), expected, maximum) && !ReceiptBroken(old(Now()), old(receipt), expected)
    {
      hide RecordFormat.Decode, Recover, StoredOf, RecordOf, Storable, OutcomesIn, Orderly, Open, NewestIs, ReceiptBroken, LoadSlot;
      staged := |files.past|;
      if generation < 1 || generation > MAX_GENERATION || expected < 0 || expected > MAX_GENERATION { return BadArgument, staged; }
      if generation != expected + 1 { return NotNext, staged; }
      var record := EncodeRecord(payload, generation, maximum);
      if record == null { return Unstorable, staged; }
      var choice := ChooseTarget(expected);
      if choice.Failed? { return IoFailed, staged; }
      if choice.value.Stale? { return GenerationChanged, staged; }
      outcome, staged := PublishChosen(payload, generation, record, choice.value.slot, choice.value.first);
    }

    /** The commit once its record is encoded and its slot chosen. */
    method PublishChosen(payload: Json, generation: nat, record: SegmentedRecord, slot: Slot, first: bool)
      returns (outcome: CommitOutcome, ghost staged: nat)
      requires Valid() && files.Recorded() && WellFormed(payload) && Orderly(files.flash, maximum) && Storable(payload, generation, maximum)
      requires record.Valid() && record.Contents() == RecordOf(payload, generation) && slot == TargetSlot(Records(Now(), maximum))
      requires !Recover(Now(), maximum).Conflict? && generation == GenerationOf(Recover(Now(), maximum)) + 1
      modifies this, files, files.troubles
      ensures Failures() >= old(Failures()) && (outcome.IoFailed? ==> Failures() > old(Failures()))
      ensures Valid() && files.Recorded() && Orderly(files.flash, maximum) && old(files.past) <= files.past
      ensures |old(files.past)| <= staged <= |files.past| && (outcome.Committed? || outcome.IoFailed?)
      ensures RecoversWithin(files.past, |old(files.past)|, staged, maximum,
                             Recover(old(files.flash.durable.slots), maximum), Recover(old(Now()), maximum))
      ensures RecoversWithin(files.past, staged, |files.past|, maximum, Recover(old(Now()), maximum), Record(StoredOf(payload, generation)))
      ensures outcome.Committed? ==> Settled(files.flash, CommittedSlots(old(Now()), payload, generation))
      ensures outcome.Committed? ==> Recover(Now(), maximum) == Record(StoredOf(payload, generation))
    {
      hide RecordFormat.Decode, Recover, StoredOf, RecordOf, Storable, OutcomesIn, Orderly, Open, LoadSlot, WellFormed;
      ghost var s, t, from := files.flash.durable.slots, Now(), |files.past|;
      EncodedRecordDecodes(payload, generation, maximum);
      OrderlyIsOpen();
      var ok;
      ok, staged := PublishRecord(record, slot, s, t);
      StagesRecover(files.past, from, staged, maximum, s, t);
      StagesRecover(files.past, staged, |files.past|, maximum, t, t.With(slot, Some(record.Contents())));
      CommitAdvances(t, payload, generation, maximum);
      if !ok { return IoFailed, staged; }
      SettledIsOpen(files.flash, t.With(slot, Some(record.Contents())));
      if first {
        var content := record.SliceBytes(0, record.length);
        assert content == record.Contents();
        GenerationIsKept(payload, generation);
        receipt := Some(Receipt(slot, generation, content));
      } else {
        receipt := None;
      }
      return Committed, staged;
    }

    // ------------------------------------------------------------ resealing

    lemma SignatureDescribes(s: Slots, g: Signature)
      ensures g == SignatureOf(Records(s, maximum), InvalidSlotsOf(s, maximum)) <==> Describes(g, s, maximum)
    {
      hide RecordFormat.Decode;
    }

    /** The recoverable records, and the signature a reseal confirmed on them has to bring. */
    method InspectRecovery() returns (outcome: Io<(seq<Loaded>, Signature)>)
      modifies this, files.troubles
      ensures Failures() >= old(Failures()) && (outcome.Failed? ==> Failures() > old(Failures()))
      ensures receipt == old(receipt)
      ensures outcome.Done? ==> outcome.value.0 == Records(Now(), maximum) && Describes(outcome.value.1, Now(), maximum)
    {
      var records := LoadRecords();
      if records.Failed? { return Failed; }
      SignatureDescribes(Now(), SignatureOf(records.value, invalidSlots));
      return Done((records.value, SignatureOf(records.value, invalidSlots)));
    }

    function SignatureOf(records: seq<Loaded>, invalid: seq<Slot>): Signature {
      Signature(seq(|records|, i requires 0 <= i < |records| =>
                  (records[i].slot, records[i].stored.generation, records[i].stored.fingerprint, records[i].stored.token)), invalid)
    }

    method GreatestGeneration(records: seq<Loaded>) returns (greatest: nat)
      ensures greatest == MaximumGeneration(records)
    {
      greatest := 0;
      var i := 0;
      while i < |records|
        invariant 0 <= i <= |records|
        invariant MaximumGeneration(records) == if greatest > MaximumGeneration(records[i..]) then greatest else MaximumGeneration(records[i..])
      {
        assert records[i..][1..] == records[i + 1..];
        if records[i].stored.generation > greatest { greatest := records[i].stored.generation; }
        i := i + 1;
      }
    }

    /** Removes one slot and makes that durable. */
    method DiscardSlot(slot: Slot, ghost s: Slots) returns (ok: bool)
      requires files.Recorded() && Settled(files.flash, s)
      modifies files, files.troubles
      ensures Failures() >= old(Failures()) && (!ok ==> Failures() > old(Failures()))
      ensures files.Recorded() && Orderly(files.flash, maximum) && old(files.past) <= files.past
      ensures AllIn(files.past, |old(files.past)|, {s, s.With(slot, None)})
      ensures ok ==> Settled(files.flash, s.With(slot, None))
    {
      hide RecordFormat.Decode, OutcomesIn;
      ghost var after, from := s.With(slot, None), |files.past|;
      SettledIsOpen(files.flash, s);
      RemovedIsOpen(files.flash, slot, maximum);
      ghost var removed := Flash(files.flash.durable, files.flash.pending + [Removed(SlotFile(slot))]);
      OpenIsIn(removed, s, after, {s, after});
      hide Open, Orderly, OpenRename;
      var present := files.Exists(SlotFile(slot));
      if present.None? { return false; }
      if present.value {
        ok := files.Change(Removed(SlotFile(slot)));
        if !ok { return; }
      } else {
        assert after == s;
      }
      ok := SyncSlots(from, s, after);
    }

    lemma AllInMore(past: seq<Flash>, more: seq<Flash>, from: nat, some: set<Slots>, stages: set<Slots>, all: set<Slots>)
      requires past <= more && AllIn(past, from, some) && AllIn(more, |past|, stages) && some <= all && stages <= all
      ensures AllIn(more, from, all)
    {
      forall k | from <= k < |more| ensures OutcomesIn(more[k], all) {
        if k < |past| { assert OutcomesIn(past[k], some); } else { assert OutcomesIn(more[k], stages); }
      }
    }

    /** With two undecodable slots neither generation is known: both go, one after the other. */
    method ClearInvalid(invalid: seq<Slot>) returns (ok: bool)
      requires files.Recorded() && Orderly(files.flash, maximum) && invalid == InvalidSlotsOf(Now(), maximum) && |invalid| == 2
      modifies files, files.troubles
      ensures Failures() >= old(Failures()) && (!ok ==> Failures() > old(Failures()))
      ensures files.Recorded() && Orderly(files.flash, maximum) && old(files.past) <= files.past
      ensures AllIn(files.past, |old(files.past)|, {old(Now()), old(Now()).With(A, None), Cleared(old(Now()), maximum)})
      ensures ok ==> Settled(files.flash, Cleared(old(Now()), maximum))
    {
      hide RecordFormat.Decode, OutcomesIn, Orderly;
      ghost var s := Now();
      BothInvalidIsQuiet(files.flash, maximum);
      TwoInvalidSlots(s, maximum);
      ghost var all := {s, s.With(A, None), Cleared(s, maximum)};
      ghost var from := |files.past|;
      ok := DiscardSlot(invalid[0], s);
      AllInMore(old(files.past), files.past, from, {}, {s, s.With(A, None)}, all);
      if !ok { return; }
      ghost var halfway := files.past;
      ok := DiscardSlot(invalid[1], s.With(A, None));
      AllInMore(halfway, files.past, from, all, {s.With(A, None), s.With(A, None).With(B, None)}, all);
    }

    lemma NothingHappened(past: seq<Flash>, at: nat, some: set<Slots>, stages: set<Slots>)
      ensures AllBetween(past, at, at, some) && AllIn(past, |past|, stages)
    {
    }

    /** Stages so far, then one publication from slots `x` to slots `y`. */
    lemma JoinStages(past: seq<Flash>, more: seq<Flash>, from: nat, mid: nat, x: Slots, y: Slots, all: set<Slots>)
      requires past <= more && |past| <= mid && AllIn(past, from, all) && x in all && y in all
      requires AllBetween(more, |past|, mid, {x, x}) && AllIn(more, mid, {x, y})
      ensures AllIn(more, from, all)
    {
      forall k | from <= k < |more| ensures OutcomesIn(more[k], all) {
        if k < |past| { assert OutcomesIn(past[k], all); }
        else if k < mid { assert OutcomesIn(more[k], {x, x}); }
        else { assert OutcomesIn(more[k], {x, y}); }
      }
    }

    lemma BothDecode(s: Slots, payload: Json)
      requires CanReseal(s, payload, maximum)
      ensures var newest := MaximumGeneration(Records(s, maximum));
        && RecordFormat.Decode(RecordOf(payload, newest + 1), maximum).Some?
        && RecordFormat.Decode(RecordOf(payload, newest + 2), maximum).Some?
    {
      hide RecordFormat.Decode, Storable, WellFormed, RecordOf, Records, MaximumGeneration, StoredOf;
      var newest := MaximumGeneration(Records(s, maximum));
      EncodedRecordDecodes(payload, newest + 1, maximum);
      EncodedRecordDecodes(payload, newest + 2, maximum);
    }

    lemma BothStorable(s: Slots, payload: Json, newest: nat)
      requires newest == MaximumGeneration(Records(s, maximum)) && WellFormed(payload)
      requires Storable(payload, newest + 1, maximum) && Storable(payload, newest + 2, maximum)
      ensures CanReseal(s, payload, maximum)
    {
      hide Storable, WellFormed, Records, MaximumGeneration;
    }

    /** Replaces an untrusted pair of slots by two generations of `payload`, over an orderly flash. Until the first candidate
        is durable a power loss leaves the durable slots or the visible ones, from entry `staged` on one of the stages of the
        reseal of the visible ones. Whatever happens the flash stays orderly. */
    method Reseal(payload: Json, expected: Option<Signature>) returns (outcome: ResealOutcome, ghost staged: nat)
      requires Valid() && files.Recorded() && WellFormed(payload) && Orderly(files.flash, maximum)
      modifies this, files, files.troubles
      ensures Failures() >= old(Failures()) && (outcome.ResealFailed? ==> Failures() > old(Failures()))
      ensures Valid() && files.Recorded() && Orderly(files.flash, maximum) && old(files.past) <= files.past
      ensures !outcome.ResealedAs? && !outcome.ResealFailed? ==>
        && files.flash == old(files.flash) && files.past == old(files.past)
        && ResealRefused(old(Now()), payload, expected, maximum, outcome)
      ensures outcome.ResealedAs? || files.past != old(files.past) ==>
        && (expected.Some? ==> Describes(expected.value, old(Now()), maximum))
        && MaximumGeneration(Records(old(Now()), maximum)) <= MAX_GENERATION - 2 && Storable(payload, 1, maximum)
      ensures files.past == old(files.past) || CanReseal(old(Now()), payload, maximum)
      ensures |old(files.past)| <= staged <= |files.past|
      ensures AllBetween(files.past, |old(files.past)|, staged, {old(files.flash.durable.slots), old(Now())})
      ensures AllIn(files.past, staged, ResealStages(old(Now()), payload, maximum))
      ensures outcome.ResealedAs? ==>
        && outcome.generation == MaximumGeneration(Records(old(Now()), maximum)) + 2
        && Settled(files.flash, ResealedTwice(old(Now()), payload, maximum))
        && receipt == None
    {
      hide RecordFormat.Decode, RecordOf, Storable, OutcomesIn, Resealed, ResealedTwice, Cleared, FirstOf;
      hide FileSystem.Recorded, ResealRefused, InvalidSlotsOf, Records, MaximumGeneration, ResealStages, CanReseal, SignatureOf, AllIn, LoadSlot, RecordBytes;
      hide WellFormed, Writable, JsonWriter.CanonicalText, MetaLine, Settled, Orderly, AllBetween, Describes, InvalidSlot;
      staged := |files.past|;
      Refusals(Now(), payload, expected, maximum);
      NothingHappened(files.past, staged, {files.flash.durable.slots, Now()}, ResealStages(Now(), payload, maximum));
      var layout := PlanRecord(payload, 1, maximum);
      if layout.None? { return CannotStore, staged; }
      var loaded := LoadRecords();
      if loaded.Failed? { return ResealFailed, staged; }
      var records, invalid := loaded.value, invalidSlots;
      if expected.Some? { SignatureDescribes(Now(), expected.value); }
      if expected.Some? && SignatureOf(records, invalid) != expected.value { return ViewChanged, staged; }
      var newest := GreatestGeneration(records);
      if newest > MAX_GENERATION - 2 { return GenerationsExhausted, staged; }
      var first := EncodeRecord(payload, newest + 1, maximum);
      if first == null { return CannotStore, staged; }
      var second := EncodeRecord(payload, newest + 2, maximum);
      if second == null { return CannotStore, staged; }
      BothStorable(Now(), payload, newest);
      outcome, staged := PublishBoth(payload, first, second, records, invalid, newest);
    }

    method PublishBoth(
      payload: Json, first: SegmentedRecord, second: SegmentedRecord, records: seq<Loaded>, invalid: seq<Slot>, newest: nat)
      returns (outcome: ResealOutcome, ghost staged: nat)
      requires Valid() && files.Recorded() && CanReseal(Now(), payload, maximum) && Orderly(files.flash, maximum)
      requires records == Records(Now(), maximum) && invalid == InvalidSlotsOf(Now(), maximum) && newest == MaximumGeneration(records)
      requires first.Valid() && first.Contents() == RecordOf(payload, newest + 1)
      requires second.Valid() && second.Contents() == RecordOf(payload, newest + 2)
      modifies this, files, files.troubles
      ensures Failures() >= old(Failures()) && (outcome.ResealFailed? ==> Failures() > old(Failures()))
      ensures Valid() && files.Recorded() && Orderly(files.flash, maximum) && old(files.past) <= files.past
      ensures outcome.ResealedAs? || outcome.ResealFailed?
      ensures |old(files.past)| <= staged <= |files.past|
      ensures AllBetween(files.past, |old(files.past)|, staged, {old(files.flash.durable.slots), old(Now())})
      ensures AllIn(files.past, staged, ResealStages(old(Now()), payload, maximum))
      ensures outcome.ResealedAs? ==>
        && outcome.generation == newest + 2 && receipt == None
        && Settled(files.flash, ResealedTwice(old(Now()), payload, maximum))
    {
      hide RecordFormat.Decode, RecordOf, Storable, OutcomesIn, InvalidSlotsOf, Records, MaximumGeneration, Cleared, CanReseal, Orderly, Open;
      hide AllBetween;
      ghost var t, all := Now(), ResealStages(Now(), payload, maximum);
      BothDecode(t, payload);
      var slot := FirstResealed(records, invalid);
      var ok;
      ok, staged := PublishFirst(payload, first, slot, invalid);
      if !ok { return ResealFailed, staged; }
      receipt := None;
      ghost var one, two := Resealed(t, payload, maximum), ResealedTwice(t, payload, maximum);
      SettledIsOpen(files.flash, one);
      ghost var halfway := files.past;
      ghost var again;
      ok, again := PublishRecord(second, Other(slot), one, one);
      JoinStages(halfway, files.past, staged, again, one, two, all);
      BetweenStays(halfway, files.past, |old(files.past)|, staged, {old(files.flash.durable.slots), t});
      if !ok { return ResealFailed, staged; }
      return ResealedAs(newest + 2), staged;
    }

    lemma BetweenStays(past: seq<Flash>, more: seq<Flash>, from: nat, to: nat, stages: set<Slots>)
      requires past <= more && to <= |past| && AllBetween(past, from, to, stages)
      ensures AllBetween(more, from, to, stages)
    {
      hide OutcomesIn;
    }

    /** The first of the two publications, after two undecodable slots have been removed. */
    method PublishFirst(payload: Json, first: SegmentedRecord, slot: Slot, invalid: seq<Slot>) returns (ok: bool, ghost staged: nat)
      requires files.Recorded() && Orderly(files.flash, maximum) && invalid == InvalidSlotsOf(Now(), maximum)
      requires slot == FirstOf(Now(), maximum) && first.Valid() && RecordFormat.Decode(first.Contents(), maximum).Some?
      requires first.Contents() == RecordOf(payload, MaximumGeneration(Records(Now(), maximum)) + 1)
      modifies files, files.troubles
      ensures Failures() >= old(Failures()) && (!ok ==> Failures() > old(Failures()))
      ensures files.Recorded() && Orderly(files.flash, maximum) && old(files.past) <= files.past
      ensures |old(files.past)| <= staged <= |files.past|
      ensures AllBetween(files.past, |old(files.past)|, staged, {old(files.flash.durable.slots), old(Now())})
      ensures AllIn(files.past, staged, ResealStages(old(Now()), payload, maximum))
      ensures ok ==> Settled(files.flash, Resealed(old(Now()), payload, maximum))
    {
      hide RecordFormat.Decode, RecordOf, OutcomesIn, InvalidSlotsOf, Records, MaximumGeneration, Cleared, Orderly, Open, AllBetween, FirstOf;
      ghost var t, all, from := Now(), ResealStages(Now(), payload, maximum), |files.past|;
      ghost var one := Resealed(t, payload, maximum);
      if |invalid| == 2 {
        ok := ClearInvalid(invalid);
        staged := from;
        MoreStages(files.past, from, |files.past|, {t, t.With(A, None), Cleared(t, maximum)}, all);
        NothingHappened(files.past, from, {old(files.flash.durable.slots), t}, all);
        if !ok { return; }
        SettledIsOpen(files.flash, Cleared(t, maximum));
        ghost var cleared := files.past;
        ghost var again;
        ok, again := PublishRecord(first, slot, Cleared(t, maximum), Cleared(t, maximum));
        JoinStages(cleared, files.past, from, again, Cleared(t, maximum), one, all);
        NothingHappened(files.past, from, {old(files.flash.durable.slots), t}, all);
      } else {
        OrderlyIsOpen();
        NothingToClear(t);
        ok, staged := PublishRecord(first, slot, files.flash.durable.slots, t);
        MoreStages(files.past, staged, |files.past|, {t, one}, all);
      }
    }

    lemma NothingToClear(s: Slots)
      requires |InvalidSlotsOf(s, maximum)| != 2
      ensures Cleared(s, maximum) == s
    {
    }
  }
}
