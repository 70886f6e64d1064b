/** The filesystem port of the store: files on flash with operations that are lost, all or in part, unless
    they were synced. Every operation may fail, with or without having taken effect. */
module FlashFiles {
  import opened Options
  import opened Bytes
  import opened RecordSlots

  datatype File = Temp | SlotFile(slot: Slot)

  datatype Disk = Disk(slots: Slots, temp: Option<seq<byte>>)

  datatype Change = Removed(file: File) | Truncated(file: File) | Extended(file: File, data: seq<byte>) | RenamedTemp(target: Slot)

  function ContentOf(d: Disk, file: File): Option<seq<byte>> {
    match file
    case Temp => d.temp
    case SlotFile(slot) => d.slots.At(slot)
  }

  function WithContent(d: Disk, file: File, content: Option<seq<byte>>): Disk {
    match file
    case Temp => d.(temp := content)
    case SlotFile(slot) => d.(slots := d.slots.With(slot, content))
  }

  /** The rename is atomic: the slot changes from its old content to the whole temporary file. */
  function Apply(d: Disk, c: Change): Disk {
    match c
    case Removed(file) => WithContent(d, file, None)
    case Truncated(file) => WithContent(d, file, Some([]))
    case Extended(file, data) => if ContentOf(d, file).None? then d else WithContent(d, file, Some(ContentOf(d, file).value + data))
    case RenamedTemp(target) => if d.temp.None? then d else Disk(d.slots.With(target, d.temp), None)
  }

  function ApplyAll(d: Disk, changes: seq<Change>): Disk
    decreases |changes|
  {
    if changes == [] then d else ApplyAll(Apply(d, changes[0]), changes[1..])
  }

  /** The flash and what is not yet safe on it. */
  datatype Flash = Flash(durable: Disk, pending: seq<Change>)

  function Visible(f: Flash): Disk {
    ApplyAll(f.durable, f.pending)
  }

  /** `d` may be what a power loss leaves: any of the pending changes may be missing, and a write may be cut short. */
  ghost predicate Survives(durable: Disk, pending: seq<Change>, d: Disk)
    decreases |pending|
  {
    if pending == [] then d == durable
    else
      || Survives(durable, pending[1..], d)
      || Survives(Apply(durable, pending[0]), pending[1..], d)
      || (pending[0].Extended? &&
          exists k :: 0 <= k <= |pending[0].data| && Survives(Apply(durable, Extended(pending[0].file, pending[0].data[..k])), pending[1..], d))
  }

  ghost predicate CrashOutcome(f: Flash, d: Disk) {
    Survives(f.durable, f.pending, d)
  }

  predicate TouchesTempOnly(c: Change) {
    !c.RenamedTemp? && c.file == Temp
  }

  predicate TempOnly(pending: seq<Change>) {
    forall i :: 0 <= i < |pending| ==> TouchesTempOnly(pending[i])
  }

  /** Nothing unsynced concerns a slot. */
  predicate Quiet(f: Flash) {
    TempOnly(f.pending)
  }

  lemma {:induction false} QuietKeepsSlots(durable: Disk, pending: seq<Change>, d: Disk)
    requires TempOnly(pending) && Survives(durable, pending, d)
    ensures d.slots == durable.slots
    decreases |pending|
  {
    if pending != [] {
      var rest := pending[1..];
      if Survives(durable, rest, d) {
        QuietKeepsSlots(durable, rest, d);
      } else if Survives(Apply(durable, pending[0]), rest, d) {
        QuietKeepsSlots(Apply(durable, pending[0]), rest, d);
      } else {
        var k :| 0 <= k <= |pending[0].data| && Survives(Apply(durable, Extended(pending[0].file, pending[0].data[..k])), rest, d);
        QuietKeepsSlots(Apply(durable, Extended(pending[0].file, pending[0].data[..k])), rest, d);
      }
    }
  }

  /** One slot has been removed, unsynced, and nothing else unsynced concerns a slot. */
  predicate OpenRemoval(pending: seq<Change>, slot: Slot)
    decreases |pending|
  {
    && pending != []
    && ((pending[0] == Removed(SlotFile(slot)) && TempOnly(pending[1..]))
        || (TouchesTempOnly(pending[0]) && OpenRemoval(pending[1..], slot)))
  }

  /** An unsynced removal of a slot has happened or has not; nothing else about the slots is open. */
  lemma {:induction false} RemovalKeepsRest(durable: Disk, pending: seq<Change>, slot: Slot, d: Disk)
    requires OpenRemoval(pending, slot) && Survives(durable, pending, d)
    ensures d.slots == durable.slots || d.slots == durable.slots.With(slot, None)
    decreases |pending|
  {
    var c, rest := pending[0], pending[1..];
    if c == Removed(SlotFile(slot)) {
      if Survives(durable, rest, d) { QuietKeepsSlots(durable, rest, d); } else { QuietKeepsSlots(Apply(durable, c), rest, d); }
    } else if Survives(durable, rest, d) {
      RemovalKeepsRest(durable, rest, slot, d);
    } else if Survives(Apply(durable, c), rest, d) {
      RemovalKeepsRest(Apply(durable, c), rest, slot, d);
    } else {
      var k :| 0 <= k <= |c.data| && Survives(Apply(durable, Extended(c.file, c.data[..k])), rest, d);
      RemovalKeepsRest(Apply(durable, Extended(c.file, c.data[..k])), rest, slot, d);
    }
  }

  lemma {:induction false} RemovalShows(durable: Disk, pending: seq<Change>, slot: Slot)
    requires OpenRemoval(pending, slot)
    ensures ApplyAll(durable, pending).slots == durable.slots.With(slot, None)
    decreases |pending|
  {
    if pending[0] == Removed(SlotFile(slot)) {
      QuietShowsSlots(Apply(durable, pending[0]), pending[1..]);
    } else {
      RemovalShows(Apply(durable, pending[0]), pending[1..], slot);
    }
  }

  lemma {:induction false} RemovalNext(pending: seq<Change>, slot: Slot, c: Change)
    requires TouchesTempOnly(c)
    ensures OpenRemoval(pending, slot) ==> OpenRemoval(pending + [c], slot)
    ensures TempOnly(pending) ==> OpenRemoval(pending + [Removed(SlotFile(slot))], slot)
    decreases |pending|
  {
    if pending != [] {
      RemovalNext(pending[1..], slot, c);
      assert (pending + [c])[1..] == pending[1..] + [c];
      assert (pending + [Removed(SlotFile(slot))])[1..] == pending[1..] + [Removed(SlotFile(slot))];
    }
  }

  /** One slot has been replaced by the whole temporary file, unsynced; only the temporary file changed since. */
  predicate OpenRename(f: Flash) {
    f.pending != [] && f.pending[0].RenamedTemp? && f.durable.temp.Some? && TempOnly(f.pending[1..])
  }

  /** At most one slot change is unsynced: the slots are `s` without it and `t` with it. */
  ghost predicate Open(f: Flash, s: Slots, t: Slots) {
    && f.durable.slots == s
    && ((Quiet(f) && t == s)
        || (OpenRename(f) && t == s.With(f.pending[0].target, f.durable.temp))
        || exists slot :: OpenRemoval(f.pending, slot) && t == s.With(slot, None))
  }

  /** Then a power loss leaves one or the other, and the files show the change. */
  lemma OpenOutcomes(f: Flash, s: Slots, t: Slots)
    requires Open(f, s, t)
    ensures Visible(f).slots == t
    ensures forall d :: CrashOutcome(f, d) ==> d.slots == s || d.slots == t
  {
    if Quiet(f) && t == s {
      QuietShowsSlots(f.durable, f.pending);
      forall d | CrashOutcome(f, d) ensures d.slots == s { QuietKeepsSlots(f.durable, f.pending, d); }
    } else if OpenRename(f) && t == s.With(f.pending[0].target, f.durable.temp) {
      RenameOutcomes(f);
    } else {
      var slot :| OpenRemoval(f.pending, slot) && t == s.With(slot, None);
      RemovalShows(f.durable, f.pending, slot);
      forall d | CrashOutcome(f, d) ensures d.slots == s || d.slots == t { RemovalKeepsRest(f.durable, f.pending, slot, d); }
    }
  }

  lemma RenameOutcomes(f: Flash)
    requires OpenRename(f)
    ensures
      var t := f.durable.slots.With(f.pending[0].target, f.durable.temp);
      Visible(f).slots == t && forall d :: CrashOutcome(f, d) ==> d.slots == f.durable.slots || d.slots == t
  {
    var after, rest := Apply(f.durable, f.pending[0]), f.pending[1..];
    QuietShowsSlots(after, rest);
    forall d | CrashOutcome(f, d) ensures d.slots == f.durable.slots || d.slots == after.slots {
      if Survives(f.durable, rest, d) { QuietKeepsSlots(f.durable, rest, d); } else { QuietKeepsSlots(after, rest, d); }
    }
  }

  /** A further change of the temporary file leaves open what was open. */
  lemma OpenNext(f: Flash, s: Slots, t: Slots, c: Change)
    requires Open(f, s, t) && TouchesTempOnly(c)
    ensures var next := Flash(f.durable, f.pending + [c]);
      Open(next, s, t) && Visible(next) == Apply(Visible(f), c) && (OpenRename(next) <==> OpenRename(f))
  {
    var next := Flash(f.durable, f.pending + [c]);
    ApplyAllNext(f.durable, f.pending, c);
    if f.pending != [] { assert next.pending[1..] == f.pending[1..] + [c]; }
    if !Quiet(f) && !OpenRename(f) {
      var slot :| OpenRemoval(f.pending, slot) && t == s.With(slot, None);
      RemovalNext(f.pending, slot, c);
    } else {
      RenameIsNoRemoval(f);
    }
  }

  lemma RenameIsNoRemoval(f: Flash)
    ensures OpenRename(f) || Quiet(f) ==> forall slot :: !OpenRemoval(f.pending, slot)
  {
    forall slot ensures OpenRename(f) || Quiet(f) ==> !OpenRemoval(f.pending, slot) {
      QuietIsNoRemoval(f.pending, slot);
    }
  }

  lemma {:induction false} QuietIsNoRemoval(pending: seq<Change>, slot: Slot)
    ensures TempOnly(pending) ==> !OpenRemoval(pending, slot)
    decreases |pending|
  {
    if pending != [] { QuietIsNoRemoval(pending[1..], slot); }
  }

  lemma {:induction false} QuietShowsSlots(durable: Disk, pending: seq<Change>)
    requires TempOnly(pending)
    ensures ApplyAll(durable, pending).slots == durable.slots
    decreases |pending|
  {
    if pending != [] { QuietShowsSlots(Apply(durable, pending[0]), pending[1..]); }
  }

  lemma {:induction false} ApplyAllNext(d: Disk, changes: seq<Change>, c: Change)
    ensures ApplyAll(d, changes + [c]) == Apply(ApplyAll(d, changes), c)
    decreases |changes|
  {
    if changes == [] {
      assert changes + [c] == [c] && [c][1..] == [];
    } else {
      assert (changes + [c])[1..] == changes[1..] + [c];
      ApplyAllNext(Apply(d, changes[0]), changes[1..], c);
    }
  }

  /** How many calls of a port have failed. */
  class Troubles {
    ghost var failures: nat

    constructor ()
    {
      failures := 0;
    }

    method Note()
      modifies this
      ensures failures == old(failures) + 1
    {
      failures := failures + 1;
    }
  }

  class FileSystem {
    const troubles: Troubles
    var flash: Flash
    /** Every state the flash has been in, the present one last. */
    ghost var past: seq<Flash>

    ghost predicate Recorded()
      reads this
    {
      past != [] && past[|past| - 1] == flash
    }

    constructor (disk: Disk)
      ensures flash == Flash(disk, []) && past == [flash] && Recorded() && fresh(troubles)
    {
      troubles := new Troubles();
      flash := Flash(disk, []);
      past := [Flash(disk, [])];
    }

    method Enter(next: Flash)
      modifies this
      ensures flash == next && past == old(past) + [next] && Recorded()
    {
      flash := next;
      past := past + [next];
    }

    /** Whether the file exists; None when the call fails. */
    method Exists(file: File) returns (present: Option<bool>)
      modifies troubles
      ensures present.Some? ==> present.value == ContentOf(Visible(flash), file).Some?
      ensures troubles.failures == old(troubles.failures) + (if present.None? then 1 else 0)
    {
      var fails: bool := *;
      if fails {
        troubles.Note();
        return None;
      }
      return Some(ContentOf(Visible(flash), file).Some?);
    }

    /** The whole content of an existing file; None when the call fails. */
    method Read(file: File) returns (content: Option<seq<byte>>)
      modifies troubles
      ensures content.Some? ==> content == ContentOf(Visible(flash), file)
      ensures troubles.failures >= old(troubles.failures)
      ensures content.None? && ContentOf(Visible(flash), file).Some? ==> troubles.failures > old(troubles.failures)
    {
      var fails: bool := *;
      if fails {
        troubles.Note();
        return None;
      }
      return ContentOf(Visible(flash), file);
    }

    method Change(c: Change) returns (ok: bool)
      requires Recorded()
      modifies this, troubles
      ensures Recorded() && troubles.failures == old(troubles.failures) + (if ok then 0 else 1)
      ensures (flash == old(flash) && past == old(past) && !ok)
              || (flash == Flash(old(flash).durable, old(flash).pending + [c]) && past == old(past) + [flash])
    {
      var lost: bool := *;
      ok := false;
      if !lost {
        Enter(Flash(flash.durable, flash.pending + [c]));
        ok := *;
      }
      if !ok { troubles.Note(); }
    }

    /** Writes a non-empty prefix of `data`, or fails after writing any part of it. */
    method Write(file: File, data: seq<byte>) returns (written: Option<nat>)
      requires Recorded() && data != []
      modifies this, troubles
      ensures Recorded() && troubles.failures == old(troubles.failures) + (if written.None? then 1 else 0)
      ensures written.Some? ==> 1 <= written.value <= |data|
      ensures written.Some? ==> flash == Flash(old(flash).durable, old(flash).pending + [Extended(file, data[..written.value])])
      ensures exists k: nat :: k <= |data| && flash == Flash(old(flash).durable, old(flash).pending + [Extended(file, data[..k])])
      ensures past == old(past) + [flash]
    {
      var k: int := *;
      var fails: bool := *;
      if k <= 0 || k > |data| {
        k := |data|;
      }
      if fails {
        k := *;
        if k < 0 || k > |data| { k := 0; }
      }
      Enter(Flash(flash.durable, flash.pending + [Extended(file, data[..k])]));
      if fails { troubles.Note(); }
      return if fails then None else Some(k);
    }

    /** Flushes and closes the file written to. */
    method Close() returns (ok: bool)
      modifies troubles
      ensures troubles.failures == old(troubles.failures) + (if ok then 0 else 1)
    {
      ok := *;
      if !ok { troubles.Note(); }
    }

    /** Makes everything durable; a failed sync may have done so too. */
    method Sync() returns (ok: bool)
      requires Recorded()
      modifies this, troubles
      ensures Recorded() && troubles.failures == old(troubles.failures) + (if ok then 0 else 1)
      ensures (flash == old(flash) && past == old(past) && !ok)
              || (flash == Flash(Visible(old(flash)), []) && past == old(past) + [flash])
    {
      var lost: bool := *;
      ok := false;
      if !lost {
        Enter(Flash(Visible(flash), []));
        ok := *;
      }
      if !ok { troubles.Note(); }
    }
  }
}
