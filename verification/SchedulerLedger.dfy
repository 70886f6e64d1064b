/** What every scheduler operation keeps (app/scheduler.py): the ledger stays within the configured timers and
    below the high-water mark, so it can be exported at any moment and restored exactly. */
module SchedulerLedger {
  import opened Options
  import opened SchedulerModel

  datatype Op =
    | Replace(definitions: seq<Timer>)
    | ArmOp
    | DisarmOp
    | ResetOp
    | StepOp(now: int, reading: Option<Clock>, available: bool)
    | AuthorizeOp(intent: Intent, at: int, available: bool, reading: Option<Clock>)
    | CompleteOp(authorized: Authorized, applied: bool, result: Option<Requested>, at: int)
    | OverrideOp(key: Key, at: int)
    | ReleaseOp(key: Key, at: int)

  function Apply(c: Config, s: State, op: Op): State {
    match op
    case Replace(definitions) => ReplaceTimers(c, s, definitions).0
    case ArmOp => Arm(s).0
    case DisarmOp => Disarm(s).0
    case ResetOp => ResetFault(s).0
    case StepOp(now, reading, available) => Step(c, s, now, reading, available).0
    case AuthorizeOp(i, now, available, reading) => Authorize(s, i, now, available, reading).0
    case CompleteOp(a, applied, result, now) => Complete(s, a, applied, result, now).0
    case OverrideOp(key, now) => MarkOverride(s, key, now).0
    case ReleaseOp(key, now) => MarkComplete(s, key, now).0
  }

  /** Clock readings come from the supported civil range. */
  predicate InCalendar(op: Op) {
    op.StepOp? && op.reading.Some? ==> InRange(op.reading.value.minute)
  }

  function Execute(c: Config, s: State, ops: seq<Op>): State
    decreases |ops|
  {
    if ops == [] then s else Execute(c, Apply(c, s, ops[0]), ops[1..])
  }

  /** A record agrees with itself and names a minute at or below the mark. */
  predicate SoundRecord(r: Record, highWater: Option<int>) {
    (r.status.Overridden? <==> r.overridden) && InRange(r.key.minute) && highWater.Some? && r.key.minute <= highWater.value
  }

  predicate SoundCells(cells: map<string, Cell>, handedOff: map<nat, Record>, highWater: Option<int>) {
    forall id :: id in cells ==>
      match cells[id]
      case Own(r) => r.key.timer == id && SoundRecord(r, highWater)
      case HandedOff(token) => token in handedOff && handedOff[token].key.timer == id
  }

  predicate SoundHandoffs(handedOff: map<nat, Record>, authSequence: nat, highWater: Option<int>) {
    forall token :: token in handedOff ==> token <= authSequence && SoundRecord(handedOff[token], highWater) && !handedOff[token].overridden
  }

  predicate SoundTimers(c: Config, timers: seq<Timer>) {
    |timers| <= c.maxTimers && forall i, j :: 0 <= i < j < |timers| ==> timers[i].id != timers[j].id
  }

  /** The invariant of every reachable scheduler. */
  predicate Sound(c: Config, s: State) {
    && SoundTimers(c, s.timers) && s.cells.Keys <= IdsOf(s.timers)
    && SoundCells(s.cells, s.handedOff, s.highWater) && SoundHandoffs(s.handedOff, s.authSequence, s.highWater)
    && (s.highWater.Some? ==> InRange(s.highWater.value))
  }

  lemma FreshIsSound(c: Config, owner: int)
    ensures Sound(c, Fresh(owner))
  {
  }

  lemma MarksOnlyRise(highWater: Option<int>, minute: int)
    ensures RaisedTo(highWater, minute).Some? && RaisedTo(highWater, minute).value >= minute
    ensures highWater.Some? ==> RaisedTo(highWater, minute).value >= highWater.value
  {
  }

  lemma {:induction false} DueAreTimers(s: State, timers: seq<Timer>, minute: int)
    ensures forall t :: t in DueTimers(s, timers, minute) ==> t in timers && Due(s, t, minute)
    decreases |timers|
  {
    if timers != [] { DueAreTimers(s, timers[1..], minute); }
  }

  lemma ConsumeIsSound(c: Config, s: State, due: seq<Timer>, minute: int, status: Status, now: int)
    requires Sound(c, s) && InRange(minute) && !status.Overridden? && forall t :: t in due ==> t in s.timers
    ensures Sound(c, Consume(s, due, minute, status, now))
  {
    MarksOnlyRise(s.highWater, minute);
    forall id | id in IdsOf(due) ensures id in IdsOf(s.timers) {
      var i :| 0 <= i < |due| && due[i].id == id;
      assert due[i] in s.timers;
      var j :| 0 <= j < |s.timers| && s.timers[j] == due[i];
    }
  }

  lemma CreateIsSound(c: Config, s: State, t: Timer, clock: Clock, now: int)
    requires Sound(c, s) && InRange(clock.minute) && t in s.timers
    ensures Sound(c, CreateIntent(c, s, t, clock, now).0)
  {
    MarksOnlyRise(s.highWater, clock.minute);
    var j :| 0 <= j < |s.timers| && s.timers[j] == t;
  }

  lemma FireIsSound(c: Config, s: State, clock: Clock, now: int, available: bool)
    requires Sound(c, s) && InRange(clock.minute)
    ensures Sound(c, Fire(c, s, clock, now, available).0)
  {
    hide Sound;
    var due := DueTimers(s, s.timers, clock.minute);
    DueAreTimers(s, s.timers, clock.minute);
    if due != [] {
      ConsumeIsSound(c, s, due, clock.minute, ConflictStatus, now);
      ConsumeIsSound(c, s, due, clock.minute, SuppressedBusy, now);
      CreateIsSound(c, s, due[0], clock, now);
    }
  }

  lemma ObserveIsSound(c: Config, s: State, clock: Clock, now: int, available: bool)
    requires Sound(c, s) && InRange(clock.minute) && s.baseline.Some?
    ensures Sound(c, Observe(c, s, clock, now, available).0)
  {
    hide Fire;
    var based := s.(baseline := Some(clock));
    assert Sound(c, based) && Sound(c, Bump(based));
    FireIsSound(c, based, clock, now, available);
  }

  lemma StepIsSound(c: Config, s: State, now: int, reading: Option<Clock>, available: bool)
    requires Sound(c, s) && (reading.Some? ==> InRange(reading.value.minute))
    ensures Sound(c, Step(c, s, now, reading, available).0)
  {
    hide Observe;
    var stepped := s.(lastStep := Some(now));
    assert Sound(c, stepped) && Sound(c, LatchFault(s));
    assert Sound(c, stepped.(baseline := reading)) && Sound(c, stepped.(baseline := reading, fencePending := false));
    assert Sound(c, stepped.(baseline := None)) && Sound(c, Bump(stepped.(baseline := None)));
    if reading.Some? && stepped.baseline.Some? { ObserveIsSound(c, stepped, reading.value, now, available); }
  }

  lemma ReplaceIsSound(c: Config, s: State, definitions: seq<Timer>)
    requires Sound(c, s)
    ensures Sound(c, ReplaceTimers(c, s, definitions).0)
  {
    if ValidTimers(c, definitions) {
      var timers := ReplaceTimers(c, s, definitions).0.timers;
      forall id | id in IdsOf(definitions) ensures id in IdsOf(timers) {
        var i :| 0 <= i < |definitions| && definitions[i].id == id;
        assert timers[i].id == id;
      }
    }
  }

  lemma FoundIsSound(c: Config, s: State, key: Key)
    requires Sound(c, s) && Find(s, key).Some?
    ensures var r := Find(s, key).value; r.key == key && SoundRecord(r, s.highWater) && key.timer in s.cells
  {
  }

  lemma FinishIsSound(c: Config, s: State, r: Record, status: Status, now: int)
    requires Sound(c, s) && r.pending.Some? && r.key.timer in s.cells && SoundRecord(r, s.highWater) && !r.overridden && !status.Overridden?
    ensures Sound(c, Finish(s, r, status, now))
  {
  }

  lemma AuthorizeIsSound(c: Config, s: State, i: Intent, now: int, available: bool, reading: Option<Clock>)
    requires Sound(c, s)
    ensures Sound(c, Authorize(s, i, now, available, reading).0)
  {
    var found := Find(s, i.key);
    if found.Some? && found.value.status.IntentCreated? && found.value.pending.Some? {
      var r := found.value;
      hide Finish, Hand, HandoffOpen, TimerUnchanged, ClockAgrees, Find;
      FoundIsSound(c, s, i.key);
      FinishIsSound(c, s, r, Expired, now);
      FinishIsSound(c, s, r, AuthorizationRejected, now);
      FinishIsSound(c, Bump(s).(baseline := None), r, AuthorizationRejected, now);
      HandIsSound(c, s, i, r, now);
    }
  }

  lemma HandIsSound(c: Config, s: State, i: Intent, r: Record, now: int)
    requires Sound(c, s) && r.pending.Some? && r.key.timer in s.cells && SoundRecord(r, s.highWater) && !r.overridden
    ensures Sound(c, Hand(s, i, r, now).0)
  {
  }

  lemma SettleIsSound(c: Config, s: State, token: nat, status: Status, now: int)
    requires Sound(c, s) && token in s.handedOff && s.handedOff[token].pending.Some? && !status.Overridden?
    ensures Sound(c, Settle(s, token, status, now)) && Sound(c, LatchFault(Settle(s, token, status, now)))
  {
  }

  lemma CompleteIsSound(c: Config, s: State, a: Authorized, applied: bool, result: Option<Requested>, now: int)
    requires Sound(c, s)
    ensures Sound(c, Complete(s, a, applied, result, now).0)
  {
    if Completable(s, a, now) {
      hide RequestMatches, SoundCells, SoundHandoffs, IntentMatches, Settle;
      SettleIsSound(c, s, a.token, ApplicationFailed, now);
      SettleIsSound(c, s, a.token, Accepted, now);
    }
  }

  lemma ReleaseIsSound(c: Config, s: State, key: Key, now: int)
    requires Sound(c, s)
    ensures Sound(c, MarkOverride(s, key, now).0) && Sound(c, MarkComplete(s, key, now).0)
  {
    OverrideIsSound(c, s, key, now);
    CompletionIsSound(c, s, key, now);
    hide Sound, MarkOverride, MarkComplete;
  }

  lemma OverrideIsSound(c: Config, s: State, key: Key, now: int)
    requires Sound(c, s)
    ensures Sound(c, MarkOverride(s, key, now).0)
  {
  }

  lemma CompletionIsSound(c: Config, s: State, key: Key, now: int)
    requires Sound(c, s)
    ensures Sound(c, MarkComplete(s, key, now).0)
  {
  }

  lemma ApplyIsSound(c: Config, s: State, op: Op)
    requires Sound(c, s) && InCalendar(op)
    ensures Sound(c, Apply(c, s, op))
  {
    match op
    case Replace(definitions) => ReplaceIsSound(c, s, definitions);
    case StepOp(now, reading, available) => StepIsSound(c, s, now, reading, available);
    case AuthorizeOp(i, now, available, reading) => AuthorizeIsSound(c, s, i, now, available, reading);
    case CompleteOp(a, applied, result, now) => CompleteIsSound(c, s, a, applied, result, now);
    case OverrideOp(key, now) => ReleaseIsSound(c, s, key, now);
    case ReleaseOp(key, now) => ReleaseIsSound(c, s, key, now);
    case _ =>
  }

  lemma {:induction false} EveryRunIsSound(c: Config, s: State, ops: seq<Op>)
    requires Sound(c, s) && forall op :: op in ops ==> InCalendar(op)
    ensures Sound(c, Execute(c, s, ops))
    decreases |ops|
  {
    if ops != [] {
      ApplyIsSound(c, s, ops[0]);
      EveryRunIsSound(c, Apply(c, s, ops[0]), ops[1..]);
    }
  }

  // ---------------------------------------------------------------- export and restore

  lemma {:induction false} IdsAreBounded(timers: seq<Timer>)
    ensures |IdsOf(timers)| <= |timers|
    decreases |timers|
  {
    if timers == [] {
      assert IdsOf(timers) == {};
    } else {
      var rest := timers[1..];
      IdsAreBounded(rest);
      assert IdsOf(timers) == {timers[0].id} + IdsOf(rest) by {
        forall id | id in IdsOf(timers) ensures id in {timers[0].id} + IdsOf(rest) {
          var i :| 0 <= i < |timers| && timers[i].id == id;
          if i > 0 { assert rest[i - 1].id == id; }
        }
        forall id | id in IdsOf(rest) ensures id in IdsOf(timers) {
          var i :| 0 <= i < |rest| && rest[i].id == id;
          assert timers[i + 1].id == id;
        }
      }
    }
  }

  lemma SubsetIsSmaller(a: set<string>, b: set<string>)
    requires a <= b
    ensures |a| <= |b|
  {
    assert b == a + (b - a);
    assert |b| == |a| + |b - a|;
  }

  /** The export of a reachable scheduler never fails, and what it exports is a valid history. */
  lemma ExportNeverFails(c: Config, s: State)
    requires Sound(c, s)
    ensures Export(c, s).Some? && ValidHistory(c, Export(c, s).value)
    ensures Export(c, s).value.highWater == s.highWater && Export(c, s).value.latches.Keys <= IdsOf(s.timers)
  {
    IdsAreBounded(s.timers);
    SubsetIsSmaller(s.cells.Keys, IdsOf(s.timers));
    assert |s.cells| == |s.cells.Keys|;
    var latches := map id | id in s.cells :: Latch(RecordAt(s, id).key, RecordAt(s, id).overridden);
    assert latches.Keys == s.cells.Keys;
    assert |latches| == |latches.Keys|;
  }

  /** A fresh scheduler with the timers configured accepts a valid history, and exports it unchanged. */
  lemma RestoreThenExportIsIdentity(c: Config, s: State, h: History)
    requires Sound(c, s) && NeverUsed(s) && ValidHistory(c, h) && h.latches.Keys <= IdsOf(s.timers)
    ensures var (restored, outcome) := Restore(c, s, h);
            outcome == Done(true) && Sound(c, restored) && Export(c, restored) == Some(h)
  {
    var restored := Restore(c, s, h).0;
    assert Sound(c, restored);
    ExportNeverFails(c, restored);
    assert Export(c, restored).value.latches == h.latches;
  }
}
