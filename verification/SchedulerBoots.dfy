/** The scheduler across boots: durable checkpoints before every authorization (app/scheduler_controller_gateway.py),
    restoring at every boot (app/configuration_bootstrap.py), and power lost at any point in between. */
module SchedulerBoots {
  import opened Options
  import opened SchedulerModel
  import opened SchedulerLedger

  /** One authorized occurrence: in which boot, by which intent of that boot. */
  datatype Grant = Grant(owner: int, token: nat, key: Key)

  datatype System = System(
    sched: Option<State>, gate: bool, ledger: History, boots: nat, base: Option<int>,
    issued: seq<Grant>, grants: seq<Grant>)

  /** How a checkpoint ended; a failed one may have reached the durable cell all the same. */
  datatype Saved = Confirmed | FailedStored | FailedLost

  datatype Input =
    | Direct(op: Op)
    | Checkpoint(saved: Saved)
    | ApplyIntent(intent: Intent, now: int, available: bool, reading: Option<Clock>, saved: Saved)
    | PowerLoss
    | Boot(timers: seq<Timer>, gate: bool)

  const POWERED_OFF := System(None, false, EMPTY_HISTORY, 0, None, [], [])

  predicate Covers(high: Option<int>, low: Option<int>) {
    low.Some? ==> high.Some? && high.value >= low.value
  }

  /** The durable cell refuses a history whose high-water mark went down. */
  predicate CellAccepts(ledger: History, h: History) {
    Covers(h.highWater, ledger.highWater)
  }

  predicate Stores(c: Config, sys: System, saved: Saved) {
    sys.sched.Some? && !saved.FailedLost? && Export(c, sys.sched.value).Some? && CellAccepts(sys.ledger, Export(c, sys.sched.value).value)
  }

  function Save(c: Config, sys: System, saved: Saved): System {
    if Stores(c, sys, saved) then sys.(ledger := Export(c, sys.sched.value).value) else sys
  }

  function IssuedBy(c: Config, s: State, op: Op): seq<Grant> {
    if op.StepOp? then
      match Step(c, s, op.now, op.reading, op.available).1
      case Done(Some(i)) => [Grant(s.owner, i.token, i.key)]
      case _ => []
    else []
  }

  function Operate(c: Config, sys: System, op: Op): System
    requires sys.sched.Some?
  {
    sys.(sched := Some(Apply(c, sys.sched.value, op)), issued := sys.issued + IssuedBy(c, sys.sched.value, op))
  }

  /** The hand-off of one intent: only behind a confirmed checkpoint, and only with the persistent gate open. */
  function HandOff(c: Config, sys: System, i: Intent, now: int, available: bool, reading: Option<Clock>): System
    requires sys.sched.Some?
  {
    var (s, token) := Authorize(sys.sched.value, i, now, available && sys.gate, reading);
    sys.(sched := Some(s), grants := sys.grants + (if token.Some? then [Grant(sys.sched.value.owner, i.token, i.key)] else []))
  }

  function Restrict(h: History, ids: set<string>): History {
    History(h.highWater, map id | id in h.latches && id in ids :: h.latches[id])
  }

  /** A cold scheduler with its timers, and with the durable ledger when the gate is open; None when that fails. */
  function ColdBoot(c: Config, owner: int, timers: seq<Timer>, gate: bool, ledger: History): Option<State> {
    var (configured, replaced) := ReplaceTimers(c, Fresh(owner), timers);
    if replaced.Raised? then None
    else if !gate then Some(configured)
    else
      var (restored, outcome) := Restore(c, configured, Restrict(ledger, IdsOf(timers)));
      if outcome.Raised? then None else Some(restored)
  }

  function Transition(c: Config, sys: System, i: Input): System {
    match i
    case Direct(op) => if sys.sched.None? || op.AuthorizeOp? then sys else Operate(c, sys, op)
    case Checkpoint(saved) => Save(c, sys, saved)
    case ApplyIntent(intent, now, available, reading, saved) =>
      var stored := Save(c, sys, saved);
      if !saved.Confirmed? || !Stores(c, sys, saved) then stored else HandOff(c, stored, intent, now, available, reading)
    case PowerLoss => sys.(sched := None, issued := [])
    case Boot(timers, gate) =>
      if sys.sched.Some? then sys
      else sys.(sched := ColdBoot(c, sys.boots + 1, timers, gate, sys.ledger), gate := gate, boots := sys.boots + 1,
                base := sys.ledger.highWater, issued := [])
  }

  function Run(c: Config, sys: System, inputs: seq<Input>): System
    decreases |inputs|
  {
    if inputs == [] then sys else Run(c, Transition(c, sys, inputs[0]), inputs[1..])
  }

  predicate Acceptable(i: Input) {
    i.Direct? ==> InCalendar(i.op)
  }

  // ---------------------------------------------------------------- the invariant

  predicate GrantsCovered(grants: seq<Grant>, highWater: Option<int>, boots: int) {
    forall k :: 0 <= k < |grants| ==> grants[k].owner <= boots && highWater.Some? && grants[k].key.minute <= highWater.value
  }

  predicate KeysDistinct(grants: seq<Grant>) {
    forall j, k :: 0 <= j < k < |grants| ==> grants[j].key != grants[k].key
  }

  /** Later grants lie at later minutes exactly when their intents were created later. */
  predicate InCreationOrder(grants: seq<Grant>) {
    forall j, k :: 0 <= j < k < |grants| ==>
      if grants[j].owner == grants[k].owner then grants[j].token < grants[k].token <==> grants[j].key.minute < grants[k].key.minute
      else grants[j].owner < grants[k].owner && grants[j].key.minute < grants[k].key.minute
  }

  predicate IssuedOrdered(issued: seq<Grant>, s: State, base: Option<int>) {
    && (forall j, k :: 0 <= j < k < |issued| ==> issued[j].token < issued[k].token && issued[j].key.minute < issued[k].key.minute)
    && (forall k :: 0 <= k < |issued| ==>
          && issued[k].owner == s.owner && issued[k].token <= s.intentSequence
          && s.highWater.Some? && issued[k].key.minute <= s.highWater.value && (base.Some? ==> issued[k].key.minute > base.value))
  }

  predicate OpenIntents(s: State, issued: seq<Grant>, grants: seq<Grant>) {
    forall id :: id in s.cells && s.cells[id].Own? && s.cells[id].record.status.IntentCreated? ==>
      var r := s.cells[id].record;
      r.pending.Some? && Grant(s.owner, r.pending.value.intentToken, r.key) in issued && Grant(s.owner, r.pending.value.intentToken, r.key) !in grants
  }

  predicate NothingCreatedInHandoffs(s: State) {
    forall token :: token in s.handedOff ==> !s.handedOff[token].status.IntentCreated?
  }

  /** What holds of a running scheduler whose boot restored the ledger. */
  predicate Guarded(s: State, sys: System) {
    && Covers(s.highWater, sys.ledger.highWater) && Covers(s.highWater, sys.base) && IssuedOrdered(sys.issued, s, sys.base)
    && (forall k :: 0 <= k < |sys.grants| ==>
          if sys.grants[k].owner == s.owner then sys.grants[k] in sys.issued
          else sys.grants[k].owner < s.owner && sys.base.Some? && sys.grants[k].key.minute <= sys.base.value)
    && OpenIntents(s, sys.issued, sys.grants) && NothingCreatedInHandoffs(s)
  }

  predicate Safe(c: Config, sys: System) {
    && ValidHistory(c, sys.ledger) && GrantsCovered(sys.grants, sys.ledger.highWater, sys.boots)
    && KeysDistinct(sys.grants) && InCreationOrder(sys.grants)
    && (sys.sched.Some? ==> Sound(c, sys.sched.value) && sys.sched.value.owner == sys.boots
                            && (sys.gate ==> Guarded(sys.sched.value, sys)))
  }

  // ---------------------------------------------------------------- checkpoints

  lemma SaveIsSafe(c: Config, sys: System, saved: Saved)
    requires Safe(c, sys)
    ensures Safe(c, Save(c, sys, saved))
    ensures saved.Confirmed? && Stores(c, sys, saved) ==> Save(c, sys, saved).ledger.highWater == sys.sched.value.highWater
  {
    if sys.sched.Some? { ExportNeverFails(c, sys.sched.value); }
  }

  // ---------------------------------------------------------------- operations

  /** No operation but a step that returns an intent opens one; the mark never falls. */
  predicate KeepsOpenIntents(s: State, t: State) {
    && t.owner == s.owner && t.intentSequence == s.intentSequence && Covers(t.highWater, s.highWater)
    && (NothingCreatedInHandoffs(s) ==> NothingCreatedInHandoffs(t))
    && forall id :: id in t.cells && t.cells[id].Own? && t.cells[id].record.status.IntentCreated? ==>
         id in s.cells && s.cells[id] == t.cells[id]
  }

  lemma KeptIntentsStayGuarded(s: State, t: State, sys: System)
    requires Guarded(s, sys) && KeepsOpenIntents(s, t)
    ensures Guarded(t, sys.(sched := Some(t)))
  {
  }

  lemma ConsumeKeepsIntents(s: State, due: seq<Timer>, minute: int, status: Status, now: int)
    requires !status.IntentCreated?
    ensures KeepsOpenIntents(s, Consume(s, due, minute, status, now))
  {
  }

  /** An intent that a step returns was entered into the ledger as the new high-water mark. */
  lemma FireEffect(c: Config, s: State, clock: Clock, now: int, available: bool)
    ensures var (t, i) := Fire(c, s, clock, now, available);
            && (i.None? ==> KeepsOpenIntents(s, t))
            && (i.Some? ==> Created(s, t, i.value))
  {
    var due := DueTimers(s, s.timers, clock.minute);
    DueAreTimers(s, s.timers, clock.minute);
    if due != [] {
      ConsumeKeepsIntents(s, due, clock.minute, ConflictStatus, now);
      ConsumeKeepsIntents(s, due, clock.minute, SuppressedBusy, now);
      assert due[0] in due;
    }
  }

  predicate Created(s: State, t: State, i: Intent) {
    && t.owner == s.owner == i.owner && t.intentSequence == s.intentSequence + 1 == i.token
    && AboveHighWater(s, i.key.minute) && t.highWater == Some(i.key.minute) && t.handedOff == s.handedOff
    && i.key.timer in t.cells && t.cells[i.key.timer].Own?
    && t.cells[i.key.timer].record.pending.Some?
    && t.cells[i.key.timer].record.key == i.key && t.cells[i.key.timer].record.pending.value.intentToken == i.token
    && forall id :: id in t.cells && id != i.key.timer ==> id in s.cells && s.cells[id] == t.cells[id]
  }

  lemma StepEffect(c: Config, s: State, now: int, reading: Option<Clock>, available: bool)
    ensures var (t, o) := Step(c, s, now, reading, available);
            if o.Done? && o.value.Some? then Created(s, t, o.value.value) else KeepsOpenIntents(s, t)
  {
    hide Fire, KeepsOpenIntents, Created, Undisturbed;
    var stepped := s.(lastStep := Some(now));
    SettleEffect(s, s);
    SettleEffect(s, stepped.(baseline := None));
    SettleEffect(s, Bump(stepped.(baseline := None)));
    SettleEffect(s, stepped.(baseline := reading));
    SettleEffect(s, stepped.(baseline := reading, fencePending := false));
    SettleEffect(s, Bump(stepped.(baseline := reading)));
    if reading.Some? && s.baseline.Some? {
      var based := stepped.(baseline := reading);
      FireEffect(c, based, reading.value, now, available);
      FireFromBase(s, based, Fire(c, based, reading.value, now, available).0, Fire(c, based, reading.value, now, available).1);
    }
  }

  lemma FireFromBase(s: State, based: State, t: State, i: Option<Intent>)
    requires based == s.(lastStep := based.lastStep, baseline := based.baseline)
    requires if i.Some? then Created(based, t, i.value) else KeepsOpenIntents(based, t)
    ensures if i.Some? then Created(s, t, i.value) else KeepsOpenIntents(s, t)
  {
  }

  lemma ReplaceEffect(c: Config, s: State, definitions: seq<Timer>)
    ensures KeepsOpenIntents(s, ReplaceTimers(c, s, definitions).0)
  {
  }

  lemma CompleteEffect(c: Config, s: State, a: Authorized, applied: bool, result: Option<Requested>, now: int)
    ensures KeepsOpenIntents(s, Complete(s, a, applied, result, now).0)
  {
    hide Completable, RequestMatches, KeepsOpenIntents, Settle;
    SettleEffect(s, s);
    if Completable(s, a, now) {
      CompletableIsHandedOff(s, a, now);
      SettleEffect(s, Settle(s, a.token, ApplicationFailed, now));
      SettleEffect(s, Settle(s, a.token, Accepted, now));
      SettleKeepsRest(s, a.token, ApplicationFailed, now);
      SettleKeepsRest(s, a.token, Accepted, now);
      SettleEffect(s, Settle(s, a.token, Accepted, now).(activeKey := Some(s.handedOff[a.token].key), active := Some(a.token)));
    }
  }

  /** Only the hand-off table differs, and no hand-off becomes an open intent. */
  predicate OnlyHandoffsDiffer(s: State, t: State) {
    && t.owner == s.owner && t.intentSequence == s.intentSequence && t.highWater == s.highWater && t.cells == s.cells
    && (NothingCreatedInHandoffs(s) ==> NothingCreatedInHandoffs(t))
  }

  lemma SettleKeepsRest(s: State, token: nat, status: Status, now: int)
    requires token in s.handedOff && s.handedOff[token].pending.Some? && !status.IntentCreated?
    ensures OnlyHandoffsDiffer(s, Settle(s, token, status, now))
  {
  }

  lemma SettleEffect(s: State, t: State)
    ensures OnlyHandoffsDiffer(s, t) ==> KeepsOpenIntents(s, t) && KeepsOpenIntents(s, LatchFault(t))
  {
  }

  lemma CompletableIsHandedOff(s: State, a: Authorized, now: int)
    requires Completable(s, a, now)
    ensures a.token in s.handedOff && s.handedOff[a.token].pending.Some?
  {
  }

  lemma ReleaseEffect(s: State, key: Key, now: int)
    ensures KeepsOpenIntents(s, MarkOverride(s, key, now).0) && KeepsOpenIntents(s, MarkComplete(s, key, now).0)
  {
    hide Find;
  }

  lemma OtherEffect(c: Config, s: State, op: Op)
    requires !op.StepOp? && !op.AuthorizeOp?
    ensures KeepsOpenIntents(s, Apply(c, s, op))
  {
    match op
    case Replace(definitions) => ReplaceEffect(c, s, definitions);
    case ArmOp => assert KeepsOpenIntents(s, Arm(s).0);
    case DisarmOp => assert KeepsOpenIntents(s, Disarm(s).0);
    case ResetOp => assert KeepsOpenIntents(s, ResetFault(s).0);
    case CompleteOp(a, applied, result, now) =>
      hide KeepsOpenIntents, Complete;
      CompleteEffect(c, s, a, applied, result, now);
    case OverrideOp(key, now) =>
      hide KeepsOpenIntents, MarkOverride;
      ReleaseEffect(s, key, now);
    case ReleaseOp(key, now) =>
      hide KeepsOpenIntents, MarkComplete;
      ReleaseEffect(s, key, now);
  }

  lemma OperateIsSafe(c: Config, sys: System, op: Op)
    requires Safe(c, sys) && sys.sched.Some? && !op.AuthorizeOp? && InCalendar(op)
    ensures Safe(c, Operate(c, sys, op))
  {
    hide Apply, Step, Guarded, Sound, GrantsCovered, InCreationOrder, KeysDistinct;
    var s := sys.sched.value;
    ApplyIsSound(c, s, op);
    var t := Apply(c, s, op);
    if op.StepOp? {
      StepEffect(c, s, op.now, op.reading, op.available);
      ApplyOfStep(c, s, op);
    } else {
      OtherEffect(c, s, op);
    }
    if sys.gate {
      if op.StepOp? {
        var o := Step(c, s, op.now, op.reading, op.available).1;
        if o.Done? && o.value.Some? {
          GrantsBelowLedger(c, sys);
          IssueStaysGuarded(s, t, o.value.value, sys);
        } else {
          assert sys.issued + [] == sys.issued;
          KeptIntentsStayGuarded(s, t, sys);
        }
      } else {
        assert sys.issued + [] == sys.issued;
        KeptIntentsStayGuarded(s, t, sys);
      }
    }
  }

  lemma GrantsBelowLedger(c: Config, sys: System)
    requires Safe(c, sys)
    ensures GrantsCovered(sys.grants, sys.ledger.highWater, sys.boots)
  {
  }

  lemma ApplyOfStep(c: Config, s: State, op: Op)
    requires op.StepOp?
    ensures Apply(c, s, op) == Step(c, s, op.now, op.reading, op.available).0
  {
  }

  lemma IssueStaysGuarded(s: State, t: State, i: Intent, sys: System)
    requires Guarded(s, sys) && Created(s, t, i)
    requires GrantsCovered(sys.grants, sys.ledger.highWater, sys.boots)
    ensures Guarded(t, sys.(sched := Some(t), issued := sys.issued + [Grant(s.owner, i.token, i.key)]))
  {
  }

  // ---------------------------------------------------------------- hand-offs

  /** What authorizing leaves of the open intents; `spent` says that this intent's slot is among the changed ones. */
  predicate IntentsAfter(s: State, t: State, timer: string, spent: bool) {
    && t.owner == s.owner && t.intentSequence == s.intentSequence && t.highWater == s.highWater
    && (NothingCreatedInHandoffs(s) ==> NothingCreatedInHandoffs(t))
    && forall id :: id in t.cells && t.cells[id].Own? && t.cells[id].record.status.IntentCreated? ==>
         id in s.cells && s.cells[id] == t.cells[id] && (spent ==> id != timer)
  }

  lemma FinishEffect(s: State, r: Record, status: Status, now: int, timer: string)
    requires r.pending.Some? && !status.IntentCreated?
    ensures IntentsAfter(s, Finish(s, r, status, now), timer, false)
    ensures IntentsAfter(s, Finish(Bump(s).(baseline := None), r, status, now), timer, false)
  {
  }

  lemma HandEffect(s: State, i: Intent, r: Record, now: int)
    requires r.pending.Some?
    ensures IntentsAfter(s, Hand(s, i, r, now).0, r.key.timer, true) && Hand(s, i, r, now).1.Some?
  {
  }

  lemma FoundIntentIsOpen(s: State, i: Intent, available: bool)
    requires NothingCreatedInHandoffs(s) && Find(s, i.key).Some? && Find(s, i.key).value.status.IntentCreated?
    ensures HandoffOpen(s, i, Find(s, i.key).value, available) ==> available && OpenFor(s, i)
  {
  }

  /** A token is granted only for an intent that is still open in the ledger. */
  lemma AuthorizeEffect(s: State, i: Intent, now: int, available: bool, reading: Option<Clock>)
    requires NothingCreatedInHandoffs(s)
    ensures var (t, token) := Authorize(s, i, now, available, reading);
            IntentsAfter(s, t, i.key.timer, token.Some?) && (token.Some? ==> available && OpenFor(s, i))
  {
    hide ClockAgrees, TimerUnchanged, IntentsAfter, Finish, Hand, HandoffOpen, OpenFor, NothingCreatedInHandoffs;
    NothingChangesIntents(s, i.key.timer);
    var found := Find(s, i.key);
    if found.Some? && found.value.status.IntentCreated? && found.value.pending.Some? {
      var r := found.value;
      FoundIntentIsOpen(s, i, available);
      FinishEffect(s, r, Expired, now, i.key.timer);
      FinishEffect(s, r, AuthorizationRejected, now, i.key.timer);
      HandEffect(s, i, r, now);
    }
  }

  lemma NothingChangesIntents(s: State, timer: string)
    ensures IntentsAfter(s, s, timer, false)
  {
  }

  predicate OpenFor(s: State, i: Intent) {
    && i.key.timer in s.cells && s.cells[i.key.timer].Own?
    && var r := s.cells[i.key.timer].record;
       r.status.IntentCreated? && r.key == i.key && r.pending.Some? && r.pending.value.intentToken == i.token
  }

  lemma GrantIsNew(s: State, sys: System, i: Intent)
    requires Guarded(s, sys) && OpenFor(s, i) && KeysDistinct(sys.grants) && InCreationOrder(sys.grants)
    ensures var g := Grant(s.owner, i.token, i.key);
            KeysDistinct(sys.grants + [g]) && InCreationOrder(sys.grants + [g]) && g in sys.issued
  {
    var g := Grant(s.owner, i.token, i.key);
    var n :| 0 <= n < |sys.issued| && sys.issued[n] == g;
    forall k | 0 <= k < |sys.grants|
      ensures sys.grants[k].key != g.key
      ensures if sys.grants[k].owner == g.owner then sys.grants[k].token < g.token <==> sys.grants[k].key.minute < g.key.minute
              else sys.grants[k].owner < g.owner && sys.grants[k].key.minute < g.key.minute
    {
      if sys.grants[k].owner == g.owner {
        var m :| 0 <= m < |sys.issued| && sys.issued[m] == sys.grants[k];
        assert sys.grants[k] != g;
        assert m != n;
      }
    }
  }

  lemma HandOffIsSafe(c: Config, sys: System, i: Intent, now: int, available: bool, reading: Option<Clock>)
    requires Safe(c, sys) && sys.sched.Some? && sys.ledger.highWater == sys.sched.value.highWater
    ensures Safe(c, HandOff(c, sys, i, now, available, reading))
  {
    hide Authorize, Sound;
    var s := sys.sched.value;
    var open := available && sys.gate;
    var (t, token) := Authorize(s, i, now, open, reading);
    AuthorizeIsSound(c, s, i, now, open, reading);
    if sys.gate {
      AuthorizeEffect(s, i, now, open, reading);
      if token.Some? {
        CellsNameTheirTimers(c, s);
        GrantIsNew(s, sys, i);
        GrantStaysGuarded(s, t, i, sys);
      } else {
        assert sys.grants + [] == sys.grants;
        KeptIntentsStayGuarded(s, t, sys);
      }
    } else {
      ClosedGateGrantsNothing(s, i, now, reading);
      AuthorizeKeepsOwner(s, i, now, open, reading);
      assert sys.grants + [] == sys.grants;
    }
  }

  lemma CellsNameTheirTimers(c: Config, s: State)
    requires Sound(c, s)
    ensures forall id :: id in s.cells && s.cells[id].Own? ==> s.cells[id].record.key.timer == id
  {
  }

  lemma ClosedGateGrantsNothing(s: State, i: Intent, now: int, reading: Option<Clock>)
    ensures Authorize(s, i, now, false, reading).1.None?
  {
  }

  lemma AuthorizeKeepsOwner(s: State, i: Intent, now: int, available: bool, reading: Option<Clock>)
    ensures Authorize(s, i, now, available, reading).0.owner == s.owner
  {
    hide ClockAgrees, TimerUnchanged, HandoffOpen, Find, Hand, Finish;
    var found := Find(s, i.key);
    if found.Some? && found.value.pending.Some? {
      FinishKeepsOwner(s, found.value, Expired, now);
      FinishKeepsOwner(s, found.value, AuthorizationRejected, now);
      FinishKeepsOwner(Bump(s).(baseline := None), found.value, AuthorizationRejected, now);
      HandKeepsOwner(s, i, found.value, now);
    }
  }

  lemma FinishKeepsOwner(s: State, r: Record, status: Status, now: int)
    requires r.pending.Some?
    ensures Finish(s, r, status, now).owner == s.owner
  {
  }

  lemma HandKeepsOwner(s: State, i: Intent, r: Record, now: int)
    requires r.pending.Some?
    ensures Hand(s, i, r, now).0.owner == s.owner
  {
  }

  lemma GrantStaysGuarded(s: State, t: State, i: Intent, sys: System)
    requires Guarded(s, sys) && OpenFor(s, i)
    requires IntentsAfter(s, t, i.key.timer, true)
    requires forall id :: id in s.cells && s.cells[id].Own? ==> s.cells[id].record.key.timer == id
    ensures Guarded(t, sys.(sched := Some(t), grants := sys.grants + [Grant(s.owner, i.token, i.key)]))
  {
  }

  // ---------------------------------------------------------------- boots

  lemma RestrictIsValid(c: Config, h: History, ids: set<string>)
    requires ValidHistory(c, h)
    ensures ValidHistory(c, Restrict(h, ids)) && Restrict(h, ids).latches.Keys <= ids
  {
    var kept := Restrict(h, ids).latches;
    assert kept.Keys <= h.latches.Keys;
    SubsetIsSmaller(kept.Keys, h.latches.Keys);
    assert |kept| == |kept.Keys| && |h.latches| == |h.latches.Keys|;
  }

  lemma ColdBootIsSound(c: Config, owner: int, timers: seq<Timer>, gate: bool, ledger: History)
    requires ValidHistory(c, ledger)
    ensures var booted := ColdBoot(c, owner, timers, gate, ledger);
            booted.Some? ==>
              && Sound(c, booted.value) && booted.value.owner == owner && booted.value.handedOff == map[]
              && (gate ==> booted.value.highWater == ledger.highWater && Export(c, booted.value) == Some(Restrict(ledger, IdsOf(timers))))
              && forall id :: id in booted.value.cells ==> booted.value.cells[id].Own? && !booted.value.cells[id].record.status.IntentCreated?
  {
    FreshIsSound(c, owner);
    ReplaceIsSound(c, Fresh(owner), timers);
    var configured := ReplaceTimers(c, Fresh(owner), timers).0;
    assert configured.cells == map[];
    if ValidTimers(c, timers) {
      RestrictIsValid(c, ledger, IdsOf(timers));
      forall id | id in IdsOf(timers) ensures id in IdsOf(configured.timers) {
        var k :| 0 <= k < |timers| && timers[k].id == id;
        assert configured.timers[k].id == id;
      }
      RestoreThenExportIsIdentity(c, configured, Restrict(ledger, IdsOf(timers)));
    }
  }

  lemma BootIsSafe(c: Config, sys: System, timers: seq<Timer>, gate: bool)
    requires Safe(c, sys) && sys.sched.None?
    ensures Safe(c, Transition(c, sys, Boot(timers, gate)))
  {
    hide ColdBoot, Sound, Export;
    ColdBootIsSound(c, sys.boots + 1, timers, gate, sys.ledger);
    GrantsBelowLedger(c, sys);
  }

  lemma TransitionIsSafe(c: Config, sys: System, i: Input)
    requires Safe(c, sys) && Acceptable(i)
    ensures Safe(c, Transition(c, sys, i))
  {
    hide Safe, Save, Stores, HandOff, Operate, ColdBoot;
    match i
    case Direct(op) => if sys.sched.Some? && !op.AuthorizeOp? { OperateIsSafe(c, sys, op); }
    case Checkpoint(saved) => SaveIsSafe(c, sys, saved);
    case ApplyIntent(intent, now, available, reading, saved) =>
      SaveIsSafe(c, sys, saved);
      if saved.Confirmed? && Stores(c, sys, saved) {
        StoredKeepsScheduler(c, sys, saved);
        HandOffIsSafe(c, Save(c, sys, saved), intent, now, available, reading);
      }
    case PowerLoss => PowerLossIsSafe(c, sys);
    case Boot(timers, gate) => if sys.sched.None? { BootIsSafe(c, sys, timers, gate); }
  }

  lemma StoredKeepsScheduler(c: Config, sys: System, saved: Saved)
    requires Stores(c, sys, saved)
    ensures sys.sched.Some? && Save(c, sys, saved).sched == sys.sched
  {
  }

  lemma PowerLossIsSafe(c: Config, sys: System)
    requires Safe(c, sys)
    ensures Safe(c, sys.(sched := None, issued := []))
  {
  }

  lemma {:induction false} RunIsSafe(c: Config, sys: System, inputs: seq<Input>)
    requires Safe(c, sys) && forall i :: i in inputs ==> Acceptable(i)
    ensures Safe(c, Run(c, sys, inputs))
    decreases |inputs|
  {
    if inputs != [] {
      TransitionIsSafe(c, sys, inputs[0]);
      RunIsSafe(c, Transition(c, sys, inputs[0]), inputs[1..]);
    }
  }

  predicate MinutesIncrease(grants: seq<Grant>) {
    forall j, k :: 0 <= j < k < |grants| ==> grants[j].key.minute < grants[k].key.minute
  }

  /** Within each boot intents were applied in the order in which they were created. */
  predicate AppliedInOrder(grants: seq<Grant>) {
    forall j, k :: 0 <= j < k < |grants| ==> grants[j].owner == grants[k].owner ==> grants[j].token < grants[k].token
  }

  /** Over every sequence of boots, power losses, steps and checkpoints: no occurrence is authorized twice, and the
      authorized local minutes strictly increase if and only if intents are applied in their order of creation. */
  lemma AtMostOnceAcrossBoots(c: Config, inputs: seq<Input>)
    requires forall i :: i in inputs ==> Acceptable(i)
    ensures var end := Run(c, POWERED_OFF, inputs);
            && KeysDistinct(end.grants)
            && (MinutesIncrease(end.grants) <==> AppliedInOrder(end.grants))
            && (forall k :: 0 <= k < |end.grants| ==> Covers(end.ledger.highWater, Some(end.grants[k].key.minute)))
  {
    assert Safe(c, POWERED_OFF);
    RunIsSafe(c, POWERED_OFF, inputs);
    var end := Run(c, POWERED_OFF, inputs);
    GrantsBelowLedger(c, end);
    assert InCreationOrder(end.grants);
  }
}
