/** What a hand-off may rely on (app/scheduler.py): no trust-changing event lies between an intent's creation and its
    authorization, a token completes once, and an active occurrence is never replaced by another. */
module SchedulerFences {
  import opened Options
  import opened SchedulerModel
  import opened SchedulerLedger

  // ---------------------------------------------------------------- fences

  predicate ClockReversed(s: State, now: int) {
    s.lastStep.Some? && now < s.lastStep.value
  }

  /** A step that loses trust in the clock, or sees it changed or jumping. */
  predicate ClockFence(c: Config, s: State, op: Op)
    requires op.StepOp?
  {
    && s.armed && !s.faulted
    && (ClockReversed(s, op.now)
        || (s.baseline.Some? && op.reading.None?)
        || (s.baseline.Some? && op.reading.Some? && !s.fencePending
            && (op.reading.value.trust != s.baseline.value.trust || !Undisturbed(c, s.baseline.value, op.reading.value))))
  }

  /** Disarming, rearming, an armed timer replacement, a fault and its reset, and every clock fence. */
  predicate Fence(c: Config, s: State, op: Op) {
    match op
    case Replace(definitions) => s.armed && ValidTimers(c, definitions)
    case ArmOp => !s.armed && !s.faulted
    case DisarmOp => s.armed
    case ResetOp => s.faulted
    case StepOp(_, _, _) => ClockFence(c, s, op)
    case _ => !s.faulted && Apply(c, s, op).faulted
  }

  predicate FenceFree(c: Config, s: State, ops: seq<Op>)
    decreases |ops|
  {
    ops == [] || (!Fence(c, s, ops[0]) && FenceFree(c, Apply(c, s, ops[0]), ops[1..]))
  }

  predicate Spent(s: State, token: nat) {
    token in s.handedOff && !s.handedOff[token].status.AuthorizedPending?
  }

  lemma FireKeeps(c: Config, s: State, clock: Clock, now: int, available: bool)
    ensures var t := Fire(c, s, clock, now, available).0;
            t.epoch == s.epoch && t.activeKey == s.activeKey && t.handedOff == s.handedOff
  {
    hide DueTimers, Consume, CreateIntent;
    var due := DueTimers(s, s.timers, clock.minute);
    ConsumingLeaves(s, due, clock.minute, ConflictStatus, now);
    ConsumingLeaves(s, due, clock.minute, SuppressedBusy, now);
    if due != [] { CreatingLeaves(c, s, due[0], clock, now); }
  }

  lemma ConsumingLeaves(s: State, due: seq<Timer>, minute: int, status: Status, now: int)
    ensures var t := Consume(s, due, minute, status, now);
      t.epoch == s.epoch && t.activeKey == s.activeKey && t.handedOff == s.handedOff
  {
    hide RecordFor, TimerNamed, IdsOf;
  }

  lemma CreatingLeaves(c: Config, s: State, timer: Timer, clock: Clock, now: int)
    ensures var t := CreateIntent(c, s, timer, clock, now).0;
      t.epoch == s.epoch && t.activeKey == s.activeKey && t.handedOff == s.handedOff
  {
    hide RecordFor, PendingOf;
  }

  lemma StepKeeps(c: Config, s: State, now: int, reading: Option<Clock>, available: bool)
    ensures var t := Step(c, s, now, reading, available).0;
            t.epoch >= s.epoch && t.activeKey == s.activeKey && t.handedOff == s.handedOff
    ensures ClockFence(c, s, StepOp(now, reading, available)) ==> Step(c, s, now, reading, available).0.epoch == s.epoch + 1
  {
    hide Observe, Undisturbed, LatchFault;
    FaultFences(s);
    if reading.Some? && s.baseline.Some? { ObserveKeeps(c, s.(lastStep := Some(now)), reading.value, now, available); }
  }

  lemma FaultFences(s: State)
    ensures var t := LatchFault(s);
            t.epoch == s.epoch + (if s.faulted then 0 else 1) && t.activeKey == s.activeKey && t.handedOff == s.handedOff
  {
  }

  lemma ObserveKeeps(c: Config, s: State, clock: Clock, now: int, available: bool)
    requires s.baseline.Some?
    ensures var t := Observe(c, s, clock, now, available).0;
            && t.activeKey == s.activeKey && t.handedOff == s.handedOff
            && t.epoch ==
               s.epoch + (if clock.trust != s.baseline.value.trust || !Undisturbed(c, s.baseline.value, clock) then 1 else 0)
  {
    hide Fire, Undisturbed;
    FireKeeps(c, s.(baseline := Some(clock)), clock, now, available);
  }

  lemma FinishKeeps(s: State, r: Record, status: Status, now: int)
    requires r.pending.Some?
    ensures var t := Finish(s, r, status, now);
            t.epoch == s.epoch && t.faulted == s.faulted && t.activeKey == s.activeKey && t.handedOff == s.handedOff
  {
  }

  /** Authorizing starts an epoch at most, and adds at most one new token to the hand-offs. */
  lemma AuthorizeKeeps(s: State, i: Intent, now: int, available: bool, reading: Option<Clock>)
    ensures KeepsHandoffs(s, Authorize(s, i, now, available, reading).0)
  {
    hide ClockAgrees, TimerUnchanged, HandoffOpen, Find, Finish, Hand, KeepsHandoffs;
    var found := Find(s, i.key);
    NothingLost(s);
    if found.Some? && found.value.pending.Some? {
      FinishLosesNothing(s, found.value, Expired, now);
      FinishLosesNothing(s, found.value, AuthorizationRejected, now);
      HandLosesNothing(s, i, found.value, now);
    }
  }

  /** No earlier epoch, no other fault or active occurrence, and every hand-off so far is still there. */
  ghost predicate KeepsHandoffs(s: State, t: State) {
    && t.epoch >= s.epoch && t.faulted == s.faulted && t.activeKey == s.activeKey
    && forall k :: k in s.handedOff && k <= s.authSequence ==> k in t.handedOff && t.handedOff[k] == s.handedOff[k]
  }

  lemma NothingLost(s: State)
    ensures KeepsHandoffs(s, s)
  {
  }

  lemma FinishLosesNothing(s: State, r: Record, status: Status, now: int)
    requires r.pending.Some?
    ensures KeepsHandoffs(s, Finish(s, r, status, now)) && KeepsHandoffs(s, Finish(Bump(s).(baseline := None), r, status, now))
  {
    FinishKeeps(s, r, status, now);
    FinishKeeps(Bump(s).(baseline := None), r, status, now);
    hide Finish;
  }

  lemma HandLosesNothing(s: State, i: Intent, r: Record, now: int)
    requires r.pending.Some?
    ensures KeepsHandoffs(s, Hand(s, i, r, now).0)
  {
  }

  lemma SettleKeeps(s: State, token: nat, status: Status, now: int)
    requires token in s.handedOff && s.handedOff[token].pending.Some? && !status.AuthorizedPending?
    ensures var t := Settle(s, token, status, now);
            && t.epoch == s.epoch && t.faulted == s.faulted && t.activeKey == s.activeKey && Spent(t, token)
            && forall k :: Spent(s, k) ==> Spent(t, k)
  {
  }

  /** A completion that binds spends its token, latches at most one fault, and never displaces an active occurrence. */
  lemma CompleteKeeps(s: State, a: Authorized, applied: bool, result: Option<Requested>, now: int)
    ensures var t := Complete(s, a, applied, result, now).0;
            && t.epoch >= s.epoch && (!s.faulted && t.faulted ==> t.epoch == s.epoch + 1)
            && (s.activeKey.Some? ==> t.activeKey == s.activeKey)
            && (Completable(s, a, now) ==> Spent(t, a.token))
            && forall k :: Spent(s, k) ==> Spent(t, k)
  {
    hide RequestMatches, IntentMatches, Settle;
    if Completable(s, a, now) {
      SettleKeeps(s, a.token, ApplicationFailed, now);
      SettleKeeps(s, a.token, Accepted, now);
    }
  }

  /** A fence always starts a new authorization epoch, and no operation returns to an older one. */
  lemma FencesAdvanceEpoch(c: Config, s: State, op: Op)
    ensures Apply(c, s, op).epoch >= s.epoch
    ensures Fence(c, s, op) ==> Apply(c, s, op).epoch > s.epoch
  {
    match op
    case StepOp(now, reading, available) =>
      hide Step, ClockFence;
      StepKeeps(c, s, now, reading, available);
    case AuthorizeOp(i, now, available, reading) =>
      hide Authorize;
      AuthorizeKeeps(s, i, now, available, reading);
    case CompleteOp(a, applied, result, now) =>
      hide Complete;
      CompleteKeeps(s, a, applied, result, now);
    case OverrideOp(key, now) => hide Releasable, Find;
    case ReleaseOp(key, now) => hide Releasable, Find;
    case _ =>
  }

  lemma {:induction false} EpochNeverFalls(c: Config, s: State, ops: seq<Op>)
    ensures Execute(c, s, ops).epoch >= s.epoch
    ensures Execute(c, s, ops).epoch == s.epoch ==> FenceFree(c, s, ops)
    decreases |ops|
  {
    hide Apply, Fence;
    if ops != [] {
      FencesAdvanceEpoch(c, s, ops[0]);
      EpochNeverFalls(c, Apply(c, s, ops[0]), ops[1..]);
    }
  }

  // ---------------------------------------------------------------- intents keep their epoch

  predicate TokenHasEpoch(r: Record, token: nat, epoch: nat) {
    r.pending.Some? && r.pending.value.intentToken == token ==> r.pending.value.epoch == epoch
  }

  /** Wherever the intent with this token is recorded, it carries this epoch. */
  predicate Bound(s: State, token: nat, epoch: nat) {
    && token <= s.intentSequence
    && (forall id :: id in s.cells && s.cells[id].Own? ==> TokenHasEpoch(s.cells[id].record, token, epoch))
    && (forall t :: t in s.handedOff ==> TokenHasEpoch(s.handedOff[t], token, epoch))
  }

  predicate TokensBelow(s: State) {
    && (forall id :: id in s.cells && s.cells[id].Own? && s.cells[id].record.pending.Some? ==>
          s.cells[id].record.pending.value.intentToken <= s.intentSequence)
    && (forall t :: t in s.handedOff && s.handedOff[t].pending.Some? ==> s.handedOff[t].pending.value.intentToken <= s.intentSequence)
  }

  /** Records change only by marking them, by handing them off, or by creating an intent with a new token. */
  predicate KeepsTokens(s: State, t: State) {
    && s.intentSequence <= t.intentSequence
    && (forall id :: id in t.cells && t.cells[id].Own? && t.cells[id].record.pending.Some? ==>
          OldToken(s, t.cells[id].record.pending.value) || NewToken(s, t, t.cells[id].record.pending.value))
    && (forall k :: k in t.handedOff && t.handedOff[k].pending.Some? ==> OldToken(s, t.handedOff[k].pending.value))
  }

  predicate SameOrigin(p: Pending, q: Option<Pending>) {
    q.Some? && q.value.intentToken == p.intentToken && q.value.epoch == p.epoch
  }

  predicate OldToken(s: State, p: Pending) {
    || (exists id :: id in s.cells && s.cells[id].Own? && SameOrigin(p, s.cells[id].record.pending))
    || (exists k :: k in s.handedOff && SameOrigin(p, s.handedOff[k].pending))
  }

  predicate NewToken(s: State, t: State, p: Pending) {
    s.intentSequence < p.intentToken <= t.intentSequence
  }

  lemma KeptTokensStayBound(s: State, t: State, token: nat, epoch: nat)
    requires KeepsTokens(s, t)
    ensures Bound(s, token, epoch) ==> Bound(t, token, epoch)
    ensures TokensBelow(s) ==> TokensBelow(t)
  {
  }

  lemma SameRecords(s: State, t: State)
    requires t.cells == s.cells && t.handedOff == s.handedOff && t.intentSequence == s.intentSequence
    ensures KeepsTokens(s, t)
  {
    forall id | id in s.cells && s.cells[id].Own? && s.cells[id].record.pending.Some? ensures OldToken(s, s.cells[id].record.pending.value) {
      assert SameOrigin(s.cells[id].record.pending.value, s.cells[id].record.pending);
    }
    forall k | k in s.handedOff && s.handedOff[k].pending.Some? ensures OldToken(s, s.handedOff[k].pending.value) {
      assert SameOrigin(s.handedOff[k].pending.value, s.handedOff[k].pending);
    }
  }

  /** Slots replaced by records without an intent, or removed. */
  lemma ClearedSlots(s: State, t: State)
    requires t.handedOff == s.handedOff && t.intentSequence == s.intentSequence
    requires forall id :: id in t.cells && t.cells[id].Own? && t.cells[id].record.pending.Some? ==> id in s.cells && s.cells[id] == t.cells[id]
    ensures KeepsTokens(s, t)
  {
    SameRecords(s, s);
  }

  /** One slot replaced by a record of the same origin. */
  lemma MarkedSlot(s: State, t: State, timer: string, r: Record)
    requires t.handedOff == s.handedOff && t.intentSequence == s.intentSequence && r.pending.Some?
    requires t.cells == s.cells[timer := Own(r)] && OldToken(s, r.pending.value)
    ensures KeepsTokens(s, t)
  {
    SameRecords(s, s);
  }

  lemma FireTokens(c: Config, s: State, clock: Clock, now: int, available: bool)
    ensures KeepsTokens(s, Fire(c, s, clock, now, available).0)
  {
    var due := DueTimers(s, s.timers, clock.minute);
    DueAreTimers(s, s.timers, clock.minute);
    if due != [] {
      ClearedSlots(s, Consume(s, due, clock.minute, ConflictStatus, now));
      ClearedSlots(s, Consume(s, due, clock.minute, SuppressedBusy, now));
      CreateTokens(c, s, due[0], clock, now);
    } else {
      SameRecords(s, s);
    }
  }

  lemma CreateTokens(c: Config, s: State, t: Timer, clock: Clock, now: int)
    ensures KeepsTokens(s, CreateIntent(c, s, t, clock, now).0)
  {
    SameRecords(s, s);
  }

  lemma StepTokens(c: Config, s: State, now: int, reading: Option<Clock>, available: bool)
    ensures KeepsTokens(s, Step(c, s, now, reading, available).0)
  {
    hide KeepsTokens, Fire, Undisturbed;
    var stepped := s.(lastStep := Some(now));
    SameRecords(s, s);
    SameRecords(s, LatchFault(s));
    SameRecords(s, stepped.(baseline := None));
    SameRecords(s, Bump(stepped.(baseline := None)));
    SameRecords(s, stepped.(baseline := reading));
    SameRecords(s, stepped.(baseline := reading, fencePending := false));
    SameRecords(s, Bump(stepped.(baseline := reading)));
    if reading.Some? && s.baseline.Some? {
      var based := stepped.(baseline := reading);
      FireTokens(c, based, reading.value, now, available);
      SameStart(s, based, Fire(c, based, reading.value, now, available).0);
    }
  }

  lemma SameStart(s: State, based: State, t: State)
    requires based.cells == s.cells && based.handedOff == s.handedOff && based.intentSequence == s.intentSequence
    requires KeepsTokens(based, t)
    ensures KeepsTokens(s, t)
  {
  }

  lemma FoundHasOldToken(s: State, key: Key)
    requires Find(s, key).Some? && Find(s, key).value.pending.Some?
    ensures OldToken(s, Find(s, key).value.pending.value)
  {
    var r := Find(s, key).value;
    assert SameOrigin(r.pending.value, r.pending);
  }

  lemma AuthorizeTokens(s: State, i: Intent, now: int, available: bool, reading: Option<Clock>)
    ensures KeepsTokens(s, Authorize(s, i, now, available, reading).0)
  {
    hide KeepsTokens, OldToken, ClockAgrees, TimerUnchanged, HandoffOpen, Find, Hand, Finish;
    SameRecords(s, s);
    var found := Find(s, i.key);
    if found.Some? && found.value.pending.Some? {
      var r := found.value;
      FoundHasOldToken(s, i.key);
      FinishTokens(s, r, Expired, now);
      FinishTokens(s, r, AuthorizationRejected, now);
      HandTokens(s, i, r, now);
    }
  }

  lemma FinishTokens(s: State, r: Record, status: Status, now: int)
    requires r.pending.Some? && OldToken(s, r.pending.value)
    ensures KeepsTokens(s, Finish(s, r, status, now)) && KeepsTokens(s, Finish(Bump(s).(baseline := None), r, status, now))
  {
    hide KeepsTokens;
    var finished := r.(status := status, pending := Some(r.pending.value.(finishedAt := Some(now))));
    SameOriginIsOld(s, r.pending.value, finished.pending.value);
    MarkedSlot(s, Finish(s, r, status, now), r.key.timer, finished);
    MarkedSlot(s, Finish(Bump(s).(baseline := None), r, status, now), r.key.timer, finished);
  }

  lemma SameOriginIsOld(s: State, p: Pending, q: Pending)
    requires OldToken(s, p) && q.intentToken == p.intentToken && q.epoch == p.epoch
    ensures OldToken(s, q)
  {
    if exists id :: id in s.cells && s.cells[id].Own? && SameOrigin(p, s.cells[id].record.pending) {
      var id :| id in s.cells && s.cells[id].Own? && SameOrigin(p, s.cells[id].record.pending);
      assert SameOrigin(q, s.cells[id].record.pending);
    } else {
      var k :| k in s.handedOff && SameOrigin(p, s.handedOff[k].pending);
      assert SameOrigin(q, s.handedOff[k].pending);
    }
  }

  lemma HandTokens(s: State, i: Intent, r: Record, now: int)
    requires r.pending.Some? && OldToken(s, r.pending.value)
    ensures KeepsTokens(s, Hand(s, i, r, now).0)
  {
    SameRecords(s, s);
    var token := s.authSequence + 1;
    var handed := r.pending.value.(authorization := Some(token), authorizedAt := Some(now));
    SameOriginIsOld(s, r.pending.value, handed);
    hide OldToken, NewToken, SameOrigin;
  }

  lemma SettleTokens(s: State, token: nat, status: Status, now: int)
    requires token in s.handedOff && s.handedOff[token].pending.Some?
    ensures KeepsTokens(s, Settle(s, token, status, now))
  {
    SameRecords(s, s);
    var p := s.handedOff[token].pending.value;
    assert SameOrigin(p, s.handedOff[token].pending);
    SameOriginIsOld(s, p, p.(finishedAt := Some(now)));
  }

  lemma CompleteTokens(s: State, a: Authorized, applied: bool, result: Option<Requested>, now: int)
    ensures KeepsTokens(s, Complete(s, a, applied, result, now).0)
  {
    hide KeepsTokens, RequestMatches, Settle, IntentMatches;
    SameRecords(s, s);
    if Completable(s, a, now) {
      SettleTokens(s, a.token, ApplicationFailed, now);
      SettleTokens(s, a.token, Accepted, now);
      var failed, accepted := Settle(s, a.token, ApplicationFailed, now), Settle(s, a.token, Accepted, now);
      SameEnd(s, failed, LatchFault(failed));
      var active := accepted.(activeKey := Some(s.handedOff[a.token].key), active := Some(a.token));
      SameEnd(s, accepted, active);
      SameEnd(s, accepted, LatchFault(active));
    }
  }

  lemma SameEnd(s: State, t: State, u: State)
    requires KeepsTokens(s, t) && u.cells == t.cells && u.handedOff == t.handedOff && u.intentSequence == t.intentSequence
    ensures KeepsTokens(s, u)
  {
  }

  lemma ReleaseTokens(s: State, r: Record)
    requires r.pending.Some? && OldToken(s, r.pending.value)
    ensures KeepsTokens(s, Release(s, r))
  {
    hide OldToken;
    SameRecords(s, s);
    if Find(s, r.key).Some? { MarkedSlot(s, Release(s, r), r.key.timer, r); } else { SameRecords(s, Release(s, r)); }
  }

  lemma ReleaseOpTokens(s: State, key: Key, now: int)
    ensures KeepsTokens(s, MarkOverride(s, key, now).0) && KeepsTokens(s, MarkComplete(s, key, now).0)
  {
    SameRecords(s, s);
    if Releasable(s, key, now) {
      hide KeepsTokens, Release;
      var r := s.handedOff[s.active.value];
      assert SameOrigin(r.pending.value, r.pending);
      ReleaseTokens(s, r.(status := Overridden, overridden := true));
      ReleaseTokens(s, r.(status := Completed));
      var released := Release(s, r.(status := Overridden, overridden := true));
      SameEnd(s, released, released.(wasOverridden := true));
    }
  }

  lemma ApplyTokens(c: Config, s: State, op: Op)
    ensures KeepsTokens(s, Apply(c, s, op))
  {
    hide KeepsTokens;
    match op
    case Replace(definitions) =>
      SameRecords(s, s);
      if ValidTimers(c, definitions) { ClearedSlots(s, ReplaceTimers(c, s, definitions).0); }
    case ArmOp => SameRecords(s, Arm(s).0);
    case DisarmOp => SameRecords(s, Disarm(s).0);
    case ResetOp => SameRecords(s, ResetFault(s).0);
    case StepOp(now, reading, available) => StepTokens(c, s, now, reading, available);
    case AuthorizeOp(i, now, available, reading) => AuthorizeTokens(s, i, now, available, reading);
    case CompleteOp(a, applied, result, now) => CompleteTokens(s, a, applied, result, now);
    case OverrideOp(key, now) => ReleaseOpTokens(s, key, now);
    case ReleaseOp(key, now) => ReleaseOpTokens(s, key, now);
  }

  lemma {:induction false} ExecuteKeepsBound(c: Config, s: State, ops: seq<Op>, token: nat, epoch: nat)
    requires Bound(s, token, epoch)
    ensures Bound(Execute(c, s, ops), token, epoch)
    decreases |ops|
  {
    hide Apply, Bound;
    if ops != [] {
      ApplyTokens(c, s, ops[0]);
      KeptTokensStayBound(s, Apply(c, s, ops[0]), token, epoch);
      ExecuteKeepsBound(c, Apply(c, s, ops[0]), ops[1..], token, epoch);
    }
  }

  lemma {:induction false} ExecuteKeepsTokensBelow(c: Config, s: State, ops: seq<Op>)
    requires TokensBelow(s)
    ensures TokensBelow(Execute(c, s, ops))
    decreases |ops|
  {
    hide Apply, TokensBelow;
    if ops != [] {
      ApplyTokens(c, s, ops[0]);
      KeptTokensStayBound(s, Apply(c, s, ops[0]), 0, 0);
      ExecuteKeepsTokensBelow(c, Apply(c, s, ops[0]), ops[1..]);
    }
  }

  lemma NewIntentIsBound(c: Config, s: State, now: int, reading: Option<Clock>, available: bool)
    requires TokensBelow(s)
    ensures var (t, o) := Step(c, s, now, reading, available);
            o.Done? && o.value.Some? ==>
              Bound(t, o.value.value.token, t.epoch) && o.value.value.createdAt == now && o.value.value.notAfter == now + c.intentValid
  {
    hide DueTimers, Undisturbed;
  }

  /** A token is granted only within the intent's window, by an armed, unfaulted and idle scheduler, and only if
      since the intent was created nothing fenced it: no disarm or rearm, no armed timer replacement, no fault or
      fault reset, no clock fence. */
  lemma AuthorizedMeansUnfenced(
    c: Config, s: State, created: int, reading: Option<Clock>, available: bool, i: Intent, fired: State,
    ops: seq<Op>, now: int, availableNow: bool, readingNow: Option<Clock>)
    requires TokensBelow(s) && Step(c, s, created, reading, available) == (fired, Done(Some(i)))
    requires Authorize(Execute(c, fired, ops), i, now, availableNow, readingNow).1.Some?
    ensures FenceFree(c, fired, ops) && created <= now <= created + c.intentValid
    ensures var at := Execute(c, fired, ops); at.armed && !at.faulted && at.activeKey.None? && availableNow
  {
    hide Execute, Step, Bound, FenceFree;
    NewIntentIsBound(c, s, created, reading, available);
    ExecuteKeepsBound(c, fired, ops, i.token, fired.epoch);
    AuthorizedInEpoch(Execute(c, fired, ops), i, now, availableNow, readingNow, fired.epoch);
    EpochNeverFalls(c, fired, ops);
  }

  lemma AuthorizedInEpoch(s: State, i: Intent, now: int, available: bool, reading: Option<Clock>, epoch: nat)
    requires Bound(s, i.token, epoch) && Authorize(s, i, now, available, reading).1.Some?
    ensures s.epoch == epoch && i.createdAt <= now <= i.notAfter
    ensures s.armed && !s.faulted && s.activeKey.None? && available
  {
    hide ClockAgrees, TimerUnchanged;
  }

  // ---------------------------------------------------------------- completion

  lemma ApplyKeepsSpent(c: Config, s: State, op: Op, token: nat)
    requires Sound(c, s) && Spent(s, token)
    ensures Spent(Apply(c, s, op), token)
  {
    match op
    case StepOp(now, reading, available) =>
      hide Step;
      StepKeeps(c, s, now, reading, available);
    case AuthorizeOp(i, now, available, reading) =>
      hide Authorize;
      AuthorizeKeeps(s, i, now, available, reading);
    case CompleteOp(a, applied, result, now) =>
      hide Complete;
      CompleteKeeps(s, a, applied, result, now);
    case _ => hide Releasable, Find;
  }

  lemma {:induction false} ExecuteKeepsSpent(c: Config, s: State, ops: seq<Op>, token: nat)
    requires Sound(c, s) && Spent(s, token) && forall op :: op in ops ==> InCalendar(op)
    ensures Spent(Execute(c, s, ops), token)
    decreases |ops|
  {
    hide Apply, Spent, Sound;
    if ops != [] {
      ApplyKeepsSpent(c, s, ops[0], token);
      ApplyIsSound(c, s, ops[0]);
      ExecuteKeepsSpent(c, Apply(c, s, ops[0]), ops[1..], token);
    }
  }

  /** A token is completed at most once: after a completion that took effect, none takes effect for it again. */
  lemma TokenCompletesOnce(
    c: Config, s: State, a: Authorized, applied: bool, result: Option<Requested>, now: int, ops: seq<Op>,
    again: bool, resultAgain: Option<Requested>, later: int)
    requires Sound(c, s) && Completable(s, a, now) && forall op :: op in ops ==> InCalendar(op)
    ensures var t := Execute(c, Complete(s, a, applied, result, now).0, ops);
            Complete(t, a, again, resultAgain, later) == (t, false)
  {
    hide Execute, Sound, Complete, Completable;
    var done := Complete(s, a, applied, result, now).0;
    CompleteKeeps(s, a, applied, result, now);
    CompleteIsSound(c, s, a, applied, result, now);
    ExecuteKeepsSpent(c, done, ops, a.token);
    SpentIsRefused(Execute(c, done, ops), a, again, resultAgain, later);
  }

  lemma SpentIsRefused(s: State, a: Authorized, applied: bool, result: Option<Requested>, now: int)
    requires Spent(s, a.token)
    ensures Complete(s, a, applied, result, now) == (s, false)
  {
  }

  /** While an occurrence is active no operation puts another in its place: it stays until it is released. */
  lemma ActiveOccurrenceStays(c: Config, s: State, op: Op)
    requires s.activeKey.Some?
    ensures var t := Apply(c, s, op);
            t.activeKey == s.activeKey || (t.activeKey.None? && (op.OverrideOp? || op.ReleaseOp?))
  {
    match op
    case StepOp(now, reading, available) =>
      hide Step;
      StepKeeps(c, s, now, reading, available);
    case AuthorizeOp(i, now, available, reading) =>
      hide Authorize;
      AuthorizeKeeps(s, i, now, available, reading);
    case CompleteOp(a, applied, result, now) =>
      hide Complete;
      CompleteKeeps(s, a, applied, result, now);
    case _ => hide Releasable, Find;
  }
}
