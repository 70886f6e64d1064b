/** What the scheduler does with a due timer, not only what it must not do (app/scheduler.py): which occurrences a step starts,
    suppresses or reports as conflicting, and when the start it offers becomes a token and then an active occurrence. */
module SchedulerActions {
  import opened Options
  import opened SchedulerModel
  import opened SchedulerLedger

  // ---------------------------------------------------------------- which timers start at a minute

  /** The minute last consumed for a timer, whether or not its record was handed off. */
  function LastMinute(s: State, id: string): Option<int> {
    if id !in s.cells then None
    else
      match s.cells[id]
      case Own(r) => Some(r.key.minute)
      case HandedOff(token) => if token in s.handedOff then Some(s.handedOff[token].key.minute) else None
  }

  /** An enabled timer of that weekday and time, with nothing of it or of any timer consumed at or after the minute. Minute 0
      is the midnight at which Saturday, the 1st of January 2000, begins; Monday is day 0. */
  predicate Startable(s: State, t: Timer, minute: int) {
    && t in s.timers && t.enabled && t.start == minute % 1440 && (5 + minute / 1440) % 7 in t.weekdays
    && (s.highWater.None? || s.highWater.value < minute)
    && (LastMinute(s, t.id).None? || LastMinute(s, t.id).value < minute)
  }

  lemma StartableIsDue(s: State, t: Timer, minute: int)
    requires t in s.timers
    ensures Startable(s, t, minute) <==> Due(s, t, minute)
  {
  }

  predicate DistinctIds(timers: seq<Timer>) {
    forall i, j :: 0 <= i < j < |timers| ==> timers[i].id != timers[j].id
  }

  /** The list of due timers has each of them once. */
  lemma {:induction false} DueIsExact(s: State, timers: seq<Timer>, minute: int)
    requires DistinctIds(timers)
    ensures var due := DueTimers(s, timers, minute);
            (forall t :: t in due <==> t in timers && Due(s, t, minute)) && DistinctIds(due)
    decreases |timers|
  {
    hide Due;
    if timers != [] {
      var rest := timers[1..];
      DueIsExact(s, rest, minute);
      assert timers == [timers[0]] + rest;
      assert forall t :: t in rest ==> t.id != timers[0].id by {
        forall t | t in rest ensures t.id != timers[0].id { var j :| 0 <= j < |rest| && rest[j] == t; assert timers[j + 1] == t; }
      }
    }
  }

  // ---------------------------------------------------------------- one step

  /** The step enters the next local minute under an undisturbed clock, outside the repeated hour. */
  predicate Enters(c: Config, s: State, now: int, reading: Option<Clock>) {
    && s.armed && !s.faulted && !s.fencePending && (s.lastStep.Some? ==> s.lastStep.value <= now)
    && s.baseline.Some? && reading.Some? && reading.value.trust == s.baseline.value.trust && reading.value.fold != 1
    && 0 <= reading.value.utc - s.baseline.value.utc <= c.maxStep && reading.value.minute == s.baseline.value.minute + 1
  }

  /** The occurrence of `t` at this minute, consumed with a status and without an intent. */
  function Consumed(t: Timer, minute: int, status: Status, now: int): Cell {
    Own(Record(Key(t.id, minute), t.revision, status, now, false, None))
  }

  /** The occurrence consumed as an intent: everything its authorization will be checked against. */
  function Offered(c: Config, s: State, t: Timer, clock: Clock, now: int): Cell {
    Own(Record(Key(t.id, clock.minute), t.revision, IntentCreated, now, false,
               Some(Pending(now + c.intentValid, clock.trust, clock.utc, s.epoch, s.intentSequence + 1, None, None, None, t.params))))
  }

  function Offer(c: Config, s: State, t: Timer, clock: Clock, now: int): Intent {
    Intent(Key(t.id, clock.minute), t.revision, t.params, now, now + c.intentValid, s.intentSequence + 1, s.owner)
  }

  /** Nothing but the ledger, its mark and the sequence of intents changed. */
  predicate OnlyConsumed(s: State, t: State, minute: int) {
    && t.highWater == Some(minute) && t.handedOff == s.handedOff && t.timers == s.timers && t.epoch == s.epoch
    && t.authSequence == s.authSequence && t.activeKey == s.activeKey && t.active == s.active
  }

  /** Nothing about the ledger changed. */
  predicate Untouched(s: State, t: State) {
    && t.cells == s.cells && t.handedOff == s.handedOff && t.highWater == s.highWater && t.intentSequence == s.intentSequence
    && t.timers == s.timers && t.authSequence == s.authSequence && t.activeKey == s.activeKey && t.active == s.active
  }

  /** Exactly one timer starts at the minute. */
  predicate Alone(s: State, t: Timer, minute: int) {
    Startable(s, t, minute) && forall u :: u in s.timers && Startable(s, u, minute) ==> u == t
  }

  lemma OtherSteps(c: Config, s: State, now: int, reading: Option<Clock>, available: bool)
    requires !Enters(c, s, now, reading)
    ensures var r := Step(c, s, now, reading, available);
            && Untouched(s, r.0)
            && r.1 == (if s.armed && !s.faulted && s.lastStep.Some? && now < s.lastStep.value then Raised else Done(None))
  {
    hide Fire;
  }

  lemma EnteringFires(c: Config, s: State, now: int, reading: Option<Clock>, available: bool)
    requires Enters(c, s, now, reading)
    ensures var based := s.(lastStep := Some(now), baseline := reading);
            var fired := Fire(c, based, reading.value, now, available);
            Step(c, s, now, reading, available) == (fired.0, Done(fired.1))
    ensures var based := s.(lastStep := Some(now), baseline := reading);
            forall t :: Startable(based, t, reading.value.minute) <==> Startable(s, t, reading.value.minute)
  {
    hide Fire;
  }

  lemma NobodyStarts(s: State, minute: int)
    requires DistinctIds(s.timers) && forall t :: t in s.timers ==> !Startable(s, t, minute)
    ensures DueTimers(s, s.timers, minute) == []
  {
    hide Startable, Due;
    DueIsExact(s, s.timers, minute);
    var due := DueTimers(s, s.timers, minute);
    if due != [] {
      assert due[0] in due;
      StartableIsDue(s, due[0], minute);
    }
  }

  lemma OneStarts(s: State, t: Timer, minute: int)
    requires DistinctIds(s.timers) && Alone(s, t, minute)
    ensures DueTimers(s, s.timers, minute) == [t]
  {
    StartableAreTimers(s, t, t, minute);
    hide Startable, Due;
    DueIsExact(s, s.timers, minute);
    var due := DueTimers(s, s.timers, minute);
    StartableIsDue(s, t, minute);
    assert t in due;
    assert |due| > 1 ==> due[0] in due && due[1] in due;
    forall u | u in due ensures u == t { StartableIsDue(s, u, minute); }
  }

  lemma SeveralStart(s: State, t: Timer, u: Timer, minute: int)
    requires DistinctIds(s.timers) && Startable(s, t, minute) && Startable(s, u, minute) && t != u
    ensures |DueTimers(s, s.timers, minute)| > 1
  {
    hide Startable, Due;
    StartableAreTimers(s, t, u, minute);
    DueIsExact(s, s.timers, minute);
    StartableIsDue(s, t, minute);
    StartableIsDue(s, u, minute);
    var due := DueTimers(s, s.timers, minute);
    assert t in due && u in due;
  }

  lemma StartableAreTimers(s: State, t: Timer, u: Timer, minute: int)
    requires Startable(s, t, minute) && Startable(s, u, minute)
    ensures t in s.timers && u in s.timers
  {
  }

  lemma MarkRises(s: State, t: Timer, minute: int)
    requires Startable(s, t, minute)
    ensures RaisedTo(s.highWater, minute) == Some(minute)
  {
  }

  /** A step that enters no new minute, or one at which nobody starts, consumes nothing and offers nothing. */
  lemma QuietStep(c: Config, s: State, now: int, reading: Option<Clock>, available: bool)
    requires DistinctIds(s.timers)
    requires Enters(c, s, now, reading) ==> forall t :: t in s.timers ==> !Startable(s, t, reading.value.minute)
    ensures var r := Step(c, s, now, reading, available);
            && Untouched(s, r.0)
            && r.1 == (if s.armed && !s.faulted && s.lastStep.Some? && now < s.lastStep.value then Raised else Done(None))
  {
    hide Startable, Step, Enters;
    if Enters(c, s, now, reading) {
      EnteringIsInOrder(c, s, now, reading);
      EnteringFires(c, s, now, reading, available);
      NobodyStarts(s.(lastStep := Some(now), baseline := reading), reading.value.minute);
    } else {
      OtherSteps(c, s, now, reading, available);
    }
  }

  lemma EnteringIsInOrder(c: Config, s: State, now: int, reading: Option<Clock>)
    requires Enters(c, s, now, reading)
    ensures reading.Some? && s.armed && !s.faulted && (s.lastStep.Some? ==> s.lastStep.value <= now)
  {
  }

  /** A timer that starts alone is offered as an intent if control is available and no occurrence is active, and its
      occurrence is suppressed as busy otherwise. */
  lemma LoneTimerIsOffered(c: Config, s: State, now: int, reading: Option<Clock>, available: bool, t: Timer)
    requires DistinctIds(s.timers) && Enters(c, s, now, reading) && Alone(s, t, reading.value.minute)
    ensures
      var r := Step(c, s, now, reading, available);
      && OnlyConsumed(s, r.0, reading.value.minute)
      && if available && s.activeKey.None? then
           && r.1 == Done(Some(Offer(c, s, t, reading.value, now))) && r.0.intentSequence == s.intentSequence + 1
           && r.0.cells == s.cells[t.id := Offered(c, s, t, reading.value, now)]
         else
           && r.1 == Done(None) && r.0.intentSequence == s.intentSequence
           && r.0.cells == s.cells[t.id := Consumed(t, reading.value.minute, SuppressedBusy, now)]
  {
    EnteringFires(c, s, now, reading, available);
    MarkRises(s, t, reading.value.minute);
    var based := s.(lastStep := Some(now), baseline := reading);
    hide Startable, Step, DueTimers;
    OneStarts(based, t, reading.value.minute);
    OneIsConsumed(based, t, reading.value.minute, SuppressedBusy, now);
    hide Consume;
  }

  lemma OneIsConsumed(s: State, t: Timer, minute: int, status: Status, now: int)
    ensures var u := Consume(s, [t], minute, status, now);
            u == s.(cells := s.cells[t.id := Consumed(t, minute, status, now)], highWater := RaisedTo(s.highWater, minute))
  {
    assert IdsOf([t]) == {t.id} by { assert [t][0] == t; }
    assert TimerNamed([t], t.id) == t;
    var u := Consume(s, [t], minute, status, now);
    assert u.cells == s.cells[t.id := Consumed(t, minute, status, now)];
  }

  /** Timers that start at the same minute conflict: each of their occurrences is consumed as that, and none is offered. */
  lemma ConflictStartsNobody(c: Config, s: State, now: int, reading: Option<Clock>, available: bool, one: Timer, other: Timer)
    requires DistinctIds(s.timers) && Enters(c, s, now, reading) && one != other
    requires Startable(s, one, reading.value.minute) && Startable(s, other, reading.value.minute)
    ensures
      var r := Step(c, s, now, reading, available);
      var minute := reading.value.minute;
      && r.1 == Done(None) && OnlyConsumed(s, r.0, minute) && r.0.intentSequence == s.intentSequence
      && (forall t :: t in s.timers && Startable(s, t, minute) ==>
            t.id in r.0.cells && r.0.cells[t.id] == Consumed(t, minute, ConflictStatus, now))
      && (forall id :: (forall t :: t in s.timers && Startable(s, t, minute) ==> t.id != id) ==>
            (id in r.0.cells <==> id in s.cells) && (id in s.cells ==> r.0.cells[id] == s.cells[id]))
  {
    EnteringFires(c, s, now, reading, available);
    MarkRises(s, one, reading.value.minute);
    var minute := reading.value.minute;
    var based := s.(lastStep := Some(now), baseline := reading);
    hide Startable, Step, DueTimers;
    SeveralStart(based, one, other, minute);
    AllAreConsumed(based, minute, ConflictStatus, now);
    hide Consume;
  }

  lemma AllAreConsumed(s: State, minute: int, status: Status, now: int)
    requires DistinctIds(s.timers)
    ensures
      var u := Consume(s, DueTimers(s, s.timers, minute), minute, status, now);
      && u == s.(cells := u.cells, highWater := RaisedTo(s.highWater, minute))
      && (forall t :: t in s.timers && Startable(s, t, minute) ==> t.id in u.cells && u.cells[t.id] == Consumed(t, minute, status, now))
      && (forall id :: (forall t :: t in s.timers && Startable(s, t, minute) ==> t.id != id) ==>
            (id in u.cells <==> id in s.cells) && (id in s.cells ==> u.cells[id] == s.cells[id]))
  {
    var due := DueTimers(s, s.timers, minute);
    var u := Consume(s, due, minute, status, now);
    DueIsExact(s, s.timers, minute);
    hide DueTimers, Due, Startable;
    forall t | t in s.timers && Startable(s, t, minute)
      ensures t.id in u.cells && u.cells[t.id] == Consumed(t, minute, status, now)
    {
      StartableIsDue(s, t, minute);
      NamedIsListed(due, t);
    }
    forall id | forall t :: t in s.timers && Startable(s, t, minute) ==> t.id != id
      ensures (id in u.cells <==> id in s.cells) && (id in s.cells ==> u.cells[id] == s.cells[id])
    {
      if id in IdsOf(due) {
        var t := TimerNamed(due, id);
        StartableIsDue(s, t, minute);
      }
    }
  }

  lemma NamedIsListed(timers: seq<Timer>, t: Timer)
    requires t in timers && DistinctIds(timers)
    ensures t.id in IdsOf(timers) && TimerNamed(timers, t.id) == t
  {
    var i :| 0 <= i < |timers| && timers[i] == t;
    assert t.id in IdsOf(timers);
    var u := TimerNamed(timers, t.id);
    var j :| 0 <= j < |timers| && timers[j] == u;
  }

  /** An intent is offered exactly if one timer starts alone at an entered minute, control is available and no occurrence is
      active; it is then that timer's. */
  lemma OfferedIffAlone(c: Config, s: State, now: int, reading: Option<Clock>, available: bool)
    requires DistinctIds(s.timers)
    ensures
      var o := Step(c, s, now, reading, available).1;
      && (o.Done? && o.value.Some? <==>
            Enters(c, s, now, reading) && available && s.activeKey.None? && exists t :: Alone(s, t, reading.value.minute))
      && (forall t :: Enters(c, s, now, reading) && available && s.activeKey.None? && Alone(s, t, reading.value.minute) ==>
            o == Done(Some(Offer(c, s, t, reading.value, now))))
  {
    hide Startable, Step, Enters;
    if Enters(c, s, now, reading) {
      EnteringIsInOrder(c, s, now, reading);
      var minute := reading.value.minute;
      forall t | Alone(s, t, minute)
        ensures available && s.activeKey.None? ==> Step(c, s, now, reading, available).1 == Done(Some(Offer(c, s, t, reading.value, now)))
        ensures !(available && s.activeKey.None?) ==> Step(c, s, now, reading, available).1 == Done(None)
      {
        LoneTimerIsOffered(c, s, now, reading, available, t);
      }
      if !exists t :: Alone(s, t, minute) {
        if one :| one in s.timers && Startable(s, one, minute) {
          assert !Alone(s, one, minute);
          var other :| other in s.timers && Startable(s, other, minute) && other != one;
          ConflictStartsNobody(c, s, now, reading, available, one, other);
        } else {
          QuietStep(c, s, now, reading, available);
        }
      }
    } else {
      QuietStep(c, s, now, reading, available);
    }
  }

  // ---------------------------------------------------------------- the hand-off

  /** The record an intent was made for is still open in its own slot, and the call is not before it. */
  predicate Open(s: State, i: Intent, r: Record, now: int) {
    && i.key.timer in s.cells && s.cells[i.key.timer] == Own(r) && r.key == i.key && r.status.IntentCreated? && r.pending.Some?
    && r.consumedAt <= now && (s.lastStep.Some? ==> s.lastStep.value <= now)
  }

  /** The intent is the one offered for that record, by this scheduler. */
  predicate Genuine(s: State, i: Intent, r: Record)
    requires r.pending.Some?
  {
    && i.owner == s.owner && i.token == r.pending.value.intentToken && i.revision == r.revision
    && i.params == r.pending.value.params && i.createdAt == r.consumedAt && i.notAfter == r.pending.value.notAfter
  }

  /** Nothing has been fenced since, control is free, and the timer is the one the intent was offered for. */
  predicate StillWanted(s: State, r: Record, available: bool)
    requires r.pending.Some?
  {
    && s.armed && !s.faulted && available && s.activeKey.None? && s.epoch == r.pending.value.epoch
    && exists t :: t in s.timers && t.id == r.key.timer && t.enabled && t.revision == r.revision && t.params == r.pending.value.params
  }

  /** The civil clock has gone on for as many whole seconds as the ticks, up to one, under the same trust. */
  predicate ClockWentOn(r: Record, reading: Option<Clock>, now: int)
    requires r.pending.Some?
  {
    && reading.Some? && reading.value.trust == r.pending.value.trust
    && 0 <= reading.value.utc - r.pending.value.createdUtc - (now - r.consumedAt) / 1000 <= 1
  }

  function FinishedCell(r: Record, status: Status, now: int): Cell
    requires r.pending.Some?
  {
    Own(r.(status := status, pending := Some(r.pending.value.(finishedAt := Some(now)))))
  }

  lemma WantedIsUnchanged(s: State, i: Intent, r: Record, available: bool)
    requires r.pending.Some? && r.key == i.key
    ensures HandoffOpen(s, i, r, available) && TimerUnchanged(s, r) <==> Genuine(s, i, r) && StillWanted(s, r, available)
  {
    if TimerUnchanged(s, r) {
      var k :| 0 <= k < |s.timers| && s.timers[k].id == r.key.timer && s.timers[k].enabled
               && s.timers[k].revision == r.revision && s.timers[k].params == r.pending.value.params;
      assert s.timers[k] in s.timers;
    }
    if StillWanted(s, r, available) {
      var t :| t in s.timers && t.id == r.key.timer && t.enabled && t.revision == r.revision && t.params == r.pending.value.params;
      var k :| 0 <= k < |s.timers| && s.timers[k] == t;
    }
  }

  lemma ClocksAgree(r: Record, reading: Option<Clock>, now: int)
    requires r.pending.Some?
    ensures ClockAgrees(r, reading, now) <==> ClockWentOn(r, reading, now)
  {
  }

  /** Phase one, in full: an open intent becomes exactly one new token in its window, while it is genuine and wanted and the
      clock went on with the ticks; past its window it expires; otherwise it is rejected, and a clock that did not go on is a
      fence. */
  lemma OpenIntentIsAuthorized(s: State, i: Intent, r: Record, now: int, available: bool, reading: Option<Clock>)
    requires Open(s, i, r, now)
    ensures
      var (t, token) := Authorize(s, i, now, available, reading);
      && t.timers == s.timers && t.highWater == s.highWater && t.activeKey == s.activeKey && t.active == s.active
      && if now > r.pending.value.notAfter then
           token.None? && t == s.(cells := s.cells[i.key.timer := FinishedCell(r, Expired, now)])
         else if !(Genuine(s, i, r) && StillWanted(s, r, available)) then
           token.None? && t == s.(cells := s.cells[i.key.timer := FinishedCell(r, AuthorizationRejected, now)])
         else if !ClockWentOn(r, reading, now) then
           && token.None? && t.epoch == s.epoch + 1 && t.baseline.None?
           && t.cells == s.cells[i.key.timer := FinishedCell(r, AuthorizationRejected, now)] && t.handedOff == s.handedOff
         else
           && token == Some(Authorized(i, s.authSequence + 1, r.pending.value.epoch, s.owner))
           && t.authSequence == s.authSequence + 1 && t.cells == s.cells[i.key.timer := HandedOff(s.authSequence + 1)]
           && t.handedOff == s.handedOff[s.authSequence + 1 :=
                r.(status := AuthorizedPending,
                   pending := Some(r.pending.value.(authorization := Some(s.authSequence + 1), authorizedAt := Some(now))))]
  {
    assert Find(s, i.key) == Some(r);
    WantedIsUnchanged(s, i, r, available);
    ClocksAgree(r, reading, now);
    hide HandoffOpen, TimerUnchanged, Find, Genuine, StillWanted, ClockAgrees, ClockWentOn;
  }

  /** An intent that is not open, or too early, is left alone. */
  lemma ClosedIntentIsIgnored(s: State, i: Intent, now: int, available: bool, reading: Option<Clock>)
    requires forall token :: token in s.handedOff ==> !s.handedOff[token].status.IntentCreated?
    requires forall r :: !Open(s, i, r, now)
    ensures Authorize(s, i, now, available, reading) == (s, None)
  {
    hide HandoffOpen, TimerUnchanged, ClockAgrees;
    if i.key.timer in s.cells && s.cells[i.key.timer].Own? {
      assert !Open(s, i, s.cells[i.key.timer].record, now);
    }
  }

  /** A request that is the start these parameters stand for. */
  predicate Fits(p: Params, q: Requested) {
    && q.on && q.source == "timer" && q.mode == p.mode && q.runtime == p.runtime
    && (if p.power.Some? then q.power == p.power && q.target.None? else q.power.None? && q.target.Some? && q.target == p.target)
  }

  /** The token was handed off for this intent and is not settled yet. */
  predicate Handed(s: State, a: Authorized, r: Record, now: int) {
    && a.owner == s.owner && a.token in s.handedOff && s.handedOff[a.token] == r && r.key == a.intent.key
    && r.status.AuthorizedPending? && r.pending.Some? && r.pending.value.authorization == Some(a.token)
    && r.pending.value.epoch == a.epoch && r.pending.value.authorizedAt.Some? && r.pending.value.authorizedAt.value <= now
    && Genuine(s, a.intent, r)
  }

  /** Phase two, in full: the occurrence becomes the active one exactly if the request that resulted is its start and no other
      occurrence is active; a result that leaves an unaccounted request, or none to account for, is a fault. */
  lemma HandedTokenIsSettled(s: State, a: Authorized, r: Record, applied: bool, result: Option<Requested>, now: int)
    requires Handed(s, a, r, now)
    ensures
      var (t, accepted) := Complete(s, a, applied, result, now);
      var fits := result.Some? && Fits(r.pending.value.params, result.value);
      && (accepted <==> fits && (s.activeKey.None? || s.activeKey.value == r.key))
      && t.cells == s.cells && t.highWater == s.highWater
      && t.handedOff == s.handedOff[a.token := r.(status := if accepted then Accepted else ApplicationFailed,
                                                  pending := Some(r.pending.value.(finishedAt := Some(now))))]
      && t.activeKey == (if accepted then Some(r.key) else s.activeKey) && t.active == (if accepted then Some(a.token) else s.active)
      && (t.faulted <==> s.faulted || (if accepted then !applied else fits || applied || result.None? || result.value.on))
  {
    assert Completable(s, a, now);
    hide Completable, Settle, LatchFault, RequestMatches, Fits, Handed;
    SettledIs(s, a.token, Accepted, now);
    SettledIs(s, a.token, ApplicationFailed, now);
    if result.Some? { FittingMatches(r, result.value); }
    var failed, accepted := Settle(s, a.token, ApplicationFailed, now), Settle(s, a.token, Accepted, now);
    FaultedIs(failed);
    FaultedIs(accepted.(activeKey := Some(r.key), active := Some(a.token)));
  }

  lemma FittingMatches(r: Record, q: Requested)
    requires r.pending.Some?
    ensures RequestMatches(r, q) <==> Fits(r.pending.value.params, q)
  {
  }

  lemma SettledIs(s: State, token: nat, status: Status, now: int)
    requires token in s.handedOff && s.handedOff[token].pending.Some?
    ensures var r := s.handedOff[token];
            Settle(s, token, status, now) ==
            s.(handedOff := s.handedOff[token := r.(status := status, pending := Some(r.pending.value.(finishedAt := Some(now))))])
  {
  }

  lemma FaultedIs(s: State)
    ensures var t := LatchFault(s); t == s.(faulted := true, epoch := t.epoch)
  {
  }

  lemma UnknownTokenIsIgnored(s: State, a: Authorized, applied: bool, result: Option<Requested>, now: int)
    requires forall r :: !Handed(s, a, r, now)
    ensures Complete(s, a, applied, result, now) == (s, false)
  {
    if a.token in s.handedOff { assert !Handed(s, a, s.handedOff[a.token], now); }
  }

  /** A timer that starts is offered and, within the window of the offer and under a clock that went on, handed off. */
  lemma DueTimerIsHanded(
    c: Config, s: State, t: Timer, created: int, reading: Option<Clock>, at: int, later: Option<Clock>)
    requires DistinctIds(s.timers) && Enters(c, s, created, reading) && Alone(s, t, reading.value.minute) && s.activeKey.None?
    requires created <= at <= created + c.intentValid && later.Some? && later.value.trust == reading.value.trust
    requires 0 <= later.value.utc - reading.value.utc - (at - created) / 1000 <= 1
    ensures
      var (s1, offered) := Step(c, s, created, reading, true);
      && offered == Done(Some(Offer(c, s, t, reading.value, created)))
      && var i := offered.value.value;
         var (s2, token) := Authorize(s1, i, at, true, later);
         && token == Some(Authorized(i, s.authSequence + 1, s.epoch, s.owner)) && s2.owner == s.owner && s2.activeKey.None?
         && s2.cells == s.cells[t.id := HandedOff(s.authSequence + 1)] && s2.lastStep == Some(created)
         && s.authSequence + 1 in s2.handedOff && Handed(s2, token.value, s2.handedOff[s.authSequence + 1], at)
         && s2.handedOff[s.authSequence + 1].pending.value.params == t.params
  {
    LoneTimerIsOffered(c, s, created, reading, true, t);
    StepKeepsWatch(c, s, created, reading, true);
    var s1, i := Step(c, s, created, reading, true).0, Offer(c, s, t, reading.value, created);
    assert t in s.timers && t.enabled;
    hide Step, Startable;
    var r := s1.cells[t.id].record;
    assert Open(s1, i, r, at) && Genuine(s1, i, r) && StillWanted(s1, r, true) && ClockWentOn(r, later, at);
    OpenIntentIsAuthorized(s1, i, r, at, true, later);
    AuthorizeKeepsWatch(s1, i, at, true, later);
    hide Authorize, StillWanted, ClockWentOn;
  }

  lemma AuthorizeKeepsWatch(s: State, i: Intent, now: int, available: bool, reading: Option<Clock>)
    ensures var t := Authorize(s, i, now, available, reading).0; t.lastStep == s.lastStep && t.owner == s.owner
  {
    hide HandoffOpen, TimerUnchanged, ClockAgrees, Find, Finish, Hand;
    if Find(s, i.key).Some? && Find(s, i.key).value.pending.Some? {
      var r := Find(s, i.key).value;
      FinishKeepsWatch(s, r, Expired, now);
      FinishKeepsWatch(s, r, AuthorizationRejected, now);
      FinishKeepsWatch(Bump(s).(baseline := None), r, AuthorizationRejected, now);
      HandKeepsWatch(s, i, r, now);
    }
  }

  lemma FinishKeepsWatch(s: State, r: Record, status: Status, now: int)
    requires r.pending.Some?
    ensures var t := Finish(s, r, status, now); t.lastStep == s.lastStep && t.owner == s.owner
  {
  }

  lemma HandKeepsWatch(s: State, i: Intent, r: Record, now: int)
    requires r.pending.Some?
    ensures var t := Hand(s, i, r, now).0; t.lastStep == s.lastStep && t.owner == s.owner
  {
  }

  /** From the minute on which a timer starts to the end of what it started: the step offers it, an authorization in its window
      hands it off, the resulting request makes it the active occurrence, and its end releases it into the ledger as completed. */
  lemma DueTimerRunsItsCourse(
    c: Config, s: State, t: Timer, created: int, reading: Option<Clock>, at: int, later: Option<Clock>, q: Requested, applied: int, ended: int)
    requires DistinctIds(s.timers) && Enters(c, s, created, reading) && Alone(s, t, reading.value.minute) && s.activeKey.None?
    requires created <= at <= created + c.intentValid && at <= applied <= ended && Fits(t.params, q)
    requires later.Some? && later.value.trust == reading.value.trust
    requires 0 <= later.value.utc - reading.value.utc - (at - created) / 1000 <= 1
    ensures
      var key := Key(t.id, reading.value.minute);
      var (s1, offered) := Step(c, s, created, reading, true);
      && offered == Done(Some(Offer(c, s, t, reading.value, created)))
      && var (s2, token) := Authorize(s1, offered.value.value, at, true, later);
         && token.Some?
         && var (s3, accepted) := Complete(s2, token.value, true, Some(q), applied);
            && accepted && s3.activeKey == Some(key)
            && var (s4, released) := MarkComplete(s3, key, ended);
               && released && s4.activeKey.None? && t.id in s4.cells && s4.cells[t.id].Own?
               && s4.cells[t.id].record.key == key && s4.cells[t.id].record.status.Completed?
  {
    hide Step, Authorize, Complete, Startable, Alone;
    DueTimerIsHanded(c, s, t, created, reading, at, later);
    var s1 := Step(c, s, created, reading, true).0;
    var (s2, token) := Authorize(s1, Offer(c, s, t, reading.value, created), at, true, later);
    HandedTokenIsSettled(s2, token.value, s2.handedOff[token.value.token], true, Some(q), applied);
    CompleteKeepsWatch(s2, token.value, true, Some(q), applied);
  }

  lemma CompleteKeepsWatch(s: State, a: Authorized, applied: bool, result: Option<Requested>, now: int)
    ensures Complete(s, a, applied, result, now).0.lastStep == s.lastStep
  {
    if Completable(s, a, now) {
      SettledIs(s, a.token, Accepted, now);
      SettledIs(s, a.token, ApplicationFailed, now);
      var failed, accepted := Settle(s, a.token, ApplicationFailed, now), Settle(s, a.token, Accepted, now);
      FaultedIs(failed);
      FaultedIs(accepted.(activeKey := Some(s.handedOff[a.token].key), active := Some(a.token)));
    }
    hide Completable, RequestMatches, Settle, LatchFault;
  }

  lemma StepKeepsWatch(c: Config, s: State, now: int, reading: Option<Clock>, available: bool)
    requires Enters(c, s, now, reading)
    ensures var t := Step(c, s, now, reading, available).0;
            t.armed && !t.faulted && t.owner == s.owner && t.lastStep == Some(now) && t.baseline == reading
  {
    hide DueTimers;
  }

  // ---------------------------------------------------------------- before the first minute

  /** New timers are taken with a new revision, the ledger keeps the records of those that stay, and once armed and given one
      clock reading the scheduler enters the next minute. */
  lemma ArmedSchedulerEnters(c: Config, s: State, definitions: seq<Timer>, first: Clock, at: int, now: int, reading: Clock)
    requires !s.armed && !s.faulted && ValidTimers(c, definitions) && at <= now
    requires reading.trust == first.trust && reading.fold != 1 && 0 <= reading.utc - first.utc <= c.maxStep && reading.minute == first.minute + 1
    ensures
      var (replaced, done) := ReplaceTimers(c, s, definitions);
      var (armed, ok) := Arm(replaced);
      var (watching, nothing) := Step(c, armed, at, Some(first), true);
      && done == Done(true) && ok && nothing == Done(None) && Enters(c, watching, now, Some(reading))
      && |watching.timers| == |definitions|
      && (forall i :: 0 <= i < |definitions| ==> watching.timers[i] == definitions[i].(revision := s.configRevision + 1))
      && (forall id :: id in watching.cells <==> id in s.cells && exists i :: 0 <= i < |definitions| && definitions[i].id == id)
      && (forall id :: id in watching.cells ==> watching.cells[id] == s.cells[id])
      && watching.highWater == s.highWater
  {
    hide ValidTimers;
  }

  /** Timers replaced while armed are not looked at until a step has taken a new reading. */
  lemma ReplacementWaitsOneStep(c: Config, s: State, definitions: seq<Timer>, at: int, first: Clock, available: bool)
    requires s.armed && !s.faulted && ValidTimers(c, definitions) && s.baseline.Some? && (s.lastStep.Some? ==> s.lastStep.value <= at)
    ensures
      var replaced := ReplaceTimers(c, s, definitions).0;
      var (watching, nothing) := Step(c, replaced, at, Some(first), available);
      && nothing == Done(None) && watching.cells == replaced.cells && watching.highWater == s.highWater
      && watching.baseline == Some(first) && !watching.fencePending && watching.epoch == s.epoch + 1
  {
    hide ValidTimers;
  }
}
