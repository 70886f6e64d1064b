/** Where the revision of every START came from, over every run. */
module HeaterGrants {
  import opened Options
  import opened ApplicationState
  import opened HeaterModel
  import opened HeaterMonitor
  import opened HeaterSafety
  import opened HeaterTheorems

  /** The input is a start request, a session update or a fault retry, and it was granted. */
  predicate Grants(c: Config, s: State, i: Input) {
    match i
    case StartRequested(wanted, notAfter, at) => RequestStart(c, s, wanted, notAfter, at).1 == Done(true)
    case SessionUpdated(expectedRevision, target, extend, now) =>
      UpdateActiveSession(c, s, expectedRevision, target, extend, now).1 == Done(true)
    case FaultRetried(now) => RetryControlFault(s, now).1 == Done(true)
    case _ => false
  }

  /** Input `j` of the run was granted and made the revision. */
  predicate GrantedAt(c: Config, inputs: seq<Input>, j: nat, revision: int)
    requires j < |inputs|
  {
    var before := Execute(c, INITIAL, inputs[..j]);
    Grants(c, before, inputs[j]) && before.revision == revision - 1 && Execute(c, INITIAL, inputs[..j + 1]).revision == revision
  }

  ghost predicate Granted(c: Config, inputs: seq<Input>, revision: int) {
    exists j :: 0 <= j < |inputs| && GrantedAt(c, inputs, j, revision)
  }

  lemma GrantMakesRevision(c: Config, s: State, i: Input)
    ensures Grants(c, s, i) ==> Transition(c, s, i).revision == s.revision + 1
    ensures i.StartRequested? || i.SessionUpdated? || i.FaultRetried? ==>
      var t := Transition(c, s, i);
      (Grants(c, s, i) || t.history == s.history) && forall k :: |s.history| <= k < |t.history| ==> !t.history[k].CallStart?
  {
  }

  /** The history grows, but by no START. */
  ghost predicate AddsNoStart(before: seq<Event>, after: seq<Event>) {
    before <= after && forall k :: |before| <= k < |after| ==> !after[k].CallStart?
  }

  lemma StatusAddsNoCall(c: Config, s: State, raw: int, now: int)
    ensures AddsNoStart(s.history, HearStatus(c, s, raw, now).0.history)
  {
    hide AcceptStatus;
    if s.waitStarted.Some? {
      AcceptedStatusHistory(c, s, raw, now);
    }
  }

  lemma FrameAddsNoCall(c: Config, s: State, inbound: Inbound, now: int)
    ensures AddsNoStart(s.history, HandleFrame(c, s, inbound, now).0.history)
  {
    hide HearStatus, KnownFrameIsConsistent;
    if inbound.Parsed? && inbound.frame.status.Some? {
      StatusAddsNoCall(c, s, inbound.frame.status.value.heaterState, now);
    }
  }

  lemma StartsComeLast(c: Config, s: State, now: int, answer: SensorAnswer, ok: bool)
    ensures var t := Step(c, s, now, answer, ok).0;
      forall k :: |s.history| <= k < |t.history| && t.history[k].CallStart? ==> k == |t.history| - 1
  {
    hide Settle, Act;
    var settled := Settle(c, s, now, answer);
    SettleOnlyRevises(c, s, now, answer);
    ActCallsWhatItReturns(c, settled, now, ok);
  }

  /** No transition other than a cycle adds a START, and a cycle adds it as its last event. */
  lemma NewStartIsLast(c: Config, s: State, i: Input, k: nat)
    requires |s.history| <= k < |Transition(c, s, i).history| && Transition(c, s, i).history[k].CallStart?
    ensures k == |Transition(c, s, i).history| - 1
  {
    GrantMakesRevision(c, s, i);
    match i
    case FrameArrived(inbound, now) => FrameAddsNoCall(c, s, inbound, now);
    case Stepped(now, answer, ok) => StartsComeLast(c, s, now, answer, ok);
    case _ =>
  }

  /** A request that stands under a new revision after a transition was granted by it. */
  lemma NewRequestIsGranted(c: Config, s: State, i: Input)
    requires Safe(c, s) && Transition(c, s, i).requested.on && Transition(c, s, i).revision != s.revision
    ensures Grants(c, s, i)
  {
    hide Safe, Watch, Transition;
    var t := Transition(c, s, i);
    OnlyCallersRevise(c, s, i);
    GrantMakesRevision(c, s, i);
    TransitionKeepsSafe(c, s, i);
    RequestsAreWatched(c, s);
    RequestsAreWatched(c, t);
    if !(i.StartRequested? || i.SessionUpdated? || i.FaultRetried?) {
      WithdrawnStaysOff(c, s.history, t.history);
    }
  }

  lemma RequestsAreWatched(c: Config, s: State)
    requires Safe(c, s)
    ensures var m := Watch(c, s.history); m.ok && m.revision == s.revision && m.requested == s.requested
  {
    hide Watch;
  }

  /** If every revision in the growth of a history withdraws the request, a request that stands is the old one. */
  lemma {:induction false} WithdrawnStaysOff(c: Config, before: seq<Event>, after: seq<Event>)
    requires Withdraws(before, after)
    ensures Watch(c, after).requested.on ==> Watch(c, after).revision == Watch(c, before).revision
    ensures !Watch(c, before).requested.on ==> !Watch(c, after).requested.on
    decreases |after|
  {
    if |before| < |after| {
      var shorter := after[..|after| - 1];
      WithdrawnStaysOff(c, before, shorter);
      assert after == shorter + [after[|after| - 1]];
      WatchNext(c, shorter, after[|after| - 1]);
    } else {
      assert before == after;
    }
  }

  lemma GrantsStay(c: Config, first: seq<Input>, i: Input, revision: int)
    requires Granted(c, first, revision)
    ensures Granted(c, first + [i], revision)
  {
    hide Execute, Grants;
    var j :| 0 <= j < |first| && GrantedAt(c, first, j, revision);
    assert (first + [i])[..j] == first[..j] && (first + [i])[..j + 1] == first[..j + 1];
    assert GrantedAt(c, first + [i], j, revision);
  }

  /** The request that stands was granted, and so was the revision of every START so far. */
  lemma {:induction false} RevisionsAreGranted(c: Config, inputs: seq<Input>)
    requires ValidConfig(c)
    ensures var s := Execute(c, INITIAL, inputs);
      && (s.requested.on ==> Granted(c, inputs, s.revision))
      && forall k :: 0 <= k < |s.history| && s.history[k].CallStart? ==> Granted(c, inputs, s.history[k].revision)
    decreases |inputs|
  {
    if inputs != [] {
      var first, i := inputs[..|inputs| - 1], inputs[|inputs| - 1];
      assert inputs == first + [i];
      RevisionsAreGranted(c, first);
      ExecuteSplit(c, INITIAL, first, i);
      EveryRunIsSafe(c, first);
      EveryRunIsSafe(c, inputs);
      var s, t := Execute(c, INITIAL, first), Execute(c, INITIAL, inputs);
      hide Execute, Transition, Safe, Grants, Granted;
      if t.requested.on { StandingIsGranted(c, first, i); }
      StartsStayGranted(c, first, i, s, t);
    }
  }

  lemma StartsStayGranted(c: Config, first: seq<Input>, i: Input, s: State, t: State)
    requires t == Transition(c, s, i) && Safe(c, t) && (t.requested.on ==> Granted(c, first + [i], t.revision))
    requires forall k :: 0 <= k < |s.history| && s.history[k].CallStart? ==> Granted(c, first, s.history[k].revision)
    ensures forall k :: 0 <= k < |t.history| && t.history[k].CallStart? ==> Granted(c, first + [i], t.history[k].revision)
  {
    hide Execute, Transition, Safe, Granted;
    OnlyCallersRevise(c, s, i);
    forall k | 0 <= k < |t.history| && t.history[k].CallStart? ensures Granted(c, first + [i], t.history[k].revision) {
      if k < |s.history| {
        GrantsStay(c, first, i, s.history[k].revision);
      } else {
        NewStartIsLast(c, s, i, k);
        LastStartIsCurrent(c, t);
      }
    }
  }

  lemma StandingIsGranted(c: Config, first: seq<Input>, i: Input)
    requires ValidConfig(c) && Execute(c, INITIAL, first + [i]).requested.on
    requires var s := Execute(c, INITIAL, first); s.requested.on ==> Granted(c, first, s.revision)
    ensures Granted(c, first + [i], Execute(c, INITIAL, first + [i]).revision)
  {
    hide Execute, Transition, Safe, Grants;
    ExecuteSplit(c, INITIAL, first, i);
    EveryRunIsSafe(c, first);
    var s, t := Execute(c, INITIAL, first), Execute(c, INITIAL, first + [i]);
    if t.revision == s.revision {
      SameRevisionSameRequest(c, s, i);
      GrantsStay(c, first, i, s.revision);
    } else {
      NewRequestIsGranted(c, s, i);
      GrantMakesRevision(c, s, i);
      assert (first + [i])[..|first|] == first && (first + [i])[..|first| + 1] == first + [i];
      assert GrantedAt(c, first + [i], |first|, t.revision);
    }
  }

  lemma SameRevisionSameRequest(c: Config, s: State, i: Input)
    requires Safe(c, s) && Transition(c, s, i).revision == s.revision
    ensures Transition(c, s, i).requested == s.requested
  {
    hide Transition, Safe;
    var t := Transition(c, s, i);
    OnlyCallersRevise(c, s, i);
    TransitionKeepsSafe(c, s, i);
    RequestsAreWatched(c, s);
    RequestsAreWatched(c, t);
    LongerHistoryNewerRevision(c, s.history, t.history);
  }

  /** A START just sent carries the standing request's revision. */
  lemma LastStartIsCurrent(c: Config, s: State)
    requires Safe(c, s) && s.history != [] && s.history[|s.history| - 1].CallStart?
    ensures s.requested.on && s.history[|s.history| - 1].revision == s.revision
  {
    hide Safe;
    RequestsAreWatched(c, s);
  }

  /** In every run each START belongs to a revision that one granted start request, session update or fault retry made. */
  lemma EveryStartWasGranted(c: Config, inputs: seq<Input>, k: nat)
    requires ValidConfig(c)
    requires k < |Execute(c, INITIAL, inputs).history| && Execute(c, INITIAL, inputs).history[k].CallStart?
    ensures Granted(c, inputs, Execute(c, INITIAL, inputs).history[k].revision)
  {
    hide Execute, Granted;
    RevisionsAreGranted(c, inputs);
  }

  /** As long as no session update is granted, only requests and retries authorise a further START generation. */
  lemma WithoutUpdatesOnlyRequestsAndRetries(c: Config, inputs: seq<Input>, k: nat)
    requires ValidConfig(c)
    requires k < |Execute(c, INITIAL, inputs).history| && Execute(c, INITIAL, inputs).history[k].CallStart?
    requires forall j :: 0 <= j < |inputs| && inputs[j].SessionUpdated? ==> !Grants(c, Execute(c, INITIAL, inputs[..j]), inputs[j])
    ensures exists j :: 0 <= j < |inputs| && (inputs[j].StartRequested? || inputs[j].FaultRetried?)
                        && GrantedAt(c, inputs, j, Execute(c, INITIAL, inputs).history[k].revision)
  {
    hide Execute;
    EveryStartWasGranted(c, inputs, k);
    var j :| 0 <= j < |inputs| && GrantedAt(c, inputs, j, Execute(c, INITIAL, inputs).history[k].revision);
    assert Grants(c, Execute(c, INITIAL, inputs[..j]), inputs[j]);
  }

  /** The branch that lets a request outlive an OFF status, before the status: nothing blocks a restart, and the heater was
      not known to be active, nor its session confirmed before a communication fault, unless a SHUTDOWN is under way. */
  predicate OffIsNoStop(s: State) {
    && !s.restartBlocked
    && (AttemptIs(s, ShutdownCommand)
        || !(IsActive(s.actual.state) || (s.communicationFault && s.session.Some? && s.session.value.confirmed)))
  }

  /** A standing request outlives an accepted OFF status, to be started again if its revision is new, under exactly that
      condition. */
  lemma RequestOutlivesOff(c: Config, s: State, raw: int, now: int)
    requires s.waitStarted.Some? && s.requested.on && StateOfRaw(raw).Off?
    ensures AcceptStatus(c, s, raw, now).requested.on <==> OffIsNoStop(s)
  {
    var taken := TakeStatus(c, s, raw, now);
    var s1 := AfterUnexpectedStop(taken, s.actual.state, s.communicationFault);
    var s2 := AfterOff(s1);
    assert s1.requested.on <==> !UnexpectedStop(taken, s.actual.state, s.communicationFault);
    assert s2.requested.on <==> s1.requested.on && !s1.restartBlocked;
    RequestUnresolved(s2, now);
    FinishKeepsRequest(c, ProcessConfirmation(taken, now, s.actual.state, s.communicationFault), now);
    hide AfterOff, ResolveFault, ResolveAttempt, ConfirmSession, FinishStatus;
  }

  lemma RequestUnresolved(s: State, now: int)
    ensures ConfirmSession(ResolveAttempt(ResolveFault(s), now)).requested == s.requested
  {
  }

  lemma FinishKeepsRequest(c: Config, s: State, now: int)
    ensures FinishStatus(c, s, now).requested == s.requested
  {
  }
}
