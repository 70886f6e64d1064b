/** What holds of every run of the control authority, whatever frames arrive and whichever port calls fail. */
module HeaterTheorems {
  import opened Options
  import opened ApplicationState
  import opened HeaterModel
  import opened HeaterMonitor
  import opened HeaterSafety

  /** One call on the controller, with everything its environment contributes to it. */
  datatype Input =
    | StartRequested(wanted: Requested, notAfter: Option<int>, at: Option<int>)
    | StopRequested
    | SessionUpdated(expectedRevision: int, target: Option<int>, extend: int, now: int)
    | FaultRetried(now: int)
    | FrameArrived(inbound: Inbound, now: int)
    | ErrorReported(at: Option<int>)
    | Stepped(now: int, answer: SensorAnswer, ok: bool)

  function Transition(c: Config, s: State, i: Input): State {
    match i
    case StartRequested(wanted, notAfter, at) => RequestStart(c, s, wanted, notAfter, at).0
    case StopRequested => RequestStop(s)
    case SessionUpdated(expectedRevision, target, extend, now) => UpdateActiveSession(c, s, expectedRevision, target, extend, now).0
    case FaultRetried(now) => RetryControlFault(s, now).0
    case FrameArrived(inbound, now) => HandleFrame(c, s, inbound, now).0
    case ErrorReported(at) => MarkCommunicationError(s, at)
    case Stepped(now, answer, ok) => Step(c, s, now, answer, ok).0
  }

  function Execute(c: Config, s: State, inputs: seq<Input>): State
    decreases |inputs|
  {
    if inputs == [] then s else Execute(c, Transition(c, s, inputs[0]), inputs[1..])
  }

  /** A run with one more input is the run, and then that input. */
  lemma {:induction false} ExecuteSplit(c: Config, s: State, first: seq<Input>, i: Input)
    ensures Execute(c, s, first + [i]) == Transition(c, Execute(c, s, first), i)
    decreases |first|
  {
    if first == [] {
      assert ([i] + [])[1..] == [];
      assert first + [i] == [i];
    } else {
      assert (first + [i])[1..] == first[1..] + [i];
      ExecuteSplit(c, Transition(c, s, first[0]), first[1..], i);
    }
  }

  lemma TransitionKeepsSafe(c: Config, s: State, i: Input)
    requires Safe(c, s)
    ensures Safe(c, Transition(c, s, i))
  {
    match i
    case StartRequested(wanted, notAfter, at) => RequestStartKeepsSafe(c, s, wanted, notAfter, at);
    case StopRequested => RequestStopKeepsSafe(c, s);
    case SessionUpdated(expectedRevision, target, extend, now) => UpdateKeepsSafe(c, s, expectedRevision, target, extend, now);
    case FaultRetried(now) => RetryKeepsSafe(c, s, now);
    case FrameArrived(inbound, now) => HandleFrameKeepsSafe(c, s, inbound, now);
    case ErrorReported(at) => ErrorKeepsSafe(c, s, at);
    case Stepped(now, answer, ok) => StepKeepsSafe(c, s, now, answer, ok);
  }

  lemma {:induction false} RunKeepsSafe(c: Config, s: State, inputs: seq<Input>)
    requires Safe(c, s)
    ensures Safe(c, Execute(c, s, inputs))
    decreases |inputs|
  {
    if inputs != [] {
      TransitionKeepsSafe(c, s, inputs[0]);
      RunKeepsSafe(c, Transition(c, s, inputs[0]), inputs[1..]);
    }
  }

  lemma EveryRunIsSafe(c: Config, inputs: seq<Input>)
    requires ValidConfig(c)
    ensures Safe(c, Execute(c, INITIAL, inputs))
  {
    InitialIsSafe(c);
    RunKeepsSafe(c, INITIAL, inputs);
  }

  /** At most the configured number of START calls, and of SHUTDOWN calls, ever reach the port for one
      revision of Requested State; a revision not yet reached has none. */
  lemma AttemptsAreBoundedPerRevision(c: Config, inputs: seq<Input>, revision: int)
    requires ValidConfig(c)
    ensures var s := Execute(c, INITIAL, inputs);
            && Starts(s.history, revision) <= c.maxAttempts && Shutdowns(s.history, revision) <= c.maxAttempts
            && (revision > s.revision ==> Starts(s.history, revision) == 0 && Shutdowns(s.history, revision) == 0)
  {
    EveryRunIsSafe(c, inputs);
    CountersAreCounts(c, Execute(c, INITIAL, inputs).history, revision);
  }

  // ---------------------------------------------------------------- the gate of every send, read off the history

  /** history[j] is the last accepted status before k. */
  ghost predicate LastStatusBefore(history: seq<Event>, j: int, k: int) {
    0 <= j < k <= |history| && history[j].StatusAccepted? && forall i :: j < i < k ==> !history[i].StatusAccepted?
  }

  /** history[j] is the last revision of Requested State before k. */
  ghost predicate LastRevisionBefore(history: seq<Event>, j: int, k: int) {
    0 <= j < k <= |history| && history[j].Revised? && forall i :: j < i < k ==> !history[i].Revised?
  }

  /** What the monitor remembers is in the history it watched. */
  lemma {:induction false} MonitorRemembers(c: Config, history: seq<Event>)
    ensures var m := Watch(c, history);
            && (m.status.Some? ==>
                  exists j :: LastStatusBefore(history, j, |history|) && history[j].state == m.status.value.state && history[j].at == m.status.value.at)
            && (m.requested.on ==>
                  exists j :: LastRevisionBefore(history, j, |history|) && history[j].revision == m.revision && history[j].requested == m.requested)
            && (forall at :: at in m.asked ==>
                  exists i :: 0 <= i < |history| && history[i] == CallStatus(at, true)
                              && forall j :: i < j < |history| ==> !history[j].StatusAccepted?)
    decreases |history|
  {
    if history != [] {
      var n := |history| - 1;
      var before := history[..n];
      MonitorRemembers(c, before);
      var p, m := Watch(c, before), Watch(c, history);
      if m.status.Some? {
        if history[n].StatusAccepted? { assert LastStatusBefore(history, n, n + 1); } else {
          var j :| LastStatusBefore(before, j, n) && before[j].state == p.status.value.state && before[j].at == p.status.value.at;
          assert LastStatusBefore(history, j, n + 1);
        }
      }
      if m.requested.on {
        if history[n].Revised? { assert LastRevisionBefore(history, n, n + 1); } else {
          var j :| LastRevisionBefore(before, j, n) && before[j].revision == p.revision && before[j].requested == p.requested;
          assert LastRevisionBefore(history, j, n + 1);
        }
      }
      forall at | at in m.asked
        ensures exists i :: 0 <= i < |history| && history[i] == CallStatus(at, true) && forall j :: i < j < |history| ==> !history[j].StatusAccepted?
      {
        if at in p.asked {
          var i :| 0 <= i < |before| && before[i] == CallStatus(at, true) && forall j :: i < j < |before| ==> !before[j].StatusAccepted?;
          assert history[i] == CallStatus(at, true);
        } else {
          assert history[n] == CallStatus(at, true);
        }
      }
    }
  }

  ghost predicate OffJustifies(c: Config, h: seq<Event>, k: nat)
    requires k < |h| && h[k].CallStart?
  {
    exists j :: LastStatusBefore(h, j, k) && h[j].state == Off && 0 <= h[k].at - h[j].at < c.heartbeat
  }

  ghost predicate RequestJustifies(h: seq<Event>, k: nat)
    requires k < |h| && h[k].CallStart?
  {
    exists r :: LastRevisionBefore(h, r, k) && h[r].requested.on && h[r].revision == h[k].revision
                && ParametersOf(h[r].requested) == h[k].parameters
  }

  lemma StartIsJustified(c: Config, h: seq<Event>, k: nat)
    requires Watch(c, h).ok && k < |h| && h[k].CallStart?
    ensures h[k].at < h[k].expires && OffJustifies(c, h, k) && RequestJustifies(h, k)
  {
    EveryEventWasPermitted(c, h, k);
    MonitorRemembers(c, h[..k]);
    var m := Watch(c, h[..k]);
    var j :| LastStatusBefore(h[..k], j, k) && h[..k][j].state == m.status.value.state && h[..k][j].at == m.status.value.at;
    assert LastStatusBefore(h, j, k);
    var r :| LastRevisionBefore(h[..k], r, k) && h[..k][r].revision == m.revision && h[..k][r].requested == m.requested;
    assert LastRevisionBefore(h, r, k);
  }

  /** Every START follows a solicited, timely STATUS younger than one heartbeat that said OFF, with the
      newest revision of Requested State ON and its own parameters, under a session not yet expired. */
  lemma EveryStartIsJustified(c: Config, inputs: seq<Input>, k: nat)
    requires ValidConfig(c)
    requires k < |Execute(c, INITIAL, inputs).history| && Execute(c, INITIAL, inputs).history[k].CallStart?
    ensures var h := Execute(c, INITIAL, inputs).history;
            h[k].at < h[k].expires && OffJustifies(c, h, k) && RequestJustifies(h, k)
  {
    EveryRunIsSafe(c, inputs);
    StartIsJustified(c, Execute(c, INITIAL, inputs).history, k);
  }

  /** Every SHUTDOWN is sent with Requested OFF on such a STATUS that said RUNNING. */
  lemma EveryShutdownIsJustified(c: Config, inputs: seq<Input>, k: nat)
    requires ValidConfig(c)
    requires k < |Execute(c, INITIAL, inputs).history| && Execute(c, INITIAL, inputs).history[k].CallShutdown?
    ensures var h := Execute(c, INITIAL, inputs).history;
            && (exists j :: LastStatusBefore(h, j, k) && h[j].state == Running && 0 <= h[k].at - h[j].at < c.heartbeat)
            && (forall r :: LastRevisionBefore(h, r, k) ==> !h[r].requested.on && h[r].revision == h[k].revision)
  {
    hide Execute, Watch;
    EveryRunIsSafe(c, inputs);
    var h := Execute(c, INITIAL, inputs).history;
    EveryEventWasPermitted(c, h, k);
    MonitorRemembers(c, h[..k]);
    var m := Watch(c, h[..k]);
    var j :| LastStatusBefore(h[..k], j, k) && h[..k][j].state == m.status.value.state && h[..k][j].at == m.status.value.at;
    assert LastStatusBefore(h, j, k);
    forall r | LastRevisionBefore(h, r, k) ensures !h[r].requested.on && h[r].revision == h[k].revision {
      RequestIsLastRevision(c, h[..k], r);
    }
  }

  lemma {:induction false} RequestIsLastRevision(c: Config, history: seq<Event>, r: int)
    requires LastRevisionBefore(history, r, |history|)
    ensures Watch(c, history).requested == history[r].requested && Watch(c, history).revision == history[r].revision
    decreases |history|
  {
    var n := |history| - 1;
    if r < n {
      assert LastRevisionBefore(history[..n], r, n);
      RequestIsLastRevision(c, history[..n], r);
    }
  }

  /** Every accepted STATUS answers a STATUS call made since the previous one, within the response timeout. */
  lemma EveryStatusIsSolicited(c: Config, inputs: seq<Input>, k: nat)
    requires ValidConfig(c)
    requires k < |Execute(c, INITIAL, inputs).history| && Execute(c, INITIAL, inputs).history[k].StatusAccepted?
    ensures var h := Execute(c, INITIAL, inputs).history;
            && h[k].at - h[k].askedAt < c.responseTimeout
            && exists i :: 0 <= i < k && h[i] == CallStatus(h[k].askedAt, true) && forall j :: i < j < k ==> !h[j].StatusAccepted?
  {
    hide Execute, Watch;
    EveryRunIsSafe(c, inputs);
    var h := Execute(c, INITIAL, inputs).history;
    EveryEventWasPermitted(c, h, k);
    MonitorRemembers(c, h[..k]);
    var i :| 0 <= i < k && h[..k][i] == CallStatus(h[k].askedAt, true) && forall j :: i < j < k ==> !h[..k][j].StatusAccepted?;
    assert h[i] == CallStatus(h[k].askedAt, true);
  }

  /** An OFF status and, after it, a new request ON lie between position i and the end. */
  ghost predicate OffThenRequest(h: seq<Event>, i: int, end: int) {
    exists j, r :: 0 <= i < j < r < end <= |h| && h[j].StatusAccepted? && h[j].state == Off && h[r].Revised? && h[r].requested.on
  }

  ghost predicate OffSeen(h: seq<Event>, i: int) {
    exists j :: 0 <= i < j < |h| && h[j].StatusAccepted? && h[j].state == Off
  }

  /** The gate opens again after a SHUTDOWN only by an OFF status followed by a request ON. */
  lemma {:induction false} GateNeedsOffThenRequest(c: Config, h: seq<Event>, i: nat)
    requires i < |h| && h[i].CallShutdown?
    ensures Watch(c, h).gate.Free? ==> OffThenRequest(h, i, |h|)
    ensures Watch(c, h).gate.AwaitingRequest? ==> OffSeen(h, i)
    decreases |h|
  {
    var n := |h| - 1;
    if i < n {
      var before := h[..n];
      GateNeedsOffThenRequest(c, before, i);
      var p, m := Watch(c, before).gate, Watch(c, h).gate;
      if m.Free? && p.Free? {
        var j, r :| 0 <= i < j < r < n && before[j].StatusAccepted? && before[j].state == Off && before[r].Revised? && before[r].requested.on;
        assert h[j].StatusAccepted? && h[j].state == Off && h[r].Revised? && h[r].requested.on;
      } else if m.Free? {
        var j :| 0 <= i < j < |before| && before[j].StatusAccepted? && before[j].state == Off;
        assert h[j].StatusAccepted? && h[j].state == Off && h[n].Revised? && h[n].requested.on;
      } else if m.AwaitingRequest? {
        if p.AwaitingRequest? {
          var j :| 0 <= i < j < |before| && before[j].StatusAccepted? && before[j].state == Off;
          assert h[j].StatusAccepted? && h[j].state == Off;
        } else {
          assert h[n].StatusAccepted? && h[n].state == Off;
        }
      }
    }
  }

  /** Between a SHUTDOWN and any later START an OFF status was accepted and, after it, Requested State
      was newly revised to ON. */
  lemma NoRestartWithoutOffAndRequest(c: Config, inputs: seq<Input>, i: nat, k: nat)
    requires ValidConfig(c)
    requires i < k < |Execute(c, INITIAL, inputs).history|
    requires Execute(c, INITIAL, inputs).history[i].CallShutdown? && Execute(c, INITIAL, inputs).history[k].CallStart?
    ensures OffThenRequest(Execute(c, INITIAL, inputs).history, i, k)
  {
    EveryRunIsSafe(c, inputs);
    var h := Execute(c, INITIAL, inputs).history;
    EveryEventWasPermitted(c, h, k);
    GateNeedsOffThenRequest(c, h[..k], i);
    var j, r :| 0 <= i < j < r < k && h[..k][j].StatusAccepted? && h[..k][j].state == Off && h[..k][r].Revised? && h[..k][r].requested.on;
    assert h[j].StatusAccepted? && h[j].state == Off && h[r].Revised? && h[r].requested.on;
  }

  // ---------------------------------------------------------------- one port call per cycle

  function Calls(h: seq<Event>): nat {
    if h == [] then 0
    else
      Calls(h[..|h| - 1]) + (if h[|h| - 1].StatusAccepted? || h[|h| - 1].Revised? then 0 else 1)
  }

  /** `after` is `before` with requests withdrawn and nothing else. */
  ghost predicate OnlyRevised(before: seq<Event>, after: seq<Event>) {
    before <= after && forall i :: |before| <= i < |after| ==> after[i].Revised? && !after[i].requested.on
  }

  /** History grows, and every revision in the growth withdraws the request. */
  ghost predicate Withdraws(before: seq<Event>, after: seq<Event>) {
    before <= after && forall i :: |before| <= i < |after| && after[i].Revised? ==> !after[i].requested.on
  }

  lemma {:induction false} RevisionsAreNoCalls(before: seq<Event>, after: seq<Event>)
    requires OnlyRevised(before, after)
    ensures Calls(after) == Calls(before)
    decreases |after|
  {
    if |before| < |after| {
      RevisionsAreNoCalls(before, after[..|after| - 1]);
    } else {
      assert before == after;
    }
  }

  lemma StopOnlyRevises(s: State)
    ensures OnlyRevised(s.history, RequestStop(s).history)
  {
  }

  lemma ExpiryOnlyRevises(c: Config, s: State, now: int)
    ensures OnlyRevised(s.history, CheckSessionExpiry(c, s, now).history)
  {
    if s.session.Some? { StopOnlyRevises(s.(session := Some(s.session.value.(expired := true)))); }
  }

  lemma PolicyOnlyRevises(c: Config, s: State, now: int, answer: SensorAnswer)
    ensures OnlyRevised(s.history, ApplySensorPolicy(c, s, now, answer).history)
  {
    var role := ActiveRole(s);
    if role.Some? {
      var sensor := ReadActiveSensor(c, answer, role.value, now);
      var observed := s.(activeSensor := Some(sensor));
      StopOnlyRevises(observed);
      assert StopForSensor(c, observed, now, role.value, EffectiveHealth(s, sensor)).history in {s.history, RequestStop(observed).history};
    }
  }

  lemma EnsureOnlyRevises(c: Config, s: State, now: int)
    ensures OnlyRevised(s.history, EnsureActiveSession(c, s, now).history)
  {
    StopOnlyRevises(s);
  }

  lemma ConfirmationOnlyRevises(c: Config, s: State, now: int)
    ensures CheckControlConfirmation(c, s, now).history == s.history
  {
  }

  lemma PreludeOnlyRevises(c: Config, s: State, now: int)
    ensures OnlyRevised(s.history, CheckResponseTimeout(c, CheckStartDeadline(s, now), now).history)
  {
    StopOnlyRevises(s);
  }

  lemma OnlyRevisedTwice(before: seq<Event>, between: seq<Event>, after: seq<Event>)
    requires OnlyRevised(before, between) && OnlyRevised(between, after)
    ensures OnlyRevised(before, after)
  {
  }

  lemma SettleOnlyRevises(c: Config, s: State, now: int, answer: SensorAnswer)
    ensures OnlyRevised(s.history, Settle(c, s, now, answer).history)
  {
    hide OnlyRevised, CheckStartDeadline, CheckResponseTimeout, CheckSessionExpiry, ApplySensorPolicy, EnsureActiveSession,
         CheckControlConfirmation;
    PreludeOnlyRevises(c, s, now);
    var s2 := CheckResponseTimeout(c, CheckStartDeadline(s, now), now);
    ExpiryOnlyRevises(c, s2, now);
    var s3 := CheckSessionExpiry(c, s2, now);
    PolicyOnlyRevises(c, s3, now, answer);
    var s4 := ApplySensorPolicy(c, s3, now, answer);
    EnsureOnlyRevises(c, s4, now);
    var s5 := EnsureActiveSession(c, s4, now);
    ConfirmationOnlyRevises(c, s5, now);
    OnlyRevisedTwice(s.history, s2.history, s3.history);
    OnlyRevisedTwice(s.history, s3.history, s4.history);
    OnlyRevisedTwice(s.history, s4.history, s5.history);
  }

  ghost predicate OneCall(before: seq<Event>, after: seq<Event>) {
    |after| == |before| + 1 && before <= after && !after[|before|].Revised? && !after[|before|].StatusAccepted?
  }

  /** A control decision that sent added one event, any other added none. */
  ghost predicate AddsItsCall(s: State, r: (State, Control)) {
    if r.1.Sent? then OneCall(s.history, r.0.history) else r.0.history == s.history
  }

  lemma SendAddsItsCall(c: Config, s: State, command: Command, now: int, ok: bool)
    ensures AddsItsCall(s, SendControl(c, s, command, now, ok))
  {
  }

  lemma DecideAddsItsCall(c: Config, s: State, now: int, ok: bool)
    ensures AddsItsCall(s, DecideControl(c, s, now, ok))
  {
    var d := if !s.actual.state.Starting? || s.requested.on then s.(startingStopSince := None) else s;
    var verdict := Decide(c, s, now);
    if verdict.Send? { SendAddsItsCall(c, d, verdict.command, now, ok); }
  }

  lemma EvaluateAddsItsCall(c: Config, s: State, now: int, ok: bool)
    ensures AddsItsCall(s, EvaluateControl(c, s, now, ok))
  {
    var e := s.(pendingControlDue := None);
    DecideAddsItsCall(c, e, now, ok);
    if e.attempt.Some? { SendAddsItsCall(c, e, e.attempt.value.command, now, ok); }
  }

  lemma SynchronizeAddsItsCall(c: Config, s: State, now: int, ok: bool)
    ensures var r := Synchronize(c, s, now, ok);
            if r.1.None? then r.0.history == s.history else OneCall(s.history, r.0.history)
  {
  }

  /** The port sees exactly the operation a cycle returns: none, or one. */
  lemma ActCallsWhatItReturns(c: Config, s: State, now: int, ok: bool)
    ensures var r := Act(c, s, now, ok);
            if r.1 == Refused || r.1 == Done(None) then r.0.history == s.history else OneCall(s.history, r.0.history)
  {
    EvaluateAddsItsCall(c, s, now, ok);
    SynchronizeAddsItsCall(c, s, now, ok);
    SynchronizeAddsItsCall(c, s.(pendingControlDue := None, nextRequestDue := if s.expected.None? then Some(now) else s.nextRequestDue), now, ok);
    SynchronizeAddsItsCall(c, EvaluateControl(c, s, now, ok).0, now, ok);
  }

  lemma OneCallAfterRevisions(before: seq<Event>, settled: seq<Event>, after: seq<Event>, called: bool)
    requires OnlyRevised(before, settled)
    requires if called then OneCall(settled, after) else after == settled
    ensures Withdraws(before, after) && Calls(after) == Calls(before) + (if called then 1 else 0)
  {
    RevisionsAreNoCalls(before, settled);
    if called { assert after[..|after| - 1] == settled; }
  }

  /** Each cycle makes at most one port request, and returns it. */
  lemma StepMakesAtMostOneCall(c: Config, s: State, now: int, answer: SensorAnswer, ok: bool)
    ensures var r := Step(c, s, now, answer, ok);
            var called := r.1 != Refused && r.1 != Done(None);
            Withdraws(s.history, r.0.history) && Calls(r.0.history) == Calls(s.history) + (if called then 1 else 0)
  {
    var settled := Settle(c, s, now, answer);
    SettleOnlyRevises(c, s, now, answer);
    ActCallsWhatItReturns(c, settled, now, ok);
    var r := Act(c, settled, now, ok);
    OneCallAfterRevisions(s.history, settled.history, r.0.history, r.1 != Refused && r.1 != Done(None));
  }

  // ---------------------------------------------------------------- revisions

  lemma OffOnlyRevises(s: State)
    ensures OnlyRevised(s.history, AfterOff(s).history)
  {
    StopOnlyRevises(s);
  }

  lemma UnexpectedOnlyRevises(s: State, previous: HeaterState, recovering: bool)
    ensures OnlyRevised(s.history, AfterUnexpectedStop(s, previous, recovering).history)
  {
    hide UnexpectedStop;
    StopOnlyRevises(s);
  }

  lemma ResolvingKeepsHistory(s: State, now: int)
    ensures ConfirmSession(ResolveAttempt(ResolveFault(s), now)).history == s.history
  {
  }

  lemma OnlyRevisedOnwards(a: seq<Event>, b: seq<Event>, d: seq<Event>)
    requires OnlyRevised(a, b) && OnlyRevised(b, d)
    ensures OnlyRevised(a, d)
  {
    assert forall i :: |a| <= i < |b| ==> d[i] == b[i];
  }

  lemma ProcessOnlyRevises(s: State, now: int, previous: HeaterState, recovering: bool)
    ensures OnlyRevised(s.history, ProcessConfirmation(s, now, previous, recovering).history)
  {
    hide OnlyRevised, AfterUnexpectedStop, AfterOff, ResolveFault, ResolveAttempt, ConfirmSession;
    var s1 := AfterUnexpectedStop(s, previous, recovering);
    UnexpectedOnlyRevises(s, previous, recovering);
    OffOnlyRevises(s1);
    ResolvingKeepsHistory(AfterOff(s1), now);
    OnlyRevisedOnwards(s.history, s1.history, AfterOff(s1).history);
  }

  lemma FinishKeepsHistory(c: Config, s: State, now: int)
    ensures FinishStatus(c, s, now).history == s.history
  {
  }

  /** An accepted status adds its own event, and after it only withdrawals of the request. */
  lemma AcceptedStatusHistory(c: Config, s: State, raw: int, now: int)
    requires s.waitStarted.Some?
    ensures OnlyRevised(s.history + [StatusAccepted(StateOfRaw(raw), now, s.waitStarted.value)], AcceptStatus(c, s, raw, now).history)
  {
    hide ProcessConfirmation, FinishStatus, OnlyRevised;
    var t := TakeStatus(c, s, raw, now);
    ProcessOnlyRevises(t, now, s.actual.state, s.communicationFault);
    FinishKeepsHistory(c, ProcessConfirmation(t, now, s.actual.state, s.communicationFault), now);
  }

  lemma StatusKeepsHistory(c: Config, s: State, raw: int, now: int)
    ensures Withdraws(s.history, HearStatus(c, s, raw, now).0.history)
  {
    hide AcceptStatus;
    if s.waitStarted.Some? {
      AcceptedStatusHistory(c, s, raw, now);
    }
  }

  lemma InvalidFrameKeepsHistory(c: Config, s: State, now: int)
    ensures RecordInvalidFrame(c, s, now).history == s.history
    ensures MarkCommunicationError(RecordInvalidFrame(c, s, now), Some(now)).history == s.history
  {
  }

  lemma InitKeepsHistory(c: Config, s: State, now: int)
    ensures HearInit(c, s, now).0.history == s.history
  {
  }

  lemma FrameKeepsHistory(c: Config, s: State, inbound: Inbound, now: int)
    ensures Withdraws(s.history, HandleFrame(c, s, inbound, now).0.history)
  {
    hide HearInit, HearStatus, RecordInvalidFrame, MarkCommunicationError, KnownFrameIsConsistent;
    InvalidFrameKeepsHistory(c, s, now);
    if inbound.Parsed? {
      InitKeepsHistory(c, s, now);
      if inbound.frame.status.Some? { StatusKeepsHistory(c, s, inbound.frame.status.value.heaterState, now); }
    }
  }

  /** Requested State turns or stays ON under a new revision only by a start request, a session update or
      an authorised retry: no frame, cycle, stop or reported error can do it. */
  lemma OnlyCallersRevise(c: Config, s: State, i: Input)
    ensures s.history <= Transition(c, s, i).history
    ensures i.FrameArrived? || i.Stepped? || i.StopRequested? || i.ErrorReported? ==> Withdraws(s.history, Transition(c, s, i).history)
  {
    match i
    case FrameArrived(inbound, now) => FrameKeepsHistory(c, s, inbound, now);
    case Stepped(now, answer, ok) => StepMakesAtMostOneCall(c, s, now, answer, ok);
    case _ =>
  }

  lemma {:induction false} RunKeepsHistory(c: Config, s: State, inputs: seq<Input>)
    ensures s.history <= Execute(c, s, inputs).history
    decreases |inputs|
  {
    if inputs != [] {
      OnlyCallersRevise(c, s, inputs[0]);
      RunKeepsHistory(c, Transition(c, s, inputs[0]), inputs[1..]);
    }
  }

  lemma {:induction false} LongerHistoryNewerRevision(c: Config, before: seq<Event>, after: seq<Event>)
    requires before <= after && Watch(c, after).ok
    ensures var m, m' := Watch(c, before), Watch(c, after);
            m'.revision >= m.revision && (m'.revision == m.revision ==> m'.requested == m.requested)
    decreases |after|
  {
    if |before| < |after| {
      LongerHistoryNewerRevision(c, before, after[..|after| - 1]);
    } else {
      assert before == after;
    }
  }

  /** Requested State never changes without its revision: between two points of a run equal revisions
      mean equal requests, and revisions never go back. */
  lemma EqualRevisionsEqualRequests(c: Config, inputs: seq<Input>, more: seq<Input>)
    requires ValidConfig(c)
    ensures var s := Execute(c, INITIAL, inputs);
            var r := Execute(c, s, more);
            r.revision >= s.revision && (r.revision == s.revision ==> r.requested == s.requested)
  {
    EveryRunIsSafe(c, inputs);
    var s := Execute(c, INITIAL, inputs);
    RunKeepsSafe(c, s, more);
    RunKeepsHistory(c, s, more);
    LongerHistoryNewerRevision(c, s.history, Execute(c, s, more).history);
  }
}
