/** Sessions, their deadlines and the sensor latch over every transition of the control authority. */
module HeaterSessions {
  import opened Options
  import opened ApplicationState
  import opened HeaterModel
  import opened HeaterMonitor
  import opened HeaterSafety
  import opened HeaterTheorems
  import T = TemperatureModel
  import P = TemperatureProperties

  /** In every run a session lasts exactly its runtime, and never longer than the configured maximum. */
  lemma EverySessionIsBounded(c: Config, inputs: seq<Input>)
    requires ValidConfig(c)
    ensures var s := Execute(c, INITIAL, inputs);
            s.session.Some? ==>
              && s.session.value.expires == s.session.value.started + 60000 * s.session.value.runtime
              && 1 <= s.session.value.runtime <= c.maxRuntime
              && (s.session.value.expired ==> !s.requested.on)
  {
    EveryRunIsSafe(c, inputs);
  }

  /** The heater is OFF, nothing is requested and no session supervises anything. */
  predicate Ended(s: State) {
    s.session.None? && s.actual.state.Off? && !s.requested.on
  }

  /** From s to t nothing was requested, a session was kept or ended at OFF, a latch was kept or released there. */
  predicate Follows(s: State, t: State) {
    && (!s.requested.on ==> !t.requested.on)
    && (s.session.Some? ==>
          || (t.session.Some? && t.session.value.id == s.session.value.id && (s.session.value.expired ==> t.session.value.expired))
          || Ended(t))
    && (s.session.None? && !s.requested.on ==> t.session.None?)
    && (s.latch.Some? ==> t.latch.Some? || Ended(t))
    && (Ended(s) ==> Ended(t))
  }

  lemma ExpiryFollows(c: Config, s: State, now: int)
    ensures Follows(s, CheckSessionExpiry(c, s, now))
  {
  }

  lemma StopFollows(c: Config, s: State, now: int, role: T.Role, health: T.Health)
    ensures Follows(s, StopForSensor(c, s, now, role, health))
  {
  }

  lemma ObservingFollows(s: State, t: State)
    requires t == s.(activeSensor := t.activeSensor)
    ensures Follows(s, t) && forall u :: Follows(t, u) ==> Follows(s, u)
  {
  }

  lemma PolicyFollows(c: Config, s: State, now: int, answer: SensorAnswer)
    ensures Follows(s, ApplySensorPolicy(c, s, now, answer))
  {
    hide StopForSensor, SensorTolerated, EffectiveHealth, ReadActiveSensor, Follows;
    var role := ActiveRole(s);
    ObservingFollows(s, s.(activeSensor := None));
    if role.Some? {
      var sensor := ReadActiveSensor(c, answer, role.value, now);
      var observed := s.(activeSensor := Some(sensor));
      ObservingFollows(s, observed);
      StopFollows(c, observed, now, role.value, EffectiveHealth(s, sensor));
    }
  }

  lemma EnsureFollows(c: Config, s: State, now: int)
    ensures Follows(s, EnsureActiveSession(c, s, now))
  {
  }

  lemma FollowsTwice(s: State, t: State, u: State)
    requires Follows(s, t) && Follows(t, u)
    ensures Follows(s, u)
  {
  }

  lemma ControlCheckFollows(c: Config, s: State, now: int)
    ensures Follows(s, CheckControlConfirmation(c, s, now))
  {
  }

  lemma ReleaseFollows(s: State)
    ensures Follows(s, CompleteSensorStopIfOff(s))
  {
  }

  lemma ConfirmationFollows(c: Config, s: State, now: int)
    ensures Follows(s, CompleteSensorStopIfOff(CheckControlConfirmation(c, s, now)))
  {
    hide Follows, CheckControlConfirmation, CompleteSensorStopIfOff;
    var t := CheckControlConfirmation(c, s, now);
    ControlCheckFollows(c, s, now);
    ReleaseFollows(t);
    FollowsTwice(s, t, CompleteSensorStopIfOff(t));
  }

  lemma PreludeLeavesSession(c: Config, s: State, now: int)
    ensures var s2 := CheckResponseTimeout(c, CheckStartDeadline(s, now), now);
            s2.session == s.session && s2.latch == s.latch && (!s.requested.on ==> !s2.requested.on)
  {
  }

  lemma SettleFollows(c: Config, s: State, now: int, answer: SensorAnswer)
    requires s.session.Some? || s.latch.Some?
    ensures var s2 := CheckResponseTimeout(c, CheckStartDeadline(s, now), now);
            && Follows(s2, Settle(c, s, now, answer))
            && s2.session == s.session && s2.latch == s.latch && (!s.requested.on ==> !s2.requested.on)
  {
    hide Follows, CheckStartDeadline, CheckResponseTimeout, CheckSessionExpiry, ApplySensorPolicy, EnsureActiveSession,
         CheckControlConfirmation, CompleteSensorStopIfOff;
    PreludeLeavesSession(c, s, now);
    var s2 := CheckResponseTimeout(c, CheckStartDeadline(s, now), now);
    ExpiryFollows(c, s2, now);
    var s3 := CheckSessionExpiry(c, s2, now);
    PolicyFollows(c, s3, now, answer);
    var s4 := ApplySensorPolicy(c, s3, now, answer);
    FollowsTwice(s2, s3, s4);
    EnsureFollows(c, s4, now);
    var s5 := EnsureActiveSession(c, s4, now);
    FollowsTwice(s2, s4, s5);
    ConfirmationFollows(c, s5, now);
    FollowsTwice(s2, s5, Settle(c, s, now, answer));
  }

  /** Acting on the port changes neither the request nor the latch, and no session unless it starts one. */
  lemma SendKeepsRequest(c: Config, s: State, command: Command, now: int, ok: bool)
    ensures var r := SendControl(c, s, command, now, ok).0;
            r.requested == s.requested && r.latch == s.latch && (s.session.Some? ==> r.session == s.session)
            && (command.ShutdownCommand? ==> r.session == s.session)
  {
  }

  lemma EvaluateKeepsRequest(c: Config, s: State, now: int, ok: bool)
    requires s.attempt.Some? && s.attempt.value.command.StartCommand? && s.attempt.value.revision == s.revision ==> s.requested.on
    ensures var r := EvaluateControl(c, s, now, ok).0;
            r.requested == s.requested && r.latch == s.latch && (s.session.Some? || !s.requested.on ==> r.session == s.session)
  {
    var e := s.(pendingControlDue := None);
    if e.attempt.Some? { SendKeepsRequest(c, e, e.attempt.value.command, now, ok); }
    var d := if !s.actual.state.Starting? || s.requested.on then e.(startingStopSince := None) else e;
    var verdict := Decide(c, e, now);
    if verdict.Send? { SendKeepsRequest(c, d, verdict.command, now, ok); }
  }

  lemma SynchronizeKeepsRequest(c: Config, s: State, now: int, ok: bool)
    ensures var r := Synchronize(c, s, now, ok).0;
            r.requested == s.requested && r.latch == s.latch && r.session == s.session
  {
  }

  lemma ActKeepsRequest(c: Config, s: State, now: int, ok: bool)
    requires s.attempt.Some? && s.attempt.value.command.StartCommand? && s.attempt.value.revision == s.revision ==> s.requested.on
    ensures var r := Act(c, s, now, ok).0;
            r.requested == s.requested && r.latch == s.latch && (s.session.Some? || !s.requested.on ==> r.session == s.session)
  {
    hide EvaluateControl, Synchronize, StatusIsFresh;
    EvaluateKeepsRequest(c, s, now, ok);
    SynchronizeKeepsRequest(c, s, now, ok);
    SynchronizeKeepsRequest(c, s.(pendingControlDue := None, nextRequestDue := if s.expected.None? then Some(now) else s.nextRequestDue), now, ok);
    SynchronizeKeepsRequest(c, EvaluateControl(c, s, now, ok).0, now, ok);
  }

  /** The last status the history accepted said OFF. */
  predicate LastSaidOff(c: Config, s: State) {
    Watch(c, s.history).status.Some? && Watch(c, s.history).status.value.state.Off?
  }

  /** From the first cycle at or after a session's deadline Requested State is OFF. */
  lemma ExpiryWithdrawsRequest(c: Config, s: State, now: int, answer: SensorAnswer, ok: bool)
    requires Safe(c, s) && s.session.Some? && now >= s.session.value.expires
    ensures !Step(c, s, now, answer, ok).0.requested.on
  {
    var settled := Settle(c, s, now, answer);
    SettleKeepsSafe(c, s, now, answer);
    SettleAfterExpiry(c, s, now, answer);
    ActKeepsRequest(c, settled, now, ok);
  }

  lemma SettleAfterExpiry(c: Config, s: State, now: int, answer: SensorAnswer)
    requires Safe(c, s) && s.session.Some? && now >= s.session.value.expires
    ensures !Settle(c, s, now, answer).requested.on
  {
    StartDeadlineKeepsSafe(c, s, now);
    var s1 := CheckStartDeadline(s, now);
    ResponseTimeoutKeepsSafe(c, s1, now);
    var s2 := CheckResponseTimeout(c, s1, now);
    ExpiryStops(c, s2, now);
    var s3 := CheckSessionExpiry(c, s2, now);
    PolicyFollows(c, s3, now, answer);
    var s4 := ApplySensorPolicy(c, s3, now, answer);
    EnsureFollows(c, s4, now);
    ConfirmationFollows(c, EnsureActiveSession(c, s4, now), now);
  }

  lemma ExpiryStops(c: Config, s: State, now: int)
    requires Safe(c, s) && s.session.Some? && now >= s.session.value.expires
    ensures !CheckSessionExpiry(c, s, now).requested.on
  {
  }

  /** While a session or a sensor latch exists no start request is granted, and an identical one only repeats. */
  lemma NoStartUnderSession(c: Config, s: State, wanted: Requested, notAfter: Option<int>, now: Option<int>)
    requires s.session.Some? || s.latch.Some?
    ensures var r := RequestStart(c, s, wanted, notAfter, now); r.0 == s && r.1 != Done(true)
    ensures Safe(c, s) && (s.latch.Some? || s.session.value.expired) ==> RequestStart(c, s, wanted, notAfter, now).1 == Refused
  {
  }

  lemma UnexpectedStopFollows(s: State, previous: HeaterState, recovering: bool)
    ensures Follows(s, AfterUnexpectedStop(s, previous, recovering))
  {
  }

  lemma OffFollows(s: State)
    ensures Follows(s, AfterOff(s))
  {
    if s.actual.state.Off? {
      var released := if s.restartBlocked then RequestStop(s).(restartBlocked := false, notAfter := if s.requested.on then None else s.notAfter) else s;
      assert Follows(s, released);
      var discarded := if !released.requested.on && !AttemptIs(released, StartCommand) then DiscardSession(released) else released;
      assert Follows(released, discarded);
      assert Follows(discarded, CompleteSensorStopIfOff(discarded));
    }
  }

  lemma FaultFollows(s: State)
    ensures Follows(s, ResolveFault(s))
  {
  }

  lemma ProcessFollows(s: State, now: int, previous: HeaterState, recovering: bool)
    ensures Follows(s, ProcessConfirmation(s, now, previous, recovering))
  {
    UnexpectedStopFollows(s, previous, recovering);
    var s1 := AfterUnexpectedStop(s, previous, recovering);
    OffFollows(s1);
    var s2 := AfterOff(s1);
    FaultFollows(s2);
    var s3 := ResolveFault(s2);
    AttemptFollows(s3, now);
    var s4 := ResolveAttempt(s3, now);
    ConfirmFollows(s4);
    FollowsFrom(s, s1, s2);
    FollowsFrom(s, s2, s3);
    FollowsFrom(s, s3, s4);
    FollowsFrom(s, s4, ConfirmSession(s4));
  }

  lemma FollowsFrom(s: State, t: State, u: State)
    requires Follows(s, t) && Follows(t, u)
    ensures Follows(s, u)
  {
  }

  lemma AttemptFollows(s: State, now: int)
    ensures Follows(s, ResolveAttempt(s, now))
  {
  }

  lemma ConfirmFollows(s: State)
    ensures Follows(s, ConfirmSession(s))
  {
  }

  lemma FinishFollows(c: Config, s: State, now: int)
    ensures Follows(s, FinishStatus(c, s, now))
  {
  }

  /** A transition keeps what it found, or the last accepted status said OFF and nothing is requested. */
  predicate KeptOrOff(c: Config, s: State, t: State) {
    && (s.session.Some? ==>
          || (t.session.Some? && t.session.value.id == s.session.value.id
              && (s.session.value.expired ==> t.session.value.expired && !t.requested.on))
          || (t.session.None? && !t.requested.on && LastSaidOff(c, t)))
    && (s.latch.Some? ==> !t.requested.on && (t.latch.Some? || (t.session.None? && LastSaidOff(c, t))))
  }

  lemma StatusKeepsOrOff(c: Config, s: State, raw: int, now: int)
    requires Safe(c, s) && s.expected == Some(StatusQuery) && now - s.waitStarted.value < c.responseTimeout
    ensures KeptOrOff(c, s, AcceptStatus(c, s, raw, now))
  {
    AcceptStatusKeepsSafe(c, s, raw, now);
    var taken := TakeStatus(c, s, raw, now);
    ProcessFollows(taken, now, s.actual.state, s.communicationFault);
    var p := ProcessConfirmation(taken, now, s.actual.state, s.communicationFault);
    FinishFollows(c, p, now);
    FollowsFrom(taken, p, FinishStatus(c, p, now));
    KeptByFollowing(c, s, taken, FinishStatus(c, p, now));
  }

  lemma KeptByFollowing(c: Config, s: State, taken: State, t: State)
    requires Safe(c, s) && Safe(c, t) && Follows(taken, t)
    requires taken.session == s.session && taken.latch == s.latch && taken.requested == s.requested
    ensures KeptOrOff(c, s, t)
  {
  }

  lemma OtherFramesLeaveSession(c: Config, s: State, inbound: Inbound, now: int)
    requires inbound.Parsed? && StatusIsConsistent(inbound.frame) ==>
      !s.actual.initialized || s.expected != Some(StatusQuery) || s.waitStarted.None? || now - s.waitStarted.value >= c.responseTimeout
    ensures var t := HandleFrame(c, s, inbound, now).0; t.session == s.session && t.latch == s.latch && t.requested == s.requested
  {
    hide AcceptStatus, KnownFrameIsConsistent, RecordInvalidFrame, MarkCommunicationError, HearInit, HearStatus;
    InvalidFrameLeavesSession(c, s, now);
    ErrorLeavesSession(RecordInvalidFrame(c, s, now), now);
    InitLeavesSession(c, s, now);
    if inbound.Parsed? && StatusIsConsistent(inbound.frame) {
      UntimelyStatusLeavesSession(c, s, inbound.frame.status.value.heaterState, now);
    }
  }

  lemma ErrorLeavesSession(s: State, now: int)
    ensures var t := MarkCommunicationError(s, Some(now)); t.session == s.session && t.latch == s.latch && t.requested == s.requested
  {
  }

  lemma InvalidFrameLeavesSession(c: Config, s: State, now: int)
    ensures var t := RecordInvalidFrame(c, s, now); t.session == s.session && t.latch == s.latch && t.requested == s.requested
  {
  }

  lemma InitLeavesSession(c: Config, s: State, now: int)
    ensures var t := HearInit(c, s, now).0; t.session == s.session && t.latch == s.latch && t.requested == s.requested
  {
  }

  lemma UntimelyStatusLeavesSession(c: Config, s: State, raw: int, now: int)
    requires !s.actual.initialized || s.expected != Some(StatusQuery) || s.waitStarted.None? || now - s.waitStarted.value >= c.responseTimeout
    ensures var t := HearStatus(c, s, raw, now).0; t.session == s.session && t.latch == s.latch && t.requested == s.requested
  {
    hide AcceptStatus;
  }

  lemma UntouchedIsKept(c: Config, s: State, t: State)
    requires Safe(c, s) && t.session == s.session && t.latch == s.latch && t.requested == s.requested
    ensures KeptOrOff(c, s, t)
  {
    hide Watch;
  }

  lemma TimelyStatusIsAccepted(c: Config, s: State, f: Frame, now: int)
    requires StatusIsConsistent(f) && s.actual.initialized && s.expected == Some(StatusQuery) && s.waitStarted.Some?
    requires now - s.waitStarted.value < c.responseTimeout
    ensures HandleFrame(c, s, Parsed(f), now).0 == AcceptStatus(c, s, f.status.value.heaterState, now)
  {
    hide AcceptStatus;
  }

  lemma FrameKeepsOrOff(c: Config, s: State, inbound: Inbound, now: int)
    requires Safe(c, s)
    ensures KeptOrOff(c, s, HandleFrame(c, s, inbound, now).0)
  {
    if inbound.Parsed? && StatusIsConsistent(inbound.frame) && s.actual.initialized && s.expected == Some(StatusQuery)
       && s.waitStarted.Some? && now - s.waitStarted.value < c.responseTimeout
    {
      TimelyStatusIsAccepted(c, s, inbound.frame, now);
      StatusKeepsOrOff(c, s, inbound.frame.status.value.heaterState, now);
    } else {
      OtherFramesLeaveSession(c, s, inbound, now);
      UntouchedIsKept(c, s, HandleFrame(c, s, inbound, now).0);
    }
    hide Safe, KeptOrOff, HandleFrame, AcceptStatus;
  }

  lemma StepKeepsOrOff(c: Config, s: State, now: int, answer: SensorAnswer, ok: bool)
    requires Safe(c, s)
    ensures KeptOrOff(c, s, Step(c, s, now, answer, ok).0)
  {
    if s.session.Some? || s.latch.Some? {
      var settled := Settle(c, s, now, answer);
      SettleFollows(c, s, now, answer);
      SettleKeepsSafe(c, s, now, answer);
      ActKeepsRequest(c, settled, now, ok);
      ActCallsWhatItReturns(c, settled, now, ok);
      var r := Act(c, settled, now, ok).0;
      if r.history != settled.history { CallKeepsStatus(c, settled.history, r.history); }
      ActedIsKept(c, s, CheckResponseTimeout(c, CheckStartDeadline(s, now), now), settled, r);
    }
    hide Safe, Settle, Act, CheckResponseTimeout, CheckStartDeadline, Follows, Watch;
  }

  lemma ActedIsKept(c: Config, s: State, s2: State, settled: State, r: State)
    requires Safe(c, s) && Safe(c, settled) && Follows(s2, settled)
    requires s2.session == s.session && s2.latch == s.latch && (!s.requested.on ==> !s2.requested.on)
    requires r.requested == settled.requested && r.latch == settled.latch && (settled.session.Some? || !settled.requested.on ==> r.session == settled.session)
    requires Watch(c, r.history).status == Watch(c, settled.history).status
    ensures KeptOrOff(c, s, r)
  {
    hide Watch;
  }

  lemma CallKeepsStatus(c: Config, before: seq<Event>, after: seq<Event>)
    requires OneCall(before, after)
    ensures Watch(c, after).status == Watch(c, before).status
  {
    assert after[..|after| - 1] == before;
  }

  /** In any transition a session keeps its identity and an expired one stays expired with Requested OFF;
      it ends, and a sensor latch is released, only when the last accepted status said OFF. */
  lemma SessionsEndOnlyAtOff(c: Config, s: State, i: Input)
    requires Safe(c, s)
    ensures KeptOrOff(c, s, Transition(c, s, i))
  {
    match i
    case StartRequested(wanted, notAfter, at) =>
      if s.session.Some? || s.latch.Some? { NoStartUnderSession(c, s, wanted, notAfter, at); }
    case FrameArrived(inbound, now) => FrameKeepsOrOff(c, s, inbound, now);
    case Stepped(now, answer, ok) => StepKeepsOrOff(c, s, now, answer, ok);
    case SessionUpdated(expectedRevision, target, extend, now) =>
    case _ =>
  }

  // ---------------------------------------------------------------- the sensor latch

  /** The sensor read now is not the one the session was bound to. */
  predicate Foreign(s: State, sensor: T.SensorSnapshot) {
    sensor.rom != s.binding.rom || Some(sensor.assignment) != s.binding.assignment || Some(sensor.generation) != s.binding.generation
  }

  lemma ForeignSensorLatches(c: Config, s: State, now: int, answer: SensorAnswer)
    requires Safe(c, s) && s.session.Some? && RoleOfMode(s.session.value.mode).Some?
    requires Foreign(s, ReadActiveSensor(c, answer, RoleOfMode(s.session.value.mode).value, now))
    ensures var t := ApplySensorPolicy(c, s, now, answer); !t.requested.on && t.latch.Some?
  {
    hide Safe, Foreign, SensorTolerated, EffectiveHealth, StopForSensor, ReadActiveSensor;
    var role := RoleOfMode(s.session.value.mode).value;
    var sensor := ReadActiveSensor(c, answer, role, now);
    ForeignIsNotTolerated(c, s, sensor);
    StopLatches(c, s.(activeSensor := Some(sensor)), now, role, EffectiveHealth(s, sensor));
  }

  lemma ForeignIsNotTolerated(c: Config, s: State, sensor: T.SensorSnapshot)
    requires Safe(c, s) && s.session.Some? && RoleOfMode(s.session.value.mode).Some? && Foreign(s, sensor)
    ensures !SensorTolerated(s, sensor)
  {
  }

  lemma StopLatches(c: Config, s: State, now: int, role: T.Role, health: T.Health)
    requires s.session.Some?
    ensures var t := StopForSensor(c, s, now, role, health); !t.requested.on && t.latch.Some?
  {
  }

  lemma PreludeKeepsSession(c: Config, s: State, now: int)
    requires Safe(c, s) && s.session.Some?
    ensures var s3 := CheckSessionExpiry(c, CheckResponseTimeout(c, CheckStartDeadline(s, now), now), now);
            Safe(c, s3) && s3.session.Some? && s3.session.value.mode == s.session.value.mode && s3.binding == s.binding
  {
    StartDeadlineKeepsSafe(c, s, now);
    var s1 := CheckStartDeadline(s, now);
    assert s1.session == s.session && s1.binding == s.binding;
    ResponseTimeoutKeepsSafe(c, s1, now);
    var s2 := CheckResponseTimeout(c, s1, now);
    assert s2.session == s.session && s2.binding == s.binding;
    ExpiryKeepsSafe(c, s2, now);
    ExpiryKeepsMode(c, s2, now);
  }

  lemma ExpiryKeepsMode(c: Config, s: State, now: int)
    requires s.session.Some?
    ensures var t := CheckSessionExpiry(c, s, now);
            t.session.Some? && t.session.value.mode == s.session.value.mode && t.binding == s.binding
  {
  }

  // ---------------------------------------------------------------- when the stop is not latched

  predicate ResponseOverdue(c: Config, s: State, now: int) {
    s.expected.Some? && s.waitStarted.Some? && now - s.waitStarted.value >= c.responseTimeout
  }

  /** The START behind the session was answered by OFF and is due to be judged: its send failed or its confirmation
      timeout has passed. */
  predicate StartUnconfirmedAtOff(c: Config, s: State, now: int) {
    && s.actual.state.Off? && s.fault.None? && AttemptIs(s, StartCommand) && s.attempt.value.statusAfterSend
    && (s.attempt.value.sendFailed || now - s.attempt.value.lastSent >= c.confirmationTimeout)
  }

  /** Before the cycle: its own confirmation check will cancel that START and discard the session. */
  predicate CancelsStart(c: Config, s: State, now: int) {
    StartUnconfirmedAtOff(c, s, now) && !ResponseOverdue(c, s, now)
  }

  lemma ExpiryLeavesControl(c: Config, s: State, now: int)
    ensures var t := CheckSessionExpiry(c, s, now); t.attempt == s.attempt && t.fault == s.fault && t.actual == s.actual
  {
  }

  lemma TimeoutLeavesControl(c: Config, s: State, now: int)
    requires s.session.Some?
    ensures var t := CheckResponseTimeout(c, CheckStartDeadline(s, now), now);
      && t.attempt == s.attempt && t.fault == s.fault
      && t.actual.state == if ResponseOverdue(c, s, now) then Unknown else s.actual.state
  {
  }

  lemma PreludeLeavesControl(c: Config, s: State, now: int)
    requires s.session.Some?
    ensures var s3 := CheckSessionExpiry(c, CheckResponseTimeout(c, CheckStartDeadline(s, now), now), now);
            && s3.attempt == s.attempt && s3.fault == s.fault
            && s3.actual.state == if ResponseOverdue(c, s, now) then Unknown else s.actual.state
  {
    hide CheckSessionExpiry, CheckResponseTimeout, CheckStartDeadline;
    TimeoutLeavesControl(c, s, now);
    ExpiryLeavesControl(c, CheckResponseTimeout(c, CheckStartDeadline(s, now), now), now);
  }

  /** What the sensor policy never touches. */
  predicate SameControl(s: State, t: State) {
    t.attempt == s.attempt && t.fault == s.fault && t.actual == s.actual && (s.session.Some? ==> t.session == s.session)
  }

  lemma StopLeavesControl(c: Config, s: State, now: int, role: T.Role, health: T.Health)
    ensures SameControl(s, StopForSensor(c, s, now, role, health))
  {
    hide RequestStop, ScheduleControl;
    RequestStopLeavesControl(s);
    ScheduleLeavesControl(c, RequestStop(s).(pendingControlDue := None), now);
  }

  lemma RequestStopLeavesControl(s: State)
    ensures SameControl(s, RequestStop(s))
  {
  }

  lemma ScheduleLeavesControl(c: Config, s: State, now: int)
    ensures SameControl(s, ScheduleControl(c, s, now, true))
  {
  }

  lemma PolicyLeavesControl(c: Config, s: State, now: int, answer: SensorAnswer)
    ensures SameControl(s, ApplySensorPolicy(c, s, now, answer))
  {
    hide StopForSensor, SensorTolerated, EffectiveHealth, ReadActiveSensor;
    var role := ActiveRole(s);
    if role.Some? {
      var sensor := ReadActiveSensor(c, answer, role.value, now);
      StopLeavesControl(c, s.(activeSensor := Some(sensor)), now, role.value, EffectiveHealth(s, sensor));
    }
  }

  lemma ConfirmationReleasesLatch(c: Config, s: State, now: int)
    requires !s.requested.on && s.latch.Some? && s.session.Some?
    ensures var t := CompleteSensorStopIfOff(CheckControlConfirmation(c, s, now));
            && (t.latch.None? <==> StartUnconfirmedAtOff(c, s, now)) && (t.latch.None? ==> Ended(t)) && !t.requested.on
  {
  }

  lemma ForeignSensorSettles(c: Config, s: State, now: int, answer: SensorAnswer)
    requires Safe(c, s) && s.session.Some? && RoleOfMode(s.session.value.mode).Some?
    requires Foreign(s, ReadActiveSensor(c, answer, RoleOfMode(s.session.value.mode).value, now))
    ensures var settled := Settle(c, s, now, answer);
            !settled.requested.on && (settled.latch.None? <==> CancelsStart(c, s, now)) && (settled.latch.Some? || Ended(settled))
  {
    PreludeKeepsSession(c, s, now);
    PreludeLeavesControl(c, s, now);
    var s3 := CheckSessionExpiry(c, CheckResponseTimeout(c, CheckStartDeadline(s, now), now), now);
    ForeignSensorLatches(c, s3, now, answer);
    PolicyLeavesControl(c, s3, now, answer);
    ConfirmationReleasesLatch(c, ApplySensorPolicy(c, s3, now, answer), now);
    hide Safe, Foreign, ReadActiveSensor, CheckSessionExpiry, CheckResponseTimeout, CheckStartDeadline, ApplySensorPolicy, CheckControlConfirmation, CompleteSensorStopIfOff;
  }

  /** A session whose sensor no longer is what it was bound to is stopped by the next cycle. The stop is latched, except
      exactly when that cycle also cancels an unconfirmed START at OFF; then it ends the session instead. */
  lemma LostSensorStopsSession(c: Config, s: State, now: int, answer: SensorAnswer, ok: bool)
    requires Safe(c, s) && s.session.Some? && RoleOfMode(s.session.value.mode).Some?
    requires Foreign(s, ReadActiveSensor(c, answer, RoleOfMode(s.session.value.mode).value, now))
    ensures var t := Step(c, s, now, answer, ok).0;
            && !t.requested.on && (t.latch.None? <==> CancelsStart(c, s, now))
            && (t.latch.None? ==> t.session.None? && LastSaidOff(c, t))
  {
    ForeignSensorSettles(c, s, now, answer);
    LatchSurvivesAct(c, s, now, answer, ok);
    hide Safe, Foreign, Settle, Step, CancelsStart, ReadActiveSensor;
  }

  lemma LatchSurvivesAct(c: Config, s: State, now: int, answer: SensorAnswer, ok: bool)
    requires Safe(c, s)
    requires var settled := Settle(c, s, now, answer); !settled.requested.on && (settled.latch.Some? || Ended(settled))
    ensures var t := Step(c, s, now, answer, ok).0;
            !t.requested.on && t.latch == Settle(c, s, now, answer).latch && (t.latch.Some? || (t.session.None? && LastSaidOff(c, t)))
  {
    var settled := Settle(c, s, now, answer);
    SettleKeepsSafe(c, s, now, answer);
    ActKeepsRequest(c, settled, now, ok);
    ActCallsWhatItReturns(c, settled, now, ok);
    var r := Act(c, settled, now, ok).0;
    if r.history != settled.history { CallKeepsStatus(c, settled.history, r.history); }
  }

  /** What the temperature manager reports of an assigned sensor is always believed by the controller. */
  lemma SnapshotsAreCanonical(t: T.Thresholds, m: T.Manager, role: T.Role, now: int)
    requires T.Valid(t, m)
    requires role in m.assignments ==> m.assignments[role] != ""
    ensures var snapshot := T.HealthSnapshot(t, m, role, now); snapshot.Some? ==> Canonical(t, snapshot.value, role, now)
  {
  }

  function AnswerOf(t: T.Thresholds, m: T.Manager, role: T.Role, now: int): SensorAnswer
    requires T.Valid(t, m)
  {
    var snapshot := T.RefreshRole(t, m, role, now).1;
    if snapshot.None? then Unread else Answer(snapshot.value)
  }

  lemma GrownGenerationIsForeign(c: Config, m: T.Manager, role: T.Role, rom: string, s: State, now: int)
    requires T.Valid(c.thresholds, m) && P.Assigned(m, role, rom)
    requires Safe(c, s) && s.session.Some? && RoleOfMode(s.session.value.mode) == Some(role)
    requires s.binding.generation.value < m.readings[rom].generation
    ensures Foreign(s, ReadActiveSensor(c, AnswerOf(c.thresholds, m, role, now), role, now))
  {
  }

  /** m1 and m3 follow two consecutive valid samples of `rom`, the second at least the failure deadline after the first. */
  ghost predicate FailedGap(
    t: T.Thresholds, m: T.Manager, role: T.Role, rom: string, first: Option<real>, at: int, m1: T.Manager,
    between: seq<P.Op>, second: Option<real>, again: int, m3: T.Manager)
  {
    && T.Valid(t, m) && P.Assigned(m, role, rom)
    && T.RecordValid(t, m, rom, first, at) == (m1, true)
    && P.NoSampleOf(t, m1, between, rom)
    && T.RecordValid(t, P.Run(t, m1, between), rom, second, again) == (m3, true)
    && again - at >= t.failed
  }

  lemma FailedGapGrows(
    t: T.Thresholds, m: T.Manager, role: T.Role, rom: string, first: Option<real>, at: int, m1: T.Manager,
    between: seq<P.Op>, second: Option<real>, again: int, m3: T.Manager, later: seq<P.Op>)
    requires FailedGap(t, m, role, rom, first, at, m1, between, second, again, m3)
    ensures T.Valid(t, m1) && T.Valid(t, m3) && P.Assigned(m1, role, rom) && m3.health[role].Ok?
    ensures var m4 := P.Run(t, m3, later);
            T.Valid(t, m4) && P.Assigned(m4, role, rom) && m4.readings[rom].generation > m1.readings[rom].generation
  {
    P.FailedGapIsCounted(t, m, role, rom, first, at, m1, between, P.Run(t, m1, between), second, again, m3);
    P.GenerationNeverFalls(t, m3, later, rom);
  }

  /** After such a gap a session bound before it is stopped by the next cycle, whatever the sensor did since and although
      it looks healthy again; and the stop is latched, except exactly when the cycle also cancels an unconfirmed START. */
  lemma FailedGapStopsSession(
    c: Config, m: T.Manager, role: T.Role, rom: string, first: Option<real>, at: int, m1: T.Manager,
    between: seq<P.Op>, second: Option<real>, again: int, m3: T.Manager, later: seq<P.Op>,
    s: State, now: int, answer: SensorAnswer, ok: bool)
    requires FailedGap(c.thresholds, m, role, rom, first, at, m1, between, second, again, m3)
    requires T.Valid(c.thresholds, m3) && answer == AnswerOf(c.thresholds, P.Run(c.thresholds, m3, later), role, now)
    requires Safe(c, s) && s.session.Some? && RoleOfMode(s.session.value.mode) == Some(role)
    requires rom in m1.readings && s.binding.generation.value <= m1.readings[rom].generation
    ensures role in m3.health && m3.health[role].Ok?
    ensures var t := Step(c, s, now, answer, ok).0;
            && !t.requested.on && (t.latch.None? <==> CancelsStart(c, s, now))
            && (t.latch.None? ==> t.session.None? && LastSaidOff(c, t))
  {
    FailedGapGrows(c.thresholds, m, role, rom, first, at, m1, between, second, again, m3, later);
    GrownGenerationIsForeign(c, P.Run(c.thresholds, m3, later), role, rom, s, now);
    LostSensorStopsSession(c, s, now, answer, ok);
  }
}
