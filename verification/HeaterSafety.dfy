/** What every method of the control authority keeps, and what follows for every run of it. */
module HeaterSafety {
  import opened Options
  import opened ApplicationState
  import opened HeaterModel
  import opened HeaterMonitor
  import T = TemperatureModel

  /** Requested State and its revision are what the history says they are. */
  predicate RequestAgrees(m: Monitor, revision: int, requested: Requested, restartBlocked: bool) {
    && m.ok && m.revision == revision && m.requested == requested
    && (m.gate.AwaitingOff? ==> restartBlocked)
    && (m.gate.AwaitingRequest? ==> !requested.on)
    && (restartBlocked ==> !requested.on)
  }

  /** A known heater state is the last accepted status; an awaited STATUS was asked for. */
  predicate TruthAgrees(m: Monitor, actual: Actual, expected: Option<Query>, waitStarted: Option<int>) {
    && (actual.state != Unknown ==> actual.lastStatus.Some? && m.status == Some(Seen(actual.state, actual.lastStatus.value)))
    && (expected == Some(StatusQuery) ==> waitStarted.Some? && waitStarted.value in m.asked)
  }

  predicate SendsAgree(m: Monitor, revision: int, startSent: Option<int>, shutdownSent: Option<int>) {
    && (m.starts > 0 ==> startSent == Some(revision))
    && (m.shutdowns > 0 ==> shutdownSent == Some(revision))
    && (startSent.Some? ==> startSent.value <= revision)
    && (shutdownSent.Some? ==> shutdownSent.value <= revision)
  }

  /** An open attempt counts its own sends; while its revision is current it is what Requested State still says. */
  predicate AttemptCoherent(
    c: Config, m: Monitor, a: Attempt, revision: int, requested: Requested, restartBlocked: bool,
    startSent: Option<int>, shutdownSent: Option<int>)
  {
    && 1 <= a.attempts <= c.maxAttempts && (a.retryReady ==> a.attempts < c.maxAttempts)
    && a.revision <= revision
    && (if a.command.StartCommand? then startSent else shutdownSent) == Some(a.revision)
    && (a.command.StartCommand? ==> !restartBlocked)
    && (a.revision == revision ==>
          if a.command.StartCommand?
          then requested.on && a.parameters == ParametersOf(requested) && a.spec == SpecOf(requested) && m.starts == a.attempts
          else !requested.on && m.shutdowns == a.attempts)
  }

  predicate SessionBounded(c: Config, session: Session) {
    session.expires == session.started + MILLISECONDS_PER_MINUTE * session.runtime && 1 <= session.runtime <= c.maxRuntime
  }

  predicate SessionCoherent(c: Config, session: Option<Session>, latch: Option<Latch>, requested: Requested) {
    && (session.Some? ==> SessionBounded(c, session.value) && (session.value.expired ==> !requested.on))
    && (latch.Some? ==> !requested.on)
    && (requested.on ==> ValidStart(requested, c.maxRuntime))
  }

  /** A temperature session knows the exact sensor it was bound to. */
  predicate BindingCoherent(session: Option<Session>, binding: Binding) {
    session.Some? && RoleOfMode(session.value.mode).Some? ==>
      binding.rom.Some? && binding.generation.Some? && binding.assignment.Some?
  }

  predicate SafeWith(c: Config, m: Monitor, s: State) {
    && ValidConfig(c)
    && RequestAgrees(m, s.revision, s.requested, s.restartBlocked)
    && TruthAgrees(m, s.actual, s.expected, s.waitStarted)
    && SendsAgree(m, s.revision, s.startSent, s.shutdownSent)
    && (s.attempt.Some? ==> AttemptCoherent(c, m, s.attempt.value, s.revision, s.requested, s.restartBlocked, s.startSent, s.shutdownSent))
    && SessionCoherent(c, s.session, s.latch, s.requested)
    && BindingCoherent(s.session, s.binding)
  }

  predicate Safe(c: Config, s: State) {
    SafeWith(c, Watch(c, s.history), s)
  }

  lemma InitialIsSafe(c: Config)
    requires ValidConfig(c)
    ensures Safe(c, INITIAL)
  {
  }

  /** A revision that keeps Requested OFF, repeats it, or installs a valid request from a quiet state. */
  lemma ReviseKeepsSafe(c: Config, s: State, r: Requested)
    requires Safe(c, s)
    requires r.on ==> ValidStart(r, c.maxRuntime) && s.latch.None? && !s.restartBlocked
    requires r.on && s.session.Some? ==> !s.session.value.expired
    ensures Safe(c, Revise(s, r))
  {
    WatchNext(c, s.history, Revised(s.revision + 1, r));
  }

  lemma RequestStopKeepsSafe(c: Config, s: State)
    requires Safe(c, s)
    ensures Safe(c, RequestStop(s)) && !RequestStop(s).requested.on
  {
    if s.requested.on { ReviseKeepsSafe(c, s.(notAfter := None), s.requested.(on := false)); }
  }

  lemma RequestStartKeepsSafe(c: Config, s: State, wanted: Requested, notAfter: Option<int>, now: Option<int>)
    requires Safe(c, s)
    ensures Safe(c, RequestStart(c, s, wanted, notAfter, now).0)
  {
    if RequestStart(c, s, wanted, notAfter, now).1 == Done(true) {
      ReviseKeepsSafe(c, s.(notAfter := notAfter), wanted.(on := true));
    }
  }

  lemma UpdateKeepsSafe(c: Config, s: State, expectedRevision: int, target: Option<int>, extend: int, now: int)
    requires Safe(c, s)
    ensures Safe(c, UpdateActiveSession(c, s, expectedRevision, target, extend, now).0)
  {
    var r := UpdateActiveSession(c, s, expectedRevision, target, extend, now);
    if r.1 == Done(true) {
      var requested := r.0.requested;
      var adjusted := s.(session := r.0.session);
      ReviseKeepsSafe(c, adjusted, requested);
    }
  }

  lemma RetryKeepsSafe(c: Config, s: State, now: int)
    requires Safe(c, s)
    ensures Safe(c, RetryControlFault(s, now).0)
  {
    var r := RetryControlFault(s, now);
    if r.1 == Done(true) {
      ReviseKeepsSafe(c, r.0.(requested := s.requested, revision := s.revision, history := s.history), s.requested);
    }
  }

  lemma ErrorKeepsSafe(c: Config, s: State, now: Option<int>)
    requires Safe(c, s)
    ensures Safe(c, MarkCommunicationError(s, now))
  {
  }

  lemma MarkExpiredKeepsSafe(c: Config, s: State)
    requires Safe(c, s) && s.session.Some? && !s.requested.on
    ensures Safe(c, s.(session := Some(s.session.value.(expired := true)), pendingControlDue := None))
  {
    hide Watch;
  }

  lemma ExpiryKeepsSafe(c: Config, s: State, now: int)
    requires Safe(c, s)
    ensures var e := CheckSessionExpiry(c, s, now);
            && Safe(c, e)
            && (e.session.Some? && !e.session.value.expired ==> now < e.session.value.expires)
  {
    hide Safe;
    if s.session.Some? && !s.session.value.expired && now >= s.session.value.expires {
      RequestStopKeepsSafe(c, s);
      var stopped := if s.requested.on then RequestStop(s) else s;
      MarkExpiredKeepsSafe(c, stopped);
      var marked := stopped.(session := Some(s.session.value.(expired := true)), pendingControlDue := None);
      ScheduleKeepsSafe(c, marked, now, true);
      assert CheckSessionExpiry(c, s, now) == ScheduleControl(c, marked, now, true);
    }
  }

  lemma ScheduleKeepsSafe(c: Config, s: State, now: int, immediate: bool)
    requires Safe(c, s)
    ensures Safe(c, ScheduleControl(c, s, now, immediate))
  {
  }

  lemma StopForSensorKeepsSafe(c: Config, s: State, now: int, role: T.Role, health: T.Health)
    requires Safe(c, s)
    ensures Safe(c, StopForSensor(c, s, now, role, health))
  {
    RequestStopKeepsSafe(c, s);
    var stopped := RequestStop(s);
    var scheduled := ScheduleControl(c, stopped.(pendingControlDue := None), now, true);
    assert Safe(c, scheduled);
  }

  lemma PolicyKeepsSafe(c: Config, s: State, now: int, answer: SensorAnswer)
    requires Safe(c, s)
    ensures Safe(c, ApplySensorPolicy(c, s, now, answer))
  {
    var role := ActiveRole(s);
    if role.Some? {
      var sensor := ReadActiveSensor(c, answer, role.value, now);
      StopForSensorKeepsSafe(c, s.(activeSensor := Some(sensor)), now, role.value, EffectiveHealth(s, sensor));
    }
  }

  lemma EnsureSessionKeepsSafe(c: Config, s: State, now: int)
    requires Safe(c, s)
    ensures Safe(c, EnsureActiveSession(c, s, now))
  {
    RequestStopKeepsSafe(c, s);
    ScheduleKeepsSafe(c, RequestStop(s).(pendingControlDue := None), now, true);
  }

  lemma ConfirmationCheckKeepsSafe(c: Config, s: State, now: int)
    requires Safe(c, s)
    ensures Safe(c, CheckControlConfirmation(c, s, now))
  {
    if s.attempt.Some? {
      var a := s.attempt.value;
      assert Safe(c, s.(attempt := None));
      if a.attempts < c.maxAttempts {
        var ready := s.(attempt := Some(a.(retryReady := true)));
        assert Safe(c, ready);
        ScheduleKeepsSafe(c, ready, now, a.sendFailed);
      }
    }
  }

  lemma UnexpectedStopKeepsSafe(c: Config, s: State, previous: HeaterState, recovering: bool)
    requires Safe(c, s)
    ensures var s' := AfterUnexpectedStop(s, previous, recovering);
            && Safe(c, s') && s'.actual == s.actual
            && (Watch(c, s'.history).gate.AwaitingOff? ==> Watch(c, s.history).gate.AwaitingOff?)
  {
    RequestStopKeepsSafe(c, s);
    WatchNext(c, s.history, Revised(s.revision + 1, s.requested.(on := false)));
  }

  lemma OffKeepsSafe(c: Config, s: State)
    requires Safe(c, s) && (s.actual.state.Off? ==> !Watch(c, s.history).gate.AwaitingOff?)
    ensures Safe(c, AfterOff(s))
  {
    hide Safe, RequestStop, Watch, CompleteSensorStopIfOff;
    if s.actual.state.Off? {
      if s.restartBlocked { ReleaseKeepsSafe(c, s); }
      var released := if s.restartBlocked then RequestStop(s).(restartBlocked := false, notAfter := if s.requested.on then None else s.notAfter) else s;
      if !released.requested.on { DiscardKeepsSafe(c, released); }
      var discarded := if !released.requested.on && !AttemptIs(released, StartCommand) then DiscardSession(released) else released;
      CompleteKeepsSafe(c, discarded);
    }
  }

  lemma ReleaseKeepsSafe(c: Config, s: State)
    requires Safe(c, s) && s.restartBlocked && s.actual.state.Off? && !Watch(c, s.history).gate.AwaitingOff?
    ensures !s.requested.on && Safe(c, RequestStop(s).(restartBlocked := false, notAfter := s.notAfter))
  {
    hide SendsAgree;
  }

  lemma DiscardKeepsSafe(c: Config, s: State)
    requires Safe(c, s) && !s.requested.on
    ensures Safe(c, DiscardSession(s))
  {
    hide SendsAgree, Watch;
  }

  lemma CompleteKeepsSafe(c: Config, s: State)
    requires Safe(c, s)
    ensures Safe(c, CompleteSensorStopIfOff(s))
  {
    hide SendsAgree, Watch;
  }

  lemma ProcessKeepsSafe(c: Config, s: State, now: int, previous: HeaterState, recovering: bool)
    requires Safe(c, s)
    requires s.actual.state.Off? ==> !Watch(c, s.history).gate.AwaitingOff?
    ensures Safe(c, ProcessConfirmation(s, now, previous, recovering))
  {
    UnexpectedStopKeepsSafe(c, s, previous, recovering);
    var s1 := AfterUnexpectedStop(s, previous, recovering);
    OffKeepsSafe(c, s1);
    var s2 := AfterOff(s1);
    FaultKeepsSafe(c, s2);
    var s3 := ResolveFault(s2);
    AttemptKeepsSafe(c, s3, now);
    var s4 := ResolveAttempt(s3, now);
    ConfirmKeepsSafe(c, s4);
  }

  lemma FaultKeepsSafe(c: Config, s: State)
    requires Safe(c, s)
    ensures Safe(c, ResolveFault(s))
  {
    var cleared := s.(fault := None, attempt := None);
    assert Safe(c, cleared);
    assert Safe(c, DiscardSession(cleared));
  }

  lemma AttemptKeepsSafe(c: Config, s: State, now: int)
    requires Safe(c, s)
    ensures Safe(c, ResolveAttempt(s, now))
  {
    hide Watch, ValidConfig, TruthAgrees;
  }

  lemma ConfirmKeepsSafe(c: Config, s: State)
    requires Safe(c, s)
    ensures Safe(c, ConfirmSession(s))
  {
  }

  /** Taking an awaited status keeps the agreement and leaves no OFF still awaited if it says OFF. */
  lemma TakeStatusKeepsSafe(c: Config, s: State, raw: int, now: int)
    requires Safe(c, s) && s.expected == Some(StatusQuery) && now - s.waitStarted.value < c.responseTimeout
    ensures var t := TakeStatus(c, s, raw, now);
            Safe(c, t) && (t.actual.state.Off? ==> !Watch(c, t.history).gate.AwaitingOff?)
  {
    WatchNext(c, s.history, StatusAccepted(StateOfRaw(raw), now, s.waitStarted.value));
  }

  lemma FinishStatusKeepsSafe(c: Config, s: State, now: int)
    requires Safe(c, s)
    ensures Safe(c, FinishStatus(c, s, now))
  {
    var ready := s.(phase := if s.fault.None? then Ready else InError);
    assert Safe(c, ready);
    ScheduleKeepsSafe(c, ready, now, false);
  }

  lemma AcceptStatusKeepsSafe(c: Config, s: State, raw: int, now: int)
    requires Safe(c, s) && s.expected == Some(StatusQuery) && now - s.waitStarted.value < c.responseTimeout
    ensures Safe(c, AcceptStatus(c, s, raw, now))
  {
    TakeStatusKeepsSafe(c, s, raw, now);
    var taken := TakeStatus(c, s, raw, now);
    ProcessKeepsSafe(c, taken, now, s.actual.state, s.communicationFault);
    FinishStatusKeepsSafe(c, ProcessConfirmation(taken, now, s.actual.state, s.communicationFault), now);
  }

  lemma InvalidFrameKeepsSafe(c: Config, s: State, now: int)
    requires Safe(c, s)
    ensures Safe(c, RecordInvalidFrame(c, s, now))
  {
  }

  lemma InitFrameKeepsSafe(c: Config, s: State, now: int)
    requires Safe(c, s)
    ensures Safe(c, HearInit(c, s, now).0)
  {
    ErrorKeepsSafe(c, s, Some(now));
    assert Safe(c, AcceptInit(s, now));
  }

  lemma StatusFrameKeepsSafe(c: Config, s: State, raw: int, now: int)
    requires Safe(c, s)
    ensures Safe(c, HearStatus(c, s, raw, now).0)
  {
    assert s.expected == Some(StatusQuery) ==> s.waitStarted.Some?;
    hide Safe, AcceptStatus, MarkCommunicationError;
    ErrorKeepsSafe(c, s, Some(now));
    if s.expected == Some(StatusQuery) && now - s.waitStarted.value < c.responseTimeout {
      AcceptStatusKeepsSafe(c, s, raw, now);
    }
  }

  lemma HandleFrameKeepsSafe(c: Config, s: State, inbound: Inbound, now: int)
    requires Safe(c, s)
    ensures Safe(c, HandleFrame(c, s, inbound, now).0)
  {
    hide Safe, RecordInvalidFrame, HearInit, HearStatus, MarkCommunicationError, KnownFrameIsConsistent;
    InvalidFrameKeepsSafe(c, s, now);
    match inbound
    case ValidationRaised => ErrorKeepsSafe(c, RecordInvalidFrame(c, s, now), Some(now));
    case NotADictionary =>
    case Parsed(f) =>
      InitFrameKeepsSafe(c, s, now);
      if f.status.Some? { StatusFrameKeepsSafe(c, s, f.status.value.heaterState, now); }
  }

  lemma StartDeadlineKeepsSafe(c: Config, s: State, now: int)
    requires Safe(c, s)
    ensures Safe(c, CheckStartDeadline(s, now))
  {
    RequestStopKeepsSafe(c, s);
  }

  lemma ResponseTimeoutKeepsSafe(c: Config, s: State, now: int)
    requires Safe(c, s)
    ensures Safe(c, CheckResponseTimeout(c, s, now))
  {
    ErrorKeepsSafe(c, s, Some(now));
  }

  lemma CompletionKeepsSafe(c: Config, s: State)
    requires Safe(c, s)
    ensures Safe(c, CompleteSensorStopIfOff(s))
  {
  }

  lemma SettleKeepsSafe(c: Config, s: State, now: int, answer: SensorAnswer)
    requires Safe(c, s)
    ensures Safe(c, Settle(c, s, now, answer))
  {
    StartDeadlineKeepsSafe(c, s, now);
    var s1 := CheckStartDeadline(s, now);
    ResponseTimeoutKeepsSafe(c, s1, now);
    var s2 := CheckResponseTimeout(c, s1, now);
    ExpiryKeepsSafe(c, s2, now);
    var s3 := CheckSessionExpiry(c, s2, now);
    PolicyKeepsSafe(c, s3, now, answer);
    var s4 := ApplySensorPolicy(c, s3, now, answer);
    EnsureSessionKeepsSafe(c, s4, now);
    var s5 := EnsureActiveSession(c, s4, now);
    ConfirmationCheckKeepsSafe(c, s5, now);
    CompletionKeepsSafe(c, CheckControlConfirmation(c, s5, now));
  }

  /** No session that could still carry a START is past its deadline. */
  predicate SessionLive(s: State, now: int) {
    s.session.Some? && !s.session.value.expired ==> now < s.session.value.expires
  }

  /** The port call of an open attempt: every clause of the gate is met before it is made. */
  lemma DispatchKeepsSafe(c: Config, s: State, operation: Operation, event: Event, now: int)
    requires s.attempt.Some? && (event.CallStart? || event.CallShutdown?)
    requires Safe(c, s.(history := s.history + [event]))
    ensures Safe(c, Dispatch(c, s, operation, event, now).0)
  {
    var called := s.(history := s.history + [event]);
    ErrorKeepsSafe(c, called, Some(now));
  }

  lemma SendShutdownKeepsSafe(c: Config, s: State, now: int, ok: bool)
    requires Safe(c, s) && StatusIsFresh(c, s, now) && s.actual.state.Running? && !s.requested.on
    requires s.attempt.None? ==> s.shutdownSent != Some(s.revision)
    requires s.attempt.Some? ==> s.attempt.value.command.ShutdownCommand? && s.attempt.value.retryReady && s.attempt.value.revision == s.revision
    ensures Safe(c, SendControl(c, s, ShutdownCommand, now, ok).0)
  {
    var base := CurrentAttempt(s, ShutdownCommand);
    var a := base.(attempts := base.attempts + 1, lastSent := now, statusAfterSend := false, sendFailed := false, retryReady := false);
    var event := CallShutdown(a.revision, now, ok);
    var prepared := s.(attempt := Some(a), restartBlocked := true, shutdownSent := Some(a.revision));
    WatchNext(c, s.history, event);
    DispatchKeepsSafe(c, prepared, Shutdown(ok), event, now);
  }

  /** The deadline a START is sent under exists, lies ahead and keeps its bound. */
  lemma StartSessionKeepsSafe(c: Config, s: State, now: int, spec: SessionSpec)
    requires Safe(c, s) && SessionLive(s, now) && s.requested.on && 1 <= spec.runtime <= c.maxRuntime
    requires StartSession(s, now, spec).Some?
    ensures var t := StartSession(s, now, spec).value;
            && Safe(c, t) && t.session.Some? && now < t.session.value.expires
            && t == s.(session := t.session, binding := t.binding, notAfter := t.notAfter, nextSessionId := t.nextSessionId)
  {
  }

  lemma SupervisedStartIsSafe(c: Config, t: State, a: Attempt, event: Event, now: int)
    requires Safe(c, t) && StatusIsFresh(c, t, now) && t.actual.state.Off? && t.requested.on && !t.restartBlocked
    requires t.session.Some? && now < t.session.value.expires
    requires a.command.StartCommand? && a.revision == t.revision && a.attempts <= c.maxAttempts && !a.retryReady
    requires a.attempts == Watch(c, t.history).starts + 1
    requires a.parameters == ParametersOf(t.requested) && a.spec == SpecOf(t.requested)
    requires event.CallStart? && event.revision == t.revision && event.parameters == a.parameters && event.at == now
    requires event.expires == t.session.value.expires
    ensures Safe(c, t.(attempt := Some(a), startSent := Some(t.revision), history := t.history + [event]))
  {
    WatchNext(c, t.history, event);
  }

  /** The attempt a START is sent under is the next of its revision, counted like the calls. */
  lemma NextStartIsCounted(c: Config, s: State, now: int)
    requires Safe(c, s) && s.requested.on
    requires s.attempt.None? ==> s.startSent != Some(s.revision)
    requires s.attempt.Some? ==> s.attempt.value.command.StartCommand? && s.attempt.value.retryReady && s.attempt.value.revision == s.revision
    ensures var a := NextAttempt(s, StartCommand, now);
      && a.command.StartCommand? && a.revision == s.revision && a.attempts <= c.maxAttempts && !a.retryReady
      && a.attempts == Watch(c, s.history).starts + 1 && a.parameters == ParametersOf(s.requested) && a.spec == SpecOf(s.requested)
      && 1 <= a.spec.runtime <= c.maxRuntime && !s.restartBlocked && ValidStart(s.requested, c.maxRuntime)
      && Safe(c, s.(attempt := None))
  {
    hide Watch;
  }

  /** Whether a session can start does not depend on the attempt. */
  lemma SessionIgnoresAttempt(s: State, a: Option<Attempt>, now: int, spec: SessionSpec)
    ensures
      var (started, plain) := (StartSession(s.(attempt := a), now, spec), StartSession(s, now, spec));
      started.Some? == plain.Some? && (plain.Some? ==> started.value == plain.value.(attempt := a))
  {
    hide Bindable;
    assert forall role :: Bindable(s.(attempt := a), role) == Bindable(s, role) by { BindableIgnoresAttempt(s, a); }
  }

  lemma BindableIgnoresAttempt(s: State, a: Option<Attempt>)
    ensures forall role :: Bindable(s.(attempt := a), role) == Bindable(s, role)
  {
  }

  lemma SendStartKeepsSafe(c: Config, s: State, now: int, ok: bool)
    requires Safe(c, s) && StatusIsFresh(c, s, now) && s.actual.state.Off? && s.requested.on && SessionLive(s, now)
    requires s.attempt.None? ==> s.startSent != Some(s.revision)
    requires s.attempt.Some? ==> s.attempt.value.command.StartCommand? && s.attempt.value.retryReady && s.attempt.value.revision == s.revision
    ensures Safe(c, SendControl(c, s, StartCommand, now, ok).0)
  {
    NextStartIsCounted(c, s, now);
    var a := NextAttempt(s, StartCommand, now);
    SessionIgnoresAttempt(s, Some(a), now, a.spec);
    var session := StartSession(s, now, a.spec);
    if session.Some? {
      StartSessionKeepsSafe(c, s, now, a.spec);
      var t := session.value;
      var event := CallStart(a.revision, a.parameters, now, t.session.value.expires, ok);
      SupervisedStartIsSafe(c, t, a, event, now);
      DispatchKeepsSafe(c, t.(attempt := Some(a), startSent := Some(a.revision)), Start(ok), event, now);
    }
    hide Safe, Watch, StartSession, NextAttempt, Dispatch, ValidStart, StatusIsFresh, SessionLive;
  }

  lemma PolicyFaultKeepsSafe(c: Config, s: State, command: Command, recoverOnRunning: bool)
    requires Safe(c, s)
    ensures Safe(c, SetPolicyFault(s, command, recoverOnRunning))
  {
  }

  lemma DecideKeepsSafe(c: Config, s: State, now: int, ok: bool)
    requires Safe(c, s) && StatusIsFresh(c, s, now) && SessionLive(s, now) && s.attempt.None?
    ensures Safe(c, DecideControl(c, s, now, ok).0)
  {
    var d := if !s.actual.state.Starting? || s.requested.on then s.(startingStopSince := None) else s;
    assert Safe(c, d);
    match Decide(c, s, now)
    case Stand =>
    case BeginStopWait => assert Safe(c, d.(startingStopSince := Some(now)));
    case Send(command) =>
      if command.StartCommand? { SendStartKeepsSafe(c, d, now, ok); } else { SendShutdownKeepsSafe(c, d, now, ok); }
    case Fail(command, recoverOnRunning) => PolicyFaultKeepsSafe(c, d, command, recoverOnRunning);
  }

  lemma EvaluateKeepsSafe(c: Config, s: State, now: int, ok: bool)
    requires Safe(c, s) && StatusIsFresh(c, s, now) && SessionLive(s, now)
    ensures Safe(c, EvaluateControl(c, s, now, ok).0)
  {
    var e := s.(pendingControlDue := None);
    assert Safe(c, e);
    if e.attempt.Some? && e.attempt.value.retryReady && AttemptMatches(e, e.attempt.value) {
      if e.attempt.value.command.StartCommand? { SendStartKeepsSafe(c, e, now, ok); } else { SendShutdownKeepsSafe(c, e, now, ok); }
    } else if e.attempt.None? {
      DecideKeepsSafe(c, e, now, ok);
    }
  }

  lemma AskKeepsSafe(c: Config, s: State, query: Query, now: int, ok: bool)
    requires Safe(c, s)
    ensures var called := Asked(c, s, query, now, ok);
            Safe(c, called) && (ok ==> Safe(c, BeginResponseWait(called, query, now)))
  {
    WatchNext(c, s.history, if query.StatusQuery? then CallStatus(now, ok) else CallInit(now, ok));
    assert Safe(c, Asked(c, s, query, now, ok));
  }

  lemma SynchronizationKeepsSafe(c: Config, s: State, now: int, ok: bool)
    requires Safe(c, s)
    ensures Safe(c, RequestSynchronization(c, s, now, ok).0)
  {
    var query := if s.actual.initialized then StatusQuery else InitQuery;
    AskKeepsSafe(c, s, query, now, ok);
    ErrorKeepsSafe(c, Asked(c, s, query, now, ok), Some(now));
  }

  lemma SynchronizeKeepsSafe(c: Config, s: State, now: int, ok: bool)
    requires Safe(c, s)
    ensures Safe(c, Synchronize(c, s, now, ok).0)
  {
    SynchronizationKeepsSafe(c, s, now, ok);
  }

  lemma PolicyKeepsLive(c: Config, s: State, now: int, answer: SensorAnswer)
    requires SessionLive(s, now)
    ensures SessionLive(ApplySensorPolicy(c, s, now, answer), now)
  {
  }

  lemma EnsureKeepsLive(c: Config, s: State, now: int)
    requires Safe(c, s) && SessionLive(s, now)
    ensures SessionLive(EnsureActiveSession(c, s, now), now)
  {
  }

  lemma ConfirmationKeepsLive(c: Config, s: State, now: int)
    requires SessionLive(s, now)
    ensures SessionLive(CompleteSensorStopIfOff(CheckControlConfirmation(c, s, now)), now)
  {
  }

  lemma SettleIsLive(c: Config, s: State, now: int, answer: SensorAnswer)
    requires Safe(c, s)
    ensures SessionLive(Settle(c, s, now, answer), now)
  {
    StartDeadlineKeepsSafe(c, s, now);
    var s1 := CheckStartDeadline(s, now);
    ResponseTimeoutKeepsSafe(c, s1, now);
    var s2 := CheckResponseTimeout(c, s1, now);
    ExpiryKeepsSafe(c, s2, now);
    var s3 := CheckSessionExpiry(c, s2, now);
    PolicyKeepsSafe(c, s3, now, answer);
    PolicyKeepsLive(c, s3, now, answer);
    var s4 := ApplySensorPolicy(c, s3, now, answer);
    EnsureKeepsLive(c, s4, now);
    ConfirmationKeepsLive(c, EnsureActiveSession(c, s4, now), now);
  }

  lemma ActKeepsSafe(c: Config, s: State, now: int, ok: bool)
    requires Safe(c, s) && SessionLive(s, now)
    ensures Safe(c, Act(c, s, now, ok).0)
  {
    if !Due(now, s.pendingControlDue) {
      SynchronizeKeepsSafe(c, s, now, ok);
    } else if !StatusIsFresh(c, s, now) {
      var stale := s.(pendingControlDue := None, nextRequestDue := if s.expected.None? then Some(now) else s.nextRequestDue);
      assert Safe(c, stale);
      SynchronizeKeepsSafe(c, stale, now, ok);
    } else {
      EvaluateKeepsSafe(c, s, now, ok);
      SynchronizeKeepsSafe(c, EvaluateControl(c, s, now, ok).0, now, ok);
    }
  }

  lemma StepKeepsSafe(c: Config, s: State, now: int, answer: SensorAnswer, ok: bool)
    requires Safe(c, s)
    ensures Safe(c, Step(c, s, now, answer, ok).0)
  {
    SettleKeepsSafe(c, s, now, answer);
    SettleIsLive(c, s, now, answer);
    ActKeepsSafe(c, Settle(c, s, now, answer), now, ok);
  }
}
