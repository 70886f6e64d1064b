/** What the control authority does, not only what it must not do: when exactly a cycle withdraws the request, and which
    call or fault it answers each reported state with. */
module HeaterActions {
  import opened Options
  import opened ApplicationState
  import opened HeaterModel
  import opened HeaterMonitor
  import opened HeaterSafety
  import opened HeaterGrants
  import opened HeaterSessions
  import T = TemperatureModel

  /** The last word of the heater is one it may be controlled on: synchronized, without fault, nothing overdue and the
      STATUS younger than one heartbeat. */
  predicate Listening(c: Config, s: State, now: int) {
    && s.phase.Ready? && s.actual.communication.Healthy? && s.actual.initialized && s.actual.synchronized && s.fault.None?
    && !ResponseOverdue(c, s, now)
    && s.actual.lastStatus.Some? && 0 <= now - s.actual.lastStatus.value < c.heartbeat
  }

  // ---------------------------------------------------------------- when a request stands

  /** The start deadline passed before any session began. */
  predicate TooLate(s: State, now: int) {
    s.session.None? && s.notAfter.Some? && now > s.notAfter.value
  }

  predicate Expires(s: State, now: int) {
    s.session.Some? && !s.session.value.expired && now >= s.session.value.expires
  }

  /** The snapshot of the sensor a session is bound to, healthy; a session once confirmed also lives on a stale value, one
      not yet confirmed needs the sensor seen on the bus. */
  predicate Trusted(s: State, n: T.SensorSnapshot) {
    var confirmed := s.session.Some? && s.session.value.confirmed;
    && (s.session.Some? && s.binding.rom.Some? ==> n.rom == s.binding.rom)
    && (s.session.Some? && s.binding.assignment.Some? ==> s.binding.assignment == Some(n.assignment))
    && (s.session.Some? && s.binding.generation.Some? ==> s.binding.generation == Some(n.generation))
    && (if confirmed then n.health.Ok? || n.health.Stale? else n.health.Ok? && n.present == Some(true))
  }

  /** The snapshot the manager answers with, as far as it is believed. */
  function Heard(c: Config, answer: SensorAnswer, role: T.Role, now: int): T.SensorSnapshot {
    if answer.Answer? && Canonical(c.thresholds, answer.snapshot, role, now) then answer.snapshot else MissingSensor(role)
  }

  /** The role whose sensor supervises the session, or the request while there is none. */
  function Supervisor(s: State): Option<T.Role> {
    RoleOfMode(if s.session.Some? then s.session.value.mode else s.requested.mode)
  }

  /** Before the cycle: the request is ON and nothing in this cycle withdraws it. */
  predicate Stands(c: Config, s: State, now: int, answer: SensorAnswer) {
    && s.requested.on && !TooLate(s, now) && !Expires(s, now)
    && (Supervisor(s).Some? ==> Trusted(s, Heard(c, answer, Supervisor(s).value, now)))
  }

  lemma TrustedIsTolerated(s: State, n: T.SensorSnapshot)
    ensures SensorTolerated(s, n) <==> Trusted(s, n)
  {
  }

  /** The part of the state a control decision reads and settling leaves alone. */
  predicate SameTruth(s: State, t: State) {
    && t.phase == s.phase && t.actual == s.actual && t.fault == s.fault && t.startSent == s.startSent
    && t.shutdownSent == s.shutdownSent && t.restartBlocked == s.restartBlocked
    && t.startingStopSince == s.startingStopSince && t.nextRequestDue == s.nextRequestDue && t.expected == s.expected
    && t.waitStarted == s.waitStarted
  }

  /** From s to t the request was kept or withdrawn in a new revision. */
  predicate Requests(s: State, t: State, stands: bool) {
    && t.requested == (if s.requested.on && !stands then s.requested.(on := false) else s.requested)
    && t.revision == (if s.requested.on && !stands then s.revision + 1 else s.revision)
    && t.history == s.history + (if s.requested.on && !stands then [Revised(s.revision + 1, t.requested)] else [])
  }

  /** The session's sensor is lost and this was not yet answered. */
  predicate Lost(c: Config, s: State, now: int, answer: SensorAnswer) {
    && s.session.Some? && Supervisor(s).Some? && !Trusted(s, Heard(c, answer, Supervisor(s).value, now))
    && (s.requested.on || s.latch.None? || s.latch.value.sessionId != s.session.value.id)
  }

  /** Before the cycle: when it may decide at the earliest. A session that expires or has lost its sensor is decided on at
      once; a request withdrawn before its session waits for the next STATUS. */
  function Deadline(c: Config, s: State, now: int, answer: SensorAnswer): Option<int> {
    if Expires(s, now) || Lost(c, s, now, answer) then Some(now)
    else if ResponseOverdue(c, s, now) || (s.session.None? && s.requested.on && !Stands(c, s, now, answer)) then None
    else s.pendingControlDue
  }

  /** What a cycle has settled before it acts. */
  predicate Settled(c: Config, s: State, now: int, answer: SensorAnswer, t: State) {
    var stands := Stands(c, s, now, answer);
    && SameTruth(s, t) && Requests(s, t, stands) && t.pendingControlDue == Deadline(c, s, now, answer)
    && (stands && s.session.Some? ==> t.session == s.session)
    && (s.session.None? ==>
          if stands && IsActive(s.actual.state) then t.session.Some? && t.session.value.confirmed else t.session.None?)
    && (stands && t.session.None? && RoleOfMode(s.requested.mode).Some? ==> Bindable(t, RoleOfMode(s.requested.mode).value))
  }

  lemma DeadlineSettles(c: Config, s: State, now: int)
    ensures var t := CheckStartDeadline(s, now);
            var late := s.requested.on && TooLate(s, now);
            && SameTruth(s, t) && t.attempt == s.attempt && Requests(s, t, !late) && t.session == s.session && t.binding == s.binding
            && t.pendingControlDue == (if late then None else s.pendingControlDue) && (!late ==> t == s) && t.latch == s.latch
  {
    assert s.history + [] == s.history;
  }

  lemma ExpirySettles(c: Config, s: State, now: int)
    ensures var t := CheckSessionExpiry(c, s, now);
            && SameTruth(s, t) && t.attempt == s.attempt && Requests(s, t, !Expires(s, now)) && t.binding == s.binding && t.latch == s.latch
            && t.pendingControlDue == (if Expires(s, now) then Some(now) else s.pendingControlDue)
            && t.session == (if Expires(s, now) then Some(s.session.value.(expired := true)) else s.session)
            && (!Expires(s, now) ==> t == s)
  {
    hide RequestStop, ScheduleControl;
    assert s.history + [] == s.history;
    if Expires(s, now) {
      var expired := s.(session := Some(s.session.value.(expired := true)));
      StopRequests(expired);
      Scheduled(c, (if s.requested.on then RequestStop(expired) else expired).(pendingControlDue := None), now);
    }
  }

  lemma PreludeSettles(c: Config, s: State, now: int)
    requires !ResponseOverdue(c, s, now)
    ensures var t := CheckSessionExpiry(c, CheckResponseTimeout(c, CheckStartDeadline(s, now), now), now);
            var stands := s.requested.on && !TooLate(s, now) && !Expires(s, now);
            && SameTruth(s, t) && t.attempt == s.attempt && Requests(s, t, stands) && t.latch == s.latch
            && t.pendingControlDue ==
               (if Expires(s, now) then Some(now) else if s.requested.on && TooLate(s, now) then None else s.pendingControlDue)
            && t.session.Some? == s.session.Some? && t.binding == s.binding
            && (s.session.Some? ==> t.session == Some(s.session.value.(expired := s.session.value.expired || Expires(s, now))))
            && (stands ==> t == s)
  {
    hide CheckSessionExpiry, CheckStartDeadline;
    DeadlineSettles(c, s, now);
    ExpirySettles(c, CheckStartDeadline(s, now), now);
    assert CheckResponseTimeout(c, CheckStartDeadline(s, now), now) == CheckStartDeadline(s, now);
    assert s.history + [] == s.history;
  }

  lemma StopSettles(c: Config, s: State, now: int, role: T.Role, health: T.Health)
    ensures var t := StopForSensor(c, s, now, role, health);
            && SameTruth(s, t) && t.attempt == s.attempt && t.session == s.session && Requests(s, t, false)
            && t.pendingControlDue == StopDue(s, now)
  {
    hide RequestStop, ScheduleControl, SameTruth, Requests;
    StopRequests(s);
    var stopped := RequestStop(s);
    Scheduled(c, stopped.(pendingControlDue := None), now);
    var t := StopForSensor(c, s, now, role, health);
    SamePastSchedule(s, stopped, t);
    assert t == s || t == stopped.(pendingControlDue := t.pendingControlDue, latch := t.latch);
    assert !s.requested.on ==> s.history + [] == s.history;
    if t == s { Unrequested(s); }
  }

  lemma Unrequested(s: State)
    requires !s.requested.on
    ensures Requests(s, s, false) && SameTruth(s, s)
  {
    assert s.history + [] == s.history;
  }

  lemma SamePastSchedule(s: State, stopped: State, t: State)
    requires SameTruth(s, stopped) && Requests(s, stopped, false)
    ensures t == stopped.(pendingControlDue := t.pendingControlDue, latch := t.latch) ==> SameTruth(s, t) && Requests(s, t, false)
  {
  }

  lemma Scheduled(c: Config, s: State, now: int)
    ensures s.pendingControlDue.None? ==> ScheduleControl(c, s, now, true) == s.(pendingControlDue := Some(now))
  {
  }

  lemma StopRequests(s: State)
    ensures var t := RequestStop(s);
            && SameTruth(s, t) && Requests(s, t, false) && t.attempt == s.attempt && t.session == s.session && t.latch == s.latch
            && t.binding == s.binding && t.pendingControlDue == s.pendingControlDue && !t.requested.on
  {
    assert s.history + [] == s.history;
  }

  /** When a request withdrawn for its sensor is decided on. */
  function StopDue(s: State, now: int): Option<int> {
    if s.session.None? then (if s.requested.on then None else s.pendingControlDue)
    else if s.requested.on || s.latch.None? || s.latch.value.sessionId != s.session.value.id then Some(now)
    else s.pendingControlDue
  }

  /** The sensor policy lets the request stand exactly while the supervising sensor is trusted. */
  lemma PolicySettles(c: Config, s: State, now: int, answer: SensorAnswer)
    requires s.session.Some? || s.requested.on
    ensures var t := ApplySensorPolicy(c, s, now, answer);
            var role := Supervisor(s);
            var trusted := role.Some? ==> Trusted(s, Heard(c, answer, role.value, now));
            && SameTruth(s, t) && t.attempt == s.attempt && t.session == s.session && Requests(s, t, trusted)
            && (trusted ==> t == s.(activeSensor := if role.Some? then Some(Heard(c, answer, role.value, now)) else None))
            && (!trusted ==> t.pendingControlDue == StopDue(s, now))
  {
    hide SensorTolerated, EffectiveHealth, Trusted, Canonical, StopForSensor;
    assert s.history + [] == s.history;
    if Supervisor(s).Some? {
      var n := Heard(c, answer, Supervisor(s).value, now);
      TrustedIsTolerated(s, n);
      StopSettles(c, s.(activeSensor := Some(n)), now, Supervisor(s).value, EffectiveHealth(s, n));
    }
  }

  /** A sensor trusted before a session began can be bound. */
  lemma TrustedCanBeBound(c: Config, s: State, role: T.Role, answer: SensorAnswer, now: int)
    requires s.session.None? && Trusted(s, Heard(c, answer, role, now))
    ensures Bindable(s.(activeSensor := Some(Heard(c, answer, role, now))), role)
  {
  }

  /** An active heater under a request gets its session. */
  lemma EnsureSettles(c: Config, s: State, now: int)
    requires s.session.None? && s.requested.on && RoleOfMode(s.requested.mode).Some? ==> Bindable(s, RoleOfMode(s.requested.mode).value)
    ensures var t := EnsureActiveSession(c, s, now);
            && SameTruth(s, t) && t.attempt == s.attempt && t.requested == s.requested && t.revision == s.revision
            && t.history == s.history && t.pendingControlDue == s.pendingControlDue && t.activeSensor == s.activeSensor
            && (if s.session.None? && s.requested.on && IsActive(s.actual.state) then t.session.Some? && t.session.value.confirmed
                else t == s)
  {
  }

  lemma WithoutAttempt(c: Config, s: State, now: int)
    requires s.attempt.None?
    ensures CompleteSensorStopIfOff(CheckControlConfirmation(c, s, now)) == s.(latch := CompleteSensorStopIfOff(s).latch)
  {
  }

  lemma RequestsTwice(s: State, t: State, u: State, first: bool, then_: bool)
    requires Requests(s, t, first) && Requests(t, u, then_)
    ensures Requests(s, u, first && then_)
  {
  }

  /** Everything before the confirmation check. */
  function Policed(c: Config, s: State, now: int, answer: SensorAnswer): State {
    EnsureActiveSession(c, ApplySensorPolicy(c, CheckSessionExpiry(c, CheckResponseTimeout(c, CheckStartDeadline(s, now), now), now), now, answer), now)
  }

  lemma IdlePolicy(c: Config, s: State, now: int, answer: SensorAnswer)
    requires s.session.None? && !s.requested.on
    ensures ApplySensorPolicy(c, s, now, answer) == s.(activeSensor := None)
    ensures EnsureActiveSession(c, s.(activeSensor := None), now) == s.(activeSensor := None)
  {
  }

  /** The sensor policy, and after it the session an active heater gets. */
  lemma SupervisionSettles(c: Config, s: State, now: int, answer: SensorAnswer)
    requires s.session.Some? || s.requested.on
    ensures var t := EnsureActiveSession(c, ApplySensorPolicy(c, s, now, answer), now);
            var role := Supervisor(s);
            var trusted := role.Some? ==> Trusted(s, Heard(c, answer, role.value, now));
            && SameTruth(s, t) && t.attempt == s.attempt && Requests(s, t, trusted)
            && (trusted ==> t.pendingControlDue == s.pendingControlDue)
            && (!trusted ==> t.pendingControlDue == StopDue(s, now))
            && (s.session.Some? ==> t.session == s.session)
            && (s.session.None? ==>
                  if trusted && IsActive(s.actual.state) then t.session.Some? && t.session.value.confirmed else t.session.None?)
            && (trusted && t.session.None? && role.Some? ==> Bindable(t, role.value))
  {
    hide ApplySensorPolicy, EnsureActiveSession, Bindable, Trusted, Canonical;
    PolicySettles(c, s, now, answer);
    var role := Supervisor(s);
    if s.session.None? && role.Some? && Trusted(s, Heard(c, answer, role.value, now)) {
      TrustedCanBeBound(c, s, role.value, answer, now);
    }
    EnsureSettles(c, ApplySensorPolicy(c, s, now, answer), now);
  }

  lemma PolicedIsSettled(c: Config, s: State, now: int, answer: SensorAnswer)
    requires !ResponseOverdue(c, s, now)
    ensures Settled(c, s, now, answer, Policed(c, s, now, answer)) && Policed(c, s, now, answer).attempt == s.attempt
  {
    hide CheckSessionExpiry, CheckResponseTimeout, CheckStartDeadline, ApplySensorPolicy, EnsureActiveSession, Bindable, Heard;
    PreludeSettles(c, s, now);
    var s3 := CheckSessionExpiry(c, CheckResponseTimeout(c, CheckStartDeadline(s, now), now), now);
    assert s.history + [] == s.history;
    if s3.session.Some? || s3.requested.on { SupervisionSettles(c, s3, now, answer); } else { IdlePolicy(c, s3, now, answer); }
  }

  // ---------------------------------------------------------------- when an attempt is over

  /** A STATUS came after the send and did not confirm it, and waiting longer is pointless. */
  predicate Unanswered(c: Config, a: Attempt, now: int) {
    a.statusAfterSend && (a.sendFailed || now - a.lastSent >= c.confirmationTimeout)
  }

  /** The reported state before the cycle, forgotten when an answer is overdue. */
  function Reported(c: Config, s: State, now: int): HeaterState {
    if ResponseOverdue(c, s, now) then Unknown else s.actual.state
  }

  /** The attempt is for the request as it stands, and the heater has not moved. */
  predicate Current(c: Config, s: State, a: Attempt, now: int, answer: SensorAnswer) {
    && a.revision == s.revision
    && (if a.command.StartCommand? then Stands(c, s, now, answer) && Reported(c, s, now).Off?
        else !s.requested.on && Reported(c, s, now).Running?)
  }

  /** The attempt is over in this cycle: its effect was reported, or nobody wants it any more. */
  predicate Ends(c: Config, s: State, a: Attempt, now: int, answer: SensorAnswer) {
    && s.fault.None? && a.statusAfterSend
    && var st := Reported(c, s, now);
       || (if a.command.StartCommand? then st.Starting? || st.Running? || st.TempMonitoring? else st.ShuttingDown? || st.Off?)
       || (Unanswered(c, a, now) && !Current(c, s, a, now, answer))
  }

  predicate Exhausted(c: Config, s: State, a: Attempt, now: int, answer: SensorAnswer) {
    s.fault.None? && Unanswered(c, a, now) && Current(c, s, a, now, answer) && a.attempts >= c.maxAttempts
  }

  /** No attempt is open, or the open one is over in this cycle. */
  predicate Free(c: Config, s: State, now: int, answer: SensorAnswer) {
    s.attempt.Some? ==> Ends(c, s, s.attempt.value, now, answer)
  }

  // ---------------------------------------------------------------- one decision

  /** The cycle decides on a control call: truth is fresh and the decision is due. */
  predicate Decides(c: Config, s: State, now: int, answer: SensorAnswer) {
    Listening(c, s, now) && Due(now, Deadline(c, s, now, answer))
  }

  predicate StopsNow(c: Config, s: State, now: int, answer: SensorAnswer) {
    && Decides(c, s, now, answer) && s.actual.state.Running? && !Stands(c, s, now, answer)
    && (s.requested.on || s.shutdownSent != Some(s.revision))
  }

  predicate StartsNow(c: Config, s: State, now: int, answer: SensorAnswer) {
    && Decides(c, s, now, answer) && s.actual.state.Off? && Stands(c, s, now, answer) && s.startSent != Some(s.revision)
  }

  /** The states in which a stop or start is not sent but given up: a completed generation came to nothing, the heater
      never got from STARTING to RUNNING, or it reports a state whose stop is unknown. */
  function GivesUp(c: Config, s: State, now: int, answer: SensorAnswer): Option<Fault> {
    if !Decides(c, s, now, answer) then None
    else if Stands(c, s, now, answer) then
      if s.actual.state.Off? && s.startSent == Some(s.revision) then Some(Fault(StartCommand, 0, false)) else None
    else if s.actual.state.Running? && !s.requested.on && s.shutdownSent == Some(s.revision) then Some(Fault(ShutdownCommand, 0, false))
    else if s.actual.state.TempMonitoring? then Some(Fault(ShutdownCommand, 0, true))
    else if s.actual.state.Starting? && s.startingStopSince.Some? && now - s.startingStopSince.value >= c.startingStopTimeout
    then Some(Fault(ShutdownCommand, 0, true))
    else None
  }

  /** The withdrawal a cycle adds before it acts. */
  function Withdrawn(c: Config, s: State, now: int, answer: SensorAnswer): seq<Event> {
    if s.requested.on && !Stands(c, s, now, answer) then [Revised(s.revision + 1, s.requested.(on := false))] else []
  }

  /** The heater is asked for its state: when the heartbeat is due, or a decision is due on stale truth. */
  predicate AsksNow(c: Config, s: State, now: int, deadline: Option<int>) {
    || s.nextRequestDue.None? || now >= s.nextRequestDue.value
    || (Due(now, deadline) && (s.expected.None? || ResponseOverdue(c, s, now))
        && !(s.actual.lastStatus.Some? && 0 <= now - s.actual.lastStatus.value < c.heartbeat))
  }

  function Query(c: Config, s: State, now: int, ok: bool): Event {
    if s.actual.initialized && !ResponseOverdue(c, s, now) then CallStatus(now, ok) else CallInit(now, ok)
  }

  function AnswerTo(e: Event): Operation {
    match e
    case CallInit(_, ok) => Initialization(ok)
    case CallStatus(_, ok) => StatusRequest(ok)
    case CallStart(_, _, _, _, ok) => Start(ok)
    case CallShutdown(_, _, ok) => Shutdown(ok)
    case _ => Initialization(false)
  }

  /** The cycle added the withdrawal and this one call, or none, and returned it. */
  predicate Called(s: State, withdrawn: seq<Event>, r: (State, Outcome<Option<Operation>>), call: Option<Event>) {
    && r.0.history == s.history + withdrawn + (if call.Some? then [call.value] else [])
    && r.1 == Done(if call.Some? then Some(AnswerTo(call.value)) else None)
  }

  /** Truth on which a cycle may decide, once settled. */
  predicate MayDecide(c: Config, u: State, now: int) {
    && u.phase.Ready? && u.actual.communication.Healthy? && u.actual.initialized && u.actual.synchronized && u.fault.None?
    && u.actual.lastStatus.Some? && 0 <= now - u.actual.lastStatus.value < c.heartbeat
  }

  lemma ActStops(c: Config, u: State, now: int, ok: bool)
    requires MayDecide(c, u, now) && Due(now, u.pendingControlDue) && u.attempt.None?
    requires u.actual.state.Running? && !u.requested.on && u.shutdownSent != Some(u.revision)
    ensures Called(u, [], Act(c, u, now, ok), Some(CallShutdown(u.revision, now, ok))) && Act(c, u, now, ok).0.fault == u.fault
  {
  }

  lemma ActStarts(c: Config, u: State, now: int, ok: bool)
    requires MayDecide(c, u, now) && Due(now, u.pendingControlDue) && u.attempt.None?
    requires u.actual.state.Off? && u.requested.on && !u.restartBlocked && u.startSent != Some(u.revision)
    requires ValidStart(u.requested, c.maxRuntime)
    requires u.session.None? && RoleOfMode(u.requested.mode).Some? ==> Bindable(u, RoleOfMode(u.requested.mode).value)
    ensures var expires := if u.session.Some? then u.session.value.expires else now + 60000 * u.requested.runtime;
            && Called(u, [], Act(c, u, now, ok), Some(CallStart(u.revision, ParametersOf(u.requested), now, expires, ok)))
            && Act(c, u, now, ok).0.fault == u.fault && Act(c, u, now, ok).0.session.Some?
            && Act(c, u, now, ok).0.session.value.expires == expires
  {
    hide SendControl;
    SendingStarts(c, u.(pendingControlDue := None, startingStopSince := None), now, ok);
  }

  lemma SendingStarts(c: Config, u: State, now: int, ok: bool)
    requires u.attempt.None? && u.requested.on && ValidStart(u.requested, c.maxRuntime)
    requires u.session.None? && RoleOfMode(u.requested.mode).Some? ==> Bindable(u, RoleOfMode(u.requested.mode).value)
    ensures var r := SendControl(c, u, StartCommand, now, ok);
            var expires := if u.session.Some? then u.session.value.expires else now + 60000 * u.requested.runtime;
            && r.0.history == u.history + [CallStart(u.revision, ParametersOf(u.requested), now, expires, ok)]
            && r.1 == Sent(Start(ok)) && r.0.fault == u.fault && r.0.session.Some? && r.0.session.value.expires == expires
  {
  }

  predicate SendsAt(u: State) {
    || (u.actual.state.Running? && !u.requested.on && u.shutdownSent != Some(u.revision))
    || (u.actual.state.Off? && u.requested.on && u.startSent != Some(u.revision))
  }

  function FaultAt(c: Config, u: State, now: int): Option<Fault> {
    match u.actual.state
    case Off => if u.requested.on && u.startSent == Some(u.revision) then Some(Fault(StartCommand, 0, false)) else None
    case Running => if !u.requested.on && u.shutdownSent == Some(u.revision) then Some(Fault(ShutdownCommand, 0, false)) else None
    case TempMonitoring => if u.requested.on then None else Some(Fault(ShutdownCommand, 0, true))
    case Starting =>
      if !u.requested.on && u.startingStopSince.Some? && now - u.startingStopSince.value >= c.startingStopTimeout
      then Some(Fault(ShutdownCommand, 0, true)) else None
    case _ => None
  }

  /** Since when a decision has been waiting for STARTING to become RUNNING. */
  function StopWait(u: State, now: int): Option<int> {
    if !u.actual.state.Starting? || u.requested.on then None
    else if u.startingStopSince.None? then Some(now) else u.startingStopSince
  }

  function AskAt(c: Config, u: State, now: int, ok: bool): Option<Event> {
    if || u.nextRequestDue.None? || now >= u.nextRequestDue.value
       || (Due(now, u.pendingControlDue) && u.expected.None?
           && !(u.actual.lastStatus.Some? && 0 <= now - u.actual.lastStatus.value < c.heartbeat))
    then Some(if u.actual.initialized then CallStatus(now, ok) else CallInit(now, ok)) else None
  }

  lemma DecidingQuietly(c: Config, u: State, now: int, ok: bool)
    requires u.attempt.None? && (u.requested.on ==> !u.restartBlocked) && !(MayDecide(c, u, now) && SendsAt(u))
    requires 0 < c.heartbeat && u.actual.lastStatus.Some? && 0 <= now - u.actual.lastStatus.value < c.heartbeat
    ensures var r := EvaluateControl(c, u, now, ok);
            && r.1.Idle? && r.0.history == u.history && r.0.nextRequestDue == u.nextRequestDue && r.0.actual == u.actual
            && r.0.expected == u.expected && r.0.attempt.None?
            && r.0.fault == (if MayDecide(c, u, now) && FaultAt(c, u, now).Some? then FaultAt(c, u, now) else u.fault)
            && r.0.startingStopSince == (if MayDecide(c, u, now) then StopWait(u, now) else u.startingStopSince)
  {
    hide DecideControl, FaultAt, StopWait, SendsAt;
    if MayDecide(c, u, now) { VerdictIsQuiet(c, u, now, ok); }
  }

  lemma VerdictIsQuiet(c: Config, u: State, now: int, ok: bool)
    requires u.attempt.None? && (u.requested.on ==> !u.restartBlocked) && MayDecide(c, u, now) && !SendsAt(u)
    ensures var r := DecideControl(c, u.(pendingControlDue := None), now, ok);
            && r.1.Idle? && r.0.history == u.history && r.0.nextRequestDue == u.nextRequestDue && r.0.actual == u.actual
            && r.0.expected == u.expected && r.0.attempt.None?
            && r.0.fault == (if FaultAt(c, u, now).Some? then FaultAt(c, u, now) else u.fault)
            && r.0.startingStopSince == StopWait(u, now)
  {
  }

  lemma Synchronizing(c: Config, u: State, now: int, ok: bool)
    ensures var r := Synchronize(c, u, now, ok);
            var call := if u.nextRequestDue.None? || now >= u.nextRequestDue.value
                        then Some(if u.actual.initialized then CallStatus(now, ok) else CallInit(now, ok)) else None;
            && r.0.history == u.history + (if call.Some? then [call.value] else [])
            && r.1 == (if call.Some? then Some(AnswerTo(call.value)) else None)
            && r.0.fault == u.fault && r.0.startingStopSince == u.startingStopSince && r.0.attempt == u.attempt
  {
  }

  lemma ActsQuietly(c: Config, u: State, now: int, ok: bool)
    requires u.attempt.None? && (u.requested.on ==> !u.restartBlocked) && 0 < c.heartbeat
    requires !(MayDecide(c, u, now) && Due(now, u.pendingControlDue) && SendsAt(u))
    ensures var r := Act(c, u, now, ok);
            var deciding := MayDecide(c, u, now) && Due(now, u.pendingControlDue);
            && Called(u, [], r, AskAt(c, u, now, ok)) && r.0.attempt.None?
            && r.0.fault == (if deciding && FaultAt(c, u, now).Some? then FaultAt(c, u, now) else u.fault)
            && r.0.startingStopSince == (if deciding then StopWait(u, now) else u.startingStopSince)
  {
    hide EvaluateControl, Synchronize, FaultAt, SendsAt, StopWait;
    assert u.history + [] == u.history;
    if !Due(now, u.pendingControlDue) {
      Synchronizing(c, u, now, ok);
    } else if !StatusIsFresh(c, u, now) {
      Synchronizing(c, u.(pendingControlDue := None, nextRequestDue := if u.expected.None? then Some(now) else u.nextRequestDue), now, ok);
    } else {
      DecidingQuietly(c, u, now, ok);
      Synchronizing(c, EvaluateControl(c, u, now, ok).0, now, ok);
    }
  }

  // ---------------------------------------------------------------- one cycle without an open attempt

  lemma OverdueSettles(c: Config, s: State, now: int, answer: SensorAnswer)
    requires ResponseOverdue(c, s, now)
    ensures Settled(c, MarkCommunicationError(s, Some(now)), now, answer, Policed(c, s, now, answer))
    ensures Policed(c, s, now, answer).attempt == s.attempt
  {
    var e := MarkCommunicationError(s, Some(now));
    DeadlineFirst(c, s, now);
    PolicedIsSettled(c, e, now, answer);
    hide CheckSessionExpiry, CheckResponseTimeout, CheckStartDeadline, ApplySensorPolicy, EnsureActiveSession, Settled;
  }

  lemma DeadlineFirst(c: Config, s: State, now: int)
    requires ResponseOverdue(c, s, now)
    ensures var e := MarkCommunicationError(s, Some(now));
            CheckResponseTimeout(c, CheckStartDeadline(s, now), now) == CheckResponseTimeout(c, CheckStartDeadline(e, now), now)
  {
  }

  /** The cycle's view of an overdue answer: the same request and session, nothing known, and no decision due for it. */
  lemma OverdueView(c: Config, s: State, now: int, answer: SensorAnswer)
    requires ResponseOverdue(c, s, now)
    ensures var e := MarkCommunicationError(s, Some(now));
            && Stands(c, e, now, answer) == Stands(c, s, now, answer) && Deadline(c, e, now, answer) == Deadline(c, s, now, answer)
            && !ResponseOverdue(c, e, now)
  {
    hide Canonical;
  }

  /** What the settled state shows of the state before the cycle. */
  predicate SeenThrough(c: Config, s: State, now: int, answer: SensorAnswer, u: State) {
    var stands := Stands(c, s, now, answer);
    && u.requested.on == stands && (stands ==> u.requested == s.requested && u.revision == s.revision)
    && (!stands ==> u.revision == (if s.requested.on then s.revision + 1 else s.revision))
    && u.history == s.history + Withdrawn(c, s, now, answer) && u.pendingControlDue == Deadline(c, s, now, answer)
    && u.fault == s.fault && u.startSent == s.startSent && u.shutdownSent == s.shutdownSent
    && u.restartBlocked == s.restartBlocked && u.startingStopSince == s.startingStopSince
    && u.actual.lastStatus == s.actual.lastStatus
    && (!ResponseOverdue(c, s, now) ==> u.actual == s.actual && u.phase == s.phase && u.expected == s.expected && u.nextRequestDue == s.nextRequestDue)
    && (ResponseOverdue(c, s, now) ==>
          && !u.phase.Ready? && !u.actual.initialized && u.actual.state.Unknown? && u.expected.None?
          && u.nextRequestDue == (if s.nextRequestDue.None? then Some(now) else s.nextRequestDue))
    && (stands && s.session.Some? ==> u.session == s.session)
    && (stands && s.session.None? && !IsActive(u.actual.state) ==>
          u.session.None? && (RoleOfMode(s.requested.mode).Some? ==> Bindable(u, RoleOfMode(s.requested.mode).value)))
    && (stands && IsActive(u.actual.state) ==> u.session.Some?)
  }

  lemma PolicedSees(c: Config, s: State, now: int, answer: SensorAnswer)
    ensures SeenThrough(c, s, now, answer, Policed(c, s, now, answer)) && Policed(c, s, now, answer).attempt == s.attempt
  {
    assert Stands(c, s, now, answer) ==> s.requested.on;
    if ResponseOverdue(c, s, now) {
      OverdueSettles(c, s, now, answer);
      OverdueView(c, s, now, answer);
      SeesOverdue(c, s, now, answer, Policed(c, s, now, answer));
    } else {
      PolicedIsSettled(c, s, now, answer);
      SeesTruth(c, s, now, answer, Policed(c, s, now, answer));
    }
    hide SeenThrough, Settled, Policed;
  }

  lemma SeesTruth(c: Config, s: State, now: int, answer: SensorAnswer, p: State)
    requires !ResponseOverdue(c, s, now) && Settled(c, s, now, answer, p) && (Stands(c, s, now, answer) ==> s.requested.on)
    ensures SeenThrough(c, s, now, answer, p)
  {
    hide Stands, Deadline, Bindable;
  }

  lemma SeesOverdue(c: Config, s: State, now: int, answer: SensorAnswer, p: State)
    requires ResponseOverdue(c, s, now) && Settled(c, MarkCommunicationError(s, Some(now)), now, answer, p)
    requires Stands(c, s, now, answer) ==> s.requested.on
    requires var e := MarkCommunicationError(s, Some(now));
             Stands(c, e, now, answer) == Stands(c, s, now, answer) && Deadline(c, e, now, answer) == Deadline(c, s, now, answer)
    ensures SeenThrough(c, s, now, answer, p)
  {
    hide Stands, Deadline, Bindable;
  }

  /** What the confirmation check reads of the state before the cycle. */
  predicate SeenByCheck(c: Config, s: State, now: int, answer: SensorAnswer, p: State) {
    && p.attempt == s.attempt && p.fault == s.fault && p.actual.state == Reported(c, s, now)
    && p.requested.on == Stands(c, s, now, answer) && p.pendingControlDue == Deadline(c, s, now, answer)
    && p.revision == (if s.requested.on && !Stands(c, s, now, answer) then s.revision + 1 else s.revision)
  }

  lemma PolicedIsSeen(c: Config, s: State, now: int, answer: SensorAnswer)
    ensures SeenByCheck(c, s, now, answer, Policed(c, s, now, answer))
  {
    hide Stands, Deadline, Policed;
    PolicedSees(c, s, now, answer);
  }

  /** An attempt that is over leaves nothing but, after a cancelled START, no session. */
  lemma EndedIsCleared(c: Config, s: State, now: int, answer: SensorAnswer, p: State)
    requires Safe(c, s) && s.attempt.Some? && Ends(c, s, s.attempt.value, now, answer) && SeenByCheck(c, s, now, answer, p)
    ensures var u := CompleteSensorStopIfOff(CheckControlConfirmation(c, p, now));
            && u == p.(attempt := None, latch := u.latch, session := u.session, binding := u.binding)
            && (Stands(c, s, now, answer) ==> u.session == p.session && u.binding == p.binding)
  {
    OwnRevision(c, s);
    hide Safe, Stands, Deadline;
  }

  lemma CycleSees(c: Config, s: State, now: int, answer: SensorAnswer)
    requires Safe(c, s) && Free(c, s, now, answer)
    ensures SeenThrough(c, s, now, answer, Settle(c, s, now, answer)) && Settle(c, s, now, answer).attempt.None?
  {
    var p, u := Policed(c, s, now, answer), Settle(c, s, now, answer);
    PolicedSees(c, s, now, answer);
    if s.attempt.None? {
      WithoutAttempt(c, p, now);
    } else {
      PolicedIsSeen(c, s, now, answer);
      EndedIsCleared(c, s, now, answer, p);
    }
    SeesPastLatch(c, s, now, answer, p, u);
    hide SeenThrough, Policed, CheckControlConfirmation, CompleteSensorStopIfOff, Stands;
  }

  lemma SeesPastLatch(c: Config, s: State, now: int, answer: SensorAnswer, p: State, u: State)
    requires SeenThrough(c, s, now, answer, p)
    requires u == p.(attempt := u.attempt, latch := u.latch, session := u.session, binding := u.binding)
    requires Stands(c, s, now, answer) ==> u.session == p.session && u.binding == p.binding
    ensures SeenThrough(c, s, now, answer, u)
  {
    hide Stands, Deadline, Withdrawn;
  }

  lemma WithdrawnThenCalled(s: State, u: State, withdrawn: seq<Event>, r: (State, Outcome<Option<Operation>>), call: Option<Event>)
    requires u.history == s.history + withdrawn && Called(u, [], r, call)
    ensures Called(s, withdrawn, r, call)
  {
  }

  lemma ViewDecides(c: Config, s: State, now: int, answer: SensorAnswer, u: State)
    requires SeenThrough(c, s, now, answer, u)
    ensures MayDecide(c, u, now) <==> Listening(c, s, now)
  {
    hide Stands, Deadline, Withdrawn, Bindable;
  }

  lemma ViewAsks(c: Config, s: State, now: int, answer: SensorAnswer, u: State, deadline: Option<int>, ok: bool)
    requires SeenThrough(c, s, now, answer, u)
    ensures AskAt(c, u.(pendingControlDue := deadline), now, ok) ==
            if AsksNow(c, s, now, deadline) then Some(Query(c, s, now, ok)) else None
  {
    hide Stands, Deadline, Withdrawn, Bindable;
  }

  /** While it decides, the settled state says what the state before the cycle says. */
  lemma ViewSorts(c: Config, s: State, now: int, answer: SensorAnswer, u: State)
    requires SeenThrough(c, s, now, answer, u) && Decides(c, s, now, answer)
    requires s.startSent.Some? ==> s.startSent.value <= s.revision
    requires s.shutdownSent.Some? ==> s.shutdownSent.value <= s.revision
    requires Stands(c, s, now, answer) ==> s.requested.on
    ensures SendsAt(u) <==> StopsNow(c, s, now, answer) || StartsNow(c, s, now, answer)
    ensures FaultAt(c, u, now) == GivesUp(c, s, now, answer)
    ensures u.actual.state == s.actual.state && u.startSent == s.startSent && u.shutdownSent == s.shutdownSent
  {
    hide Stands, Deadline, Withdrawn, Bindable;
  }

  lemma ViewRequests(c: Config, s: State, now: int, answer: SensorAnswer, u: State)
    requires SeenThrough(c, s, now, answer, u)
    ensures u.history == s.history + Withdrawn(c, s, now, answer) && u.pendingControlDue == Deadline(c, s, now, answer)
    ensures u.requested.on == Stands(c, s, now, answer) && u.fault == s.fault && u.restartBlocked == s.restartBlocked
    ensures Stands(c, s, now, answer) ==> u.requested == s.requested && u.revision == s.revision
    ensures !Stands(c, s, now, answer) ==> u.revision == (if s.requested.on then s.revision + 1 else s.revision)
  {
    hide Stands, Deadline, Withdrawn, Bindable;
  }

  lemma SafelyStands(c: Config, s: State, now: int, answer: SensorAnswer)
    ensures Stands(c, s, now, answer) ==> s.requested.on
  {
  }

  lemma NotSending(c: Config, s: State, now: int, answer: SensorAnswer)
    ensures StopsNow(c, s, now, answer) || StartsNow(c, s, now, answer) || GivesUp(c, s, now, answer).Some? ==> Decides(c, s, now, answer)
  {
  }

  lemma CycleStops(c: Config, s: State, now: int, answer: SensorAnswer, ok: bool)
    requires Safe(c, s) && Free(c, s, now, answer) && StopsNow(c, s, now, answer)
    ensures
      var r := Step(c, s, now, answer, ok);
      && r.0.fault == s.fault
      && Called(s, Withdrawn(c, s, now, answer), r, Some(CallShutdown(if s.requested.on then s.revision + 1 else s.revision, now, ok)))
  {
    hide Safe, Settle, Stands, Deadline, Act, Called, Withdrawn, Free, SeenThrough, Listening, MayDecide, Due;
    CycleSees(c, s, now, answer);
    SafeRequest(c, s);
    var u := Settle(c, s, now, answer);
    SafelyStands(c, s, now, answer);
    ViewDecides(c, s, now, answer, u);
    ViewSorts(c, s, now, answer, u);
    ViewRequests(c, s, now, answer, u);
    ActStops(c, u, now, ok);
    WithdrawnThenCalled(s, u, Withdrawn(c, s, now, answer), Act(c, u, now, ok), Some(CallShutdown(u.revision, now, ok)));
  }

  lemma CycleStarts(c: Config, s: State, now: int, answer: SensorAnswer, ok: bool)
    requires Safe(c, s) && Free(c, s, now, answer) && StartsNow(c, s, now, answer)
    ensures
      var r := Step(c, s, now, answer, ok);
      && r.0.fault == s.fault && r.0.session.Some?
      && r.0.session.value.expires == (if s.session.Some? then s.session.value.expires else now + 60000 * s.requested.runtime)
      && Called(s, [], r, Some(CallStart(s.revision, ParametersOf(s.requested), now, r.0.session.value.expires, ok)))
  {
    hide Safe, Settle, Stands, Deadline, Act, Bindable, Free, Called, SeenThrough, Listening, MayDecide, Due, StartsNow;
    CycleSees(c, s, now, answer);
    SafeRequest(c, s);
    SafelyStands(c, s, now, answer);
    StartIsSeen(c, s, now, answer, Settle(c, s, now, answer));
    ActStarts(c, Settle(c, s, now, answer), now, ok);
    CalledAlike(s, Settle(c, s, now, answer), Act(c, Settle(c, s, now, answer), now, ok));
  }

  lemma StartIsSeen(c: Config, s: State, now: int, answer: SensorAnswer, u: State)
    requires SeenThrough(c, s, now, answer, u) && u.attempt.None? && StartsNow(c, s, now, answer)
    requires Stands(c, s, now, answer) ==> s.requested.on && !s.restartBlocked && ValidStart(s.requested, c.maxRuntime)
    ensures MayDecide(c, u, now) && Due(now, u.pendingControlDue)
    ensures u.actual.state.Off? && u.requested == s.requested && u.revision == s.revision && u.requested.on && !u.restartBlocked
    ensures u.startSent != Some(u.revision) && u.fault == s.fault && u.session == s.session && u.history == s.history
    ensures ValidStart(u.requested, c.maxRuntime)
    ensures u.session.None? && RoleOfMode(u.requested.mode).Some? ==> Bindable(u, RoleOfMode(u.requested.mode).value)
  {
    hide Stands, Deadline, Bindable;
  }

  lemma CalledAlike(s: State, u: State, r: (State, Outcome<Option<Operation>>))
    requires s.history == u.history
    ensures forall withdrawn, call :: Called(u, withdrawn, r, call) == Called(s, withdrawn, r, call)
  {
  }

  lemma CycleStaysQuiet(c: Config, s: State, now: int, answer: SensorAnswer, ok: bool)
    requires Safe(c, s) && Free(c, s, now, answer) && !StopsNow(c, s, now, answer) && !StartsNow(c, s, now, answer)
    ensures
      var r := Step(c, s, now, answer, ok);
      && r.0.fault == (if GivesUp(c, s, now, answer).Some? then GivesUp(c, s, now, answer) else s.fault)
      && Called(s, Withdrawn(c, s, now, answer), r, if AsksNow(c, s, now, Deadline(c, s, now, answer)) then Some(Query(c, s, now, ok)) else None)
  {
    hide Safe, Settle, Stands, Deadline, Act, Called, Withdrawn, Free, SeenThrough, Listening, MayDecide, Due, SendsAt, FaultAt,
         AskAt, AsksNow, Query, StopsNow, StartsNow, StopWait;
    CycleSees(c, s, now, answer);
    SafeRequest(c, s);
    var u := Settle(c, s, now, answer);
    SafelyStands(c, s, now, answer);
    NotSending(c, s, now, answer);
    ViewDecides(c, s, now, answer, u);
    if Decides(c, s, now, answer) { ViewSorts(c, s, now, answer, u); }
    ViewRequests(c, s, now, answer, u);
    ViewAsks(c, s, now, answer, u, u.pendingControlDue, ok);
    ActsQuietly(c, u, now, ok);
    WithdrawnThenCalled(s, u, Withdrawn(c, s, now, answer), Act(c, u, now, ok), AskAt(c, u, now, ok));
  }

  /** Everything a cycle does while no attempt is open, or the open one is over. It withdraws a request that does not stand;
      it sends SHUTDOWN or START exactly on fresh truth, once per revision; it gives up exactly where nothing may be sent any
      more; and it asks for the heater's state whenever the heartbeat is due and nothing else was called. */
  lemma CycleDecides(c: Config, s: State, now: int, answer: SensorAnswer, ok: bool)
    requires Safe(c, s) && Free(c, s, now, answer)
    ensures
      var r := Step(c, s, now, answer, ok);
      var withdrawn := Withdrawn(c, s, now, answer);
      && r.0.fault == (if GivesUp(c, s, now, answer).Some? then GivesUp(c, s, now, answer) else s.fault)
      && if StopsNow(c, s, now, answer) then
           Called(s, withdrawn, r, Some(CallShutdown(if s.requested.on then s.revision + 1 else s.revision, now, ok)))
         else if StartsNow(c, s, now, answer) then
           && r.0.session.Some?
           && r.0.session.value.expires == (if s.session.Some? then s.session.value.expires else now + 60000 * s.requested.runtime)
           && Called(s, [], r, Some(CallStart(s.revision, ParametersOf(s.requested), now, r.0.session.value.expires, ok)))
         else
           Called(s, withdrawn, r, if AsksNow(c, s, now, Deadline(c, s, now, answer)) then Some(Query(c, s, now, ok)) else None)
  {
    if StopsNow(c, s, now, answer) {
      CycleStops(c, s, now, answer, ok);
    } else if StartsNow(c, s, now, answer) {
      CycleStarts(c, s, now, answer, ok);
    } else {
      CycleStaysQuiet(c, s, now, answer, ok);
    }
    hide Step, Called, Stands, Deadline, Withdrawn, AsksNow, Listening, Free;
  }

  lemma SafeRequest(c: Config, s: State)
    requires Safe(c, s)
    ensures ValidConfig(c) && (s.requested.on ==> ValidStart(s.requested, c.maxRuntime) && !s.restartBlocked)
    ensures s.startSent.Some? ==> s.startSent.value <= s.revision
    ensures s.shutdownSent.Some? ==> s.shutdownSent.value <= s.revision
  {
    hide Watch;
  }

  // ---------------------------------------------------------------- one cycle with an open attempt

  /** When a retry may be sent: as already planned, else at once after a failed send, or after the settling time. */
  function RetryDeadline(c: Config, s: State, a: Attempt, now: int, answer: SensorAnswer): Option<int> {
    var planned := Deadline(c, s, now, answer);
    if planned.Some? || s.fault.Some? || !Unanswered(c, a, now) then planned
    else Some(if a.sendFailed then now else now + c.settle)
  }

  predicate Retries(c: Config, s: State, a: Attempt, now: int, answer: SensorAnswer) {
    && Listening(c, s, now) && Current(c, s, a, now, answer) && (a.retryReady || Unanswered(c, a, now))
    && a.attempts < c.maxAttempts && Due(now, RetryDeadline(c, s, a, now, answer))
  }

  /** What the confirmation check makes of a settled state with an open attempt that does not end. */
  predicate Checked(c: Config, s: State, a: Attempt, now: int, answer: SensorAnswer, p: State, u: State) {
    if Exhausted(c, s, a, now, answer) then
      u == p.(latch := u.latch, fault := Some(Fault(a.command, a.attempts, false)), phase := InError, pendingControlDue := None)
    else if s.fault.None? && Unanswered(c, a, now) && Current(c, s, a, now, answer) then
      u == p.(latch := u.latch, attempt := Some(a.(retryReady := true)), pendingControlDue := RetryDeadline(c, s, a, now, answer))
    else u == p.(latch := u.latch)
  }

  lemma OpenAttemptIsChecked(c: Config, s: State, a: Attempt, now: int, answer: SensorAnswer)
    requires Safe(c, s) && s.attempt == Some(a) && !Ends(c, s, a, now, answer)
    ensures Checked(c, s, a, now, answer, Policed(c, s, now, answer), Settle(c, s, now, answer))
  {
    PolicedIsSeen(c, s, now, answer);
    OwnRevision(c, s);
    assert Stands(c, s, now, answer) ==> s.requested.on;
    hide Policed, Stands, Deadline, Safe;
    CheckSorts(c, s, a, now, answer, Policed(c, s, now, answer));
  }

  lemma OwnRevision(c: Config, s: State)
    requires Safe(c, s) && s.attempt.Some?
    ensures s.attempt.value.revision <= s.revision
    ensures s.attempt.value.revision == s.revision ==> s.attempt.value.command.StartCommand? == s.requested.on
    ensures s.attempt.value.retryReady ==> s.attempt.value.attempts < c.maxAttempts
    ensures s.attempt.value.revision == s.revision && s.requested.on ==>
      s.attempt.value.parameters == ParametersOf(s.requested) && s.attempt.value.spec == SpecOf(s.requested)
  {
    hide Watch;
  }

  lemma CheckSorts(c: Config, s: State, a: Attempt, now: int, answer: SensorAnswer, p: State)
    requires s.attempt == Some(a) && SeenByCheck(c, s, now, answer, p) && !Ends(c, s, a, now, answer)
    requires a.revision <= s.revision && (a.revision == s.revision ==> a.command.StartCommand? == s.requested.on)
    requires Stands(c, s, now, answer) ==> s.requested.on
    ensures Checked(c, s, a, now, answer, p, CompleteSensorStopIfOff(CheckControlConfirmation(c, p, now)))
  {
    hide Stands, Deadline;
  }

  lemma ActRetries(c: Config, u: State, a: Attempt, now: int, ok: bool)
    requires MayDecide(c, u, now) && Due(now, u.pendingControlDue) && u.attempt == Some(a) && a.retryReady && a.revision == u.revision
    requires if a.command.StartCommand? then u.requested.on && u.actual.state.Off? else !u.requested.on && u.actual.state.Running?
    requires a.command.StartCommand? ==> a.parameters == ParametersOf(u.requested) && a.spec == SpecOf(u.requested)
    requires u.session.None? && u.requested.on && RoleOfMode(u.requested.mode).Some? ==> Bindable(u, RoleOfMode(u.requested.mode).value)
    ensures var r := Act(c, u, now, ok);
            var expires := if u.session.Some? then u.session.value.expires else now + 60000 * u.requested.runtime;
            && r.0.fault == u.fault && r.0.attempt.Some? && r.0.attempt.value.attempts == a.attempts + 1
            && (a.command.StartCommand? ==> r.0.session.Some? && r.0.session.value.expires == expires)
            && Called(u, [], r, Some(if a.command.StartCommand? then CallStart(u.revision, ParametersOf(u.requested), now, expires, ok)
                                     else CallShutdown(u.revision, now, ok)))
  {
  }

  lemma WaitingQuietly(c: Config, u: State, a: Attempt, now: int, ok: bool)
    requires u.attempt == Some(a)
    requires !(MayDecide(c, u, now) && a.retryReady && AttemptMatches(u, a))
    requires u.actual.lastStatus.Some? && 0 <= now - u.actual.lastStatus.value < c.heartbeat
    ensures EvaluateControl(c, u, now, ok) == (u.(pendingControlDue := None), Idle)
  {
  }

  lemma ActWaits(c: Config, u: State, a: Attempt, now: int, ok: bool)
    requires u.attempt == Some(a) && 0 < c.heartbeat
    requires !(MayDecide(c, u, now) && Due(now, u.pendingControlDue) && a.retryReady && AttemptMatches(u, a))
    ensures var r := Act(c, u, now, ok); Called(u, [], r, AskAt(c, u, now, ok)) && r.0.fault == u.fault && r.0.attempt == u.attempt
  {
    hide EvaluateControl, Synchronize, AttemptMatches;
    assert u.history + [] == u.history;
    if !Due(now, u.pendingControlDue) {
      Synchronizing(c, u, now, ok);
    } else if !StatusIsFresh(c, u, now) {
      Synchronizing(c, u.(pendingControlDue := None, nextRequestDue := if u.expected.None? then Some(now) else u.nextRequestDue), now, ok);
    } else {
      WaitingQuietly(c, u, a, now, ok);
      Synchronizing(c, u.(pendingControlDue := None), now, ok);
    }
  }

  /** What a cycle that leaves the attempt open acts on. */
  lemma CycleLeavesAttempt(c: Config, s: State, a: Attempt, now: int, answer: SensorAnswer)
    requires Safe(c, s) && s.attempt == Some(a) && !Ends(c, s, a, now, answer)
    ensures var (p, u) := (Policed(c, s, now, answer), Settle(c, s, now, answer));
            SeenThrough(c, s, now, answer, p) && p.attempt == s.attempt && Checked(c, s, a, now, answer, p, u)
  {
    hide SeenThrough, Checked, Policed, Settle, Stands;
    PolicedSees(c, s, now, answer);
    OpenAttemptIsChecked(c, s, a, now, answer);
  }

  /** The settled state of a cycle that retries. */
  lemma RetryView(c: Config, s: State, a: Attempt, now: int, answer: SensorAnswer, p: State, u: State)
    requires SeenThrough(c, s, now, answer, p) && p.attempt == s.attempt == Some(a) && Checked(c, s, a, now, answer, p, u)
    requires Retries(c, s, a, now, answer) && (Stands(c, s, now, answer) ==> s.requested.on)
    ensures MayDecide(c, u, now) && Due(now, u.pendingControlDue) && u.attempt == Some(a.(retryReady := true)) && a.revision == u.revision
    ensures if a.command.StartCommand? then u.requested == s.requested && u.requested.on && u.actual.state.Off?
            else !u.requested.on && u.actual.state.Running?
    ensures u.session.None? && u.requested.on && RoleOfMode(u.requested.mode).Some? ==> Bindable(u, RoleOfMode(u.requested.mode).value)
    ensures u.history == s.history && u.fault == s.fault && u.revision == s.revision
  {
    hide Stands, Deadline;
  }

  lemma CycleRetries(c: Config, s: State, a: Attempt, now: int, answer: SensorAnswer, ok: bool)
    requires Safe(c, s) && s.attempt == Some(a) && Retries(c, s, a, now, answer)
    ensures
      var r := Step(c, s, now, answer, ok);
      && r.0.fault == s.fault && r.0.attempt.Some? && r.0.attempt.value.attempts == a.attempts + 1
      && (a.command.StartCommand? ==> r.0.session.Some?)
      && Called(s, [], r, Some(if a.command.StartCommand?
                               then CallStart(s.revision, ParametersOf(s.requested), now, r.0.session.value.expires, ok)
                               else CallShutdown(s.revision, now, ok)))
  {
    RetryIsOpen(c, s, a, now, answer);
    hide Safe, Settle, Act, Bindable, Policed, Retries, Checked, Ends, SeenThrough;
    CycleLeavesAttempt(c, s, a, now, answer);
    OwnRevision(c, s);
    var u := Settle(c, s, now, answer);
    SafelyStands(c, s, now, answer);
    RetryView(c, s, a, now, answer, Policed(c, s, now, answer), u);
    ActRetries(c, u, a.(retryReady := true), now, ok);
  }

  lemma RetryIsOpen(c: Config, s: State, a: Attempt, now: int, answer: SensorAnswer)
    requires Retries(c, s, a, now, answer)
    ensures !Ends(c, s, a, now, answer)
  {
    hide Stands, Deadline;
  }

  /** When a cycle with an open attempt may act at the earliest. */
  function OpenDeadline(c: Config, s: State, a: Attempt, now: int, answer: SensorAnswer): Option<int> {
    if Exhausted(c, s, a, now, answer) then None else RetryDeadline(c, s, a, now, answer)
  }

  /** What is left to do with an attempt that neither ends nor is due again. */
  lemma CheckedView(c: Config, s: State, a: Attempt, now: int, answer: SensorAnswer, p: State, u: State, ok: bool)
    requires SeenThrough(c, s, now, answer, p) && p.attempt == s.attempt == Some(a) && Checked(c, s, a, now, answer, p, u)
    requires !Ends(c, s, a, now, answer) && !Retries(c, s, a, now, answer)
    requires a.revision <= s.revision && (a.revision == s.revision ==> a.command.StartCommand? == s.requested.on)
    requires a.retryReady ==> a.attempts < c.maxAttempts
    requires Stands(c, s, now, answer) ==> s.requested.on
    ensures u.attempt.Some? && u.attempt.value.attempts == a.attempts && u.history == p.history
    ensures u.fault == (if Exhausted(c, s, a, now, answer) then Some(Fault(a.command, a.attempts, false)) else s.fault)
    ensures !(MayDecide(c, u, now) && Due(now, u.pendingControlDue) && u.attempt.value.retryReady && AttemptMatches(u, u.attempt.value))
    ensures AskAt(c, u, now, ok) == if AsksNow(c, s, now, OpenDeadline(c, s, a, now, answer)) then Some(Query(c, s, now, ok)) else None
  {
    CheckedAsks(c, s, a, now, answer, p, u, ok);
    hide Stands, Deadline, Withdrawn, Bindable, AskAt, AsksNow, Query;
  }

  lemma CheckedAsks(c: Config, s: State, a: Attempt, now: int, answer: SensorAnswer, p: State, u: State, ok: bool)
    requires SeenThrough(c, s, now, answer, p) && p.attempt == s.attempt == Some(a) && Checked(c, s, a, now, answer, p, u)
    requires !Ends(c, s, a, now, answer) && !Retries(c, s, a, now, answer)
    requires a.revision <= s.revision && (a.revision == s.revision ==> a.command.StartCommand? == s.requested.on)
    requires a.retryReady ==> a.attempts < c.maxAttempts
    ensures AskAt(c, u, now, ok) == if AsksNow(c, s, now, OpenDeadline(c, s, a, now, answer)) then Some(Query(c, s, now, ok)) else None
  {
    ViewAsks(c, s, now, answer, p, OpenDeadline(c, s, a, now, answer), ok);
    hide Stands, Deadline, Withdrawn, Bindable, AsksNow, Query;
  }

  lemma CycleWaits(c: Config, s: State, a: Attempt, now: int, answer: SensorAnswer, ok: bool)
    requires Safe(c, s) && s.attempt == Some(a) && !Ends(c, s, a, now, answer) && !Retries(c, s, a, now, answer)
    ensures
      var r := Step(c, s, now, answer, ok);
      && r.0.fault == (if Exhausted(c, s, a, now, answer) then Some(Fault(a.command, a.attempts, false)) else s.fault)
      && r.0.attempt.Some? && r.0.attempt.value.attempts == a.attempts
      && Called(s, Withdrawn(c, s, now, answer), r,
                if AsksNow(c, s, now, OpenDeadline(c, s, a, now, answer)) then Some(Query(c, s, now, ok)) else None)
  {
    hide Safe, Settle, Stands, Deadline, Act, Policed, Called, Withdrawn, SeenThrough, AskAt, AsksNow, Query, Checked, Ends;
    CycleLeavesAttempt(c, s, a, now, answer);
    SafeRequest(c, s);
    OwnRevision(c, s);
    var p, u := Policed(c, s, now, answer), Settle(c, s, now, answer);
    ViewRequests(c, s, now, answer, p);
    CheckedView(c, s, a, now, answer, p, u, ok);
    ActWaits(c, u, u.attempt.value, now, ok);
    WithdrawnThenCalled(s, u, Withdrawn(c, s, now, answer), Act(c, u, now, ok), AskAt(c, u, now, ok));
  }

  /** Everything a cycle does with an attempt that is not over: it sends it again exactly when it went unanswered, the
      request behind it still stands, sends are left and the retry is due; after the last one it raises the fault; and
      otherwise it waits, asking for the heater's state whenever the heartbeat is due. */
  lemma CycleKeepsTrying(c: Config, s: State, a: Attempt, now: int, answer: SensorAnswer, ok: bool)
    requires Safe(c, s) && s.attempt == Some(a) && !Ends(c, s, a, now, answer)
    ensures
      var r := Step(c, s, now, answer, ok);
      && r.0.fault == (if Exhausted(c, s, a, now, answer) then Some(Fault(a.command, a.attempts, false)) else s.fault)
      && r.0.attempt.Some?
      && if Retries(c, s, a, now, answer) then
           && r.0.attempt.value.attempts == a.attempts + 1 && (a.command.StartCommand? ==> r.0.session.Some?)
           && Called(s, [], r, Some(if a.command.StartCommand?
                                    then CallStart(s.revision, ParametersOf(s.requested), now, r.0.session.value.expires, ok)
                                    else CallShutdown(s.revision, now, ok)))
         else
           && r.0.attempt.value.attempts == a.attempts
           && Called(s, Withdrawn(c, s, now, answer), r,
                     if AsksNow(c, s, now, OpenDeadline(c, s, a, now, answer)) then Some(Query(c, s, now, ok)) else None)
  {
    if Retries(c, s, a, now, answer) { CycleRetries(c, s, a, now, answer, ok); } else { CycleWaits(c, s, a, now, answer, ok); }
    hide Step, Called, Stands, Deadline, Withdrawn, AsksNow, Listening, Ends;
  }

  /** No cycle of a safe controller raises. */
  lemma NoCycleRaises(c: Config, s: State, now: int, answer: SensorAnswer, ok: bool)
    requires Safe(c, s)
    ensures Step(c, s, now, answer, ok).1.Done?
  {
    if Free(c, s, now, answer) { CycleDecides(c, s, now, answer, ok); } else { CycleKeepsTrying(c, s, s.attempt.value, now, answer, ok); }
    hide Step, Safe, StopsNow, StartsNow, GivesUp, Retries, Exhausted, AsksNow, Withdrawn;
  }

  // ---------------------------------------------------------------- a request reaches the heater

  /** A STATUS is awaited and arrives in time, on a controller with nothing open and no fault. */
  predicate Awaiting(c: Config, s: State, now: int) {
    && s.actual.initialized && s.expected == Some(StatusQuery) && s.waitStarted.Some?
    && now - s.waitStarted.value < c.responseTimeout && s.fault.None? && s.attempt.None?
  }

  lemma RunningWithoutAttempt(s: State, now: int, previous: HeaterState, recovering: bool)
    requires s.actual.state.Running? && s.attempt.None? && s.fault.None?
    ensures ProcessConfirmation(s, now, previous, recovering) == s.(session := ConfirmSession(s).session)
  {
  }

  lemma AcceptedRunning(c: Config, s: State, now: int)
    requires Awaiting(c, s, now)
    ensures var t := AcceptStatus(c, s, 4, now);
            && t.history == s.history + [StatusAccepted(Running, now, s.waitStarted.value)]
            && t.requested == s.requested && t.revision == s.revision && t.shutdownSent == s.shutdownSent
            && t.attempt.None? && t.fault.None? && t.phase.Ready? && t.expected.None?
            && t.actual == Actual(Healthy, true, true, Running, Some(now))
            && t.pendingControlDue == (if s.pendingControlDue.Some? then s.pendingControlDue else Some(now + c.settle))
  {
    hide ProcessConfirmation, ConfirmSession;
    RunningWithoutAttempt(TakeStatus(c, s, 4, now), now, s.actual.state, s.communicationFault);
  }

  lemma AcceptedOff(c: Config, s: State, now: int)
    requires Awaiting(c, s, now) && s.requested.on && OffIsNoStop(s)
    ensures var t := AcceptStatus(c, s, 0, now);
            && t.history == s.history + [StatusAccepted(Off, now, s.waitStarted.value)]
            && t.requested == s.requested && t.revision == s.revision && t.startSent == s.startSent && t.notAfter == s.notAfter
            && t.attempt.None? && t.fault.None? && t.phase.Ready? && t.expected.None? && t.session == s.session && t.binding == s.binding
            && t.actual == Actual(Healthy, true, true, Off, Some(now))
            && t.pendingControlDue == (if s.pendingControlDue.Some? then s.pendingControlDue else Some(now + c.settle))
  {
  }

  /** A stop requested while the heater runs reaches the port: the first STATUS that says RUNNING and a cycle after the
      settling time send the SHUTDOWN of the new revision, whatever the sensor answers meanwhile. */
  lemma StopReachesHeater(c: Config, s: State, heard: int, now: int, answer: SensorAnswer, ok: bool)
    requires Safe(c, s) && Awaiting(c, s, heard) && s.requested.on
    requires heard + c.settle <= now < heard + c.heartbeat && (s.pendingControlDue.Some? ==> s.pendingControlDue.value <= now)
    ensures
      var asked := AcceptStatus(c, RequestStop(s), 4, heard);
      var r := Step(c, asked, now, answer, ok);
      && r.0.history == s.history + [Revised(s.revision + 1, s.requested.(on := false)),
                                     StatusAccepted(Running, heard, s.waitStarted.value), CallShutdown(s.revision + 1, now, ok)]
      && r.1 == Done(Some(Shutdown(ok)))
  {
    hide Safe, AcceptStatus, Step, StopsNow, Withdrawn;
    var stopped := RequestStop(s);
    RequestStopKeepsSafe(c, s);
    SafeRequest(c, s);
    AcceptedRunning(c, stopped, heard);
    AcceptStatusKeepsSafe(c, stopped, 4, heard);
    var asked := AcceptStatus(c, stopped, 4, heard);
    StopIsDue(c, asked, now, answer);
    CycleStops(c, asked, now, answer, ok);
  }

  lemma StopIsDue(c: Config, s: State, now: int, answer: SensorAnswer)
    requires !s.requested.on && s.shutdownSent != Some(s.revision) && s.attempt.None?
    requires MayDecide(c, s, now) && s.expected.None? && s.actual.state.Running? && Due(now, s.pendingControlDue)
    ensures StopsNow(c, s, now, answer) && Withdrawn(c, s, now, answer) == []
  {
    hide Trusted, Canonical;
  }

  lemma StartIsDue(c: Config, s: State, now: int, answer: SensorAnswer)
    requires Stands(c, s, now, answer) && s.startSent != Some(s.revision) && s.attempt.None?
    requires MayDecide(c, s, now) && s.expected.None? && s.actual.state.Off? && Due(now, s.pendingControlDue)
    ensures StartsNow(c, s, now, answer)
  {
    hide Canonical, Trusted;
  }

  /** A new request stands until its deadline while the sensor of its mode is healthy and on the bus. */
  lemma NewRequestStands(c: Config, s: State, now: int, answer: SensorAnswer)
    requires s.requested.on && s.session.None? && (s.notAfter.Some? ==> now <= s.notAfter.value)
    requires RoleOfMode(s.requested.mode).Some? ==>
      var n := Heard(c, answer, RoleOfMode(s.requested.mode).value, now); n.health.Ok? && n.present == Some(true)
    ensures Stands(c, s, now, answer)
  {
    hide Canonical;
  }

  /** When a start is granted: it is complete, in time, and nothing is left of an earlier one. */
  predicate Startable(c: Config, s: State, wanted: Requested, notAfter: Option<int>, now: Option<int>) {
    && ValidStart(wanted, c.maxRuntime)
    && match (notAfter, now) {
         case (None, None) => true
         case (Some(deadline), Some(time)) => time <= deadline && wanted.source in {"timer", "manual", "quick_start"}
         case _ => false
       }
    && !s.requested.on && s.session.None? && s.attempt.None? && s.latch.None? && !s.restartBlocked
  }

  /** A start request is granted exactly then and makes itself the request of a new revision; any other leaves everything. */
  lemma StartIsGranted(c: Config, s: State, wanted: Requested, notAfter: Option<int>, now: Option<int>)
    ensures var r := RequestStart(c, s, wanted, notAfter, now);
            && (r.1 == Done(true) <==> Startable(c, s, wanted, notAfter, now))
            && (r.1 == Done(true) ==> r.0.requested == wanted.(on := true) && r.0.notAfter == notAfter && r.0.revision == s.revision + 1)
            && (r.1 != Done(true) ==> r.0 == s)
  {
  }

  /** What an update asks for, and whether there is anything to change. */
  predicate Updatable(c: Config, s: State, expectedRevision: int, target: Option<int>, extend: int, now: int) {
    && Adjustable(s, now) && s.revision == expectedRevision
    && (extend == 0 || extend == 15) && s.session.value.runtime + extend <= c.maxRuntime
    && (if target.Some? then 5 <= target.value <= 30 && !s.requested.mode.Power? else extend == 15)
  }

  /** A session update is accepted exactly then; it moves target, runtime and expiry of request and session together, under a
      new revision if anything changes, so that the session can be updated again. */
  lemma UpdateTakesEffect(c: Config, s: State, expectedRevision: int, target: Option<int>, extend: int, now: int)
    ensures
      var r := UpdateActiveSession(c, s, expectedRevision, target, extend, now);
      && (r.1.Done? <==> Updatable(c, s, expectedRevision, target, extend, now))
      && (r.1.Done? ==>
            && Adjustable(r.0, now) && r.0.session.value.expires == s.session.value.expires + 60000 * extend
            && r.0.requested == s.requested.(target := if target.Some? then target else s.requested.target, runtime := s.requested.runtime + extend)
            && (r.1.value <==> r.0.requested != s.requested))
      && r.0.revision == (if r.1 == Done(true) then s.revision + 1 else s.revision) && (r.1 != Done(true) ==> r.0 == s)
  {
  }

  /** A granted start request reaches the port: an OFF status and a cycle after the settling time send its START, unless the
      deadline passed or its sensor is not trusted. */
  lemma RequestReachesHeater(
    c: Config, s: State, wanted: Requested, notAfter: Option<int>, at: Option<int>, heard: int, now: int, answer: SensorAnswer, ok: bool)
    requires Safe(c, s) && Awaiting(c, s, heard) && OffIsNoStop(s)
    requires RequestStart(c, s, wanted, notAfter, at).1 == Done(true)
    requires heard + c.settle <= now < heard + c.heartbeat && (s.pendingControlDue.Some? ==> s.pendingControlDue.value <= now)
    requires notAfter.Some? ==> now <= notAfter.value
    requires RoleOfMode(wanted.mode).Some? ==>
      var n := Heard(c, answer, RoleOfMode(wanted.mode).value, now); n.health.Ok? && n.present == Some(true)
    ensures
      var asked := AcceptStatus(c, RequestStart(c, s, wanted, notAfter, at).0, 0, heard);
      var r := Step(c, asked, now, answer, ok);
      && r.0.history == s.history + [Revised(s.revision + 1, wanted.(on := true)), StatusAccepted(Off, heard, s.waitStarted.value),
                                     CallStart(s.revision + 1, ParametersOf(wanted), now, now + 60000 * wanted.runtime, ok)]
      && r.1 == Done(Some(Start(ok)))
  {
    hide Safe, AcceptStatus, Step, StartsNow, Heard, Stands;
    var requested := RequestStart(c, s, wanted, notAfter, at).0;
    RequestStartKeepsSafe(c, s, wanted, notAfter, at);
    SafeRequest(c, s);
    AcceptedOff(c, requested, heard);
    AcceptStatusKeepsSafe(c, requested, 0, heard);
    var asked := AcceptStatus(c, requested, 0, heard);
    NewRequestStands(c, asked, now, answer);
    StartIsDue(c, asked, now, answer);
    CycleStarts(c, asked, now, answer, ok);
  }

  /** An authorised retry reaches the port too: after it an OFF status and a cycle send a START of the new revision, under
      the session the request already has or a new one. */
  lemma RetryReachesHeater(c: Config, s: State, at: int, heard: int, now: int, answer: SensorAnswer, ok: bool)
    requires Safe(c, s) && s.requested.on && RetryControlFault(s, at).1 == Done(true)
    requires var retried := RetryControlFault(s, at).0; Awaiting(c, retried, heard) && OffIsNoStop(retried)
    requires heard + c.settle <= now < heard + c.heartbeat
    requires Stands(c, AcceptStatus(c, RetryControlFault(s, at).0, 0, heard), now, answer)
    ensures
      var asked := AcceptStatus(c, RetryControlFault(s, at).0, 0, heard);
      var r := Step(c, asked, now, answer, ok);
      && r.0.session.Some?
      && r.0.history == s.history + [Revised(s.revision + 1, s.requested), StatusAccepted(Off, heard, s.waitStarted.value),
                                     CallStart(s.revision + 1, ParametersOf(s.requested), now, r.0.session.value.expires, ok)]
      && r.1 == Done(Some(Start(ok)))
  {
    hide Safe, AcceptStatus, Step, StartsNow, Stands;
    var retried := RetryControlFault(s, at).0;
    RetryKeepsSafe(c, s, at);
    SafeRequest(c, s);
    AcceptedOff(c, retried, heard);
    AcceptStatusKeepsSafe(c, retried, 0, heard);
    var asked := AcceptStatus(c, retried, 0, heard);
    StartIsDue(c, asked, now, answer);
    CycleStarts(c, asked, now, answer, ok);
  }

  // ---------------------------------------------------------------- frames

  /** The STATUS shows that a given-up command took effect after all, or that nobody wants it any more. */
  predicate Overtaken(f: Fault, on: bool, state: HeaterState) {
    if f.command.StartCommand? then IsActive(state) || (!on && state.Off?)
    else state.ShuttingDown? || state.Off? || (state.Running? && (on || f.recoverOnRunning))
  }

  /** A fault outlives an accepted STATUS exactly while it is not overtaken; the attempt behind it ends with it. */
  lemma FaultOutlivesStatus(c: Config, s: State, raw: int, now: int)
    requires s.waitStarted.Some? && s.fault.Some?
    ensures var t := AcceptStatus(c, s, raw, now);
            && (t.fault.None? <==> Overtaken(s.fault.value, t.requested.on, StateOfRaw(raw)))
            && (t.fault.Some? ==> t.fault == s.fault) && (t.fault.None? ==> t.attempt.None?)
            && (t.fault.Some? && t.actual.synchronized ==> t.phase.InError?)
  {
    var taken := TakeStatus(c, s, raw, now);
    hide UnexpectedStop, FinishStatus;
    var s2 := AfterOff(AfterUnexpectedStop(taken, s.actual.state, s.communicationFault));
    assert s2.fault == s.fault && s2.actual == taken.actual;
    ResolvingKeepsRequest(s2, now);
    FinishKeepsFault(c, ProcessConfirmation(taken, now, s.actual.state, s.communicationFault), now);
    hide AfterUnexpectedStop, AfterOff;
  }

  lemma ResolvingKeepsRequest(s: State, now: int)
    requires s.fault.Some?
    ensures var t := ConfirmSession(ResolveAttempt(ResolveFault(s), now));
            && t.requested == s.requested && t.actual == s.actual
            && (t.fault.None? <==> Overtaken(s.fault.value, s.requested.on, s.actual.state))
            && (t.fault.Some? ==> t.fault == s.fault) && (t.fault.None? ==> t.attempt.None?)
  {
    hide ResolveAttempt, ConfirmSession;
    AttemptKeepsFault(ResolveFault(s), now);
    SessionKeepsFault(ResolveAttempt(ResolveFault(s), now));
  }

  lemma AttemptKeepsFault(s: State, now: int)
    ensures var t := ResolveAttempt(s, now); t == s.(attempt := t.attempt) && (s.attempt.None? ==> t.attempt.None?)
  {
  }

  lemma SessionKeepsFault(s: State)
    ensures var t := ConfirmSession(s); t == s.(session := t.session)
  {
  }

  lemma FinishKeepsFault(c: Config, s: State, now: int)
    ensures var t := FinishStatus(c, s, now);
            t.fault == s.fault && t.requested == s.requested && t.attempt == s.attempt && t.actual == s.actual
            && (t.fault.Some? && t.actual.synchronized ==> t.phase.InError?)
  {
  }

  /** A frame for the controller that is not what it says it is. */
  predicate Malformed(i: Inbound) {
    || i.NotADictionary?
    || (i.Parsed? && i.frame.device == DEVICE_HEATER
        && ((i.frame.command == CMD_INIT && !KnownFrameIsConsistent(i.frame, CMD_INIT, INIT_PAYLOAD_LENGTH))
            || (i.frame.command == CMD_STATUS && !StatusIsConsistent(i.frame))))
  }

  function Hears(c: Config, s: State, frames: seq<Inbound>, now: int): State
    decreases |frames|
  {
    if frames == [] then s else Hears(c, HandleFrame(c, s, frames[0], now).0, frames[1..], now)
  }

  lemma MalformedStrikes(c: Config, s: State, i: Inbound, now: int)
    requires Malformed(i)
    ensures var t := HandleFrame(c, s, i, now).0;
            && t.strikes == s.strikes + 1 && t.pendingControlDue.None? && t.history == s.history && t.requested == s.requested
            && t.actual.communication == (if t.strikes >= c.invalidThreshold then Broken else s.actual.communication)
  {
    hide KnownFrameIsConsistent, StatusIsConsistent;
  }

  /** Malformed frames in a row break the communication exactly when they reach the threshold; any of them puts a pending
      decision off. */
  lemma {:induction false} MalformedFramesBreakCommunication(c: Config, s: State, frames: seq<Inbound>, now: int)
    requires s.actual.communication.Healthy? && s.strikes < c.invalidThreshold && forall i :: i in frames ==> Malformed(i)
    ensures var t := Hears(c, s, frames, now);
            && (t.actual.communication.Broken? <==> s.strikes + |frames| >= c.invalidThreshold)
            && t.strikes == s.strikes + |frames| && t.history == s.history && t.requested == s.requested
            && (frames != [] ==> t.pendingControlDue.None?)
    decreases |frames|
  {
    if frames != [] {
      MalformedStrikes(c, s, frames[0], now);
      var next := HandleFrame(c, s, frames[0], now).0;
      if next.strikes < c.invalidThreshold {
        hide HandleFrame;
        MalformedFramesBreakCommunication(c, next, frames[1..], now);
      } else {
        hide HandleFrame;
        StaysBroken(c, next, frames[1..], now);
      }
    }
  }

  lemma {:induction false} StaysBroken(c: Config, s: State, frames: seq<Inbound>, now: int)
    requires s.actual.communication.Broken? && s.strikes >= c.invalidThreshold && s.pendingControlDue.None?
    requires forall i :: i in frames ==> Malformed(i)
    ensures var t := Hears(c, s, frames, now);
            && t.actual.communication.Broken? && t.strikes == s.strikes + |frames| && t.history == s.history
            && t.requested == s.requested && t.pendingControlDue.None?
    decreases |frames|
  {
    hide HandleFrame;
    if frames != [] {
      MalformedStrikes(c, s, frames[0], now);
      StaysBroken(c, HandleFrame(c, s, frames[0], now).0, frames[1..], now);
    }
  }
}
