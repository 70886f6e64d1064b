/** The control authority of app/heater_controller.py as a value: its state, its history of port
    calls and accepted truth, and the transition each of its methods makes. */
module HeaterModel {
  import opened Options
  import opened ApplicationState
  import T = TemperatureModel

  datatype Config = Config(
    heartbeat: int, responseTimeout: int, settle: int, confirmationTimeout: int, maxAttempts: int,
    maxRuntime: int, startingStopTimeout: int, invalidThreshold: int, thresholds: T.Thresholds)

  predicate ValidConfig(c: Config) {
    && 0 < c.heartbeat < c.responseTimeout && 0 < c.settle && 0 < c.confirmationTimeout && 0 < c.maxAttempts
    && 0 < c.maxRuntime && 0 < c.startingStopTimeout && 0 < c.invalidThreshold && T.ValidThresholds(c.thresholds)
  }

  datatype Phase = Unsynchronized | WaitInit | WaitStatus | Ready | InError

  datatype Query = InitQuery | StatusQuery

  datatype Command = StartCommand | ShutdownCommand

  datatype Parameters = Parameters(mode: Mode, target: Option<int>, power: Option<int>)

  datatype SessionSpec = SessionSpec(source: string, mode: Mode, target: int, runtime: int)

  datatype Attempt = Attempt(
    command: Command, attempts: int, lastSent: int, statusAfterSend: bool, sendFailed: bool,
    retryReady: bool, revision: int, parameters: Parameters, spec: SessionSpec)

  datatype Fault = Fault(command: Command, attempts: int, recoverOnRunning: bool)

  datatype Latch = Latch(role: T.Role, health: T.Health, sessionId: int)

  datatype Binding = Binding(rom: Option<string>, generation: Option<int>, assignment: Option<int>)

  /** One entry of the history: a call on the protocol port, an accepted STATUS, or a new revision of Requested State. */
  datatype Event =
    | CallInit(at: int, ok: bool)
    | CallStatus(at: int, ok: bool)
    | CallStart(revision: int, parameters: Parameters, at: int, expires: int, ok: bool)
    | CallShutdown(revision: int, at: int, ok: bool)
    | StatusAccepted(state: HeaterState, at: int, askedAt: int)
    | Revised(revision: int, requested: Requested)

  datatype State = State(
    requested: Requested, actual: Actual, phase: Phase,
    nextRequestDue: Option<int>, pendingControlDue: Option<int>,
    expected: Option<Query>, waitStarted: Option<int>,
    attempt: Option<Attempt>, fault: Option<Fault>, restartBlocked: bool, communicationFault: bool,
    revision: int, notAfter: Option<int>, startSent: Option<int>, shutdownSent: Option<int>,
    startingStopSince: Option<int>, activeSensor: Option<T.SensorSnapshot>, latch: Option<Latch>,
    session: Option<Session>, binding: Binding, nextSessionId: int,
    strikes: int, consecutiveValid: int,
    history: seq<Event>)

  const UNBOUND := Binding(None, None, None)

  const INITIAL := State(
    INITIAL_REQUESTED, INITIAL_ACTUAL, Unsynchronized, None, None, None, None, None, None, false, false,
    0, None, None, None, None, None, None, None, UNBOUND, 1, 0, 0, [])

  function ParametersOf(r: Requested): Parameters {
    Parameters(r.mode, r.target, r.power)
  }

  function SpecOf(r: Requested): SessionSpec {
    SessionSpec(r.source, r.mode, TargetOf(r), r.runtime)
  }

  function RoleOfMode(mode: Mode): Option<T.Role> {
    match mode
    case RoofTent => Some(T.RoofTentSensor)
    case Cabin => Some(T.CabinSensor)
    case _ => None
  }

  predicate Due(now: int, deadline: Option<int>) {
    deadline.Some? && now >= deadline.value
  }

  // ---------------------------------------------------------------- Requested State

  /** Requested State changes only together with its revision. */
  function Revise(s: State, r: Requested): State {
    s.(requested := r, revision := s.revision + 1, history := s.history + [Revised(s.revision + 1, r)])
  }

  function RequestStop(s: State): State {
    var cleared := s.(notAfter := None);
    if s.requested.on then Revise(cleared, s.requested.(on := false)) else cleared
  }

  datatype Outcome<T> = Done(value: T) | Refused

  const DEADLINE_SOURCES: set<string> := {"timer", "manual", "quick_start"}

  /** Whether a start with this deadline may be judged at `now`; both are given or neither. */
  predicate DeadlineAccepted(source: string, notAfter: Option<int>, now: Option<int>) {
    && notAfter.Some? == now.Some?
    && (notAfter.Some? ==> source in DEADLINE_SOURCES && now.value <= notAfter.value)
  }

  predicate SameRequest(current: Requested, wanted: Requested) {
    && current.on && current.mode == wanted.mode && TargetOf(current) == TargetOf(wanted)
    && current.runtime == wanted.runtime && current.source == wanted.source
  }

  /** Refused leaves the state alone; Done(false) is the repeated identical request. */
  function RequestStart(c: Config, s: State, wanted: Requested, notAfter: Option<int>, now: Option<int>): (State, Outcome<bool>)
  {
    if !ValidStart(wanted, c.maxRuntime) || !DeadlineAccepted(wanted.source, notAfter, now) then (s, Refused)
    else if s.latch.Some? || s.attempt.Some? || s.restartBlocked then (s, Refused)
    else if s.session.Some? || s.requested.on then
      if SameRequest(s.requested, wanted) then (s, Done(false)) else (s, Refused)
    else (Revise(s.(notAfter := notAfter), wanted.(on := true)), Done(true))
  }

  /** The session may be adjusted at `now`: confirmed, alive and in agreement with Requested State. */
  predicate Adjustable(s: State, now: int) {
    && s.requested.on && s.session.Some? && !s.session.value.expired && s.session.value.confirmed
    && s.attempt.None? && s.fault.None? && !s.restartBlocked
    && s.session.value.mode == s.requested.mode && s.session.value.runtime == s.requested.runtime
    && now < s.session.value.expires
    && s.session.value.target == TargetOf(s.requested)
  }

  function UpdateActiveSession(c: Config, s: State, expectedRevision: int, target: Option<int>, extend: int, now: int): (State, Outcome<bool>)
  {
    if extend !in {0, 15} || (target.Some? && !(5 <= target.value <= 30)) || (target.None? && extend == 0) then (s, Refused)
    else if s.revision != expectedRevision || !Adjustable(s, now) then (s, Refused)
    else if s.requested.mode.Power? && target.Some? then (s, Refused)
    else
      var session := s.session.value;
      var nextTarget := if target.None? then s.requested.target else target;
      var nextRuntime := session.runtime + extend;
      if nextRuntime > c.maxRuntime then (s, Refused)
      else if nextTarget == s.requested.target && nextRuntime == session.runtime then (s, Done(false))
      else
        var requested := s.requested.(target := nextTarget, runtime := nextRuntime);
        var adjusted := session.(target := TargetOf(requested), runtime := nextRuntime,
                                 expires := session.expires + extend * MILLISECONDS_PER_MINUTE);
        (Revise(s.(session := Some(adjusted)), requested), Done(true))
  }

  function RetryControlFault(s: State, now: int): (State, Outcome<bool>) {
    if s.fault.None? then (s, Done(false))
    else if !s.actual.communication.Healthy? || !s.actual.initialized || !s.actual.synchronized then (s, Refused)
    else
      (Revise(s.(fault := None, attempt := None, pendingControlDue := None, phase := WaitStatus,
                 nextRequestDue := if s.expected.None? then Some(now) else s.nextRequestDue), s.requested), Done(true))
  }

  // ---------------------------------------------------------------- communication

  function ScheduleControl(c: Config, s: State, now: int, immediate: bool): State {
    if s.pendingControlDue.Some? then s
    else s.(pendingControlDue := Some(now + (if immediate then 0 else c.settle)))
  }

  function MarkCommunicationError(s: State, now: Option<int>): State {
    s.(actual := WithError(s.actual), communicationFault := true, phase := InError, pendingControlDue := None,
       expected := None, waitStarted := None, nextRequestDue := if s.nextRequestDue.None? then now else s.nextRequestDue)
  }

  function BeginResponseWait(s: State, query: Query, now: int): State {
    if s.expected == Some(query) then s else s.(expected := Some(query), waitStarted := Some(now))
  }

  datatype Operation = Initialization(ok: bool) | StatusRequest(ok: bool) | Start(ok: bool) | Shutdown(ok: bool)

  /** The INIT or STATUS call on the port, with its next due time and the phase that awaits the answer. */
  function Asked(c: Config, s: State, query: Query, now: int, ok: bool): State {
    s.(nextRequestDue := Some(now + c.heartbeat),
       phase := if s.phase.InError? then InError else if query.StatusQuery? then WaitStatus else WaitInit,
       history := s.history + [if query.StatusQuery? then CallStatus(now, ok) else CallInit(now, ok)])
  }

  /** Asks an initialized heater for STATUS, any other for INIT; `ok` is whether the port call returned. */
  function RequestSynchronization(c: Config, s: State, now: int, ok: bool): (State, Operation) {
    var query := if s.actual.initialized then StatusQuery else InitQuery;
    var called := Asked(c, s, query, now, ok);
    (if ok then BeginResponseWait(called, query, now) else MarkCommunicationError(called, Some(now)),
     if query.StatusQuery? then StatusRequest(ok) else Initialization(ok))
  }

  function CheckResponseTimeout(c: Config, s: State, now: int): State {
    if s.expected.Some? && s.waitStarted.Some? && now - s.waitStarted.value >= c.responseTimeout
    then MarkCommunicationError(s, Some(now)) else s
  }

  /** Whether an answer to `query` is awaited and in time; a late one is a communication error. */
  function ExpectedResponse(c: Config, s: State, query: Query, now: int): (State, bool) {
    if s.expected != Some(query) || s.waitStarted.None? then (s, false)
    else if now - s.waitStarted.value >= c.responseTimeout then (MarkCommunicationError(s, Some(now)), false)
    else (s, true)
  }

  function RecordInvalidFrame(c: Config, s: State, now: int): State {
    var struck := s.(strikes := s.strikes + 1, consecutiveValid := 0, pendingControlDue := None);
    if struck.strikes >= c.invalidThreshold then MarkCommunicationError(struck, Some(now)) else struck
  }

  // ---------------------------------------------------------------- inbound frames

  datatype StatusFields = StatusFields(voltage: real, glowPlug: int, heaterState: int, fan: int)

  datatype Frame = Frame(
    raw: seq<int>, device: int, payloadLength: int, reserved: int, command: int, payload: seq<int>,
    crcValid: bool, crcReceived: int, crcCalculated: int, status: Option<StatusFields>)

  /** What the port's inbound validation made of a frame. */
  datatype Inbound = ValidationRaised | NotADictionary | Parsed(frame: Frame)

  const FRAME_START := 0xAA
  const DEVICE_HEATER := 4
  const CMD_INIT := 4
  const CMD_STATUS := 15
  const INIT_PAYLOAD_LENGTH := 5
  const STATUS_PAYLOAD_LENGTH := 19

  predicate KnownFrameIsConsistent(f: Frame, command: int, payloadLength: int) {
    && payloadLength >= 0 && |f.raw| == payloadLength + 7
    && f.raw[0] == FRAME_START && f.raw[1] == DEVICE_HEATER && f.raw[2] == payloadLength
    && f.raw[3] == 0 && f.raw[4] == command
    && f.device == f.raw[1] && f.payloadLength == f.raw[2] && f.reserved == f.raw[3] && f.command == f.raw[4]
    && f.payload == f.raw[5..|f.raw| - 2]
    && (var received := f.raw[|f.raw| - 2] * 256 + f.raw[|f.raw| - 1];
        f.crcValid && f.crcReceived == received && f.crcCalculated == received)
  }

  predicate StatusIsConsistent(f: Frame) {
    && KnownFrameIsConsistent(f, CMD_STATUS, STATUS_PAYLOAD_LENGTH)
    && f.status.Some?
    && f.status.value.voltage == f.raw[11] as real / 10.0
    && f.status.value.glowPlug == f.raw[13] && f.status.value.heaterState == f.raw[14] && f.status.value.fan == f.raw[19]
  }

  function DiscardSession(s: State): State {
    s.(session := None, binding := UNBOUND)
  }

  function CompleteSensorStopIfOff(s: State): State {
    if !s.actual.state.Off? || s.requested.on || s.session.Some? || s.latch.None? then s else s.(latch := None)
  }

  predicate AttemptIs(s: State, command: Command) {
    s.attempt.Some? && s.attempt.value.command == command
  }

  predicate UnexpectedStop(s: State, previous: HeaterState, recovering: bool) {
    && s.actual.state.Off?
    && (IsActive(previous) || (recovering && s.session.Some? && s.session.value.confirmed))
    && s.requested.on && !s.restartBlocked && !AttemptIs(s, ShutdownCommand)
  }

  function AfterUnexpectedStop(s: State, previous: HeaterState, recovering: bool): State {
    if UnexpectedStop(s, previous, recovering) then DiscardSession(RequestStop(s)) else s
  }

  /** An OFF status releases the restart block, and with it every request still standing. */
  function AfterOff(s: State): State {
    if !s.actual.state.Off? then s
    else
      var released := if s.restartBlocked then RequestStop(s).(restartBlocked := false, notAfter := if s.requested.on then None else s.notAfter) else s;
      var discarded := if !released.requested.on && !AttemptIs(released, StartCommand) then DiscardSession(released) else released;
      CompleteSensorStopIfOff(discarded)
  }

  /** A fault ends by late confirmation or because the request behind it is gone. */
  function ResolveFault(s: State): State {
    if s.fault.None? then s
    else
      var cleared := s.(fault := None, attempt := None);
      var st := s.actual.state;
      if s.fault.value.command.StartCommand? then
        if IsActive(st) then cleared
        else if !s.requested.on && st.Off? then DiscardSession(cleared)
        else s
      else if st.ShuttingDown? || st.Off? then cleared
      else if s.fault.value.recoverOnRunning && !s.requested.on && st.Running? then cleared
      else if s.requested.on && st.Running? then cleared
      else s
  }

  predicate Confirmed(command: Command, st: HeaterState) {
    if command.StartCommand? then IsActive(st) else st.ShuttingDown? || st.Off?
  }

  function ResolveAttempt(s: State, now: int): State {
    if s.attempt.None? then s
    else
      var a := s.attempt.value;
      var seen := a.(statusAfterSend := a.statusAfterSend || now >= a.lastSent);
      if Confirmed(a.command, s.actual.state) then s.(attempt := None) else s.(attempt := Some(seen))
  }

  function ConfirmSession(s: State): State {
    if s.session.Some? && IsActive(s.actual.state) then s.(session := Some(s.session.value.(confirmed := true))) else s
  }

  function ProcessConfirmation(s: State, now: int, previous: HeaterState, recovering: bool): State {
    ConfirmSession(ResolveAttempt(ResolveFault(AfterOff(AfterUnexpectedStop(s, previous, recovering))), now))
  }

  function AcceptInit(s: State, now: int): State {
    s.(actual := WithInitialization(s.actual), phase := WaitStatus, expected := None, waitStarted := None,
       nextRequestDue := Some(now), pendingControlDue := None)
  }

  function TakeStatus(c: Config, s: State, raw: int, now: int): State
    requires s.waitStarted.Some?
  {
    var valid := s.consecutiveValid + 1;
    s.(actual := WithStatus(s.actual, raw, now), expected := None, waitStarted := None,
       nextRequestDue := Some(now + c.heartbeat),
       strikes := if s.communicationFault || valid >= c.invalidThreshold then 0 else s.strikes,
       consecutiveValid := if s.communicationFault then 1 else valid,
       history := s.history + [StatusAccepted(StateOfRaw(raw), now, s.waitStarted.value)])
  }

  /** Only a synchronized heater is ready for control; anything else waits for the next STATUS. */
  function FinishStatus(c: Config, s: State, now: int): State {
    if s.actual.synchronized then
      ScheduleControl(c, s.(phase := if s.fault.None? then Ready else InError), now, false).(communicationFault := false)
    else s.(phase := WaitStatus, pendingControlDue := None)
  }

  function AcceptStatus(c: Config, s: State, raw: int, now: int): State
    requires s.waitStarted.Some?
  {
    FinishStatus(c, ProcessConfirmation(TakeStatus(c, s, raw, now), now, s.actual.state, s.communicationFault), now)
  }

  function HearInit(c: Config, s: State, now: int): (State, bool) {
    var (heard, timely) := ExpectedResponse(c, s, InitQuery, now);
    if timely then (AcceptInit(heard, now), true) else (heard, false)
  }

  function HearStatus(c: Config, s: State, raw: int, now: int): (State, bool) {
    if !s.actual.initialized then (s, false)
    else
      var (heard, timely) := ExpectedResponse(c, s, StatusQuery, now);
      if timely then (AcceptStatus(c, heard, raw, now), true) else (heard, false)
  }

  function HandleFrame(c: Config, s: State, inbound: Inbound, now: int): (State, bool) {
    match inbound
    case ValidationRaised => (MarkCommunicationError(RecordInvalidFrame(c, s, now), Some(now)), false)
    case NotADictionary => (RecordInvalidFrame(c, s, now), false)
    case Parsed(f) =>
      if f.device != DEVICE_HEATER || f.command !in {CMD_INIT, CMD_STATUS} then (s, false)
      else if f.command == CMD_INIT then
        if KnownFrameIsConsistent(f, CMD_INIT, INIT_PAYLOAD_LENGTH) then HearInit(c, s, now)
        else (RecordInvalidFrame(c, s, now), false)
      else if StatusIsConsistent(f) then HearStatus(c, s, f.status.value.heaterState, now)
      else (RecordInvalidFrame(c, s, now), false)
  }

  // ---------------------------------------------------------------- sessions and sensor policy

  function NewSession(s: State, spec: SessionSpec, now: int): Session {
    Session(s.nextSessionId, spec.source, spec.mode, spec.target, now,
            now + spec.runtime * MILLISECONDS_PER_MINUTE, spec.runtime, false, false)
  }

  /** The sensor a temperature session binds to; a start from OFF needs it fresh and present. */
  predicate Bindable(s: State, role: T.Role) {
    && s.activeSensor.Some? && s.activeSensor.value.role == role
    && s.activeSensor.value.rom.Some? && s.activeSensor.value.rom.value != ""
    && (s.activeSensor.value.health.Ok? || s.activeSensor.value.health.Stale?)
    && (s.actual.state.Off? ==> s.activeSensor.value.health.Ok? && s.activeSensor.value.present == Some(true))
  }

  /** None where the controller raises because no usable sensor can be bound. */
  function StartSession(s: State, now: int, spec: SessionSpec): Option<State> {
    if s.session.Some? then Some(s)
    else
      var role := RoleOfMode(spec.mode);
      if role.Some? && !Bindable(s, role.value) then None
      else
        var sensor := s.activeSensor;
        Some(s.(session := Some(NewSession(s, spec, now)),
                binding := if role.None? then UNBOUND
                           else Binding(sensor.value.rom, Some(sensor.value.generation), Some(sensor.value.assignment)),
                notAfter := None,
                nextSessionId := s.nextSessionId + 1))
  }

  lemma StartedIsSupervised(s: State, now: int, spec: SessionSpec)
    ensures var r := StartSession(s, now, spec); r.Some? ==> r.value.session.Some? && r.value.attempt == s.attempt
  {
  }

  function CheckSessionExpiry(c: Config, s: State, now: int): State {
    if s.session.None? || s.session.value.expired || now < s.session.value.expires then s
    else
      var expired := s.(session := Some(s.session.value.(expired := true)));
      var stopped := if s.requested.on then RequestStop(expired) else expired;
      ScheduleControl(c, stopped.(pendingControlDue := None), now, true)
  }

  function CheckStartDeadline(s: State, now: int): State {
    if !s.requested.on || s.session.Some? || s.notAfter.None? || now <= s.notAfter.value then s
    else RequestStop(s).(pendingControlDue := None)
  }

  /** What the injected temperature manager answered; Unread stands for none attached or one that raised. */
  datatype SensorAnswer = Unread | Answer(snapshot: T.SensorSnapshot)

  function MissingSensor(role: T.Role): T.SensorSnapshot {
    T.SensorSnapshot(role, None, None, None, None, None, None, T.Missing, false, None, 0, 0, 0)
  }

  /** The health a snapshot's own timestamps imply. */
  function ImpliedHealth(t: T.Thresholds, n: T.SensorSnapshot, now: int): T.Health {
    if n.lastValid.Some? then
      if now - n.lastValid.value >= t.failed then T.Failed
      else if now - n.lastValid.value >= t.stale then T.Stale else T.Ok
    else if n.unavailableSince.Some? && now - n.unavailableSince.value >= t.failed then T.Failed
    else T.Missing
  }

  /** A snapshot is believed only if every field agrees with every other. */
  predicate Canonical(t: T.Thresholds, n: T.SensorSnapshot, role: T.Role, now: int) {
    && n.role == role
    && n.rom != Some("")
    && (n.value.Some? ==> t.minimum <= n.value.value <= t.maximum)
    && (n.age.Some? ==> n.age.value >= 0) && (n.unavailableAge.Some? ==> n.unavailableAge.value >= 0)
    && (if n.lastValid.Some? then
          && n.rom.Some? && n.value.Some?
          && now >= n.lastValid.value && n.age == Some(now - n.lastValid.value)
          && n.unavailableSince.None? && n.unavailableAge.None?
        else
          && n.value.None? && n.age.None?
          && (if n.unavailableSince.None? then n.unavailableAge.None?
              else now >= n.unavailableSince.value && n.unavailableAge == Some(now - n.unavailableSince.value))
          && (ImpliedHealth(t, n, now).Failed? ==> n.rom.Some?))
    && n.health == ImpliedHealth(t, n, now)
    && n.usable == (n.health.Ok? || n.health.Stale?)
    && n.invalidReadings >= 0 && n.generation >= 0 && n.assignment >= 0
  }

  function ReadActiveSensor(c: Config, answer: SensorAnswer, role: T.Role, now: int): T.SensorSnapshot {
    if answer.Answer? && Canonical(c.thresholds, answer.snapshot, role, now) then answer.snapshot else MissingSensor(role)
  }

  function ActiveRole(s: State): Option<T.Role> {
    if s.session.Some? then RoleOfMode(s.session.value.mode)
    else if s.requested.on then RoleOfMode(s.requested.mode)
    else None
  }

  /** The sensor's health as the session sees it: a changed ROM, assignment or generation overrides the snapshot. */
  function BoundHealth(s: State, sensor: T.SensorSnapshot): T.Health {
    if s.session.Some? && s.binding.rom.Some? && sensor.rom != s.binding.rom then T.Missing
    else if s.session.Some? && s.binding.assignment.Some? && sensor.assignment != s.binding.assignment.value then T.Missing
    else if s.session.Some? && s.binding.generation.Some? && sensor.generation != s.binding.generation.value then T.Failed
    else sensor.health
  }

  function EffectiveHealth(s: State, sensor: T.SensorSnapshot): T.Health {
    var confirmed := s.session.Some? && s.session.value.confirmed;
    var health := BoundHealth(s, sensor);
    if health.Ok? && !confirmed && sensor.present != Some(true) then T.Missing else health
  }

  predicate SensorTolerated(s: State, sensor: T.SensorSnapshot) {
    var health := EffectiveHealth(s, sensor);
    health.Ok? || (health.Stale? && s.session.Some? && s.session.value.confirmed)
  }

  function StopForSensor(c: Config, s: State, now: int, role: T.Role, health: T.Health): State {
    if s.session.Some? then
      var id := s.session.value.id;
      var matches := s.latch.Some? && s.latch.value.sessionId == id;
      var stopped := RequestStop(s);
      var scheduled :=
        if s.requested.on || !matches then ScheduleControl(c, stopped.(pendingControlDue := None), now, true) else stopped;
      if matches then scheduled else scheduled.(latch := Some(Latch(role, health, id)))
    else if s.requested.on then RequestStop(s).(pendingControlDue := None)
    else s
  }

  function ApplySensorPolicy(c: Config, s: State, now: int, answer: SensorAnswer): State {
    match ActiveRole(s)
    case None => s.(activeSensor := None)
    case Some(role) =>
      var sensor := ReadActiveSensor(c, answer, role, now);
      var observed := s.(activeSensor := Some(sensor));
      if SensorTolerated(s, sensor) then observed
      else StopForSensor(c, observed, now, role, EffectiveHealth(s, sensor))
  }

  /** A heater that runs on a request without a session gets one, or the request is withdrawn. */
  function EnsureActiveSession(c: Config, s: State, now: int): State {
    if s.session.Some? || !s.requested.on || !IsActive(s.actual.state) then s
    else
      match StartSession(s, now, SpecOf(s.requested))
      case Some(started) => started.(session := Some(started.session.value.(confirmed := true)))
      case None => ScheduleControl(c, RequestStop(s).(pendingControlDue := None), now, true)
  }

  // ---------------------------------------------------------------- control

  predicate AttemptMatches(s: State, a: Attempt) {
    && a.revision == s.revision
    && (if a.command.StartCommand? then s.requested.on && s.actual.state.Off?
        else !s.requested.on && s.actual.state.Running?)
  }

  predicate AttemptCancelled(s: State, a: Attempt) {
    if a.command.StartCommand? then !s.requested.on && s.actual.state.Off?
    else s.requested.on && s.actual.state.Running?
  }

  function CheckControlConfirmation(c: Config, s: State, now: int): State {
    if s.attempt.None? || s.fault.Some? || !s.attempt.value.statusAfterSend then s
    else
      var a := s.attempt.value;
      var cleared := s.(attempt := None);
      if Confirmed(a.command, s.actual.state) then cleared
      else if !a.sendFailed && now - a.lastSent < c.confirmationTimeout then s
      else if AttemptCancelled(s, a) then
        if a.command.StartCommand? then DiscardSession(cleared) else cleared
      else if !AttemptMatches(s, a) then cleared
      else if a.attempts >= c.maxAttempts then
        s.(fault := Some(Fault(a.command, a.attempts, false)), phase := InError, pendingControlDue := None)
      else ScheduleControl(c, s.(attempt := Some(a.(retryReady := true))), now, a.sendFailed)
  }

  function SetPolicyFault(s: State, command: Command, recoverOnRunning: bool): State {
    if s.fault.Some? then s
    else s.(fault := Some(Fault(command, 0, recoverOnRunning)), phase := InError, pendingControlDue := None)
  }

  /** What a control evaluation did: nothing, one port call, or it raised before any. */
  datatype Control = Idle | Sent(operation: Operation) | Raised

  function CurrentAttempt(s: State, command: Command): Attempt {
    if s.attempt.Some? then s.attempt.value
    else Attempt(command, 0, 0, false, false, false, s.revision, ParametersOf(s.requested), SpecOf(s.requested))
  }

  function NextAttempt(s: State, command: Command, now: int): Attempt {
    var base := CurrentAttempt(s, command);
    base.(attempts := base.attempts + 1, lastSent := now, statusAfterSend := false, sendFailed := false, retryReady := false)
  }

  /** The port call itself: its history entry, then what its success or failure leaves. */
  function Dispatch(c: Config, s: State, operation: Operation, event: Event, now: int): (State, Control)
    requires s.attempt.Some?
  {
    var called := s.(history := s.history + [event]);
    if operation.ok then (called.(nextRequestDue := Some(now + c.heartbeat)), Sent(operation))
    else
      (MarkCommunicationError(called, Some(now)).(attempt := Some(s.attempt.value.(sendFailed := true))), Sent(operation))
  }

  function SendControl(c: Config, s: State, command: Command, now: int, ok: bool): (State, Control) {
    if s.attempt.None? && command.StartCommand? && !ValidStart(s.requested, c.maxRuntime) then (s, Raised)
    else
      var a := NextAttempt(s, command, now);
      var prepared := s.(attempt := Some(a));
      if command.ShutdownCommand? then SendShutdown(c, prepared, a, now, ok)
      else SendStart(c, prepared, a, now, ok)
  }

  function SendShutdown(c: Config, s: State, a: Attempt, now: int, ok: bool): (State, Control)
    requires s.attempt == Some(a)
  {
    Dispatch(c, s.(restartBlocked := true, shutdownSent := Some(a.revision)), Shutdown(ok), CallShutdown(a.revision, now, ok), now)
  }

  /** A START is only sent under a session; when none can begin, the attempt is abandoned and the cycle raises. */
  function SendStart(c: Config, s: State, a: Attempt, now: int, ok: bool): (State, Control)
    requires s.attempt == Some(a)
  {
    match StartSession(s, now, a.spec)
    case None => (s.(attempt := None), Raised)
    case Some(supervised) =>
      Dispatch(c, supervised.(startSent := Some(a.revision)), Start(ok),
               CallStart(a.revision, a.parameters, now, supervised.session.value.expires, ok), now)
  }

  predicate ReadyForControl(s: State) {
    && s.phase.Ready? && s.actual.communication.Healthy? && s.actual.initialized && s.actual.synchronized && s.fault.None?
  }

  datatype Verdict = Stand | BeginStopWait | Send(command: Command) | Fail(command: Command, recoverOnRunning: bool)

  /** No attempt is open: the verdict of the reported state and Requested State. A generation once
      sent for this revision is never sent again. */
  function Decide(c: Config, s: State, now: int): Verdict {
    match s.actual.state
    case Off =>
      if !s.requested.on || s.restartBlocked then Stand
      else if s.startSent == Some(s.revision) then Fail(StartCommand, false)
      else Send(StartCommand)
    case Starting =>
      if s.requested.on then Stand
      else if s.startingStopSince.None? then BeginStopWait
      else if now - s.startingStopSince.value >= c.startingStopTimeout then Fail(ShutdownCommand, true)
      else Stand
    case Running =>
      if s.requested.on then Stand
      else if s.shutdownSent == Some(s.revision) then Fail(ShutdownCommand, false)
      else Send(ShutdownCommand)
    case TempMonitoring => if s.requested.on then Stand else Fail(ShutdownCommand, true)
    case _ => Stand
  }

  function DecideControl(c: Config, s: State, now: int, ok: bool): (State, Control) {
    var d := if !s.actual.state.Starting? || s.requested.on then s.(startingStopSince := None) else s;
    match Decide(c, s, now)
    case Stand => (d, Idle)
    case BeginStopWait => (d.(startingStopSince := Some(now)), Idle)
    case Send(command) => SendControl(c, d, command, now, ok)
    case Fail(command, recoverOnRunning) => (SetPolicyFault(d, command, recoverOnRunning), Idle)
  }

  function EvaluateControl(c: Config, s: State, now: int, ok: bool): (State, Control) {
    var e := s.(pendingControlDue := None);
    if !ReadyForControl(e) then (e, Idle)
    else if e.attempt.Some? then
      if e.attempt.value.retryReady && AttemptMatches(e, e.attempt.value)
      then SendControl(c, e, e.attempt.value.command, now, ok)
      else (e, Idle)
    else DecideControl(c, e, now, ok)
  }

  predicate StatusIsFresh(c: Config, s: State, now: int) {
    s.actual.lastStatus.Some? && 0 <= now - s.actual.lastStatus.value < c.heartbeat
  }

  /** Everything one cycle settles before it may act on the port. */
  function Settle(c: Config, s: State, now: int, answer: SensorAnswer): State {
    var s1 := CheckStartDeadline(s, now);
    var s2 := CheckResponseTimeout(c, s1, now);
    var s3 := CheckSessionExpiry(c, s2, now);
    var s4 := ApplySensorPolicy(c, s3, now, answer);
    var s5 := EnsureActiveSession(c, s4, now);
    var s6 := CheckControlConfirmation(c, s5, now);
    CompleteSensorStopIfOff(s6)
  }

  function Synchronize(c: Config, s: State, now: int, ok: bool): (State, Option<Operation>) {
    if s.nextRequestDue.None? || now >= s.nextRequestDue.value then
      var (next, operation) := RequestSynchronization(c, s, now, ok); (next, Some(operation))
    else (s, None)
  }

  /** Acts on the port at most once: a due control decision on fresh truth, else the heartbeat. */
  function Act(c: Config, s: State, now: int, ok: bool): (State, Outcome<Option<Operation>>) {
    if !Due(now, s.pendingControlDue) then
      var (next, operation) := Synchronize(c, s, now, ok); (next, Done(operation))
    else if !StatusIsFresh(c, s, now) then
      var stale := s.(pendingControlDue := None, nextRequestDue := if s.expected.None? then Some(now) else s.nextRequestDue);
      var (next, operation) := Synchronize(c, stale, now, ok); (next, Done(operation))
    else
      var (acted, control) := EvaluateControl(c, s, now, ok);
      match control
      case Sent(operation) => (acted, Done(Some(operation)))
      case Raised => (acted, Refused)
      case Idle => var (next, operation) := Synchronize(c, acted, now, ok); (next, Done(operation))
  }

  /** One bounded cycle; Refused is a cycle that raised instead of returning its operations. */
  function Step(c: Config, s: State, now: int, answer: SensorAnswer, ok: bool): (State, Outcome<Option<Operation>>) {
    Act(c, Settle(c, s, now, answer), now, ok)
  }
}
