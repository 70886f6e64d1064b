/** The controller object itself (app/heater_controller.py): its fields, changed in place by its methods.
    Every method is proved to make exactly the transition of HeaterModel, and every public one to keep Safe. */
module HeaterControl {
  import opened Options
  import opened ApplicationState
  import opened HeaterModel
  import opened HeaterSafety
  import T = TemperatureModel

  class HeaterController {
    const config: Config

    var requested: Requested
    var actual: Actual
    var phase: Phase
    var nextRequestDue: Option<int>
    var pendingControlDue: Option<int>
    var expected: Option<Query>
    var waitStarted: Option<int>
    var attempt: Option<Attempt>
    var fault: Option<Fault>
    var restartBlocked: bool
    var communicationFault: bool
    var revision: int
    var notAfter: Option<int>
    var startSent: Option<int>
    var shutdownSent: Option<int>
    var startingStopSince: Option<int>
    var activeSensor: Option<T.SensorSnapshot>
    var latch: Option<Latch>
    var session: Option<Session>
    var binding: Binding
    var nextSessionId: int
    var strikes: int
    var consecutiveValid: int
    ghost var history: seq<Event>

    ghost function View(): State
      reads this
    {
      State(requested, actual, phase, nextRequestDue, pendingControlDue, expected, waitStarted, attempt, fault,
            restartBlocked, communicationFault, revision, notAfter, startSent, shutdownSent, startingStopSince,
            activeSensor, latch, session, binding, nextSessionId, strikes, consecutiveValid, history)
    }

    ghost predicate Valid()
      reads this
    {
      Safe(config, View())
    }

    constructor (config: Config)
      requires ValidConfig(config)
      ensures this.config == config && View() == INITIAL && Valid()
    {
      this.config := config;
      requested, actual, phase := INITIAL_REQUESTED, INITIAL_ACTUAL, Unsynchronized;
      nextRequestDue, pendingControlDue, expected, waitStarted := None, None, None, None;
      attempt, fault, restartBlocked, communicationFault := None, None, false, false;
      revision, notAfter, startSent, shutdownSent, startingStopSince := 0, None, None, None, None;
      activeSensor, latch, session, binding, nextSessionId := None, None, None, UNBOUND, 1;
      strikes, consecutiveValid, history := 0, 0, [];
      new;
      InitialIsSafe(config);
    }

    // ------------------------------------------------------------ fields that change together

    method Revise(wanted: Requested)
      modifies this
      ensures View() == HeaterModel.Revise(old(View()), wanted)
    {
      requested := wanted;
      revision := revision + 1;
      history := history + [Revised(revision, wanted)];
    }

    method Await(query: Option<Query>, since: Option<int>)
      modifies `expected, `waitStarted
      ensures View() == old(View()).(expected := query, waitStarted := since)
    {
      expected, waitStarted := query, since;
    }

    method Judge(status: Actual, faulty: bool)
      modifies `actual, `communicationFault
      ensures View() == old(View()).(actual := status, communicationFault := faulty)
    {
      actual, communicationFault := status, faulty;
    }

    method Record(ghost event: Event)
      modifies `history
      ensures View() == old(View()).(history := old(history) + [event])
    {
      history := history + [event];
    }

    method Move(next: Phase, due: Option<int>)
      modifies `phase, `pendingControlDue
      ensures View() == old(View()).(phase := next, pendingControlDue := due)
    {
      phase, pendingControlDue := next, due;
    }

    method SetControl(open: Option<Attempt>, failed: Option<Fault>)
      modifies `attempt, `fault
      ensures View() == old(View()).(attempt := open, fault := failed)
    {
      attempt, fault := open, failed;
    }

    method Supervise(next: Option<Session>, bound: Binding)
      modifies `session, `binding
      ensures View() == old(View()).(session := next, binding := bound)
    {
      session, binding := next, bound;
    }

    method CountFrames(invalid: int, valid: int)
      modifies `strikes, `consecutiveValid
      ensures View() == old(View()).(strikes := invalid, consecutiveValid := valid)
    {
      strikes, consecutiveValid := invalid, valid;
    }

    // ------------------------------------------------------------ Requested State

    method Withdraw() returns (changed: bool)
      modifies this
      ensures View() == RequestStop(old(View())) && changed == old(requested.on)
    {
      changed := requested.on;
      notAfter := None;
      if changed { Revise(requested.(on := false)); }
    }

    method StopRequest() returns (changed: bool)
      requires Valid()
      modifies this
      ensures Valid() && View() == RequestStop(old(View())) && changed == old(requested.on)
    {
      RequestStopKeepsSafe(config, View());
      changed := Withdraw();
    }

    method StartRequest(wanted: Requested, deadline: Option<int>, now: Option<int>) returns (outcome: Outcome<bool>)
      requires Valid()
      modifies this
      ensures Valid() && (View(), outcome) == RequestStart(config, old(View()), wanted, deadline, now)
    {
      RequestStartKeepsSafe(config, View(), wanted, deadline, now);
      outcome := Enter(wanted, deadline, now);
    }

    method Enter(wanted: Requested, deadline: Option<int>, now: Option<int>) returns (outcome: Outcome<bool>)
      modifies this
      ensures (View(), outcome) == RequestStart(config, old(View()), wanted, deadline, now)
    {
      if !ValidStart(wanted, config.maxRuntime) || !DeadlineAccepted(wanted.source, deadline, now) { return Refused; }
      if latch.Some? { return Refused; }
      if attempt.Some? || restartBlocked { return Refused; }
      if session.Some? || requested.on {
        if SameRequest(requested, wanted) { return Done(false); }
        return Refused;
      }
      notAfter := deadline;
      Revise(wanted.(on := true));
      return Done(true);
    }

    method UpdateSession(expectedRevision: int, target: Option<int>, extend: int, now: int) returns (outcome: Outcome<bool>)
      requires Valid()
      modifies this
      ensures Valid() && (View(), outcome) == UpdateActiveSession(config, old(View()), expectedRevision, target, extend, now)
    {
      UpdateKeepsSafe(config, View(), expectedRevision, target, extend, now);
      outcome := Adjust(expectedRevision, target, extend, now);
    }

    method Adjust(expectedRevision: int, target: Option<int>, extend: int, now: int) returns (outcome: Outcome<bool>)
      modifies this
      ensures (View(), outcome) == UpdateActiveSession(config, old(View()), expectedRevision, target, extend, now)
    {
      if extend != 0 && extend != 15 { return Refused; }
      if target.Some? && (target.value < 5 || target.value > 30) { return Refused; }
      if target.None? && extend == 0 { return Refused; }
      if revision != expectedRevision { return Refused; }
      if !requested.on || session.None? || session.value.expired || !session.value.confirmed
         || attempt.Some? || fault.Some? || restartBlocked { return Refused; }
      var current := session.value;
      if current.mode != requested.mode || current.runtime != requested.runtime { return Refused; }
      if current.expires - now <= 0 { return Refused; }
      if current.target != TargetOf(requested) || (requested.mode.Power? && target.Some?) { return Refused; }
      var nextTarget := if target.None? then requested.target else target;
      var nextRuntime := current.runtime + extend;
      if nextRuntime > config.maxRuntime { return Refused; }
      if nextTarget == requested.target && nextRuntime == current.runtime { return Done(false); }
      var nextExpiry := current.expires + extend * 60 * 1000;
      var adjusted := requested.(target := nextTarget, runtime := nextRuntime);
      session := Some(current.(target := TargetOf(adjusted), runtime := nextRuntime, expires := nextExpiry));
      Revise(adjusted);
      return Done(true);
    }

    method RetryFault(now: int) returns (outcome: Outcome<bool>)
      requires Valid()
      modifies this
      ensures Valid() && (View(), outcome) == RetryControlFault(old(View()), now)
    {
      RetryKeepsSafe(config, View(), now);
      outcome := ClearFault(now);
    }

    method ClearFault(now: int) returns (outcome: Outcome<bool>)
      modifies this
      ensures (View(), outcome) == RetryControlFault(old(View()), now)
    {
      if fault.None? { return Done(false); }
      if !actual.communication.Healthy? || !actual.initialized || !actual.synchronized { return Refused; }
      SetControl(None, None);
      Move(WaitStatus, None);
      if expected.None? { nextRequestDue := Some(now); }
      Revise(requested);
      return Done(true);
    }

    // ------------------------------------------------------------ communication

    method Schedule(now: int, immediate: bool)
      modifies `pendingControlDue
      ensures View() == ScheduleControl(config, old(View()), now, immediate)
    {
      if pendingControlDue.Some? { return; }
      pendingControlDue := Some(now + (if immediate then 0 else config.settle));
    }

    method Reschedule(now: int)
      modifies `pendingControlDue
      ensures View() == ScheduleControl(config, old(View()).(pendingControlDue := None), now, true)
    {
      pendingControlDue := None;
      Schedule(now, true);
    }

    method MarkError(now: Option<int>)
      modifies this
      ensures View() == MarkCommunicationError(old(View()), now)
    {
      Judge(WithError(actual), true);
      Move(InError, None);
      Await(None, None);
      if nextRequestDue.None? { nextRequestDue := now; }
    }

    method ReportCommunicationError(now: Option<int>)
      requires Valid()
      modifies this
      ensures Valid() && View() == MarkCommunicationError(old(View()), now)
    {
      ErrorKeepsSafe(config, View(), now);
      MarkError(now);
    }

    method Ask(now: int, ok: bool) returns (operation: Operation)
      modifies this
      ensures (View(), operation) == RequestSynchronization(config, old(View()), now, ok)
    {
      hide MarkCommunicationError;
      nextRequestDue := Some(now + config.heartbeat);
      var query := if actual.initialized then StatusQuery else InitQuery;
      if !phase.InError? { phase := if actual.initialized then WaitStatus else WaitInit; }
      Record(if query.StatusQuery? then CallStatus(now, ok) else CallInit(now, ok));
      operation := if query.StatusQuery? then StatusRequest(ok) else Initialization(ok);
      if !ok {
        MarkError(Some(now));
      } else if expected != Some(query) {
        Await(Some(query), Some(now));
      }
    }

    method CheckTimeout(now: int)
      modifies this
      ensures View() == CheckResponseTimeout(config, old(View()), now)
    {
      if expected.None? || waitStarted.None? { return; }
      if now - waitStarted.value >= config.responseTimeout { MarkError(Some(now)); }
    }

    method ResponseIsTimely(query: Query, now: int) returns (timely: bool)
      modifies this
      ensures (View(), timely) == ExpectedResponse(config, old(View()), query, now)
    {
      if expected != Some(query) || waitStarted.None? { return false; }
      if now - waitStarted.value >= config.responseTimeout {
        MarkError(Some(now));
        return false;
      }
      return true;
    }

    method RecordInvalid(now: int)
      modifies this
      ensures View() == RecordInvalidFrame(config, old(View()), now)
    {
      CountFrames(strikes + 1, 0);
      pendingControlDue := None;
      if strikes >= config.invalidThreshold { MarkError(Some(now)); }
    }

    // ------------------------------------------------------------ inbound frames

    method CompleteSensorStop()
      modifies `latch
      ensures View() == CompleteSensorStopIfOff(old(View()))
    {
      if !actual.state.Off? || requested.on || session.Some? || latch.None? { return; }
      latch := None;
    }

    method Discard()
      modifies `session, `binding
      ensures View() == DiscardSession(old(View()))
    {
      Supervise(None, UNBOUND);
    }

    method CheckUnexpectedStop(previous: HeaterState, recovering: bool)
      modifies this
      ensures View() == AfterUnexpectedStop(old(View()), previous, recovering)
    {
      var lost := actual.state.Off? && (IsActive(previous) || (recovering && session.Some? && session.value.confirmed));
      if lost && requested.on && !restartBlocked && !(attempt.Some? && attempt.value.command.ShutdownCommand?) {
        var changed := Withdraw();
        Discard();
      }
    }

    method ReleaseAtOff()
      modifies this
      ensures View() == AfterOff(old(View()))
    {
      if !actual.state.Off? { return; }
      if restartBlocked {
        if requested.on {
          var changed := Withdraw();
        }
        restartBlocked := false;
      }
      if !requested.on && !(attempt.Some? && attempt.value.command.StartCommand?) { Discard(); }
      CompleteSensorStop();
    }

    method SettleFault()
      modifies this
      ensures View() == ResolveFault(old(View()))
    {
      if fault.None? { return; }
      var command := fault.value.command;
      if command.StartCommand? {
        if IsActive(actual.state) {
          SetControl(None, None);
        } else if !requested.on && actual.state.Off? {
          SetControl(None, None);
          Discard();
        }
      } else {
        if actual.state.ShuttingDown? || actual.state.Off? {
          SetControl(None, None);
        } else if fault.value.recoverOnRunning && !requested.on && actual.state.Running? {
          SetControl(None, None);
        } else if requested.on && actual.state.Running? {
          SetControl(None, None);
        }
      }
    }

    method SettleAttempt(now: int)
      modifies `attempt
      ensures View() == ResolveAttempt(old(View()), now)
    {
      if attempt.None? { return; }
      if now >= attempt.value.lastSent { attempt := Some(attempt.value.(statusAfterSend := true)); }
      if attempt.value.command.StartCommand? && IsActive(actual.state) {
        attempt := None;
      } else if attempt.value.command.ShutdownCommand? && (actual.state.ShuttingDown? || actual.state.Off?) {
        attempt := None;
      }
    }

    method ProcessControlConfirmation(now: int, previous: HeaterState, recovering: bool)
      modifies this
      ensures View() == ProcessConfirmation(old(View()), now, previous, recovering)
    {
      CheckUnexpectedStop(previous, recovering);
      ReleaseAtOff();
      SettleFault();
      SettleAttempt(now);
      if session.Some? && IsActive(actual.state) { session := Some(session.value.(confirmed := true)); }
    }

    method TakeInit(now: int) returns (accepted: bool)
      modifies this
      ensures (View(), accepted) == HearInit(config, old(View()), now)
    {
      accepted := ResponseIsTimely(InitQuery, now);
      if accepted {
        actual := WithInitialization(actual);
        Move(WaitStatus, None);
        Await(None, None);
        nextRequestDue := Some(now);
      }
    }

    method RecordStatus(raw: int, now: int)
      requires waitStarted.Some?
      modifies this
      ensures View() == TakeStatus(config, old(View()), raw, now)
    {
      Record(StatusAccepted(StateOfRaw(raw), now, waitStarted.value));
      actual := WithStatus(actual, raw, now);
      Await(None, None);
      nextRequestDue := Some(now + config.heartbeat);
      if communicationFault {
        CountFrames(0, 1);
      } else {
        CountFrames(if consecutiveValid + 1 >= config.invalidThreshold then 0 else strikes, consecutiveValid + 1);
      }
    }

    method TakeStatusFrame(raw: int, now: int) returns (accepted: bool)
      modifies this
      ensures (View(), accepted) == HearStatus(config, old(View()), raw, now)
    {
      if !actual.initialized { return false; }
      accepted := ResponseIsTimely(StatusQuery, now);
      if !accepted { return; }
      var recovering, previous := communicationFault, actual.state;
      RecordStatus(raw, now);
      ProcessControlConfirmation(now, previous, recovering);
      ResumeFrom(now);
    }

    method ResumeFrom(now: int)
      modifies this
      ensures View() == FinishStatus(config, old(View()), now)
    {
      if actual.synchronized {
        Move(if fault.None? then Ready else InError, pendingControlDue);
        Schedule(now, false);
        communicationFault := false;
      } else {
        Move(WaitStatus, None);
      }
    }

    method TakeFrame(inbound: Inbound, now: int) returns (accepted: bool)
      requires Valid()
      modifies this
      ensures Valid() && (View(), accepted) == HandleFrame(config, old(View()), inbound, now)
    {
      HandleFrameKeepsSafe(config, View(), inbound, now);
      accepted := false;
      match inbound
      case ValidationRaised =>
        RecordInvalid(now);
        MarkError(Some(now));
      case NotADictionary =>
        RecordInvalid(now);
      case Parsed(frame) =>
        if frame.device != DEVICE_HEATER || (frame.command != CMD_INIT && frame.command != CMD_STATUS) { return; }
        var valid := if frame.command == CMD_INIT then KnownFrameIsConsistent(frame, CMD_INIT, INIT_PAYLOAD_LENGTH) else StatusIsConsistent(frame);
        if !valid {
          RecordInvalid(now);
        } else if frame.command == CMD_INIT {
          accepted := TakeInit(now);
        } else {
          accepted := TakeStatusFrame(frame.status.value.heaterState, now);
        }
    }

    // ------------------------------------------------------------ sessions and sensor policy

    method BeginSession(now: int, spec: SessionSpec) returns (started: bool)
      modifies this
      ensures var r := StartSession(old(View()), now, spec); started == r.Some? && View() == (if r.Some? then r.value else old(View()))
    {
      if session.Some? { return true; }
      var role := RoleOfMode(spec.mode);
      var bound := UNBOUND;
      if role.Some? {
        var sensor := activeSensor;
        if sensor.None? || sensor.value.role != role.value || sensor.value.rom.None? || sensor.value.rom.value == ""
           || !(sensor.value.health.Ok? || sensor.value.health.Stale?) { return false; }
        if actual.state.Off? && (!sensor.value.health.Ok? || sensor.value.present != Some(true)) { return false; }
        bound := Binding(sensor.value.rom, Some(sensor.value.generation), Some(sensor.value.assignment));
      }
      var expires := now + spec.runtime * 60 * 1000;
      Supervise(Some(Session(nextSessionId, spec.source, spec.mode, spec.target, now, expires, spec.runtime, false, false)), bound);
      notAfter := None;
      nextSessionId := nextSessionId + 1;
      return true;
    }

    method CheckExpiry(now: int)
      modifies this
      ensures View() == CheckSessionExpiry(config, old(View()), now)
    {
      if session.None? || session.value.expired { return; }
      if now < session.value.expires { return; }
      session := Some(session.value.(expired := true));
      if requested.on {
        var changed := Withdraw();
      }
      Reschedule(now);
    }

    method CheckDeadline(now: int)
      modifies this
      ensures View() == CheckStartDeadline(old(View()), now)
    {
      if !requested.on || session.Some? || notAfter.None? || now - notAfter.value <= 0 { return; }
      var changed := Withdraw();
      pendingControlDue := None;
    }

    method StopSession(id: int, now: int, role: T.Role, health: T.Health)
      requires session.Some? && session.value.id == id
      modifies this
      ensures View() == StopForSensor(config, old(View()), now, role, health)
    {
      var matches := latch.Some? && latch.value.sessionId == id;
      var changed := Withdraw();
      if changed || !matches { Reschedule(now); }
      if !matches { latch := Some(Latch(role, health, id)); }
    }

    method StopOnSensor(now: int, role: T.Role, health: T.Health)
      modifies this
      ensures View() == StopForSensor(config, old(View()), now, role, health)
    {
      if session.Some? {
        StopSession(session.value.id, now, role, health);
      } else if requested.on {
        var changed := Withdraw();
        pendingControlDue := None;
      }
    }

    method SupervisedRole() returns (role: Option<T.Role>)
      ensures role == ActiveRole(View())
    {
      role := None;
      if session.Some? {
        role := RoleOfMode(session.value.mode);
      } else if requested.on {
        role := RoleOfMode(requested.mode);
      }
    }

    method ApplyPolicy(now: int, answer: SensorAnswer)
      modifies this
      ensures View() == ApplySensorPolicy(config, old(View()), now, answer)
    {
      var role := SupervisedRole();
      if role.None? {
        activeSensor := None;
        return;
      }
      var sensor := ReadActiveSensor(config, answer, role.value, now);
      var health := HealthInSession(sensor);
      activeSensor := Some(sensor);
      if health.Ok? || (health.Stale? && session.Some? && session.value.confirmed) { return; }
      StopOnSensor(now, role.value, health);
    }

    method HealthInSession(sensor: T.SensorSnapshot) returns (health: T.Health)
      ensures health == EffectiveHealth(View(), sensor)
    {
      var confirmed := session.Some? && session.value.confirmed;
      health := sensor.health;
      if session.Some? && binding.rom.Some? && sensor.rom != binding.rom {
        health := T.Missing;
      } else if session.Some? && binding.assignment.Some? && sensor.assignment != binding.assignment.value {
        health := T.Missing;
      } else if session.Some? && binding.generation.Some? && sensor.generation != binding.generation.value {
        health := T.Failed;
      }
      if health.Ok? && !confirmed && sensor.present != Some(true) { health := T.Missing; }
    }

    method EnsureSession(now: int)
      modifies this
      ensures View() == EnsureActiveSession(config, old(View()), now)
    {
      if session.Some? || !requested.on || !IsActive(actual.state) { return; }
      var started := BeginSession(now, SpecOf(requested));
      if started {
        session := Some(session.value.(confirmed := true));
      } else {
        var changed := Withdraw();
        Reschedule(now);
      }
    }

    // ------------------------------------------------------------ control

    method CheckConfirmation(now: int)
      modifies this
      ensures View() == CheckControlConfirmation(config, old(View()), now)
    {
      if attempt.None? || fault.Some? { return; }
      var a := attempt.value;
      if !a.statusAfterSend { return; }
      if Confirmed(a.command, actual.state) {
        attempt := None;
        return;
      }
      if !a.sendFailed && now - a.lastSent < config.confirmationTimeout { return; }
      if (a.command.StartCommand? && !requested.on && actual.state.Off?) || (a.command.ShutdownCommand? && requested.on && actual.state.Running?) {
        attempt := None;
        if a.command.StartCommand? { Discard(); }
        return;
      }
      if !AttemptMatchesRequest(a) {
        attempt := None;
      } else if a.attempts >= config.maxAttempts {
        fault := Some(Fault(a.command, a.attempts, false));
        Move(InError, None);
      } else {
        attempt := Some(a.(retryReady := true));
        Schedule(now, a.sendFailed);
      }
    }

    predicate AttemptMatchesRequest(a: Attempt)
      reads this
      ensures AttemptMatchesRequest(a) == AttemptMatches(View(), a)
    {
      && a.revision == revision
      && (if a.command.StartCommand? then requested.on && actual.state.Off? else !requested.on && actual.state.Running?)
    }

    method PolicyFault(command: Command, recoverOnRunning: bool)
      modifies this
      ensures View() == SetPolicyFault(old(View()), command, recoverOnRunning)
    {
      if fault.Some? { return; }
      fault := Some(Fault(command, 0, recoverOnRunning));
      Move(InError, None);
    }

    method OpenAttempt(command: Command, now: int)
      modifies `attempt
      ensures View() == old(View()).(attempt := Some(NextAttempt(old(View()), command, now)))
    {
      if attempt.None? {
        attempt := Some(Attempt(command, 0, 0, false, false, false, revision, ParametersOf(requested), SpecOf(requested)));
      }
      attempt := Some(attempt.value.(attempts := attempt.value.attempts + 1, lastSent := now, statusAfterSend := false,
                                     sendFailed := false, retryReady := false));
    }

    method CallPort(operation: Operation, ghost event: Event, now: int) returns (control: Control)
      requires attempt.Some?
      modifies this
      ensures (View(), control) == Dispatch(config, old(View()), operation, event, now)
    {
      Record(event);
      if operation.ok {
        nextRequestDue := Some(now + config.heartbeat);
      } else {
        MarkError(Some(now));
        attempt := Some(attempt.value.(sendFailed := true));
      }
      return Sent(operation);
    }

    method Transmit(command: Command, now: int, ok: bool) returns (control: Control)
      modifies this
      ensures (View(), control) == SendControl(config, old(View()), command, now, ok)
    {
      if attempt.None? && command.StartCommand? && !ValidStart(requested, config.maxRuntime) { return Raised; }
      OpenAttempt(command, now);
      if command.ShutdownCommand? {
        control := TransmitShutdown(attempt.value, now, ok);
      } else {
        control := TransmitStart(attempt.value, now, ok);
      }
    }

    method BlockRestart(generation: int)
      modifies `restartBlocked, `shutdownSent
      ensures View() == old(View()).(restartBlocked := true, shutdownSent := Some(generation))
    {
      restartBlocked, shutdownSent := true, Some(generation);
    }

    method TransmitShutdown(a: Attempt, now: int, ok: bool) returns (control: Control)
      requires attempt == Some(a)
      modifies this
      ensures (View(), control) == SendShutdown(config, old(View()), a, now, ok)
    {
      BlockRestart(a.revision);
      control := CallPort(Shutdown(ok), CallShutdown(a.revision, now, ok), now);
    }

    method TransmitStart(a: Attempt, now: int, ok: bool) returns (control: Control)
      requires attempt == Some(a)
      modifies this
      ensures (View(), control) == SendStart(config, old(View()), a, now, ok)
    {
      hide StartSession, Dispatch;
      StartedIsSupervised(View(), now, a.spec);
      var started := BeginSession(now, a.spec);
      if !started {
        attempt := None;
        return Raised;
      }
      startSent := Some(a.revision);
      control := CallPort(Start(ok), CallStart(a.revision, a.parameters, now, session.value.expires, ok), now);
    }

    method DecideNow(now: int, ok: bool) returns (control: Control)
      modifies this
      ensures (View(), control) == DecideControl(config, old(View()), now, ok)
    {
      hide SendControl, SetPolicyFault;
      if !actual.state.Starting? || requested.on { startingStopSince := None; }
      if actual.state.Off? {
        if requested.on && !restartBlocked {
          if startSent == Some(revision) {
            PolicyFault(StartCommand, false);
            return Idle;
          }
          control := Transmit(StartCommand, now, ok);
          return;
        }
        return Idle;
      }
      if actual.state.Starting? {
        if !requested.on {
          if startingStopSince.None? {
            startingStopSince := Some(now);
          } else if now - startingStopSince.value >= config.startingStopTimeout {
            PolicyFault(ShutdownCommand, true);
          }
        }
        return Idle;
      }
      if actual.state.Running? {
        if !requested.on {
          if shutdownSent == Some(revision) {
            PolicyFault(ShutdownCommand, false);
            return Idle;
          }
          control := Transmit(ShutdownCommand, now, ok);
          return;
        }
        return Idle;
      }
      if actual.state.TempMonitoring? && !requested.on { PolicyFault(ShutdownCommand, true); }
      return Idle;
    }

    method Evaluate(now: int, ok: bool) returns (control: Control)
      modifies this
      ensures (View(), control) == EvaluateControl(config, old(View()), now, ok)
    {
      pendingControlDue := None;
      if !phase.Ready? || !actual.communication.Healthy? || !actual.initialized || !actual.synchronized || fault.Some? { return Idle; }
      if attempt.Some? {
        if attempt.value.retryReady && AttemptMatchesRequest(attempt.value) {
          control := Transmit(attempt.value.command, now, ok);
          return;
        }
        return Idle;
      }
      control := DecideNow(now, ok);
    }

    method SettleNow(now: int, answer: SensorAnswer)
      modifies this
      ensures View() == Settle(config, old(View()), now, answer)
    {
      CheckDeadline(now);
      CheckTimeout(now);
      CheckExpiry(now);
      ApplyPolicy(now, answer);
      EnsureSession(now);
      CheckConfirmation(now);
      CompleteSensorStop();
    }

    method Heartbeat(now: int, ok: bool) returns (operation: Option<Operation>)
      modifies this
      ensures (View(), operation) == Synchronize(config, old(View()), now, ok)
    {
      if nextRequestDue.Some? && now < nextRequestDue.value { return None; }
      var asked := Ask(now, ok);
      return Some(asked);
    }

    method ActNow(now: int, ok: bool) returns (outcome: Outcome<Option<Operation>>)
      modifies this
      ensures (View(), outcome) == Act(config, old(View()), now, ok)
    {
      hide EvaluateControl, HeaterModel.Synchronize;
      if pendingControlDue.Some? && now >= pendingControlDue.value {
        var recent := actual.lastStatus.Some? && 0 <= now - actual.lastStatus.value < config.heartbeat;
        if !recent {
          pendingControlDue := None;
          if expected.None? { nextRequestDue := Some(now); }
        } else {
          var control := Evaluate(now, ok);
          if control.Sent? { return Done(Some(control.operation)); }
          if control.Raised? { return Refused; }
        }
      }
      var operation := Heartbeat(now, ok);
      return Done(operation);
    }

    /** One bounded cycle. `ok` is whether the one port call it may make returns. */
    method Cycle(now: int, answer: SensorAnswer, ok: bool) returns (outcome: Outcome<Option<Operation>>)
      requires Valid()
      modifies this
      ensures Valid() && (View(), outcome) == Step(config, old(View()), now, answer, ok)
    {
      StepKeepsSafe(config, View(), now, answer, ok);
      SettleNow(now, answer);
      outcome := ActNow(now, ok);
    }
  }
}
