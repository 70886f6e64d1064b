/** The network manager object (app/network_manager.py) and its port. Each operation makes the transition of NetworkModel,
    asks the port for at most one thing, and keeps the manager sound and honest about its links. */
module NetworkSupervision {
  import opened Options
  import opened NetworkModel
  import opened NetworkProperties
  import opened NetworkRuns

  /** The radio: answers each call with the next thing it has in store, whatever that is. */
  class Port {
    var replies: seq<Reply>
    ghost var trace: seq<Exchange>

    constructor (replies: seq<Reply>)
      ensures trace == [] && this.replies == replies
    {
      this.replies := replies;
      trace := [];
    }

    function NextReply(): Reply
      reads this
    {
      if replies == [] then PortError else replies[0]
    }

    method Ask(call: Call) returns (reply: Reply)
      modifies this
      ensures reply == old(NextReply()) && trace == old(trace) + [Exchange(call, reply)]
    {
      reply := NextReply();
      trace := trace + [Exchange(call, reply)];
      if replies != [] { replies := replies[1..]; }
    }
  }

  class NetworkManager {
    const config: Config
    const port: Port

    var profiles: seq<Profile>
    var running: bool
    var closed: bool
    var faulted: bool
    var phase: Phase
    var mode: Mode
    var lastStep: Option<int>
    var nextAction: Option<int>
    var nextApCheck: Option<int>
    var nextPoll: Option<int>
    var connectingSince: Option<int>
    var deferred: bool
    var resume: Option<Resume>
    var index: nat
    var exponent: nat
    var station: Station
    var ap: ApTruth

    ghost function View(): State
      reads this
    {
      State(profiles, running, closed, faulted, phase, mode, lastStep, nextAction, nextApCheck, nextPoll, connectingSince,
            deferred, resume, index, exponent, station, ap)
    }

    ghost function Present(): World
      reads this, port
    {
      World(View(), port.trace)
    }

    ghost predicate Valid()
      reads this, port
    {
      Sound(config, View()) && Honest(Present()) && Rotates(Present())
    }

    constructor (config: Config, profiles: seq<Profile>, port: Port)
      requires ValidConfig(config) && port.trace == []
      ensures this.config == config && this.port == port && View() == Initial(profiles) && Valid()
    {
      this.config, this.port, this.profiles := config, port, profiles;
      running, closed, faulted, phase, mode := false, false, false, Stopped, Halted;
      lastStep, nextAction, nextApCheck, nextPoll, connectingSince := None, None, None, None, None;
      deferred, resume, index, exponent, station, ap := false, None, 0, 0, NO_STATION, NO_AP;
      new;
      InitialIsSound(config, profiles);
    }

    // ------------------------------------------------------------ fields that change together

    method LatchFault()
      modifies `faulted, `mode
      ensures View() == Fault(old(View()))
    {
      faulted, mode := true, Faulted;
    }

    method Enter(next: Phase, state: Mode, due: Option<int>)
      modifies `phase, `mode, `nextAction
      ensures View() == old(View()).(phase := next, mode := state, nextAction := due)
    {
      phase, mode, nextAction := next, state, due;
    }

    method SeeAp(seen: ApTruth)
      modifies `ap
      ensures View() == old(View()).(ap := seen)
    {
      ap := seen;
    }

    method SeeStation(seen: Station)
      modifies `station
      ensures View() == old(View()).(station := seen)
    {
      station := seen;
    }

    method PlanCheck(due: Option<int>, passedOver: bool)
      modifies `nextApCheck, `deferred
      ensures View() == old(View()).(nextApCheck := due, deferred := passedOver)
    {
      nextApCheck, deferred := due, passedOver;
    }

    method PlanPoll(due: Option<int>, since: Option<int>)
      modifies `nextPoll, `connectingSince
      ensures View() == old(View()).(nextPoll := due, connectingSince := since)
    {
      nextPoll, connectingSince := due, since;
    }

    method SetResume(r: Option<Resume>)
      modifies `resume
      ensures View() == old(View()).(resume := r)
    {
      resume := r;
    }

    method SetTurn(next: nat, rounds: nat)
      modifies `index, `exponent
      ensures View() == old(View()).(index := next, exponent := rounds)
    {
      index, exponent := next, rounds;
    }

    method Stamp(now: int)
      modifies `lastStep
      ensures View() == old(View()).(lastStep := Some(now))
    {
      lastStep := Some(now);
    }

    // ------------------------------------------------------------ the phases

    method RememberStation()
      modifies `resume
      ensures View() == Remember(old(View()))
    {
      if StationPhase(phase) { resume := Some(Resume(phase, nextAction, mode)); }
    }

    method LoseAp(due: Option<int>)
      modifies this
      ensures View() == Remember(old(View())).(deferred := false, phase := AccessPoint, mode := Degraded, nextAction := due)
    {
      RememberStation();
      deferred := false;
      Enter(AccessPoint, Degraded, due);
    }

    method HandleApError(now: int)
      modifies this
      ensures View() == ApFailed(config, old(View()), now)
    {
      RememberStation();
      SeeAp(NO_AP);
      deferred := false;
      Enter(AccessPoint, Degraded, Some(now + config.apCheckInterval));
    }

    /** How a step that asked the port once, or not at all, has changed the manager and the record of calls. */
    ghost predicate Did(o: Outcome, report: Report, reply: Reply, before: seq<Exchange>)
      reads this, port
    {
      && View() == o.state && report == o.report
      && port.trace == if o.call.Some? then before + [Exchange(o.call.value, reply)] else before
    }

    method ConfigureName(now: int) returns (report: Report)
      modifies this, port
      ensures Did(StepHostname(config, old(View()), now, old(port.NextReply())), report, old(port.NextReply()), old(port.trace))
    {
      var reply := port.Ask(ConfigureHostname(config.hostname));
      match reply {
        case Done => Enter(AccessPoint, mode, Some(now)); report := HostnameConfigured;
        case PortError => Enter(AccessPoint, Degraded, Some(now)); report := HostnameDegraded;
        case _ => LatchFault(); report := Raised;
      }
    }

    method RestoreStation(now: int)
      modifies this
      ensures View() == ApRestored(config, old(View()), now, old(ap))
    {
      var interrupted := resume;
      PlanCheck(Some(now + config.apCheckInterval), false);
      SetResume(None);
      var due := if interrupted.Some? then interrupted.value.deadline else Some(now);
      if station.connected { Enter(Running, Online, due); }
      else if interrupted.Some? { Enter(interrupted.value.phase, interrupted.value.mode, due); }
      else if profiles != [] { Enter(StationPrepare, Starting, due); }
      else { Enter(Running, Offline, due); }
    }

    method RepairAp(now: int) returns (report: Report)
      modifies this, port
      ensures Did(StepAp(config, old(View()), now, old(port.NextReply())), report, old(port.NextReply()), old(port.trace))
    {
      ClearedFirst(config, View(), now, port.NextReply());
      hide StepAp;
      SeeAp(NO_AP);
      var reply := port.Ask(EnsureAccessPoint(config.apSsid, config.apPassword));
      report := TakeRepair(reply, now);
    }

    method TakeRepair(reply: Reply, now: int) returns (report: Report)
      requires ap == NO_AP
      modifies this
      ensures View() == StepAp(config, old(View()), now, reply).state && report == StepAp(config, old(View()), now, reply).report
    {
      hide WellFormedAp;
      if reply.PortError? {
        HandleApError(now);
        report := ApRetry;
      } else if !reply.ApReport? || !WellFormedAp(reply.ap) {
        LatchFault();
        report := Raised;
      } else {
        report := TakeApReport(reply.ap, now);
      }
    }

    method TakeApReport(seen: ApTruth, now: int) returns (report: Report)
      modifies this
      ensures View() == if seen.active then ApRestored(config, old(View()), now, seen) else ApFailed(config, old(View()), now)
      ensures report == if seen.active then ApAvailable else ApRetry
    {
      SeeAp(seen);
      if !ap.active {
        HandleApError(now);
        report := ApRetry;
      } else {
        RestoreStation(now);
        report := ApAvailable;
      }
    }

    method CheckAp(now: int) returns (report: Report)
      modifies this, port
      ensures Did(StepCheck(config, old(View()), now, old(port.NextReply())), report, old(port.NextReply()), old(port.trace))
    {
      ClearedBeforeCheck(config, View(), now, port.NextReply());
      hide StepCheck;
      SeeAp(NO_AP);
      var reply := port.Ask(AccessPointStatus);
      report := TakeCheck(reply, now);
    }

    method TakeCheck(reply: Reply, now: int) returns (report: Report)
      requires ap == NO_AP
      modifies this
      ensures View() == StepCheck(config, old(View()), now, reply).state && report == StepCheck(config, old(View()), now, reply).report
    {
      hide WellFormedAp, StationPhase;
      if reply.PortError? {
        HandleApError(now);
        report := ApRetry;
      } else if !reply.ApReport? || !WellFormedAp(reply.ap) {
        LatchFault();
        report := Raised;
      } else {
        SeeAp(reply.ap);
        PlanCheck(Some(now + config.apCheckInterval), deferred);
        report := JudgeAp(now);
      }
    }

    method JudgeAp(now: int) returns (report: Report)
      modifies this
      ensures var s := old(View());
        View() == (if s.ap.active then s.(deferred := Reached(s.nextAction, now) && s.profiles != [])
                   else Remember(s).(deferred := false, phase := AccessPoint, mode := Degraded, nextAction := Some(now)))
      ensures report == if old(ap).active then ApChecked else ApLost
    {
      hide StationPhase;
      if !ap.active {
        LoseAp(Some(now));
        report := ApLost;
      } else {
        PlanCheck(nextApCheck, Reached(nextAction, now) && profiles != []);
        report := ApChecked;
      }
    }

    method Prepare(now: int) returns (report: Report)
      modifies this, port
      ensures Did(StepPrepare(config, old(View()), now, old(port.NextReply())), report, old(port.NextReply()), old(port.trace))
    {
      var reply := port.Ask(PrepareStation);
      match reply {
        case Done => Enter(Running, Offline, Some(now)); report := StationReady;
        case PortError => Enter(phase, Degraded, Some(now + config.profileGap)); report := StationRetry;
        case _ => LatchFault(); report := Raised;
      }
    }

    method NextProfile(now: int)
      modifies this
      ensures View() == AdvanceProfile(config, old(View()), now)
    {
      if profiles == [] {
        SetTurn(0, exponent);
        Enter(phase, Offline, None);
      } else {
        SetTurn(index + 1, exponent);
        if index >= |profiles| {
          SetTurn(0, if exponent < MAX_BACKOFF_EXPONENT then exponent + 1 else exponent);
          var delay := RoundBackoff(exponent);
          Enter(phase, Backoff, Some(now + delay));
        } else {
          Enter(phase, Offline, Some(now + config.profileGap));
        }
      }
    }

    method RoundBackoff(rounds: nat) returns (delay: int)
      requires rounds > 0
      ensures delay == RoundDelay(config, rounds)
    {
      delay := config.roundBackoff;
      for i := 0 to rounds - 1
        invariant delay == Doubled(config.roundBackoff, i)
      {
        delay := 2 * delay;
      }
      if delay > MAX_ROUND_BACKOFF_MS { delay := MAX_ROUND_BACKOFF_MS; }
    }

    method Leave(now: int) returns (report: Report)
      modifies this, port
      ensures Did(StepDisconnect(config, old(View()), now, old(port.NextReply())), report, old(port.NextReply()), old(port.trace))
    {
      var reply := port.Ask(DisconnectStation);
      match reply {
        case Done =>
          SeeStation(NO_STATION);
          Enter(if profiles != [] then StationPrepare else Running, mode, nextAction);
          NextProfile(now);
          report := StationDisconnected;
        case PortError => Enter(phase, mode, Some(now + config.profileGap)); report := DisconnectRetry;
        case _ => LatchFault(); report := Raised;
      }
    }

    method Poll(now: int) returns (report: Report)
      modifies this, port
      ensures Did(StepPoll(config, old(View()), now, old(port.NextReply())), report, old(port.NextReply()), old(port.trace))
    {
      RevokedFirst(config, View(), now, port.NextReply());
      hide StepPoll;
      SeeStation(Unreachable(station));
      var reply := port.Ask(StationStatus);
      report := TakePoll(reply, now);
    }

    method TakePoll(reply: Reply, now: int) returns (report: Report)
      requires station == Unreachable(station)
      modifies this
      ensures View() == StepPoll(config, old(View()), now, reply).state && report == StepPoll(config, old(View()), now, reply).report
    {
      hide WellFormedStation;
      if reply.PortError? {
        Enter(Disconnect, Degraded, Some(now));
        report := StationRetry;
      } else if !reply.StationReport? || !WellFormedStation(reply.station) {
        LatchFault();
        report := Raised;
      } else {
        report := TakeStation(reply.station, now);
      }
    }

    method TakeStation(seen: Station, now: int) returns (report: Report)
      requires WellFormedStation(seen)
      modifies this
      ensures var o := StepPoll(config, old(View()), now, StationReport(seen)); View() == o.state && report == o.report
    {
      hide WellFormedStation;
      SeeStation(seen);
      PlanPoll(Some(now + config.pollInterval), connectingSince);
      report := JudgeStation(now);
    }

    method JudgeStation(now: int) returns (report: Report)
      modifies this
      ensures var s := old(View());
        if s.station.connected then View() == s.(mode := Online, exponent := 0, nextAction := s.nextPoll) && report == StationConnected
        else if s.station.link != Connecting then View() == Abandon(s, now).(mode := Offline) && report == StationFailed
        else if TimedOut(config, s, now) then View() == Abandon(s, now).(mode := Offline) && report == StationTimeout
        else View() == s.(mode := Joining, nextAction := s.nextPoll) && report == StationConnecting
    {
      if station.connected {
        SetTurn(index, 0);
        Enter(phase, Online, nextPoll);
        report := StationConnected;
      } else if station.link != Connecting {
        Enter(Disconnect, Offline, Some(now));
        report := StationFailed;
      } else if connectingSince.Some? && now - connectingSince.value >= config.connectionTimeout {
        Enter(Disconnect, Offline, Some(now));
        report := StationTimeout;
      } else {
        Enter(phase, Joining, nextPoll);
        report := StationConnecting;
      }
    }

    method Join(now: int) returns (report: Report)
      requires index < |profiles|
      modifies this, port
      ensures Did(StepConnect(config, old(View()), now, old(port.NextReply())), report, old(port.NextReply()), old(port.trace))
    {
      var profile := profiles[index];
      var reply := port.Ask(ConnectStation(profile));
      match reply {
        case Done =>
          SeeStation(station.(link := Connecting, connected := false, profileId := Some(profile.id), ssid := Some(profile.ssid)));
          PlanPoll(Some(now + config.pollInterval), Some(now));
          Enter(phase, Joining, nextPoll);
          report := StationConnecting;
        case PortError =>
          SeeStation(station.(profileId := Some(profile.id)));
          Enter(Disconnect, mode, Some(now));
          report := StationRetry;
        case _ => LatchFault(); report := Raised;
      }
    }

    method ActOnStation(now: int) returns (report: Report)
      requires profiles == [] || index < |profiles|
      modifies this, port
      ensures Did(StepStation(config, old(View()), now, old(port.NextReply())), report, old(port.NextReply()), old(port.trace))
    {
      if phase == StationPrepare { report := Prepare(now); }
      else if phase == Disconnect { report := Leave(now); }
      else if phase != Running { LatchFault(); report := Raised; }
      else if profiles == [] { Enter(phase, Offline, nextApCheck); report := Quiet; }
      else if !Tracked(station.link) { report := Join(now); }
      else if !Reached(nextPoll, now) { Enter(phase, mode, nextPoll); report := Quiet; }
      else { report := Poll(now); }
    }

    method StepCore(now: int) returns (report: Report)
      requires profiles == [] || index < |profiles|
      modifies this, port
      ensures Did(NetworkModel.Step(config, old(View()), now, old(port.NextReply())), report, old(port.NextReply()), old(port.trace))
    {
      if !running || faulted || closed { return Quiet; }
      if lastStep.Some? && now < lastStep.value { LatchFault(); return Raised; }
      Stamp(now);
      var actionDue := Reached(nextAction, now);
      var checkDue := StationPhase(phase) && Reached(nextApCheck, now);
      var preferred := checkDue && actionDue && deferred;
      if !actionDue && !checkDue { return Quiet; }
      if phase == Hostname { report := ConfigureName(now); }
      else if phase == AccessPoint { report := RepairAp(now); }
      else if checkDue && !preferred { report := CheckAp(now); }
      else {
        if preferred { PlanCheck(nextApCheck, false); }
        report := ActOnStation(now);
      }
    }

    // ------------------------------------------------------------ operations

    method Start(now: int) returns (report: Report)
      requires Valid()
      modifies this
      ensures Valid() && Did(NetworkModel.Start(old(View()), now), report, Done, old(port.trace))
    {
      ghost var was := Present();
      ApplyKeepsSound(config, View(), Begin(now));
      AdvanceIsHonest(config, was, Begin(now));
      AdvanceRotates(config, was, Begin(now));
      if closed || faulted { return Raised; }
      if running { return Quiet; }
      running := true;
      Stamp(now);
      Enter(Hostname, Starting, Some(now));
      PlanCheck(Some(now), false);
      PlanPoll(Some(now), connectingSince);
      SetResume(None);
      report := Quiet;
      assert Present() == Advance(config, was, Begin(now));
    }

    /** One step: at most one more port call, recorded with the answer it got. */
    method Step(now: int) returns (report: Report)
      requires Valid()
      modifies this, port
      ensures Valid() && Did(NetworkModel.Step(config, old(View()), now, old(port.NextReply())), report, old(port.NextReply()), old(port.trace))
      ensures old(port.trace) <= port.trace && |port.trace| <= |old(port.trace)| + 1
    {
      ghost var was, i := Present(), Tick(now, port.NextReply());
      ApplyKeepsSound(config, View(), i);
      AdvanceIsHonest(config, was, i);
      AdvanceRotates(config, was, i);
      report := StepCore(now);
      hide NetworkModel.Step, Sound, Honest, Rotates;
      assert Present() == Advance(config, was, i);
    }

    method ResetFault(now: int) returns (report: Report)
      requires Valid()
      modifies this
      ensures Valid() && Did(NetworkModel.ResetFault(old(View()), now), report, Done, old(port.trace))
    {
      ghost var was := Present();
      ApplyKeepsSound(config, View(), Reset(now));
      AdvanceIsHonest(config, was, Reset(now));
      AdvanceRotates(config, was, Reset(now));
      if closed { return Raised; }
      if !faulted { return Quiet; }
      faulted := false;
      Stamp(now);
      Enter(Hostname, Starting, Some(now));
      PlanCheck(nextApCheck, false);
      SetResume(None);
      report := Quiet;
      assert Present() == Advance(config, was, Reset(now));
    }

    method ReplaceProfiles(candidate: seq<Profile>) returns (report: Report)
      requires Valid()
      modifies this
      ensures Valid() && Did(NetworkModel.ReplaceProfiles(old(View()), candidate), report, Done, old(port.trace))
    {
      ghost var was := Present();
      ApplyKeepsSound(config, View(), Replace(candidate));
      AdvanceIsHonest(config, was, Replace(candidate));
      AdvanceRotates(config, was, Replace(candidate));
      if running || closed { return Raised; }
      if candidate == profiles { return Quiet; }
      profiles := candidate;
      SetTurn(0, 0);
      SetResume(None);
      report := Quiet;
      assert Present() == Advance(config, was, Replace(candidate));
    }

    method Revoke()
      modifies this
      ensures View() == old(View()).(closed := true, running := false, phase := Closed, mode := Shut, resume := None, ap := NO_AP,
                                     station := Unreachable(old(station)))
    {
      closed, running := true, false;
      Enter(Closed, Shut, nextAction);
      SetResume(None);
      SeeAp(NO_AP);
      SeeStation(Unreachable(station));
    }

    method Deinit() returns (report: Report)
      requires Valid()
      modifies this, port
      ensures Valid() && Did(NetworkModel.Deinit(old(View()), old(port.NextReply())), report, old(port.NextReply()), old(port.trace))
    {
      ghost var was, i := Present(), End(port.NextReply());
      ApplyKeepsSound(config, View(), i);
      AdvanceIsHonest(config, was, i);
      AdvanceRotates(config, was, i);
      hide Sound, Honest, Rotates;
      Revoke();
      var reply := port.Ask(DeinitPort);
      report := if reply == Done then Quiet else Raised;
      assert Present() == Advance(config, was, i);
    }
  }
}
