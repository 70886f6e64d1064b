/** What every run of the network manager keeps: neither the access point nor the station starves, an outage of the
    access point costs the station nothing, profiles take turns, and no stale link is ever claimed. */
module NetworkProperties {
  import opened Options
  import opened NetworkModel

  // ---------------------------------------------------------------- runs

  datatype Input =
    | Begin(now: int)
    | Tick(now: int, reply: Reply)
    | Reset(now: int)
    | Replace(profiles: seq<Profile>)
    | End(reply: Reply)

  datatype Exchange = Exchange(call: Call, reply: Reply)

  /** The state of the manager together with every port call it has made and the answer it got. */
  datatype World = World(state: State, trace: seq<Exchange>)

  function Apply(c: Config, s: State, i: Input): Outcome
    requires Sound(c, s)
  {
    match i
    case Begin(now) => Start(s, now)
    case Tick(now, reply) => Step(c, s, now, reply)
    case Reset(now) => ResetFault(s, now)
    case Replace(profiles) => ReplaceProfiles(s, profiles)
    case End(reply) => Deinit(s, reply)
  }

  function ReplyOf(i: Input): Reply {
    if i.Tick? || i.End? then i.reply else Done
  }

  function Advance(c: Config, w: World, i: Input): (r: World)
    requires Sound(c, w.state)
    ensures Sound(c, r.state)
  {
    ApplyKeepsSound(c, w.state, i);
    var o := Apply(c, w.state, i);
    World(o.state, if o.call.Some? then w.trace + [Exchange(o.call.value, ReplyOf(i))] else w.trace)
  }

  /** Plays the inputs one after the other. */
  function Play(c: Config, w: World, inputs: seq<Input>): (r: World)
    requires Sound(c, w.state)
    ensures Sound(c, r.state)
    decreases |inputs|
  {
    if inputs == [] then w else Play(c, Advance(c, w, inputs[0]), inputs[1..])
  }

  // ---------------------------------------------------------------- the invariant

  predicate SoundStation(s: State) {
    && (s.phase == StationPrepare || s.phase == Disconnect ==> s.profiles != [] && !s.station.connected)
    && (s.station.connected ==> s.station.link == GotIp && s.profiles != [])
    && (s.station.link == GotIp ==> s.station.connected) && (Tracked(s.station.link) ==> s.profiles != [])
    && (s.station.connected && s.phase == Running && !s.faulted ==> s.mode == Online)
    && (!s.station.connected ==> s.station == Unreachable(s.station).(link := s.station.link))
  }

  predicate SoundResume(s: State) {
    s.resume.Some? ==>
      && s.phase == AccessPoint && StationPhase(s.resume.value.phase)
      && (s.resume.value.phase != Running ==> s.profiles != [] && !s.station.connected)
      && (s.station.connected ==> s.resume.value.mode == Online)
  }

  predicate SoundSchedule(c: Config, s: State) {
    && (s.running ==> s.lastStep.Some?)
    && (s.running && StationPhase(s.phase) ==> s.nextApCheck.Some? && s.nextApCheck.value <= s.lastStep.value + c.apCheckInterval)
    && (s.deferred && s.running ==> StationPhase(s.phase) && s.profiles != [])
  }

  predicate Sound(c: Config, s: State) {
    && ValidConfig(c) && (s.profiles == [] || s.index < |s.profiles|) && s.exponent <= MAX_BACKOFF_EXPONENT
    && (s.profiles == [] ==> s.index == 0)
    && s.running == (s.phase != Stopped && s.phase != Closed) && s.closed == (s.phase == Closed)
    && (s.faulted ==> s.phase != Stopped) && WellFormedAp(s.ap)
    && (s.phase == Stopped ==> s.station == NO_STATION)
    && SoundStation(s) && SoundResume(s) && SoundSchedule(c, s)
  }

  lemma InitialIsSound(c: Config, profiles: seq<Profile>)
    requires ValidConfig(c)
    ensures Sound(c, Initial(profiles))
  {
  }

  /** The stale truth about the access point plays no part in asking about it. */
  lemma ClearedFirst(c: Config, s: State, now: int, reply: Reply)
    ensures StepAp(c, s.(ap := NO_AP), now, reply) == StepAp(c, s, now, reply)
    ensures StepAp(c, s, now, reply).call == Some(EnsureAccessPoint(c.apSsid, c.apPassword))
  {
    hide WellFormedAp;
  }

  lemma ClearedBeforeCheck(c: Config, s: State, now: int, reply: Reply)
    ensures StepCheck(c, s.(ap := NO_AP), now, reply) == StepCheck(c, s, now, reply)
    ensures StepCheck(c, s, now, reply).call == Some(AccessPointStatus)
  {
    hide WellFormedAp;
  }

  /** The stale truth about the station plays no part in asking about it, except which profile it is. */
  lemma RevokedFirst(c: Config, s: State, now: int, reply: Reply)
    ensures StepPoll(c, s.(station := Unreachable(s.station)), now, reply) == StepPoll(c, s, now, reply)
    ensures StepPoll(c, s, now, reply).call == Some(StationStatus)
  {
    hide WellFormedStation;
  }

  lemma RepairKeepsSound(c: Config, s: State, now: int, reply: Reply)
    requires Sound(c, s) && s.lastStep == Some(now) && Working(s) && s.phase == AccessPoint
    ensures Sound(c, StepAp(c, s, now, reply).state)
  {
    hide Sound, ApFailed, ApRestored, WellFormedAp, Fault;
    RepairFailureKeepsSound(c, s, now);
    LostApKeepsSound(c, s);
    if reply.ApReport? && WellFormedAp(reply.ap) { RestoringKeepsSound(c, s, now, reply.ap); }
  }

  lemma LostApKeepsSound(c: Config, s: State)
    requires Sound(c, s) && Working(s) && s.phase == AccessPoint
    ensures Sound(c, Fault(s.(ap := NO_AP)))
  {
  }

  lemma RepairFailureKeepsSound(c: Config, s: State, now: int)
    requires Sound(c, s) && s.lastStep == Some(now) && Working(s) && s.phase == AccessPoint
    ensures Sound(c, ApFailed(c, s, now))
  {
  }

  lemma RestoringKeepsSound(c: Config, s: State, now: int, ap: ApTruth)
    requires Sound(c, s) && s.lastStep == Some(now) && Working(s) && s.phase == AccessPoint && WellFormedAp(ap)
    ensures Sound(c, ApRestored(c, s, now, ap))
  {
    hide WellFormedAp;
  }

  lemma CheckKeepsSound(c: Config, s: State, now: int, reply: Reply)
    requires Sound(c, s) && s.lastStep == Some(now) && Working(s) && StationPhase(s.phase)
    ensures Sound(c, StepCheck(c, s, now, reply).state)
  {
  }

  lemma AdvanceKeepsSound(c: Config, s: State, now: int)
    requires Sound(c, s) && Working(s) && s.phase == Disconnect
    ensures Sound(c, AdvanceProfile(c, s.(station := NO_STATION, phase := StationPrepare), now))
  {
    hide RoundDelay;
  }

  /** Which action a station step is. */
  lemma StationStepIsOneOf(c: Config, s: State, now: int, reply: Reply)
    requires Sound(c, s) && StationPhase(s.phase)
    ensures
      var o := StepStation(c, s, now, reply);
      || (s.phase == StationPrepare && o == StepPrepare(c, s, now, reply))
      || (s.phase == Disconnect && o == StepDisconnect(c, s, now, reply))
      || (s.phase == Running && s.index < |s.profiles| && !Tracked(s.station.link) && o == StepConnect(c, s, now, reply))
      || (s.phase == Running && s.profiles != [] && Tracked(s.station.link) && o == StepPoll(c, s, now, reply))
      || (s.phase == Running && s.profiles == [] && o == Outcome(s.(mode := Offline, nextAction := s.nextApCheck), None, Quiet))
      || (s.phase == Running && o == Outcome(s.(nextAction := s.nextPoll), None, Quiet))
  {
    hide StepPrepare, StepDisconnect, StepConnect, StepPoll;
  }

  lemma PrepareKeepsSound(c: Config, s: State, now: int, reply: Reply)
    requires Sound(c, s) && s.lastStep == Some(now) && Working(s) && s.phase == StationPrepare
    ensures Sound(c, StepPrepare(c, s, now, reply).state)
  {
  }

  lemma DisconnectKeepsSound(c: Config, s: State, now: int, reply: Reply)
    requires Sound(c, s) && s.lastStep == Some(now) && Working(s) && s.phase == Disconnect
    ensures Sound(c, StepDisconnect(c, s, now, reply).state)
  {
    hide AdvanceProfile;
    AdvanceKeepsSound(c, s, now);
  }

  lemma ConnectKeepsSound(c: Config, s: State, now: int, reply: Reply)
    requires Sound(c, s) && s.lastStep == Some(now) && Working(s) && s.phase == Running && s.index < |s.profiles| && !Tracked(s.station.link)
    ensures Sound(c, StepConnect(c, s, now, reply).state)
  {
  }

  lemma PollKeepsSound(c: Config, s: State, now: int, reply: Reply)
    requires Sound(c, s) && s.lastStep == Some(now) && Working(s) && s.phase == Running && s.profiles != [] && Tracked(s.station.link)
    ensures Sound(c, StepPoll(c, s, now, reply).state)
  {
    hide WellFormedAp, TimedOut;
  }

  lemma StationStepKeepsSound(c: Config, s: State, now: int, reply: Reply)
    requires Sound(c, s) && s.lastStep == Some(now) && Working(s) && StationPhase(s.phase)
    ensures Sound(c, StepStation(c, s, now, reply).state)
  {
    StationStepIsOneOf(c, s, now, reply);
    if s.phase == StationPrepare { PrepareKeepsSound(c, s, now, reply); }
    if s.phase == Disconnect { DisconnectKeepsSound(c, s, now, reply); }
    if s.phase == Running && s.index < |s.profiles| && !Tracked(s.station.link) { ConnectKeepsSound(c, s, now, reply); }
    if s.phase == Running && s.profiles != [] && Tracked(s.station.link) { PollKeepsSound(c, s, now, reply); }
    hide StepStation, StepPrepare, StepDisconnect, StepConnect, StepPoll;
  }

  lemma StampKeepsSound(c: Config, s: State, now: int)
    requires Sound(c, s) && Working(s) && !Backwards(s, now)
    ensures Sound(c, s.(lastStep := Some(now))) && Sound(c, s.(lastStep := Some(now), deferred := false))
  {
  }

  lemma StepIsOneOf(c: Config, s: State, now: int, reply: Reply)
    requires Sound(c, s)
    ensures
      var (o, t) := (Step(c, s, now, reply), s.(lastStep := Some(now)));
      || o == Outcome(s, None, Quiet) || o == Outcome(Fault(s), None, Raised)
      || (Working(s) && !Backwards(s, now)
          && (o == Outcome(t, None, Quiet)
              || (s.phase == Hostname && o == StepHostname(c, t, now, reply))
              || (s.phase == AccessPoint && o == StepAp(c, t, now, reply))
              || (StationPhase(s.phase)
                  && (o == StepCheck(c, t, now, reply) || o == StepStation(c, t, now, reply)
                      || o == StepStation(c, t.(deferred := false), now, reply)))))
  {
    hide StepHostname, StepAp, StepCheck, StepStation;
  }

  lemma StepKeepsSound(c: Config, s: State, now: int, reply: Reply)
    requires Sound(c, s)
    ensures Sound(c, Step(c, s, now, reply).state)
  {
    StepIsOneOf(c, s, now, reply);
    if Working(s) && !Backwards(s, now) {
      var t := s.(lastStep := Some(now));
      StampKeepsSound(c, s, now);
      if s.phase == AccessPoint {
        RepairKeepsSound(c, t, now, reply);
      } else if StationPhase(s.phase) {
        CheckKeepsSound(c, t, now, reply);
        StationStepKeepsSound(c, t, now, reply);
        StationStepKeepsSound(c, t.(deferred := false), now, reply);
      }
    }
    hide Step, StepAp, StepCheck, StepStation;
  }

  lemma ApplyKeepsSound(c: Config, s: State, i: Input)
    requires Sound(c, s)
    ensures Sound(c, Apply(c, s, i).state)
  {
    if i.Tick? {
      StepKeepsSound(c, s, i.now, i.reply);
    }
  }

  // ---------------------------------------------------------------- neither side starves

  predicate IsApCall(call: Option<Call>) {
    call.Some? && (call.value == AccessPointStatus || call.value.EnsureAccessPoint?)
  }

  predicate IsStationCall(call: Call) {
    call.PrepareStation? || call.DisconnectStation? || call.StationStatus? || call.ConnectStation?
  }

  /** The port call that the station phase has next, if its link is due to be asked about or joined. */
  function StationCall(s: State, now: int): Option<Call>
    requires s.profiles == [] || s.index < |s.profiles|
  {
    match s.phase
    case StationPrepare => Some(PrepareStation)
    case Disconnect => Some(DisconnectStation)
    case Running =>
      if s.profiles == [] then None
      else if !Tracked(s.station.link) then Some(ConnectStation(s.profiles[s.index]))
      else if Reached(s.nextPoll, now) then Some(StationStatus)
      else None
    case _ => None
  }

  lemma StationStepMakesStationCall(c: Config, s: State, now: int, reply: Reply)
    requires Sound(c, s) && StationPhase(s.phase)
    ensures StepStation(c, s, now, reply).call == StationCall(s, now)
  {
    hide AdvanceProfile;
  }

  predicate LeavesChecks(s: State, t: State) {
    && t.lastStep == s.lastStep && t.running == s.running && t.closed == s.closed
    && (t.faulted || (t.nextApCheck == s.nextApCheck && t.deferred == s.deferred))
  }

  lemma RunningLeavesChecks(c: Config, s: State, now: int, reply: Reply)
    requires Sound(c, s) && s.phase == Running
    ensures LeavesChecks(s, StepRunning(c, s, now, reply).state)
  {
    if s.profiles != [] && !Tracked(s.station.link) {
      assert LeavesChecks(s, StepConnect(c, s, now, reply).state);
    } else if s.profiles != [] {
      assert LeavesChecks(s, StepPoll(c, s, now, reply).state);
    }
  }

  lemma StationStepLeavesChecks(c: Config, s: State, now: int, reply: Reply)
    requires Sound(c, s) && StationPhase(s.phase)
    ensures LeavesChecks(s, StepStation(c, s, now, reply).state)
  {
    hide RoundDelay, StepRunning;
    if s.phase == Running {
      RunningLeavesChecks(c, s, now, reply);
    }
  }

  function TwoSteps(c: Config, s: State, now: int, reply: Reply, later: int, next: Reply): (Outcome, Outcome)
    requires Sound(c, s)
  {
    StepKeepsSound(c, s, now, reply);
    var first := Step(c, s, now, reply);
    (first, Step(c, first.state, later, next))
  }

  /** A due check of the access point is made by this step or by the next one, however late the station is. */
  lemma DueCheckWithinTwoSteps(c: Config, s: State, now: int, reply: Reply, later: int, next: Reply)
    requires Sound(c, s) && Working(s) && !Backwards(s, now) && now <= later && ApCheckDue(s, now)
    ensures
      var (first, second) := TwoSteps(c, s, now, reply, later, next);
      first.call == Some(AccessPointStatus) || first.state.faulted || second.call == Some(AccessPointStatus)
  {
    StepKeepsSound(c, s, now, reply);
    var t := s.(lastStep := Some(now));
    if StationPreferred(s, now) {
      StationStepLeavesChecks(c, t.(deferred := false), now, reply);
      StationStepKeepsPhase(c, t.(deferred := false), now, reply);
      hide StepStation;
    }
  }

  /** So the access point is looked at once an interval, and at most one step late. */
  lemma SupervisionIsPeriodic(c: Config, s: State, now: int, reply: Reply, later: int, next: Reply)
    requires Sound(c, s) && Working(s) && StationPhase(s.phase)
    requires s.lastStep.value + c.apCheckInterval <= now <= later
    ensures
      var (first, second) := TwoSteps(c, s, now, reply, later, next);
      first.call == Some(AccessPointStatus) || first.state.faulted || second.call == Some(AccessPointStatus)
  {
    DueCheckWithinTwoSteps(c, s, now, reply, later, next);
  }

  lemma CheckedStep(c: Config, s: State, now: int, reply: Reply)
    requires Sound(c, s) && Working(s) && StationPhase(s.phase) && s.profiles != [] && Reached(s.nextAction, now)
    requires Step(c, s, now, reply).report == ApChecked
    ensures var t := Step(c, s, now, reply).state;
      && t == s.(lastStep := Some(now), ap := t.ap, nextApCheck := t.nextApCheck, deferred := true) && !Backwards(s, now)
  {
    hide StepStation;
    var t := s.(lastStep := Some(now));
    StationReportIsNotApChecked(c, t, now, reply);
    StationReportIsNotApChecked(c, t.(deferred := false), now, reply);
  }

  lemma StationReportIsNotApChecked(c: Config, s: State, now: int, reply: Reply)
    requires Sound(c, s) && StationPhase(s.phase)
    ensures StepStation(c, s, now, reply).report != ApChecked
  {
    hide RoundDelay, AdvanceProfile;
  }

  /** A due station action gives way to at most one successful check: the step after it is the station's, whether or not
      the access point is due again by then. */
  lemma PassedOverAtMostOnce(c: Config, s: State, now: int, reply: Reply, later: int, next: Reply)
    requires Sound(c, s) && Working(s) && StationPhase(s.phase) && s.profiles != [] && Reached(s.nextAction, now) && now <= later
    requires Step(c, s, now, reply).report == ApChecked
    ensures TwoSteps(c, s, now, reply, later, next).1.call == StationCall(s, later)
  {
    hide StepStation, StepCheck, StepHostname, StepAp;
    StepKeepsSound(c, s, now, reply);
    CheckedStep(c, s, now, reply);
    var t := Step(c, s, now, reply).state.(lastStep := Some(later));
    StationStepMakesStationCall(c, t, later, next);
    StationStepMakesStationCall(c, t.(deferred := false), later, next);
  }

  // ---------------------------------------------------------------- an outage of the access point

  predicate AllTicks(inputs: seq<Input>) {
    forall i :: i in inputs ==> i.Tick?
  }

  predicate SameStation(s: State, before: State) {
    && s.profiles == before.profiles && s.index == before.index && s.exponent == before.exponent
    && s.station == before.station && s.nextPoll == before.nextPoll && s.connectingSince == before.connectingSince
  }

  predicate Interrupted(s: State, before: State) {
    && s.phase == AccessPoint && SameStation(s, before)
    && s.resume == Some(Resume(before.phase, before.nextAction, before.mode))
  }

  predicate Resumed(s: State, before: State) {
    s.phase == before.phase && s.nextAction == before.nextAction && s.mode == before.mode && SameStation(s, before)
  }

  lemma OutageBegins(c: Config, s: State, now: int, reply: Reply)
    requires Sound(c, s) && StationPhase(s.phase) && Step(c, s, now, reply).state.phase == AccessPoint
    ensures Interrupted(Step(c, s, now, reply).state, s)
  {
    hide StepStation;
    var t := s.(lastStep := Some(now));
    StationStepKeepsPhase(c, t, now, reply);
    StationStepKeepsPhase(c, t.(deferred := false), now, reply);
  }

  lemma StationStepKeepsPhase(c: Config, s: State, now: int, reply: Reply)
    requires Sound(c, s) && StationPhase(s.phase)
    ensures StationPhase(StepStation(c, s, now, reply).state.phase)
  {
    hide RoundDelay;
  }

  lemma OutageStep(c: Config, s: State, before: State, now: int, reply: Reply)
    requires Sound(c, s) && Sound(c, before) && !before.faulted && Interrupted(s, before)
    ensures var t := Step(c, s, now, reply).state; t.faulted || Interrupted(t, before) || Resumed(t, before)
    ensures var t := Step(c, s, now, reply).state; t.phase == AccessPoint ==> Interrupted(t, before)
  {
    hide StepAp, Sound, Resumed;
    if Working(s) && !Backwards(s, now) {
      StampKeepsSound(c, s, now);
      RepairStep(c, s.(lastStep := Some(now)), before, now, reply);
    }
  }

  lemma RepairStep(c: Config, s: State, before: State, now: int, reply: Reply)
    requires Sound(c, s) && Sound(c, before) && !before.faulted && Interrupted(s, before)
    ensures var t := StepAp(c, s, now, reply).state; t.faulted || Interrupted(t, before) || Resumed(t, before)
    ensures var t := StepAp(c, s, now, reply).state; t.phase == AccessPoint ==> Interrupted(t, before)
  {
    hide WellFormedAp;
  }

  /** Every state before the last of these ticks is one where the access point is down. */
  predicate DownThroughout(c: Config, w: World, inputs: seq<Input>)
    requires Sound(c, w.state)
    decreases |inputs|
  {
    inputs != [] ==>
      && w.state.phase == AccessPoint && DownThroughout(c, Advance(c, w, inputs[0]), inputs[1..])
  }

  lemma {:induction false} OutageLasts(c: Config, w: World, before: State, inputs: seq<Input>)
    requires Sound(c, w.state) && Sound(c, before) && !before.faulted && Interrupted(w.state, before)
    requires AllTicks(inputs) && DownThroughout(c, w, inputs)
    ensures var end := Play(c, w, inputs).state; end.faulted || Interrupted(end, before) || Resumed(end, before)
    decreases |inputs|
  {
    if inputs != [] {
      var i := inputs[0];
      assert i.Tick?;
      OutageStep(c, w.state, before, i.now, i.reply);
      var v := Advance(c, w, i);
      if v.state.phase == AccessPoint {
        OutageLasts(c, v, before, inputs[1..]);
      } else {
        assert inputs[1..] == [];
      }
    }
  }

  /** An outage, however long and however many repairs fail, gives the station back the phase, the deadline and the
      state it was interrupted in, as soon as the access point is up again. */
  lemma OutageCostsNothing(c: Config, w: World, first: Input, rest: seq<Input>)
    requires Sound(c, w.state) && Working(w.state) && StationPhase(w.state.phase) && first.Tick? && AllTicks(rest)
    requires Apply(c, w.state, first).state.phase == AccessPoint
    requires DownThroughout(c, Advance(c, w, first), rest)
    ensures
      var end := Play(c, Advance(c, w, first), rest).state;
      !end.faulted && end.phase != AccessPoint ==> Resumed(end, w.state)
  {
    OutageBegins(c, w.state, first.now, first.reply);
    OutageLasts(c, Advance(c, w, first), w.state, rest);
  }
}
