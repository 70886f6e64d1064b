/** What the network manager does, not only what it must not do: which call each step makes, and how an answer moves the
    access point and the station on. */
module NetworkActions {
  import opened Options
  import opened NetworkModel
  import opened NetworkProperties

  // ---------------------------------------------------------------- which call a step makes

  /** The time of the next action has come; no time set means at once. */
  predicate ActionDue(s: State, now: int) {
    s.nextAction.Some? ==> s.nextAction.value <= now
  }

  predicate CheckDue(s: State, now: int) {
    && (s.phase == Running || s.phase == StationPrepare || s.phase == Disconnect)
    && (s.nextApCheck.Some? ==> s.nextApCheck.value <= now)
  }

  /** The one call of a step: the phase decides, except that a due check of the access point goes first, unless the station was
      passed over for one before and is due itself. */
  function NextCall(c: Config, s: State, now: int): Option<Call>
    requires s.profiles == [] || s.index < |s.profiles|
  {
    if !s.running || s.faulted || s.closed || (s.lastStep.Some? && now < s.lastStep.value) then None
    else if !ActionDue(s, now) && !CheckDue(s, now) then None
    else if s.phase == Hostname then Some(ConfigureHostname(c.hostname))
    else if s.phase == AccessPoint then Some(EnsureAccessPoint(c.apSsid, c.apPassword))
    else if CheckDue(s, now) && !(s.deferred && ActionDue(s, now)) then Some(AccessPointStatus)
    else StationCall(s, now)
  }

  lemma ApStepsMakeApCalls(c: Config, s: State, now: int, reply: Reply)
    ensures StepHostname(c, s, now, reply).call == Some(ConfigureHostname(c.hostname))
    ensures StepAp(c, s, now, reply).call == Some(EnsureAccessPoint(c.apSsid, c.apPassword))
    ensures StepCheck(c, s, now, reply).call == Some(AccessPointStatus)
  {
    hide WellFormedAp;
  }

  /** Whatever the answer, the step makes exactly that call. */
  lemma StepMakesNextCall(c: Config, s: State, now: int, reply: Reply)
    requires Sound(c, s)
    ensures Step(c, s, now, reply).call == NextCall(c, s, now)
  {
    var t := s.(lastStep := Some(now));
    if Working(s) && !Backwards(s, now) {
      StampKeepsSound(c, s, now);
      ApStepsMakeApCalls(c, t, now, reply);
      if StationPhase(s.phase) {
        StationStepMakesStationCall(c, t, now, reply);
        StationStepMakesStationCall(c, t.(deferred := false), now, reply);
        assert StationCall(t, now) == StationCall(s, now) && StationCall(t.(deferred := false), now) == StationCall(s, now);
      }
    }
    hide Sound, StepHostname, StepAp, StepCheck, StepStation;
  }

  // ---------------------------------------------------------------- what an answer does

  /** The manager works, and until then no check of the access point is due. */
  predicate Undisturbed(s: State, now: int) {
    && s.running && !s.faulted && !s.closed && (s.lastStep.Some? ==> s.lastStep.value <= now)
    && s.nextApCheck.Some? && now < s.nextApCheck.value
  }

  lemma StationActs(c: Config, s: State, now: int, reply: Reply)
    requires Sound(c, s) && StationPhase(s.phase) && Undisturbed(s, now) && ActionDue(s, now)
    ensures Step(c, s, now, reply) == StepStation(c, s.(lastStep := Some(now)), now, reply)
  {
    hide StepStation;
  }

  /** A prepared station joins the profile whose turn it is. */
  lemma PreparedStationJoins(c: Config, s: State, now: int)
    requires Sound(c, s) && s.phase == StationPrepare && Undisturbed(s, now) && ActionDue(s, now)
    ensures var o := Step(c, s, now, Done);
            && o.call == Some(PrepareStation) && o.report == StationReady
            && o.state == s.(lastStep := Some(now), phase := Running, mode := Offline, nextAction := Some(now))
  {
    StationActs(c, s, now, Done);
  }

  lemma ReadyStationConnects(c: Config, s: State, now: int)
    requires Sound(c, s) && s.phase == Running && s.profiles != [] && !Tracked(s.station.link) && Undisturbed(s, now) && ActionDue(s, now)
    ensures var o := Step(c, s, now, Done);
            var profile := s.profiles[s.index];
            && o.call == Some(ConnectStation(profile)) && o.report == StationConnecting
            && o.state == s.(lastStep := Some(now), mode := Joining, connectingSince := Some(now), nextPoll := Some(now + c.pollInterval),
                             nextAction := Some(now + c.pollInterval),
                             station := s.station.(link := Connecting, connected := false, profileId := Some(profile.id), ssid := Some(profile.ssid)))
  {
    StationActs(c, s, now, Done);
  }

  /** What a poll makes of a well-formed report. */
  predicate Judged(c: Config, s: State, now: int, seen: Station, o: Outcome) {
    && o.call == Some(StationStatus) && o.state.station == seen && o.state.nextPoll == Some(now + c.pollInterval) && o.state.index == s.index
    && if seen.connected then
         o.report == StationConnected && o.state.mode == Online && o.state.exponent == 0 && o.state.phase == Running
         && o.state.nextAction == Some(now + c.pollInterval)
       else if seen.link == Connecting && (s.connectingSince.None? || now - s.connectingSince.value < c.connectionTimeout) then
         o.report == StationConnecting && o.state.mode == Joining && o.state.phase == Running
         && o.state.nextAction == Some(now + c.pollInterval) && o.state.connectingSince == s.connectingSince
       else
         o.report == (if seen.link == Connecting then StationTimeout else StationFailed)
         && o.state.mode == Offline && o.state.phase == Disconnect && o.state.nextAction == Some(now)
  }

  lemma TrackedStationIsPolled(c: Config, s: State, now: int, seen: Station)
    requires Sound(c, s) && s.phase == Running && s.profiles != [] && Tracked(s.station.link) && WellFormedStation(seen)
    requires Undisturbed(s, now) && ActionDue(s, now) && (s.nextPoll.Some? ==> s.nextPoll.value <= now)
    ensures Judged(c, s, now, seen, Step(c, s, now, StationReport(seen)))
  {
    StationActs(c, s, now, StationReport(seen));
    hide WellFormedStation;
  }

  /** The profile that comes next, and from when. */
  predicate MovedOn(c: Config, s: State, now: int, t: State)
    requires s.exponent < MAX_BACKOFF_EXPONENT || s.exponent > 0
  {
    && t.phase == StationPrepare && t.station == NO_STATION
    && t.index == (if s.index + 1 < |s.profiles| then s.index + 1 else 0)
    && t.nextAction == Some(now + (if t.index == 0 then RoundDelay(c, if s.exponent < MAX_BACKOFF_EXPONENT then s.exponent + 1 else s.exponent)
                                   else c.profileGap))
  }

  lemma LeavingMovesOn(c: Config, s: State, now: int)
    requires Sound(c, s) && s.phase == Disconnect && Undisturbed(s, now) && ActionDue(s, now)
    ensures s.exponent < MAX_BACKOFF_EXPONENT || s.exponent > 0
    ensures var o := Step(c, s, now, Done); o.call == Some(DisconnectStation) && MovedOn(c, s, now, o.state)
  {
    StationActs(c, s, now, Done);
    hide RoundDelay;
  }

  lemma StationComesOnlineStep3(c: Config, s: State, now: int, seen: Station)
    requires Sound(c, s) && s.phase == Running && s.profiles != [] && Tracked(s.station.link) && WellFormedStation(seen) && seen.connected
    requires Undisturbed(s, now) && ActionDue(s, now) && (s.nextPoll.Some? ==> s.nextPoll.value <= now)
    ensures var o := Step(c, s, now, StationReport(seen)); o.call == Some(StationStatus) && o.state.station == seen && o.state.mode == Online
  {
    TrackedStationIsPolled(c, s, now, seen);
  }

  /** One after the other; the states and calls of three ticks. */
  lemma ThreeTicks(c: Config, w: World, i: Input, j: Input, k: Input)
    requires Sound(c, w.state)
    ensures Play(c, w, [i, j, k]) == Advance(c, Advance(c, Advance(c, w, i), j), k)
  {
    hide Sound, Advance, Play;
    TickThenRest(c, w, [i, j, k], i, [j, k]);
    TwoTicks(c, Advance(c, w, i), j, k);
  }

  lemma TwoTicks(c: Config, w: World, i: Input, j: Input)
    requires Sound(c, w.state)
    ensures Play(c, w, [i, j]) == Advance(c, Advance(c, w, i), j)
  {
    hide Sound, Advance, Play;
    TickThenRest(c, w, [i, j], i, [j]);
    TickThenRest(c, Advance(c, w, i), [j], j, []);
  }

  lemma TickThenRest(c: Config, w: World, inputs: seq<Input>, i: Input, rest: seq<Input>)
    requires Sound(c, w.state) && inputs == [i] + rest
    ensures Play(c, w, inputs) == (if rest == [] then Advance(c, w, i) else Play(c, Advance(c, w, i), rest))
  {
    assert inputs[1..] == rest;
  }

  /** A prepared station whose port agrees is online after three calls, on the profile whose turn it was. */
  lemma StationComesOnline(c: Config, w: World, t1: int, t2: int, t3: int, seen: Station)
    requires Sound(c, w.state) && w.state.phase == StationPrepare && !Tracked(w.state.station.link)
    requires Undisturbed(w.state, t3) && (w.state.lastStep.Some? ==> w.state.lastStep.value <= t1) && ActionDue(w.state, t1)
    requires t1 <= t2 && t2 + c.pollInterval <= t3 && WellFormedStation(seen) && seen.connected
    ensures
      var end := Play(c, w, [Tick(t1, Done), Tick(t2, Done), Tick(t3, StationReport(seen))]);
      && end.trace == w.trace + [Exchange(PrepareStation, Done), Exchange(ConnectStation(w.state.profiles[w.state.index]), Done),
                                 Exchange(StationStatus, StationReport(seen))]
      && end.state.mode == Online && end.state.station == seen
  {
    var s := w.state;
    ThreeTicks(c, w, Tick(t1, Done), Tick(t2, Done), Tick(t3, StationReport(seen)));
    assert s.profiles != [];
    hide Play, Step, WellFormedStation;
    PreparedStationJoins(c, s, t1);
    var w1 := Advance(c, w, Tick(t1, Done));
    ReadyStationConnects(c, w1.state, t2);
    var w2 := Advance(c, w1, Tick(t2, Done));
    hide Sound;
    StationComesOnlineStep3(c, w2.state, t3, seen);
  }

  /** A profile that stays silent for the connection timeout gives way to the next one. */
  lemma SilentProfileGivesWay(c: Config, w: World, now: int, seen: Station, later: int)
    requires Sound(c, w.state) && w.state.phase == Running && w.state.profiles != [] && Tracked(w.state.station.link)
    requires Undisturbed(w.state, later) && (w.state.lastStep.Some? ==> w.state.lastStep.value <= now) && now <= later
    requires ActionDue(w.state, now) && (w.state.nextPoll.Some? ==> w.state.nextPoll.value <= now)
    requires w.state.connectingSince.Some? && now - w.state.connectingSince.value >= c.connectionTimeout
    requires WellFormedStation(seen) && seen.link == Connecting
    ensures
      var end := Play(c, w, [Tick(now, StationReport(seen)), Tick(later, Done)]);
      && end.trace == w.trace + [Exchange(StationStatus, StationReport(seen)), Exchange(DisconnectStation, Done)]
      && MovedOn(c, w.state, later, end.state)
  {
    var s := w.state;
    TwoTicks(c, w, Tick(now, StationReport(seen)), Tick(later, Done));
    assert !seen.connected;
    TrackedStationIsPolled(c, s, now, seen);
    PollKeepsTurn(c, s, now, seen);
    hide Play, Step, WellFormedStation, Judged, MovedOn;
    var w1 := Advance(c, w, Tick(now, StationReport(seen)));
    LeavingMovesOn(c, w1.state, later);
    MovesAlike(c, w1.state, s, later, Advance(c, w1, Tick(later, Done)).state);
    hide Sound;
  }

  lemma MovesAlike(c: Config, s: State, r: State, now: int, t: State)
    requires s.index == r.index && s.profiles == r.profiles && s.exponent == r.exponent && (s.exponent < MAX_BACKOFF_EXPONENT || s.exponent > 0)
    ensures MovedOn(c, s, now, t) ==> MovedOn(c, r, now, t)
  {
    hide RoundDelay;
  }

  lemma PollKeepsTurn(c: Config, s: State, now: int, seen: Station)
    requires Sound(c, s) && s.phase == Running && s.profiles != [] && Tracked(s.station.link) && WellFormedStation(seen)
    requires Undisturbed(s, now) && ActionDue(s, now) && (s.nextPoll.Some? ==> s.nextPoll.value <= now)
    requires seen.link == Connecting && s.connectingSince.Some? && now - s.connectingSince.value >= c.connectionTimeout && !seen.connected
    ensures var o := Step(c, s, now, StationReport(seen));
            && o.call == Some(StationStatus) && o.state.phase == Disconnect && o.state.nextAction == Some(now)
            && o.state.lastStep == Some(now) && o.state.running && !o.state.faulted && !o.state.closed
            && o.state.nextApCheck == s.nextApCheck && o.state.index == s.index && o.state.profiles == s.profiles && o.state.exponent == s.exponent
  {
    StationActs(c, s, now, StationReport(seen));
    hide WellFormedStation;
  }

  /** An access point that a check finds down is started again at the next step, and the station then goes on as it was. */
  lemma LostApIsRepaired(c: Config, w: World, now: int, down: ApTruth, later: int, up: ApTruth)
    requires Sound(c, w.state) && Working(w.state) && CheckDue(w.state, now) && !(w.state.deferred && ActionDue(w.state, now))
    requires (w.state.lastStep.Some? ==> w.state.lastStep.value <= now) && now <= later
    requires WellFormedAp(down) && !down.active && WellFormedAp(up) && up.active
    ensures
      var end := Play(c, w, [Tick(now, ApReport(down)), Tick(later, ApReport(up))]);
      && end.trace == w.trace + [Exchange(AccessPointStatus, ApReport(down)), Exchange(EnsureAccessPoint(c.apSsid, c.apPassword), ApReport(up))]
      && end.state.ap == up && Resumed(end.state, w.state) && end.state.nextApCheck == Some(later + c.apCheckInterval)
  {
    var s := w.state;
    var i, j := Tick(now, ApReport(down)), Tick(later, ApReport(up));
    TwoTicks(c, w, i, j);
    FoundDown(c, s, now, down);
    var w1 := Advance(c, w, i);
    FoundUp(c, w1.state, later, up);
    OutageBegins(c, s, now, ApReport(down));
    OutageStep(c, w1.state, s, later, ApReport(up));
    hide Sound, Step, Play, Resumed, Interrupted, WellFormedAp;
  }

  lemma FoundDown(c: Config, s: State, now: int, down: ApTruth)
    requires Sound(c, s) && Working(s) && CheckDue(s, now) && !(s.deferred && ActionDue(s, now))
    requires (s.lastStep.Some? ==> s.lastStep.value <= now) && WellFormedAp(down) && !down.active
    ensures var o := Step(c, s, now, ApReport(down));
            && o.call == Some(AccessPointStatus) && o.state.phase == AccessPoint && o.state.nextAction == Some(now)
            && o.state.lastStep == Some(now) && Working(o.state)
  {
    hide WellFormedAp;
  }

  lemma FoundUp(c: Config, s: State, now: int, up: ApTruth)
    requires Sound(c, s) && Working(s) && s.phase == AccessPoint && ActionDue(s, now)
    requires (s.lastStep.Some? ==> s.lastStep.value <= now) && WellFormedAp(up) && up.active
    ensures var o := Step(c, s, now, ApReport(up));
            && o.call == Some(EnsureAccessPoint(c.apSsid, c.apPassword)) && o.state.phase != AccessPoint && !o.state.faulted
            && o.state.ap == up && o.state.nextApCheck == Some(now + c.apCheckInterval)
  {
    hide WellFormedAp;
  }

  /** Started, the manager sets its name and its access point up, and then turns to the station if it knows a network. */
  lemma StartedManagerComesUp(c: Config, s: State, now: int, named: int, raised: int, up: ApTruth)
    requires Sound(c, s) && !s.running && !s.faulted && !s.closed && now <= named <= raised
    requires WellFormedAp(up) && up.active && !s.station.connected
    ensures
      var started := Start(s, now).state;
      && Sound(c, started)
      && var first := Step(c, started, named, Done);
         first.call == Some(ConfigureHostname(c.hostname)) && Sound(c, first.state)
         && var second := Step(c, first.state, raised, ApReport(up));
            && second.call == Some(EnsureAccessPoint(c.apSsid, c.apPassword)) && second.state.ap == up
            && second.state.nextApCheck == Some(raised + c.apCheckInterval) && second.state.nextAction == Some(raised)
            && second.state.phase == (if s.profiles != [] then StationPrepare else Running)
  {
    var started := Start(s, now).state;
    ApplyKeepsSound(c, s, Begin(now));
    StepKeepsSound(c, started, named, Done);
    hide Sound, WellFormedAp;
  }
}
