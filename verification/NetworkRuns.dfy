/** What the manager believes and whose turn it is, over every run and against the record of its port calls. */
module NetworkRuns {
  import opened Options
  import opened NetworkModel
  import opened NetworkProperties

  // ---------------------------------------------------------------- links are claimed only as last seen

  /** What one answered call shows about the access point, given what was known before it. */
  function ApShown(before: ApTruth, e: Exchange): ApTruth {
    if IsApCall(Some(e.call)) then
      if e.reply.ApReport? && WellFormedAp(e.reply.ap) then e.reply.ap else NO_AP
    else if e.call == DeinitPort then NO_AP
    else before
  }

  /** The part of the station's truth that says whether and how it can be reached. */
  function Reachability(t: Station): Station {
    t.(link := Idle, profileId := None, ssid := None)
  }

  function StationShown(before: Station, e: Exchange): Station {
    if e.call == StationStatus then
      if e.reply.StationReport? && WellFormedStation(e.reply.station) then Reachability(e.reply.station) else NO_STATION
    else if IsStationCall(e.call) || e.call == DeinitPort then NO_STATION
    else before
  }

  function ApSeen(trace: seq<Exchange>): ApTruth {
    if trace == [] then NO_AP else ApShown(ApSeen(trace[..|trace| - 1]), trace[|trace| - 1])
  }

  function StationSeen(trace: seq<Exchange>): Station {
    if trace == [] then NO_STATION else StationShown(StationSeen(trace[..|trace| - 1]), trace[|trace| - 1])
  }

  predicate Honest(w: World) {
    w.state.ap == ApSeen(w.trace) && Reachability(w.state.station) == StationSeen(w.trace)
  }

  predicate ShowsStep(s: State, o: Outcome, reply: Reply) {
    match o.call
    case None => o.state.ap == s.ap && Reachability(o.state.station) == Reachability(s.station)
    case Some(call) =>
      && o.state.ap == ApShown(s.ap, Exchange(call, reply))
      && Reachability(o.state.station) == StationShown(Reachability(s.station), Exchange(call, reply))
  }

  lemma RepairShows(c: Config, s: State, now: int, reply: Reply)
    requires Sound(c, s)
    ensures ShowsStep(s, StepAp(c, s, now, reply), reply)
  {
    hide Sound;
  }

  lemma CheckShows(c: Config, s: State, now: int, reply: Reply)
    requires Sound(c, s)
    ensures ShowsStep(s, StepCheck(c, s, now, reply), reply)
  {
    hide Sound, WellFormedAp;
  }

  lemma LeavingShows(c: Config, s: State, now: int, reply: Reply)
    requires Sound(c, s) && (s.phase == StationPrepare || s.phase == Disconnect)
    ensures ShowsStep(s, StepPrepare(c, s, now, reply), reply) && ShowsStep(s, StepDisconnect(c, s, now, reply), reply)
  {
    hide RoundDelay;
  }

  lemma ConnectShows(c: Config, s: State, now: int, reply: Reply)
    requires Sound(c, s) && s.index < |s.profiles| && !Tracked(s.station.link)
    ensures ShowsStep(s, StepConnect(c, s, now, reply), reply)
  {
  }

  lemma PollShows(c: Config, s: State, now: int, reply: Reply)
    ensures ShowsStep(s, StepPoll(c, s, now, reply), reply)
  {
  }

  lemma StationStepShows(c: Config, s: State, now: int, reply: Reply)
    requires Sound(c, s) && StationPhase(s.phase)
    ensures ShowsStep(s, StepStation(c, s, now, reply), reply)
  {
    StationStepIsOneOf(c, s, now, reply);
    if s.phase != Running { LeavingShows(c, s, now, reply); }
    if s.index < |s.profiles| && !Tracked(s.station.link) { ConnectShows(c, s, now, reply); }
    PollShows(c, s, now, reply);
    hide StepStation, StepPrepare, StepDisconnect, StepConnect, StepPoll, Sound;
  }

  lemma StepShows(c: Config, s: State, now: int, reply: Reply)
    requires Sound(c, s)
    ensures ShowsStep(s, Step(c, s, now, reply), reply)
  {
    hide Step, StepAp, StepCheck, StepStation, Sound;
    if Working(s) && !Backwards(s, now) {
      var t := s.(lastStep := Some(now));
      StampKeepsSound(c, s, now);
      RepairShows(c, t, now, reply);
      CheckShows(c, t, now, reply);
      if StationPhase(s.phase) {
        StationStepShows(c, t, now, reply);
        StationStepShows(c, t.(deferred := false), now, reply);
      }
    }
    StepIsOneOf(c, s, now, reply);
  }

  lemma AdvanceIsHonest(c: Config, w: World, i: Input)
    requires Sound(c, w.state) && Honest(w)
    ensures Honest(Advance(c, w, i))
  {
    var o := Apply(c, w.state, i);
    if o.call.Some? {
      var e := Exchange(o.call.value, ReplyOf(i));
      assert (w.trace + [e])[..|w.trace|] == w.trace;
    }
    if i.Tick? {
      StepShows(c, w.state, i.now, i.reply);
    }
    hide Step;
  }

  /** In every run, from construction to closing, an access point or a station is said to be reachable exactly as the
      last call about it reported, and never after a call that failed, was malformed or moved the station on. */
  lemma {:induction false} LinksAreAsLastSeen(c: Config, w: World, inputs: seq<Input>)
    requires Sound(c, w.state) && Honest(w)
    ensures Honest(Play(c, w, inputs))
    decreases |inputs|
  {
    if inputs != [] {
      AdvanceIsHonest(c, w, inputs[0]);
      LinksAreAsLastSeen(c, Advance(c, w, inputs[0]), inputs[1..]);
    }
  }

  // ---------------------------------------------------------------- profiles take turns

  /** The profiles that were asked to be joined, in order. */
  function Joined(trace: seq<Exchange>): seq<Profile> {
    if trace == [] then []
    else
      var before := Joined(trace[..|trace| - 1]);
      var last := trace[|trace| - 1].call;
      if last.ConnectStation? then before + [last.profile] else before
  }

  predicate Leaves(e: Exchange) {
    e.call == DisconnectStation && e.reply == Done
  }

  /** How often the station was disconnected for good. */
  function Left(trace: seq<Exchange>): nat {
    if trace == [] then 0 else Left(trace[..|trace| - 1]) + (if Leaves(trace[|trace| - 1]) then 1 else 0)
  }

  /** A profile has been tried since the last disconnect. */
  predicate Busy(s: State) {
    Tracked(s.station.link) || s.phase == Disconnect || (s.resume.Some? && s.resume.value.phase == Disconnect)
  }

  function Turn(index: nat, profiles: seq<Profile>): nat {
    if index + 1 >= |profiles| then 0 else index + 1
  }

  predicate TakesTurn(s: State, o: Outcome, reply: Reply) {
    && o.state.profiles == s.profiles
    && (if o.call.Some? && Leaves(Exchange(o.call.value, reply)) then
          s.profiles != [] && o.state.index == Turn(s.index, s.profiles)
        else o.state.index == s.index)
    && (o.call.Some? && o.call.value.ConnectStation? ==> s.index < |s.profiles| && o.call.value.profile == s.profiles[s.index])
  }

  /** Unless it faults, a step that joins a profile finds none tried, and one that leaves finds one. */
  predicate Alternates(s: State, o: Outcome, reply: Reply) {
    && (o.call.Some? && o.call.value.ConnectStation? ==> !Busy(s))
    && (o.call.Some? && o.call.value == DisconnectStation ==> Busy(s))
    && (o.state.faulted
        || Busy(o.state) == (if o.call.Some? && o.call.value.ConnectStation? then true
                             else if o.call.Some? && Leaves(Exchange(o.call.value, reply)) then false
                             else Busy(s)))
  }

  /** Both at once. */
  predicate Turns(s: State, o: Outcome, reply: Reply) {
    TakesTurn(s, o, reply) && Alternates(s, o, reply)
  }

  lemma ApStepsTakeTurns(c: Config, s: State, now: int, reply: Reply)
    requires Sound(c, s) && Working(s)
    ensures s.phase == AccessPoint ==> Turns(s, StepAp(c, s, now, reply), reply)
    ensures StationPhase(s.phase) ==> Turns(s, StepCheck(c, s, now, reply), reply)
  {
  }

  lemma LeavingTakesTurns(c: Config, s: State, now: int, reply: Reply)
    requires Sound(c, s)
    ensures s.phase == StationPrepare ==> Turns(s, StepPrepare(c, s, now, reply), reply)
    ensures s.phase == Disconnect ==> Turns(s, StepDisconnect(c, s, now, reply), reply)
  {
    hide RoundDelay;
  }

  lemma ConnectTakesTurns(c: Config, s: State, now: int, reply: Reply)
    requires Sound(c, s) && s.phase == Running && s.index < |s.profiles| && !Tracked(s.station.link)
    ensures Turns(s, StepConnect(c, s, now, reply), reply)
  {
  }

  lemma PollTakesTurns(c: Config, s: State, now: int, reply: Reply)
    requires Sound(c, s) && s.phase == Running && Tracked(s.station.link)
    ensures Turns(s, StepPoll(c, s, now, reply), reply)
  {
  }

  lemma StationStepTakesTurns(c: Config, s: State, now: int, reply: Reply)
    requires Sound(c, s) && StationPhase(s.phase)
    ensures Turns(s, StepStation(c, s, now, reply), reply)
  {
    StationStepIsOneOf(c, s, now, reply);
    LeavingTakesTurns(c, s, now, reply);
    if s.phase == Running && s.index < |s.profiles| && !Tracked(s.station.link) { ConnectTakesTurns(c, s, now, reply); }
    if s.phase == Running && Tracked(s.station.link) { PollTakesTurns(c, s, now, reply); }
    hide StepStation, StepPrepare, StepDisconnect, StepConnect, StepPoll, Sound;
  }

  lemma TurnsIgnoreStamp(s: State, t: State, o: Outcome, reply: Reply)
    requires Turns(t, o, reply) && t == s.(lastStep := t.lastStep, deferred := t.deferred)
    ensures Turns(s, o, reply)
  {
    assert Busy(t) == Busy(s);
    hide Busy, Turn;
  }

  lemma StepTakesTurns(c: Config, s: State, now: int, reply: Reply)
    requires Sound(c, s)
    ensures Turns(s, Step(c, s, now, reply), reply)
  {
    StepIsOneOf(c, s, now, reply);
    var o := Step(c, s, now, reply);
    if Working(s) && !Backwards(s, now) {
      var t := s.(lastStep := Some(now));
      StampKeepsSound(c, s, now);
      ApStepsTakeTurns(c, t, now, reply);
      if StationPhase(s.phase) {
        StationStepTakesTurns(c, t, now, reply);
        StationStepTakesTurns(c, t.(deferred := false), now, reply);
      }
      if Turns(t, o, reply) { TurnsIgnoreStamp(s, t, o, reply); }
      if Turns(t.(deferred := false), o, reply) { TurnsIgnoreStamp(s, t.(deferred := false), o, reply); }
    }
    QuietTakesNoTurn(s, now);
    hide Step, StepAp, StepCheck, StepStation, StepHostname, Sound, Turns;
    HostnameTakesNoTurn(c, s, now, reply);
  }

  lemma QuietTakesNoTurn(s: State, now: int)
    ensures forall reply :: Turns(s, Outcome(s, None, Quiet), reply) && Turns(s, Outcome(Fault(s), None, Raised), reply)
    ensures forall reply :: Turns(s, Outcome(s.(lastStep := Some(now)), None, Quiet), reply)
  {
  }

  lemma HostnameTakesNoTurn(c: Config, s: State, now: int, reply: Reply)
    ensures s.phase == Hostname ==> Turns(s, StepHostname(c, s.(lastStep := Some(now)), now, reply), reply)
  {
  }

  predicate Rotates(w: World) {
    && (w.state.phase == Stopped ==> w.trace == [])
    && (w.state.profiles != [] ==> w.state.index == Left(w.trace) % |w.state.profiles|)
  }

  lemma TurnIsModulo(count: nat, profiles: seq<Profile>)
    requires profiles != []
    ensures Turn(count % |profiles|, profiles) == (count + 1) % |profiles|
  {
    var n := |profiles|;
    var q, r := count / n, count % n;
    assert count + 1 == q * n + r + 1;
    if r + 1 == n {
      assert count + 1 == (q + 1) * n + 0;
      QuotientAndRest(count + 1, q + 1, 0, n);
    } else {
      QuotientAndRest(count + 1, q, r + 1, n);
    }
  }

  lemma QuotientAndRest(x: int, q: int, r: int, n: int)
    requires x == q * n + r && 0 <= r < n
    ensures x % n == r
  {
    var d := x / n - q;
    assert x == x / n * n + x % n && d * n == x / n * n - q * n;
    assert d * n == r - x % n;
    assert d >= 1 ==> d * n >= n;
    assert d <= -1 ==> d * n <= -n;
  }

  lemma TraceAfter(c: Config, w: World, i: Input)
    requires Sound(c, w.state)
    ensures
      var (o, t) := (Apply(c, w.state, i), Advance(c, w, i).trace);
      match o.call
      case None => t == w.trace
      case Some(call) =>
        && t == w.trace + [Exchange(call, ReplyOf(i))]
        && Left(t) == Left(w.trace) + (if Leaves(Exchange(call, ReplyOf(i))) then 1 else 0)
        && Joined(t) == Joined(w.trace) + (if call.ConnectStation? then [call.profile] else [])
  {
    hide Apply;
    var o := Apply(c, w.state, i);
    if o.call.Some? {
      var e := Exchange(o.call.value, ReplyOf(i));
      assert (w.trace + [e])[..|w.trace|] == w.trace;
    }
  }

  /** Whatever else happens, faults and resets included, the profile that is next is given by how often the station has
      been disconnected. */
  lemma AdvanceRotates(c: Config, w: World, i: Input)
    requires Sound(c, w.state) && Rotates(w)
    ensures Rotates(Advance(c, w, i))
  {
    TraceAfter(c, w, i);
    hide Left, Joined;
    if i.Tick? {
      StepTakesTurns(c, w.state, i.now, i.reply);
      StoppedStaysQuiet(c, w.state, i.now, i.reply);
      if w.state.profiles != [] {
        TurnIsModulo(Left(w.trace), w.state.profiles);
      }
      hide Step;
    }
  }

  lemma StoppedStaysQuiet(c: Config, s: State, now: int, reply: Reply)
    requires Sound(c, s)
    ensures Step(c, s, now, reply).state.phase == Stopped ==> s.phase == Stopped && Step(c, s, now, reply).call == None
  {
    hide Step;
    StepKeepsSound(c, s, now, reply);
    StepIsOneOf(c, s, now, reply);
    RunningStays(c, s, now, reply);
  }

  lemma RunningStays(c: Config, s: State, now: int, reply: Reply)
    requires Sound(c, s)
    ensures Step(c, s, now, reply).state.running == s.running
  {
    hide Step, StepStation, Sound;
    StepIsOneOf(c, s, now, reply);
    var t := s.(lastStep := Some(now));
    if StationPhase(s.phase) && Working(s) && !Backwards(s, now) {
      StampKeepsSound(c, s, now);
      StationStepLeavesChecks(c, t, now, reply);
      StationStepLeavesChecks(c, t.(deferred := false), now, reply);
    }
  }

  lemma {:induction false} TurnsFollowDisconnects(c: Config, w: World, inputs: seq<Input>)
    requires Sound(c, w.state) && Rotates(w)
    ensures Rotates(Play(c, w, inputs))
    decreases |inputs|
  {
    if inputs != [] {
      AdvanceRotates(c, w, inputs[0]);
      TurnsFollowDisconnects(c, Advance(c, w, inputs[0]), inputs[1..]);
    }
  }

  /** The profiles joined so far are the configured ones in cyclic order, one per disconnect. */
  ghost predicate Cyclic(w: World) {
    var joined := Joined(w.trace);
    && Rotates(w)
    && Left(w.trace) <= |joined| <= Left(w.trace) + 1
    && (!w.state.faulted && !w.state.closed ==> |joined| == Left(w.trace) + (if Busy(w.state) then 1 else 0))
    && (joined != [] ==> w.state.profiles != [])
    && (forall k :: 0 <= k < |joined| ==> joined[k] == w.state.profiles[k % |w.state.profiles|])
  }

  lemma AdvanceIsCyclic(c: Config, w: World, i: Input)
    requires Sound(c, w.state) && Cyclic(w) && !i.Reset?
    ensures Cyclic(Advance(c, w, i))
  {
    TraceAfter(c, w, i);
    AdvanceRotates(c, w, i);
    hide Left, Joined;
    if i.Tick? {
      StepTakesTurns(c, w.state, i.now, i.reply);
      CallsNeedWork(c, w.state, i.now, i.reply);
      hide Step;
    }
  }

  lemma CallsNeedWork(c: Config, s: State, now: int, reply: Reply)
    requires Sound(c, s)
    ensures Working(s) || Step(c, s, now, reply) == Outcome(s, None, Quiet)
  {
  }

  predicate NoReset(inputs: seq<Input>) {
    forall i :: i in inputs ==> !i.Reset?
  }

  lemma {:induction false} CyclicRun(c: Config, w: World, inputs: seq<Input>)
    requires Sound(c, w.state) && Cyclic(w) && NoReset(inputs)
    ensures Cyclic(Play(c, w, inputs))
    decreases |inputs|
  {
    if inputs != [] {
      AdvanceIsCyclic(c, w, inputs[0]);
      CyclicRun(c, Advance(c, w, inputs[0]), inputs[1..]);
    }
  }

  /** From construction on, as long as no fault is reset, the k-th attempt to join is made with the k-th profile, counted
      round and round: none is skipped and none is tried twice in a row. */
  lemma KthAttemptIsKthProfile(c: Config, profiles: seq<Profile>, inputs: seq<Input>, k: nat)
    requires Sound(c, Initial(profiles)) && NoReset(inputs)
    requires k < |Joined(Play(c, World(Initial(profiles), []), inputs).trace)|
    ensures
      var end := Play(c, World(Initial(profiles), []), inputs);
      end.state.profiles != [] && Joined(end.trace)[k] == end.state.profiles[k % |end.state.profiles|]
  {
    hide Cyclic, Sound, Joined;
    InitialIsCyclic(profiles);
    CyclicRun(c, World(Initial(profiles), []), inputs);
    CyclicAttempts(Play(c, World(Initial(profiles), []), inputs));
  }

  lemma InitialIsCyclic(profiles: seq<Profile>)
    ensures Cyclic(World(Initial(profiles), []))
  {
  }

  lemma CyclicAttempts(w: World)
    requires Cyclic(w)
    ensures forall k :: 0 <= k < |Joined(w.trace)| ==>
      w.state.profiles != [] && Joined(w.trace)[k] == w.state.profiles[k % |w.state.profiles|]
  {
    hide Joined, Left;
  }

  // ---------------------------------------------------------------- backoff

  /** The station is not to be touched before `deadline`. */
  predicate Waiting(s: State, deadline: int) {
    || (s.phase == StationPrepare && s.nextAction == Some(deadline))
    || (s.phase == AccessPoint && s.resume.Some? && s.resume.value.phase == StationPrepare && s.resume.value.deadline == Some(deadline) && !s.station.connected)
  }

  lemma {:induction false} RoundDelayIsCapped(c: Config, exponent: nat)
    requires ValidConfig(c) && exponent > 0
    ensures c.roundBackoff <= RoundDelay(c, exponent) <= MAX_ROUND_BACKOFF_MS
    ensures exponent > 1 ==> RoundDelay(c, exponent - 1) <= RoundDelay(c, exponent)
  {
    DoubledGrows(c.roundBackoff, exponent - 1);
    if exponent > 1 {
      RoundDelayIsCapped(c, exponent - 1);
    }
  }

  lemma DoubledGrows(base: int, times: nat)
    requires base > 0
    ensures Doubled(base, times) >= base
  {
  }

  predicate StartsTheWait(c: Config, exponent: nat, o: Outcome, now: int) {
    o.report == StationDisconnected ==>
      && (o.state.index == 0 ==>
            o.state.exponent > 0 && o.state.exponent == (if exponent < MAX_BACKOFF_EXPONENT then exponent + 1 else exponent))
      && Waiting(o.state, now + (if o.state.index == 0 then RoundDelay(c, o.state.exponent) else c.profileGap))
  }

  /** Leaving a profile starts the wait: the gap between profiles, or after a whole round a delay that doubles from round
      to round up to its cap. */
  lemma LeavingStartsTheWait(c: Config, s: State, now: int, reply: Reply)
    requires Sound(c, s)
    ensures StartsTheWait(c, s.exponent, Step(c, s, now, reply), now)
  {
    var o := Step(c, s, now, reply);
    hide Step, StepStation, StepAp, StepCheck, StepHostname, Sound, StartsTheWait;
    var t := s.(lastStep := Some(now));
    if Working(s) && !Backwards(s, now) {
      StampKeepsSound(c, s, now);
      if StationPhase(s.phase) {
        LeavingIsDisconnect(c, t, now, reply);
        LeavingIsDisconnect(c, t.(deferred := false), now, reply);
      }
    }
    OtherReports(c, t, now, reply);
    StepIsOneOf(c, s, now, reply);
    if o.report != StationDisconnected {
      OtherwiseNoWait(c, s.exponent, o, now);
    }
  }

  lemma OtherwiseNoWait(c: Config, exponent: nat, o: Outcome, now: int)
    requires o.report != StationDisconnected
    ensures StartsTheWait(c, exponent, o, now)
  {
  }

  lemma OtherReports(c: Config, s: State, now: int, reply: Reply)
    ensures StepAp(c, s, now, reply).report != StationDisconnected && StepCheck(c, s, now, reply).report != StationDisconnected
    ensures StepHostname(c, s, now, reply).report != StationDisconnected
  {
    hide WellFormedAp;
  }

  lemma LeavingIsDisconnect(c: Config, s: State, now: int, reply: Reply)
    requires Sound(c, s) && StationPhase(s.phase)
    ensures StartsTheWait(c, s.exponent, StepStation(c, s, now, reply), now)
  {
    hide RoundDelay;
    StationStepIsOneOf(c, s, now, reply);
  }

  lemma WaitingStep(c: Config, s: State, deadline: int, now: int, reply: Reply)
    requires Sound(c, s) && Waiting(s, deadline) && now < deadline
    ensures var o := Step(c, s, now, reply); (o.call.Some? ==> !IsStationCall(o.call.value)) && Waiting(o.state, deadline)
  {
    hide StepStation;
  }

  function StationCalls(trace: seq<Exchange>): nat {
    if trace == [] then 0 else StationCalls(trace[..|trace| - 1]) + (if IsStationCall(trace[|trace| - 1].call) then 1 else 0)
  }

  /** No step before the deadline touches the station, also if the access point fails and is repaired meanwhile. */
  lemma {:induction false} WaitIsKept(c: Config, w: World, deadline: int, inputs: seq<Input>)
    requires Sound(c, w.state) && Waiting(w.state, deadline)
    requires AllTicks(inputs) && forall i :: i in inputs ==> i.Tick? && i.now < deadline
    ensures StationCalls(Play(c, w, inputs).trace) == StationCalls(w.trace)
    decreases |inputs|
  {
    if inputs != [] {
      var i := inputs[0];
      assert i.Tick?;
      WaitingStep(c, w.state, deadline, i.now, i.reply);
      TraceAfter(c, w, i);
      var v := Advance(c, w, i);
      if v.trace != w.trace {
        assert v.trace[..|v.trace| - 1] == w.trace;
      }
      WaitIsKept(c, v, deadline, inputs[1..]);
    }
  }
}
