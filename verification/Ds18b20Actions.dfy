/** What the sampling machine does: which bus operation each step makes, what an answer makes of a sensor, and that a whole
    cycle reads every sensor. */
module Ds18b20Actions {
  import opened Options
  import opened Bytes
  import opened DallasRom
  import opened Ds18b20Model
  import opened Ds18b20Trust

  // ---------------------------------------------------------------- which operation a step makes

  predicate Passed(now: int, deadline: Option<int>) {
    deadline.None? || deadline.value <= now
  }

  predicate Awake(s: State, now: int) {
    (s.mode == Idle || s.mode == ConversionReady || Busy(s)) && (s.lastPoll.Some? ==> s.lastPoll.value < now)
  }

  /** The one bus operation of a step: a conversion that is done is read, sensors just found are converted, and apart from that a
      requested or due scan goes before a due conversion. */
  function NextOperation(s: State, now: int): Option<Operation>
    requires Ready(s)
  {
    if !Awake(s, now) then None
    else if Busy(s) then (if s.mode == Reading || s.conversionDue.value <= now then Some(Read(s.cycle[s.readIndex].id)) else None)
    else if s.discoveryRequested then Some(Scan)
    else if s.mode == ConversionReady then Some(Convert)
    else if Passed(now, s.nextDiscovery) then Some(Scan)
    else if s.roms != [] && Passed(now, s.nextCycle) then Some(Convert)
    else None
  }

  /** Nothing but these operations was asked of the bus since. */
  predicate Asks(s: State, v: State, op: Option<Operation>, now: int) {
    if op.Some? then s.trace + [Bus(op.value, now)] <= v.trace && BusCalls(v.trace) == BusCalls(s.trace) + 1
    else v.trace == s.trace
  }

  /** Only what is told or found out was noted since, without asking the bus. */
  predicate Notes(s: State, v: State) {
    s.trace <= v.trace && BusCalls(v.trace) == BusCalls(s.trace)
  }

  lemma LogNotes(s: State, v: State, e: Event)
    requires Notes(s, v) && !e.Bus?
    ensures Notes(s, Log(v, e)) && Notes(s, Pop(Log(v, e)))
  {
    hide Pending, LastConversion;
    assert (v.trace + [e])[..|v.trace|] == v.trace;
  }

  lemma FailingNotes(s: State, v: State)
    requires Notes(s, v)
    ensures Notes(s, Failed(v).s) && Notes(s, Failed(Pop(v)).s)
  {
    hide BusCalls;
    LogNotes(s, v.(mode := Faulted, trusted := {}, devices := Distrusted(v.devices)), FaultLatched);
    LogNotes(s, Pop(v).(mode := Faulted, trusted := {}, devices := Distrusted(v.devices)), FaultLatched);
    hide Distrusted, Notes;
  }

  lemma RecordOneFailureNotes(s: State, v: State, id: string, sample: int, reason: Reason)
    requires Notes(s, v)
    ensures Notes(s, RecordOneFailure(v, id, sample, reason).s)
  {
    hide BusCalls, Failed;
    LogNotes(s, v, RecordFailure(id, sample, reason));
    FailingNotes(s, Pop(Log(v, RecordFailure(id, sample, reason))));
    hide Notes;
  }

  lemma {:induction false} RecordFailuresNotes(s: State, v: State, ids: seq<string>, now: int, reason: Reason)
    requires Notes(s, v)
    ensures Notes(s, RecordFailures(v, ids, now, reason).s)
    decreases |ids|
  {
    if ids != [] {
      RecordOneFailureNotes(s, v, ids[0], now, reason);
      RecordFailuresNotes(s, RecordOneFailure(v, ids[0], now, reason).s, ids[1..], now, reason);
    }
    hide Notes, RecordOneFailure;
  }

  lemma RejectionNotes(s: State, v: State, now: int, reason: Reason, count: bool, e: Event)
    requires Notes(s, v) && !e.Bus?
    ensures Notes(s, RecordGlobalFailure(AllBlamed(v, reason, count, e), now, reason).s)
  {
    hide BusCalls, RecordFailures, Failed, Blamed;
    LogNotes(s, v.(trusted := {}, devices := Blamed(v.devices, reason, count)), e);
    var blamed := AllBlamed(v, reason, count, e);
    FailingNotes(s, blamed);
    assert Notes(s, Pop(blamed));
    if Head(blamed).Assigned? { RecordFailuresNotes(s, Pop(blamed), Head(blamed).ids, now, reason); }
    hide Notes, Head, AllBlamed;
  }

  lemma AskingAsks(s: State, op: Operation, now: int, v: State)
    requires Notes(Ask(s, op, now), v)
    ensures Asks(s, v, Some(op), now)
  {
    Extended(Config(0, 0, 0, 0), s.trace, Bus(op, now));
    hide BusCalls, Earned, AllJustified, LastConversion, Pending, Justified;
  }

  lemma StartsNoting(s: State)
    ensures Notes(s, s)
  {
  }

  lemma SameTraceNotes(s: State, v: State, w: State)
    requires Notes(s, v) && w.trace == v.trace
    ensures Notes(s, w)
  {
  }

  lemma ScanRejectedNotes(c: Config, s: State, now: int)
    ensures Notes(s, ScanRejected(c, s, now).s)
  {
    hide Notes, RecordGlobalFailure, AllBlamed;
    StartsNoting(s);
    RejectionNotes(s, s, now, ScanError, false, ScanFailed);
    SameTraceNotes(s, RecordGlobalFailure(AllBlamed(s, ScanError, false, ScanFailed), now, ScanError).s, ScanRejected(c, s, now).s);
  }

  lemma ConversionRejectedNotes(c: Config, s: State, now: int)
    ensures Notes(s, ConversionRejected(c, s, now).s)
  {
    hide Notes, RecordGlobalFailure, AllBlamed;
    StartsNoting(s);
    RejectionNotes(s, s, now, ConversionError, true, ConversionFailed);
    SameTraceNotes(s, RecordGlobalFailure(AllBlamed(s, ConversionError, true, ConversionFailed), now, ConversionError).s,
                   ConversionRejected(c, s, now).s);
  }

  lemma ScanAcceptedNotes(c: Config, s: State, roms: seq<Rom>, now: int)
    ensures Notes(s, ScanAccepted(c, s, roms, now).s)
  {
    hide Notes, BusCalls, Kept, Ids, Failed;
    StartsNoting(s);
    FailingNotes(s, s);
    SameTraceNotes(s, s, Pop(s));
    LogNotes(s, Pop(s), Discovered(Ids(roms)));
    SameTraceNotes(s, Log(Pop(s), Discovered(Ids(roms))), Arrived(c, Pop(s), roms, now));
  }

  lemma DiscoverAsks(c: Config, s: State, now: int)
    ensures Asks(s, Discover(c, s, now).s, Some(Scan), now)
  {
    hide Notes, Asks, Failed, ScanAccepted, ScanRejected, Normalized;
    var asked := Ask(s, Scan, now);
    StartsNoting(asked);
    FailingNotes(asked, asked);
    ScanRejectedNotes(c, asked, now);
    var result := if Head(s).Scanned? then Normalized(Head(s).raws, c.maxSensors) else None;
    if result.Some? { ScanAcceptedNotes(c, asked, result.value, now); }
    AskingAsks(s, Scan, now, Discover(c, s, now).s);
  }

  lemma StartConversionAsks(c: Config, s: State, now: int)
    requires s.roms != []
    ensures Asks(s, StartConversion(c, s, now).s, Some(Convert), now)
  {
    hide Notes, Asks, Failed, ConversionRejected;
    var t := s.(cycle := s.roms);
    var asked := Ask(t, Convert, now);
    StartsNoting(asked);
    FailingNotes(asked, asked);
    ConversionRejectedNotes(c, asked, now);
    var v := StartConversion(c, s, now).s;
    if Head(s) == Fine { SameTraceNotes(asked, asked, v); }
    AskingAsks(t, Convert, now, v);
    SameStart(t, s, v, Some(Convert), now);
  }

  lemma SameStart(s: State, t: State, v: State, op: Option<Operation>, now: int)
    requires Asks(s, v, op, now) && s.trace == t.trace
    ensures Asks(t, v, op, now)
  {
  }

  lemma BlamingNotes(s: State, v: State, id: string, sample: int, reason: Reason)
    requires Notes(s, v)
    ensures Notes(s, Blame(RecordOneFailure(v, id, sample, reason), id, reason).s)
  {
    hide Notes, RecordOneFailure, BlameOne;
    var r := RecordOneFailure(v, id, sample, reason);
    RecordOneFailureNotes(s, v, id, sample, reason);
    SameTraceNotes(s, r.s, Blame(r, id, reason).s);
  }

  lemma JudgeNotes(s: State, id: string, value: real, sample: int)
    ensures Notes(s, Judge(s, id, value, sample).s)
  {
    hide Notes, BusCalls, Failed, Blame, RecordOneFailure;
    var seen := Log(s, ReadValue(id, value));
    var told := Pop(Log(seen, RecordValid(id, value, sample)));
    StartsNoting(s);
    LogNotes(s, s, ReadValue(id, value));
    BlamingNotes(s, seen, id, sample, PowerOn85);
    LogNotes(s, seen, RecordValid(id, value, sample));
    FailingNotes(s, told);
    if Head(seen) != Raises && (value != POWER_ON || id in s.trusted) { SameTraceNotes(s, told, Judge(s, id, value, sample).s); }
  }

  lemma ReadSensorAsks(s: State, id: string, sample: int, now: int)
    ensures Asks(s, ReadSensor(s, id, sample, now).s, Some(Read(id)), now)
  {
    hide Notes, Asks, BusCalls, Failed, Blame, RecordOneFailure, Judge;
    var asked := Ask(s, Read(id), now);
    var distrusted := DistrustOne(asked, id);
    StartsNoting(asked);
    FailingNotes(asked, asked);
    SameTraceNotes(asked, asked, distrusted);
    LogNotes(asked, distrusted, ReadFailed(id));
    LogNotes(asked, distrusted, ReadInvalid(id));
    BlamingNotes(asked, Log(distrusted, ReadFailed(id)), id, sample, ReadError);
    BlamingNotes(asked, Log(distrusted, ReadInvalid(id)), id, sample, ValueError);
    if Plausible(Head(s)) { JudgeNotes(asked, id, Head(s).value, sample); }
    AskingAsks(s, Read(id), now, ReadSensor(s, id, sample, now).s);
  }

  lemma ReadOneAsks(c: Config, s: State, now: int)
    requires s.readIndex < |s.cycle| && s.conversionDue.Some?
    ensures Asks(s, ReadOne(c, s, now).s, Some(Read(s.cycle[s.readIndex].id)), now)
  {
    hide ReadSensor, BusCalls;
    ReadSensorAsks(s, s.cycle[s.readIndex].id, s.conversionDue.value, now);
  }

  /** Whatever bus and manager answer, the step makes exactly that operation. */
  lemma StepMakesNextOperation(c: Config, s: State, now: int)
    requires Ready(s)
    ensures Asks(s, Step(c, s, now).s, NextOperation(s, now), now)
  {
    hide Asks, ReadOne, IdleStep, StartConversion;
    NothingIsAsked(s, s, now);
    if Awake(s, now) {
      var t := s.(lastPoll := Some(now));
      var v := Step(c, s, now).s;
      if s.mode == WaitConversion {
        NothingIsAsked(s, t, now);
        ReadOneAsks(c, t.(mode := Reading), now);
        if Due(now, s.conversionDue) { SameStart(t.(mode := Reading), s, v, NextOperation(s, now), now); }
      } else if s.mode == Reading {
        ReadOneAsks(c, t, now);
        SameStart(t, s, v, NextOperation(s, now), now);
      } else if s.mode == ConversionReady && !s.discoveryRequested {
        StartConversionAsks(c, t, now);
        SameStart(t, s, v, NextOperation(s, now), now);
      } else {
        var u := s.(lastPoll := Some(now), mode := Idle);
        IdleStepIsAsked(c, s, u, now);
      }
    }
  }

  lemma NothingIsAsked(s: State, v: State, now: int)
    requires v.trace == s.trace
    ensures Asks(s, v, None, now)
  {
  }

  /** The time of the step does not matter for what an idle machine asks. */
  lemma IdleStepIsAsked(c: Config, s: State, u: State, now: int)
    requires Ready(s) && Awake(s, now) && !Busy(s) && (s.mode == ConversionReady ==> s.discoveryRequested)
    requires u == s.(lastPoll := Some(now), mode := Idle)
    ensures Asks(s, IdleStep(c, u, now).s, NextOperation(s, now), now)
  {
    hide Discover, StartConversion, BusCalls;
    DiscoverAsks(c, u, now);
    if u.roms != [] { StartConversionAsks(c, u, now); }
  }

  // ---------------------------------------------------------------- what an answer makes of a sensor

  /** Why a reading is not believed, if it is not. */
  function Verdict(answer: Result, trusted: bool): Option<Reason> {
    match answer
    case BusFails => Some(ReadError)
    case Celsius(value) =>
      if value < MINIMUM || MAXIMUM < value then Some(ValueError) else if value == POWER_ON && !trusted then Some(PowerOn85) else None
    case _ => Some(ValueError)
  }

  /** What was found. */
  function Finding(id: string, answer: Result): Event {
    match answer
    case BusFails => ReadFailed(id)
    case Celsius(value) => if value < MINIMUM || MAXIMUM < value then ReadInvalid(id) else ReadValue(id, value)
    case _ => ReadInvalid(id)
  }

  /** What the manager is told. */
  function Telling(id: string, answer: Result, trusted: bool, sample: int): Event {
    match Verdict(answer, trusted)
    case Some(reason) => RecordFailure(id, sample, reason)
    case None => RecordValid(id, if answer.Celsius? then answer.value else 0.0, sample)
  }

  function TrustAfter(trusted: set<string>, id: string, answer: Result): set<string> {
    if Verdict(answer, id in trusted).None? then trusted + {id} else trusted - {id}
  }

  function DeviceAfter(d: Device, answer: Result, trusted: bool, sample: int): Device {
    match Verdict(answer, trusted)
    case Some(reason) => d.(trusted := false, error := Some(reason), invalid := d.invalid + 1)
    case None => Device(if answer.Celsius? then Some(answer.value) else None, Some(sample), None, true, d.invalid)
  }

  /** The sensor that comes next has been read and judged, and the cycle is at the one after it, or done. */
  predicate HasRead(c: Config, s: State, now: int, answer: Result, v: State)
    requires s.readIndex < |s.cycle| && s.conversionDue.Some?
  {
    var id, sample := s.cycle[s.readIndex].id, s.conversionDue.value;
    && v.trace == s.trace + [Bus(Read(id), now), Finding(id, answer), Telling(id, answer, id in s.trusted, sample)]
    && v.trusted == TrustAfter(s.trusted, id, answer)
    && (id in s.devices ==> v.devices == s.devices[id := DeviceAfter(s.devices[id], answer, id in s.trusted, sample)])
    && |s.script| >= 2 && v.script == s.script[2..] && v.lastPoll == s.lastPoll && v.roms == s.roms
    && (if s.readIndex + 1 < |s.cycle| then
          v.mode == s.mode && v.readIndex == s.readIndex + 1 && v.cycle == s.cycle && v.conversionDue == s.conversionDue && v.nextCycle == s.nextCycle
        else
          v.mode == Idle && v.cycle == [] && v.conversionDue == None
          && v.nextCycle == (if Due(now, s.nextCycle) then Some(now + c.pollInterval) else s.nextCycle))
  }

  predicate Replies(s: State, answer: Result) {
    |s.script| >= 2 && s.script[0] == answer && answer != Raises && s.script[1] != Raises
  }

  lemma SensorIsJudged(s: State, id: string, sample: int, now: int, answer: Result)
    requires Replies(s, answer) && id in s.devices
    ensures
      var r := ReadSensor(s, id, sample, now);
      && r.outcome == Did(1)
      && r.s == s.(script := s.script[2..], trusted := TrustAfter(s.trusted, id, answer),
                   devices := s.devices[id := DeviceAfter(s.devices[id], answer, id in s.trusted, sample)],
                   trace := s.trace + [Bus(Read(id), now), Finding(id, answer), Telling(id, answer, id in s.trusted, sample)])
  {
    var asked := Ask(s, Read(id), now);
    assert s.script[1..][0] == s.script[1] && s.script[1..][1..] == s.script[2..];
    assert s.trace + [Bus(Read(id), now)] + [Finding(id, answer)] + [Telling(id, answer, id in s.trusted, sample)]
      == s.trace + [Bus(Read(id), now), Finding(id, answer), Telling(id, answer, id in s.trusted, sample)];
    if answer == BusFails || !Plausible(answer) {
      DistrustedIsTold(asked, id, sample, answer);
    } else {
      ValueIsTold(asked, id, sample, answer);
    }
    hide Judge, RecordOneFailure, Blame, DistrustOne, Finding, Telling, TrustAfter, DeviceAfter;
  }

  lemma DistrustedIsTold(s: State, id: string, sample: int, answer: Result)
    requires id in s.devices && s.script != [] && s.script[0] != Raises && answer != Raises && !Plausible(answer)
    ensures
      var reason := if answer == BusFails then ReadError else ValueError;
      Blame(RecordOneFailure(Log(DistrustOne(s, id), Finding(id, answer)), id, sample, reason), id, reason)
      == Res(s.(script := s.script[1..], trusted := TrustAfter(s.trusted, id, answer),
                devices := s.devices[id := DeviceAfter(s.devices[id], answer, id in s.trusted, sample)],
                trace := s.trace + [Finding(id, answer)] + [Telling(id, answer, id in s.trusted, sample)]), Did(1))
  {
    hide Finding;
  }

  lemma ValueIsTold(s: State, id: string, sample: int, answer: Result)
    requires id in s.devices && s.script != [] && s.script[0] != Raises && Plausible(answer)
    ensures
      Judge(s, id, answer.value, sample)
      == Res(s.(script := s.script[1..], trusted := TrustAfter(s.trusted, id, answer),
                devices := s.devices[id := DeviceAfter(s.devices[id], answer, id in s.trusted, sample)],
                trace := s.trace + [Finding(id, answer)] + [Telling(id, answer, id in s.trusted, sample)]), Did(1))
  {
  }

  lemma SensorIsRead(c: Config, s: State, now: int, answer: Result)
    requires Ready(s) && Busy(s) && Awake(s, now) && (s.mode == WaitConversion ==> s.conversionDue.value <= now)
    requires s.cycle[s.readIndex].id in s.devices && Replies(s, answer)
    ensures var r := Step(c, s, now); r.outcome == Did(1) && HasRead(c, s.(lastPoll := Some(now), mode := Reading), now, answer, r.s)
  {
    hide ReadSensor, Finding, Telling, TrustAfter, DeviceAfter;
    SensorIsJudged(s.(lastPoll := Some(now), mode := Reading), s.cycle[s.readIndex].id, s.conversionDue.value, now, answer);
  }

  // ---------------------------------------------------------------- a whole cycle

  predicate Ascend(from: int, times: seq<int>)
    decreases |times|
  {
    times == [] || (from < times[0] && Ascend(times[0], times[1..]))
  }

  function Ticks(times: seq<int>): seq<Input> {
    if times == [] then [] else [Tick(times[0])] + Ticks(times[1..])
  }

  /** Every sensor answers, and the manager takes what it is told. */
  function Script(answers: seq<Result>, rest: seq<Result>): seq<Result> {
    if answers == [] then rest else [answers[0], Fine] + Script(answers[1..], rest)
  }

  /** What happens when these sensors are read one after the other. */
  function CycleTrace(roms: seq<Rom>, times: seq<int>, answers: seq<Result>, trusted: set<string>, sample: int): seq<Event>
    requires |roms| == |times| == |answers|
  {
    if roms == [] then []
    else
      var id := roms[0].id;
      [Bus(Read(id), times[0]), Finding(id, answers[0]), Telling(id, answers[0], id in trusted, sample)]
      + CycleTrace(roms[1..], times[1..], answers[1..], TrustAfter(trusted, id, answers[0]), sample)
  }

  predicate NobodyRaises(answers: seq<Result>) {
    Raises !in answers
  }

  /** What the machine looks like after the readings of a cycle. */
  predicate Completed(v: State, trace: seq<Event>, rest: seq<Result>) {
    v.trace == trace && v.mode == Idle && v.script == rest
  }

  lemma {:induction false} RemainingAreRead(c: Config, s: State, times: seq<int>, answers: seq<Result>, rest: seq<Result>)
    requires Good(c, s) && Busy(s) && s.lastPoll.Some? && Ascend(s.lastPoll.value, times) && NobodyRaises(answers)
    requires |times| == |answers| == |s.cycle| - s.readIndex && s.conversionDue.value <= times[0] && s.script == Script(answers, rest)
    ensures Completed(Play(c, s, Ticks(times)),
                      s.trace + CycleTrace(s.cycle[s.readIndex..], times, answers, s.trusted, s.conversionDue.value), rest)
    decreases |times|
  {
    ReadyStays(c, s);
    hide Good, Ready, Finding, Telling, TrustAfter, DeviceAfter, Step, Apply, Play, CycleTrace, Script;
    var t := s.(lastPoll := Some(times[0]), mode := Reading);
    var v := Apply(c, s, Tick(times[0]));
    NextIsRead(c, s, times[0], answers, rest);
    PlayTicks(c, s, times);
    CycleUnfolds(s, times, answers);
    if s.readIndex + 1 < |s.cycle| {
      RemainingAreRead(c, v, times[1..], answers[1..], rest);
    } else {
      NothingRemains(c, v, answers[1..], rest);
      assert times[1..] == [] && answers[1..] == [];
    }
  }

  lemma NothingRemains(c: Config, s: State, answers: seq<Result>, rest: seq<Result>)
    requires Good(c, s)
    ensures Play(c, s, Ticks([])) == s && (answers == [] ==> Script(answers, rest) == rest)
  {
  }

  lemma PlayTicks(c: Config, s: State, times: seq<int>)
    requires Good(c, s) && times != []
    ensures Play(c, s, Ticks(times)) == Play(c, Apply(c, s, Tick(times[0])), Ticks(times[1..]))
  {
    hide Good, Apply;
    assert Ticks(times)[1..] == Ticks(times[1..]);
  }

  lemma CycleUnfolds(s: State, times: seq<int>, answers: seq<Result>)
    requires s.readIndex < |s.cycle| && s.conversionDue.Some? && |times| == |answers| == |s.cycle| - s.readIndex
    ensures
      var id, sample := s.cycle[s.readIndex].id, s.conversionDue.value;
      s.trace + CycleTrace(s.cycle[s.readIndex..], times, answers, s.trusted, sample)
      == s.trace + [Bus(Read(id), times[0]), Finding(id, answers[0]), Telling(id, answers[0], id in s.trusted, sample)]
         + CycleTrace(s.cycle[s.readIndex + 1..], times[1..], answers[1..], TrustAfter(s.trusted, id, answers[0]), sample)
    ensures s.readIndex + 1 == |s.cycle| ==>
      var id, sample := s.cycle[s.readIndex].id, s.conversionDue.value;
      s.trace + CycleTrace(s.cycle[s.readIndex..], times, answers, s.trusted, sample)
      == s.trace + [Bus(Read(id), times[0]), Finding(id, answers[0]), Telling(id, answers[0], id in s.trusted, sample)]
  {
    hide Finding, Telling, TrustAfter;
    var roms := s.cycle[s.readIndex..];
    assert roms[0] == s.cycle[s.readIndex] && roms[1..] == s.cycle[s.readIndex + 1..];
  }

  lemma NextIsRead(c: Config, s: State, now: int, answers: seq<Result>, rest: seq<Result>)
    requires Good(c, s) && Busy(s) && s.lastPoll.Some? && s.lastPoll.value < now && s.conversionDue.value <= now
    requires answers != [] && NobodyRaises(answers) && s.script == Script(answers, rest)
    ensures
      var v := Apply(c, s, Tick(now));
      && HasRead(c, s.(lastPoll := Some(now), mode := Reading), now, answers[0], v)
      && v.script == Script(answers[1..], rest)
  {
    ReadyStays(c, s);
    CycleIsKnown(c, s);
    hide Step, Good, Finding, Telling, TrustAfter, DeviceAfter, Ready;
    ScriptUnfolds(answers, rest);
    SensorIsRead(c, s, now, answers[0]);
  }

  lemma ScriptUnfolds(answers: seq<Result>, rest: seq<Result>)
    requires answers != []
    ensures
      var script := Script(answers, rest);
      |script| >= 2 && script[0] == answers[0] && script[1] == Fine && script[2..] == Script(answers[1..], rest)
  {
  }

  lemma ConversionStarts(c: Config, s: State, now: int)
    requires Ready(s) && NextOperation(s, now) == Some(Convert) && s.script != [] && s.script[0] == Fine
    ensures s.roms != []
    ensures
      var r := Step(c, s, now);
      && r.outcome == Did(1)
      && r.s == s.(lastPoll := Some(now), script := s.script[1..], trace := s.trace + [Bus(Convert, now)], cycle := s.roms, readIndex := 0,
                   conversionDue := Some(now + c.conversionWait), nextCycle := Some(now + c.pollInterval), mode := WaitConversion)
  {
  }

  /** When a conversion is due, the bus starts it and nobody raises, then ticks after the conversion time read every sensor
      found, each once and in order, and the manager is told of each; then the machine waits for the next cycle. */
  lemma CycleReadsEverySensor(c: Config, s: State, started: int, times: seq<int>, answers: seq<Result>, rest: seq<Result>)
    requires Good(c, s) && NextOperation(s, started) == Some(Convert)
    requires |times| == |answers| == |s.roms| && Ascend(started, times) && started + c.conversionWait <= times[0] && NobodyRaises(answers)
    requires s.script == [Fine] + Script(answers, rest)
    ensures Completed(Play(c, s, [Tick(started)] + Ticks(times)),
                      s.trace + [Bus(Convert, started)] + CycleTrace(s.roms, times, answers, s.trusted, started + c.conversionWait), rest)
  {
    ReadyStays(c, s);
    hide Step, Good, Ready, CycleTrace, Play, Script, Completed, NextOperation, NobodyRaises, Ascend, Ticks;
    assert s.script[0] == Fine && s.script[1..] == Script(answers, rest);
    ConversionStarts(c, s, started);
    PlayFirst(c, s, Tick(started), Ticks(times));
    StartedCycleIsRead(c, Apply(c, s, Tick(started)), started, times, answers, rest);
  }

  lemma StartedCycleIsRead(c: Config, s: State, started: int, times: seq<int>, answers: seq<Result>, rest: seq<Result>)
    requires Good(c, s) && s.mode == WaitConversion && s.readIndex == 0 && s.lastPoll == Some(started)
    requires s.conversionDue == Some(started + c.conversionWait) && s.script == Script(answers, rest)
    requires |times| == |answers| == |s.cycle| && Ascend(started, times) && times != [] && started + c.conversionWait <= times[0]
    requires NobodyRaises(answers)
    ensures Completed(Play(c, s, Ticks(times)), s.trace + CycleTrace(s.cycle, times, answers, s.trusted, started + c.conversionWait), rest)
  {
    hide Good, Ready, CycleTrace, Play, Script, Completed, NobodyRaises, Ascend, Ticks;
    FromTheFirst(s.cycle);
    RemainingAreRead(c, s, times, answers, rest);
  }

  lemma FromTheFirst(cycle: seq<Rom>)
    ensures cycle[0..] == cycle
  {
  }

  lemma PlayFirst(c: Config, s: State, i: Input, more: seq<Input>)
    requires Good(c, s)
    ensures Play(c, s, [i] + more) == Play(c, Apply(c, s, i), more)
  {
    hide Good, Apply;
    assert ([i] + more)[1..] == more;
  }

  // ---------------------------------------------------------------- a scan

  /** A scan that is accepted makes its sensors the known ones: those that stay keep what is known of them, new ones have no
      trust, and a conversion comes next. */
  lemma ScanIsAdopted(c: Config, s: State, now: int, raws: seq<seq<byte>>, roms: seq<Rom>)
    requires Ready(s) && NextOperation(s, now) == Some(Scan) && |s.script| >= 2 && s.script[0] == Scanned(raws) && s.script[1] != Raises
    requires Normalized(raws, c.maxSensors) == Some(roms)
    ensures
      var v := Step(c, s, now).s;
      && v.roms == roms && v.devices.Keys == Ids(roms) && v.trusted == s.trusted * Ids(roms)
      && (forall id :: id in Ids(roms) ==> v.devices[id] == if id in s.devices then s.devices[id] else Device(None, None, None, false, 0))
      && v.trace == s.trace + [Bus(Scan, now), Discovered(Ids(roms))]
      && !v.discoveryRequested && v.nextDiscovery == Some(now + c.discoveryInterval)
      && (if roms != [] then v.mode == ConversionReady else v.mode == Idle && v.nextCycle == Some(now + c.pollInterval))
  {
    hide Normalized, Ids, Arrived;
    Adoption(c, Pop(Ask(s.(lastPoll := Some(now), mode := Idle), Scan, now)), roms, now);
    assert s.trace + [Bus(Scan, now)] + [Discovered(Ids(roms))] == s.trace + [Bus(Scan, now), Discovered(Ids(roms))];
    assert s.script[1..][0] == s.script[1];
  }

  lemma Adoption(c: Config, s: State, roms: seq<Rom>, now: int)
    ensures
      var v := Arrived(c, s, roms, now);
      && v.roms == roms && v.devices.Keys == Ids(roms) && v.trusted == s.trusted * Ids(roms)
      && (forall id :: id in Ids(roms) ==> v.devices[id] == if id in s.devices then s.devices[id] else Device(None, None, None, false, 0))
      && v.trace == s.trace + [Discovered(Ids(roms))]
      && !v.discoveryRequested && v.nextDiscovery == Some(now + c.discoveryInterval)
      && (if roms != [] then v.mode == ConversionReady else v.mode == Idle && v.nextCycle == Some(now + c.pollInterval))
  {
    hide Ids;
  }

  // ---------------------------------------------------------------- a scan or conversion that fails

  function FailureTold(ids: seq<string>, now: int, reason: Reason): seq<Event> {
    if ids == [] then [] else [RecordFailure(ids[0], now, reason)] + FailureTold(ids[1..], now, reason)
  }

  /** The manager names the assigned sensors, and takes what it is told about each. */
  predicate Listens(script: seq<Result>, ids: seq<string>) {
    1 + |ids| <= |script| && script[0] == Assigned(ids) && forall k :: 1 <= k <= |ids| ==> script[k] != Raises
  }

  lemma {:induction false} EachIsTold(s: State, ids: seq<string>, now: int, reason: Reason)
    requires |ids| <= |s.script| && forall k :: 0 <= k < |ids| ==> s.script[k] != Raises
    ensures RecordFailures(s, ids, now, reason)
            == Res(s.(script := s.script[|ids|..], trace := s.trace + FailureTold(ids, now, reason)), Did(1))
    decreases |ids|
  {
    if ids == [] {
      assert s.trace + FailureTold(ids, now, reason) == s.trace && s.script[0..] == s.script;
    } else {
      var told := s.(script := s.script[1..], trace := s.trace + [RecordFailure(ids[0], now, reason)]);
      EachIsTold(told, ids[1..], now, reason);
      assert told.trace + FailureTold(ids[1..], now, reason) == s.trace + FailureTold(ids, now, reason);
      assert s.script[1..][|ids| - 1..] == s.script[|ids|..];
    }
  }

  /** Everybody has lost trust, and the manager was told of each assigned sensor. */
  predicate Blames(s: State, v: State, op: Operation, now: int, reason: Reason, e: Event, ids: seq<string>) {
    && v.trusted == {} && v.devices.Keys == s.devices.Keys
    && (forall id :: id in s.devices ==>
          v.devices[id] == s.devices[id].(trusted := false, error := Some(reason),
                                          invalid := s.devices[id].invalid + (if op == Convert then 1 else 0)))
    && v.trace == s.trace + [Bus(op, now)] + [e] + FailureTold(ids, now, reason) && v.mode == Idle && v.roms == s.roms
  }

  lemma ScanDiscovers(c: Config, s: State, now: int)
    requires Ready(s) && NextOperation(s, now) == Some(Scan)
    ensures Step(c, s, now) == Discover(c, s.(lastPoll := Some(now), mode := Idle), now)
  {
    hide Discover;
  }

  /** A scan that finds no valid set of sensors is repeated one interval later. */
  lemma FailedScanIsTold(c: Config, s: State, now: int, ids: seq<string>)
    requires Ready(s) && NextOperation(s, now) == Some(Scan) && s.script != [] && s.script[0] != Raises
    requires s.script[0].Scanned? ==> Normalized(s.script[0].raws, c.maxSensors).None?
    requires Listens(s.script[1..], ids)
    ensures
      var v := Step(c, s, now).s;
      && Blames(s, v, Scan, now, ScanError, ScanFailed, ids)
      && !v.discoveryRequested && v.nextDiscovery == Some(now + c.discoveryInterval) && v.nextCycle == Some(now + c.pollInterval)
  {
    ScanDiscovers(c, s, now);
    hide Step, NextOperation, Ready, Normalized, RecordFailures, Blamed, FailureTold;
    var blamed := AllBlamed(Ask(s.(lastPoll := Some(now), mode := Idle), Scan, now), ScanError, false, ScanFailed);
    EachIsTold(Pop(blamed), ids, now, ScanError);
    BlamedShows(s.devices, ScanError, false);
  }

  /** A conversion that the bus refuses is tried again one poll interval later. */
  lemma FailedConversionIsTold(c: Config, s: State, now: int, ids: seq<string>)
    requires Ready(s) && NextOperation(s, now) == Some(Convert) && s.script != [] && s.script[0] != Raises && s.script[0] != Fine
    requires Listens(s.script[1..], ids)
    ensures
      var v := Step(c, s, now).s;
      Blames(s, v, Convert, now, ConversionError, ConversionFailed, ids) && v.nextCycle == Some(now + c.pollInterval)
  {
    hide RecordFailures, Blamed, FailureTold, Discover;
    var blamed := AllBlamed(Ask(s.(lastPoll := Some(now), mode := s.mode, cycle := s.roms), Convert, now), ConversionError, true, ConversionFailed);
    EachIsTold(Pop(blamed), ids, now, ConversionError);
    BlamedShows(s.devices, ConversionError, true);
  }

  lemma BlamedShows(devices: map<string, Device>, reason: Reason, count: bool)
    ensures Blamed(devices, reason, count).Keys == devices.Keys
    ensures forall id :: id in devices ==>
      Blamed(devices, reason, count)[id]
      == devices[id].(trusted := false, error := Some(reason), invalid := devices[id].invalid + (if count then 1 else 0))
  {
  }


  /** Whatever the bus is asked, an exception that is not its own stops the machine, and nobody is trusted any more. */
  lemma RaisingLatches(c: Config, s: State, now: int)
    requires Ready(s) && NextOperation(s, now).Some? && s.script != [] && s.script[0] == Raises
    ensures var r := Step(c, s, now); r.outcome.Raised? && r.s.mode == Faulted && r.s.trusted == {}
  {
    hide Distrusted, Normalized, ScanAccepted, ScanRejected, ConversionRejected, Judge, Blame;
  }

  /** A stopped machine does nothing until it is reset, and after that it begins with a scan. */
  lemma ResetScansAgain(c: Config, s: State, now: int)
    requires s.mode == Faulted
    ensures Step(c, s, now) == Res(s, Did(0))
    ensures (s.lastPoll.Some? ==> s.lastPoll.value < now) ==> NextOperation(ResetFault(s), now) == Some(Scan)
    ensures ResetFault(s).trusted == {} && ResetFault(s).devices.Keys == s.devices.Keys
  {
  }
}
