/** The DS18B20 sampling machine of adapters/ds18b20_adapter.py on values: one bus operation a step, and 85.0 degrees is
    believed only of a sensor that has shown something else since it last lost trust. */
module Ds18b20Model {
  import opened Options
  import opened Bytes
  import opened DallasRom

  const POWER_ON: real := 85.0
  const MINIMUM: real := -55.0
  const MAXIMUM: real := 125.0

  datatype Config = Config(conversionWait: int, pollInterval: int, discoveryInterval: int, maxSensors: nat)

  datatype Mode = Idle | ConversionReady | WaitConversion | Reading | Faulted | Closed

  datatype Reason = ScanError | ConversionError | ReadError | ValueError | PowerOn85

  datatype Device = Device(value: Option<real>, sampled: Option<int>, error: Option<Reason>, trusted: bool, invalid: nat)

  const NEW_DEVICE := Device(None, None, None, false, 0)

  /** What the bus or the temperature manager answers. BusFails is the bus's own classified failure, NotANumber a reading
      that is no finite number, Raises any other exception. */
  datatype Result =
    | Fine | BusFails | Raises
    | Scanned(raws: seq<seq<byte>>)
    | Celsius(value: real)
    | NotANumber
    | Assigned(ids: seq<string>)

  datatype Operation = Scan | Convert | Read(id: string)

  /** What happened, oldest first: bus operations with their time, what came of them, what the manager was told, and what
      cost all sensors their trust. */
  datatype Event =
    | Bus(op: Operation, now: int)
    | ScanFailed
    | Discovered(ids: set<string>)
    | ConversionFailed
    | ReadFailed(id: string)
    | ReadInvalid(id: string)
    | ReadValue(id: string, value: real)
    | RecordValid(id: string, value: real, sample: int)
    | RecordFailure(id: string, sample: int, reason: Reason)
    | FaultLatched
    | FaultReset

  datatype State = State(mode: Mode, roms: seq<Rom>, cycle: seq<Rom>, readIndex: nat, devices: map<string, Device>,
                         trusted: set<string>, discoveryRequested: bool, nextDiscovery: Option<int>, nextCycle: Option<int>,
                         conversionDue: Option<int>, lastPoll: Option<int>, cleaned: bool, script: seq<Result>,
                         trace: seq<Event>)

  /** A value, or an exception. */
  datatype Outcome = Did(work: nat) | Raised

  datatype Res = Res(s: State, outcome: Outcome)

  function Initial(script: seq<Result>): State {
    State(Idle, [], [], 0, map[], {}, true, None, None, None, None, false, script, [])
  }

  predicate Due(now: int, deadline: Option<int>) {
    deadline.Some? && now >= deadline.value
  }

  function Head(s: State): Result {
    if s.script == [] then BusFails else s.script[0]
  }

  function Pop(s: State): State {
    if s.script == [] then s else s.(script := s.script[1..])
  }

  function Log(s: State, e: Event): State {
    s.(trace := s.trace + [e])
  }

  /** The bus is asked, and has answered. */
  function Ask(s: State, op: Operation, now: int): State {
    Pop(Log(s, Bus(op, now)))
  }

  // ---------------------------------------------------------------- trust

  function Distrusted(devices: map<string, Device>): map<string, Device> {
    map id | id in devices :: devices[id].(trusted := false)
  }

  function Blamed(devices: map<string, Device>, reason: Reason, count: bool): map<string, Device> {
    map id | id in devices ::
      devices[id].(trusted := false, error := Some(reason), invalid := devices[id].invalid + (if count then 1 else 0))
  }

  /** A failed scan or conversion: nobody is trusted any more. */
  function AllBlamed(s: State, reason: Reason, count: bool, e: Event): State {
    Log(s.(trusted := {}, devices := Blamed(s.devices, reason, count)), e)
  }

  function BlameOne(devices: map<string, Device>, id: string, reason: Reason): map<string, Device> {
    if id in devices then devices[id := devices[id].(trusted := false, error := Some(reason), invalid := devices[id].invalid + 1)]
    else devices
  }

  function DistrustOne(s: State, id: string): State {
    s.(trusted := s.trusted - {id},
       devices := if id in s.devices then s.devices[id := s.devices[id].(trusted := false)] else s.devices)
  }

  function Fault(s: State): State {
    Log(s.(mode := Faulted, trusted := {}, devices := Distrusted(s.devices)), FaultLatched)
  }

  function Failed(s: State): Res {
    Res(Fault(s), Raised)
  }

  /** The manager is told of the failure of each of these sensors, until it raises. */
  function RecordFailures(s: State, ids: seq<string>, now: int, reason: Reason): Res
    decreases |ids|
  {
    if ids == [] then Res(s, Did(1))
    else
      var r := RecordOneFailure(s, ids[0], now, reason);
      if r.outcome.Raised? then r else RecordFailures(r.s, ids[1..], now, reason)
  }

  function RecordOneFailure(s: State, id: string, sample: int, reason: Reason): Res {
    var told := Pop(Log(s, RecordFailure(id, sample, reason)));
    if Head(s) == Raises then Failed(told) else Res(told, Did(1))
  }

  function RecordGlobalFailure(s: State, now: int, reason: Reason): Res {
    if !Head(s).Assigned? then Failed(Pop(s)) else RecordFailures(Pop(s), Head(s).ids, now, reason)
  }

  // ---------------------------------------------------------------- discovery

  function ScanRejected(c: Config, s: State, now: int): Res {
    var r := RecordGlobalFailure(AllBlamed(s, ScanError, false, ScanFailed), now, ScanError);
    if r.outcome.Raised? then r
    else
      Res(r.s.(discoveryRequested := false, nextDiscovery := Some(now + c.discoveryInterval), nextCycle := Some(now + c.pollInterval)),
          Did(1))
  }

  function Kept(devices: map<string, Device>, ids: set<string>): map<string, Device> {
    map id | id in ids :: if id in devices then devices[id] else NEW_DEVICE
  }

  /** The sensors that have been found, with what is known of those that were there before. */
  function Arrived(c: Config, s: State, roms: seq<Rom>, now: int): State {
    var t := Log(s.(devices := Kept(s.devices, Ids(roms)), trusted := s.trusted * Ids(roms), roms := roms,
                    discoveryRequested := false, nextDiscovery := Some(now + c.discoveryInterval)),
                 Discovered(Ids(roms)));
    if roms != [] then t.(mode := ConversionReady) else t.(mode := Idle, nextCycle := Some(now + c.pollInterval))
  }

  function ScanAccepted(c: Config, s: State, roms: seq<Rom>, now: int): Res {
    if Head(s) == Raises then Failed(Pop(s)) else Res(Arrived(c, Pop(s), roms, now), Did(1))
  }

  function Discover(c: Config, s: State, now: int): Res {
    var result := Head(s);
    var asked := Ask(s, Scan, now);
    if result == Raises then Failed(asked)
    else
      match (if result.Scanned? then Normalized(result.raws, c.maxSensors) else None)
      case None => ScanRejected(c, asked, now)
      case Some(roms) => ScanAccepted(c, asked, roms, now)
  }

  // ---------------------------------------------------------------- conversion and reading

  function StartConversion(c: Config, s: State, now: int): Res {
    var t := s.(cycle := s.roms);
    if t.cycle == [] then Res(t.(mode := Idle, nextCycle := Some(now + c.pollInterval)), Did(0))
    else
      var result := Head(t);
      var asked := Ask(t, Convert, now);
      if result == Raises then Failed(asked)
      else if result != Fine then ConversionRejected(c, asked, now)
      else
        Res(asked.(readIndex := 0, conversionDue := Some(now + c.conversionWait), nextCycle := Some(now + c.pollInterval),
                   mode := WaitConversion),
            Did(1))
  }

  function ConversionRejected(c: Config, s: State, now: int): Res {
    var r := RecordGlobalFailure(AllBlamed(s, ConversionError, true, ConversionFailed), now, ConversionError);
    if r.outcome.Raised? then r
    else Res(r.s.(cycle := [], mode := Idle, nextCycle := Some(now + c.pollInterval)), Did(1))
  }

  predicate Plausible(result: Result) {
    result.Celsius? && MINIMUM <= result.value <= MAXIMUM
  }

  function Blame(r: Res, id: string, reason: Reason): Res {
    if r.outcome.Raised? then r else Res(r.s.(devices := BlameOne(r.s.devices, id, reason)), r.outcome)
  }

  /** A valid reading is passed on, unless it is the power-on value of a sensor without trust. */
  function Judge(s: State, id: string, value: real, sample: int): Res {
    var seen := Log(s, ReadValue(id, value));
    if value == POWER_ON && id !in s.trusted then Blame(RecordOneFailure(seen, id, sample, PowerOn85), id, PowerOn85)
    else
      var told := Pop(Log(seen, RecordValid(id, value, sample)));
      if Head(seen) == Raises then Failed(told)
      else
        Res(told.(trusted := s.trusted + {id},
                  devices := if id in s.devices then
                               s.devices[id := s.devices[id].(value := Some(value), sampled := Some(sample), error := None, trusted := true)]
                             else s.devices),
            Did(1))
  }

  function ReadSensor(s: State, id: string, sample: int, now: int): Res {
    var result := Head(s);
    var asked := Ask(s, Read(id), now);
    if result == Raises then Failed(asked)
    else if result == BusFails then
      Blame(RecordOneFailure(Log(DistrustOne(asked, id), ReadFailed(id)), id, sample, ReadError), id, ReadError)
    else if !Plausible(result) then
      Blame(RecordOneFailure(Log(DistrustOne(asked, id), ReadInvalid(id)), id, sample, ValueError), id, ValueError)
    else Judge(asked, id, result.value, sample)
  }

  function FinishCycle(c: Config, s: State, now: int): State {
    s.(cycle := [], readIndex := 0, conversionDue := None, mode := Idle,
       nextCycle := if Due(now, s.nextCycle) then Some(now + c.pollInterval) else s.nextCycle)
  }

  function ReadOne(c: Config, s: State, now: int): Res
    requires s.readIndex < |s.cycle| && s.conversionDue.Some?
  {
    var r := ReadSensor(s, s.cycle[s.readIndex].id, s.conversionDue.value, now);
    if r.outcome.Raised? then r
    else
      var t := r.s.(readIndex := r.s.readIndex + 1);
      Res(if t.readIndex >= |t.cycle| then FinishCycle(c, t, now) else t, r.outcome)
  }

  // ---------------------------------------------------------------- one step

  /** A conversion that is under way has a sensor to read and a time at which it is done. */
  predicate Busy(s: State) {
    s.mode == WaitConversion || s.mode == Reading
  }

  predicate Ready(s: State) {
    && (Busy(s) ==> s.readIndex < |s.cycle| && s.conversionDue.Some?)
    && (s.mode == ConversionReady ==> s.roms != [])
  }

  function IdleStep(c: Config, s: State, now: int): Res {
    if s.discoveryRequested || s.nextDiscovery.None? || Due(now, s.nextDiscovery) then Discover(c, s, now)
    else if s.nextCycle.None? || Due(now, s.nextCycle) then
      if s.roms != [] then StartConversion(c, s, now) else Res(s.(nextCycle := Some(now + c.pollInterval)), Did(0))
    else Res(s, Did(0))
  }

  function StepOnce(c: Config, s: State, now: int): Res
    requires Ready(s)
  {
    match s.mode
    case WaitConversion =>
      if !Due(now, s.conversionDue) then Res(s, Did(0)) else ReadOne(c, s.(mode := Reading), now)
    case Reading => ReadOne(c, s, now)
    case ConversionReady =>
      if s.discoveryRequested then IdleStep(c, s.(mode := Idle), now) else StartConversion(c, s, now)
    case _ => IdleStep(c, s, now)
  }

  function Step(c: Config, s: State, now: int): Res
    requires Ready(s)
  {
    if s.mode == Closed || s.mode == Faulted then Res(s, Did(0))
    else if s.lastPoll.Some? && now < s.lastPoll.value then Res(s, Raised)
    else if s.lastPoll == Some(now) then Res(s, Did(0))
    else StepOnce(c, s.(lastPoll := Some(now)), now)
  }

  // ---------------------------------------------------------------- the other operations

  function RequestDiscovery(s: State): State {
    if s.mode == Closed then s else s.(discoveryRequested := true)
  }

  function ResetFault(s: State): State {
    if s.mode != Faulted then s
    else
      Log(s.(trusted := {}, devices := Distrusted(s.devices), cycle := [], readIndex := 0, conversionDue := None,
             nextCycle := None, discoveryRequested := true, mode := Idle),
          FaultReset)
  }

  function Deinit(s: State): Res {
    var t := s.(mode := Closed);
    if s.cleaned then Res(t, Did(1))
    else if Head(s) != Fine then Res(Pop(t), Raised)
    else Res(Pop(t).(cleaned := true), Did(1))
  }
}
