/** Which sensors are trusted, against everything that has happened on the bus. */
module Ds18b20Trust {
  import opened Options
  import opened DallasRom
  import opened Ds18b20Model

  // ---------------------------------------------------------------- the history

  function EarnedAfter(before: bool, e: Event, id: string): bool {
    match e
    case ScanFailed => false
    case ConversionFailed => false
    case FaultLatched => false
    case FaultReset => false
    case Discovered(ids) => before && id in ids
    case ReadFailed(other) => before && other != id
    case ReadInvalid(other) => before && other != id
    case ReadValue(other, value) => before || (other == id && value != POWER_ON)
    case _ => before
  }

  /** The sensor has shown a valid value other than 85 degrees since it last lost trust: by a failed scan or conversion, by
      a failed or invalid reading, by disappearing, by a fault or by its reset. */
  predicate Earned(trace: seq<Event>, id: string) {
    trace != [] && EarnedAfter(Earned(trace[..|trace| - 1], id), trace[|trace| - 1], id)
  }

  /** When the conversion that readings now come from was started. */
  function LastConversion(trace: seq<Event>): Option<int> {
    if trace == [] then None
    else
      var last := trace[|trace| - 1];
      if last.Bus? && last.op == Convert then Some(last.now)
      else if last == ConversionFailed || last == FaultLatched then None
      else LastConversion(trace[..|trace| - 1])
  }

  function BusCalls(trace: seq<Event>): nat {
    if trace == [] then 0 else BusCalls(trace[..|trace| - 1]) + (if trace[|trace| - 1].Bus? then 1 else 0)
  }

  datatype Sample = Sample(id: string, value: real)

  /** A valid reading that the manager has not been told of yet. */
  function Pending(trace: seq<Event>): Option<Sample> {
    if trace == [] then None
    else
      match trace[|trace| - 1]
      case ReadValue(id, value) => Some(Sample(id, value))
      case _ => None
  }

  /** What the manager must be told of a valid reading: an 85 that is not earned is a failure, anything else is valid. */
  predicate Answers(r: Sample, earned: bool, e: Event) {
    if r.value == POWER_ON && !earned then e.RecordFailure? && e.id == r.id && e.reason == PowerOn85
    else e.RecordValid? && e.id == r.id && e.value == r.value
  }

  predicate AfterConversion(c: Config, trace: seq<Event>, time: int) {
    LastConversion(trace).Some? && time >= LastConversion(trace).value + c.conversionWait
  }

  predicate Justified(c: Config, trace: seq<Event>, e: Event) {
    && (Pending(trace).Some? ==> Answers(Pending(trace).value, Earned(trace, Pending(trace).value.id), e))
    && (e.RecordValid? ==>
          && Pending(trace) == Some(Sample(e.id, e.value)) && MINIMUM <= e.value <= MAXIMUM
          && LastConversion(trace).Some? && e.sample == LastConversion(trace).value + c.conversionWait)
    && (e.Bus? && e.op.Read? ==> AfterConversion(c, trace, e.now))
  }

  predicate AllJustified(c: Config, trace: seq<Event>) {
    trace == [] || (AllJustified(c, trace[..|trace| - 1]) && Justified(c, trace[..|trace| - 1], trace[|trace| - 1]))
  }

  lemma Extended(c: Config, trace: seq<Event>, e: Event)
    ensures
      var t := trace + [e];
      && (forall id :: Earned(t, id) == EarnedAfter(Earned(trace, id), e, id))
      && LastConversion(t) == (if e.Bus? && e.op == Convert then Some(e.now)
                               else if e == ConversionFailed || e == FaultLatched then None
                               else LastConversion(trace))
      && BusCalls(t) == BusCalls(trace) + (if e.Bus? then 1 else 0)
      && Pending(t) == (if e.ReadValue? then Some(Sample(e.id, e.value)) else None)
      && AllJustified(c, t) == (AllJustified(c, trace) && Justified(c, trace, e))
  {
    assert (trace + [e])[..|trace|] == trace;
  }

  // ---------------------------------------------------------------- the invariant

  predicate FlagsAgree(devices: map<string, Device>, trusted: set<string>) {
    trusted <= devices.Keys && forall id :: id in devices ==> devices[id].trusted == (id in trusted)
  }

  lemma NobodyAgrees(devices: map<string, Device>, reason: Reason, count: bool)
    ensures FlagsAgree(Distrusted(devices), {}) && Distrusted(devices).Keys == devices.Keys
    ensures FlagsAgree(Blamed(devices, reason, count), {}) && Blamed(devices, reason, count).Keys == devices.Keys
  {
  }

  lemma KeptAgrees(devices: map<string, Device>, trusted: set<string>, ids: set<string>)
    requires FlagsAgree(devices, trusted)
    ensures FlagsAgree(Kept(devices, ids), trusted * ids) && Kept(devices, ids).Keys == ids
  {
  }

  lemma OneAgrees(devices: map<string, Device>, trusted: set<string>, id: string, device: Device)
    requires FlagsAgree(devices, trusted) && id in devices
    ensures device.trusted ==> FlagsAgree(devices[id := device], trusted + {id})
    ensures !device.trusted ==> FlagsAgree(devices[id := device], trusted - {id})
    ensures devices[id := device].Keys == devices.Keys
  {
  }

  ghost predicate TrustAgrees(s: State) {
    forall id :: (id in s.trusted) == Earned(s.trace, id)
  }

  /** Sensors are read only once their conversion is done. */
  predicate OnTime(s: State) {
    s.mode == Reading ==> s.lastPoll.Some? && Due(s.lastPoll.value, s.conversionDue)
  }

  predicate Linked(s: State) {
    s.devices.Keys == Ids(s.roms) && (Busy(s) ==> s.cycle == s.roms)
  }

  predicate Timed(c: Config, s: State) {
    Busy(s) ==> LastConversion(s.trace).Some? && s.conversionDue == Some(LastConversion(s.trace).value + c.conversionWait)
  }

  ghost predicate Good(c: Config, s: State) {
    && Ready(s) && FlagsAgree(s.devices, s.trusted) && TrustAgrees(s) && Linked(s) && Timed(c, s) && OnTime(s)
    && AllJustified(c, s.trace) && Pending(s.trace).None?
  }

  /** Good again, after at most `n` bus operations. */
  ghost predicate Keeps(c: Config, s: State, v: State, n: nat) {
    Good(c, v) && BusCalls(v.trace) <= BusCalls(s.trace) + n
  }

  /** Nothing but the script and an event that neither loses nor earns trust. */
  lemma LogKeeps(c: Config, s: State, e: Event)
    requires Good(c, s) && Justified(c, s.trace, e)
    requires e.RecordFailure? || (e.Bus? && (e.op == Convert ==> !Busy(s)))
    ensures Keeps(c, s, Pop(Log(s, e)), if e.Bus? then 1 else 0)
  {
    hide Earned, AllJustified, LastConversion, BusCalls, Pending, Justified, FlagsAgree, Ids;
    Extended(c, s.trace, e);
  }

  lemma FailedKeeps(c: Config, s: State)
    requires Linked(s) && AllJustified(c, s.trace) && Pending(s.trace).None?
    ensures Keeps(c, s, Failed(s).s, 0)
  {
    hide Earned, AllJustified, LastConversion, BusCalls, Pending, FlagsAgree, Distrusted, Ids;
    Extended(c, s.trace, FaultLatched);
    NobodyAgrees(s.devices, ScanError, false);
  }

  lemma GoodFails(c: Config, s: State)
    requires Good(c, s)
    ensures Keeps(c, s, Failed(s).s, 0)
  {
    hide Earned, AllJustified, LastConversion, BusCalls, Pending, FlagsAgree, Failed, Ids;
    FailedKeeps(c, s);
  }

  lemma PopKeeps(c: Config, s: State)
    requires Good(c, s)
    ensures Keeps(c, s, Pop(s), 0)
  {
    hide Earned, AllJustified, LastConversion, BusCalls, Pending, FlagsAgree, Ids;
    assert Pop(s).trace == s.trace && Pop(s).trusted == s.trusted;
  }

  lemma RecordOneFailureKeeps(c: Config, s: State, id: string, sample: int, reason: Reason)
    requires Good(c, s)
    ensures Keeps(c, s, RecordOneFailure(s, id, sample, reason).s, 0)
  {
    var e := RecordFailure(id, sample, reason);
    assert Justified(c, s.trace, e);
    LogKeeps(c, s, e);
    FailedKeeps(c, Pop(Log(s, e)));
    hide Earned, AllJustified, LastConversion, BusCalls, Pending, TrustAgrees, FlagsAgree, Failed, Justified;
  }

  /** Only the manager was told something. */
  predicate SameButTold(s: State, v: State) {
    v == s.(script := v.script, trace := v.trace)
  }

  lemma {:induction false} RecordFailuresKeeps(c: Config, s: State, ids: seq<string>, now: int, reason: Reason)
    requires Good(c, s)
    ensures
      var r := RecordFailures(s, ids, now, reason);
      Keeps(c, s, r.s, 0) && (r.outcome.Raised? || SameButTold(s, r.s))
    decreases |ids|
  {
    if ids != [] {
      RecordOneFailureKeeps(c, s, ids[0], now, reason);
      var r := RecordOneFailure(s, ids[0], now, reason);
      if !r.outcome.Raised? {
        RecordFailuresKeeps(c, r.s, ids[1..], now, reason);
      }
    }
    hide Good, Failed, BusCalls;
  }

  lemma RecordGlobalFailureKeeps(c: Config, s: State, now: int, reason: Reason)
    requires Good(c, s)
    ensures
      var r := RecordGlobalFailure(s, now, reason);
      Keeps(c, s, r.s, 0) && (r.outcome.Raised? || SameButTold(s, r.s))
  {
    PopKeeps(c, s);
    if Head(s).Assigned? {
      RecordFailuresKeeps(c, Pop(s), Head(s).ids, now, reason);
    } else {
      FailedKeeps(c, Pop(s));
    }
    hide Earned, AllJustified, LastConversion, BusCalls, Pending, TrustAgrees, FlagsAgree, Failed, RecordFailures;
  }

  /** A failed scan or conversion costs every sensor its trust. */
  lemma DistrustKeeps(c: Config, s: State, reason: Reason, count: bool, e: Event)
    requires Good(c, s) && !Busy(s) && (e == ScanFailed || e == ConversionFailed)
    ensures Keeps(c, s, AllBlamed(s, reason, count, e), 0)
  {
    hide Earned, AllJustified, LastConversion, BusCalls, Pending, FlagsAgree, Blamed, Ids;
    Extended(c, s.trace, e);
    NobodyAgrees(s.devices, reason, count);
  }

  // ---------------------------------------------------------------- discovery and conversion

  /** Deadlines, the request for a scan and the cycle of an idle machine may change freely. */
  predicate SameButPlans(s: State, v: State) {
    && v == s.(mode := v.mode, cycle := v.cycle, readIndex := v.readIndex, discoveryRequested := v.discoveryRequested,
               nextDiscovery := v.nextDiscovery, nextCycle := v.nextCycle, conversionDue := v.conversionDue, lastPoll := v.lastPoll)
    && !Busy(v) && (v.mode == ConversionReady ==> v.roms != [])
  }

  lemma PlansKeep(c: Config, s: State, v: State)
    requires Good(c, s) && SameButPlans(s, v)
    ensures Keeps(c, s, v, 0)
  {
    hide Earned, AllJustified, LastConversion, BusCalls, Pending, FlagsAgree, Ids;
  }

  lemma RejectionKeeps(c: Config, s: State, now: int, reason: Reason, count: bool, e: Event)
    requires Good(c, s) && !Busy(s) && (e == ScanFailed || e == ConversionFailed)
    ensures
      var r := RecordGlobalFailure(AllBlamed(s, reason, count, e), now, reason);
      Keeps(c, s, r.s, 0) && (r.outcome.Raised? || r.s.mode == s.mode)
  {
    hide Good, BusCalls, Blamed, RecordGlobalFailure;
    var blamed := AllBlamed(s, reason, count, e);
    DistrustKeeps(c, s, reason, count, e);
    RecordGlobalFailureKeeps(c, blamed, now, reason);
    assert blamed.mode == s.mode;
  }

  lemma RescheduledKeeps(c: Config, s: State, discovery: int, cycle: int)
    requires Good(c, s) && !Busy(s)
    ensures Keeps(c, s, s.(discoveryRequested := false, nextDiscovery := Some(discovery), nextCycle := Some(cycle)), 0)
  {
    hide Earned, AllJustified, LastConversion, BusCalls, Pending, FlagsAgree, Ids;
  }

  lemma ScanRejectedKeeps(c: Config, s: State, now: int)
    requires Good(c, s) && !Busy(s)
    ensures Keeps(c, s, ScanRejected(c, s, now).s, 0)
  {
    hide Good, BusCalls, AllBlamed, RecordGlobalFailure;
    RejectionKeeps(c, s, now, ScanError, false, ScanFailed);
    var r := RecordGlobalFailure(AllBlamed(s, ScanError, false, ScanFailed), now, ScanError);
    if !r.outcome.Raised? {
      assert !Busy(r.s);
      RescheduledKeeps(c, r.s, now + c.discoveryInterval, now + c.pollInterval);
    }
  }

  lemma ReadyStays(c: Config, s: State)
    requires Good(c, s)
    ensures Ready(s)
  {
  }

  lemma ConversionRejectedKeeps(c: Config, s: State, now: int)
    requires Good(c, s) && !Busy(s)
    ensures Keeps(c, s, ConversionRejected(c, s, now).s, 0)
  {
    hide Good, BusCalls, AllBlamed, RecordGlobalFailure;
    RejectionKeeps(c, s, now, ConversionError, true, ConversionFailed);
    var r := RecordGlobalFailure(AllBlamed(s, ConversionError, true, ConversionFailed), now, ConversionError);
    if !r.outcome.Raised? {
      PlansKeep(c, r.s, ConversionRejected(c, s, now).s);
    }
  }

  lemma ScanAcceptedKeeps(c: Config, s: State, roms: seq<Rom>, now: int)
    requires Good(c, s) && !Busy(s)
    ensures Keeps(c, s, ScanAccepted(c, s, roms, now).s, 0)
  {
    hide Good, BusCalls, Arrived, Failed;
    PopKeeps(c, s);
    GoodFails(c, Pop(s));
    ArrivedKeeps(c, Pop(s), roms, now);
  }

  lemma ArrivedKeeps(c: Config, s: State, roms: seq<Rom>, now: int)
    requires Good(c, s) && !Busy(s)
    ensures Keeps(c, s, Arrived(c, s, roms, now), 0)
  {
    hide Earned, AllJustified, LastConversion, BusCalls, Pending, FlagsAgree, Ids, Kept;
    var t := s.trace + [Discovered(Ids(roms))];
    Extended(c, s.trace, Discovered(Ids(roms)));
    KeptAgrees(s.devices, s.trusted, Ids(roms));
    assert Arrived(c, s, roms, now).trace == t;
  }

  lemma AskKeeps(c: Config, s: State, op: Operation, now: int)
    requires Good(c, s) && (op == Convert ==> !Busy(s)) && (op.Read? ==> Busy(s) && Due(now, s.conversionDue))
    ensures Keeps(c, s, Ask(s, op, now), 1)
  {
    hide Earned, AllJustified, LastConversion, BusCalls, TrustAgrees, FlagsAgree, Ids;
    assert Justified(c, s.trace, Bus(op, now));
    LogKeeps(c, s, Bus(op, now));
  }

  lemma DiscoverKeeps(c: Config, s: State, now: int)
    requires Good(c, s) && !Busy(s)
    ensures Keeps(c, s, Discover(c, s, now).s, 1)
  {
    hide Good, BusCalls, Failed, ScanAccepted, ScanRejected, Normalized;
    var asked := Ask(s, Scan, now);
    AskKeeps(c, s, Scan, now);
    GoodFails(c, asked);
    if Head(s) != Raises {
      var result := if Head(s).Scanned? then Normalized(Head(s).raws, c.maxSensors) else None;
      if result.Some? {
        ScanAcceptedKeeps(c, asked, result.value, now);
      } else {
        ScanRejectedKeeps(c, asked, now);
      }
    }
  }

  lemma StartConversionKeeps(c: Config, s: State, now: int)
    requires Good(c, s) && !Busy(s) && s.roms != []
    ensures Keeps(c, s, StartConversion(c, s, now).s, 1)
  {
    hide Good, Earned, AllJustified, LastConversion, BusCalls, Pending, Failed, ConversionRejected;
    var t := s.(cycle := s.roms);
    var asked := Ask(t, Convert, now);
    ReadyStays(c, s);
    PlansKeep(c, s, t);
    AskKeeps(c, t, Convert, now);
    GoodFails(c, asked);
    if Head(t) == Fine {
      Extended(c, t.trace, Bus(Convert, now));
      WaitingKeeps(c, asked, now);
    } else if Head(t) != Raises {
      ConversionRejectedKeeps(c, asked, now);
    }
  }

  lemma WaitingKeeps(c: Config, s: State, now: int)
    requires Good(c, s) && s.roms != [] && s.cycle == s.roms && LastConversion(s.trace) == Some(now)
    ensures Keeps(c, s, s.(readIndex := 0, conversionDue := Some(now + c.conversionWait), nextCycle := Some(now + c.pollInterval), mode := WaitConversion), 0)
  {
    hide Earned, AllJustified, LastConversion, BusCalls, Pending, FlagsAgree, Ids;
  }

  // ---------------------------------------------------------------- reading

  lemma DistrustOneKeeps(c: Config, s: State, id: string, e: Event)
    requires Good(c, s) && id in s.devices && (e == ReadFailed(id) || e == ReadInvalid(id))
    ensures Keeps(c, s, Log(DistrustOne(s, id), e), 0)
  {
    hide Earned, AllJustified, LastConversion, BusCalls, Pending, FlagsAgree, Ids;
    Extended(c, s.trace, e);
    OneAgrees(s.devices, s.trusted, id, s.devices[id].(trusted := false));
  }

  lemma BlameKeeps(c: Config, r: Res, id: string, reason: Reason)
    requires Good(c, r.s) && (r.outcome.Raised? || id !in r.s.trusted)
    ensures Keeps(c, r.s, Blame(r, id, reason).s, 0)
  {
    hide Earned, AllJustified, LastConversion, BusCalls, Pending, FlagsAgree, Ids;
    if id in r.s.devices {
      var d := r.s.devices[id];
      OneAgrees(r.s.devices, r.s.trusted, id, d.(trusted := false, error := Some(reason), invalid := d.invalid + 1));
      assert id !in r.s.trusted ==> r.s.trusted - {id} == r.s.trusted;
    }
  }

  lemma FailedReadingKeeps(c: Config, s: State, id: string, sample: int, reason: Reason)
    requires Good(c, s) && id !in s.trusted
    ensures Keeps(c, s, Blame(RecordOneFailure(s, id, sample, reason), id, reason).s, 0)
  {
    RecordOneFailureKeeps(c, s, id, sample, reason);
    BlameKeeps(c, RecordOneFailure(s, id, sample, reason), id, reason);
    hide Good, Failed, BusCalls, Blame;
  }

  /** The reading is noted: from now on it counts, but the manager has to be told. */
  predicate Noted(c: Config, s: State, seen: State, id: string, value: real) {
    && seen == Log(s, ReadValue(id, value)) && AllJustified(c, seen.trace) && Pending(seen.trace) == Some(Sample(id, value))
    && LastConversion(seen.trace) == LastConversion(s.trace) && BusCalls(seen.trace) == BusCalls(s.trace)
    && Earned(seen.trace, id) == (Earned(s.trace, id) || value != POWER_ON)
  }

  lemma NotingKeeps(c: Config, s: State, id: string, value: real)
    requires Good(c, s)
    ensures Noted(c, s, Log(s, ReadValue(id, value)), id, value)
    ensures forall other :: other != id ==> Earned(Log(s, ReadValue(id, value)).trace, other) == Earned(s.trace, other)
  {
    hide Earned, AllJustified, LastConversion, BusCalls, Pending, FlagsAgree, Ids;
    Extended(c, s.trace, ReadValue(id, value));
  }

  lemma ToldOfPowerOn(c: Config, s: State, id: string, sample: int)
    requires Good(c, s) && id !in s.trusted
    ensures
      var trace := s.trace + [ReadValue(id, POWER_ON)] + [RecordFailure(id, sample, PowerOn85)];
      && AllJustified(c, trace) && Pending(trace).None? && LastConversion(trace) == LastConversion(s.trace)
      && BusCalls(trace) == BusCalls(s.trace) && (forall x :: Earned(trace, x) == Earned(s.trace, x))
  {
    var seen := Log(s, ReadValue(id, POWER_ON));
    var e := RecordFailure(id, sample, PowerOn85);
    NotingKeeps(c, s, id, POWER_ON);
    assert Justified(c, seen.trace, e);
    Extended(c, seen.trace, e);
    hide Earned, AllJustified, LastConversion, BusCalls, Pending, FlagsAgree, Ids, Justified;
  }

  lemma PowerOnToldKeeps(c: Config, s: State, id: string, sample: int)
    requires Good(c, s) && id !in s.trusted
    ensures Keeps(c, s, Pop(Log(Log(s, ReadValue(id, POWER_ON)), RecordFailure(id, sample, PowerOn85))), 0)
  {
    hide Earned, AllJustified, LastConversion, BusCalls, Pending, FlagsAgree, Ids, Justified;
    ToldOfPowerOn(c, s, id, sample);
  }

  lemma PowerOnKeeps(c: Config, s: State, id: string, sample: int)
    requires Good(c, s) && id !in s.trusted
    ensures Keeps(c, s, Blame(RecordOneFailure(Log(s, ReadValue(id, POWER_ON)), id, sample, PowerOn85), id, PowerOn85).s, 0)
  {
    var seen := Log(s, ReadValue(id, POWER_ON));
    var told := Pop(Log(seen, RecordFailure(id, sample, PowerOn85)));
    PowerOnToldKeeps(c, s, id, sample);
    GoodFails(c, told);
    BlameKeeps(c, RecordOneFailure(seen, id, sample, PowerOn85), id, PowerOn85);
    hide Good, BusCalls, Failed, Blame;
  }

  /** The manager has been told of a valid reading, but trust and flags are still those before it. */
  lemma ToldOfValid(c: Config, s: State, id: string, value: real, sample: int)
    requires Good(c, s) && Busy(s) && (value != POWER_ON || id in s.trusted)
    requires MINIMUM <= value <= MAXIMUM && s.conversionDue == Some(sample)
    ensures
      var trace := s.trace + [ReadValue(id, value)] + [RecordValid(id, value, sample)];
      && AllJustified(c, trace) && Pending(trace).None? && LastConversion(trace) == LastConversion(s.trace)
      && BusCalls(trace) == BusCalls(s.trace) && (forall x :: Earned(trace, x) == (Earned(s.trace, x) || x == id))
  {
    var seen := Log(s, ReadValue(id, value));
    var e := RecordValid(id, value, sample);
    NotingKeeps(c, s, id, value);
    assert Justified(c, seen.trace, e);
    Extended(c, seen.trace, e);
    hide Earned, AllJustified, LastConversion, BusCalls, Pending, FlagsAgree, Ids, Justified;
  }

  /** A valid reading is believed: the sensor is trusted now, on the record and by its flag. */
  lemma BelievedKeeps(c: Config, s: State, id: string, value: real, sample: int)
    requires Good(c, s) && Busy(s) && id in s.devices && (value != POWER_ON || id in s.trusted)
    requires MINIMUM <= value <= MAXIMUM && s.conversionDue == Some(sample)
    ensures Keeps(c, s, Judge(s, id, value, sample).s, 0)
  {
    hide Earned, AllJustified, LastConversion, BusCalls, Pending, FlagsAgree, Failed, Ids, Justified;
    var told := Pop(Log(Log(s, ReadValue(id, value)), RecordValid(id, value, sample)));
    ToldOfValid(c, s, id, value, sample);
    FailedKeeps(c, told);
    OneAgrees(s.devices, s.trusted, id, s.devices[id].(value := Some(value), sampled := Some(sample), error := None, trusted := true));
  }

  lemma ReadSensorKeeps(c: Config, s: State, id: string, sample: int, now: int)
    requires Good(c, s) && s.mode == Reading && id in s.devices && s.conversionDue == Some(sample) && now >= sample
    ensures Keeps(c, s, ReadSensor(s, id, sample, now).s, 1)
  {
    hide Good, BusCalls, Failed, Blame, RecordOneFailure;
    var asked := Ask(s, Read(id), now);
    var result := Head(s);
    AskKeeps(c, s, Read(id), now);
    GoodFails(c, asked);
    if result == BusFails {
      DistrustOneKeeps(c, asked, id, ReadFailed(id));
      FailedReadingKeeps(c, Log(DistrustOne(asked, id), ReadFailed(id)), id, sample, ReadError);
    } else if result != Raises && !Plausible(result) {
      DistrustOneKeeps(c, asked, id, ReadInvalid(id));
      FailedReadingKeeps(c, Log(DistrustOne(asked, id), ReadInvalid(id)), id, sample, ValueError);
    } else if result != Raises && result.value == POWER_ON && id !in s.trusted {
      PowerOnKeeps(c, asked, id, sample);
    } else if result != Raises {
      BelievedKeeps(c, asked, id, result.value, sample);
    }
  }

  /** Only what is known of the sensors changes, and what has happened. */
  predicate SameCycle(s: State, v: State) {
    v == s.(devices := v.devices, trusted := v.trusted, script := v.script, trace := v.trace)
  }

  lemma BlameStays(s: State, r: Res, id: string, reason: Reason)
    requires r.outcome.Raised? || SameCycle(s, r.s)
    ensures var b := Blame(r, id, reason); b.outcome.Raised? || SameCycle(s, b.s)
  {
    hide BlameOne;
  }

  /** Reading a sensor leaves the cycle where it is. */
  lemma ReadSensorStays(s: State, id: string, sample: int, now: int)
    ensures var r := ReadSensor(s, id, sample, now); r.outcome.Raised? || SameCycle(s, r.s)
  {
    var asked := Ask(s, Read(id), now);
    var failed := Log(DistrustOne(asked, id), ReadFailed(id));
    var invalid := Log(DistrustOne(asked, id), ReadInvalid(id));
    BlameStays(s, RecordOneFailure(failed, id, sample, ReadError), id, ReadError);
    BlameStays(s, RecordOneFailure(invalid, id, sample, ValueError), id, ValueError);
    if Plausible(Head(s)) {
      BlameStays(s, RecordOneFailure(Log(asked, ReadValue(id, Head(s).value)), id, sample, PowerOn85), id, PowerOn85);
    }
    hide Blame, Failed;
  }

  lemma NextSensorKeeps(c: Config, s: State)
    requires Good(c, s) && s.mode == Reading && s.readIndex + 1 < |s.cycle|
    ensures Keeps(c, s, s.(readIndex := s.readIndex + 1), 0)
  {
    hide Earned, AllJustified, LastConversion, BusCalls, Pending, FlagsAgree, Ids;
  }

  lemma CycleIsKnown(c: Config, s: State)
    requires Good(c, s) && Busy(s)
    ensures s.cycle[s.readIndex].id in s.devices
  {
    var rom := s.cycle[s.readIndex];
    assert rom in s.roms && rom.id in Ids(s.roms);
  }

  lemma ReadOneKeeps(c: Config, s: State, now: int)
    requires Good(c, s) && s.mode == Reading && Due(now, s.conversionDue)
    ensures Keeps(c, s, ReadOne(c, s, now).s, 1)
  {
    hide Good, BusCalls, ReadSensor;
    ReadyStays(c, s);
    CycleIsKnown(c, s);
    var id, sample := s.cycle[s.readIndex].id, s.conversionDue.value;
    var r := ReadSensor(s, id, sample, now);
    ReadSensorKeeps(c, s, id, sample, now);
    ReadSensorStays(s, id, sample, now);
    if !r.outcome.Raised? {
      if r.s.readIndex + 1 < |r.s.cycle| {
        NextSensorKeeps(c, r.s);
      } else {
        PlansKeep(c, r.s, FinishCycle(c, r.s.(readIndex := r.s.readIndex + 1), now));
      }
    }
  }

  // ---------------------------------------------------------------- steps

  lemma StampKeeps(c: Config, s: State, now: int)
    requires Good(c, s) && (s.lastPoll.Some? ==> s.lastPoll.value <= now)
    ensures Keeps(c, s, s.(lastPoll := Some(now)), 0)
    ensures s.mode == WaitConversion && Due(now, s.conversionDue) ==> Keeps(c, s, s.(lastPoll := Some(now), mode := Reading), 0)
  {
    hide Earned, AllJustified, LastConversion, BusCalls, Pending, FlagsAgree, Ids;
  }

  lemma IdleStepKeeps(c: Config, s: State, now: int)
    requires Good(c, s) && !Busy(s)
    ensures Keeps(c, s, IdleStep(c, s, now).s, 1)
  {
    hide Good, BusCalls, Discover, StartConversion;
    ReadyStays(c, s);
    if s.discoveryRequested || s.nextDiscovery.None? || Due(now, s.nextDiscovery) {
      DiscoverKeeps(c, s, now);
    } else if (s.nextCycle.None? || Due(now, s.nextCycle)) && s.roms != [] {
      StartConversionKeeps(c, s, now);
    } else {
      PlansKeep(c, s, s.(nextCycle := Some(now + c.pollInterval)));
      PlansKeep(c, s, s);
    }
  }

  /** One step keeps all of this with at most one bus operation. */
  lemma StepKeeps(c: Config, s: State, now: int)
    requires Good(c, s)
    ensures Keeps(c, s, Step(c, s, now).s, 1)
  {
    hide Earned, AllJustified, LastConversion, BusCalls, Pending, TrustAgrees, FlagsAgree, Ids, IdleStep, StartConversion, ReadOne;
    if s.mode != Closed && s.mode != Faulted && (s.lastPoll.Some? ==> s.lastPoll.value < now) {
      var t := s.(lastPoll := Some(now));
      StampKeeps(c, s, now);
      if s.mode == WaitConversion && Due(now, s.conversionDue) {
        ReadOneKeeps(c, t.(mode := Reading), now);
      } else if s.mode == Reading {
        ReadOneKeeps(c, t, now);
      } else if s.mode == ConversionReady {
        PlansKeep(c, t, t.(mode := Idle));
        IdleStepKeeps(c, t.(mode := Idle), now);
        StartConversionKeeps(c, t, now);
      } else if s.mode == Idle {
        IdleStepKeeps(c, t, now);
      }
    }
  }

  lemma ResetKeeps(c: Config, s: State)
    requires Good(c, s)
    ensures Keeps(c, s, ResetFault(s), 0)
  {
    hide Earned, AllJustified, LastConversion, BusCalls, Pending, FlagsAgree, Distrusted, Ids;
    Extended(c, s.trace, FaultReset);
    NobodyAgrees(s.devices, ScanError, false);
  }

  lemma DeinitKeeps(c: Config, s: State)
    requires Good(c, s)
    ensures Keeps(c, s, Deinit(s).s, 0)
  {
    hide Earned, AllJustified, LastConversion, BusCalls, Pending, FlagsAgree, Ids;
  }

  // ---------------------------------------------------------------- runs

  datatype Input = Tick(now: int) | Request | Reset | Close

  function Apply(c: Config, s: State, i: Input): (t: State)
    requires Good(c, s)
    ensures Keeps(c, s, t, 1)
  {
    match i
    case Tick(now) => StepKeeps(c, s, now); Step(c, s, now).s
    case Request => PlansOnly(c, s); RequestDiscovery(s)
    case Reset => ResetKeeps(c, s); ResetFault(s)
    case Close => DeinitKeeps(c, s); Deinit(s).s
  }

  lemma PlansOnly(c: Config, s: State)
    requires Good(c, s)
    ensures Keeps(c, s, RequestDiscovery(s), 0)
  {
    hide Earned, AllJustified, LastConversion, BusCalls, Pending, FlagsAgree, Ids;
  }

  function Play(c: Config, s: State, inputs: seq<Input>): (t: State)
    requires Good(c, s)
    ensures Good(c, t)
    decreases |inputs|
  {
    if inputs == [] then s else Play(c, Apply(c, s, inputs[0]), inputs[1..])
  }

  lemma InitialIsGood(c: Config, script: seq<Result>)
    ensures Good(c, Initial(script))
  {
  }

  /** The adapter after a run, whatever the bus and the manager answer. */
  function Run(c: Config, script: seq<Result>, inputs: seq<Input>): (s: State)
    ensures Good(c, s)
  {
    InitialIsGood(c, script);
    Play(c, Initial(script), inputs)
  }

  /** At the end of any run, the trusted sensors are those that have earned it, and their flags say the same. */
  lemma TrustIsEarned(c: Config, script: seq<Result>, inputs: seq<Input>, id: string)
    ensures
      var s := Run(c, script, inputs);
      && (id in s.trusted <==> Earned(s.trace, id))
      && (id in s.trusted <==> id in s.devices && s.devices[id].trusted)
  {
    hide Run, Earned, AllJustified;
  }

  lemma {:induction false} JustifiedAt(c: Config, trace: seq<Event>, k: nat)
    requires AllJustified(c, trace) && k < |trace|
    ensures Justified(c, trace[..k], trace[k])
    decreases |trace|
  {
    if k < |trace| - 1 {
      var before := trace[..|trace| - 1];
      JustifiedAt(c, before, k);
      assert before[..k] == trace[..k];
    }
  }

  /** A value passed on as valid was read from that sensor just before, lies in the sensor's range, is stamped with the end
      of the conversion it came from, and if it is 85 degrees the sensor had earned trust by then. */
  lemma ValidIsRead(c: Config, script: seq<Result>, inputs: seq<Input>, k: nat)
    requires k < |Run(c, script, inputs).trace| && Run(c, script, inputs).trace[k].RecordValid?
    ensures
      var trace := Run(c, script, inputs).trace;
      var e := trace[k];
      && k > 0 && trace[k - 1] == ReadValue(e.id, e.value) && MINIMUM <= e.value <= MAXIMUM
      && (e.value == POWER_ON ==> Earned(trace[..k], e.id))
      && LastConversion(trace[..k]).Some? && e.sample == LastConversion(trace[..k]).value + c.conversionWait
  {
    hide Run, Earned, LastConversion, TrustAgrees;
    var trace := Run(c, script, inputs).trace;
    JustifiedAt(c, trace, k);
    assert k > 0 ==> trace[..k][|trace[..k]| - 1] == trace[k - 1];
  }

  /** And every valid reading is passed on at once: as valid, except exactly for an 85 that has not been earned. */
  lemma ReadingIsJudged(c: Config, script: seq<Result>, inputs: seq<Input>, k: nat)
    requires k < |Run(c, script, inputs).trace| && Run(c, script, inputs).trace[k].ReadValue?
    ensures
      var trace := Run(c, script, inputs).trace;
      var e := trace[k];
      k + 1 < |trace| &&
      (if e.value == POWER_ON && !Earned(trace[..k], e.id) then
         trace[k + 1].RecordFailure? && trace[k + 1].id == e.id && trace[k + 1].reason == PowerOn85
       else trace[k + 1].RecordValid? && trace[k + 1].id == e.id && trace[k + 1].value == e.value)
  {
    hide Run, Earned, LastConversion, TrustAgrees, AllJustified;
    var trace := Run(c, script, inputs).trace;
    if k + 1 < |trace| {
      JustifiedAt(c, trace, k + 1);
      Extended(c, trace[..k], trace[k]);
      assert trace[..k + 1] == trace[..k] + [trace[k]];
    }
  }

  /** A sensor is read no earlier than the conversion wait after the conversion was started. */
  lemma ReadAfterConversion(c: Config, script: seq<Result>, inputs: seq<Input>, k: nat)
    requires k < |Run(c, script, inputs).trace|
    requires Run(c, script, inputs).trace[k].Bus? && Run(c, script, inputs).trace[k].op.Read?
    ensures var trace := Run(c, script, inputs).trace; AfterConversion(c, trace[..k], trace[k].now)
  {
    hide Run, Earned, LastConversion, TrustAgrees, AllJustified, Pending;
    JustifiedAt(c, Run(c, script, inputs).trace, k);
  }
}
