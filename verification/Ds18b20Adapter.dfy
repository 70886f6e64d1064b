/** The DS18B20 adapter object (adapters/ds18b20_adapter.py): its cycle, its devices and its set of trusted sensors,
    changed in place. Every method makes the transition of Ds18b20Model, and every public one keeps Good. */
module Ds18b20Sampling {
  import opened Options
  import opened DallasRom
  import opened Ds18b20Model
  import opened Ds18b20Trust

  class DS18B20Adapter {
    const config: Config

    var mode: Mode
    var roms: seq<Rom>
    var cycle: seq<Rom>
    var readIndex: nat
    var devices: map<string, Device>
    var trusted: set<string>
    var discoveryRequested: bool
    var nextDiscovery: Option<int>
    var nextCycle: Option<int>
    var conversionDue: Option<int>
    var lastPoll: Option<int>
    var cleaned: bool
    /** What the bus and the temperature manager will answer. */
    var script: seq<Result>
    ghost var trace: seq<Event>

    ghost function View(): State
      reads this
    {
      State(mode, roms, cycle, readIndex, devices, trusted, discoveryRequested, nextDiscovery, nextCycle, conversionDue,
            lastPoll, cleaned, script, trace)
    }

    ghost predicate Valid()
      reads this
    {
      Good(config, View())
    }

    constructor (config: Config, script: seq<Result>)
      ensures this.config == config && View() == Initial(script) && Valid()
    {
      this.config, this.script, trace := config, script, [];
      mode, roms, cycle, readIndex := Idle, [], [], 0;
      devices, trusted, discoveryRequested := map[], {}, true;
      nextDiscovery, nextCycle, conversionDue, lastPoll, cleaned := None, None, None, None, false;
      new;
      InitialIsGood(config, script);
    }

    // ------------------------------------------------------------ fields that change together

    method Note(ghost e: Event)
      modifies `trace
      ensures View() == Log(old(View()), e)
    {
      trace := trace + [e];
    }

    method Answer() returns (result: Result)
      modifies `script
      ensures result == old(Head(View())) && View() == Pop(old(View()))
    {
      if script == [] { return BusFails; }
      result := script[0];
      script := script[1..];
    }

    method AskBus(ghost op: Operation, now: int) returns (result: Result)
      modifies `trace, `script
      ensures result == old(Head(View())) && View() == Ask(old(View()), op, now)
    {
      Note(Bus(op, now));
      result := Answer();
    }

    method Plan(next: Mode, cycleDue: Option<int>)
      modifies `mode, `nextCycle
      ensures View() == old(View()).(mode := next, nextCycle := cycleDue)
    {
      mode, nextCycle := next, cycleDue;
    }

    method SetCycle(sensors: seq<Rom>, position: nat, due: Option<int>)
      modifies `cycle, `readIndex, `conversionDue
      ensures View() == old(View()).(cycle := sensors, readIndex := position, conversionDue := due)
    {
      cycle, readIndex, conversionDue := sensors, position, due;
    }

    method SetDiscovery(requested: bool, due: Option<int>)
      modifies `discoveryRequested, `nextDiscovery
      ensures View() == old(View()).(discoveryRequested := requested, nextDiscovery := due)
    {
      discoveryRequested, nextDiscovery := requested, due;
    }

    method SetTrust(known: map<string, Device>, believed: set<string>)
      modifies `devices, `trusted
      ensures View() == old(View()).(devices := known, trusted := believed)
    {
      devices, trusted := known, believed;
    }

    method LatchFault() returns (outcome: Outcome)
      modifies this
      ensures Res(View(), outcome) == Failed(old(View()))
    {
      mode := Faulted;
      SetTrust(Distrusted(devices), {});
      Note(FaultLatched);
      outcome := Raised;
    }

    // ------------------------------------------------------------ the manager

    method TellFailure(id: string, sample: int, reason: Reason) returns (outcome: Outcome)
      modifies this
      ensures Res(View(), outcome) == RecordOneFailure(old(View()), id, sample, reason)
    {
      Note(RecordFailure(id, sample, reason));
      var result := Answer();
      if result == Raises {
        outcome := LatchFault();
      } else {
        outcome := Did(1);
      }
    }

    method TellGlobalFailure(now: int, reason: Reason) returns (outcome: Outcome)
      modifies this
      ensures Res(View(), outcome) == RecordGlobalFailure(old(View()), now, reason)
    {
      hide RecordOneFailure;
      var result := Answer();
      if !result.Assigned? {
        outcome := LatchFault();
        return;
      }
      var ids := result.ids;
      var i := 0;
      while i < |ids|
        invariant 0 <= i <= |ids|
        invariant RecordFailures(View(), ids[i..], now, reason) == RecordFailures(Pop(old(View())), ids, now, reason)
      {
        assert ids[i..][0] == ids[i] && ids[i..][1..] == ids[i + 1..];
        outcome := TellFailure(ids[i], now, reason);
        if outcome.Raised? { return; }
        i := i + 1;
      }
      outcome := Did(1);
    }

    method FailAndBlame(id: string, sample: int, reason: Reason) returns (outcome: Outcome)
      modifies this
      ensures Res(View(), outcome) == Blame(RecordOneFailure(old(View()), id, sample, reason), id, reason)
    {
      hide RecordOneFailure;
      outcome := TellFailure(id, sample, reason);
      if !outcome.Raised? { devices := BlameOne(devices, id, reason); }
    }

    // ------------------------------------------------------------ discovery

    method BlameAll(reason: Reason, count: bool, ghost e: Event)
      modifies this
      ensures View() == AllBlamed(old(View()), reason, count, e)
    {
      SetTrust(Blamed(devices, reason, count), {});
      Note(e);
    }

    method RejectScan(now: int) returns (outcome: Outcome)
      modifies this
      ensures Res(View(), outcome) == ScanRejected(config, old(View()), now)
    {
      hide RecordGlobalFailure, AllBlamed;
      BlameAll(ScanError, false, ScanFailed);
      outcome := TellGlobalFailure(now, ScanError);
      if outcome.Raised? { return; }
      SetDiscovery(false, Some(now + config.discoveryInterval));
      Plan(mode, Some(now + config.pollInterval));
      outcome := Did(1);
    }

    method AcceptScan(found: seq<Rom>, now: int) returns (outcome: Outcome)
      modifies this
      ensures Res(View(), outcome) == ScanAccepted(config, old(View()), found, now)
    {
      hide Kept, Distrusted;
      var result := Answer();
      if result == Raises {
        outcome := LatchFault();
        return;
      }
      var ids := Ids(found);
      SetTrust(Kept(devices, ids), trusted * ids);
      roms := found;
      SetDiscovery(false, Some(now + config.discoveryInterval));
      Note(Discovered(ids));
      if found != [] {
        Plan(ConversionReady, nextCycle);
      } else {
        Plan(Idle, Some(now + config.pollInterval));
      }
      outcome := Did(1);
    }

    method PerformDiscovery(now: int) returns (outcome: Outcome)
      modifies this
      ensures Res(View(), outcome) == Discover(config, old(View()), now)
    {
      hide ScanAccepted, ScanRejected, Normalized, Distrusted;
      var result := AskBus(Scan, now);
      if result == Raises {
        outcome := LatchFault();
        return;
      }
      var found: Option<seq<Rom>> := None;
      if result.Scanned? { found := ValidateScan(result.raws, config.maxSensors); }
      if found.None? {
        outcome := RejectScan(now);
      } else {
        outcome := AcceptScan(found.value, now);
      }
    }

    // ------------------------------------------------------------ conversion and reading

    method RejectConversion(now: int) returns (outcome: Outcome)
      modifies this
      ensures Res(View(), outcome) == ConversionRejected(config, old(View()), now)
    {
      hide RecordGlobalFailure, AllBlamed;
      BlameAll(ConversionError, true, ConversionFailed);
      outcome := TellGlobalFailure(now, ConversionError);
      if outcome.Raised? { return; }
      cycle := [];
      Plan(Idle, Some(now + config.pollInterval));
      outcome := Did(1);
    }

    method StartConversion(now: int) returns (outcome: Outcome)
      modifies this
      ensures Res(View(), outcome) == Ds18b20Model.StartConversion(config, old(View()), now)
    {
      hide ConversionRejected, Distrusted;
      cycle := roms;
      if cycle == [] {
        Plan(Idle, Some(now + config.pollInterval));
        return Did(0);
      }
      var result := AskBus(Convert, now);
      if result == Raises {
        outcome := LatchFault();
      } else if result != Fine {
        outcome := RejectConversion(now);
      } else {
        SetCycle(cycle, 0, Some(now + config.conversionWait));
        Plan(WaitConversion, Some(now + config.pollInterval));
        outcome := Did(1);
      }
    }

    method Believe(id: string, value: real, sample: int) returns (outcome: Outcome)
      modifies this
      ensures Res(View(), outcome) == Judge(old(View()), id, value, sample)
    {
      hide RecordOneFailure, Distrusted, BlameOne;
      Note(ReadValue(id, value));
      if value == POWER_ON && id !in trusted {
        outcome := FailAndBlame(id, sample, PowerOn85);
        return;
      }
      Note(RecordValid(id, value, sample));
      var result := Answer();
      if result == Raises {
        outcome := LatchFault();
        return;
      }
      SetTrust(if id in devices then
                 devices[id := devices[id].(value := Some(value), sampled := Some(sample), error := None, trusted := true)]
               else devices,
               trusted + {id});
      outcome := Did(1);
    }

    method LoseTrust(id: string, ghost e: Event)
      modifies this
      ensures View() == Log(DistrustOne(old(View()), id), e)
    {
      SetTrust(if id in devices then devices[id := devices[id].(trusted := false)] else devices, trusted - {id});
      Note(e);
    }

    method ReadFrom(id: string, sample: int, now: int) returns (outcome: Outcome)
      modifies this
      ensures Res(View(), outcome) == ReadSensor(old(View()), id, sample, now)
    {
      hide RecordOneFailure, Distrusted, Blame, Judge, DistrustOne;
      var result := AskBus(Read(id), now);
      if result == Raises {
        outcome := LatchFault();
      } else if result == BusFails {
        LoseTrust(id, ReadFailed(id));
        outcome := FailAndBlame(id, sample, ReadError);
      } else if !Plausible(result) {
        LoseTrust(id, ReadInvalid(id));
        outcome := FailAndBlame(id, sample, ValueError);
      } else {
        outcome := Believe(id, result.value, sample);
      }
    }

    method ReadNext(now: int) returns (outcome: Outcome)
      requires readIndex < |cycle| && conversionDue.Some?
      modifies this
      ensures Res(View(), outcome) == ReadOne(config, old(View()), now)
    {
      hide ReadSensor;
      outcome := ReadFrom(cycle[readIndex].id, conversionDue.value, now);
      if outcome.Raised? { return; }
      SetCycle(cycle, readIndex + 1, conversionDue);
      if readIndex >= |cycle| {
        SetCycle([], 0, None);
        Plan(Idle, if nextCycle.Some? && now >= nextCycle.value then Some(now + config.pollInterval) else nextCycle);
      }
    }

    // ------------------------------------------------------------ steps

    method StepIdle(now: int) returns (outcome: Outcome)
      modifies this
      ensures Res(View(), outcome) == IdleStep(config, old(View()), now)
    {
      hide Discover, Ds18b20Model.StartConversion;
      if discoveryRequested || nextDiscovery.None? || now >= nextDiscovery.value {
        outcome := PerformDiscovery(now);
        return;
      }
      outcome := Did(0);
      if nextCycle.None? || now >= nextCycle.value {
        if roms != [] {
          outcome := StartConversion(now);
        } else {
          Plan(mode, Some(now + config.pollInterval));
        }
      }
    }

    method StepOnce(now: int) returns (outcome: Outcome)
      requires Ready(View())
      modifies this
      ensures Res(View(), outcome) == Ds18b20Model.StepOnce(config, old(View()), now)
    {
      hide IdleStep, ReadOne, Ds18b20Model.StartConversion;
      if mode == WaitConversion {
        if now < conversionDue.value { return Did(0); }
        mode := Reading;
      }
      if mode == Reading {
        outcome := ReadNext(now);
      } else if mode == ConversionReady && !discoveryRequested {
        outcome := StartConversion(now);
      } else {
        if mode == ConversionReady { mode := Idle; }
        outcome := StepIdle(now);
      }
    }

    /** At most one bus operation, with trust kept as earned. */
    method Step(now: int) returns (outcome: Outcome)
      requires Valid()
      modifies this
      ensures Valid() && Res(View(), outcome) == Ds18b20Model.Step(config, old(View()), now)
      ensures BusCalls(trace) <= BusCalls(old(trace)) + 1
    {
      StepKeeps(config, View(), now);
      ReadyStays(config, View());
      hide Good, Ds18b20Model.StepOnce, BusCalls;
      if mode == Closed || mode == Faulted { return Did(0); }
      if lastPoll.Some? && now < lastPoll.value { return Raised; }
      if lastPoll == Some(now) { return Did(0); }
      lastPoll := Some(now);
      outcome := StepOnce(now);
    }

    method RequestDiscovery() returns (outcome: Outcome)
      requires Valid()
      modifies this
      ensures Valid() && View() == Ds18b20Model.RequestDiscovery(old(View()))
      ensures outcome == if old(mode) == Closed then Raised else Did(if old(discoveryRequested) then 0 else 1)
    {
      PlansOnly(config, View());
      hide Good;
      if mode == Closed { return Raised; }
      outcome := Did(if discoveryRequested then 0 else 1);
      discoveryRequested := true;
    }

    method ResetFault() returns (outcome: Outcome)
      requires Valid()
      modifies this
      ensures Valid() && View() == Ds18b20Model.ResetFault(old(View()))
      ensures outcome == if old(mode) == Closed then Raised else Did(if old(mode) == Faulted then 1 else 0)
    {
      ResetKeeps(config, View());
      hide Good, Distrusted;
      if mode == Closed { return Raised; }
      if mode != Faulted { return Did(0); }
      SetTrust(Distrusted(devices), {});
      SetCycle([], 0, None);
      discoveryRequested := true;
      Plan(Idle, None);
      Note(FaultReset);
      outcome := Did(1);
    }

    method Deinit() returns (outcome: Outcome)
      requires Valid()
      modifies this
      ensures Valid() && Res(View(), outcome) == Ds18b20Model.Deinit(old(View())) && mode == Closed
    {
      DeinitKeeps(config, View());
      hide Good;
      mode := Closed;
      if cleaned { return Did(1); }
      var result := Answer();
      if result != Fine { return Raised; }
      cleaned := true;
      outcome := Did(1);
    }
  }
}
