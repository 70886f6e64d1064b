/** A stop for a lost sensor that leaves no latch: one concrete run into the excepted case of
    HeaterSessions.LostSensorStopsSession. */
module HeaterUnlatched {
  import opened Options
  import opened ApplicationState
  import opened HeaterModel
  import opened HeaterSafety
  import opened HeaterTheorems
  import opened HeaterSessions
  import R = HeaterRestart
  import T = TemperatureModel

  const WARM := Requested(true, RoofTent, Some(20), None, 60, "manual")

  /** A healthy sensor, sampled 100 ms ago. */
  function Sample(at: int, generation: int): T.SensorSnapshot {
    T.SensorSnapshot(T.RoofTentSensor, Some("28ff"), Some(18.5), Some(at - 100), Some(100), None, None, T.Ok, true, Some(true), 0, generation, 1)
  }

  /** Synchronized at OFF; then a START, a STATUS that still says OFF, and after the confirmation timeout a cycle that
      finds the sensor healthy, but with a failure behind it. */
  const INPUTS: seq<Input> := R.INPUTS[..4] + [
    StartRequested(WARM, None, None),
    Stepped(220, Answer(Sample(220, 0)), true),
    Stepped(1220, Answer(Sample(1220, 0)), true),
    FrameArrived(Parsed(R.StatusFrame(0)), 1230),
    Stepped(10220, Answer(Sample(10220, 1)), true)
  ]

  const U5 := R.S4.(requested := WARM, revision := 1, history := R.S4.history + [Revised(1, WARM)])
  const U6 := U5.(nextRequestDue := Some(1220), pendingControlDue := None, activeSensor := Some(Sample(220, 0)), startSent := Some(1),
                  attempt := Some(Attempt(StartCommand, 1, 220, false, false, false, 1, ParametersOf(WARM), SpecOf(WARM))),
                  session := Some(Session(1, "manual", RoofTent, 20, 220, 3600220, 60, false, false)),
                  binding := Binding(Some("28ff"), Some(0), Some(1)), nextSessionId := 2,
                  history := U5.history + [CallStart(1, ParametersOf(WARM), 220, 3600220, true)])
  const U7 := U6.(phase := WaitStatus, nextRequestDue := Some(2220), activeSensor := Some(Sample(1220, 0)), expected := Some(StatusQuery),
                  waitStarted := Some(1220), history := U6.history + [CallStatus(1220, true)])
  const U8 := U7.(actual := Actual(Healthy, true, true, Off, Some(1230)), phase := Ready, nextRequestDue := Some(2230),
                  pendingControlDue := Some(1430), expected := None, waitStarted := None,
                  attempt := Some(Attempt(StartCommand, 1, 220, true, false, false, 1, ParametersOf(WARM), SpecOf(WARM))),
                  consecutiveValid := 2, history := U7.history + [StatusAccepted(Off, 1230, 1220)])

  lemma SampleIsCanonical(at: int, generation: int)
    requires generation >= 0
    ensures ReadActiveSensor(R.DEFAULTS, Answer(Sample(at, generation)), T.RoofTentSensor, at) == Sample(at, generation)
  {
  }

  lemma Requests()
    ensures Transition(R.DEFAULTS, R.S4, INPUTS[4]) == U5
  {
  }

  lemma Starts()
    ensures Transition(R.DEFAULTS, U5, INPUTS[5]) == U6
  {
    SampleIsCanonical(220, 0);
    hide ReadActiveSensor;
  }

  lemma AsksAgain()
    ensures Transition(R.DEFAULTS, U6, INPUTS[6]) == U7
  {
    SampleIsCanonical(1220, 0);
    hide ReadActiveSensor;
  }

  lemma HearsOff()
    ensures Transition(R.DEFAULTS, U7, INPUTS[7]) == U8
  {
    hide Transition, R.StatusFrame;
    R.HearsStatus(U7, 0, 1230);
  }

  lemma Extend(k: nat, before: State, after: State)
    requires k < |INPUTS| && Execute(R.DEFAULTS, INITIAL, INPUTS[..k]) == before && Transition(R.DEFAULTS, before, INPUTS[k]) == after
    ensures Execute(R.DEFAULTS, INITIAL, INPUTS[..k + 1]) == after
  {
    hide Execute, Transition;
    assert INPUTS[..k + 1] == INPUTS[..k] + [INPUTS[k]];
    ExecuteSplit(R.DEFAULTS, INITIAL, INPUTS[..k], INPUTS[k]);
  }

  lemma BeforeTheLastCycle()
    ensures Execute(R.DEFAULTS, INITIAL, INPUTS[..8]) == U8
  {
    hide Execute, Transition;
    R.Synchronized();
    assert INPUTS[..4] == R.INPUTS[..4];
    Requests(); Extend(4, R.S4, U5);
    Starts(); Extend(5, U5, U6);
    AsksAgain(); Extend(6, U6, U7);
    HearsOff(); Extend(7, U7, U8);
  }

  lemma LastCycle()
    requires Safe(R.DEFAULTS, U8)
    ensures CancelsStart(R.DEFAULTS, U8, 10220)
    ensures var t := Step(R.DEFAULTS, U8, 10220, Answer(Sample(10220, 1)), true).0; !t.requested.on && t.latch.None? && t.session.None?
  {
    hide Safe, Step, ReadActiveSensor;
    SampleIsCanonical(10220, 1);
    LostSensorStopsSession(R.DEFAULTS, U8, 10220, Answer(Sample(10220, 1)), true);
  }

  lemma LastStep()
    ensures Transition(R.DEFAULTS, U8, INPUTS[8]) == Step(R.DEFAULTS, U8, 10220, Answer(Sample(10220, 1)), true).0
  {
    hide Step;
  }

  /** The sensor looks healthy, its failure generation has grown, and the cycle withdraws the request; but the START was
      never confirmed, so the session ends in the same cycle and the stop is not latched. */
  lemma StopWithoutLatch()
    ensures
      var s := Execute(R.DEFAULTS, INITIAL, INPUTS[..8]);
      && s.session.Some? && s.requested.on && RoleOfMode(s.session.value.mode) == Some(T.RoofTentSensor)
      && s.binding.generation == Some(0) && Sample(10220, 1).health.Ok? && CancelsStart(R.DEFAULTS, s, 10220)
    ensures var t := Execute(R.DEFAULTS, INITIAL, INPUTS); !t.requested.on && t.latch.None? && t.session.None?
  {
    hide Execute, Transition, Step, Safe, CancelsStart;
    BeforeTheLastCycle();
    EveryRunIsSafe(R.DEFAULTS, INPUTS[..8]);
    LastCycle();
    LastStep();
    Extend(8, U8, Step(R.DEFAULTS, U8, 10220, Answer(Sample(10220, 1)), true).0);
    assert INPUTS[..9] == INPUTS;
  }
}
