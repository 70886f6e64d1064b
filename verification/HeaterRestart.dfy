/** A START generation beyond the first does not need a new request or an authorised fault retry: adjusting
    a running session is a newer revision too, and an OFF status that follows one of unknown state is not
    taken for an unexpected stop. One concrete run shows it. */
module HeaterRestart {
  import opened Options
  import opened ApplicationState
  import opened HeaterModel
  import opened HeaterMonitor
  import opened HeaterTheorems
  import T = TemperatureModel

  const DEFAULTS := Config(1000, 10000, 200, 10000, 2, 120, 300000, 3, T.Thresholds(30000, 300000, -55.0, 125.0))

  function InitFrame(): Frame {
    var raw := [FRAME_START, DEVICE_HEATER, 5, 0, CMD_INIT, 0, 0, 0, 0, 0, 0, 0];
    Frame(raw, DEVICE_HEATER, 5, 0, CMD_INIT, [0, 0, 0, 0, 0], true, 0, 0, None)
  }

  /** A consistent STATUS frame reporting the raw heater state `state`. */
  function StatusFrame(state: int): Frame {
    var raw := [FRAME_START, DEVICE_HEATER, 19, 0, CMD_STATUS] + StatusPayload(state) + [0, 0];
    Frame(raw, DEVICE_HEATER, 19, 0, CMD_STATUS, StatusPayload(state), true, 0, 0, Some(StatusFields(12.0, 0, state, 0)))
  }

  function StatusPayload(state: int): seq<int> {
    [0, 0, 0, 0, 0, 0, 120, 0, 0, state, 0, 0, 0, 0, 0, 0, 0, 0, 0]
  }

  lemma FramesAreConsistent(state: int)
    ensures KnownFrameIsConsistent(InitFrame(), CMD_INIT, INIT_PAYLOAD_LENGTH)
    ensures StatusIsConsistent(StatusFrame(state))
  {
    assert InitFrame().raw[5..10] == [0, 0, 0, 0, 0];
    assert StatusFrame(state).raw[5..24] == StatusPayload(state);
  }

  const WANTED := Requested(true, Power, None, Some(5), 60, "manual")
  const EXTENDED := WANTED.(runtime := 75)
  const SESSION := Session(1, "manual", Power, 5, 220, 3600220, 60, false, false)
  const START_AT_220 := Attempt(StartCommand, 1, 220, false, false, false, 1, ParametersOf(WANTED), SpecOf(WANTED))

  /** The inputs: power on to a confirmed session, then its extension, one unknown and one OFF status. */
  const INPUTS: seq<Input> := [
    Stepped(0, Unread, true),
    FrameArrived(Parsed(InitFrame()), 10),
    Stepped(10, Unread, true),
    FrameArrived(Parsed(StatusFrame(0)), 20),
    StartRequested(WANTED, None, None),
    Stepped(220, Unread, true),
    Stepped(1220, Unread, true),
    FrameArrived(Parsed(StatusFrame(4)), 1230),
    SessionUpdated(1, None, 15, 1300),
    Stepped(2230, Unread, true),
    FrameArrived(Parsed(StatusFrame(2)), 2240),
    Stepped(3240, Unread, true),
    FrameArrived(Parsed(StatusFrame(0)), 3250),
    Stepped(3450, Unread, true)
  ]

  const HISTORY: seq<Event> := [
    CallInit(0, true), CallStatus(10, true), StatusAccepted(Off, 20, 10), Revised(1, WANTED),
    CallStart(1, ParametersOf(WANTED), 220, 3600220, true),
    CallStatus(1220, true), StatusAccepted(Running, 1230, 1220), Revised(2, EXTENDED),
    CallStatus(2230, true), StatusAccepted(Unknown, 2240, 2230),
    CallStatus(3240, true), StatusAccepted(Off, 3250, 3240),
    CallStart(2, ParametersOf(EXTENDED), 3450, 4500220, true)]

  // The state after each input.
  const S1 := INITIAL.(phase := WaitInit, nextRequestDue := Some(1000), expected := Some(InitQuery), waitStarted := Some(0), history := HISTORY[..1])
  const S2 := S1.(actual := Actual(Healthy, true, false, Unknown, None), phase := WaitStatus, nextRequestDue := Some(10), expected := None, waitStarted := None)
  const S3 := S2.(nextRequestDue := Some(1010), expected := Some(StatusQuery), waitStarted := Some(10), history := HISTORY[..2])
  const S4 := S3.(actual := Actual(Healthy, true, true, Off, Some(20)), phase := Ready, nextRequestDue := Some(1020), pendingControlDue := Some(220),
                  expected := None, waitStarted := None, consecutiveValid := 1, history := HISTORY[..3])
  const S5 := S4.(requested := WANTED, revision := 1, history := HISTORY[..4])
  const S6 := S5.(nextRequestDue := Some(1220), pendingControlDue := None, attempt := Some(START_AT_220), startSent := Some(1),
                  session := Some(SESSION), nextSessionId := 2, history := HISTORY[..5])
  const S7 := S6.(phase := WaitStatus, nextRequestDue := Some(2220), expected := Some(StatusQuery), waitStarted := Some(1220), history := HISTORY[..6])
  const S8 := S7.(actual := Actual(Healthy, true, true, Running, Some(1230)), phase := Ready, nextRequestDue := Some(2230), pendingControlDue := Some(1430),
                  expected := None, waitStarted := None, attempt := None, session := Some(SESSION.(confirmed := true)),
                  consecutiveValid := 2, history := HISTORY[..7])
  const S9 := S8.(requested := EXTENDED, revision := 2, session := Some(SESSION.(confirmed := true, expires := 4500220, runtime := 75)), history := HISTORY[..8])
  const S10 := S9.(phase := WaitStatus, nextRequestDue := Some(3230), pendingControlDue := None, expected := Some(StatusQuery), waitStarted := Some(2230), history := HISTORY[..9])
  const S11 := S10.(actual := Actual(Healthy, true, false, Unknown, Some(2240)), nextRequestDue := Some(3240), expected := None, waitStarted := None,
                    consecutiveValid := 3, history := HISTORY[..10])
  const S12 := S11.(nextRequestDue := Some(4240), expected := Some(StatusQuery), waitStarted := Some(3240), history := HISTORY[..11])
  const S13 := S12.(actual := Actual(Healthy, true, true, Off, Some(3250)), phase := Ready, nextRequestDue := Some(4250), pendingControlDue := Some(3450),
                    expected := None, waitStarted := None, consecutiveValid := 4, history := HISTORY[..12])

  lemma HearsStatus(s: State, raw: int, now: int)
    requires s.actual.initialized && s.expected == Some(StatusQuery) && s.waitStarted.Some? && now - s.waitStarted.value < 10000
    ensures Transition(DEFAULTS, s, FrameArrived(Parsed(StatusFrame(raw)), now)) == AcceptStatus(DEFAULTS, s, raw, now)
  {
    FramesAreConsistent(raw);
    hide AcceptStatus, StatusIsConsistent, KnownFrameIsConsistent;
  }

  lemma T1() ensures Transition(DEFAULTS, INITIAL, INPUTS[0]) == S1 {
    assert [] + [CallInit(0, true)] == HISTORY[..1];
  }
  lemma T2() ensures Transition(DEFAULTS, S1, INPUTS[1]) == S2 { FramesAreConsistent(0); }
  lemma T3() ensures Transition(DEFAULTS, S2, INPUTS[2]) == S3 { assert HISTORY[..1] + [CallStatus(10, true)] == HISTORY[..2]; }
  lemma T4() ensures Transition(DEFAULTS, S3, INPUTS[3]) == S4 { hide Transition, StatusFrame, Execute; HearsStatus(S3, 0, 20); assert HISTORY[..2] + [HISTORY[2]] == HISTORY[..3]; }
  lemma T5() ensures Transition(DEFAULTS, S4, INPUTS[4]) == S5 { assert HISTORY[..3] + [HISTORY[3]] == HISTORY[..4]; }
  lemma StartIsDue()
    ensures Settle(DEFAULTS, S5, 220, Unread) == S5
  {
    hide StatusFrame, InitFrame, Execute;
  }
  lemma T6() ensures Transition(DEFAULTS, S5, INPUTS[5]) == S6 { hide StatusFrame, InitFrame, Execute, Settle; StartIsDue(); assert HISTORY[..4] + [HISTORY[4]] == HISTORY[..5]; }
  lemma T7() ensures Transition(DEFAULTS, S6, INPUTS[6]) == S7 { assert HISTORY[..5] + [HISTORY[5]] == HISTORY[..6]; }
  lemma T8() ensures Transition(DEFAULTS, S7, INPUTS[7]) == S8 { hide Transition, StatusFrame, Execute; HearsStatus(S7, 4, 1230); assert HISTORY[..6] + [HISTORY[6]] == HISTORY[..7]; }
  lemma T9() ensures Transition(DEFAULTS, S8, INPUTS[8]) == S9 { assert HISTORY[..7] + [HISTORY[7]] == HISTORY[..8]; }
  lemma T10() ensures Transition(DEFAULTS, S9, INPUTS[9]) == S10 { assert HISTORY[..8] + [HISTORY[8]] == HISTORY[..9]; }
  lemma T11() ensures Transition(DEFAULTS, S10, INPUTS[10]) == S11 { FramesAreConsistent(2); assert HISTORY[..9] + [HISTORY[9]] == HISTORY[..10]; }
  lemma T12() ensures Transition(DEFAULTS, S11, INPUTS[11]) == S12 { assert HISTORY[..10] + [HISTORY[10]] == HISTORY[..11]; }
  lemma OffIsAccepted()
    ensures AcceptStatus(DEFAULTS, S12, 0, 3250) == S13
  {
    hide StatusFrame, InitFrame, Execute;
    assert HISTORY[..11] + [HISTORY[11]] == HISTORY[..12];
  }
  lemma T13() ensures Transition(DEFAULTS, S12, INPUTS[12]) == S13 { hide Transition, StatusFrame, InitFrame, Execute, AcceptStatus; HearsStatus(S12, 0, 3250); OffIsAccepted(); }
  lemma T14() ensures Transition(DEFAULTS, S13, INPUTS[13]).history == HISTORY { assert HISTORY[..12] + [HISTORY[12]] == HISTORY; }

  lemma Extend(k: nat, before: State, after: State)
    requires k < |INPUTS| && Execute(DEFAULTS, INITIAL, INPUTS[..k]) == before && Transition(DEFAULTS, before, INPUTS[k]) == after
    ensures Execute(DEFAULTS, INITIAL, INPUTS[..k + 1]) == after
  {
    hide Execute, Transition;
    assert INPUTS[..k + 1] == INPUTS[..k] + [INPUTS[k]];
    ExecuteSplit(DEFAULTS, INITIAL, INPUTS[..k], INPUTS[k]);
  }

  lemma Synchronized()
    ensures Execute(DEFAULTS, INITIAL, INPUTS[..4]) == S4
  {
    T1(); Extend(0, INITIAL, S1);
    T2(); Extend(1, S1, S2);
    T3(); Extend(2, S2, S3);
    T4(); Extend(3, S3, S4);
  }

  lemma FirstHalf()
    ensures Execute(DEFAULTS, INITIAL, INPUTS[..7]) == S7
  {
    Synchronized();
    T5(); Extend(4, S4, S5);
    T6(); Extend(5, S5, S6);
    T7(); Extend(6, S6, S7);
  }

  lemma SecondHalf()
    ensures Execute(DEFAULTS, INITIAL, INPUTS[..13]) == S13
  {
    FirstHalf();
    T8(); Extend(7, S7, S8);
    T9(); Extend(8, S8, S9);
    T10(); Extend(9, S9, S10);
    T11(); Extend(10, S10, S11);
    T12(); Extend(11, S11, S12);
    T13(); Extend(12, S12, S13);
  }

  lemma OneRequestNoRetry()
    ensures forall i :: 0 <= i < |INPUTS| && INPUTS[i].StartRequested? ==> i == 4
    ensures forall i :: 0 <= i < |INPUTS| ==> !INPUTS[i].FaultRetried?
  {
  }

  lemma RunWrites()
    ensures Execute(DEFAULTS, INITIAL, INPUTS).history == HISTORY
  {
    SecondHalf();
    var last := Transition(DEFAULTS, S13, INPUTS[13]);
    Extend(13, S13, last);
    assert INPUTS[..14] == INPUTS;
    T14();
  }

  /** One start request and no fault retry, and yet two START generations reach the port: the second
      belongs to the revision the session extension made. */
  lemma ExtendedSessionRestarts()
    ensures Execute(DEFAULTS, INITIAL, INPUTS).history == HISTORY
    ensures HISTORY[4].CallStart? && HISTORY[4].revision == 1 && HISTORY[12].CallStart? && HISTORY[12].revision == 2
    ensures forall i :: 0 <= i < |INPUTS| && INPUTS[i].StartRequested? ==> i == 4
    ensures forall i :: 0 <= i < |INPUTS| ==> !INPUTS[i].FaultRetried?
  {
    RunWrites();
    OneRequestNoRetry();
  }
}
