/** A run in which an older pending intent is applied after a newer one, both inside their windows: two different
    occurrences are authorized in the reverse order of their minutes. */
module SchedulerOrder {
  import opened Options
  import opened SchedulerModel
  import opened SchedulerLedger
  import opened SchedulerBoots

  const CONFIG := Config(32, 5000, 90)
  const EVERY_DAY: set<int> := {0, 1, 2, 3, 4, 5, 6}
  const PARAMS := Params("power", None, Some(3), 60)
  const EARLY := Timer("a", true, EVERY_DAY, 1, PARAMS, 0)
  const LATE := Timer("b", true, EVERY_DAY, 2, PARAMS, 0)
  const TRUST := Trust(1, 1, "UTC", "fixed", 1, 0, 0, false, "rtc")

  const FIRST := Intent(Key("a", 1), 1, PARAMS, 59000, 64000, 1, 1)
  const SECOND := Intent(Key("b", 2), 1, PARAMS, 61000, 66000, 2, 1)
  const SECOND_TOKEN := Authorized(SECOND, 1, 1, 1)

  function At(utc: int): Option<Clock> {
    Some(Clock(utc, utc / 60, 0, TRUST))
  }

  const INPUTS: seq<Input> := [
    Boot([EARLY, LATE], true),
    Direct(ArmOp),
    Direct(StepOp(0, At(59), true)),
    Direct(StepOp(59000, At(118), true)),
    Direct(StepOp(61000, At(120), true)),
    ApplyIntent(SECOND, 61000, true, At(120), Confirmed),
    Direct(CompleteOp(SECOND_TOKEN, false, Some(Requested(false, "power", None, Some(3), 60, "timer")), 61000)),
    ApplyIntent(FIRST, 62000, true, At(121), Confirmed)]

  const PENDING_FIRST := Pending(64000, TRUST, 118, 1, 1, None, None, None, PARAMS)
  const PENDING_SECOND := Pending(66000, TRUST, 120, 1, 2, None, None, None, PARAMS)
  const RECORD_FIRST := Record(Key("a", 1), 1, IntentCreated, 59000, false, Some(PENDING_FIRST))
  const RECORD_SECOND := Record(Key("b", 2), 1, IntentCreated, 61000, false, Some(PENDING_SECOND))
  const HANDED_SECOND := RECORD_SECOND.(status := AuthorizedPending, pending := Some(PENDING_SECOND.(authorization := Some(1), authorizedAt := Some(61000))))
  const FAILED_SECOND := HANDED_SECOND.(status := ApplicationFailed, pending := Some(HANDED_SECOND.pending.value.(finishedAt := Some(61000))))

  const BOOTED := Fresh(1).(timers := [WithRevision(EARLY, 1), WithRevision(LATE, 1)], configRevision := 1, restored := true)
  const ARMED := BOOTED.(epoch := 1, armed := true)
  const BASED := ARMED.(lastStep := Some(0), baseline := At(59))
  const FIRST_OPEN := BASED.(lastStep := Some(59000), baseline := At(118), cells := map["a" := Own(RECORD_FIRST)], highWater := Some(1), intentSequence := 1)
  const BOTH_OPEN := FIRST_OPEN.(lastStep := Some(61000), baseline := At(120), cells := map["a" := Own(RECORD_FIRST), "b" := Own(RECORD_SECOND)],
                                 highWater := Some(2), intentSequence := 2)
  const SECOND_HANDED := BOTH_OPEN.(authSequence := 1, handedOff := map[1 := HANDED_SECOND], cells := map["a" := Own(RECORD_FIRST), "b" := HandedOff(1)])
  const SECOND_FAILED := SECOND_HANDED.(handedOff := map[1 := FAILED_SECOND])

  lemma BootsCold()
    ensures ColdBoot(CONFIG, 1, [EARLY, LATE], true, EMPTY_HISTORY) == Some(BOOTED)
  {
    var timers := [EARLY, LATE];
    assert ValidTimers(CONFIG, timers);
    var configured := ReplaceTimers(CONFIG, Fresh(1), timers).0;
    assert configured.timers == BOOTED.timers;
    assert configured.cells == map[];
    var h := Restrict(EMPTY_HISTORY, IdsOf(timers));
    assert h.latches == map[];
    assert Restore(CONFIG, configured, h).0.cells == map[];
  }

  lemma DueAt(s: State, minute: int)
    requires s.timers == BOOTED.timers && 0 < minute < 1440
    requires AboveHighWater(s, minute)
    requires minute == 2 ==> "b" !in s.cells
    requires minute == 1 ==> s.cells == map[]
    ensures minute == 1 ==> DueTimers(s, s.timers, 1) == [s.timers[0]]
    ensures minute == 2 ==> DueTimers(s, s.timers, 2) == [s.timers[1]]
  {
    assert s.timers[1..][1..] == [];
    assert DueTimers(s, s.timers[1..][1..], minute) == [];
    assert Weekday(1) == 5 && Weekday(2) == 5;
  }

  lemma FirstIntentCreated()
    ensures Step(CONFIG, BASED, 59000, At(118), true) == (FIRST_OPEN, Done(Some(FIRST)))
  {
    var stepped := BASED.(lastStep := Some(59000), baseline := At(118));
    DueAt(stepped, 1);
  }

  lemma SecondIntentCreated()
    ensures Step(CONFIG, FIRST_OPEN, 61000, At(120), true) == (BOTH_OPEN, Done(Some(SECOND)))
  {
    var stepped := FIRST_OPEN.(lastStep := Some(61000), baseline := At(120));
    DueAt(stepped, 2);
    assert map["a" := Own(RECORD_FIRST)]["b" := Own(RECORD_SECOND)] == BOTH_OPEN.cells;
  }

  lemma SecondAuthorized()
    ensures Authorize(BOTH_OPEN, SECOND, 61000, true, At(120)) == (SECOND_HANDED, Some(SECOND_TOKEN))
  {
    assert BOTH_OPEN.timers[1].id == "b";
    assert BOTH_OPEN.cells["b" := HandedOff(1)] == SECOND_HANDED.cells;
  }

  lemma SecondNotApplied()
    ensures Complete(SECOND_HANDED, SECOND_TOKEN, false, Some(Requested(false, "power", None, Some(3), 60, "timer")), 61000) == (SECOND_FAILED, false)
  {
    assert SECOND_HANDED.handedOff[1 := FAILED_SECOND] == SECOND_FAILED.handedOff;
  }

  lemma StatesAreSound()
    ensures Sound(CONFIG, BOTH_OPEN) && Sound(CONFIG, SECOND_FAILED)
  {
    assert BOOTED.timers[0].id == "a" && BOOTED.timers[1].id == "b";
    assert "a" in IdsOf(BOOTED.timers) && "b" in IdsOf(BOOTED.timers);
  }

  lemma FirstAuthorized()
    ensures Authorize(SECOND_FAILED, FIRST, 62000, true, At(121)).1.Some?
  {
    assert SECOND_FAILED.timers[0].id == "a";
  }

  const AFTER_BOOT := System(Some(BOOTED), true, EMPTY_HISTORY, 1, None, [], [])
  const ISSUED: seq<Grant> := [Grant(1, 1, Key("a", 1)), Grant(1, 2, Key("b", 2))]

  /** The checkpoint in front of a hand-off is confirmed, and leaves the scheduler as it is. */
  lemma CheckpointConfirmed(sys: System)
    requires sys.sched.Some? && Sound(CONFIG, sys.sched.value) && Covers(sys.sched.value.highWater, sys.ledger.highWater)
    ensures Stores(CONFIG, sys, Confirmed) && Save(CONFIG, sys, Confirmed) == sys.(ledger := Export(CONFIG, sys.sched.value).value)
  {
    ExportNeverFails(CONFIG, sys.sched.value);
  }

  lemma FirstHalf()
    ensures Run(CONFIG, POWERED_OFF, INPUTS[..5]) == AFTER_BOOT.(sched := Some(BOTH_OPEN), issued := ISSUED)
  {
    hide ColdBoot, Step, Authorize;
    BootsCold();
    FirstIntentCreated();
    SecondIntentCreated();
    BaselineStep();
    var s1 := Transition(CONFIG, POWERED_OFF, INPUTS[0]);
    assert s1 == AFTER_BOOT;
    var s2 := Transition(CONFIG, s1, INPUTS[1]);
    assert s2 == AFTER_BOOT.(sched := Some(ARMED));
    var s3 := Transition(CONFIG, s2, INPUTS[2]);
    assert s3 == AFTER_BOOT.(sched := Some(BASED));
    var s4 := Transition(CONFIG, s3, INPUTS[3]);
    assert s4 == AFTER_BOOT.(sched := Some(FIRST_OPEN), issued := [ISSUED[0]]);
    var s5 := Transition(CONFIG, s4, INPUTS[4]);
    assert s5 == AFTER_BOOT.(sched := Some(BOTH_OPEN), issued := ISSUED);
    RunUnrolls(POWERED_OFF, INPUTS[0], INPUTS[1], INPUTS[2], INPUTS[3], INPUTS[4]);
    assert INPUTS[..5] == [INPUTS[0], INPUTS[1], INPUTS[2], INPUTS[3], INPUTS[4]];
  }

  lemma BaselineStep()
    ensures Step(CONFIG, ARMED, 0, At(59), true) == (BASED, Done(None))
  {
  }

  lemma RunUnrolls(s: System, a: Input, b: Input, d: Input, e: Input, f: Input)
    ensures Run(CONFIG, s, [a, b, d, e, f])
            == Transition(CONFIG, Transition(CONFIG, Transition(CONFIG, Transition(CONFIG, Transition(CONFIG, s, a), b), d), e), f)
  {
    hide Transition;
    var s1 := Transition(CONFIG, s, a);
    var s2 := Transition(CONFIG, s1, b);
    var s3 := Transition(CONFIG, s2, d);
    var s4 := Transition(CONFIG, s3, e);
    assert [f][1..] == [];
    assert [e, f][1..] == [f];
    assert [d, e, f][1..] == [e, f];
    assert [b, d, e, f][1..] == [d, e, f];
    assert [a, b, d, e, f][1..] == [b, d, e, f];
    assert Run(CONFIG, s4, [f]) == Transition(CONFIG, s4, f);
    assert Run(CONFIG, s3, [e, f]) == Run(CONFIG, s4, [f]);
    assert Run(CONFIG, s2, [d, e, f]) == Run(CONFIG, s3, [e, f]);
    assert Run(CONFIG, s1, [b, d, e, f]) == Run(CONFIG, s2, [d, e, f]);
  }

  lemma {:induction false} RunJoins(s: System, first: seq<Input>, rest: seq<Input>)
    ensures Run(CONFIG, s, first + rest) == Run(CONFIG, Run(CONFIG, s, first), rest)
    decreases |first|
  {
    if first == [] {
      assert first + rest == rest;
    } else {
      assert (first + rest)[1..] == first[1..] + rest;
      RunJoins(Transition(CONFIG, s, first[0]), first[1..], rest);
    }
  }

  lemma SecondHalf(s5: System)
    requires s5 == AFTER_BOOT.(sched := Some(BOTH_OPEN), issued := ISSUED)
    ensures Run(CONFIG, s5, INPUTS[5..]).grants == [Grant(1, 2, Key("b", 2)), Grant(1, 1, Key("a", 1))]
  {
    hide Authorize, Complete, Export, Save, Stores, Sound;
    StatesAreSound();
    CheckpointConfirmed(s5);
    SecondAuthorized();
    var s6 := Transition(CONFIG, s5, INPUTS[5]);
    assert s6.sched == Some(SECOND_HANDED) && s6.grants == [Grant(1, 2, Key("b", 2))] && s6.gate;
    SecondNotApplied();
    var s7 := Transition(CONFIG, s6, INPUTS[6]);
    assert s7.sched == Some(SECOND_FAILED) && s7.grants == s6.grants && s7.gate && s7.ledger == s6.ledger;
    LedgerAfterSecond(s5);
    CheckpointConfirmed(s7);
    FirstAuthorized();
    var s8 := Transition(CONFIG, s7, INPUTS[7]);
    assert s8.grants == s7.grants + [Grant(1, 1, Key("a", 1))];
    assert INPUTS[5..] == [INPUTS[5], INPUTS[6], INPUTS[7]];
    assert INPUTS[5..][1..] == [INPUTS[6], INPUTS[7]];
    assert [INPUTS[6], INPUTS[7]][1..] == [INPUTS[7]];
    assert [INPUTS[7]][1..] == [];
    assert Run(CONFIG, s7, [INPUTS[7]]) == Run(CONFIG, s8, []);
    assert Run(CONFIG, s6, [INPUTS[6], INPUTS[7]]) == Run(CONFIG, s7, [INPUTS[7]]);
  }

  lemma LedgerAfterSecond(s5: System)
    requires s5.sched == Some(BOTH_OPEN)
    ensures Export(CONFIG, BOTH_OPEN).Some? && Export(CONFIG, BOTH_OPEN).value.highWater == Some(2)
  {
    StatesAreSound();
    ExportNeverFails(CONFIG, BOTH_OPEN);
  }

  /** Nothing in the scheduler itself makes authorized minutes increase: the order of application does. */
  lemma OlderIntentAppliedLast()
    ensures var end := Run(CONFIG, POWERED_OFF, INPUTS);
            && (forall i :: i in INPUTS ==> Acceptable(i))
            && end.grants == [Grant(1, 2, Key("b", 2)), Grant(1, 1, Key("a", 1))]
            && !MinutesIncrease(end.grants) && KeysDistinct(end.grants)
  {
    hide Run;
    FirstHalf();
    SecondHalf(Run(CONFIG, POWERED_OFF, INPUTS[..5]));
    RunJoins(POWERED_OFF, INPUTS[..5], INPUTS[5..]);
    assert INPUTS == INPUTS[..5] + INPUTS[5..];
    var grants := Run(CONFIG, POWERED_OFF, INPUTS).grants;
    assert grants[0].key.minute == 2 && grants[1].key.minute == 1;
  }
}
