/** The next-occurrence prediction of app/scheduler.py under a fixed UTC offset, and its agreement with what
    stepping the scheduler minute by minute does. */
module SchedulerPrediction {
  import opened Options
  import opened SchedulerModel
  import opened SchedulerLedger

  const SEARCHED_DAYS := 15

  /** The reading is the projection of its UTC second under its own fixed offset. */
  predicate Projects(clock: Clock) {
    clock.fold == 0 && clock.minute == clock.utc / 60 + clock.trust.offset && InRange(clock.minute) && InRange(clock.utc / 60)
  }

  /** A local minute that exists, locally and in UTC, within the supported century. */
  predicate Reachable(clock: Clock, minute: int) {
    InRange(minute) && InRange(minute - clock.trust.offset)
  }

  function DayStart(clock: Clock): int {
    clock.minute - MinuteOfDay(clock.minute)
  }

  function Horizon(clock: Clock): int {
    DayStart(clock) + SEARCHED_DAYS * 1440
  }

  function CandidateOn(clock: Clock, t: Timer, day: nat): int {
    DayStart(clock) + day * 1440 + t.start
  }

  /** Strictly in the future, on the calendar, and not covered by what was consumed. */
  predicate Eligible(s: State, clock: Clock, t: Timer, minute: int) {
    && minute > clock.minute && Reachable(clock, minute) && AboveHighWater(s, minute)
    && (Readable(s, t.id) ==> minute > RecordAt(s, t.id).key.minute)
  }

  /** The first eligible candidate of one timer from a day on; weekdays are counted from today's. */
  function FirstCandidate(s: State, clock: Clock, t: Timer, day: nat): Option<int>
    requires day <= SEARCHED_DAYS
    decreases SEARCHED_DAYS - day
  {
    if day == SEARCHED_DAYS then None
    else if (Weekday(clock.minute) + day) % 7 in t.weekdays && Eligible(s, clock, t, CandidateOn(clock, t, day))
    then Some(CandidateOn(clock, t, day))
    else FirstCandidate(s, clock, t, day + 1)
  }

  datatype Prediction = Prediction(key: Key, minutesFromNow: int)

  /** Whole minutes, rounded up, until the candidate's UTC second. */
  function MinutesFromNow(clock: Clock, minute: int): int {
    ((minute - clock.trust.offset) * 60 - clock.utc + 59) / 60
  }

  function PredictOne(s: State, clock: Clock, t: Timer): Option<Prediction> {
    if !t.enabled then None
    else
      match FirstCandidate(s, clock, t, 0)
      case None => None
      case Some(minute) => Some(Prediction(Key(t.id, minute), MinutesFromNow(clock, minute)))
  }

  /** The earlier of two predictions, the first one at a tie. */
  function Earlier(best: Option<Prediction>, item: Option<Prediction>): Option<Prediction> {
    if item.None? then best
    else if best.None? || item.value.minutesFromNow < best.value.minutesFromNow then item
    else best
  }

  function Predict(s: State, clock: Clock, timers: seq<Timer>): Option<Prediction>
    decreases |timers|
  {
    if timers == [] then None
    else
      var rest := timers[..|timers| - 1];
      Earlier(Predict(s, clock, rest), PredictOne(s, clock, timers[|timers| - 1]))
  }

  /** The bounded search itself: every timer, fifteen days each, the first hit of a timer ends its search. */
  method NextOccurrence(s: State, clock: Clock) returns (best: Option<Prediction>)
    ensures best == Predict(s, clock, s.timers)
  {
    hide Eligible, Weekday, MinutesFromNow, DayStart;
    best := None;
    var i := 0;
    while i < |s.timers|
      invariant 0 <= i <= |s.timers|
      invariant best == Predict(s, clock, s.timers[..i])
    {
      var timer := s.timers[i];
      assert s.timers[..i + 1][..i] == s.timers[..i];
      if timer.enabled {
        var day := 0;
        ghost var before := best;
        while day < SEARCHED_DAYS
          invariant 0 <= day <= SEARCHED_DAYS
          invariant best == before && FirstCandidate(s, clock, timer, 0) == FirstCandidate(s, clock, timer, day)
          decreases SEARCHED_DAYS - day
        {
          var candidate := DayStart(clock) + day * 1440 + timer.start;
          if (Weekday(clock.minute) + day) % 7 in timer.weekdays && Eligible(s, clock, timer, candidate) {
            var item := Prediction(Key(timer.id, candidate), MinutesFromNow(clock, candidate));
            if best.None? || item.minutesFromNow < best.value.minutesFromNow { best := Some(item); }
            break;
          }
          day := day + 1;
        }
      }
      i := i + 1;
    }
    assert s.timers[..i] == s.timers;
  }

  // ---------------------------------------------------------------- one timer

  lemma MinutesAhead(clock: Clock, minute: int)
    requires Projects(clock)
    ensures MinutesFromNow(clock, minute) == minute - clock.minute
  {
  }

  lemma CandidateDay(clock: Clock, t: Timer, day: nat)
    requires ValidTimer(t) && Projects(clock)
    ensures var m := CandidateOn(clock, t, day); Weekday(m) == (Weekday(clock.minute) + day) % 7 && MinuteOfDay(m) == t.start
  {
    var d := clock.minute / 1440;
    assert DayStart(clock) == d * 1440;
    assert CandidateOn(clock, t, day) == (d + day) * 1440 + t.start;
    assert CandidateOn(clock, t, day) / 1440 == d + day;
  }

  /** A minute on which the timer starts is its candidate of that day. */
  lemma MatchIsCandidate(clock: Clock, t: Timer, minute: int)
    requires ValidTimer(t) && Projects(clock) && Matches(t, minute) && minute >= DayStart(clock)
    ensures var day := (minute - DayStart(clock)) / 1440;
            day >= 0 && CandidateOn(clock, t, day) == minute && (Weekday(clock.minute) + day) % 7 in t.weekdays
  {
    var day: nat := (minute - DayStart(clock)) / 1440;
    var d := clock.minute / 1440;
    assert DayStart(clock) == d * 1440;
    assert minute / 1440 == d + day;
    CandidateDay(clock, t, day);
  }

  lemma EligibleIsDue(s: State, clock: Clock, t: Timer, minute: int)
    requires Matches(t, minute) && minute > clock.minute && Reachable(clock, minute)
    ensures Eligible(s, clock, t, minute) <==> Due(s, t, minute)
  {
  }

  predicate NotDueWithin(s: State, clock: Clock, t: Timer, start: int, end: int) {
    forall m :: start <= m < end && m > clock.minute && Reachable(clock, m) ==> !Due(s, t, m)
  }

  /** What the search of one timer finds is its first due minute of the searched days, and it finds one if there is one. */
  lemma {:induction false} FirstCandidateIsFirstDue(s: State, clock: Clock, t: Timer, day: nat)
    requires ValidTimer(t) && t.enabled && Projects(clock) && day <= SEARCHED_DAYS
    ensures var found := FirstCandidate(s, clock, t, day);
            && (found.Some? ==> Due(s, t, found.value) && clock.minute < found.value < Horizon(clock) && Reachable(clock, found.value))
            && NotDueWithin(s, clock, t, DayStart(clock) + day * 1440, if found.Some? then found.value else Horizon(clock))
    decreases SEARCHED_DAYS - day
  {
    if day < SEARCHED_DAYS {
      var candidate := CandidateOn(clock, t, day);
      CandidateDay(clock, t, day);
      if (Weekday(clock.minute) + day) % 7 in t.weekdays && Eligible(s, clock, t, candidate) {
        EligibleIsDue(s, clock, t, candidate);
      } else {
        FirstCandidateIsFirstDue(s, clock, t, day + 1);
      }
      forall m | DayStart(clock) + day * 1440 <= m < DayStart(clock) + (day + 1) * 1440 && m > clock.minute && Reachable(clock, m) && Due(s, t, m)
        ensures m == candidate && Eligible(s, clock, t, candidate) && (Weekday(clock.minute) + day) % 7 in t.weekdays
      {
        MatchIsCandidate(clock, t, m);
        assert (m - DayStart(clock)) / 1440 == day;
        EligibleIsDue(s, clock, t, m);
      }
    }
  }

  // ---------------------------------------------------------------- all timers

  predicate NoneDue(s: State, timers: seq<Timer>, minute: int) {
    forall t :: t in timers ==> !Due(s, t, minute)
  }

  lemma {:induction false} NoneDueIsEmpty(s: State, timers: seq<Timer>, minute: int)
    ensures DueTimers(s, timers, minute) == [] <==> NoneDue(s, timers, minute)
    decreases |timers|
  {
    if timers != [] {
      NoneDueIsEmpty(s, timers[1..], minute);
      assert timers == [timers[0]] + timers[1..];
    }
  }

  predicate QuietUntil(s: State, clock: Clock, timers: seq<Timer>, end: int) {
    forall m :: clock.minute < m < end && Reachable(clock, m) ==> NoneDue(s, timers, m)
  }

  lemma {:induction false} PredictIsFirstDue(s: State, clock: Clock, timers: seq<Timer>)
    requires Projects(clock) && forall t :: t in timers ==> ValidTimer(t)
    ensures var best := Predict(s, clock, timers);
            && (best.Some? ==>
                  && best.value.minutesFromNow == best.value.key.minute - clock.minute
                  && clock.minute < best.value.key.minute < Horizon(clock) && Reachable(clock, best.value.key.minute)
                  && !NoneDue(s, timers, best.value.key.minute))
            && QuietUntil(s, clock, timers, if best.Some? then best.value.key.minute else Horizon(clock))
    decreases |timers|
  {
    if timers != [] {
      var rest, t := timers[..|timers| - 1], timers[|timers| - 1];
      assert timers == rest + [t];
      PredictIsFirstDue(s, clock, rest);
      if t.enabled {
        FirstCandidateIsFirstDue(s, clock, t, 0);
        var found := FirstCandidate(s, clock, t, 0);
        if found.Some? { MinutesAhead(clock, found.value); }
      }
      OneMoreTimer(s, clock, rest, t);
    }
  }

  lemma OneMoreTimer(s: State, clock: Clock, rest: seq<Timer>, t: Timer)
    ensures forall m :: NoneDue(s, rest + [t], m) <==> NoneDue(s, rest, m) && !Due(s, t, m)
  {
    assert t in rest + [t];
    assert forall u :: u in rest ==> u in rest + [t];
  }

  /** The prediction is the first future minute at which a timer is due, and there is one exactly when some timer is
      due before the horizon of the search. */
  lemma PredictionIsExact(s: State, clock: Clock)
    requires Projects(clock) && forall t :: t in s.timers ==> ValidTimer(t)
    ensures var best := Predict(s, clock, s.timers);
            && (best.Some? <==> exists m :: clock.minute < m < Horizon(clock) && Reachable(clock, m) && DueTimers(s, s.timers, m) != [])
            && (best.Some? ==>
                  && best.value.minutesFromNow == best.value.key.minute - clock.minute
                  && DueTimers(s, s.timers, best.value.key.minute) != []
                  && forall m :: clock.minute < m < best.value.key.minute && Reachable(clock, m) ==> DueTimers(s, s.timers, m) == [])
  {
    hide Predict, Reachable, Due;
    PredictIsFirstDue(s, clock, s.timers);
    var best := Predict(s, clock, s.timers);
    forall m ensures DueTimers(s, s.timers, m) == [] <==> NoneDue(s, s.timers, m) { NoneDueIsEmpty(s, s.timers, m); }
    if best.Some? { assert clock.minute < best.value.key.minute < Horizon(clock) && Reachable(clock, best.value.key.minute); }
  }

  // ---------------------------------------------------------------- stepping

  datatype Tick = Tick(now: int, clock: Clock, available: bool)

  function StepOf(tick: Tick): Op {
    StepOp(tick.now, Some(tick.clock), tick.available)
  }

  function StepsOf(walk: seq<Tick>): seq<Op> {
    seq(|walk|, i requires 0 <= i < |walk| => StepOf(walk[i]))
  }

  /** One step a minute under an undisturbed clock, ticks never going back. */
  predicate Walk(c: Config, from: Clock, last: Option<int>, walk: seq<Tick>)
    decreases |walk|
  {
    walk == []
    || (&& walk[0].clock.trust == from.trust && walk[0].clock.minute == from.minute + 1 && walk[0].clock.fold == 0
        && 0 <= walk[0].clock.utc - from.utc <= c.maxStep && (last.Some? ==> walk[0].now >= last.value)
        && Walk(c, walk[0].clock, Some(walk[0].now), walk[1..]))
  }

  predicate Watching(s: State, clock: Clock) {
    s.armed && !s.faulted && !s.fencePending && s.baseline == Some(clock)
  }

  /** The ledger of `t` is the one of `s`: nothing was consumed in between. */
  predicate SameLedger(s: State, t: State) {
    t.timers == s.timers && t.cells == s.cells && t.handedOff == s.handedOff && t.highWater == s.highWater
  }

  lemma {:induction false} SameLedgerSameDue(s: State, t: State, timers: seq<Timer>, minute: int)
    requires SameLedger(s, t)
    ensures DueTimers(t, timers, minute) == DueTimers(s, timers, minute)
    decreases |timers|
  {
    if timers != [] {
      SameLedgerSameDue(s, t, timers[1..], minute);
      assert Due(t, timers[0], minute) == Due(s, timers[0], minute);
    }
  }

  lemma QuietStep(c: Config, s: State, clock: Clock, tick: Tick)
    requires Watching(s, clock) && Walk(c, clock, s.lastStep, [tick])
    ensures var stepped := s.(lastStep := Some(tick.now), baseline := Some(tick.clock));
            && Apply(c, s, StepOf(tick)) == Fire(c, stepped, tick.clock, tick.now, tick.available).0
            && (DueTimers(s, s.timers, tick.clock.minute) == [] ==> Apply(c, s, StepOf(tick)) == stepped)
  {
    hide Fire;
    var stepped := s.(lastStep := Some(tick.now), baseline := Some(tick.clock));
    SameLedgerSameDue(s, stepped, s.timers, tick.clock.minute);
    NothingFires(c, stepped, tick.clock, tick.now, tick.available);
  }

  lemma NothingFires(c: Config, s: State, clock: Clock, now: int, available: bool)
    ensures DueTimers(s, s.timers, clock.minute) == [] ==> Fire(c, s, clock, now, available).0 == s
    ensures DueTimers(s, s.timers, clock.minute) != [] ==>
      Fire(c, s, clock, now, available).0.highWater == RaisedTo(s.highWater, clock.minute)
  {
    hide DueTimers;
  }

  lemma {:induction false} QuietWalk(c: Config, s: State, clock: Clock, walk: seq<Tick>)
    requires Watching(s, clock) && Walk(c, clock, s.lastStep, walk)
    requires forall m :: clock.minute < m <= clock.minute + |walk| ==> DueTimers(s, s.timers, m) == []
    ensures var t := Execute(c, s, StepsOf(walk));
            && SameLedger(s, t) && (walk == [] ==> t == s)
            && (walk != [] ==> Watching(t, walk[|walk| - 1].clock) && t.lastStep == Some(walk[|walk| - 1].now)
                               && walk[|walk| - 1].clock.minute == clock.minute + |walk|)
    decreases |walk|
  {
    if walk != [] {
      hide DueTimers, Apply;
      var rest := walk[1..];
      assert Walk(c, clock, s.lastStep, [walk[0]]);
      QuietStep(c, s, clock, walk[0]);
      var t := Apply(c, s, StepOf(walk[0]));
      assert StepsOf(walk)[1..] == StepsOf(rest);
      forall m | walk[0].clock.minute < m <= walk[0].clock.minute + |rest| ensures DueTimers(t, t.timers, m) == [] {
        SameLedgerSameDue(s, t, s.timers, m);
      }
      QuietWalk(c, t, walk[0].clock, rest);
    }
  }

  lemma {:induction false} ExecuteAppends(c: Config, s: State, ops: seq<Op>, op: Op)
    ensures Execute(c, s, ops + [op]) == Apply(c, Execute(c, s, ops), op)
    decreases |ops|
  {
    hide Apply;
    if ops == [] {
      assert ops + [op] == [op] && [op][1..] == [];
    } else {
      assert (ops + [op])[1..] == ops[1..] + [op];
      ExecuteAppends(c, Apply(c, s, ops[0]), ops[1..], op);
    }
  }

  lemma {:induction false} WalkSplits(c: Config, from: Clock, last: Option<int>, walk: seq<Tick>)
    requires Walk(c, from, last, walk) && walk != []
    ensures var front, end := walk[..|walk| - 1], walk[|walk| - 1];
            && Walk(c, from, last, front)
            && Walk(c, if front == [] then from else front[|front| - 1].clock, if front == [] then last else Some(front[|front| - 1].now), [end])
    decreases |walk|
  {
    if |walk| > 1 {
      WalkSplits(c, walk[0].clock, Some(walk[0].now), walk[1..]);
      assert walk[..|walk| - 1][1..] == walk[1..][..|walk| - 2];
    } else {
      assert walk[..0] == [] && [walk[0]] == walk;
    }
  }

  /** Stepped once a minute under an undisturbed clock, the scheduler consumes nothing before the predicted minute, and
      something at it. */
  lemma PredictedMinuteFires(c: Config, s: State, clock: Clock, walk: seq<Tick>)
    requires Projects(clock) && Watching(s, clock) && (forall t :: t in s.timers ==> ValidTimer(t))
    requires Predict(s, clock, s.timers).Some? && |walk| == Predict(s, clock, s.timers).value.minutesFromNow
    requires Walk(c, clock, s.lastStep, walk)
    ensures walk != [] && SameLedger(s, Execute(c, s, StepsOf(walk[..|walk| - 1])))
    ensures Execute(c, s, StepsOf(walk)).highWater == Some(Predict(s, clock, s.timers).value.key.minute)
    ensures s.highWater.Some? ==> s.highWater.value < Predict(s, clock, s.timers).value.key.minute
  {
    hide DueTimers, Apply, Predict, Due;
    PredictionIsExact(s, clock);
    PredictionReaches(s, clock);
    var minute := Predict(s, clock, s.timers).value.key.minute;
    var front, end := walk[..|walk| - 1], walk[|walk| - 1];
    WalkSplits(c, clock, s.lastStep, walk);
    AllReachable(clock, minute);
    QuietWalk(c, s, clock, front);
    var t := Execute(c, s, StepsOf(front));
    assert StepsOf(walk) == StepsOf(front) + [StepOf(end)];
    ExecuteAppends(c, s, StepsOf(front), StepOf(end));
    var before := if front == [] then clock else front[|front| - 1].clock;
    QuietStep(c, t, before, end);
    var stepped := t.(lastStep := Some(end.now), baseline := Some(end.clock));
    SameLedgerSameDue(s, stepped, s.timers, minute);
    NothingFires(c, stepped, end.clock, end.now, end.available);
    DueIsAboveMark(s, minute);
  }

  lemma PredictionReaches(s: State, clock: Clock)
    requires Projects(clock) && (forall t :: t in s.timers ==> ValidTimer(t)) && Predict(s, clock, s.timers).Some?
    ensures var m := Predict(s, clock, s.timers).value.key.minute; clock.minute < m && Reachable(clock, m)
  {
    hide Predict;
    PredictIsFirstDue(s, clock, s.timers);
  }

  lemma AllReachable(clock: Clock, end: int)
    requires Projects(clock) && Reachable(clock, end)
    ensures forall m :: clock.minute < m < end ==> Reachable(clock, m)
  {
  }

  lemma DueIsAboveMark(s: State, minute: int)
    requires DueTimers(s, s.timers, minute) != []
    ensures AboveHighWater(s, minute)
  {
    DueAreTimers(s, s.timers, minute);
    assert DueTimers(s, s.timers, minute)[0] in DueTimers(s, s.timers, minute);
  }

  /** A mark that a wrong clock left beyond the searched days hides every occurrence. */
  lemma MarkBeyondHorizonHidesAll(s: State, clock: Clock)
    requires Projects(clock) && (forall t :: t in s.timers ==> ValidTimer(t))
    requires s.highWater.Some? && s.highWater.value >= Horizon(clock) - 1
    ensures Predict(s, clock, s.timers).None?
  {
    hide Predict, Reachable, Horizon;
    PredictionIsExact(s, clock);
    forall m | clock.minute < m < Horizon(clock) ensures DueTimers(s, s.timers, m) == [] { NoneDueIsEmpty(s, s.timers, m); }
  }

  /** Then the prediction is wrong: nothing is predicted although a daily timer falls due again right after the mark. */
  lemma HiddenOccurrenceIsDue(s: State, clock: Clock, t: Timer)
    requires Projects(clock) && s.timers == [t] && ValidTimer(t) && t.enabled && (forall d :: 0 <= d < 7 ==> d in t.weekdays)
    requires s.cells == map[] && s.highWater == Some(Horizon(clock) - 1)
    ensures Predict(s, clock, s.timers).None?
    ensures DueTimers(s, s.timers, Horizon(clock) + t.start) == [t]
  {
    hide Predict;
    MarkBeyondHorizonHidesAll(s, clock);
    CandidateDay(clock, t, SEARCHED_DAYS);
    assert Due(s, t, Horizon(clock) + t.start);
    assert s.timers[1..] == [];
  }
}
