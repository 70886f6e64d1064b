/** The scheduler object (app/scheduler.py): its fields, changed in place by its methods. Each method is proved to make
    exactly the transition of SchedulerModel, and every public one to keep the ledger sound. A record handed off under a
    token is one cell that ledger, token and active occurrence all refer to. */
module SchedulerObject {
  import opened Options
  import opened SchedulerModel
  import opened SchedulerLedger
  import P = SchedulerPrediction

  predicate DistinctIds(timers: seq<Timer>) {
    forall i, j :: 0 <= i < j < |timers| ==> timers[i].id != timers[j].id
  }

  class Scheduler {
    const config: Config
    const owner: int

    var timers: seq<Timer>
    var configRevision: nat
    var epoch: nat
    var authSequence: nat
    var intentSequence: nat
    var cells: map<string, Cell>
    var handedOff: map<nat, Record>
    var highWater: Option<int>
    var restored: bool
    var activeKey: Option<Key>
    var active: Option<nat>
    var wasOverridden: bool
    var armed: bool
    var faulted: bool
    var baseline: Option<Clock>
    var fencePending: bool
    var lastStep: Option<int>

    ghost function View(): State
      reads this
    {
      State(owner, timers, configRevision, epoch, authSequence, intentSequence, cells, handedOff, highWater, restored,
            activeKey, active, wasOverridden, armed, faulted, baseline, fencePending, lastStep)
    }

    ghost predicate Valid()
      reads this
    {
      Sound(config, View())
    }

    constructor (config: Config, owner: int)
      requires ValidConfig(config)
      ensures this.config == config && View() == Fresh(owner) && Valid()
    {
      this.config, this.owner := config, owner;
      timers, configRevision, epoch, authSequence, intentSequence := [], 0, 0, 0, 0;
      cells, handedOff, highWater, restored := map[], map[], None, false;
      activeKey, active, wasOverridden := None, None, false;
      armed, faulted, baseline, fencePending, lastStep := false, false, None, false, None;
    }

    // ------------------------------------------------------------ epochs and faults

    method AdvanceEpoch()
      modifies `epoch
      ensures View() == Bump(old(View()))
    {
      epoch := epoch + 1;
    }

    method FaultNow()
      modifies `faulted, `epoch
      ensures View() == LatchFault(old(View()))
    {
      var newly := !faulted;
      faulted := true;
      if newly { AdvanceEpoch(); }
    }

    method SetBase(clock: Option<Clock>, fence: bool)
      modifies `baseline, `fencePending
      ensures View() == old(View()).(baseline := clock, fencePending := fence)
    {
      baseline, fencePending := clock, fence;
    }

    // ------------------------------------------------------------ configuration and lifecycle

    method HasDuplicateId(definitions: seq<Timer>) returns (duplicate: bool)
      ensures duplicate == exists i, j :: 0 <= i < j < |definitions| && definitions[i].id == definitions[j].id
    {
      var used: set<string> := {};
      var k := 0;
      while k < |definitions|
        invariant 0 <= k <= |definitions|
        invariant forall id :: id in used <==> exists i :: 0 <= i < k && definitions[i].id == id
        invariant forall i, j :: 0 <= i < j < k ==> definitions[i].id != definitions[j].id
      {
        if definitions[k].id in used { return true; }
        used := used + {definitions[k].id};
        k := k + 1;
      }
      return false;
    }

    /** The definitions under a new revision, and the set of their ids. */
    method Normalized(definitions: seq<Timer>, revision: nat) returns (normalized: seq<Timer>, ids: set<string>)
      ensures normalized == seq(|definitions|, i requires 0 <= i < |definitions| => WithRevision(definitions[i], revision))
      ensures ids == IdsOf(definitions)
    {
      normalized, ids := [], {};
      var k := 0;
      while k < |definitions|
        invariant 0 <= k <= |definitions| && |normalized| == k
        invariant forall i :: 0 <= i < k ==> normalized[i] == WithRevision(definitions[i], revision)
        invariant forall id :: id in ids <==> exists i :: 0 <= i < k && definitions[i].id == id
      {
        normalized := normalized + [definitions[k].(revision := revision)];
        ids := ids + {definitions[k].id};
        k := k + 1;
      }
    }

    method Replace(definitions: seq<Timer>) returns (outcome: Outcome<bool>)
      requires Valid()
      modifies this
      ensures Valid() && (View(), outcome) == ReplaceTimers(config, old(View()), definitions)
    {
      ReplaceIsSound(config, View(), definitions);
      hide Sound;
      var duplicate := HasDuplicateId(definitions);
      if |definitions| > config.maxTimers || duplicate || exists i :: 0 <= i < |definitions| && !ValidTimer(definitions[i]) { return Raised; }
      assert ValidTimers(config, definitions);
      outcome := Install(definitions);
    }

    method Install(definitions: seq<Timer>) returns (outcome: Outcome<bool>)
      requires ValidTimers(config, definitions)
      modifies this
      ensures (View(), outcome) == ReplaceTimers(config, old(View()), definitions)
    {
      hide ValidTimers, IdsOf, WithRevision;
      var normalized, ids := Normalized(definitions, configRevision + 1);
      timers := normalized;
      cells := map id | id in cells && id in ids :: cells[id];
      configRevision := configRevision + 1;
      if armed {
        fencePending := true;
        AdvanceEpoch();
      }
      return Done(true);
    }

    method ArmScheduler() returns (changed: bool)
      requires Valid()
      modifies this
      ensures Valid() && (View(), changed) == Arm(old(View()))
    {
      if armed || faulted { return false; }
      AdvanceEpoch();
      armed := true;
      SetBase(None, false);
      lastStep := None;
      return true;
    }

    method DisarmScheduler() returns (changed: bool)
      requires Valid()
      modifies this
      ensures Valid() && (View(), changed) == Disarm(old(View()))
    {
      changed := armed;
      armed, baseline := false, None;
      if changed { AdvanceEpoch(); }
    }

    method ClearFault() returns (changed: bool)
      requires Valid()
      modifies this
      ensures Valid() && (View(), changed) == ResetFault(old(View()))
    {
      if !faulted { return false; }
      AdvanceEpoch();
      faulted, baseline, lastStep := false, None, None;
      return true;
    }

    // ------------------------------------------------------------ stepping

    method DueNow(minute: int) returns (due: seq<Timer>)
      ensures due == DueTimers(View(), timers, minute)
    {
      due := [];
      var i := 0;
      while i < |timers|
        invariant 0 <= i <= |timers|
        invariant due + DueTimers(View(), timers[i..], minute) == DueTimers(View(), timers, minute)
      {
        assert timers[i..][1..] == timers[i + 1..];
        var starts := IsDue(timers[i], minute);
        if starts { due := due + [timers[i]]; }
        i := i + 1;
      }
    }

    method IsDue(t: Timer, minute: int) returns (due: bool)
      ensures due == Due(View(), t, minute)
    {
      if !t.enabled || Weekday(minute) !in t.weekdays || MinuteOfDay(minute) != t.start { return false; }
      if highWater.Some? && minute <= highWater.value { return false; }
      var prior := Lookup(t.id);
      return prior.None? || (prior.value.key != Key(t.id, minute) && minute > prior.value.key.minute);
    }

    method Lookup(id: string) returns (record: Option<Record>)
      ensures record == if Readable(View(), id) then Some(RecordAt(View(), id)) else None
    {
      if id !in cells { return None; }
      match cells[id]
      case Own(r) => return Some(r);
      case HandedOff(token) => return if token in handedOff then Some(handedOff[token]) else None;
    }

    method RaiseMark(minute: int)
      modifies `highWater
      ensures View() == old(View()).(highWater := RaisedTo(old(highWater), minute))
    {
      if highWater.None? || minute > highWater.value { highWater := Some(minute); }
    }

    /** Enters every due occurrence; all of them belong to this one minute. */
    method ConsumeAll(due: seq<Timer>, minute: int, status: Status, now: int)
      requires DistinctIds(due)
      modifies `cells, `highWater
      ensures View() == Consume(old(View()), due, minute, status, now)
    {
      cells := Entered(due, minute, status, now);
      RaiseMark(minute);
    }

    /** The ledger with a record for every due timer. */
    method Entered(due: seq<Timer>, minute: int, status: Status, now: int) returns (updated: map<string, Cell>)
      requires DistinctIds(due)
      ensures updated == Consume(View(), due, minute, status, now).cells
    {
      hide IdsOf, TimerNamed;
      NothingNamed(due[..0]);
      updated := cells;
      var k := 0;
      while k < |due|
        invariant 0 <= k <= |due|
        invariant updated.Keys == cells.Keys + IdsOf(due[..k])
        invariant forall id :: id in updated ==>
          updated[id] == if id in IdsOf(due[..k]) then Own(RecordFor(TimerNamed(due[..k], id), minute, status, now, None)) else cells[id]
      {
        ConsumeStep(due, k);
        updated := updated[due[k].id := Own(Record(Key(due[k].id, minute), due[k].revision, status, now, false, None))];
        k := k + 1;
      }
      assert due[..k] == due;
    }

    lemma NothingNamed(due: seq<Timer>)
      requires due == []
      ensures IdsOf(due) == {}
    {
    }

    lemma ConsumeStep(due: seq<Timer>, k: nat)
      requires k < |due| && DistinctIds(due)
      ensures IdsOf(due[..k + 1]) == IdsOf(due[..k]) + {due[k].id} && due[k].id !in IdsOf(due[..k])
      ensures TimerNamed(due[..k + 1], due[k].id) == due[k]
      ensures forall id :: id in IdsOf(due[..k]) ==> TimerNamed(due[..k + 1], id) == TimerNamed(due[..k], id)
    {
      forall id | id in IdsOf(due[..k + 1]) ensures id in IdsOf(due[..k]) + {due[k].id} {
        var i :| 0 <= i < k + 1 && due[..k + 1][i].id == id;
        if i < k { assert due[..k][i].id == id; }
      }
      forall id | id in IdsOf(due[..k]) + {due[k].id} ensures id in IdsOf(due[..k + 1]) {
        if id == due[k].id { assert due[..k + 1][k].id == id; } else {
          var i :| 0 <= i < k && due[..k][i].id == id;
          assert due[..k + 1][i].id == id;
        }
      }
      forall id | id in IdsOf(due[..k]) ensures TimerNamed(due[..k + 1], id) == TimerNamed(due[..k], id) {
        OnlyOneNamed(due, TimerNamed(due[..k + 1], id), TimerNamed(due[..k], id));
      }
      OnlyOneNamed(due, TimerNamed(due[..k + 1], due[k].id), due[k]);
    }

    lemma OnlyOneNamed(due: seq<Timer>, t: Timer, u: Timer)
      requires t in due && u in due && t.id == u.id && DistinctIds(due)
      ensures t == u
    {
    }

    method OpenIntent(t: Timer, clock: Clock, now: int) returns (i: Intent)
      modifies `cells, `highWater, `intentSequence
      ensures (View(), i) == CreateIntent(config, old(View()), t, clock, now)
    {
      var notAfter, token, key := now + config.intentValid, intentSequence + 1, Key(t.id, clock.minute);
      i := Intent(key, t.revision, t.params, now, notAfter, token, owner);
      var pending := Pending(notAfter, clock.trust, clock.utc, epoch, token, None, None, None, t.params);
      cells := cells[t.id := Own(Record(key, t.revision, IntentCreated, now, false, Some(pending)))];
      RaiseMark(clock.minute);
      intentSequence := token;
    }

    method FireMinute(clock: Clock, now: int, available: bool) returns (i: Option<Intent>)
      requires SoundTimers(config, timers)
      modifies `cells, `highWater, `intentSequence
      ensures (View(), i) == Fire(config, old(View()), clock, now, available)
    {
      hide DueTimers, Consume, CreateIntent;
      var due := DueNow(clock.minute);
      DueAreDistinct(View(), timers, clock.minute);
      if due == [] { return None; }
      if |due| > 1 {
        ConsumeAll(due, clock.minute, ConflictStatus, now);
        return None;
      }
      if !available || activeKey.Some? {
        ConsumeAll(due, clock.minute, SuppressedBusy, now);
        return None;
      }
      var intent := OpenIntent(due[0], clock, now);
      return Some(intent);
    }

    lemma {:induction false} DueAreDistinct(s: State, timers: seq<Timer>, minute: int)
      requires DistinctIds(timers)
      ensures DistinctIds(DueTimers(s, timers, minute))
      decreases |timers|
    {
      if timers != [] {
        var rest := timers[1..];
        DueAreDistinct(s, rest, minute);
        DueAreTimers(s, rest, minute);
        var d := DueTimers(s, rest, minute);
        forall j | 0 <= j < |d| ensures d[j].id != timers[0].id {
          assert d[j] in rest;
          var k :| 0 <= k < |rest| && rest[k] == d[j];
          assert timers[k + 1] == d[j];
        }
      }
    }

    method ObserveClock(clock: Clock, now: int, available: bool) returns (i: Option<Intent>)
      requires baseline.Some? && SoundTimers(config, timers)
      modifies this
      ensures (View(), i) == Observe(config, old(View()), clock, now, available)
    {
      hide Fire;
      var before := baseline.value;
      baseline := Some(clock);
      if clock.trust != before.trust {
        AdvanceEpoch();
        return None;
      }
      var utcDelta, localDelta := clock.utc - before.utc, clock.minute - before.minute;
      if utcDelta < 0 || utcDelta > config.maxStep || localDelta < 0 || localDelta > 1 {
        AdvanceEpoch();
        return None;
      }
      if localDelta == 0 || clock.fold == 1 { return None; }
      i := FireMinute(clock, now, available);
    }

    method StepOnce(now: int, reading: Option<Clock>, available: bool) returns (outcome: Outcome<Option<Intent>>)
      requires Valid() && (reading.Some? ==> InRange(reading.value.minute))
      modifies this
      ensures Valid() && (View(), outcome) == Step(config, old(View()), now, reading, available)
    {
      StepIsSound(config, View(), now, reading, available);
      assert SoundTimers(config, timers);
      hide Sound, Observe;
      outcome := Evaluate(now, reading, available);
    }

    method Evaluate(now: int, reading: Option<Clock>, available: bool) returns (outcome: Outcome<Option<Intent>>)
      requires SoundTimers(config, timers)
      modifies this
      ensures (View(), outcome) == Step(config, old(View()), now, reading, available)
    {
      hide Observe;
      if !armed || faulted { return Done(None); }
      if lastStep.Some? && now < lastStep.value {
        FaultNow();
        return Raised;
      }
      lastStep := Some(now);
      if reading.None? {
        if baseline.Some? { AdvanceEpoch(); }
        baseline := None;
        return Done(None);
      }
      if baseline.None? || fencePending {
        SetBase(reading, if baseline.None? then fencePending else false);
        return Done(None);
      }
      var intent := ObserveClock(reading.value, now, available);
      return Done(intent);
    }

    // ------------------------------------------------------------ the hand-off

    method FinishPending(record: Record, status: Status, now: int)
      requires record.pending.Some?
      modifies `cells
      ensures View() == Finish(old(View()), record, status, now)
    {
      var finished := record.(status := status, pending := Some(record.pending.value.(finishedAt := Some(now))));
      cells := cells[record.key.timer := Own(finished)];
    }

    method TimerMatches(record: Record) returns (same: bool)
      ensures same == TimerUnchanged(View(), record)
    {
      if record.pending.None? { return false; }
      var k := 0;
      while k < |timers|
        invariant 0 <= k <= |timers|
        invariant forall j :: 0 <= j < k ==> !(timers[j].id == record.key.timer && timers[j].enabled
                                               && timers[j].revision == record.revision && timers[j].params == record.pending.value.params)
      {
        if timers[k].id == record.key.timer && timers[k].enabled && timers[k].revision == record.revision
           && timers[k].params == record.pending.value.params { return true; }
        k := k + 1;
      }
      return false;
    }

    method HandRecord(i: Intent, record: Record, now: int) returns (authorized: Option<Authorized>)
      requires record.pending.Some?
      modifies `authSequence, `handedOff, `cells
      ensures (View(), authorized) == Hand(old(View()), i, record, now)
    {
      var token := authSequence + 1;
      var handed := record.(status := AuthorizedPending,
                            pending := Some(record.pending.value.(authorization := Some(token), authorizedAt := Some(now))));
      authSequence := token;
      handedOff := handedOff[token := handed];
      cells := cells[record.key.timer := HandedOff(token)];
      return Some(Authorized(i, token, record.pending.value.epoch, owner));
    }

    method AuthorizeIntent(i: Intent, now: int, available: bool, reading: Option<Clock>) returns (authorized: Option<Authorized>)
      requires Valid()
      modifies this
      ensures Valid() && (View(), authorized) == Authorize(old(View()), i, now, available, reading)
    {
      AuthorizeIsSound(config, View(), i, now, available, reading);
      hide Sound, Authorize;
      authorized := Decide(i, now, available, reading);
    }

    method Decide(i: Intent, now: int, available: bool, reading: Option<Clock>) returns (authorized: Option<Authorized>)
      modifies this
      ensures (View(), authorized) == Authorize(old(View()), i, now, available, reading)
    {
      hide Finish, Hand, TimerUnchanged;
      var found := Lookup(i.key.timer);
      if found.None? || found.value.key != i.key || !found.value.status.IntentCreated? || found.value.pending.None? { return None; }
      var record := found.value;
      if now < record.consumedAt || (lastStep.Some? && now < lastStep.value) { return None; }
      if now > record.pending.value.notAfter {
        FinishPending(record, Expired, now);
        return None;
      }
      var sameTimer := TimerMatches(record);
      if !armed || faulted || !available || activeKey.Some? || record.pending.value.epoch != epoch
         || !IntentMatches(Fresh(owner), i, record) || !sameTimer {
        FinishPending(record, AuthorizationRejected, now);
        return None;
      }
      if !ClockAgrees(record, reading, now) {
        AdvanceEpoch();
        baseline := None;
        FinishPending(record, AuthorizationRejected, now);
        return None;
      }
      authorized := HandRecord(i, record, now);
    }

    /** Changes the handed-off record in place: the ledger, if it still refers to it, sees the change. */
    method SettleRecord(token: nat, status: Status, now: int)
      requires token in handedOff && handedOff[token].pending.Some?
      modifies `handedOff
      ensures View() == Settle(old(View()), token, status, now)
    {
      var record := handedOff[token];
      handedOff := handedOff[token := record.(status := status, pending := Some(record.pending.value.(finishedAt := Some(now))))];
    }

    method CompleteIntent(a: Authorized, applied: bool, result: Option<Requested>, now: int) returns (completed: bool)
      requires Valid()
      modifies this
      ensures Valid() && (View(), completed) == Complete(old(View()), a, applied, result, now)
    {
      CompleteIsSound(config, View(), a, applied, result, now);
      hide Sound;
      completed := Bind(a, applied, result, now);
    }

    method Bind(a: Authorized, applied: bool, result: Option<Requested>, now: int) returns (completed: bool)
      modifies this
      ensures (View(), completed) == Complete(old(View()), a, applied, result, now)
    {
      hide Settle, RequestMatches, IntentMatches;
      if a.owner != owner || a.token !in handedOff { return false; }
      var record := handedOff[a.token];
      if record.key != a.intent.key || !record.status.AuthorizedPending? || record.pending.None?
         || record.pending.value.authorization != Some(a.token) || record.pending.value.epoch != a.epoch
         || record.pending.value.authorizedAt.None? || now < record.pending.value.authorizedAt.value
         || !IntentMatches(Fresh(owner), a.intent, record) {
        SameOwnerMatches(a.intent, record);
        return false;
      }
      SameOwnerMatches(a.intent, record);
      if result.Some? && RequestMatches(record, result.value) {
        completed := Confirm(a.token, applied, now);
      } else {
        SettleRecord(a.token, ApplicationFailed, now);
        if applied || result.None? || result.value.on { FaultNow(); }
        return false;
      }
    }

    lemma SameOwnerMatches(i: Intent, r: Record)
      ensures IntentMatches(Fresh(owner), i, r) == IntentMatches(View(), i, r)
    {
    }

    /** The requested state is confirmed: the occurrence becomes active, unless another one is. */
    method Confirm(token: nat, applied: bool, now: int) returns (completed: bool)
      requires token in handedOff && handedOff[token].pending.Some?
      modifies this
      ensures var s, key := old(View()), old(handedOff[token].key);
              if s.activeKey.Some? && s.activeKey.value != key then View() == LatchFault(Settle(s, token, ApplicationFailed, now)) && !completed
              else
                var accepted := Settle(s, token, Accepted, now).(activeKey := Some(key), active := Some(token));
                View() == (if applied then accepted else LatchFault(accepted)) && completed
    {
      hide Settle;
      var key := handedOff[token].key;
      if activeKey.Some? && activeKey.value != key {
        SettleRecord(token, ApplicationFailed, now);
        FaultNow();
        return false;
      }
      SettleRecord(token, Accepted, now);
      activeKey, active := Some(key), Some(token);
      if !applied { FaultNow(); }
      return true;
    }

    method ReleaseActive(record: Record)
      modifies `cells, `activeKey, `active
      ensures View() == Release(old(View()), record)
    {
      var current := Lookup(record.key.timer);
      if current.Some? && current.value.key == record.key { cells := cells[record.key.timer := Own(record)]; }
      activeKey, active := None, None;
    }

    /** The active record, if `key` may be released now. */
    method ActiveRecord(key: Key, now: int) returns (record: Option<Record>)
      ensures record.Some? == Releasable(View(), key, now)
      ensures record.Some? ==> record == Some(handedOff[active.value])
    {
      if active.None? || active.value !in handedOff { return None; }
      var r := handedOff[active.value];
      if r.key != key || !r.status.Accepted? || r.pending.None? || r.pending.value.finishedAt.None?
         || now < r.pending.value.finishedAt.value || (lastStep.Some? && now < lastStep.value) { return None; }
      return Some(r);
    }

    method MarkManualOverride(key: Key, now: int) returns (marked: bool)
      requires Valid()
      modifies this
      ensures Valid() && (View(), marked) == MarkOverride(old(View()), key, now)
    {
      ReleaseIsSound(config, View(), key, now);
      hide Sound, Release, Releasable;
      var record := ActiveRecord(key, now);
      if record.None? || record.value.overridden { return false; }
      ReleaseActive(record.value.(status := Overridden, overridden := true));
      wasOverridden := true;
      return true;
    }

    method MarkActiveComplete(key: Key, now: int) returns (marked: bool)
      requires Valid()
      modifies this
      ensures Valid() && (View(), marked) == MarkComplete(old(View()), key, now)
    {
      ReleaseIsSound(config, View(), key, now);
      hide Sound, Release, Releasable;
      var record := ActiveRecord(key, now);
      if record.None? { return false; }
      ReleaseActive(record.value.(status := Completed));
      return true;
    }

    // ------------------------------------------------------------ persistence and prediction

    lemma EveryCellIsReadable(c: Config, s: State)
      requires Sound(c, s)
      ensures forall id :: id in s.cells ==> Readable(s, id)
    {
    }

    ghost function LatchOf(s: State, id: string): SchedulerModel.Latch
      requires Readable(s, id)
    {
      SchedulerModel.Latch(RecordAt(s, id).key, RecordAt(s, id).overridden)
    }

    method Latches() returns (latches: map<string, SchedulerModel.Latch>)
      requires forall id :: id in cells ==> Readable(View(), id)
      ensures latches.Keys == cells.Keys && forall id :: id in latches ==> latches[id] == LatchOf(View(), id)
    {
      hide RecordAt;
      ghost var s := View();
      latches := map[];
      var left := cells.Keys;
      while left != {}
        invariant left <= s.cells.Keys && latches.Keys == s.cells.Keys - left
        invariant forall id :: id in latches ==> latches[id] == LatchOf(s, id)
        decreases |left|
      {
        var id :| id in left;
        var record := Lookup(id);
        latches := latches[id := SchedulerModel.Latch(record.value.key, record.value.overridden)];
        left := left - {id};
      }
    }

    /** The ledger as it may be made durable; a sound scheduler always has one. */
    method ExportHistory() returns (history: History)
      requires Valid()
      ensures Export(config, View()) == Some(history) && ValidHistory(config, history)
    {
      ExportNeverFails(config, View());
      EveryCellIsReadable(config, View());
      hide Sound, ValidHistory, Exportable, RecordAt;
      var latches := Latches();
      history := History(highWater, latches);
      assert latches == Export(config, View()).value.latches;
    }

    method RestoreHistory(history: History) returns (outcome: Outcome<bool>)
      requires Valid()
      modifies this
      ensures Valid() && (View(), outcome) == Restore(config, old(View()), history)
    {
      RestoreIsSound(config, View(), history);
      hide Sound;
      if armed || faulted || restored || epoch != 0 || authSequence != 0 || intentSequence != 0 || cells != map[] || highWater.Some?
         || activeKey.Some? || active.Some? || wasOverridden || baseline.Some? || fencePending || lastStep.Some? { return Raised; }
      if !ValidHistory(config, history) || exists id :: id in history.latches && id !in IdsOf(timers) { return Raised; }
      cells := map id | id in history.latches :: Own(RestoredRecord(history.latches[id]));
      highWater := history.highWater;
      restored := true;
      return Done(true);
    }

    lemma RestoreIsSound(c: Config, s: State, h: History)
      requires Sound(c, s)
      ensures Sound(c, Restore(c, s, h).0)
    {
      if NeverUsed(s) && ValidHistory(c, h) && h.latches.Keys <= IdsOf(s.timers) { RestoreThenExportIsIdentity(c, s, h); }
    }

    method NextOccurrence(clock: Clock) returns (best: Option<P.Prediction>)
      ensures best == P.Predict(View(), clock, timers)
    {
      best := P.NextOccurrence(State(owner, timers, configRevision, epoch, authSequence, intentSequence, cells, handedOff, highWater, restored,
                                     activeKey, active, wasOverridden, armed, faulted, baseline, fencePending, lastStep), clock);
    }
  }
}
