/** The weekly timer scheduler (app/scheduler.py) as a value: its ledger of consumed occurrences, its
    authorization epochs, and the transition each of its methods makes. A civil date and time of day is one
    local minute number, counted from the first minute of the year 2000. */
module SchedulerModel {
  import opened Options

  datatype Params = Params(mode: string, target: Option<int>, power: Option<int>, runtime: int)

  datatype Timer = Timer(id: string, enabled: bool, weekdays: set<int>, start: int, params: Params, revision: nat)

  /** The occurrence of one timer at one local minute. */
  datatype Key = Key(timer: string, minute: int)

  /** Everything about a clock reading whose change is a fence. */
  datatype Trust = Trust(
    clockRevision: int, timezoneRevision: int, timezone: string, rule: string, ruleVersion: int,
    standardOffset: int, offset: int, isDst: bool, source: string)

  /** A canonical reading: UTC seconds, the local minute they fall into, and whether it is the repeated hour. */
  datatype Clock = Clock(utc: int, minute: int, fold: int, trust: Trust)

  datatype Status =
    | RestoredConsumed | ConflictStatus | SuppressedBusy | IntentCreated | Expired | AuthorizationRejected
    | AuthorizedPending | Accepted | ApplicationFailed | Completed | Overridden

  /** What an occurrence that became an intent carries for its authorization. */
  datatype Pending = Pending(
    notAfter: int, trust: Trust, createdUtc: int, epoch: nat, intentToken: nat,
    authorization: Option<nat>, authorizedAt: Option<int>, finishedAt: Option<int>, params: Params)

  datatype Record = Record(
    key: Key, revision: nat, status: Status, consumedAt: int, overridden: bool, pending: Option<Pending>)

  /** A slot of the ledger: its own record, or a reference to a record handed off under an authorization token. */
  datatype Cell = Own(record: Record) | HandedOff(token: nat)

  datatype Intent = Intent(key: Key, revision: nat, params: Params, createdAt: int, notAfter: int, token: nat, owner: int)

  datatype Authorized = Authorized(intent: Intent, token: nat, epoch: nat, owner: int)

  datatype Config = Config(maxTimers: nat, intentValid: int, maxStep: int)

  predicate ValidConfig(c: Config) {
    0 < c.maxTimers <= 32 && 0 < c.intentValid <= 60000 && 0 < c.maxStep
  }

  datatype State = State(
    owner: int, timers: seq<Timer>, configRevision: nat, epoch: nat, authSequence: nat, intentSequence: nat,
    cells: map<string, Cell>, handedOff: map<nat, Record>, highWater: Option<int>, restored: bool,
    activeKey: Option<Key>, active: Option<nat>, wasOverridden: bool,
    armed: bool, faulted: bool, baseline: Option<Clock>, fencePending: bool, lastStep: Option<int>)

  const MAX_MINUTE := 52595999

  function Fresh(owner: int): State {
    State(owner, [], 0, 0, 0, 0, map[], map[], None, false, None, None, false, false, false, None, false, None)
  }

  datatype Outcome<T> = Done(value: T) | Raised

  function Weekday(minute: int): int {
    (minute / 1440 + 5) % 7
  }

  function MinuteOfDay(minute: int): int {
    minute % 1440
  }

  // ---------------------------------------------------------------- configuration and lifecycle

  predicate ValidTimer(t: Timer) {
    t.weekdays != {} && 0 <= t.start < 1440 && forall d :: d in t.weekdays ==> 0 <= d < 7
  }

  predicate ValidTimers(c: Config, timers: seq<Timer>) {
    && |timers| <= c.maxTimers
    && (forall i, j :: 0 <= i < j < |timers| ==> timers[i].id != timers[j].id)
    && (forall i :: 0 <= i < |timers| ==> ValidTimer(timers[i]))
  }

  function IdsOf(timers: seq<Timer>): set<string> {
    set i | 0 <= i < |timers| :: timers[i].id
  }

  function Bump(s: State): State {
    s.(epoch := s.epoch + 1)
  }

  function LatchFault(s: State): State {
    if s.faulted then s else Bump(s.(faulted := true))
  }

  function WithRevision(t: Timer, revision: nat): Timer {
    t.(revision := revision)
  }

  /** All definitions at once or none; an armed scheduler is fenced until its next step. */
  function ReplaceTimers(c: Config, s: State, definitions: seq<Timer>): (State, Outcome<bool>) {
    if !ValidTimers(c, definitions) then (s, Raised)
    else
      var revision := s.configRevision + 1;
      var replaced := s.(
        timers := seq(|definitions|, i requires 0 <= i < |definitions| => WithRevision(definitions[i], revision)),
        cells := map id | id in s.cells && id in IdsOf(definitions) :: s.cells[id],
        configRevision := revision);
      (if s.armed then Bump(replaced.(fencePending := true)) else replaced, Done(true))
  }

  function Arm(s: State): (State, bool) {
    if s.armed || s.faulted then (s, false)
    else (Bump(s).(armed := true, baseline := None, fencePending := false, lastStep := None), true)
  }

  function Disarm(s: State): (State, bool) {
    var d := s.(armed := false, baseline := None);
    if s.armed then (Bump(d), true) else (d, false)
  }

  function ResetFault(s: State): (State, bool) {
    if !s.faulted then (s, false) else (Bump(s).(faulted := false, baseline := None, lastStep := None), true)
  }

  // ---------------------------------------------------------------- the ledger

  predicate Readable(s: State, id: string) {
    id in s.cells && (s.cells[id].HandedOff? ==> s.cells[id].token in s.handedOff)
  }

  /** The record a ledger slot stands for. */
  function RecordAt(s: State, id: string): Record
    requires Readable(s, id)
  {
    match s.cells[id]
    case Own(record) => record
    case HandedOff(token) => s.handedOff[token]
  }

  function Find(s: State, key: Key): Option<Record> {
    if Readable(s, key.timer) && RecordAt(s, key.timer).key == key then Some(RecordAt(s, key.timer)) else None
  }

  predicate Matches(t: Timer, minute: int) {
    t.enabled && Weekday(minute) in t.weekdays && MinuteOfDay(minute) == t.start
  }

  predicate AboveHighWater(s: State, minute: int) {
    s.highWater.None? || minute > s.highWater.value
  }

  /** The timer starts at this minute and nothing at or after it was consumed. */
  predicate Due(s: State, t: Timer, minute: int) {
    && Matches(t, minute) && AboveHighWater(s, minute)
    && (Readable(s, t.id) ==> RecordAt(s, t.id).key != Key(t.id, minute) && minute > RecordAt(s, t.id).key.minute)
  }

  function DueTimers(s: State, timers: seq<Timer>, minute: int): seq<Timer> {
    if timers == [] then []
    else (if Due(s, timers[0], minute) then [timers[0]] else []) + DueTimers(s, timers[1..], minute)
  }

  function RecordFor(t: Timer, minute: int, status: Status, now: int, pending: Option<Pending>): Record {
    Record(Key(t.id, minute), t.revision, status, now, false, pending)
  }

  function RaisedTo(highWater: Option<int>, minute: int): Option<int> {
    if highWater.None? || minute > highWater.value then Some(minute) else highWater
  }

  /** Enters the timers' occurrences into the ledger before anything can act on them. */
  function Consume(s: State, timers: seq<Timer>, minute: int, status: Status, now: int): State {
    s.(cells := s.cells + map id | id in IdsOf(timers) :: Own(RecordFor(TimerNamed(timers, id), minute, status, now, None)),
       highWater := RaisedTo(s.highWater, minute))
  }

  function TimerNamed(timers: seq<Timer>, id: string): (t: Timer)
    requires id in IdsOf(timers)
    ensures t in timers && t.id == id
  {
    if timers[0].id == id then timers[0]
    else assert id in IdsOf(timers[1..]) by { var i :| 0 <= i < |timers| && timers[i].id == id; assert timers[1..][i - 1].id == id; } TimerNamed(timers[1..], id)
  }

  function PendingOf(c: Config, s: State, t: Timer, clock: Clock, now: int): Pending {
    Pending(now + c.intentValid, clock.trust, clock.utc, s.epoch, s.intentSequence + 1, None, None, None, t.params)
  }

  function CreateIntent(c: Config, s: State, t: Timer, clock: Clock, now: int): (State, Intent) {
    var record := RecordFor(t, clock.minute, IntentCreated, now, Some(PendingOf(c, s, t, clock, now)));
    (s.(cells := s.cells[t.id := Own(record)], highWater := RaisedTo(s.highWater, clock.minute), intentSequence := s.intentSequence + 1),
     Intent(record.key, t.revision, t.params, now, now + c.intentValid, s.intentSequence + 1, s.owner))
  }

  // ---------------------------------------------------------------- stepping

  /** A new minute was reached undisturbed: the occurrences that start now. */
  function Fire(c: Config, s: State, clock: Clock, now: int, available: bool): (State, Option<Intent>) {
    var due := DueTimers(s, s.timers, clock.minute);
    if due == [] then (s, None)
    else if |due| > 1 then (Consume(s, due, clock.minute, ConflictStatus, now), None)
    else if !available || s.activeKey.Some? then (Consume(s, due, clock.minute, SuppressedBusy, now), None)
    else var (created, intent) := CreateIntent(c, s, due[0], clock, now); (created, Some(intent))
  }

  /** Whether the clock moved on by at most the permitted step, into the next local minute at most. */
  predicate Undisturbed(c: Config, before: Clock, clock: Clock) {
    0 <= clock.utc - before.utc <= c.maxStep && 0 <= clock.minute - before.minute <= 1
  }

  function Observe(c: Config, s: State, clock: Clock, now: int, available: bool): (State, Option<Intent>)
    requires s.baseline.Some?
  {
    var before := s.baseline.value;
    var based := s.(baseline := Some(clock));
    if clock.trust != before.trust || !Undisturbed(c, before, clock) then (Bump(based), None)
    else if clock.minute == before.minute || clock.fold == 1 then (based, None)
    else Fire(c, based, clock, now, available)
  }

  /** One evaluation. `reading` is the canonical clock, None when it cannot be trusted. */
  function Step(c: Config, s: State, now: int, reading: Option<Clock>, available: bool): (State, Outcome<Option<Intent>>) {
    if !s.armed || s.faulted then (s, Done(None))
    else if s.lastStep.Some? && now < s.lastStep.value then (LatchFault(s), Raised)
    else
      var stepped := s.(lastStep := Some(now));
      if reading.None? then
        (if s.baseline.Some? then Bump(stepped.(baseline := None)) else stepped.(baseline := None), Done(None))
      else if s.baseline.None? then (stepped.(baseline := reading), Done(None))
      else if s.fencePending then (stepped.(baseline := reading, fencePending := false), Done(None))
      else
        var (observed, intent) := Observe(c, stepped, reading.value, now, available);
        (observed, Done(intent))
  }

  // ---------------------------------------------------------------- the hand-off

  function Finish(s: State, record: Record, status: Status, now: int): State
    requires record.pending.Some?
  {
    s.(cells := s.cells[record.key.timer := Own(record.(status := status, pending := Some(record.pending.value.(finishedAt := Some(now)))))])
  }

  predicate IntentMatches(s: State, i: Intent, r: Record) {
    && r.pending.Some? && i.owner == s.owner && i.token == r.pending.value.intentToken && i.key == r.key
    && i.revision == r.revision && i.params == r.pending.value.params
    && i.createdAt == r.consumedAt && i.notAfter == r.pending.value.notAfter
  }

  predicate TimerUnchanged(s: State, r: Record) {
    r.pending.Some? && exists i :: 0 <= i < |s.timers| && s.timers[i].id == r.key.timer && s.timers[i].enabled
                                   && s.timers[i].revision == r.revision && s.timers[i].params == r.pending.value.params
  }

  /** The wall clock advanced by as much as the monotonic one since the intent was created, in the same trust. */
  predicate ClockAgrees(r: Record, reading: Option<Clock>, now: int)
    requires r.pending.Some?
  {
    && reading.Some? && reading.value.trust == r.pending.value.trust
    && var expected := (now - r.consumedAt) / 1000;
       expected <= reading.value.utc - r.pending.value.createdUtc <= expected + 1
  }

  predicate HandoffOpen(s: State, i: Intent, r: Record, available: bool) {
    && s.armed && !s.faulted && available && s.activeKey.None?
    && r.pending.Some? && r.pending.value.epoch == s.epoch && IntentMatches(s, i, r)
  }

  function Hand(s: State, i: Intent, r: Record, now: int): (State, Option<Authorized>)
    requires r.pending.Some?
  {
    var token := s.authSequence + 1;
    var handed := r.(status := AuthorizedPending, pending := Some(r.pending.value.(authorization := Some(token), authorizedAt := Some(now))));
    (s.(authSequence := token, handedOff := s.handedOff[token := handed], cells := s.cells[r.key.timer := HandedOff(token)]),
     Some(Authorized(i, token, r.pending.value.epoch, s.owner)))
  }

  /** Phase one: an intent becomes a token, or its occurrence is finished unused, or nothing happens. */
  function Authorize(s: State, i: Intent, now: int, available: bool, reading: Option<Clock>): (State, Option<Authorized>) {
    var found := Find(s, i.key);
    if found.None? || !found.value.status.IntentCreated? || found.value.pending.None? then (s, None)
    else
      var r := found.value;
      if now < r.consumedAt || (s.lastStep.Some? && now < s.lastStep.value) then (s, None)
      else if now > r.pending.value.notAfter then (Finish(s, r, Expired, now), None)
      else if !HandoffOpen(s, i, r, available) || !TimerUnchanged(s, r) then (Finish(s, r, AuthorizationRejected, now), None)
      else if !ClockAgrees(r, reading, now) then (Finish(Bump(s).(baseline := None), r, AuthorizationRejected, now), None)
      else Hand(s, i, r, now)
  }

  datatype Requested = Requested(on: bool, mode: string, target: Option<int>, power: Option<int>, runtime: int, source: string)

  predicate RequestMatches(r: Record, q: Requested)
    requires r.pending.Some?
  {
    var p := r.pending.value.params;
    && q.on && q.mode == p.mode && q.source == "timer" && q.runtime == p.runtime
    && (if p.power.None? then q.power.None? && q.target.Some? && q.target == p.target else q.target.None? && q.power == p.power)
  }

  predicate Completable(s: State, a: Authorized, now: int) {
    && a.owner == s.owner && a.token in s.handedOff
    && var r := s.handedOff[a.token];
       && r.key == a.intent.key && r.status.AuthorizedPending? && r.pending.Some?
       && r.pending.value.authorization == Some(a.token) && r.pending.value.epoch == a.epoch
       && r.pending.value.authorizedAt.Some? && now >= r.pending.value.authorizedAt.value
       && IntentMatches(s, a.intent, r)
  }

  function Settle(s: State, token: nat, status: Status, now: int): State
    requires token in s.handedOff && s.handedOff[token].pending.Some?
  {
    var r := s.handedOff[token];
    s.(handedOff := s.handedOff[token := r.(status := status, pending := Some(r.pending.value.(finishedAt := Some(now))))])
  }

  /** Phase two: binds the token to the Requested State that resulted. `result` is None when it is unknown. */
  function Complete(s: State, a: Authorized, applied: bool, result: Option<Requested>, now: int): (State, bool) {
    if !Completable(s, a, now) then (s, false)
    else
      var r := s.handedOff[a.token];
      var confirmed := result.Some? && RequestMatches(r, result.value);
      if confirmed && s.activeKey.Some? && s.activeKey.value != r.key then (LatchFault(Settle(s, a.token, ApplicationFailed, now)), false)
      else if confirmed then
        var accepted := Settle(s, a.token, Accepted, now).(activeKey := Some(r.key), active := Some(a.token));
        (if applied then accepted else LatchFault(accepted), true)
      else
        var failed := Settle(s, a.token, ApplicationFailed, now);
        (if applied || result.None? || result.value.on then LatchFault(failed) else failed, false)
  }

  /** The accepted occurrence `key`, when it is the active one and `now` is not before what already happened. */
  predicate Releasable(s: State, key: Key, now: int) {
    && s.active.Some? && s.active.value in s.handedOff
    && var r := s.handedOff[s.active.value];
       && r.key == key && r.status.Accepted? && r.pending.Some?
       && r.pending.value.finishedAt.Some? && now >= r.pending.value.finishedAt.value
       && (s.lastStep.Some? ==> now >= s.lastStep.value)
  }

  function Release(s: State, record: Record): State {
    var id := record.key.timer;
    s.(cells := if Find(s, record.key).Some? then s.cells[id := Own(record)] else s.cells, activeKey := None, active := None)
  }

  function MarkOverride(s: State, key: Key, now: int): (State, bool) {
    if !Releasable(s, key, now) || s.handedOff[s.active.value].overridden then (s, false)
    else (Release(s, s.handedOff[s.active.value].(status := Overridden, overridden := true)).(wasOverridden := true), true)
  }

  function MarkComplete(s: State, key: Key, now: int): (State, bool) {
    if !Releasable(s, key, now) then (s, false)
    else (Release(s, s.handedOff[s.active.value].(status := Completed)), true)
  }

  // ---------------------------------------------------------------- persistence

  datatype Latch = Latch(key: Key, overridden: bool)

  /** What survives a reboot: the high-water mark and one latch per timer. */
  datatype History = History(highWater: Option<int>, latches: map<string, Latch>)

  const EMPTY_HISTORY := History(None, map[])

  predicate InRange(minute: int) {
    0 <= minute <= MAX_MINUTE
  }

  predicate ConsumedStatus(status: Status) {
    !status.Overridden?
  }

  /** A record may be persisted: it names its own timer, and its status agrees with its override flag. */
  predicate Persistable(s: State, id: string) {
    && Readable(s, id)
    && var r := RecordAt(s, id);
       r.key.timer == id && (r.status.Overridden? <==> r.overridden) && InRange(r.key.minute)
       && s.highWater.Some? && r.key.minute <= s.highWater.value
  }

  predicate Exportable(c: Config, s: State) {
    |s.cells| <= c.maxTimers && (s.highWater.Some? ==> InRange(s.highWater.value)) && forall id :: id in s.cells ==> Persistable(s, id)
  }

  /** The detached ledger; None stands for the error of a ledger that cannot be persisted. */
  function Export(c: Config, s: State): Option<History> {
    if !Exportable(c, s) then None
    else Some(History(s.highWater, map id | id in s.cells :: Latch(RecordAt(s, id).key, RecordAt(s, id).overridden)))
  }

  predicate ValidHistory(c: Config, h: History) {
    && (h.highWater.Some? ==> InRange(h.highWater.value)) && |h.latches| <= c.maxTimers
    && forall id :: id in h.latches ==>
         h.latches[id].key.timer == id && InRange(h.latches[id].key.minute)
         && h.highWater.Some? && h.latches[id].key.minute <= h.highWater.value
  }

  predicate NeverUsed(s: State) {
    && !s.armed && !s.faulted && !s.restored && s.epoch == 0 && s.authSequence == 0 && s.intentSequence == 0
    && s.cells == map[] && s.highWater.None? && s.activeKey.None? && s.active.None? && !s.wasOverridden
    && s.baseline.None? && !s.fencePending && s.lastStep.None?
  }

  function RestoredRecord(latch: Latch): Record {
    Record(latch.key, 0, if latch.overridden then Overridden else RestoredConsumed, 0, latch.overridden, None)
  }

  /** Accepted once, by a scheduler that never ran, for timers it knows. */
  function Restore(c: Config, s: State, h: History): (State, Outcome<bool>) {
    if !NeverUsed(s) || !ValidHistory(c, h) || !(h.latches.Keys <= IdsOf(s.timers)) then (s, Raised)
    else
      (s.(cells := map id | id in h.latches :: Own(RestoredRecord(h.latches[id])), highWater := h.highWater, restored := true), Done(true))
  }
}
