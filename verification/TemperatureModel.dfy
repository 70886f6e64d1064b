/** Sensor assignment and health supervision (app/temperature_manager.py), as a value and its transitions. */
module TemperatureModel {
  import opened Options

  datatype Role = RoofTentSensor | CabinSensor | OutsideSensor

  datatype Health = Ok | Stale | Failed | Missing

  datatype Thresholds = Thresholds(stale: int, failed: int, minimum: real, maximum: real)

  datatype Reading = Reading(
    value: Option<real>, lastValid: Option<int>, unavailableSince: Option<int>,
    lastUpdate: Option<int>, invalidReadings: nat, generation: nat, present: Option<bool>)

  /** What one role looks like at one instant; the controller sees nothing else of a sensor. */
  datatype SensorSnapshot = SensorSnapshot(
    role: Role, rom: Option<string>, value: Option<real>, lastValid: Option<int>, age: Option<int>,
    unavailableSince: Option<int>, unavailableAge: Option<int>, health: Health, usable: bool,
    present: Option<bool>, invalidReadings: int, generation: int, assignment: int)

  datatype Manager = Manager(
    assignments: map<Role, string>,
    revisions: map<Role, nat>,
    readings: map<string, Reading>,
    discovered: seq<string>,
    health: map<Role, Health>)

  const NEW_READING := Reading(None, None, None, None, 0, 0, None)

  const ROLES: seq<Role> := [RoofTentSensor, CabinSensor, OutsideSensor]

  predicate ValidThresholds(t: Thresholds) {
    0 < t.stale < t.failed && -55.0 <= t.minimum < t.maximum <= 125.0
  }

  /** A stored sample is in range, and no anchor of a reading lies after its newest update. */
  predicate Coherent(t: Thresholds, r: Reading) {
    && r.lastValid.Some? == r.value.Some?
    && (r.value.Some? ==> t.minimum <= r.value.value <= t.maximum)
    && (r.lastValid.Some? ==>
          r.lastUpdate.Some? && r.lastValid.value <= r.lastUpdate.value && r.unavailableSince.None?)
    && (r.unavailableSince.Some? ==> r.lastUpdate.Some? && r.unavailableSince.value <= r.lastUpdate.value)
  }

  /** Every role has a revision and a health, every assigned ROM has a reading, no ROM serves two roles. */
  ghost predicate Valid(t: Thresholds, m: Manager) {
    && ValidThresholds(t)
    && (forall role: Role :: role in m.revisions && role in m.health)
    && (forall role :: role in m.assignments ==> m.assignments[role] in m.readings)
    && (forall r1, r2 :: r1 in m.assignments && r2 in m.assignments && m.assignments[r1] == m.assignments[r2] ==> r1 == r2)
    && (forall rom :: rom in m.readings ==> Coherent(t, m.readings[rom]))
  }

  predicate Precedes(r: Reading, now: int) {
    r.lastUpdate.Some? && now < r.lastUpdate.value
  }

  function HealthOf(t: Thresholds, r: Reading, now: int): Health {
    if r.lastValid.Some? then
      if now - r.lastValid.value >= t.failed then Failed
      else if now - r.lastValid.value >= t.stale then Stale
      else Ok
    else if r.unavailableSince.Some? && now - r.unavailableSince.value >= t.failed then Failed
    else Missing
  }

  function Age(anchor: Option<int>, now: int): Option<int> {
    if anchor.Some? then Some(now - anchor.value) else None
  }

  /** The aged view of one role; None when `now` precedes the sensor's own state. */
  function HealthSnapshot(t: Thresholds, m: Manager, role: Role, now: int): Option<SensorSnapshot>
    requires role in m.revisions
    requires role in m.assignments ==> m.assignments[role] in m.readings
  {
    if role !in m.assignments then
      Some(SensorSnapshot(role, None, None, None, None, None, None, Missing, false, None, 0, 0, m.revisions[role]))
    else
      var rom := m.assignments[role];
      var r := m.readings[rom];
      if Precedes(r, now)
         || (r.lastValid.Some? && now < r.lastValid.value)
         || (r.lastValid.None? && r.unavailableSince.Some? && now < r.unavailableSince.value)
      then None
      else
        var h := HealthOf(t, r, now);
        Some(SensorSnapshot(
               role, Some(rom), r.value, r.lastValid, Age(r.lastValid, now), r.unavailableSince,
               if r.lastValid.Some? then None else Age(r.unavailableSince, now),
               h, h.Ok? || h.Stale?, r.present, r.invalidReadings, r.generation, m.revisions[role]))
  }

  lemma SnapshotNamesSensor(t: Thresholds, m: Manager, role: Role, now: int)
    requires role in m.revisions
    requires role in m.assignments ==> m.assignments[role] in m.readings
    ensures var snapshot := HealthSnapshot(t, m, role, now);
            snapshot.Some? ==> snapshot.value.rom == if role in m.assignments then Some(m.assignments[role]) else None
  {
  }

  /** Ages one role and counts its entry into FAILED; None when the snapshot is refused. */
  function RefreshRole(t: Thresholds, m: Manager, role: Role, now: int): (r: (Manager, Option<SensorSnapshot>))
    requires Valid(t, m)
    ensures Valid(t, r.0)
  {
    var snapshot := HealthSnapshot(t, m, role, now);
    if snapshot.None? then (m, None)
    else
      var current := snapshot.value.health;
      if current == m.health[role] then (m, snapshot)
      else
        var aged := m.(health := m.health[role := current]);
        if current.Failed? && role in m.assignments then
          var rom := m.assignments[role];
          var counted := m.readings[rom].(generation := m.readings[rom].generation + 1);
          (aged.(readings := m.readings[rom := counted]), Some(snapshot.value.(generation := counted.generation)))
        else (aged, snapshot)
  }

  /** Ages the roles in order and stops at the first refused one. */
  function RefreshRoles(t: Thresholds, m: Manager, roles: seq<Role>, now: int): (r: (Manager, bool))
    requires Valid(t, m)
    ensures Valid(t, r.0)
    decreases |roles|
  {
    if roles == [] then (m, true)
    else
      var (next, snapshot) := RefreshRole(t, m, roles[0], now);
      if snapshot.None? then (next, false) else RefreshRoles(t, next, roles[1..], now)
  }

  function RolesOf(m: Manager, rom: string): seq<Role> {
    (if RoofTentSensor in m.assignments && m.assignments[RoofTentSensor] == rom then [RoofTentSensor] else [])
    + (if CabinSensor in m.assignments && m.assignments[CabinSensor] == rom then [CabinSensor] else [])
    + (if OutsideSensor in m.assignments && m.assignments[OutsideSensor] == rom then [OutsideSensor] else [])
  }

  function RefreshRom(t: Thresholds, m: Manager, rom: string, now: int): (r: Manager)
    requires Valid(t, m)
    ensures Valid(t, r)
  {
    RefreshRoles(t, m, RolesOf(m, rom), now).0
  }

  function SetReading(t: Thresholds, m: Manager, rom: string, r: Reading): (m': Manager)
    requires Valid(t, m) && rom in m.readings && Coherent(t, r)
    ensures Valid(t, m')
  {
    m.(readings := m.readings[rom := r])
  }

  /** Stores one reading and ages the roles that use it. */
  function RefreshAfter(t: Thresholds, m: Manager, rom: string, r: Reading, now: int): (m': Manager)
    requires Valid(t, m) && rom in m.readings && Coherent(t, r)
    ensures Valid(t, m')
  {
    RefreshRom(t, SetReading(t, m, rom, r), rom, now)
  }

  function WithFailure(r: Reading, now: int): Reading {
    r.(unavailableSince := if r.lastValid.None? && r.unavailableSince.None? then Some(now) else r.unavailableSince,
       invalidReadings := r.invalidReadings + 1,
       lastUpdate := Some(now))
  }

  function WithSample(r: Reading, value: real, now: int): Reading {
    r.(value := Some(value), lastValid := Some(now), unavailableSince := None,
       lastUpdate := Some(now), present := Some(true))
  }

  predicate InRange(t: Thresholds, value: Option<real>) {
    value.Some? && t.minimum <= value.value <= t.maximum
  }

  /** The instant whose distance decides whether a FAILED interval just ended. */
  function Anchor(r: Reading): Option<int> {
    if r.lastValid.Some? then r.lastValid else r.unavailableSince
  }

  /** An elapsed FAILED deadline is counted before the sample that ends it is stored. */
  function AgeBeforeSample(t: Thresholds, m: Manager, rom: string, now: int): (r: Manager)
    requires Valid(t, m) && rom in m.readings
    ensures Valid(t, r) && rom in r.readings
  {
    RefreshKeepsReading(t, m, RolesOf(m, rom), rom, now);
    var anchor := Anchor(m.readings[rom]);
    if anchor.Some? && now - anchor.value >= t.failed then RefreshRom(t, m, rom, now) else m
  }

  /** One sample; `value` is None when the port delivered something that is no finite number. */
  function RecordValid(t: Thresholds, m: Manager, rom: string, value: Option<real>, now: int): (r: (Manager, bool))
    requires Valid(t, m)
    ensures Valid(t, r.0)
  {
    if rom !in m.readings || Precedes(m.readings[rom], now) then (m, false)
    else if !InRange(t, value) then (RefreshAfter(t, m, rom, WithFailure(m.readings[rom], now), now), false)
    else
      var aged := AgeBeforeSample(t, m, rom, now);
      (RefreshAfter(t, aged, rom, WithSample(aged.readings[rom], value.value, now), now), true)
  }

  function RecordFailure(t: Thresholds, m: Manager, rom: string, now: int): (r: (Manager, bool))
    requires Valid(t, m)
    ensures Valid(t, r.0)
  {
    if rom !in m.readings || Precedes(m.readings[rom], now) then (m, false)
    else (RefreshAfter(t, m, rom, WithFailure(m.readings[rom], now), now), true)
  }

  function WithDiscovery(r: Reading, seen: bool, now: int): Reading {
    r.(present := Some(seen),
       unavailableSince :=
         if !seen && r.lastValid.None? && r.unavailableSince.None? then Some(now) else r.unavailableSince,
       lastUpdate := Some(now))
  }

  function Seen(t: Thresholds, m: Manager, roms: seq<string>, now: int): (m': Manager)
    requires Valid(t, m)
    requires forall rom :: rom in m.readings ==> !Precedes(m.readings[rom], now)
    ensures Valid(t, m')
  {
    assert forall rom :: rom in m.readings ==>
        !Precedes(m.readings[rom], now) && Coherent(t, WithDiscovery(m.readings[rom], rom in roms, now));
    m.(discovered := roms, readings := map rom | rom in m.readings :: WithDiscovery(m.readings[rom], rom in roms, now))
  }

  predicate Distinct(roms: seq<string>) {
    forall i, j :: 0 <= i < j < |roms| ==> roms[i] != roms[j]
  }

  predicate DiscoveryAccepted(m: Manager, roms: seq<string>, capacity: nat, now: int) {
    && |roms| <= capacity
    && Distinct(roms)
    && (forall rom :: rom in m.readings ==> !Precedes(m.readings[rom], now))
  }

  /** One completed bus scan; a refused scan changes nothing. */
  function RecordDiscovery(t: Thresholds, m: Manager, roms: seq<string>, capacity: nat, now: int): (r: (Manager, bool))
    requires Valid(t, m)
    ensures Valid(t, r.0)
  {
    if !DiscoveryAccepted(m, roms, capacity, now) then (m, false)
    else (RefreshRoles(t, Seen(t, m, roms, now), ROLES, now).0, true)
  }

  predicate Changed(before: map<Role, string>, after: map<Role, string>, role: Role) {
    (role in before) != (role in after) || (role in before && role in after && before[role] != after[role])
  }

  /** Atomic replacement of the role assignments; a ROM that leaves loses its reading. */
  function Configure(t: Thresholds, m: Manager, assignments: map<Role, string>): (r: (Manager, bool))
    requires Valid(t, m)
    ensures Valid(t, r.0)
  {
    if exists r1, r2 :: r1 in assignments && r2 in assignments && r1 != r2 && assignments[r1] == assignments[r2] then (m, false)
    else
      (Manager(
         assignments,
         map role: Role | role in m.revisions ::
           if Changed(m.assignments, assignments, role) then m.revisions[role] + 1 else m.revisions[role],
         map rom | rom in assignments.Values ::
           if rom in m.readings then m.readings[rom]
           else NEW_READING.(present := if m.discovered == [] then None else Some(rom in m.discovered)),
         m.discovered,
         m.health), true)
  }

  /** Refreshing changes only the failure generation of a reading, and never lowers it. */
  lemma RefreshKeepsReading(t: Thresholds, m: Manager, roles: seq<Role>, rom: string, now: int)
    requires Valid(t, m)
    ensures var m' := RefreshRoles(t, m, roles, now).0;
            && m'.readings.Keys == m.readings.Keys
            && m'.assignments == m.assignments && m'.revisions == m.revisions && m'.discovered == m.discovered
            && (rom in m.readings ==>
                  && m'.readings[rom].generation >= m.readings[rom].generation
                  && m'.readings[rom] == m.readings[rom].(generation := m'.readings[rom].generation))
    decreases |roles|
  {
    if roles != [] {
      var (next, snapshot) := RefreshRole(t, m, roles[0], now);
      if snapshot.Some? { RefreshKeepsReading(t, next, roles[1..], rom, now); }
    }
  }
}
