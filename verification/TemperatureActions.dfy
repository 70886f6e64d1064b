/** What a sensor's snapshot says after any history: the last accepted sample and its age, how long a silent sensor has been
    silent, and how many readings were bad. */
module TemperatureActions {
  import opened Options
  import opened TemperatureModel
  import opened TemperatureProperties

  // ---------------------------------------------------------------- what is remembered between two samples

  /** Sample and silence of the sensor are those of `r`. */
  predicate Remembers(m: Manager, rom: string, r: Reading) {
    && rom in m.readings && m.readings[rom].value == r.value && m.readings[rom].lastValid == r.lastValid
    && m.readings[rom].unavailableSince == r.unavailableSince
  }

  lemma StoringRemembers(t: Thresholds, m: Manager, stored: string, s: Reading, now: int, rom: string, r: Reading)
    requires Valid(t, m) && stored in m.readings && Coherent(t, s) && Remembers(m, rom, r)
    requires stored == rom ==> s.value == r.value && s.lastValid == r.lastValid && s.unavailableSince == r.unavailableSince
    ensures Remembers(RefreshAfter(t, m, stored, s, now), rom, r)
  {
    hide Valid, Coherent, RefreshRoles, RolesOf;
    var stocked := SetReading(t, m, stored, s);
    RefreshKeepsReading(t, stocked, RolesOf(stocked, stored), rom, now);
  }

  lemma SamplingRemembers(t: Thresholds, m: Manager, other: string, value: Option<real>, now: int, rom: string, r: Reading)
    requires Valid(t, m) && Remembers(m, rom, r) && Anchor(r).Some?
    requires other == rom ==> !RecordValid(t, m, rom, value, now).1
    ensures Remembers(RecordValid(t, m, other, value, now).0, rom, r)
  {
    if other in m.readings && !Precedes(m.readings[other], now) {
      if !InRange(t, value) {
        StoringRemembers(t, m, other, WithFailure(m.readings[other], now), now, rom, r);
      } else {
        RefreshKeepsReading(t, m, RolesOf(m, other), rom, now);
        var aged := AgeBeforeSample(t, m, other, now);
        StoringRemembers(t, aged, other, WithSample(aged.readings[other], value.value, now), now, rom, r);
      }
    }
    hide RefreshRoles, RolesOf, RefreshAfter;
  }

  lemma OperationRemembers(t: Thresholds, m: Manager, op: Op, rom: string, r: Reading)
    requires Valid(t, m) && Remembers(m, rom, r) && Anchor(r).Some?
    requires op.Sample? && op.rom == rom ==> !RecordValid(t, m, rom, op.value, op.now).1
    ensures Remembers(Apply(t, m, op), rom, r)
  {
    match op
    case Sample(other, value, now) =>
      SamplingRemembers(t, m, other, value, now, rom, r);
    case Failure(other, now) =>
      if other in m.readings && !Precedes(m.readings[other], now) {
        StoringRemembers(t, m, other, WithFailure(m.readings[other], now), now, rom, r);
      }
    case Discovery(roms, capacity, now) =>
      if DiscoveryAccepted(m, roms, capacity, now) {
        RefreshKeepsReading(t, Seen(t, m, roms, now), ROLES, rom, now);
      }
    case Look(role, now) =>
      assert RefreshRoles(t, m, [role], now).0 == RefreshRole(t, m, role, now).0;
      RefreshKeepsReading(t, m, [role], rom, now);
  }

  /** Until a sample of the sensor is accepted, failures, scans and looks leave its last sample, and the begin of its silence. */
  lemma {:induction false} RunRemembers(t: Thresholds, m: Manager, ops: seq<Op>, rom: string, r: Reading)
    requires Valid(t, m) && Remembers(m, rom, r) && Anchor(r).Some? && NoSampleOf(t, m, ops, rom)
    ensures Remembers(Run(t, m, ops), rom, r)
    decreases |ops|
  {
    if ops != [] {
      OperationRemembers(t, m, ops[0], rom, r);
      RunRemembers(t, Apply(t, m, ops[0]), ops[1..], rom, r);
    }
  }

  // ---------------------------------------------------------------- what a look shows

  /** A look at a sensor that has a sample, or is missed, says what is stored of it and how old that is. */
  lemma LookShows(t: Thresholds, m: Manager, role: Role, rom: string, now: int)
    requires Valid(t, m) && Assigned(m, role, rom) && !Precedes(m.readings[rom], now)
    ensures
      var look := RefreshRole(t, m, role, now).1;
      var r := m.readings[rom];
      && look.Some? && look.value.rom == Some(rom) && look.value.value == r.value
      && (r.lastValid.Some? ==>
            && look.value.age == Some(now - r.lastValid.value) && (look.value.usable <==> now < r.lastValid.value + t.failed)
            && look.value.health == (if now < r.lastValid.value + t.stale then Ok else if now < r.lastValid.value + t.failed then Stale else Failed))
      && (r.lastValid.None? && r.unavailableSince.Some? ==>
            && look.value.age == None && !look.value.usable && look.value.unavailableAge == Some(now - r.unavailableSince.value)
            && look.value.health == (if now < r.unavailableSince.value + t.failed then Missing else Failed))
  {
    SensorIsCoherent(t, m, rom);
    hide Valid;
  }

  lemma SensorIsCoherent(t: Thresholds, m: Manager, rom: string)
    requires Valid(t, m) && rom in m.readings
    ensures ValidThresholds(t) && Coherent(t, m.readings[rom])
  {
  }

  lemma StaysAssigned(t: Thresholds, m: Manager, ops: seq<Op>, role: Role, rom: string)
    requires Valid(t, m) && Assigned(m, role, rom)
    ensures Assigned(Run(t, m, ops), role, rom) && rom in Run(t, m, ops).readings
  {
    hide Run;
    GenerationNeverFalls(t, m, ops, rom);
  }

  /** What a look at the sensor says when `value` was its last sample, taken at `at`: healthy before the stale deadline, still
      usable before the failure deadline, and failed from then on. */
  predicate Shown(t: Thresholds, m: Manager, role: Role, rom: string, value: Option<real>, at: int, now: int)
    requires Valid(t, m)
  {
    var look := RefreshRole(t, m, role, now).1;
    && look.Some? && look.value.rom == Some(rom) && look.value.value == value && look.value.age == Some(now - at)
    && look.value.health == (if now < at + t.stale then Ok else if now < at + t.failed then Stale else Failed)
    && (look.value.usable <==> now < at + t.failed)
  }

  /** A sample is accepted iff time has not gone back for the sensor and the value is a number in range. It is then what every
      look shows until the next accepted one, whatever failures, scans and looks come between. */
  lemma SampleIsShown(t: Thresholds, m: Manager, role: Role, rom: string, value: Option<real>, at: int, between: seq<Op>, now: int)
    requires Valid(t, m) && Assigned(m, role, rom)
    ensures RecordValid(t, m, rom, value, at).1 <==> !Precedes(m.readings[rom], at) && InRange(t, value)
    ensures
      var (sampled, accepted) := RecordValid(t, m, rom, value, at);
      accepted && NoSampleOf(t, sampled, between, rom) ==>
        var later := Run(t, sampled, between);
        Assigned(later, role, rom) && rom in later.readings
        && (!Precedes(later.readings[rom], now) ==> Shown(t, later, role, rom, value, at, now))
  {
    SampleIsAccepted(t, m, rom, value, at);
    hide Valid, Run, NoSampleOf, RecordValid, Shown;
    var (sampled, accepted) := RecordValid(t, m, rom, value, at);
    if accepted && NoSampleOf(t, sampled, between, rom) {
      SampleIsStored(t, m, role, rom, value, at);
      StoredIsShown(t, sampled, role, rom, value, at, between, now);
    }
  }

  lemma StoredIsShown(t: Thresholds, m: Manager, role: Role, rom: string, value: Option<real>, at: int, between: seq<Op>, now: int)
    requires Valid(t, m) && Assigned(m, role, rom) && NoSampleOf(t, m, between, rom) && rom in m.readings
    requires m.readings[rom].value == value && m.readings[rom].lastValid == Some(at)
    ensures
      var later := Run(t, m, between);
      Assigned(later, role, rom) && rom in later.readings
      && (!Precedes(later.readings[rom], now) ==> Shown(t, later, role, rom, value, at, now))
  {
    hide Valid, Run, NoSampleOf, RefreshRole;
    var later := Run(t, m, between);
    RunRemembers(t, m, between, rom, m.readings[rom]);
    StaysAssigned(t, m, between, role, rom);
    if !Precedes(later.readings[rom], now) { LookShows(t, later, role, rom, now); }
  }

  lemma SampleIsAccepted(t: Thresholds, m: Manager, rom: string, value: Option<real>, at: int)
    requires Valid(t, m) && rom in m.readings
    ensures RecordValid(t, m, rom, value, at).1 <==> !Precedes(m.readings[rom], at) && InRange(t, value)
  {
    hide Valid, RefreshAfter, AgeBeforeSample;
  }

  lemma SampleIsStored(t: Thresholds, m: Manager, role: Role, rom: string, value: Option<real>, at: int)
    requires Valid(t, m) && Assigned(m, role, rom) && RecordValid(t, m, rom, value, at).1
    ensures
      var r := RecordValid(t, m, rom, value, at).0;
      && Assigned(r, role, rom) && rom in r.readings && r.readings[rom].value == value && r.readings[rom].lastValid == Some(at)
  {
    AgingCounts(t, m, role, rom, at);
    var aged := AgeBeforeSample(t, m, rom, at);
    var sampled := SetReading(t, aged, rom, WithSample(aged.readings[rom], value.value, at));
    RefreshKeepsReading(t, sampled, RolesOf(sampled, rom), rom, at);
    hide AgeBeforeSample, RefreshRoles, RolesOf;
  }

  /** What a look at the sensor says when it never had a valid sample and has been missed from `since` on. */
  predicate Missed(t: Thresholds, m: Manager, role: Role, since: int, now: int)
    requires Valid(t, m)
  {
    var look := RefreshRole(t, m, role, now).1;
    && look.Some? && look.value.value == None && look.value.age == None && !look.value.usable
    && look.value.unavailableAge == Some(now - since)
    && look.value.health == (if now < since + t.failed then Missing else Failed)
  }

  lemma LookMisses(t: Thresholds, m: Manager, role: Role, rom: string, since: int, now: int)
    requires Valid(t, m) && Assigned(m, role, rom) && !Precedes(m.readings[rom], now)
    requires m.readings[rom].lastValid.None? && m.readings[rom].unavailableSince == Some(since)
    ensures Missed(t, m, role, since, now)
  {
    SensorIsCoherent(t, m, rom);
    LookShows(t, m, role, rom, now);
    hide Valid, RefreshRole;
  }

  /** A sensor that has never delivered a valid sample and is missed from `since` on is missing, and failed from the failure
      deadline on, whatever comes in between. */
  lemma SilenceIsShown(t: Thresholds, m: Manager, role: Role, rom: string, since: int, between: seq<Op>, now: int)
    requires Valid(t, m) && Assigned(m, role, rom) && m.readings[rom].lastValid.None? && m.readings[rom].unavailableSince == Some(since)
    requires NoSampleOf(t, m, between, rom)
    ensures
      var later := Run(t, m, between);
      && Assigned(later, role, rom) && rom in later.readings
      && (!Precedes(later.readings[rom], now) ==> Missed(t, later, role, since, now))
  {
    assert rom in m.readings;
    hide Valid, Run, NoSampleOf, Missed;
    var later := Run(t, m, between);
    RunRemembers(t, m, between, rom, m.readings[rom]);
    StaysAssigned(t, m, between, role, rom);
    if !Precedes(later.readings[rom], now) { LookMisses(t, later, role, rom, since, now); }
  }

  /** Silence begins with the first failed read, or the first scan that does not find the sensor. */
  lemma SilenceBegins(t: Thresholds, m: Manager, rom: string, roms: seq<string>, capacity: nat, now: int)
    requires Valid(t, m) && rom in m.readings && Anchor(m.readings[rom]).None? && !Precedes(m.readings[rom], now)
    ensures RecordFailure(t, m, rom, now).1 && Remembers(RecordFailure(t, m, rom, now).0, rom, m.readings[rom].(unavailableSince := Some(now)))
    ensures DiscoveryAccepted(m, roms, capacity, now) ==>
      var scanned := RecordDiscovery(t, m, roms, capacity, now).0;
      && Remembers(scanned, rom, m.readings[rom].(unavailableSince := if rom in roms then None else Some(now)))
  {
    var failed := SetReading(t, m, rom, WithFailure(m.readings[rom], now));
    RefreshKeepsReading(t, failed, RolesOf(failed, rom), rom, now);
    if DiscoveryAccepted(m, roms, capacity, now) {
      RefreshKeepsReading(t, Seen(t, m, roms, now), ROLES, rom, now);
    }
    hide RefreshRoles, RolesOf;
  }

  // ---------------------------------------------------------------- bad readings and presence

  /** This operation is a bad reading of the sensor: a failed read, or a sample out of range, at a time it accepts. */
  predicate IsBad(t: Thresholds, m: Manager, op: Op, rom: string)
    requires rom in m.readings
  {
    && (op.Failure? || (op.Sample? && !InRange(t, op.value))) && op.rom == rom && !Precedes(m.readings[rom], op.now)
  }

  function BadReadings(t: Thresholds, m: Manager, ops: seq<Op>, rom: string): nat
    requires Valid(t, m) && rom in m.readings
    decreases |ops|
  {
    if ops == [] then 0
    else
      GenerationNeverFalls(t, m, [ops[0]], rom);
      assert Run(t, m, [ops[0]]) == Apply(t, m, ops[0]);
      (if IsBad(t, m, ops[0], rom) then 1 else 0) + BadReadings(t, Apply(t, m, ops[0]), ops[1..], rom)
  }

  lemma StoringCounts(t: Thresholds, m: Manager, stored: string, s: Reading, now: int, rom: string)
    requires Valid(t, m) && stored in m.readings && Coherent(t, s) && rom in m.readings
    ensures var m' := RefreshAfter(t, m, stored, s, now);
            && rom in m'.readings && m'.readings[rom].invalidReadings == (if stored == rom then s else m.readings[rom]).invalidReadings
            && m'.readings[rom].present == (if stored == rom then s else m.readings[rom]).present
  {
    hide Valid, Coherent, RefreshRoles, RolesOf;
    var stocked := SetReading(t, m, stored, s);
    RefreshKeepsReading(t, stocked, RolesOf(stocked, stored), rom, now);
  }

  lemma SampleCounts(t: Thresholds, m: Manager, other: string, value: Option<real>, now: int, rom: string)
    requires Valid(t, m) && rom in m.readings
    ensures var m' := RecordValid(t, m, other, value, now).0;
            && rom in m'.readings
            && m'.readings[rom].invalidReadings
               == m.readings[rom].invalidReadings + (if IsBad(t, m, Sample(other, value, now), rom) then 1 else 0)
  {
    if other in m.readings && !Precedes(m.readings[other], now) {
      if !InRange(t, value) {
        StoringCounts(t, m, other, WithFailure(m.readings[other], now), now, rom);
      } else {
        RefreshKeepsReading(t, m, RolesOf(m, other), rom, now);
        RefreshKeepsReading(t, m, RolesOf(m, other), other, now);
        var aged := AgeBeforeSample(t, m, other, now);
        StoringCounts(t, aged, other, WithSample(aged.readings[other], value.value, now), now, rom);
      }
    }
    hide RefreshRoles, RolesOf, RefreshAfter;
  }

  lemma OperationCounts(t: Thresholds, m: Manager, op: Op, rom: string)
    requires Valid(t, m) && rom in m.readings
    ensures var m' := Apply(t, m, op);
            && rom in m'.readings
            && m'.readings[rom].invalidReadings == m.readings[rom].invalidReadings + (if IsBad(t, m, op, rom) then 1 else 0)
  {
    match op
    case Sample(other, value, now) => SampleCounts(t, m, other, value, now, rom);
    case Failure(other, now) =>
      if other in m.readings && !Precedes(m.readings[other], now) {
        StoringCounts(t, m, other, WithFailure(m.readings[other], now), now, rom);
      }
    case Discovery(roms, capacity, now) =>
      if DiscoveryAccepted(m, roms, capacity, now) {
        RefreshKeepsReading(t, Seen(t, m, roms, now), ROLES, rom, now);
      }
    case Look(role, now) =>
      assert RefreshRoles(t, m, [role], now).0 == RefreshRole(t, m, role, now).0;
      RefreshKeepsReading(t, m, [role], rom, now);
  }

  /** Over any run the counter of a sensor grows by exactly its bad readings. */
  lemma {:induction false} BadReadingsAreCounted(t: Thresholds, m: Manager, ops: seq<Op>, rom: string)
    requires Valid(t, m) && rom in m.readings
    ensures rom in Run(t, m, ops).readings
    ensures Run(t, m, ops).readings[rom].invalidReadings == m.readings[rom].invalidReadings + BadReadings(t, m, ops, rom)
    decreases |ops|
  {
    if ops != [] {
      OperationCounts(t, m, ops[0], rom);
      BadReadingsAreCounted(t, Apply(t, m, ops[0]), ops[1..], rom);
    }
  }

  /** A scan is accepted iff it fits, names nobody twice and is older than no sensor; a look then says who was found. */
  lemma ScanIsShown(t: Thresholds, m: Manager, role: Role, rom: string, roms: seq<string>, capacity: nat, now: int)
    requires Valid(t, m) && Assigned(m, role, rom)
    ensures
      var (scanned, accepted) := RecordDiscovery(t, m, roms, capacity, now);
      && (accepted <==> |roms| <= capacity && Distinct(roms) && forall r :: r in m.readings ==> !Precedes(m.readings[r], now))
      && (if accepted then
            && Assigned(scanned, role, rom) && scanned.discovered == roms
            && RefreshRole(t, scanned, role, now).1.Some? && RefreshRole(t, scanned, role, now).1.value.present == Some(rom in roms)
          else scanned == m)
  {
    if DiscoveryAccepted(m, roms, capacity, now) {
      ScanIsStored(t, m, role, rom, roms, capacity, now);
      var scanned := RecordDiscovery(t, m, roms, capacity, now).0;
      hide Valid, RecordDiscovery, DiscoveryAccepted, Distinct;
      PresenceShows(t, scanned, role, rom, now);
    }
  }

  lemma ScanIsStored(t: Thresholds, m: Manager, role: Role, rom: string, roms: seq<string>, capacity: nat, now: int)
    requires Valid(t, m) && Assigned(m, role, rom) && DiscoveryAccepted(m, roms, capacity, now)
    ensures
      var scanned := RecordDiscovery(t, m, roms, capacity, now).0;
      && Assigned(scanned, role, rom) && rom in scanned.readings && scanned.discovered == roms
      && scanned.readings[rom].present == Some(rom in roms) && !Precedes(scanned.readings[rom], now)
  {
    var seen := Seen(t, m, roms, now);
    RefreshKeepsReading(t, seen, ROLES, rom, now);
    hide RefreshRoles, Distinct;
  }

  lemma PresenceShows(t: Thresholds, m: Manager, role: Role, rom: string, now: int)
    requires Valid(t, m) && Assigned(m, role, rom) && rom in m.readings && !Precedes(m.readings[rom], now)
    ensures RefreshRole(t, m, role, now).1.Some? && RefreshRole(t, m, role, now).1.value.present == m.readings[rom].present
  {
    SensorIsCoherent(t, m, rom);
    hide Valid;
  }

  // ---------------------------------------------------------------- assignment

  /** A role keeps its sensor's history iff the sensor is still assigned somewhere; a changed role has a new revision, and a
      sensor that was not assigned before starts with no history. */
  lemma ReassignmentIsShown(t: Thresholds, m: Manager, assignments: map<Role, string>, role: Role)
    requires Valid(t, m)
    ensures
      var (m', accepted) := Configure(t, m, assignments);
      && (accepted <==> forall r1, r2 :: r1 in assignments && r2 in assignments && assignments[r1] == assignments[r2] ==> r1 == r2)
      && (if !accepted then m' == m
          else
            && m'.assignments == assignments
            && m'.revisions[role] == m.revisions[role]
               + (if (role in assignments) == (role in m.assignments) && (role in assignments ==> assignments[role] == m.assignments[role])
                  then 0 else 1)
            && (role in assignments ==>
                  var rom := assignments[role];
                  && rom in m'.readings
                  && (if rom in m.readings then m'.readings[rom] == m.readings[rom]
                      else m'.readings[rom] == NEW_READING.(present := if m.discovered == [] then None else Some(rom in m.discovered))))
            && (role in m.assignments && m.assignments[role] !in assignments.Values ==> m.assignments[role] !in m'.readings))
  {
  }
}
