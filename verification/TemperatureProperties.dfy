/** What the failure generation of a bound sensor records over whole runs of samples, failures, scans and looks. */
module TemperatureProperties {
  import opened Options
  import opened TemperatureModel

  /** Everything that can reach the manager between two configurations. */
  datatype Op =
    | Sample(rom: string, value: Option<real>, now: int)
    | Failure(rom: string, now: int)
    | Discovery(roms: seq<string>, capacity: nat, now: int)
    | Look(role: Role, now: int)

  function Apply(t: Thresholds, m: Manager, op: Op): (r: Manager)
    requires Valid(t, m)
    ensures Valid(t, r)
  {
    match op
    case Sample(rom, value, now) => RecordValid(t, m, rom, value, now).0
    case Failure(rom, now) => RecordFailure(t, m, rom, now).0
    case Discovery(roms, capacity, now) => RecordDiscovery(t, m, roms, capacity, now).0
    case Look(role, now) => RefreshRole(t, m, role, now).0
  }

  function Run(t: Thresholds, m: Manager, ops: seq<Op>): (r: Manager)
    requires Valid(t, m)
    ensures Valid(t, r)
    decreases |ops|
  {
    if ops == [] then m else Run(t, Apply(t, m, ops[0]), ops[1..])
  }

  /** No operation of the run is an accepted sample of `rom`. */
  predicate NoSampleOf(t: Thresholds, m: Manager, ops: seq<Op>, rom: string)
    requires Valid(t, m)
    decreases |ops|
  {
    ops == [] ||
    (&& (ops[0].Sample? && ops[0].rom == rom ==> !RecordValid(t, m, rom, ops[0].value, ops[0].now).1)
     && NoSampleOf(t, Apply(t, m, ops[0]), ops[1..], rom))
  }

  predicate Assigned(m: Manager, role: Role, rom: string) {
    role in m.assignments && m.assignments[role] == rom
  }

  /** Since the sample at `at`, entered with `generation`, a remembered FAILED has been counted. */
  predicate Counted(m: Manager, role: Role, rom: string, at: int, generation: nat) {
    && Assigned(m, role, rom) && rom in m.readings && role in m.health
    && m.readings[rom].lastValid == Some(at)
    && m.readings[rom].generation >= generation
    && (m.health[role].Failed? ==> m.readings[rom].generation > generation)
  }

  lemma RefreshKeepsCounted(t: Thresholds, m: Manager, roles: seq<Role>, now: int, role: Role, rom: string, at: int, generation: nat)
    requires Valid(t, m) && Counted(m, role, rom, at, generation)
    ensures Counted(RefreshRoles(t, m, roles, now).0, role, rom, at, generation)
    decreases |roles|
  {
    if roles != [] {
      var (next, snapshot) := RefreshRole(t, m, roles[0], now);
      assert Counted(next, role, rom, at, generation);
      if snapshot.Some? { RefreshKeepsCounted(t, next, roles[1..], now, role, rom, at, generation); }
    }
  }

  lemma StoreKeepsCounted(t: Thresholds, m: Manager, stored: string, r: Reading, now: int, role: Role, rom: string, at: int, generation: nat)
    requires Valid(t, m) && Counted(m, role, rom, at, generation)
    requires stored in m.readings && Coherent(t, r)
    requires stored == rom ==> r.lastValid == m.readings[rom].lastValid && r.generation == m.readings[rom].generation
    ensures Counted(RefreshAfter(t, m, stored, r, now), role, rom, at, generation)
  {
    var stocked := SetReading(t, m, stored, r);
    RefreshKeepsCounted(t, stocked, RolesOf(stocked, stored), now, role, rom, at, generation);
  }

  lemma SampleKeepsCounted(t: Thresholds, m: Manager, other: string, value: Option<real>, now: int, role: Role, rom: string, at: int, generation: nat)
    requires Valid(t, m) && Counted(m, role, rom, at, generation)
    requires other == rom ==> !RecordValid(t, m, rom, value, now).1
    ensures Counted(RecordValid(t, m, other, value, now).0, role, rom, at, generation)
  {
    if other in m.readings && !Precedes(m.readings[other], now) {
      if !InRange(t, value) {
        StoreKeepsCounted(t, m, other, WithFailure(m.readings[other], now), now, role, rom, at, generation);
      } else {
        RefreshKeepsCounted(t, m, RolesOf(m, other), now, role, rom, at, generation);
        var aged := AgeBeforeSample(t, m, other, now);
        StoreKeepsCounted(t, aged, other, WithSample(aged.readings[other], value.value, now), now, role, rom, at, generation);
      }
    }
  }

  lemma OperationKeepsCounted(t: Thresholds, m: Manager, op: Op, role: Role, rom: string, at: int, generation: nat)
    requires Valid(t, m) && Counted(m, role, rom, at, generation)
    requires op.Sample? && op.rom == rom ==> !RecordValid(t, m, rom, op.value, op.now).1
    ensures Counted(Apply(t, m, op), role, rom, at, generation)
  {
    match op
    case Sample(other, value, now) =>
      SampleKeepsCounted(t, m, other, value, now, role, rom, at, generation);
    case Failure(other, now) =>
      if other in m.readings && !Precedes(m.readings[other], now) {
        StoreKeepsCounted(t, m, other, WithFailure(m.readings[other], now), now, role, rom, at, generation);
      }
    case Discovery(roms, capacity, now) =>
      if DiscoveryAccepted(m, roms, capacity, now) {
        RefreshKeepsCounted(t, Seen(t, m, roms, now), ROLES, now, role, rom, at, generation);
      }
    case Look(other, now) =>
      assert RefreshRoles(t, m, [other], now).0 == RefreshRole(t, m, other, now).0;
      RefreshKeepsCounted(t, m, [other], now, role, rom, at, generation);
  }

  lemma {:induction false} RunKeepsCounted(t: Thresholds, m: Manager, ops: seq<Op>, role: Role, rom: string, at: int, generation: nat)
    requires Valid(t, m) && Counted(m, role, rom, at, generation) && NoSampleOf(t, m, ops, rom)
    ensures Counted(Run(t, m, ops), role, rom, at, generation)
    decreases |ops|
  {
    if ops != [] {
      OperationKeepsCounted(t, m, ops[0], role, rom, at, generation);
      RunKeepsCounted(t, Apply(t, m, ops[0]), ops[1..], role, rom, at, generation);
    }
  }

  /** The one role of an assigned ROM is the only one its refresh touches. */
  lemma RefreshRomIsOneRole(t: Thresholds, m: Manager, role: Role, rom: string, now: int)
    requires Valid(t, m) && Assigned(m, role, rom)
    ensures RefreshRom(t, m, rom, now) == RefreshRole(t, m, role, now).0
  {
    assert RolesOf(m, rom) == [role];
    var (next, snapshot) := RefreshRole(t, m, role, now);
    assert RefreshRoles(t, next, [role][1..], now).0 == next;
  }

  /** An elapsed deadline is counted, unless the role was already remembered as FAILED. */
  lemma AgingCounts(t: Thresholds, m: Manager, role: Role, rom: string, now: int)
    requires Valid(t, m) && Assigned(m, role, rom) && !Precedes(m.readings[rom], now)
    ensures var aged := AgeBeforeSample(t, m, rom, now);
            var anchor := Anchor(m.readings[rom]);
            && Assigned(aged, role, rom)
            && aged.readings[rom] == m.readings[rom].(generation := aged.readings[rom].generation)
            && aged.readings[rom].generation ==
               m.readings[rom].generation
               + (if anchor.Some? && now - anchor.value >= t.failed && !m.health[role].Failed? then 1 else 0)
  {
    RefreshRomIsOneRole(t, m, role, rom, now);
  }

  /** An accepted sample leaves its role healthy and stamps the reading. */
  lemma SampleRestoresHealth(t: Thresholds, m: Manager, role: Role, rom: string, value: Option<real>, now: int)
    requires Valid(t, m) && Assigned(m, role, rom)
    requires RecordValid(t, m, rom, value, now).1
    ensures var m' := RecordValid(t, m, rom, value, now).0;
            && Assigned(m', role, rom) && m'.health[role].Ok?
            && m'.readings[rom].lastValid == Some(now)
            && m'.readings[rom].generation == AgeBeforeSample(t, m, rom, now).readings[rom].generation
  {
    AgingCounts(t, m, role, rom, now);
    var aged := AgeBeforeSample(t, m, rom, now);
    hide AgeBeforeSample, RefreshAfter, WithSample;
    StoringRestoresHealth(t, aged, role, rom, value.value, now);
  }

  lemma StoringRestoresHealth(t: Thresholds, m: Manager, role: Role, rom: string, value: real, now: int)
    requires Valid(t, m) && Assigned(m, role, rom) && !Precedes(m.readings[rom], now)
    requires t.minimum <= value <= t.maximum
    ensures var m' := RefreshAfter(t, m, rom, WithSample(m.readings[rom], value, now), now);
            && Assigned(m', role, rom) && m'.health[role].Ok? && m'.readings[rom].lastValid == Some(now)
            && m'.readings[rom].generation == m.readings[rom].generation
  {
    var sampled := SetReading(t, m, rom, WithSample(m.readings[rom], value, now));
    RefreshRomIsOneRole(t, sampled, role, rom, now);
    hide RefreshRom, RolesOf;
  }

  /** Two consecutive valid samples of an assigned ROM at least the failure deadline apart: whatever
      happened between them, the failure generation has grown although the sensor is healthy again. */
  lemma FailedGapIsCounted(
    t: Thresholds, m: Manager, role: Role, rom: string,
    first: Option<real>, at: int, m1: Manager, between: seq<Op>, m2: Manager,
    second: Option<real>, again: int, m3: Manager)
    requires Valid(t, m) && Assigned(m, role, rom)
    requires RecordValid(t, m, rom, first, at) == (m1, true)
    requires NoSampleOf(t, m1, between, rom) && m2 == Run(t, m1, between)
    requires RecordValid(t, m2, rom, second, again) == (m3, true) && again - at >= t.failed
    ensures Assigned(m1, role, rom) && Assigned(m3, role, rom)
    ensures m3.readings[rom].generation > m1.readings[rom].generation && m3.health[role].Ok?
  {
    SampleRestoresHealth(t, m, role, rom, first, at);
    RunKeepsCounted(t, m1, between, role, rom, at, m1.readings[rom].generation);
    AgingCounts(t, m2, role, rom, again);
    SampleRestoresHealth(t, m2, role, rom, second, again);
  }

  lemma StoreKeepsGeneration(t: Thresholds, m: Manager, stored: string, r: Reading, now: int, rom: string)
    requires Valid(t, m) && stored in m.readings && Coherent(t, r) && rom in m.readings
    requires r.generation == m.readings[stored].generation
    ensures var m' := RefreshAfter(t, m, stored, r, now);
            && m'.assignments == m.assignments && m'.revisions == m.revisions && m'.readings.Keys == m.readings.Keys
            && m'.readings[rom].generation >= m.readings[rom].generation
  {
    var stocked := SetReading(t, m, stored, r);
    RefreshKeepsReading(t, stocked, RolesOf(stocked, stored), rom, now);
  }

  lemma SampleKeepsGeneration(t: Thresholds, m: Manager, other: string, value: Option<real>, now: int, rom: string)
    requires Valid(t, m) && rom in m.readings
    ensures var m' := RecordValid(t, m, other, value, now).0;
            && m'.assignments == m.assignments && m'.revisions == m.revisions && m'.readings.Keys == m.readings.Keys
            && m'.readings[rom].generation >= m.readings[rom].generation
  {
    if other in m.readings && !Precedes(m.readings[other], now) {
      if !InRange(t, value) {
        StoreKeepsGeneration(t, m, other, WithFailure(m.readings[other], now), now, rom);
      } else {
        RefreshKeepsReading(t, m, RolesOf(m, other), rom, now);
        var aged := AgeBeforeSample(t, m, other, now);
        StoreKeepsGeneration(t, aged, other, WithSample(aged.readings[other], value.value, now), now, rom);
      }
    }
  }

  lemma FailureKeepsGeneration(t: Thresholds, m: Manager, other: string, now: int, rom: string)
    requires Valid(t, m) && rom in m.readings
    ensures var m' := RecordFailure(t, m, other, now).0;
            && m'.assignments == m.assignments && m'.revisions == m.revisions && m'.readings.Keys == m.readings.Keys
            && m'.readings[rom].generation >= m.readings[rom].generation
  {
    if other in m.readings && !Precedes(m.readings[other], now) {
      StoreKeepsGeneration(t, m, other, WithFailure(m.readings[other], now), now, rom);
    }
  }

  lemma DiscoveryKeepsGeneration(t: Thresholds, m: Manager, roms: seq<string>, capacity: nat, now: int, rom: string)
    requires Valid(t, m) && rom in m.readings
    ensures var m' := RecordDiscovery(t, m, roms, capacity, now).0;
            && m'.assignments == m.assignments && m'.revisions == m.revisions && m'.readings.Keys == m.readings.Keys
            && m'.readings[rom].generation >= m.readings[rom].generation
  {
    if DiscoveryAccepted(m, roms, capacity, now) {
      RefreshKeepsReading(t, Seen(t, m, roms, now), ROLES, rom, now);
    }
  }

  lemma LookKeepsGeneration(t: Thresholds, m: Manager, role: Role, now: int, rom: string)
    requires Valid(t, m) && rom in m.readings
    ensures var m' := RefreshRole(t, m, role, now).0;
            && m'.assignments == m.assignments && m'.revisions == m.revisions && m'.readings.Keys == m.readings.Keys
            && m'.readings[rom].generation >= m.readings[rom].generation
  {
    assert RefreshRoles(t, m, [role], now).0 == RefreshRole(t, m, role, now).0;
    RefreshKeepsReading(t, m, [role], rom, now);
  }

  lemma OperationKeepsGeneration(t: Thresholds, m: Manager, op: Op, rom: string)
    requires Valid(t, m) && rom in m.readings
    ensures var m' := Apply(t, m, op);
            && m'.assignments == m.assignments && m'.revisions == m.revisions && m'.readings.Keys == m.readings.Keys
            && m'.readings[rom].generation >= m.readings[rom].generation
  {
    hide Valid, RecordValid, RecordFailure, RecordDiscovery, RefreshRole;
    match op
    case Sample(other, value, now) => SampleKeepsGeneration(t, m, other, value, now, rom);
    case Failure(other, now) => FailureKeepsGeneration(t, m, other, now, rom);
    case Discovery(roms, capacity, now) => DiscoveryKeepsGeneration(t, m, roms, capacity, now, rom);
    case Look(role, now) => LookKeepsGeneration(t, m, role, now, rom);
  }

  /** Without reassignment a failure generation never goes down. */
  lemma {:induction false} GenerationNeverFalls(t: Thresholds, m: Manager, ops: seq<Op>, rom: string)
    requires Valid(t, m) && rom in m.readings
    ensures var m' := Run(t, m, ops);
            && m'.assignments == m.assignments && m'.revisions == m.revisions && rom in m'.readings
            && m'.readings[rom].generation >= m.readings[rom].generation
    decreases |ops|
  {
    if ops != [] {
      OperationKeepsGeneration(t, m, ops[0], rom);
      GenerationNeverFalls(t, Apply(t, m, ops[0]), ops[1..], rom);
    }
  }
}
