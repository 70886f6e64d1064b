/** The sensor supervisor object (app/temperature_manager.py): dictionaries of readings, health and
    revisions, updated in place by methods that are proved to make the transitions of TemperatureModel. */
module TemperatureSupervision {
  import opened Options
  import opened TemperatureModel

  lemma RolesAreListed()
    ensures forall role: Role :: role in ROLES
  {
    forall role: Role ensures role in ROLES {
      match role
      case RoofTentSensor => assert role == ROLES[0];
      case CabinSensor => assert role == ROLES[1];
      case OutsideSensor => assert role == ROLES[2];
    }
  }

  class TemperatureManager {
    const thresholds: Thresholds
    const capacity: nat

    var assignments: map<Role, string>
    var revisions: map<Role, nat>
    var readings: map<string, Reading>
    var discovered: seq<string>
    var healthByRole: map<Role, Health>

    ghost function View(): Manager
      reads this
    {
      Manager(assignments, revisions, readings, discovered, healthByRole)
    }

    ghost predicate Supervised()
      reads this
    {
      Valid(thresholds, View())
    }

    constructor (thresholds: Thresholds, capacity: nat)
      requires ValidThresholds(thresholds)
      ensures this.thresholds == thresholds && this.capacity == capacity
      ensures Supervised() && assignments == map[] && readings == map[] && discovered == []
      ensures forall role: Role :: role in revisions && revisions[role] == 0 && role in healthByRole && healthByRole[role] == Missing
    {
      this.thresholds, this.capacity := thresholds, capacity;
      assignments, readings, discovered := map[], map[], [];
      revisions := map[RoofTentSensor := 0, CabinSensor := 0, OutsideSensor := 0];
      healthByRole := map[RoofTentSensor := Missing, CabinSensor := Missing, OutsideSensor := Missing];
      new;
      forall role: Role ensures role in revisions && revisions[role] == 0 && role in healthByRole && healthByRole[role] == Missing {
        match role
        case RoofTentSensor =>
        case CabinSensor =>
        case OutsideSensor =>
      }
    }

    method CountFailure(rom: string) returns (generation: nat)
      requires rom in readings
      modifies `readings
      ensures generation == old(readings[rom].generation) + 1
      ensures readings == old(readings)[rom := old(readings[rom]).(generation := generation)]
    {
      generation := readings[rom].generation + 1;
      readings := readings[rom := readings[rom].(generation := generation)];
    }

    method AgeRole(role: Role, now: int) returns (snapshot: Option<SensorSnapshot>)
      requires Supervised()
      modifies `readings, `healthByRole
      ensures Supervised() && (View(), snapshot) == RefreshRole(thresholds, old(View()), role, now)
    {
      SnapshotNamesSensor(thresholds, View(), role, now);
      hide HealthSnapshot;
      snapshot := HealthSnapshot(thresholds, Manager(assignments, revisions, readings, discovered, healthByRole), role, now);
      if snapshot.None? { return; }
      var previous, current := healthByRole[role], snapshot.value.health;
      if current != previous {
        healthByRole := healthByRole[role := current];
        if current.Failed? && snapshot.value.rom.Some? {
          var generation := CountFailure(snapshot.value.rom.value);
          snapshot := Some(snapshot.value.(generation := generation));
        }
      }
    }

    /** Ages the listed roles in order; a refused snapshot ends the loop, as its exception would. */
    method AgeRoles(roles: seq<Role>, now: int) returns (complete: bool)
      requires Supervised()
      modifies `readings, `healthByRole
      ensures Supervised() && (View(), complete) == RefreshRoles(thresholds, old(View()), roles, now)
    {
      var i := 0;
      while i < |roles|
        invariant 0 <= i <= |roles| && Supervised()
        invariant RefreshRoles(thresholds, View(), roles[i..], now) == RefreshRoles(thresholds, old(View()), roles, now)
      {
        var snapshot := AgeRole(roles[i], now);
        if snapshot.None? { return false; }
        assert roles[i..][1..] == roles[i + 1..];
        i := i + 1;
      }
      return true;
    }

    method AgeRom(rom: string, now: int)
      requires Supervised()
      modifies `readings, `healthByRole
      ensures Supervised() && View() == RefreshRom(thresholds, old(View()), rom, now)
    {
      var using: seq<Role> := [];
      var i := 0;
      while i < |ROLES|
        invariant 0 <= i <= |ROLES|
        invariant using == (if i > 0 && RoofTentSensor in assignments && assignments[RoofTentSensor] == rom then [RoofTentSensor] else [])
                           + (if i > 1 && CabinSensor in assignments && assignments[CabinSensor] == rom then [CabinSensor] else [])
                           + (if i > 2 && OutsideSensor in assignments && assignments[OutsideSensor] == rom then [OutsideSensor] else [])
      {
        if ROLES[i] in assignments && assignments[ROLES[i]] == rom { using := using + [ROLES[i]]; }
        i := i + 1;
      }
      var complete := AgeRoles(using, now);
    }

    method Store(rom: string, reading: Reading, now: int)
      requires Supervised() && rom in readings && Coherent(thresholds, reading)
      modifies `readings, `healthByRole
      ensures Supervised() && View() == RefreshAfter(thresholds, old(View()), rom, reading, now)
    {
      readings := readings[rom := reading];
      assert View() == SetReading(thresholds, old(View()), rom, reading);
      AgeRom(rom, now);
    }

    method TakeValid(rom: string, value: Option<real>, now: int) returns (stored: bool)
      requires Supervised()
      modifies `readings, `healthByRole
      ensures Supervised() && (View(), stored) == RecordValid(thresholds, old(View()), rom, value, now)
    {
      if rom !in readings || Precedes(readings[rom], now) { return false; }
      if !InRange(thresholds, value) {
        Store(rom, WithFailure(readings[rom], now), now);
        return false;
      }
      AgeElapsed(rom, now);
      Store(rom, WithSample(readings[rom], value.value, now), now);
      return true;
    }

    method AgeElapsed(rom: string, now: int)
      requires Supervised() && rom in readings && !Precedes(readings[rom], now)
      modifies `readings, `healthByRole
      ensures Supervised() && View() == AgeBeforeSample(thresholds, old(View()), rom, now)
      ensures rom in readings && readings[rom] == old(readings[rom]).(generation := readings[rom].generation)
    {
      RefreshKeepsReading(thresholds, View(), RolesOf(View(), rom), rom, now);
      var anchor := readings[rom].lastValid;
      if anchor.None? { anchor := readings[rom].unavailableSince; }
      if anchor.Some? && now - anchor.value >= thresholds.failed { AgeRom(rom, now); }
    }

    method TakeFailure(rom: string, now: int) returns (known: bool)
      requires Supervised()
      modifies `readings, `healthByRole
      ensures Supervised() && (View(), known) == RecordFailure(thresholds, old(View()), rom, now)
    {
      if rom !in readings || Precedes(readings[rom], now) { return false; }
      Store(rom, WithFailure(readings[rom], now), now);
      return true;
    }

    method HasDuplicate(roms: seq<string>) returns (duplicate: bool)
      ensures duplicate == !Distinct(roms)
    {
      var seen: set<string> := {};
      var i := 0;
      while i < |roms|
        invariant 0 <= i <= |roms|
        invariant forall rom :: rom in seen <==> rom in roms[..i]
        invariant Distinct(roms[..i])
      {
        if roms[i] in seen {
          assert exists k :: 0 <= k < i && roms[..i][k] == roms[i];
          return true;
        }
        seen := seen + {roms[i]};
        i := i + 1;
      }
      assert roms[..i] == roms;
      return false;
    }

    /** Stamps every reading in place with what the scan says about its ROM. */
    method StampReadings(roms: seq<string>, now: int)
      modifies `readings
      ensures readings == map rom | rom in old(readings) :: WithDiscovery(old(readings)[rom], rom in roms, now)
    {
      var left := readings.Keys;
      while left != {}
        invariant left <= readings.Keys == old(readings).Keys
        invariant forall rom :: rom in readings ==>
          readings[rom] == if rom in left then old(readings)[rom] else WithDiscovery(old(readings)[rom], rom in roms, now)
        decreases |left|
      {
        var rom :| rom in left;
        readings := readings[rom := WithDiscovery(readings[rom], rom in roms, now)];
        left := left - {rom};
      }
    }

    method TakeDiscovery(roms: seq<string>, now: int) returns (accepted: bool)
      requires Supervised()
      modifies `readings, `discovered, `healthByRole
      ensures Supervised() && (View(), accepted) == RecordDiscovery(thresholds, old(View()), roms, capacity, now)
    {
      var duplicate := HasDuplicate(roms);
      if |roms| > capacity || duplicate { return false; }
      if exists rom :: rom in readings && Precedes(readings[rom], now) { return false; }
      discovered := roms;
      StampReadings(roms, now);
      assert View() == Seen(thresholds, old(View()), roms, now);
      var complete := AgeRoles(ROLES, now);
      return true;
    }

    method Reassign(wanted: map<Role, string>) returns (accepted: bool)
      requires Supervised()
      modifies `assignments, `revisions, `readings
      ensures Supervised() && (View(), accepted) == Configure(thresholds, old(View()), wanted)
    {
      if exists r1, r2 :: r1 in wanted && r2 in wanted && r1 != r2 && wanted[r1] == wanted[r2] { return false; }
      readings := map rom | rom in wanted.Values ::
        if rom in readings then readings[rom]
        else NEW_READING.(present := if discovered == [] then None else Some(rom in discovered));
      CountReassignments(wanted);
      assignments := wanted;
      assert View() == Configure(thresholds, old(View()), wanted).0;
      return true;
    }

    method CountReassignments(wanted: map<Role, string>)
      requires forall role: Role :: role in revisions
      modifies `revisions
      ensures revisions == map role: Role | role in old(revisions) ::
        if Changed(assignments, wanted, role) then old(revisions)[role] + 1 else old(revisions)[role]
    {
      var i := 0;
      while i < |ROLES|
        invariant 0 <= i <= |ROLES| && revisions.Keys == old(revisions).Keys
        invariant forall role: Role :: role in old(revisions)
        invariant forall role: Role ::
          revisions[role] == if role in ROLES[..i] && Changed(assignments, wanted, role) then old(revisions)[role] + 1 else old(revisions)[role]
      {
        var role := ROLES[i];
        assert ROLES[..i + 1] == ROLES[..i] + [role];
        assert role !in ROLES[..i];
        if Changed(assignments, wanted, role) { revisions := revisions[role := revisions[role] + 1]; }
        i := i + 1;
      }
      RolesAreListed();
      assert ROLES[..i] == ROLES;
    }
  }
}
