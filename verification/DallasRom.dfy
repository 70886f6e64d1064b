/** ROM codes of 1-Wire sensors (adapters/ds18b20_adapter.py): their check byte, their names, and which scan results are
    accepted. */
module DallasRom {
  import opened Options
  import opened Bytes

  const POLYNOMIAL: bv8 := 0x8C
  const FAMILY: byte := 0x28

  // ---------------------------------------------------------------- the check byte

  function Shift(v: bv8): bv8 {
    if v & 1 == 1 then (v >> 1) ^ POLYNOMIAL else v >> 1
  }

  function ShiftTimes(v: bv8, n: nat): bv8
    decreases n
  {
    if n == 0 then v else ShiftTimes(Shift(v), n - 1)
  }

  /** One byte taken into the register at once. */
  function Mix(crc: bv8, x: bv8): bv8 {
    ShiftTimes(crc ^ x, 8)
  }

  function Fold(crc: bv8, data: seq<byte>): bv8
    decreases |data|
  {
    if data == [] then crc else Fold(Mix(crc, data[0] as bv8), data[1..])
  }

  function Crc8(data: seq<byte>): byte {
    Fold(0, data) as byte
  }

  lemma EightRounds(v: bv8)
    ensures ShiftTimes(v, 8) == Shift(Shift(Shift(Shift(Shift(Shift(Shift(Shift(v))))))))
  {
    assert ShiftTimes(v, 8) == ShiftTimes(Shift(Shift(Shift(Shift(v)))), 4);
  }

  lemma FirstSteps()
    ensures Mix(0x00, 0x31) == 0xE0
    ensures Mix(0xE0, 0x32) == 0xEB
    ensures Mix(0xEB, 0x33) == 0x95
  {
    EightRounds(0x00 ^ 0x31);
    EightRounds(0xE0 ^ 0x32);
    EightRounds(0xEB ^ 0x33);
  }

  lemma SecondSteps()
    ensures Mix(0x95, 0x34) == 0xF1
    ensures Mix(0xF1, 0x35) == 0xAB
    ensures Mix(0xAB, 0x36) == 0xEC
  {
    EightRounds(0x95 ^ 0x34);
    EightRounds(0xF1 ^ 0x35);
    EightRounds(0xAB ^ 0x36);
  }

  lemma ThirdSteps()
    ensures Mix(0xEC, 0x37) == 0x77
    ensures Mix(0x77, 0x38) == 0x07
    ensures Mix(0x07, 0x39) == 0xA1
  {
    EightRounds(0xEC ^ 0x37);
    EightRounds(0x77 ^ 0x38);
    EightRounds(0x07 ^ 0x39);
  }

  lemma FoldNext(crc: bv8, data: seq<byte>, i: nat, next: bv8)
    requires i < |data| && Mix(crc, data[i] as bv8) == next
    ensures Fold(crc, data[i..]) == Fold(next, data[i + 1..])
  {
    assert data[i..][1..] == data[i + 1..];
  }

  /** The nine digits that CRCs are compared by. */
  const CHECKED: seq<byte> := [0x31, 0x32, 0x33, 0x34, 0x35, 0x36, 0x37, 0x38, 0x39]

  /** The published check value of the Dallas CRC-8. */
  lemma KnownCrc8()
    ensures Crc8(CHECKED) == 0xA1
  {
    hide Mix, Fold;
    FirstSteps();
    SecondSteps();
    ThirdSteps();
    FoldNext(0x00, CHECKED, 0, 0xE0);
    FoldNext(0xE0, CHECKED, 1, 0xEB);
    FoldNext(0xEB, CHECKED, 2, 0x95);
    FoldNext(0x95, CHECKED, 3, 0xF1);
    FoldNext(0xF1, CHECKED, 4, 0xAB);
    FoldNext(0xAB, CHECKED, 5, 0xEC);
    FoldNext(0xEC, CHECKED, 6, 0x77);
    FoldNext(0x77, CHECKED, 7, 0x07);
    FoldNext(0x07, CHECKED, 8, 0xA1);
    NothingLeft(0xA1, CHECKED[9..]);
    assert CHECKED[0..] == CHECKED;
  }

  lemma NothingLeft(crc: bv8, data: seq<byte>)
    requires data == []
    ensures Fold(crc, data) == crc
  {
  }

  /** One bit of the loop: register and byte are shifted side by side. */
  function BitStep(crc: bv8, value: bv8): bv8 {
    if (crc ^ value) & 1 == 1 then (crc >> 1) ^ POLYNOMIAL else crc >> 1
  }

  lemma BitStepIsShift(crc: bv8, value: bv8)
    ensures BitStep(crc, value) ^ (value >> 1) == Shift(crc ^ value)
  {
  }

  lemma XorZero(v: bv8)
    ensures v ^ 0 == v
  {
  }

  lemma ShiftsAdd(x: bv8, value: bv8, n: nat)
    requires n < 8 && value == x >> (n as bv4)
    ensures value >> 1 == x >> ((n + 1) as bv4)
  {
    assert ((n + 1) as bv4) == (n as bv4) + 1 by {
      if n == 0 {} else if n == 1 {} else if n == 2 {} else if n == 3 {} else if n == 4 {} else if n == 5 {} else if n == 6 {} else {}
    }
    ShiftOnce(x, n as bv4);
  }

  lemma ShiftOnce(x: bv8, n: bv4)
    requires n < 8
    ensures (x >> n) >> 1 == x >> (n + 1)
  {
  }

  lemma AllShiftedOut(x: bv8)
    ensures x >> (8 as bv4) == 0
  {
  }

  /** One round of the loop: the rounds left to do still lead to the same register. */
  lemma RoundKeeps(b: bv8, r: bv8, value: bv8, round: nat)
    requires round < 8 && value == b >> (round as bv4)
    ensures value >> 1 == b >> ((round + 1) as bv4)
    ensures ShiftTimes(BitStep(r, value) ^ (value >> 1), 8 - (round + 1)) == ShiftTimes(r ^ value, 8 - round)
  {
    BitStepIsShift(r, value);
    ShiftsAdd(b, value, round);
    hide BitStep, Shift;
  }

  method TakeByte(crc: bv8, b: bv8) returns (r: bv8)
    ensures r == Mix(crc, b)
  {
    hide BitStep, ShiftTimes;
    r := crc;
    var value := b;
    var round := 0;
    NothingShifted(b);
    while round < 8
      invariant 0 <= round <= 8
      invariant value == b >> (round as bv4)
      invariant ShiftTimes(r ^ value, 8 - round) == Mix(crc, b)
    {
      RoundKeeps(b, r, value, round);
      r := BitStep(r, value);
      value := value >> 1;
      round := round + 1;
    }
    AllShiftedOut(b);
    NoShiftsLeft(r ^ value);
    XorZero(r);
  }

  lemma NothingShifted(b: bv8)
    ensures b >> (0 as bv4) == b
  {
  }

  lemma NoShiftsLeft(v: bv8)
    ensures ShiftTimes(v, 0) == v
  {
  }

  method Compute(data: seq<byte>) returns (crc: byte)
    ensures crc == Crc8(data)
  {
    var register: bv8 := 0;
    var i := 0;
    while i < |data|
      invariant 0 <= i <= |data|
      invariant Fold(register, data[i..]) == Fold(0, data)
    {
      assert data[i..][1..] == data[i + 1..];
      register := TakeByte(register, data[i] as bv8);
      i := i + 1;
    }
    crc := register as byte;
  }

  // The top bit of the polynomial is set, so the top bit of a shifted register tells which branch made it.
  lemma ShiftIsInjective(v: bv8, w: bv8)
    requires Shift(v) == Shift(w)
    ensures v == w
  {
  }

  lemma {:induction false} ShiftTimesIsInjective(v: bv8, w: bv8, n: nat)
    requires ShiftTimes(v, n) == ShiftTimes(w, n)
    ensures v == w
    decreases n
  {
    if n > 0 {
      ShiftTimesIsInjective(Shift(v), Shift(w), n - 1);
      ShiftIsInjective(v, w);
    }
  }

  lemma XorCancels(v: bv8, x: bv8, y: bv8)
    ensures v ^ x == v ^ y ==> x == y
    ensures x ^ v == y ^ v ==> x == y
  {
  }

  lemma ByteBits(a: int)
    requires 0 <= a < 256
    ensures (a as bv8) as int == a
  {
    if a < 128 { if a < 64 {} else {} } else { if a < 192 {} else {} }
  }

  lemma MixIsInjective(v: bv8, w: bv8, x: bv8)
    ensures Mix(v, x) == Mix(w, x) ==> v == w
    ensures Mix(x, v) == Mix(x, w) ==> v == w
  {
    hide ShiftTimes;
    if Mix(v, x) == Mix(w, x) {
      ShiftTimesIsInjective(v ^ x, w ^ x, 8);
    }
    if Mix(x, v) == Mix(x, w) {
      ShiftTimesIsInjective(x ^ v, x ^ w, 8);
    }
    XorCancels(x, v, w);
  }

  lemma {:induction false} FoldIsInjective(v: bv8, w: bv8, data: seq<byte>)
    requires Fold(v, data) == Fold(w, data)
    ensures v == w
    decreases |data|
  {
    hide Mix;
    if data != [] {
      var x := data[0] as bv8;
      FoldIsInjective(Mix(v, x), Mix(w, x), data[1..]);
      MixIsInjective(v, w, x);
    }
  }

  lemma {:induction false} FoldNoticesChange(v: bv8, data: seq<byte>, i: nat, b: byte)
    requires i < |data| && data[i] != b
    ensures Fold(v, data) != Fold(v, data[i := b])
    decreases |data|
  {
    hide Mix;
    var changed := data[i := b];
    if i == 0 {
      assert changed[1..] == data[1..];
      if Fold(v, data) == Fold(v, changed) {
        var x, y := data[0] as bv8, b as bv8;
        FoldIsInjective(Mix(v, x), Mix(v, y), data[1..]);
        MixIsInjective(x, y, v);
        ByteBits(data[0]);
        ByteBits(b);
      }
    } else {
      assert changed[1..] == data[1..][i - 1 := b];
      FoldNoticesChange(Mix(v, data[0] as bv8), data[1..], i - 1, b);
    }
  }

  lemma {:induction false} FoldAppend(v: bv8, data: seq<byte>, b: byte)
    ensures Fold(v, data + [b]) == Mix(Fold(v, data), b as bv8)
    decreases |data|
  {
    hide Mix;
    if data == [] {
      assert [b][1..] == [];
      assert data + [b] == [b];
    } else {
      assert (data + [b])[1..] == data[1..] + [b];
      FoldAppend(Mix(v, data[0] as bv8), data[1..], b);
    }
  }

  lemma ZeroStays(n: nat)
    ensures ShiftTimes(0, n) == 0
  {
  }

  lemma XorSelf(v: bv8)
    ensures v ^ v == 0
  {
  }

  lemma MixSelf(v: bv8)
    ensures Mix(v, v) == 0
  {
    hide ShiftTimes;
    XorSelf(v);
    ZeroStays(8);
  }

  lemma BitsByte(v: bv8)
    ensures (v as byte) as bv8 == v
  {
  }

  /** Appending the check byte of any data is the only way to bring the check to zero. */
  lemma CheckByteCloses(data: seq<byte>, b: byte)
    ensures Crc8(data + [b]) == 0 <==> b == Crc8(data)
  {
    hide Mix, Fold;
    var v := Fold(0, data);
    var w := Fold(0, data + [b]);
    FoldAppend(0, data, b);
    MixSelf(v);
    MixIsInjective(b as bv8, v, v);
    assert w == Mix(v, b as bv8) && Mix(v, v) == 0;
    assert w == 0 <==> b as bv8 == v;
    ByteBits(b);
    BitsByte(v);
    BitsByte(w);
  }

  // ---------------------------------------------------------------- ROM codes and their names

  predicate ValidRom(raw: seq<byte>) {
    |raw| == 8 && raw[0] == FAMILY && Crc8(raw) == 0
  }

  const DIGITS := "0123456789abcdef"

  function RomId(raw: seq<byte>): (id: string)
    ensures |id| == 2 * |raw|
  {
    if raw == [] then "" else [DIGITS[raw[0] / 16], DIGITS[raw[0] % 16]] + RomId(raw[1..])
  }

  /** No valid ROM code becomes another one by changing one byte. */
  lemma ChangedRomIsInvalid(raw: seq<byte>, i: nat, b: byte)
    requires ValidRom(raw) && i < |raw| && raw[i] != b
    ensures !ValidRom(raw[i := b])
  {
    FoldNoticesChange(0, raw, i, b);
    BitsByte(Fold(0, raw));
    BitsByte(Fold(0, raw[i := b]));
  }

  lemma DigitsDiffer(a: nat, b: nat)
    requires a < 16 && b < 16 && DIGITS[a] == DIGITS[b]
    ensures a == b
  {
  }

  /** Different codes have different names. */
  lemma {:induction false} RomIdIsInjective(a: seq<byte>, b: seq<byte>)
    requires RomId(a) == RomId(b)
    ensures a == b
    decreases |a|
  {
    if a != [] {
      var x, y := RomId(a), RomId(b);
      assert x[0] == y[0] && x[1] == y[1] && x[2..] == RomId(a[1..]) && y[2..] == RomId(b[1..]);
      DigitsDiffer(a[0] / 16, b[0] / 16);
      DigitsDiffer(a[0] % 16, b[0] % 16);
      RomIdIsInjective(a[1..], b[1..]);
      assert a == [a[0]] + a[1..] && b == [b[0]] + b[1..];
    }
  }

  // ---------------------------------------------------------------- scan results

  datatype Rom = Rom(raw: seq<byte>, id: string)

  predicate Before(a: string, b: string) {
    b != [] && (a == [] || a[0] < b[0] || (a[0] == b[0] && Before(a[1..], b[1..])))
  }

  lemma {:induction false} BeforeIsTotal(a: string, b: string)
    ensures a == b || Before(a, b) || Before(b, a)
    decreases |a|
  {
    if a != [] && b != [] {
      BeforeIsTotal(a[1..], b[1..]);
      assert a == [a[0]] + a[1..] && b == [b[0]] + b[1..];
    }
  }

  function Insert(r: Rom, sorted: seq<Rom>): seq<Rom> {
    if sorted == [] || Before(r.id, sorted[0].id) then [r] + sorted else [sorted[0]] + Insert(r, sorted[1..])
  }

  function Ids(roms: seq<Rom>): set<string> {
    set r | r in roms :: r.id
  }

  /** What a scan result is taken for: the valid codes in the order of their names, or nothing at all if one is invalid, two
      are equal, or there are too many. */
  function Normalized(raws: seq<seq<byte>>, limit: nat): Option<seq<Rom>> {
    if |raws| > limit then None else Collected(raws)
  }

  function Collected(raws: seq<seq<byte>>): Option<seq<Rom>> {
    if raws == [] then Some([])
    else
      var last := raws[|raws| - 1];
      match Collected(raws[..|raws| - 1])
      case None => None
      case Some(roms) => if !ValidRom(last) || RomId(last) in Ids(roms) then None else Some(Insert(Rom(last, RomId(last)), roms))
  }

  predicate Ascending(roms: seq<Rom>) {
    |roms| < 2 || (Before(roms[0].id, roms[1].id) && Ascending(roms[1..]))
  }

  predicate Genuine(r: Rom) {
    ValidRom(r.raw) && r.id == RomId(r.raw)
  }

  lemma AscendingCons(r: Rom, rest: seq<Rom>)
    requires Ascending(rest) && (rest != [] ==> Before(r.id, rest[0].id))
    ensures Ascending([r] + rest)
  {
    assert ([r] + rest)[1..] == rest;
  }

  lemma {:induction false} InsertHas(r: Rom, sorted: seq<Rom>)
    ensures multiset(Insert(r, sorted)) == multiset(sorted) + multiset{r}
    decreases |sorted|
  {
    if sorted != [] && !Before(r.id, sorted[0].id) {
      InsertHas(r, sorted[1..]);
      assert sorted == [sorted[0]] + sorted[1..];
    }
  }

  lemma {:induction false} InsertAscends(r: Rom, sorted: seq<Rom>)
    requires Ascending(sorted) && r.id !in Ids(sorted)
    ensures Ascending(Insert(r, sorted))
    ensures Insert(r, sorted)[0] == r || (sorted != [] && Insert(r, sorted)[0] == sorted[0])
    decreases |sorted|
  {
    if sorted != [] && !Before(r.id, sorted[0].id) {
      assert sorted[0].id in Ids(sorted);
      BeforeIsTotal(r.id, sorted[0].id);
      assert forall x :: x in sorted[1..] ==> x in sorted;
      InsertAscends(r, sorted[1..]);
      AscendingCons(sorted[0], Insert(r, sorted[1..]));
    } else {
      AscendingCons(r, sorted);
    }
  }

  lemma SameMembers(a: seq<Rom>, b: seq<Rom>, r: Rom)
    requires multiset(a) == multiset(b) + multiset{r}
    ensures forall x :: x in a <==> x in b || x == r
  {
    assert forall x :: x in a <==> x in multiset(a);
  }

  /** The raw codes of the accepted sensors. */
  function Raws(roms: seq<Rom>): multiset<seq<byte>> {
    if roms == [] then multiset{} else multiset{roms[0].raw} + Raws(roms[1..])
  }

  lemma {:induction false} RawsOfInsert(r: Rom, sorted: seq<Rom>)
    ensures Raws(Insert(r, sorted)) == Raws(sorted) + multiset{r.raw}
    decreases |sorted|
  {
    var inserted := Insert(r, sorted);
    if sorted == [] || Before(r.id, sorted[0].id) {
      assert inserted[1..] == sorted;
    } else {
      RawsOfInsert(r, sorted[1..]);
      assert inserted[1..] == Insert(r, sorted[1..]);
    }
  }

  predicate FaithfulScan(raws: seq<seq<byte>>, roms: seq<Rom>) {
    Raws(roms) == multiset(raws) && Ascending(roms) && Represents(raws, roms)
  }

  lemma FaithfulInsert(before: seq<seq<byte>>, roms: seq<Rom>, raw: seq<byte>)
    requires FaithfulScan(before, roms) && ValidRom(raw) && RomId(raw) !in Ids(roms)
    ensures FaithfulScan(before + [raw], Insert(Rom(raw, RomId(raw)), roms))
  {
    var r := Rom(raw, RomId(raw));
    var longer := Insert(r, roms);
    InsertHas(r, roms);
    InsertAscends(r, roms);
    RawsOfInsert(r, roms);
    SameMembers(longer, roms, r);
    hide Insert, Ascending, Raws, ValidRom, RomId, Ids;
    MembersArrive(before, roms, raw, longer);
    assert multiset(before + [raw]) == multiset(before) + multiset{raw};
  }

  /** Which codes are there, and that each is genuine. */
  predicate Represents(raws: seq<seq<byte>>, roms: seq<Rom>) {
    && (forall r :: r in roms ==> Genuine(r))
    && (forall r :: r in roms ==> r.raw in raws) && (forall raw :: raw in raws ==> Rom(raw, RomId(raw)) in roms)
  }

  lemma MembersArrive(before: seq<seq<byte>>, roms: seq<Rom>, raw: seq<byte>, longer: seq<Rom>)
    requires Represents(before, roms) && ValidRom(raw)
    requires forall x :: x in longer <==> x in roms || x == Rom(raw, RomId(raw))
    ensures Represents(before + [raw], longer)
  {
    assert forall x :: x in before + [raw] <==> x in before || x == raw;
    hide ValidRom, RomId;
  }

  /** An accepted scan is the scanned codes and no others, each valid and once, in strict order of their names. */
  lemma {:induction false} AcceptedScan(raws: seq<seq<byte>>)
    requires Collected(raws).Some?
    ensures FaithfulScan(raws, Collected(raws).value)
    decreases |raws|
  {
    if raws != [] {
      hide FaithfulScan, Insert, ValidRom, RomId, Ids;
      var before, last := raws[..|raws| - 1], raws[|raws| - 1];
      AcceptedScan(before);
      FaithfulInsert(before, Collected(before).value, last);
      assert raws == before + [last];
    }
  }

  /** A scan is accepted exactly if all its codes are valid and no two are equal. */
  lemma {:induction false} ScanIsAcceptedIff(raws: seq<seq<byte>>)
    ensures Collected(raws).Some? <==>
      (forall i :: 0 <= i < |raws| ==> ValidRom(raws[i])) && (forall i, j :: 0 <= i < j < |raws| ==> raws[i] != raws[j])
    decreases |raws|
  {
    if raws != [] {
      hide ValidRom, RomId, Ids, Raws, Ascending, Represents;
      var before, last := raws[..|raws| - 1], raws[|raws| - 1];
      assert raws == before + [last];
      ScanIsAcceptedIff(before);
      if Collected(before).Some? {
        AcceptedScan(before);
        if ValidRom(last) { NamesTellRepeats(before, Collected(before).value, last); }
        if last in before {
          var i :| 0 <= i < |before| && before[i] == last;
          assert raws[i] == raws[|before|];
        }
      }
    }
  }

  lemma NamesTellRepeats(before: seq<seq<byte>>, roms: seq<Rom>, raw: seq<byte>)
    requires Represents(before, roms) && ValidRom(raw)
    ensures RomId(raw) in Ids(roms) <==> raw in before
  {
    hide ValidRom, RomId;
    if RomId(raw) in Ids(roms) {
      var r :| r in roms && r.id == RomId(raw);
      RomIdIsInjective(r.raw, raw);
    }
    if raw in before {
      assert Rom(raw, RomId(raw)) in roms;
    }
  }

  method CanonicalRom(raw: seq<byte>) returns (r: Option<Rom>)
    ensures r == if ValidRom(raw) then Some(Rom(raw, RomId(raw))) else None
  {
    if |raw| != 8 || raw[0] != FAMILY { return None; }
    var crc := Compute(raw);
    if crc != 0 { return None; }
    r := Some(Rom(raw, RomId(raw)));
  }

  method ValidateScan(raws: seq<seq<byte>>, limit: nat) returns (r: Option<seq<Rom>>)
    ensures r == Normalized(raws, limit)
  {
    if |raws| > limit { return None; }
    var sorted: seq<Rom> := [];
    var seen: set<string> := {};
    for i := 0 to |raws|
      invariant Collected(raws[..i]) == Some(sorted) && seen == Ids(sorted)
    {
      assert raws[..i + 1][..i] == raws[..i];
      var rom := CanonicalRom(raws[i]);
      if rom.None? || rom.value.id in seen {
        RejectedPrefix(raws, i + 1);
        return None;
      }
      InsertHas(rom.value, sorted);
      SameMembers(Insert(rom.value, sorted), sorted, rom.value);
      seen := seen + {rom.value.id};
      sorted := Insert(rom.value, sorted);
    }
    assert raws[..|raws|] == raws;
    r := Some(sorted);
  }

  lemma {:induction false} RejectedPrefix(raws: seq<seq<byte>>, n: nat)
    requires n <= |raws| && Collected(raws[..n]).None?
    ensures Collected(raws).None?
    decreases |raws|
  {
    if n < |raws| {
      var before := raws[..|raws| - 1];
      assert before[..n] == raws[..n];
      RejectedPrefix(before, n);
    } else {
      assert raws[..n] == raws;
    }
  }
}
