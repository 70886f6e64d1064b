/** The DS3231 adapter (adapters/ds3231_adapter.py) over a register file whose every I2C operation may fail, after any
    byte of a write, and whose clock keeps running: no fresh read ever returns a torn time. */
module Ds3231 {
  import opened Options
  import opened Bytes
  import opened Ds3231Codec

  const EOSC := 0x80
  const OSF := 0x80

  /** The registers, and for how many seconds the clock has been running. */
  datatype Registers = Registers(time: seq<byte>, control: byte, status: byte, elapsed: nat)

  function SecondsIn(raw: seq<byte>): Option<int> {
    match DecodeTime(raw)
    case None => None
    case Some(d) => Some(Seconds(d))
  }

  predicate Locked(r: Registers) {
    Bit(r.control, EOSC)
  }

  predicate Stopped(r: Registers) {
    Bit(r.status, OSF)
  }

  predicate ReservedSet(status: byte) {
    status / 0x10 % 8 != 0
  }

  /** The century bit: the clock ran out of the supported years. */
  predicate PastCalendar(raw: seq<byte>) {
    |raw| == 7 && raw[5] >= 0x80
  }

  /** The clock shows the line's start second plus what has elapsed, or has run past the calendar. */
  predicate OnLine(r: Registers, line: int) {
    SecondsIn(r.time) == Some(line + r.elapsed) || PastCalendar(r.time)
  }

  /** The chip on its own: a valid time advances with the seconds, a torn one may become anything; EOSC stays, and
      the oscillator-stop flag is only ever set. */
  predicate Runs(r: Registers, s: Registers) {
    && |s.time| == 7 && s.elapsed >= r.elapsed && Locked(s) == Locked(r) && (Stopped(r) ==> Stopped(s))
    && (SecondsIn(r.time).Some? ==> OnLine(s, SecondsIn(r.time).value - r.elapsed))
    && (PastCalendar(r.time) ==> PastCalendar(s.time))
  }

  /** Unless it is locked or stopped, the clock is on one of these lines. */
  ghost predicate Guarded(r: Registers, lines: set<int>) {
    |r.time| == 7 && (!Locked(r) && !Stopped(r) ==> exists line :: line in lines && OnLine(r, line))
  }

  ghost predicate AllGuarded(past: seq<Registers>, from: nat, lines: set<int>) {
    forall k :: from <= k < |past| ==> Guarded(past[k], lines)
  }

  lemma PastCalendarIsUnreadable(raw: seq<byte>)
    requires PastCalendar(raw)
    ensures DecodeTime(raw).None?
  {
  }

  lemma RunningKeepsLine(r: Registers, s: Registers, line: int)
    requires Runs(r, s) && OnLine(r, line)
    ensures OnLine(s, line)
  {
  }

  lemma RunningStaysGuarded(r: Registers, s: Registers, lines: set<int>)
    requires Runs(r, s) && Guarded(r, lines)
    ensures Guarded(s, lines)
  {
    if !Locked(s) && !Stopped(s) {
      var line :| line in lines && OnLine(r, line);
      RunningKeepsLine(r, s, line);
    }
  }

  // ---------------------------------------------------------------- control and status bits

  function WithLock(control: byte): (b: byte)
    ensures Bit(b, EOSC)
  {
    if Bit(control, EOSC) then control else control + 0x80
  }

  function WithoutLock(control: byte): (b: byte)
    ensures !Bit(b, EOSC)
  {
    if Bit(control, EOSC) then control - 0x80 else control
  }

  /** All bits but CONV, which clears itself. */
  function Stable(control: byte): byte {
    if Bit(control, 0x20) then control - 0x20 else control
  }

  predicate ControlMatches(actual: byte, expected: byte) {
    Stable(actual) == Stable(expected) && (Bit(expected, 0x20) || !Bit(actual, 0x20))
  }

  lemma StableKeepsLock(control: byte)
    ensures Bit(Stable(control), EOSC) == Bit(control, EOSC)
  {
  }

  lemma MatchingControlsLockAlike(actual: byte, expected: byte)
    requires ControlMatches(actual, expected)
    ensures Bit(actual, EOSC) == Bit(expected, EOSC)
  {
    StableKeepsLock(actual);
    StableKeepsLock(expected);
  }

  function Weighted(on: bool, weight: int): int {
    if on then weight else 0
  }

  /** A status write clears flags where it writes zero, sets the 32 kHz enable, and leaves the rest. */
  function StatusAfterWrite(status: byte, value: byte): (b: byte)
    ensures Bit(b, OSF) == (Bit(status, OSF) && Bit(value, OSF))
  {
    Weighted(Bit(status, 0x80) && Bit(value, 0x80), 0x80) + status / 0x10 % 8 * 0x10 + Weighted(Bit(value, 0x08), 0x08)
    + Weighted(Bit(status, 0x04), 0x04) + Weighted(Bit(status, 0x02) && Bit(value, 0x02), 0x02)
    + Weighted(Bit(status, 0x01) && Bit(value, 0x01), 0x01)
  }

  // ---------------------------------------------------------------- the chip

  class Rtc {
    var regs: Registers
    /** Every state the registers have been in, the present one last. */
    ghost var past: seq<Registers>
    /** So far every operation succeeded in full, and between them the registers stood still. */
    ghost var calm: bool

    ghost predicate Recorded()
      reads this
    {
      |regs.time| == 7 && past != [] && past[|past| - 1] == regs
    }

    constructor (regs: Registers)
      requires |regs.time| == 7
      ensures this.regs == regs && past == [regs] && Recorded() && calm
    {
      this.regs := regs;
      past, calm := [regs], true;
    }

    method Enter(next: Registers)
      modifies this
      ensures regs == next && past == old(past) + [next] && calm == old(calm)
    {
      regs := next;
      past := past + [next];
    }

    /** Any time passes before an operation. */
    method Wait(ghost lines: set<int>)
      requires Recorded() && Guarded(regs, lines)
      modifies this
      ensures Recorded() && Guarded(regs, lines) && Runs(old(regs), regs)
      ensures old(past) <= past && AllGuarded(past, |old(past)|, lines)
      ensures calm ==> old(calm) && regs == old(regs)
    {
      var s: Registers := *;
      if !Runs(regs, s) { s := regs; }
      RunsInPlace(regs);
      RunningStaysGuarded(regs, s, lines);
      calm := calm && s == regs;
      Enter(s);
    }

    lemma RunningElapses(r: Registers, s: Registers)
      requires Runs(r, s)
      ensures |s.time| == 7 && s.elapsed >= r.elapsed && Locked(s) == Locked(r) && (Stopped(r) ==> Stopped(s))
    {
    }

    lemma RunsInPlace(r: Registers)
      requires |r.time| == 7
      ensures Runs(r, r)
    {
    }

    method ReadTime(ghost lines: set<int>) returns (raw: Option<seq<byte>>)
      requires Recorded() && Guarded(regs, lines)
      modifies this
      ensures Recorded() && Guarded(regs, lines) && Runs(old(regs), regs)
      ensures old(past) <= past && AllGuarded(past, |old(past)|, lines)
      ensures raw.Some? ==> raw.value == regs.time
      ensures calm ==> old(calm) && regs == old(regs) && raw.Some?
    {
      Wait(lines);
      var fails: bool := *;
      calm := calm && !fails;
      return if fails then None else Some(regs.time);
    }

    /** Control and status, as they are read in one or two bytes. */
    method ReadTrust(ghost lines: set<int>) returns (trust: Option<(byte, byte)>)
      requires Recorded() && Guarded(regs, lines)
      modifies this
      ensures Recorded() && Guarded(regs, lines) && Runs(old(regs), regs)
      ensures old(past) <= past && AllGuarded(past, |old(past)|, lines)
      ensures trust.Some? ==> trust.value == (regs.control, regs.status)
      ensures calm ==> old(calm) && regs == old(regs) && trust.Some?
    {
      Wait(lines);
      var fails: bool := *;
      calm := calm && !fails;
      return if fails then None else Some((regs.control, regs.status));
    }

    /** Any number of the bytes arrives, whatever the call returns. */
    method WriteTime(payload: seq<byte>, ghost lines: set<int>) returns (ok: bool)
      requires Recorded() && |payload| == 7 && Guarded(regs, lines) && Locked(regs)
      modifies this
      ensures Recorded() && Guarded(regs, lines) && Locked(regs)
      ensures old(past) <= past && AllGuarded(past, |old(past)|, lines)
      ensures calm ==> old(calm) && regs == old(regs).(time := payload) && ok
    {
      Wait(lines);
      var k: int := *;
      if k < 0 || k > 7 { k := 7; }
      Enter(regs.(time := payload[..k] + regs.time[k..]));
      ok := *;
      calm := calm && ok && k == 7;
      assert k == 7 ==> payload[..k] + old(regs).time[k..] == payload;
    }

    /** The byte arrives or not, whatever the call returns. The caller owes that releasing the lock shows a line. */
    method WriteControl(value: byte, ghost lines: set<int>) returns (ok: bool)
      requires Recorded() && Guarded(regs, lines) && (Bit(value, EOSC) || exists line :: line in lines && OnLine(regs, line))
      modifies this
      ensures Recorded() && Guarded(regs, lines) && old(past) <= past && AllGuarded(past, |old(past)|, lines)
      ensures forall line :: OnLine(old(regs), line) ==> OnLine(regs, line)
      ensures regs.elapsed >= old(regs.elapsed)
      ensures calm ==> old(calm) && regs == old(regs).(control := value) && ok
    {
      hide StatusAfterWrite, Runs;
      ghost var before := regs;
      Wait(lines);
      RunningElapses(before, regs);
      forall line | OnLine(before, line) ensures OnLine(regs, line) { RunningKeepsLine(before, regs, line); }
      var arrives: bool := *;
      if arrives { Enter(regs.(control := value)); }
      ok := *;
      calm := calm && ok && arrives;
    }

    method WriteStatus(value: byte, ghost lines: set<int>) returns (ok: bool)
      requires Recorded() && Guarded(regs, lines) && exists line :: line in lines && OnLine(regs, line)
      modifies this
      ensures Recorded() && Guarded(regs, lines) && old(past) <= past && AllGuarded(past, |old(past)|, lines)
      ensures forall line :: OnLine(old(regs), line) ==> OnLine(regs, line)
      ensures regs.elapsed >= old(regs.elapsed)
      ensures calm ==> old(calm) && regs == old(regs).(status := StatusAfterWrite(old(regs.status), value)) && ok
    {
      hide StatusAfterWrite, Runs;
      ghost var before := regs;
      Wait(lines);
      RunningElapses(before, regs);
      forall line | OnLine(before, line) ensures OnLine(regs, line) { RunningKeepsLine(before, regs, line); }
      var arrives: bool := *;
      if arrives { Enter(regs.(status := StatusAfterWrite(regs.status, value))); }
      ok := *;
      calm := calm && ok && arrives;
    }
  }

  // ---------------------------------------------------------------- the adapter

  datatype Staged = Staged(control: byte, seconds: int)

  /** What the registers show as they are: nothing while they are locked, stopped or unreadable. */
  function Shown(r: Registers): Option<DateTime> {
    if Locked(r) || Stopped(r) || ReservedSet(r.status) then None else DecodeTime(r.time)
  }

  /** The staged moment is still in the time registers. */
  predicate Keeps(r: Registers, staged: Staged) {
    var d := DecodeTime(r.time);
    d.Some? && Seconds(d.value) == staged.seconds && r.time == EncodeTime(d.value)
  }

  /** Only the marker is still set, and nothing reserved. */
  predicate Releasable(r: Registers, staged: Staged) {
    ControlMatches(r.control, WithLock(staged.control)) && Locked(r) && !ReservedSet(r.status)
  }

  /** The status without its oscillator-stop flag, everything else kept. */
  function Cleared(status: byte): byte {
    if Bit(status, OSF) then StatusAfterWrite(status, (if Bit(status, 0x08) then 0x08 else 0) + 0x03) else status
  }

  function Released(r: Registers, staged: Staged): Registers {
    r.(control := staged.control, status := Cleared(r.status))
  }

  lemma ControlMatchesItself(control: byte)
    ensures ControlMatches(control, control)
  {
  }

  lemma ClearedIsClear(status: byte)
    ensures !ReservedSet(status) ==> !ReservedSet(Cleared(status))
    ensures !Bit(Cleared(status), OSF)
    ensures Bit(Cleared(status), 0x08) == Bit(status, 0x08)
    ensures (Bit(status, 0x01) ==> Bit(Cleared(status), 0x01)) && (Bit(status, 0x02) ==> Bit(Cleared(status), 0x02))
  {
    WrittenBits(status, (if Bit(status, 0x08) then 0x08 else 0) + 0x03);
    hide StatusAfterWrite;
  }

  lemma BitsOf(high: bool, middle: int, b3: bool, b2: bool, b1: bool, b0: bool)
    requires 0 <= middle <= 7
    ensures var b: byte := Weighted(high, 0x80) + middle * 0x10 + Weighted(b3, 0x08) + Weighted(b2, 0x04) + Weighted(b1, 0x02) + Weighted(b0, 0x01);
            && b / 0x10 % 8 == middle && Bit(b, 0x08) == b3 && Bit(b, 0x02) == b1 && Bit(b, 0x01) == b0
  {
  }

  lemma WrittenBits(status: byte, value: byte)
    ensures var b := StatusAfterWrite(status, value);
            && ReservedSet(b) == ReservedSet(status) && Bit(b, 0x08) == Bit(value, 0x08)
            && Bit(b, 0x01) == (Bit(status, 0x01) && Bit(value, 0x01)) && Bit(b, 0x02) == (Bit(status, 0x02) && Bit(value, 0x02))
  {
    BitsOf(Bit(status, 0x80) && Bit(value, 0x80), status / 0x10 % 8, Bit(value, 0x08), Bit(status, 0x04),
           Bit(status, 0x02) && Bit(value, 0x02), Bit(status, 0x01) && Bit(value, 0x01));
    hide Bit, Weighted;
  }

  class Adapter {
    const rtc: Rtc
    var staged: Option<Staged>

    constructor (rtc: Rtc)
      ensures this.rtc == rtc && staged.None?
    {
      this.rtc, staged := rtc, None;
    }

    /** A validated snapshot, or a failure. What it returns lies on one of the lines the registers are guarded by. */
    method ReadUtc(ghost lines: set<int>) returns (d: Option<DateTime>, ghost at: nat)
      requires rtc.Recorded() && Guarded(rtc.regs, lines)
      modifies rtc
      ensures rtc.Recorded() && Guarded(rtc.regs, lines)
      ensures old(rtc.regs.elapsed) <= at <= rtc.regs.elapsed
      ensures d.Some? ==> ValidDateTime(d.value) && exists line :: line in lines && Seconds(d.value) == line + at
      ensures rtc.calm ==> old(rtc.calm) && rtc.regs == old(rtc.regs) && d == Shown(rtc.regs)
    {
      at := rtc.regs.elapsed;
      var raw := rtc.ReadTime(lines);
      ghost var seen := rtc.regs;
      at := seen.elapsed;
      if raw.None? { return None, at; }
      var decoded := DecodeTime(raw.value);
      if decoded.None? { return None, at; }
      var trust := rtc.ReadTrust(lines);
      if trust.None? || ReservedSet(trust.value.1) { return None, at; }
      if Bit(trust.value.0, EOSC) || Bit(trust.value.1, OSF) { return None, at; }
      ghost var line :| line in lines && OnLine(seen, line);
      return decoded, at;
    }

    /** Writes and verifies a moment behind the lock. Interrupted after any byte, or done, the registers show the time
        line they showed before, or nothing. */
    method Stage(d: DateTime, ghost lines: set<int>) returns (verified: Option<DateTime>)
      requires rtc.Recorded() && Guarded(rtc.regs, lines)
      modifies this, rtc
      ensures rtc.Recorded() && Guarded(rtc.regs, lines) && old(rtc.past) <= rtc.past && AllGuarded(rtc.past, |old(rtc.past)|, lines)
      ensures verified.Some? ==>
        && ValidDateTime(d) && ValidDateTime(verified.value) && Locked(rtc.regs) && rtc.regs.time == EncodeTime(verified.value)
        && staged.Some? && staged.value.seconds == Seconds(verified.value) && !Bit(staged.value.control, EOSC)
        && (verified.value == d || Seconds(verified.value) == Seconds(d) + 1)
      ensures verified.None? ==> staged.None? || staged == old(staged)
      ensures verified.None? && ValidDateTime(d) ==> staged.None?
      ensures rtc.calm ==> old(rtc.calm) && (verified.Some? <==> ValidDateTime(d) && !ReservedSet(old(rtc.regs.status)))
      ensures rtc.calm && verified.Some? ==>
        && verified == Some(d) && staged == Some(Staged(WithoutLock(old(rtc.regs.control)), Seconds(d)))
        && rtc.regs == old(rtc.regs).(time := EncodeTime(d), control := WithLock(old(rtc.regs.control)))
    {
      if ValidDateTime(d) { DecodeEncode(d); }
      if !ValidDateTime(d) { return None; }
      var payload := EncodeTime(d);
      staged := None;
      var trust := rtc.ReadTrust(lines);
      if trust.None? || ReservedSet(trust.value.1) { return None; }
      var control := trust.value.0;
      var locked := Lock(control, lines);
      if !locked { return None; }
      var written := rtc.WriteTime(payload, lines);
      if !written { return None; }
      var raw := rtc.ReadTime(lines);
      if raw.None? { return None; }
      verified := Judged(d, raw.value);
      if verified.Some? { staged := Some(Staged(WithoutLock(control), Seconds(verified.value))); }
    }

    /** The time read back, when it is the time written or the second after it. */
    static method Judged(d: DateTime, raw: seq<byte>) returns (verified: Option<DateTime>)
      requires ValidDateTime(d) && |raw| == 7
      ensures verified.Some? ==>
        && ValidDateTime(verified.value) && raw == EncodeTime(verified.value)
        && (verified.value == d || Seconds(verified.value) == Seconds(d) + 1)
      ensures raw == EncodeTime(d) ==> verified == Some(d)
    {
      DecodeEncode(d);
      verified := DecodeTime(raw);
      if verified.None? { return; }
      if Seconds(verified.value) != Seconds(d) && Seconds(verified.value) != Seconds(d) + 1 { return None; }
      if raw != EncodeTime(verified.value) { return None; }
      if Seconds(verified.value) == Seconds(d) { SecondsAreInjective(verified.value, d); }
    }

    /** The durable marker, verified before any time register is touched. */
    method Lock(control: byte, ghost lines: set<int>) returns (locked: bool)
      requires rtc.Recorded() && Guarded(rtc.regs, lines) && rtc.regs.control == control
      modifies rtc
      ensures rtc.Recorded() && Guarded(rtc.regs, lines) && old(rtc.past) <= rtc.past && AllGuarded(rtc.past, |old(rtc.past)|, lines)
      ensures locked ==> Locked(rtc.regs)
      ensures rtc.calm ==> old(rtc.calm) && locked && rtc.regs == old(rtc.regs).(control := WithLock(control))
    {
      if control == WithLock(control) { return true; }
      var ok := rtc.WriteControl(WithLock(control), lines);
      if !ok { return false; }
      var confirmed := rtc.ReadTrust(lines);
      if confirmed.None? || !ControlMatches(confirmed.value.0, WithLock(control)) { return false; }
      MatchingControlsLockAlike(confirmed.value.0, WithLock(control));
      return true;
    }

    /** The time registers hold the staged moment or the next second; the line they are on. */
    method CheckStagedTime(ghost lines: set<int>) returns (ok: bool, ghost line: int)
      requires rtc.Recorded() && Guarded(rtc.regs, lines) && staged.Some?
      modifies rtc
      ensures rtc.Recorded() && Guarded(rtc.regs, lines) && old(rtc.past) <= rtc.past && AllGuarded(rtc.past, |old(rtc.past)|, lines)
      ensures rtc.regs.elapsed >= old(rtc.regs.elapsed)
      ensures ok ==> OnLine(rtc.regs, line)
                     && (line + rtc.regs.elapsed == staged.value.seconds || line + rtc.regs.elapsed == staged.value.seconds + 1)
      ensures rtc.calm ==> old(rtc.calm) && rtc.regs == old(rtc.regs) && (Keeps(rtc.regs, staged.value) ==> ok)
    {
      line := 0;
      var raw := rtc.ReadTime(lines);
      if raw.None? { return false, line; }
      var current := DecodeTime(raw.value);
      if current.None? { return false, line; }
      var seconds := Seconds(current.value);
      if seconds != staged.value.seconds && seconds != staged.value.seconds + 1 { return false, line; }
      if raw.value != EncodeTime(current.value) { return false, line; }
      return true, seconds - rtc.regs.elapsed;
    }

    /** Releases a staged write. Interrupted at any point, or done, the registers show an earlier line, the line of the
        staged moment, or nothing; once done, the staged line, unlocked. */
    method Commit(ghost lines: set<int>) returns (ok: bool, ghost released: set<int>)
      requires rtc.Recorded() && Guarded(rtc.regs, lines) && (staged.Some? ==> !Bit(staged.value.control, EOSC))
      modifies this, rtc
      ensures rtc.Recorded() && Guarded(rtc.regs, lines + released) && old(rtc.past) <= rtc.past
      ensures AllGuarded(rtc.past, |old(rtc.past)|, lines + released)
      ensures forall line :: line in released ==>
        old(staged).Some? && StagedLine(line, old(staged).value.seconds, old(rtc.regs.elapsed), rtc.regs.elapsed)
      ensures ok ==> staged.None? && !Locked(rtc.regs) && !Stopped(rtc.regs) && exists line :: line in released && OnLine(rtc.regs, line)
      ensures !ok ==> staged == old(staged)
      ensures rtc.calm ==> old(rtc.calm)
      ensures rtc.calm && old(staged).Some? && Keeps(old(rtc.regs), old(staged).value) && Releasable(old(rtc.regs), old(staged).value) ==>
        ok && rtc.regs == Released(old(rtc.regs), old(staged).value)
    {
      hide Guarded, OnLine, Keeps, Releasable, Released;
      if staged.None? {
        assert lines + {} == lines;
        return false, {};
      }
      ghost var start := rtc.regs.elapsed;
      var checked, line := CheckStagedTime(lines);
      MoreLines(rtc.past, |old(rtc.past)|, rtc.regs, lines, lines + {line});
      if !checked {
        assert lines + {} == lines;
        return false, {};
      }
      assert StagedLine(line, staged.value.seconds, start, rtc.regs.elapsed);
      released := {line};
      ghost var halfway := rtc.past;
      ok := Release(lines + {line}, line);
      JoinGuarded(halfway, rtc.past, |old(rtc.past)|, lines + {line});
      if ok { staged := None; }
    }

    /** Everything after the staged time was found in place. */
    method Release(ghost lines: set<int>, ghost line: int) returns (ok: bool)
      requires rtc.Recorded() && Guarded(rtc.regs, lines) && line in lines && OnLine(rtc.regs, line)
      requires staged.Some? && !Bit(staged.value.control, EOSC)
      modifies rtc
      ensures rtc.Recorded() && Guarded(rtc.regs, lines) && old(rtc.past) <= rtc.past && AllGuarded(rtc.past, |old(rtc.past)|, lines)
      ensures OnLine(rtc.regs, line) && rtc.regs.elapsed >= old(rtc.regs.elapsed)
      ensures ok ==> !Locked(rtc.regs) && !Stopped(rtc.regs)
      ensures rtc.calm ==> old(rtc.calm)
      ensures rtc.calm && Releasable(old(rtc.regs), staged.value) ==> ok && rtc.regs == Released(old(rtc.regs), staged.value)
    {
      hide Guarded, OnLine, ControlMatches;
      ControlMatchesItself(staged.value.control);
      var expected := staged.value.control;
      ok := Unlock(expected, lines, line);
      if !ok { return; }
      ghost var unlocked := rtc.past;
      var status := ClearStopFlag(lines, line);
      JoinGuarded(unlocked, rtc.past, |old(rtc.past)|, lines);
      if status.None? { return false; }
      ghost var cleared := rtc.past;
      var last := ReadTrustOnLine(lines, line);
      JoinGuarded(cleared, rtc.past, |old(rtc.past)|, lines);
      if last.None? || !ControlMatches(last.value.0, expected) || ReservedSet(last.value.1) || Bit(last.value.1, OSF)
         || Bit(last.value.1, 0x08) != Bit(status.value, 0x08)
         || (Bit(status.value, 0x01) && !Bit(last.value.1, 0x01)) || (Bit(status.value, 0x02) && !Bit(last.value.1, 0x02)) { return false; }
      MatchingControlsLockAlike(last.value.0, expected);
      return true;
    }

    /** Clears the marker, when it is still set, and reads it back. */
    method Unlock(expected: byte, ghost lines: set<int>, ghost line: int) returns (ok: bool)
      requires rtc.Recorded() && Guarded(rtc.regs, lines) && line in lines && OnLine(rtc.regs, line)
      modifies rtc
      ensures rtc.Recorded() && Guarded(rtc.regs, lines) && old(rtc.past) <= rtc.past && AllGuarded(rtc.past, |old(rtc.past)|, lines)
      ensures OnLine(rtc.regs, line) && rtc.regs.elapsed >= old(rtc.regs.elapsed)
      ensures rtc.calm ==> old(rtc.calm)
      ensures rtc.calm && ControlMatches(old(rtc.regs.control), WithLock(expected)) && Locked(old(rtc.regs)) && !ReservedSet(old(rtc.regs.status)) ==>
        ok && rtc.regs == old(rtc.regs).(control := expected)
    {
      hide Guarded, OnLine, ControlMatches;
      ControlMatchesItself(expected);
      var trust := ReadTrustOnLine(lines, line);
      if trust.None? { return false; }
      var marked := Bit(trust.value.0, EOSC);
      if !ControlMatches(trust.value.0, if marked then WithLock(expected) else expected) || ReservedSet(trust.value.1) { return false; }
      if !marked { return true; }
      ghost var read := rtc.past;
      ok := rtc.WriteControl(expected, lines);
      JoinGuarded(read, rtc.past, |old(rtc.past)|, lines);
      if !ok { return; }
      ghost var written := rtc.past;
      var confirmed := ReadTrustOnLine(lines, line);
      JoinGuarded(written, rtc.past, |old(rtc.past)|, lines);
      return confirmed.Some? && ControlMatches(confirmed.value.0, expected);
    }

    /** Clears the oscillator-stop flag and nothing else; the status that was read before, or None on failure. */
    method ClearStopFlag(ghost lines: set<int>, ghost line: int) returns (status: Option<byte>)
      requires rtc.Recorded() && Guarded(rtc.regs, lines) && line in lines && OnLine(rtc.regs, line)
      modifies rtc
      ensures rtc.Recorded() && Guarded(rtc.regs, lines) && old(rtc.past) <= rtc.past && AllGuarded(rtc.past, |old(rtc.past)|, lines)
      ensures OnLine(rtc.regs, line) && rtc.regs.elapsed >= old(rtc.regs.elapsed)
      ensures rtc.calm ==> old(rtc.calm)
      ensures rtc.calm && !ReservedSet(old(rtc.regs.status)) ==>
        status == Some(old(rtc.regs.status)) && rtc.regs == old(rtc.regs).(status := Cleared(old(rtc.regs.status)))
    {
      hide Guarded, OnLine;
      var trust := ReadTrustOnLine(lines, line);
      if trust.None? || ReservedSet(trust.value.1) { return None; }
      if Bit(trust.value.1, OSF) {
        var preserved: byte := (if Bit(trust.value.1, 0x08) then 0x08 else 0) + 0x03;
        ghost var read := rtc.past;
        var written := rtc.WriteStatus(preserved, lines);
        JoinGuarded(read, rtc.past, |old(rtc.past)|, lines);
        if !written { return None; }
      }
      return Some(trust.value.1);
    }

    /** Stages and commits at once. On a chip that stands still meanwhile every valid moment is taken, unless a reserved
        status bit is set, and is then what a read shows. */
    method WriteUtc(d: DateTime, ghost lines: set<int>) returns (verified: Option<DateTime>, ghost released: set<int>)
      requires rtc.Recorded() && Guarded(rtc.regs, lines)
      modifies this, rtc
      ensures rtc.Recorded() && Guarded(rtc.regs, lines + released)
      ensures verified.Some? ==> verified.value == d || Seconds(verified.value) == Seconds(d) + 1
      ensures rtc.calm ==>
        && old(rtc.calm) && (verified.Some? <==> ValidDateTime(d) && !ReservedSet(old(rtc.regs.status)))
        && (verified.Some? ==> verified == Some(d) && Shown(rtc.regs) == Some(d))
    {
      released := {};
      var staging := Stage(d, lines);
      assert lines + {} == lines;
      if staging.None? { return None, released; }
      if ValidDateTime(d) {
        DecodeEncode(d);
        LockComesOff(old(rtc.regs).control);
        ClearedIsClear(rtc.regs.status);
      }
      hide StatusAfterWrite, ControlMatches, WithLock, WithoutLock, EncodeTime, DecodeTime, Guarded, Cleared;
      var ok;
      ok, released := Commit(lines);
      if ok { verified := staging; } else { verified := None; }
    }

    lemma LockComesOff(control: byte)
      ensures ControlMatches(WithLock(control), WithLock(WithoutLock(control))) && Bit(WithLock(control), EOSC)
    {
    }

    method ReadTrustOnLine(ghost lines: set<int>, ghost line: int) returns (trust: Option<(byte, byte)>)
      requires rtc.Recorded() && Guarded(rtc.regs, lines) && OnLine(rtc.regs, line)
      modifies rtc
      ensures rtc.Recorded() && Guarded(rtc.regs, lines) && old(rtc.past) <= rtc.past && AllGuarded(rtc.past, |old(rtc.past)|, lines)
      ensures OnLine(rtc.regs, line) && rtc.regs.elapsed >= old(rtc.regs.elapsed)
      ensures trust.Some? ==> trust.value == (rtc.regs.control, rtc.regs.status)
      ensures rtc.calm ==> old(rtc.calm) && rtc.regs == old(rtc.regs) && trust.Some?
    {
      ghost var before := rtc.regs;
      trust := rtc.ReadTrust(lines);
      RunningKeepsLine(before, rtc.regs, line);
    }
  }

  /** The line of a moment that was found in the registers, or the next second, at some instant of an interval. */
  predicate StagedLine(line: int, seconds: int, from: nat, to: nat) {
    from <= seconds - line <= to || from <= seconds + 1 - line <= to
  }

  lemma MoreLines(past: seq<Registers>, from: nat, r: Registers, lines: set<int>, more: set<int>)
    requires AllGuarded(past, from, lines) && Guarded(r, lines) && lines <= more
    ensures AllGuarded(past, from, more) && Guarded(r, more)
  {
    forall k | from <= k < |past| ensures Guarded(past[k], more) { assert Guarded(past[k], lines); }
  }

  lemma JoinGuarded(past: seq<Registers>, more: seq<Registers>, from: nat, lines: set<int>)
    requires past <= more && AllGuarded(past, from, lines) && AllGuarded(more, |past|, lines)
    ensures AllGuarded(more, from, lines)
  {
    forall k | from <= k < |more| ensures Guarded(more[k], lines) {
      if k < |past| { assert Guarded(past[k], lines); } else { assert Guarded(more[k], lines); }
    }
  }
}
