/** The hand-off of timer intents to Requested State (app/scheduler_controller_gateway.py) against adversarial ports:
    every persistence, clock and readiness callback may change anything, re-enter the gateway, return nonsense or raise. */
module SchedulerGateway {
  import opened Options
  import opened SchedulerModel

  /** An ordinary exception, exhausted memory, or an interrupt that is no ordinary exception. */
  datatype Failure = Plain | Memory | Interrupt

  /** What a call on a port came to; Odd is a value of the wrong type. */
  datatype Answer = Yes | No | Odd | Thrown(failure: Failure)

  /** How a gateway operation ended. */
  datatype Ended = Returned(value: Option<bool>) | Threw(failure: Failure)

  function FailureOf(a: Answer): Failure {
    if a.Thrown? then a.failure else Plain
  }

  predicate Failed(a: Answer) {
    a.Thrown? || a.Odd?
  }

  /** A scheduler ledger as it is exported and stored; only equality of two matters. */
  type Ledger = seq<Key>

  /** Controller and scheduler as far as the gateway can see them; `history` is what the scheduler exports. */
  datatype Picture = Picture(
    requestedOn: bool, source: string, params: Params, deadline: Option<int>, activeKey: Option<Key>, history: Ledger)

  /** Everything one call does: what it may leave of the world, whether it re-enters the gateway, how it returns, and the
      number or ledger it reports where it is asked for one. */
  datatype Effect = Effect(after: Picture, reenters: bool, answer: Answer, number: int, ledger: Ledger)

  /** What the gateway calls, with what it says in the call. */
  datatype Port =
    | Ticks
    | Export
    | Generation
    | Write(history: Ledger, generation: int)
    | Confirm
    | Readback
    | Gate
    | Readiness
    | Authorization(intent: Intent, available: bool)
    | Allocation
    | SpecificReadiness(intent: Intent)
    | Start(intent: Intent)
    | Matching(intent: Intent)
    | Completion(intent: Intent, applied: bool)
    | Stepping(available: bool)
    | SessionOver
    | Marking
    | Stop

  datatype Call = Call(port: Port, effect: Effect)

  /** Foreign code runs in these calls; the others only compute, book or change Requested State. */
  predicate IsCallback(port: Port) {
    match port
    case Export => false
    case Allocation => false
    case Start(_) => false
    case Matching(_) => false
    case Completion(_, _) => false
    case Marking => false
    case Stop => false
    case _ => true
  }

  /** What a call leaves: anything after a callback, Requested OFF after a stop, a new Requested State after a start, and
      bookkeeping of which only the active occurrence and the export are visible. */
  function After(p: Picture, c: Call): Picture {
    var e := c.effect.after;
    match c.port
    case Start(_) => p.(requestedOn := e.requestedOn, source := e.source, params := e.params, deadline := e.deadline)
    case Stop => p.(requestedOn := false, deadline := e.deadline)
    case Completion(_, _) => p.(activeKey := e.activeKey, history := e.history)
    case Marking => p.(activeKey := e.activeKey, history := e.history)
    case _ => if IsCallback(c.port) then e else p
  }

  /** Requested ON is a timer's, and the scheduler knows the occurrence. */
  predicate NoOrphan(p: Picture) {
    p.requestedOn ==> p.source == "timer" && p.activeKey.Some?
  }

  predicate AskedFor(p: Picture, i: Intent) {
    p.requestedOn && p.source == "timer" && p.params == i.params && p.deadline == Some(i.notAfter)
  }

  /** What the gateway asked of persistence, and when it went on to authorize. */
  datatype Event = WriteAsked(history: Ledger, generation: int) | ReadBack(history: Ledger) | Authorizing

  /** Every authorization came right after a ledger was written and read back unchanged. */
  predicate Fenced(log: seq<Event>) {
    forall k :: 0 <= k < |log| && log[k].Authorizing? ==>
      k >= 2 && log[k - 2].WriteAsked? && log[k - 1] == ReadBack(log[k - 2].history)
  }

  /** The last thing that happened is that this ledger was written and read back unchanged. */
  predicate Confirmed(log: seq<Event>, history: Ledger) {
    |log| >= 2 && log[|log| - 2].WriteAsked? && log[|log| - 2].history == history && log[|log| - 1] == ReadBack(history)
  }

  predicate Ticked(tick: Effect) {
    tick.answer.Yes? || tick.answer.No?
  }

  type Behaviour = (nat, Picture, seq<Call>, Port) -> Effect

  // ---------------------------------------------------------------- calls nobody disturbs

  /** The port agrees and leaves everything else as it was. A step or an authorization may change what the scheduler exports;
      a start makes Requested State what the intent asks for, and a completion makes its occurrence the active one. */
  predicate Agrees(p: Picture, before: seq<Call>, c: Call, i: Intent) {
    && c.effect.answer.Yes?
    && (IsCallback(c.port) ==>
          && !c.effect.reenters
          && c.effect.after == (if c.port.Stepping? || c.port.Authorization? then p.(history := c.effect.after.history) else p))
    && (c.port.Confirm? && |before| >= 2 && before[|before| - 2].port.Generation? ==>
          c.effect.number == before[|before| - 2].effect.number + 1)
    && (c.port.Readback? ==> c.effect.ledger == p.history)
    && (c.port.Start? ==> AskedFor(After(p, c), i))
    && (c.port.Completion? ==> c.effect.after.activeKey == Some(i.key))
  }

  /** These ports agree with everything asked of them on behalf of the intent. */
  ghost predicate Obliging(ports: Behaviour, i: Intent) {
    forall n: nat, p, before, port :: Agrees(p, before, Call(port, ports(n, p, before, port)), i)
  }

  function AfterAll(p: Picture, calls: seq<Call>): Picture {
    if calls == [] then p else After(AfterAll(p, calls[..|calls| - 1]), calls[|calls| - 1])
  }

  /** All these calls agree. */
  predicate AllAgree(p: Picture, calls: seq<Call>, i: Intent) {
    calls == []
    || (var before := calls[..|calls| - 1];
        AllAgree(p, before, i) && Agrees(AfterAll(p, before), before, calls[|calls| - 1], i))
  }

  function Ports(calls: seq<Call>): seq<Port> {
    seq(|calls|, k requires 0 <= k < |calls| => calls[k].port)
  }

  lemma OneMoreCall(p: Picture, calls: seq<Call>, c: Call, i: Intent)
    ensures AfterAll(p, calls + [c]) == After(AfterAll(p, calls), c)
    ensures AllAgree(p, calls + [c], i) <==> AllAgree(p, calls, i) && Agrees(AfterAll(p, calls), calls, c, i)
    ensures Ports(calls + [c]) == Ports(calls) + [c.port]
  {
    assert (calls + [c])[..|calls|] == calls;
  }

  /** The calls that make a ledger durable and confirm it. */
  function Checkpointing(persistent: bool, h: Ledger, g: int): seq<Port> {
    if persistent then [Export, Generation, Write(h, g), Confirm, Readback, Export] else []
  }

  function Asking(persistent: bool): seq<Port> {
    if persistent then [Gate, Readiness] else [Readiness]
  }

  /** The calls that bring an intent to the heater, after its ledger is durable. */
  function Applying(persistent: bool, i: Intent): seq<Port> {
    [Ticks] + Asking(persistent)
    + [Ticks, Authorization(i, true), Allocation, SpecificReadiness(i), Ticks, Start(i), Matching(i), Completion(i, true)]
  }

  predicate NoStart(calls: seq<Call>) {
    forall k :: 0 <= k < |calls| ==> !calls[k].port.Start?
  }

  /** One request at most, and only for the intent that was authorized before it in the same calls. */
  predicate StartsOnce(calls: seq<Call>) {
    forall k :: 0 <= k < |calls| && calls[k].port.Start? ==>
      && (forall j :: 0 <= j < k ==> !calls[j].port.Start?)
      && exists j :: 0 <= j < k && calls[j].port == Authorization(calls[k].port.intent, true) && calls[j].effect.answer.Yes?
  }

  /** The intent was authorized in these calls. */
  predicate AuthorizedIn(calls: seq<Call>, i: Intent) {
    exists j :: 0 <= j < |calls| && calls[j].port == Authorization(i, true) && calls[j].effect.answer.Yes?
  }

  /** The last call reported the outcome of an authorized intent to the scheduler, and the scheduler agreed. */
  predicate Handed(calls: seq<Call>, i: Intent) {
    && calls != [] && calls[|calls| - 1].port.Completion? && calls[|calls| - 1].port.intent == i && calls[|calls| - 1].effect.answer.Yes?
    && AuthorizedIn(calls, i)
  }

  /** The last call explains an end before anything was handed over: persistence that did not confirm refuses the intent, a
      failing clock ends the operation with its failure, and so does a failing authorization; an authorization that gives no
      token refuses, unless a readiness check failed badly. */
  predicate Explains(c: Call, ended: Ended) {
    match c.port
    case Ticks => Failed(c.effect.answer) && ended == Threw(FailureOf(c.effect.answer))
    case Authorization(_, available) =>
      if Failed(c.effect.answer) then ended == Threw(FailureOf(c.effect.answer))
      else (c.effect.answer.No? || !available) && (ended == Returned(Some(false)) || ended.Threw?)
    case Completion(_, _) => true
    case Stop => true
    case _ => IsPersistence(c.port) && ended == RefusedBy(c.effect.answer)
  }

  predicate IsPersistence(port: Port) {
    port.Export? || port.Generation? || port.Write? || port.Confirm? || port.Readback?
  }

  /** An ordinary failure, or anything unexpected, only refuses; exhausted memory and interrupts get out. */
  function RefusedBy(a: Answer): Ended {
    if Failed(a) && !FailureOf(a).Plain? then Threw(FailureOf(a)) else Returned(Some(false))
  }

  /** The last of these calls refused persistence, and this is what it came to. */
  predicate Unconfirmed(calls: seq<Call>, answer: Answer) {
    && calls != [] && IsPersistence(calls[|calls| - 1].port)
    && answer == (if Failed(calls[|calls| - 1].effect.answer) then calls[|calls| - 1].effect.answer else Thrown(Plain))
  }

  /** The calls of a scheduler step, up to the confirmed ledger. */
  function Looking(persistent: bool, h: Ledger, g: int): seq<Port> {
    [Ticks] + Asking(persistent) + [Stepping(true)] + Checkpointing(persistent, h, g)
  }

  /** From entry `from` on: the controller was asked whether the session is over, and if it is and Requested is OFF, the
      occurrence was booked. */
  predicate Reconciled(calls: seq<Call>, from: nat) {
    && |calls| > from && calls[from].port.SessionOver?
    && (calls[from].effect.answer.Yes? && !calls[from].effect.after.requestedOn ==> |calls| > from + 1 && calls[from + 1].port.Marking?)
  }

  /** A step reads the clock first; with a tick, and with nothing but an active occurrence open, it asks after it. */
  predicate Followed(calls: seq<Call>, p: Picture, override_: Option<Key>) {
    && calls != [] && calls[0].port.Ticks?
    && (calls[0].effect.answer.Yes? && calls[0].effect.after == p && override_.None? && p.activeKey.Some? ==> Reconciled(calls, 1))
  }

  class World {
    var requestedOn: bool
    var source: string
    var params: Params
    var deadline: Option<int>
    var activeKey: Option<Key>
    var history: Ledger

    function View(): Picture
      reads this
    {
      Picture(requestedOn, source, params, deadline, activeKey, history)
    }

    constructor ()
      ensures View() == Picture(false, "manual", Params("power", None, Some(1), 60), None, None, [])
    {
      requestedOn, source, params, deadline := false, "manual", Params("power", None, Some(1), 60), None;
      activeKey, history := None, [];
    }

    method Become(p: Picture)
      modifies this
      ensures View() == p
    {
      requestedOn, source, params, deadline, activeKey, history := p.requestedOn, p.source, p.params, p.deadline, p.activeKey, p.history;
    }
  }

  class Gateway {
    const world: World
    const persistent: bool
    var faulted: bool
    var pendingOverride: Option<Key>
    var operationActive: bool
    var reentered: bool
    /** What the ports do: anything, given how many calls there were ever, the world, and the calls of this operation. */
    const ports: Behaviour
    var made: nat
    var calls: seq<Call>
    ghost var log: seq<Event>
    /** Where the current operation began, and the intent it is about. */
    ghost var base: Picture
    ghost var wanted: Intent

    /** With persistence, no authorization without a confirmed ledger; and the calls say what the world has become. */
    ghost predicate Valid()
      reads this, world
    {
      (persistent ==> Fenced(log)) && world.View() == AfterAll(base, calls) && (Obliging(ports, wanted) ==> Smooth())
    }

    /** So far every call of the operation agrees with bringing the intent to the heater. */
    ghost predicate Smooth()
      reads this
    {
      AllAgree(base, calls, wanted)
    }

    /** What the first call of an operation that begins now would meet. */
    function FirstTick(): Effect
      reads this, world
    {
      ports(made, world.View(), [], Ticks)
    }

    constructor (world: World, persistent: bool, ports: Behaviour)
      ensures this.world == world && this.persistent == persistent && this.ports == ports && made == 0
      ensures !operationActive && !faulted && pendingOverride.None? && log == [] && Valid()
    {
      this.world, this.persistent := world, persistent;
      faulted, pendingOverride, operationActive, reentered := false, None, false, false;
      this.ports, made, log, base, calls := ports, 0, [], world.View(), [];
      wanted := *;
    }

    /** One synchronous call. */
    method Ask(port: Port) returns (e: Effect)
      requires Valid()
      modifies world, `made, `reentered, `faulted, `calls
      ensures old(calls) <= calls
      ensures Valid() && e == ports(old(made), old(world.View()), old(calls), port) && calls == old(calls) + [Call(port, e)]
      ensures world.View() == After(old(world.View()), Call(port, e))
      ensures if IsCallback(port) && e.reenters && operationActive then reentered && faulted
              else reentered == old(reentered) && faulted == old(faulted)
      ensures Smooth() <==> old(Smooth()) && Agrees(old(world.View()), old(calls), Call(port, e), wanted)
      ensures Ports(calls) == Ports(old(calls)) + [port]
      ensures old(NoStart(calls)) && !port.Start? ==> NoStart(calls)
    {
      e := ports(made, world.View(), calls, port);
      OneMoreCall(base, calls, Call(port, e), wanted);
      made := made + 1;
      world.Become(After(world.View(), Call(port, e)));
      calls := calls + [Call(port, e)];
      if IsCallback(port) && e.reenters && operationActive { reentered, faulted := true, true; }
    }

    /** A question that changes nothing by itself; if it agrees, it changed nothing. */
    method Consult(port: Port) returns (e: Effect)
      requires Valid() && (IsCallback(port) || port.Export? || port.Allocation?) && !port.Stepping? && !port.Authorization?
      modifies world, `made, `reentered, `faulted, `calls
      ensures old(calls) <= calls
      ensures Valid() && calls == old(calls) + [Call(port, e)] && Ports(calls) == Ports(old(calls)) + [port]
      ensures world.View() == After(old(world.View()), Call(port, e))
      ensures old(NoStart(calls)) ==> NoStart(calls)
      ensures Smooth() ==>
        && old(Smooth()) && e.answer.Yes?
        && world.View() == old(world.View()) && faulted == old(faulted) && reentered == old(reentered)
      ensures Smooth() && port.Confirm? && |old(calls)| >= 2 && old(calls)[|old(calls)| - 2].port.Generation? ==>
        e.number == old(calls)[|old(calls)| - 2].effect.number + 1
      ensures Smooth() && port.Readback? ==> e.ledger == world.history
    {
      e := Ask(port);
    }

    // ------------------------------------------------------------ rollback

    /** Threw means that something went wrong; Requested is OFF either way. */
    method FailSafeOff() returns (failed: Option<Failure>)
      requires Valid()
      modifies world, `made, `reentered, `faulted, `calls
      ensures old(calls) <= calls
      ensures Valid() && world.View() == old(world.View()).(requestedOn := false, deadline := world.deadline)
      ensures reentered == old(reentered) && faulted == old(faulted)
      ensures calls == old(calls) || exists e :: calls == old(calls) + [Call(Stop, e)]
      ensures old(world.requestedOn) ==> calls != old(calls)
      ensures old(NoStart(calls)) ==> NoStart(calls)
      ensures Smooth() ==> old(Smooth())
    {
      if !world.requestedOn { return None; }
      var stopped := Ask(Stop);
      if Failed(stopped.answer) { return Some(FailureOf(stopped.answer)); }
      return None;
    }

    // ------------------------------------------------------------ persistence

    /** The durable write, confirmed by the generation it was expected to leave. */
    method WriteLedger(exported: Ledger) returns (answer: Answer, ghost g: int)
      requires Valid()
      modifies world, `made, `reentered, `faulted, `calls, `log
      ensures old(calls) <= calls
      ensures Valid() && (answer.Yes? ==> log == old(log) + [WriteAsked(exported, g)])
      ensures old(NoStart(calls)) ==> NoStart(calls)
      ensures !answer.Yes? ==> Unconfirmed(calls, answer)
      ensures Smooth() ==>
        && old(Smooth()) && answer.Yes? && world.View() == old(world.View()) && faulted == old(faulted) && reentered == old(reentered)
        && Ports(calls) == Ports(old(calls)) + [Generation, Write(exported, g), Confirm]
    {
      hide Agrees, AllAgree, AfterAll, Ports;
      answer, g := Yes, 0;
      var read := Consult(Generation);
      if Failed(read.answer) { return read.answer, g; }
      g := read.number;
      var stored := Consult(Write(exported, read.number));
      if Failed(stored.answer) { return stored.answer, g; }
      log := log + [WriteAsked(exported, read.number)];
      var confirmed := Consult(Confirm);
      if Failed(confirmed.answer) { return confirmed.answer, g; }
      if confirmed.number != read.number + (if stored.answer.Yes? then 1 else 0) { return Thrown(Plain), g; }
    }

    /** What was written is read back, and what was exported is exported again. */
    method ReadLedger(exported: Ledger) returns (answer: Answer)
      requires Valid()
      modifies world, `made, `reentered, `faulted, `calls, `log
      ensures old(calls) <= calls
      ensures Valid() && (answer.Yes? ==> log == old(log) + [ReadBack(exported)] && world.history == exported)
      ensures old(NoStart(calls)) ==> NoStart(calls)
      ensures !answer.Yes? ==> Unconfirmed(calls, answer)
      ensures Smooth() ==>
        && old(Smooth()) && (answer.Yes? <==> old(world.history) == exported) && world.View() == old(world.View()) && faulted == old(faulted) && reentered == old(reentered)
        && (answer.Yes? ==> Ports(calls) == Ports(old(calls)) + [Readback, Export])
    {
      hide Agrees, AllAgree, AfterAll, Ports;
      var readback := Consult(Readback);
      if Failed(readback.answer) { return readback.answer; }
      log := log + [ReadBack(readback.ledger)];
      if readback.ledger != exported { return Thrown(Plain); }
      var again := Consult(Export);
      if Failed(again.answer) { return again.answer; }
      return if world.history == exported then Yes else Thrown(Plain);
    }

    /** Export, durable write, readback and re-export. Yes means that persistence has confirmed, under the expected
        generation, exactly what the scheduler exports now. */
    method Checkpoint() returns (answer: Answer, ghost g: int)
      requires Valid()
      modifies world, `made, `reentered, `faulted, `calls, `log
      ensures old(calls) <= calls
      ensures Valid() && (persistent && answer.Yes? ==> Confirmed(log, world.history))
      ensures !persistent ==> answer.Yes? && calls == old(calls) && log == old(log) && world.View() == old(world.View()) && faulted == old(faulted) && reentered == old(reentered)
      ensures old(NoStart(calls)) ==> NoStart(calls)
      ensures !answer.Yes? ==> Unconfirmed(calls, answer)
      ensures Smooth() ==>
        && old(Smooth()) && answer.Yes? && world.View() == old(world.View()) && faulted == old(faulted) && reentered == old(reentered)
        && Ports(calls) == Ports(old(calls)) + Checkpointing(persistent, old(world.history), g)
    {
      hide Agrees, AllAgree, AfterAll, Ports, NoStart, Fenced;
      answer, g := Yes, 0;
      if !persistent { return; }
      var exported := world.history;
      var taken := Consult(Export);
      if Failed(taken.answer) { return taken.answer, g; }
      answer, g := WriteLedger(exported);
      if !answer.Yes? { return; }
      answer := ReadLedger(exported);
    }

    /** Whether the ledger is durable; whatever happens on the way, Requested OFF stays OFF. */
    method CheckpointOrFault() returns (ended: Ended, ghost g: int)
      requires Valid()
      modifies world, `made, `reentered, `faulted, `calls, `log
      ensures old(calls) <= calls
      ensures Valid() && (persistent && ended.Returned? && ended.value != Some(false) ==> Confirmed(log, world.history))
      ensures !old(world.requestedOn) ==> !world.requestedOn
      ensures ended.Returned? ==> ended.value.Some?
      ensures old(NoStart(calls)) ==> NoStart(calls)
      ensures ended != Returned(Some(true)) ==> calls != [] && Explains(calls[|calls| - 1], ended)
      ensures Smooth() ==> old(Smooth())
      ensures Smooth() && !old(world.requestedOn) ==>
        && ended == Returned(Some(true)) && world.View() == old(world.View()) && faulted == old(faulted) && reentered == old(reentered)
        && Ports(calls) == Ports(old(calls)) + Checkpointing(persistent, old(world.history), g)
    {
      hide AllAgree, AfterAll, Ports, NoStart, Fenced, Obliging, Agrees, Checkpointing;
      var wasOff := !world.requestedOn;
      var answer;
      answer, g := Checkpoint();
      if !answer.Yes? {
        faulted := true;
        if wasOff && world.requestedOn {
          var failed := FailSafeOff();
          if failed.Some? { return Threw(failed.value), g; }
        }
        return if FailureOf(answer).Plain? then Returned(Some(false)) else Threw(FailureOf(answer)), g;
      }
      if wasOff && world.requestedOn {
        faulted := true;
        var failed := FailSafeOff();
        return if failed.Some? then Threw(failed.value) else Returned(Some(false)), g;
      }
      return Returned(Some(true)), g;
    }

    // ------------------------------------------------------------ applying one intent

    /** The readiness checks in order; the first that says no, or fails, decides. */
    method Available() returns (answer: Answer)
      requires Valid()
      modifies world, `made, `reentered, `faulted, `calls
      ensures old(calls) <= calls
      ensures Valid()
      ensures old(NoStart(calls)) ==> NoStart(calls)
      ensures Smooth() ==>
        && old(Smooth()) && world.View() == old(world.View()) && faulted == old(faulted) && reentered == old(reentered)
        && (answer.Yes? <==> !old(faulted) && pendingOverride.None? && old(world.activeKey).None?)
        && (answer.Yes? ==> Ports(calls) == Ports(old(calls)) + Asking(persistent))
    {
      hide Agrees, AllAgree, AfterAll, Ports, NoStart, Fenced;
      if faulted || pendingOverride.Some? || world.activeKey.Some? { return No; }
      if persistent {
        var allowed := Consult(Gate);
        if !allowed.answer.Yes? { return allowed.answer; }
      }
      var ready := Consult(Readiness);
      return ready.answer;
    }

    /** Authorization reads the clock, so it is a callback too. */
    method Authorize(i: Intent, available: bool) returns (answer: Answer)
      requires Valid() && (persistent ==> exists history :: Confirmed(log, history))
      modifies world, `made, `reentered, `faulted, `calls, `log
      ensures old(calls) <= calls
      ensures Valid() && log == old(log) + [Authorizing]
      ensures old(NoStart(calls)) ==> NoStart(calls)
      ensures answer.Yes? ==> AuthorizedIn(calls, i)
      ensures exists e :: calls == old(calls) + [Call(Authorization(i, available), e)]
                          && answer == (if !available && e.answer.Yes? then No else e.answer)
      ensures Smooth() ==>
        && old(Smooth()) && answer == (if available then Yes else No)
        && world.View() == old(world.View()).(history := world.history) && faulted == old(faulted) && reentered == old(reentered)
        && Ports(calls) == Ports(old(calls)) + [Authorization(i, available)]
    {
      hide AllAgree, AfterAll, Ports;
      log := log + [Authorizing];
      var authorized := Ask(Authorization(i, available));
      answer := if !available && authorized.answer.Yes? then No else authorized.answer;
      assert calls[|calls| - 1] == Call(Authorization(i, available), authorized);
    }

    /** The request itself, with a freshly sampled tick; the error it raised, if any. */
    method Request(i: Intent) returns (applied: bool, error: Option<Failure>)
      requires Valid() && NoStart(calls) && AuthorizedIn(calls, i)
      modifies world, `made, `reentered, `faulted, `calls
      ensures old(calls) <= calls
      ensures Valid() && StartsOnce(calls) && AuthorizedIn(calls, i)
      ensures Smooth() ==> old(Smooth())
      ensures Smooth() && wanted == i ==>
        && applied && error.None? && AskedFor(world.View(), i)
        && world.activeKey == old(world.activeKey) && faulted == old(faulted) && reentered == old(reentered)
        && Ports(calls) == Ports(old(calls)) + [SpecificReadiness(i), Ticks, Start(i)]
    {
      hide AllAgree, AfterAll, Ports, Valid, Smooth, Obliging, StartsOnce, AuthorizedIn;
      NoStartIsOnce(calls);
      applied, error := false, None;
      ghost var first := calls;
      var ready := Consult(SpecificReadiness(i));
      StaysAuthorized(first, Call(SpecificReadiness(i), ready), i);
      NoStartIsOnce(calls);
      ghost var second := calls;
      if Failed(ready.answer) { return false, Some(FailureOf(ready.answer)); }
      var now := Consult(Ticks);
      StaysAuthorized(second, Call(Ticks, now), i);
      NoStartIsOnce(calls);
      if Failed(now.answer) { return false, Some(FailureOf(now.answer)); }
      if ready.answer.Yes? {
        ghost var before := calls;
        var started := Ask(Start(i));
        StartIsOne(before, Call(Start(i), started), i);
        if Failed(started.answer) { return false, Some(FailureOf(started.answer)); }
        applied := started.answer.Yes?;
      }
    }

    lemma StaysAuthorized(before: seq<Call>, c: Call, i: Intent)
      requires AuthorizedIn(before, i)
      ensures AuthorizedIn(before + [c], i)
      ensures StartsOnce(before) && !c.port.Start? ==> StartsOnce(before + [c])
    {
      var j :| 0 <= j < |before| && before[j].port == Authorization(i, true) && before[j].effect.answer.Yes?;
      assert (before + [c])[j] == before[j];
      if StartsOnce(before) && !c.port.Start? { StartsStayOnce(before, c); }
    }

    lemma StartsStayOnce(before: seq<Call>, c: Call)
      requires StartsOnce(before) && !c.port.Start?
      ensures StartsOnce(before + [c])
    {
      var after := before + [c];
      forall k | 0 <= k < |after| && after[k].port.Start?
        ensures forall j :: 0 <= j < k ==> !after[j].port.Start?
        ensures exists j :: 0 <= j < k && after[j].port == Authorization(after[k].port.intent, true) && after[j].effect.answer.Yes?
      {
        assert before[k] == after[k];
        var j :| 0 <= j < k && before[j].port == Authorization(before[k].port.intent, true) && before[j].effect.answer.Yes?;
        assert after[j] == before[j];
      }
    }

    lemma StartIsOne(before: seq<Call>, c: Call, i: Intent)
      requires NoStart(before) && AuthorizedIn(before, i) && c.port == Start(i)
      ensures StartsOnce(before + [c]) && AuthorizedIn(before + [c], i)
    {
      var j :| 0 <= j < |before| && before[j].port == Authorization(i, true) && before[j].effect.answer.Yes?;
      assert (before + [c])[j] == before[j];
    }

    /** Reports the outcome to the scheduler. */
    method Complete(i: Intent, applied: bool) returns (answer: Answer)
      requires Valid() && StartsOnce(calls) && AuthorizedIn(calls, i)
      modifies world, `made, `reentered, `faulted, `calls
      ensures old(calls) <= calls
      ensures Valid() && StartsOnce(calls) && AuthorizedIn(calls, i)
      ensures world.View() == old(world.View()).(activeKey := world.activeKey, history := world.history)
      ensures reentered == old(reentered) && faulted == old(faulted) && (answer.Yes? ==> Handed(calls, i))
      ensures calls != [] && calls[|calls| - 1].port.Completion?
      ensures Smooth() ==> old(Smooth()) && answer.Yes?
      ensures Smooth() && wanted == i ==>
        && world.activeKey == Some(i.key)
        && Ports(calls) == Ports(old(calls)) + [Completion(i, applied)]
    {
      hide AllAgree, AfterAll, Ports;
      ghost var before := calls;
      var completed := Ask(Completion(i, applied));
      StaysAuthorized(before, Call(Completion(i, applied), completed), i);
      return completed.answer;
    }

    /** Compares Requested State with the authorized request; it may raise, but it does not lie. */
    method Matches(i: Intent) returns (answer: Answer)
      requires Valid() && StartsOnce(calls) && AuthorizedIn(calls, i)
      modifies world, `made, `reentered, `faulted, `calls
      ensures old(calls) <= calls
      ensures Valid() && StartsOnce(calls) && AuthorizedIn(calls, i)
      ensures world.View() == old(world.View()) && faulted == old(faulted) && reentered == old(reentered) && (answer.Yes? ==> AskedFor(world.View(), i))
      ensures Smooth() ==>
        && old(Smooth()) && (AskedFor(world.View(), i) ==> answer.Yes?) && Ports(calls) == Ports(old(calls)) + [Matching(i)]
    {
      hide AllAgree, AfterAll, Ports;
      ghost var before := calls;
      var compared := Ask(Matching(i));
      StaysAuthorized(before, Call(Matching(i), compared), i);
      return if compared.answer.Yes? && !AskedFor(world.View(), i) then No else compared.answer;
    }

    /** A stop adds one call, which is no start. */
    method TakeBack(ghost i: Intent) returns (failed: Option<Failure>)
      requires Valid() && StartsOnce(calls) && AuthorizedIn(calls, i)
      modifies world, `made, `reentered, `faulted, `calls
      ensures old(calls) <= calls
      ensures Valid() && StartsOnce(calls) && AuthorizedIn(calls, i)
      ensures world.View() == old(world.View()).(requestedOn := false, deadline := world.deadline)
      ensures reentered == old(reentered) && faulted == old(faulted) && (Smooth() ==> old(Smooth()))
      ensures calls == old(calls) || (calls != [] && calls[|calls| - 1].port.Stop?)
    {
      ghost var before := calls;
      failed := FailSafeOff();
      if calls != before {
        ghost var e :| calls == before + [Call(Stop, e)];
        StaysAuthorized(before, Call(Stop, e), i);
      }
    }

    /** From the token on: request, confirm what Requested State became, complete, and roll back what is not associated. */
    method ApplyAuthorized(i: Intent) returns (ended: Ended)
      requires Valid() && NoStart(calls) && AuthorizedIn(calls, i)
      modifies world, `made, `reentered, `faulted, `calls
      ensures old(calls) <= calls
      ensures Valid() && StartsOnce(calls) && AuthorizedIn(calls, i)
      ensures ended == Returned(Some(true)) ==>
        world.requestedOn && world.source == "timer" && world.activeKey == Some(i.key) && Handed(calls, i)
      ensures calls != [] && (calls[|calls| - 1].port.Completion? || calls[|calls| - 1].port.Stop?)
      ensures Smooth() ==> old(Smooth())
      ensures Smooth() && wanted == i ==>
        && ended == Returned(Some(true)) && faulted == old(faulted) && reentered == old(reentered)
        && Ports(calls) == Ports(old(calls))
           + [Allocation, SpecificReadiness(i), Ticks, Start(i), Matching(i), Completion(i, true)]
    {
      hide Agrees, AllAgree, AfterAll, Ports, StartsOnce, AuthorizedIn;
      ghost var before := calls;
      var reserved := Consult(Allocation);
      StaysAuthorized(before, Call(Allocation, reserved), i);
      if reserved.answer.Thrown? {
        NoStartIsOnce(calls);
        var dropped := Complete(i, false);
        if dropped.Thrown? { return Threw(dropped.failure); }
        faulted := true;
        return Threw(reserved.answer.failure);
      }
      var applied, error := Request(i);
      var matches := Matches(i);
      if Failed(matches) && error.None? { error := Some(FailureOf(matches)); }
      ended := Conclude(i, applied, error, matches.Yes?);
    }

    lemma NoStartIsOnce(some: seq<Call>)
      requires NoStart(some)
      ensures StartsOnce(some)
    {
    }

    /** The completion, and what follows from it. */
    method Conclude(i: Intent, applied: bool, error: Option<Failure>, exactOn: bool) returns (ended: Ended)
      requires Valid() && StartsOnce(calls) && AuthorizedIn(calls, i) && (exactOn ==> AskedFor(world.View(), i))
      modifies world, `made, `reentered, `faulted, `calls
      ensures old(calls) <= calls
      ensures Valid() && StartsOnce(calls) && AuthorizedIn(calls, i)
      ensures ended == Returned(Some(true)) ==>
        world.requestedOn && world.source == "timer" && world.activeKey == Some(i.key) && Handed(calls, i)
      ensures calls != [] && (calls[|calls| - 1].port.Completion? || calls[|calls| - 1].port.Stop?)
      ensures Smooth() ==> old(Smooth())
      ensures Smooth() && wanted == i && exactOn && error.None? ==>
        && old(Smooth()) && ended == Returned(Some(true)) && faulted == old(faulted) && reentered == old(reentered)
        && Ports(calls) == Ports(old(calls)) + [Completion(i, applied)]
    {
      hide AllAgree, AfterAll, Ports, StartsOnce, AuthorizedIn, Handed;
      var completion := Complete(i, applied);
      var completionError: Option<Failure> := if Failed(completion) then Some(FailureOf(completion)) else None;
      var associated := completion.Yes? && exactOn && world.activeKey == Some(i.key);
      if completion.Yes? && exactOn && !associated { completionError := Some(Plain); }
      if !associated && world.requestedOn {
        var failed := TakeBack(i);
        if failed.Some? {
          faulted := true;
          if completionError.None? { completionError := failed; }
        }
      }
      if completionError.Some? {
        faulted := true;
        return Threw(completionError.value);
      }
      if error.Some? && !error.value.Plain? {
        faulted := true;
        return Threw(error.value);
      }
      return Returned(Some(associated));
    }

    /** No token is asked for before the ledger has been confirmed, in this very call. If every port agrees, the intent is
        brought to the heater by exactly the calls it takes; otherwise the last call says why not. */
    method ApplyIntentCore(i: Intent) returns (ended: Ended, ghost g: int)
      requires Valid() && NoStart(calls)
      modifies world, `made, `reentered, `faulted, `calls, `log
      ensures old(calls) <= calls
      ensures Valid() && StartsOnce(calls)
      ensures ended == Returned(Some(true)) ==>
        world.requestedOn && world.source == "timer" && world.activeKey == Some(i.key) && Handed(calls, i)
      ensures ended != Returned(Some(true)) ==> calls != [] && Explains(calls[|calls| - 1], ended)
      ensures Smooth() ==> old(Smooth())
      ensures Smooth() && wanted == i && !old(world.requestedOn) && !old(faulted) && pendingOverride.None? && old(world.activeKey).None? ==>
        && ended == Returned(Some(true)) && faulted == old(faulted) && reentered == old(reentered)
        && Ports(calls) == Ports(old(calls)) + Checkpointing(persistent, old(world.history), g) + Applying(persistent, i)
    {
      hide Agrees, AllAgree, AfterAll, Ports, StartsOnce, AuthorizedIn, Handed, NoStart, Checkpointing, Asking, Fenced;
      var checked;
      checked, g := CheckpointOrFault();
      NoStartIsOnce(calls);
      if checked.Threw? { return checked, g; }
      if checked.value == Some(false) { return Returned(Some(false)), g; }
      ghost var confirmed := world.history;
      assert persistent ==> Confirmed(log, confirmed);
      ended := Hand(i);
    }

    /** The hand-off under a confirmed ledger. */
    method Hand(i: Intent) returns (ended: Ended)
      requires Valid() && NoStart(calls) && (persistent ==> exists history :: Confirmed(log, history))
      modifies world, `made, `reentered, `faulted, `calls, `log
      ensures old(calls) <= calls
      ensures Valid() && StartsOnce(calls)
      ensures ended == Returned(Some(true)) ==>
        world.requestedOn && world.source == "timer" && world.activeKey == Some(i.key) && Handed(calls, i)
      ensures ended != Returned(Some(true)) ==> calls != [] && Explains(calls[|calls| - 1], ended)
      ensures Smooth() ==> old(Smooth())
      ensures Smooth() && wanted == i && !old(faulted) && pendingOverride.None? && old(world.activeKey).None? ==>
        && ended == Returned(Some(true)) && faulted == old(faulted) && reentered == old(reentered)
        && Ports(calls) == Ports(old(calls)) + Applying(persistent, i)
    {
      hide Agrees, AllAgree, AfterAll, Ports, StartsOnce, AuthorizedIn, Handed, NoStart, Asking, Fenced, After, Explains, Obliging, Valid, Smooth;
      var now := Consult(Ticks);
      NoStartIsOnce(calls);
      if Failed(now.answer) {
        ClockExplains(Call(Ticks, now));
        return Threw(FailureOf(now.answer));
      }
      var available := Available();
      now := Consult(Ticks);
      NoStartIsOnce(calls);
      if Failed(now.answer) {
        ClockExplains(Call(Ticks, now));
        return Threw(FailureOf(now.answer));
      }
      var authorized := Authorize(i, available.Yes?);
      NoStartIsOnce(calls);
      if !authorized.Yes? {
        ended := Refuse(authorized, available, calls[|calls| - 1]);
        return;
      }
      ended := ApplyAuthorized(i);
      ClosingExplains(calls[|calls| - 1], ended);
    }

    lemma ClockExplains(c: Call)
      requires c.port.Ticks? && Failed(c.effect.answer)
      ensures Explains(c, Threw(FailureOf(c.effect.answer)))
    {
    }

    lemma ClosingExplains(c: Call, ended: Ended)
      requires c.port.Completion? || c.port.Stop?
      ensures Explains(c, ended)
    {
    }

    /** Without a token the failure of the authorization counts, and without one that of the readiness checks. */
    method Refuse(authorized: Answer, available: Answer, ghost last: Call) returns (ended: Ended)
      requires last.port.Authorization? && last.port.available == available.Yes? && !authorized.Yes?
      requires authorized == (if !available.Yes? && last.effect.answer.Yes? then No else last.effect.answer)
      requires Valid()
      modifies `faulted
      ensures Valid() && (Smooth() <==> old(Smooth())) && Explains(last, ended) && ended != Returned(Some(true))
    {
      hide AllAgree, AfterAll, Fenced, Obliging;
      if Failed(authorized) { return Threw(FailureOf(authorized)); }
      if Failed(available) {
        faulted := true;
        if !FailureOf(available).Plain? { return Threw(FailureOf(available)); }
      }
      return Returned(Some(false));
    }

    /** One intent; a Requested ON that a callback left behind without an occurrence is taken back. */
    method ApplyIntentOnce(i: Intent) returns (ended: Ended, ghost g: int)
      requires Valid() && NoStart(calls)
      modifies world, `made, `reentered, `faulted, `calls, `log
      ensures old(calls) <= calls
      ensures Valid() && StartsOnce(calls)
      ensures !old(world.requestedOn) ==> NoOrphan(world.View())
      ensures ended == Returned(Some(true)) ==> world.requestedOn && NoOrphan(world.View()) && Handed(calls, i)
      ensures ended != Returned(Some(true)) ==>
        calls != [] && (calls[|calls| - 1].port.Stop? || Explains(calls[|calls| - 1], ended))
      ensures Smooth() ==> old(Smooth())
      ensures Smooth() && wanted == i && !old(world.requestedOn) && !old(faulted) && pendingOverride.None? && old(world.activeKey).None? ==>
        && ended == Returned(Some(true)) && faulted == old(faulted) && reentered == old(reentered)
        && Ports(calls) == Ports(old(calls)) + Checkpointing(persistent, old(world.history), g) + Applying(persistent, i)
    {
      hide Agrees, AllAgree, AfterAll, Ports, AuthorizedIn, Handed, NoStart, Checkpointing, Asking, Fenced, StartsOnce, Explains;
      var wasOff := !world.requestedOn;
      ended, g := ApplyIntentCore(i);
      if ended.Threw? {
        var associated := world.activeKey == Some(i.key) && world.requestedOn && world.source == "timer";
        if wasOff && world.requestedOn && !associated {
          faulted := true;
          var failed := StopOrphan();
          if failed.Some? { return Threw(failed.value), g; }
        }
        return;
      }
      if wasOff && world.requestedOn && ended != Returned(Some(true)) {
        faulted := true;
        var failed := StopOrphan();
        return if failed.Some? then Threw(failed.value) else Threw(Plain), g;
      }
    }

    /** A stop is no start. */
    method StopOrphan() returns (failed: Option<Failure>)
      requires Valid() && StartsOnce(calls) && world.requestedOn
      modifies world, `made, `reentered, `faulted, `calls
      ensures old(calls) <= calls
      ensures Valid() && StartsOnce(calls) && !world.requestedOn && calls != [] && calls[|calls| - 1].port.Stop?
      ensures world.View() == old(world.View()).(requestedOn := false, deadline := world.deadline)
      ensures reentered == old(reentered) && faulted == old(faulted) && (Smooth() ==> old(Smooth()))
    {
      ghost var before := calls;
      failed := FailSafeOff();
      ghost var e :| calls == before + [Call(Stop, e)];
      StartsStayOnce(before, Call(Stop, e));
    }

    // ------------------------------------------------------------ the operations

    /** Refuses to run inside another operation; otherwise a new record of calls begins. */
    method Begin(ghost i: Option<Intent>) returns (ok: bool)
      requires Valid()
      modifies this
      ensures Valid() && ok == !old(operationActive) && operationActive && log == old(log) && made == old(made) && world.View() == old(world.View())
      ensures pendingOverride == old(pendingOverride)
      ensures ok ==> !reentered && faulted == old(faulted) && base == world.View() && calls == [] && (i.Some? ==> wanted == i.value)
      ensures !ok ==> reentered && faulted && calls == old(calls)
    {
      if operationActive {
        reentered, faulted := true, true;
        return false;
      }
      operationActive, reentered := true, false;
      base, calls := world.View(), [];
      if i.Some? { wanted := i.value; }
      return true;
    }

    /** After a re-entered operation nothing it left in Requested State is trusted. */
    method FinishOperation(primary: Ended) returns (ended: Ended)
      requires Valid() && StartsOnce(calls)
      modifies this, world
      ensures old(calls) <= calls
      ensures Valid() && StartsOnce(calls) && !operationActive && log == old(log) && base == old(base) && wanted == old(wanted)
      ensures old(reentered) ==> !world.requestedOn && ended.Threw?
      ensures pendingOverride == old(pendingOverride)
      ensures Smooth() ==> old(Smooth())
      ensures !old(reentered) ==>
        && ended == primary && world.View() == old(world.View()) && calls == old(calls) && faulted == old(faulted)
    {
      hide AllAgree, AfterAll, StartsOnce;
      var wasReentered := reentered;
      if !wasReentered {
        operationActive := false;
        return primary;
      }
      faulted := true;
      var failed: Option<Failure> := None;
      if world.requestedOn { failed := StopOrphan(); }
      operationActive, reentered := false, false;
      if failed.Some? { return Threw(failed.value); }
      return if primary.Threw? then primary else Threw(Plain);
    }

    /** Nothing stands in the way of an intent. */
    predicate Idle()
      reads this, world
    {
      !operationActive && !faulted && pendingOverride.None? && !world.requestedOn && world.activeKey.None?
    }

    /** No orphan ON: begun with Requested OFF, whatever the ports do and however it ends, Requested is ON afterwards only
        as a timer's request with an active scheduler occurrence. And if every port agrees, an idle gateway brings the
        intent to the heater, by exactly the calls that takes. */
    method ApplyIntent(i: Intent) returns (ended: Ended, ghost g: int)
      requires Valid()
      modifies this, world
      ensures Valid()
      ensures !old(world.requestedOn) ==> NoOrphan(world.View())
      ensures old(operationActive) ==> ended == Threw(Plain) && faulted && calls == old(calls)
      ensures !old(operationActive) ==> base == old(world.View()) && StartsOnce(calls)
      ensures ended == Returned(Some(true)) ==> world.requestedOn && Handed(calls, i)
      ensures old(Idle()) && (Obliging(ports, i) || AllAgree(old(world.View()), calls, i)) ==>
        && ended == Returned(Some(true)) && !faulted
        && Ports(calls) == Checkpointing(persistent, old(world.history), g) + Applying(persistent, i)
    {
      hide Agrees, AfterAll, AuthorizedIn, Handed, Checkpointing, Asking, Fenced, StartsOnce, Explains, Applying;
      g := 0;
      var ok := Begin(Some(i));
      if !ok { return Threw(Plain), g; }
      assert Ports(calls) == [];
      ended, g := ApplyIntentOnce(i);
      ended := FinishOperation(ended);
    }

    // ------------------------------------------------------------ one step

    /** Tries again to book an override that could not be booked; only an interrupt gets out of it. */
    method RepairOverride() returns (failed: Option<Failure>)
      requires Valid() && NoStart(calls)
      modifies world, `made, `reentered, `faulted, `calls, `pendingOverride
      ensures Valid() && old(calls) <= calls && NoStart(calls) && (Smooth() ==> old(Smooth()))
      ensures world.View() == old(world.View()).(activeKey := world.activeKey, history := world.history)
      ensures old(pendingOverride).None? ==>
        failed.None? && pendingOverride.None? && calls == old(calls) && world.View() == old(world.View())
        && faulted == old(faulted) && reentered == old(reentered)
    {
      hide AllAgree, AfterAll;
      failed := None;
      if pendingOverride.None? { return; }
      if world.activeKey != pendingOverride {
        pendingOverride := None;
        return;
      }
      var repaired := Ask(Marking);
      if repaired.answer == Thrown(Interrupt) { return Some(Interrupt); }
      if repaired.answer.Odd? { faulted := true; }
      if repaired.answer.Yes? { pendingOverride := None; }
    }

    /** An occurrence whose session is over is booked as completed, unless Requested is ON; then it is stopped first. */
    method ReconcileActive() returns (failed: Option<Failure>)
      requires Valid() && NoStart(calls)
      modifies world, `made, `reentered, `faulted, `calls
      ensures Valid() && old(calls) <= calls && NoStart(calls) && (Smooth() ==> old(Smooth()))
      ensures old(world.activeKey).None? || pendingOverride.Some? ==>
        failed.None? && calls == old(calls) && world.View() == old(world.View()) && faulted == old(faulted) && reentered == old(reentered)
      ensures old(world.activeKey).Some? && pendingOverride.None? ==> Reconciled(calls, |old(calls)|)
    {
      hide AllAgree, AfterAll;
      if pendingOverride.Some? || world.activeKey.None? { return None; }
      var over := Ask(SessionOver);
      if over.answer.Thrown? { return Some(over.answer.failure); }
      if over.answer.Odd? {
        faulted := true;
        return None;
      }
      if over.answer.No? { return None; }
      if world.requestedOn {
        faulted := true;
        ghost var before := calls;
        failed := FailSafeOff();
        ghost var e :| calls == before + [Call(Stop, e)];
        return;
      }
      var marked := Ask(Marking);
      if marked.answer == Thrown(Interrupt) { return Some(Interrupt); }
      if !marked.answer.Yes? { faulted := true; }
      return None;
    }

    /** The tick of a step, and what is still open from earlier ones. */
    method LookBack() returns (failed: Option<Failure>)
      requires Valid() && calls == []
      modifies world, `made, `reentered, `faulted, `calls, `pendingOverride
      ensures Valid() && NoStart(calls) && Followed(calls, old(world.View()), old(pendingOverride)) && (Smooth() ==> old(Smooth()))
      ensures Smooth() && old(pendingOverride).None? && old(world.activeKey).None? ==>
        && failed.None? && pendingOverride.None? && Ports(calls) == [Ticks]
        && world.View() == old(world.View()) && faulted == old(faulted) && reentered == old(reentered)
    {
      hide Agrees, AllAgree, AfterAll, Ports, Fenced;
      NothingYet(calls);
      var now := Consult(Ticks);
      if Failed(now.answer) { return Some(FailureOf(now.answer)); }
      failed := RepairOverride();
      if failed.Some? { return; }
      failed := ReconcileActive();
    }

    lemma StaysFollowed(before: seq<Call>, after: seq<Call>, p: Picture, repair: Option<Key>)
      requires before <= after && Followed(before, p, repair)
      ensures Followed(after, p, repair)
    {
      assert forall k :: 0 <= k < |before| ==> before[k] == after[k];
    }

    method StepCore(issued: Option<Intent>) returns (ended: Ended, ghost h: Ledger, ghost g: int, ghost again: int)
      requires Valid() && calls == []
      modifies world, `made, `reentered, `faulted, `calls, `pendingOverride, `log
      ensures Valid() && StartsOnce(calls) && (ended == Returned(Some(true)) ==> NoOrphan(world.View()))
      ensures Followed(calls, old(world.View()), old(pendingOverride))
      ensures
        && Smooth() && (issued.Some? ==> wanted == issued.value)
        && !old(world.requestedOn) && !old(faulted) && old(pendingOverride).None? && old(world.activeKey).None? ==>
        && reentered == old(reentered) && faulted == old(faulted)
        && (issued.None? ==> ended == Returned(None) && !world.requestedOn && Ports(calls) == Looking(persistent, h, g))
        && (issued.Some? ==>
              && ended == Returned(Some(true)) && Handed(calls, issued.value)
              && Ports(calls) == Looking(persistent, h, g) + Checkpointing(persistent, h, again) + Applying(persistent, issued.value))
    {
      hide Agrees, AllAgree, AfterAll, Ports, Handed, NoStart, Checkpointing, Asking, Fenced, StartsOnce, Applying, Followed;
      h, g, again := [], 0, 0;
      var failed := LookBack();
      NoStartIsOnce(calls);
      if failed.Some? { return Threw(failed.value), h, g, again; }
      ghost var before := calls;
      ended, h, g, again := LookOn(issued);
      StaysFollowed(before, calls, old(world.View()), old(pendingOverride));
    }

    /** The scheduler's step between two checks of its ledger's durability, and the intent it returned. */
    method LookOn(issued: Option<Intent>) returns (ended: Ended, ghost h: Ledger, ghost g: int, ghost again: int)
      requires Valid() && NoStart(calls)
      modifies world, `made, `reentered, `faulted, `calls, `log
      ensures old(calls) <= calls
      ensures Valid() && StartsOnce(calls) && (ended == Returned(Some(true)) ==> NoOrphan(world.View()))
      ensures Smooth() ==> old(Smooth())
      ensures
        && Smooth() && (issued.Some? ==> wanted == issued.value)
        && !old(world.requestedOn) && !old(faulted) && pendingOverride.None? && old(world.activeKey).None? ==>
        && reentered == old(reentered) && faulted == old(faulted)
        && (issued.None? ==>
              ended == Returned(None) && !world.requestedOn
              && Ports(calls) == Ports(old(calls)) + Asking(persistent) + [Stepping(true)] + Checkpointing(persistent, h, g))
        && (issued.Some? ==>
              && ended == Returned(Some(true)) && Handed(calls, issued.value)
              && Ports(calls) == Ports(old(calls)) + Asking(persistent) + [Stepping(true)] + Checkpointing(persistent, h, g)
                                 + Checkpointing(persistent, h, again) + Applying(persistent, issued.value))
    {
      hide Agrees, AllAgree, AfterAll, Ports, Handed, NoStart, Checkpointing, Asking, Fenced, StartsOnce, Explains, Applying;
      h, g, again := [], 0, 0;
      NoStartIsOnce(calls);
      var available := Available();
      NoStartIsOnce(calls);
      if Failed(available) {
        faulted := true;
        if available == Thrown(Interrupt) { return Threw(Interrupt), h, g, again; }
      }
      var stepped := Look(available.Yes?);
      NoStartIsOnce(calls);
      if Failed(stepped) { return Threw(FailureOf(stepped)), h, g, again; }
      h := world.history;
      var checked;
      checked, g := CheckpointOrFault();
      NoStartIsOnce(calls);
      if checked.Threw? { return checked, h, g, again; }
      if checked.value == Some(false) { return Returned(Some(false)), h, g, again; }
      if issued.None? { return Returned(None), h, g, again; }
      ended, again := ApplyIntentOnce(issued.value);
    }

    /** The scheduler's own step; what it exports may change in it. */
    method Look(available: bool) returns (answer: Answer)
      requires Valid() && NoStart(calls)
      modifies world, `made, `reentered, `faulted, `calls
      ensures Valid() && old(calls) <= calls && NoStart(calls)
      ensures Smooth() ==>
        && old(Smooth()) && answer.Yes? && faulted == old(faulted) && reentered == old(reentered)
        && world.View() == old(world.View()).(history := world.history)
        && Ports(calls) == Ports(old(calls)) + [Stepping(available)]
    {
      hide AllAgree, AfterAll, Ports;
      var stepped := Ask(Stepping(available));
      return stepped.answer;
    }

    lemma NothingYet(none: seq<Call>)
      requires none == []
      ensures NoStart(none) && Ports(none) == []
    {
    }

    method StepOnce(issued: Option<Intent>) returns (ended: Ended, ghost h: Ledger, ghost g: int, ghost again: int)
      requires Valid() && calls == []
      modifies world, `made, `reentered, `faulted, `calls, `pendingOverride, `log
      ensures Valid() && StartsOnce(calls) && Followed(calls, old(world.View()), old(pendingOverride))
      ensures !old(world.requestedOn) ==> NoOrphan(world.View())
      ensures
        && Smooth() && (issued.Some? ==> wanted == issued.value)
        && !old(world.requestedOn) && !old(faulted) && old(pendingOverride).None? && old(world.activeKey).None? ==>
        && reentered == old(reentered) && faulted == old(faulted)
        && (issued.None? ==> ended == Returned(None) && !world.requestedOn && Ports(calls) == Looking(persistent, h, g))
        && (issued.Some? ==>
              && ended == Returned(Some(true)) && Handed(calls, issued.value)
              && Ports(calls) == Looking(persistent, h, g) + Checkpointing(persistent, h, again) + Applying(persistent, issued.value))
    {
      hide Agrees, AllAgree, AfterAll, Ports, Handed, NoStart, Looking, Checkpointing, Fenced, StartsOnce, Applying, Followed;
      var wasOff := !world.requestedOn;
      ended, h, g, again := StepCore(issued);
      ghost var before := calls;
      if ended.Threw? {
        var associated := world.activeKey.Some? && world.requestedOn && world.source == "timer";
        if wasOff && world.requestedOn && !associated {
          faulted := true;
          var failed := StopOrphan();
          StaysFollowed(before, calls, old(world.View()), old(pendingOverride));
          if failed.Some? { return Threw(failed.value), h, g, again; }
        }
        return;
      }
      if wasOff && world.requestedOn && ended != Returned(Some(true)) {
        faulted := true;
        var failed := StopOrphan();
        StaysFollowed(before, calls, old(world.View()), old(pendingOverride));
        return if failed.Some? then Threw(failed.value) else Threw(Plain), h, g, again;
      }
    }

    /** The same for a whole scheduler step; `issued` is the intent the scheduler returns in it. If every port agrees, an idle
        gateway brings it to the heater, and without one it only makes the ledger durable. */
    method Step(issued: Option<Intent>) returns (ended: Ended, ghost h: Ledger, ghost g: int, ghost again: int)
      requires Valid()
      modifies this, world
      ensures Valid()
      ensures !old(world.requestedOn) ==> NoOrphan(world.View())
      ensures old(operationActive) ==> ended == Threw(Plain) && faulted && calls == old(calls)
      ensures !old(operationActive) ==>
        && base == old(world.View()) && (issued.Some? ==> wanted == issued.value) && StartsOnce(calls)
        && Followed(calls, base, old(pendingOverride))
      ensures old(Idle()) && (Obliging(ports, wanted) || AllAgree(base, calls, wanted)) ==>
        && !faulted
        && (issued.None? ==> ended == Returned(None) && !world.requestedOn && Ports(calls) == Looking(persistent, h, g))
        && (issued.Some? ==>
              && ended == Returned(Some(true)) && Handed(calls, issued.value)
              && Ports(calls) == Looking(persistent, h, g) + Checkpointing(persistent, h, again) + Applying(persistent, issued.value))
    {
      hide Agrees, AfterAll, Ports, Handed, Checkpointing, Looking, Fenced, StartsOnce, Applying, Followed;
      h, g, again := [], 0, 0;
      var ok := Begin(issued);
      if !ok { return Threw(Plain), h, g, again; }
      ended, h, g, again := StepOnce(issued);
      ghost var before := calls;
      ended := FinishOperation(ended);
      StaysFollowed(before, calls, base, old(pendingOverride));
    }

    // ------------------------------------------------------------ the manual stop

    /** After the tick the stop comes first, and then an active timer occurrence is booked as overridden or remembered. */
    ghost predicate Overridden()
      reads this
    {
      && |calls| >= 2 && calls[0].port.Ticks? && calls[1].port.Stop?
      && var p := calls[0].effect.after;
         p.activeKey.Some? && p.requestedOn && p.source == "timer" && !calls[1].effect.answer.No? ==>
           |calls| >= 3 && calls[2].port.Marking? && (!calls[2].effect.answer.Yes? ==> pendingOverride == p.activeKey)
    }

    /** Once the tick is sampled, Requested is OFF whatever else happens. */
    method ManualStopOnce() returns (ended: Ended)
      requires Valid() && calls == []
      modifies world, `made, `reentered, `faulted, `calls, `pendingOverride, `log
      ensures Valid() && NoStart(calls)
      ensures Ticked(old(FirstTick())) ==> !world.requestedOn && Overridden() && calls[0] == Call(Ticks, old(FirstTick()))
      ensures !Ticked(old(FirstTick())) ==>
        && ended == Threw(FailureOf(old(FirstTick()).answer)) && world.View() == old(FirstTick()).after
        && reentered == (old(reentered) || (old(FirstTick()).reenters && operationActive))
    {
      hide AllAgree, AfterAll, Ports, Fenced;
      NothingYet(calls);
      var now := Ask(Ticks);
      if Failed(now.answer) { return Threw(FailureOf(now.answer)); }
      var key := world.activeKey;
      var wasTimer := world.requestedOn && world.source == "timer";
      var stopped := Ask(Stop);
      var error: Option<Failure> := if Failed(stopped.answer) then Some(FailureOf(stopped.answer)) else None;
      if key.Some? && wasTimer && (stopped.answer.Yes? || error.Some?) {
        ended := Override(key, error, stopped.answer.Yes?);
        return;
      }
      if error.Some? {
        faulted := true;
        return Threw(error.value);
      }
      return Returned(Some(stopped.answer.Yes?));
    }

    /** Books the override and makes it durable; what cannot be booked is remembered. */
    method Override(key: Option<Key>, earlier: Option<Failure>, stopped: bool) returns (ended: Ended)
      requires Valid() && NoStart(calls) && !world.requestedOn
      modifies world, `made, `reentered, `faulted, `calls, `pendingOverride, `log
      ensures old(calls) <= calls
      ensures Valid() && NoStart(calls) && !world.requestedOn
      ensures |calls| > |old(calls)| && calls[|old(calls)|].port.Marking?
      ensures !calls[|old(calls)|].effect.answer.Yes? ==> pendingOverride == key
    {
      hide AllAgree, AfterAll, Ports, Fenced, Agrees;
      var error := earlier;
      var marked := Ask(Marking);
      if Failed(marked.answer) && error.None? { error := Some(FailureOf(marked.answer)); }
      if !marked.answer.Yes? {
        pendingOverride := key;
      } else {
        var checked, g := CheckpointOrFault();
        if checked.Threw? { return checked; }
        if checked.value == Some(false) && error.None? { error := Some(Plain); }
      }
      if error.Some? {
        faulted := true;
        return Threw(error.value);
      }
      return Returned(Some(stopped));
    }

    /** A manual stop leaves Requested OFF whenever the clock gave it a tick. When the clock raised instead, and nothing
        re-entered, Requested is whatever the clock callback made of it. Inside another operation it is refused. */
    method RequestManualStop() returns (ended: Ended)
      requires Valid()
      modifies this, world
      ensures Valid()
      ensures old(operationActive) ==> ended == Threw(Plain) && reentered && faulted && world.View() == old(world.View())
      ensures !old(operationActive) && Ticked(old(FirstTick())) ==>
        && !world.requestedOn && NoOrphan(world.View()) && Overridden() && calls[0] == Call(Ticks, old(FirstTick()))
      ensures !old(operationActive) && !Ticked(old(FirstTick())) && old(FirstTick()).reenters ==> ended.Threw? && !world.requestedOn
      ensures !old(operationActive) && !Ticked(old(FirstTick())) && !old(FirstTick()).reenters ==>
        ended == Threw(FailureOf(old(FirstTick()).answer)) && world.View() == old(FirstTick()).after
    {
      hide AllAgree, AfterAll, Ports, Fenced;
      var ok := Begin(None);
      if !ok { return Threw(Plain); }
      ended := ManualStopOnce();
      NoStartIsOnce(calls);
      ended := FinishOperation(ended);
    }
  }

  /** The exact failure: a clock callback that starts the heater by hand and then raises leaves an orphan ON behind a
      manual stop that began with Requested OFF. */
  method ClockFailureLeavesOrphan() returns (world: World, ended: Ended)
    ensures fresh(world) && ended == Threw(Plain) && world.requestedOn && !NoOrphan(world.View())
  {
    world := new World();
    var started := Picture(true, "manual", Params("power", None, Some(3), 60), None, None, []);
    var gateway := new Gateway(world, true, (n, p, before, port) => Effect(started, false, Thrown(Plain), 0, []));
    ended := gateway.RequestManualStop();
  }

  /** Ports that agree with everything. */
  function Agreeable(i: Intent): Behaviour {
    (n: nat, p: Picture, before: seq<Call>, port: Port) =>
      var number := if |before| >= 2 && before[|before| - 2].port.Generation? then before[|before| - 2].effect.number + 1 else 0;
      var after := if port.Start? then p.(requestedOn := true, source := "timer", params := i.params, deadline := Some(i.notAfter))
                   else if port.Completion? then p.(activeKey := Some(i.key)) else p;
      Effect(after, false, Yes, number, p.history)
  }

  lemma AgreeableIsObliging(i: Intent)
    ensures Obliging(Agreeable(i), i)
  {
  }

  /** Under agreeable ports an intent becomes Requested ON with its occurrence active. */
  method AgreedIntentIsApplied(i: Intent) returns (world: World, ended: Ended)
    ensures fresh(world) && ended == Returned(Some(true)) && world.requestedOn
  {
    AgreeableIsObliging(i);
    hide Agreeable, Agrees, AllAgree, Applying, Handed;
    world := new World();
    var gateway := new Gateway(world, true, Agreeable(i));
    ghost var g;
    ended, g := gateway.ApplyIntent(i);
  }
}
