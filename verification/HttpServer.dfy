/** The socket server object (adapters/micropython_http_server.py): its slots, its turn and its flags, changed in place.
    Every method makes the transition of HttpModel, and every public one leaves the server quiescent. */
module HttpSockets {
  import opened Options
  import opened Bytes
  import opened HttpModel
  import opened HttpOwnership
  import opened HttpDelivery
  import opened HttpRuns

  class HttpServer {
    const config: Config

    var clients: seq<Option<Client>>
    var cleanup: seq<Option<nat>>
    var listener: bool
    var accepting: bool
    var closed: bool
    var nextActor: nat
    var lifecycleActive: bool
    var operationActive: bool
    var reentered: bool
    var faulted: bool
    var completed: nat
    /** What the outside will answer, and how many sockets it has handed out. */
    var script: seq<Answer>
    var sockets: nat
    ghost var open: set<nat>
    ghost var delivered: map<nat, seq<byte>>
    ghost var queued: map<nat, seq<byte>>
    ghost var finished: set<nat>
    ghost var cut: set<nat>
    ghost var actions: nat

    ghost function Outer(): Net
      reads this
    {
      Net(script, sockets, open, delivered, queued, finished, cut, actions)
    }

    ghost function View(): Server
      reads this
    {
      Server(clients, cleanup, listener, accepting, closed, nextActor, lifecycleActive, operationActive, reentered, faulted,
             completed, Outer())
    }

    ghost predicate Valid()
      reads this
    {
      Quiescent(View())
    }

    constructor (config: Config, script: seq<Answer>)
      ensures this.config == config && View() == Initial(script) && Valid()
    {
      this.config, this.script := config, script;
      clients, cleanup, listener, accepting, closed := [None, None], [None, None], false, false, false;
      nextActor, lifecycleActive, operationActive, reentered := 0, false, false, false;
      faulted, completed, sockets, open := false, 0, 0, {};
      delivered, queued, finished, cut, actions := map[], map[], {}, {}, 0;
      new;
      InitialIsQuiescent(script);
    }

    // ------------------------------------------------------------ fields that change together

    method PutClient(i: nat, c: Option<Client>)
      requires i < |clients|
      modifies `clients
      ensures View() == SetClient(old(View()), i, c)
    {
      clients := clients[i := c];
    }

    method PutCleanup(i: nat, id: Option<nat>)
      requires i < |cleanup|
      modifies `cleanup
      ensures View() == SetCleanup(old(View()), i, id)
    {
      cleanup := cleanup[i := id];
    }

    method LatchFault()
      modifies `faulted
      ensures View() == old(View()).(faulted := true)
    {
      faulted := true;
    }

    method EndAccepting()
      modifies `closed, `accepting
      ensures View() == old(View()).(closed := true, accepting := false)
    {
      closed, accepting := true, false;
    }

    method SetLifecycle(active: bool)
      modifies `lifecycleActive
      ensures View() == old(View()).(lifecycleActive := active)
    {
      lifecycleActive := active;
    }

    method SetListener(held: bool)
      modifies `listener
      ensures View() == old(View()).(listener := held)
    {
      listener := held;
    }

    method SetOperation(active: bool)
      modifies `operationActive, `reentered
      ensures View() == old(View()).(operationActive := active, reentered := false)
    {
      operationActive, reentered := active, false;
    }

    method SetTurn(next: nat)
      modifies `nextActor
      ensures View() == old(View()).(nextActor := next)
    {
      nextActor := next;
    }

    // ------------------------------------------------------------ the outside

    /** The next answer of the outside, after it has called the server as often as it wanted to. */
    method Call(deep: bool) returns (result: Result)
      requires Shaped(View())
      modifies this
      ensures result == old(Head(View()).result) && View() == Outside(old(View()), deep)
      decreases deep, 2
    {
      var answer := if script == [] then Answer(Fails, Nested(false, false)) else script[0];
      if script != [] { script := script[1..]; }
      if answer.nested.step { Reenter(); }
      if answer.nested.deinit { NestedDeinit(deep); }
      result := answer.result;
    }

    method Reenter()
      modifies `reentered, `faulted
      ensures View() == NestStep(old(View()))
    {
      if operationActive { reentered, faulted := true, true; }
    }

    method NestedDeinit(deep: bool)
      requires Shaped(View())
      modifies this
      ensures View() == NestDeinit(old(View()), deep)
      decreases deep, 1
    {
      if deep && !lifecycleActive {
        var flow := DeinitCore();
      } else {
        EndAccepting();
        LatchFault();
      }
    }

    // ------------------------------------------------------------ closing

    method CloseClient(i: nat, deep: bool) returns (flow: Flow)
      requires Shaped(View()) && i < 2
      modifies this
      ensures Res(View(), flow) == HttpModel.CloseClient(old(View()), i, deep)
      decreases deep, 3
    {
      if clients[i].None? { return Go(true); }
      var c := clients[i].value;
      if !c.held {
        PutClient(i, None);
        return Go(true);
      }
      PutClient(i, Some(ClosingClient(c).(held := false)));
      var result := Call(deep);
      if result == Fine {
        open := open - {c.id};
        PutClient(i, None);
        return Go(true);
      }
      PutClient(i, Some(ClosingClient(c)));
      flow := if Raises(result) then Raised(result) else Go(false);
    }

    method CloseCleanup(i: nat, deep: bool) returns (flow: Flow)
      requires Shaped(View()) && i < 2
      modifies this
      ensures Res(View(), flow) == HttpModel.CloseCleanup(old(View()), i, deep)
      decreases deep, 3
    {
      if cleanup[i].None? { return Go(true); }
      var id := cleanup[i];
      PutCleanup(i, None);
      var result := Call(deep);
      if result == Fine {
        open := open - {id.value};
        return Go(true);
      }
      PutCleanup(i, id);
      flow := if Raises(result) then Raised(result) else Go(false);
    }

    method CloseListener() returns (flow: Flow)
      requires Shaped(View())
      modifies this
      ensures Res(View(), flow) == HttpModel.CloseListener(old(View()))
      decreases false, 3
    {
      if !listener { return Go(true); }
      SetListener(false);
      var result := Call(false);
      if result == Fine { return Go(true); }
      SetListener(true);
      flow := if Raises(result) then Raised(result) else Go(false);
    }

    method CloseAll(deep: bool) returns (flow: Flow)
      requires Shaped(View())
      modifies this
      ensures Res(View(), flow) == HttpModel.CloseAll(old(View()), deep)
      decreases deep, 4
    {
      hide HttpModel.CloseClient, HttpModel.CloseCleanup;
      var a := CloseCleanup(0, deep);
      var b := CloseClient(0, deep);
      var c := CloseCleanup(1, deep);
      var d := CloseClient(1, deep);
      flow := Worse(Worse(a, b), Worse(c, d));
    }

    method DeinitCore() returns (flow: Flow)
      requires Shaped(View())
      modifies this
      ensures Res(View(), flow) == HttpModel.Deinit(old(View()))
      decreases true, 0
    {
      hide HttpModel.CloseListener, HttpModel.CloseAll;
      EndAccepting();
      if lifecycleActive {
        LatchFault();
        return Go(true);
      }
      SetLifecycle(true);
      var a := CloseListener();
      var b := CloseAll(false);
      flow := Worse(a, b);
      SetLifecycle(false);
      if flow == Go(false) { LatchFault(); }
    }

    // ------------------------------------------------------------ accepting

    method Reject(id: nat, slot: nat) returns (flow: Flow)
      requires Shaped(View()) && slot < 2
      modifies this
      ensures Res(View(), flow) == HttpModel.Reject(old(View()), id, slot)
    {
      hide HttpModel.CloseCleanup;
      if clients[slot].Some? || (cleanup[slot].Some? && cleanup[slot] != Some(id)) {
        LatchFault();
        return Go(false);
      }
      PutCleanup(slot, Some(id));
      flow := CloseRetained(slot);
    }

    method CloseRetained(slot: nat) returns (flow: Flow)
      requires Shaped(View()) && slot < 2
      modifies this
      ensures Res(View(), flow) == FaultyUnlessClosed(HttpModel.CloseCleanup(old(View()), slot, true))
    {
      hide HttpModel.CloseCleanup;
      flow := CloseCleanup(slot, true);
      if flow == Go(false) { LatchFault(); }
    }

    method RejectAnd(id: nat, slot: nat, raised: Flow) returns (flow: Flow)
      requires Shaped(View()) && slot < 2
      modifies this
      ensures Res(View(), flow) == HttpModel.RejectAnd(old(View()), id, slot, raised)
    {
      hide HttpModel.Reject;
      flow := Reject(id, slot);
      if flow.Go? { flow := raised; }
    }

    method RejectHandled(id: nat, slot: nat) returns (flow: Flow)
      requires Shaped(View()) && slot < 2
      modifies this
      ensures Res(View(), flow) == HttpModel.RejectHandled(old(View()), id, slot)
    {
      hide HttpModel.Reject, HttpModel.RejectAnd;
      flow := Reject(id, slot);
      if flow.Go? { return Go(false); }
      flow := RejectAnd(id, slot, flow);
    }

    method Own(slot: nat) returns (id: nat)
      requires Shaped(View()) && slot < 2
      modifies this
      ensures id == old(sockets) && View() == SetCleanup(Opened(old(View())), slot, Some(id))
      ensures Shaped(View())
    {
      id := sockets;
      sockets := sockets + 1;
      open, delivered := open + {id}, delivered[id := []];
      PutCleanup(slot, Some(id));
    }

    method Admit(id: nat, slot: nat, now: int) returns (flow: Flow)
      requires Shaped(View()) && slot < 2
      modifies this
      ensures Res(View(), flow) == HttpModel.Admit(config, old(View()), id, slot, now)
    {
      hide HttpModel.RejectHandled, HttpModel.RejectAnd, Outside;
      var result := Call(true);
      if Raises(result) {
        flow := RejectAnd(id, slot, Raised(result));
      } else if result != Fine {
        flow := RejectAnd(id, slot, Go(false));
      } else if closed || !accepting || reentered {
        flow := RejectHandled(id, slot);
      } else {
        PutClient(slot, Some(NewClient(config, id, now)));
        PutCleanup(slot, None);
        flow := Go(true);
      }
    }

    method FindFreeSlot() returns (slot: Option<nat>)
      requires Shaped(View())
      ensures slot == FreeSlot(View())
    {
      slot := None;
      var i := 0;
      while i < 2 && slot.None?
        invariant i <= 2
        invariant slot.Some? ==> slot == FreeSlot(View())
        invariant slot.None? ==> forall k :: 0 <= k < i ==> clients[k].Some? || cleanup[k].Some?
      {
        if clients[i].None? && cleanup[i].None? { slot := Some(i); }
        i := i + 1;
      }
    }

    method AcceptOne(now: int) returns (flow: Flow)
      requires Shaped(View())
      modifies this
      ensures Res(View(), flow) == HttpModel.AcceptOne(config, old(View()), now)
    {
      hide HttpModel.Admission, Outside;
      actions := actions + 1;
      var result := Call(true);
      flow := Admission(now, result);
    }

    method Admission(now: int, result: Result) returns (flow: Flow)
      requires Shaped(View())
      modifies this
      ensures Res(View(), flow) == HttpModel.Admission(config, old(View()), now, result)
    {
      hide HttpModel.RejectHandled, HttpModel.RejectAnd, HttpModel.Admit, SetCleanup;
      if Raises(result) { return Raised(result); }
      if !result.Accepted? { return Go(false); }
      var slot := FindFreeSlot();
      if slot.None? {
        Abandon();
        return Go(false);
      }
      flow := Enter(slot.value, result.valid, now);
    }

    method Abandon()
      modifies this
      ensures View() == Opened(old(View())).(faulted := true)
    {
      sockets, open, delivered := sockets + 1, open + {sockets}, delivered[sockets := []];
      LatchFault();
    }

    method Enter(slot: nat, valid: bool, now: int) returns (flow: Flow)
      requires Shaped(View()) && slot < 2
      modifies this
      ensures
        var (id, w) := (old(sockets), SetCleanup(Opened(old(View())), slot, Some(old(sockets))));
        Res(View(), flow) ==
          if !valid then HttpModel.RejectAnd(w, id, slot, Go(false))
          else if Interrupted(w) then HttpModel.RejectHandled(w, id, slot)
          else HttpModel.Admit(config, w, id, slot, now)
    {
      hide HttpModel.RejectHandled, HttpModel.RejectAnd, HttpModel.Admit, SetCleanup;
      var id := Own(slot);
      if !valid {
        flow := RejectAnd(id, slot, Go(false));
      } else if closed || !accepting || reentered {
        flow := RejectHandled(id, slot);
      } else {
        flow := Admit(id, slot, now);
      }
    }

    // ------------------------------------------------------------ receiving

    method BeginWrite(i: nat, client: Client, response: seq<byte>, now: int)
      requires i < |clients|
      modifies `clients, `queued
      ensures View() == HttpModel.BeginWrite(config, old(View()), i, client, response, now)
    {
      PutClient(i, Some(client.(phase := Write, request := [], response := response, offset := 0,
                                idle := now + config.writeIdle, absolute := now + config.writeAbsolute)));
      queued := queued[client.id := response];
    }

    method CloseAnd(i: nat, raised: Flow) returns (flow: Flow)
      requires Shaped(View()) && i < 2
      modifies this
      ensures Res(View(), flow) == HttpModel.CloseAnd(old(View()), i, raised)
    {
      hide HttpModel.CloseClient;
      flow := CloseClient(i, true);
      if flow.Go? { flow := raised; }
    }

    method QueueResponse(i: nat, client: Client, response: seq<byte>) returns (flow: Flow)
      requires Shaped(View()) && i < 2
      modifies this
      ensures Res(View(), flow) == HttpModel.QueueResponse(config, old(View()), i, client, response)
    {
      hide HttpModel.CloseAnd, HttpModel.BeginWrite, Outside;
      var result := Call(true);
      if result == OutOfMemory { return Oom; }
      if !result.Time? { return Kill; }
      if reentered || closed || clients[i].None? || clients[i].value.id != client.id {
        flow := CloseAnd(i, Go(true));
      } else {
        BeginWrite(i, client, response, result.now);
        flow := Go(true);
      }
    }

    method Route(i: nat, client: Client, now: int) returns (flow: Flow)
      requires Shaped(View()) && i < 2
      modifies this
      ensures Res(View(), flow) == HttpModel.Route(config, old(View()), i, client, now)
    {
      hide HttpModel.CloseAnd, HttpModel.BeginWrite, HttpModel.QueueResponse, Outside;
      var result := Call(true);
      var gone := clients[i].None? || clients[i].value.id != client.id;
      if Raises(result) {
        flow := CloseAnd(i, Raised(result));
      } else if !result.Response? && result != BadResponse {
        if !closed && !gone {
          LatchFault();
          BeginWrite(i, client, config.errorResponse(500), now);
        }
        flow := Go(true);
      } else if reentered || closed || gone {
        flow := CloseAnd(i, Go(true));
      } else if result == BadResponse {
        LatchFault();
        flow := CloseAnd(i, Go(true));
      } else {
        flow := QueueResponse(i, client, result.bytes);
      }
    }

    method Dispatch(i: nat, client: Client, parsed: Parsed, now: int) returns (flow: Flow)
      requires Shaped(View()) && i < 2
      modifies this
      ensures Res(View(), flow) == HttpModel.Dispatch(config, old(View()), i, client, parsed, now)
    {
      hide HttpModel.BeginWrite, HttpModel.Route;
      flow := Go(true);
      match parsed {
        case IncompleteHeaders =>
          PutClient(i, Some(if client.phase == Headers then client.(idle := now + config.headerIdle) else client));
        case IncompleteBody =>
          PutClient(i, Some(if client.phase != Body then BeginBody(config, client, now) else client.(idle := now + config.bodyIdle)));
        case Malformed(status) => BeginWrite(i, client, config.errorResponse(status), now);
        case ParserFails => LatchFault(); BeginWrite(i, client, config.errorResponse(500), now);
        case Complete => flow := Route(i, client, now);
      }
    }

    method ParseAndRoute(i: nat, client: Client, now: int) returns (flow: Flow)
      requires Shaped(View()) && i < 2
      modifies this
      ensures Res(View(), flow) == HttpModel.ParseAndRoute(config, old(View()), i, client, now)
    {
      hide HttpModel.Dispatch, EndsHeaders;
      if WaitsForLineFeed(client) {
        PutClient(i, Some(client.(idle := now + config.headerIdle)));
        flow := Go(true);
      } else {
        flow := Dispatch(i, client, config.parse(client.request), now);
      }
    }

    method TakeChunk(i: nat, client: Client, chunk: seq<byte>, now: int) returns (flow: Flow)
      requires Shaped(View()) && i < 2
      modifies this
      ensures Res(View(), flow) == HttpModel.TakeChunk(config, old(View()), i, client, chunk, now)
    {
      hide HttpModel.ParseAndRoute, HttpModel.CloseAnd, HttpModel.BeginWrite;
      if chunk == [] || |chunk| > BUDGET {
        flow := CloseAnd(i, Go(false));
      } else if |client.request| + |chunk| > config.maxRequest {
        BeginWrite(i, client, config.errorResponse(if client.phase == Body then 413 else 431), now);
        flow := Go(true);
      } else {
        var next := client.(request := client.request + chunk);
        if client.phase == First { next := BeginHeaders(config, next, now); }
        PutClient(i, Some(next));
        flow := ParseAndRoute(i, next, now);
      }
    }

    method RecvOne(i: nat, client: Client, now: int) returns (flow: Flow)
      requires Shaped(View()) && i < 2
      modifies this
      ensures Res(View(), flow) == HttpModel.RecvOne(config, old(View()), i, client, now)
    {
      hide HttpModel.TakeChunk, HttpModel.CloseAnd, Outside;
      actions := actions + 1;
      var result := Call(true);
      if result == OutOfMemory {
        flow := CloseAnd(i, Oom);
      } else if result == Terminal {
        flow := Kill;
      } else if result == Blocks {
        flow := Go(false);
      } else if !result.Data? || closed || reentered || clients[i].None? || clients[i].value.id != client.id {
        flow := CloseAnd(i, Go(false));
      } else {
        flow := TakeChunk(i, client, result.chunk, now);
      }
    }

    // ------------------------------------------------------------ sending

    method Finish(i: nat, client: Client, ok: bool) returns (flow: Flow)
      requires Shaped(View()) && i < 2
      modifies this
      ensures Res(View(), flow) == HttpModel.Finish(old(View()), i, client, ok)
    {
      hide HttpModel.CloseAnd;
      completed, finished := completed + 1, finished + {client.id};
      flow := CloseAnd(i, Go(ok));
    }

    method Taken(i: nat, client: Client, count: nat, now: int) returns (flow: Flow)
      requires Shaped(View()) && i < 2 && client.offset <= |client.response| && count <= |Payload(client)|
      modifies this
      ensures Res(View(), flow) == HttpModel.Taken(config, old(View()), i, client, count, now)
    {
      hide HttpModel.CloseAnd, HttpModel.Finish, Payload, Deliver;
      GiveTo(client.id, Payload(client)[..count]);
      if closed || reentered || clients[i].None? || clients[i].value.id != client.id {
        flow := CutOff(i, client.id);
      } else {
        var sent := client.(offset := client.offset + count, idle := now + config.writeIdle);
        PutClient(i, Some(sent));
        if sent.offset == |sent.response| {
          flow := Finish(i, sent, true);
        } else {
          flow := Go(true);
        }
      }
    }

    ghost method GiveTo(id: nat, taken: seq<byte>)
      modifies `delivered
      ensures View() == Deliver(old(View()), id, taken)
    {
      var before := if id in delivered then delivered[id] else [];
      delivered := delivered[id := before + taken];
    }

    method CutOff(i: nat, id: nat) returns (flow: Flow)
      requires Shaped(View()) && i < 2
      modifies this
      ensures var w := old(View());
        Res(View(), flow) == HttpModel.CloseAnd(w.(net := w.net.(cut := w.net.cut + {id})), i, Go(false))
    {
      hide HttpModel.CloseAnd;
      cut := cut + {id};
      flow := CloseAnd(i, Go(false));
    }

    method SendOne(i: nat, client: Client, now: int) returns (flow: Flow)
      requires Shaped(View()) && i < 2
      modifies this
      ensures Res(View(), flow) == HttpModel.SendOne(config, old(View()), i, client, now)
    {
      hide HttpModel.CloseAnd, HttpModel.Finish, HttpModel.Taken, Outside, Payload;
      if |client.response| <= client.offset {
        flow := Finish(i, client, false);
        return;
      }
      actions := actions + 1;
      var result := Call(true);
      if result == OutOfMemory {
        flow := CloseAnd(i, Oom);
      } else if result == Terminal {
        flow := Kill;
      } else if result == Blocks {
        flow := Go(false);
      } else if !Took(result, Payload(client)) {
        flow := CloseAnd(i, Go(false));
      } else {
        flow := Taken(i, client, result.count, now);
      }
    }

    // ------------------------------------------------------------ one step

    method ExpireClient(i: nat, now: int) returns (flow: Flow)
      requires Shaped(View()) && i < 2
      modifies this
      ensures Res(View(), flow) == HttpModel.ExpireClient(config, old(View()), i, now)
    {
      hide HttpModel.CloseClient, HttpModel.BeginWrite;
      flow := Go(true);
      if clients[i].Some? {
        var client := clients[i].value;
        if client.phase == Closing || (Overdue(client, now) && client.phase == Write) {
          flow := CloseClient(i, true);
        } else if Overdue(client, now) {
          BeginWrite(i, client, config.errorResponse(408), now);
        }
      }
    }

    method Expire(now: int) returns (flow: Flow)
      requires Shaped(View())
      modifies this
      ensures Res(View(), flow) == HttpModel.Expire(config, old(View()), now)
    {
      hide HttpModel.ExpireSlot;
      flow := ExpireSlot(0, now);
      if flow.Go? { flow := ExpireSlot(1, now); }
    }

    method ExpireSlot(i: nat, now: int) returns (flow: Flow)
      requires Shaped(View()) && i < 2
      modifies this
      ensures Res(View(), flow) == HttpModel.ExpireSlot(config, old(View()), i, now)
    {
      hide HttpModel.CloseCleanup, HttpModel.ExpireClient;
      flow := CloseCleanup(i, true);
      if flow.Go? { flow := ExpireClient(i, now); }
    }

    method IsEligible(actor: nat) returns (eligible: bool)
      requires Shaped(View()) && actor < 3
      ensures eligible == Eligible(View(), actor)
    {
      if actor == 0 {
        var slot := FindFreeSlot();
        eligible := accepting && listener && slot.Some?;
      } else {
        eligible := clients[actor - 1].Some?;
      }
    }

    method Perform(actor: nat, now: int) returns (flow: Flow)
      requires Shaped(View()) && actor < 3
      modifies this
      ensures Res(View(), flow) == HttpModel.Perform(config, old(View()), actor, now)
    {
      hide HttpModel.AcceptOne, HttpModel.CloseClient, HttpModel.SendOne, HttpModel.RecvOne;
      if actor == 0 {
        flow := AcceptOne(now);
      } else if clients[actor - 1].None? {
        flow := Go(false);
      } else {
        var client := clients[actor - 1].value;
        if client.phase == Closing {
          flow := CloseClient(actor - 1, true);
        } else if client.phase == Write {
          flow := SendOne(actor - 1, client, now);
        } else {
          flow := RecvOne(actor - 1, client, now);
        }
      }
    }

    method Serve(actor: nat, now: int) returns (flow: Flow)
      requires Shaped(View()) && actor < 3
      modifies this
      ensures Res(View(), flow) == HttpModel.Serve(config, old(View()), actor, now)
    {
      hide HttpModel.Perform;
      SetTurn((actor + 1) % 3);
      flow := Perform(actor, now);
      if flow == Go(true) && actor != 0 && !reentered && !closed {
        if clients[actor - 1].Some? && clients[actor - 1].value.phase == Write { SetTurn(actor); }
      }
    }

    /** Looks at the three actors in turn and serves the first that has something to do. */
    method ServeNext(now: int) returns (flow: Flow)
      requires Shaped(View())
      modifies this
      ensures Res(View(), flow) == HttpModel.ServeNext(config, old(View()), now)
    {
      hide HttpModel.Serve, Eligible;
      var offset := 0;
      while offset < 3
        invariant offset <= 3 && View() == old(View())
        invariant 0 < offset ==> !Eligible(View(), nextActor % 3)
        invariant 1 < offset ==> !Eligible(View(), (nextActor + 1) % 3)
        invariant 2 < offset ==> !Eligible(View(), (nextActor + 2) % 3)
      {
        var actor := (nextActor + offset) % 3;
        var eligible := IsEligible(actor);
        if eligible {
          flow := Serve(actor, now);
          return;
        }
        offset := offset + 1;
      }
      flow := Go(false);
    }

    method StepBody() returns (flow: Flow)
      requires Shaped(View())
      modifies this
      ensures Res(View(), flow) == HttpModel.StepBody(config, old(View()))
    {
      hide HttpModel.Expire, HttpModel.ServeNext, Outside;
      var result := Call(true);
      if result == OutOfMemory { return Oom; }
      if !result.Time? { return Kill; }
      if reentered || closed { return Go(false); }
      flow := Expire(result.now);
      if !flow.Go? { return; }
      if reentered || closed { return Go(false); }
      flow := ServeNext(result.now);
    }

    method Settle(body: Flow) returns (flow: Flow)
      requires Shaped(View())
      modifies this
      ensures Res(View(), flow) == HttpModel.Settle(Res(old(View()), body))
    {
      hide HttpModel.CloseAll;
      var again := reentered;
      var cleaned := Go(true);
      if again { cleaned := CloseAll(true); }
      if body == Oom || cleaned == Oom {
        var last := CloseAll(true);
        return Oom;
      }
      if body == Kill {
        var last := CloseAll(true);
        return if last == Oom then Oom else Kill;
      }
      if cleaned == Kill { return Kill; }
      flow := if again then Go(false) else body;
    }

    // ------------------------------------------------------------ operations

    /** At most one accept, recv or send; everything stays owned and accounted for. */
    method Step() returns (flow: Flow)
      requires Valid()
      modifies this
      ensures Valid() && Res(View(), flow) == HttpModel.Step(config, old(View()))
      ensures actions <= old(actions) + 1
    {
      StepActsOnce(config, View());
      hide HttpModel.StepBody, HttpModel.Settle, Sound, Follows;
      if !accepting || !listener { return Go(false); }
      SetOperation(true);
      flow := StepBody();
      flow := Settle(flow);
      SetOperation(false);
    }

    method Start(opens: bool, leaves: bool) returns (flow: Flow)
      requires Valid()
      modifies this
      ensures Valid() && Res(View(), flow) == HttpModel.Start(old(View()), opens, leaves)
    {
      StartIsOrderly(View(), opens, leaves);
      hide Sound, Follows;
      if closed { return Kill; }
      if accepting && listener { return Go(false); }
      if listener || clients != [None, None] || cleanup != [None, None] { return Kill; }
      SetListener(if opens then true else leaves);
      if !opens {
        LatchFault();
        return Kill;
      }
      accepting, faulted := true, false;
      SetTurn(0);
      flow := Go(true);
    }

    method Deinit() returns (flow: Flow)
      requires Valid()
      modifies this
      ensures Valid() && Res(View(), flow) == HttpModel.Deinit(old(View())) && closed && actions == old(actions)
    {
      DeinitIsOrderly(View());
      DeinitShrinks(View(), {});
      hide HttpModel.Deinit, Follows;
      flow := DeinitCore();
    }
  }
}
