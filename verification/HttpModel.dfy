/** The cooperative socket server of adapters/micropython_http_server.py on values. Every call that leaves the server is
    answered from a script, and during any of them the outside may call step() or deinit() again. */
module HttpModel {
  import opened Options
  import opened Bytes

  const BUDGET := 256

  datatype Parsed = IncompleteHeaders | IncompleteBody | Malformed(status: nat) | ParserFails | Complete

  /** The request parser and the encoder of fixed error responses are parameters. */
  datatype Config = Config(parse: seq<byte> -> Parsed, errorResponse: nat -> seq<byte>, maxRequest: nat,
                           firstTimeout: int, headerIdle: int, headerAbsolute: int, bodyIdle: int, bodyAbsolute: int,
                           writeIdle: int, writeAbsolute: int)

  datatype Phase = First | Headers | Body | Write | Closing

  /** A served connection; `held` is false only while its socket is being closed. */
  datatype Client = Client(id: nat, held: bool, phase: Phase, request: seq<byte>, response: seq<byte>, offset: nat,
                           idle: int, absolute: int)

  /** What the outside does to the server while it is being called. */
  datatype Nested = Nested(step: bool, deinit: bool)

  /** What a call comes back with: Fails is an ordinary exception or a malformed value. */
  datatype Result =
    | Fine | Blocks | Fails | OutOfMemory | Terminal
    | Time(now: int)
    | Accepted(valid: bool)
    | Data(chunk: seq<byte>)
    | Sent(count: int)
    | Response(bytes: seq<byte>)
    | BadResponse

  datatype Answer = Answer(result: Result, nested: Nested)

  /** The outside: answers still to be given, sockets handed out and not closed, and what reached each of them. `queued`
      is the response owed to a socket, `finished` those counted as completed, `cut` those whose last send took bytes
      but was re-entered. */
  datatype Net = Net(script: seq<Answer>, sockets: nat, open: set<nat>, delivered: map<nat, seq<byte>>,
                     queued: map<nat, seq<byte>>, finished: set<nat>, cut: set<nat>, actions: nat)

  datatype Server = Server(clients: seq<Option<Client>>, cleanup: seq<Option<nat>>, listener: bool, accepting: bool,
                           closed: bool, nextActor: nat, lifecycleActive: bool, operationActive: bool, reentered: bool,
                           faulted: bool, completed: nat, net: Net)

  /** How a call ended: with a value, or by an exception that must not be swallowed. */
  datatype Flow = Go(ok: bool) | Oom | Kill

  datatype Res = Res(w: Server, flow: Flow)

  function Initial(script: seq<Answer>): Server {
    Server([None, None], [None, None], false, false, false, 0, false, false, false, false, 0,
           Net(script, 0, {}, map[], map[], {}, {}, 0))
  }

  predicate Shaped(w: Server) {
    |w.clients| == 2 && |w.cleanup| == 2
  }

  predicate Started(w: Server) {
    w.accepting && w.listener
  }

  function Raised(r: Result): Flow {
    if r == OutOfMemory then Oom else Kill
  }

  predicate Raises(r: Result) {
    r == OutOfMemory || r == Terminal
  }

  // ---------------------------------------------------------------- calls to the outside

  function Head(w: Server): Answer {
    if w.net.script == [] then Answer(Fails, Nested(false, false)) else w.net.script[0]
  }

  function Pop(w: Server): Server {
    if w.net.script == [] then w else w.(net := w.net.(script := w.net.script[1..]))
  }

  /** A call of step() while one is running is only noted; outside a step it finds the server not started. */
  function NestStep(w: Server): Server {
    if w.operationActive then w.(reentered := true, faulted := true) else w
  }

  /** A call of deinit() closes everything, unless one is already running. */
  function NestDeinit(w: Server, deep: bool): (r: Server)
    requires Shaped(w)
    ensures Shaped(r)
    decreases deep, 1
  {
    if deep && !w.lifecycleActive then Deinit(w).w
    else w.(closed := true, accepting := false, faulted := true)
  }

  function Outside(w: Server, deep: bool): (r: Server)
    requires Shaped(w)
    ensures Shaped(r)
    decreases deep, 2
  {
    var nested := Head(w).nested;
    var p := Pop(w);
    var s := if nested.step then NestStep(p) else p;
    if nested.deinit then NestDeinit(s, deep) else s
  }

  // ---------------------------------------------------------------- closing

  function SetClient(w: Server, i: nat, c: Option<Client>): Server
    requires i < |w.clients|
  {
    w.(clients := w.clients[i := c])
  }

  function SetCleanup(w: Server, i: nat, id: Option<nat>): Server
    requires i < |w.cleanup|
  {
    w.(cleanup := w.cleanup[i := id])
  }

  function Shut(w: Server, id: nat): Server {
    w.(net := w.net.(open := w.net.open - {id}))
  }

  function ClosingClient(c: Client): Client {
    c.(phase := Closing, request := [], response := [], held := true)
  }

  function CloseClient(w: Server, i: nat, deep: bool): (r: Res)
    requires Shaped(w) && i < 2
    ensures Shaped(r.w)
    decreases deep, 3
  {
    match w.clients[i]
    case None => Res(w, Go(true))
    case Some(c) =>
      if !c.held then Res(SetClient(w, i, None), Go(true))
      else
        var result := Head(w).result;
        var after := Outside(SetClient(w, i, Some(ClosingClient(c).(held := false))), deep);
        if result == Fine then Res(SetClient(Shut(after, c.id), i, None), Go(true))
        else Res(SetClient(after, i, Some(ClosingClient(c))), if Raises(result) then Raised(result) else Go(false))
  }

  function CloseCleanup(w: Server, i: nat, deep: bool): (r: Res)
    requires Shaped(w) && i < 2
    ensures Shaped(r.w)
    decreases deep, 3
  {
    match w.cleanup[i]
    case None => Res(w, Go(true))
    case Some(id) =>
      var result := Head(w).result;
      var after := Outside(SetCleanup(w, i, None), deep);
      if result == Fine then Res(Shut(after, id), Go(true))
      else Res(SetCleanup(after, i, Some(id)), if Raises(result) then Raised(result) else Go(false))
  }

  function CloseListener(w: Server): (r: Res)
    requires Shaped(w)
    ensures Shaped(r.w)
    decreases false, 3
  {
    if !w.listener then Res(w, Go(true))
    else
      var result := Head(w).result;
      var after := Outside(w.(listener := false), false);
      if result == Fine then Res(after, Go(true))
      else Res(after.(listener := true), if Raises(result) then Raised(result) else Go(false))
  }

  /** The worse of two endings: out of memory, then another exception, then failure. */
  function Worse(a: Flow, b: Flow): Flow {
    if a == Oom || b == Oom then Oom else if a == Kill || b == Kill then Kill else Go(a.ok && b.ok)
  }

  /** Every slot in turn, whatever fails before it. */
  function CloseAll(w: Server, deep: bool): (r: Res)
    requires Shaped(w)
    ensures Shaped(r.w)
    decreases deep, 4
  {
    var a := CloseCleanup(w, 0, deep);
    var b := CloseClient(a.w, 0, deep);
    var c := CloseCleanup(b.w, 1, deep);
    var d := CloseClient(c.w, 1, deep);
    Res(d.w, Worse(Worse(a.flow, b.flow), Worse(c.flow, d.flow)))
  }

  function Deinit(w: Server): (r: Res)
    requires Shaped(w)
    ensures Shaped(r.w)
    decreases true, 0
  {
    var s := w.(closed := true, accepting := false);
    if w.lifecycleActive then Res(s.(faulted := true), Go(true))
    else
      var a := CloseListener(s.(lifecycleActive := true));
      var b := CloseAll(a.w, false);
      var flow := Worse(a.flow, b.flow);
      var t := b.w.(lifecycleActive := false);
      Res(if flow == Go(false) then t.(faulted := true) else t, flow)
  }

  // ---------------------------------------------------------------- accepting

  function FreeSlot(w: Server): (slot: Option<nat>)
    requires Shaped(w)
    ensures slot.Some? ==> slot.value < 2 && w.clients[slot.value].None? && w.cleanup[slot.value].None?
  {
    if w.clients[0].None? && w.cleanup[0].None? then Some(0)
    else if w.clients[1].None? && w.cleanup[1].None? then Some(1)
    else None
  }

  predicate Interrupted(w: Server) {
    w.closed || !w.accepting || w.reentered
  }

  function Reject(w: Server, id: nat, slot: nat): (r: Res)
    requires Shaped(w) && slot < 2
    ensures Shaped(r.w)
  {
    hide CloseCleanup;
    if w.clients[slot].Some? || (w.cleanup[slot].Some? && w.cleanup[slot] != Some(id)) then
      Res(w.(faulted := true), Go(false))
    else
      FaultyUnlessClosed(CloseCleanup(SetCleanup(w, slot, Some(id)), slot, true))
  }

  function FaultyUnlessClosed(r: Res): (s: Res)
    ensures s.flow == r.flow && s.w == r.w.(faulted := s.w.faulted)
  {
    Res(if r.flow == Go(false) then r.w.(faulted := true) else r.w, r.flow)
  }

  /** The exception handler: rejects, and raises what it was called for unless rejecting raised something itself. */
  function RejectAnd(w: Server, id: nat, slot: nat, flow: Flow): (r: Res)
    requires Shaped(w) && slot < 2
    ensures Shaped(r.w)
  {
    var r := Reject(w, id, slot);
    Res(r.w, if r.flow.Go? then flow else r.flow)
  }

  /** A rejection inside the handled block: if it raises, the handler rejects once more. */
  function RejectHandled(w: Server, id: nat, slot: nat): (r: Res)
    requires Shaped(w) && slot < 2
    ensures Shaped(r.w)
  {
    var r := Reject(w, id, slot);
    if r.flow.Go? then Res(r.w, Go(false)) else RejectAnd(r.w, id, slot, r.flow)
  }

  function Opened(w: Server): Server {
    w.(net := w.net.(sockets := w.net.sockets + 1, open := w.net.open + {w.net.sockets},
                     delivered := w.net.delivered[w.net.sockets := []]))
  }

  function Act(w: Server): Server {
    w.(net := w.net.(actions := w.net.actions + 1))
  }

  function NewClient(c: Config, id: nat, now: int): Client {
    Client(id, true, First, [], [], 0, now + c.firstTimeout, now + c.firstTimeout)
  }

  /** Making the socket nonblocking may fail or be re-entered; only then does it become a client. */
  function Admit(c: Config, w: Server, id: nat, slot: nat, now: int): (r: Res)
    requires Shaped(w) && slot < 2
    ensures Shaped(r.w)
  {
    var result := Head(w).result;
    var after := Outside(w, true);
    if Raises(result) then RejectAnd(after, id, slot, Raised(result))
    else if result != Fine then RejectAnd(after, id, slot, Go(false))
    else if Interrupted(after) then RejectHandled(after, id, slot)
    else Res(SetCleanup(SetClient(after, slot, Some(NewClient(c, id, now))), slot, None), Go(true))
  }

  /** What becomes of the result of accept(): a slot owns the socket before anything else is done with it. */
  function Admission(c: Config, w: Server, now: int, result: Result): (r: Res)
    requires Shaped(w)
    ensures Shaped(r.w)
  {
    if Raises(result) then Res(w, Raised(result))
    else if !result.Accepted? then Res(w, Go(false))
    else
      var id := w.net.sockets;
      match FreeSlot(w)
      case None => Res(Opened(w).(faulted := true), Go(false))
      case Some(slot) =>
        var owned := SetCleanup(Opened(w), slot, Some(id));
        if !result.valid then RejectAnd(owned, id, slot, Go(false))
        else if Interrupted(owned) then RejectHandled(owned, id, slot)
        else Admit(c, owned, id, slot, now)
  }

  function AcceptOne(c: Config, w: Server, now: int): (r: Res)
    requires Shaped(w)
    ensures Shaped(r.w)
  {
    Admission(c, Outside(Act(w), true), now, Head(Act(w)).result)
  }

  // ---------------------------------------------------------------- receiving

  function BeginWrite(c: Config, w: Server, i: nat, client: Client, response: seq<byte>, now: int): Server
    requires i < |w.clients|
  {
    SetClient(w, i, Some(client.(phase := Write, request := [], response := response, offset := 0,
                                 idle := now + c.writeIdle, absolute := now + c.writeAbsolute)))
    .(net := w.net.(queued := w.net.queued[client.id := response]))
  }

  function QueueError(c: Config, w: Server, i: nat, client: Client, status: nat, now: int): Server
    requires i < |w.clients|
  {
    BeginWrite(c, w, i, client, c.errorResponse(status), now)
  }

  function EndsHeaders(s: seq<byte>): bool {
    |s| >= 4 && ((s[0] == 13 && s[1] == 10 && s[2] == 13 && s[3] == 10) || EndsHeaders(s[1..]))
  }

  /** A last CR outside a body may be half of a line end. */
  predicate WaitsForLineFeed(client: Client) {
    client.phase != Body && client.request != [] && client.request[|client.request| - 1] == 13 && !EndsHeaders(client.request)
  }

  predicate Gone(w: Server, i: nat, client: Client)
    requires i < |w.clients|
  {
    w.clients[i].None? || w.clients[i].value.id != client.id
  }

  /** Closes and then raises what it was called for, unless closing raised something itself. */
  function CloseAnd(w: Server, i: nat, flow: Flow): (r: Res)
    requires Shaped(w) && i < 2
    ensures Shaped(r.w)
  {
    var r := CloseClient(w, i, true);
    Res(r.w, if r.flow.Go? then flow else r.flow)
  }

  function QueueResponse(c: Config, w: Server, i: nat, client: Client, response: seq<byte>): (r: Res)
    requires Shaped(w) && i < 2
    ensures Shaped(r.w)
  {
    var result := Head(w).result;
    var after := Outside(w, true);
    if result == OutOfMemory then Res(after, Oom)
    else if !result.Time? then Res(after, Kill)
    else if after.reentered || after.closed || Gone(after, i, client) then CloseAnd(after, i, Go(true))
    else Res(BeginWrite(c, after, i, client, response, result.now), Go(true))
  }

  /** What becomes of the result of the application's handler. */
  function Routed(c: Config, w: Server, i: nat, client: Client, result: Result, now: int): (r: Res)
    requires Shaped(w) && i < 2
    ensures Shaped(r.w)
  {
    if Raises(result) then CloseAnd(w, i, Raised(result))
    else if !result.Response? && result != BadResponse then
      if w.closed || Gone(w, i, client) then Res(w, Go(true))
      else Res(QueueError(c, w.(faulted := true), i, client, 500, now), Go(true))
    else if w.reentered || w.closed || Gone(w, i, client) then CloseAnd(w, i, Go(true))
    else if result == BadResponse then CloseAnd(w.(faulted := true), i, Go(true))
    else QueueResponse(c, w, i, client, result.bytes)
  }

  function Route(c: Config, w: Server, i: nat, client: Client, now: int): (r: Res)
    requires Shaped(w) && i < 2
    ensures Shaped(r.w)
  {
    Routed(c, Outside(w, true), i, client, Head(w).result, now)
  }

  function BeginHeaders(c: Config, client: Client, now: int): Client {
    client.(phase := Headers, idle := now + c.headerIdle, absolute := now + c.headerAbsolute)
  }

  function BeginBody(c: Config, client: Client, now: int): Client {
    client.(phase := Body, idle := now + c.bodyIdle, absolute := now + c.bodyAbsolute)
  }

  function Dispatch(c: Config, w: Server, i: nat, client: Client, parsed: Parsed, now: int): (r: Res)
    requires Shaped(w) && i < 2
    ensures Shaped(r.w)
  {
    hide Route;
    match parsed
    case IncompleteHeaders =>
      Res(SetClient(w, i, Some(if client.phase == Headers then client.(idle := now + c.headerIdle) else client)), Go(true))
    case IncompleteBody =>
      var waiting := if client.phase != Body then BeginBody(c, client, now) else client.(idle := now + c.bodyIdle);
      Res(SetClient(w, i, Some(waiting)), Go(true))
    case Malformed(status) => Res(QueueError(c, w, i, client, status, now), Go(true))
    case ParserFails => Res(QueueError(c, w.(faulted := true), i, client, 500, now), Go(true))
    case Complete => Route(c, w, i, client, now)
  }

  function ParseAndRoute(c: Config, w: Server, i: nat, client: Client, now: int): (r: Res)
    requires Shaped(w) && i < 2
    ensures Shaped(r.w)
  {
    if WaitsForLineFeed(client) then Res(SetClient(w, i, Some(client.(idle := now + c.headerIdle))), Go(true))
    else Dispatch(c, w, i, client, c.parse(client.request), now)
  }

  function TakeChunk(c: Config, w: Server, i: nat, client: Client, chunk: seq<byte>, now: int): (r: Res)
    requires Shaped(w) && i < 2
    ensures Shaped(r.w)
  {
    if chunk == [] || |chunk| > BUDGET then CloseAnd(w, i, Go(false))
    else if |client.request| + |chunk| > c.maxRequest then
      Res(QueueError(c, w, i, client, if client.phase == Body then 413 else 431, now), Go(true))
    else
      var longer := client.(request := client.request + chunk);
      var client' := if client.phase == First then BeginHeaders(c, longer, now) else longer;
      ParseAndRoute(c, SetClient(w, i, Some(client')), i, client', now)
  }

  function RecvOne(c: Config, w: Server, i: nat, client: Client, now: int): (r: Res)
    requires Shaped(w) && i < 2
    ensures Shaped(r.w)
  {
    var result := Head(w).result;
    var after := Outside(Act(w), true);
    if result == OutOfMemory then CloseAnd(after, i, Oom)
    else if result == Terminal then Res(after, Kill)
    else if result == Blocks then Res(after, Go(false))
    else if !result.Data? || after.closed || after.reentered || Gone(after, i, client) then CloseAnd(after, i, Go(false))
    else TakeChunk(c, after, i, client, result.chunk, now)
  }

  // ---------------------------------------------------------------- sending

  function Finish(w: Server, i: nat, client: Client, ok: bool): (r: Res)
    requires Shaped(w) && i < 2
    ensures Shaped(r.w)
  {
    CloseAnd(w.(completed := w.completed + 1, net := w.net.(finished := w.net.finished + {client.id})), i, Go(ok))
  }

  function Payload(client: Client): seq<byte>
    requires client.offset <= |client.response|
  {
    var rest := client.response[client.offset..];
    if |rest| <= BUDGET then rest else rest[..BUDGET]
  }

  predicate Took(result: Result, payload: seq<byte>) {
    result.Sent? && 0 < result.count <= |payload|
  }

  /** The bytes that the peer has been given when send() reports a possible count. */
  function Deliver(w: Server, id: nat, taken: seq<byte>): Server {
    var before := if id in w.net.delivered then w.net.delivered[id] else [];
    w.(net := w.net.(delivered := w.net.delivered[id := before + taken]))
  }

  /** The peer has taken `count` bytes: they count even if the call was re-entered, but then the connection is closed
      instead of carried on. */
  function Taken(c: Config, w: Server, i: nat, client: Client, count: nat, now: int): (r: Res)
    requires Shaped(w) && i < 2 && client.offset <= |client.response| && count <= |Payload(client)|
    ensures Shaped(r.w)
  {
    var given := Deliver(w, client.id, Payload(client)[..count]);
    if given.closed || given.reentered || Gone(given, i, client) then
      CloseAnd(given.(net := given.net.(cut := given.net.cut + {client.id})), i, Go(false))
    else
      var sent := client.(offset := client.offset + count, idle := now + c.writeIdle);
      var t := SetClient(given, i, Some(sent));
      if sent.offset == |sent.response| then Finish(t, i, sent, true) else Res(t, Go(true))
  }

  function SendResult(c: Config, w: Server, i: nat, client: Client, result: Result, now: int): (r: Res)
    requires Shaped(w) && i < 2 && client.offset <= |client.response|
    ensures Shaped(r.w)
  {
    if result == OutOfMemory then CloseAnd(w, i, Oom)
    else if result == Terminal then Res(w, Kill)
    else if result == Blocks then Res(w, Go(false))
    else if !Took(result, Payload(client)) then CloseAnd(w, i, Go(false))
    else Taken(c, w, i, client, result.count, now)
  }

  function SendOne(c: Config, w: Server, i: nat, client: Client, now: int): (r: Res)
    requires Shaped(w) && i < 2
    ensures Shaped(r.w)
  {
    if |client.response| <= client.offset then Finish(w, i, client, false)
    else SendResult(c, Outside(Act(w), true), i, client, Head(Act(w)).result, now)
  }

  // ---------------------------------------------------------------- one step

  predicate Overdue(client: Client, now: int) {
    now >= client.idle || now >= client.absolute
  }

  function ExpireClient(c: Config, w: Server, i: nat, now: int): (r: Res)
    requires Shaped(w) && i < 2
    ensures Shaped(r.w)
  {
    match w.clients[i]
    case None => Res(w, Go(true))
    case Some(client) =>
      if client.phase == Closing then CloseClient(w, i, true)
      else if !Overdue(client, now) then Res(w, Go(true))
      else if client.phase == Write then CloseClient(w, i, true)
      else Res(QueueError(c, w, i, client, 408, now), Go(true))
  }

  function ExpireSlot(c: Config, w: Server, i: nat, now: int): (r: Res)
    requires Shaped(w) && i < 2
    ensures Shaped(r.w)
  {
    var a := CloseCleanup(w, i, true);
    if !a.flow.Go? then a else ExpireClient(c, a.w, i, now)
  }

  function Expire(c: Config, w: Server, now: int): (r: Res)
    requires Shaped(w)
    ensures Shaped(r.w)
  {
    var a := ExpireSlot(c, w, 0, now);
    if !a.flow.Go? then a else ExpireSlot(c, a.w, 1, now)
  }

  predicate Eligible(w: Server, actor: nat)
    requires Shaped(w) && actor < 3
  {
    if actor == 0 then Started(w) && FreeSlot(w).Some? else w.clients[actor - 1].Some?
  }

  function Perform(c: Config, w: Server, actor: nat, now: int): (r: Res)
    requires Shaped(w) && actor < 3
    ensures Shaped(r.w)
  {
    if actor == 0 then AcceptOne(c, w, now)
    else
      match w.clients[actor - 1]
      case None => Res(w, Go(false))
      case Some(client) =>
        if client.phase == Closing then CloseClient(w, actor - 1, true)
        else if client.phase == Write then SendOne(c, w, actor - 1, client, now)
        else RecvOne(c, w, actor - 1, client, now)
  }

  predicate KeepsTurn(w: Server, actor: nat, ok: bool)
    requires Shaped(w) && actor < 3
  {
    ok && actor != 0 && !w.reentered && !w.closed && w.clients[actor - 1].Some? && w.clients[actor - 1].value.phase == Write
  }

  function Serve(c: Config, w: Server, actor: nat, now: int): (r: Res)
    requires Shaped(w) && actor < 3
    ensures Shaped(r.w)
  {
    var r := Perform(c, w.(nextActor := (actor + 1) % 3), actor, now);
    if r.flow.Go? && KeepsTurn(r.w, actor, r.flow.ok) then Res(r.w.(nextActor := actor), r.flow) else r
  }

  /** The first actor, from `first` on, that has something to do. */
  function Chosen(w: Server, first: nat): (actor: Option<nat>)
    requires Shaped(w)
    ensures actor.Some? ==> actor.value < 3 && Eligible(w, actor.value)
  {
    if Eligible(w, first % 3) then Some(first % 3)
    else if Eligible(w, (first + 1) % 3) then Some((first + 1) % 3)
    else if Eligible(w, (first + 2) % 3) then Some((first + 2) % 3)
    else None
  }

  function ServeNext(c: Config, w: Server, now: int): (r: Res)
    requires Shaped(w)
    ensures Shaped(r.w)
  {
    match Chosen(w, w.nextActor)
    case None => Res(w, Go(false))
    case Some(actor) => Serve(c, w, actor, now)
  }

  function StepBody(c: Config, w: Server): (r: Res)
    requires Shaped(w)
    ensures Shaped(r.w)
  {
    var result := Head(w).result;
    var a := Outside(w, true);
    if result == OutOfMemory then Res(a, Oom)
    else if !result.Time? then Res(a, Kill)
    else if a.reentered || a.closed then Res(a, Go(false))
    else
      var b := Expire(c, a, result.now);
      if !b.flow.Go? then b
      else if b.w.reentered || b.w.closed then Res(b.w, Go(false))
      else ServeNext(c, b.w, result.now)
  }

  /** After a re-entered step and after an exception all clients are closed; the exception is then raised again. */
  function Settle(r: Res): (s: Res)
    requires Shaped(r.w)
    ensures Shaped(s.w)
  {
    var a := if r.w.reentered then CloseAll(r.w, true) else Res(r.w, Go(true));
    var ending :=
      if r.flow == Oom || a.flow == Oom then Oom
      else if r.flow == Kill || a.flow == Kill then Kill
      else if r.w.reentered then Go(false)
      else r.flow;
    if ending == Oom then Res(CloseAll(a.w, true).w, Oom)
    else if r.flow == Kill then
      var b := CloseAll(a.w, true);
      Res(b.w, if b.flow == Oom then Oom else Kill)
    else Res(a.w, ending)
  }

  function Step(c: Config, w: Server): (r: Res)
    requires Shaped(w)
    ensures Shaped(r.w)
  {
    if w.operationActive then Res(NestStep(w), Go(false))
    else if !Started(w) then Res(w, Go(false))
    else
      var s := Settle(StepBody(c, w.(operationActive := true, reentered := false)));
      Res(s.w.(operationActive := false, reentered := false), s.flow)
  }

  /** Opening the listener either works as a whole or leaves nothing behind but, if closing it fails too, itself. */
  function Start(w: Server, opens: bool, leaves: bool): (r: Res)
    requires Shaped(w)
    ensures Shaped(r.w)
  {
    if w.closed then Res(w, Kill)
    else if Started(w) then Res(w, Go(false))
    else if w.lifecycleActive then Res(w.(faulted := true), Kill)
    else if w.listener || w.clients != [None, None] || w.cleanup != [None, None] then Res(w, Kill)
    else if !opens then Res(w.(listener := leaves, faulted := true), Kill)
    else Res(w.(listener := true, accepting := true, faulted := false, nextActor := 0), Go(true))
  }
}
