/** What the socket server does when nothing goes wrong and nobody re-enters it: whom a step serves, and how a connection
    gets from accept() over its request and its response to the end. */
module HttpActions {
  import opened Options
  import opened Bytes
  import opened HttpModel
  import HttpOwnership
  import HttpDelivery
  import HttpRuns

  /** A call that comes back without re-entering the server. */
  function Plain(result: Result): Answer {
    Answer(result, Nested(false, false))
  }

  /** The next calls come back plainly with these results. */
  predicate Answers(w: Server, results: seq<Result>) {
    |results| <= |w.net.script| && forall k :: 0 <= k < |results| ==> w.net.script[k] == Plain(results[k])
  }

  /** The server between two steps, with nothing to expire or to close at this tick. */
  predicate Unhurried(w: Server, now: int) {
    && Shaped(w) && w.listener && w.accepting && !w.closed && !w.operationActive && w.cleanup == [None, None]
    && forall i :: 0 <= i < 2 && w.clients[i].Some? ==>
         w.clients[i].value.phase != Closing && now < w.clients[i].value.idle && now < w.clients[i].value.absolute
  }

  /** The server inside that step, after the clock has answered. */
  function Within(w: Server): Server
    requires w.net.script != []
  {
    w.(operationActive := true, reentered := false, net := w.net.(script := w.net.script[1..]))
  }

  function Afterwards(w: Server): Server {
    w.(operationActive := false, reentered := false)
  }

  lemma NothingExpires(c: Config, w: Server, now: int)
    requires Unhurried(w, now) && w.net.script != []
    ensures Expire(c, Within(w), now) == Res(Within(w), Go(true))
  {
  }

  lemma SettlesAtOnce(r: Res)
    requires Shaped(r.w) && r.flow.Go? && !r.w.reentered
    ensures Settle(r) == r
  {
    hide CloseAll;
  }

  /** The clock answers, nothing expires, and the actor whose turn it is is served. */
  lemma TurnIsServed(c: Config, w: Server, now: int)
    requires Unhurried(w, now) && Answers(w, [Time(now)]) && w.nextActor < 3 && Eligible(w, w.nextActor)
    requires var r := Serve(c, Within(w), w.nextActor, now); r.flow.Go? && !r.w.reentered
    ensures var r := Serve(c, Within(w), w.nextActor, now); Step(c, w) == Res(Afterwards(r.w), r.flow)
  {
    hide Serve, Settle, Expire;
    NothingExpires(c, w, now);
    SettlesAtOnce(Serve(c, Within(w), w.nextActor, now));
    assert Eligible(Within(w), w.nextActor);
    assert w.net.script[0] == Plain(Time(now));
  }

  // ---------------------------------------------------------------- accepting

  /** A new connection takes the first slot nobody uses, with its first deadline. */
  lemma ConnectionIsAccepted(c: Config, w: Server, now: int, slot: nat)
    requires Unhurried(w, now) && Answers(w, [Time(now), Accepted(true), Fine]) && w.nextActor == 0
    requires slot < 2 && w.clients[slot].None? && (slot == 1 ==> w.clients[0].Some?)
    ensures
      var r := Step(c, w);
      var id := w.net.sockets;
      && r.flow == Go(true) && r.w.nextActor == 1
      && r.w.clients == w.clients[slot := Some(Client(id, true, First, [], [], 0, now + c.firstTimeout, now + c.firstTimeout))]
      && r.w.cleanup == [None, None] && r.w.net.open == w.net.open + {id} && r.w.net.sockets == id + 1
      && r.w.net.script == w.net.script[3..]
  {
    hide AcceptOne, Step;
    var u := Within(w).(nextActor := 1);
    assert w.net.script[1] == Plain(Accepted(true)) && w.net.script[2] == Plain(Fine);
    SocketIsAdmitted(c, u, now, slot);
    assert w.net.script[1..][1..][1..] == w.net.script[3..];
    TurnIsServed(c, w, now);
  }

  lemma SocketIsAdmitted(c: Config, w: Server, now: int, slot: nat)
    requires Shaped(w) && w.listener && w.accepting && !w.closed && !w.reentered && w.cleanup == [None, None]
    requires Answers(w, [Accepted(true), Fine]) && slot < 2 && w.clients[slot].None? && (slot == 1 ==> w.clients[0].Some?)
    ensures
      var r := AcceptOne(c, w, now);
      var id := w.net.sockets;
      && r.flow == Go(true)
      && r.w == w.(clients := w.clients[slot := Some(NewClient(c, id, now))], net := r.w.net)
      && r.w.net.open == w.net.open + {id} && r.w.net.sockets == id + 1 && r.w.net.script == w.net.script[1..][1..]
  {
    var t := Opened(Act(w)).(net := Opened(Act(w)).net.(script := w.net.script[1..]));
    assert w.net.script[0] == Plain(Accepted(true)) && w.net.script[1..][0] == Plain(Fine);
    assert AcceptOne(c, w, now) == Admit(c, SetCleanup(t, slot, Some(w.net.sockets)), w.net.sockets, slot, now);
    assert w.cleanup[slot := Some(w.net.sockets)][slot := None] == w.cleanup;
  }

  // ---------------------------------------------------------------- reading a request

  /** The client once these bytes were read; the first ones begin the time for the headers. */
  function Longer(c: Config, client: Client, chunk: seq<byte>, now: int): Client {
    var longer := client.(request := client.request + chunk);
    if client.phase == First then longer.(phase := Headers, idle := now + c.headerIdle, absolute := now + c.headerAbsolute) else longer
  }

  /** The client once this response is owed to it. */
  function Owing(c: Config, client: Client, response: seq<byte>, now: int): Client {
    Client(client.id, client.held, Write, [], response, 0, now + c.writeIdle, now + c.writeAbsolute)
  }

  /** A line end may still be incomplete: the last byte is a CR and the headers have not ended. */
  predicate HalfALine(client: Client) {
    client.phase != Body && client.request != [] && client.request[|client.request| - 1] == 13 && !EndsHeaders(client.request)
  }

  /** A reading client whose turn it is, and the bytes it gets. */
  predicate Reads(w: Server, now: int, i: nat, client: Client, chunk: seq<byte>) {
    && Unhurried(w, now) && i < 2 && w.nextActor == i + 1 && w.clients[i] == Some(client)
    && (client.phase == First || client.phase == Headers || client.phase == Body)
    && Answers(w, [Time(now), Data(chunk)]) && 0 < |chunk| <= 256
  }

  /** The server after the clock and the read have answered. */
  function ReadingOn(w: Server): Server
    requires |w.net.script| >= 2
  {
    w.(operationActive := true, reentered := false,
       net := w.net.(script := w.net.script[1..][1..], actions := w.net.actions + 1))
  }

  lemma ChunkIsTaken(c: Config, w: Server, now: int, i: nat, client: Client, chunk: seq<byte>)
    requires Reads(w, now, i, client, chunk)
    ensures var u := Within(w).(nextActor := (i + 2) % 3);
            Perform(c, u, i + 1, now) == TakeChunk(c, ReadingOn(w).(nextActor := (i + 2) % 3), i, client, chunk, now)
  {
    hide TakeChunk;
    assert w.net.script[1] == Plain(Data(chunk));
  }

  /** Serving ends the step at once when it leaves the client anything but writing and nobody re-entered. */
  lemma ServedStep(c: Config, w: Server, now: int, i: nat, r: Res)
    requires Unhurried(w, now) && Answers(w, [Time(now)]) && i < 2 && w.nextActor == i + 1 && w.clients[i].Some?
    requires Shaped(r.w) && r.flow.Go? && !r.w.reentered && Perform(c, Within(w).(nextActor := (i + 2) % 3), i + 1, now) == r
    ensures var next := if KeepsTurn(r.w, i + 1, r.flow.ok) then i + 1 else r.w.nextActor;
            Step(c, w) == Res(Afterwards(r.w.(nextActor := next)), r.flow)
  {
    hide Perform;
    TurnIsServed(c, w, now);
    hide Step;
  }

  /** What the server keeps while one client changes. */
  predicate OnlyClient(w: Server, v: Server, i: nat, client: Option<Client>)
    requires |w.clients| == 2 && i < 2
  {
    && v.clients == w.clients[i := client] && v.cleanup == w.cleanup && v.listener == w.listener && v.accepting == w.accepting
    && v.closed == w.closed && v.net.sockets == w.net.sockets
  }

  /** A request beyond the limit is answered with an error: 413 for its body, 431 for its headers. */
  lemma OversizedIsRefused(c: Config, w: Server, now: int, i: nat, client: Client, chunk: seq<byte>)
    requires Reads(w, now, i, client, chunk) && |client.request| + |chunk| > c.maxRequest
    ensures
      var r := Step(c, w);
      var response := c.errorResponse(if client.phase == Body then 413 else 431);
      && r.flow == Go(true) && OnlyClient(w, r.w, i, Some(Owing(c, client, response, now)))
      && r.w.net.queued == w.net.queued[client.id := response] && r.w.nextActor == i + 1
  {
    ChunkIsTaken(c, w, now, i, client, chunk);
    ServedStep(c, w, now, i, Perform(c, Within(w).(nextActor := (i + 2) % 3), i + 1, now));
    hide Step, Perform;
  }

  /** Bytes within the limit are appended, and what the parser makes of all of them decides. */
  lemma ChunkIsDispatched(c: Config, w: Server, i: nat, client: Client, chunk: seq<byte>, now: int)
    requires Shaped(w) && i < 2 && 0 < |chunk| <= 256 && |client.request| + |chunk| <= c.maxRequest
    ensures
      var longer := Longer(c, client, chunk, now);
      var u := SetClient(w, i, Some(longer));
      TakeChunk(c, w, i, client, chunk, now) ==
      if HalfALine(longer) then Res(SetClient(u, i, Some(longer.(idle := now + c.headerIdle))), Go(true))
      else Dispatch(c, u, i, longer, c.parse(longer.request), now)
  {
    hide Dispatch;
  }

  /** A client that goes on reading. */
  function WaitingOn(c: Config, longer: Client, now: int): Client {
    if HalfALine(longer) then longer.(idle := now + c.headerIdle)
    else if c.parse(longer.request) == IncompleteHeaders then (if longer.phase == Headers then longer.(idle := now + c.headerIdle) else longer)
    else if longer.phase == Body then longer.(idle := now + c.bodyIdle)
    else longer.(phase := Body, idle := now + c.bodyIdle, absolute := now + c.bodyAbsolute)
  }

  lemma ChunkWaits(c: Config, w: Server, i: nat, client: Client, chunk: seq<byte>, now: int)
    requires Shaped(w) && i < 2 && 0 < |chunk| <= 256 && |client.request| + |chunk| <= c.maxRequest
    requires var longer := Longer(c, client, chunk, now); HalfALine(longer) || c.parse(longer.request) in {IncompleteHeaders, IncompleteBody}
    ensures var r := TakeChunk(c, w, i, client, chunk, now);
            r == Res(w.(clients := w.clients[i := Some(WaitingOn(c, Longer(c, client, chunk, now), now))]), Go(true))
  {
    ChunkIsDispatched(c, w, i, client, chunk, now);
    var longer := Longer(c, client, chunk, now);
    hide Longer, HalfALine, TakeChunk, Route;
    SetTwice(w.clients, i, longer, WaitingOn(c, longer, now));
    DispatchWaits(c, SetClient(w, i, Some(longer)), i, longer, now);
    hide Dispatch, WaitingOn;
  }

  lemma SetTwice(clients: seq<Option<Client>>, i: nat, first: Client, second: Client)
    requires i < |clients|
    ensures clients[i := Some(first)][i := Some(second)] == clients[i := Some(second)]
  {
  }

  lemma DispatchWaits(c: Config, w: Server, i: nat, longer: Client, now: int)
    requires Shaped(w) && i < 2
    ensures HalfALine(longer) ==> WaitingOn(c, longer, now) == longer.(idle := now + c.headerIdle)
    ensures !HalfALine(longer) && c.parse(longer.request) in {IncompleteHeaders, IncompleteBody} ==>
      Dispatch(c, w, i, longer, c.parse(longer.request), now) == Res(SetClient(w, i, Some(WaitingOn(c, longer, now))), Go(true))
  {
    hide HalfALine, Route;
  }

  lemma ChunkIsAnswered(c: Config, w: Server, i: nat, client: Client, chunk: seq<byte>, now: int)
    requires Shaped(w) && i < 2 && 0 < |chunk| <= 256 && |client.request| + |chunk| <= c.maxRequest
    requires var longer := Longer(c, client, chunk, now); !HalfALine(longer) && c.parse(longer.request).Malformed?
    ensures var r := TakeChunk(c, w, i, client, chunk, now);
            var response := c.errorResponse(c.parse(Longer(c, client, chunk, now).request).status);
            r == Res(w.(clients := w.clients[i := Some(Owing(c, client, response, now))],
                        net := w.net.(queued := w.net.queued[client.id := response])), Go(true))
  {
    ChunkIsDispatched(c, w, i, client, chunk, now);
    var longer := Longer(c, client, chunk, now);
    assert longer.id == client.id && longer.held == client.held;
    hide Longer, HalfALine, TakeChunk, Route;
    assert forall x: Client :: w.clients[i := Some(longer)][i := Some(x)] == w.clients[i := Some(x)];
  }

  lemma ChunkIsRouted(c: Config, w: Server, i: nat, client: Client, chunk: seq<byte>, now: int, response: seq<byte>, sampled: int)
    requires Shaped(w) && i < 2 && 0 < |chunk| <= 256 && |client.request| + |chunk| <= c.maxRequest && !w.closed && !w.reentered
    requires var longer := Longer(c, client, chunk, now); !HalfALine(longer) && c.parse(longer.request) == Complete
    requires Answers(w, [Response(response), Time(sampled)])
    ensures var r := TakeChunk(c, w, i, client, chunk, now);
            r == Res(w.(clients := w.clients[i := Some(Owing(c, client, response, sampled))],
                        net := w.net.(queued := w.net.queued[client.id := response], script := w.net.script[2..])), Go(true))
  {
    hide HalfALine, TakeChunk, Dispatch, Route, Longer;
    ChunkIsDispatched(c, w, i, client, chunk, now);
    LongerIsSame(c, client, chunk, now);
    var longer := Longer(c, client, chunk, now);
    CompleteDispatches(c, SetClient(w, i, Some(longer)), i, longer, now);
    CompleteIsOwed(c, SetClient(w, i, Some(longer)), i, longer, now, response, sampled);
    SetTwice(w.clients, i, longer, Owing(c, client, response, sampled));
  }

  lemma LongerIsSame(c: Config, client: Client, chunk: seq<byte>, now: int)
    ensures var longer := Longer(c, client, chunk, now); longer.id == client.id && longer.held == client.held
  {
  }

  lemma CompleteDispatches(c: Config, w: Server, i: nat, longer: Client, now: int)
    requires Shaped(w) && i < 2
    ensures Dispatch(c, w, i, longer, Complete, now) == Route(c, w, i, longer, now)
  {
    hide Route;
  }

  /** A plain answer leaves the server as it was. */
  lemma PlainlyOutside(w: Server, deep: bool)
    requires Shaped(w) && w.net.script != [] && w.net.script[0] == Plain(w.net.script[0].result)
    ensures Outside(w, deep) == w.(net := w.net.(script := w.net.script[1..]))
  {
  }

  lemma CompleteIsOwed(c: Config, w: Server, i: nat, longer: Client, now: int, response: seq<byte>, sampled: int)
    requires Shaped(w) && i < 2 && w.clients[i] == Some(longer) && !w.closed && !w.reentered
    requires Answers(w, [Response(response), Time(sampled)])
    ensures Route(c, w, i, longer, now) ==
            Res(w.(clients := w.clients[i := Some(Owing(c, longer, response, sampled))],
                   net := w.net.(queued := w.net.queued[longer.id := response], script := w.net.script[2..])), Go(true))
  {
    hide Outside, CloseAnd, QueueError;
    assert w.net.script[0] == Plain(Response(response)) && w.net.script[1] == Plain(Time(sampled));
    var routed := w.(net := w.net.(script := w.net.script[1..]));
    assert routed.net.script[0] == w.net.script[1] && w.net.script[1..][1..] == w.net.script[2..];
    PlainlyOutside(w, true);
    PlainlyOutside(routed, true);
  }

  /** A request that is not complete yet keeps the client reading, with the deadline of what it still owes. */
  lemma IncompleteWaits(c: Config, w: Server, now: int, i: nat, client: Client, chunk: seq<byte>)
    requires Reads(w, now, i, client, chunk) && |client.request| + |chunk| <= c.maxRequest
    requires var longer := Longer(c, client, chunk, now); HalfALine(longer) || c.parse(longer.request) in {IncompleteHeaders, IncompleteBody}
    ensures
      var r := Step(c, w);
      && r.flow == Go(true) && OnlyClient(w, r.w, i, Some(WaitingOn(c, Longer(c, client, chunk, now), now)))
      && r.w.nextActor == (i + 2) % 3
  {
    ChunkIsTaken(c, w, now, i, client, chunk);
    ChunkWaits(c, ReadingOn(w).(nextActor := (i + 2) % 3), i, client, chunk, now);
    WaitingIsNotWriting(c, client, chunk, now);
    hide WaitingOn, Longer, HalfALine, TakeChunk;
    ServedStep(c, w, now, i, Perform(c, Within(w).(nextActor := (i + 2) % 3), i + 1, now));
    hide Step, Perform;
  }

  lemma WaitingIsNotWriting(c: Config, client: Client, chunk: seq<byte>, now: int)
    requires client.phase == First || client.phase == Headers || client.phase == Body
    ensures WaitingOn(c, Longer(c, client, chunk, now), now).phase != Write
  {
  }

  /** A request that cannot be one is answered with the status the parser found. */
  lemma MalformedIsAnswered(c: Config, w: Server, now: int, i: nat, client: Client, chunk: seq<byte>)
    requires Reads(w, now, i, client, chunk) && |client.request| + |chunk| <= c.maxRequest
    requires var longer := Longer(c, client, chunk, now); !HalfALine(longer) && c.parse(longer.request).Malformed?
    ensures
      var r := Step(c, w);
      var longer := Longer(c, client, chunk, now);
      var response := c.errorResponse(c.parse(longer.request).status);
      && r.flow == Go(true) && OnlyClient(w, r.w, i, Some(Owing(c, client, response, now)))
      && r.w.net.queued == w.net.queued[client.id := response] && r.w.nextActor == i + 1
  {
    ChunkIsTaken(c, w, now, i, client, chunk);
    ChunkIsAnswered(c, ReadingOn(w).(nextActor := (i + 2) % 3), i, client, chunk, now);
    hide Longer, HalfALine, TakeChunk;
    ServedStep(c, w, now, i, Perform(c, Within(w).(nextActor := (i + 2) % 3), i + 1, now));
    hide Step, Perform;
  }

  /** A complete request is routed, and the response of the application is owed to the client. */
  lemma CompleteIsRouted(c: Config, w: Server, now: int, i: nat, client: Client, chunk: seq<byte>, response: seq<byte>, sampled: int)
    requires Reads(w, now, i, client, chunk) && |client.request| + |chunk| <= c.maxRequest
    requires var longer := Longer(c, client, chunk, now); !HalfALine(longer) && c.parse(longer.request) == Complete
    requires Answers(w, [Time(now), Data(chunk), Response(response), Time(sampled)])
    ensures
      var r := Step(c, w);
      && r.flow == Go(true) && OnlyClient(w, r.w, i, Some(Owing(c, client, response, sampled)))
      && r.w.net.queued == w.net.queued[client.id := response] && r.w.nextActor == i + 1
  {
    ChunkIsTaken(c, w, now, i, client, chunk);
    assert w.net.script[2] == Plain(Response(response)) && w.net.script[3] == Plain(Time(sampled));
    ChunkIsRouted(c, ReadingOn(w).(nextActor := (i + 2) % 3), i, client, chunk, now, response, sampled);
    hide Longer, HalfALine, TakeChunk;
    ServedStep(c, w, now, i, Perform(c, Within(w).(nextActor := (i + 2) % 3), i + 1, now));
    hide Step, Perform;
  }

  /** CR LF CR LF at this position. */
  predicate EmptyLineAt(s: seq<byte>, k: nat) {
    k + 4 <= |s| && s[k] == 13 && s[k + 1] == 10 && s[k + 2] == 13 && s[k + 3] == 10
  }

  /** The headers end with an empty line, wherever it is. */
  lemma {:induction false} HeadersEndSomewhere(s: seq<byte>)
    ensures EndsHeaders(s) <==> exists k: nat :: EmptyLineAt(s, k)
    decreases |s|
  {
    if |s| >= 4 {
      HeadersEndSomewhere(s[1..]);
      assert EmptyLineAt(s, 0) <==> s[0] == 13 && s[1] == 10 && s[2] == 13 && s[3] == 10;
      if EndsHeaders(s[1..]) {
        var k: nat :| EmptyLineAt(s[1..], k);
        assert EmptyLineAt(s, k + 1);
      }
      if k: nat :| EmptyLineAt(s, k) {
        if k > 0 { assert EmptyLineAt(s[1..], k - 1); }
      }
    }
  }

  // ---------------------------------------------------------------- sending the response

  /** A writing client whose turn it is, and how many bytes its socket takes. */
  predicate Sends(w: Server, now: int, i: nat, client: Client, count: nat) {
    && Unhurried(w, now) && i < 2 && w.nextActor == i + 1 && w.clients[i] == Some(client) && client.phase == Write && client.held
    && client.offset < |client.response| && client.id in w.net.delivered
    && Answers(w, [Time(now), Sent(count)]) && 0 < count <= 256 && client.offset + count <= |client.response|
  }

  lemma PayloadIsGiven(c: Config, w: Server, now: int, i: nat, client: Client, count: nat)
    requires Sends(w, now, i, client, count)
    ensures
      var u := Within(w).(nextActor := (i + 2) % 3);
      var r := ReadingOn(w).(nextActor := (i + 2) % 3);
      var given := r.(net := r.net.(delivered := w.net.delivered[client.id := w.net.delivered[client.id] + client.response[client.offset..client.offset + count]]));
      var sent := client.(offset := client.offset + count, idle := now + c.writeIdle);
      Perform(c, u, i + 1, now) ==
      if client.offset + count == |client.response| then Finish(SetClient(given, i, Some(sent)), i, sent, true)
      else Res(SetClient(given, i, Some(sent)), Go(true))
  {
    hide Finish, Payload, Perform, Taken;
    PayloadIsPart(client, count);
    SendIsTaken(c, w, now, i, client, count);
    PartIsTaken(c, ReadingOn(w).(nextActor := (i + 2) % 3), i, client, count, now);
  }

  lemma PartIsTaken(c: Config, w: Server, i: nat, client: Client, count: nat, now: int)
    requires Shaped(w) && i < 2 && w.clients[i] == Some(client) && client.id in w.net.delivered && !w.closed && !w.reentered
    requires client.offset + count <= |client.response| && count <= |Payload(client)|
    ensures
      var given := w.(net := w.net.(delivered := w.net.delivered[client.id := w.net.delivered[client.id] + Payload(client)[..count]]));
      var sent := client.(offset := client.offset + count, idle := now + c.writeIdle);
      Taken(c, w, i, client, count, now) ==
      if client.offset + count == |client.response| then Finish(SetClient(given, i, Some(sent)), i, sent, true)
      else Res(SetClient(given, i, Some(sent)), Go(true))
  {
    hide Finish, Payload, CloseAnd;
  }

  lemma PayloadIsPart(client: Client, count: nat)
    requires client.offset + count <= |client.response| && count <= 256
    ensures count <= |Payload(client)| && Payload(client)[..count] == client.response[client.offset..client.offset + count]
  {
  }

  lemma SendIsTaken(c: Config, w: Server, now: int, i: nat, client: Client, count: nat)
    requires Sends(w, now, i, client, count) && count <= |Payload(client)|
    ensures Perform(c, Within(w).(nextActor := (i + 2) % 3), i + 1, now)
            == Taken(c, ReadingOn(w).(nextActor := (i + 2) % 3), i, client, count, now)
  {
    hide Taken, Payload;
    assert w.net.script[1] == Plain(Sent(count));
  }

  /** Bytes the socket takes are delivered in order, and the client keeps its turn until the last one. */
  lemma PartIsSent(c: Config, w: Server, now: int, i: nat, client: Client, count: nat)
    requires Sends(w, now, i, client, count) && client.offset + count < |client.response|
    ensures
      var r := Step(c, w);
      && r.flow == Go(true) && r.w.nextActor == i + 1 && r.w.completed == w.completed
      && OnlyClient(w, r.w, i, Some(client.(offset := client.offset + count, idle := now + c.writeIdle)))
      && r.w.net.delivered ==
         w.net.delivered[client.id := w.net.delivered[client.id] + client.response[client.offset..client.offset + count]]
  {
    PayloadIsGiven(c, w, now, i, client, count);
    hide Perform, Step;
    ServedStep(c, w, now, i, Perform(c, Within(w).(nextActor := (i + 2) % 3), i + 1, now));
  }

  lemma FinishedIsClosed(w: Server, i: nat, client: Client)
    requires Shaped(w) && i < 2 && w.clients[i] == Some(client) && client.held && Answers(w, [Fine])
    ensures
      var r := Finish(w, i, client, true);
      && r.flow == Go(true)
      && r.w == w.(clients := w.clients[i := None], completed := w.completed + 1,
                   net := w.net.(script := w.net.script[1..], open := w.net.open - {client.id}, finished := w.net.finished + {client.id}))
  {
    assert w.net.script[0] == Plain(Fine);
    var counted := w.(completed := w.completed + 1, net := w.net.(finished := w.net.finished + {client.id}));
    ClosingWorks(counted, i, client, true);
    hide CloseClient;
  }

  /** Closing a socket plainly empties its slot. */
  lemma ClosingWorks(w: Server, i: nat, client: Client, deep: bool)
    requires Shaped(w) && i < 2 && w.clients[i] == Some(client) && client.held && w.net.script != [] && w.net.script[0] == Plain(Fine)
    ensures CloseClient(w, i, deep) ==
            Res(w.(clients := w.clients[i := None], net := w.net.(script := w.net.script[1..], open := w.net.open - {client.id})), Go(true))
  {
    hide Outside;
    var closing := ClosingClient(client).(held := false);
    PlainlyOutside(SetClient(w, i, Some(closing)), deep);
    assert w.clients[i := Some(closing)][i := None] == w.clients[i := None];
  }

  /** With the last byte the response is complete: it is counted, and its connection closed. */
  lemma LastPartFinishes(c: Config, w: Server, now: int, i: nat, client: Client, count: nat)
    requires Sends(w, now, i, client, count) && client.offset + count == |client.response|
    requires Answers(w, [Time(now), Sent(count), Fine])
    ensures
      var r := Step(c, w);
      && r.flow == Go(true) && OnlyClient(w, r.w, i, None) && r.w.completed == w.completed + 1
      && r.w.net.finished == w.net.finished + {client.id} && r.w.net.open == w.net.open - {client.id}
      && r.w.net.delivered == w.net.delivered[client.id := w.net.delivered[client.id] + client.response[client.offset..]]
      && r.w.nextActor == (i + 2) % 3
  {
    PayloadIsGiven(c, w, now, i, client, count);
    var sent := client.(offset := client.offset + count, idle := now + c.writeIdle);
    var u := ReadingOn(w).(nextActor := (i + 2) % 3);
    var given := u.(net := u.net.(delivered := w.net.delivered[client.id := w.net.delivered[client.id] + client.response[client.offset..client.offset + count]]));
    assert w.net.script[2] == Plain(Fine);
    assert client.response[client.offset..client.offset + count] == client.response[client.offset..];
    FinishedIsClosed(SetClient(given, i, Some(sent)), i, sent);
    hide Perform, Step, Finish;
    ServedStep(c, w, now, i, Perform(c, Within(w).(nextActor := (i + 2) % 3), i + 1, now));
    assert w.clients[i := Some(sent)][i := None] == w.clients[i := None];
  }

  // ---------------------------------------------------------------- deadlines

  /** Overdue at this tick: too long without progress, or too long at all. */
  predicate Late(client: Client, now: int) {
    client.idle <= now || client.absolute <= now
  }

  /** A reading client that is late is answered with 408. */
  lemma LateReaderExpires(c: Config, w: Server, i: nat, client: Client, now: int)
    requires Shaped(w) && i < 2 && w.cleanup[i].None? && w.clients[i] == Some(client)
    requires client.phase != Closing && client.phase != Write && Late(client, now)
    ensures ExpireSlot(c, w, i, now) ==
            Res(w.(clients := w.clients[i := Some(Owing(c, client, c.errorResponse(408), now))],
                   net := w.net.(queued := w.net.queued[client.id := c.errorResponse(408)])), Go(true))
  {
  }

  /** A writing client that is late is closed, and so is one that could not be closed before. */
  lemma LateWriterIsClosed(c: Config, w: Server, i: nat, client: Client, now: int)
    requires Shaped(w) && i < 2 && w.cleanup[i].None? && w.clients[i] == Some(client) && client.held && Answers(w, [Fine])
    requires client.phase == Closing || (client.phase == Write && Late(client, now))
    ensures ExpireSlot(c, w, i, now) ==
            Res(w.(clients := w.clients[i := None], net := w.net.(script := w.net.script[1..], open := w.net.open - {client.id})), Go(true))
  {
    assert w.net.script[0] == Plain(Fine);
    ClosingWorks(w, i, client, true);
    hide CloseClient;
  }

  /** A client that is not late, or an empty slot, is left alone. */
  lemma TimelyClientStays(c: Config, w: Server, i: nat, now: int)
    requires Shaped(w) && i < 2 && w.cleanup[i].None?
    requires w.clients[i].Some? ==> w.clients[i].value.phase != Closing && !Late(w.clients[i].value, now)
    ensures ExpireSlot(c, w, i, now) == Res(w, Go(true))
  {
  }

  /** Whatever else happens in that step, a client that is late with its request is owed the response 408 after it. */
  lemma LateReaderIsAnswered(c: Config, w: Server, now: int, i: nat, client: Client)
    requires HttpRuns.Quiescent(w) && w.listener && w.accepting && !w.closed && w.cleanup == [None, None]
    requires Answers(w, [Time(now)]) && i < 2 && w.clients[i] == Some(client)
    requires client.phase != Closing && client.phase != Write && Late(client, now)
    requires var other := w.clients[1 - i]; other.Some? ==> other.value.phase != Closing && !Late(other.value, now)
    ensures var v := Step(c, w).w; client.id in v.net.queued && v.net.queued[client.id] == c.errorResponse(408)
  {
    QuiescentIsShaped(w);
    hide HttpDelivery.Sound, HttpDelivery.Follows, Expire, Settle, ServeNext, Step, StepBody;
    var a := Within(w);
    ClockKeepsSound(w, now);
    HttpRuns.ExpireKeeps(c, a, now);
    LateReaderIsQueued(c, a, now, i, client);
    var b := Expire(c, a, now).w;
    HttpRuns.ServeNextAdvances(c, b, now);
    HttpRuns.SettleAdvances(b, ServeNext(c, b, now));
    PromiseStands(b, Settle(ServeNext(c, b, now)).w, client.id);
    StepGoesOn(c, w, now);
  }

  lemma QuiescentIsShaped(w: Server)
    requires HttpRuns.Quiescent(w)
    ensures Shaped(w) && !w.operationActive
  {
  }

  lemma ClockKeepsSound(w: Server, now: int)
    requires HttpRuns.Quiescent(w) && Answers(w, [Time(now)])
    ensures HttpDelivery.Sound(Within(w))
  {
    hide HttpDelivery.Sound;
    var s := w.(operationActive := true, reentered := false);
    assert w.net.script[0] == Plain(Time(now));
    HttpRuns.FlagsKeepSound(w, true);
    HttpDelivery.OutsideKeeps(s);
    HttpDelivery.KeptIsSound(s, Outside(s, true), 0);
    assert Outside(s, true) == Within(w);
  }

  lemma LateReaderIsQueued(c: Config, w: Server, now: int, i: nat, client: Client)
    requires Shaped(w) && w.cleanup == [None, None] && i < 2 && w.clients[i] == Some(client)
    requires client.phase != Closing && client.phase != Write && Late(client, now)
    requires var other := w.clients[1 - i]; other.Some? ==> other.value.phase != Closing && !Late(other.value, now)
    ensures var r := Expire(c, w, now);
            && r.flow == Go(true) && r.w.reentered == w.reentered && r.w.closed == w.closed
            && client.id in r.w.net.queued && r.w.net.queued[client.id] == c.errorResponse(408)
  {
    hide ExpireSlot;
    if i == 0 {
      LateReaderExpires(c, w, 0, client, now);
      TimelyClientStays(c, ExpireSlot(c, w, 0, now).w, 1, now);
    } else {
      TimelyClientStays(c, w, 0, now);
      LateReaderExpires(c, w, 1, client, now);
    }
  }

  /** When expiring went well the step goes on to serve, and settles. */
  lemma StepGoesOn(c: Config, w: Server, now: int)
    requires Shaped(w) && w.listener && w.accepting && !w.closed && !w.operationActive && Answers(w, [Time(now)])
    requires var r := Expire(c, Within(w), now); r.flow == Go(true) && !r.w.reentered && !r.w.closed
    ensures var r := Settle(ServeNext(c, Expire(c, Within(w), now).w, now)); Step(c, w) == Res(Afterwards(r.w), r.flow)
  {
    assert w.net.script[0] == Plain(Time(now));
    hide Expire, Settle, ServeNext;
  }

  lemma PromiseStands(w: Server, v: Server, id: nat)
    requires HttpDelivery.Advances(w, v, 1) && id in w.net.queued
    ensures id in v.net.queued && v.net.queued[id] == w.net.queued[id]
  {
  }

  // ---------------------------------------------------------------- closing down

  predicate AllFine(script: seq<Answer>, n: nat) {
    n == 0 || (script != [] && script[0] == Plain(Fine) && AllFine(script[1..], n - 1))
  }

  /** The next `n` calls close what they are asked to close. */
  predicate Closes(w: Server, n: nat) {
    AllFine(w.net.script, n)
  }

  lemma FewerClose(script: seq<Answer>, n: nat)
    requires AllFine(script, n + 1)
    ensures AllFine(script, n) && script != [] && script[0] == Plain(Fine) && AllFine(script[1..], n)
    decreases n
  {
    if n > 0 { FewerClose(script[1..], n - 1); }
  }

  lemma ClientCloses(w: Server, i: nat, n: nat)
    requires Shaped(w) && i < 2 && Closes(w, n + 1)
    ensures var r := CloseClient(w, i, false);
            && r.flow == Go(true) && Closes(r.w, n) && r.w.clients == w.clients[i := None] && r.w.cleanup == w.cleanup
            && r.w.listener == w.listener && r.w.closed == w.closed
  {
    hide AllFine, CloseClient;
    FewerClose(w.net.script, n);
    if w.clients[i].Some? && w.clients[i].value.held {
      ClosingWorks(w, i, w.clients[i].value, false);
    } else {
      NothingToClose(w, i);
    }
  }

  lemma NothingToClose(w: Server, i: nat)
    requires Shaped(w) && i < 2 && !(w.clients[i].Some? && w.clients[i].value.held)
    ensures CloseClient(w, i, false) == Res(w.(clients := w.clients[i := None]), Go(true))
  {
    hide Outside;
    assert w.clients[i].None? ==> w.clients[i := None] == w.clients;
  }

  lemma CleanupCloses(w: Server, i: nat, n: nat)
    requires Shaped(w) && i < 2 && Closes(w, n + 1)
    ensures var r := CloseCleanup(w, i, false);
            && r.flow == Go(true) && Closes(r.w, n) && r.w.cleanup == w.cleanup[i := None] && r.w.clients == w.clients
            && r.w.listener == w.listener && r.w.closed == w.closed
  {
    hide AllFine, Outside;
    FewerClose(w.net.script, n);
    if w.cleanup[i].Some? { PlainlyOutside(SetCleanup(w, i, None), false); }
  }

  lemma ListenerCloses(w: Server, n: nat)
    requires Shaped(w) && Closes(w, n + 1)
    ensures var r := CloseListener(w);
            r.flow == Go(true) && Closes(r.w, n) && r.w.cleanup == w.cleanup && r.w.clients == w.clients && !r.w.listener && r.w.closed == w.closed
  {
    hide AllFine, Outside;
    FewerClose(w.net.script, n);
    if w.listener { PlainlyOutside(w.(listener := false), false); }
  }

  lemma AllClose(w: Server)
    requires Shaped(w) && Closes(w, 4)
    ensures var r := CloseAll(w, false);
            r.flow == Go(true) && r.w.clients == [None, None] && r.w.cleanup == [None, None] && r.w.listener == w.listener && r.w.closed == w.closed
  {
    hide CloseClient, CloseCleanup, Closes;
    var a := CloseCleanup(w, 0, false).w;
    var b := CloseClient(a, 0, false).w;
    var c := CloseCleanup(b, 1, false).w;
    CleanupCloses(w, 0, 3);
    ClientCloses(a, 0, 2);
    CleanupCloses(b, 1, 1);
    ClientCloses(c, 1, 0);
  }

  /** When every close works, deinit leaves no socket open. */
  lemma DeinitClosesEverything(w: Server)
    requires HttpOwnership.Owns(w, {}) && !w.lifecycleActive && Closes(w, 5)
    ensures
      var r := Deinit(w);
      && r.flow == Go(true) && r.w.closed && !r.w.listener && r.w.clients == [None, None] && r.w.cleanup == [None, None]
      && r.w.net.open == {}
  {
    HttpOwnership.DeinitShrinks(w, {});
    var s := w.(closed := true, accepting := false, lifecycleActive := true);
    ListenerCloses(s, 4);
    AllClose(CloseListener(s).w);
    NobodyIsOpen(Deinit(w).w);
    hide CloseAll, CloseListener, Closes, HttpOwnership.Owns;
  }

  lemma NobodyIsOpen(w: Server)
    requires HttpOwnership.Owns(w, {}) && w.clients == [None, None] && w.cleanup == [None, None]
    ensures w.net.open == {}
  {
  }
}
