/** A response that is delivered in full and yet not counted: one concrete run in which the last send() calls step(). */
module HttpReentry {
  import opened Options
  import opened Bytes
  import opened HttpModel
  import opened HttpRuns

  const EXAMPLE := Config((request: seq<byte>) => Complete, (status: nat) => [], 4096, 1500, 1000, 5000, 1500, 10000, 1500, 10000)

  const REQUEST: seq<byte> := [65]
  const RESPONSE: seq<byte> := [66]

  function Plain(result: Result): Answer {
    Answer(result, Nested(false, false))
  }

  const SCRIPT: seq<Answer> := [
    Plain(Time(0)), Plain(Accepted(true)), Plain(Fine),
    Plain(Time(1)), Plain(Data(REQUEST)), Plain(Response(RESPONSE)), Plain(Time(1)),
    Plain(Time(2)), Answer(Sent(1), Nested(true, false)), Plain(Fine)
  ]

  const INPUTS: seq<Input> := [Open(true, false), Turn, Turn, Turn]

  // The server after each input.
  const W1 := Initial(SCRIPT).(listener := true, accepting := true)
  const W2 := W1.(clients := [Some(Client(0, true, First, [], [], 0, 1500, 1500)), None], nextActor := 1,
                  net := Net(SCRIPT[3..], 1, {0}, map[0 := []], map[], {}, {}, 1))
  const W3 := W2.(clients := [Some(Client(0, true, Write, [], RESPONSE, 0, 1501, 10001)), None],
                  net := Net(SCRIPT[7..], 1, {0}, map[0 := []], map[0 := RESPONSE], {}, {}, 2))
  const W4 := W3.(clients := [None, None], nextActor := 2, faulted := true,
                  net := Net(SCRIPT[10..], 1, {}, map[0 := RESPONSE], map[0 := RESPONSE], {}, {0}, 3))

  lemma Script()
    ensures SCRIPT[0..] == SCRIPT && forall k :: 0 <= k < |SCRIPT| ==> SCRIPT[k..][0] == SCRIPT[k] && SCRIPT[k..][1..] == SCRIPT[k + 1..]
  {
  }

  /** The clock answers, nothing has expired, and the actor is served. */
  lemma ServedAt(w: Server, k: nat, now: int, actor: nat)
    requires Shaped(w) && k < |SCRIPT| && w.net.script == SCRIPT[k..] && SCRIPT[k] == Plain(Time(now)) && !w.operationActive && Started(w)
    requires !w.closed && w.cleanup == [None, None] && w.clients[1].None? && actor < 3
    requires w.clients[0].Some? ==> w.clients[0].value.phase != Closing && !Overdue(w.clients[0].value, now)
    requires Chosen(w, w.nextActor) == Some(actor)
    ensures
      var s := w.(operationActive := true, reentered := false, net := w.net.(script := SCRIPT[k + 1..]));
      var r := Settle(Serve(EXAMPLE, s, actor, now));
      Step(EXAMPLE, w) == Res(r.w.(operationActive := false, reentered := false), r.flow)
  {
    Script();
    hide Serve, Settle;
    var s := w.(operationActive := true, reentered := false, net := w.net.(script := SCRIPT[k + 1..]));
    assert Expire(EXAMPLE, s, now) == Res(s, Go(true));
    assert Chosen(s, s.nextActor) == Chosen(w, w.nextActor);
  }

  lemma SettlesAtOnce(r: Res)
    requires Shaped(r.w) && r.flow.Go? && !r.w.reentered
    ensures Settle(r) == r
  {
    hide CloseAll;
  }

  lemma Accepts()
    ensures Step(EXAMPLE, W1).w == W2
  {
    var w := W1.(operationActive := true, net := W1.net.(script := SCRIPT[1..]));
    ServedAt(W1, 0, 0, 0);
    AcceptsNext(w);
    SettlesAtOnce(Serve(EXAMPLE, w, 0, 0));
    hide Step, Serve, Settle, Chosen;
  }

  lemma AcceptsNext(w: Server)
    requires w == W1.(operationActive := true, net := W1.net.(script := SCRIPT[1..]))
    ensures Serve(EXAMPLE, w, 0, 0) == Res(W2.(operationActive := true), Go(true))
  {
    hide AcceptOne;
    Admits(w.(nextActor := 1));
  }

  /** The first free slot takes the socket. */
  lemma Admits(w: Server)
    requires w == W1.(operationActive := true, nextActor := 1, net := W1.net.(script := SCRIPT[1..]))
    ensures AcceptOne(EXAMPLE, w, 0) == Res(W2.(operationActive := true), Go(true))
  {
    Script();
    var t := Opened(Act(w)).(net := Opened(Act(w)).net.(script := SCRIPT[2..]));
    assert AcceptOne(EXAMPLE, w, 0) == Admit(EXAMPLE, SetCleanup(t, 0, Some(0)), 0, 0, 0);
  }

  lemma Answers()
    ensures Step(EXAMPLE, W2).w == W3
  {
    var w := W2.(operationActive := true, net := W2.net.(script := SCRIPT[4..]));
    ServedAt(W2, 3, 1, 1);
    AnswersNext(w);
    SettlesAtOnce(Serve(EXAMPLE, w, 1, 1));
    hide Step, Serve, Settle, Chosen;
  }

  lemma AnswersNext(w: Server)
    requires w == W2.(operationActive := true, net := W2.net.(script := SCRIPT[4..]))
    ensures Serve(EXAMPLE, w, 1, 1) == Res(W3.(operationActive := true), Go(true))
  {
    hide RecvOne;
    Reads(w.(nextActor := 2));
  }

  lemma Reads(w: Server)
    requires w == W2.(operationActive := true, nextActor := 2, net := W2.net.(script := SCRIPT[4..]))
    ensures RecvOne(EXAMPLE, w, 0, w.clients[0].value, 1) == Res(W3.(operationActive := true, nextActor := 2), Go(true))
  {
    Script();
    hide Route;
    var read := Act(w).(net := Act(w).net.(script := SCRIPT[5..]));
    var client := w.clients[0].value;
    var reading := client.(request := REQUEST, phase := Headers, idle := 1001, absolute := 5001);
    assert RecvOne(EXAMPLE, w, 0, client, 1) == TakeChunk(EXAMPLE, read, 0, client, REQUEST, 1);
    assert client.request + REQUEST == REQUEST;
    assert !WaitsForLineFeed(reading);
    assert TakeChunk(EXAMPLE, read, 0, client, REQUEST, 1) == Route(EXAMPLE, SetClient(read, 0, Some(reading)), 0, reading, 1);
    Routes(SetClient(read, 0, Some(reading)), reading);
  }

  /** The application answers, and the response is queued. */
  lemma Routes(w: Server, client: Client)
    requires w == W2.(operationActive := true, nextActor := 2, clients := [Some(client), None], net := W2.net.(script := SCRIPT[5..], actions := 2))
    requires client == Client(0, true, Headers, REQUEST, [], 0, 1001, 5001)
    ensures Route(EXAMPLE, w, 0, client, 1) == Res(W3.(operationActive := true, nextActor := 2), Go(true))
  {
    Script();
  }

  lemma Sends()
    ensures Step(EXAMPLE, W3).w == W4
  {
    var w := W3.(operationActive := true, net := W3.net.(script := SCRIPT[8..]));
    ServedAt(W3, 7, 2, 1);
    SendsNext(w);
    hide Step, Serve, Chosen, CloseAll;
  }

  lemma SendsNext(w: Server)
    requires w == W3.(operationActive := true, net := W3.net.(script := SCRIPT[8..]))
    ensures
      var r := Serve(EXAMPLE, w, 1, 2);
      && r == Res(W4.(operationActive := true, reentered := true), Go(false))
      && CloseAll(r.w, true) == Res(r.w, Go(true))
  {
    hide SendOne, CloseAll;
    SendsAll(w.(nextActor := 2));
  }

  lemma SendsAll(w: Server)
    requires w == W3.(operationActive := true, nextActor := 2, net := W3.net.(script := SCRIPT[8..]))
    ensures
      var r := SendOne(EXAMPLE, w, 0, w.clients[0].value, 2);
      && r == Res(W4.(operationActive := true, reentered := true), Go(false))
      && CloseAll(r.w, true) == Res(r.w, Go(true))
  {
    Script();
    var client := w.clients[0].value;
    assert Payload(client) == RESPONSE;
    hide Taken, CloseAll, CloseAnd;
    var during := Act(w).(net := Act(w).net.(script := SCRIPT[9..]), reentered := true, faulted := true);
    assert SendOne(EXAMPLE, w, 0, client, 2) == Taken(EXAMPLE, during, 0, client, 1, 2);
    TakesAll(during, client);
  }

  /** The peer takes the byte, the slot is closed, and nothing is left to clean up. */
  lemma TakesAll(w: Server, client: Client)
    requires w == W3.(operationActive := true, reentered := true, faulted := true, nextActor := 2, net := W3.net.(script := SCRIPT[9..], actions := 3))
    requires w.clients[0] == Some(client)
    ensures
      var r := Taken(EXAMPLE, w, 0, client, 1, 2);
      && r == Res(W4.(operationActive := true, reentered := true), Go(false))
      && CloseAll(r.w, true) == Res(r.w, Go(true))
  {
    Script();
    assert Payload(client) == RESPONSE && RESPONSE[..1] == RESPONSE && [] + RESPONSE == RESPONSE;
    var given := Deliver(w, 0, RESPONSE);
    assert given.net.delivered == map[0 := RESPONSE];
    var cut := given.(net := given.net.(cut := {0}));
    assert CloseClient(cut, 0, true) == Res(W4.(operationActive := true, reentered := true), Go(true));
  }

  /** The peer has all of its response, and the counter still says 0. */
  lemma DeliveredButNotCounted()
    ensures
      var w := Play(EXAMPLE, Initial(SCRIPT), INPUTS);
      && 0 in w.net.delivered && 0 in w.net.queued && w.net.delivered[0] == w.net.queued[0] == RESPONSE
      && 0 !in w.net.finished && 0 in w.net.cut && w.completed == 0
  {
    Accepts();
    Answers();
    Sends();
    hide Step;
    assert Apply(EXAMPLE, Initial(SCRIPT), INPUTS[0]) == W1;
    assert INPUTS[1..][1..][1..][1..] == [];
  }
}
