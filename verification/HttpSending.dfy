/** Sending, and whole steps and runs of the socket server. */
module HttpSending {
  import opened Options
  import opened HttpModel
  import opened HttpOwnership
  import opened HttpDelivery

  /** `net` and `next` differ only in the account of `id`. */
  predicate SameButFor(net: Net, next: Net, id: nat) {
    && id in net.delivered && id in next.delivered
    && next == net.(delivered := net.delivered[id := next.delivered[id]], finished := next.finished, cut := next.cut)
    && next.finished - {id} == net.finished - {id} && next.cut - {id} == net.cut - {id}
    && net.delivered[id] <= next.delivered[id] && net.finished <= next.finished && net.cut <= next.cut
  }

  lemma OthersAgree(net: Net, next: Net, id: nat, k: nat)
    requires SameButFor(net, next, id) && k != id
    ensures (k in next.finished) == (k in net.finished) && (k in next.cut) == (k in net.cut)
  {
    assert (k in next.finished) == (k in next.finished - {id}) && (k in net.finished) == (k in net.finished - {id});
    assert (k in next.cut) == (k in next.cut - {id}) && (k in net.cut) == (k in net.cut - {id});
  }

  lemma AccountKeeps(net: Net, next: Net, id: nat)
    requires NetSound(net) && SameButFor(net, next, id) && SocketSound(next, id)
    ensures NetSound(next)
  {
    forall k ensures k != id ==> (k in next.finished) == (k in net.finished) && (k in next.cut) == (k in net.cut) {
      if k != id { OthersAgree(net, next, id, k); }
    }
    assert forall k :: k in net.delivered && k != id ==> SocketSound(net, k) && SocketSound(next, k);
  }

  lemma OtherClientKeeps(net: Net, next: Net, id: nat, c: Client)
    requires SameButFor(net, next, id) && ClientSound(net, c) && c.id != id
    ensures ClientSound(next, c)
  {
    OthersAgree(net, next, id, c.id);
  }

  /** The slot of the client, updated together with its account. */
  function Settled(w: Server, i: nat, next: Net, completed: nat, client: Option<Client>): Server
    requires Shaped(w) && i < 2
  {
    SetClient(w, i, client).(net := next, completed := completed)
  }

  lemma SettledOwns(w: Server, i: nat, next: Net, completed: nat, client: Option<Client>)
    requires Owns(w, {}) && i < 2
    requires client.Some? == w.clients[i].Some?
    requires client.Some? ==> client.value.id == w.clients[i].value.id && client.value.held == w.clients[i].value.held
    requires next.open == w.net.open && next.sockets == w.net.sockets
    ensures Owns(Settled(w, i, next, completed, client), {})
  {
    var v := Settled(w, i, next, completed, client);
    assert forall k :: Holds(w, 0, k) == Holds(v, 0, k) && Holds(w, 1, k) == Holds(v, 1, k);
  }

  lemma SettledKeeps(w: Server, i: nat, id: nat, next: Net, completed: nat, client: Option<Client>)
    requires Sound(w) && i < 2 && SameButFor(w.net, next, id) && SocketSound(next, id) && |next.finished| == completed
    requires client.Some? == w.clients[i].Some?
    requires client.Some? ==> client.value.id == id == w.clients[i].value.id && client.value.held == w.clients[i].value.held && ClientSound(next, client.value)
    requires Occupant(w, 1 - i) != Some(id)
    ensures Keeps(w, Settled(w, i, next, completed, client), 0)
  {
    SettledOwns(w, i, next, completed, client);
    AccountKeeps(w.net, next, id);
    assert Follows(w.net, next);
    if w.clients[1 - i].Some? {
      OtherClientKeeps(w.net, next, id, w.clients[1 - i].value);
    }
    hide Owns, NetSound, ClientSound, SocketSound, SameButFor;
  }

  lemma SetTwice(w: Server, i: nat, first: Option<Client>, second: Option<Client>)
    requires Shaped(w) && i < 2
    ensures
      var v := SetClient(w, i, first);
      && Shaped(v) && SetClient(v, i, second) == SetClient(w, i, second) && v.clients[i] == first && Head(v) == Head(w)
  {
  }

  /** Closing makes no difference between a client that still writes and one that is closing. */
  lemma CloseForgets(w: Server, i: nat)
    requires Shaped(w) && i < 2 && w.clients[i].Some? && w.clients[i].value.held
    ensures Shaped(SetClient(w, i, Some(ClosingClient(w.clients[i].value))))
    ensures CloseClient(SetClient(w, i, Some(ClosingClient(w.clients[i].value))), i, true) == CloseClient(w, i, true)
  {
    hide Outside, SetClient, Head;
    var closing := ClosingClient(w.clients[i].value);
    SetTwice(w, i, Some(closing), Some(closing.(held := false)));
  }

  function Forgotten(w: Server, i: nat): Option<Client>
    requires Shaped(w) && i < 2
  {
    if w.clients[i].Some? then Some(ClosingClient(w.clients[i].value)) else None
  }

  lemma ClosingAfterwards(w: Server, v: Server, i: nat, flow: Flow)
    requires Shaped(v) && i < 2 && (v.clients[i].Some? ==> v.clients[i].value.held)
    requires Keeps(w, SetClient(v, i, Forgotten(v, i)), 0)
    ensures Keeps(w, CloseAnd(v, i, flow).w, 0)
  {
    var t := SetClient(v, i, Forgotten(v, i));
    if v.clients[i].Some? {
      CloseForgets(v, i);
    } else {
      assert t == v;
    }
    CloseClientKeeps(t, i, flow);
    KeepsOnwards(w, t, CloseAnd(v, i, flow).w, 0, 0);
    hide Sound, Follows, CloseClient, Keeps, ClosingClient;
  }

  // ---------------------------------------------------------------- sending

  /** A client that writes, as it was before its send() and as its slot is now. */
  predicate Sending(w: Server, i: nat, client: Client)
    requires Shaped(w) && i < 2
  {
    && client.phase == Write && client.held && ClientSound(w.net, client) && Occupant(w, 1 - i) != Some(client.id)
    && (w.clients[i].None? || w.clients[i] == Some(client) || w.clients[i] == Some(ClosingClient(client)))
  }

  lemma SendingStays(w: Server, v: Server, i: nat, client: Client)
    requires Sound(w) && i < 2 && w.clients[i] == Some(client) && client.phase == Write && Shrinks(w, v) && Owns(v, {})
    ensures Sending(v, i, client)
  {
    hide NetSound;
    assert ClientSound(w.net, client);
    assert ClientSound(v.net, client);
  }

  lemma FinishKeeps(w: Server, i: nat, client: Client, ok: bool)
    requires Sound(w) && i < 2 && Sending(w, i, client) && w.clients[i] == Some(client) && client.response == []
    ensures Keeps(w, Finish(w, i, client, ok).w, 0)
  {
    hide Occupant, Advances, CloseClient;
    var next := w.net.(finished := w.net.finished + {client.id});
    assert w.net.delivered[client.id := next.delivered[client.id]] == w.net.delivered;
    assert SocketSound(w.net, client.id);
    SettledKeeps(w, i, client.id, next, w.completed + 1, Some(ClosingClient(client)));
    var v := w.(completed := w.completed + 1, net := next);
    assert SetClient(v, i, Forgotten(v, i)) == Settled(w, i, next, w.completed + 1, Some(ClosingClient(client)));
    ClosingAfterwards(w, v, i, Go(ok));
    hide CloseAnd, Owns, NetSound, Keeps;
  }

  lemma TakenExtends(client: Client, count: int)
    requires client.offset <= |client.response| && 0 < count <= |Payload(client)|
    ensures client.offset + count <= |client.response|
    ensures client.response[..client.offset] + Payload(client)[..count] == client.response[..client.offset + count]
  {
  }

  lemma CutKeeps(w: Server, i: nat, client: Client, count: int)
    requires Sound(w) && i < 2 && Sending(w, i, client) && 0 < count <= |Payload(client)|
    ensures
      var given := Deliver(w, client.id, Payload(client)[..count]);
      Keeps(w, CloseAnd(given.(net := given.net.(cut := given.net.cut + {client.id})), i, Go(false)).w, 0)
  {
    hide Occupant, Advances, CloseClient;
    var given := Deliver(w, client.id, Payload(client)[..count]);
    var next := given.net.(cut := given.net.cut + {client.id});
    TakenExtends(client, count);
    assert SocketSound(w.net, client.id);
    assert SocketSound(next, client.id);
    SettledKeeps(w, i, client.id, next, w.completed, Forgotten(w, i));
    var v := given.(net := next);
    assert SetClient(v, i, Forgotten(v, i)) == Settled(w, i, next, w.completed, Forgotten(w, i));
    ClosingAfterwards(w, v, i, Go(false));
    hide CloseAnd, Owns, NetSound, Keeps, Payload;
  }

  /** The state after `count` more bytes. */
  function Sent(c: Config, client: Client, count: nat, now: int): Client {
    client.(offset := client.offset + count, idle := now + c.writeIdle)
  }

  lemma ProgressKeeps(c: Config, w: Server, i: nat, client: Client, count: nat, now: int)
    requires Sound(w) && i < 2 && Sending(w, i, client) && w.clients[i] == Some(client) && 0 < count <= |Payload(client)|
    requires client.offset + count < |client.response|
    ensures Keeps(w, SetClient(Deliver(w, client.id, Payload(client)[..count]), i, Some(Sent(c, client, count, now))), 0)
  {
    var given := Deliver(w, client.id, Payload(client)[..count]);
    var sent := Sent(c, client, count, now);
    TakenExtends(client, count);
    assert SocketSound(w.net, client.id);
    assert SocketSound(given.net, client.id);
    assert ClientSound(given.net, sent);
    SettledKeeps(w, i, client.id, given.net, w.completed, Some(sent));
    assert SetClient(given, i, Some(sent)) == Settled(w, i, given.net, w.completed, Some(sent));
    hide Owns, NetSound, Keeps, Payload;
  }

  lemma CompletionKeeps(c: Config, w: Server, i: nat, client: Client, count: nat, now: int)
    requires Sound(w) && i < 2 && Sending(w, i, client) && w.clients[i] == Some(client) && 0 < count <= |Payload(client)|
    requires client.offset + count == |client.response|
    ensures
      var sent := Sent(c, client, count, now);
      Keeps(w, Finish(SetClient(Deliver(w, client.id, Payload(client)[..count]), i, Some(sent)), i, sent, true).w, 0)
  {
    hide Advances, CloseClient;
    var given := Deliver(w, client.id, Payload(client)[..count]);
    var sent := Sent(c, client, count, now);
    var next := given.net.(finished := given.net.finished + {client.id});
    TakenExtends(client, count);
    assert SocketSound(w.net, client.id);
    assert SocketSound(next, client.id);
    SettledKeeps(w, i, client.id, next, w.completed + 1, Some(ClosingClient(sent)));
    var v := SetClient(given, i, Some(sent)).(net := next, completed := w.completed + 1);
    assert SetClient(v, i, Forgotten(v, i)) == Settled(w, i, next, w.completed + 1, Some(ClosingClient(sent)));
    ClosingAfterwards(w, v, i, Go(true));
    hide CloseAnd, Owns, NetSound, Keeps, Payload;
  }

  lemma SendKeeps(c: Config, w: Server, i: nat, client: Client, now: int)
    requires Sound(w) && i < 2 && w.clients[i] == Some(client) && client.phase == Write
    ensures Keeps(w, SendOne(c, w, i, client, now).w, 1)
  {
    OwnsFrame(w, w, {});
    SendingStays(w, w, i, client);
    if |client.response| <= client.offset {
      FinishKeeps(w, i, client, false);
    } else {
      var u := Act(w);
      var v := Outside(u, true);
      ActKeeps(w);
      OutsideKeeps(u);
      KeepsOnwards(w, u, v, 1, 0);
      SendingStays(u, v, i, client);
      SendResultKeeps(c, v, i, client, Head(u).result, now);
      KeepsOnwards(w, v, SendResult(c, v, i, client, Head(u).result, now).w, 1, 0);
    }
    hide Outside, Finish, Sound, Follows, SendResult;
  }

  lemma TakenKeeps(c: Config, w: Server, i: nat, client: Client, count: nat, now: int)
    requires Sound(w) && i < 2 && Sending(w, i, client) && 0 < count <= |Payload(client)|
    requires w.closed || w.clients[i] == Some(client)
    ensures Keeps(w, Taken(c, w, i, client, count, now).w, 0)
  {
    hide Sound, Follows, CloseAnd, Finish, Payload;
    if w.closed || w.reentered {
      CutKeeps(w, i, client, count);
    } else {
      TakenExtends(client, count);
      if client.offset + count == |client.response| {
        CompletionKeeps(c, w, i, client, count, now);
      } else {
        ProgressKeeps(c, w, i, client, count, now);
      }
    }
  }

  lemma SendResultKeeps(c: Config, w: Server, i: nat, client: Client, result: Result, now: int)
    requires Sound(w) && i < 2 && Sending(w, i, client) && client.offset < |client.response|
    requires w.closed || w.clients[i] == Some(client)
    ensures Keeps(w, SendResult(c, w, i, client, result, now).w, 0)
  {
    hide Owns;
    CloseClientKeeps(w, i, Oom);
    CloseClientKeeps(w, i, Go(false));
    if Took(result, Payload(client)) {
      TakenKeeps(c, w, i, client, result.count, now);
    }
    hide Sound, Follows, CloseAnd, Taken, Payload, Sending, CloseClient;
  }
}
