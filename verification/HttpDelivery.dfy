/** What each peer has been given: always a prefix of the response owed to it, and all of it exactly when that is counted
    or the last send was re-entered. */
module HttpDelivery {
  import opened Options
  import opened Bytes
  import opened HttpModel
  import opened HttpOwnership

  predicate ClientSound(net: Net, c: Client) {
    && c.id in net.delivered
    && (c.phase == Write ==>
          && c.id in net.queued && c.response == net.queued[c.id] && c.offset <= |c.response|
          && net.delivered[c.id] == c.response[..c.offset] && c.id !in net.finished && c.id !in net.cut
          && (c.offset < |c.response| || c.response == []))
    && (c.phase == Write || c.phase == Closing || c.id !in net.queued)
  }

  /** The account of one socket: nothing before a response is owed, then a prefix of it. */
  predicate SocketSound(net: Net, id: nat) {
    && id in net.delivered && id < net.sockets
    && (if id !in net.queued then net.delivered[id] == [] && id !in net.finished && id !in net.cut
        else
          && net.delivered[id] <= net.queued[id]
          && (id in net.finished ==> net.delivered[id] == net.queued[id] && id !in net.cut)
          && (net.delivered[id] == net.queued[id] != [] ==> id in net.finished || id in net.cut))
  }

  ghost predicate NetSound(net: Net) {
    && (forall id :: id in net.delivered ==> SocketSound(net, id))
    && (forall id :: id in net.queued || id in net.finished || id in net.cut ==> id in net.delivered)
  }

  ghost predicate Delivers(w: Server) {
    && Shaped(w) && NetSound(w.net) && |w.net.finished| == w.completed
    && (w.clients[0].Some? ==> ClientSound(w.net, w.clients[0].value))
    && (w.clients[1].Some? ==> ClientSound(w.net, w.clients[1].value))
  }

  ghost predicate Sound(w: Server) {
    Owns(w, {}) && Delivers(w) && w.nextActor < 3
  }

  /** What has been given, promised or counted stays so. */
  ghost predicate Follows(a: Net, b: Net) {
    && (forall id :: id in a.delivered ==> id in b.delivered && a.delivered[id] <= b.delivered[id])
    && (forall id :: id in a.queued ==> id in b.queued && a.queued[id] == b.queued[id])
    && a.finished <= b.finished && a.cut <= b.cut
  }

  /** Soundness is kept with at most `n` more socket operations. */
  ghost predicate Advances(w: Server, v: Server, n: nat) {
    && Sound(v) && Follows(w.net, v.net) && v.net.actions <= w.net.actions + n
    && v.operationActive == w.operationActive && v.lifecycleActive == w.lifecycleActive
  }

  ghost predicate Keeps(w: Server, v: Server, n: nat) {
    Advances(w, v, n) && v.nextActor == w.nextActor
  }

  lemma KeptIsSound(w: Server, v: Server, n: nat)
    requires Keeps(w, v, n)
    ensures Sound(v)
  {
    hide Sound, Follows;
  }

  lemma FollowsOnwards(a: Net, b: Net, c: Net)
    requires Follows(a, b) && Follows(b, c)
    ensures Follows(a, c)
  {
  }

  lemma KeepsOnwards(u: Server, v: Server, w: Server, m: nat, n: nat)
    requires Keeps(u, v, m) && Keeps(v, w, n)
    ensures Keeps(u, w, m + n)
  {
    hide Advances;
    AdvancesOnwards(u, v, w, m, n);
  }

  lemma AdvancesOnwards(u: Server, v: Server, w: Server, m: nat, n: nat)
    requires Advances(u, v, m) && Advances(v, w, n)
    ensures Advances(u, w, m + n)
  {
    hide Sound, Follows;
    FollowsOnwards(u.net, v.net, w.net);
  }

  lemma DeliversFrame(w: Server, v: Server)
    requires Delivers(w) && Shaped(v) && v.net == w.net.(script := v.net.script, open := v.net.open, actions := v.net.actions)
    requires v.completed == w.completed
    requires v.clients[0].None? || (w.clients[0].Some? && (v.clients[0] == w.clients[0] || v.clients[0].value == ClosingClient(w.clients[0].value)))
    requires v.clients[1].None? || (w.clients[1].Some? && (v.clients[1] == w.clients[1] || v.clients[1].value == ClosingClient(w.clients[1].value)))
    ensures Delivers(v)
  {
    assert forall id :: SocketSound(v.net, id) == SocketSound(w.net, id);
  }

  lemma ShrinkingKeeps(w: Server, v: Server)
    requires Sound(w) && Owns(v, {}) && Shrinks(w, v)
    ensures Keeps(w, v, 0)
  {
    hide Owns, NetSound, ClientSound;
    DeliversFrame(w, v);
  }

  lemma OutsideKeeps(w: Server)
    requires Sound(w)
    ensures var v := Outside(w, true); Keeps(w, v, 0) && Shrinks(w, v)
    ensures var v := Outside(w, true); v.closed || (v.clients == w.clients && v.cleanup == w.cleanup && v.accepting == w.accepting)
  {
    OutsideShrinks(w, {}, true);
    ShrinkingKeeps(w, Outside(w, true));
    OutsideSparesLive(w);
    hide Outside, Sound, Follows, Keeps;
  }

  lemma OutsideSparesLive(w: Server)
    requires Owns(w, {})
    ensures var v := Outside(w, true); v.closed || (v.clients == w.clients && v.cleanup == w.cleanup && v.accepting == w.accepting)
  {
    hide Owns, Shrinks, Deinit;
    if Head(w).nested.deinit {
      PopShrinks(w, {});
      NestStepShrinks(Pop(w), {});
      var s := if Head(w).nested.step then NestStep(Pop(w)) else Pop(w);
      if !s.lifecycleActive {
        DeinitShrinks(s, {});
      }
    }
  }

  /** One more socket operation than `w`. */
  lemma ActKeeps(w: Server)
    requires Sound(w)
    ensures Keeps(w, Act(w), 1)
  {
    hide Owns, Delivers;
    OwnsFrame(w, Act(w), {});
    DeliversFrame(w, Act(w));
  }

  lemma CloseClientKeeps(w: Server, i: nat, flow: Flow)
    requires Sound(w) && i < 2
    ensures Keeps(w, CloseClient(w, i, true).w, 0) && Keeps(w, CloseAnd(w, i, flow).w, 0)
  {
    CloseClientShrinks(w, i, {}, true);
    ShrinkingKeeps(w, CloseClient(w, i, true).w);
    hide CloseClient, Sound, Follows, Owns, Shrinks, Keeps;
  }

  lemma CloseCleanupKeeps(w: Server, i: nat)
    requires Sound(w) && i < 2
    ensures Keeps(w, CloseCleanup(w, i, true).w, 0)
  {
    CloseCleanupShrinks(w, i, {}, true);
    ShrinkingKeeps(w, CloseCleanup(w, i, true).w);
    hide CloseCleanup, Sound, Follows, Owns, Shrinks, Keeps;
  }

  lemma CloseAllKeeps(w: Server)
    requires Sound(w)
    ensures Keeps(w, CloseAll(w, true).w, 0)
  {
    CloseAllShrinks(w, {}, true);
    ShrinkingKeeps(w, CloseAll(w, true).w);
    hide CloseAll, Sound, Follows, Owns, Shrinks, Keeps;
  }

  // ---------------------------------------------------------------- accepting

  /** Slot `slot` is free for the socket, which no other slot has. */
  predicate Reserved(w: Server, id: nat, slot: nat)
    requires Shaped(w) && slot < 2
  {
    && w.clients[slot].None? && (w.cleanup[slot].None? || w.cleanup[slot] == Some(id))
    && Occupant(w, 1 - slot) != Some(id) && id < w.net.sockets && id in w.net.delivered && id !in w.net.queued
  }

  lemma ReservedStays(w: Server, v: Server, id: nat, slot: nat)
    requires Owns(w, {}) && slot < 2 && Reserved(w, id, slot) && Shrinks(w, v)
    ensures Reserved(v, id, slot)
  {
  }

  lemma RetainKeeps(w: Server, id: nat, slot: nat)
    requires Sound(w) && slot < 2 && Reserved(w, id, slot)
    ensures Keeps(w, SetCleanup(w, slot, Some(id)), 0) && Reserved(SetCleanup(w, slot, Some(id)), id, slot)
  {
    hide NetSound, ClientSound;
    var v := SetCleanup(w, slot, Some(id));
    assert forall k :: k in v.net.open ==> (Holds(w, 0, k) ==> Holds(v, 0, k)) && (Holds(w, 1, k) ==> Holds(v, 1, k));
    assert Owns(v, {});
  }

  lemma RejectKeeps(w: Server, id: nat, slot: nat)
    requires Sound(w) && slot < 2 && Reserved(w, id, slot)
    ensures Keeps(w, Reject(w, id, slot).w, 0) && Reserved(Reject(w, id, slot).w, id, slot)
  {
    var v := SetCleanup(w, slot, Some(id));
    RetainKeeps(w, id, slot);
    CloseCleanupKeeps(v, slot);
    CloseCleanupShrinks(v, slot, {}, true);
    var u := CloseCleanup(v, slot, true).w;
    ReservedStays(v, u, id, slot);
    FaultKeeps(u);
    hide CloseCleanup, Shrinks, Owns, Delivers;
  }

  lemma FaultKeeps(w: Server)
    requires Sound(w)
    ensures Keeps(w, w.(faulted := true), 0)
  {
    hide Owns, Delivers;
    OwnsFrame(w, w.(faulted := true), {});
    DeliversFrame(w, w.(faulted := true));
  }

  lemma RejectHandledKeeps(w: Server, id: nat, slot: nat, flow: Flow)
    requires Sound(w) && slot < 2 && Reserved(w, id, slot)
    ensures Keeps(w, RejectAnd(w, id, slot, flow).w, 0) && Keeps(w, RejectHandled(w, id, slot).w, 0)
  {
    hide Owns, Shaped, Occupant, NetSound;
    RejectKeeps(w, id, slot);
    RejectKeeps(Reject(w, id, slot).w, id, slot);
    hide Reject, Reserved, Sound, Follows;
  }

  lemma AdmitKeeps(c: Config, w: Server, id: nat, slot: nat, now: int)
    requires Sound(w) && slot < 2 && Reserved(w, id, slot) && w.cleanup[slot] == Some(id)
    ensures Keeps(w, Admit(c, w, id, slot, now).w, 0)
  {
    var v := Outside(w, true);
    OutsideKeeps(w);
    KeptIsSound(w, v, 0);
    ReservedStays(w, v, id, slot);
    var result := Head(w).result;
    if Raises(result) || result != Fine {
      RejectHandledKeeps(v, id, slot, if Raises(result) then Raised(result) else Go(false));
    } else if Interrupted(v) {
      RejectHandledKeeps(v, id, slot, Go(false));
    } else {
      EnrolKeeps(v, NewClient(c, id, now), slot);
    }
    KeepsOnwards(w, v, Admit(c, w, id, slot, now).w, 0, 0);
    hide Outside, Sound, Keeps, Shrinks, RejectAnd, RejectHandled, Reserved, SetClient, SetCleanup;
  }

  lemma EnrolKeeps(w: Server, client: Client, slot: nat)
    requires Sound(w) && slot < 2 && Reserved(w, client.id, slot) && w.cleanup[slot] == Some(client.id)
    requires client.held && client.phase == First
    ensures Keeps(w, SetCleanup(SetClient(w, slot, Some(client)), slot, None), 0)
  {
    hide NetSound;
    var v := SetCleanup(SetClient(w, slot, Some(client)), slot, None);
    assert forall k :: k in v.net.open ==> (Holds(w, 0, k) ==> Holds(v, 0, k)) && (Holds(w, 1, k) ==> Holds(v, 1, k));
    assert Owns(v, {});
  }

  lemma OpenKeeps(w: Server, slot: nat)
    requires Sound(w) && slot < 2 && w.clients[slot].None? && w.cleanup[slot].None?
    ensures
      var v := SetCleanup(Opened(w), slot, Some(w.net.sockets));
      Keeps(w, v, 0) && Reserved(v, w.net.sockets, slot)
  {
    var v := SetCleanup(Opened(w), slot, Some(w.net.sockets));
    OpenOwns(w, slot);
    OpenIsSound(w, slot);
    hide Owns, NetSound, SocketSound;
  }

  lemma OpenOwns(w: Server, slot: nat)
    requires Sound(w) && slot < 2 && w.clients[slot].None? && w.cleanup[slot].None?
    ensures Owns(SetCleanup(Opened(w), slot, Some(w.net.sockets)), {})
  {
    hide NetSound, ClientSound;
    var v := SetCleanup(Opened(w), slot, Some(w.net.sockets));
    assert Holds(v, slot, w.net.sockets);
    assert forall k :: k in w.net.open ==> (Holds(w, 0, k) ==> Holds(v, 0, k)) && (Holds(w, 1, k) ==> Holds(v, 1, k));
  }

  lemma OpenIsSound(w: Server, slot: nat)
    requires Sound(w) && slot < 2
    ensures var v := SetCleanup(Opened(w), slot, Some(w.net.sockets));
            w.net.sockets !in w.net.delivered && NetSound(v.net)
  {
    hide Owns, ClientSound;
    var v := SetCleanup(Opened(w), slot, Some(w.net.sockets));
    assert w.net.sockets in w.net.delivered ==> SocketSound(w.net, w.net.sockets);
    assert forall id :: id in w.net.delivered ==> SocketSound(w.net, id) && SocketSound(v.net, id);
    assert SocketSound(v.net, w.net.sockets);
  }

  lemma AcceptKeeps(c: Config, w: Server, now: int)
    requires Sound(w) && FreeSlot(w).Some?
    ensures Keeps(w, AcceptOne(c, w, now).w, 1)
  {
    var u := Act(w);
    var v := Outside(u, true);
    ActKeeps(w);
    OutsideKeeps(u);
    KeepsOnwards(w, u, v, 1, 0);
    AdmissionKeeps(c, v, now, Head(u).result);
    KeepsOnwards(w, v, Admission(c, v, now, Head(u).result).w, 1, 0);
    hide Outside, Admission, Sound, Follows, Keeps;
  }

  lemma SetCleanupSets(w: Server, i: nat, id: nat)
    requires Shaped(w) && i < 2
    ensures SetCleanup(w, i, Some(id)).cleanup[i] == Some(id)
  {
  }

  lemma Unchanged(w: Server)
    requires Sound(w)
    ensures Keeps(w, w, 0)
  {
  }

  lemma AdmissionKeeps(c: Config, w: Server, now: int, result: Result)
    requires Sound(w) && FreeSlot(w).Some?
    ensures Keeps(w, Admission(c, w, now, result).w, 0)
  {
    var slot := FreeSlot(w).value;
    var id := w.net.sockets;
    var owned := SetCleanup(Opened(w), slot, Some(id));
    OpenKeeps(w, slot);
    KeptIsSound(w, owned, 0);
    assert owned.cleanup[slot] == Some(id) by { SetCleanupSets(Opened(w), slot, id); }
    if !result.Accepted? || !result.valid || Interrupted(owned) {
      RejectHandledKeeps(owned, id, slot, Go(false));
    } else {
      AdmitKeeps(c, owned, id, slot, now);
    }
    if Raises(result) || !result.Accepted? {
      Unchanged(w);
    } else {
      KeepsOnwards(w, owned, Admission(c, w, now, result).w, 0, 0);
    }
    hide Sound, Keeps, RejectAnd, RejectHandled, Admit, Reserved, Opened, SetCleanup, Interrupted;
  }

  // ---------------------------------------------------------------- receiving

  lemma SetClientKeeps(w: Server, i: nat, c: Client, d: Client)
    requires Sound(w) && i < 2 && w.clients[i] == Some(c) && d.id == c.id && d.held == c.held && ClientSound(w.net, d)
    ensures Keeps(w, SetClient(w, i, Some(d)), 0)
  {
    hide NetSound, ClientSound;
    var v := SetClient(w, i, Some(d));
    assert forall k :: k in v.net.open ==> (Holds(w, 0, k) ==> Holds(v, 0, k)) && (Holds(w, 1, k) ==> Holds(v, 1, k));
    assert Owns(v, {});
  }

  predicate Reads(c: Client) {
    c.phase == First || c.phase == Headers || c.phase == Body
  }

  predicate MayWrite(w: Server, i: nat, client: Client)
    requires Shaped(w) && i < 2
  {
    && w.clients[i].Some? && w.clients[i].value.id == client.id && client.held == w.clients[i].value.held
    && Reads(client) && Reads(w.clients[i].value)
  }

  lemma BeginWriteOwns(c: Config, w: Server, i: nat, client: Client, response: seq<byte>, now: int)
    requires Owns(w, {}) && i < 2 && MayWrite(w, i, client)
    ensures Owns(BeginWrite(c, w, i, client, response, now), {})
  {
    var v := BeginWrite(c, w, i, client, response, now);
    assert forall k :: k in v.net.open ==> (Holds(w, 0, k) ==> Holds(v, 0, k)) && (Holds(w, 1, k) ==> Holds(v, 1, k));
  }

  lemma BeginWriteDelivers(c: Config, w: Server, i: nat, client: Client, response: seq<byte>, now: int)
    requires Owns(w, {}) && Delivers(w) && i < 2 && MayWrite(w, i, client)
    ensures var v := BeginWrite(c, w, i, client, response, now); Delivers(v) && Follows(w.net, v.net)
  {
    var v := BeginWrite(c, w, i, client, response, now);
    assert SocketSound(w.net, client.id) && SocketSound(v.net, client.id);
    assert NetSound(v.net) by {
      assert forall id :: id in w.net.delivered && id != client.id ==> SocketSound(w.net, id) && SocketSound(v.net, id);
    }
  }

  lemma BeginWriteKeeps(c: Config, w: Server, i: nat, client: Client, response: seq<byte>, now: int)
    requires Sound(w) && i < 2 && MayWrite(w, i, client)
    ensures Keeps(w, BeginWrite(c, w, i, client, response, now), 0)
  {
    BeginWriteOwns(c, w, i, client, response, now);
    BeginWriteDelivers(c, w, i, client, response, now);
    hide Owns, Delivers, Follows;
  }

  lemma RouteKeeps(c: Config, w: Server, i: nat, client: Client, now: int)
    requires Sound(w) && i < 2 && w.clients[i] == Some(client) && Reads(client)
    ensures Keeps(w, Route(c, w, i, client, now).w, 0)
  {
    var v := Outside(w, true);
    OutsideKeeps(w);
    KeptIsSound(w, v, 0);
    RoutedKeeps(c, v, i, client, Head(w).result, now);
    KeepsOnwards(w, v, Routed(c, v, i, client, Head(w).result, now).w, 0, 0);
    hide Outside, Sound, Keeps, Shrinks, Routed;
  }

  lemma RoutedKeeps(c: Config, w: Server, i: nat, client: Client, result: Result, now: int)
    requires Sound(w) && i < 2 && (w.closed || w.clients[i] == Some(client)) && Reads(client)
    ensures Keeps(w, Routed(c, w, i, client, result, now).w, 0)
  {
    if Raises(result) {
      CloseClientKeeps(w, i, Raised(result));
    } else if !result.Response? && result != BadResponse {
      Unchanged(w);
      if !w.closed {
        QueueErrorKeeps(c, w, i, client, 500, now);
      }
    } else if w.reentered || w.closed || Gone(w, i, client) {
      CloseClientKeeps(w, i, Go(true));
    } else if result == BadResponse {
      var f := w.(faulted := true);
      FaultKeeps(w);
      KeptIsSound(w, f, 0);
      CloseClientKeeps(f, i, Go(true));
      KeepsOnwards(w, f, CloseAnd(f, i, Go(true)).w, 0, 0);
    } else {
      QueueResponseKeeps(c, w, i, client, result.bytes);
    }
    hide Sound, Keeps, CloseAnd, CloseClient, QueueResponse, QueueError;
  }

  lemma QueueResponseKeeps(c: Config, w: Server, i: nat, client: Client, response: seq<byte>)
    requires Sound(w) && i < 2 && w.clients[i] == Some(client) && Reads(client)
    ensures Keeps(w, QueueResponse(c, w, i, client, response).w, 0)
  {
    var v := Outside(w, true);
    var result := Head(w).result;
    OutsideKeeps(w);
    KeptIsSound(w, v, 0);
    if result.Time? {
      if v.reentered || v.closed || Gone(v, i, client) {
        CloseClientKeeps(v, i, Go(true));
        KeepsOnwards(w, v, CloseAnd(v, i, Go(true)).w, 0, 0);
      } else {
        BeginWriteKeeps(c, v, i, client, response, result.now);
        KeepsOnwards(w, v, BeginWrite(c, v, i, client, response, result.now), 0, 0);
      }
    }
    hide Outside, Sound, Keeps, CloseAnd, CloseClient, BeginWrite, Shrinks;
  }

  lemma ReadsOn(w: Server, i: nat, c: Client, d: Client)
    requires Sound(w) && i < 2 && w.clients[i] == Some(c) && Reads(c) && Reads(d) && d.id == c.id && d.held == c.held
    ensures Keeps(w, SetClient(w, i, Some(d)), 0)
  {
    hide Keeps, Owns, NetSound;
    assert ClientSound(w.net, c) && ClientSound(w.net, d);
    SetClientKeeps(w, i, c, d);
  }

  lemma DispatchKeeps(c: Config, w: Server, i: nat, client: Client, parsed: Parsed, now: int)
    requires Sound(w) && i < 2 && w.clients[i] == Some(client) && Reads(client)
    ensures Keeps(w, Dispatch(c, w, i, client, parsed, now).w, 0)
  {
    hide Sound, Follows, QueueError, Route, SetClient, Keeps;
    match parsed
    case IncompleteHeaders =>
      ReadsOn(w, i, client, if client.phase == Headers then client.(idle := now + c.headerIdle) else client);
    case IncompleteBody =>
      ReadsOn(w, i, client, if client.phase != Body then BeginBody(c, client, now) else client.(idle := now + c.bodyIdle));
    case Malformed(status) => QueueErrorKeeps(c, w, i, client, status, now);
    case ParserFails => QueueErrorKeeps(c, w, i, client, 500, now);
    case Complete => RouteKeeps(c, w, i, client, now);
  }

  lemma QueueErrorKeeps(c: Config, w: Server, i: nat, client: Client, status: nat, now: int)
    requires Sound(w) && i < 2 && w.clients[i] == Some(client) && Reads(client)
    ensures Keeps(w, QueueError(c, w, i, client, status, now), 0)
    ensures Keeps(w, QueueError(c, w.(faulted := true), i, client, status, now), 0)
  {
    var response, f := c.errorResponse(status), w.(faulted := true);
    BeginWriteKeeps(c, w, i, client, response, now);
    FaultKeeps(w);
    KeptIsSound(w, f, 0);
    assert f.clients == w.clients;
    BeginWriteKeeps(c, f, i, client, response, now);
    KeepsOnwards(w, f, BeginWrite(c, f, i, client, response, now), 0, 0);
    hide Sound, Keeps, BeginWrite;
  }

  lemma ParseKeeps(c: Config, w: Server, i: nat, client: Client, now: int)
    requires Sound(w) && i < 2 && w.clients[i] == Some(client) && Reads(client)
    ensures Keeps(w, ParseAndRoute(c, w, i, client, now).w, 0)
  {
    hide Sound, Follows, Dispatch, SetClient, Keeps, WaitsForLineFeed;
    if WaitsForLineFeed(client) {
      ReadsOn(w, i, client, client.(idle := now + c.headerIdle));
    } else {
      DispatchKeeps(c, w, i, client, c.parse(client.request), now);
    }
  }

  lemma SetClientSets(w: Server, i: nat, c: Client)
    requires Shaped(w) && i < 2
    ensures SetClient(w, i, Some(c)).clients[i] == Some(c)
  {
  }

  lemma TakeChunkKeeps(c: Config, w: Server, i: nat, client: Client, chunk: seq<byte>, now: int)
    requires Sound(w) && i < 2 && w.clients[i] == Some(client) && Reads(client)
    ensures Keeps(w, TakeChunk(c, w, i, client, chunk, now).w, 0)
  {
    hide Sound, Keeps, CloseAnd, CloseClient, QueueError, ParseAndRoute, SetClient;
    if chunk == [] || |chunk| > BUDGET {
      CloseClientKeeps(w, i, Go(false));
    } else if |client.request| + |chunk| > c.maxRequest {
      QueueErrorKeeps(c, w, i, client, if client.phase == Body then 413 else 431, now);
    } else {
      var longer := client.(request := client.request + chunk);
      ReadOnKeeps(c, w, i, client, if client.phase == First then BeginHeaders(c, longer, now) else longer, now);
    }
  }

  lemma ReadOnKeeps(c: Config, w: Server, i: nat, client: Client, next: Client, now: int)
    requires Sound(w) && i < 2 && w.clients[i] == Some(client) && Reads(client) && Reads(next) && next.id == client.id && next.held == client.held
    ensures Keeps(w, ParseAndRoute(c, SetClient(w, i, Some(next)), i, next, now).w, 0)
  {
    var v := SetClient(w, i, Some(next));
    ReadsOn(w, i, client, next);
    KeptIsSound(w, v, 0);
    SetClientSets(w, i, next);
    ParseKeeps(c, v, i, next, now);
    KeepsOnwards(w, v, ParseAndRoute(c, v, i, next, now).w, 0, 0);
    hide Sound, Keeps, ParseAndRoute, SetClient;
  }

  lemma RecvKeeps(c: Config, w: Server, i: nat, client: Client, now: int)
    requires Sound(w) && i < 2 && w.clients[i] == Some(client) && Reads(client)
    ensures Keeps(w, RecvOne(c, w, i, client, now).w, 1)
  {
    var u := Act(w);
    var v := Outside(u, true);
    var result := Head(u).result;
    ActKeeps(w);
    OutsideKeeps(u);
    KeepsOnwards(w, u, v, 1, 0);
    if result == OutOfMemory {
      CloseOnwards(w, v, i, Oom);
    } else if result != Terminal && result != Blocks {
      if !result.Data? || v.closed || v.reentered || Gone(v, i, client) {
        CloseOnwards(w, v, i, Go(false));
      } else {
        TakeChunkKeeps(c, v, i, client, result.chunk, now);
        KeepsOnwards(w, v, TakeChunk(c, v, i, client, result.chunk, now).w, 1, 0);
      }
    }
    hide Outside, CloseAnd, TakeChunk, Shrinks, Keeps, Act;
  }

  lemma CloseOnwards(w: Server, v: Server, i: nat, flow: Flow)
    requires Keeps(w, v, 1) && i < 2
    ensures Keeps(w, CloseAnd(v, i, flow).w, 1)
  {
    CloseClientKeeps(v, i, flow);
    KeepsOnwards(w, v, CloseAnd(v, i, flow).w, 1, 0);
    hide CloseAnd, Sound, Follows;
  }
}
