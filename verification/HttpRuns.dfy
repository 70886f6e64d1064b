/** Whole steps and runs of the socket server, whatever the outside answers and however it re-enters. */
module HttpRuns {
  import opened Options
  import opened HttpModel
  import opened HttpOwnership
  import opened HttpDelivery
  import opened HttpSending

  lemma ExpireClientKeeps(c: Config, w: Server, i: nat, now: int)
    requires Sound(w) && Shaped(w) && i < 2
    ensures Keeps(w, ExpireClient(c, w, i, now).w, 0)
  {
    Unchanged(w);
    CloseClientKeeps(w, i, Oom);
    if w.clients[i].Some? && Reads(w.clients[i].value) {
      QueueErrorKeeps(c, w, i, w.clients[i].value, 408, now);
    }
    hide Sound, Keeps, CloseClient, QueueError, Overdue;
  }

  lemma ExpireSlotKeeps(c: Config, w: Server, i: nat, now: int)
    requires Sound(w) && i < 2
    ensures Keeps(w, ExpireSlot(c, w, i, now).w, 0)
  {
    OwnsFrame(w, w, {});
    CloseCleanupKeeps(w, i);
    var a := CloseCleanup(w, i, true).w;
    ExpireClientKeeps(c, a, i, now);
    KeepsOnwards(w, a, ExpireClient(c, a, i, now).w, 0, 0);
    hide Sound, Follows, CloseCleanup, ExpireClient;
  }

  lemma ExpireKeeps(c: Config, w: Server, now: int)
    requires Sound(w)
    ensures Keeps(w, Expire(c, w, now).w, 0)
  {
    ExpireSlotKeeps(c, w, 0, now);
    var a := ExpireSlot(c, w, 0, now).w;
    ExpireSlotKeeps(c, a, 1, now);
    KeepsOnwards(w, a, ExpireSlot(c, a, 1, now).w, 0, 0);
    hide Sound, Follows, ExpireSlot;
  }

  lemma PerformKeeps(c: Config, w: Server, actor: nat, now: int)
    requires Sound(w) && actor < 3 && Eligible(w, actor)
    ensures Keeps(w, Perform(c, w, actor, now).w, 1)
  {
    if actor == 0 {
      AcceptKeeps(c, w, now);
    } else {
      var client := w.clients[actor - 1].value;
      if client.phase == Closing {
        CloseClientKeeps(w, actor - 1, Oom);
      } else if client.phase == Write {
        SendKeeps(c, w, actor - 1, client, now);
      } else {
        RecvKeeps(c, w, actor - 1, client, now);
      }
    }
    hide Sound, Follows, AcceptOne, CloseClient, SendOne, RecvOne;
  }

  lemma TurnAdvances(w: Server, next: nat)
    requires Sound(w) && next < 3
    ensures Advances(w, w.(nextActor := next), 0)
  {
    hide Owns, Delivers;
    OwnsFrame(w, w.(nextActor := next), {});
    DeliversFrame(w, w.(nextActor := next));
  }

  lemma ServeAdvances(c: Config, w: Server, actor: nat, now: int)
    requires Sound(w) && actor < 3 && Eligible(w, actor)
    ensures Advances(w, Serve(c, w, actor, now).w, 1)
  {
    var u := w.(nextActor := (actor + 1) % 3);
    TurnAdvances(w, (actor + 1) % 3);
    assert Eligible(u, actor);
    PerformKeeps(c, u, actor, now);
    var v := Perform(c, u, actor, now).w;
    TurnAdvances(v, actor);
    AdvancesOnwards(w, u, v, 0, 1);
    AdvancesOnwards(w, v, v.(nextActor := actor), 1, 0);
    hide Sound, Follows, Perform, KeepsTurn, Eligible;
  }

  lemma ServeNextAdvances(c: Config, w: Server, now: int)
    requires Sound(w)
    ensures Advances(w, ServeNext(c, w, now).w, 1)
  {
    hide Owns, Delivers, Serve, Chosen;
    OwnsFrame(w, w, {});
    var chosen := Chosen(w, w.nextActor);
    if chosen.Some? {
      ServeAdvances(c, w, chosen.value, now);
    }
  }

  lemma StepBodyAdvances(c: Config, w: Server)
    requires Sound(w)
    ensures Advances(w, StepBody(c, w).w, 1)
  {
    var result := Head(w).result;
    var a := Outside(w, true);
    OutsideKeeps(w);
    if result.Time? && !a.reentered && !a.closed {
      var b := Expire(c, a, result.now);
      ExpireKeeps(c, a, result.now);
      KeepsOnwards(w, a, b.w, 0, 0);
      if b.flow.Go? {
        ServeNextAdvances(c, b.w, result.now);
        AdvancesOnwards(w, b.w, ServeNext(c, b.w, result.now).w, 0, 1);
      }
    }
    hide Sound, Follows, Outside, Expire, ServeNext, Shrinks;
  }

  lemma CloseAllAdvances(w: Server, v: Server)
    requires Advances(w, v, 1)
    ensures Sound(v) && Advances(w, CloseAll(v, true).w, 1)
  {
    CloseAllKeeps(v);
    AdvancesOnwards(w, v, CloseAll(v, true).w, 1, 0);
    hide Sound, Follows, CloseAll;
  }

  lemma SettleAdvances(w: Server, r: Res)
    requires Advances(w, r.w, 1)
    ensures Advances(w, Settle(r).w, 1)
  {
    CloseAllAdvances(w, r.w);
    var a := if r.w.reentered then CloseAll(r.w, true).w else r.w;
    CloseAllAdvances(w, a);
    hide Sound, Advances, CloseAll;
  }

  /** Between two public operations. */
  ghost predicate Quiescent(w: Server) {
    Sound(w) && !w.operationActive && !w.lifecycleActive && !w.reentered
  }

  lemma FlagsKeepSound(w: Server, active: bool)
    requires Sound(w)
    ensures Sound(w.(operationActive := active, reentered := false))
  {
    hide Owns, Delivers;
    OwnsFrame(w, w.(operationActive := active, reentered := false), {});
    DeliversFrame(w, w.(operationActive := active, reentered := false));
  }

  /** What every public operation keeps. */
  ghost predicate Orderly(w: Server, v: Server, n: nat) {
    Quiescent(v) && Follows(w.net, v.net) && v.net.actions <= w.net.actions + n
  }

  /** One step makes at most one accept, recv or send, and leaves everything in order. */
  lemma StepActsOnce(c: Config, w: Server)
    requires Quiescent(w)
    ensures Orderly(w, Step(c, w).w, 1)
  {
    if Started(w) {
      var s := w.(operationActive := true, reentered := false);
      FlagsKeepSound(w, true);
      StepBodyAdvances(c, s);
      SettleAdvances(s, StepBody(c, s));
      FlagsKeepSound(Settle(StepBody(c, s)).w, false);
    }
    hide Sound, Follows, StepBody, Settle;
  }

  lemma StartIsOrderly(w: Server, opens: bool, leaves: bool)
    requires Quiescent(w)
    ensures Orderly(w, Start(w, opens, leaves).w, 0)
  {
    var v := Start(w, opens, leaves).w;
    OwnsFrame(w, v, {});
    DeliversFrame(w, v);
    hide Owns, Delivers;
  }

  lemma DeinitIsOrderly(w: Server)
    requires Quiescent(w)
    ensures Orderly(w, Deinit(w).w, 0) && Deinit(w).w.closed
  {
    DeinitShrinks(w, {});
    ShrinkingKeeps(w, Deinit(w).w);
    DeinitIsNoStep(w);
    hide Sound, Follows, Deinit;
  }

  lemma DeinitIsNoStep(w: Server)
    requires Shaped(w) && !w.operationActive && !w.reentered
    ensures !Deinit(w).w.reentered
  {
    hide CloseCleanup, CloseClient, Outside;
    if !w.lifecycleActive {
      var s := w.(closed := true, accepting := false, lifecycleActive := true);
      var a := CloseListener(s).w;
      OutsideIsNoStep(s.(listener := false));
      CloseCleanupIsNoStep(a, 0);
      var b := CloseCleanup(a, 0, false).w;
      CloseClientIsNoStep(b, 0);
      var d := CloseClient(b, 0, false).w;
      CloseCleanupIsNoStep(d, 1);
      CloseClientIsNoStep(CloseCleanup(d, 1, false).w, 1);
    }
  }

  /** Neither a step is running nor one has been tried. */
  predicate Stepless(w: Server) {
    !w.operationActive && !w.reentered
  }

  lemma OutsideIsNoStep(w: Server)
    requires Shaped(w) && Stepless(w)
    ensures Stepless(Outside(w, false))
  {
  }

  lemma CloseCleanupIsNoStep(w: Server, i: nat)
    requires Shaped(w) && Stepless(w) && i < 2
    ensures Stepless(CloseCleanup(w, i, false).w)
  {
    hide Outside;
    OutsideIsNoStep(SetCleanup(w, i, None));
  }

  lemma CloseClientIsNoStep(w: Server, i: nat)
    requires Shaped(w) && Stepless(w) && i < 2
    ensures Stepless(CloseClient(w, i, false).w)
  {
    hide Outside;
    if w.clients[i].Some? {
      OutsideIsNoStep(SetClient(w, i, Some(ClosingClient(w.clients[i].value).(held := false))));
    }
  }

  // ---------------------------------------------------------------- runs

  datatype Input = Open(opens: bool, leaves: bool) | Turn | Close

  function Apply(c: Config, w: Server, i: Input): (v: Server)
    requires Shaped(w)
    ensures Shaped(v)
  {
    match i
    case Open(opens, leaves) => Start(w, opens, leaves).w
    case Turn => Step(c, w).w
    case Close => Deinit(w).w
  }

  function Play(c: Config, w: Server, inputs: seq<Input>): (v: Server)
    requires Shaped(w)
    ensures Shaped(v)
    decreases |inputs|
  {
    if inputs == [] then w else Play(c, Apply(c, w, inputs[0]), inputs[1..])
  }

  lemma {:induction false} RunIsOrderly(c: Config, w: Server, inputs: seq<Input>)
    requires Quiescent(w)
    ensures Quiescent(Play(c, w, inputs)) && Follows(w.net, Play(c, w, inputs).net)
    decreases |inputs|
  {
    if inputs != [] {
      var v := Apply(c, w, inputs[0]);
      match inputs[0] {
        case Open(opens, leaves) => StartIsOrderly(w, opens, leaves);
        case Turn => StepActsOnce(c, w);
        case Close => DeinitIsOrderly(w);
      }
      RunIsOrderly(c, v, inputs[1..]);
      FollowsOnwards(w.net, v.net, Play(c, v, inputs[1..]).net);
    }
    hide Sound, Start, Step, Deinit, Follows;
  }

  lemma InitialIsQuiescent(script: seq<Answer>)
    ensures Quiescent(Initial(script))
  {
  }

  /** In which of the four places a socket is kept. */
  function Places(w: Server, id: nat): nat
    requires Shaped(w)
  {
    (if w.clients[0].Some? && w.clients[0].value.id == id then 1 else 0) + (if w.cleanup[0] == Some(id) then 1 else 0)
    + (if w.clients[1].Some? && w.clients[1].value.id == id then 1 else 0) + (if w.cleanup[1] == Some(id) then 1 else 0)
  }

  /** In every run, an accepted socket that has not been closed is kept in exactly one place, and no more than two are
      open. */
  lemma OpenSocketsAreOwned(c: Config, script: seq<Answer>, inputs: seq<Input>)
    ensures
      var w := Play(c, Initial(script), inputs);
      |w.net.open| <= 2 && forall id :: id in w.net.open ==> Places(w, id) == 1
  {
    hide Play, Delivers;
    InitialIsQuiescent(script);
    RunIsOrderly(c, Initial(script), inputs);
    var w := Play(c, Initial(script), inputs);
    assert Owns(w, {});
    AtMostTwo(w);
  }

  lemma AtMostTwo(w: Server)
    requires Owns(w, {})
    ensures |w.net.open| <= 2
  {
    var kept := (if Occupant(w, 0).Some? then {Occupant(w, 0).value} else {}) + (if Occupant(w, 1).Some? then {Occupant(w, 1).value} else {});
    assert w.net.open <= kept;
    SubsetIsNoLarger(w.net.open, kept);
    assert |kept| <= 2;
  }

  lemma SubsetIsNoLarger(a: set<nat>, b: set<nat>)
    requires a <= b
    ensures |a| <= |b|
  {
    assert b == a + (b - a);
  }

  /** In every run, what a peer has been given is a prefix of the one response owed to it, and all of it if it is counted as
      completed. A response that has been given in full is counted exactly if the server was not re-entered during the
      send() that took its last bytes; and the counter counts each such socket once. */
  lemma DeliveryIsExact(c: Config, script: seq<Answer>, inputs: seq<Input>, id: nat)
    ensures
      var w := Play(c, Initial(script), inputs);
      && |w.net.finished| == w.completed
      && (id in w.net.queued ==>
            && id in w.net.delivered && w.net.delivered[id] <= w.net.queued[id]
            && (id in w.net.finished ==> w.net.delivered[id] == w.net.queued[id])
            && (w.net.delivered[id] == w.net.queued[id] != [] ==> (id in w.net.finished <==> id !in w.net.cut)))
      && (id in w.net.finished || id in w.net.cut ==> id in w.net.queued)
      && (id in w.net.delivered && id !in w.net.queued ==> w.net.delivered[id] == [])
  {
    InitialIsQuiescent(script);
    RunIsOrderly(c, Initial(script), inputs);
    var w := Play(c, Initial(script), inputs);
    assert id in w.net.delivered ==> SocketSound(w.net, id);
    hide Play, Owns;
  }

  /** What a peer has been given or is owed never changes again, except that more is given. */
  lemma PromisesStand(c: Config, script: seq<Answer>, before: seq<Input>, after: seq<Input>)
    ensures
      var w := Play(c, Initial(script), before);
      Follows(w.net, Play(c, w, after).net)
  {
    InitialIsQuiescent(script);
    RunIsOrderly(c, Initial(script), before);
    RunIsOrderly(c, Play(c, Initial(script), before), after);
  }

  /** A client that is being written to has been given exactly the bytes before its write offset. */
  lemma OffsetIsDelivered(c: Config, script: seq<Answer>, inputs: seq<Input>, i: nat)
    requires i < 2
    ensures
      var w := Play(c, Initial(script), inputs);
      w.clients[i].Some? && w.clients[i].value.phase == Write ==>
        var client := w.clients[i].value;
        client.id in w.net.delivered && client.offset <= |client.response| && w.net.delivered[client.id] == client.response[..client.offset]
  {
    hide Play, Owns;
    InitialIsQuiescent(script);
    RunIsOrderly(c, Initial(script), inputs);
  }

  // ---------------------------------------------------------------- turns

  /** How many turns away an actor is. */
  function Distance(next: nat, actor: nat): nat
    requires next < 3 && actor < 3
  {
    (actor + 3 - next) % 3
  }

  /** The client has just been given a response, or more of it has been sent. */
  predicate Progresses(w: Server, v: Server, i: nat)
    requires Shaped(w) && Shaped(v) && i < 2
  {
    && w.clients[i].Some? && v.clients[i].Some? && v.clients[i].value.phase == Write
    && (w.clients[i].value.phase == Write ==>
          v.clients[i].value.response == w.clients[i].value.response && v.clients[i].value.offset > w.clients[i].value.offset)
  }

  lemma ClosedIsNotWriting(w: Server, i: nat)
    requires Shaped(w) && i < 2
    ensures CloseClient(w, i, true).w.clients[i].Some? ==> CloseClient(w, i, true).w.clients[i].value.phase == Closing
  {
    hide Outside;
  }

  lemma ClosedAndIsNotWriting(w: Server, i: nat, flow: Flow)
    requires Shaped(w) && i < 2
    ensures !Writes(CloseAnd(w, i, flow).w, i)
  {
    hide CloseClient;
    ClosedIsNotWriting(w, i);
  }

  predicate Writes(w: Server, i: nat)
    requires Shaped(w) && i < 2
  {
    w.clients[i].Some? && w.clients[i].value.phase == Write
  }

  lemma TakenProgresses(c: Config, w: Server, i: nat, client: Client, count: nat, now: int)
    requires Shaped(w) && i < 2 && client.offset <= |client.response| && 0 < count <= |Payload(client)|
    ensures
      var v := Taken(c, w, i, client, count, now).w;
      Writes(v, i) ==> v.clients[i].value.response == client.response && v.clients[i].value.offset > client.offset
  {
    var given := Deliver(w, client.id, Payload(client)[..count]);
    ClosedAndIsNotWriting(given.(net := given.net.(cut := given.net.cut + {client.id})), i, Go(false));
    var sent := client.(offset := client.offset + count, idle := now + c.writeIdle);
    FinishedIsNotWriting(SetClient(given, i, Some(sent)), i, sent, true);
    hide CloseAnd, Deliver, Payload, Finish;
  }

  lemma FinishedIsNotWriting(w: Server, i: nat, client: Client, ok: bool)
    requires Shaped(w) && i < 2
    ensures !Writes(Finish(w, i, client, ok).w, i)
  {
    hide CloseAnd;
    ClosedAndIsNotWriting(w.(completed := w.completed + 1, net := w.net.(finished := w.net.finished + {client.id})), i, Go(ok));
  }

  lemma SendProgresses(c: Config, w: Server, i: nat, client: Client, now: int)
    requires Shaped(w) && i < 2 && w.clients[i] == Some(client)
    ensures
      var r := SendOne(c, w, i, client, now);
      r.flow == Go(true) && Writes(r.w, i) ==> r.w.clients[i].value.response == client.response && r.w.clients[i].value.offset > client.offset
  {
    hide Outside, CloseAnd, Taken, Payload, Finish;
    FinishedIsNotWriting(w, i, client, false);
    if client.offset < |client.response| {
      var v := Outside(Act(w), true);
      var result := Head(Act(w)).result;
      ClosedAndIsNotWriting(v, i, Oom);
      ClosedAndIsNotWriting(v, i, Go(false));
      if Took(result, Payload(client)) {
        TakenProgresses(c, v, i, client, result.count, now);
      }
    }
  }

  lemma WritingOnIsProgress(c: Config, w: Server, actor: nat, now: int)
    requires Shaped(w) && 0 < actor < 3 && Eligible(w, actor)
    requires Perform(c, w, actor, now).flow == Go(true) && Writes(Perform(c, w, actor, now).w, actor - 1)
    ensures Progresses(w, Perform(c, w, actor, now).w, actor - 1)
  {
    hide RecvOne, CloseClient, SendOne;
    ClosedIsNotWriting(w, actor - 1);
    SendProgresses(c, w, actor - 1, w.clients[actor - 1].value, now);
  }

  lemma ChosenComesFirst(w: Server, first: nat, actor: nat)
    requires Shaped(w) && first < 3 && actor < 3 && Eligible(w, actor)
    ensures Chosen(w, first).Some? && Distance(first, Chosen(w, first).value) <= Distance(first, actor)
  {
    hide Eligible;
  }

  lemma NextIsFarther(next: nat, served: nat, actor: nat)
    requires next < 3 && served < 3 && actor < 3 && served != actor && Distance(next, served) <= Distance(next, actor)
    ensures Distance((served + 1) % 3, actor) < Distance(next, actor)
  {
    assert next == 0 || next == 1 || next == 2;
    assert served == 0 || served == 1 || served == 2;
    assert actor == 0 || actor == 1 || actor == 2;
  }

  /** Round robin with writer affinity: an actor that has something to do is served, or its turn comes closer, or the
      client served instead of it is being written to and has made progress. */
  lemma TurnComesCloser(c: Config, w: Server, now: int, actor: nat)
    requires Sound(w) && Shaped(w) && w.nextActor < 3 && actor < 3 && Eligible(w, actor)
    ensures
      var (served, v) := (Chosen(w, w.nextActor), ServeNext(c, w, now).w);
      && served.Some? && v.nextActor < 3
      && (served.value == actor
          || Distance(v.nextActor, actor) < Distance(w.nextActor, actor)
          || (served.value > 0 && Progresses(w, v, served.value - 1)))
  {
    ChosenComesFirst(w, w.nextActor, actor);
    var served := Chosen(w, w.nextActor).value;
    ServedMovesTurn(c, w, served, now);
    if served != actor { NextIsFarther(w.nextActor, served, actor); }
    hide Sound, Eligible, Serve, Chosen, Progresses, Distance;
  }

  lemma ServedMovesTurn(c: Config, w: Server, actor: nat, now: int)
    requires Sound(w) && Shaped(w) && actor < 3 && Eligible(w, actor)
    ensures
      var v := Serve(c, w, actor, now).w;
      v.nextActor == (actor + 1) % 3 || (v.nextActor == actor && actor > 0 && Progresses(w, v, actor - 1))
  {
    var u := w.(nextActor := (actor + 1) % 3);
    TurnAdvances(w, (actor + 1) % 3);
    assert Eligible(u, actor);
    PerformKeeps(c, u, actor, now);
    var r := Perform(c, u, actor, now);
    if r.flow.Go? && KeepsTurn(r.w, actor, r.flow.ok) {
      WritingOnIsProgress(c, u, actor, now);
    }
    hide Sound, Perform, Follows, Eligible;
  }
}
