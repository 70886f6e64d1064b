/** Whatever fails, raises or re-enters, every accepted socket that is still open has exactly one owner. */
module HttpOwnership {
  import opened Options
  import opened HttpModel

  /** The socket a slot belongs to, also while that socket is being closed. */
  function Occupant(w: Server, i: nat): Option<nat>
    requires Shaped(w) && i < 2
  {
    if w.clients[i].Some? then Some(w.clients[i].value.id) else w.cleanup[i]
  }

  /** Slot `i` holds on to the socket: as a client, or to be cleaned up. */
  predicate Holds(w: Server, i: nat, id: nat)
    requires Shaped(w) && i < 2
  {
    (w.clients[i].Some? && w.clients[i].value.held && w.clients[i].value.id == id) || w.cleanup[i] == Some(id)
  }

  predicate SlotSound(w: Server, i: nat, transit: set<nat>)
    requires Shaped(w) && i < 2
  {
    && (w.clients[i].None? || w.cleanup[i].None?)
    && (Occupant(w, i).Some? ==> Occupant(w, i).value < w.net.sockets)
    && (w.clients[i].Some? ==> (w.clients[i].value.id in transit) == !w.clients[i].value.held)
    && (w.cleanup[i].Some? ==> w.cleanup[i].value !in transit)
  }

  /** Every open socket is held by a slot, and by no more than one, except those whose close() is under way. */
  predicate Owns(w: Server, transit: set<nat>) {
    && Shaped(w) && SlotSound(w, 0, transit) && SlotSound(w, 1, transit)
    && (Occupant(w, 0).Some? ==> Occupant(w, 0) != Occupant(w, 1))
    && (forall id :: id in w.net.open ==> id < w.net.sockets && (Holds(w, 0, id) || Holds(w, 1, id) || id in transit))
  }

  /** A slot after sockets may have been closed: emptied, or closing, or as it was. */
  predicate SlotShrinks(w: Server, v: Server, i: nat)
    requires Shaped(w) && Shaped(v) && i < 2
  {
    && (v.cleanup[i].None? || v.cleanup[i] == w.cleanup[i])
    && (v.clients[i].None? || v.clients[i] == w.clients[i]
        || (w.clients[i].Some? && v.clients[i].value == ClosingClient(w.clients[i].value)))
  }

  predicate Shrinks(w: Server, v: Server) {
    && Shaped(w) && Shaped(v) && SlotShrinks(w, v, 0) && SlotShrinks(w, v, 1)
    && v.net == w.net.(script := v.net.script, open := v.net.open) && v.net.open <= w.net.open
    && v.completed == w.completed && v.nextActor == w.nextActor
    && v.operationActive == w.operationActive && v.lifecycleActive == w.lifecycleActive && (w.closed ==> v.closed)
  }

  lemma ShrinksTransitively(u: Server, v: Server, w: Server)
    requires Shrinks(u, v) && Shrinks(v, w)
    ensures Shrinks(u, w)
  {
  }

  /** Whose sockets are whose depends on the slots, on what is open and on how many sockets there have been. */
  lemma OwnsFrame(w: Server, v: Server, transit: set<nat>)
    requires Owns(w, transit) && v.clients == w.clients && v.cleanup == w.cleanup
    requires v.net.open == w.net.open && v.net.sockets == w.net.sockets
    ensures Owns(v, transit)
  {
    assert forall id :: id in v.net.open ==> id < v.net.sockets && (Holds(v, 0, id) == Holds(w, 0, id)) && (Holds(v, 1, id) == Holds(w, 1, id));
  }

  /** What does not touch the slots, nor the sockets, is a shrinking. */
  lemma SameSlotsShrink(w: Server, v: Server)
    requires Shaped(w) && v.clients == w.clients && v.cleanup == w.cleanup
    requires v.net == w.net.(script := v.net.script) && v.completed == w.completed && v.nextActor == w.nextActor
    requires v.operationActive == w.operationActive && v.lifecycleActive == w.lifecycleActive && v.closed == w.closed
    ensures Shrinks(w, v)
  {
  }

  lemma PopShrinks(w: Server, transit: set<nat>)
    requires Owns(w, transit)
    ensures Owns(Pop(w), transit) && Shrinks(w, Pop(w))
  {
    hide Pop, Owns, Shrinks;
    var p := Pop(w);
    PopTakesAnswer(w);
    OwnsFrame(w, p, transit);
    ShapedByOwns(w, transit);
    SameSlotsShrink(w, p);
  }

  lemma ShapedByOwns(w: Server, transit: set<nat>)
    requires Owns(w, transit)
    ensures Shaped(w)
  {
  }

  lemma PopTakesAnswer(w: Server)
    ensures Pop(w) == w.(net := w.net.(script := Pop(w).net.script))
  {
  }

  lemma NestStepShrinks(w: Server, transit: set<nat>)
    requires Owns(w, transit)
    ensures Owns(NestStep(w), transit) && Shrinks(w, NestStep(w))
  {
    var p := NestStep(w);
    assert p.clients == w.clients && p.cleanup == w.cleanup && p.net == w.net;
    hide NestStep;
    OwnsFrame(w, p, transit);
    SameSlotsShrink(w, p);
    hide Owns, Shrinks;
  }

  lemma OutsideShrinks(w: Server, transit: set<nat>, deep: bool)
    requires Owns(w, transit)
    ensures Owns(Outside(w, deep), transit) && Shrinks(w, Outside(w, deep))
    decreases deep, 2
  {
    PopShrinks(w, transit);
    NestStepShrinks(Pop(w), transit);
    ShrinksTransitively(w, Pop(w), NestStep(Pop(w)));
    var s := if Head(w).nested.step then NestStep(Pop(w)) else Pop(w);
    NestDeinitShrinks(s, transit, deep);
    ShrinksTransitively(w, s, NestDeinit(s, deep));
    hide Owns, Shrinks, NestStep, NestDeinit, Pop;
  }

  lemma NestDeinitShrinks(w: Server, transit: set<nat>, deep: bool)
    requires Owns(w, transit)
    ensures Owns(NestDeinit(w, deep), transit) && Shrinks(w, NestDeinit(w, deep))
    decreases deep, 1
  {
    hide Owns, Deinit;
    if deep && !w.lifecycleActive {
      DeinitShrinks(w, transit);
    } else {
      OwnsFrame(w, w.(closed := true, accepting := false, faulted := true), transit);
    }
  }

  lemma ClientInTransit(w: Server, i: nat, transit: set<nat>)
    requires Owns(w, transit) && i < 2 && w.clients[i].Some? && w.clients[i].value.held
    ensures
      var c := w.clients[i].value;
      Owns(SetClient(w, i, Some(ClosingClient(c).(held := false))), transit + {c.id})
  {
    var c := w.clients[i].value;
    var t := SetClient(w, i, Some(ClosingClient(c).(held := false)));
    assert forall id :: id in t.net.open && id != c.id ==> (Holds(t, 0, id) == Holds(w, 0, id)) && (Holds(t, 1, id) == Holds(w, 1, id));
  }

  lemma ClientClosed(w: Server, v: Server, i: nat, transit: set<nat>)
    requires Owns(w, transit) && i < 2 && w.clients[i].Some? && w.clients[i].value.held
    requires
      var c := w.clients[i].value;
      Owns(v, transit + {c.id}) && Shrinks(SetClient(w, i, Some(ClosingClient(c).(held := false))), v)
    ensures
      var c := w.clients[i].value;
      var t := SetClient(Shut(v, c.id), i, None);
      Owns(t, transit) && Shrinks(w, t)
  {
    var c := w.clients[i].value;
    var t := SetClient(Shut(v, c.id), i, None);
    assert forall id :: id in t.net.open ==> id != c.id && (Holds(v, 0, id) ==> Holds(t, 0, id)) && (Holds(v, 1, id) ==> Holds(t, 1, id));
  }

  lemma ClientRetained(w: Server, v: Server, i: nat, transit: set<nat>)
    requires Owns(w, transit) && i < 2 && w.clients[i].Some? && w.clients[i].value.held
    requires
      var c := w.clients[i].value;
      Owns(v, transit + {c.id}) && Shrinks(SetClient(w, i, Some(ClosingClient(c).(held := false))), v)
    ensures
      var t := SetClient(v, i, Some(ClosingClient(w.clients[i].value)));
      Owns(t, transit) && Shrinks(w, t)
  {
    var c := w.clients[i].value;
    var t := SetClient(v, i, Some(ClosingClient(c)));
    assert Holds(t, i, c.id);
    assert forall id :: id in t.net.open && id != c.id ==> (Holds(v, 0, id) ==> Holds(t, 0, id)) && (Holds(v, 1, id) ==> Holds(t, 1, id));
  }

  lemma CloseClientShrinks(w: Server, i: nat, transit: set<nat>, deep: bool)
    requires Owns(w, transit) && i < 2
    ensures var v := CloseClient(w, i, deep).w; Owns(v, transit) && Shrinks(w, v)
    decreases deep, 3
  {
    hide Outside, SlotSound, Shut, Occupant, Holds;
    if w.clients[i].Some? {
      if !w.clients[i].value.held {
        ClientForgotten(w, i, transit);
      } else {
        var c := w.clients[i].value;
        var t := SetClient(w, i, Some(ClosingClient(c).(held := false)));
        ClientInTransit(w, i, transit);
        OutsideShrinks(t, transit + {c.id}, deep);
        ClientClosed(w, Outside(t, deep), i, transit);
        ClientRetained(w, Outside(t, deep), i, transit);
      }
    } else {
      OwnsFrame(w, w, transit);
    }
  }

  lemma ClientForgotten(w: Server, i: nat, transit: set<nat>)
    requires Owns(w, transit) && i < 2 && w.clients[i].Some? && !w.clients[i].value.held
    ensures Owns(SetClient(w, i, None), transit) && Shrinks(w, SetClient(w, i, None))
  {
    var t := SetClient(w, i, None);
    assert forall id :: id in t.net.open ==> (Holds(w, 0, id) ==> Holds(t, 0, id)) && (Holds(w, 1, id) ==> Holds(t, 1, id));
  }

  lemma CleanupInTransit(w: Server, i: nat, transit: set<nat>)
    requires Owns(w, transit) && i < 2 && w.cleanup[i].Some?
    ensures Owns(SetCleanup(w, i, None), transit + {w.cleanup[i].value})
  {
    var t := SetCleanup(w, i, None);
    assert forall id :: id in t.net.open && id != w.cleanup[i].value ==> (Holds(t, 0, id) == Holds(w, 0, id)) && (Holds(t, 1, id) == Holds(w, 1, id));
  }

  lemma CleanupClosed(w: Server, v: Server, i: nat, transit: set<nat>)
    requires Owns(w, transit) && i < 2 && w.cleanup[i].Some?
    requires Owns(v, transit + {w.cleanup[i].value}) && Shrinks(SetCleanup(w, i, None), v)
    ensures var t := Shut(v, w.cleanup[i].value); Owns(t, transit) && Shrinks(w, t)
  {
    var t := Shut(v, w.cleanup[i].value);
    assert forall id :: id in t.net.open ==> id != w.cleanup[i].value && (Holds(v, 0, id) ==> Holds(t, 0, id)) && (Holds(v, 1, id) ==> Holds(t, 1, id));
  }

  lemma CleanupRetained(w: Server, v: Server, i: nat, transit: set<nat>)
    requires Owns(w, transit) && i < 2 && w.cleanup[i].Some?
    requires Owns(v, transit + {w.cleanup[i].value}) && Shrinks(SetCleanup(w, i, None), v)
    ensures var t := SetCleanup(v, i, w.cleanup[i]); Owns(t, transit) && Shrinks(w, t)
  {
    var t := SetCleanup(v, i, w.cleanup[i]);
    assert Holds(t, i, w.cleanup[i].value);
    assert forall id :: id in t.net.open && id != w.cleanup[i].value ==> (Holds(v, 0, id) ==> Holds(t, 0, id)) && (Holds(v, 1, id) ==> Holds(t, 1, id));
  }

  lemma CloseCleanupShrinks(w: Server, i: nat, transit: set<nat>, deep: bool)
    requires Owns(w, transit) && i < 2
    ensures var v := CloseCleanup(w, i, deep).w; Owns(v, transit) && Shrinks(w, v)
    decreases deep, 3
  {
    hide Outside, SlotSound, Shut, Occupant, Holds;
    if w.cleanup[i].Some? {
      var t := SetCleanup(w, i, None);
      CleanupInTransit(w, i, transit);
      OutsideShrinks(t, transit + {w.cleanup[i].value}, deep);
      CleanupClosed(w, Outside(t, deep), i, transit);
      CleanupRetained(w, Outside(t, deep), i, transit);
    } else {
      OwnsFrame(w, w, transit);
    }
  }

  lemma CloseAllShrinks(w: Server, transit: set<nat>, deep: bool)
    requires Owns(w, transit)
    ensures var v := CloseAll(w, deep).w; Owns(v, transit) && Shrinks(w, v)
    decreases deep, 4
  {
    CloseCleanupShrinks(w, 0, transit, deep);
    var a := CloseCleanup(w, 0, deep).w;
    CloseClientShrinks(a, 0, transit, deep);
    var b := CloseClient(a, 0, deep).w;
    CloseCleanupShrinks(b, 1, transit, deep);
    var c := CloseCleanup(b, 1, deep).w;
    CloseClientShrinks(c, 1, transit, deep);
    var d := CloseClient(c, 1, deep).w;
    ShrinksTransitively(w, a, b);
    ShrinksTransitively(w, b, c);
    ShrinksTransitively(w, c, d);
    hide Owns, Shrinks, CloseClient, CloseCleanup;
  }

  lemma CloseListenerShrinks(w: Server, transit: set<nat>)
    requires Owns(w, transit)
    ensures var v := CloseListener(w).w; Owns(v, transit) && Shrinks(w, v)
    decreases false, 3
  {
    hide Outside, Owns;
    if w.listener {
      var t := w.(listener := false);
      OwnsFrame(w, t, transit);
      OutsideShrinks(t, transit, false);
      OwnsFrame(Outside(t, false), Outside(t, false).(listener := true), transit);
    } else {
      OwnsFrame(w, w, transit);
    }
  }

  lemma DeinitShrinks(w: Server, transit: set<nat>)
    requires Owns(w, transit)
    ensures var v := Deinit(w).w; Owns(v, transit) && Shrinks(w, v) && v.closed
    decreases true, 0
  {
    hide SlotSound, Occupant, Worse, Head, CloseCleanup, CloseClient;
    if w.lifecycleActive {
      OwnsFrame(w, Deinit(w).w, transit);
    } else {
      var s := w.(closed := true, accepting := false, lifecycleActive := true);
      OwnsFrame(w, s, transit);
      CloseListenerShrinks(s, transit);
      var a := CloseListener(s).w;
      CloseAllShrinks(a, transit, false);
      var b := CloseAll(a, false).w;
      ShrinksTransitively(s, a, b);
      OwnsFrame(b, Deinit(w).w, transit);
    }
    hide Owns, CloseListener, CloseAll;
  }
}
