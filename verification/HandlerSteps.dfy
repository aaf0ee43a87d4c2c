/** Every step of the handler keeps the invariant: its own operations first, then what it does
    with the replies and feed messages delivered to it. */
module HandlerSteps {
  import opened Strategy
  import opened HandlerModel
  import opened IndexInvariant
  import opened VenueModel
  import opened VenueInvariant

  // ---- operations that touch no order ----

  ghost predicate OrdersUnchanged(h: Handler, h': Handler) {
    && h'.states.Keys == h.states.Keys
    && h'.noProduct == h.noProduct && h'.cidProduct == h.cidProduct && h'.lastCid == h.lastCid
    && forall q :: q in h.states ==>
         && h'.states[q].cidToNo == h.states[q].cidToNo && h'.states[q].noToCid == h.states[q].noToCid
         && h'.states[q].outstanding == h.states[q].outstanding
  }

  /** Only the handler, in what is not about orders, and the cancels in flight differ. */
  ghost predicate OnlyWaits(s: System, s': System) {
    && s' == s.(h := s'.h, cancels := s'.cancels, timedOut := s'.timedOut) && OrdersUnchanged(s.h, s'.h)
  }

  lemma SameKnown(s: System, s': System)
    requires KnownOk(s) && OnlyWaits(s, s')
    ensures KnownOk(s')
  {
  }

  lemma SameBindings(s: System, s': System)
    requires BindingsOk(s) && OnlyWaits(s, s')
    ensures BindingsOk(s')
  {
    forall p, d | p in s'.h.states && d in s'.h.states[p].cidToNo
      ensures BindingOk(s', p, d, s'.h.states[p].cidToNo[d])
    {
      assert BindingOk(s, p, d, s.h.states[p].cidToNo[d]);
    }
  }

  lemma SameAdopted(s: System, s': System)
    requires AdoptedOk(s) && OnlyWaits(s, s')
    ensures AdoptedOk(s')
  {
  }

  lemma SameCancel(s: System, s': System, d: Cid, no: OrderNo)
    requires CancelOk(s, d, no) && OnlyWaits(s, s')
    ensures CancelOk(s', d, no)
  {
  }

  lemma SameCancels(s: System, s': System)
    requires CancelsOk(s) && OnlyWaits(s, s')
    requires forall r :: r in s'.cancels && r !in s.cancels ==> CancelOk(s, r.cid, r.no)
    ensures CancelsOk(s')
  {
    hide CancelOk;
    forall r | r in s'.cancels
      ensures CancelOk(s', r.cid, r.no)
    {
      SameCancel(s, s', r.cid, r.no);
    }
    forall a | a in s'.cancelReplies
      ensures CancelOk(s', a.cid, a.no) && (a.success || a.gone ==> GoneOk(s', a.no))
    {
      SameCancel(s, s', a.cid, a.no);
    }
  }

  lemma SameFeed(s: System, s': System)
    requires FeedOk(s) && s'.feed == s.feed && s'.venue == s.venue && s'.foreign == s.foreign && s'.others == s.others
    ensures FeedOk(s')
  {
    forall i | 0 <= i < |s'.feed|
      ensures MessageOk(s', i)
    {
      assert MessageOk(s, i);
    }
  }

  lemma SameFills(s: System, s': System)
    requires FillsOk(s) && OnlyWaits(s, s')
    ensures FillsOk(s')
  {
    forall p, d | p in s'.h.states && d in s'.h.states[p].outstanding
      ensures RemainderOk(s', p, d)
    {
      assert RemainderOk(s, p, d);
    }
  }

  lemma SameLive(s: System, s': System)
    requires LiveOk(s) && OnlyWaits(s, s')
    ensures LiveOk(s')
  {
    forall c | MustTrack(s', c)
      ensures Tracked(s', c)
    {
      assert MustTrack(s, c) && Tracked(s, c);
    }
  }

  lemma SameOrdersIndexed(h: Handler, h': Handler)
    requires Indexed(h) && OrdersUnchanged(h, h')
    ensures Indexed(h')
  {
    SameIndexesOneWay(h, h');
  }

  lemma OnlyWaitsKeeps(s: System, s': System)
    requires Inv(s) && OnlyWaits(s, s') && WaitsOk(s') && UntimedOk(s')
    requires forall r :: r in s'.cancels && r !in s.cancels ==> CancelOk(s, r.cid, r.no)
    ensures Inv(s')
  {
    hide Indexed, VenueOk, KnownOk, BindingsOk, AdoptedOk, WaitsOk, CancelsOk, CancelOk, FeedOk, FillsOk, LiveOk, UntimedOk, OrdersUnchanged;
    SameOrdersIndexed(s.h, s'.h);
    SameVenue(s, s');
    SameKnown(s, s');
    SameBindings(s, s');
    SameAdopted(s, s');
    SameCancels(s, s');
    SameFeed(s, s');
    SameFills(s, s');
    SameLive(s, s');
  }

  lemma TimeoutKeepsInv(s: System, p: Product)
    requires Inv(s) && Enabled(s, Timeout(p))
    ensures Inv(Next(s, Timeout(p)))
  {
    hide Inv, WaitsOk;
    var s' := Next(s, Timeout(p));
    WaitsAfterClearing(s, s', p);
    OnlyWaitsKeeps(s, s');
  }

  lemma WaitsAfterClearing(s: System, s': System, p: Product)
    requires Inv(s) && p in s.h.states && s' == s.(h := ClearWaits(s.h, p), timedOut := true)
    ensures WaitsOk(s')
  {
    hide Indexed, VenueOk, KnownOk, BindingsOk, AdoptedOk, CancelsOk, FeedOk, FillsOk, LiveOk, UntimedOk;
    WaitsOfOthers(s, s', p);
  }

  /** The waiting sets of every product but one are as they were. */
  lemma WaitsOfOthers(s: System, s': System, p: Product)
    requires WaitsOk(s) && s'.venue == s.venue && s'.h.cidProduct == s.h.cidProduct && s'.h.states.Keys == s.h.states.Keys && p in s.h.states
    requires forall q :: q in s.h.states && q != p ==> s'.h.states[q] == s.h.states[q]
    requires s'.h.states[p].waitingSince == 0 <==> s'.h.states[p].NoWaiting()
    requires forall c :: c in s'.h.states[p].waitPlace ==> PlaceWaitOk(s', p, c)
    requires forall d :: d in s'.h.states[p].waitCancel ==> CancelWaitOk(s', p, d)
    ensures WaitsOk(s')
  {
    forall q | q in s'.h.states && q != p
      ensures s'.h.states[q].waitingSince == 0 <==> s'.h.states[q].NoWaiting()
      ensures forall c :: c in s'.h.states[q].waitPlace ==> PlaceWaitOk(s', q, c)
      ensures forall d :: d in s'.h.states[q].waitCancel ==> CancelWaitOk(s', q, d)
    {
      assert forall c :: c in s.h.states[q].waitPlace ==> PlaceWaitOk(s, q, c);
      assert forall d :: d in s.h.states[q].waitCancel ==> CancelWaitOk(s, q, d);
    }
  }

  lemma ObserveKeepsInv(s: System, p: Product, st: ProductState)
    requires Inv(s) && Enabled(s, Observe(p, st))
    ensures Inv(Next(s, Observe(p, st)))
  {
    hide Inv, WaitsOk, UntimedOk;
    var s' := Next(s, Observe(p, st));
    WaitsAfterObserving(s, s', p, st);
    OnlyWaitsKeeps(s, s');
  }

  lemma WaitsAfterObserving(s: System, s': System, p: Product, st: ProductState)
    requires Inv(s) && p in s.h.states && SameOrders(s.h.states[p], st) && s' == s.(h := s.h.With(p, st))
    ensures WaitsOk(s') && UntimedOk(s')
  {
    hide Indexed, VenueOk, KnownOk, BindingsOk, AdoptedOk, CancelsOk, FeedOk, FillsOk, LiveOk;
    assert forall c :: c in s.h.states[p].waitPlace ==> PlaceWaitOk(s, p, c);
    assert forall d :: d in s.h.states[p].waitCancel ==> CancelWaitOk(s, p, d);
    WaitsOfOthers(s, s', p);
  }

  /** The listener's link going up or down, and the stop being requested, concern no order. */
  lemma LinkKeepsInv(s: System, connected: bool, down: bool)
    requires Inv(s)
    ensures Inv(Next(s, Link(connected, down)))
  {
    hide Inv, WaitsOk, UntimedOk;
    var s' := Next(s, Link(connected, down));
    WaitsAfterLink(s, s');
    OnlyWaitsKeeps(s, s');
  }

  lemma WaitsAfterLink(s: System, s': System)
    requires Inv(s) && s' == s.(h := s.h.(listenerConnected := s'.h.listenerConnected, shuttingDown := s'.h.shuttingDown))
    ensures WaitsOk(s') && UntimedOk(s')
  {
    hide Indexed, VenueOk, KnownOk, BindingsOk, AdoptedOk, CancelsOk, FeedOk, FillsOk, LiveOk;
    forall p | p in s'.h.states
      ensures s'.h.states[p].waitingSince == 0 <==> s'.h.states[p].NoWaiting()
      ensures forall c :: c in s'.h.states[p].waitPlace ==> PlaceWaitOk(s', p, c)
      ensures forall d :: d in s'.h.states[p].waitCancel ==> CancelWaitOk(s', p, d)
    {
      assert forall c :: c in s.h.states[p].waitPlace ==> PlaceWaitOk(s, p, c);
      assert forall d :: d in s.h.states[p].waitCancel ==> CancelWaitOk(s, p, d);
    }
  }

  lemma CancelKeepsInv(s: System, p: Product, d: Cid, now: int)
    requires Inv(s) && Enabled(s, Cancel(p, d, now))
    ensures Inv(Next(s, Cancel(p, d, now)))
  {
    hide Inv, WaitsOk, UntimedOk;
    var s' := Next(s, Cancel(p, d, now));
    if d in s.h.states[p].cidToNo {
      BoundCidMayBeCancelled(s, p, d);
      WaitsAfterCancel(s, s', p, d, now);
      OnlyWaitsKeeps(s, s');
    } else {
      assert s' == s;
    }
  }

  lemma BoundCidMayBeCancelled(s: System, p: Product, d: Cid)
    requires Inv(s) && p in s.h.states && d in s.h.states[p].cidToNo && (d in s.venue ==> s.venue[d].reply == Closed)
    ensures RoutedTo(s.h, d, p) && CancelOk(s, d, s.h.states[p].cidToNo[d])
  {
    hide KnownOk, AdoptedOk, WaitsOk, CancelsOk, FeedOk, FillsOk, LiveOk, UntimedOk;
    assert BindingOk(s, p, d, s.h.states[p].cidToNo[d]);
    if d in s.venue {
      assert OrderOk(s.owner, s.foreign, d, s.venue[d]);
    }
  }

  lemma WaitsAfterCancel(s: System, s': System, p: Product, d: Cid, now: int)
    requires Inv(s) && p in s.h.states && d in s.h.states[p].cidToNo && RoutedTo(s.h, d, p) && now > 0
    requires d in s.venue ==> s.venue[d].reply == Closed
    requires s'.h == s.h.With(p, s.h.states[p].MarkCancel(d, now)) && s'.venue == s.venue && s'.timedOut == s.timedOut
    ensures WaitsOk(s') && UntimedOk(s')
  {
    hide Indexed, VenueOk, KnownOk, BindingsOk, AdoptedOk, CancelsOk, FeedOk, FillsOk, LiveOk;
    assert d in s'.h.states[p].waitCancel;
    assert forall c :: c in s.h.states[p].waitPlace ==> PlaceWaitOk(s, p, c);
    assert forall x :: x in s.h.states[p].waitCancel ==> CancelWaitOk(s, p, x);
    WaitsOfOthers(s, s', p);
  }
}
