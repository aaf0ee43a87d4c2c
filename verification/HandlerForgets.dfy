/** Dropping an order, binding a number to one, and adopting one: each keeps the invariant. */
module HandlerForgets {
  import opened Strategy
  import opened HandlerModel
  import opened IndexInvariant
  import opened VenueModel
  import opened VenueInvariant
  import opened HandlerSteps

  ghost predicate Touches(h: Handler, h': Handler, p: Product) {
    p in h.states && h'.states.Keys == h.states.Keys && forall q :: q in h.states && q != p ==> h'.states[q] == h.states[q]
  }

  // ---- dropping an order ----

  /** `d` is dropped from every map and from both waiting sets. */
  ghost predicate Drops(h: Handler, h': Handler, p: Product, d: Cid) {
    && Touches(h, h', p) && h'.lastCid == h.lastCid && h'.cidProduct == h.cidProduct - {d}
    && var st, st' := h.states[p], h'.states[p];
       && st'.outstanding == st.outstanding - {d} && st'.cidToNo == st.cidToNo - {d}
       && st'.noToCid == st.noToCid - (if d in st.cidToNo then {st.cidToNo[d]} else {})
       && st'.waitPlace == st.waitPlace - {d} && st'.waitCancel == st.waitCancel - {d}
       && st'.waitingSince == if st'.NoWaiting() then 0 else st.waitingSince
  }

  /** No live order that must be tracked is tracked through `d`. */
  ghost predicate Droppable(s: System, p: Product, d: Cid)
    requires p in s.h.states
  {
    && !MustTrack(s, d)
    && (d !in s.venue && d in s.h.states[p].cidToNo && s.h.states[p].cidToNo[d] in s.owner ==>
          !MustTrack(s, s.owner[s.h.states[p].cidToNo[d]]))
  }

  lemma DropKnown(s: System, s': System, p: Product, d: Cid)
    requires KnownOk(s) && s' == s.(h := s'.h) && Drops(s.h, s'.h, p, d)
    ensures KnownOk(s')
  {
    forall c | c in s'.venue
      ensures Known(s'.h, c, s'.venue[c])
    {
      assert Known(s.h, c, s.venue[c]);
    }
  }

  lemma DropBindings(s: System, s': System, p: Product, d: Cid)
    requires BindingsOk(s) && s' == s.(h := s'.h) && Drops(s.h, s'.h, p, d)
    ensures BindingsOk(s')
  {
    forall q, x | q in s'.h.states && x in s'.h.states[q].cidToNo
      ensures BindingOk(s', q, x, s'.h.states[q].cidToNo[x])
    {
      assert BindingOk(s, q, x, s.h.states[q].cidToNo[x]);
    }
  }

  lemma DropAdopted(s: System, s': System, p: Product, d: Cid)
    requires AdoptedOk(s) && s' == s.(h := s'.h) && Drops(s.h, s'.h, p, d)
    ensures AdoptedOk(s')
  {
    forall q, x | q in s'.h.states && RoutedTo(s'.h, x, q) && x !in s'.venue
      ensures x in s'.h.states[q].cidToNo && x in s'.h.states[q].outstanding
    {
      assert RoutedTo(s.h, x, q);
    }
  }

  lemma DropSameWaits(h: Handler, h': Handler, p: Product, d: Cid, q: Product)
    requires Drops(h, h', p, d) && q in h'.states
    ensures q in h.states
    ensures h'.states[q].waitPlace == h.states[q].waitPlace - (if q == p then {d} else {})
    ensures h'.states[q].waitCancel == h.states[q].waitCancel - (if q == p then {d} else {})
    ensures h'.states[q].waitingSince == if q == p && h'.states[q].NoWaiting() then 0 else h.states[q].waitingSince
  {
  }

  lemma DropPlaceWait(s: System, s': System, p: Product, d: Cid, q: Product, x: Cid)
    requires s' == s.(h := s'.h) && Drops(s.h, s'.h, p, d) && q in s.h.states && PlaceWaitOk(s, q, x) && x != d
    ensures PlaceWaitOk(s', q, x)
  {
  }

  lemma DropCancelWait(s: System, s': System, p: Product, d: Cid, q: Product, x: Cid)
    requires s' == s.(h := s'.h) && Drops(s.h, s'.h, p, d) && q in s.h.states && CancelWaitOk(s, q, x) && x != d
    ensures CancelWaitOk(s', q, x)
  {
  }

  /** A cid in another product's waits is not the one dropped. */
  lemma WaitedElsewhere(s: System, p: Product, d: Cid, q: Product, x: Cid)
    requires q in s.h.states && q != p && (PlaceWaitOk(s, q, x) || CancelWaitOk(s, q, x)) && (d in s.h.cidProduct ==> RoutedTo(s.h, d, p))
    ensures x != d
  {
  }

  lemma DropWaits(s: System, s': System, p: Product, d: Cid)
    requires WaitsOk(s) && s' == s.(h := s'.h) && Drops(s.h, s'.h, p, d) && (d in s.h.cidProduct ==> RoutedTo(s.h, d, p))
    ensures WaitsOk(s')
  {
    hide Drops, PlaceWaitOk, CancelWaitOk, RoutedTo;
    forall q | q in s'.h.states
      ensures s'.h.states[q].waitingSince == 0 <==> s'.h.states[q].NoWaiting()
      ensures forall c :: c in s'.h.states[q].waitPlace ==> PlaceWaitOk(s', q, c)
      ensures forall x :: x in s'.h.states[q].waitCancel ==> CancelWaitOk(s', q, x)
    {
      DropSameWaits(s.h, s'.h, p, d, q);
      forall x | x in s'.h.states[q].waitPlace
        ensures PlaceWaitOk(s', q, x)
      {
        if q != p {
          WaitedElsewhere(s, p, d, q, x);
        }
        DropPlaceWait(s, s', p, d, q, x);
      }
      forall x | x in s'.h.states[q].waitCancel
        ensures CancelWaitOk(s', q, x)
      {
        if q != p {
          WaitedElsewhere(s, p, d, q, x);
        }
        DropCancelWait(s, s', p, d, q, x);
      }
    }
  }

  lemma DropCancels(s: System, s': System, p: Product, d: Cid)
    requires CancelsOk(s) && s' == s.(h := s'.h) && Drops(s.h, s'.h, p, d)
    ensures CancelsOk(s')
  {
    forall x, no | CancelOk(s, x, no)
      ensures CancelOk(s', x, no)
    {
      forall q | q in s'.h.states && RoutedTo(s'.h, x, q)
        ensures x in s'.h.states[q].cidToNo && s'.h.states[q].cidToNo[x] == no
      {
        assert RoutedTo(s.h, x, q);
      }
    }
  }

  lemma DropFills(s: System, s': System, p: Product, d: Cid)
    requires FillsOk(s) && s' == s.(h := s'.h) && Drops(s.h, s'.h, p, d)
    ensures FillsOk(s')
  {
    hide Unheard;
    assert forall c :: c in s.venue ==> Unheard(s', c) == Unheard(s, c) by {
      SameUnheard(s, s');
    }
    forall q, x | q in s'.h.states && x in s'.h.states[q].outstanding
      ensures RemainderOk(s', q, x)
    {
      assert RemainderOk(s, q, x);
    }
  }

  lemma SameUnheard(s: System, s': System)
    requires s'.venue == s.venue && s'.feed == s.feed
    ensures forall c :: c in s.venue ==> Unheard(s', c) == Unheard(s, c)
  {
  }

  lemma DropLive(s: System, s': System, p: Product, d: Cid)
    requires LiveOk(s) && BindingsOk(s) && Indexed(s.h) && s' == s.(h := s'.h) && Drops(s.h, s'.h, p, d)
    requires d in s.h.cidProduct ==> RoutedTo(s.h, d, p)
    requires Droppable(s, p, d)
    requires VenueOk(s)
    ensures LiveOk(s')
  {
    forall c | MustTrack(s', c)
      ensures Tracked(s', c)
    {
      assert MustTrack(s, c) && Tracked(s, c);
      StillTracked(s, s', p, d, c);
    }
  }

  lemma StillTracked(s: System, s': System, p: Product, d: Cid, c: Cid)
    requires BindingsOk(s) && Indexed(s.h) && VenueOk(s) && s' == s.(h := s'.h) && Drops(s.h, s'.h, p, d)
    requires Droppable(s, p, d) && MustTrack(s, c) && Tracked(s, c)
    ensures Tracked(s', c)
  {
    var o := s.venue[c];
    assert OrderOk(s.owner, s.foreign, c, o);
    if c !in s.h.cidProduct {
      var st := s.h.states[o.product];
      var x := st.noToCid[o.no];
      IndexedLocally(s.h, o.product);
      assert x in st.cidToNo && st.cidToNo[x] == o.no;
      assert BindingOk(s, o.product, x, o.no);
      assert !(o.product == p && d in s.h.states[p].cidToNo && s.h.states[p].cidToNo[d] == o.no);
    }
  }

  lemma DropUntimed(s: System, s': System, p: Product, d: Cid)
    requires UntimedOk(s) && s' == s.(h := s'.h) && Drops(s.h, s'.h, p, d)
    ensures UntimedOk(s')
  {
  }

  lemma DropKeepsInv(s: System, s': System, p: Product, d: Cid)
    requires Inv(s) && s' == s.(h := s'.h) && Drops(s.h, s'.h, p, d) && Indexed(s'.h)
    requires d in s.h.cidProduct ==> RoutedTo(s.h, d, p)
    requires Droppable(s, p, d)
    ensures Inv(s')
  {
    hide Indexed, VenueOk, KnownOk, BindingsOk, AdoptedOk, WaitsOk, CancelsOk, FeedOk, FillsOk, LiveOk, UntimedOk, Drops, Droppable, RoutedTo;
    SameVenue(s, s');
    DropKnown(s, s', p, d);
    DropBindings(s, s', p, d);
    DropAdopted(s, s', p, d);
    DropWaits(s, s', p, d);
    DropCancels(s, s', p, d);
    SameFeed(s, s');
    DropFills(s, s', p, d);
    DropLive(s, s', p, d);
    DropUntimed(s, s', p, d);
  }

  // ---- binding a number ----

  /** `c` gets the number `no` and no longer waits for its place reply. */
  ghost predicate Binds(h: Handler, h': Handler, p: Product, c: Cid, no: OrderNo) {
    && Touches(h, h', p) && h'.lastCid == h.lastCid && h'.cidProduct == h.cidProduct
    && var st, st' := h.states[p], h'.states[p];
       && st'.outstanding == st.outstanding && st'.cidToNo == st.cidToNo[c := no] && st'.noToCid == st.noToCid[no := c]
       && st'.waitPlace == st.waitPlace - {c} && (st'.waitCancel == st.waitCancel || st'.waitCancel == st.waitCancel - {c})
       && st'.waitingSince == if st'.NoWaiting() then 0 else st.waitingSince
  }

  lemma BindKnown(s: System, s': System, p: Product, c: Cid, no: OrderNo)
    requires KnownOk(s) && s' == s.(h := s'.h) && Binds(s.h, s'.h, p, c, no)
    ensures KnownOk(s')
  {
    forall x | x in s'.venue
      ensures Known(s'.h, x, s'.venue[x])
    {
      assert Known(s.h, x, s.venue[x]);
    }
  }

  lemma BindBindings(s: System, s': System, p: Product, c: Cid, no: OrderNo)
    requires BindingsOk(s) && s' == s.(h := s'.h) && Binds(s.h, s'.h, p, c, no) && BindingOk(s, p, c, no)
    ensures BindingsOk(s')
  {
    forall q, x | q in s'.h.states && x in s'.h.states[q].cidToNo
      ensures BindingOk(s', q, x, s'.h.states[q].cidToNo[x])
    {
      if !(q == p && x == c) {
        assert BindingOk(s, q, x, s.h.states[q].cidToNo[x]);
      }
    }
  }

  lemma BindAdopted(s: System, s': System, p: Product, c: Cid, no: OrderNo)
    requires AdoptedOk(s) && s' == s.(h := s'.h) && Binds(s.h, s'.h, p, c, no)
    ensures AdoptedOk(s')
  {
    forall q, x | q in s'.h.states && RoutedTo(s'.h, x, q) && x !in s'.venue
      ensures x in s'.h.states[q].cidToNo && x in s'.h.states[q].outstanding
    {
      assert RoutedTo(s.h, x, q);
    }
  }

  lemma BindWaits(s: System, s': System, p: Product, c: Cid, no: OrderNo)
    requires WaitsOk(s) && s' == s.(h := s'.h) && Binds(s.h, s'.h, p, c, no)
    ensures WaitsOk(s')
  {
    forall q | q in s'.h.states
      ensures s'.h.states[q].waitingSince == 0 <==> s'.h.states[q].NoWaiting()
      ensures forall x :: x in s'.h.states[q].waitPlace ==> PlaceWaitOk(s', q, x)
      ensures forall x :: x in s'.h.states[q].waitCancel ==> CancelWaitOk(s', q, x)
    {
      assert forall x :: x in s.h.states[q].waitPlace ==> PlaceWaitOk(s, q, x);
      assert forall x :: x in s.h.states[q].waitCancel ==> CancelWaitOk(s, q, x);
    }
  }

  lemma BindCancels(s: System, s': System, p: Product, c: Cid, no: OrderNo)
    requires CancelsOk(s) && s' == s.(h := s'.h) && Binds(s.h, s'.h, p, c, no) && BindOk(s.h, p, c, no) && no != ""
    ensures CancelsOk(s')
  {
    forall x, n | CancelOk(s, x, n)
      ensures CancelOk(s', x, n)
    {
      forall q | q in s'.h.states && RoutedTo(s'.h, x, q)
        ensures x in s'.h.states[q].cidToNo && s'.h.states[q].cidToNo[x] == n
      {
        assert RoutedTo(s.h, x, q);
      }
    }
  }

  lemma BindFills(s: System, s': System, p: Product, c: Cid, no: OrderNo)
    requires FillsOk(s) && AdoptedOk(s) && s' == s.(h := s'.h) && Binds(s.h, s'.h, p, c, no)
    requires BindOk(s.h, p, c, no) && no != "" && RoutedTo(s.h, c, p)
    ensures FillsOk(s')
  {
    hide Unheard;
    SameUnheard(s, s');
    forall q, x | q in s'.h.states && x in s'.h.states[q].outstanding
      ensures RemainderOk(s', q, x)
    {
      assert RemainderOk(s, q, x);
    }
  }

  lemma BindLive(s: System, s': System, p: Product, c: Cid, no: OrderNo)
    requires LiveOk(s) && s' == s.(h := s'.h) && Binds(s.h, s'.h, p, c, no) && BindOk(s.h, p, c, no) && no != ""
    ensures LiveOk(s')
  {
    forall x | MustTrack(s', x)
      ensures Tracked(s', x)
    {
      assert MustTrack(s, x) && Tracked(s, x);
    }
  }

  lemma BindUntimed(s: System, s': System, p: Product, c: Cid, no: OrderNo)
    requires UntimedOk(s) && s' == s.(h := s'.h) && Binds(s.h, s'.h, p, c, no)
    ensures UntimedOk(s')
  {
  }

  lemma BindKeepsInv(s: System, s': System, p: Product, c: Cid, no: OrderNo)
    requires Inv(s) && s' == s.(h := s'.h) && Binds(s.h, s'.h, p, c, no) && Indexed(s'.h)
    requires RoutedTo(s.h, c, p) && no != "" && BindOk(s.h, p, c, no) && BindingOk(s, p, c, no)
    ensures Inv(s')
  {
    hide Indexed, VenueOk, KnownOk, BindingsOk, AdoptedOk, WaitsOk, CancelsOk, FeedOk, FillsOk, LiveOk, UntimedOk, Binds, BindOk, BindingOk, RoutedTo;
    SameVenue(s, s');
    BindKnown(s, s', p, c, no);
    BindBindings(s, s', p, c, no);
    BindAdopted(s, s', p, c, no);
    BindWaits(s, s', p, c, no);
    BindCancels(s, s', p, c, no);
    SameFeed(s, s');
    BindFills(s, s', p, c, no);
    BindLive(s, s', p, c, no);
    BindUntimed(s, s', p, c, no);
  }

  // ---- adopting an order off the feed ----

  /** A new cid `d`, outstanding with `order` and bound to `no`. */
  ghost predicate Adopts(h: Handler, h': Handler, p: Product, d: Cid, order: Order, no: OrderNo) {
    && Touches(h, h', p) && d > h.lastCid && h'.lastCid == d && h'.cidProduct == h.cidProduct[d := p]
    && var st, st' := h.states[p], h'.states[p];
       && st'.outstanding == st.outstanding[d := order] && st'.cidToNo == st.cidToNo[d := no] && st'.noToCid == st.noToCid[no := d]
       && st'.waitPlace == st.waitPlace && st'.waitCancel == st.waitCancel && st'.waitingSince == st.waitingSince
  }

  lemma AdoptKnown(s: System, s': System, p: Product, d: Cid, order: Order, no: OrderNo)
    requires KnownOk(s) && s' == s.(h := s'.h) && Adopts(s.h, s'.h, p, d, order, no) && d !in s.others
    ensures KnownOk(s') && d !in s.venue
  {
    forall x | x in s.venue
      ensures x != d && Known(s'.h, x, s.venue[x])
    {
      assert Known(s.h, x, s.venue[x]);
    }
  }

  lemma AdoptBindings(s: System, s': System, p: Product, d: Cid, order: Order, no: OrderNo)
    requires BindingsOk(s) && KnownOk(s) && s' == s.(h := s'.h) && Adopts(s.h, s'.h, p, d, order, no) && BindingOk(s, p, d, no)
    ensures BindingsOk(s')
  {
    assert forall x :: x in s.venue ==> Known(s.h, x, s.venue[x]);
    forall q, x | q in s'.h.states && x in s'.h.states[q].cidToNo
      ensures BindingOk(s', q, x, s'.h.states[q].cidToNo[x])
    {
      if !(q == p && x == d) {
        assert BindingOk(s, q, x, s.h.states[q].cidToNo[x]);
      }
    }
  }

  lemma AdoptAdopted(s: System, s': System, p: Product, d: Cid, order: Order, no: OrderNo)
    requires AdoptedOk(s) && s' == s.(h := s'.h) && Adopts(s.h, s'.h, p, d, order, no)
    ensures AdoptedOk(s')
  {
    forall q, x | q in s'.h.states && RoutedTo(s'.h, x, q) && x !in s'.venue
      ensures x in s'.h.states[q].cidToNo && x in s'.h.states[q].outstanding
    {
      if x != d {
        assert RoutedTo(s.h, x, q);
      }
    }
  }

  lemma IssuedBefore(h: Handler, x: Cid, q: Product)
    requires Indexed(h) && RoutedTo(h, x, q)
    ensures x <= h.lastCid
  {
  }

  lemma AdoptPlaceWait(s: System, s': System, p: Product, d: Cid, order: Order, no: OrderNo, q: Product, x: Cid)
    requires s' == s.(h := s'.h) && Adopts(s.h, s'.h, p, d, order, no) && q in s.h.states && PlaceWaitOk(s, q, x) && Indexed(s.h)
    ensures PlaceWaitOk(s', q, x)
  {
    hide Indexed;
    IssuedBefore(s.h, x, q);
  }

  lemma AdoptCancelWait(s: System, s': System, p: Product, d: Cid, order: Order, no: OrderNo, q: Product, x: Cid)
    requires s' == s.(h := s'.h) && Adopts(s.h, s'.h, p, d, order, no) && q in s.h.states && CancelWaitOk(s, q, x) && Indexed(s.h)
    ensures CancelWaitOk(s', q, x)
  {
    hide Indexed;
    IssuedBefore(s.h, x, q);
  }

  lemma AdoptSameWaits(h: Handler, h': Handler, p: Product, d: Cid, order: Order, no: OrderNo, q: Product)
    requires Adopts(h, h', p, d, order, no) && q in h'.states
    ensures q in h.states && h'.states[q].waitPlace == h.states[q].waitPlace && h'.states[q].waitCancel == h.states[q].waitCancel
    ensures h'.states[q].waitingSince == h.states[q].waitingSince
  {
  }

  lemma AdoptWaits(s: System, s': System, p: Product, d: Cid, order: Order, no: OrderNo)
    requires WaitsOk(s) && Indexed(s.h) && s' == s.(h := s'.h) && Adopts(s.h, s'.h, p, d, order, no)
    ensures WaitsOk(s')
  {
    hide Indexed, Adopts, PlaceWaitOk, CancelWaitOk;
    forall q | q in s'.h.states
      ensures s'.h.states[q].waitingSince == 0 <==> s'.h.states[q].NoWaiting()
      ensures forall x :: x in s'.h.states[q].waitPlace ==> PlaceWaitOk(s', q, x)
      ensures forall x :: x in s'.h.states[q].waitCancel ==> CancelWaitOk(s', q, x)
    {
      AdoptSameWaits(s.h, s'.h, p, d, order, no, q);
      forall x | x in s'.h.states[q].waitPlace
        ensures PlaceWaitOk(s', q, x)
      {
        assert PlaceWaitOk(s, q, x);
        AdoptPlaceWait(s, s', p, d, order, no, q, x);
      }
      forall x | x in s'.h.states[q].waitCancel
        ensures CancelWaitOk(s', q, x)
      {
        assert CancelWaitOk(s, q, x);
        AdoptCancelWait(s, s', p, d, order, no, q, x);
      }
    }
  }

  lemma AdoptCancels(s: System, s': System, p: Product, d: Cid, order: Order, no: OrderNo)
    requires CancelsOk(s) && s' == s.(h := s'.h) && Adopts(s.h, s'.h, p, d, order, no)
    ensures CancelsOk(s')
  {
    forall x, n | CancelOk(s, x, n)
      ensures CancelOk(s', x, n)
    {
      forall q | q in s'.h.states && RoutedTo(s'.h, x, q)
        ensures x in s'.h.states[q].cidToNo && s'.h.states[q].cidToNo[x] == n
      {
        assert RoutedTo(s.h, x, q);
      }
    }
  }

  lemma AdoptFills(s: System, s': System, p: Product, d: Cid, order: Order, no: OrderNo)
    requires FillsOk(s) && KnownOk(s) && Indexed(s.h) && s' == s.(h := s'.h) && Adopts(s.h, s'.h, p, d, order, no) && d !in s.others
    requires no in s.owner && s.owner[no] in s.venue ==> order.qty == Unheard(s, s.owner[no])
    ensures FillsOk(s')
  {
    hide Unheard;
    SameUnheard(s, s');
    AdoptKnown(s, s', p, d, order, no);
    IndexedLocally(s.h, p);
    forall q, x | q in s'.h.states && x in s'.h.states[q].outstanding
      ensures RemainderOk(s', q, x)
    {
      if !(q == p && x == d) {
        assert RemainderOk(s, q, x);
      }
    }
  }

  lemma AdoptLive(s: System, s': System, p: Product, d: Cid, order: Order, no: OrderNo)
    requires s' == s.(h := s'.h) && Adopts(s.h, s'.h, p, d, order, no) && Indexed(s.h)
    requires forall c :: MustTrack(s, c) ==> Tracked(s, c) || (s.venue[c].product == p && s.venue[c].no == no)
    ensures LiveOk(s')
  {
    forall c | MustTrack(s', c)
      ensures Tracked(s', c)
    {
      assert MustTrack(s, c);
    }
  }

  lemma AdoptUntimed(s: System, s': System, p: Product, d: Cid, order: Order, no: OrderNo)
    requires UntimedOk(s) && s' == s.(h := s'.h) && Adopts(s.h, s'.h, p, d, order, no)
    ensures UntimedOk(s')
  {
  }

  /** Adopting closes the one gap there may be in what is tracked. */
  lemma AdoptKeepsInv(s: System, s': System, p: Product, d: Cid, order: Order, no: OrderNo)
    requires Indexed(s.h) && VenueOk(s) && KnownOk(s) && BindingsOk(s) && AdoptedOk(s) && WaitsOk(s)
    requires CancelsOk(s) && FeedOk(s) && FillsOk(s) && UntimedOk(s)
    requires s' == s.(h := s'.h) && Adopts(s.h, s'.h, p, d, order, no) && Indexed(s'.h) && BindingOk(s, p, d, no) && d !in s.others
    requires no in s.owner && s.owner[no] in s.venue ==> order.qty == Unheard(s, s.owner[no])
    requires forall c :: MustTrack(s, c) ==> Tracked(s, c) || (s.venue[c].product == p && s.venue[c].no == no)
    ensures Inv(s')
  {
    hide Indexed, VenueOk, KnownOk, BindingsOk, AdoptedOk, WaitsOk, CancelsOk, FeedOk, FillsOk, LiveOk, UntimedOk, Adopts, BindingOk, Unheard, MustTrack, Tracked;
    SameVenue(s, s');
    AdoptKnown(s, s', p, d, order, no);
    AdoptBindings(s, s', p, d, order, no);
    AdoptAdopted(s, s', p, d, order, no);
    AdoptWaits(s, s', p, d, order, no);
    AdoptCancels(s, s', p, d, order, no);
    SameFeed(s, s');
    AdoptFills(s, s', p, d, order, no);
    AdoptLive(s, s', p, d, order, no);
    AdoptUntimed(s, s', p, d, order, no);
  }
}
