/** Sending a new order keeps the invariant: its cid is one nothing has mentioned before. */
module HandlerPlaces {
  import opened Optional
  import opened Rounding
  import opened Strategy
  import opened HandlerModel
  import opened IndexInvariant
  import opened VenueModel
  import opened VenueInvariant
  import opened HandlerForgets

  /** `c` is new, waits for its place reply, and is outstanding if the order rests. */
  ghost predicate PlacesIn(h: Handler, h': Handler, p: Product, c: Cid, isLimit: bool, recorded: int) {
    && Touches(h, h', p) && c > h.lastCid && h'.lastCid == c && h'.cidProduct == h.cidProduct[c := p]
    && var st, st' := h.states[p], h'.states[p];
       && st'.outstanding.Keys == st.outstanding.Keys + (if isLimit then {c} else {})
       && (forall d :: d in st.outstanding && d != c ==> st'.outstanding[d] == st.outstanding[d])
       && (isLimit ==> st'.outstanding[c].qty == recorded)
       && st'.cidToNo == st.cidToNo && st'.noToCid == st.noToCid
       && st'.waitPlace == st.waitPlace + {c} && st'.waitCancel == st.waitCancel
       && st'.waitingSince != 0 && (!st.NoWaiting() ==> st'.waitingSince == st.waitingSince)
  }

  ghost predicate Places(s: System, s': System, p: Product, c: Cid, o: VenueOrder) {
    && PlacesIn(s.h, s'.h, p, c, o.isLimit, o.recorded)
    && s' == s.(h := s'.h, venue := s.venue[c := o]) && c !in s.others
    && OrderOk(s.owner, s.foreign, c, o) && o.product == p && o.phase == Requested && !o.acceptSeen
  }

  /** The cid is fresh: no message, binding, request or order mentions it. */
  lemma FreshCid(s: System, c: Cid)
    requires Indexed(s.h) && KnownOk(s) && c > s.h.lastCid
    ensures c !in s.venue && c !in s.h.cidProduct
    ensures forall p :: p in s.h.states ==> c !in s.h.states[p].outstanding && c !in s.h.states[p].cidToNo
  {
    forall x | x in s.venue
      ensures x <= s.h.lastCid
    {
      assert Known(s.h, x, s.venue[x]);
    }
  }

  lemma PlaceVenue(s: System, s': System, p: Product, c: Cid, o: VenueOrder)
    requires VenueOk(s) && Places(s, s', p, c, o) && c !in s.venue
    ensures VenueOk(s')
  {
    forall x | x in s'.venue
      ensures OrderOk(s'.owner, s'.foreign, x, s'.venue[x])
    {
      assert x != c ==> OrderOk(s.owner, s.foreign, x, s.venue[x]);
    }
  }

  lemma PlaceKnown(s: System, s': System, p: Product, c: Cid, o: VenueOrder)
    requires KnownOk(s) && Places(s, s', p, c, o)
    ensures KnownOk(s')
  {
    forall x | x in s'.venue
      ensures Known(s'.h, x, s'.venue[x])
    {
      assert x != c ==> Known(s.h, x, s.venue[x]);
    }
  }

  lemma PlaceBinding(s: System, s': System, p: Product, c: Cid, o: VenueOrder, q: Product, x: Cid, no: OrderNo)
    requires BindingOk(s, q, x, no) && Places(s, s', p, c, o) && c !in s.venue && x != c
    ensures BindingOk(s', q, x, no)
  {
  }

  lemma PlaceBindings(s: System, s': System, p: Product, c: Cid, o: VenueOrder)
    requires BindingsOk(s) && Places(s, s', p, c, o) && c !in s.venue
    requires forall q :: q in s.h.states ==> c !in s.h.states[q].cidToNo
    ensures BindingsOk(s')
  {
    hide BindingOk;
    forall q, x | q in s'.h.states && x in s'.h.states[q].cidToNo
      ensures BindingOk(s', q, x, s'.h.states[q].cidToNo[x])
    {
      assert x in s.h.states[q].cidToNo && s'.h.states[q].cidToNo[x] == s.h.states[q].cidToNo[x];
      PlaceBinding(s, s', p, c, o, q, x, s.h.states[q].cidToNo[x]);
    }
  }

  lemma PlaceAdopted(s: System, s': System, p: Product, c: Cid, o: VenueOrder)
    requires AdoptedOk(s) && Places(s, s', p, c, o)
    ensures AdoptedOk(s')
  {
    forall q, x | q in s'.h.states && RoutedTo(s'.h, x, q) && x !in s'.venue
      ensures x in s'.h.states[q].cidToNo && x in s'.h.states[q].outstanding
    {
      assert RoutedTo(s.h, x, q);
    }
  }

  lemma PlaceSameWaits(s: System, s': System, p: Product, c: Cid, o: VenueOrder, q: Product)
    requires Places(s, s', p, c, o) && q in s'.h.states
    ensures q in s.h.states && s'.h.states[q].waitCancel == s.h.states[q].waitCancel
    ensures s'.h.states[q].waitPlace == s.h.states[q].waitPlace + if q == p then {c} else {}
    ensures q != p ==> s'.h.states[q].waitingSince == s.h.states[q].waitingSince
    ensures q == p ==> s'.h.states[q].waitingSince != 0
  {
  }

  lemma PlacePlaceWait(s: System, s': System, p: Product, c: Cid, o: VenueOrder, q: Product, x: Cid)
    requires Places(s, s', p, c, o) && q in s.h.states
    requires PlaceWaitOk(s, q, x) || (q == p && x == c && c !in s.h.states[p].cidToNo)
    requires c !in s.venue && c !in s.h.cidProduct
    ensures PlaceWaitOk(s', q, x)
  {
  }

  lemma PlaceCancelWait(s: System, s': System, p: Product, c: Cid, o: VenueOrder, q: Product, x: Cid)
    requires Places(s, s', p, c, o) && q in s.h.states && CancelWaitOk(s, q, x) && c !in s.h.cidProduct
    ensures CancelWaitOk(s', q, x)
  {
  }

  lemma PlaceWaits(s: System, s': System, p: Product, c: Cid, o: VenueOrder)
    requires WaitsOk(s) && Places(s, s', p, c, o) && c !in s.venue && c !in s.h.cidProduct
    requires forall q :: q in s.h.states ==> c !in s.h.states[q].cidToNo
    ensures WaitsOk(s')
  {
    hide Places, PlaceWaitOk, CancelWaitOk;
    forall q | q in s'.h.states
      ensures s'.h.states[q].waitingSince == 0 <==> s'.h.states[q].NoWaiting()
      ensures forall x :: x in s'.h.states[q].waitPlace ==> PlaceWaitOk(s', q, x)
      ensures forall x :: x in s'.h.states[q].waitCancel ==> CancelWaitOk(s', q, x)
    {
      PlaceSameWaits(s, s', p, c, o, q);
      if q == p {
        assert c in s'.h.states[q].waitPlace;
      }
      forall x | x in s'.h.states[q].waitPlace
        ensures PlaceWaitOk(s', q, x)
      {
        PlacePlaceWait(s, s', p, c, o, q, x);
      }
      forall x | x in s'.h.states[q].waitCancel
        ensures CancelWaitOk(s', q, x)
      {
        assert CancelWaitOk(s, q, x);
        PlaceCancelWait(s, s', p, c, o, q, x);
      }
    }
  }

  lemma PlaceCancel(s: System, s': System, p: Product, c: Cid, o: VenueOrder, d: Cid, no: OrderNo)
    requires CancelOk(s, d, no) && Places(s, s', p, c, o)
    ensures CancelOk(s', d, no)
  {
    forall q | q in s'.h.states && RoutedTo(s'.h, d, q)
      ensures d in s'.h.states[q].cidToNo && s'.h.states[q].cidToNo[d] == no
    {
      assert RoutedTo(s.h, d, q);
    }
  }

  lemma PlaceCancels(s: System, s': System, p: Product, c: Cid, o: VenueOrder)
    requires CancelsOk(s) && Places(s, s', p, c, o) && c !in s.venue
    ensures CancelsOk(s')
  {
    hide CancelOk;
    forall r | r in s'.cancels
      ensures CancelOk(s', r.cid, r.no)
    {
      PlaceCancel(s, s', p, c, o, r.cid, r.no);
    }
    forall a | a in s'.cancelReplies
      ensures CancelOk(s', a.cid, a.no) && (a.success || a.gone ==> GoneOk(s', a.no))
    {
      PlaceCancel(s, s', p, c, o, a.cid, a.no);
    }
  }

  lemma PlaceFeed(s: System, s': System, p: Product, c: Cid, o: VenueOrder)
    requires FeedOk(s) && Places(s, s', p, c, o) && c !in s.venue
    ensures FeedOk(s')
  {
    forall i | 0 <= i < |s'.feed|
      ensures MessageOk(s', i)
    {
      assert MessageOk(s, i);
    }
  }

  lemma {:induction false} PendingAbsent(feed: seq<FeedMessage>, c: Cid)
    requires forall m :: m in feed && m.Filled? ==> m.cid != c
    ensures Pending(feed, c) == 0
  {
    if |feed| > 0 {
      assert feed[0] in feed;
      assert forall m :: m in feed[1..] ==> m in feed;
      PendingAbsent(feed[1..], c);
    }
  }

  lemma NothingHeardOf(s: System, c: Cid)
    requires FeedOk(s) && c !in s.venue
    ensures Pending(s.feed, c) == 0
  {
    forall m | m in s.feed && m.Filled?
      ensures m.cid != c
    {
      var i :| 0 <= i < |s.feed| && s.feed[i] == m;
      assert MessageOk(s, i);
    }
    PendingAbsent(s.feed, c);
  }

  lemma PlaceFills(s: System, s': System, p: Product, c: Cid, o: VenueOrder)
    requires FillsOk(s) && FeedOk(s) && VenueOk(s) && Places(s, s', p, c, o) && c !in s.venue
    requires forall q :: q in s.h.states ==> c !in s.h.states[q].cidToNo && c !in s.h.states[q].outstanding
    ensures FillsOk(s')
  {
    NothingHeardOf(s, c);
    forall q, x | q in s'.h.states && x in s'.h.states[q].outstanding
      ensures RemainderOk(s', q, x)
    {
      if x != c {
        assert RemainderOk(s, q, x);
      }
    }
  }

  lemma PlaceLive(s: System, s': System, p: Product, c: Cid, o: VenueOrder)
    requires LiveOk(s) && Places(s, s', p, c, o) && c !in s.venue
    ensures LiveOk(s')
  {
    forall x | MustTrack(s', x)
      ensures Tracked(s', x)
    {
      assert MustTrack(s, x) && Tracked(s, x);
      if x !in s.h.cidProduct {
        assert TracksByNumber(s'.h, s.venue[x].product, s.venue[x].no);
      }
    }
  }

  lemma PlaceUntimed(s: System, s': System, p: Product, c: Cid, o: VenueOrder)
    requires UntimedOk(s) && Places(s, s', p, c, o)
    ensures UntimedOk(s')
  {
  }

  lemma PlacesKeepsInv(s: System, s': System, p: Product, c: Cid, o: VenueOrder)
    requires Inv(s) && Places(s, s', p, c, o) && Indexed(s'.h)
    ensures Inv(s')
  {
    hide Indexed, VenueOk, KnownOk, BindingsOk, AdoptedOk, WaitsOk, CancelsOk, FeedOk, FillsOk, LiveOk, UntimedOk, Places;
    PlacesFreshCid(s, s', p, c, o);
    PlaceVenue(s, s', p, c, o);
    PlaceKnown(s, s', p, c, o);
    PlaceBindings(s, s', p, c, o);
    PlaceAdopted(s, s', p, c, o);
    PlaceWaits(s, s', p, c, o);
    PlaceCancels(s, s', p, c, o);
    PlaceFeed(s, s', p, c, o);
    PlaceFills(s, s', p, c, o);
    PlaceLive(s, s', p, c, o);
    PlaceUntimed(s, s', p, c, o);
  }

  lemma PlacesFreshCid(s: System, s': System, p: Product, c: Cid, o: VenueOrder)
    requires Indexed(s.h) && KnownOk(s) && Places(s, s', p, c, o)
    ensures c !in s.venue && c !in s.h.cidProduct
    ensures forall q :: q in s.h.states ==> c !in s.h.states[q].outstanding && c !in s.h.states[q].cidToNo
  {
    hide Indexed, KnownOk;
    FreshCid(s, c);
  }

  /** What is sent is the nearest whole number of product lots to what is recorded. */
  lemma SentIsNearest(lot: Option<int>, qty: int)
    ensures var sent, size := SnapTo(lot, qty), if lot.Some? && lot.value > 0 then lot.value else 1;
      size >= 1 && sent % size == 0 && 2 * (sent - qty) <= size
  {
    if lot.Some? && lot.value > 0 {
      SnapOnGrid(qty, lot.value);
      SnapIsNearest(qty, lot.value);
    }
  }

  lemma PlaceStepPlacesIn(h: Handler, p: Product, isBid: bool, price: int, qty: int, isLimit: bool, reduceOnly: bool, now: int)
    requires p in h.states && now > 0 && (h.states[p].waitingSince == 0 ==> h.states[p].NoWaiting())
    ensures var out := SubmitPlace(h, p, isBid, price, qty, isLimit, reduceOnly, now);
      |out.requests| > 0 ==>
        && out.requests[0].PlaceRequest? && out.requests[0].cid == NextCid(h, now)
        && PlacesIn(h, out.handler, p, out.requests[0].cid, isLimit, qty)
  {
    hide SnapTo;
  }

  lemma PlaceRequestOrderOk(s: System, p: Product, isBid: bool, price: int, qty: int, isLimit: bool, reduceOnly: bool, now: int)
    requires p in s.h.states && now > 0
    ensures var out := SubmitPlace(s.h, p, isBid, price, qty, isLimit, reduceOnly, now);
      |out.requests| > 0 ==>
        && out.requests[0].PlaceRequest? && out.requests[0].product == p
        && OrderOk(s.owner, s.foreign, out.requests[0].cid, PlacedOrder(s.h, out.requests[0]))
        && PlacedOrder(s.h, out.requests[0]).isLimit == isLimit && PlacedOrder(s.h, out.requests[0]).recorded == qty
  {
    hide SnapTo, Record, ReserveCid;
    SentIsNearest(s.h.states[p].lot, qty);
  }

  lemma NothingSentNothingChanged(h: Handler, p: Product, isBid: bool, price: int, qty: int, isLimit: bool, reduceOnly: bool, now: int)
    requires p in h.states && now >= 0
    ensures var out := SubmitPlace(h, p, isBid, price, qty, isLimit, reduceOnly, now);
      |out.requests| == 0 ==> out.handler == h
  {
    hide SnapTo, Record, ReserveCid;
  }

  lemma PlaceKeepsInv(s: System, p: Product, isBid: bool, price: int, qty: int, isLimit: bool, reduceOnly: bool, now: int)
    requires Inv(s) && Enabled(s, Place(p, isBid, price, qty, isLimit, reduceOnly, now))
    ensures Inv(Next(s, Place(p, isBid, price, qty, isLimit, reduceOnly, now)))
  {
    hide Inv, SnapTo, Indexed, PlacesIn, OrderOk, SubmitPlace;
    var s' := Next(s, Place(p, isBid, price, qty, isLimit, reduceOnly, now));
    var out := SubmitPlace(s.h, p, isBid, price, qty, isLimit, reduceOnly, now);
    if |out.requests| > 0 {
      InvIndexed(s, p);
      PlaceStepPlacesIn(s.h, p, isBid, price, qty, isLimit, reduceOnly, now);
      PlaceRequestOrderOk(s, p, isBid, price, qty, isLimit, reduceOnly, now);
      PlaceKeepsIndexes(s.h, p, isBid, price, qty, isLimit, reduceOnly, now);
      PlacesKeepsInv(s, s', p, out.requests[0].cid, PlacedOrder(s.h, out.requests[0]));
    } else {
      NothingSentNothingChanged(s.h, p, isBid, price, qty, isLimit, reduceOnly, now);
    }
  }

  lemma InvIndexed(s: System, p: Product)
    requires Inv(s) && p in s.h.states
    ensures Indexed(s.h) && (s.h.states[p].waitingSince == 0 ==> s.h.states[p].NoWaiting())
  {
  }
}
