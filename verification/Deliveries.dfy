/** Messages about other orders, and the gateway's replies: delivering them keeps the invariant. */
module Deliveries {
  import opened Optional
  import opened Strategy
  import opened HandlerModel
  import opened IndexInvariant
  import opened VenueModel
  import opened VenueInvariant
  import opened VenueSteps
  import opened HandlerSteps
  import opened HandlerForgets
  import opened HandlerFeed
  import opened FeedDelivery

  // ---- executions of orders this session did not place ----

  ghost predicate IsForeign(s: System, d: Execution) {
    && (d.clientCid.Some? ==> d.clientCid.value in s.others && d.clientCid.value !in s.h.cidProduct)
    && d.orderNo in s.foreign && d.executeLots >= 0
  }

  lemma ForeignNumber(s: System, no: OrderNo)
    requires Inv(s) && no in s.foreign
    ensures no != "" && no !in s.owner
  {
    hide Indexed, KnownOk, BindingsOk, AdoptedOk, WaitsOk, CancelsOk, FeedOk, FillsOk, LiveOk, UntimedOk;
    assert forall c :: c in s.venue ==> OrderOk(s.owner, s.foreign, c, s.venue[c]);
  }

  /** A foreign number is bound, if at all, to a cid it was adopted under. */
  lemma ForeignRoute(s: System, product: Product, d: Execution)
    requires Inv(s) && IsForeign(s, d)
    ensures var r := Route(s.h, product, d);
      r.Routed? ==>
        && r.product in s.h.states
        && (r.cid.None? ==> d.orderNo !in s.h.noProduct)
        && (r.cid.Some? ==> ForeignTracker(s, r.product, r.cid.value, d.orderNo))
  {
    hide Inv;
    var r := Route(s.h, product, d);
    ForeignNumber(s, d.orderNo);
    ForeignIndexed(s);
    RouteFollowsIndexes(s.h, product, d);
    if r.Routed? && r.cid.Some? {
      NumberRoute(s, r.product, d.orderNo);
      ForeignBound(s, r.product, r.cid.value, d.orderNo);
      AdoptedIsOutstanding(s, r.product, r.cid.value);
    }
  }

  lemma ForeignIndexed(s: System)
    requires Inv(s)
    ensures Indexed(s.h)
  {
  }

  ghost predicate ForeignTracker(s: System, q: Product, x: Cid, no: OrderNo)
    requires q in s.h.states
  {
    && RoutedTo(s.h, x, q) && x !in s.venue && no !in s.owner && no != ""
    && x in s.h.states[q].cidToNo && s.h.states[q].cidToNo[x] == no && x in s.h.states[q].outstanding
  }

  lemma ForeignBound(s: System, q: Product, x: Cid, no: OrderNo)
    requires Inv(s) && q in s.h.states && x in s.h.states[q].cidToNo && s.h.states[q].cidToNo[x] == no && no !in s.owner
    ensures x !in s.venue && RoutedTo(s.h, x, q) && BindOk(s.h, q, x, no) && BindingOk(s, q, x, no)
  {
    hide KnownOk, AdoptedOk, WaitsOk, CancelsOk, FeedOk, FillsOk, LiveOk, UntimedOk;
    assert BindingOk(s, q, x, no);
    assert forall c :: c in s.venue ==> OrderOk(s.owner, s.foreign, c, s.venue[c]);
  }

  lemma ForeignDrops(s: System, q: Product, x: Cid, no: OrderNo, place: bool)
    requires Inv(s) && q in s.h.states && ForeignTracker(s, q, x, no)
    ensures Inv(s.(h := StopWaiting(ForgetOrder(s.h, q, x), q, x, place, true)))
  {
    hide Inv, Indexed, Drops, StopWaiting, ForgetOrder;
    WaitFacts(s, q);
    ForgetDrops(s.h, q, x, place);
    DropKeepsInv(s, s.(h := StopWaiting(ForgetOrder(s.h, q, x), q, x, place, true)), q, x);
  }

  lemma ForeignBinds(s: System, q: Product, x: Cid, no: OrderNo)
    requires Inv(s) && q in s.h.states && ForeignTracker(s, q, x, no)
    ensures Inv(s.(h := StopWaiting(Bind(s.h, q, x, no), q, x, true, false)))
  {
    hide Inv, Indexed, Binds, StopWaiting, Bind, BindOk, BindingOk;
    WaitFacts(s, q);
    ForeignBound(s, q, x, no);
    BindIsBinds(s.h, q, x, no);
    BindKeepsInv(s, s.(h := StopWaiting(Bind(s.h, q, x, no), q, x, true, false)), q, x, no);
  }

  lemma ForeignAdopts(s: System, q: Product, d: Execution, now: int)
    requires Inv(s) && q in s.h.states && IsForeign(s, d) && d.orderNo !in s.h.noProduct && now > 0 && NextCid(s.h, now) !in s.others
    ensures Inv(s.(h := Adopt(s.h, q, d, now)))
  {
    hide Inv, Indexed, Adopts, Adopt, MustTrack, Tracked;
    WaitFacts(s, q);
    ForeignNumber(s, d.orderNo);
    AdoptIsAdopts(s.h, q, d, now);
    var s' := s.(h := Adopt(s.h, q, d, now));
    FreshIsNoOrder(s, s'.h.lastCid);
    InvParts(s);
    AdoptKeepsInv(s, s', q, s'.h.lastCid, Order(d.orderPrice, d.orderLots, d.isBid), d.orderNo);
  }

  lemma ForeignFills(s: System, q: Product, x: Cid, no: OrderNo, lots: int)
    requires Inv(s) && q in s.h.states && ForeignTracker(s, q, x, no)
    ensures Inv(s.(h := Fill(s.h, q, x, lots)))
  {
    hide Inv, StopWaiting, ForgetOrder, Record, Fill, Reduces, FillsOk, FeedOk;
    WaitFacts(s, q);
    FillDropsOrReduces(s.h, q, x, lots);
    if Recorded(s, q, x) <= lots {
      ForeignDrops(s, q, x, no, true);
    } else {
      var s' := s.(h := Fill(s.h, q, x, lots));
      RecordReduces(s, s', q, x, lots);
      ForeignRemainders(s, s', q, x, no, lots);
      ReducesIsSizes(s, s', q, x, lots);
      InvParts(s);
      SameFeed(s, s');
      SizesKeep(s, s');
    }
  }

  lemma ForeignRemainders(s: System, s': System, q: Product, x: Cid, no: OrderNo, lots: int)
    requires Inv(s) && q in s.h.states && ForeignTracker(s, q, x, no) && Reduces(s, s', q, x, lots) && s'.feed == s.feed
    ensures FillsOk(s')
  {
    hide Indexed, VenueOk, KnownOk, BindingsOk, AdoptedOk, WaitsOk, CancelsOk, FeedOk, LiveOk, UntimedOk, Unheard, Reduces;
    SameVenueMap(s, s', q, x, lots);
    SameUnheard(s, s');
    forall p, y | p in s'.h.states && y in s'.h.states[p].outstanding
      ensures RemainderOk(s', p, y)
    {
      ReducesElsewhere(s, s', q, x, lots, p, y);
      assert RemainderOk(s, p, y);
    }
  }

  lemma HeadIsForeign(s: System)
    requires Inv(s) && |s.feed| > 0 && s.feed[0].Foreign?
    ensures IsForeign(s, s.feed[0].data)
  {
    hide Indexed, VenueOk, BindingsOk, AdoptedOk, WaitsOk, CancelsOk, FillsOk, LiveOk, UntimedOk;
    HeadFacts(s);
  }

  lemma PositionMoves(s: System, s': System, q: Product, position: int)
    requires q in s.h.states && s' == s.(h := s.h.With(q, s.h.states[q].(position := position)), feed := s'.feed)
    ensures SizesMove(s, s') && SameSizes(s.h, s'.h)
  {
  }

  /** The order an execution is about, as far as the handler tracks it. */
  ghost function TrackedPart(h: Handler, q: Product, t: Option<Cid>, d: Execution, now: int): Handler
    requires q in h.states && now >= 0
  {
    if d.isAcceptData then
      if d.isRejected then if t.Some? then StopWaiting(ForgetOrder(h, q, t.value), q, t.value, true, true) else h
      else if d.isCancel then if t.Some? then StopWaiting(ForgetOrder(h, q, t.value), q, t.value, false, true) else h
      else if d.isPlace && d.isAccepted then
        if t.Some? then StopWaiting(Bind(h, q, t.value, d.orderNo), q, t.value, true, false)
        else if d.orderQtyPositive then Adopt(h, q, d, now) else h
      else h
    else if d.isExecuted && d.executeQtyPositive && t.Some? then Fill(h, q, t.value, d.executeLots)
    else h
  }

  lemma ForeignTrackedPart(s: System, q: Product, t: Option<Cid>, d: Execution, now: int)
    requires Inv(s) && now > 0 && NextCid(s.h, now) !in s.others && IsForeign(s, d) && q in s.h.states
    requires t.None? ==> d.orderNo !in s.h.noProduct
    requires t.Some? ==> ForeignTracker(s, q, t.value, d.orderNo)
    ensures Inv(s.(h := TrackedPart(s.h, q, t, d, now))) && TrackedPart(s.h, q, t, d, now).states.Keys == s.h.states.Keys
  {
    hide Inv, StopWaiting, ForgetOrder, Bind, Adopt, Fill, ForeignTracker, IsForeign;
    if t.Some? {
      if d.isAcceptData && d.isCancel && !d.isRejected {
        ForeignDrops(s, q, t.value, d.orderNo, false);
      } else if d.isAcceptData && d.isRejected {
        ForeignDrops(s, q, t.value, d.orderNo, true);
      } else if d.isAcceptData {
        ForeignBinds(s, q, t.value, d.orderNo);
      } else {
        ForeignFills(s, q, t.value, d.orderNo, d.executeLots);
      }
    } else {
      ForeignAdopts(s, q, d, now);
    }
    assert s == s.(h := s.h);
  }

  lemma ExecutionParts(h: Handler, product: Product, d: Execution, now: int)
    requires now >= 0
    ensures var r := Route(h, product, d);
      OnExecution(h, product, d, now) ==
        if r.Ignored? then h
        else
          var h1 := TrackedPart(h, r.product, r.cid, d, now);
          if r.product in h1.states && !d.isAcceptData && d.isExecuted && d.executeQtyPositive && d.updatePositionOnFill then
            h1.With(r.product, h1.states[r.product].(position := h1.states[r.product].position + if d.isBid then d.executeLots else -d.executeLots))
          else h1
  {
    hide StopWaiting, ForgetOrder, Bind, Adopt, Fill, Route;
  }

  lemma DeliverForeign(s: System, now: int)
    requires Inv(s) && Enabled(s, DeliverFeed(now)) && s.feed[0].Foreign?
    ensures Inv(Next(s, DeliverFeed(now)))
  {
    hide Inv, OnExecution, TrackedPart, Route, SizesMove, SameSizes, IsForeign, ForeignTracker;
    var (p, d) := ToExecution(s, s.feed[0]);
    var s' := Next(s, DeliverFeed(now));
    HeadIsForeign(s);
    ForeignRoute(s, p, d);
    ExecutionParts(s.h, p, d, now);
    var r := Route(s.h, p, d);
    var s1 := if r.Ignored? then s else s.(h := TrackedPart(s.h, r.product, r.cid, d, now));
    if r.Routed? {
      ForeignTrackedPart(s, r.product, r.cid, d, now);
      if s'.h != s1.h {
        PositionMoves(s1, s', r.product, s'.h.states[r.product].position);
      }
    }
    if s'.h == s1.h {
      NothingMoved(s1, s');
    }
    HeadGoes(s1, s');
  }

  // ---- the gateway's replies ----

  lemma WaitsExclude(s: System, p: Product, x: Cid)
    requires Inv(s) && p in s.h.states
    ensures !(x in s.h.states[p].waitPlace && x in s.h.states[p].waitCancel)
    ensures x in s.h.states[p].waitPlace ==> x in s.venue && !s.venue[x].acceptSeen && x !in s.h.states[p].cidToNo
    ensures x in s.h.states[p].waitCancel && x in s.venue ==> s.venue[x].reply == Closed
  {
    hide Inv;
    WaitFacts(s, p);
  }

  /** Forgetting after the waits were cleared leaves the same state as before. */
  lemma ReplyDrops(h: Handler, p: Product, x: Cid)
    requires Indexed(h) && RoutedTo(h, x, p) && p in h.states
    requires h.states[p].waitingSince == 0 <==> h.states[p].NoWaiting()
    ensures var h' := ForgetOrder(StopWaiting(h, p, x, true, true), p, x); Drops(h, h', p, x) && Indexed(h')
  {
    hide Indexed;
    StopWaitingSameIndexes(h, p, x, true, true);
    ForgetKeepsIndexes(StopWaiting(h, p, x, true, true), p, x);
  }

  lemma ReplyBinds(h: Handler, p: Product, x: Cid, no: OrderNo)
    requires p in h.states && no != "" && Indexed(h) && RoutedTo(h, x, p) && BindOk(h, p, x, no)
    requires h.states[p].waitingSince == 0 <==> h.states[p].NoWaiting()
    ensures var h' := Bind(StopWaiting(h, p, x, true, true), p, x, no); Binds(h, h', p, x, no) && Indexed(h')
  {
    hide Indexed, BindOk;
    StopWaitingSameIndexes(h, p, x, true, true);
    StopWaitingSameBinding(h, p, x, no);
    BindKeepsIndexes(StopWaiting(h, p, x, true, true), p, x, no);
  }

  /** Not waiting any more on an order that is bound, or that nothing waited on. */
  lemma ReplyClearsWaits(s: System, p: Product, x: Cid)
    requires Inv(s) && p in s.h.states && x !in s.h.states[p].waitPlace
    ensures Inv(s.(h := StopWaiting(s.h, p, x, true, true)))
  {
    hide Inv, WaitsOk, UntimedOk;
    var s' := s.(h := StopWaiting(s.h, p, x, true, true));
    WaitsAfterReply(s, s', p, x);
    OnlyWaitsKeeps(s, s');
  }

  lemma WaitsAfterReply(s: System, s': System, p: Product, x: Cid)
    requires Inv(s) && p in s.h.states && x !in s.h.states[p].waitPlace && s' == s.(h := StopWaiting(s.h, p, x, true, true))
    ensures WaitsOk(s') && UntimedOk(s')
  {
    hide Indexed, VenueOk, KnownOk, BindingsOk, AdoptedOk, CancelsOk, FeedOk, FillsOk, LiveOk;
    assert s'.h.states[p].waitPlace == s.h.states[p].waitPlace;
    assert forall c :: c in s.h.states[p].waitPlace ==> PlaceWaitOk(s, p, c);
    assert forall d :: d in s.h.states[p].waitCancel ==> CancelWaitOk(s, p, d);
    WaitsOfOthers(s, s', p);
  }

  /** OnOrderResponse, for a cid routed to `p`. */
  lemma ResponseParts(h: Handler, r: Response, p: Product)
    requires CidsRouted(h) && RoutedTo(h, r.cid, p)
    ensures p in h.states
    ensures var h1 := StopWaiting(h, p, r.cid, true, true);
      OnOrderResponse(h, r) ==
        if r.cid in h.states[p].waitCancel then if r.success || r.orderGone then ForgetOrder(h1, p, r.cid) else h1
        else if r.success then Bind(h1, p, r.cid, r.orderNo)
        else if r.cid in h.states[p].waitPlace then ForgetOrder(h1, p, r.cid)
        else h1
  {
    hide StopWaiting, ForgetOrder, Bind;
  }

  lemma PlaceReplyOp(s: System, c: Cid)
    requires Inv(s) && Enabled(s, DeliverPlaceReply(c))
    ensures var o := s.venue[c];
      Inv(s.(h := OnOrderResponse(s.h, Response(c, o.reply == OkInFlight, if o.reply == OkInFlight then o.no else "", false))))
  {
    hide Inv, OnOrderResponse, StopWaiting, ForgetOrder, Bind, Indexed, Drops, Binds, BindOk, BindingOk;
    var o := s.venue[c];
    var r := Response(c, o.reply == OkInFlight, if o.reply == OkInFlight then o.no else "", false);
    var s' := s.(h := OnOrderResponse(s.h, r));
    if c in s.h.cidProduct {
      var p := o.product;
      ProductKnown(s, c);
      ResponseParts(s.h, r, p);
      OrderFacts(s, c);
      WaitFacts(s, p);
      WaitsExclude(s, p, c);
      if r.success {
        OwnNumberBinds(s, c);
        ReplyBinds(s.h, p, c, o.no);
        BindKeepsInv(s, s', p, c, o.no);
      } else if c in s.h.states[p].waitPlace {
        ReplyDrops(s.h, p, c);
        DropKeepsInv(s, s', p, c);
      } else {
        ReplyClearsWaits(s, p, c);
      }
    } else {
      UnknownReply(s.h, r);
      assert s' == s;
    }
  }

  lemma UnknownReply(h: Handler, r: Response)
    requires CidsRouted(h) && r.cid !in h.cidProduct
    ensures OnOrderResponse(h, r) == h
  {
  }

  lemma DeliverPlaceReplyKeepsInv(s: System, c: Cid)
    requires Inv(s) && Enabled(s, DeliverPlaceReply(c))
    ensures Inv(Next(s, DeliverPlaceReply(c)))
  {
    hide Inv, OnOrderResponse;
    var s' := Next(s, DeliverPlaceReply(c));
    var s1 := s.(h := s'.h);
    PlaceReplyOp(s, c);
    OrderFacts(s1, c);
    assert s'.feed == s1.feed + [];
    OneOrderKeeps(s1, s', c, s.venue[c].(reply := Closed), []);
  }

  lemma ReplyFacts(s: System, a: CancelReply)
    requires Inv(s) && a in s.cancelReplies
    ensures CancelOk(s, a.cid, a.no) && (a.success || a.gone ==> GoneOk(s, a.no))
  {
    hide Indexed, VenueOk, KnownOk, BindingsOk, AdoptedOk, WaitsOk, FeedOk, FillsOk, LiveOk, UntimedOk;
  }

  /** An order whose cancel was answered as done, or as unknown, may be dropped. */
  lemma AnsweredDroppable(s: System, a: CancelReply, p: Product)
    requires Inv(s) && a in s.cancelReplies && (a.success || a.gone) && p in s.h.states && RoutedTo(s.h, a.cid, p)
    ensures Droppable(s, p, a.cid)
  {
    hide Inv;
    ReplyFacts(s, a);
    if a.cid in s.venue {
      BindingNumber(s, p, a.cid);
      if s.venue[a.cid].no != "" {
        OwnNumber(s, a.cid);
      } else {
        OrderFacts(s, a.cid);
      }
    }
  }

  /** Binding the number an order already has changes nothing that matters. */
  lemma RebindKeepsInv(s: System, p: Product, x: Cid, no: OrderNo)
    requires Inv(s) && p in s.h.states && x in s.h.states[p].cidToNo && s.h.states[p].cidToNo[x] == no
    requires x !in s.h.states[p].waitPlace
    ensures Inv(s.(h := Bind(StopWaiting(s.h, p, x, true, true), p, x, no)))
  {
    hide Inv, StopWaiting, Bind, Indexed, Binds, BindOk, BindingOk;
    WaitFacts(s, p);
    BoundFacts(s, p, x, no);
    ReplyBinds(s.h, p, x, no);
    BindKeepsInv(s, s.(h := Bind(StopWaiting(s.h, p, x, true, true), p, x, no)), p, x, no);
  }

  lemma CancelReplyOp(s: System, a: CancelReply)
    requires Inv(s) && a in s.cancelReplies && CidsRouted(s.h)
    ensures Inv(s.(h := OnOrderResponse(s.h, Response(a.cid, a.success, if a.echo then a.no else "", a.gone))))
  {
    hide Inv, OnOrderResponse, StopWaiting, ForgetOrder, Bind, Indexed, Drops, Droppable;
    var r := Response(a.cid, a.success, if a.echo then a.no else "", a.gone);
    var s' := s.(h := OnOrderResponse(s.h, r));
    if a.cid in s.h.cidProduct {
      var p := s.h.cidProduct[a.cid];
      ResponseParts(s.h, r, p);
      ReplyFacts(s, a);
      WaitFacts(s, p);
      WaitsExclude(s, p, a.cid);
      if a.cid in s.h.states[p].waitCancel && (r.success || r.orderGone) {
        AnsweredDroppable(s, a, p);
        ReplyDrops(s.h, p, a.cid);
        DropKeepsInv(s, s', p, a.cid);
      } else {
        ReplyClearsWaits(s, p, a.cid);
        RebindKeepsInv(s, p, a.cid, a.no);
        BindNothing(StopWaiting(s.h, p, a.cid, true, true), p, a.cid);
      }
    } else {
      UnknownReply(s.h, r);
      assert s' == s;
    }
  }

  lemma BindNothing(h: Handler, p: Product, x: Cid)
    requires p in h.states
    ensures Bind(h, p, x, "") == h
  {
  }

  lemma ReplyGoes(s: System, s': System)
    requires Inv(s) && s'.cancelReplies <= s.cancelReplies && s' == s.(cancelReplies := s'.cancelReplies)
    ensures Inv(s')
  {
    hide Indexed, VenueOk, KnownOk, BindingsOk, AdoptedOk, WaitsOk, CancelsOk, FeedOk, FillsOk, LiveOk, UntimedOk, CancelOk;
    CancelsStillOk(s, s');
    SameVenue(s, s');
    FeedStillOk(s, s');
    VenueStepKeeps(s, s');
  }

  lemma DeliverCancelReplyKeepsInv(s: System, a: CancelReply, again: bool)
    requires Inv(s) && Enabled(s, DeliverCancelReply(a, again))
    ensures Inv(Next(s, DeliverCancelReply(a, again)))
  {
    hide Inv, OnOrderResponse;
    var s' := Next(s, DeliverCancelReply(a, again));
    CancelReplyOp(s, a);
    ReplyGoes(s.(h := s'.h), s');
  }
}
