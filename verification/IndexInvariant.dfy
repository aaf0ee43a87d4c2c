/** The order indexes agree with each other: what every handler operation keeps, and exactly
    when binding an order number would break it. */
module IndexInvariant {
  import opened Ladders
  import opened Strategy
  import opened HandlerModel

  /** Per product, cid_to_order_no and order_no_to_cid are inverse. */
  ghost predicate Inverse(cidToNo: map<Cid, OrderNo>, noToCid: map<OrderNo, Cid>) {
    && (forall c :: c in cidToNo ==> cidToNo[c] in noToCid && noToCid[cidToNo[c]] == c)
    && (forall n :: n in noToCid ==> noToCid[n] in cidToNo && cidToNo[noToCid[n]] == n)
  }

  ghost predicate NumberOf(h: Handler, n: OrderNo, p: Product) {
    n in h.noProduct && h.noProduct[n] == p
  }

  /** order_no_to_product_ is exactly the union of the products' order numbers. */
  ghost predicate NumbersRouted(h: Handler) {
    forall p, n :: p in h.states ==> (n in h.states[p].noToCid <==> NumberOf(h, n, p))
  }

  ghost predicate NumbersHaveProducts(h: Handler) {
    forall n :: n in h.noProduct ==> h.noProduct[n] in h.states
  }

  /** Every cid a product holds is routed to that product. */
  ghost predicate CidsOwned(h: Handler) {
    forall p :: p in h.states ==> forall c :: c in h.states[p].outstanding || c in h.states[p].cidToNo ==> RoutedTo(h, c, p)
  }

  ghost predicate RoutedTo(h: Handler, c: Cid, p: Product) {
    c in h.cidProduct && h.cidProduct[c] == p
  }

  /** Every routed cid was issued. */
  ghost predicate CidsIssued(h: Handler) {
    forall c :: c in h.cidProduct ==> h.cidProduct[c] in h.states && c <= h.lastCid
  }

  ghost predicate Indexed(h: Handler) {
    && "" !in h.states
    && (forall p :: p in h.states ==> Inverse(h.states[p].cidToNo, h.states[p].noToCid))
    && NumbersRouted(h)
    && NumbersHaveProducts(h)
    && CidsOwned(h)
    && CidsIssued(h)
  }

  /** The number is not another order's, and the order has no other number. */
  ghost predicate BindOk(h: Handler, p: Product, cid: Cid, no: OrderNo)
    requires p in h.states
  {
    no == "" ||
    (&& (cid in h.states[p].cidToNo ==> h.states[p].cidToNo[cid] == no)
     && (no in h.states[p].noToCid ==> h.states[p].noToCid[no] == cid)
     && (no in h.noProduct ==> h.noProduct[no] == p))
  }

  /** Binding keeps the indexes consistent exactly when the number and the order belong together. */
  lemma BindKeepsIndexesIff(h: Handler, p: Product, cid: Cid, no: OrderNo)
    requires Indexed(h) && p in h.states && cid in h.cidProduct && h.cidProduct[cid] == p
    ensures Indexed(Bind(h, p, cid, no)) <==> BindOk(h, p, cid, no)
  {
    if BindOk(h, p, cid, no) {
      BindKeepsIndexes(h, p, cid, no);
    } else {
      BindBreaksIndexes(h, p, cid, no);
    }
  }

  /** What Indexed says about one product. */
  ghost predicate LocallyIndexed(h: Handler, p: Product)
    requires p in h.states
  {
    var st := h.states[p];
    && Inverse(st.cidToNo, st.noToCid)
    && (forall n :: n in st.noToCid <==> NumberOf(h, n, p))
    && NumbersHaveProducts(h)
    && (forall c :: c in st.outstanding || c in st.cidToNo ==> RoutedTo(h, c, p))
    && CidsIssued(h)
  }

  lemma IndexedLocally(h: Handler, p: Product)
    requires Indexed(h) && p in h.states
    ensures LocallyIndexed(h, p)
  {
  }

  /** Nothing that belongs to another product than `p` changed. */
  ghost predicate OnlyProductChanged(h: Handler, p: Product, h': Handler)
    requires p in h.states
  {
    && h'.states.Keys == h.states.Keys
    && (forall q :: q in h.states && q != p ==> h'.states[q] == h.states[q])
    && (forall n, q :: q != p ==> (NumberOf(h, n, q) <==> NumberOf(h', n, q)))
    && (forall c, q :: q != p && RoutedTo(h, c, q) ==> RoutedTo(h', c, q))
  }

  lemma ReplaceOneProduct(h: Handler, p: Product, h': Handler)
    requires Indexed(h) && p in h.states && OnlyProductChanged(h, p, h') && LocallyIndexed(h', p)
    ensures Indexed(h')
  {
    hide NumbersRouted, CidsOwned, CidsIssued;
    NumbersStayRouted(h, p, h');
    CidsStayOwned(h, p, h');
  }

  lemma NumbersStayRouted(h: Handler, p: Product, h': Handler)
    requires NumbersRouted(h) && p in h.states && OnlyProductChanged(h, p, h') && LocallyIndexed(h', p)
    ensures NumbersRouted(h')
  {
    hide Inverse, CidsIssued, RoutedTo, NumberOf;
  }

  lemma CidsStayOwned(h: Handler, p: Product, h': Handler)
    requires CidsOwned(h) && p in h.states && OnlyProductChanged(h, p, h') && LocallyIndexed(h', p)
    ensures CidsOwned(h')
  {
    hide Inverse, CidsIssued, RoutedTo, NumberOf;
  }

  ghost predicate SameIndexing(h: Handler, h': Handler) {
    && h'.states.Keys == h.states.Keys
    && h'.noProduct == h.noProduct && h'.cidProduct == h.cidProduct && h'.lastCid == h.lastCid
    && forall q :: q in h.states ==>
         && h'.states[q].cidToNo == h.states[q].cidToNo && h'.states[q].noToCid == h.states[q].noToCid
         && h'.states[q].outstanding.Keys == h.states[q].outstanding.Keys
  }

  lemma SameIndexesOneWay(h: Handler, h': Handler)
    requires SameIndexing(h, h') && Indexed(h)
    ensures Indexed(h')
  {
    hide NumbersRouted, CidsOwned;
    SameNumbersRouted(h, h');
    SameCidsOwned(h, h');
    assert forall q :: q in h'.states ==> Inverse(h.states[q].cidToNo, h.states[q].noToCid);
  }

  lemma SameNumbersRouted(h: Handler, h': Handler)
    requires SameIndexing(h, h') && NumbersRouted(h)
    ensures NumbersRouted(h')
  {
  }

  lemma SameCidsOwned(h: Handler, h': Handler)
    requires SameIndexing(h, h') && CidsOwned(h)
    ensures CidsOwned(h')
  {
    assert forall q, c :: q in h'.states && c in h'.states[q].outstanding ==> c in h.states[q].outstanding;
  }

  /** Operations that touch no index. */
  lemma SameIndexes(h: Handler, h': Handler)
    requires SameIndexing(h, h')
    ensures Indexed(h') <==> Indexed(h)
  {
    hide Indexed;
    if Indexed(h) {
      SameIndexesOneWay(h, h');
    }
    if Indexed(h') {
      SameIndexesOneWay(h', h);
    }
  }

  lemma BindKeepsIndexes(h: Handler, p: Product, cid: Cid, no: OrderNo)
    requires Indexed(h) && p in h.states && cid in h.cidProduct && h.cidProduct[cid] == p
    requires BindOk(h, p, cid, no)
    ensures Indexed(Bind(h, p, cid, no))
  {
    hide Indexed;
    IndexedLocally(h, p);
    if no != "" {
      hide LocallyIndexed, OnlyProductChanged, Bind, BindOk;
      BindStaysLocal(h, p, cid, no);
      BindTouchesOneProduct(h, p, cid, no);
      ReplaceOneProduct(h, p, Bind(h, p, cid, no));
    }
  }

  lemma BindStaysLocal(h: Handler, p: Product, cid: Cid, no: OrderNo)
    requires p in h.states && LocallyIndexed(h, p) && no != "" && BindOk(h, p, cid, no)
    requires cid in h.cidProduct && h.cidProduct[cid] == p
    ensures LocallyIndexed(Bind(h, p, cid, no), p)
  {
    hide Inverse;
    BindStaysInverse(h.states[p], cid, no);
    BindStaysRouted(h, p, cid, no);
    var st, b := h.states[p], Bind(h, p, cid, no);
    assert b.states[p].outstanding == st.outstanding && b.states[p].cidToNo == st.cidToNo[cid := no];
    assert forall c :: RoutedTo(b, c, p) <==> RoutedTo(h, c, p);
  }

  lemma BindStaysRouted(h: Handler, p: Product, cid: Cid, no: OrderNo)
    requires p in h.states && LocallyIndexed(h, p) && no != ""
    ensures var b := Bind(h, p, cid, no);
      NumbersHaveProducts(b) && CidsIssued(b) && forall n :: n in b.states[p].noToCid <==> NumberOf(b, n, p)
  {
    hide Inverse;
  }

  lemma BindTouchesOneProduct(h: Handler, p: Product, cid: Cid, no: OrderNo)
    requires p in h.states && no != "" && BindOk(h, p, cid, no)
    ensures OnlyProductChanged(h, p, Bind(h, p, cid, no))
  {
  }

  lemma BindStaysInverse(st: ProductState, cid: Cid, no: OrderNo)
    requires Inverse(st.cidToNo, st.noToCid) && (cid in st.cidToNo ==> st.cidToNo[cid] == no) && (no in st.noToCid ==> st.noToCid[no] == cid)
    ensures Inverse(st.cidToNo[cid := no], st.noToCid[no := cid])
  {
  }

  lemma BindBreaksIndexes(h: Handler, p: Product, cid: Cid, no: OrderNo)
    requires Indexed(h) && p in h.states && !BindOk(h, p, cid, no)
    ensures !Indexed(Bind(h, p, cid, no))
  {
    var b := Bind(h, p, cid, no);
    var st := h.states[p];
    if cid in st.cidToNo && st.cidToNo[cid] != no {
      assert st.cidToNo[cid] in b.states[p].noToCid;
      assert !Inverse(b.states[p].cidToNo, b.states[p].noToCid);
    } else if no in st.noToCid && st.noToCid[no] != cid {
      assert st.noToCid[no] in b.states[p].cidToNo;
      assert !Inverse(b.states[p].cidToNo, b.states[p].noToCid);
    } else {
      var q := h.noProduct[no];
      assert no in b.states[q].noToCid && b.noProduct[no] == p != q;
      assert !NumbersRouted(b);
    }
  }

  lemma ForgetKeepsIndexes(h: Handler, p: Product, cid: Cid)
    requires Indexed(h) && p in h.states && (cid in h.cidProduct ==> h.cidProduct[cid] == p)
    ensures Indexed(ForgetOrder(h, p, cid))
  {
    hide Indexed;
    hide LocallyIndexed, OnlyProductChanged, ForgetOrder;
    IndexedLocally(h, p);
    ForgetStaysLocal(h, p, cid);
    ForgetTouchesOneProduct(h, p, cid);
    ReplaceOneProduct(h, p, ForgetOrder(h, p, cid));
  }

  lemma ForgetStaysLocal(h: Handler, p: Product, cid: Cid)
    requires p in h.states && LocallyIndexed(h, p)
    ensures LocallyIndexed(ForgetOrder(h, p, cid), p)
  {
    hide Inverse;
    ForgetStaysInverse(h.states[p], cid);
  }

  lemma ForgetTouchesOneProduct(h: Handler, p: Product, cid: Cid)
    requires p in h.states && LocallyIndexed(h, p) && (cid in h.cidProduct ==> h.cidProduct[cid] == p)
    ensures OnlyProductChanged(h, p, ForgetOrder(h, p, cid))
  {
  }

  lemma ForgetStaysInverse(st: ProductState, cid: Cid)
    requires Inverse(st.cidToNo, st.noToCid)
    ensures Inverse(st.cidToNo - {cid}, st.noToCid - if cid in st.cidToNo then {st.cidToNo[cid]} else {})
  {
  }

  lemma StopWaitingSameIndexes(h: Handler, p: Product, cid: Cid, place: bool, cancel: bool)
    requires p in h.states
    ensures Indexed(StopWaiting(h, p, cid, place, cancel)) <==> Indexed(h)
  {
    hide Indexed;
    SameIndexes(h, StopWaiting(h, p, cid, place, cancel));
  }

  lemma ReserveKeepsIndexes(h: Handler, p: Product, now: int)
    requires Indexed(h) && p in h.states && now >= 0
    ensures Indexed(ReserveCid(h, p, now).0)
    ensures var cid := ReserveCid(h, p, now).1; cid > h.lastCid && cid !in h.cidProduct
  {
    hide Indexed, LocallyIndexed, OnlyProductChanged;
    var (h1, cid) := ReserveCid(h, p, now);
    IndexedLocally(h, p);
    ReserveStaysLocal(h, p, now);
    ReplaceOneProduct(h, p, h1);
  }

  lemma ReserveStaysLocal(h: Handler, p: Product, now: int)
    requires p in h.states && now >= 0 && LocallyIndexed(h, p)
    ensures LocallyIndexed(ReserveCid(h, p, now).0, p) && OnlyProductChanged(h, p, ReserveCid(h, p, now).0)
    ensures ReserveCid(h, p, now).1 !in h.cidProduct
  {
    hide Inverse;
  }

  lemma RecordKeepsIndexes(h: Handler, p: Product, cid: Cid, order: Order)
    requires Indexed(h) && p in h.states && cid in h.cidProduct && h.cidProduct[cid] == p
    ensures Indexed(Record(h, p, cid, order))
  {
    hide Indexed, Inverse;
    IndexedLocally(h, p);
    ReplaceOneProduct(h, p, Record(h, p, cid, order));
  }

  lemma FillKeepsIndexes(h: Handler, p: Product, cid: Cid, lots: nat)
    requires Indexed(h) && p in h.states && (cid in h.cidProduct ==> h.cidProduct[cid] == p)
    ensures Indexed(Fill(h, p, cid, lots))
  {
    hide StopWaiting, ForgetOrder, Record, Indexed;
    ForgetKeepsIndexes(h, p, cid);
    StopWaitingSameIndexes(ForgetOrder(h, p, cid), p, cid, true, true);
    IndexedLocally(h, p);
    if cid in h.states[p].outstanding {
      RecordKeepsIndexes(h, p, cid, h.states[p].outstanding[cid].(qty := h.states[p].outstanding[cid].qty - lots));
    }
  }

  lemma RouteFollowsIndexes(h: Handler, product: Product, d: Execution)
    requires Indexed(h)
    ensures var r := Route(h, product, d);
      && (r.Routed? && r.cid.Some? ==> r.cid.value in h.cidProduct && h.cidProduct[r.cid.value] == r.product)
      && (r.Routed? && r.cid.None? ==> d.orderNo !in h.noProduct)
  {
  }

  lemma AdoptKeepsIndexes(h: Handler, p: Product, d: Execution, now: int)
    requires Indexed(h) && p in h.states && now >= 0 && d.orderNo !in h.noProduct
    ensures Indexed(Adopt(h, p, d, now))
  {
    var (h1, cid) := ReserveCid(h, p, now);
    hide Indexed, Inverse;
    ReserveKeepsIndexes(h, p, now);
    RecordKeepsIndexes(h1, p, cid, Order(d.orderPrice, d.orderLots, d.isBid));
    var h2 := Record(h1, p, cid, Order(d.orderPrice, d.orderLots, d.isBid));
    IndexedLocally(h, p);
    assert BindOk(h2, p, cid, d.orderNo);
    BindKeepsIndexes(h2, p, cid, d.orderNo);
  }

  predicate IsAccept(d: Execution) {
    d.isAcceptData && !d.isRejected && !d.isCancel && d.isPlace && d.isAccepted
  }

  /** An execution keeps the indexes consistent, except an acceptance of a known order, which
      does so exactly when its number and that order belong together. */
  lemma ExecutionKeepsIndexesIff(h: Handler, product: Product, d: Execution, now: int)
    requires Indexed(h) && now >= 0 && d.executeLots >= 0
    ensures var r := Route(h, product, d);
      Indexed(OnExecution(h, product, d, now)) <==>
        (IsAccept(d) && r.Routed? && r.cid.Some? ==> BindOk(h, r.product, r.cid.value, d.orderNo))
  {
    hide Route, Bind, ForgetOrder, StopWaiting, Fill, Adopt, Indexed, BindOk;
    RouteFollowsIndexes(h, product, d);
    match Route(h, product, d)
    case Ignored =>
    case Routed(p, cid) =>
      if cid.Some? {
        var c := cid.value;
        ForgetKeepsIndexes(h, p, c);
        StopWaitingSameIndexes(ForgetOrder(h, p, c), p, c, true, true);
        StopWaitingSameIndexes(ForgetOrder(h, p, c), p, c, false, true);
        FillKeepsIndexes(h, p, c, d.executeLots);
        PositionSameIndexes(Fill(h, p, c, d.executeLots), p);
        BindKeepsIndexesIff(h, p, c, d.orderNo);
        StopWaitingSameIndexes(Bind(h, p, c, d.orderNo), p, c, true, false);
      } else {
        AdoptKeepsIndexes(h, p, d, now);
        PositionSameIndexes(h, p);
      }
  }

  lemma PositionSameIndexes(h: Handler, p: Product)
    requires p in h.states
    ensures forall position :: Indexed(h.With(p, h.states[p].(position := position))) <==> Indexed(h)
  {
    forall position
      ensures Indexed(h.With(p, h.states[p].(position := position))) <==> Indexed(h)
    {
      SameIndexes(h, h.With(p, h.states[p].(position := position)));
    }
  }

  /** A gateway reply likewise: only one that binds can break the indexes. */
  lemma ResponseKeepsIndexesIff(h: Handler, r: Response)
    requires Indexed(h)
    ensures CidsRouted(h)
    ensures Indexed(OnOrderResponse(h, r)) <==>
      (r.cid in h.cidProduct && r.success && r.cid !in h.states[h.cidProduct[r.cid]].waitCancel ==>
         BindOk(h, h.cidProduct[r.cid], r.cid, r.orderNo))
  {
    hide Bind, ForgetOrder, Inverse, NumbersRouted, BindOk;
    if r.cid in h.cidProduct {
      var p := h.cidProduct[r.cid];
      var h1 := StopWaiting(h, p, r.cid, true, true);
      StopWaitingSameIndexes(h, p, r.cid, true, true);
      ForgetKeepsIndexes(h1, p, r.cid);
      BindKeepsIndexesIff(h1, p, r.cid, r.orderNo);
      StopWaitingSameBinding(h, p, r.cid, r.orderNo);
    }
  }

  lemma StopWaitingSameBinding(h: Handler, p: Product, cid: Cid, no: OrderNo)
    requires p in h.states
    ensures BindOk(StopWaiting(h, p, cid, true, true), p, cid, no) <==> BindOk(h, p, cid, no)
  {
  }

  lemma CancelKeepsIndexes(h: Handler, p: Product, cid: Cid, now: int)
    requires Indexed(h) && p in h.states
    ensures Indexed(SubmitCancel(h, p, cid, now).handler)
  {
    hide Indexed;
    SameIndexes(h, SubmitCancel(h, p, cid, now).handler);
  }

  lemma MarkPlaceSameIndexes(h: Handler, p: Product, cid: Cid, now: int)
    requires p in h.states
    ensures Indexed(h.With(p, h.states[p].MarkPlace(cid, now))) <==> Indexed(h)
  {
    hide Indexed;
    SameIndexes(h, h.With(p, h.states[p].MarkPlace(cid, now)));
  }

  lemma PlaceKeepsIndexes(h: Handler, p: Product, isBid: bool, price: int, qty: int, isLimit: bool, reduceOnly: bool, now: int)
    requires Indexed(h) && p in h.states && now >= 0
    ensures Indexed(SubmitPlace(h, p, isBid, price, qty, isLimit, reduceOnly, now).handler)
  {
    hide Indexed, SnapTo, Record;
    var (h1, cid) := ReserveCid(h, p, now);
    ReserveKeepsIndexes(h, p, now);
    RecordKeepsIndexes(h1, p, cid, Order(price, qty, isBid));
    var h2 := if isLimit then Record(h1, p, cid, Order(price, qty, isBid)) else h1;
    var s := SubmitPlace(h, p, isBid, price, qty, isLimit, reduceOnly, now).handler;
    if s != h {
      MarkPlaceSameIndexes(h2, p, cid, now);
    }
  }

  lemma {:induction false} CancelsKeepIndexes(h: Handler, p: Product, cids: seq<Cid>, now: int)
    requires Indexed(h) && p in h.states
    ensures Indexed(SubmitCancels(h, p, cids, now).handler)
  {
    if |cids| > 0 {
      var n := |cids| - 1;
      CancelsKeepIndexes(h, p, cids[..n], now);
      CancelKeepsIndexes(SubmitCancels(h, p, cids[..n], now).handler, p, cids[n], now);
    }
  }

  lemma {:induction false} PlacesKeepIndexes(h: Handler, p: Product, isBid: bool, quotes: seq<Quote>, now: int)
    requires Indexed(h) && p in h.states && now >= 0
    ensures Indexed(SubmitPlaces(h, p, isBid, quotes, now).handler)
  {
    if |quotes| > 0 {
      var n := |quotes| - 1;
      PlacesKeepIndexes(h, p, isBid, quotes[..n], now);
      PlaceKeepsIndexes(SubmitPlaces(h, p, isBid, quotes[..n], now).handler, p, isBid, quotes[n].price, quotes[n].qty, true, false, now);
    }
  }

  /** A decision keeps the indexes consistent whatever it cancels and places. */
  lemma UpdateOrdersKeepsIndexes(h: Handler, cfg: Config, p: Product, liquidate: bool, now: int)
    requires Indexed(h) && now >= 0
    ensures Indexed(UpdateOrders(h, cfg, p, liquidate, now).handler)
  {
    hide Indexed, Send, DecideFor;
    if ReadyToDecide(h, p, liquidate) {
      ClearWaitsKeepsIndexes(h, p);
      var h1 := if h.states[p].NoWaiting() then h else ClearWaits(h, p);
      var decision := DecideFor(h1.states[p], cfg, liquidate, now);
      if decision.Some? {
        SendKeepsIndexes(h1, p, decision.value, now);
      }
    }
  }

  lemma ClearWaitsKeepsIndexes(h: Handler, p: Product)
    requires Indexed(h) && p in h.states
    ensures Indexed(ClearWaits(h, p))
  {
    hide Indexed;
    SameIndexes(h, ClearWaits(h, p));
  }

  lemma SendKeepsIndexes(h: Handler, p: Product, d: Pairing, now: int)
    requires Indexed(h) && p in h.states && now >= 0
    ensures Indexed(Send(h, p, d, now).handler)
  {
    var s1 := SubmitCancels(h, p, d.bidCancels, now);
    var s2 := SubmitCancels(s1.handler, p, d.askCancels, now);
    var s3 := SubmitPlaces(s2.handler, p, true, d.bids, now);
    CancelsKeepIndexes(h, p, d.bidCancels, now);
    CancelsKeepIndexes(s1.handler, p, d.askCancels, now);
    PlacesKeepIndexes(s2.handler, p, true, d.bids, now);
    PlacesKeepIndexes(s3.handler, p, false, d.asks, now);
  }
}
