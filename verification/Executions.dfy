/** What one message of the execution feed, and one gateway reply, does to the orders and positions
    of every product. */
module Executions {
  import opened Optional
  import opened Strategy
  import opened HandlerModel
  import opened IndexInvariant

  // ---- whose order a message is about ----

  /** The message carries a cid of this session. */
  ghost predicate NamesCid(h: Handler, d: Execution, p: Product, c: Cid) {
    d.clientCid == Some(c) && RoutedTo(h, c, p)
  }

  /** It carries none, and its order number is bound to `c`. */
  ghost predicate NamesNumber(h: Handler, d: Execution, p: Product, c: Cid) {
    && (d.clientCid.Some? ==> d.clientCid.value !in h.cidProduct)
    && p in h.states && d.orderNo in h.states[p].noToCid && h.states[p].noToCid[d.orderNo] == c
  }

  /** The message is about order `c` of `p`. */
  ghost predicate Names(h: Handler, d: Execution, p: Product, c: Cid) {
    NamesCid(h, d, p, c) || NamesNumber(h, d, p, c)
  }

  /** Neither its client id nor its number is known. */
  ghost predicate NamesNothing(h: Handler, d: Execution) {
    (d.clientCid.Some? ==> d.clientCid.value !in h.cidProduct) && d.orderNo !in h.noProduct
  }

  /** A message is about one order or about none this handler knows, never both. */
  lemma NamesOneOrNothing(h: Handler, d: Execution)
    requires Indexed(h)
    ensures NamesNothing(h, d) <==> forall p, c :: !Names(h, d, p, c)
    ensures forall p, c, q, e :: Names(h, d, p, c) && Names(h, d, q, e) ==> p == q && c == e
  {
    hide Inverse;
    forall p, c | Names(h, d, p, c)
      ensures !NamesNothing(h, d)
      ensures NamesNumber(h, d, p, c) ==> NumberOf(h, d.orderNo, p)
    {
    }
    if !NamesNothing(h, d) {
      if d.clientCid.Some? && d.clientCid.value in h.cidProduct {
        assert Names(h, d, h.cidProduct[d.clientCid.value], d.clientCid.value);
      } else {
        var p := h.noProduct[d.orderNo];
        assert NumberOf(h, d.orderNo, p) && p in h.states;
        assert Names(h, d, p, h.states[p].noToCid[d.orderNo]);
      }
    }
  }

  lemma RouteOfNamed(h: Handler, product: Product, d: Execution, p: Product, c: Cid)
    requires Indexed(h) && p in h.states && Names(h, d, p, c)
    ensures Route(h, product, d) == Routed(p, Some(c)) && RoutedTo(h, c, p)
  {
    hide Inverse;
    if NamesNumber(h, d, p, c) {
      assert NumberOf(h, d.orderNo, p);
      NumberOwned(h, p, d.orderNo);
    }
  }

  lemma NumberOwned(h: Handler, p: Product, no: OrderNo)
    requires Indexed(h) && p in h.states && no in h.states[p].noToCid
    ensures RoutedTo(h, h.states[p].noToCid[no], p)
  {
  }

  lemma RouteOfUnnamed(h: Handler, product: Product, d: Execution)
    requires Indexed(h) && NamesNothing(h, d)
    ensures Route(h, product, d) == if product in h.states then Routed(product, None) else Ignored
  {
    hide Inverse;
    assert product in h.states && d.orderNo in h.states[product].noToCid ==> NumberOf(h, d.orderNo, product);
  }

  // ---- what changes ----

  /** Every other product, and the links, are as they were. */
  ghost predicate OthersAsBefore(h: Handler, h': Handler, p: Product) {
    && h'.states.Keys == h.states.Keys && (forall q :: q in h.states && q != p ==> h'.states[q] == h.states[q])
    && h'.listenerConnected == h.listenerConnected && h'.shuttingDown == h.shuttingDown
  }

  /** The market data of a product. */
  ghost predicate SameFeeds(st: ProductState, st': ProductState) {
    st'.tick == st.tick && st'.lot == st.lot && st'.bbid == st.bbid && st'.bask == st.bask && st'.fair == st.fair
  }

  /** The order's number, and only that, is no longer bound. */
  ghost predicate Unnumbered(h: Handler, h': Handler, p: Product, c: Cid)
    requires p in h.states && p in h'.states
  {
    var st, st' := h.states[p], h'.states[p];
    && st'.cidToNo == st.cidToNo - {c}
    && (forall n :: n in st'.noToCid <==> n in st.noToCid && st.noToCid[n] != c)
    && (forall n :: n in st'.noToCid ==> st'.noToCid[n] == st.noToCid[n])
    && (forall n :: n in h'.noProduct <==> n in h.noProduct && !(c in st.cidToNo && st.cidToNo[c] == n))
    && (forall n :: n in h'.noProduct ==> h'.noProduct[n] == h.noProduct[n])
  }

  /** The order is in no map and no wait any more, but possibly the wait for its place reply. */
  ghost predicate Gone(h: Handler, h': Handler, p: Product, c: Cid, placeWaitToo: bool) {
    && p in h.states && OthersAsBefore(h, h', p) && SameFeeds(h.states[p], h'.states[p])
    && h'.cidProduct == h.cidProduct - {c} && h'.lastCid == h.lastCid && Unnumbered(h, h', p, c)
    && var st, st' := h.states[p], h'.states[p];
       && st'.outstanding == st.outstanding - {c} && st'.waitCancel == st.waitCancel - {c}
       && st'.waitPlace == (if placeWaitToo then st.waitPlace - {c} else st.waitPlace)
       && st'.waitingSince == (if st'.NoWaiting() then 0 else st.waitingSince)
  }

  /** The number is bound to the order. */
  ghost predicate BoundTo(h: Handler, h': Handler, p: Product, c: Cid, no: OrderNo) {
    && p in h.states && p in h'.states
    && var st, st' := h.states[p], h'.states[p];
       if no == "" then st'.cidToNo == st.cidToNo && st'.noToCid == st.noToCid && h'.noProduct == h.noProduct
       else st'.cidToNo == st.cidToNo[c := no] && st'.noToCid == st.noToCid[no := c] && h'.noProduct == h.noProduct[no := p]
  }

  lemma ForgottenIsGone(h: Handler, p: Product, c: Cid, place: bool)
    requires Indexed(h) && p in h.states
    ensures Gone(h, StopWaiting(ForgetOrder(h, p, c), p, c, place, true), p, c, place)
    ensures h.states[p].position == StopWaiting(ForgetOrder(h, p, c), p, c, place, true).states[p].position
  {
    ForgottenIsUnnumbered(h, p, c, place);
    hide Indexed, Unnumbered;
  }

  lemma ForgottenIsUnnumbered(h: Handler, p: Product, c: Cid, place: bool)
    requires Indexed(h) && p in h.states
    ensures Unnumbered(h, StopWaiting(ForgetOrder(h, p, c), p, c, place, true), p, c)
  {
    assert Inverse(h.states[p].cidToNo, h.states[p].noToCid);
    hide Indexed;
    ForgottenNumbers(h, p, c, place);
    hide ForgetOrder, StopWaiting;
    RemovedNumber(h, StopWaiting(ForgetOrder(h, p, c), p, c, place, true), p, c);
  }

  function NumbersOf(st: ProductState, c: Cid): set<OrderNo> { if c in st.cidToNo then {st.cidToNo[c]} else {} }

  lemma ForgottenNumbers(h: Handler, p: Product, c: Cid, place: bool)
    requires p in h.states
    ensures var h' := StopWaiting(ForgetOrder(h, p, c), p, c, place, true);
      var st, st' := h.states[p], h'.states[p];
      st'.cidToNo == st.cidToNo - {c} && st'.noToCid == st.noToCid - NumbersOf(st, c) && h'.noProduct == h.noProduct - NumbersOf(st, c)
  {
  }

  lemma RemovedNumber(h: Handler, h': Handler, p: Product, c: Cid)
    requires p in h.states && p in h'.states
    requires var st, st' := h.states[p], h'.states[p];
      && Inverse(st.cidToNo, st.noToCid) && st'.cidToNo == st.cidToNo - {c}
      && st'.noToCid == st.noToCid - NumbersOf(st, c) && h'.noProduct == h.noProduct - NumbersOf(st, c)
    ensures Unnumbered(h, h', p, c)
  {
  }

  /** Binding touches the number maps alone. */
  lemma BindBinds(h: Handler, p: Product, c: Cid, no: OrderNo)
    requires p in h.states
    ensures var b := Bind(h, p, c, no);
      && BoundTo(h, b, p, c, no) && OthersAsBefore(h, b, p) && b.cidProduct == h.cidProduct && b.lastCid == h.lastCid
      && b.states[p] == h.states[p].(cidToNo := b.states[p].cidToNo, noToCid := b.states[p].noToCid)
  {
  }

  /** Ending the waits on a cid touches the waits alone. */
  lemma StopStops(h: Handler, p: Product, c: Cid, cancelToo: bool)
    requires p in h.states
    ensures var b := StopWaiting(h, p, c, true, cancelToo);
      && OthersAsBefore(h, b, p) && b.cidProduct == h.cidProduct && b.noProduct == h.noProduct && b.lastCid == h.lastCid
      && b.states[p] == h.states[p].(waitPlace := h.states[p].waitPlace - {c},
           waitCancel := if cancelToo then h.states[p].waitCancel - {c} else h.states[p].waitCancel).ClearIfIdle()
  {
  }

  // ---- messages about known orders ----

  /** A rejection and a cancellation drop the order; the latter leaves a wait for its place reply. */
  lemma EndReportDrops(h: Handler, product: Product, d: Execution, now: int, p: Product, c: Cid)
    requires Indexed(h) && now >= 0 && p in h.states && Names(h, d, p, c)
    requires d.isAcceptData && (d.isRejected || d.isCancel)
    ensures var h' := OnExecution(h, product, d, now);
      Gone(h, h', p, c, d.isRejected) && h'.states[p].position == h.states[p].position
  {
    hide Route, ForgetOrder, StopWaiting, Indexed, Names, Gone;
    RouteOfNamed(h, product, d, p, c);
    ForgottenIsGone(h, p, c, d.isRejected);
  }

  /** An acceptance binds the number and ends the wait for the place reply, and that is all. */
  lemma AcceptanceBinds(h: Handler, product: Product, d: Execution, now: int, p: Product, c: Cid)
    requires Indexed(h) && now >= 0 && p in h.states && Names(h, d, p, c) && IsAccept(d)
    ensures var h' := OnExecution(h, product, d, now);
      && OthersAsBefore(h, h', p) && BoundTo(h, h', p, c, d.orderNo) && h'.cidProduct == h.cidProduct && h'.lastCid == h.lastCid
      && var st, st' := h.states[p], h'.states[p];
         && SameFeeds(st, st') && st'.position == st.position && st'.outstanding == st.outstanding
         && st'.waitPlace == st.waitPlace - {c} && st'.waitCancel == st.waitCancel
         && st'.waitingSince == if st'.NoWaiting() then 0 else st.waitingSince
  {
    RouteOfNamed(h, product, d, p, c);
    BindBinds(h, p, c, d.orderNo);
    StopStops(Bind(h, p, c, d.orderNo), p, c, false);
    hide Route, Indexed, Names, Bind, StopWaiting;
  }

  predicate IsFill(d: Execution) { !d.isAcceptData && d.isExecuted && d.executeQtyPositive }

  /** How a fill moves the position: by its lots, up for a bid and down for an ask, where the feed
      says that fills count. */
  function Moved(d: Execution): int {
    if !d.updatePositionOnFill then 0 else if d.isBid then d.executeLots else -d.executeLots
  }

  function RecordedLots(st: ProductState, c: Cid): int { if c in st.outstanding then st.outstanding[c].qty else 0 }

  /** The order has `left` lots left, or is gone, and the position moved by `moved`. */
  ghost predicate TakenOff(h: Handler, h': Handler, p: Product, c: Cid, left: int, moved: int) {
    && p in h.states && OthersAsBefore(h, h', p) && h'.states[p].position == h.states[p].position + moved
    && (left <= 0 ==> Gone(h, h', p, c, true))
    && (left > 0 && c in h.states[p].outstanding ==>
          && h'.cidProduct == h.cidProduct && h'.noProduct == h.noProduct && h'.lastCid == h.lastCid
          && h'.states[p] == h.states[p].(position := h'.states[p].position,
               outstanding := h.states[p].outstanding[c := h.states[p].outstanding[c].(qty := left)]))
  }

  /** A fill takes its lots off the order, which goes when nothing is left of it, and moves the
      position of the order's product, whatever product the message came with. */
  lemma FillTakesLots(h: Handler, product: Product, d: Execution, now: int, p: Product, c: Cid)
    requires Indexed(h) && now >= 0 && p in h.states && Names(h, d, p, c) && IsFill(d)
    ensures TakenOff(h, OnExecution(h, product, d, now), p, c, RecordedLots(h.states[p], c) - d.executeLots, Moved(d))
  {
    hide OnExecution, Fill, Indexed, Names, TakenOff, RecordedLots;
    FillLeaves(h, p, c, d.executeLots);
    FillIs(h, product, d, now, p, c);
    MoveKeepsTaken(h, Fill(h, p, c, d.executeLots), p, c, RecordedLots(h.states[p], c) - d.executeLots, Moved(d));
  }

  lemma MoveKeepsTaken(h: Handler, h1: Handler, p: Product, c: Cid, left: int, moved: int)
    requires TakenOff(h, h1, p, c, left, 0)
    ensures TakenOff(h, h1.With(p, h1.states[p].(position := h1.states[p].position + moved)), p, c, left, moved)
  {
    hide Gone;
    if left <= 0 {
      MoveKeepsGone(h, h1, p, c, h1.states[p].position + moved);
    }
  }

  lemma FillIs(h: Handler, product: Product, d: Execution, now: int, p: Product, c: Cid)
    requires Indexed(h) && now >= 0 && p in h.states && Names(h, d, p, c) && IsFill(d)
    ensures var h1 := Fill(h, p, c, d.executeLots);
      OnExecution(h, product, d, now) == h1.With(p, h1.states[p].(position := h1.states[p].position + Moved(d)))
  {
    RouteOfNamed(h, product, d, p, c);
    hide Route, Fill, Indexed, Names;
    var h1 := Fill(h, p, c, d.executeLots);
    assert h1.With(p, h1.states[p].(position := h1.states[p].position)) == h1;
  }

  lemma FillLeaves(h: Handler, p: Product, c: Cid, lots: int)
    requires Indexed(h) && p in h.states
    ensures TakenOff(h, Fill(h, p, c, lots), p, c, RecordedLots(h.states[p], c) - lots, 0)
  {
    ForgottenIsGone(h, p, c, true);
    hide Indexed, ForgetOrder, StopWaiting, Unnumbered;
  }

  lemma MoveKeepsGone(h: Handler, h1: Handler, p: Product, c: Cid, position: int)
    requires Gone(h, h1, p, c, true)
    ensures Gone(h, h1.With(p, h1.states[p].(position := position)), p, c, true)
  {
  }

  // ---- messages about unknown orders ----

  /** An acceptance of an order nobody here knows, on a traded product, with a positive size: it is
      adopted under a fresh cid, as reported, and bound to its number. */
  lemma UnknownAcceptanceAdopts(h: Handler, p: Product, d: Execution, now: int)
    requires Indexed(h) && now >= 0 && p in h.states && NamesNothing(h, d) && IsAccept(d) && d.orderQtyPositive
    ensures var h' := OnExecution(h, p, d, now);
      var c := h'.lastCid;
      && c > h.lastCid && c >= now && c !in h.cidProduct && c !in h.states[p].outstanding
      && h'.cidProduct == h.cidProduct[c := p] && OthersAsBefore(h, h', p) && BoundTo(h, h', p, c, d.orderNo)
      && h'.states[p] == h.states[p].(outstanding := h.states[p].outstanding[c := Order(d.orderPrice, d.orderLots, d.isBid)],
           cidToNo := h'.states[p].cidToNo, noToCid := h'.states[p].noToCid)
  {
    RouteOfUnnamed(h, p, d);
    FreshCid(h, p, now);
    hide Indexed, Route, Bind;
    var (h1, c) := ReserveCid(h, p, now);
    BindBinds(Record(h1, p, c, Order(d.orderPrice, d.orderLots, d.isBid)), p, c, d.orderNo);
  }

  lemma FreshCid(h: Handler, p: Product, now: int)
    requires Indexed(h) && now >= 0 && p in h.states
    ensures var c := ReserveCid(h, p, now).1; c > h.lastCid && c >= now && c !in h.cidProduct && c !in h.states[p].outstanding
  {
    IndexedLocally(h, p);
    hide Indexed;
  }

  /** A fill of such an order moves the position of the message's product and nothing else. */
  lemma UnknownFillMovesPosition(h: Handler, p: Product, d: Execution, now: int)
    requires Indexed(h) && now >= 0 && p in h.states && NamesNothing(h, d) && IsFill(d)
    ensures var h' := OnExecution(h, p, d, now);
      h' == h.(states := h.states[p := h.states[p].(position := h.states[p].position + Moved(d))])
  {
    hide Route, Indexed;
    RouteOfUnnamed(h, p, d);
  }

  /** Every other message changes nothing: about an unknown order neither accepted with a size nor
      filled, of a product not traded, or of no kind the handler knows. */
  lemma OtherMessagesChangeNothing(h: Handler, product: Product, d: Execution, now: int)
    requires Indexed(h) && now >= 0
    requires || (NamesNothing(h, d) && (product !in h.states || !(IsFill(d) || (IsAccept(d) && d.orderQtyPositive))))
             || !((d.isAcceptData && (d.isRejected || d.isCancel || IsAccept(d))) || IsFill(d))
    ensures OnExecution(h, product, d, now) == h
  {
    hide Route, Indexed;
    if NamesNothing(h, d) {
      RouteOfUnnamed(h, product, d);
    }
  }

  // ---- replies of the gateway ----

  /** The reply ends both waits on its cid. It drops the order if a cancel was awaited and is done
      or found it gone, or if a place was awaited, no cancel, and it failed. It binds the number if
      it succeeded and no cancel was awaited. Nothing else changes. */
  lemma ReplyEffects(h: Handler, r: Response, p: Product)
    requires Indexed(h) && CidsRouted(h) && p in h.states && RoutedTo(h, r.cid, p)
    ensures var h' := OnOrderResponse(h, r);
      var st := h.states[p];
      var cancelled := r.cid in st.waitCancel && (r.success || r.orderGone);
      var refused := r.cid !in st.waitCancel && r.cid in st.waitPlace && !r.success;
      && h'.states[p].position == st.position && OthersAsBefore(h, h', p)
      && (cancelled || refused ==> Gone(h, h', p, r.cid, true))
      && (!cancelled && !refused ==>
            && BoundTo(h, h', p, r.cid, if r.success then r.orderNo else "")
            && h'.cidProduct == h.cidProduct && h'.lastCid == h.lastCid && SameFeeds(st, h'.states[p])
            && h'.states[p].outstanding == st.outstanding
            && h'.states[p].waitPlace == st.waitPlace - {r.cid} && h'.states[p].waitCancel == st.waitCancel - {r.cid}
            && h'.states[p].waitingSince == if h'.states[p].NoWaiting() then 0 else st.waitingSince)
  {
    ForgottenIsGone(h, p, r.cid, true);
    ForgetAfterStop(h, p, r.cid);
    StopStops(h, p, r.cid, true);
    var h1 := StopWaiting(h, p, r.cid, true, true);
    BindBinds(h1, p, r.cid, r.orderNo);
    hide Indexed, ForgetOrder, Gone, StopWaiting, Bind;
    if r.cid in h.states[p].waitCancel || !r.success {
      assert BoundTo(h, h1, p, r.cid, "");
    }
  }

  lemma ForgetAfterStop(h: Handler, p: Product, c: Cid)
    requires p in h.states
    ensures ForgetOrder(StopWaiting(h, p, c, true, true), p, c) == StopWaiting(ForgetOrder(h, p, c), p, c, true, true)
  {
  }

  lemma UnknownReplyChangesNothing(h: Handler, r: Response)
    requires CidsRouted(h) && r.cid !in h.cidProduct
    ensures OnOrderResponse(h, r) == h
  {
  }
}
