/** What one decision of the order handler leaves behind: how many orders, and, once everything it
    sent has been acknowledged, nothing more to do. */
module DecisionProofs {
  import opened Optional
  import opened Ladders
  import opened Strategy
  import opened StrategyProofs
  import opened HandlerModel
  import opened IndexInvariant

  // ---- iteration order ----

  lemma {:induction false} RestingOrdersLists(m: map<Cid, Order>)
    ensures Lists(RestingOrders(m), m)
    decreases |m|
  {
    if |m| > 0 {
      RestingOrdersLists(m - {Greatest(m.Keys)});
    }
  }

  /** A cid above all others comes last. */
  lemma RestingAppend(m: map<Cid, Order>, c: Cid, o: Order)
    requires forall x :: x in m ==> x < c
    ensures RestingOrders(m[c := o]) == RestingOrders(m) + [Resting(c, o.price, o.qty, o.isBid)]
  {
    var m' := m[c := o];
    assert c in m'.Keys;
    assert Greatest(m'.Keys) == c;
    assert m' - {c} == m;
  }

  /** Removing orders leaves the others in the same order. */
  lemma {:induction false} RestingKept(m: map<Cid, Order>, cancels: set<Cid>)
    ensures RestingOrders(m - cancels) == Kept(RestingOrders(m), cancels)
    decreases |m|
  {
    if |m| == 0 {
      assert m - cancels == m;
    } else {
      RestingLast(m);
      RestingKept(m - {Greatest(m.Keys)}, cancels);
      RestingKeptStep(m, Greatest(m.Keys), cancels);
    }
  }

  lemma RestingKeptStep(m: map<Cid, Order>, last: Cid, cancels: set<Cid>)
    requires last in m && forall x :: x in m ==> x <= last
    requires RestingOrders(m) == RestingOrders(m - {last}) + [Resting(last, m[last].price, m[last].qty, m[last].isBid)]
    requires RestingOrders(m - {last} - cancels) == Kept(RestingOrders(m - {last}), cancels)
    ensures RestingOrders(m - cancels) == Kept(RestingOrders(m), cancels)
  {
    hide RestingOrders, Kept;
    KeptLast(RestingOrders(m - {last}), Resting(last, m[last].price, m[last].qty, m[last].isBid), cancels);
    RemoveMore(m, last, cancels);
    if last !in cancels {
      RestingAppend(m - {last} - cancels, last, m[last]);
    }
  }

  lemma RestingLast(m: map<Cid, Order>)
    requires |m| > 0
    ensures var last := Greatest(m.Keys);
      |m - {last}| < |m| && RestingOrders(m) == RestingOrders(m - {last}) + [Resting(last, m[last].price, m[last].qty, m[last].isBid)]
  {
    assert m.Keys == (m - {Greatest(m.Keys)}).Keys + {Greatest(m.Keys)};
  }

  lemma RemoveMore(m: map<Cid, Order>, c: Cid, cancels: set<Cid>)
    requires c in m
    ensures m - cancels == if c in cancels then m - {c} - cancels else (m - {c} - cancels)[c := m[c]]
  {
  }

  lemma KeptLast(orders: seq<Resting>, o: Resting, cancels: set<Cid>)
    ensures Kept(orders + [o], cancels) == Kept(orders, cancels) + if o.cid in cancels then [] else [o]
  {
    assert (orders + [o])[..|orders|] == orders;
  }

  // ---- what sending leaves behind ----

  ghost predicate SameMarket(st: ProductState, st': ProductState) {
    && st'.tick == st.tick && st'.lot == st.lot && st'.bbid == st.bbid && st'.bask == st.bask
    && st'.fair == st.fair && st'.position == st.position
  }

  ghost predicate SameLinks(h: Handler, h': Handler) {
    h'.listenerConnected == h.listenerConnected && h'.shuttingDown == h.shuttingDown
  }

  ghost predicate SameNumbers(h: Handler, h': Handler, p: Product)
    requires p in h.states && p in h'.states
  {
    h'.noProduct == h.noProduct && h'.states[p].cidToNo == h.states[p].cidToNo
  }

  function Cids(requests: seq<Request>): seq<Cid> {
    seq(|requests|, i requires 0 <= i < |requests| => requests[i].cid)
  }

  /** The orders, numbers and market view of the product, and the links, are as they were. */
  ghost predicate SameButWaits(h: Handler, h': Handler, p: Product) {
    && h'.states.Keys == h.states.Keys && p in h.states && SameLinks(h, h')
    && h'.cidProduct == h.cidProduct && h'.noProduct == h.noProduct && h'.lastCid == h.lastCid
    && var st, st' := h.states[p], h'.states[p];
       && SameMarket(st, st') && st'.outstanding == st.outstanding && st'.cidToNo == st.cidToNo && st'.waitPlace == st.waitPlace
  }

  lemma CancelSent(h: Handler, p: Product, c: Cid, now: int)
    requires p in h.states && c in h.states[p].cidToNo
    ensures var out := SubmitCancel(h, p, c, now);
      && SameButWaits(h, out.handler, p)
      && out.handler.states[p].waitCancel == h.states[p].waitCancel + {c}
      && out.requests == [CancelRequest(p, c, h.states[p].cidToNo[c])]
  {
  }

  lemma ButWaitsThrough(h: Handler, h1: Handler, h2: Handler, p: Product)
    requires SameButWaits(h, h1, p) && SameButWaits(h1, h2, p)
    ensures SameButWaits(h, h2, p)
  {
  }

  lemma ButWaitsNumbers(h: Handler, h': Handler, p: Product)
    requires SameButWaits(h, h', p)
    ensures p in h.states && p in h'.states && h'.states[p].cidToNo == h.states[p].cidToNo
  {
  }

  /** Cancels change nothing but the waits, and each known order gets one request. */
  lemma {:induction false} CancelsSent(h: Handler, p: Product, cids: seq<Cid>, now: int)
    requires p in h.states && forall i :: 0 <= i < |cids| ==> cids[i] in h.states[p].cidToNo
    ensures var out := SubmitCancels(h, p, cids, now);
      && SameButWaits(h, out.handler, p)
      && out.handler.states[p].waitCancel == h.states[p].waitCancel + Elements(cids)
      && |out.requests| == |cids|
      && forall i :: 0 <= i < |cids| ==> out.requests[i] == CancelRequest(p, cids[i], h.states[p].cidToNo[cids[i]])
  {
    if |cids| == 0 {
      assert SameButWaits(h, h, p);
    } else {
      hide SubmitCancel, SameButWaits, Elements;
      ElementsLast(cids);
      var n := |cids| - 1;
      var before := SubmitCancels(h, p, cids[..n], now);
      CancelsSent(h, p, cids[..n], now);
      ButWaitsNumbers(h, before.handler, p);
      CancelSent(before.handler, p, cids[n], now);
      var last := SubmitCancel(before.handler, p, cids[n], now);
      ButWaitsThrough(h, before.handler, last.handler, p);
      OneMoreRequest(p, h.states[p].cidToNo, cids, before.requests);
    }
  }

  lemma OneMoreRequest(p: Product, numbers: map<Cid, OrderNo>, cids: seq<Cid>, requests: seq<Request>)
    requires |cids| > 0 && |requests| == |cids| - 1 && forall i :: 0 <= i < |cids| ==> cids[i] in numbers
    requires forall i :: 0 <= i < |requests| ==> requests[i] == CancelRequest(p, cids[i], numbers[cids[i]])
    ensures var c := cids[|cids| - 1]; var all := requests + [CancelRequest(p, c, numbers[c])];
      |all| == |cids| && forall i :: 0 <= i < |cids| ==> all[i] == CancelRequest(p, cids[i], numbers[cids[i]])
  {
  }

  /** The order goes out: its size and its price stay positive on the product's grid. */
  predicate Placeable(st: ProductState, q: Quote) {
    q.qty > 0 && SnapTo(st.lot, q.qty) > 0 && SnapTo(st.tick, q.price) > 0
  }

  /** One order placed: a fresh cid, recorded as asked for. */
  lemma PlaceSent(h: Handler, p: Product, isBid: bool, q: Quote, now: int)
    requires p in h.states && now >= 0 && Placeable(h.states[p], q)
    ensures var out := SubmitPlace(h, p, isBid, q.price, q.qty, true, false, now);
      && |out.requests| == 1 && out.requests[0].PlaceRequest? && out.requests[0].product == p
      && var c := out.requests[0].cid;
         && c > h.lastCid && out.handler.lastCid == c
         && out.handler.states.Keys == h.states.Keys
         && var st, st' := h.states[p], out.handler.states[p];
            && SameMarket(st, st') && SameLinks(h, out.handler)
            && st'.outstanding == st.outstanding[c := Order(q.price, q.qty, isBid)]
            && st'.waitPlace == st.waitPlace + {c} && st'.waitCancel == st.waitCancel
            && out.handler.cidProduct == h.cidProduct[c := p] && SameNumbers(h, out.handler, p)
  {
    hide SnapTo;
  }

  ghost predicate OutstandingIssued(h: Handler, p: Product)
    requires p in h.states
  {
    forall c :: c in h.states[p].outstanding ==> c <= h.lastCid
  }

  /** Fresh cids were issued for orders of `p`; nothing about earlier cids changed. */
  ghost predicate Issued(h: Handler, h': Handler, p: Product) {
    && p in h.states && h'.states.Keys == h.states.Keys && SameLinks(h, h') && SameMarket(h.states[p], h'.states[p])
    && h'.states[p].waitCancel == h.states[p].waitCancel && SameNumbers(h, h', p)
    && h'.lastCid >= h.lastCid
    && (forall c :: c <= h.lastCid && c in h.cidProduct ==> c in h'.cidProduct && h'.cidProduct[c] == h.cidProduct[c])
  }

  lemma IssuedMore(h: Handler, h1: Handler, h2: Handler, p: Product, c: Cid)
    requires Issued(h, h1, p) && c > h1.lastCid && h2.lastCid == c && h2.states.Keys == h1.states.Keys
    requires SameLinks(h1, h2) && SameMarket(h1.states[p], h2.states[p]) && SameNumbers(h1, h2, p)
    requires h2.cidProduct == h1.cidProduct[c := p]
    requires h2.states[p].waitCancel == h1.states[p].waitCancel && h2.states[p].waitPlace == h1.states[p].waitPlace + {c}
    ensures Issued(h, h2, p) && h1.lastCid >= h.lastCid
  {
  }

  /** Every cid in `cids` is above `low` and below the ones after it. */
  ghost predicate Ascending(cids: seq<Cid>, low: Cid) {
    && (forall i :: 0 <= i < |cids| ==> cids[i] > low)
    && (forall i, j :: 0 <= i < j < |cids| ==> cids[i] < cids[j])
  }

  /** `cids` were issued for `p`, in order, and are waited for. */
  ghost predicate FreshCids(h: Handler, h': Handler, p: Product, cids: seq<Cid>) {
    && p in h.states && p in h'.states
    && Ascending(cids, h.lastCid)
    && (forall c :: c in cids ==> c <= h'.lastCid && RoutedTo(h', c, p))
    && h'.states[p].waitPlace == h.states[p].waitPlace + Elements(cids)
  }

  ghost predicate PlacesFor(requests: seq<Request>, p: Product) {
    forall i :: 0 <= i < |requests| ==> requests[i].PlaceRequest? && requests[i].product == p
  }

  /** New orders rest behind the old ones, in the order they were placed, as they were asked for. */
  ghost predicate PlacedBehind(h: Handler, out: Outcome, p: Product, isBid: bool, quotes: seq<Quote>) {
    && Issued(h, out.handler, p) && OutstandingIssued(out.handler, p)
    && |out.requests| == |quotes| && PlacesFor(out.requests, p) && FreshCids(h, out.handler, p, Cids(out.requests))
    && RestingOrders(out.handler.states[p].outstanding) == RestingOrders(h.states[p].outstanding) + Placed(quotes, Cids(out.requests), isBid)
  }

  lemma {:induction false} PlacesSent(h: Handler, p: Product, isBid: bool, quotes: seq<Quote>, now: int)
    requires p in h.states && now >= 0 && OutstandingIssued(h, p)
    requires forall i :: 0 <= i < |quotes| ==> Placeable(h.states[p], quotes[i])
    ensures PlacedBehind(h, SubmitPlaces(h, p, isBid, quotes, now), p, isBid, quotes)
  {
    if |quotes| == 0 {
      NothingPlaced(h, p, isBid, quotes, now);
    } else {
      hide SubmitPlace, Placeable, PlacedBehind;
      var n := |quotes| - 1;
      PlacesSent(h, p, isBid, quotes[..n], now);
      PlacesSentStep(h, SubmitPlaces(h, p, isBid, quotes[..n], now), p, isBid, quotes, now);
    }
  }

  lemma NothingPlaced(h: Handler, p: Product, isBid: bool, quotes: seq<Quote>, now: int)
    requires p in h.states && now >= 0 && |quotes| == 0
    requires OutstandingIssued(h, p)
    ensures PlacedBehind(h, SubmitPlaces(h, p, isBid, quotes, now), p, isBid, quotes)
  {
    assert Placed(quotes, Cids([]), isBid) == [];
    assert Elements(Cids([])) == {};
  }

  lemma PlacesSentStep(h: Handler, before: Outcome, p: Product, isBid: bool, quotes: seq<Quote>, now: int)
    requires p in h.states && now >= 0 && |quotes| > 0 && p in before.handler.states
    requires Placeable(h.states[p], quotes[|quotes| - 1]) && PlacedBehind(h, before, p, isBid, quotes[..|quotes| - 1])
    ensures var q := quotes[|quotes| - 1];
      var last := SubmitPlace(before.handler, p, isBid, q.price, q.qty, true, false, now);
      PlacedBehind(h, Outcome(last.handler, before.requests + last.requests), p, isBid, quotes)
  {
    hide RestingOrders, SubmitPlace, Issued, Placeable, SnapTo, FreshCids, Placed, Cids;
    var q := quotes[|quotes| - 1];
    var h1 := before.handler;
    IssuedKeepsGrid(h, h1, p, q);
    PlaceSent(h1, p, isBid, q, now);
    var last := SubmitPlace(h1, p, isBid, q.price, q.qty, true, false, now);
    var c := last.requests[0].cid;
    assert last.requests == [last.requests[0]];
    IssuedMore(h, h1, last.handler, p, c);
    RestingAppend(h1.states[p].outstanding, c, Order(q.price, q.qty, isBid));
    CidsAppend(before.requests, last.requests[0]);
    PlacedAppend(quotes, Cids(before.requests), c, isBid);
    FreshMore(h, h1, last.handler, p, Cids(before.requests), c);
  }

  lemma AscendingMore(cids: seq<Cid>, low: Cid, c: Cid)
    requires Ascending(cids, low) && c > low && forall x :: x in cids ==> x < c
    ensures Ascending(cids + [c], low)
  {
    forall i | 0 <= i < |cids|
      ensures cids[i] < c
    {
      assert cids[i] in cids;
    }
  }

  lemma FreshMore(h: Handler, h1: Handler, h2: Handler, p: Product, cids: seq<Cid>, c: Cid)
    requires FreshCids(h, h1, p, cids) && h1.lastCid >= h.lastCid && c > h1.lastCid && h2.lastCid == c && p in h2.states
    requires h2.cidProduct == h1.cidProduct[c := p] && h2.states[p].waitPlace == h1.states[p].waitPlace + {c}
    ensures FreshCids(h, h2, p, cids + [c])
  {
    hide Ascending, Elements;
    AscendingMore(cids, h.lastCid, c);
    ElementsLast(cids + [c]);
    assert (cids + [c])[..|cids|] == cids;
  }

  lemma IssuedKeepsGrid(h: Handler, h': Handler, p: Product, q: Quote)
    requires Issued(h, h', p) && Placeable(h.states[p], q)
    ensures Placeable(h'.states[p], q)
  {
    hide SnapTo;
  }

  lemma CidsAppend(requests: seq<Request>, r: Request)
    ensures Cids(requests + [r]) == Cids(requests) + [r.cid] && |Cids(requests)| == |requests|
  {
  }

  lemma PlacedAppend(quotes: seq<Quote>, cids: seq<Cid>, c: Cid, isBid: bool)
    requires |quotes| > 0 && |cids| == |quotes| - 1
    ensures var q := quotes[|quotes| - 1];
      Placed(quotes, cids + [c], isBid) == Placed(quotes[..|quotes| - 1], cids, isBid) + [Resting(c, q.price, q.qty, isBid)]
  {
  }

  // ---- acknowledgements ----

  /** One answer of the venue: the gateway's reply, or a message of the execution feed. */
  datatype Ack = Replied(response: Response) | Reported(product: Product, data: Execution)

  function Deliver(h: Handler, ack: Ack, now: int): (h': Handler)
    requires now >= 0
    ensures h'.states.Keys == h.states.Keys
  {
    match ack
    case Replied(r) => if CidsRouted(h) then OnOrderResponse(h, r) else h
    case Reported(p, d) => OnExecution(h, p, d, now)
  }

  function DeliverAll(h: Handler, acks: seq<Ack>, now: int): (h': Handler)
    requires now >= 0
    ensures h'.states.Keys == h.states.Keys
    decreases |acks|
  {
    if |acks| == 0 then h else Deliver(DeliverAll(h, acks[..|acks| - 1], now), acks[|acks| - 1], now)
  }

  /** The cancel was done, or the order was already gone. */
  predicate AcknowledgesCancel(ack: Ack, c: Cid, no: OrderNo) {
    match ack
    case Replied(r) => r.cid == c && (r.success || r.orderGone)
    case Reported(_, d) => d.clientCid == Some(c) && d.orderNo == no && d.isAcceptData && !d.isRejected && d.isCancel
  }

  /** The order was accepted under the number `no`; a reply need not carry the number. */
  predicate AcknowledgesPlace(ack: Ack, c: Cid, no: OrderNo) {
    match ack
    case Replied(r) => r.cid == c && r.success && (r.orderNo == no || r.orderNo == "")
    case Reported(_, d) => d.clientCid == Some(c) && d.orderNo == no && IsAccept(d)
  }

  /** `numbers` are the numbers the venue gives to the new orders. */
  predicate Acknowledges(ack: Ack, request: Request, numbers: map<Cid, OrderNo>) {
    match request
    case CancelRequest(_, c, no) => AcknowledgesCancel(ack, c, no)
    case PlaceRequest(_, c, _, _, _, _, _, _, _) => c in numbers && AcknowledgesPlace(ack, c, numbers[c])
  }

  function About(ack: Ack): Cid {
    match ack
    case Replied(r) => r.cid
    case Reported(_, d) => if d.clientCid.Some? then d.clientCid.value else 0
  }

  function Heard(acks: seq<Ack>): set<Cid> {
    set i | 0 <= i < |acks| :: About(acks[i])
  }

  /** The orders being cancelled and the orders being placed, by cid, with their numbers. */
  datatype Batch = Batch(cancels: map<Cid, OrderNo>, places: map<Cid, OrderNo>)
  {
    predicate AnsweredBy(ack: Ack) {
      var c := About(ack);
      (c in cancels && AcknowledgesCancel(ack, c, cancels[c])) || (c in places && AcknowledgesPlace(ack, c, places[c]))
    }

    /** The venue numbers its orders uniquely. */
    predicate Numbered() {
      && cancels.Keys !! places.Keys
      && (forall c :: c in places ==> places[c] != "" && places[c] !in cancels.Values)
      && forall c, c' :: c in places && c' in places && c != c' ==> places[c] != places[c']
    }
  }

  /** The cancels already answered are forgotten with their numbers, the others still known. */
  ghost predicate CancelsUnderway(h: Handler, p: Product, cancels: map<Cid, OrderNo>, heard: set<Cid>)
    requires p in h.states
  {
    forall c :: c in cancels ==>
      if c in heard then c !in h.cidProduct && cancels[c] !in h.noProduct
      else RoutedTo(h, c, p) && c in h.states[p].cidToNo && h.states[p].cidToNo[c] == cancels[c]
  }

  ghost predicate PlacesUnderway(h: Handler, p: Product, places: map<Cid, OrderNo>)
    requires p in h.states
  {
    forall c :: c in places ==> RoutedTo(h, c, p) && BindOk(h, p, c, places[c])
  }

  /** From `h0` to `h`, the answers about `heard` took effect and nothing else changed. */
  ghost predicate Effects(h0: Handler, h: Handler, p: Product, cancels: set<Cid>, heard: set<Cid>) {
    && p in h0.states && h.states.Keys == h0.states.Keys && SameLinks(h0, h) && SameMarket(h0.states[p], h.states[p])
    && h.states[p].outstanding == h0.states[p].outstanding - cancels * heard
    && h.states[p].waitPlace == h0.states[p].waitPlace - heard
    && h.states[p].waitCancel == h0.states[p].waitCancel - heard
  }

  ghost predicate Underway(h0: Handler, h: Handler, p: Product, batch: Batch, heard: set<Cid>) {
    && Effects(h0, h, p, batch.cancels.Keys, heard) && Indexed(h)
    && h0.states[p].waitCancel == batch.cancels.Keys && h0.states[p].waitPlace == batch.places.Keys
    && CancelsUnderway(h, p, batch.cancels, heard) && PlacesUnderway(h, p, batch.places)
  }

  lemma RouteKnown(h: Handler, product: Product, d: Execution, p: Product, c: Cid)
    requires d.clientCid == Some(c) && RoutedTo(h, c, p) && p != "" && p in h.states
    ensures Route(h, product, d) == Routed(p, Some(c))
  {
  }

  /** A cid and a number nobody knows. */
  lemma RouteUnknown(h: Handler, product: Product, d: Execution)
    requires Indexed(h) && d.clientCid.Some? && d.clientCid.value !in h.cidProduct && d.orderNo !in h.noProduct
    ensures var r := Route(h, product, d); r.Ignored? || r.cid.None?
  {
    assert forall q :: q in h.states && d.orderNo in h.states[q].noToCid ==> NumberOf(h, d.orderNo, q);
  }

  lemma BindLeaves(h: Handler, p: Product, c: Cid, no: OrderNo)
    requires p in h.states
    ensures var b := Bind(h, p, c, no);
      && SameLinks(h, b) && SameMarket(h.states[p], b.states[p]) && b.cidProduct == h.cidProduct
      && b.states[p].outstanding == h.states[p].outstanding
      && b.states[p].waitPlace == h.states[p].waitPlace && b.states[p].waitCancel == h.states[p].waitCancel
  {
  }

  lemma StopLeaves(h: Handler, p: Product, c: Cid, place: bool, cancel: bool)
    requires p in h.states
    ensures var b := StopWaiting(h, p, c, place, cancel);
      && SameLinks(h, b) && SameMarket(h.states[p], b.states[p]) && b.cidProduct == h.cidProduct
      && b.states[p].outstanding == h.states[p].outstanding
      && b.states[p].waitPlace == (if place then h.states[p].waitPlace - {c} else h.states[p].waitPlace)
      && b.states[p].waitCancel == (if cancel then h.states[p].waitCancel - {c} else h.states[p].waitCancel)
  {
  }

  /** What one place answer does, on either channel. */
  ghost predicate PlaceAcked(h: Handler, h': Handler, p: Product, c: Cid) {
    && p in h.states && h'.states.Keys == h.states.Keys && SameLinks(h, h') && SameMarket(h.states[p], h'.states[p])
    && h'.states[p].outstanding == h.states[p].outstanding
    && h'.states[p].waitPlace == h.states[p].waitPlace - {c} && h'.states[p].waitCancel == h.states[p].waitCancel - {c}
  }

  /** The indexes after a binding, whatever was done to the waits. */
  ghost predicate BoundAs(h: Handler, h': Handler, p: Product, c: Cid, no: OrderNo) {
    && p in h.states && p in h'.states && h'.cidProduct == h.cidProduct
    && if no == "" then SameNumbers(h, h', p) && h'.states[p].noToCid == h.states[p].noToCid
       else && h'.noProduct == h.noProduct[no := p] && h'.states[p].cidToNo == h.states[p].cidToNo[c := no]
            && h'.states[p].noToCid == h.states[p].noToCid[no := c]
  }

  lemma BindsAs(h: Handler, p: Product, c: Cid, no: OrderNo)
    requires p in h.states
    ensures BoundAs(h, StopWaiting(Bind(h, p, c, no), p, c, true, false), p, c, no)
    ensures BoundAs(h, Bind(StopWaiting(h, p, c, true, true), p, c, no), p, c, no)
  {
  }

  lemma BindAcks(h: Handler, p: Product, c: Cid, no: OrderNo)
    requires p in h.states && c !in h.states[p].waitCancel
    ensures PlaceAcked(h, StopWaiting(Bind(h, p, c, no), p, c, true, false), p, c)
    ensures PlaceAcked(h, Bind(StopWaiting(h, p, c, true, true), p, c, no), p, c)
  {
    hide Bind, StopWaiting;
    BindLeaves(h, p, c, no);
    StopLeaves(Bind(h, p, c, no), p, c, true, false);
    StopLeaves(h, p, c, true, true);
    BindLeaves(StopWaiting(h, p, c, true, true), p, c, no);
  }

  lemma BindAcksIndexed(h: Handler, p: Product, c: Cid, no: OrderNo)
    requires Indexed(h) && p in h.states && RoutedTo(h, c, p) && BindOk(h, p, c, no)
    ensures Indexed(StopWaiting(Bind(h, p, c, no), p, c, true, false))
    ensures Indexed(Bind(StopWaiting(h, p, c, true, true), p, c, no))
  {
    hide Indexed, Bind, StopWaiting, BindOk;
    BindKeepsIndexes(h, p, c, no);
    StopWaitingSameIndexes(Bind(h, p, c, no), p, c, true, false);
    StopWaitingSameIndexes(h, p, c, true, true);
    StopLeaves(h, p, c, true, true);
    StopWaitingSameBinding(h, p, c, no);
    BindKeepsIndexes(StopWaiting(h, p, c, true, true), p, c, no);
  }

  /** The answer of a place ends its wait and binds its number. */
  lemma PlaceAckLands(h: Handler, p: Product, ack: Ack, c: Cid, no: OrderNo, now: int) returns (bound: OrderNo)
    requires now >= 0 && Indexed(h) && CidsRouted(h) && p in h.states && p != "" && RoutedTo(h, c, p)
    requires c !in h.states[p].waitCancel && BindOk(h, p, c, no) && AcknowledgesPlace(ack, c, no)
    ensures bound == no || bound == ""
    ensures var h' := Deliver(h, ack, now);
      PlaceAcked(h, h', p, c) && BoundAs(h, h', p, c, bound) && Indexed(h')
  {
    hide Bind, StopWaiting, Route, PlaceAcked, BoundAs, Indexed, CidsRouted;
    bound := if ack.Replied? then ack.response.orderNo else ack.data.orderNo;
    if ack.Reported? {
      RouteKnown(h, ack.product, ack.data, p, c);
    }
    BindsAs(h, p, c, bound);
    BindAcks(h, p, c, bound);
    BindAcksIndexed(h, p, c, bound);
  }

  lemma PlacesStayUnderway(h: Handler, h': Handler, p: Product, batch: Batch, heard: set<Cid>, c: Cid, bound: OrderNo)
    requires p in h.states && batch.Numbered() && c in batch.places && (bound == batch.places[c] || bound == "")
    requires BoundAs(h, h', p, c, bound) && PlacesUnderway(h, p, batch.places) && CancelsUnderway(h, p, batch.cancels, heard)
    ensures PlacesUnderway(h', p, batch.places) && CancelsUnderway(h', p, batch.cancels, heard + {c})
  {
    if bound == "" {
      assert forall x :: x in batch.places && BindOk(h, p, x, batch.places[x]) ==> BindOk(h', p, x, batch.places[x]);
    }
  }

  lemma PlaceEffects(h0: Handler, h: Handler, h': Handler, p: Product, cancels: set<Cid>, heard: set<Cid>, c: Cid)
    requires Effects(h0, h, p, cancels, heard) && PlaceAcked(h, h', p, c) && c !in cancels
    ensures Effects(h0, h', p, cancels, heard + {c})
  {
    assert cancels * (heard + {c}) == cancels * heard;
  }

  /** What the first cancel answer does, on either channel. */
  ghost predicate CancelAcked(h: Handler, h': Handler, p: Product, c: Cid) {
    && p in h.states && h'.states.Keys == h.states.Keys && SameLinks(h, h') && SameMarket(h.states[p], h'.states[p])
    && h'.states[p].outstanding == h.states[p].outstanding - {c}
    && h'.states[p].waitPlace == h.states[p].waitPlace - {c} && h'.states[p].waitCancel == h.states[p].waitCancel - {c}
  }

  ghost predicate Unbound(h: Handler, h': Handler, p: Product, c: Cid) {
    && p in h.states && p in h'.states && c in h.states[p].cidToNo
    && var no := h.states[p].cidToNo[c];
       && h'.cidProduct == h.cidProduct - {c} && h'.noProduct == h.noProduct - {no}
       && h'.states[p].cidToNo == h.states[p].cidToNo - {c} && h'.states[p].noToCid == h.states[p].noToCid - {no}
  }

  lemma ForgetAcks(h: Handler, p: Product, c: Cid)
    requires p in h.states && c !in h.states[p].waitPlace
    ensures CancelAcked(h, StopWaiting(ForgetOrder(h, p, c), p, c, false, true), p, c)
    ensures CancelAcked(h, ForgetOrder(StopWaiting(h, p, c, true, true), p, c), p, c)
  {
  }

  lemma ForgetUnbinds(h: Handler, p: Product, c: Cid)
    requires p in h.states && c in h.states[p].cidToNo
    ensures Unbound(h, StopWaiting(ForgetOrder(h, p, c), p, c, false, true), p, c)
    ensures Unbound(h, ForgetOrder(StopWaiting(h, p, c, true, true), p, c), p, c)
  {
  }

  lemma ForgetAcksIndexed(h: Handler, p: Product, c: Cid)
    requires Indexed(h) && p in h.states && RoutedTo(h, c, p)
    ensures Indexed(StopWaiting(ForgetOrder(h, p, c), p, c, false, true))
    ensures Indexed(ForgetOrder(StopWaiting(h, p, c, true, true), p, c))
  {
    hide Indexed, ForgetOrder, StopWaiting;
    ForgetKeepsIndexes(h, p, c);
    StopWaitingSameIndexes(ForgetOrder(h, p, c), p, c, false, true);
    StopWaitingSameIndexes(h, p, c, true, true);
    StopLeaves(h, p, c, true, true);
    ForgetKeepsIndexes(StopWaiting(h, p, c, true, true), p, c);
  }

  /** The first answer of a cancel ends its wait and forgets the order. */
  lemma CancelAckLands(h: Handler, p: Product, ack: Ack, c: Cid, no: OrderNo, now: int)
    requires now >= 0 && Indexed(h) && CidsRouted(h) && p in h.states && p != "" && RoutedTo(h, c, p)
    requires c in h.states[p].waitCancel && c !in h.states[p].waitPlace && c in h.states[p].cidToNo
    requires AcknowledgesCancel(ack, c, no)
    ensures var h' := Deliver(h, ack, now); CancelAcked(h, h', p, c) && Unbound(h, h', p, c) && Indexed(h')
  {
    hide Bind, ForgetOrder, StopWaiting, Route, CancelAcked, Unbound, Indexed, CidsRouted;
    if ack.Reported? {
      RouteKnown(h, ack.product, ack.data, p, c);
    }
    ForgetAcks(h, p, c);
    ForgetUnbinds(h, p, c);
    ForgetAcksIndexed(h, p, c);
  }

  /** Every later answer of a cancel finds nothing to do. */
  lemma CancelAckAgain(h: Handler, ack: Ack, c: Cid, no: OrderNo, now: int)
    requires now >= 0 && Indexed(h) && c !in h.cidProduct && no !in h.noProduct && AcknowledgesCancel(ack, c, no)
    ensures Deliver(h, ack, now) == h
  {
    hide Route, Indexed;
    if ack.Reported? {
      RouteUnknown(h, ack.product, ack.data);
    }
  }

  lemma CancelsStayUnderway(h: Handler, h': Handler, p: Product, batch: Batch, heard: set<Cid>, c: Cid)
    requires p in h.states && Indexed(h) && batch.Numbered() && c in batch.cancels && c !in heard && Unbound(h, h', p, c)
    requires PlacesUnderway(h, p, batch.places) && CancelsUnderway(h, p, batch.cancels, heard)
    ensures PlacesUnderway(h', p, batch.places) && CancelsUnderway(h', p, batch.cancels, heard + {c})
  {
    IndexedLocally(h, p);
    hide Indexed;
  }

  lemma CancelEffects(h0: Handler, h: Handler, h': Handler, p: Product, cancels: set<Cid>, heard: set<Cid>, c: Cid)
    requires Effects(h0, h, p, cancels, heard) && CancelAcked(h, h', p, c) && c in cancels
    ensures Effects(h0, h', p, cancels, heard + {c})
  {
    assert cancels * (heard + {c}) == cancels * heard + {c};
  }

  lemma AckLands(h0: Handler, h: Handler, p: Product, batch: Batch, heard: set<Cid>, ack: Ack, now: int)
    requires now >= 0 && Underway(h0, h, p, batch, heard) && batch.Numbered() && batch.AnsweredBy(ack)
    ensures Underway(h0, Deliver(h, ack, now), p, batch, heard + {About(ack)})
  {
    hide Deliver, Indexed, PlaceAcked, BoundAs, CancelAcked, Unbound, BindOk, SameLinks, SameMarket;
    var c := About(ack);
    IndexedRoutes(h);
    if c in batch.places {
      var bound := PlaceAckLands(h, p, ack, c, batch.places[c], now);
      hide AcknowledgesPlace, AcknowledgesCancel, Effects, CancelsUnderway, PlacesUnderway;
      PlacesStayUnderway(h, Deliver(h, ack, now), p, batch, heard, c, bound);
      PlaceEffects(h0, h, Deliver(h, ack, now), p, batch.cancels.Keys, heard, c);
    } else if c in heard {
      CancelAckAgain(h, ack, c, batch.cancels[c], now);
      assert heard + {c} == heard;
    } else {
      CancelAckLands(h, p, ack, c, batch.cancels[c], now);
      hide AcknowledgesPlace, AcknowledgesCancel, Effects, CancelsUnderway, PlacesUnderway;
      CancelsStayUnderway(h, Deliver(h, ack, now), p, batch, heard, c);
      CancelEffects(h0, h, Deliver(h, ack, now), p, batch.cancels.Keys, heard, c);
    }
  }

  lemma IndexedRoutes(h: Handler)
    requires Indexed(h)
    ensures CidsRouted(h) && "" !in h.states
  {
  }

  /** Answers in any order, each any number of times, on either channel: exactly the orders heard
      of are no longer waited for, and of these exactly the cancelled ones are gone. */
  lemma {:induction false} AcksLand(h0: Handler, p: Product, batch: Batch, acks: seq<Ack>, now: int)
    requires now >= 0 && Underway(h0, h0, p, batch, {}) && batch.Numbered()
    requires forall i :: 0 <= i < |acks| ==> batch.AnsweredBy(acks[i])
    ensures Underway(h0, DeliverAll(h0, acks, now), p, batch, Heard(acks))
    decreases |acks|
  {
    hide Underway, Deliver;
    if |acks| == 0 {
      assert Heard(acks) == {};
    } else {
      var n := |acks| - 1;
      AcksLand(h0, p, batch, acks[..n], now);
      AckLands(h0, DeliverAll(h0, acks[..n], now), p, batch, Heard(acks[..n]), acks[n], now);
      HeardLast(acks);
    }
  }

  lemma HeardLast(acks: seq<Ack>)
    requires |acks| > 0
    ensures Heard(acks) == Heard(acks[..|acks| - 1]) + {About(acks[|acks| - 1])}
  {
    var n := |acks| - 1;
    forall c | c in Heard(acks)
      ensures c in Heard(acks[..n]) + {About(acks[n])}
    {
      var i :| 0 <= i < |acks| && About(acks[i]) == c;
      if i < n {
        assert acks[..n][i] == acks[i];
      }
    }
    forall c | c in Heard(acks[..n])
      ensures c in Heard(acks)
    {
      var i :| 0 <= i < n && About(acks[..n][i]) == c;
      assert About(acks[i]) == c;
    }
  }

  // ---- the second decision ----

  /** The state a decision starts from: nothing awaited, and every outstanding order known to the
      venue by its number. */
  ghost predicate Settled(h: Handler, p: Product) {
    && Indexed(h) && p in h.states && h.states[p].NoWaiting()
    && forall c :: c in h.states[p].outstanding ==> c in h.states[p].cidToNo
  }

  ghost predicate AllPlaceable(st: ProductState, d: Pairing) {
    forall q :: q in d.bids + d.asks ==> Placeable(st, q)
  }

  /** What a decision leaves behind: the old orders, then the new ones, each waited for. */
  ghost predicate SentAll(h: Handler, out: Outcome, p: Product, d: Pairing, bidCids: seq<Cid>, askCids: seq<Cid>) {
    && p in h.states && out.handler.states.Keys == h.states.Keys && SameLinks(h, out.handler) && SameMarket(h.states[p], out.handler.states[p])
    && |bidCids| == |d.bids| && |askCids| == |d.asks|
    && (forall c :: c in bidCids || c in askCids ==> c > h.lastCid)
    && var st' := out.handler.states[p];
       && st'.waitCancel == CancelSet(d) && st'.waitPlace == Elements(bidCids) + Elements(askCids)
       && RestingOrders(st'.outstanding) ==
            RestingOrders(h.states[p].outstanding) + Placed(d.bids, bidCids, true) + Placed(d.asks, askCids, false)
       && (forall c :: c in st'.waitPlace ==> RoutedTo(out.handler, c, p))
       && SameNumbers(h, out.handler, p)
  }

  /** `request` is waited for, as what it is. */
  ghost predicate Awaited(h: Handler, p: Product, request: Request) {
    && p in h.states && RoutedTo(h, request.cid, p)
    && match request
       case CancelRequest(_, c, no) => c in h.states[p].waitCancel && c in h.states[p].cidToNo && h.states[p].cidToNo[c] == no
       case PlaceRequest(_, c, _, _, _, _, _, _, _) => c in h.states[p].waitPlace
  }

  lemma CancelsLeave(h: Handler, p: Product, d: Pairing, now: int)
    requires p in h.states && forall c :: c in CancelSet(d) ==> c in h.states[p].cidToNo
    ensures var s1 := SubmitCancels(h, p, d.bidCancels, now);
      var s2 := SubmitCancels(s1.handler, p, d.askCancels, now);
      && SameButWaits(h, s2.handler, p)
      && s2.handler.states[p].waitCancel == h.states[p].waitCancel + CancelSet(d)
      && (forall r :: r in s1.requests + s2.requests ==>
            r.CancelRequest? && r.cid in CancelSet(d) && r.cid in h.states[p].cidToNo && r.orderNo == h.states[p].cidToNo[r.cid])
      && forall c :: c in CancelSet(d) ==> c in Cids(s1.requests + s2.requests)
  {
    hide SubmitCancels;
    assert forall i :: 0 <= i < |d.bidCancels| ==> d.bidCancels[i] in CancelSet(d);
    assert forall i :: 0 <= i < |d.askCancels| ==> d.askCancels[i] in CancelSet(d);
    CancelsSent(h, p, d.bidCancels, now);
    CancelsSent(SubmitCancels(h, p, d.bidCancels, now).handler, p, d.askCancels, now);
    var requests := SubmitCancels(h, p, d.bidCancels, now).requests
                    + SubmitCancels(SubmitCancels(h, p, d.bidCancels, now).handler, p, d.askCancels, now).requests;
    assert Cids(requests) == d.bidCancels + d.askCancels;
  }

  lemma PlacesLeave(h: Handler, p: Product, d: Pairing, now: int)
    requires p in h.states && now >= 0 && OutstandingIssued(h, p) && AllPlaceable(h.states[p], d)
    ensures var s3 := SubmitPlaces(h, p, true, d.bids, now);
      var s4 := SubmitPlaces(s3.handler, p, false, d.asks, now);
      && PlacedBehind(h, s3, p, true, d.bids) && PlacedBehind(s3.handler, s4, p, false, d.asks)
  {
    hide SubmitPlaces, Placeable, RestingOrders, FreshCids, Placed;
    forall i | 0 <= i < |d.bids|
      ensures Placeable(h.states[p], d.bids[i])
    {
      assert d.bids[i] in d.bids + d.asks;
    }
    PlacesSent(h, p, true, d.bids, now);
    var s3 := SubmitPlaces(h, p, true, d.bids, now);
    forall i | 0 <= i < |d.asks|
      ensures Placeable(s3.handler.states[p], d.asks[i])
    {
      assert d.asks[i] in d.bids + d.asks;
      IssuedKeepsGrid(h, s3.handler, p, d.asks[i]);
    }
    PlacesSent(s3.handler, p, false, d.asks, now);
  }

  lemma SendLeaves(h: Handler, p: Product, d: Pairing, now: int) returns (bidCids: seq<Cid>, askCids: seq<Cid>)
    requires now >= 0 && Settled(h, p) && AllPlaceable(h.states[p], d)
    requires forall c :: c in CancelSet(d) ==> c in h.states[p].outstanding
    ensures SentAll(h, Send(h, p, d, now), p, d, bidCids, askCids)
    ensures forall r :: r in Send(h, p, d, now).requests ==> Awaited(Send(h, p, d, now).handler, p, r)
    ensures forall c :: c in CancelSet(d) || c in bidCids || c in askCids ==> c in Cids(Send(h, p, d, now).requests)
  {
    hide SubmitCancels, SubmitPlaces, Placeable, RestingOrders, Indexed, CancelSet, FreshCids, Placed;
    var s1 := SubmitCancels(h, p, d.bidCancels, now);
    var s2 := SubmitCancels(s1.handler, p, d.askCancels, now);
    CancelsLeave(h, p, d, now);
    SettledIssued(h, p);
    AllStillPlaceable(h, s2.handler, p, d);
    PlacesLeave(s2.handler, p, d, now);
    var s3 := SubmitPlaces(s2.handler, p, true, d.bids, now);
    var s4 := SubmitPlaces(s3.handler, p, false, d.asks, now);
    bidCids, askCids := Cids(s3.requests), Cids(s4.requests);
    TwoBatches(s2.handler, s3.handler, s4.handler, p, bidCids, askCids);
    forall r | r in Send(h, p, d, now).requests
      ensures Awaited(s4.handler, p, r)
    {
      if r in s1.requests + s2.requests {
        assert r.cid in CancelSet(d);
      } else {
        assert r in s3.requests || r in s4.requests;
        RequestHasCid(s3.requests, r);
        RequestHasCid(s4.requests, r);
      }
    }
    FourBatches(s1.requests + s2.requests, s3.requests, s4.requests);
  }

  lemma FourBatches(cancels: seq<Request>, bids: seq<Request>, asks: seq<Request>)
    ensures forall c :: c in Cids(cancels) || c in Cids(bids) || c in Cids(asks) ==> c in Cids(cancels + bids + asks)
  {
    assert Cids(cancels + bids + asks) == Cids(cancels) + Cids(bids) + Cids(asks);
  }

  lemma RequestHasCid(requests: seq<Request>, r: Request)
    ensures r in requests ==> r.cid in Cids(requests)
  {
    if r in requests {
      var i :| 0 <= i < |requests| && requests[i] == r;
      assert Cids(requests)[i] == r.cid;
    }
  }

  lemma SettledIssued(h: Handler, p: Product)
    requires Settled(h, p)
    ensures OutstandingIssued(h, p) && p != ""
    ensures forall c :: c in h.states[p].outstanding ==> RoutedTo(h, c, p)
  {
    hide Inverse;
  }

  lemma AllStillPlaceable(h: Handler, h': Handler, p: Product, d: Pairing)
    requires SameButWaits(h, h', p) && AllPlaceable(h.states[p], d)
    ensures AllPlaceable(h'.states[p], d)
  {
    hide SnapTo;
    forall q | q in d.bids + d.asks
      ensures Placeable(h'.states[p], q)
    {
      assert Placeable(h.states[p], q);
    }
  }

  lemma TwoBatches(h2: Handler, h3: Handler, h4: Handler, p: Product, bidCids: seq<Cid>, askCids: seq<Cid>)
    requires Issued(h2, h3, p) && Issued(h3, h4, p) && FreshCids(h2, h3, p, bidCids) && FreshCids(h3, h4, p, askCids)
    ensures Issued(h2, h4, p)
    ensures h4.states[p].waitPlace == h2.states[p].waitPlace + Elements(bidCids) + Elements(askCids)
    ensures forall c :: c in bidCids || c in askCids ==> c > h2.lastCid && RoutedTo(h4, c, p)
    ensures forall c: Cid :: c <= h2.lastCid && RoutedTo(h2, c, p) ==> RoutedTo(h4, c, p)
  {
  }

  lemma {:induction false} KeptConcat(a: seq<Resting>, b: seq<Resting>, cancels: set<Cid>)
    ensures Kept(a + b, cancels) == Kept(a, cancels) + Kept(b, cancels)
    decreases |b|
  {
    if |b| == 0 {
      assert a + b == a;
    } else {
      var n := |b| - 1;
      KeptConcat(a, b[..n], cancels);
      assert a + b == a + b[..n] + [b[n]] && b == b[..n] + [b[n]];
      KeptLast(a + b[..n], b[n], cancels);
    }
  }

  lemma {:induction false} KeptAll(orders: seq<Resting>, cancels: set<Cid>)
    requires forall i :: 0 <= i < |orders| ==> orders[i].cid !in cancels
    ensures Kept(orders, cancels) == orders
  {
    if |orders| > 0 {
      KeptAll(orders[..|orders| - 1], cancels);
    }
  }

  /** Once every request is answered, what rests is what was kept and what was placed. */
  lemma OutstandingAfterAcks(
      h: Handler, out: Outcome, h': Handler, p: Product, d: Pairing, bidCids: seq<Cid>, askCids: seq<Cid>)
    requires SentAll(h, out, p, d, bidCids, askCids) && Settled(h, p) && p in h'.states
    requires forall c :: c in CancelSet(d) ==> c in h.states[p].outstanding
    requires h'.states[p].outstanding == out.handler.states[p].outstanding - CancelSet(d)
    ensures RestingOrders(h'.states[p].outstanding) ==
      Kept(RestingOrders(h.states[p].outstanding), CancelSet(d)) + Placed(d.bids, bidCids, true) + Placed(d.asks, askCids, false)
  {
    hide RestingOrders, Kept, CancelSet, Indexed;
    var cancels := CancelSet(d);
    var before := RestingOrders(h.states[p].outstanding);
    var bids, asks := Placed(d.bids, bidCids, true), Placed(d.asks, askCids, false);
    SettledIssued(h, p);
    RestingKept(out.handler.states[p].outstanding, cancels);
    KeptConcat(before + bids, asks, cancels);
    KeptConcat(before, bids, cancels);
    NoneCancelled(d.bids, bidCids, true, cancels, h.lastCid);
    NoneCancelled(d.asks, askCids, false, cancels, h.lastCid);
  }

  lemma NoneCancelled(quotes: seq<Quote>, cids: seq<Cid>, isBid: bool, cancels: set<Cid>, last: Cid)
    requires |cids| == |quotes| && (forall c :: c in cids ==> c > last) && forall c :: c in cancels ==> c <= last
    ensures Kept(Placed(quotes, cids, isBid), cancels) == Placed(quotes, cids, isBid)
  {
    var orders := Placed(quotes, cids, isBid);
    forall i | 0 <= i < |orders|
      ensures orders[i].cid !in cancels
    {
      assert cids[i] in cids;
    }
    KeptAll(orders, cancels);
  }

  lemma NothingToSend(h: Handler, p: Product, now: int, claims: seq<Claim>)
    requires p in h.states && now >= 0
    ensures Send(h, p, Pairing([], [], [], [], claims), now) == Outcome(h, [])
  {
  }

  /** The venue numbers the orders of `requests` by `numbers`: none is a number already known, and
      no two orders share one. */
  ghost predicate NewNumbers(h: Handler, requests: seq<Request>, numbers: map<Cid, OrderNo>) {
    && (forall r :: r in requests && r.PlaceRequest? ==> r.cid in numbers)
    && (forall c :: c in numbers ==> numbers[c] != "" && numbers[c] !in h.noProduct)
    && forall c, c' :: c in numbers && c' in numbers && c != c' ==> numbers[c] != numbers[c']
  }

  ghost predicate AnswersOneOf(ack: Ack, requests: seq<Request>, numbers: map<Cid, OrderNo>) {
    exists r :: r in requests && Acknowledges(ack, r, numbers)
  }

  /** Every answer is the answer to one of the requests. */
  ghost predicate OnlyAnswers(acks: seq<Ack>, requests: seq<Request>, numbers: map<Cid, OrderNo>) {
    forall i :: 0 <= i < |acks| ==> AnswersOneOf(acks[i], requests, numbers)
  }

  /** Every request has been answered at least once. */
  ghost predicate AllAnswered(acks: seq<Ack>, requests: seq<Request>, numbers: map<Cid, OrderNo>) {
    forall r :: r in requests ==> exists i :: 0 <= i < |acks| && Acknowledges(acks[i], r, numbers)
  }

  function BatchOf(h: Handler, p: Product, cancels: set<Cid>, places: set<Cid>, numbers: map<Cid, OrderNo>): Batch
    requires p in h.states && (forall c :: c in cancels ==> c in h.states[p].cidToNo) && forall c :: c in places ==> c in numbers
  {
    Batch(map c | c in cancels :: h.states[p].cidToNo[c], map c | c in places :: numbers[c])
  }

  /** Every place waited for has its request. */
  lemma PlacesNumbered(h: Handler, p: Product, requests: seq<Request>, numbers: map<Cid, OrderNo>, h0: Handler)
    requires p in h.states && NewNumbers(h0, requests, numbers) && h.states[p].waitPlace !! h.states[p].waitCancel
    requires forall r :: r in requests ==> Awaited(h, p, r)
    requires forall c :: c in h.states[p].waitPlace ==> c in Cids(requests)
    ensures forall c :: c in h.states[p].waitPlace ==> c in numbers
  {
    forall c | c in h.states[p].waitPlace
      ensures c in numbers
    {
      var i :| 0 <= i < |Cids(requests)| && Cids(requests)[i] == c;
      assert requests[i] in requests && Awaited(h, p, requests[i]);
    }
  }

  lemma AnswersFitBatch(
      h: Handler, p: Product, cancels: set<Cid>, requests: seq<Request>, numbers: map<Cid, OrderNo>, acks: seq<Ack>)
    requires p in h.states && h.states[p].waitCancel == cancels
    requires (forall c :: c in cancels ==> c in h.states[p].cidToNo) && forall c :: c in h.states[p].waitPlace ==> c in numbers
    requires (forall r :: r in requests ==> Awaited(h, p, r)) && OnlyAnswers(acks, requests, numbers)
    ensures var batch := BatchOf(h, p, cancels, h.states[p].waitPlace, numbers);
      forall i :: 0 <= i < |acks| ==> batch.AnsweredBy(acks[i])
  {
    var batch := BatchOf(h, p, cancels, h.states[p].waitPlace, numbers);
    forall i | 0 <= i < |acks|
      ensures batch.AnsweredBy(acks[i])
    {
      assert AnswersOneOf(acks[i], requests, numbers);
      var r :| r in requests && Acknowledges(acks[i], r, numbers);
      assert Awaited(h, p, r);
      assert About(acks[i]) == r.cid;
    }
  }

  lemma AllHeard(acks: seq<Ack>, requests: seq<Request>, numbers: map<Cid, OrderNo>)
    requires AllAnswered(acks, requests, numbers)
    ensures forall c :: c in Cids(requests) ==> c in Heard(acks)
  {
    forall c | c in Cids(requests)
      ensures c in Heard(acks)
    {
      var k :| 0 <= k < |Cids(requests)| && Cids(requests)[k] == c;
      assert requests[k] in requests;
      var i :| 0 <= i < |acks| && Acknowledges(acks[i], requests[k], numbers);
      assert About(acks[i]) == c;
    }
  }

  lemma BatchIsNumbered(h: Handler, h0: Handler, p: Product, cancels: set<Cid>, numbers: map<Cid, OrderNo>, requests: seq<Request>)
    requires p in h.states && p in h0.states && LocallyIndexed(h, p) && SameNumbers(h, h0, p) && NewNumbers(h, requests, numbers)
    requires cancels !! h0.states[p].waitPlace
    requires (forall c :: c in cancels ==> c in h.states[p].cidToNo) && forall c :: c in h0.states[p].waitPlace ==> c in numbers
    ensures BatchOf(h0, p, cancels, h0.states[p].waitPlace, numbers).Numbered()
  {
    assert forall c :: c in cancels ==> NumberOf(h, h.states[p].cidToNo[c], p);
  }

  lemma PlacesNotBound(h: Handler, h0: Handler, p: Product, places: set<Cid>, numbers: map<Cid, OrderNo>, requests: seq<Request>)
    requires p in h.states && p in h0.states && LocallyIndexed(h, p) && LocallyIndexed(h0, p)
    requires SameNumbers(h, h0, p) && NewNumbers(h, requests, numbers)
    requires forall c :: c in places ==> c in numbers && c > h.lastCid && RoutedTo(h0, c, p)
    ensures PlacesUnderway(h0, p, map c | c in places :: numbers[c])
  {
    forall c | c in places
      ensures BindOk(h0, p, c, numbers[c])
    {
      assert c !in h.states[p].cidToNo;
      assert !NumberOf(h0, numbers[c], p);
    }
  }

  lemma CancelsKnown(h: Handler, h0: Handler, p: Product, cancels: set<Cid>)
    requires p in h.states && p in h0.states && LocallyIndexed(h0, p) && SameNumbers(h, h0, p)
    requires forall c :: c in cancels ==> c in h.states[p].cidToNo
    ensures CancelsUnderway(h0, p, map c | c in cancels :: h0.states[p].cidToNo[c], {})
  {
  }

  lemma NothingChangedYet(h: Handler, p: Product, cancels: set<Cid>)
    requires p in h.states
    ensures Effects(h, h, p, cancels, {})
  {
    assert cancels * {} == {};
  }

  /** Right after sending, nothing has been heard. */
  lemma NothingHeardYet(h: Handler, h0: Handler, p: Product, cancels: set<Cid>, numbers: map<Cid, OrderNo>, requests: seq<Request>)
    requires Indexed(h) && Indexed(h0) && p in h.states && p in h0.states && SameNumbers(h, h0, p) && NewNumbers(h, requests, numbers)
    requires h0.states[p].waitCancel == cancels && cancels !! h0.states[p].waitPlace
    requires forall c :: c in cancels ==> c in h.states[p].cidToNo
    requires forall c :: c in h0.states[p].waitPlace ==> c in numbers && c > h.lastCid && RoutedTo(h0, c, p)
    ensures var batch := BatchOf(h0, p, cancels, h0.states[p].waitPlace, numbers);
      Underway(h0, h0, p, batch, {}) && batch.Numbered()
  {
    IndexedLocally(h, p);
    IndexedLocally(h0, p);
    hide Indexed, PlacesUnderway, CancelsUnderway, Effects, NewNumbers, LocallyIndexed;
    BatchIsNumbered(h, h0, p, cancels, numbers, requests);
    CancelsKnown(h, h0, p, cancels);
    NothingChangedYet(h0, p, cancels);
    PlacesNotBound(h, h0, p, h0.states[p].waitPlace, numbers, requests);
  }

  /** The state after a decision and all its answers: the same market, and nothing awaited. */
  lemma AfterAcks(h: Handler, p: Product, d: Pairing, now: int, acks: seq<Ack>, numbers: map<Cid, OrderNo>, ackTime: int)
      returns (bidCids: seq<Cid>, askCids: seq<Cid>)
    requires now >= 0 && ackTime >= 0 && Settled(h, p) && AllPlaceable(h.states[p], d)
    requires forall c :: c in CancelSet(d) ==> c in h.states[p].outstanding
    requires var requests := Send(h, p, d, now).requests;
      NewNumbers(h, requests, numbers) && OnlyAnswers(acks, requests, numbers) && AllAnswered(acks, requests, numbers)
    ensures |bidCids| == |d.bids| && |askCids| == |d.asks|
    ensures var h' := DeliverAll(Send(h, p, d, now).handler, acks, ackTime);
      && SameLinks(h, h') && SameMarket(h.states[p], h'.states[p]) && h'.states[p].NoWaiting()
      && RestingOrders(h'.states[p].outstanding) ==
           Kept(RestingOrders(h.states[p].outstanding), CancelSet(d)) + Placed(d.bids, bidCids, true) + Placed(d.asks, askCids, false)
  {
    hide Send, Acknowledges, CancelSet, DeliverAll, RestingOrders, Kept, Placed, Indexed, Awaited, Placeable,
      NewNumbers, OnlyAnswers, AllAnswered, Heard, Cids, CancelsUnderway, PlacesUnderway;
    bidCids, askCids := SendLeaves(h, p, d, now);
    var out := Send(h, p, d, now);
    var cancels, places := CancelSet(d), out.handler.states[p].waitPlace;
    SendKeepsIndexes(h, p, d, now);
    SettledIssued(h, p);
    SettledIssuedNumbers(h, p);
    PlacesNumbered(out.handler, p, out.requests, numbers, h);
    AnswersFitBatch(out.handler, p, cancels, out.requests, numbers, acks);
    NothingHeardYet(h, out.handler, p, cancels, numbers, out.requests);
    AcksLand(out.handler, p, BatchOf(out.handler, p, cancels, places, numbers), acks, ackTime);
    AllHeard(acks, out.requests, numbers);
    var h' := DeliverAll(out.handler, acks, ackTime);
    assert cancels * Heard(acks) == cancels;
    OutstandingAfterAcks(h, out, h', p, d, bidCids, askCids);
  }

  lemma SettledIssuedNumbers(h: Handler, p: Product)
    requires Settled(h, p)
    ensures forall c :: c in h.states[p].outstanding ==> c in h.states[p].cidToNo && c <= h.lastCid
  {
    hide Inverse;
  }

  /** With the market as it was, once every request of a decision has been answered, in any order,
      any number of times and on either channel, the next decision sends nothing: for any buffer,
      for either kind of decision, provided each order it wanted was sent. */
  lemma DecisionIsFixedPoint(
      h: Handler, cfg: Config, p: Product, liquidate: bool, now: int,
      acks: seq<Ack>, numbers: map<Cid, OrderNo>, ackTime: int, later: int)
    requires now >= 0 && ackTime >= 0 && later >= 0 && Settled(h, p) && ReadyToDecide(h, p, liquidate)
    requires var d := DecideFor(h.states[p], cfg, liquidate, now); d.Some? ==> AllPlaceable(h.states[p], d.value)
    requires BuildPriceInfo(h.states[p], cfg.fairPriceMaxAge, later) == BuildPriceInfo(h.states[p], cfg.fairPriceMaxAge, now)
    requires var requests := UpdateOrders(h, cfg, p, liquidate, now).requests;
      NewNumbers(h, requests, numbers) && OnlyAnswers(acks, requests, numbers) && AllAnswered(acks, requests, numbers)
    ensures var h' := DeliverAll(UpdateOrders(h, cfg, p, liquidate, now).handler, acks, ackTime);
      UpdateOrders(h', cfg, p, liquidate, later) == Outcome(h', [])
  {
    hide Send, DeliverAll, RestingOrders, Kept, Placed, Indexed, Placeable, NewNumbers, OnlyAnswers, AllAnswered, BuildPriceInfo;
    var st := h.states[p];
    var decision := DecideFor(st, cfg, liquidate, now);
    if decision.None? {
      NothingDelivered(h, acks, numbers, ackTime);
    } else {
      var d := decision.value;
      var info := BuildPriceInfo(st, cfg.fairPriceMaxAge, now).value;
      var bids := WantedBids(cfg.params, info, liquidate, st.position);
      var asks := WantedAsks(cfg.params, info, liquidate, st.position);
      var tolerance := BufferTolerance(cfg.params, liquidate);
      DecisionCancels(st, d, bids, asks, tolerance);
      var bidCids, askCids := AfterAcks(h, p, d, now, acks, numbers, ackTime);
      var h' := DeliverAll(Send(h, p, d, now).handler, acks, ackTime);
      SameInfo(st, h'.states[p], cfg.fairPriceMaxAge, later);
      RestingOrdersLists(st.outstanding);
      PairIsFixedPoint(RestingOrders(st.outstanding), bids, asks, tolerance, bidCids, askCids);
      var again := Pair(RestingOrders(h'.states[p].outstanding), bids, asks, tolerance);
      NothingToSend(h', p, later, again.claims);
    }
  }

  lemma NothingDelivered(h: Handler, acks: seq<Ack>, numbers: map<Cid, OrderNo>, now: int)
    requires now >= 0 && OnlyAnswers(acks, [], numbers)
    ensures DeliverAll(h, acks, now) == h
  {
    assert forall ack: Ack :: !AnswersOneOf(ack, [], numbers);
  }

  lemma SameInfo(st: ProductState, st': ProductState, maxAge: int, now: int)
    requires SameMarket(st, st')
    ensures BuildPriceInfo(st', maxAge, now) == BuildPriceInfo(st, maxAge, now)
  {
    hide PriceInfoFrom;
  }

  /** A decision cancels only what is outstanding. */
  lemma DecisionCancels(st: ProductState, d: Pairing, bids: seq<Quote>, asks: seq<Quote>, tolerance: int -> int)
    requires d == Pair(RestingOrders(st.outstanding), bids, asks, tolerance)
    ensures forall c :: c in CancelSet(d) ==> c in st.outstanding
  {
    RestingOrdersLists(st.outstanding);
    forall c | c in CancelSet(d)
      ensures c in st.outstanding
    {
      CancelsComeFromOrders(RestingOrders(st.outstanding), bids, asks, tolerance, c);
    }
  }

  // ---- how many orders a decision leaves working ----

  /** The orders of a side that are not being cancelled. */
  function Working(st: ProductState, isBid: bool): set<Cid> {
    set c | c in st.outstanding && st.outstanding[c].isBid == isBid && c !in st.waitCancel
  }

  lemma {:induction false} ElementsSize(s: seq<Cid>)
    ensures |Elements(s)| <= |s|
  {
    if |s| > 0 {
      ElementsSize(s[..|s| - 1]);
      ElementsLast(s);
    }
  }

  lemma SubsetSize(a: set<Cid>, b: set<Cid>)
    requires a <= b
    ensures |a| <= |b|
  {
    assert b == a + (b - a);
  }

  lemma {:induction false} RestingHas(m: map<Cid, Order>, c: Cid)
    requires c in m
    ensures c in SideCids(RestingOrders(m), m[c].isBid)
    decreases |m|
  {
    var last := Greatest(m.Keys);
    var rest := m - {last};
    RestingLast(m);
    assert RestingOrders(m)[..|RestingOrders(rest)|] == RestingOrders(rest);
    if c != last {
      RestingHas(rest, c);
    }
  }

  lemma PlaceAddsAtMostOne(h: Handler, p: Product, isBid: bool, q: Quote, now: int, side: bool)
    requires p in h.states && now >= 0
    ensures var h' := SubmitPlace(h, p, isBid, q.price, q.qty, true, false, now).handler;
      |Working(h'.states[p], side)| <= |Working(h.states[p], side)| + if side == isBid then 1 else 0
  {
    hide SnapTo;
    var h' := SubmitPlace(h, p, isBid, q.price, q.qty, true, false, now).handler;
    var extra := if side == isBid then {h'.lastCid} else {};
    SubsetSize(Working(h'.states[p], side), Working(h.states[p], side) + extra);
  }

  lemma {:induction false} PlacesAddAtMost(h: Handler, p: Product, isBid: bool, quotes: seq<Quote>, now: int, side: bool)
    requires p in h.states && now >= 0
    ensures var h' := SubmitPlaces(h, p, isBid, quotes, now).handler;
      |Working(h'.states[p], side)| <= |Working(h.states[p], side)| + if side == isBid then |quotes| else 0
  {
    hide SubmitPlace, Working;
    if |quotes| > 0 {
      var n := |quotes| - 1;
      PlacesAddAtMost(h, p, isBid, quotes[..n], now, side);
      PlaceAddsAtMostOne(SubmitPlaces(h, p, isBid, quotes[..n], now).handler, p, isBid, quotes[n], now, side);
    }
  }

  lemma InTheOther(a: seq<Cid>, b: seq<Cid>, all: seq<Cid>, c: Cid)
    requires multiset(a) + multiset(b) == multiset(all) && c in all && c !in a
    ensures c in b
  {
    assert c in multiset(all) && multiset(a)[c] == 0;
    assert c in multiset(b);
  }

  lemma SizesAdd(a: seq<Quote>, b: seq<Quote>, all: seq<Quote>)
    requires multiset(a) + multiset(b) == multiset(all)
    ensures |a| + |b| == |all|
  {
    assert |multiset(a) + multiset(b)| == |multiset(all)|;
  }

  /** An order that keeps working claimed a quote. */
  lemma WorkingClaimed(st: ProductState, cancelling: ProductState, d: Pairing, bids: seq<Quote>, asks: seq<Quote>, tolerance: int -> int, isBid: bool)
    requires d == Pair(RestingOrders(st.outstanding), bids, asks, tolerance)
    requires cancelling.outstanding == st.outstanding && cancelling.waitCancel == CancelSet(d)
    ensures |Working(cancelling, isBid)| + |d.Wanted(isBid)| <= |if isBid then bids else asks|
  {
    hide RestingOrders, Pair, SideCids, ClaimedCids, ClaimedQuotes;
    var orders := RestingOrders(st.outstanding);
    var claimed := ClaimedCids(d.claims, isBid);
    PairConserves(orders, bids, asks, tolerance, isBid);
    forall c | c in Working(cancelling, isBid)
      ensures c in claimed
    {
      RestingHas(st.outstanding, c);
      InTheOther(d.Cancels(isBid), claimed, SideCids(orders, isBid), c);
    }
    hide Working;
    SubsetSize(Working(cancelling, isBid), Elements(claimed));
    ElementsSize(claimed);
    ClaimsPairUp(d.claims, isBid);
    SizesAdd(d.Wanted(isBid), ClaimedQuotes(d.claims, isBid), if isBid then bids else asks);
  }

  /** A decision made with nothing awaited and every order known to the venue leaves at most
      `orderNum` orders of each side working. */
  lemma OrderCountBounded(h: Handler, cfg: Config, p: Product, now: int, isBid: bool)
    requires now >= 0 && Settled(h, p) && ReadyToDecide(h, p, false)
    requires DecideFor(h.states[p], cfg, false, now).Some?
    ensures |Working(UpdateOrders(h, cfg, p, false, now).handler.states[p], isBid)| <= cfg.params.orderNum
  {
    hide SubmitCancels, SubmitPlaces, Working, CancelSet, RestingOrders, Indexed, BuildPriceInfo, WantedBids, WantedAsks;
    var st := h.states[p];
    var info := BuildPriceInfo(st, cfg.fairPriceMaxAge, now).value;
    var d := DecideFor(st, cfg, false, now).value;
    var bids := WantedBids(cfg.params, info, false, st.position);
    var asks := WantedAsks(cfg.params, info, false, st.position);
    DecisionCancels(st, d, bids, asks, BufferTolerance(cfg.params, false));
    CancelsLeave(h, p, d, now);
    var s1 := SubmitCancels(h, p, d.bidCancels, now);
    var s2 := SubmitCancels(s1.handler, p, d.askCancels, now);
    var s3 := SubmitPlaces(s2.handler, p, true, d.bids, now);
    WorkingClaimed(st, s2.handler.states[p], d, bids, asks, BufferTolerance(cfg.params, false), isBid);
    PlacesAddAtMost(s2.handler, p, true, d.bids, now, isBid);
    PlacesAddAtMost(s3.handler, p, false, d.asks, now, isBid);
    KeptPlusPlacedIsWanted(cfg.params, info, st.position, RestingOrders(st.outstanding), isBid);
  }
}
