/** What a GeuantStrategy decision guarantees. */
module StrategyProofs {
  import opened Optional
  import opened Rounding
  import opened Ladders
  import opened Strategy

  // ---- conservation: every resting order and every wanted quote is accounted for once ----

  function SideCids(orders: seq<Resting>, isBid: bool): seq<Cid> {
    if |orders| == 0 then []
    else
      var n := |orders| - 1;
      SideCids(orders[..n], isBid) + if orders[n].isBid == isBid then [orders[n].cid] else []
  }

  function ClaimedCids(claims: seq<Claim>, isBid: bool): seq<Cid> {
    if |claims| == 0 then []
    else
      var n := |claims| - 1;
      ClaimedCids(claims[..n], isBid) + if claims[n].order.isBid == isBid then [claims[n].order.cid] else []
  }

  function ClaimedQuotes(claims: seq<Claim>, isBid: bool): seq<Quote> {
    if |claims| == 0 then []
    else
      var n := |claims| - 1;
      ClaimedQuotes(claims[..n], isBid) + if claims[n].order.isBid == isBid then [claims[n].wanted] else []
  }

  /** Each resting order of a side is cancelled or claims one wanted quote, never both and never
      twice; the claimed quotes and those left to place are together exactly the wanted ones; and
      every claim is within its tolerance. */
  lemma PairConserves(orders: seq<Resting>, bids: seq<Quote>, asks: seq<Quote>, tolerance: int -> int, isBid: bool)
    ensures var p := Pair(orders, bids, asks, tolerance);
      && multiset(p.Cancels(isBid)) + multiset(ClaimedCids(p.claims, isBid)) == multiset(SideCids(orders, isBid))
      && multiset(p.Wanted(isBid)) + multiset(ClaimedQuotes(p.claims, isBid)) == multiset(if isBid then bids else asks)
      && forall c :: c in p.claims ==> c.order in orders && Distance(c.wanted, c.order.price) <= tolerance(c.order.price)
  {
    OrdersConserved(orders, bids, asks, tolerance, isBid);
    QuotesConserved(orders, bids, asks, tolerance, isBid);
    ClaimsWithinTolerance(orders, bids, asks, tolerance);
  }

  lemma {:induction false} OrdersConserved(orders: seq<Resting>, bids: seq<Quote>, asks: seq<Quote>, tolerance: int -> int, isBid: bool)
    ensures var p := Pair(orders, bids, asks, tolerance);
      multiset(p.Cancels(isBid)) + multiset(ClaimedCids(p.claims, isBid)) == multiset(SideCids(orders, isBid))
  {
    if |orders| > 0 {
      OrdersConserved(orders[..|orders| - 1], bids, asks, tolerance, isBid);
      StepClaims(orders, bids, asks, tolerance);
    }
  }

  lemma {:induction false} QuotesConserved(orders: seq<Resting>, bids: seq<Quote>, asks: seq<Quote>, tolerance: int -> int, isBid: bool)
    ensures var p := Pair(orders, bids, asks, tolerance);
      multiset(p.Wanted(isBid)) + multiset(ClaimedQuotes(p.claims, isBid)) == multiset(if isBid then bids else asks)
  {
    if |orders| > 0 {
      QuotesConserved(orders[..|orders| - 1], bids, asks, tolerance, isBid);
      StepClaims(orders, bids, asks, tolerance);
    }
  }

  lemma {:induction false} ClaimsWithinTolerance(orders: seq<Resting>, bids: seq<Quote>, asks: seq<Quote>, tolerance: int -> int)
    ensures forall c :: c in Pair(orders, bids, asks, tolerance).claims ==>
      c.order in orders && Distance(c.wanted, c.order.price) <= tolerance(c.order.price)
  {
    if |orders| > 0 {
      ClaimsWithinTolerance(orders[..|orders| - 1], bids, asks, tolerance);
      assert forall o :: o in orders[..|orders| - 1] ==> o in orders;
    }
  }

  lemma StepClaims(orders: seq<Resting>, bids: seq<Quote>, asks: seq<Quote>, tolerance: int -> int)
    requires |orders| > 0
    ensures var n := |orders| - 1;
      var before := Pair(orders[..n], bids, asks, tolerance);
      var after := Pair(orders, bids, asks, tolerance);
      var o := orders[n];
      var m := Match(before.Wanted(o.isBid), o.price, tolerance(o.price));
      && (m.None? ==> after.claims == before.claims)
      && (m.Some? ==>
            && |after.claims| == |before.claims| + 1
            && after.claims[..|before.claims|] == before.claims
            && after.claims[|before.claims|] == Claim(o, before.Wanted(o.isBid)[m.value]))
  {
  }

  lemma {:induction false} ClaimsPairUp(claims: seq<Claim>, isBid: bool)
    ensures |ClaimedCids(claims, isBid)| == |ClaimedQuotes(claims, isBid)|
  {
    if |claims| > 0 {
      ClaimsPairUp(claims[..|claims| - 1], isBid);
    }
  }

  /** Orders kept plus orders still to place are exactly as many as the quotes wanted, at most
      one per configured level. */
  lemma KeptPlusPlacedIsWanted(params: Params, info: PriceInfo, position: int, orders: seq<Resting>, isBid: bool)
    ensures var d := Decide(params, info, false, position, orders);
      var wanted := if isBid then WantedBids(params, info, false, position) else WantedAsks(params, info, false, position);
      && |SideCids(orders, isBid)| - |d.Cancels(isBid)| + |d.Wanted(isBid)| == |wanted|
      && |wanted| <= params.orderNum
  {
    var bids, asks := WantedBids(params, info, false, position), WantedAsks(params, info, false, position);
    PairCounts(orders, bids, asks, BufferTolerance(params, false), isBid);
  }

  lemma PairCounts(orders: seq<Resting>, bids: seq<Quote>, asks: seq<Quote>, tolerance: int -> int, isBid: bool)
    ensures var p := Pair(orders, bids, asks, tolerance);
      |SideCids(orders, isBid)| - |p.Cancels(isBid)| + |p.Wanted(isBid)| == |if isBid then bids else asks|
  {
    var p := Pair(orders, bids, asks, tolerance);
    PairConserves(orders, bids, asks, tolerance, isBid);
    ClaimsPairUp(p.claims, isBid);
    assert |multiset(p.Cancels(isBid)) + multiset(ClaimedCids(p.claims, isBid))| == |multiset(SideCids(orders, isBid))|;
    assert |multiset(p.Wanted(isBid)) + multiset(ClaimedQuotes(p.claims, isBid))| == |multiset(if isBid then bids else asks)|;
  }

  // ---- the decision is a fixed point ----

  /** The resting orders a pairing does not cancel, in cid order. */
  function Kept(orders: seq<Resting>, cancels: set<Cid>): seq<Resting> {
    if |orders| == 0 then []
    else
      var n := |orders| - 1;
      Kept(orders[..n], cancels) + if orders[n].cid in cancels then [] else [orders[n]]
  }

  function Elements(s: seq<Cid>): set<Cid> {
    set c | c in s
  }

  lemma ElementsLast(s: seq<Cid>)
    requires |s| > 0
    ensures Elements(s) == Elements(s[..|s| - 1]) + {s[|s| - 1]}
  {
  }

  function CancelSet(p: Pairing): set<Cid> {
    Elements(p.bidCancels) + Elements(p.askCancels)
  }

  /** One fresh resting order per quote, at exactly the quoted price, with the given cids. */
  function Placed(quotes: seq<Quote>, cids: seq<Cid>, isBid: bool): (orders: seq<Resting>)
    requires |cids| == |quotes|
    ensures |orders| == |quotes|
  {
    seq(|quotes|, i requires 0 <= i < |quotes| => Resting(cids[i], quotes[i].price, quotes[i].qty, isBid))
  }

  lemma {:induction false} CancelsComeFromOrders(orders: seq<Resting>, bids: seq<Quote>, asks: seq<Quote>, tolerance: int -> int, c: Cid)
    requires c in CancelSet(Pair(orders, bids, asks, tolerance))
    ensures exists i :: 0 <= i < |orders| && orders[i].cid == c
  {
    if |orders| > 0 {
      var n := |orders| - 1;
      if c in CancelSet(Pair(orders[..n], bids, asks, tolerance)) {
        CancelsComeFromOrders(orders[..n], bids, asks, tolerance, c);
        var i :| 0 <= i < n && orders[..n][i].cid == c;
        assert orders[i].cid == c;
      } else {
        assert orders[n].cid == c;
      }
    }
  }

  lemma {:induction false} KeptIgnoresLater(orders: seq<Resting>, cancels: set<Cid>, extra: set<Cid>)
    requires forall i :: 0 <= i < |orders| ==> orders[i].cid !in extra
    ensures Kept(orders, cancels) == Kept(orders, cancels + extra)
  {
    if |orders| > 0 {
      KeptIgnoresLater(orders[..|orders| - 1], cancels, extra);
    }
  }

  /** Pairing again without the cancelled orders claims the same quotes and cancels nothing. */
  lemma {:induction false} KeptOrdersKeepTheirQuotes(orders: seq<Resting>, bids: seq<Quote>, asks: seq<Quote>, tolerance: int -> int)
    requires InCidOrder(orders)
    ensures var p := Pair(orders, bids, asks, tolerance);
      Pair(Kept(orders, CancelSet(p)), bids, asks, tolerance) == Pairing(p.bids, p.asks, [], [], p.claims)
  {
    if |orders| > 0 {
      var n := |orders| - 1;
      var before := Pair(orders[..n], bids, asks, tolerance);
      var p := Pair(orders, bids, asks, tolerance);
      KeptOrdersKeepTheirQuotes(orders[..n], bids, asks, tolerance);
      StepCancels(orders, bids, asks, tolerance);
      var kept := Kept(orders[..n], CancelSet(before));
      if orders[n].cid in CancelSet(p) {
        assert Kept(orders, CancelSet(p)) == kept;
      } else {
        assert Kept(orders, CancelSet(p)) == kept + [orders[n]];
        PairAppend(kept, orders[n], bids, asks, tolerance);
      }
    }
  }

  lemma StepCancels(orders: seq<Resting>, bids: seq<Quote>, asks: seq<Quote>, tolerance: int -> int)
    requires |orders| > 0 && InCidOrder(orders)
    ensures var n := |orders| - 1;
      var before := Pair(orders[..n], bids, asks, tolerance);
      var p := Pair(orders, bids, asks, tolerance);
      var o := orders[n];
      && (o.cid in CancelSet(p) <==> Match(before.Wanted(o.isBid), o.price, tolerance(o.price)).None?)
      && Kept(orders[..n], CancelSet(p)) == Kept(orders[..n], CancelSet(before))
  {
    hide Match, Kept;
    var n := |orders| - 1;
    var before := Pair(orders[..n], bids, asks, tolerance);
    var o := orders[n];
    OneMoreCancel(before, o, tolerance);
    if o.cid in CancelSet(before) {
      CancelsComeFromOrders(orders[..n], bids, asks, tolerance, o.cid);
      assert false;
    }
    KeptIgnoresLater(orders[..n], CancelSet(before), {o.cid});
  }

  lemma OneMoreCancel(p: Pairing, o: Resting, tolerance: int -> int)
    ensures CancelSet(PairOne(p, o, tolerance)) ==
      CancelSet(p) + if Match(p.Wanted(o.isBid), o.price, tolerance(o.price)).None? then {o.cid} else {}
  {
    hide Match;
  }

  /** An order resting exactly at the lowest wanted price claims it. */
  lemma ExactPriceClaims(l: seq<Quote>, price: int, tolerance: int)
    requires Sorted(l) && |l| > 0 && l[0].price == price && tolerance >= 0
    ensures Match(l, price, tolerance) == Some(0)
  {
    assert Distance(l[0], price) == 0;
    assert Distance(l[Nearest(l, price)], price) == 0;
  }

  lemma PairAppend(orders: seq<Resting>, o: Resting, bids: seq<Quote>, asks: seq<Quote>, tolerance: int -> int)
    ensures Pair(orders + [o], bids, asks, tolerance) == PairOne(Pair(orders, bids, asks, tolerance), o, tolerance)
  {
    assert (orders + [o])[..|orders|] == orders;
  }

  lemma ExactOrderClaims(q: Pairing, o: Resting, tolerance: int -> int)
    requires Sorted(q.Wanted(o.isBid)) && |q.Wanted(o.isBid)| > 0 && q.Wanted(o.isBid)[0].price == o.price
    requires tolerance(o.price) >= 0
    ensures var r := PairOne(q, o, tolerance);
      && r.Wanted(o.isBid) == q.Wanted(o.isBid)[1..] && r.Wanted(!o.isBid) == q.Wanted(!o.isBid)
      && r.bidCancels == q.bidCancels && r.askCancels == q.askCancels
  {
    var wanted := q.Wanted(o.isBid);
    ExactPriceClaims(wanted, o.price, tolerance(o.price));
    assert Erase(wanted, 0) == wanted[1..];
  }

  /** Pairing further resting orders on top of a pairing already made. */
  ghost function PairOn(p: Pairing, orders: seq<Resting>, tolerance: int -> int): Pairing
    decreases |orders|
  {
    if |orders| == 0 then p else PairOn(PairOne(p, orders[0], tolerance), orders[1..], tolerance)
  }

  lemma {:induction false} PairContinues(first: seq<Resting>, more: seq<Resting>, bids: seq<Quote>, asks: seq<Quote>, tolerance: int -> int)
    ensures Pair(first + more, bids, asks, tolerance) == PairOn(Pair(first, bids, asks, tolerance), more, tolerance)
    decreases |more|
  {
    if |more| == 0 {
      assert first + more == first;
    } else {
      PairAppend(first, more[0], bids, asks, tolerance);
      PairContinues(first + [more[0]], more[1..], bids, asks, tolerance);
      MoveFirst(first, more);
    }
  }

  lemma MoveFirst(first: seq<Resting>, more: seq<Resting>)
    requires |more| > 0
    ensures first + [more[0]] + more[1..] == first + more
  {
  }

  ghost predicate RestAt(placed: seq<Resting>, quotes: seq<Quote>, isBid: bool) {
    |placed| == |quotes| && forall i :: 0 <= i < |placed| ==> placed[i].price == quotes[i].price && placed[i].isBid == isBid
  }

  /** Orders placed at what a pairing left to place claim it all, in ascending price order. */
  lemma {:induction false} PlacedOrdersClaimAll(p: Pairing, placed: seq<Resting>, isBid: bool, tolerance: int -> int)
    requires Sorted(p.Wanted(isBid)) && RestAt(placed, p.Wanted(isBid), isBid) && forall price :: tolerance(price) >= 0
    ensures var q := PairOn(p, placed, tolerance);
      && q.Wanted(isBid) == [] && q.Wanted(!isBid) == p.Wanted(!isBid)
      && q.bidCancels == p.bidCancels && q.askCancels == p.askCancels
    decreases |placed|
  {
    if |placed| > 0 {
      FirstPlacedClaims(p, placed, isBid, tolerance);
      PlacedOrdersClaimAll(PairOne(p, placed[0], tolerance), placed[1..], isBid, tolerance);
    }
  }

  lemma FirstPlacedClaims(p: Pairing, placed: seq<Resting>, isBid: bool, tolerance: int -> int)
    requires Sorted(p.Wanted(isBid)) && RestAt(placed, p.Wanted(isBid), isBid) && |placed| > 0
    requires tolerance(placed[0].price) >= 0
    ensures var q := PairOne(p, placed[0], tolerance);
      && Sorted(q.Wanted(isBid)) && RestAt(placed[1..], q.Wanted(isBid), isBid) && q.Wanted(!isBid) == p.Wanted(!isBid)
      && q.bidCancels == p.bidCancels && q.askCancels == p.askCancels
  {
    ExactOrderClaims(p, placed[0], tolerance);
    TailStillSorted(p.Wanted(isBid));
    TailRestsAt(placed, p.Wanted(isBid), isBid);
  }

  lemma TailStillSorted(l: seq<Quote>)
    requires Sorted(l) && |l| > 0
    ensures Sorted(l[1..])
  {
  }

  lemma TailRestsAt(placed: seq<Resting>, quotes: seq<Quote>, isBid: bool)
    requires RestAt(placed, quotes, isBid) && |placed| > 0
    ensures RestAt(placed[1..], quotes[1..], isBid)
  {
  }

  /** Deciding again over the kept orders and one order per placed quote changes nothing,
      whatever the buffer. */
  lemma PairIsFixedPoint(
      orders: seq<Resting>, bids: seq<Quote>, asks: seq<Quote>, tolerance: int -> int, bidCids: seq<Cid>, askCids: seq<Cid>)
    requires InCidOrder(orders) && Sorted(bids) && Sorted(asks) && forall price :: tolerance(price) >= 0
    requires var p := Pair(orders, bids, asks, tolerance); |bidCids| == |p.bids| && |askCids| == |p.asks|
    ensures var p := Pair(orders, bids, asks, tolerance);
      var resting := Kept(orders, CancelSet(p)) + Placed(p.bids, bidCids, true) + Placed(p.asks, askCids, false);
      var again := Pair(resting, bids, asks, tolerance);
      again.bids == [] && again.asks == [] && again.bidCancels == [] && again.askCancels == []
  {
    var p := Pair(orders, bids, asks, tolerance);
    var kept := Kept(orders, CancelSet(p));
    KeptOrdersKeepTheirQuotes(orders, bids, asks, tolerance);
    PairKeepsSorted(orders, bids, asks, tolerance);
    var newBids, newAsks := Placed(p.bids, bidCids, true), Placed(p.asks, askCids, false);
    var afterKept := Pair(kept, bids, asks, tolerance);
    PairContinues(kept, newBids, bids, asks, tolerance);
    PlacedOrdersClaimAll(afterKept, newBids, true, tolerance);
    var afterBids := Pair(kept + newBids, bids, asks, tolerance);
    PairContinues(kept + newBids, newAsks, bids, asks, tolerance);
    PlacedOrdersClaimAll(afterBids, newAsks, false, tolerance);
  }

  // ---- passivity, before and after the product grid ----

  ghost predicate BookOnGrid(info: PriceInfo) {
    info.tick >= 1 && 0 <= info.bbid < info.bask && info.bbid % info.tick == 0 && info.bask % info.tick == 0
  }

  lemma ShadedTouch(touch: int, buffer: real)
    requires touch >= 0 && buffer >= 0.0
    ensures FloorTicks(touch as real * (1.0 - buffer)) <= touch <= CeilTicks(touch as real * (1.0 + buffer))
  {
    var shade := touch as real * buffer;
    ProductSign(touch as real, buffer);
    assert touch as real * (1.0 - buffer) == touch as real - shade;
    assert touch as real * (1.0 + buffer) == touch as real + shade;
    FloorAtMost(touch as real - shade, touch);
    CeilAtLeast(touch as real + shade, touch);
  }

  lemma LimitsArePassive(params: Params, info: PriceInfo, position: int)
    requires BookOnGrid(info) && params.bboCapBufferBp >= 0.0
    ensures var t := TermsOf(params, info, position);
      && t.bidLimit <= (if params.useBboCapBuffer then info.bbid else info.bask - info.tick)
      && t.askLimit >= (if params.useBboCapBuffer then info.bask else info.bbid + info.tick)
  {
    CapsArePassive(params, info);
    hide DollarToLots, Usage, ClipDelta, BidWidth, AskWidth, BidLimit, AskLimit;
  }

  lemma CapsArePassive(params: Params, info: PriceInfo)
    requires BookOnGrid(info) && (params.useBboCapBuffer ==> params.bboCapBufferBp >= 0.0)
    ensures BidLimit(params, info) <= if params.useBboCapBuffer then info.bbid else info.bask - info.tick
    ensures AskLimit(params, info) >= if params.useBboCapBuffer then info.bask else info.bbid + info.tick
  {
    hide FloorTicks, CeilTicks;
    if params.useBboCapBuffer {
      ShadedTouch(info.bbid, params.bboCapBufferBp / 10000.0);
      ShadedTouch(info.bask, params.bboCapBufferBp / 10000.0);
    } else {
      FloorAtMost(info.bask as real - info.tick as real, info.bask - info.tick);
      CeilAtLeast(info.bbid as real + info.tick as real, info.bbid + info.tick);
    }
  }

  lemma {:induction false} BidsWithinLimit(rule: Rule, n: nat)
    ensures forall q :: q in BidLadder(rule, n) ==> q.price <= rule.limit
  {
    hide Put, BidPrice, AskPrice;
    if n > 0 {
      BidsWithinLimit(rule, n - 1);
      var before := BidLadder(rule, n - 1);
      PutContents(before, BidPrice(rule, n - 1, before), rule.qty(BidPrice(rule, n - 1, before)));
    }
  }

  lemma {:induction false} AsksWithinLimit(rule: Rule, n: nat)
    ensures forall q :: q in AskLadder(rule, n) ==> q.price >= rule.limit
  {
    hide Put, BidPrice, AskPrice;
    if n > 0 {
      AsksWithinLimit(rule, n - 1);
      var before := AskLadder(rule, n - 1);
      PutContents(before, AskPrice(rule, n - 1, before), rule.qty(AskPrice(rule, n - 1, before)));
    }
  }

  lemma OnGrid(value: int, grid: int)
    requires grid >= 1 && value % grid == 0
    ensures Snap(value, grid) == value
  {
    SnapOnGrid(value / grid, grid);
  }

  lemma NeighbourOnGrid(value: int, grid: int)
    requires grid >= 1 && value % grid == 0
    ensures (value + grid) % grid == 0 && (value - grid) % grid == 0
  {
    var k := value / grid;
    MultipleHasNoRemainder(k + 1, grid);
    MultipleHasNoRemainder(k - 1, grid);
    assert (k + 1) * grid == value + grid && (k - 1) * grid == value - grid;
  }

  /** No wanted bid reaches the best ask and no wanted ask the best bid, both as decided and
      as rounded onto the product's grid, in either cap mode and for any ladder. */
  lemma QuotesStayPassive(params: Params, info: PriceInfo, position: int)
    requires BookOnGrid(info) && params.bboCapBufferBp >= 0.0
    ensures forall q :: q in WantedBids(params, info, false, position) ==> q.price < info.bask && Snap(q.price, info.tick) < info.bask
    ensures forall q :: q in WantedAsks(params, info, false, position) ==> q.price > info.bbid && Snap(q.price, info.tick) > info.bbid
  {
    forall q | q in WantedBids(params, info, false, position)
      ensures q.price < info.bask && Snap(q.price, info.tick) < info.bask
    {
      BidIsPassive(params, info, position, q);
    }
    forall q | q in WantedAsks(params, info, false, position)
      ensures q.price > info.bbid && Snap(q.price, info.tick) > info.bbid
    {
      AskIsPassive(params, info, position, q);
    }
  }

  lemma BidIsPassive(params: Params, info: PriceInfo, position: int, q: Quote)
    requires BookOnGrid(info) && params.bboCapBufferBp >= 0.0 && q in WantedBids(params, info, false, position)
    ensures q.price < info.bask && Snap(q.price, info.tick) < info.bask
  {
    var t := TermsOf(params, info, position);
    LimitsArePassive(params, info, position);
    BidsWithinLimit(BidRule(params, info, t), params.orderNum);
    SnapBelow(q.price, if params.useBboCapBuffer then info.bbid else info.bask - info.tick, info);
  }

  lemma AskIsPassive(params: Params, info: PriceInfo, position: int, q: Quote)
    requires BookOnGrid(info) && params.bboCapBufferBp >= 0.0 && q in WantedAsks(params, info, false, position)
    ensures q.price > info.bbid && Snap(q.price, info.tick) > info.bbid
  {
    var t := TermsOf(params, info, position);
    LimitsArePassive(params, info, position);
    AsksWithinLimit(AskRule(params, info, t), params.orderNum);
    SnapAbove(q.price, if params.useBboCapBuffer then info.bask else info.bbid + info.tick, info);
  }

  lemma SnapBelow(price: int, cap: int, info: PriceInfo)
    requires BookOnGrid(info) && price <= cap && (cap == info.bbid || cap == info.bask - info.tick)
    ensures price < info.bask && Snap(price, info.tick) < info.bask
  {
    NeighbourOnGrid(info.bask, info.tick);
    OnGrid(cap, info.tick);
    SnapMonotone(price, cap, info.tick);
  }

  lemma SnapAbove(price: int, cap: int, info: PriceInfo)
    requires BookOnGrid(info) && price >= cap && (cap == info.bask || cap == info.bbid + info.tick)
    ensures price > info.bbid && Snap(price, info.tick) > info.bbid
  {
    NeighbourOnGrid(info.bbid, info.tick);
    OnGrid(cap, info.tick);
    SnapMonotone(cap, price, info.tick);
  }

  /** Where the fair price separates the two sides: every bid is at or below it, rounded, and
      every ask at or above. */
  predicate OpensOutward(params: Params) {
    (params.useSpreadCap ==> params.spreadCapBp >= 0.0)
    && (params.tickBasedOrderInterval || params.orderNum <= 1 || params.orderIntervalBp >= 0.0)
  }

  lemma OffsetIsNotNegative(params: Params, info: PriceInfo, k: nat)
    requires OpensOutward(params) && info.tick >= 1 && info.fair >= 0.0 && k < params.orderNum
    ensures Offset(params, info, k) >= 0.0
  {
    if k == 0 {
      assert info.fair * k as real == 0.0;
      assert 0.0 * params.orderIntervalBp / 10000.0 == 0.0;
    } else if params.tickBasedOrderInterval {
      NatProduct(k, params.orderIntervalTicks);
      ProductSign((k * params.orderIntervalTicks) as real, info.tick as real);
    } else {
      ProductSign(info.fair, k as real);
      ProductSign(info.fair * k as real, params.orderIntervalBp);
    }
  }

  lemma NatProduct(a: nat, b: nat)
    ensures a * b >= 0
  {
  }

  lemma BidLevelBelow(rule: Rule, k: nat, before: seq<Quote>, bound: int)
    requires k >= 1 && rule.tickBased ==> |before| > 0 && HighestPrice(before) <= bound
    requires rule.gap(k) >= 0.0 && Round(rule.level(k)) <= bound
    ensures BidPrice(rule, k, before) <= bound
  {
    if k >= 1 && rule.tickBased {
      var top := HighestPrice(before);
      RoundMonotone(top as real - rule.gap(k), top as real);
      RoundOfWhole(top as real, top);
    }
  }

  lemma AskLevelAbove(rule: Rule, k: nat, before: seq<Quote>, bound: int)
    requires k >= 1 && rule.tickBased ==> |before| > 0 && before[0].price >= bound
    requires rule.gap(k) >= 0.0 && Round(rule.level(k)) >= bound
    ensures AskPrice(rule, k, before) >= bound
  {
    if k >= 1 && rule.tickBased {
      var top := before[0].price;
      RoundMonotone(top as real, top as real + rule.gap(k));
      RoundOfWhole(top as real, top);
    }
  }

  lemma {:induction false} BidsBelow(rule: Rule, n: nat, bound: int)
    requires forall k: nat :: k < n ==> rule.gap(k) >= 0.0 && Round(rule.level(k)) <= bound
    ensures forall q :: q in BidLadder(rule, n) ==> q.price <= bound
  {
    hide Put, BidPrice, AskPrice;
    if n > 0 {
      BidsBelow(rule, n - 1, bound);
      assert rule.gap(n - 1) >= 0.0;
      var before := BidLadder(rule, n - 1);
      BidLevelBelow(rule, n - 1, before, bound);
      PutContents(before, BidPrice(rule, n - 1, before), rule.qty(BidPrice(rule, n - 1, before)));
    }
  }

  lemma {:induction false} AsksAbove(rule: Rule, n: nat, bound: int)
    requires forall k: nat :: k < n ==> rule.gap(k) >= 0.0 && Round(rule.level(k)) >= bound
    ensures forall q :: q in AskLadder(rule, n) ==> q.price >= bound
  {
    hide Put, BidPrice, AskPrice;
    if n > 0 {
      AsksAbove(rule, n - 1, bound);
      assert rule.gap(n - 1) >= 0.0;
      var before := AskLadder(rule, n - 1);
      AskLevelAbove(rule, n - 1, before, bound);
      PutContents(before, AskPrice(rule, n - 1, before), rule.qty(AskPrice(rule, n - 1, before)));
    }
  }

  lemma LevelsStraddleFair(params: Params, info: PriceInfo, delta: real, k: nat)
    requires OpensOutward(params) && info.tick >= 1 && info.fair >= 0.0 && k < params.orderNum && delta >= 0.0
    ensures Round(BidLevel(params, info, delta, k)) <= Round(info.fair) <= Round(AskLevel(params, info, delta, k))
  {
    OffsetIsNotNegative(params, info, k);
    ProductSign(info.fair, delta / 10000.0);
    assert info.fair * (1.0 - delta / 10000.0) == info.fair - info.fair * (delta / 10000.0);
    assert info.fair * (1.0 + delta / 10000.0) == info.fair + info.fair * (delta / 10000.0);
    RoundMonotone(BidLevel(params, info, delta, k), info.fair);
    RoundMonotone(info.fair, AskLevel(params, info, delta, k));
  }

  lemma QuotesStraddleFair(params: Params, info: PriceInfo, t: Terms)
    requires OpensOutward(params) && info.tick >= 1 && info.fair >= 0.0 && t.deltaBid >= 0.0 && t.deltaAsk >= 0.0
    ensures forall q :: q in BidLadder(BidRule(params, info, t), params.orderNum) ==> q.price <= Round(info.fair)
    ensures forall q :: q in AskLadder(AskRule(params, info, t), params.orderNum) ==> q.price >= Round(info.fair)
  {
    hide Round, Offset, BidLevel, AskLevel;
    forall k: nat | k < params.orderNum
      ensures Offset(params, info, k) >= 0.0
      ensures Round(BidRule(params, info, t).level(k)) <= Round(info.fair)
      ensures Round(AskRule(params, info, t).level(k)) >= Round(info.fair)
    {
      OffsetIsNotNegative(params, info, k);
      LevelsStraddleFair(params, info, t.deltaBid, k);
      LevelsStraddleFair(params, info, t.deltaAsk, k);
    }
    BidsBelow(BidRule(params, info, t), params.orderNum, Round(info.fair));
    AsksAbove(AskRule(params, info, t), params.orderNum, Round(info.fair));
  }

  // ---- own quotes against own quotes ----

  predicate Crossed(info: PriceInfo, bid: Quote, ask: Quote)
    requires info.tick >= 1
  {
    bid.price > ask.price || Snap(bid.price, info.tick) > Snap(ask.price, info.tick)
  }

  /** The parameters that hold the sides apart, each in its own way: the opposite touch, or fair. */
  predicate SidesStayApart(params: Params) {
    params.useBboCapBuffer || OpensOutward(params)
  }

  /** A view of the market the handler can hand to the strategy. */
  ghost predicate FromFeed(info: PriceInfo) {
    && BookOnGrid(info) && info.mid == (info.bbid + info.bask) as real / 2.0
    && info.fair >= 0.0 && info.forwardVol > 0.0
  }

  /** Whatever the book, no own bid ever stands above an own ask, before or after snapping. */
  ghost predicate NeverCrosses(params: Params, position: int) {
    forall info, bid, ask ::
      FromFeed(info) && bid in WantedBids(params, info, false, position) && ask in WantedAsks(params, info, false, position)
      ==> !Crossed(info, bid, ask)
  }

  predicate TwoSided(params: Params, info: PriceInfo, position: int) {
    var t := TermsOf(params, info, position); t.bidQtyLimit > 0 && t.askQtyLimit > 0
  }

  /** Capped at the own-side touch the quotes stand apart by the whole spread; otherwise both
      ladders open away from the fair price. */
  lemma OwnQuotesDoNotCross(params: Params, info: PriceInfo, position: int, bid: Quote, ask: Quote)
    requires BookOnGrid(info)
    requires (params.useBboCapBuffer && params.bboCapBufferBp >= 0.0) || (OpensOutward(params) && info.fair >= 0.0)
    requires bid in WantedBids(params, info, false, position) && ask in WantedAsks(params, info, false, position)
    ensures !Crossed(info, bid, ask)
  {
    var t := TermsOf(params, info, position);
    if params.useBboCapBuffer && params.bboCapBufferBp >= 0.0 {
      LimitsArePassive(params, info, position);
      BidsWithinLimit(BidRule(params, info, t), params.orderNum);
      AsksWithinLimit(AskRule(params, info, t), params.orderNum);
    } else {
      QuotesStraddleFair(params, info, t);
    }
    SnapMonotone(bid.price, ask.price, info.tick);
  }

  /** The narrowest book on which own quotes can cross. */
  function NarrowBook(forwardVol: real): PriceInfo { PriceInfo(0, 3, 1.5, 1.5, forwardVol, 1) }

  lemma {:induction false} BidLadderHas(rule: Rule, n: nat, k: nat)
    requires k < n && (k == 0 || !rule.tickBased)
    ensures exists q :: q in BidLadder(rule, n) && q.price == BidPrice(rule, k, BidLadder(rule, k))
  {
    hide Put, BidPrice, AskPrice;
    var before := BidLadder(rule, n - 1);
    var price := BidPrice(rule, n - 1, before);
    PutContents(before, price, rule.qty(price));
    if k == n - 1 {
      assert Quote(price, rule.qty(price)) in BidLadder(rule, n);
    } else {
      BidLadderHas(rule, n - 1, k);
      var q :| q in before && q.price == BidPrice(rule, k, BidLadder(rule, k));
      assert q in BidLadder(rule, n) || Quote(q.price, rule.qty(price)) in BidLadder(rule, n);
    }
  }

  lemma {:induction false} AskLadderHas(rule: Rule, n: nat, k: nat)
    requires k < n && (k == 0 || !rule.tickBased)
    ensures exists q :: q in AskLadder(rule, n) && q.price == AskPrice(rule, k, AskLadder(rule, k))
  {
    hide Put, BidPrice, AskPrice;
    var before := AskLadder(rule, n - 1);
    var price := AskPrice(rule, n - 1, before);
    PutContents(before, price, rule.qty(price));
    if k == n - 1 {
      assert Quote(price, rule.qty(price)) in AskLadder(rule, n);
    } else {
      AskLadderHas(rule, n - 1, k);
      var q :| q in before && q.price == AskPrice(rule, k, AskLadder(rule, k));
      assert q in AskLadder(rule, n) || Quote(q.price, rule.qty(price)) in AskLadder(rule, n);
    }
  }

  /** Level `k` reaches above fair with a bid and below it with an ask. */
  lemma LevelCrosses(params: Params, info: PriceInfo, position: int, k: nat) returns (bid: Quote, ask: Quote)
    requires !params.useBboCapBuffer && info == NarrowBook(info.forwardVol) && TwoSided(params, info, position)
    requires k < params.orderNum && (k == 0 || !params.tickBasedOrderInterval)
    requires var t := TermsOf(params, info, position);
      BidLevel(params, info, t.deltaBid, k) > 1.5 && AskLevel(params, info, t.deltaAsk, k) < 1.5
    ensures bid in WantedBids(params, info, false, position) && ask in WantedAsks(params, info, false, position)
    ensures bid.price == 2 && ask.price == 1
  {
    hide BidLevel, AskLevel;
    var t := TermsOf(params, info, position);
    var bidRule, askRule := BidRule(params, info, t), AskRule(params, info, t);
    assert t.bidLimit == 2 && t.askLimit == 1 by {
      assert 3 as real - 1 as real == 2.0 && 0 as real + 1 as real == 1.0;
    }
    assert Round(bidRule.level(k)) >= 2 && Round(askRule.level(k)) <= 1;
    BidLadderHas(bidRule, params.orderNum, k);
    AskLadderHas(askRule, params.orderNum, k);
    bid :| bid in BidLadder(bidRule, params.orderNum) && bid.price == BidPrice(bidRule, k, BidLadder(bidRule, k));
    ask :| ask in AskLadder(askRule, params.orderNum) && ask.price == AskPrice(askRule, k, AskLadder(askRule, k));
  }

  /** With a negative spread cap the quoted width is negative, and on the narrow book the first
      bid stands over the first ask, whatever the other parameters. */
  lemma NegativeSpreadCapCrosses(params: Params, position: int) returns (bid: Quote, ask: Quote)
    requires !params.useBboCapBuffer && params.useSpreadCap && params.spreadCapBp < 0.0 && params.orderNum >= 1
    requires TwoSided(params, NarrowBook(1.0), position)
    ensures var info := NarrowBook(1.0);
      bid in WantedBids(params, info, false, position) && ask in WantedAsks(params, info, false, position)
    ensures bid.price == 2 && ask.price == 1
  {
    var info := NarrowBook(1.0);
    var t := TermsOf(params, info, position);
    assert t.deltaBid == params.spreadCapBp && t.deltaAsk == params.spreadCapBp;
    assert Offset(params, info, 0) == 0.0;
    bid, ask := LevelCrosses(params, info, position, 0);
  }

  lemma LevelOneCrosses(params: Params, info: PriceInfo, delta: real)
    requires !params.tickBasedOrderInterval && info.fair == 1.5 && delta < -params.orderIntervalBp
    ensures BidLevel(params, info, delta, 1) > 1.5 && AskLevel(params, info, delta, 1) < 1.5
  {
    assert Offset(params, info, 1) == 1.5 * params.orderIntervalBp / 10000.0;
    assert 1.5 * (1.0 - delta / 10000.0) == 1.5 - 1.5 * delta / 10000.0;
    assert 1.5 * (1.0 + delta / 10000.0) == 1.5 + 1.5 * delta / 10000.0;
  }

  /** A volatility so small that neither side's width reaches `bound`. */
  lemma QuietVol(x: real, y: real, bound: real) returns (vol: real)
    requires bound > 0.0
    ensures vol > 0.0 && x * vol < bound && y * vol < bound
  {
    var m := (if x >= 0.0 then x else 0.0) + (if y >= 0.0 then y else 0.0) + 1.0;
    vol := bound / m;
    assert m * vol == bound;
    assert (m - x) * vol > 0.0 && (m - y) * vol > 0.0;
  }

  /** A negative basis-point interval carries the second level of each side across fair, at any
      volatility small enough not to outweigh it. */
  lemma NegativeIntervalCrosses(params: Params, position: int) returns (info: PriceInfo, bid: Quote, ask: Quote)
    requires !params.useBboCapBuffer && !params.tickBasedOrderInterval && params.orderNum >= 2 && params.orderIntervalBp < 0.0
    requires TwoSided(params, NarrowBook(1.0), position)
    ensures info == NarrowBook(info.forwardVol) && info.forwardVol > 0.0
    ensures bid in WantedBids(params, info, false, position) && ask in WantedAsks(params, info, false, position)
    ensures bid.price == 2 && ask.price == 1
  {
    info := QuietBook(params, position, -params.orderIntervalBp);
    var t := TermsOf(params, info, position);
    LevelOneCrosses(params, info, t.deltaBid);
    LevelOneCrosses(params, info, t.deltaAsk);
    hide TermsOf;
    bid, ask := LevelCrosses(params, info, position, 1);
  }

  lemma QuietBook(params: Params, position: int, bound: real) returns (info: PriceInfo)
    requires bound > 0.0 && TwoSided(params, NarrowBook(1.0), position)
    ensures info == NarrowBook(info.forwardVol) && info.forwardVol > 0.0 && TwoSided(params, info, position)
    ensures var t := TermsOf(params, info, position); t.deltaBid < bound && t.deltaAsk < bound
  {
    hide ClipDelta, DollarToLots, Usage, BidWidth, AskWidth, BidLimit, AskLimit;
    var usage := Usage(params, 1.5, position);
    var wider, narrower := 1.0 + params.skewRatio * usage, 1.0 - params.skewRatio * usage;
    var vol := QuietVol(params.spreadConstBp * wider, params.spreadConstBp * narrower, bound);
    info := NarrowBook(vol);
    WidthsAre(params, vol, usage, wider, narrower);
    ClippedBelow(params, BidWidth(params, vol, usage), bound);
    ClippedBelow(params, AskWidth(params, vol, usage), bound);
  }

  lemma WidthsAre(params: Params, vol: real, usage: real, wider: real, narrower: real)
    requires wider == 1.0 + params.skewRatio * usage && narrower == 1.0 - params.skewRatio * usage
    ensures BidWidth(params, vol, usage) == params.spreadConstBp * wider * vol
    ensures AskWidth(params, vol, usage) == params.spreadConstBp * narrower * vol
  {
    Regroup(params.spreadConstBp, vol, wider);
    Regroup(params.spreadConstBp, vol, narrower);
  }

  lemma Regroup(a: real, b: real, c: real)
    ensures a * b * c == a * c * b
  {
  }

  lemma ClippedBelow(params: Params, delta: real, bound: real)
    requires bound > 0.0 && delta < bound
    ensures ClipDelta(params, delta) < bound
  {
  }

  lemma CheaperLots(limit: real, mid: real)
    requires mid >= 1.5 && DollarToLots(limit, mid) > 0
    ensures DollarToLots(limit, 1.5) >= DollarToLots(limit, mid)
  {
    var lots := limit / mid;
    assert lots > 0.0;
    QuotientOf(limit, mid, lots);
    RoundMonotone(lots, limit / 1.5);
  }

  lemma QuotientOf(limit: real, mid: real, lots: real)
    requires mid >= 1.5 && lots > 0.0 && lots == limit / mid
    ensures lots <= limit / 1.5
  {
    var spare := mid - 1.5;
    ProductSign(lots, spare);
    assert lots * mid == lots * 1.5 + lots * spare;
  }

  /** A book wide enough to cross on leaves less room for positions than the narrow book. */
  lemma NarrowBookRoomiest(params: Params, info: PriceInfo, position: int)
    requires info.mid >= 1.5 && TwoSided(params, info, position)
    ensures TwoSided(params, NarrowBook(1.0), position)
  {
    hide DollarToLots, BidLimit, AskLimit, Usage, BidWidth, AskWidth, ClipDelta;
    if params.positionInDollar {
      CheaperLots(params.positionLimitInDollar, info.mid);
    }
  }

  lemma CrossingNeedsRoom(params: Params, info: PriceInfo, position: int, bid: Quote, ask: Quote)
    requires !params.useBboCapBuffer && FromFeed(info)
    requires bid in WantedBids(params, info, false, position) && ask in WantedAsks(params, info, false, position)
    requires Crossed(info, bid, ask)
    ensures info.mid >= 1.5 && TwoSided(params, info, position)
  {
    hide DollarToLots, BidLimit, AskLimit, Usage, BidWidth, AskWidth, ClipDelta, BidLadder, AskLadder, Snap;
    var t := TermsOf(params, info, position);
    if bid.price <= ask.price {
      SnapMonotone(bid.price, ask.price, info.tick);
    }
    CapsArePassive(params, info);
    BidsWithinLimit(BidRule(params, info, t), params.orderNum);
    AsksWithinLimit(AskRule(params, info, t), params.orderNum);
    RoomToCross(info, bid.price, ask.price);
  }

  lemma RoomToCross(info: PriceInfo, bid: int, ask: int)
    requires FromFeed(info) && bid > ask && bid <= info.bask - info.tick && ask >= info.bbid + info.tick
    ensures info.mid >= 1.5
  {
    assert info.bbid + info.bask >= 3;
  }

  /** Exactly when own quotes never cross: the caps sit at the touch, or both ladders open away
      from fair, or the parameters never quote both sides of a book wide enough to cross on. */
  lemma NeverCrossesIff(params: Params, position: int)
    requires params.useBboCapBuffer ==> params.bboCapBufferBp >= 0.0
    ensures NeverCrosses(params, position) <==>
      SidesStayApart(params) || params.orderNum == 0 || !TwoSided(params, NarrowBook(1.0), position)
  {
    hide WantedBids, WantedAsks, Crossed, TwoSided;
    if SidesStayApart(params) || params.orderNum == 0 || !TwoSided(params, NarrowBook(1.0), position) {
      forall info, bid, ask |
        FromFeed(info) && bid in WantedBids(params, info, false, position) && ask in WantedAsks(params, info, false, position)
        ensures !Crossed(info, bid, ask)
      {
        if SidesStayApart(params) {
          OwnQuotesDoNotCross(params, info, position, bid, ask);
        } else if params.orderNum == 0 {
          NoLevelsNoQuotes(params, info, position);
        } else if Crossed(info, bid, ask) {
          CrossingNeedsRoom(params, info, position, bid, ask);
          NarrowBookRoomiest(params, info, position);
        }
      }
    } else if params.useSpreadCap && params.spreadCapBp < 0.0 {
      var bid, ask := NegativeSpreadCapCrosses(params, position);
      NarrowCrossing(params, position, NarrowBook(1.0), bid, ask);
    } else {
      var info, bid, ask := NegativeIntervalCrosses(params, position);
      NarrowCrossing(params, position, info, bid, ask);
    }
  }

  lemma NoLevelsNoQuotes(params: Params, info: PriceInfo, position: int)
    requires params.orderNum == 0
    ensures WantedBids(params, info, false, position) == [] && WantedAsks(params, info, false, position) == []
  {
  }

  lemma NarrowCrossing(params: Params, position: int, info: PriceInfo, bid: Quote, ask: Quote)
    requires info == NarrowBook(info.forwardVol) && info.forwardVol > 0.0
    requires bid in WantedBids(params, info, false, position) && ask in WantedAsks(params, info, false, position)
    requires bid.price > ask.price
    ensures !NeverCrosses(params, position)
  {
    hide WantedBids, WantedAsks;
    assert FromFeed(info) && Crossed(info, bid, ask);
  }

  // ---- ladder spacing ----

  function Step(params: Params, info: PriceInfo): int { params.orderIntervalTicks * info.tick }

  /** The prices of `n` levels, level `k` standing `gaps(k)` away from the top. */
  ghost function LevelsBelow(top: int, gaps: nat -> int, n: nat): set<int> {
    set k: nat | 0 <= k < n :: top - gaps(k)
  }

  ghost function LevelsAbove(top: int, gaps: nat -> int, n: nat): set<int> {
    set k: nat | 0 <= k < n :: top + gaps(k)
  }

  lemma LevelsGrow(top: int, gaps: nat -> int, n: nat)
    requires n > 0
    ensures LevelsBelow(top, gaps, n) == LevelsBelow(top, gaps, n - 1) + {top - gaps(n - 1)}
    ensures LevelsAbove(top, gaps, n) == LevelsAbove(top, gaps, n - 1) + {top + gaps(n - 1)}
  {
  }

  /** The gaps of a tick-based ladder, as whole numbers. */
  ghost predicate WholeGaps(rule: Rule, gaps: nat -> int) {
    rule.tickBased && forall k: nat :: k >= 1 ==> gaps(k) >= 0 && rule.gap(k) == gaps(k) as real
  }

  lemma BidLevelPrice(rule: Rule, k: nat, top: int, gaps: nat -> int)
    requires WholeGaps(rule, gaps) && k >= 1 && top <= rule.limit
    ensures Min(Round(top as real - rule.gap(k)), rule.limit) == top - gaps(k)
  {
    RoundOfWhole(top as real - rule.gap(k), top - gaps(k));
  }

  lemma AskLevelPrice(rule: Rule, k: nat, top: int, gaps: nat -> int)
    requires WholeGaps(rule, gaps) && k >= 1 && top >= rule.limit
    ensures Max(Round(top as real + rule.gap(k)), rule.limit) == top + gaps(k)
  {
    RoundOfWhole(top as real + rule.gap(k), top + gaps(k));
  }

  lemma {:induction false} BidTop(rule: Rule, n: nat, gaps: nat -> int)
    requires WholeGaps(rule, gaps) && n > 0
    ensures HighestPrice(BidLadder(rule, n)) == BidPrice(rule, 0, [])
  {
    if n > 1 {
      var before := BidLadder(rule, n - 1);
      BidTop(rule, n - 1, gaps);
      BidLevelPrice(rule, n - 1, HighestPrice(before), gaps);
      var price := BidPrice(rule, n - 1, before);
      PutBelow(before, price, rule.qty(price));
    }
  }

  lemma {:induction false} AskTop(rule: Rule, n: nat, gaps: nat -> int)
    requires WholeGaps(rule, gaps) && n > 0
    ensures AskLadder(rule, n)[0].price == AskPrice(rule, 0, [])
  {
    if n > 1 {
      var before := AskLadder(rule, n - 1);
      AskTop(rule, n - 1, gaps);
      AskLevelPrice(rule, n - 1, before[0].price, gaps);
      var price := AskPrice(rule, n - 1, before);
      PutAbove(before, price, rule.qty(price));
    }
  }

  lemma BidLevelOf(rule: Rule, k: nat, gaps: nat -> int)
    requires WholeGaps(rule, gaps) && gaps(0) == 0
    ensures BidPrice(rule, k, BidLadder(rule, k)) == BidPrice(rule, 0, []) - gaps(k)
  {
    if k >= 1 {
      BidTop(rule, k, gaps);
      BidLevelPrice(rule, k, BidPrice(rule, 0, []), gaps);
    }
  }

  lemma AskLevelOf(rule: Rule, k: nat, gaps: nat -> int)
    requires WholeGaps(rule, gaps) && gaps(0) == 0
    ensures AskPrice(rule, k, AskLadder(rule, k)) == AskPrice(rule, 0, []) + gaps(k)
  {
    if k >= 1 {
      AskTop(rule, k, gaps);
      AskLevelPrice(rule, k, AskPrice(rule, 0, []), gaps);
    }
  }

  /** A tick-based bid ladder: level k stands exactly its gap below the top. */
  lemma {:induction false} BidLadderLevels(rule: Rule, n: nat, gaps: nat -> int)
    requires WholeGaps(rule, gaps) && gaps(0) == 0
    ensures Prices(BidLadder(rule, n)) == LevelsBelow(BidPrice(rule, 0, []), gaps, n)
  {
    hide Put, BidPrice, AskPrice;
    if n > 0 {
      BidLadderLevels(rule, n - 1, gaps);
      LevelsGrow(BidPrice(rule, 0, []), gaps, n);
      BidLevelOf(rule, n - 1, gaps);
      var before := BidLadder(rule, n - 1);
      PutPrices(before, BidPrice(rule, n - 1, before), rule.qty(BidPrice(rule, n - 1, before)));
    }
  }

  lemma {:induction false} AskLadderLevels(rule: Rule, n: nat, gaps: nat -> int)
    requires WholeGaps(rule, gaps) && gaps(0) == 0
    ensures Prices(AskLadder(rule, n)) == LevelsAbove(AskPrice(rule, 0, []), gaps, n)
  {
    hide Put, BidPrice, AskPrice;
    if n > 0 {
      AskLadderLevels(rule, n - 1, gaps);
      LevelsGrow(AskPrice(rule, 0, []), gaps, n);
      AskLevelOf(rule, n - 1, gaps);
      var before := AskLadder(rule, n - 1);
      PutPrices(before, AskPrice(rule, n - 1, before), rule.qty(AskPrice(rule, n - 1, before)));
    }
  }

  /** `k` intervals of order_interval_ticks product ticks. */
  function Gaps(params: Params, info: PriceInfo): nat -> int {
    (k: nat) => k * params.orderIntervalTicks * info.tick
  }

  lemma LevelOffset(params: Params, info: PriceInfo, k: nat)
    requires params.tickBasedOrderInterval && k >= 1 && info.tick >= 1
    ensures Offset(params, info, k) == Gaps(params, info)(k) as real && Gaps(params, info)(k) >= 0
  {
    NatProduct(k, params.orderIntervalTicks);
    NatProduct(k * params.orderIntervalTicks, info.tick);
    RealOfProduct(k * params.orderIntervalTicks, info.tick);
  }

  /** A tick-based ladder's prices are exactly the top and order_interval_ticks product ticks
      further out for each level after it. */
  lemma TickLadderSpacing(params: Params, info: PriceInfo, t: Terms)
    requires params.tickBasedOrderInterval && info.tick >= 1
    ensures t.bidQtyLimit > 0 ==>
      Prices(Bids(params, info, t)) == LevelsBelow(BidPrice(BidRule(params, info, t), 0, []), Gaps(params, info), params.orderNum)
    ensures t.askQtyLimit > 0 ==>
      Prices(Asks(params, info, t)) == LevelsAbove(AskPrice(AskRule(params, info, t), 0, []), Gaps(params, info), params.orderNum)
  {
    forall k: nat | k >= 1
      ensures Offset(params, info, k) == Gaps(params, info)(k) as real && Gaps(params, info)(k) >= 0
    {
      LevelOffset(params, info, k);
    }
    BidLadderLevels(BidRule(params, info, t), params.orderNum, Gaps(params, info));
    AskLadderLevels(AskRule(params, info, t), params.orderNum, Gaps(params, info));
  }

  /** Rounding a tick-based ladder of non-negative prices onto the product grid moves every level
      by the same amount, so the spacing survives. */
  lemma SpacingSurvivesSnapping(params: Params, info: PriceInfo, top: int, k: nat)
    requires info.tick >= 1 && top >= 0
    ensures Snap(top + Gaps(params, info)(k), info.tick) == Snap(top, info.tick) + Gaps(params, info)(k)
    ensures top - Gaps(params, info)(k) >= 0 ==>
      Snap(top - Gaps(params, info)(k), info.tick) == Snap(top, info.tick) - Gaps(params, info)(k)
  {
    var steps := k * params.orderIntervalTicks;
    NatProduct(k, params.orderIntervalTicks);
    NatProduct(steps, info.tick);
    SnapShift(top, steps, info.tick);
    assert -steps * info.tick == -(steps * info.tick);
    if top - Gaps(params, info)(k) >= 0 {
      SnapShift(top, -steps, info.tick);
    }
  }

  // ---- liquidation ----

  /** The liquidation decision places at most one order: on the side that reduces the position,
      for the whole of it. */
  lemma {:induction false} LiquidationOnlyReduces(params: Params, info: PriceInfo, position: int, orders: seq<Resting>)
    ensures var d := Decide(params, info, true, position, orders);
      && (forall q :: q in d.bids ==> position < 0 && q.qty == -position)
      && (forall q :: q in d.asks ==> position > 0 && q.qty == position)
      && |d.bids| + |d.asks| <= 1
  {
    var bids, asks := LiquidationBids(info, position), LiquidationAsks(info, position);
    PairConserves(orders, bids, asks, BufferTolerance(params, true), true);
    PairConserves(orders, bids, asks, BufferTolerance(params, true), false);
    var d := Decide(params, info, true, position, orders);
    forall q | q in d.bids ensures q in bids {
      assert q in multiset(d.bids);
      assert q in multiset(bids);
    }
    forall q | q in d.asks ensures q in asks {
      assert q in multiset(d.asks);
      assert q in multiset(asks);
    }
    PairCounts(orders, bids, asks, BufferTolerance(params, true), true);
    PairCounts(orders, bids, asks, BufferTolerance(params, true), false);
    assert |multiset(d.bids)| <= |multiset(bids)|;
    assert |multiset(d.asks)| <= |multiset(asks)|;
  }
}
