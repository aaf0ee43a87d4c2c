/** GeuantStrategy: what the strategy wants to quote, and how what already rests is paired
    with it. Prices are counts of min ticks and one product tick is `tick` of them. */
module Strategy {
  import opened Optional
  import opened Rounding
  import opened Ladders

  type Cid = nat

  const INT32_MAX := 0x7fff_ffff

  datatype Params = Params(
    spreadConstBp: real, skewRatio: real,
    useSpreadCap: bool, spreadCapBp: real,
    useBboCapBuffer: bool, bboCapBufferBp: real,
    orderLots: int, orderDollar: real,
    positionLimitInLots: int, positionInDollar: bool, positionLimitInDollar: real,
    orderBufferBp: real,
    orderNum: nat, orderIntervalBp: real,
    tickBasedOrderInterval: bool, orderIntervalTicks: nat,
    shortSellUnable: bool)

  datatype PriceInfo = PriceInfo(bbid: int, bask: int, mid: real, fair: real, forwardVol: real, tick: int)

  /** One entry of outstanding_orders; sequences of these are in cid order. */
  datatype Resting = Resting(cid: Cid, price: int, qty: int, isBid: bool)

  ghost predicate InCidOrder(orders: seq<Resting>) {
    forall i, j :: 0 <= i < j < |orders| ==> orders[i].cid < orders[j].cid
  }

  // ---- pairing resting orders with wanted quotes ----

  function Distance(q: Quote, price: int): nat {
    if q.price < price then price - q.price else q.price - price
  }

  /** Brute force: the nearest quote of all, the lower-priced one on a tie. */
  function Nearest(l: seq<Quote>, price: int): (r: nat)
    requires |l| > 0
    ensures r < |l|
    ensures forall j :: 0 <= j < |l| ==> Distance(l[r], price) <= Distance(l[j], price)
    ensures forall j :: 0 <= j < r ==> Distance(l[r], price) < Distance(l[j], price)
  {
    var n := |l| - 1;
    if n == 0 then 0
    else
      var best := Nearest(l[..n], price);
      if Distance(l[n], price) < Distance(l[best], price) then n else best
  }

  function Tolerance(price: int, bufferBp: real): (t: int)
    ensures t >= 0
  {
    if bufferBp > 0.0 then
      var magnitude := (if price < 0 then -price else price) as real;
      ProductSign(magnitude, bufferBp);
      assert magnitude * bufferBp / 10000.0 >= 0.0;
      FloorTicks(magnitude * bufferBp / 10000.0)
    else 0
  }

  /** order_buffer_bp as the tolerance it grants around each price. */
  function ToleranceFor(bufferBp: real): int -> int {
    price => Tolerance(price, bufferBp)
  }

  function Match(l: seq<Quote>, price: int, tolerance: int): (r: Option<nat>)
    ensures r.Some? ==> r.value < |l| && Distance(l[r.value], price) <= tolerance
    ensures r.None? <==> forall j :: 0 <= j < |l| ==> Distance(l[j], price) > tolerance
  {
    if |l| > 0 && Distance(l[Nearest(l, price)], price) <= tolerance then Some(Nearest(l, price)) else None
  }

  /** A resting order standing in for a wanted quote. */
  datatype Claim = Claim(order: Resting, wanted: Quote)

  datatype Pairing = Pairing(
    bids: seq<Quote>, asks: seq<Quote>,
    bidCancels: seq<Cid>, askCancels: seq<Cid>,
    claims: seq<Claim>)
  {
    function Wanted(isBid: bool): seq<Quote> { if isBid then bids else asks }
    function Cancels(isBid: bool): seq<Cid> { if isBid then bidCancels else askCancels }
  }

  function PairOne(p: Pairing, o: Resting, tolerance: int -> int): Pairing {
    var wanted := p.Wanted(o.isBid);
    match Match(wanted, o.price, tolerance(o.price))
    case None =>
      if o.isBid then p.(bidCancels := p.bidCancels + [o.cid]) else p.(askCancels := p.askCancels + [o.cid])
    case Some(i) =>
      var claims := p.claims + [Claim(o, wanted[i])];
      if o.isBid then p.(bids := Erase(wanted, i), claims := claims)
      else p.(asks := Erase(wanted, i), claims := claims)
  }

  /** The greedy pairing, over the resting orders in cid order. */
  function Pair(orders: seq<Resting>, bids: seq<Quote>, asks: seq<Quote>, tolerance: int -> int): Pairing {
    if |orders| == 0 then Pairing(bids, asks, [], [], [])
    else
      var n := |orders| - 1;
      PairOne(Pair(orders[..n], bids, asks, tolerance), orders[n], tolerance)
  }

  lemma PairKeepsSorted(orders: seq<Resting>, bids: seq<Quote>, asks: seq<Quote>, tolerance: int -> int)
    requires Sorted(bids) && Sorted(asks)
    ensures Sorted(Pair(orders, bids, asks, tolerance).bids)
    ensures Sorted(Pair(orders, bids, asks, tolerance).asks)
  {
  }

  /** The two-neighbour search over a sorted map: the first key at or above the price and the
      one before it are the only candidates. */
  method FindMatch(l: seq<Quote>, price: int, tolerance: int) returns (candidate: Option<nat>)
    requires Sorted(l) && tolerance >= 0
    ensures candidate == Match(l, price, tolerance)
  {
    var upper := LowerBound(l, price);
    candidate := None;
    var bestDistance := 0;
    if upper != 0 {
      candidate := Some(upper - 1);
      bestDistance := price - l[upper - 1].price;
    }
    if upper != |l| {
      var distance := l[upper].price - price;
      if candidate.None? || distance < bestDistance {
        candidate := Some(upper);
        bestDistance := distance;
      }
    }
    if candidate.Some? {
      TwoNeighboursSuffice(l, price, candidate.value);
    }
    if candidate.Some? && bestDistance > tolerance {
      candidate := None;
    }
  }

  lemma TwoNeighboursSuffice(l: seq<Quote>, price: int, c: nat)
    requires Sorted(l) && c < |l|
    requires var u := LowerBound(l, price);
      if u == 0 then c == 0
      else if u == |l| then c == u - 1
      else c == if Distance(l[u], price) < Distance(l[u - 1], price) then u else u - 1
    ensures Nearest(l, price) == c
  {
    hide LowerBound, Nearest;
    var r := Nearest(l, price);
    assert Distance(l[r], price) <= Distance(l[c], price);
  }

  /** The buffer is turned off while liquidating. */
  function BufferTolerance(params: Params, isLiquidate: bool): int -> int {
    ToleranceFor(if isLiquidate then 0.0 else params.orderBufferBp)
  }

  method ChooseOrdersToCancel(
      orders: seq<Resting>, bidPlaceOrders: seq<Quote>, askPlaceOrders: seq<Quote>,
      params: Params, isLiquidate: bool)
    returns (bids: seq<Quote>, asks: seq<Quote>, bidCancels: seq<Cid>, askCancels: seq<Cid>)
    requires Sorted(bidPlaceOrders) && Sorted(askPlaceOrders)
    ensures var p := Pair(orders, bidPlaceOrders, askPlaceOrders, BufferTolerance(params, isLiquidate));
      bids == p.bids && asks == p.asks && bidCancels == p.bidCancels && askCancels == p.askCancels
  {
    hide Match, Tolerance, LowerBound;
    var bufferBp := if isLiquidate then 0.0 else params.orderBufferBp;
    bids, asks, bidCancels, askCancels := bidPlaceOrders, askPlaceOrders, [], [];
    for i := 0 to |orders|
      invariant Sorted(bids) && Sorted(asks)
      invariant var p := Pair(orders[..i], bidPlaceOrders, askPlaceOrders, BufferTolerance(params, isLiquidate));
        bids == p.bids && asks == p.asks && bidCancels == p.bidCancels && askCancels == p.askCancels
    {
      var o := orders[i];
      assert orders[..i + 1][..i] == orders[..i];
      var tolerance := Tolerance(o.price, bufferBp);
      var candidate := FindMatch(if o.isBid then bids else asks, o.price, tolerance);
      if candidate.None? {
        if o.isBid { bidCancels := bidCancels + [o.cid]; } else { askCancels := askCancels + [o.cid]; }
      } else {
        if o.isBid { bids := Erase(bids, candidate.value); } else { asks := Erase(asks, candidate.value); }
      }
    }
    assert orders[..|orders|] == orders;
  }

  // ---- what the strategy wants ----

  function Min(a: int, b: int): int { if a <= b then a else b }
  function Max(a: int, b: int): int { if a >= b then a else b }

  function ClipDelta(params: Params, delta: real): (d: real)
    ensures !params.useSpreadCap || params.spreadCapBp >= 0.0 ==> d >= 0.0
    ensures params.useSpreadCap ==> d <= params.spreadCapBp
  {
    var floored := if delta >= 0.0 then delta else 0.0;
    if params.useSpreadCap && params.spreadCapBp < floored then params.spreadCapBp else floored
  }

  /** dollar_to_qty_in_lots, a dollar amount being in units of one min tick times one lot. */
  function DollarToLots(dollar: real, price: real): int {
    if price == 0.0 then 0 else Round(dollar / price)
  }

  function OrderQty(params: Params, price: int, limit: int): int {
    Min(limit, if params.positionInDollar then DollarToLots(params.orderDollar, price as real) else params.orderLots)
  }

  /** The per-decision quantities make_decision fixes before it builds the ladders. */
  datatype Terms = Terms(bidLimit: int, askLimit: int, bidQtyLimit: int, askQtyLimit: int, deltaBid: real, deltaAsk: real)

  function BidLimit(params: Params, info: PriceInfo): int {
    FloorTicks(if params.useBboCapBuffer then info.bbid as real * (1.0 - params.bboCapBufferBp / 10000.0)
               else info.bask as real - info.tick as real)
  }

  function AskLimit(params: Params, info: PriceInfo): int {
    CeilTicks(if params.useBboCapBuffer then info.bask as real * (1.0 + params.bboCapBufferBp / 10000.0)
              else info.bbid as real + info.tick as real)
  }

  /** The share of the position limit in use. */
  function Usage(params: Params, mid: real, position: int): real {
    if params.positionInDollar then
      if params.positionLimitInDollar == 0.0 then 0.0 else position as real * mid / params.positionLimitInDollar
    else
      if params.positionLimitInLots == 0 then 0.0 else position as real / params.positionLimitInLots as real
  }

  function BidWidth(params: Params, vol: real, usage: real): real {
    params.spreadConstBp * vol * (1.0 + params.skewRatio * usage)
  }

  function AskWidth(params: Params, vol: real, usage: real): real {
    params.spreadConstBp * vol * (1.0 - params.skewRatio * usage)
  }

  function TermsOf(params: Params, info: PriceInfo, position: int): Terms {
    var positionLimit := if params.positionInDollar then DollarToLots(params.positionLimitInDollar, info.mid)
                         else params.positionLimitInLots;
    var usage := Usage(params, info.mid, position);
    Terms(
      BidLimit(params, info), AskLimit(params, info),
      positionLimit - position,
      Min(if params.shortSellUnable then position else INT32_MAX, position + positionLimit),
      ClipDelta(params, BidWidth(params, info.forwardVol, usage)),
      ClipDelta(params, AskWidth(params, info.forwardVol, usage)))
  }

  /** How one side's ladder is priced: where level `k` sits when it is priced off fair, how far
      below or above the top it sits when the ladder is tick based, the cap, and the sizes. */
  datatype Rule = Rule(tickBased: bool, level: nat -> real, gap: nat -> real, limit: int, qty: int -> int)

  function Offset(params: Params, info: PriceInfo, k: nat): real {
    if k >= 1 && params.tickBasedOrderInterval then (k * params.orderIntervalTicks) as real * info.tick as real
    else info.fair * k as real * params.orderIntervalBp / 10000.0
  }

  function BidLevel(params: Params, info: PriceInfo, delta: real, k: nat): real {
    info.fair * (1.0 - delta / 10000.0) - Offset(params, info, k)
  }

  function AskLevel(params: Params, info: PriceInfo, delta: real, k: nat): real {
    info.fair * (1.0 + delta / 10000.0) + Offset(params, info, k)
  }

  function BidRule(params: Params, info: PriceInfo, t: Terms): Rule {
    Rule(params.tickBasedOrderInterval,
      (k: nat) => BidLevel(params, info, t.deltaBid, k),
      (k: nat) => Offset(params, info, k),
      t.bidLimit,
      price => OrderQty(params, price, t.bidQtyLimit))
  }

  function AskRule(params: Params, info: PriceInfo, t: Terms): Rule {
    Rule(params.tickBasedOrderInterval,
      (k: nat) => AskLevel(params, info, t.deltaAsk, k),
      (k: nat) => Offset(params, info, k),
      t.askLimit,
      price => OrderQty(params, price, t.askQtyLimit))
  }

  /** The price of level `k`, given the ladder built from the levels before it. */
  function BidPrice(rule: Rule, k: nat, bids: seq<Quote>): (price: int)
    requires k >= 1 && rule.tickBased ==> |bids| > 0
    ensures price <= rule.limit
  {
    Min(Round(if k >= 1 && rule.tickBased then HighestPrice(bids) as real - rule.gap(k) else rule.level(k)), rule.limit)
  }

  function AskPrice(rule: Rule, k: nat, asks: seq<Quote>): (price: int)
    requires k >= 1 && rule.tickBased ==> |asks| > 0
    ensures price >= rule.limit
  {
    Max(Round(if k >= 1 && rule.tickBased then asks[0].price as real + rule.gap(k) else rule.level(k)), rule.limit)
  }

  /** The first `n` bid levels: never empty after the first, so the read of the last entry in
      BidPrice never meets an empty map. */
  function BidLadder(rule: Rule, n: nat): (bids: seq<Quote>)
    ensures Sorted(bids)
    ensures n > 0 ==> |bids| > 0
    ensures |bids| <= n
  {
    if n == 0 then []
    else
      var before := BidLadder(rule, n - 1);
      var price := BidPrice(rule, n - 1, before);
      Put(before, price, rule.qty(price))
  }

  function AskLadder(rule: Rule, n: nat): (asks: seq<Quote>)
    ensures Sorted(asks)
    ensures n > 0 ==> |asks| > 0
    ensures |asks| <= n
  {
    if n == 0 then []
    else
      var before := AskLadder(rule, n - 1);
      var price := AskPrice(rule, n - 1, before);
      Put(before, price, rule.qty(price))
  }

  function Bids(params: Params, info: PriceInfo, t: Terms): (bids: seq<Quote>)
    ensures Sorted(bids)
  {
    if t.bidQtyLimit > 0 then BidLadder(BidRule(params, info, t), params.orderNum) else []
  }

  function Asks(params: Params, info: PriceInfo, t: Terms): (asks: seq<Quote>)
    ensures Sorted(asks)
  {
    if t.askQtyLimit > 0 then AskLadder(AskRule(params, info, t), params.orderNum) else []
  }

  function LiquidationBids(info: PriceInfo, position: int): (bids: seq<Quote>)
    ensures Sorted(bids)
  {
    if position < 0 then [Quote(CeilTicks(info.bbid as real + info.tick as real), -position)] else []
  }

  function LiquidationAsks(info: PriceInfo, position: int): (asks: seq<Quote>)
    ensures Sorted(asks)
  {
    if position > 0 then [Quote(FloorTicks(info.bask as real - info.tick as real), position)] else []
  }

  function WantedBids(params: Params, info: PriceInfo, liquidate: bool, position: int): (bids: seq<Quote>)
    ensures Sorted(bids)
  {
    if liquidate then LiquidationBids(info, position)
    else Bids(params, info, TermsOf(params, info, position))
  }

  function WantedAsks(params: Params, info: PriceInfo, liquidate: bool, position: int): (asks: seq<Quote>)
    ensures Sorted(asks)
  {
    if liquidate then LiquidationAsks(info, position)
    else Asks(params, info, TermsOf(params, info, position))
  }

  function Decide(params: Params, info: PriceInfo, liquidate: bool, position: int, orders: seq<Resting>): Pairing {
    Pair(orders, WantedBids(params, info, liquidate, position), WantedAsks(params, info, liquidate, position),
         BufferTolerance(params, liquidate))
  }

  method BuildLadders(params: Params, info: PriceInfo, position: int) returns (bids: seq<Quote>, asks: seq<Quote>)
    ensures bids == WantedBids(params, info, false, position)
    ensures asks == WantedAsks(params, info, false, position)
  {
    var t := TermsOf(params, info, position);
    var bidRule, askRule := BidRule(params, info, t), AskRule(params, info, t);
    bids, asks := [], [];
    for k := 0 to params.orderNum
      invariant bids == if t.bidQtyLimit > 0 then BidLadder(bidRule, k) else []
      invariant asks == if t.askQtyLimit > 0 then AskLadder(askRule, k) else []
    {
      if t.bidQtyLimit > 0 {
        var price := BidPrice(bidRule, k, bids);
        bids := Put(bids, price, bidRule.qty(price));
      }
      if t.askQtyLimit > 0 {
        var price := AskPrice(askRule, k, asks);
        asks := Put(asks, price, askRule.qty(price));
      }
    }
  }

  method MakeDecision(params: Params, info: PriceInfo, doLiquidate: bool, position: int, orders: seq<Resting>)
    returns (bids: seq<Quote>, asks: seq<Quote>, bidCancels: seq<Cid>, askCancels: seq<Cid>)
    ensures var d := Decide(params, info, doLiquidate, position, orders);
      bids == d.bids && asks == d.asks && bidCancels == d.bidCancels && askCancels == d.askCancels
  {
    var bidPlaceOrders, askPlaceOrders;
    if doLiquidate {
      bidPlaceOrders, askPlaceOrders := LiquidationBids(info, position), LiquidationAsks(info, position);
    } else {
      bidPlaceOrders, askPlaceOrders := BuildLadders(params, info, position);
    }
    bids, asks, bidCancels, askCancels :=
      ChooseOrdersToCancel(orders, bidPlaceOrders, askPlaceOrders, params, doLiquidate);
  }
}
