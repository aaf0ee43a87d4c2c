/** What the strategy wants, quote by quote: the price and the size of every wanted quote, in terms
    of the parameters, the market and the position alone. */
module WantedQuotes {
  import opened Rounding
  import opened Ladders
  import opened Strategy
  import opened StrategyProofs

  // ---- sizes ----

  /** `lots` is what `dollar` buys at `price`, to the nearest lot; nothing at price zero. */
  ghost predicate LotsFor(dollar: real, price: real, lots: int) {
    if price == 0.0 then lots == 0 else IsNearest(dollar / price, lots)
  }

  /** `lots` is the configured position limit, in lots at the mid price. */
  ghost predicate IsPositionLimit(params: Params, mid: real, lots: int) {
    if params.positionInDollar then LotsFor(params.positionLimitInDollar, mid, lots) else lots == params.positionLimitInLots
  }

  /** `lots` is the configured order size, in lots at the quoted price. */
  ghost predicate IsOrderSize(params: Params, price: int, lots: int) {
    if params.positionInDollar then LotsFor(params.orderDollar, price as real, lots) else lots == params.orderLots
  }

  /** What may still be sold: down to minus the limit, and not below zero without short selling. */
  function AskRoom(params: Params, limit: int, position: int): int {
    Min(if params.shortSellUnable then position else INT32_MAX, position + limit)
  }

  lemma LimitsAre(params: Params, info: PriceInfo, position: int, limit: int)
    requires IsPositionLimit(params, info.mid, limit)
    ensures var t := TermsOf(params, info, position);
      t.bidQtyLimit == limit - position && t.askQtyLimit == AskRoom(params, limit, position)
  {
    hide BidLimit, AskLimit, Usage, BidWidth, AskWidth, ClipDelta;
    if params.positionInDollar && info.mid != 0.0 {
      NearestIsRound(params.positionLimitInDollar / info.mid, limit);
    }
  }

  /** The quote is for the order size or, where that is more, for what is left of the room. */
  ghost predicate Sized(params: Params, room: int, q: Quote) {
    exists size :: IsOrderSize(params, q.price, size) && q.qty <= size && q.qty <= room && (q.qty == size || q.qty == room)
  }

  lemma OrderQtySized(params: Params, price: int, room: int)
    ensures Sized(params, room, Quote(price, OrderQty(params, price, room)))
  {
    var size := if params.positionInDollar then DollarToLots(params.orderDollar, price as real) else params.orderLots;
    assert IsOrderSize(params, price, size);
  }

  lemma {:induction false} BidsSized(params: Params, rule: Rule, n: nat, room: int)
    requires forall price :: rule.qty(price) == OrderQty(params, price, room)
    ensures forall q :: q in BidLadder(rule, n) ==> Sized(params, room, q)
  {
    hide Put, BidPrice, OrderQty, Sized;
    if n > 0 {
      BidsSized(params, rule, n - 1, room);
      var before := BidLadder(rule, n - 1);
      var price := BidPrice(rule, n - 1, before);
      PutContents(before, price, rule.qty(price));
      OrderQtySized(params, price, room);
    }
  }

  lemma {:induction false} AsksSized(params: Params, rule: Rule, n: nat, room: int)
    requires forall price :: rule.qty(price) == OrderQty(params, price, room)
    ensures forall q :: q in AskLadder(rule, n) ==> Sized(params, room, q)
  {
    hide Put, AskPrice, OrderQty, Sized;
    if n > 0 {
      AsksSized(params, rule, n - 1, room);
      var before := AskLadder(rule, n - 1);
      var price := AskPrice(rule, n - 1, before);
      PutContents(before, price, rule.qty(price));
      OrderQtySized(params, price, room);
    }
  }

  /** A side is quoted exactly while its room is not used up; each of its quotes is for the order
      size, or for the room where that is less. */
  lemma QuotesAreSized(params: Params, info: PriceInfo, position: int, limit: int)
    requires IsPositionLimit(params, info.mid, limit)
    ensures WantedBids(params, info, false, position) != [] <==> params.orderNum > 0 && limit - position > 0
    ensures WantedAsks(params, info, false, position) != [] <==> params.orderNum > 0 && AskRoom(params, limit, position) > 0
    ensures forall q :: q in WantedBids(params, info, false, position) ==> Sized(params, limit - position, q)
    ensures forall q :: q in WantedAsks(params, info, false, position) ==> Sized(params, AskRoom(params, limit, position), q)
  {
    hide OrderQty, Sized, TermsOf, IsPositionLimit;
    var t := TermsOf(params, info, position);
    LimitsAre(params, info, position, limit);
    BidsSized(params, BidRule(params, info, t), params.orderNum, t.bidQtyLimit);
    AsksSized(params, AskRule(params, info, t), params.orderNum, t.askQtyLimit);
  }

  /** Filled in full, a wanted quote cannot carry the position past the limit on its side, nor
      below zero where short selling is not possible; and it is no larger than the order size. */
  lemma FillsRespectLimits(params: Params, info: PriceInfo, position: int, limit: int, q: Quote, size: int)
    requires IsPositionLimit(params, info.mid, limit) && IsOrderSize(params, q.price, size)
    ensures q in WantedBids(params, info, false, position) ==> position + q.qty <= limit && q.qty <= size
    ensures q in WantedAsks(params, info, false, position) ==>
      && position - q.qty >= -limit && q.qty <= size && (params.shortSellUnable ==> position - q.qty >= 0)
  {
    hide WantedBids, WantedAsks, IsPositionLimit;
    QuotesAreSized(params, info, position, limit);
    if q in WantedBids(params, info, false, position) {
      assert Sized(params, limit - position, q);
    }
    if q in WantedAsks(params, info, false, position) {
      assert Sized(params, AskRoom(params, limit, position), q);
    }
    OneOrderSize(params, q.price);
  }

  lemma OneOrderSize(params: Params, price: int)
    ensures forall a, b :: IsOrderSize(params, price, a) && IsOrderSize(params, price, b) ==> a == b
  {
  }

  // ---- prices ----

  /** Long positions use the limit up with a positive sign, short ones with a negative sign. */
  ghost predicate IsUsage(params: Params, mid: real, position: int, usage: real) {
    if params.positionInDollar then
      if params.positionLimitInDollar == 0.0 then usage == 0.0 else usage * params.positionLimitInDollar == position as real * mid
    else
      if params.positionLimitInLots == 0 then usage == 0.0 else usage * params.positionLimitInLots as real == position as real
  }

  /** A side's distance from fair, in basis points: the constant spread scaled by the volatility,
      and by the skew `lean` of the side; not negative, and not above a cap in use. */
  ghost predicate IsDistance(params: Params, vol: real, lean: real, delta: real) {
    var raw := params.spreadConstBp * vol * (1.0 + params.skewRatio * lean);
    var wide := if raw >= 0.0 then raw else 0.0;
    if params.useSpreadCap && params.spreadCapBp < wide then delta == params.spreadCapBp else delta == wide
  }

  /** No bid above this: the best bid less the buffer, or one tick inside the best ask. */
  function BidCap(params: Params, info: PriceInfo): real {
    if params.useBboCapBuffer then info.bbid as real * (1.0 - params.bboCapBufferBp / 10000.0) else (info.bask - info.tick) as real
  }

  function AskCap(params: Params, info: PriceInfo): real {
    if params.useBboCapBuffer then info.bask as real * (1.0 + params.bboCapBufferBp / 10000.0) else (info.bbid + info.tick) as real
  }

  /** The greatest whole price not above `cap`. */
  ghost predicate IsFloor(cap: real, price: int) { price as real <= cap + EPSILON < price as real + 1.0 }

  /** The least whole price not below `cap`. */
  ghost predicate IsCeil(cap: real, price: int) { price as real - 1.0 < cap - EPSILON <= price as real }

  /** Where level `k` of a ladder priced off fair is wanted: `delta` and `k` intervals, in basis
      points of fair, to one side. */
  function BidTarget(params: Params, fair: real, delta: real, k: nat): real {
    fair - fair * (delta + k as real * params.orderIntervalBp) / 10000.0
  }

  function AskTarget(params: Params, fair: real, delta: real, k: nat): real {
    fair + fair * (delta + k as real * params.orderIntervalBp) / 10000.0
  }

  /** The nearest price to its target, no better than the cap. */
  ghost predicate IsBidPrice(target: real, cap: real, price: int) {
    exists near, top :: IsNearest(target, near) && IsFloor(cap, top) && price == Min(near, top)
  }

  ghost predicate IsAskPrice(target: real, cap: real, price: int) {
    exists near, top :: IsNearest(target, near) && IsCeil(cap, top) && price == Max(near, top)
  }

  lemma DeltasAre(params: Params, info: PriceInfo, position: int, usage: real)
    requires IsUsage(params, info.mid, position, usage)
    ensures var t := TermsOf(params, info, position);
      IsDistance(params, info.forwardVol, usage, t.deltaBid) && IsDistance(params, info.forwardVol, -usage, t.deltaAsk)
  {
    hide BidLimit, AskLimit, DollarToLots;
    UsageIs(params, info.mid, position, usage);
    hide Usage;
    WidthsAreDistances(params, info.forwardVol, usage);
  }

  lemma UsageIs(params: Params, mid: real, position: int, usage: real)
    requires IsUsage(params, mid, position, usage)
    ensures Usage(params, mid, position) == usage
  {
    if params.positionInDollar && params.positionLimitInDollar != 0.0 {
      QuotientIs(position as real * mid, params.positionLimitInDollar, usage);
    } else if !params.positionInDollar && params.positionLimitInLots != 0 {
      QuotientIs(position as real, params.positionLimitInLots as real, usage);
    }
  }

  lemma QuotientIs(a: real, b: real, q: real)
    requires b != 0.0 && q * b == a
    ensures a / b == q
  {
    var r := a / b;
    assert (r - q) * b == 0.0;
  }

  lemma WidthsAreDistances(params: Params, vol: real, usage: real)
    ensures IsDistance(params, vol, usage, ClipDelta(params, BidWidth(params, vol, usage)))
    ensures IsDistance(params, vol, -usage, ClipDelta(params, AskWidth(params, vol, usage)))
  {
    var turned := params.skewRatio * -usage;
    assert turned == -(params.skewRatio * usage);
    assert 1.0 - params.skewRatio * usage == 1.0 + turned;
  }

  lemma BidLevelIs(params: Params, info: PriceInfo, delta: real, k: nat)
    requires k == 0 || !params.tickBasedOrderInterval
    ensures BidLevel(params, info, delta, k) == BidTarget(params, info.fair, delta, k)
    ensures AskLevel(params, info, delta, k) == AskTarget(params, info.fair, delta, k)
  {
    var f, step := info.fair, k as real * params.orderIntervalBp;
    assert f * k as real * params.orderIntervalBp == f * step;
    assert f * (1.0 - delta / 10000.0) == f - f * delta / 10000.0;
    assert f * (1.0 + delta / 10000.0) == f + f * delta / 10000.0;
    assert f * (delta + step) == f * delta + f * step;
  }

  lemma LevelPriceIs(params: Params, info: PriceInfo, t: Terms, k: nat)
    requires k == 0 || !params.tickBasedOrderInterval
    requires t.bidLimit == BidLimit(params, info) && t.askLimit == AskLimit(params, info)
    ensures IsBidPrice(BidTarget(params, info.fair, t.deltaBid, k), BidCap(params, info), BidPrice(BidRule(params, info, t), k, []))
    ensures IsAskPrice(AskTarget(params, info.fair, t.deltaAsk, k), AskCap(params, info), AskPrice(AskRule(params, info, t), k, []))
  {
    BidLevelIs(params, info, t.deltaBid, k);
    BidLevelIs(params, info, t.deltaAsk, k);
    CapsAre(params, info);
    hide BidTarget, AskTarget, BidCap, AskCap, BidLevel, AskLevel, BidLimit, AskLimit, Round;
    assert IsNearest(BidTarget(params, info.fair, t.deltaBid, k), Round(BidTarget(params, info.fair, t.deltaBid, k)));
    assert IsNearest(AskTarget(params, info.fair, t.deltaAsk, k), Round(AskTarget(params, info.fair, t.deltaAsk, k)));
  }

  lemma CapsAre(params: Params, info: PriceInfo)
    ensures IsFloor(BidCap(params, info), BidLimit(params, info)) && IsCeil(AskCap(params, info), AskLimit(params, info))
  {
  }

  lemma OneDistance(params: Params, vol: real, lean: real)
    ensures forall a, b :: IsDistance(params, vol, lean, a) && IsDistance(params, vol, lean, b) ==> a == b
  {
  }

  lemma {:induction false} BidLadderPrices(rule: Rule, n: nat)
    requires !rule.tickBased
    ensures Prices(BidLadder(rule, n)) == set k: nat | k < n :: BidPrice(rule, k, [])
  {
    hide Put;
    if n > 0 {
      BidLadderPrices(rule, n - 1);
      var price := BidPrice(rule, n - 1, []);
      PutPrices(BidLadder(rule, n - 1), price, rule.qty(price));
    }
  }

  lemma {:induction false} AskLadderPrices(rule: Rule, n: nat)
    requires !rule.tickBased
    ensures Prices(AskLadder(rule, n)) == set k: nat | k < n :: AskPrice(rule, k, [])
  {
    hide Put;
    if n > 0 {
      AskLadderPrices(rule, n - 1);
      var price := AskPrice(rule, n - 1, []);
      PutPrices(AskLadder(rule, n - 1), price, rule.qty(price));
    }
  }

  lemma OneBidPrice(target: real, cap: real)
    ensures forall a, b :: IsBidPrice(target, cap, a) && IsBidPrice(target, cap, b) ==> a == b
    ensures forall a, b :: IsAskPrice(target, cap, a) && IsAskPrice(target, cap, b) ==> a == b
  {
  }

  /** The bids of a ladder priced off fair stand exactly at the nearest prices to the targets of
      its levels, each no better than the cap. */
  lemma BidsAtTargets(params: Params, info: PriceInfo, position: int, usage: real, delta: real)
    requires !params.tickBasedOrderInterval && IsUsage(params, info.mid, position, usage) && IsDistance(params, info.forwardVol, usage, delta)
    ensures var bids := WantedBids(params, info, false, position);
      bids != [] ==> forall price :: price in Prices(bids) <==>
        exists k: nat :: k < params.orderNum && IsBidPrice(BidTarget(params, info.fair, delta, k), BidCap(params, info), price)
  {
    var t := TermsOf(params, info, position);
    DeltasAre(params, info, position, usage);
    OneDistance(params, info.forwardVol, usage);
    BidLadderPrices(BidRule(params, info, t), params.orderNum);
    hide IsBidPrice, BidTarget, BidCap, BidPrice, BidLadder, IsDistance, IsUsage;
    forall k: nat
      ensures IsBidPrice(BidTarget(params, info.fair, delta, k), BidCap(params, info), BidPrice(BidRule(params, info, t), k, []))
    {
      LevelPriceIs(params, info, t, k);
    }
    forall price, k: nat | IsBidPrice(BidTarget(params, info.fair, delta, k), BidCap(params, info), price)
      ensures price == BidPrice(BidRule(params, info, t), k, [])
    {
      OneBidPrice(BidTarget(params, info.fair, delta, k), BidCap(params, info));
    }
  }

  lemma AsksAtTargets(params: Params, info: PriceInfo, position: int, usage: real, delta: real)
    requires !params.tickBasedOrderInterval && IsUsage(params, info.mid, position, usage) && IsDistance(params, info.forwardVol, -usage, delta)
    ensures var asks := WantedAsks(params, info, false, position);
      asks != [] ==> forall price :: price in Prices(asks) <==>
        exists k: nat :: k < params.orderNum && IsAskPrice(AskTarget(params, info.fair, delta, k), AskCap(params, info), price)
  {
    var t := TermsOf(params, info, position);
    DeltasAre(params, info, position, usage);
    OneDistance(params, info.forwardVol, -usage);
    AskLadderPrices(AskRule(params, info, t), params.orderNum);
    hide IsAskPrice, AskTarget, AskCap, AskPrice, AskLadder, IsDistance, IsUsage;
    forall k: nat
      ensures IsAskPrice(AskTarget(params, info.fair, delta, k), AskCap(params, info), AskPrice(AskRule(params, info, t), k, []))
    {
      LevelPriceIs(params, info, t, k);
    }
    forall price, k: nat | IsAskPrice(AskTarget(params, info.fair, delta, k), AskCap(params, info), price)
      ensures price == AskPrice(AskRule(params, info, t), k, [])
    {
      OneBidPrice(AskTarget(params, info.fair, delta, k), AskCap(params, info));
    }
  }

  /** A tick-based ladder starts at the nearest price to its first target, no better than the cap,
      and each further level stands order_interval_ticks product ticks further out. */
  lemma TickLadderFromTarget(params: Params, info: PriceInfo, position: int, usage: real, deltaBid: real, deltaAsk: real, top: int, bottom: int)
    requires params.tickBasedOrderInterval && info.tick >= 1 && IsUsage(params, info.mid, position, usage)
    requires IsDistance(params, info.forwardVol, usage, deltaBid) && IsDistance(params, info.forwardVol, -usage, deltaAsk)
    requires IsBidPrice(BidTarget(params, info.fair, deltaBid, 0), BidCap(params, info), top)
    requires IsAskPrice(AskTarget(params, info.fair, deltaAsk, 0), AskCap(params, info), bottom)
    ensures var bids := WantedBids(params, info, false, position);
      bids != [] ==> Prices(bids) == LevelsBelow(top, Gaps(params, info), params.orderNum)
    ensures var asks := WantedAsks(params, info, false, position);
      asks != [] ==> Prices(asks) == LevelsAbove(bottom, Gaps(params, info), params.orderNum)
  {
    var t := TermsOf(params, info, position);
    DeltasAre(params, info, position, usage);
    OneDistance(params, info.forwardVol, usage);
    OneDistance(params, info.forwardVol, -usage);
    LevelPriceIs(params, info, t, 0);
    OneBidPrice(BidTarget(params, info.fair, deltaBid, 0), BidCap(params, info));
    OneBidPrice(AskTarget(params, info.fair, deltaAsk, 0), AskCap(params, info));
    hide IsBidPrice, IsAskPrice, BidTarget, AskTarget, BidCap, AskCap, BidPrice, AskPrice, BidLadder, AskLadder, IsDistance, IsUsage, Gaps, TermsOf;
    TickLadderSpacing(params, info, t);
  }

  /** The longer the position, the further the bids stand from fair and the nearer the asks: the
      quotes lean against the position held. */
  lemma LeansAgainstPosition(params: Params, vol: real, mid: real, p: int, q: int, up: real, uq: real,
                             bidP: real, bidQ: real, askP: real, askQ: real)
    requires p <= q && params.spreadConstBp * vol >= 0.0 && params.skewRatio >= 0.0
    requires if params.positionInDollar then params.positionLimitInDollar > 0.0 && mid >= 0.0 else params.positionLimitInLots > 0
    requires IsUsage(params, mid, p, up) && IsUsage(params, mid, q, uq)
    requires IsDistance(params, vol, up, bidP) && IsDistance(params, vol, uq, bidQ)
    requires IsDistance(params, vol, -up, askP) && IsDistance(params, vol, -uq, askQ)
    ensures bidP <= bidQ && askP >= askQ
  {
    UsageGrows(params, mid, p, q, up, uq);
    hide IsUsage;
    DistanceGrows(params, vol, up, uq, bidP, bidQ);
    DistanceGrows(params, vol, -uq, -up, askQ, askP);
  }

  lemma UsageGrows(params: Params, mid: real, p: int, q: int, up: real, uq: real)
    requires p <= q && IsUsage(params, mid, p, up) && IsUsage(params, mid, q, uq)
    requires if params.positionInDollar then params.positionLimitInDollar > 0.0 && mid >= 0.0 else params.positionLimitInLots > 0
    ensures up <= uq
  {
    var limit := if params.positionInDollar then params.positionLimitInDollar else params.positionLimitInLots as real;
    var each := if params.positionInDollar then mid else 1.0;
    ProductSign((q - p) as real, each);
    assert (uq - up) * limit == (q - p) as real * each;
    if up > uq {
      Positive(up - uq, limit);
    }
  }

  lemma Positive(a: real, b: real)
    requires a > 0.0 && b > 0.0
    ensures a * b > 0.0
  {
  }

  lemma DistanceGrows(params: Params, vol: real, a: real, b: real, da: real, db: real)
    requires a <= b && params.spreadConstBp * vol >= 0.0 && params.skewRatio >= 0.0
    requires IsDistance(params, vol, a, da) && IsDistance(params, vol, b, db)
    ensures da <= db
  {
    var scale := params.spreadConstBp * vol;
    ProductSign(params.skewRatio, b - a);
    var la, lb := 1.0 + params.skewRatio * a, 1.0 + params.skewRatio * b;
    assert lb - la == params.skewRatio * (b - a);
    ProductSign(scale, lb - la);
    assert scale * lb - scale * la == scale * (lb - la);
  }

  // ---- the tolerance of the pairing ----

  /** order_buffer_bp around a price, in whole min ticks; none where it is not positive, and none
      while liquidating. */
  ghost predicate IsTolerance(params: Params, liquidate: bool, price: int, tolerance: int) {
    if liquidate || params.orderBufferBp <= 0.0 then tolerance == 0
    else IsFloor((if price < 0 then -price else price) as real * params.orderBufferBp / 10000.0, tolerance)
  }

  lemma ToleranceIs(params: Params, liquidate: bool, price: int, tolerance: int)
    requires IsTolerance(params, liquidate, price, tolerance)
    ensures BufferTolerance(params, liquidate)(price) == tolerance
  {
  }

  /** `i` is the quote of `left` nearest to `price`, the lower-priced one on a tie. */
  ghost predicate NearestTo(left: seq<Quote>, price: int, i: nat) {
    && i < |left| && (forall j :: 0 <= j < |left| ==> Distance(left[i], price) <= Distance(left[j], price))
    && forall j :: 0 <= j < i ==> Distance(left[i], price) < Distance(left[j], price)
  }

  /** One of `left` within the tolerance, the nearest, is taken; `after` are the others. */
  ghost predicate StandsIn(left: seq<Quote>, price: int, tolerance: int, after: seq<Quote>) {
    exists i: nat :: NearestTo(left, price, i) && Distance(left[i], price) <= tolerance && after == Erase(left, i)
  }

  /** An order's turn in the pairing: cancelled with no quote of its side within the tolerance, and
      otherwise standing in for the nearest one. */
  ghost predicate Turn(before: Pairing, o: Resting, tolerance: int, after: Pairing) {
    var left := before.Wanted(o.isBid);
    && after.Wanted(!o.isBid) == before.Wanted(!o.isBid) && after.Cancels(!o.isBid) == before.Cancels(!o.isBid)
    && if forall q :: q in left ==> Distance(q, o.price) > tolerance then
         after.Cancels(o.isBid) == before.Cancels(o.isBid) + [o.cid] && after.Wanted(o.isBid) == left
       else after.Cancels(o.isBid) == before.Cancels(o.isBid) && StandsIn(left, o.price, tolerance, after.Wanted(o.isBid))
  }

  lemma PairOneTurn(p: Pairing, o: Resting, tolerance: int -> int)
    ensures Turn(p, o, tolerance(o.price), PairOne(p, o, tolerance))
  {
    hide Distance, Erase, Nearest;
    var left := p.Wanted(o.isBid);
    if |left| > 0 {
      assert NearestTo(left, o.price, Nearest(left, o.price));
    }
  }

  /** The next resting order of a decision is cancelled exactly when no quote still wanted on its
      side lies within the tolerance around its price; otherwise it stands in for the nearest one,
      which is not placed. The other side is untouched. */
  lemma NextOrderCancelledIff(
      params: Params, info: PriceInfo, liquidate: bool, position: int, orders: seq<Resting>, o: Resting, tolerance: int)
    requires IsTolerance(params, liquidate, o.price, tolerance)
    ensures Turn(Decide(params, info, liquidate, position, orders), o, tolerance, Decide(params, info, liquidate, position, orders + [o]))
  {
    ToleranceIs(params, liquidate, o.price, tolerance);
    PairOneTurn(Decide(params, info, liquidate, position, orders), o, BufferTolerance(params, liquidate));
    hide WantedBids, WantedAsks, BufferTolerance, IsTolerance, Turn, PairOne;
    assert (orders + [o])[..|orders|] == orders;
  }

  // ---- liquidation ----

  /** Liquidation wants out of the whole position, one tick inside the opposite touch. */
  lemma LiquidationQuote(params: Params, info: PriceInfo, position: int)
    ensures WantedBids(params, info, true, position) == (if position < 0 then [Quote(info.bbid + info.tick, -position)] else [])
    ensures WantedAsks(params, info, true, position) == (if position > 0 then [Quote(info.bask - info.tick, position)] else [])
  {
    WholeTick(info.bbid as real + info.tick as real, info.bbid + info.tick);
    WholeTick(info.bask as real - info.tick as real, info.bask - info.tick);
    hide Bids, Asks, TermsOf, FloorTicks, CeilTicks;
  }

  lemma WholeTick(x: real, n: int)
    requires x == n as real
    ensures FloorTicks(x) == n && CeilTicks(x) == n
  {
  }
}
