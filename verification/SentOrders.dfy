/** What the requests themselves say: prices, sizes and sides as they go out to the venue. */
module SentOrders {
  import opened Optional
  import opened Rounding
  import opened Ladders
  import opened Strategy
  import opened StrategyProofs
  import opened HandlerModel
  import opened DecisionProofs
  import opened Executions

  // ---- the product's grid ----

  /** `sent` is the multiple of a known grid nearest to `value`, a half going away from zero;
      without a grid it is `value`. */
  ghost predicate IsSnapped(grid: Option<int>, value: int, sent: int) {
    if grid.Some? && grid.value > 0 then
      var off := 2 * (value - sent);
      sent % grid.value == 0 && -grid.value <= off <= grid.value && (off == grid.value ==> value < 0) && (off == -grid.value ==> value > 0)
    else sent == value
  }

  lemma SnapToIs(grid: Option<int>, value: int, sent: int)
    ensures IsSnapped(grid, value, sent) <==> sent == SnapTo(grid, value)
  {
    if grid.Some? && grid.value > 0 {
      var g := grid.value;
      SnapIsNearest(value, g);
      SnapTies(value, g);
      if IsSnapped(grid, value, sent) {
        OneMultiple(value, g, sent, Snap(value, g));
      }
    }
  }

  lemma SnapTies(value: int, g: int)
    requires g >= 1
    ensures 2 * (value - Snap(value, g)) == g ==> value < 0
    ensures 2 * (value - Snap(value, g)) == -g ==> value > 0
  {
    var q := value as real / g as real;
    var k := Round(q);
    OffsetOf(q, k, g, value);
    if 2 * (value - k * g) == g {
      Cancel(q - k as real, 0.5, g as real);
    }
    if 2 * (value - k * g) == -g {
      Cancel(q - k as real, -0.5, g as real);
    }
  }

  lemma OffsetOf(q: real, k: int, g: int, value: int)
    requires g >= 1 && q == value as real / g as real
    ensures (q - k as real) * g as real == (value - k * g) as real
  {
    RealOfProduct(k, g);
    assert q * g as real == value as real;
  }

  lemma Cancel(a: real, b: real, w: real)
    requires w > 0.0 && a * w == b * w
    ensures a == b
  {
    assert (a - b) * w == 0.0;
  }

  /** Two multiples within half a step of the same value are one, or a step apart with the value
      halfway. */
  lemma OneMultiple(value: int, g: int, a: int, b: int)
    requires g >= 1 && a % g == 0 && b % g == 0
    requires -g <= 2 * (value - a) <= g && (2 * (value - a) == g ==> value < 0) && (2 * (value - a) == -g ==> value > 0)
    requires -g <= 2 * (value - b) <= g && (2 * (value - b) == g ==> value < 0) && (2 * (value - b) == -g ==> value > 0)
    ensures a == b
  {
    var k := StepsApart(a, b, g);
    if k >= 1 {
      MulMonotone(1, k, g);
    } else if k <= -1 {
      MulMonotone(k, -1, g);
    }
  }

  lemma StepsApart(a: int, b: int, g: int) returns (k: int)
    requires g >= 1 && a % g == 0 && b % g == 0
    ensures a - b == k * g
  {
    var i, j := a / g, b / g;
    k := i - j;
    assert a == i * g && b == j * g;
  }

  // ---- one request ----

  /** Placing sends one request or, for a size or price that is nothing once snapped, none. The order
      is recorded as asked for and waited on; a market order is not recorded. */
  lemma PlaceSays(h: Handler, p: Product, isBid: bool, price: int, qty: int, isLimit: bool, reduceOnly: bool, now: int, sentPrice: int, sentQty: int)
    requires p in h.states && now >= 0 && IsSnapped(h.states[p].tick, price, sentPrice) && IsSnapped(h.states[p].lot, qty, sentQty)
    ensures var out := SubmitPlace(h, p, isBid, price, qty, isLimit, reduceOnly, now);
      var st, c := h.states[p], out.handler.lastCid;
      if qty <= 0 || sentQty <= 0 || (isLimit && sentPrice <= 0) then out == Outcome(h, [])
      else
        && out.requests == [PlaceRequest(p, c, isBid, isLimit, if isLimit then sentPrice else 0, sentQty, qty, reduceOnly, st.position)]
        && c > h.lastCid && c >= now && out.handler.cidProduct == h.cidProduct[c := p] && out.handler.noProduct == h.noProduct
        && OthersAsBefore(h, out.handler, p)
        && out.handler.states[p] == st.(
             outstanding := if isLimit then st.outstanding[c := Order(price, qty, isBid)] else st.outstanding,
             waitPlace := st.waitPlace + {c}, waitingSince := if st.NoWaiting() then now else st.waitingSince)
  {
    SnapToIs(h.states[p].tick, price, sentPrice);
    SnapToIs(h.states[p].lot, qty, sentQty);
    hide SnapTo;
  }

  /** Cancelling sends one request for the order's number and waits for the answer; without a number
      it does nothing. */
  lemma CancelSays(h: Handler, p: Product, c: Cid, now: int)
    requires p in h.states
    ensures var out := SubmitCancel(h, p, c, now);
      var st := h.states[p];
      if c !in st.cidToNo then out == Outcome(h, [])
      else
        && out.requests == [CancelRequest(p, c, st.cidToNo[c])]
        && out.handler == h.(states := h.states[p := st.(waitCancel := st.waitCancel + {c},
             waitingSince := if st.NoWaiting() then now else st.waitingSince)])
  {
  }

  // ---- the requests of a decision ----

  /** The request asks for the quote: a limit order at its price on the product's tick and for its
      size on the product's lot. */
  ghost predicate Carries(st: ProductState, r: Request, q: Quote) {
    && r.PlaceRequest? && r.isLimit && !r.reduceOnly && r.recorded == q.qty && q.qty > 0
    && IsSnapped(st.tick, q.price, r.price) && r.price > 0 && IsSnapped(st.lot, q.qty, r.qty) && r.qty > 0
  }

  ghost predicate CarriesOneOf(st: ProductState, r: Request, p: Product, isBid: bool, quotes: seq<Quote>) {
    r.PlaceRequest? && r.product == p && r.isBid == isBid && exists q :: q in quotes && Carries(st, r, q)
  }

  ghost predicate CarriedBy(st: ProductState, q: Quote, p: Product, isBid: bool, requests: seq<Request>) {
    exists r :: r in requests && r.PlaceRequest? && r.product == p && r.isBid == isBid && Carries(st, r, q)
  }

  lemma PlaceCarries(h: Handler, p: Product, isBid: bool, q: Quote, now: int)
    requires p in h.states && now >= 0
    ensures var out := SubmitPlace(h, p, isBid, q.price, q.qty, true, false, now);
      && (forall r :: r in out.requests ==> CarriesOneOf(h.states[p], r, p, isBid, [q]))
      && (Placeable(h.states[p], q) ==> CarriedBy(h.states[p], q, p, isBid, out.requests))
      && p in out.handler.states && out.handler.states[p].tick == h.states[p].tick && out.handler.states[p].lot == h.states[p].lot
  {
    var st := h.states[p];
    SnapToIs(st.tick, q.price, SnapTo(st.tick, q.price));
    SnapToIs(st.lot, q.qty, SnapTo(st.lot, q.qty));
    hide SnapTo, IsSnapped;
    var out := SubmitPlace(h, p, isBid, q.price, q.qty, true, false, now);
    if Placeable(st, q) {
      assert Carries(st, out.requests[0], q);
    }
    forall r | r in out.requests
      ensures CarriesOneOf(st, r, p, isBid, [q])
    {
      assert q in [q] && Carries(st, r, q);
    }
  }

  /** Every request carries one of the quotes, and every quote that snaps to something is carried. */
  lemma {:induction false} PlacesCarry(h: Handler, p: Product, isBid: bool, quotes: seq<Quote>, now: int)
    requires p in h.states && now >= 0
    ensures var out := SubmitPlaces(h, p, isBid, quotes, now);
      && (forall r :: r in out.requests ==> CarriesOneOf(h.states[p], r, p, isBid, quotes))
      && (forall q :: q in quotes && Placeable(h.states[p], q) ==> CarriedBy(h.states[p], q, p, isBid, out.requests))
      && p in out.handler.states && out.handler.states[p].tick == h.states[p].tick && out.handler.states[p].lot == h.states[p].lot
  {
    if |quotes| > 0 {
      hide SubmitPlace, Placeable, CarriesOneOf, CarriedBy;
      var n := |quotes| - 1;
      var before := SubmitPlaces(h, p, isBid, quotes[..n], now);
      PlacesCarry(h, p, isBid, quotes[..n], now);
      PlaceCarries(before.handler, p, isBid, quotes[n], now);
      var last := SubmitPlace(before.handler, p, isBid, quotes[n].price, quotes[n].qty, true, false, now);
      CarriedMore(h.states[p], before.handler.states[p], p, isBid, quotes, before.requests, last.requests);
    }
  }

  lemma CarriedMore(st: ProductState, st1: ProductState, p: Product, isBid: bool, quotes: seq<Quote>, before: seq<Request>, last: seq<Request>)
    requires |quotes| > 0 && st1.tick == st.tick && st1.lot == st.lot
    requires forall r :: r in before ==> CarriesOneOf(st, r, p, isBid, quotes[..|quotes| - 1])
    requires forall r :: r in last ==> CarriesOneOf(st1, r, p, isBid, [quotes[|quotes| - 1]])
    requires forall q :: q in quotes[..|quotes| - 1] && Placeable(st, q) ==> CarriedBy(st, q, p, isBid, before)
    requires Placeable(st1, quotes[|quotes| - 1]) ==> CarriedBy(st1, quotes[|quotes| - 1], p, isBid, last)
    ensures forall r :: r in before + last ==> CarriesOneOf(st, r, p, isBid, quotes)
    ensures forall q :: q in quotes && Placeable(st, q) ==> CarriedBy(st, q, p, isBid, before + last)
  {
    hide IsSnapped, SnapTo;
    var n := |quotes| - 1;
    assert forall q :: q in quotes <==> q in quotes[..n] || q == quotes[n];
    assert forall r, q :: Carries(st1, r, q) <==> Carries(st, r, q);
    forall q | q in quotes && Placeable(st, q)
      ensures CarriedBy(st, q, p, isBid, before + last)
    {
      if q in quotes[..n] {
        assert CarriedBy(st, q, p, isBid, before);
      } else {
        assert CarriedBy(st1, q, p, isBid, last);
      }
    }
  }

  lemma CancelsKeepGrid(h: Handler, p: Product, d: Pairing, now: int)
    requires p in h.states
    ensures var s1 := SubmitCancels(h, p, d.bidCancels, now);
      var s2 := SubmitCancels(s1.handler, p, d.askCancels, now);
      && s2.handler.states[p].tick == h.states[p].tick && s2.handler.states[p].lot == h.states[p].lot
      && forall r :: r in s1.requests + s2.requests ==> r.CancelRequest? && r.product == p
  {
    hide SubmitCancels;
    CancelsAlone(h, p, d.bidCancels, now);
    CancelsAlone(SubmitCancels(h, p, d.bidCancels, now).handler, p, d.askCancels, now);
  }

  lemma {:induction false} CancelsAlone(h: Handler, p: Product, cids: seq<Cid>, now: int)
    requires p in h.states
    ensures var s := SubmitCancels(h, p, cids, now);
      && s.handler.states[p].tick == h.states[p].tick && s.handler.states[p].lot == h.states[p].lot
      && forall r :: r in s.requests ==> r.CancelRequest? && r.product == p
  {
    if |cids| > 0 {
      CancelsAlone(h, p, cids[..|cids| - 1], now);
    }
  }

  /** The places a decision sends carry its quotes, side by side, and nothing else. */
  lemma SendCarries(h: Handler, p: Product, d: Pairing, now: int)
    requires p in h.states && now >= 0
    ensures var requests := Send(h, p, d, now).requests;
      && (forall r :: r in requests && r.PlaceRequest? ==> CarriesOneOf(h.states[p], r, p, r.isBid, d.Wanted(r.isBid)))
      && (forall isBid, q :: q in d.Wanted(isBid) && Placeable(h.states[p], q) ==> CarriedBy(h.states[p], q, p, isBid, requests))
  {
    hide SubmitCancels, SubmitPlaces, Carries, Placeable;
    var s1 := SubmitCancels(h, p, d.bidCancels, now);
    var s2 := SubmitCancels(s1.handler, p, d.askCancels, now);
    var s3 := SubmitPlaces(s2.handler, p, true, d.bids, now);
    var s4 := SubmitPlaces(s3.handler, p, false, d.asks, now);
    CancelsKeepGrid(h, p, d, now);
    PlacesCarry(s2.handler, p, true, d.bids, now);
    PlacesCarry(s3.handler, p, false, d.asks, now);
    SameGrid(h.states[p], s2.handler.states[p]);
    SameGrid(h.states[p], s3.handler.states[p]);
    forall isBid, q | q in d.Wanted(isBid) && Placeable(h.states[p], q)
      ensures CarriedBy(h.states[p], q, p, isBid, Send(h, p, d, now).requests)
    {
      if isBid {
        assert CarriedBy(s2.handler.states[p], q, p, true, s3.requests);
      } else {
        assert CarriedBy(s3.handler.states[p], q, p, false, s4.requests);
      }
    }
  }

  lemma SameGrid(st: ProductState, st1: ProductState)
    requires st1.tick == st.tick && st1.lot == st.lot
    ensures forall r, q :: Carries(st1, r, q) <==> Carries(st, r, q)
    ensures forall q :: Placeable(st1, q) <==> Placeable(st, q)
  {
    hide IsSnapped, SnapTo;
  }

  /** Every place of a decision carries a quote the strategy wants on that side. */
  lemma DecisionCarries(h: Handler, cfg: Config, p: Product, liquidate: bool, now: int, r: Request)
    requires now >= 0 && r in UpdateOrders(h, cfg, p, liquidate, now).requests && r.PlaceRequest?
    ensures p in h.states && r.product == p && h.states[p].tick.Some?
    ensures BuildPriceInfo(h.states[p], cfg.fairPriceMaxAge, now).Some?
    ensures var st := h.states[p];
      var info := BuildPriceInfo(st, cfg.fairPriceMaxAge, now).value;
      CarriesOneOf(st, r, p, r.isBid,
        if r.isBid then WantedBids(cfg.params, info, liquidate, st.position) else WantedAsks(cfg.params, info, liquidate, st.position))
  {
    hide Send, BuildPriceInfo, Decide, RestingOrders, Carries, WantedBids, WantedAsks;
    var h1 := if h.states[p].NoWaiting() then h else ClearWaits(h, p);
    var st := h1.states[p];
    assert BuildPriceInfo(st, cfg.fairPriceMaxAge, now) == BuildPriceInfo(h.states[p], cfg.fairPriceMaxAge, now) by {
      SameInfo(h.states[p], st, cfg.fairPriceMaxAge, now);
    }
    var info := BuildPriceInfo(st, cfg.fairPriceMaxAge, now).value;
    var d := Decide(cfg.params, info, liquidate, st.position, RestingOrders(st.outstanding));
    SendCarries(h1, p, d, now);
    StillWanted(cfg.params, info, liquidate, st.position, RestingOrders(st.outstanding));
    SameGrid(h.states[p], st);
  }

  /** What remains to be placed was wanted. */
  lemma StillWanted(params: Params, info: PriceInfo, liquidate: bool, position: int, orders: seq<Resting>)
    ensures var d := Decide(params, info, liquidate, position, orders);
      && (forall q :: q in d.bids ==> q in WantedBids(params, info, liquidate, position))
      && (forall q :: q in d.asks ==> q in WantedAsks(params, info, liquidate, position))
  {
    var bids, asks := WantedBids(params, info, liquidate, position), WantedAsks(params, info, liquidate, position);
    hide WantedBids, WantedAsks, Pair;
    var d := Decide(params, info, liquidate, position, orders);
    PairConserves(orders, bids, asks, BufferTolerance(params, liquidate), true);
    PairConserves(orders, bids, asks, BufferTolerance(params, liquidate), false);
    forall q | q in d.bids ensures q in bids {
      assert q in multiset(d.bids);
      assert q in multiset(bids);
    }
    forall q | q in d.asks ensures q in asks {
      assert q in multiset(d.asks);
      assert q in multiset(asks);
    }
  }

  /** A decision's cancels go out before its new orders, so that a replaced level is free again. */
  lemma CancelsGoFirst(h: Handler, cfg: Config, p: Product, liquidate: bool, now: int, i: nat, j: nat)
    requires now >= 0 && i < j < |UpdateOrders(h, cfg, p, liquidate, now).requests|
    ensures var requests := UpdateOrders(h, cfg, p, liquidate, now).requests; requests[j].CancelRequest? ==> requests[i].CancelRequest?
  {
    hide SubmitCancels, SubmitPlaces, DecideFor, CarriesOneOf, CarriedBy;
    var h1 := if h.states[p].NoWaiting() then h else ClearWaits(h, p);
    var d := DecideFor(h1.states[p], cfg, liquidate, now).value;
    var s1 := SubmitCancels(h1, p, d.bidCancels, now);
    var s2 := SubmitCancels(s1.handler, p, d.askCancels, now);
    var s3 := SubmitPlaces(s2.handler, p, true, d.bids, now);
    var s4 := SubmitPlaces(s3.handler, p, false, d.asks, now);
    CancelsKeepGrid(h1, p, d, now);
    OnlyPlaced(s2.handler, p, true, d.bids, now);
    OnlyPlaced(s3.handler, p, false, d.asks, now);
    CancelsThenPlaces(s1.requests + s2.requests, s3.requests, s4.requests, i, j);
  }

  lemma OnlyPlaced(h: Handler, p: Product, isBid: bool, quotes: seq<Quote>, now: int)
    requires p in h.states && now >= 0
    ensures forall r :: r in SubmitPlaces(h, p, isBid, quotes, now).requests ==> r.PlaceRequest?
  {
    hide SubmitPlaces;
    PlacesCarry(h, p, isBid, quotes, now);
  }

  lemma CancelsThenPlaces(cancels: seq<Request>, bids: seq<Request>, asks: seq<Request>, i: nat, j: nat)
    requires forall r :: r in cancels ==> r.CancelRequest?
    requires forall r :: r in bids || r in asks ==> r.PlaceRequest?
    requires i < j < |cancels + bids + asks|
    ensures (cancels + bids + asks)[j].CancelRequest? ==> (cancels + bids + asks)[i].CancelRequest?
  {
    var all := cancels + bids + asks;
    if j >= |cancels| {
      assert all[j] in bids || all[j] in asks;
    } else {
      assert all[i] in cancels;
    }
  }

  // ---- passive and uncrossed, as sent ----

  lemma SnapToTick(st: ProductState, maxAge: int, now: int, price: int, sent: int)
    requires BuildPriceInfo(st, maxAge, now).Some? && IsSnapped(st.tick, price, sent)
    ensures BuildPriceInfo(st, maxAge, now).value.tick >= 1 && sent == Snap(price, BuildPriceInfo(st, maxAge, now).value.tick)
  {
    SnapToIs(st.tick, price, sent);
    SnapByOne(price);
    hide Snap, IsSnapped;
  }

  lemma SnapByOne(price: int)
    ensures Snap(price, 1) == price
  {
    SnapOnGrid(price, 1);
  }

  /** The book of the product lies on its grid and is not crossed. */
  ghost predicate OnGridBook(st: ProductState) {
    && 0 <= st.bbid < st.bask
    && (st.tick.Some? && st.tick.value > 0 ==> st.bbid % st.tick.value == 0 && st.bask % st.tick.value == 0)
  }

  lemma OnGridView(st: ProductState, maxAge: int, now: int)
    requires OnGridBook(st)
    ensures BuildPriceInfo(st, maxAge, now).Some? && BookOnGrid(BuildPriceInfo(st, maxAge, now).value)
    ensures var info := BuildPriceInfo(st, maxAge, now).value; info.bbid == st.bbid && info.bask == st.bask
  {
  }

  /** Every order a quoting decision sends rests: each bid below the best ask, each ask above the best
      bid, at the prices that go out. */
  lemma SentOrdersArePassive(h: Handler, cfg: Config, p: Product, now: int)
    requires now >= 0 && p in h.states && OnGridBook(h.states[p]) && cfg.params.bboCapBufferBp >= 0.0
    ensures forall r :: r in UpdateOrders(h, cfg, p, false, now).requests && r.PlaceRequest? ==>
      r.isLimit && if r.isBid then r.price < h.states[p].bask else r.price > h.states[p].bbid
  {
    hide UpdateOrders, BuildPriceInfo, OnGridBook, WantedBids, WantedAsks;
    var st := h.states[p];
    OnGridView(st, cfg.fairPriceMaxAge, now);
    var info := BuildPriceInfo(st, cfg.fairPriceMaxAge, now).value;
    QuotesStayPassive(cfg.params, info, st.position);
    forall r | r in UpdateOrders(h, cfg, p, false, now).requests && r.PlaceRequest?
      ensures r.isLimit && if r.isBid then r.price < st.bask else r.price > st.bbid
    {
      DecisionCarries(h, cfg, p, false, now, r);
      var wanted := if r.isBid then WantedBids(cfg.params, info, false, st.position) else WantedAsks(cfg.params, info, false, st.position);
      var q :| q in wanted && Carries(st, r, q);
      SnapToTick(st, cfg.fairPriceMaxAge, now, q.price, r.price);
    }
  }

  /** No bid a quoting decision sends stands above an ask it sends, exactly as for the quotes. */
  lemma SentOrdersDoNotCross(h: Handler, cfg: Config, p: Product, now: int, bid: Request, ask: Request)
    requires now >= 0 && p in h.states && OnGridBook(h.states[p])
    requires || (cfg.params.useBboCapBuffer && cfg.params.bboCapBufferBp >= 0.0)
             || (OpensOutward(cfg.params) && (h.states[p].fair.factor.Some? ==> h.states[p].fair.factor.value >= 0.0))
    requires var requests := UpdateOrders(h, cfg, p, false, now).requests; bid in requests && ask in requests
    requires bid.PlaceRequest? && bid.isBid && ask.PlaceRequest? && !ask.isBid
    ensures bid.price <= ask.price
  {
    var st := h.states[p];
    FairIsNotNegative(st, cfg.fairPriceMaxAge, now);
    hide UpdateOrders, BuildPriceInfo, WantedBids, WantedAsks, OpensOutward;
    OnGridView(st, cfg.fairPriceMaxAge, now);
    hide OnGridBook;
    var info := BuildPriceInfo(st, cfg.fairPriceMaxAge, now).value;
    DecisionCarries(h, cfg, p, false, now, bid);
    DecisionCarries(h, cfg, p, false, now, ask);
    var b :| b in WantedBids(cfg.params, info, false, st.position) && Carries(st, bid, b);
    var a :| a in WantedAsks(cfg.params, info, false, st.position) && Carries(st, ask, a);
    SnapToTick(st, cfg.fairPriceMaxAge, now, b.price, bid.price);
    SnapToTick(st, cfg.fairPriceMaxAge, now, a.price, ask.price);
    OwnQuotesDoNotCross(cfg.params, info, st.position, b, a);
  }

  /** A factor that is not negative gives a fair price that is not negative: what the strategy is
      handed is a view of the market as StrategyProofs.FromFeed asks for. */
  lemma FairIsNotNegative(st: ProductState, maxAge: int, now: int)
    requires OnGridBook(st) && BuildPriceInfo(st, maxAge, now).Some?
    ensures (st.fair.factor.Some? ==> st.fair.factor.value >= 0.0) ==> BuildPriceInfo(st, maxAge, now).value.fair >= 0.0
    ensures (st.fair.factor.Some? ==> st.fair.factor.value >= 0.0) && st.fair.forwardVol > 0.0 ==> FromFeed(BuildPriceInfo(st, maxAge, now).value)
  {
    var mid := (st.bbid + st.bask) as real / 2.0;
    if st.fair.factor.Some? && st.fair.factor.value >= 0.0 {
      ProductSign(st.fair.factor.value, mid);
    }
  }
}
