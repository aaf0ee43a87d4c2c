/** The order handler's state and, for each of its operations, the state that operation leaves
    and the requests it sends. Prices are min ticks and quantities default lots throughout. */
module HandlerModel {
  import opened Optional
  import opened Rounding
  import opened Ladders
  import opened Strategy

  type Product = string
  type OrderNo = string

  const ORDER_RESPONSE_TIMEOUT_NS := 5_000_000_000

  datatype Order = Order(price: int, qty: int, isBid: bool)

  datatype FairPrice = FairPrice(ts: int, known: bool, factor: Option<real>, forwardVol: real)

  datatype ProductState = ProductState(
    tick: Option<int>, lot: Option<int>,
    bbid: int, bask: int,
    fair: FairPrice,
    position: int,
    outstanding: map<Cid, Order>,
    cidToNo: map<Cid, OrderNo>,
    noToCid: map<OrderNo, Cid>,
    waitPlace: set<Cid>, waitCancel: set<Cid>,
    waitingSince: int)
  {
    predicate NoWaiting() { waitPlace == {} && waitCancel == {} }

    function ClearIfIdle(): ProductState { if NoWaiting() then this.(waitingSince := 0) else this }

    function MarkPlace(cid: Cid, now: int): ProductState {
      this.(waitingSince := if NoWaiting() then now else waitingSince, waitPlace := waitPlace + {cid})
    }

    function MarkCancel(cid: Cid, now: int): ProductState {
      this.(waitingSince := if NoWaiting() then now else waitingSince, waitCancel := waitCancel + {cid})
    }
  }

  datatype Handler = Handler(
    states: map<Product, ProductState>,
    cidProduct: map<Cid, Product>,
    noProduct: map<OrderNo, Product>,
    lastCid: Cid,
    listenerConnected: bool,
    shuttingDown: bool)
  {
    function With(p: Product, st: ProductState): (h: Handler)
      requires p in states
      ensures h.states.Keys == states.Keys
    {
      this.(states := states[p := st])
    }
  }

  function FreshState(): ProductState {
    ProductState(None, None, -1, -1, FairPrice(0, false, None, 1.0), 0, map[], map[], map[], {}, {}, 0)
  }

  /** A handler as constructed: one state per traded product. */
  function FreshHandler(products: seq<Product>): Handler {
    Handler(map p | p in products :: FreshState(), map[], map[], 0, false, false)
  }

  datatype Config = Config(
    params: Params, tradeProducts: seq<Product>,
    fairPriceMaxAge: int, orderUpdateInterval: int,
    flattenOnShutdown: bool, cancelTimeout: int, flattenTimeout: int,
    marketFlatten: bool, reduceOnly: bool)

  datatype Request =
    | CancelRequest(product: Product, cid: Cid, orderNo: OrderNo)
    // `recorded` is the size before snapping and `position` the handler's position when sending
    | PlaceRequest(product: Product, cid: Cid, isBid: bool, isLimit: bool, price: int, qty: int,
                   recorded: int, reduceOnly: bool, position: int)

  datatype Outcome = Outcome(handler: Handler, requests: seq<Request>)

  // ---- the gateway's replies and the execution feed ----

  datatype Response = Response(cid: Cid, success: bool, orderNo: OrderNo, orderGone: bool)

  /** `clientCid` is the number the client order id parses to, if it parses. */
  datatype Execution = Execution(
    clientCid: Option<Cid>, orderNo: OrderNo,
    isAcceptData: bool, isPlace: bool, isCancel: bool, isBid: bool,
    isAccepted: bool, isRejected: bool, isExecuted: bool, updatePositionOnFill: bool,
    orderPrice: int, orderQtyPositive: bool, orderLots: int,
    executeQtyPositive: bool, executeLots: int)

  datatype Routing = Ignored | Routed(product: Product, cid: Option<Cid>)

  /** Which product, and which of its orders, an execution is about. */
  function Route(h: Handler, product: Product, d: Execution): (r: Routing)
    ensures r.Routed? ==> r.product in h.states
  {
    var known := d.clientCid.Some? && d.clientCid.value in h.cidProduct;
    var byCid := if known then h.cidProduct[d.clientCid.value] else "";
    var target := if byCid != "" then byCid else if d.orderNo in h.noProduct then h.noProduct[d.orderNo] else product;
    if target == "" || target !in h.states then Ignored
    else if known then Routed(target, d.clientCid)
    else if d.orderNo in h.states[target].noToCid then Routed(target, Some(h.states[target].noToCid[d.orderNo]))
    else Routed(target, None)
  }

  function ReserveCid(h: Handler, p: Product, now: int): (r: (Handler, Cid))
    requires now >= 0
  {
    var cid := if now <= h.lastCid then h.lastCid + 1 else now;
    (h.(lastCid := cid, cidProduct := h.cidProduct[cid := p]), cid)
  }

  function Bind(h: Handler, p: Product, cid: Cid, no: OrderNo): (r: Handler)
    requires p in h.states
    ensures r.states.Keys == h.states.Keys
  {
    if no == "" then h
    else
      var st := h.states[p];
      h.With(p, st.(cidToNo := st.cidToNo[cid := no], noToCid := st.noToCid[no := cid])).(noProduct := h.noProduct[no := p])
  }

  function ForgetOrder(h: Handler, p: Product, cid: Cid): (r: Handler)
    requires p in h.states
    ensures r.states.Keys == h.states.Keys
  {
    var st := h.states[p];
    var unbound := if cid in st.cidToNo then {st.cidToNo[cid]} else {};
    h.With(p, st.(cidToNo := st.cidToNo - {cid}, noToCid := st.noToCid - unbound, outstanding := st.outstanding - {cid}))
     .(noProduct := h.noProduct - unbound, cidProduct := h.cidProduct - {cid})
  }

  /** Stop waiting on a cid: for its place reply, its cancel reply, or both. */
  function StopWaiting(h: Handler, p: Product, cid: Cid, place: bool, cancel: bool): (r: Handler)
    requires p in h.states
    ensures r.states.Keys == h.states.Keys
  {
    var st := h.states[p];
    h.With(p, st.(waitPlace := if place then st.waitPlace - {cid} else st.waitPlace,
                  waitCancel := if cancel then st.waitCancel - {cid} else st.waitCancel).ClearIfIdle())
  }

  /** `outstanding_orders[cid] = order`. */
  function Record(h: Handler, p: Product, cid: Cid, order: Order): (r: Handler)
    requires p in h.states
    ensures r.states.Keys == h.states.Keys
  {
    h.With(p, h.states[p].(outstanding := h.states[p].outstanding[cid := order]))
  }

  function Adopt(h: Handler, p: Product, d: Execution, now: int): (r: Handler)
    requires p in h.states && now >= 0
    ensures r.states.Keys == h.states.Keys
  {
    var (h1, cid) := ReserveCid(h, p, now);
    Bind(Record(h1, p, cid, Order(d.orderPrice, d.orderLots, d.isBid)), p, cid, d.orderNo)
  }

  function Fill(h: Handler, p: Product, cid: Cid, lots: int): (r: Handler)
    requires p in h.states
    ensures r.states.Keys == h.states.Keys
  {
    var st := h.states[p];
    // operator[] on the map: a cid with no outstanding order starts from an empty one
    var order := if cid in st.outstanding then st.outstanding[cid] else Order(0, 0, false);
    var left := order.qty - lots;
    if left <= 0 then
      StopWaiting(ForgetOrder(h, p, cid), p, cid, true, true)
    else
      Record(h, p, cid, order.(qty := left))
  }

  function OnExecution(h: Handler, product: Product, d: Execution, now: int): (r: Handler)
    requires now >= 0
    ensures r.states.Keys == h.states.Keys
  {
    match Route(h, product, d)
    case Ignored => h
    case Routed(p, cid) =>
      if d.isAcceptData then
        if d.isRejected then
          if cid.Some? then StopWaiting(ForgetOrder(h, p, cid.value), p, cid.value, true, true) else h
        else if d.isCancel then
          if cid.Some? then StopWaiting(ForgetOrder(h, p, cid.value), p, cid.value, false, true) else h
        else if d.isPlace && d.isAccepted then
          if cid.Some? then StopWaiting(Bind(h, p, cid.value, d.orderNo), p, cid.value, true, false)
          else if d.orderQtyPositive then Adopt(h, p, d, now)
          else h
        else h
      else if d.isExecuted && d.executeQtyPositive then
        var h1 := if cid.Some? then Fill(h, p, cid.value, d.executeLots) else h;
        if d.updatePositionOnFill then
          var st := h1.states[p];
          h1.With(p, st.(position := st.position + if d.isBid then d.executeLots else -d.executeLots))
        else h1
      else h
  }

  predicate CidsRouted(h: Handler) {
    forall c :: c in h.cidProduct ==> h.cidProduct[c] in h.states
  }

  function OnOrderResponse(h: Handler, r: Response): (h': Handler)
    requires CidsRouted(h)
    ensures h'.states.Keys == h.states.Keys
  {
    if r.cid !in h.cidProduct then h
    else
      var p := h.cidProduct[r.cid];
      var wasPlace := r.cid in h.states[p].waitPlace;
      var wasCancel := r.cid in h.states[p].waitCancel;
      var h1 := StopWaiting(h, p, r.cid, true, true);
      if wasCancel then
        if r.success || r.orderGone then ForgetOrder(h1, p, r.cid) else h1
      else if r.success then Bind(h1, p, r.cid, r.orderNo)
      else if wasPlace then ForgetOrder(h1, p, r.cid)
      else h1
  }

  // ---- decisions ----

  function PriceInfoFrom(bbid: int, bask: int, grid: Option<int>, fair: FairPrice, maxAge: int, now: int): Option<PriceInfo> {
    if bbid == -1 || bask == -1 then None
    else
      var tick := if grid.Some? && grid.value > 0 then grid.value else 1;
      var mid := (bbid + bask) as real / 2.0;
      if fair.known && (maxAge <= 0 || now - fair.ts <= maxAge) && fair.factor.Some? then
        Some(PriceInfo(bbid, bask, mid, fair.factor.value * mid, fair.forwardVol, tick))
      else
        Some(PriceInfo(bbid, bask, mid, mid, 1.0, tick))
  }

  function BuildPriceInfo(st: ProductState, maxAge: int, now: int): Option<PriceInfo> {
    PriceInfoFrom(st.bbid, st.bask, st.tick, st.fair, maxAge, now)
  }

  lemma GreatestExists(s: set<Cid>)
    requires s != {}
    ensures exists m :: m in s && forall x :: x in s ==> x <= m
  {
    var c :| c in s;
    if s - {c} == {} {
      assert s == {c};
    } else {
      GreatestExists(s - {c});
      var m :| m in s - {c} && forall x :: x in s - {c} ==> x <= m;
      var g := if c <= m then m else c;
      assert g in s && forall x :: x in s ==> x in s - {c} || x == c;
    }
  }

  function Greatest(s: set<Cid>): (m: Cid)
    requires s != {}
    ensures m in s && forall x :: x in s ==> x <= m
  {
    GreatestExists(s);
    var m :| m in s && forall x :: x in s ==> x <= m;
    m
  }

  /** outstanding_orders in iteration order. */
  function RestingOrders(m: map<Cid, Order>): seq<Resting>
    decreases |m|
  {
    if |m| == 0 then []
    else
      var last := Greatest(m.Keys);
      var rest := m - {last};
      assert m.Keys == rest.Keys + {last};
      RestingOrders(rest) + [Resting(last, m[last].price, m[last].qty, m[last].isBid)]
  }

  /** `orders` are the entries of `m`, each once, in cid order. */
  ghost predicate Lists(orders: seq<Resting>, m: map<Cid, Order>) {
    && InCidOrder(orders)
    && |orders| == |m|
    && forall i :: 0 <= i < |orders| ==>
         orders[i].cid in m && m[orders[i].cid] == Order(orders[i].price, orders[i].qty, orders[i].isBid)
  }

  function SubmitCancel(h: Handler, p: Product, cid: Cid, now: int): (s: Outcome)
    requires p in h.states
    ensures s.handler.states.Keys == h.states.Keys
  {
    var st := h.states[p];
    if cid !in st.cidToNo then Outcome(h, [])
    else Outcome(h.With(p, st.MarkCancel(cid, now)), [CancelRequest(p, cid, st.cidToNo[cid])])
  }

  function SnapTo(grid: Option<int>, value: int): int {
    if grid.Some? && grid.value > 0 then Snap(value, grid.value) else value
  }

  function SubmitPlace(h: Handler, p: Product, isBid: bool, price: int, qty: int, isLimit: bool, reduceOnly: bool, now: int): (s: Outcome)
    requires p in h.states && now >= 0
    ensures s.handler.states.Keys == h.states.Keys
  {
    var st := h.states[p];
    var sentPrice := if isLimit then SnapTo(st.tick, price) else 0;
    var sentQty := SnapTo(st.lot, qty);
    if qty <= 0 || sentQty <= 0 || (isLimit && sentPrice <= 0) then Outcome(h, [])
    else
      var (h1, cid) := ReserveCid(h, p, now);
      // a market order does not rest, so only a limit order is recorded
      var h2 := if isLimit then Record(h1, p, cid, Order(price, qty, isBid)) else h1;
      Outcome(h2.With(p, h2.states[p].MarkPlace(cid, now)),
              [PlaceRequest(p, cid, isBid, isLimit, sentPrice, sentQty, qty, reduceOnly, st.position)])
  }

  function SubmitCancels(h: Handler, p: Product, cids: seq<Cid>, now: int): (s: Outcome)
    requires p in h.states
    ensures s.handler.states.Keys == h.states.Keys
  {
    if |cids| == 0 then Outcome(h, [])
    else
      var n := |cids| - 1;
      var before := SubmitCancels(h, p, cids[..n], now);
      var last := SubmitCancel(before.handler, p, cids[n], now);
      Outcome(last.handler, before.requests + last.requests)
  }

  function SubmitPlaces(h: Handler, p: Product, isBid: bool, quotes: seq<Quote>, now: int): (s: Outcome)
    requires p in h.states && now >= 0
    ensures s.handler.states.Keys == h.states.Keys
  {
    if |quotes| == 0 then Outcome(h, [])
    else
      var n := |quotes| - 1;
      var before := SubmitPlaces(h, p, isBid, quotes[..n], now);
      var last := SubmitPlace(before.handler, p, isBid, quotes[n].price, quotes[n].qty, true, false, now);
      Outcome(last.handler, before.requests + last.requests)
  }

  /** Send a decision: cancels first, then the new orders. */
  function Send(h: Handler, p: Product, d: Pairing, now: int): (s: Outcome)
    requires p in h.states && now >= 0
    ensures s.handler.states.Keys == h.states.Keys
  {
    var s1 := SubmitCancels(h, p, d.bidCancels, now);
    var s2 := SubmitCancels(s1.handler, p, d.askCancels, now);
    var s3 := SubmitPlaces(s2.handler, p, true, d.bids, now);
    var s4 := SubmitPlaces(s3.handler, p, false, d.asks, now);
    Outcome(s4.handler, s1.requests + s2.requests + s3.requests + s4.requests)
  }

  predicate ReadyToDecide(h: Handler, p: Product, liquidate: bool) {
    (h.shuttingDown ==> liquidate) && p in h.states && h.listenerConnected && h.states[p].tick.Some?
  }

  predicate TimedOut(st: ProductState, now: int) {
    st.waitingSince > 0 && now - st.waitingSince > ORDER_RESPONSE_TIMEOUT_NS
  }

  function ClearWaits(h: Handler, p: Product): Handler
    requires p in h.states
  {
    h.With(p, h.states[p].(waitPlace := {}, waitCancel := {}, waitingSince := 0))
  }

  function DecideFor(st: ProductState, cfg: Config, liquidate: bool, now: int): Option<Pairing> {
    match BuildPriceInfo(st, cfg.fairPriceMaxAge, now)
    case None => None
    case Some(info) => Some(Decide(cfg.params, info, liquidate, st.position, RestingOrders(st.outstanding)))
  }

  function UpdateOrders(h: Handler, cfg: Config, p: Product, liquidate: bool, now: int): (s: Outcome)
    requires now >= 0
    ensures s.handler.states.Keys == h.states.Keys
  {
    if !ReadyToDecide(h, p, liquidate) then Outcome(h, [])
    else
      var st := h.states[p];
      if !st.NoWaiting() && !TimedOut(st, now) then Outcome(h, [])
      else
        var h1 := if st.NoWaiting() then h else ClearWaits(h, p);
        match DecideFor(h1.states[p], cfg, liquidate, now)
        case None => Outcome(h1, [])
        case Some(d) => Send(h1, p, d, now)
  }

  // ---- the other feeds ----

  datatype Task =
    | ListenerStatus(connected: bool)
    | Book(product: Product, bbid: int, bask: int)
    | ExecutionTask(product: Product, data: Execution)
    | PositionTask(product: Product, lots: Option<int>)
    | ProductInfo(product: Product, tick: Option<int>, lot: Option<int>)
    | FairPriceTask(product: Product, fair: FairPrice)
    | OrderUpdate(product: Product)
    | ReplyTask(response: Response)
    | NoAction

  function OnBook(h: Handler, p: Product, bbid: int, bask: int): Handler {
    if p !in h.states then h else h.With(p, h.states[p].(bbid := bbid, bask := bask))
  }

  function OnPosition(h: Handler, p: Product, lots: Option<int>): Handler {
    if lots.None? || p !in h.states then h else h.With(p, h.states[p].(position := lots.value))
  }

  function OnProductInfo(h: Handler, p: Product, tick: Option<int>, lot: Option<int>): Handler {
    if tick.None? || lot.None? || tick.value <= 0 || lot.value <= 0 || p !in h.states then h
    else h.With(p, h.states[p].(tick := tick, lot := lot))
  }

  function OnFairPrice(h: Handler, p: Product, fair: FairPrice): Handler {
    if p !in h.states then h
    else h.With(p, h.states[p].(fair := if fair.forwardVol > 0.0 then fair else fair.(forwardVol := 1.0)))
  }

  function HandleTask(h: Handler, cfg: Config, task: Task, now: int): (s: Outcome)
    requires now >= 0 && CidsRouted(h)
    ensures s.handler.states.Keys == h.states.Keys
  {
    match task
    case ListenerStatus(connected) => Outcome(h.(listenerConnected := connected), [])
    case Book(p, bbid, bask) => Outcome(OnBook(h, p, bbid, bask), [])
    case ExecutionTask(p, d) => Outcome(OnExecution(h, p, d, now), [])
    case PositionTask(p, lots) => Outcome(OnPosition(h, p, lots), [])
    case ProductInfo(p, tick, lot) => Outcome(OnProductInfo(h, p, tick, lot), [])
    case FairPriceTask(p, fair) => Outcome(OnFairPrice(h, p, fair), [])
    case OrderUpdate(p) => UpdateOrders(h, cfg, p, false, now)
    case ReplyTask(r) => Outcome(OnOrderResponse(h, r), [])
    case NoAction => Outcome(h, [])
  }
}
