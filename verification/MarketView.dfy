/** What the handler decides on: over every run of queue items, the latest book, product grid, fair
    price and link status it was sent, and nothing older. */
module MarketView {
  import opened Optional
  import opened Ladders
  import opened Strategy
  import opened StrategyProofs
  import opened HandlerModel
  import opened IndexInvariant
  import opened ShutdownModel
  import opened Executions
  import opened SentOrders

  /** A queue item and the clock when it is handled. */
  datatype Timed = Timed(task: Task, now: nat)

  ghost function HandleAll(h: Handler, cfg: Config, tasks: seq<Timed>): (r: Handler)
    requires CidsRouted(h)
    ensures CidsRouted(r) && r.states.Keys == h.states.Keys && r.shuttingDown == h.shuttingDown
  {
    if |tasks| == 0 then h
    else
      var n := |tasks| - 1;
      var before := HandleAll(h, cfg, tasks[..n]);
      HandledKeepsRouted(before, cfg, tasks[n].task, tasks[n].now);
      HandleTask(before, cfg, tasks[n].task, tasks[n].now).handler
  }

  // ---- the latest message of each kind ----

  function LastFair(tasks: seq<Timed>, p: Product): Option<FairPrice> {
    if |tasks| == 0 then None
    else
      var n := |tasks| - 1;
      match tasks[n].task
      case FairPriceTask(q, fair) => if q == p then Some(fair) else LastFair(tasks[..n], p)
      case _ => LastFair(tasks[..n], p)
  }

  function LastBook(tasks: seq<Timed>, p: Product): Option<(int, int)> {
    if |tasks| == 0 then None
    else
      var n := |tasks| - 1;
      match tasks[n].task
      case Book(q, bbid, bask) => if q == p then Some((bbid, bask)) else LastBook(tasks[..n], p)
      case _ => LastBook(tasks[..n], p)
  }

  /** The tick and lot an item carries for the product: both, and both positive. */
  function GridIn(task: Task, p: Product): Option<(int, int)> {
    match task
    case ProductInfo(q, tick, lot) =>
      if q == p && tick.Some? && lot.Some? && tick.value > 0 && lot.value > 0 then Some((tick.value, lot.value)) else None
    case _ => None
  }

  function LastGrid(tasks: seq<Timed>, p: Product): Option<(int, int)> {
    if |tasks| == 0 then None
    else
      var n := |tasks| - 1;
      if GridIn(tasks[n].task, p).Some? then GridIn(tasks[n].task, p) else LastGrid(tasks[..n], p)
  }

  function GridOr(grid: Option<(int, int)>, before: (Option<int>, Option<int>)): (Option<int>, Option<int>) {
    if grid.Some? then (Some(grid.value.0), Some(grid.value.1)) else before
  }

  function LastLink(tasks: seq<Timed>): bool {
    if |tasks| == 0 then false
    else
      var n := |tasks| - 1;
      match tasks[n].task
      case ListenerStatus(connected) => connected
      case _ => LastLink(tasks[..n])
  }

  // ---- one queue item ----

  lemma ForgetKeepsFeeds(h: Handler, p: Product, c: Cid, q: Product)
    requires p in h.states && q in h.states
    ensures SameFeeds(h.states[q], ForgetOrder(h, p, c).states[q])
  {
  }

  lemma StopKeepsFeeds(h: Handler, p: Product, c: Cid, place: bool, cancel: bool, q: Product)
    requires p in h.states && q in h.states
    ensures SameFeeds(h.states[q], StopWaiting(h, p, c, place, cancel).states[q])
  {
  }

  lemma BindKeepsFeeds(h: Handler, p: Product, c: Cid, no: OrderNo, q: Product)
    requires p in h.states && q in h.states
    ensures SameFeeds(h.states[q], Bind(h, p, c, no).states[q])
  {
  }

  lemma AdoptKeepsFeeds(h: Handler, p: Product, d: Execution, now: int, q: Product)
    requires p in h.states && q in h.states && now >= 0
    ensures SameFeeds(h.states[q], Adopt(h, p, d, now).states[q])
    ensures Adopt(h, p, d, now).listenerConnected == h.listenerConnected
  {
  }

  lemma FillKeepsFeeds(h: Handler, p: Product, c: Cid, lots: int, q: Product)
    requires p in h.states && q in h.states
    ensures SameFeeds(h.states[q], Fill(h, p, c, lots).states[q])
  {
    hide ForgetOrder, StopWaiting;
    ForgetKeepsFeeds(h, p, c, q);
    StopKeepsFeeds(ForgetOrder(h, p, c), p, c, true, true, q);
  }

  lemma ExecutionKeepsFeeds(h: Handler, product: Product, d: Execution, now: int, q: Product)
    requires q in h.states && now >= 0
    ensures SameFeeds(h.states[q], OnExecution(h, product, d, now).states[q])
  {
    hide Route, ForgetOrder, StopWaiting, Bind, Adopt, Fill;
    match Route(h, product, d)
    case Ignored =>
    case Routed(p, cid) =>
      AdoptKeepsFeeds(h, p, d, now, q);
      if cid.Some? {
        ForgetKeepsFeeds(h, p, cid.value, q);
        StopKeepsFeeds(ForgetOrder(h, p, cid.value), p, cid.value, true, true, q);
        StopKeepsFeeds(ForgetOrder(h, p, cid.value), p, cid.value, false, true, q);
        BindKeepsFeeds(h, p, cid.value, d.orderNo, q);
        StopKeepsFeeds(Bind(h, p, cid.value, d.orderNo), p, cid.value, true, false, q);
        FillKeepsFeeds(h, p, cid.value, d.executeLots, q);
      }
  }

  lemma ReplyKeepsFeeds(h: Handler, r: Response, q: Product)
    requires CidsRouted(h) && q in h.states
    ensures SameFeeds(h.states[q], OnOrderResponse(h, r).states[q])
  {
    hide ForgetOrder, StopWaiting, Bind;
    if r.cid in h.cidProduct {
      var p := h.cidProduct[r.cid];
      var h1 := StopWaiting(h, p, r.cid, true, true);
      StopKeepsFeeds(h, p, r.cid, true, true, q);
      ForgetKeepsFeeds(h1, p, r.cid, q);
      BindKeepsFeeds(h1, p, r.cid, r.orderNo, q);
    }
  }

  lemma {:induction false} CancelsKeepFeeds(h: Handler, p: Product, cids: seq<Cid>, now: int, q: Product)
    requires p in h.states && q in h.states
    ensures SameFeeds(h.states[q], SubmitCancels(h, p, cids, now).handler.states[q])
  {
    if |cids| > 0 {
      CancelsKeepFeeds(h, p, cids[..|cids| - 1], now, q);
    }
  }

  lemma PlaceKeepsFeeds(h: Handler, p: Product, isBid: bool, quote: Quote, now: int, q: Product)
    requires p in h.states && q in h.states && now >= 0
    ensures SameFeeds(h.states[q], SubmitPlace(h, p, isBid, quote.price, quote.qty, true, false, now).handler.states[q])
  {
    hide SnapTo;
  }

  lemma {:induction false} PlacesKeepFeeds(h: Handler, p: Product, isBid: bool, quotes: seq<Quote>, now: int, q: Product)
    requires p in h.states && q in h.states && now >= 0
    ensures SameFeeds(h.states[q], SubmitPlaces(h, p, isBid, quotes, now).handler.states[q])
  {
    hide SubmitPlace;
    if |quotes| > 0 {
      var n := |quotes| - 1;
      PlacesKeepFeeds(h, p, isBid, quotes[..n], now, q);
      PlaceKeepsFeeds(SubmitPlaces(h, p, isBid, quotes[..n], now).handler, p, isBid, quotes[n], now, q);
    }
  }

  lemma UpdateKeepsFeeds(h: Handler, cfg: Config, p: Product, liquidate: bool, now: int, q: Product)
    requires q in h.states && now >= 0
    ensures SameFeeds(h.states[q], UpdateOrders(h, cfg, p, liquidate, now).handler.states[q])
  {
    hide DecideFor, SubmitCancels, SubmitPlaces;
    if ReadyToDecide(h, p, liquidate) {
      var h1 := if h.states[p].NoWaiting() then h else ClearWaits(h, p);
      var d := DecideFor(h1.states[p], cfg, liquidate, now);
      if d.Some? {
        var s1 := SubmitCancels(h1, p, d.value.bidCancels, now);
        var s2 := SubmitCancels(s1.handler, p, d.value.askCancels, now);
        var s3 := SubmitPlaces(s2.handler, p, true, d.value.bids, now);
        CancelsKeepFeeds(h1, p, d.value.bidCancels, now, q);
        CancelsKeepFeeds(s1.handler, p, d.value.askCancels, now, q);
        PlacesKeepFeeds(s2.handler, p, true, d.value.bids, now, q);
        PlacesKeepFeeds(s3.handler, p, false, d.value.asks, now, q);
      }
    }
  }

  lemma ExecutionKeepsLink(h: Handler, product: Product, d: Execution, now: int)
    requires now >= 0
    ensures OnExecution(h, product, d, now).listenerConnected == h.listenerConnected
  {
    hide Route, Fill;
    match Route(h, product, d)
    case Ignored =>
    case Routed(p, cid) =>
      if cid.Some? {
        FillKeepsLink(h, p, cid.value, d.executeLots);
      }
  }

  lemma FillKeepsLink(h: Handler, p: Product, c: Cid, lots: int)
    requires p in h.states
    ensures Fill(h, p, c, lots).listenerConnected == h.listenerConnected
  {
  }

  lemma ReplyKeepsLink(h: Handler, r: Response)
    requires CidsRouted(h)
    ensures OnOrderResponse(h, r).listenerConnected == h.listenerConnected
  {
  }

  /** A fair price as it is kept: a volatility that is not positive is taken for one. */
  function Received(fair: FairPrice): FairPrice {
    if fair.forwardVol > 0.0 then fair else fair.(forwardVol := 1.0)
  }

  /** The market data a product is left with by one item: its own message's, or what it had. */
  ghost predicate FeedsAfter(task: Task, st: ProductState, st': ProductState, p: Product) {
    && st'.fair == (if task.FairPriceTask? && task.product == p then Received(task.fair) else st.fair)
    && (st'.bbid, st'.bask) == (if task.Book? && task.product == p then (task.bbid, task.bask) else (st.bbid, st.bask))
    && (st'.tick, st'.lot) == GridOr(GridIn(task, p), (st.tick, st.lot))
  }

  lemma TaskFeeds(h: Handler, cfg: Config, t: Timed, p: Product)
    requires CidsRouted(h) && p in h.states
    ensures var h' := HandleTask(h, cfg, t.task, t.now).handler;
      && FeedsAfter(t.task, h.states[p], h'.states[p], p)
      && h'.listenerConnected == if t.task.ListenerStatus? then t.task.connected else h.listenerConnected
  {
    match t.task
    case Book(q, bbid, bask) => BookFeeds(h, q, bbid, bask, p);
    case ProductInfo(q, tick, lot) => GridFeeds(h, q, tick, lot, p);
    case FairPriceTask(q, fair) => FairFeeds(h, q, fair, p);
    case PositionTask(q, lots) =>
    case ListenerStatus(_) =>
    case NoAction =>
    case _ =>
      OrdersKeepFeeds(h, cfg, t, p);
      hide HandleTask;
    hide OnExecution, OnOrderResponse, UpdateOrders, OnBook, OnProductInfo, OnFairPrice;
  }

  ghost predicate OnlyFeeds(h: Handler, h': Handler, p: Product)
    requires p in h.states && p in h'.states
  {
    h'.states[p].position == h.states[p].position && h'.listenerConnected == h.listenerConnected
  }

  lemma BookFeeds(h: Handler, q: Product, bbid: int, bask: int, p: Product)
    requires p in h.states
    ensures var h' := OnBook(h, q, bbid, bask);
      p in h'.states && FeedsAfter(Book(q, bbid, bask), h.states[p], h'.states[p], p) && OnlyFeeds(h, h', p)
  {
  }

  lemma GridFeeds(h: Handler, q: Product, tick: Option<int>, lot: Option<int>, p: Product)
    requires p in h.states
    ensures var h' := OnProductInfo(h, q, tick, lot);
      p in h'.states && FeedsAfter(ProductInfo(q, tick, lot), h.states[p], h'.states[p], p) && OnlyFeeds(h, h', p)
  {
  }

  lemma FairFeeds(h: Handler, q: Product, fair: FairPrice, p: Product)
    requires p in h.states
    ensures var h' := OnFairPrice(h, q, fair);
      p in h'.states && FeedsAfter(FairPriceTask(q, fair), h.states[p], h'.states[p], p) && OnlyFeeds(h, h', p)
  {
  }

  lemma OrdersKeepFeeds(h: Handler, cfg: Config, t: Timed, p: Product)
    requires CidsRouted(h) && p in h.states && (t.task.ExecutionTask? || t.task.ReplyTask? || t.task.OrderUpdate?)
    ensures var h' := HandleTask(h, cfg, t.task, t.now).handler;
      SameFeeds(h.states[p], h'.states[p]) && h'.listenerConnected == h.listenerConnected
  {
    hide OnExecution, OnOrderResponse, UpdateOrders;
    match t.task
    case ExecutionTask(q, d) =>
      ExecutionKeepsFeeds(h, q, d, t.now, p);
      ExecutionKeepsLink(h, q, d, t.now);
    case ReplyTask(r) =>
      ReplyKeepsFeeds(h, r, p);
      ReplyKeepsLink(h, r);
    case OrderUpdate(q) =>
      UpdateKeepsFeeds(h, cfg, q, false, t.now, p);
      UpdateStands(h, cfg, q, false, t.now);
    case _ =>
  }

  /** What the handler of a constructed trader knows of a product's market, and of the listener's
      link, after any run of queue items. */
  ghost predicate KnowsLatest(h: Handler, tasks: seq<Timed>, p: Product) {
    && p in h.states && h.listenerConnected == LastLink(tasks)
    && var st := h.states[p];
       && st.fair == (match LastFair(tasks, p) case None => FreshState().fair case Some(fair) => Received(fair))
       && (st.bbid, st.bask) == (match LastBook(tasks, p) case None => (-1, -1) case Some(book) => book)
       && (st.tick, st.lot) == GridOr(LastGrid(tasks, p), (None, None))
  }

  lemma {:induction false} LatestFeeds(products: seq<Product>, cfg: Config, tasks: seq<Timed>, p: Product)
    requires p in products
    ensures KnowsLatest(HandleAll(FreshHandler(products), cfg, tasks), tasks, p)
  {
    hide HandleTask;
    if |tasks| > 0 {
      var n := |tasks| - 1;
      LatestFeeds(products, cfg, tasks[..n], p);
      TaskFeeds(HandleAll(FreshHandler(products), cfg, tasks[..n]), cfg, tasks[n], p);
      }
  }

  // ---- the position ----

  /** How one item moves a product's position: a position report sets it; a counted fill of one of the
      product's orders, or of an order nobody here knows that came with the product, moves it by its
      lots; nothing else does. */
  function PositionAfter(h: Handler, task: Task, p: Product, before: int): int {
    match task
    case PositionTask(q, lots) => if q == p && lots.Some? then lots.value else before
    case ExecutionTask(q, d) => if IsFill(d) && FillIsOf(h, d, q) == Some(p) then before + Moved(d) else before
    case _ => before
  }

  /** The product a message counts for: its cid's, or its number's, or the one it came with. */
  function FillIsOf(h: Handler, d: Execution, q: Product): Option<Product> {
    if d.clientCid.Some? && d.clientCid.value in h.cidProduct then Some(h.cidProduct[d.clientCid.value])
    else if d.orderNo in h.noProduct then Some(h.noProduct[d.orderNo])
    else if q in h.states then Some(q)
    else None
  }

  lemma PositionMoves(h: Handler, cfg: Config, t: Timed, p: Product)
    requires Indexed(h) && CidsRouted(h) && p in h.states
    ensures HandleTask(h, cfg, t.task, t.now).handler.states[p].position == PositionAfter(h, t.task, p, h.states[p].position)
  {
    ItemIsHandled(h, cfg, t);
    match t.task
    case ExecutionTask(q, d) =>
      ExecutionMovesPosition(h, q, d, t.now, p);
      hide HandleTask;
    case ReplyTask(r) =>
      ReplyKeepsPosition(h, r, p);
      hide HandleTask;
    case OrderUpdate(q) => UpdateStands(h, cfg, q, false, t.now);
    case Book(q, bbid, bask) => BookFeeds(h, q, bbid, bask, p);
    case ProductInfo(q, tick, lot) => GridFeeds(h, q, tick, lot, p);
    case FairPriceTask(q, fair) => FairFeeds(h, q, fair, p);
    case _ =>
    hide Indexed, OnExecution, OnOrderResponse, UpdateOrders, OnBook, OnProductInfo, OnFairPrice, FeedsAfter;
  }

  lemma ReplyKeepsPosition(h: Handler, r: Response, p: Product)
    requires Indexed(h) && CidsRouted(h) && p in h.states
    ensures OnOrderResponse(h, r).states[p].position == h.states[p].position
  {
    if r.cid in h.cidProduct {
      ReplyEffects(h, r, h.cidProduct[r.cid]);
    }
    hide OnOrderResponse, Indexed, Gone, BoundTo, SameFeeds;
  }

  /** Executions and replies off the queue are handled as such. */
  lemma ItemIsHandled(h: Handler, cfg: Config, t: Timed)
    requires CidsRouted(h)
    ensures t.task.ExecutionTask? ==> HandleTask(h, cfg, t.task, t.now) == Outcome(OnExecution(h, t.task.product, t.task.data, t.now), [])
    ensures t.task.ReplyTask? ==> HandleTask(h, cfg, t.task, t.now) == Outcome(OnOrderResponse(h, t.task.response), [])
  {
  }

  lemma ExecutionMovesPosition(h: Handler, q: Product, d: Execution, now: int, p: Product)
    requires Indexed(h) && now >= 0 && p in h.states
    ensures OnExecution(h, q, d, now).states[p].position ==
      h.states[p].position + if IsFill(d) && FillIsOf(h, d, q) == Some(p) then Moved(d) else 0
  {
    hide OnExecution, Gone, BoundTo, SameFeeds;
    NamesOneOrNothing(h, d);
    if NamesNothing(h, d) {
      if IsFill(d) && q in h.states {
        UnknownFillMovesPosition(h, q, d, now);
      } else if IsAccept(d) && d.orderQtyPositive && q in h.states {
        UnknownAcceptanceAdopts(h, q, d, now);
      } else {
        OtherMessagesChangeNothing(h, q, d, now);
      }
    } else {
      var o, c :| Names(h, d, o, c);
      NamedIsRouted(h, d, o, c, q);
      if IsFill(d) {
        FillTakesLots(h, q, d, now, o, c);
      } else if d.isAcceptData && (d.isRejected || d.isCancel) {
        EndReportDrops(h, q, d, now, o, c);
        GoneFromOne(h, OnExecution(h, q, d, now), o, c, d.isRejected);
      } else if IsAccept(d) {
        AcceptanceBinds(h, q, d, now, o, c);
      } else {
        OtherMessagesChangeNothing(h, q, d, now);
      }
    }
  }

  lemma GoneFromOne(h: Handler, h': Handler, p: Product, c: Cid, placeWaitToo: bool)
    requires Gone(h, h', p, c, placeWaitToo)
    ensures OthersAsBefore(h, h', p)
  {
  }

  lemma NamedIsRouted(h: Handler, d: Execution, o: Product, c: Cid, q: Product)
    requires Indexed(h) && Names(h, d, o, c)
    ensures o in h.states && FillIsOf(h, d, q) == Some(o)
  {
    hide Inverse;
    if NamesNumber(h, d, o, c) {
      assert NumberOf(h, d.orderNo, o);
    }
  }

  // ---- the decision made on it ----

  /** The pricer's price counts: it has one, with a factor, and it is not too old. */
  predicate Usable(fair: Option<FairPrice>, maxAge: int, now: int) {
    fair.Some? && fair.value.known && fair.value.factor.Some? && (maxAge <= 0 || now <= fair.value.ts + maxAge)
  }

  /** The market as the strategy is shown it: around the mid price of the book, or the factor times it
      with the pricer's volatility while that counts. */
  function Shown(book: (int, int), tick: int, fair: Option<FairPrice>, maxAge: int, now: int): PriceInfo {
    var mid := (book.0 + book.1) as real / 2.0;
    if Usable(fair, maxAge, now) then
      PriceInfo(book.0, book.1, mid, fair.value.factor.value * mid, if fair.value.forwardVol > 0.0 then fair.value.forwardVol else 1.0, tick)
    else PriceInfo(book.0, book.1, mid, mid, 1.0, tick)
  }

  /** A reply has been awaited for more than five seconds. */
  predicate Overdue(st: ProductState, now: int) {
    st.waitingSince > 0 && now > st.waitingSince + 5_000_000_000
  }

  /** After any run of queue items, a decision tick does nothing without the product, the listener's
      link or the product's grid, nor while replies are awaited and not overdue. Otherwise overdue
      waits are dropped, and with both sides of a book the strategy decides on exactly the latest
      book, tick and fair price. */
  lemma DecidesOnLatest(products: seq<Product>, cfg: Config, tasks: seq<Timed>, p: Product, now: nat)
    ensures var h := HandleAll(FreshHandler(products), cfg, tasks);
      var out := HandleTask(h, cfg, OrderUpdate(p), now);
      var book, grid := LastBook(tasks, p), LastGrid(tasks, p);
      if p !in products || !LastLink(tasks) || grid.None? || !(h.states[p].NoWaiting() || Overdue(h.states[p], now)) then out == Outcome(h, [])
      else
        var st := h.states[p];
        var h1 := if st.NoWaiting() then h else h.With(p, st.(waitPlace := {}, waitCancel := {}, waitingSince := 0));
        if book.None? || book.value.0 == -1 || book.value.1 == -1 then out == Outcome(h1, [])
        else
          var info := Shown(book.value, grid.value.0, LastFair(tasks, p), cfg.fairPriceMaxAge, now);
          out == Send(h1, p, Decide(cfg.params, info, false, st.position, RestingOrders(st.outstanding)), now)
  {
    hide HandleAll, Send, Decide, RestingOrders;
    var h := HandleAll(FreshHandler(products), cfg, tasks);
    if p in products {
      LatestFeeds(products, cfg, tasks, p);
      GridIsPositive(tasks, p);
      var cleared := ClearWaits(h, p).states[p];
      if LastGrid(tasks, p).Some? {
        InfoIsShown(h, h.states[p], tasks, p, cfg.fairPriceMaxAge, now);
        InfoIsShown(h, cleared, tasks, p, cfg.fairPriceMaxAge, now);
      }
      hide BuildPriceInfo, Shown, LastFair, LastBook, LastGrid, LastLink;
    }
  }

  lemma InfoIsShown(h: Handler, st: ProductState, tasks: seq<Timed>, p: Product, maxAge: int, now: int)
    requires KnowsLatest(h, tasks, p) && SameFeeds(h.states[p], st)
    requires LastGrid(tasks, p).Some? && LastGrid(tasks, p).value.0 > 0
    ensures var book := LastBook(tasks, p);
      var info := BuildPriceInfo(st, maxAge, now);
      if book.None? || book.value.0 == -1 || book.value.1 == -1 then info == None
      else info == Some(Shown(book.value, LastGrid(tasks, p).value.0, LastFair(tasks, p), maxAge, now))
  {
    hide LastFair, LastBook, LastGrid, LastLink;
    var fair := LastFair(tasks, p);
    assert fair.Some? ==> st.fair == Received(fair.value);
    assert fair.None? ==> !st.fair.known;
    var book := LastBook(tasks, p);
    if book.Some? && book.value.0 != -1 && book.value.1 != -1 {
      assert st.bbid == book.value.0 && st.bask == book.value.1;
      var info, shown := BuildPriceInfo(st, maxAge, now).value, Shown(book.value, LastGrid(tasks, p).value.0, fair, maxAge, now);
      assert info.mid == shown.mid && info.tick == shown.tick && info.fair == shown.fair && info.forwardVol == shown.forwardVol;
    }
  }

  lemma {:induction false} GridIsPositive(tasks: seq<Timed>, p: Product)
    ensures LastGrid(tasks, p).Some? ==> LastGrid(tasks, p).value.0 > 0 && LastGrid(tasks, p).value.1 > 0
  {
    if |tasks| > 0 {
      GridIsPositive(tasks[..|tasks| - 1], p);
    }
  }

  /** On every run, a latest book on the product's grid and a latest factor that is not negative give
      a view of the market for which the strategy's theorems speak. */
  lemma ShownIsFromFeed(products: seq<Product>, cfg: Config, tasks: seq<Timed>, p: Product, now: nat)
    requires p in products && OnGridBook(HandleAll(FreshHandler(products), cfg, tasks).states[p])
    requires var fair := LastFair(tasks, p); fair.Some? && fair.value.factor.Some? ==> fair.value.factor.value >= 0.0
    ensures var info := BuildPriceInfo(HandleAll(FreshHandler(products), cfg, tasks).states[p], cfg.fairPriceMaxAge, now);
      info.Some? && FromFeed(info.value)
  {
    hide HandleAll;
    LatestFeeds(products, cfg, tasks, p);
    var st := HandleAll(FreshHandler(products), cfg, tasks).states[p];
    OnGridView(st, cfg.fairPriceMaxAge, now);
    FairIsNotNegative(st, cfg.fairPriceMaxAge, now);
  }
}
