/** What the shutdown sequence is about: what it waits for, what it may send, and what a task
    handled meanwhile can change. */
module ShutdownModel {
  import opened Optional
  import opened Ladders
  import opened Strategy
  import opened StrategyProofs
  import opened HandlerModel

  /** What the shared queue does next: how long the wait takes, what it delivers, and how long
      handling that takes. */
  datatype Wake = Wake(elapsed: nat, task: Option<Task>, handling: nat)

  /** A point of the shutdown: a round of cancels; the beginning of the flattening, each round of
      liquidation quotes, the end of those, the moment before the market orders, and the end of the
      flattening. */
  datatype Stage = Cancelling | Begun | Quoting | Stopped | Crossing | Flattened

  /** What the handler did, in order: a request it sent; a queue item it handled, with the orders
      whose cancels that answers; a cancel phase it began; and a point of its shutdown, with the
      handler, the clock and the handling time so far. */
  datatype Event =
    | Sent(request: Request, at: int)
    | Handled(task: Task, at: int, answered: set<Cid>)
    | Phase(start: int, deadline: int)
    | Seen(stage: Stage, h: Handler, at: int, busy: int)

  function SentEvents(requests: seq<Request>, at: int): seq<Event> {
    seq(|requests|, i requires 0 <= i < |requests| => Sent(requests[i], at))
  }

  function RecordedQty(st: ProductState, c: Cid): int {
    if c in st.outstanding then st.outstanding[c].qty else 0
  }

  /** The orders whose cancel a queue item answers: the one a reply is for, or one reported
      cancelled, rejected or filled up. An acceptance or a partial fill answers none. */
  function Answers(h: Handler, task: Task): set<Cid> {
    match task
    case ReplyTask(r) => {r.cid}
    case ExecutionTask(p, d) =>
      var r := Route(h, p, d);
      if r.Routed? && r.cid.Some? && EndsOrder(h.states[r.product], r.cid.value, d) then {r.cid.value} else {}
    case _ => {}
  }

  predicate EndsOrder(st: ProductState, c: Cid, d: Execution) {
    if d.isAcceptData then d.isRejected || d.isCancel
    else d.isExecuted && d.executeQtyPositive && RecordedQty(st, c) <= d.executeLots
  }

  predicate NothingOutstanding(h: Handler) {
    forall p :: p in h.states ==> h.states[p].outstanding == map[]
  }

  predicate Cancellable(h: Handler, p: Product, c: Cid) {
    p in h.states && c in h.states[p].outstanding && c !in h.states[p].waitCancel && c in h.states[p].cidToNo
  }

  predicate AnyCancellable(h: Handler) {
    exists p :: p in h.states && exists c :: c in h.states[p].outstanding && Cancellable(h, p, c)
  }

  predicate Flat(h: Handler) {
    forall p :: p in h.states ==> h.states[p].position == 0
  }

  /** What a shutdown loop waits for. */
  datatype Goal = GoneOrCancellable | AllFlat

  predicate Reached(h: Handler, goal: Goal) {
    match goal
    case GoneOrCancellable => NothingOutstanding(h) || AnyCancellable(h)
    case AllFlat => Flat(h)
  }

  // ---- one cancel at a time ----

  /** The orders whose cancel has been sent and not answered since. */
  ghost function Unanswered(log: seq<Event>): set<(Product, Cid)> {
    if |log| == 0 then {}
    else
      var before := Unanswered(log[..|log| - 1]);
      match log[|log| - 1]
      case Sent(r, _) => if r.CancelRequest? then before + {(r.product, r.cid)} else before
      case Handled(_, _, cids) => set x | x in before && x.1 !in cids
      case _ => before
  }

  /** No order is sent a second cancel while its first is unanswered. */
  ghost predicate OneCancelAtATime(log: seq<Event>) {
    forall i :: 0 <= i < |log| ==> NotRepeated(log, i)
  }

  ghost predicate NotRepeated(log: seq<Event>, i: nat)
    requires i < |log|
  {
    log[i].Sent? && log[i].request.CancelRequest? ==> (log[i].request.product, log[i].request.cid) !in Unanswered(log[..i])
  }

  /** Every unanswered cancel is still awaited. */
  ghost predicate StillAwaited(h: Handler, log: seq<Event>) {
    forall p, c :: (p, c) in Unanswered(log) ==> p in h.states && c in h.states[p].waitCancel
  }

  lemma LogAppend(log: seq<Event>, e: Event)
    requires OneCancelAtATime(log)
    requires e.Sent? && e.request.CancelRequest? ==> (e.request.product, e.request.cid) !in Unanswered(log)
    ensures OneCancelAtATime(log + [e])
  {
    forall i | 0 <= i < |log + [e]|
      ensures NotRepeated(log + [e], i)
    {
      if i < |log| {
        assert NotRepeated(log, i);
        assert (log + [e])[..i] == log[..i];
      } else {
        assert (log + [e])[..i] == log;
      }
    }
  }

  // ---- shutdown only reduces ----

  /** An order opposite to the position held when it was sent, for exactly that position. */
  predicate Reducing(r: Request) {
    r.PlaceRequest? ==>
      r.position != 0 && (r.isBid <==> r.position < 0) && r.recorded == if r.position > 0 then r.position else -r.position
  }

  /** Positions and links are as they were, cids still lead to known products, and no order is
      forgotten. */
  ghost predicate Stands(h: Handler, h': Handler) {
    && h'.states.Keys == h.states.Keys && h'.shuttingDown == h.shuttingDown && h'.listenerConnected == h.listenerConnected
    && (forall p :: p in h.states ==> h'.states[p].position == h.states[p].position)
    && (CidsRouted(h) ==> CidsRouted(h'))
    && KeepsOrders(h, h')
  }

  /** What was outstanding still is. */
  ghost predicate KeepsOrders(h: Handler, h': Handler) {
    && h'.states.Keys == h.states.Keys
    && forall p :: p in h.states ==> h.states[p].outstanding.Keys <= h'.states[p].outstanding.Keys
  }

  lemma KeepsThrough(h: Handler, h1: Handler, h2: Handler)
    requires KeepsOrders(h, h1) && KeepsOrders(h1, h2)
    ensures KeepsOrders(h, h2)
  {
  }

  lemma StandsThrough(h: Handler, h1: Handler, h2: Handler)
    requires Stands(h, h1) && Stands(h1, h2)
    ensures Stands(h, h2)
    ensures forall p :: p in h.states ==> p in h1.states && h1.states[p].position == h.states[p].position
  {
  }

  lemma CancelStands(h: Handler, p: Product, cid: Cid, now: int)
    requires p in h.states
    ensures Stands(h, SubmitCancel(h, p, cid, now).handler)
    ensures forall r :: r in SubmitCancel(h, p, cid, now).requests ==> r.CancelRequest?
  {
  }

  lemma PlaceStands(h: Handler, p: Product, isBid: bool, price: int, qty: int, isLimit: bool, reduceOnly: bool, now: int)
    requires p in h.states && now >= 0
    ensures var out := SubmitPlace(h, p, isBid, price, qty, isLimit, reduceOnly, now);
      && Stands(h, out.handler)
      && forall r :: r in out.requests ==>
           r.PlaceRequest? && r.position == h.states[p].position && r.isBid == isBid && r.recorded == qty
  {
    hide SnapTo, Stands, Record;
    var (h1, cid) := ReserveCid(h, p, now);
    var h2 := if isLimit then Record(h1, p, cid, Order(price, qty, isBid)) else h1;
    NothingStands(h);
    ReserveStands(h, p, now);
    RecordStands(h1, p, cid, Order(price, qty, isBid));
    MarkStands(h2, p, cid, now);
    StandsThrough(h, h1, h2);
    StandsThrough(h, h2, h2.With(p, h2.states[p].MarkPlace(cid, now)));
  }

  lemma NothingStands(h: Handler)
    ensures Stands(h, h)
  {
  }

  lemma ReserveStands(h: Handler, p: Product, now: int)
    requires p in h.states && now >= 0
    ensures Stands(h, ReserveCid(h, p, now).0)
  {
  }

  lemma RecordStands(h: Handler, p: Product, cid: Cid, order: Order)
    requires p in h.states
    ensures Stands(h, Record(h, p, cid, order))
  {
  }

  lemma MarkStands(h: Handler, p: Product, cid: Cid, now: int)
    requires p in h.states
    ensures Stands(h, h.With(p, h.states[p].MarkPlace(cid, now)))
  {
  }

  lemma {:induction false} CancelsStand(h: Handler, p: Product, cids: seq<Cid>, now: int)
    requires p in h.states
    ensures Stands(h, SubmitCancels(h, p, cids, now).handler)
    ensures forall r :: r in SubmitCancels(h, p, cids, now).requests ==> r.CancelRequest?
  {
    if |cids| == 0 {
      assert Stands(h, h);
    } else {
      hide SubmitCancel, Stands;
      var n := |cids| - 1;
      var h1 := SubmitCancels(h, p, cids[..n], now).handler;
      CancelsStand(h, p, cids[..n], now);
      CancelStands(h1, p, cids[n], now);
      StandsThrough(h, h1, SubmitCancel(h1, p, cids[n], now).handler);
    }
  }

  lemma {:induction false} PlacesStand(h: Handler, p: Product, isBid: bool, quotes: seq<Quote>, now: int)
    requires p in h.states && now >= 0
    ensures var out := SubmitPlaces(h, p, isBid, quotes, now);
      && Stands(h, out.handler)
      && forall r :: r in out.requests ==>
           r.PlaceRequest? && r.position == h.states[p].position && r.isBid == isBid && exists q :: q in quotes && r.recorded == q.qty
  {
    if |quotes| == 0 {
      assert Stands(h, h);
    } else {
      hide SubmitPlace, Stands;
      var n := |quotes| - 1;
      var h1 := SubmitPlaces(h, p, isBid, quotes[..n], now).handler;
      PlacesStand(h, p, isBid, quotes[..n], now);
      PlaceStands(h1, p, isBid, quotes[n].price, quotes[n].qty, true, false, now);
      StandsThrough(h, h1, SubmitPlace(h1, p, isBid, quotes[n].price, quotes[n].qty, true, false, now).handler);
    }
  }

  lemma SendStands(h: Handler, p: Product, d: Pairing, now: int)
    requires p in h.states && now >= 0
    ensures var out := Send(h, p, d, now);
      && Stands(h, out.handler)
      && forall r :: r in out.requests && r.PlaceRequest? ==>
           r.position == h.states[p].position && exists q :: q in d.Wanted(r.isBid) && r.recorded == q.qty
  {
    hide SubmitCancels, SubmitPlaces, Stands;
    var s1 := SubmitCancels(h, p, d.bidCancels, now);
    var s2 := SubmitCancels(s1.handler, p, d.askCancels, now);
    var s3 := SubmitPlaces(s2.handler, p, true, d.bids, now);
    CancelsStand(h, p, d.bidCancels, now);
    CancelsStand(s1.handler, p, d.askCancels, now);
    PlacesStand(s2.handler, p, true, d.bids, now);
    PlacesStand(s3.handler, p, false, d.asks, now);
    StandsThrough(h, s1.handler, s2.handler);
    StandsThrough(h, s2.handler, s3.handler);
    StandsThrough(h, s3.handler, SubmitPlaces(s3.handler, p, false, d.asks, now).handler);
  }

  lemma ClearWaitsStands(h: Handler, p: Product)
    requires p in h.states
    ensures Stands(h, ClearWaits(h, p))
  {
  }

  /** A decision changes no position and no link. */
  lemma UpdateStands(h: Handler, cfg: Config, p: Product, liquidate: bool, now: int)
    requires now >= 0
    ensures Stands(h, UpdateOrders(h, cfg, p, liquidate, now).handler)
  {
    hide Send, DecideFor, ClearWaits, CidsRouted;
    assert Stands(h, h);
    hide Stands;
    if ReadyToDecide(h, p, liquidate) {
      var h1 := if h.states[p].NoWaiting() then h else ClearWaits(h, p);
      ClearWaitsStands(h, p);
      var d := DecideFor(h1.states[p], cfg, liquidate, now);
      if d.Some? {
        SendStands(h1, p, d.value, now);
        StandsThrough(h, h1, Send(h1, p, d.value, now).handler);
      }
    }
  }

  /** Every order a liquidation decision places reduces the position. */
  lemma LiquidationReduces(h: Handler, cfg: Config, p: Product, now: int)
    requires now >= 0
    ensures forall r :: r in UpdateOrders(h, cfg, p, true, now).requests ==> Reducing(r)
  {
    hide Send, BuildPriceInfo, Decide, RestingOrders;
    if ReadyToDecide(h, p, true) {
      var h1 := if h.states[p].NoWaiting() then h else ClearWaits(h, p);
      var st := h1.states[p];
      var info := BuildPriceInfo(st, cfg.fairPriceMaxAge, now);
      if info.Some? {
        var d := Decide(cfg.params, info.value, true, st.position, RestingOrders(st.outstanding));
        SendStands(h1, p, d, now);
        LiquidationOnlyReduces(cfg.params, info.value, st.position, RestingOrders(st.outstanding));
      }
    }
  }

  // ---- what handling a task can change while shutting down ----

  /** Only the orders in `about` can have stopped being awaited. */
  ghost predicate OthersAwaited(h: Handler, h': Handler, about: set<Cid>) {
    && h'.states.Keys == h.states.Keys && h'.shuttingDown == h.shuttingDown && (CidsRouted(h) ==> CidsRouted(h'))
    && forall p, c :: p in h.states && c in h.states[p].waitCancel && c !in about ==> c in h'.states[p].waitCancel
  }

  lemma OthersThrough(h: Handler, h1: Handler, h2: Handler, about: set<Cid>)
    requires OthersAwaited(h, h1, about) && OthersAwaited(h1, h2, about)
    ensures OthersAwaited(h, h2, about)
  {
  }

  lemma ForgetKeepsOthers(h: Handler, p: Product, c: Cid)
    requires p in h.states
    ensures OthersAwaited(h, ForgetOrder(h, p, c), {c})
  {
  }

  lemma StopKeepsOthers(h: Handler, p: Product, c: Cid, place: bool, cancel: bool)
    requires p in h.states
    ensures OthersAwaited(h, StopWaiting(h, p, c, place, cancel), {c})
  {
  }

  lemma BindKeepsOthers(h: Handler, p: Product, c: Cid, no: OrderNo, about: set<Cid>)
    requires p in h.states
    ensures OthersAwaited(h, Bind(h, p, c, no), about)
  {
  }

  lemma ForgetAndStopKeepOthers(h: Handler, p: Product, c: Cid, place: bool)
    requires p in h.states
    ensures OthersAwaited(h, StopWaiting(ForgetOrder(h, p, c), p, c, place, true), {c})
    ensures OthersAwaited(h, ForgetOrder(StopWaiting(h, p, c, true, true), p, c), {c})
  {
    hide OthersAwaited, ForgetOrder, StopWaiting;
    ForgetKeepsOthers(h, p, c);
    StopKeepsOthers(ForgetOrder(h, p, c), p, c, place, true);
    StopKeepsOthers(h, p, c, true, true);
    ForgetKeepsOthers(StopWaiting(h, p, c, true, true), p, c);
    OthersThrough(h, ForgetOrder(h, p, c), StopWaiting(ForgetOrder(h, p, c), p, c, place, true), {c});
    OthersThrough(h, StopWaiting(h, p, c, true, true), ForgetOrder(StopWaiting(h, p, c, true, true), p, c), {c});
  }

  lemma BindAndStopKeepOthers(h: Handler, p: Product, c: Cid, no: OrderNo)
    requires p in h.states
    ensures OthersAwaited(h, StopWaiting(Bind(h, p, c, no), p, c, true, false), {c})
    ensures OthersAwaited(h, Bind(StopWaiting(h, p, c, true, true), p, c, no), {c})
  {
    hide OthersAwaited, Bind, StopWaiting;
    BindKeepsOthers(h, p, c, no, {c});
    StopKeepsOthers(Bind(h, p, c, no), p, c, true, false);
    StopKeepsOthers(h, p, c, true, true);
    BindKeepsOthers(StopWaiting(h, p, c, true, true), p, c, no, {c});
    OthersThrough(h, Bind(h, p, c, no), StopWaiting(Bind(h, p, c, no), p, c, true, false), {c});
    OthersThrough(h, StopWaiting(h, p, c, true, true), Bind(StopWaiting(h, p, c, true, true), p, c, no), {c});
  }

  lemma PositionKeepsOthers(h: Handler, p: Product, position: int, about: set<Cid>)
    requires p in h.states
    ensures OthersAwaited(h, h.With(p, h.states[p].(position := position)), about)
  {
  }

  lemma AdoptKeepsOthers(h: Handler, p: Product, d: Execution, now: int)
    requires p in h.states && now >= 0
    ensures OthersAwaited(h, Adopt(h, p, d, now), {})
  {
    hide Bind;
    var (h1, cid) := ReserveCid(h, p, now);
    var h2 := Record(h1, p, cid, Order(d.orderPrice, d.orderLots, d.isBid));
    assert OthersAwaited(h, h2, {});
    BindKeepsOthers(h2, p, cid, d.orderNo, {});
    OthersThrough(h, h2, Bind(h2, p, cid, d.orderNo), {});
  }

  lemma FillKeepsOthers(h: Handler, p: Product, c: Cid, lots: int)
    requires p in h.states
    ensures OthersAwaited(h, Fill(h, p, c, lots), if RecordedQty(h.states[p], c) <= lots then {c} else {})
  {
    hide ForgetOrder, StopWaiting;
    ForgetAndStopKeepOthers(h, p, c, true);
  }

  lemma AcceptKeepsOthers(h: Handler, p: Product, c: Cid, no: OrderNo)
    requires p in h.states
    ensures OthersAwaited(h, StopWaiting(Bind(h, p, c, no), p, c, true, false), {})
  {
    hide OthersAwaited, Bind, StopWaiting;
    BindKeepsOthers(h, p, c, no, {});
    PlaceWaitKeepsOthers(Bind(h, p, c, no), p, c);
    OthersThrough(h, Bind(h, p, c, no), StopWaiting(Bind(h, p, c, no), p, c, true, false), {});
  }

  lemma PlaceWaitKeepsOthers(h: Handler, p: Product, c: Cid)
    requires p in h.states
    ensures OthersAwaited(h, StopWaiting(h, p, c, true, false), {})
  {
  }

  /** The part of an execution that concerns the order it is routed to. */
  lemma ExecutionKeepsOthers(h: Handler, product: Product, d: Execution, now: int)
    requires now >= 0
    ensures OthersAwaited(h, OnExecution(h, product, d, now), Answers(h, ExecutionTask(product, d)))
  {
    hide Route, ForgetOrder, StopWaiting, Bind, Adopt, Fill, OthersAwaited;
    var answered := Answers(h, ExecutionTask(product, d));
    NothingKeepsOthers(h, answered);
    match Route(h, product, d)
    case Ignored =>
    case Routed(p, cid) =>
      var h1 := h;
      if cid.Some? {
        ForgetAndStopKeepOthers(h, p, cid.value, true);
        ForgetAndStopKeepOthers(h, p, cid.value, false);
        AcceptKeepsOthers(h, p, cid.value, d.orderNo);
        if !d.isAcceptData && d.isExecuted && d.executeQtyPositive {
          FillKeepsOthers(h, p, cid.value, d.executeLots);
          h1 := Fill(h, p, cid.value, d.executeLots);
        }
      } else {
        AdoptKeepsOthers(h, p, d, now);
      }
      var moved := h1.states[p].position + if d.isBid then d.executeLots else -d.executeLots;
      PositionKeepsOthers(h1, p, moved, answered);
      OthersThrough(h, h1, h1.With(p, h1.states[p].(position := moved)), answered);
  }

  lemma NothingKeepsOthers(h: Handler, about: set<Cid>)
    ensures OthersAwaited(h, h, about)
  {
  }

  lemma ReplyKeepsOthers(h: Handler, r: Response)
    requires CidsRouted(h)
    ensures OthersAwaited(h, OnOrderResponse(h, r), {r.cid})
  {
    hide ForgetOrder, StopWaiting, Bind, OthersAwaited;
    NothingKeepsOthers(h, {r.cid});
    if r.cid in h.cidProduct {
      var p := h.cidProduct[r.cid];
      StopKeepsOthers(h, p, r.cid, true, true);
      ForgetAndStopKeepOthers(h, p, r.cid, true);
      BindAndStopKeepOthers(h, p, r.cid, r.orderNo);
    }
  }

  /** Once shutting down, handling a queue item sends nothing, and only the cancels it answers stop
      being awaited. */
  lemma HandledInShutdown(h: Handler, cfg: Config, task: Task, now: int)
    requires CidsRouted(h) && now >= 0 && h.shuttingDown
    ensures HandleTask(h, cfg, task, now).requests == []
    ensures OthersAwaited(h, HandleTask(h, cfg, task, now).handler, Answers(h, task))
  {
    NothingKeepsOthers(h, Answers(h, task));
    hide OnExecution, OnOrderResponse, Route;
    match task
    case ExecutionTask(p, d) => ExecutionKeepsOthers(h, p, d, now);
    case ReplyTask(r) => ReplyKeepsOthers(h, r);
    case _ =>
  }

  /** Handling any task leaves cids leading to known products. */
  lemma HandledKeepsRouted(h: Handler, cfg: Config, task: Task, now: int)
    requires CidsRouted(h) && now >= 0
    ensures CidsRouted(HandleTask(h, cfg, task, now).handler)
    ensures HandleTask(h, cfg, task, now).handler.shuttingDown == h.shuttingDown
  {
    hide OnExecution, OnOrderResponse, Route, UpdateOrders;
    match task
    case ExecutionTask(p, d) => ExecutionKeepsOthers(h, p, d, now);
    case ReplyTask(r) => ReplyKeepsOthers(h, r);
    case OrderUpdate(p) => UpdateStands(h, cfg, p, false, now);
    case _ =>
  }

  // ---- the log of a shutdown ----

  ghost predicate OnlyReducing(events: seq<Event>) {
    forall i :: 0 <= i < |events| && events[i].Sent? ==> Reducing(events[i].request)
  }

  lemma SentAppend(a: seq<Request>, b: seq<Request>, at: int)
    ensures SentEvents(a + b, at) == SentEvents(a, at) + SentEvents(b, at)
  {
  }

  lemma SentReducing(requests: seq<Request>, at: int)
    requires forall r :: r in requests ==> Reducing(r)
    ensures OnlyReducing(SentEvents(requests, at))
  {
    hide Reducing;
    forall i | 0 <= i < |SentEvents(requests, at)|
      ensures Reducing(SentEvents(requests, at)[i].request)
    {
      assert requests[i] in requests;
    }
  }

  /** A log of a cancel phase so far: one cancel at a time, and the unanswered ones awaited. */
  ghost predicate Orderly(h: Handler, log: seq<Event>) {
    OneCancelAtATime(log) && StillAwaited(h, log)
  }

  lemma HandledStaysOrderly(h: Handler, h': Handler, log: seq<Event>, e: Event)
    requires Orderly(h, log) && e.Handled? && OthersAwaited(h, h', e.answered)
    ensures Orderly(h', log + [e])
  {
    LogAppend(log, e);
    assert (log + [e])[..|log|] == log;
  }

  lemma MarkStaysOrderly(h: Handler, log: seq<Event>, m: Event)
    requires Orderly(h, log) && m.Seen?
    ensures Orderly(h, log + [m])
  {
    LogAppend(log, m);
    assert (log + [m])[..|log|] == log;
  }

  lemma CancelStaysOrderly(h: Handler, h': Handler, log: seq<Event>, r: Request, at: int)
    requires Orderly(h, log) && r.CancelRequest? && r.product in h.states && r.cid !in h.states[r.product].waitCancel
    requires h'.states.Keys == h.states.Keys
    requires forall p :: p in h.states ==> h.states[p].waitCancel <= h'.states[p].waitCancel
    requires r.cid in h'.states[r.product].waitCancel
    ensures Orderly(h', log + [Sent(r, at)])
  {
    LogAppend(log, Sent(r, at));
    assert (log + [Sent(r, at)])[..|log|] == log;
  }

  ghost predicate PhasesTimed(events: seq<Event>, timeout: int) {
    forall i :: 0 <= i < |events| && events[i].Phase? ==> events[i].deadline == events[i].start + timeout
  }

  /** The log grew by no order that does not reduce, and by no cancel phase that is given another
      time than `timeout`. */
  ghost predicate Grown(before: seq<Event>, after: seq<Event>, timeout: int) {
    before <= after && OnlyReducing(after[|before|..]) && PhasesTimed(after[|before|..], timeout)
  }

  lemma GrownThrough(a: seq<Event>, b: seq<Event>, c: seq<Event>, timeout: int)
    requires Grown(a, b, timeout) && Grown(b, c, timeout)
    ensures Grown(a, c, timeout)
  {
    hide Reducing;
    assert c[|a|..] == b[|a|..] + c[|b|..];
  }

  lemma GrownBy(log: seq<Event>, events: seq<Event>, timeout: int)
    requires OnlyReducing(events) && PhasesTimed(events, timeout)
    ensures Grown(log, log + events, timeout)
  {
    assert (log + events)[|log|..] == events;
  }

  lemma SentGrows(log: seq<Event>, requests: seq<Request>, at: int, timeout: int)
    requires forall r :: r in requests ==> Reducing(r)
    ensures Grown(log, log + SentEvents(requests, at), timeout)
  {
    SentReducing(requests, at);
    GrownBy(log, SentEvents(requests, at), timeout);
  }

  /** No order was placed. */
  ghost predicate NoPlaces(events: seq<Event>) {
    forall i :: 0 <= i < |events| && events[i].Sent? ==> events[i].request.CancelRequest?
  }

  /** Nothing but rounds of cancels and queue items. */
  ghost predicate OnlyCancelsAndItems(events: seq<Event>) {
    forall i :: 0 <= i < |events| ==>
      events[i].Handled? || (events[i].Sent? && events[i].request.CancelRequest?) || (events[i].Seen? && events[i].stage == Cancelling)
  }

  /** The log grew by cancels and queue items only. */
  ghost predicate Calm(before: seq<Event>, after: seq<Event>) {
    before <= after && OnlyCancelsAndItems(after[|before|..])
  }

  lemma CalmThrough(a: seq<Event>, b: seq<Event>, c: seq<Event>)
    requires Calm(a, b) && Calm(b, c)
    ensures Calm(a, c)
  {
    assert c[|a|..] == b[|a|..] + c[|b|..];
  }

  lemma CalmBy(log: seq<Event>, events: seq<Event>)
    requires OnlyCancelsAndItems(events)
    ensures Calm(log, log + events)
  {
    assert (log + events)[|log|..] == events;
  }

  lemma CalmNow(log: seq<Event>)
    ensures Calm(log, log)
  {
    assert log[|log|..] == [];
  }

  lemma CalmGrows(before: seq<Event>, after: seq<Event>, timeout: int)
    requires Calm(before, after)
    ensures Grown(before, after, timeout)
  {
  }

  lemma PhaseInLog(before: seq<Event>, after: seq<Event>, start: int, timeout: int)
    requires Calm(before + [Phase(start, start + timeout)], after)
    ensures Grown(before, after, timeout) && |before| < |after| && after[|before|] == Phase(start, start + timeout)
    ensures LastPhase(after, |before|, timeout) && NoPlaces(after[|before|..]) && OnlyCancelsAndItems(after[|before| + 1..])
  {
    var phase := Phase(start, start + timeout);
    assert after[|before|..] == [phase] + after[|before| + 1..];
    assert forall i :: |before| < i < |after| ==> after[i] == after[|before| + 1..][i - |before| - 1];
  }

  /** The last cancel phase of the log began at `i`, and was given `timeout`. */
  ghost predicate LastPhase(log: seq<Event>, i: nat, timeout: int) {
    && i < |log| && log[i].Phase? && log[i].deadline == log[i].start + timeout
    && forall j :: i < j < |log| ==> !log[j].Phase?
  }

  // ---- what the log accounts for ----

  /** The handler that `h` becomes by the cancels and queue items of a log, each at its time. */
  ghost function Replay(h: Handler, cfg: Config, events: seq<Event>): Handler {
    if |events| == 0 then h
    else
      var n := |events| - 1;
      var before := Replay(h, cfg, events[..n]);
      match events[n]
      case Sent(CancelRequest(p, c, _), at) => if p in before.states then SubmitCancel(before, p, c, at).handler else before
      case Handled(task, at, _) => if at >= 0 && CidsRouted(before) then HandleTask(before, cfg, task, at).handler else before
      case _ => before
  }

  lemma {:induction false} ReplayAppend(h: Handler, cfg: Config, a: seq<Event>, b: seq<Event>)
    ensures Replay(h, cfg, a + b) == Replay(Replay(h, cfg, a), cfg, b)
    decreases |b|
  {
    if |b| == 0 {
      assert a + b == a;
    } else {
      var n := |b| - 1;
      ReplayAppend(h, cfg, a, b[..n]);
      assert (a + b)[..|a + b| - 1] == a + b[..n];
    }
  }

  /** All that became of the handler is what the log says. */
  ghost predicate Replayed(cfg: Config, h: Handler, log: seq<Event>, h': Handler, log': seq<Event>) {
    log <= log' && h' == Replay(h, cfg, log'[|log|..])
  }

  lemma ReplayedThrough(cfg: Config, h: Handler, log: seq<Event>, h1: Handler, log1: seq<Event>, h2: Handler, log2: seq<Event>)
    requires Replayed(cfg, h, log, h1, log1) && Replayed(cfg, h1, log1, h2, log2)
    ensures Replayed(cfg, h, log, h2, log2)
  {
    ReplayAppend(h, cfg, log1[|log|..], log2[|log1|..]);
    assert log2[|log|..] == log1[|log|..] + log2[|log1|..];
  }

  lemma NothingReplayed(cfg: Config, h: Handler, log: seq<Event>)
    ensures Replayed(cfg, h, log, h, log)
  {
    assert log[|log|..] == [];
  }

  lemma ReplayedBy(cfg: Config, h: Handler, log: seq<Event>, e: Event)
    ensures Replayed(cfg, h, log, Replay(h, cfg, [e]), log + [e])
  {
    assert (log + [e])[|log|..] == [e];
  }

  /** The goal was not reached before the last of the events. */
  ghost predicate UntilReached(cfg: Config, h: Handler, events: seq<Event>, goal: Goal) {
    forall k :: 0 <= k < |events| ==> !ReachedAfter(cfg, h, events, k, goal)
  }

  ghost predicate ReachedAfter(cfg: Config, h: Handler, events: seq<Event>, k: nat, goal: Goal)
    requires k <= |events|
  {
    Reached(Replay(h, cfg, events[..k]), goal)
  }

  lemma UntilMore(cfg: Config, h: Handler, events: seq<Event>, more: seq<Event>, goal: Goal)
    requires UntilReached(cfg, h, events, goal) && |more| <= 1 && !Reached(Replay(h, cfg, events), goal)
    ensures UntilReached(cfg, h, events + more, goal)
  {
    hide Reached, Replay;
    forall k | 0 <= k < |events + more|
      ensures !ReachedAfter(cfg, h, events + more, k, goal)
    {
      if k < |events| {
        assert !ReachedAfter(cfg, h, events, k, goal);
        assert (events + more)[..k] == events[..k];
      } else {
        assert (events + more)[..k] == events;
      }
    }
  }

  function ItemsOf(wakes: seq<Wake>): seq<Task> {
    if |wakes| == 0 then []
    else ItemsOf(wakes[..|wakes| - 1]) + if wakes[|wakes| - 1].task.Some? then [wakes[|wakes| - 1].task.value] else []
  }

  function ItemsHandled(events: seq<Event>): seq<Task> {
    if |events| == 0 then []
    else ItemsHandled(events[..|events| - 1]) + if events[|events| - 1].Handled? then [events[|events| - 1].task] else []
  }

  lemma {:induction false} ItemsOfAppend(a: seq<Wake>, b: seq<Wake>)
    ensures ItemsOf(a + b) == ItemsOf(a) + ItemsOf(b)
    decreases |b|
  {
    if |b| == 0 {
      assert a + b == a;
    } else {
      ItemsOfAppend(a, b[..|b| - 1]);
      assert (a + b)[..|a + b| - 1] == a + b[..|b| - 1];
    }
  }

  lemma {:induction false} ItemsHandledAppend(a: seq<Event>, b: seq<Event>)
    ensures ItemsHandled(a + b) == ItemsHandled(a) + ItemsHandled(b)
    decreases |b|
  {
    if |b| == 0 {
      assert a + b == a;
    } else {
      ItemsHandledAppend(a, b[..|b| - 1]);
      assert (a + b)[..|a + b| - 1] == a + b[..|b| - 1];
    }
  }

  /** Every item taken off the queue was handled, once and in order. */
  ghost predicate Drained(script: seq<Wake>, log: seq<Event>, script': seq<Wake>, log': seq<Event>) {
    && |script'| <= |script| && script' == script[|script| - |script'|..] && log <= log'
    && ItemsHandled(log'[|log|..]) == ItemsOf(script[..|script| - |script'|])
  }

  lemma DrainedThrough(s: seq<Wake>, log: seq<Event>, s1: seq<Wake>, log1: seq<Event>, s2: seq<Wake>, log2: seq<Event>)
    requires Drained(s, log, s1, log1) && Drained(s1, log1, s2, log2)
    ensures Drained(s, log, s2, log2)
  {
    var a, b := s[..|s| - |s1|], s1[..|s1| - |s2|];
    ItemsOfAppend(a, b);
    ItemsHandledAppend(log1[|log|..], log2[|log1|..]);
    assert s[..|s| - |s2|] == a + b;
    assert log2[|log|..] == log1[|log|..] + log2[|log1|..];
  }

  /** The log grew, but by no queue item, and nothing was taken off the queue. */
  lemma NothingDrained(s: seq<Wake>, log: seq<Event>, events: seq<Event>)
    requires forall i :: 0 <= i < |events| ==> !events[i].Handled?
    ensures Drained(s, log, s, log + events)
  {
    assert (log + events)[|log|..] == events;
    NoItems(events);
  }

  lemma {:induction false} NoItems(events: seq<Event>)
    requires forall i :: 0 <= i < |events| ==> !events[i].Handled?
    ensures ItemsHandled(events) == []
  {
    if |events| > 0 {
      NoItems(events[..|events| - 1]);
    }
  }

  // ---- one round of cancels ----

  function CancellableCids(h: Handler, p: Product): set<Cid>
    requires p in h.states
  {
    set c | c in h.states[p].outstanding && Cancellable(h, p, c)
  }

  /** For `p`, the cancels of `cids` were sent and nothing else happened. */
  ghost predicate OnlyCancels(h: Handler, h': Handler, p: Product, cids: set<Cid>) {
    p in h.states && p in h'.states
    && h' == h.With(p, h.states[p].(waitCancel := h.states[p].waitCancel + cids, waitingSince := h'.states[p].waitingSince))
  }

  lemma NoCancels(h: Handler, p: Product)
    requires p in h.states
    ensures OnlyCancels(h, h, p, {})
  {
    assert h.states[p].waitCancel + {} == h.states[p].waitCancel;
  }

  lemma CancelOne(h: Handler, p: Product, c: Cid, now: int)
    requires p in h.states && c in h.states[p].cidToNo
    ensures SubmitCancel(h, p, c, now).requests == [CancelRequest(p, c, h.states[p].cidToNo[c])]
    ensures OnlyCancels(h, SubmitCancel(h, p, c, now).handler, p, {c})
  {
  }

  lemma CancelsAdd(h: Handler, h1: Handler, h2: Handler, p: Product, a: set<Cid>, b: set<Cid>)
    requires OnlyCancels(h, h1, p, a) && OnlyCancels(h1, h2, p, b)
    ensures OnlyCancels(h, h2, p, a + b)
  {
    assert h.states[p].waitCancel + a + b == h.states[p].waitCancel + (a + b);
  }

  function CidsOf(orders: seq<Resting>): set<Cid> {
    set o | o in orders :: o.cid
  }

  /** The cancels a round sent are those of the orders that were cancellable. */
  ghost predicate CancelsOf(h: Handler, ps: set<Product>, events: seq<Event>, at: int) {
    && (forall e :: e in events ==>
          && e.Sent? && e.at == at && e.request.CancelRequest? && e.request.product in ps && Cancellable(h, e.request.product, e.request.cid)
          && e.request.orderNo == h.states[e.request.product].cidToNo[e.request.cid])
    && (forall p, c :: p in ps && Cancellable(h, p, c) ==> Sent(CancelRequest(p, c, h.states[p].cidToNo[c]), at) in events)
  }

  /** After a round: every cancellable order of the products in `ps` is being cancelled, and
      nothing else changed. */
  ghost predicate RoundDone(h: Handler, h': Handler, ps: set<Product>) {
    && h' == h.(states := h'.states) && h'.states.Keys == h.states.Keys && ps <= h.states.Keys
    && forall p :: p in h.states ==>
         h'.states[p] ==
           if p in ps then
             h.states[p].(waitCancel := h.states[p].waitCancel + CancellableCids(h, p), waitingSince := h'.states[p].waitingSince)
           else h.states[p]
  }

  lemma RoundMakesProgress(h: Handler, h': Handler)
    requires RoundDone(h, h', h.states.Keys)
    ensures !AnyCancellable(h') && (NothingOutstanding(h') <==> NothingOutstanding(h)) && (Flat(h') <==> Flat(h))
    ensures KeepsOrders(h, h')
  {
    forall p, c | p in h'.states && c in h'.states[p].outstanding
      ensures !Cancellable(h', p, c)
    {
      assert Cancellable(h, p, c) ==> c in CancellableCids(h, p);
    }
  }

  lemma RoundNext(h: Handler, h1: Handler, h2: Handler, ps: set<Product>, p: Product)
    requires RoundDone(h, h1, ps) && p in h.states && p !in ps && OnlyCancels(h1, h2, p, CancellableCids(h1, p))
    ensures CancellableCids(h1, p) == CancellableCids(h, p)
    ensures RoundDone(h, h2, ps + {p})
  {
    SameCancellable(h, h1, p);
    hide CancellableCids, Cancellable;
  }

  lemma SameCancellable(h: Handler, h1: Handler, p: Product)
    requires p in h.states && p in h1.states && h1.states[p] == h.states[p]
    ensures CancellableCids(h1, p) == CancellableCids(h, p)
  {
    assert forall c :: c in h.states[p].outstanding ==> (Cancellable(h1, p, c) <==> Cancellable(h, p, c));
  }

  lemma CancelsOfNext(h: Handler, h1: Handler, ps: set<Product>, p: Product, events: seq<Event>, more: seq<Event>, at: int)
    requires RoundDone(h, h1, ps) && p in h.states && p !in ps
    requires CancelsOf(h, ps, events, at) && CancelsOf(h1, {p}, more, at)
    ensures CancelsOf(h, ps + {p}, events + more, at)
  {
    assert h1.states[p] == h.states[p];
    assert forall c :: Cancellable(h1, p, c) <==> Cancellable(h, p, c);
  }

  lemma {:induction false} RestingCovers(m: map<Cid, Order>)
    ensures CidsOf(RestingOrders(m)) == m.Keys
    decreases |m|
  {
    if |m| > 0 {
      var last := Greatest(m.Keys);
      var rest := m - {last};
      assert m.Keys == rest.Keys + {last};
      RestingCovers(rest);
      CoversOneMore(RestingOrders(rest), Resting(last, m[last].price, m[last].qty, m[last].isBid));
    }
  }

  lemma CoversOneMore(orders: seq<Resting>, o: Resting)
    ensures CidsOf(orders + [o]) == CidsOf(orders) + {o.cid}
  {
    assert forall x :: x in orders + [o] <==> x in orders || x == o;
    forall c | c in CidsOf(orders) + {o.cid}
      ensures c in CidsOf(orders + [o])
    {
      if c == o.cid {
        assert o in orders + [o];
      } else {
        var x :| x in orders && x.cid == c;
        assert x in orders + [o];
      }
    }
  }
}
