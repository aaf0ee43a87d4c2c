/** OrderHandler: the object whose methods update the order state in place. Each method is proved
    to do to that state what its function in HandlerModel says. */
module TraderOrderHandler {
  import opened Optional
  import opened Ladders
  import opened Strategy
  import opened HandlerModel
  import opened DecisionProofs
  import opened ShutdownModel
  import opened ShutdownLog
  import Model = HandlerModel

  class OrderHandler {
    const cfg: Config
    var states: map<Product, ProductState>
    var cidProduct: map<Cid, Product>
    var noProduct: map<OrderNo, Product>
    var lastCid: Cid
    var listenerConnected: bool
    var shuttingDown: bool
    var shutdownDone: bool
    // the clock, the time spent handling tasks, what the queue will deliver, and what was done
    var now: int
    var busy: int
    var script: seq<Wake>
    var log: seq<Event>

    function View(): Handler
      reads this
    {
      Handler(states, cidProduct, noProduct, lastCid, listenerConnected, shuttingDown)
    }

    ghost predicate Valid()
      reads this
    {
      now >= 0 && CidsRouted(View())
    }

    constructor (cfg: Config, now: nat, script: seq<Wake>)
      ensures Valid() && View() == FreshHandler(cfg.tradeProducts) && !shutdownDone
      ensures this.cfg == cfg && this.now == now && this.script == script && log == [] && busy == 0
    {
      this.cfg, this.now, this.script := cfg, now, script;
      states := map p | p in cfg.tradeProducts :: FreshState();
      cidProduct, noProduct, lastCid := map[], map[], 0;
      listenerConnected, shuttingDown, shutdownDone := false, false, false;
      busy, log := 0, [];
    }

    method ReserveCid(p: Product) returns (cid: Cid)
      requires now >= 0
      modifies this`lastCid, this`cidProduct
      ensures View() == Model.ReserveCid(old(View()), p, now).0
      ensures cid == Model.ReserveCid(old(View()), p, now).1
    {
      cid := now;
      if cid <= lastCid { cid := lastCid + 1; }
      lastCid := cid;
      cidProduct := cidProduct[cid := p];
    }

    method BindOrderNo(p: Product, cid: Cid, no: OrderNo)
      requires p in states
      modifies this`states, this`noProduct
      ensures View() == Model.Bind(old(View()), p, cid, no)
    {
      if no == "" { return; }
      states := states[p := states[p].(cidToNo := states[p].cidToNo[cid := no])];
      states := states[p := states[p].(noToCid := states[p].noToCid[no := cid])];
      noProduct := noProduct[no := p];
    }

    method ForgetOrder(p: Product, cid: Cid)
      requires p in states
      modifies this`states, this`noProduct, this`cidProduct
      ensures View() == Model.ForgetOrder(old(View()), p, cid)
    {
      var st := states[p];
      if cid in st.cidToNo {
        var no := st.cidToNo[cid];
        noProduct := noProduct - {no};
        st := st.(noToCid := st.noToCid - {no});
        st := st.(cidToNo := st.cidToNo - {cid});
      } else {
        assert st.cidToNo - {cid} == st.cidToNo && st.noToCid - {} == st.noToCid && noProduct - {} == noProduct;
      }
      st := st.(outstanding := st.outstanding - {cid});
      states := states[p := st];
      cidProduct := cidProduct - {cid};
    }

    method EraseWaits(p: Product, cid: Cid, place: bool, cancel: bool)
      requires p in states
      modifies this`states
      ensures View() == Erased(old(View()), p, cid, place, cancel)
    {
      if place { states := states[p := states[p].(waitPlace := states[p].waitPlace - {cid})]; }
      if cancel { states := states[p := states[p].(waitCancel := states[p].waitCancel - {cid})]; }
    }

    method ClearWaitingIfIdle(p: Product)
      requires p in states
      modifies this`states
      ensures View() == old(View()).With(p, old(View()).states[p].ClearIfIdle())
    {
      if states[p].NoWaiting() { states := states[p := states[p].(waitingSince := 0)]; }
    }

    method ForgetEntirely(p: Product, cid: Cid, place: bool)
      requires p in states
      modifies this`states, this`noProduct, this`cidProduct
      ensures View() == StopWaiting(Model.ForgetOrder(old(View()), p, cid), p, cid, place, true)
    {
      EraseWaits(p, cid, place, true);
      ForgetOrder(p, cid);
      ForgetErased(old(View()), p, cid, place);
      ClearWaitingIfIdle(p);
    }

    /** Binds the number and ends the wait for the place reply. */
    method BindAccepted(p: Product, cid: Cid, no: OrderNo)
      requires p in states
      modifies this`states, this`noProduct
      ensures View() == StopWaiting(Bind(old(View()), p, cid, no), p, cid, true, false)
    {
      BindOrderNo(p, cid, no);
      EraseWaits(p, cid, true, false);
      ClearWaitingIfIdle(p);
    }

    method AdoptOrder(p: Product, d: Execution)
      requires p in states && now >= 0
      modifies this`states, this`noProduct, this`cidProduct, this`lastCid
      ensures View() == Adopt(old(View()), p, d, now)
    {
      var cid := ReserveCid(p);
      states := states[p := states[p].(outstanding := states[p].outstanding[cid := Order(d.orderPrice, d.orderLots, d.isBid)])];
      BindOrderNo(p, cid, d.orderNo);
    }

    method FillOrder(p: Product, cid: Cid, lots: int)
      requires p in states
      modifies this`states, this`noProduct, this`cidProduct
      ensures View() == Fill(old(View()), p, cid, lots)
    {
      var order := if cid in states[p].outstanding then states[p].outstanding[cid] else Order(0, 0, false);
      order := order.(qty := order.qty - lots);
      if order.qty <= 0 {
        ForgetEntirely(p, cid, true);
      } else {
        states := states[p := states[p].(outstanding := states[p].outstanding[cid := order])];
      }
    }

    method OnExecution(product: Product, d: Execution)
      requires Valid()
      modifies this`states, this`noProduct, this`cidProduct, this`lastCid
      ensures View() == Model.OnExecution(old(View()), product, d, now)
    {
      hide StopWaiting, Bind, HandlerModel.ForgetOrder, Route, Adopt, Fill;
      var routing := Route(View(), product, d);
      if routing.Ignored? { return; }
      var p, cid := routing.product, routing.cid;
      if d.isAcceptData {
        if d.isRejected {
          if cid.Some? { ForgetEntirely(p, cid.value, true); }
        } else if d.isCancel {
          if cid.Some? { ForgetEntirely(p, cid.value, false); }
        } else if d.isPlace && d.isAccepted {
          if cid.Some? {
            BindAccepted(p, cid.value, d.orderNo);
          } else if d.orderQtyPositive {
            AdoptOrder(p, d);
          }
        }
      } else if d.isExecuted && d.executeQtyPositive {
        if cid.Some? { FillOrder(p, cid.value, d.executeLots); }
        if d.updatePositionOnFill {
          states := states[p := states[p].(position := states[p].position + if d.isBid then d.executeLots else -d.executeLots)];
        }
      }
    }

    method StopWaitingFor(p: Product, cid: Cid)
      requires p in states
      modifies this`states
      ensures View() == StopWaiting(old(View()), p, cid, true, true)
    {
      EraseWaits(p, cid, true, true);
      ClearWaitingIfIdle(p);
    }

    method OnOrderResponse(r: Response)
      requires Valid()
      modifies this`states, this`noProduct, this`cidProduct
      ensures View() == Model.OnOrderResponse(old(View()), r)
    {
      hide StopWaiting, Bind, HandlerModel.ForgetOrder;
      if r.cid !in cidProduct { return; }
      var p := cidProduct[r.cid];
      var wasPlace, wasCancel := r.cid in states[p].waitPlace, r.cid in states[p].waitCancel;
      StopWaitingFor(p, r.cid);
      if wasCancel {
        if r.success || r.orderGone { ForgetOrder(p, r.cid); }
      } else if r.success {
        BindOrderNo(p, r.cid, r.orderNo);
      } else if wasPlace {
        ForgetOrder(p, r.cid);
      }
    }

    method MarkWaiting(p: Product, cid: Cid, place: bool)
      requires p in states
      modifies this`states
      ensures View() == old(View()).With(p, if place then old(states)[p].MarkPlace(cid, now) else old(states)[p].MarkCancel(cid, now))
    {
      if states[p].NoWaiting() { states := states[p := states[p].(waitingSince := now)]; }
      if place {
        states := states[p := states[p].(waitPlace := states[p].waitPlace + {cid})];
      } else {
        states := states[p := states[p].(waitCancel := states[p].waitCancel + {cid})];
      }
    }

    method SubmitCancel(p: Product, cid: Cid)
      requires p in states
      modifies this`states, this`log
      ensures View() == Model.SubmitCancel(old(View()), p, cid, now).handler
      ensures log == old(log) + SentEvents(Model.SubmitCancel(old(View()), p, cid, now).requests, now)
    {
      if cid !in states[p].cidToNo {
        assert log == old(log) + [];
        return;
      }
      MarkWaiting(p, cid, false);
      log := log + [Sent(CancelRequest(p, cid, states[p].cidToNo[cid]), now)];
      assert SentEvents([CancelRequest(p, cid, states[p].cidToNo[cid])], now) == [Sent(CancelRequest(p, cid, states[p].cidToNo[cid]), now)];
    }

    method SubmitPlace(p: Product, isBid: bool, price: int, qty: int, isLimit: bool, reduceOnly: bool)
      requires p in states && now >= 0
      modifies this`states, this`log, this`cidProduct, this`lastCid
      ensures View() == Model.SubmitPlace(old(View()), p, isBid, price, qty, isLimit, reduceOnly, now).handler
      ensures log == old(log) + SentEvents(Model.SubmitPlace(old(View()), p, isBid, price, qty, isLimit, reduceOnly, now).requests, now)
    {
      hide SnapTo;
      assert log == old(log) + SentEvents([], now);
      if qty <= 0 { return; }
      var sentPrice := if isLimit then SnapTo(states[p].tick, price) else 0;
      var sentQty := SnapTo(states[p].lot, qty);
      if sentQty <= 0 || (isLimit && sentPrice <= 0) { return; }
      var cid := ReserveCid(p);
      if isLimit {
        states := states[p := states[p].(outstanding := states[p].outstanding[cid := Order(price, qty, isBid)])];
      }
      MarkWaiting(p, cid, true);
      var request := PlaceRequest(p, cid, isBid, isLimit, sentPrice, sentQty, qty, reduceOnly, states[p].position);
      log := log + [Sent(request, now)];
      assert SentEvents([request], now) == [Sent(request, now)];
    }

    method CancelEach(p: Product, cids: seq<Cid>)
      requires p in states
      modifies this`states, this`log
      ensures View() == Model.SubmitCancels(old(View()), p, cids, now).handler
      ensures log == old(log) + SentEvents(Model.SubmitCancels(old(View()), p, cids, now).requests, now)
    {
      hide HandlerModel.SubmitCancel;
      for i := 0 to |cids|
        invariant p in states
        invariant View() == Model.SubmitCancels(old(View()), p, cids[..i], now).handler
        invariant log == old(log) + SentEvents(Model.SubmitCancels(old(View()), p, cids[..i], now).requests, now)
      {
        assert cids[..i + 1][..i] == cids[..i];
        var before := Model.SubmitCancels(old(View()), p, cids[..i], now);
        SentAppend(before.requests, Model.SubmitCancel(before.handler, p, cids[i], now).requests, now);
        SubmitCancel(p, cids[i]);
      }
      assert cids[..|cids|] == cids;
    }

    method PlaceEach(p: Product, isBid: bool, quotes: seq<Quote>)
      requires p in states && now >= 0
      modifies this`states, this`log, this`cidProduct, this`lastCid
      ensures View() == Model.SubmitPlaces(old(View()), p, isBid, quotes, now).handler
      ensures log == old(log) + SentEvents(Model.SubmitPlaces(old(View()), p, isBid, quotes, now).requests, now)
    {
      hide HandlerModel.SubmitPlace;
      for i := 0 to |quotes|
        invariant p in states
        invariant View() == Model.SubmitPlaces(old(View()), p, isBid, quotes[..i], now).handler
        invariant log == old(log) + SentEvents(Model.SubmitPlaces(old(View()), p, isBid, quotes[..i], now).requests, now)
      {
        assert quotes[..i + 1][..i] == quotes[..i];
        var before := Model.SubmitPlaces(old(View()), p, isBid, quotes[..i], now);
        SentAppend(before.requests, Model.SubmitPlace(before.handler, p, isBid, quotes[i].price, quotes[i].qty, true, false, now).requests, now);
        SubmitPlace(p, isBid, quotes[i].price, quotes[i].qty, true, false);
      }
      assert quotes[..|quotes|] == quotes;
    }

    /** Cancels first, so that a replace frees its level before the new order is sent. */
    method SendDecision(p: Product, d: Pairing)
      requires p in states && now >= 0
      modifies this`states, this`log, this`cidProduct, this`lastCid
      ensures View() == Send(old(View()), p, d, now).handler
      ensures log == old(log) + SentEvents(Send(old(View()), p, d, now).requests, now)
    {
      hide SubmitCancels, SubmitPlaces, SentEvents;
      ghost var s1 := Model.SubmitCancels(View(), p, d.bidCancels, now);
      ghost var s2 := Model.SubmitCancels(s1.handler, p, d.askCancels, now);
      ghost var s3 := Model.SubmitPlaces(s2.handler, p, true, d.bids, now);
      ghost var s4 := Model.SubmitPlaces(s3.handler, p, false, d.asks, now);
      SentAppend(s1.requests, s2.requests, now);
      SentAppend(s1.requests + s2.requests, s3.requests, now);
      SentAppend(s1.requests + s2.requests + s3.requests, s4.requests, now);
      CancelEach(p, d.bidCancels);
      CancelEach(p, d.askCancels);
      PlaceEach(p, true, d.bids);
      PlaceEach(p, false, d.asks);
    }

    method DecideAndSend(p: Product, liquidate: bool)
      requires p in states && now >= 0
      modifies this`states, this`log, this`cidProduct, this`lastCid
      ensures var d := DecideFor(old(states)[p], cfg, liquidate, now);
        var out := if d.Some? then Send(old(View()), p, d.value, now) else Outcome(old(View()), []);
        View() == out.handler && log == old(log) + SentEvents(out.requests, now)
    {
      hide Send, BuildPriceInfo, Decide, RestingOrders;
      assert log == old(log) + SentEvents([], now);
      var info := BuildPriceInfo(states[p], cfg.fairPriceMaxAge, now);
      if info.None? { return; }
      var orders := RestingOrders(states[p].outstanding);
      var bids, asks, bidCancels, askCancels := MakeDecision(cfg.params, info.value, liquidate, states[p].position, orders);
      ghost var d := Decide(cfg.params, info.value, liquidate, states[p].position, orders);
      SendSame(View(), p, Pairing(bids, asks, bidCancels, askCancels, []), d, now);
      SendDecision(p, Pairing(bids, asks, bidCancels, askCancels, []));
    }

    method UpdateOrders(p: Product, liquidate: bool)
      requires Valid()
      modifies this`states, this`log, this`cidProduct, this`lastCid
      ensures Valid()
      ensures View() == Model.UpdateOrders(old(View()), cfg, p, liquidate, now).handler
      ensures log == old(log) + SentEvents(Model.UpdateOrders(old(View()), cfg, p, liquidate, now).requests, now)
    {
      hide Send, DecideFor, CidsRouted, SentEvents;
      NothingSent(now);
      UpdateStands(View(), cfg, p, liquidate, now);
      StandsRouted(View(), Model.UpdateOrders(View(), cfg, p, liquidate, now).handler);
      if shuttingDown && !liquidate { return; }
      if p !in states { return; }
      if !listenerConnected { return; }
      if states[p].tick.None? { return; }
      if !states[p].NoWaiting() {
        if states[p].waitingSince > 0 && now - states[p].waitingSince > ORDER_RESPONSE_TIMEOUT_NS {
          states := states[p := states[p].(waitPlace := {}, waitCancel := {}, waitingSince := 0)];
        } else {
          return;
        }
      }
      DecideAndSend(p, liquidate);
    }

    method OnBook(p: Product, bbid: int, bask: int)
      modifies this`states
      ensures View() == Model.OnBook(old(View()), p, bbid, bask)
    {
      if p !in states { return; }
      states := states[p := states[p].(bbid := bbid)];
      states := states[p := states[p].(bask := bask)];
    }

    method OnPosition(p: Product, lots: Option<int>)
      modifies this`states
      ensures View() == Model.OnPosition(old(View()), p, lots)
    {
      if lots.None? { return; }
      if p in states { states := states[p := states[p].(position := lots.value)]; }
    }

    method OnProductInfo(p: Product, tick: Option<int>, lot: Option<int>)
      modifies this`states
      ensures View() == Model.OnProductInfo(old(View()), p, tick, lot)
    {
      if tick.None? || lot.None? { return; }
      if tick.value <= 0 || lot.value <= 0 { return; }
      if p !in states { return; }
      states := states[p := states[p].(tick := tick)];
      states := states[p := states[p].(lot := lot)];
    }

    method OnFairPrice(p: Product, fair: FairPrice)
      modifies this`states
      ensures View() == Model.OnFairPrice(old(View()), p, fair)
    {
      if p !in states { return; }
      var volUsable := fair.forwardVol > 0.0;
      states := states[p := states[p].(fair := fair.(forwardVol := if volUsable then fair.forwardVol else 1.0))];
    }

    method HandleTask(task: Task)
      requires Valid()
      modifies this`states, this`noProduct, this`cidProduct, this`lastCid, this`listenerConnected, this`log
      ensures Valid()
      ensures View() == Model.HandleTask(old(View()), cfg, task, now).handler
      ensures log == old(log) + SentEvents(Model.HandleTask(old(View()), cfg, task, now).requests, now) + [Handled(task, now, Answers(old(View()), task))]
    {
      hide HandlerModel.OnExecution, HandlerModel.OnOrderResponse, HandlerModel.UpdateOrders, Answers, CidsRouted;
      hide HandlerModel.OnBook, HandlerModel.OnPosition, HandlerModel.OnProductInfo, HandlerModel.OnFairPrice;
      var answered := Answers(View(), task);
      HandledKeepsRouted(View(), cfg, task, now);
      assert log == old(log) + SentEvents([], now);
      match task {
        case ListenerStatus(connected) => listenerConnected := connected;
        case Book(p, bbid, bask) => OnBook(p, bbid, bask);
        case ExecutionTask(p, d) => OnExecution(p, d);
        case PositionTask(p, lots) => OnPosition(p, lots);
        case ProductInfo(p, tick, lot) => OnProductInfo(p, tick, lot);
        case FairPriceTask(p, fair) => OnFairPrice(p, fair);
        case OrderUpdate(p) => UpdateOrders(p, false);
        case ReplyTask(r) => OnOrderResponse(r);
        case NoAction =>
      }
      log := log + [Handled(task, now, answered)];
    }

    // ---- shutdown ----

    /** A timed wait on the queue: it ends with the next item, or when its time is up. */
    method Wait(us: nat) returns (wake: Wake)
      modifies this`now, this`script
      ensures old(now) < now <= old(now) + Max(1, us * 1000)
      ensures if old(script) == [] then script == [] && wake.task.None? else wake == old(script)[0] && script == old(script)[1..]
    {
      if |script| == 0 {
        wake := Wake(0, None, 0);
        now := now + Max(1, us * 1000);
      } else {
        wake := script[0];
        script := script[1..];
        now := now + Max(1, Min(wake.elapsed, us * 1000));
      }
    }

    /** Handles what a wait delivered, if anything. */
    method React(wake: Wake, ghost start: nat)
      requires Valid() && shuttingDown && start <= |log|
      modifies this`states, this`noProduct, this`cidProduct, this`lastCid, this`listenerConnected, this`log, this`now, this`busy
      ensures Valid() && shuttingDown
      ensures now >= old(now) && busy - old(busy) == now - old(now)
      ensures wake.task.None? ==> View() == old(View()) && log == old(log)
      ensures wake.task.Some? ==>
        && View() == Model.HandleTask(old(View()), cfg, wake.task.value, old(now)).handler
        && log == old(log) + [Handled(wake.task.value, old(now), Answers(old(View()), wake.task.value))]
      ensures Orderly(old(View()), old(log)[start..]) ==> Orderly(View(), log[start..])
    {
      hide HandlerModel.HandleTask, Answers, OthersAwaited, CidsRouted, OneCancelAtATime, ShutdownModel.StillAwaited;
      if wake.task.None? { return; }
      ghost var h, log0 := View(), log;
      ghost var e := Handled(wake.task.value, now, Answers(h, wake.task.value));
      HandledInShutdown(h, cfg, wake.task.value, now);
      HandledKeepsRouted(h, cfg, wake.task.value, now);
      HandleTask(wake.task.value);
      assert log == log0 + [e];
      assert log[start..] == log0[start..] + [e];
      if Orderly(h, log0[start..]) {
        HandledStaysOrderly(h, View(), log0[start..], e);
      }
      now := now + wake.handling;
      busy := busy + wake.handling;
    }

    /** Handles queue items until the goal is reached or the deadline passes. */
    method PumpUntil(goal: Goal, deadline: int, ghost start: nat)
      requires Valid() && shuttingDown && start <= |log|
      modifies this`states, this`noProduct, this`cidProduct, this`lastCid, this`listenerConnected, this`log, this`now, this`busy, this`script
      ensures Valid() && shuttingDown
      ensures Reached(View(), goal) || now >= deadline
      ensures now >= old(now) && busy >= old(busy) && now - Max(old(now), deadline) <= busy - old(busy)
      ensures !Reached(old(View()), goal) && old(now) < deadline ==> now > old(now)
      ensures Pumped(cfg, old(View()), old(script), old(log), View(), script, log)
      ensures old(log) <= log && UntilReached(cfg, old(View()), log[|old(log)|..], goal)
      ensures old(script) == [] ==> script == [] && View() == old(View())
      ensures Orderly(old(View()), old(log)[start..]) ==> Orderly(View(), log[start..])
    {
      hide Orderly, Reached, CidsRouted, Pumped, UntilReached;
      NothingPumped(cfg, View(), script, log);
      NeverReachedYet(cfg, View(), log, goal);
      while !Reached(View(), goal)
        invariant Valid() && shuttingDown
        invariant now >= old(now) && busy >= old(busy) && now - Max(old(now), deadline) <= busy - old(busy)
        invariant now == old(now) ==> View() == old(View())
        invariant Pumped(cfg, old(View()), old(script), old(log), View(), script, log) && start <= |log|
        invariant old(log) <= log && UntilReached(cfg, old(View()), log[|old(log)|..], goal)
        invariant old(script) == [] ==> script == [] && View() == old(View())
        invariant Orderly(old(View()), old(log)[start..]) ==> Orderly(View(), log[start..])
        decreases deadline - now
      {
        var remaining := deadline - now;
        if remaining <= 0 { return; }
        var waitUs := Min(remaining / 1000, 20000);
        ghost var h, script0, log0 := View(), script, log;
        var wake := Wait(waitUs);
        assert View() == h;
        ghost var at := now;
        React(wake, start);
        OneMoreWake(cfg, old(View()), old(script), old(log), h, script0, log0, wake, at, View(), script, log);
        NotReachedBefore(cfg, old(View()), old(script), old(log), h, script0, log0, log, goal);
      }
    }

    /** Cancels one order, unless its cancel is awaited or its number is not known yet. */
    method TryCancel(p: Product, cid: Cid, ghost start: nat) returns (sent: bool)
      requires p in states && start <= |log| && Orderly(View(), log[start..])
      modifies this`states, this`log
      ensures sent <==> cid !in old(states)[p].waitCancel && cid in old(states)[p].cidToNo
      ensures OnlyCancels(old(View()), View(), p, if sent then {cid} else {})
      ensures log == old(log) + if sent then [Sent(CancelRequest(p, cid, old(states)[p].cidToNo[cid]), now)] else []
      ensures Replayed(cfg, old(View()), old(log), View(), log)
      ensures Orderly(View(), log[start..])
    {
      hide HandlerModel.SubmitCancel, Orderly, Replayed;
      ghost var h, log0 := View(), log;
      NoCancels(h, p);
      NothingReplayed(cfg, h, log0);
      sent := false;
      if cid in states[p].waitCancel { return; }
      if cid !in states[p].cidToNo { return; }
      CancelOne(h, p, cid, now);
      SubmitCancel(p, cid);
      sent := true;
      ghost var request := CancelRequest(p, cid, h.states[p].cidToNo[cid]);
      assert SentEvents([request], now) == [Sent(request, now)];
      assert log[start..] == log0[start..] + [Sent(request, now)];
      CancelStaysOrderly(h, View(), log0[start..], request, now);
      CancelReplayed(cfg, h, log0, request, now);
    }

    /** Sends a cancel for every cancellable order of one product. */
    method CancelProduct(p: Product, ghost start: nat)
      requires Valid() && p in states && start <= |log| && Orderly(View(), log[start..])
      modifies this`states, this`log
      ensures Valid() && OnlyCancels(old(View()), View(), p, CancellableCids(old(View()), p))
      ensures old(log) <= log && CancelsOf(old(View()), {p}, log[|old(log)|..], now)
      ensures Replayed(cfg, old(View()), old(log), View(), log)
      ensures Orderly(View(), log[start..])
    {
      hide RestingOrders, CidsRouted, Orderly, OnlyCancels, SentFor, CidsOf, Replayed;
      ghost var h := View();
      var orders := RestingOrders(states[p].outstanding);
      OrdersOfProduct(states[p].outstanding);
      ghost var cancelled: set<Cid> := {};
      NoCancels(h, p);
      NothingSentFor(h, p, orders, now);
      NothingReplayed(cfg, h, log);
      assert log[|log|..] == [];
      for i := 0 to |orders|
        invariant p in states
        invariant OnlyCancels(h, View(), p, cancelled)
        invariant forall c :: c in cancelled <==> Cancellable(h, p, c) && c in CidsOf(orders[..i])
        invariant old(log) <= log
        invariant SentFor(h, p, cancelled, log[|old(log)|..], now)
        invariant Replayed(cfg, h, old(log), View(), log)
        invariant Orderly(View(), log[start..])
      {
        OneMoreOrder(orders, i);
        var cid := orders[i].cid;
        ghost var before, log0 := View(), log;
        CancelsOnly(h, before, p, cancelled);
        var sent := TryCancel(p, cid, start);
        ghost var extra := if sent then {cid} else {};
        CancelsAdd(h, before, View(), p, cancelled, extra);
        SentForMore(h, p, cancelled, log0[|old(log)|..], cid, sent, now);
        assert log[|old(log)|..] == log0[|old(log)|..] + if sent then [Sent(CancelRequest(p, cid, h.states[p].cidToNo[cid]), now)] else [];
        ReplayedThrough(cfg, h, old(log), before, log0, View(), log);
        cancelled := cancelled + extra;
      }
      assert orders[..|orders|] == orders;
      assert cancelled == CancellableCids(h, p);
      CancelsKeepRouted(h, View(), p, cancelled);
      SentForAll(h, p, cancelled, log[|old(log)|..], now);
    }

    /** Cancels whatever has become cancellable since the last round. */
    method CancelRound(ghost start: nat)
      requires Valid() && start <= |log| && Orderly(View(), log[start..])
      modifies this`states, this`log
      ensures Valid() && RoundDone(old(View()), View(), old(View()).states.Keys)
      ensures !AnyCancellable(View()) && (NothingOutstanding(View()) <==> NothingOutstanding(old(View())))
      ensures old(log) <= log && CancelsOf(old(View()), old(View()).states.Keys, log[|old(log)|..], now)
      ensures Replayed(cfg, old(View()), old(log), View(), log)
      ensures Orderly(View(), log[start..])
    {
      hide Orderly, OnlyCancels, RoundDone, CidsRouted, CancellableCids, CancelsOf, Cancellable, AnyCancellable, NothingOutstanding, Replayed;
      ghost var h := View();
      ghost var sent: seq<Event> := [];
      var todo := states.Keys;
      NothingDone(h, now);
      NothingReplayed(cfg, h, log);
      assert log + sent == log;
      while todo != {}
        invariant Valid() && todo <= h.states.Keys && View().states.Keys == h.states.Keys
        invariant RoundDone(h, View(), h.states.Keys - todo)
        invariant log == old(log) + sent && CancelsOf(h, h.states.Keys - todo, sent, now)
        invariant Replayed(cfg, h, old(log), View(), log)
        invariant Orderly(View(), log[start..])
        decreases |todo|
      {
        var p :| p in todo;
        ghost var before, log0 := View(), log;
        CancelProduct(p, start);
        ghost var more := log[|log0|..];
        RoundNext(h, before, View(), h.states.Keys - todo, p);
        CancelsOfNext(h, before, h.states.Keys - todo, p, sent, more, now);
        assert h.states.Keys - (todo - {p}) == h.states.Keys - todo + {p};
        ReplayedThrough(cfg, h, old(log), before, log0, View(), log);
        sent := sent + more;
        todo := todo - {p};
        SameProducts(before, View(), p);
      }
      assert h.states.Keys - todo == h.states.Keys;
      assert log[|old(log)|..] == sent;
      RoundMakesProgress(h, View());
    }

    /** Cancels everything outstanding: rounds of cancels, each followed by handling what arrives
        until there is something more to cancel, up to the deadline. */
    method CancelAllOrders(deadline: int)
      requires Valid() && shuttingDown
      modifies this`states, this`noProduct, this`cidProduct, this`lastCid, this`listenerConnected, this`log, this`now, this`busy, this`script
      ensures Valid() && shuttingDown
      ensures NothingOutstanding(View()) || now >= deadline
      ensures now >= old(now) && busy >= old(busy) && now - Max(old(now), deadline) <= busy - old(busy)
      ensures Worked(cfg, old(View()), old(script), old(log) + [Phase(old(now), deadline)], View(), script, log)
      ensures |old(log)| < |log| && CancelPhase(cfg, deadline, old(View()), old(now), old(busy), log[|old(log)| + 1..], View(), now, busy)
      ensures old(log) <= log && OneCancelAtATime(log[|old(log)|..])
      ensures old(script) == [] ==> script == [] && KeepsOrders(old(View()), View())
    {
      hide Orderly, OneCancelAtATime, CidsRouted, NothingOutstanding, Worked, KeepsOrders, CancelRounds, IsCancelRound;
      ghost var start := |log|;
      log := log + [Phase(now, deadline)];
      ghost var begun := log;
      assert log[start..] == [Phase(now, deadline)] && log[start + 1..] == [];
      PhaseOrderly(View(), now, deadline);
      NothingWorked(cfg, View(), script, log);
      NothingMovedStands(View());
      StandingOrders(View(), View());
      NoCancelRounds(cfg, deadline, View(), now, busy);
      while !NothingOutstanding(View()) && now < deadline
        invariant Valid() && shuttingDown && start < |log| && old(log) <= log
        invariant now >= old(now) && busy >= old(busy) && now - Max(old(now), deadline) <= busy - old(busy)
        invariant Worked(cfg, old(View()), old(script), begun, View(), script, log) && Orderly(View(), log[start..])
        invariant CancelRounds(cfg, deadline, old(View()), old(now), old(busy), log[start + 1..], View(), now, busy)
        invariant old(script) == [] ==> script == [] && KeepsOrders(old(View()), View())
        decreases deadline - now
      {
        ghost var h, at, busy0, script0, log0 := View(), now, busy, script, log;
        CancelAndWait(deadline, start);
        WorkedThrough(cfg, old(View()), old(script), begun, h, script0, log0, View(), script, log);
        WorkedGrows(cfg, old(View()), old(script), begun, View(), script, log);
        ghost var m, tail := Seen(Cancelling, h, at, busy0), log[|log0| + 1..];
        OneMoreCancelRound(cfg, deadline, old(View()), old(now), old(busy), log0[start + 1..], m, tail, View(), now, busy);
        assert log[start + 1..] == log0[start + 1..] + [m] + tail;
        if old(script) == [] {
          KeepsThrough(old(View()), h, View());
        }
      }
      OrderlyCancels(View(), log[start..]);
    }

    /** One round: a cancel for everything that can be cancelled, and what arrives until there is more
        to cancel. */
    method CancelAndWait(deadline: int, ghost start: nat)
      requires Valid() && shuttingDown && start <= |log| && Orderly(View(), log[start..]) && !NothingOutstanding(View()) && now < deadline
      modifies this`states, this`noProduct, this`cidProduct, this`lastCid, this`listenerConnected, this`log, this`now, this`busy, this`script
      ensures Valid() && shuttingDown
      ensures now > old(now) && busy >= old(busy) && now - deadline <= busy - old(busy)
      ensures Worked(cfg, old(View()), old(script), old(log), View(), script, log) && start <= |log| && Orderly(View(), log[start..])
      ensures var m := Seen(Cancelling, old(View()), old(now), old(busy));
        && old(log) + [m] <= log && NoMarks(log[|old(log)| + 1..])
        && IsCancelRound(cfg, deadline, m, log[|old(log)| + 1..], View(), now, busy)
      ensures old(script) == [] ==> script == [] && KeepsOrders(old(View()), View())
    {
      hide Orderly, CidsRouted, AnyCancellable, NothingOutstanding, RoundDone, CancelsOf, Worked, Pumped, KeepsOrders, Replayed, Replay, UntilReached;
      ghost var h, log0 := View(), log;
      Mark(Cancelling);
      ghost var m, log1 := Seen(Cancelling, h, now, busy), log;
      assert log[start..] == log0[start..] + [m];
      MarkStaysOrderly(h, log0[start..], m);
      MarkWorks(cfg, h, script, log0, m);
      CancelRound(start);
      CancelsWork(cfg, h, h.states.Keys, script, log1, View(), log, now);
      RoundMakesProgress(h, View());
      WorkedThrough(cfg, h, script, log0, h, script, log1, View(), script, log);
      ghost var h2, script2, log2 := View(), script, log;
      PumpUntil(GoneOrCancellable, Min(now + 200_000_000, deadline), start);
      PumpedWorks(cfg, h2, script2, log2, View(), script, log);
      PumpedGrows(cfg, h2, script2, log2, View(), script, log);
      WorkedThrough(cfg, h, script2, log0, h2, script2, log2, View(), script, log);
      ghost var cancels, rest := log2[|log1|..], log[|log2|..];
      assert log[|log1|..] == cancels + rest;
      RoundReplayed(cfg, h, log1, h2, cancels, rest, log2);
      CancelRoundIsDone(cfg, deadline, m, cancels, rest, View(), now, busy);
    }

    /** A market order against the whole position, if there is one. */
    method SubmitMarketFlatten(p: Product)
      requires Valid() && p in states
      modifies this`states, this`log, this`cidProduct, this`lastCid
      ensures Valid() && Stands(old(View()), View()) && Grown(old(log), log, cfg.cancelTimeout)
      ensures View() == MarketOrder(old(View()), cfg, p, now).handler
      ensures log == old(log) + SentEvents(MarketOrder(old(View()), cfg, p, now).requests, now)
    {
      hide HandlerModel.SubmitPlace, CidsRouted, Grown, Reducing;
      SentGrows(log, [], now, cfg.cancelTimeout);
      assert log + SentEvents([], now) == log;
      NothingMovedStands(View());
      var position := states[p].position;
      if position == 0 { return; }
      var qty := if position > 0 then position else -position;
      ghost var h := View();
      ghost var out := Model.SubmitPlace(h, p, position < 0, 0, qty, false, cfg.reduceOnly, now);
      PlaceStands(h, p, position < 0, 0, qty, false, cfg.reduceOnly, now);
      MarketOrderReduces(out.requests, position);
      SentGrows(log, out.requests, now, cfg.cancelTimeout);
      StandsRouted(h, out.handler);
      SubmitPlace(p, position < 0, 0, qty, false, cfg.reduceOnly);
    }

    /** One liquidation decision for each traded product. */
    method LiquidateAll()
      requires Valid() && shuttingDown
      modifies this`states, this`log, this`cidProduct, this`lastCid
      ensures Valid() && shuttingDown && Stands(old(View()), View()) && Grown(old(log), log, cfg.cancelTimeout)
      ensures View() == LiquidationRound(old(View()), cfg, |cfg.tradeProducts|, now).handler
      ensures log == old(log) + SentEvents(LiquidationRound(old(View()), cfg, |cfg.tradeProducts|, now).requests, now)
    {
      hide HandlerModel.UpdateOrders, CidsRouted, Grown, Stands;
      SentGrows(log, [], now, cfg.cancelTimeout);
      assert log + SentEvents([], now) == log;
      NothingMovedStands(View());
      for i := 0 to |cfg.tradeProducts|
        invariant Valid() && shuttingDown && Stands(old(View()), View()) && Grown(old(log), log, cfg.cancelTimeout)
        invariant View() == LiquidationRound(old(View()), cfg, i, now).handler
        invariant log == old(log) + SentEvents(LiquidationRound(old(View()), cfg, i, now).requests, now)
      {
        var p := cfg.tradeProducts[i];
        ghost var h, log0 := View(), log;
        ghost var requests := Model.UpdateOrders(h, cfg, p, true, now).requests;
        UpdateStands(h, cfg, p, true, now);
        LiquidationReduces(h, cfg, p, now);
        SentGrows(log0, requests, now, cfg.cancelTimeout);
        SentAppend(LiquidationRound(old(View()), cfg, i, now).requests, requests, now);
        UpdateOrders(p, true);
        GrownThrough(old(log), log0, log, cfg.cancelTimeout);
        StandsThrough(old(View()), h, View());
      }
    }

    /** One market order for each position. */
    method MarketFlattenAll()
      requires Valid() && shuttingDown
      modifies this`states, this`log, this`cidProduct, this`lastCid
      ensures Valid() && shuttingDown && Stands(old(View()), View()) && Grown(old(log), log, cfg.cancelTimeout)
      ensures old(log) <= log && ClosesAll(old(View()), cfg, log[|old(log)|..]) && OnlyPlaces(log[|old(log)|..], now)
    {
      hide CidsRouted, Grown, Stands, Closing, MarketOrder, SentEvents, ClosesAll, OnlyPlaces;
      ghost var h0, log0 := View(), log;
      NothingClosed(cfg, h0, log0, now);
      var todo := states.Keys;
      while todo != {}
        invariant Valid() && shuttingDown && todo <= states.Keys && states.Keys == h0.states.Keys
        invariant Closing(cfg, h0, log0, View(), log, todo, now)
        decreases |todo|
      {
        var p :| p in todo;
        ghost var h, log1 := View(), log;
        SubmitMarketFlatten(p);
        OneMoreClosed(cfg, h0, log0, h, log1, View(), log, todo, p, now);
        todo := todo - {p};
      }
      AllClosed(cfg, h0, log0, View(), log, now);
    }

    method Mark(stage: Stage)
      modifies this`log
      ensures log == old(log) + [Seen(stage, View(), now, busy)]
    {
      log := log + [Seen(stage, View(), now, busy)];
    }

    /** Liquidation quotes until flat or the deadline; then, if allowed, a cancel phase and one
        market order for what is left of each position. */
    method FlattenPositions(deadline: int) returns (ghost stopped: nat)
      requires Valid() && shuttingDown && cfg.orderUpdateInterval > 0
      modifies this`states, this`noProduct, this`cidProduct, this`lastCid, this`listenerConnected, this`log, this`now, this`busy, this`script
      ensures Valid() && shuttingDown
      ensures now >= old(now) && busy >= old(busy)
      ensures now - Max(old(now), deadline) <= Max(0, cfg.cancelTimeout) + Max(0, cfg.flattenTimeout) + (busy - old(busy))
      ensures Grown(old(log), log, cfg.cancelTimeout)
      ensures old(log) <= log && Flattens(cfg, deadline, old(View()), old(now), old(busy), log[|old(log)|..], stopped, View(), now)
      ensures Drained(old(script), old(log), script, log)
      ensures old(script) == [] ==> script == [] && KeepsOrders(old(View()), View())
    {
      hide CidsRouted, Grown, Flat, NothingOutstanding, KeepsOrders, Stands, Rounds, Crosses, Drained, Flattens;
      stopped := 0;
      GrownNow(log, cfg.cancelTimeout);
      NothingMovedStands(View());
      StandingOrders(View(), View());
      NothingTaken(script, log);
      FlattensNothing(cfg, deadline, View(), now, busy, stopped);
      assert log[|log|..] == [];
      if Flat(View()) { return; }
      LiquidationRounds(deadline);
      GrownPrefix(old(log), log, cfg.cancelTimeout);
      ghost var rounds := log[|old(log)|..];
      stopped := |rounds|;
      label Quoted:
      Mark(Stopped);
      ghost var m := Seen(Stopped, View(), now, busy);
      MarkGrows(old@Quoted(log), m, script, cfg.cancelTimeout);
      GrownThrough(old(log), old@Quoted(log), log, cfg.cancelTimeout);
      DrainedThrough(old(script), old(log), script, old@Quoted(log), script, log);
      assert log[|old(log)|..] == rounds + [m];
      if Flat(View()) || !cfg.marketFlatten {
        FlattensByRounds(cfg, deadline, old(View()), old(now), old(busy), rounds, m);
        return;
      }
      label Market:
      MarketFlatten();
      GrownThrough(old(log), old@Market(log), log, cfg.cancelTimeout);
      GrownPrefix(old@Market(log), log, cfg.cancelTimeout);
      DrainedThrough(old(script), old(log), old@Market(script), old@Market(log), script, log);
      ghost var crossing := log[|old@Market(log)|..];
      assert log[|old(log)|..] == rounds + [m] + crossing;
      FlattensByCrossing(cfg, deadline, old(View()), old(now), old(busy), rounds, m, crossing, View(), now);
      if old(script) == [] {
        KeepsThrough(old(View()), old@Market(View()), View());
      }
    }

    /** Passive first: rounds of liquidation quotes, an update interval apart, until the positions
        are flat or the deadline passes. */
    method LiquidationRounds(deadline: int)
      requires Valid() && shuttingDown && cfg.orderUpdateInterval > 0
      modifies this`states, this`noProduct, this`cidProduct, this`lastCid, this`listenerConnected, this`log, this`now, this`busy, this`script
      ensures Valid() && shuttingDown
      ensures Flat(View()) || now >= deadline
      ensures now >= old(now) && busy >= old(busy) && now - Max(old(now), deadline) <= busy - old(busy)
      ensures Grown(old(log), log, cfg.cancelTimeout)
      ensures old(log) <= log && Rounds(cfg, deadline, old(View()), old(now), old(busy), log[|old(log)|..], View(), now, busy)
      ensures Drained(old(script), old(log), script, log)
      ensures old(script) == [] ==> script == [] && KeepsOrders(old(View()), View())
    {
      hide CidsRouted, Grown, Flat, KeepsOrders, Stands, Rounds, Drained, IsRound, NoMarks;
      GrownNow(log, cfg.cancelTimeout);
      NothingMovedStands(View());
      StandingOrders(View(), View());
      NothingTaken(script, log);
      NoRounds(cfg, deadline, View(), now, busy);
      assert log[|log|..] == [];
      while !Flat(View()) && now < deadline
        invariant Valid() && shuttingDown
        invariant now >= old(now) && busy >= old(busy) && now - Max(old(now), deadline) <= busy - old(busy)
        invariant Grown(old(log), log, cfg.cancelTimeout) && Drained(old(script), old(log), script, log)
        invariant old(log) <= log && Rounds(cfg, deadline, old(View()), old(now), old(busy), log[|old(log)|..], View(), now, busy)
        invariant old(script) == [] ==> script == [] && KeepsOrders(old(View()), View())
        decreases deadline - now
      {
        ghost var h, at, busy0, script0, log0 := View(), now, busy, script, log;
        QuoteAndWait(deadline);
        GrownThrough(old(log), log0, log, cfg.cancelTimeout);
        DrainedThrough(old(script), old(log), script0, log0, script, log);
        ghost var m, tail := Seen(Quoting, h, at, busy0), log[|log0| + 1..];
        OneMoreRound(cfg, deadline, old(View()), old(now), old(busy), log0[|old(log)|..], m, tail, View(), now, busy);
        assert log[|old(log)|..] == log0[|old(log)|..] + [m] + tail;
        if old(script) == [] {
          KeepsThrough(old(View()), h, View());
        }
      }
    }

    /** One round: every liquidation quote, and what arrives until the next one is due. */
    method QuoteAndWait(deadline: int)
      requires Valid() && shuttingDown && cfg.orderUpdateInterval > 0 && !Flat(View()) && now < deadline
      modifies this`states, this`noProduct, this`cidProduct, this`lastCid, this`listenerConnected, this`log, this`now, this`busy, this`script
      ensures Valid() && shuttingDown
      ensures now > old(now) && busy >= old(busy) && now - deadline <= busy - old(busy)
      ensures Grown(old(log), log, cfg.cancelTimeout) && Drained(old(script), old(log), script, log)
      ensures var m := Seen(Quoting, old(View()), old(now), old(busy));
        && old(log) + [m] <= log && NoMarks(log[|old(log)| + 1..])
        && IsRound(cfg, deadline, m, log[|old(log)| + 1..], View(), now, busy)
      ensures old(script) == [] ==> script == [] && KeepsOrders(old(View()), View())
    {
      hide CidsRouted, Grown, Flat, KeepsOrders, Stands, Drained, LiquidationRound, Pumped, UntilReached;
      ghost var h, log0 := View(), log;
      Mark(Quoting);
      ghost var m, log1 := Seen(Quoting, h, now, busy), log;
      MarkGrows(log0, m, script, cfg.cancelTimeout);
      LiquidateAll();
      ghost var out := LiquidationRound(h, cfg, |cfg.tradeProducts|, now);
      GrownThrough(log0, log1, log, cfg.cancelTimeout);
      SentDrains(script, log1, out.requests, now);
      StandingFlat(h, View());
      StandingOrders(h, View());
      ghost var h2, script2, log2 := View(), script, log;
      DrainedThrough(old(script), log0, script2, log1, script2, log2);
      PumpUntil(AllFlat, Min(now + cfg.orderUpdateInterval, deadline), |log|);
      PumpedGrows(cfg, h2, script2, log2, View(), script, log);
      GrownThrough(log0, log2, log, cfg.cancelTimeout);
      DrainedThrough(old(script), log0, script2, log2, script, log);
      assert log[|log0| + 1..] == SentEvents(out.requests, old(now)) + log[|log2|..];
      RoundIsDone(cfg, deadline, m, out, log[|log2|..], View(), now, busy);
    }

    /** The resting quotes are pulled before the market orders cross, so that the two cannot both
        fill. */
    method MarketFlatten()
      requires Valid() && shuttingDown
      modifies this`states, this`noProduct, this`cidProduct, this`lastCid, this`listenerConnected, this`log, this`now, this`busy, this`script
      ensures Valid() && shuttingDown
      ensures now >= old(now) && busy >= old(busy)
      ensures now - old(now) <= Max(0, cfg.cancelTimeout) + Max(0, cfg.flattenTimeout) + (busy - old(busy))
      ensures Grown(old(log), log, cfg.cancelTimeout)
      ensures old(log) <= log && Crosses(cfg, old(View()), old(now), old(busy), log[|old(log)|..], View(), now)
      ensures Drained(old(script), old(log), script, log)
      ensures old(script) == [] ==> script == [] && KeepsOrders(old(View()), View())
    {
      hide CidsRouted, Grown, Flat, NothingOutstanding, OneCancelAtATime, KeepsOrders, Drained, Worked, ClosesAll, OnlyPlaces, OnlyItems, CancelPhase;
      ghost var h0, log0, at, busy0, script0 := View(), log, now, busy, script;
      CancelAllOrders(now + cfg.cancelTimeout);
      PhaseGrows(cfg, h0, script0, log0, at, View(), script, log);
      ghost var h1, log1, script1, m := View(), log, script, Seen(Crossing, View(), now, busy);
      ghost var orders, items := CrossAndWait();
      GrownThrough(log0, log1, log, cfg.cancelTimeout);
      DrainedThrough(script0, log0, script1, log1, script, log);
      CrossingDone(cfg, h0, at, busy0, log0, log1, m, orders, items, log, View(), now);
      if old(script) == [] {
        KeepsThrough(h0, h1, View());
      }
    }

    /** The market orders, and what arrives until the positions are flat or the flatten timeout has
        passed. */
    method CrossAndWait() returns (ghost orders: seq<Event>, ghost items: seq<Event>)
      requires Valid() && shuttingDown
      modifies this`states, this`noProduct, this`cidProduct, this`lastCid, this`listenerConnected, this`log, this`now, this`busy, this`script
      ensures Valid() && shuttingDown
      ensures now >= old(now) && busy >= old(busy) && now - old(now) <= Max(0, cfg.flattenTimeout) + (busy - old(busy))
      ensures Flat(View()) || now >= old(now) + cfg.flattenTimeout
      ensures Grown(old(log), log, cfg.cancelTimeout) && Drained(old(script), old(log), script, log)
      ensures log == old(log) + [Seen(Crossing, old(View()), old(now), old(busy))] + orders + items
      ensures ClosesAll(old(View()), cfg, orders) && OnlyPlaces(orders, old(now)) && OnlyItems(items)
      ensures old(script) == [] ==> script == [] && KeepsOrders(old(View()), View())
    {
      hide CidsRouted, Grown, Flat, KeepsOrders, Stands, Drained, Pumped, ClosesAll, OnlyPlaces, OnlyItems, UntilReached;
      ghost var h1, log1, m := View(), log, Seen(Crossing, View(), now, busy);
      Mark(Crossing);
      ghost var log2 := log;
      MarkGrows(log1, m, script, cfg.cancelTimeout);
      MarketFlattenAll();
      StandingOrders(h1, View());
      orders := log[|log2|..];
      ghost var h3, script3, log3 := View(), script, log;
      GrownThrough(log1, log2, log3, cfg.cancelTimeout);
      PlacesDrain(script, log2, log3, now);
      DrainedThrough(script, log1, script, log2, script, log3);
      PumpUntil(AllFlat, now + cfg.flattenTimeout, |log|);
      PumpedGrows(cfg, h3, script3, log3, View(), script, log);
      items := log[|log3|..];
      GrownThrough(log1, log3, log, cfg.cancelTimeout);
      DrainedThrough(script3, log1, script3, log3, script, log);
    }

    /** Nothing this process placed may outlive it: a last cancel phase, exactly when something is
        still outstanding. */
    method PullRemaining()
      requires Valid() && shuttingDown
      modifies this`states, this`noProduct, this`cidProduct, this`lastCid, this`listenerConnected, this`log, this`now, this`busy, this`script
      ensures Valid() && shuttingDown
      ensures NothingOutstanding(old(View())) ==>
        View() == old(View()) && log == old(log) && now == old(now) && busy == old(busy) && script == old(script)
      ensures !NothingOutstanding(old(View())) ==>
        && Worked(cfg, old(View()), old(script), old(log) + [Phase(old(now), old(now) + cfg.cancelTimeout)], View(), script, log)
        && |old(log)| < |log|
        && CancelPhase(cfg, old(now) + cfg.cancelTimeout, old(View()), old(now), old(busy), log[|old(log)| + 1..], View(), now, busy)
        && (NothingOutstanding(View()) || now >= old(now) + cfg.cancelTimeout)
      ensures now >= old(now) && busy >= old(busy) && now - old(now) <= Max(0, cfg.cancelTimeout) + (busy - old(busy))
      ensures old(script) == [] ==> script == [] && KeepsOrders(old(View()), View())
    {
      hide CidsRouted, Worked, NothingOutstanding, OneCancelAtATime, KeepsOrders, CancelPhase;
      NothingMovedStands(View());
      StandingOrders(View(), View());
      if !NothingOutstanding(View()) {
        CancelAllOrders(now + cfg.cancelTimeout);
      }
    }

    /** The flattening, and the last cancel phase exactly when something is outstanding after it. */
    method FlattenAndPull() returns (ghost last: nat, ghost stopped: nat, ghost flattened: nat)
      requires Valid() && shuttingDown && cfg.orderUpdateInterval > 0
      modifies this`states, this`noProduct, this`cidProduct, this`lastCid, this`listenerConnected, this`log, this`now, this`busy, this`script
      ensures Valid() && shuttingDown
      ensures now >= old(now) && busy >= old(busy)
      ensures now - old(now) <= 2 * Max(0, cfg.cancelTimeout) + 2 * Max(0, cfg.flattenTimeout) + (busy - old(busy))
      ensures Grown(old(log), log, cfg.cancelTimeout) && Drained(old(script), old(log), script, log)
      ensures old(log) + [Seen(Begun, old(View()), old(now), old(busy))] <= log && |old(log)| < flattened < |log|
      ensures log[flattened].Seen?
        && Flattens(cfg, old(now) + cfg.flattenTimeout, old(View()), old(now), old(busy), log[|old(log)| + 1..flattened], stopped,
                    log[flattened].h, log[flattened].at)
      ensures Pulled(cfg, log, flattened, last, View(), now, busy)
      ensures !NothingOutstanding(View()) ==>
        last == flattened + 1 && LastPhase(log, last, cfg.cancelTimeout) && NoPlaces(log[last..]) && now >= log[last].deadline
      ensures old(script) == [] ==> script == [] && KeepsOrders(old(View()), View())
    {
      hide CidsRouted, Grown, NothingOutstanding, OneCancelAtATime, KeepsOrders, Stands, LastPhase, NoPlaces;
      hide Worked, Drained, Flattens, CancelPhase, Pulled;
      last := 0;
      ghost var h1, script1, log1 := View(), script, log;
      Mark(Begun);
      ghost var m, log2 := Seen(Begun, h1, now, busy), log;
      MarkGrows(log1, m, script, cfg.cancelTimeout);
      stopped := FlattenPositions(now + cfg.flattenTimeout);
      GrownPrefix(log2, log, cfg.cancelTimeout);
      GrownThrough(log1, log2, log, cfg.cancelTimeout);
      DrainedThrough(script1, log1, script1, log2, script, log);
      ghost var h3, script3, log3 := View(), script, log;
      flattened := |log|;
      Mark(Flattened);
      ghost var log4, busy4 := log, busy;
      MarkGrows(log3, Seen(Flattened, h3, now, busy), script, cfg.cancelTimeout);
      GrownThrough(log1, log3, log4, cfg.cancelTimeout);
      DrainedThrough(script1, log1, script3, log3, script3, log4);
      ghost var start := now;
      PullRemaining();
      if !NothingOutstanding(h3) {
        last := |log4|;
        PhaseGrows(cfg, h3, script3, log4, start, View(), script, log);
        GrownThrough(log1, log4, log, cfg.cancelTimeout);
        DrainedThrough(script1, log1, script3, log4, script, log);
      }
      PulledHere(cfg, h3, log3, start, busy4, log, View(), now, busy);
      assert log[|log1| + 1..flattened] == log3[|log2|..];
      if old(script) == [] {
        KeepsThrough(h1, h3, View());
      }
    }

    /** Cancels everything, flattens if configured to, and cancels what the flattening left. Ends
        within three cancel timeouts and two flatten timeouts, not counting the time spent handling
        queue items; handles every item it takes off the queue; sends no order that does not reduce
        the position held; and returns with nothing outstanding, or after a last cancel phase
        (`last`) that had its whole time, ran out of it, and was followed by no further order. With
        flattening, the log between `begun` and `flattened` is a whole flattening of the positions
        left by the first cancel phase, and the last phase comes right after it exactly when
        something is outstanding then. Each phase cancels whatever can be cancelled. */
    method Shutdown() returns (ghost last: nat, ghost begun: nat, ghost stopped: nat, ghost flattened: nat)
      requires Valid() && cfg.orderUpdateInterval > 0
      modifies this
      ensures Valid() && shutdownDone
      ensures now - old(now) <= 3 * Max(0, cfg.cancelTimeout) + 2 * Max(0, cfg.flattenTimeout) + (busy - old(busy))
      ensures Grown(old(log), log, cfg.cancelTimeout) && Drained(old(script), old(log), script, log)
      ensures old(shutdownDone) ==> View() == old(View()) && log == old(log)
      ensures !old(shutdownDone) ==> |old(log)| < |log| && log[|old(log)|] == Phase(old(now), old(now) + cfg.cancelTimeout)
      ensures !old(shutdownDone) && !NothingOutstanding(View()) ==>
        |old(log)| <= last && LastPhase(log, last, cfg.cancelTimeout) && NoPlaces(log[last..]) && now >= log[last].deadline
      ensures !old(shutdownDone) && !cfg.flattenOnShutdown ==>
        |old(log)| < |log| && PhaseOf(cfg, old(View()).(shuttingDown := true), log[|old(log)|], old(busy), log[|old(log)| + 1..], View(), now, busy)
      ensures !old(shutdownDone) && cfg.flattenOnShutdown ==>
        && |old(log)| < begun < flattened < |log|
        && FlattenedBetween(cfg, old(View()).(shuttingDown := true), old(busy), log, |old(log)|, begun, stopped, flattened)
        && Pulled(cfg, log, flattened, last, View(), now, busy)
      ensures old(script) == [] ==> KeepsOrders(old(View()), View())
    {
      hide CidsRouted, Grown, NothingOutstanding, OneCancelAtATime, KeepsOrders, Stands, LastPhase, NoPlaces;
      hide Worked, Drained, Flattens, CancelPhase, Pulled;
      last, begun, stopped, flattened := |log|, 0, 0, 0;
      GrownNow(log, cfg.cancelTimeout);
      NothingTaken(script, log);
      NothingMovedStands(View());
      StandingOrders(View(), View());
      if shutdownDone { return; }
      shutdownDone := true;
      ghost var h := View();
      shuttingDown := true;
      SwitchKeepsRouted(h);
      ghost var h0, script0, log0, at0, busy0 := View(), script, log, now, busy;
      CancelAllOrders(now + cfg.cancelTimeout);
      PhaseGrows(cfg, h0, script0, log0, at0, View(), script, log);
      SwitchKeepsOrders(h, View());
      if !cfg.flattenOnShutdown { return; }
      begun := |log|;
      ghost var h1, script1, log1, at1, busy1 := View(), script, log, now, busy;
      last, stopped, flattened := FlattenAndPull();
      GrownPrefix(log1, log, cfg.cancelTimeout);
      GrownThrough(log0, log1, log, cfg.cancelTimeout);
      DrainedThrough(script0, log0, script1, log1, script, log);
      FlattenedHere(cfg, h0, busy0, log0, log1, at1, busy1, h1, log, stopped, flattened);
      if old(script) == [] {
        KeepsThrough(h, h1, View());
      }
    }
  }

  /** `phase` begins a cancel phase of a whole cancel timeout that `events` carry out. */
  ghost predicate PhaseOf(cfg: Config, h: Handler, phase: Event, busy0: int, events: seq<Event>, h': Handler, at: int, busy: int) {
    && phase.Phase? && phase.deadline == phase.start + cfg.cancelTimeout
    && CancelPhase(cfg, phase.deadline, h, phase.start, busy0, events, h', at, busy)
  }

  /** The log from `from` on: a cancel phase, a look at the handler it left, and, up to `flattened`, a
      flattening of that handler's positions with the whole flatten timeout. */
  ghost predicate FlattenedBetween(cfg: Config, h: Handler, busy: int, log: seq<Event>, from: nat, begun: nat, stopped: nat, flattened: nat)
    requires from < begun < flattened < |log|
  {
    && log[begun].Seen? && log[begun].stage == Begun && log[flattened].Seen?
    && var m := log[begun];
       && PhaseOf(cfg, h, log[from], busy, log[from + 1..begun], m.h, m.at, m.busy)
       && Flattens(cfg, m.at + cfg.flattenTimeout, m.h, m.at, m.busy, log[begun + 1..flattened], stopped, log[flattened].h, log[flattened].at)
  }

  /** After the flattening: nothing more if nothing is outstanding, and otherwise a cancel phase. */
  ghost predicate Pulled(cfg: Config, log: seq<Event>, flattened: nat, last: nat, h: Handler, at: int, busy: int) {
    && flattened < |log| && log[flattened].Seen? && log[flattened].stage == Flattened
    && var m := log[flattened];
       if NothingOutstanding(m.h) then flattened == |log| - 1 && h == m.h
       else
         && last == flattened + 1 && last < |log| && LastPhase(log, last, cfg.cancelTimeout) && log[last].start == m.at
         && PhaseOf(cfg, m.h, log[last], m.busy, log[last + 1..], h, at, busy)
  }

  /** A shutdown that gives up: nothing arrives, and the order stays outstanding on the path with
      flattening as on the one without. */
  method SilentVenueLeavesOrder(flatten: bool, params: Params) returns (trader: OrderHandler)
    ensures trader.shutdownDone && !NothingOutstanding(trader.View())
  {
    var cfg := Config(params, ["p"], 0, 1_000_000_000, flatten, 5_000_000_000, 5_000_000_000, true, false);
    trader := new OrderHandler(cfg, 1, []);
    assert "p" in trader.states;
    trader.SubmitPlace("p", true, 100, 5, true, false);
    assert 1 in trader.states["p"].outstanding;
    ghost var h := trader.View();
    PlaceStands(FreshHandler(["p"]), "p", true, 100, 5, true, false, 1);
    StandsRouted(FreshHandler(["p"]), h);
    ghost var last, begun, stopped, flattened := trader.Shutdown();
    assert 1 in trader.states["p"].outstanding.Keys;
    assert trader.states["p"].outstanding != map[];
  }

  ghost predicate SentFor(h: Handler, p: Product, sent: set<Cid>, events: seq<Event>, at: int)
    requires p in h.states
  {
    && (forall e :: e in events ==>
          && e.Sent? && e.at == at && e.request.CancelRequest? && e.request.product == p && e.request.cid in sent
          && e.request.cid in h.states[p].cidToNo && e.request.orderNo == h.states[p].cidToNo[e.request.cid])
    && (forall c :: c in sent ==> c in h.states[p].cidToNo && Sent(CancelRequest(p, c, h.states[p].cidToNo[c]), at) in events)
  }

  lemma NothingSentFor(h: Handler, p: Product, orders: seq<Resting>, at: int)
    requires p in h.states
    ensures SentFor(h, p, {}, [], at) && CidsOf(orders[..0]) == {}
  {
  }

  lemma SentForMore(h: Handler, p: Product, cids: set<Cid>, events: seq<Event>, c: Cid, sent: bool, at: int)
    requires p in h.states && SentFor(h, p, cids, events, at) && (sent ==> c in h.states[p].cidToNo)
    ensures SentFor(h, p, cids + if sent then {c} else {}, events + if sent then [Sent(CancelRequest(p, c, h.states[p].cidToNo[c]), at)] else [], at)
  {
  }

  lemma SentForAll(h: Handler, p: Product, cids: set<Cid>, events: seq<Event>, at: int)
    requires p in h.states && SentFor(h, p, cids, events, at) && cids == CancellableCids(h, p)
    ensures CancelsOf(h, {p}, events, at)
  {
  }

  lemma CancelsOnly(h: Handler, h': Handler, p: Product, cids: set<Cid>)
    requires OnlyCancels(h, h', p, cids)
    ensures p in h.states && p in h'.states && h'.states[p].outstanding == h.states[p].outstanding
    ensures h'.states[p].cidToNo == h.states[p].cidToNo && h'.states[p].waitCancel == h.states[p].waitCancel + cids
  {
  }

  lemma OrdersOfProduct(m: map<Cid, Order>)
    ensures CidsOf(RestingOrders(m)) == m.Keys && InCidOrder(RestingOrders(m))
    ensures forall i :: 0 <= i < |RestingOrders(m)| ==> RestingOrders(m)[i].cid in m
  {
    RestingCovers(m);
    RestingOrdersLists(m);
  }

  lemma OneMoreOrder(orders: seq<Resting>, i: nat)
    requires i < |orders| && InCidOrder(orders)
    ensures CidsOf(orders[..i + 1]) == CidsOf(orders[..i]) + {orders[i].cid}
    ensures orders[i].cid !in CidsOf(orders[..i])
  {
    assert orders[..i + 1] == orders[..i] + [orders[i]];
    CoversOneMore(orders[..i], orders[i]);
  }

  lemma CancelsKeepRouted(h: Handler, h': Handler, p: Product, cids: set<Cid>)
    requires OnlyCancels(h, h', p, cids) && CidsRouted(h)
    ensures CidsRouted(h')
  {
  }

  lemma NothingDone(h: Handler, at: int)
    ensures RoundDone(h, h, h.states.Keys - h.states.Keys) && CancelsOf(h, h.states.Keys - h.states.Keys, [], at)
  {
  }

  lemma SameProducts(h: Handler, h': Handler, p: Product)
    requires p in h.states && OnlyCancels(h, h', p, CancellableCids(h, p))
    ensures h'.states.Keys == h.states.Keys
  {
  }

  lemma OrderlyCancels(h: Handler, log: seq<Event>)
    requires Orderly(h, log)
    ensures OneCancelAtATime(log)
  {
  }

  lemma PhaseOrderly(h: Handler, start: int, deadline: int)
    ensures Orderly(h, [Phase(start, deadline)])
  {
    assert [Phase(start, deadline)][..0] == [];
  }

  lemma GrownPrefix(before: seq<Event>, after: seq<Event>, timeout: int)
    requires Grown(before, after, timeout)
    ensures before <= after
  {
  }

  // ---- what the pieces of a shutdown leave in the log ----

  /** Queue items were taken off and handled, and nothing else was done. */
  ghost predicate Pumped(cfg: Config, h: Handler, script: seq<Wake>, log: seq<Event>, h': Handler, script': seq<Wake>, log': seq<Event>) {
    log <= log' && OnlyItems(log'[|log|..]) && Replayed(cfg, h, log, h', log') && Drained(script, log, script', log')
  }

  /** The same, but for cancels. */
  ghost predicate Worked(cfg: Config, h: Handler, script: seq<Wake>, log: seq<Event>, h': Handler, script': seq<Wake>, log': seq<Event>) {
    Calm(log, log') && Replayed(cfg, h, log, h', log') && Drained(script, log, script', log')
  }

  lemma NothingTaken(script: seq<Wake>, log: seq<Event>)
    ensures Drained(script, log, script, log)
  {
    NothingDrained(script, log, []);
    assert log + [] == log;
  }

  lemma NothingPumped(cfg: Config, h: Handler, script: seq<Wake>, log: seq<Event>)
    ensures Pumped(cfg, h, script, log, h, script, log)
  {
    NothingReplayed(cfg, h, log);
    NothingTaken(script, log);
    hide Replayed, Drained;
    assert log[|log|..] == [];
  }

  lemma NothingWorked(cfg: Config, h: Handler, script: seq<Wake>, log: seq<Event>)
    ensures Worked(cfg, h, script, log, h, script, log)
  {
    NothingReplayed(cfg, h, log);
    NothingTaken(script, log);
    CalmNow(log);
    hide Replayed, Drained, Calm;
  }

  /** One wait and what it delivered. */
  lemma OneWake(cfg: Config, h: Handler, script: seq<Wake>, log: seq<Event>, wake: Wake, at: int, h': Handler, script': seq<Wake>, log': seq<Event>)
    requires CidsRouted(h) && at >= 0
    requires if script == [] then script' == [] && wake.task.None? else wake == script[0] && script' == script[1..]
    requires wake.task.None? ==> h' == h && log' == log
    requires wake.task.Some? ==>
      h' == Model.HandleTask(h, cfg, wake.task.value, at).handler && log' == log + [Handled(wake.task.value, at, Answers(h, wake.task.value))]
    ensures Pumped(cfg, h, script, log, h', script', log')
  {
    hide HandlerModel.HandleTask, Answers, CidsRouted;
    NothingPumped(cfg, h, script, log);
    if script != [] {
      assert script[..1] == [wake];
      assert ItemsOf([wake]) == if wake.task.Some? then [wake.task.value] else [] by {
        assert [wake][..0] == [];
      }
      if wake.task.Some? {
        var e := Handled(wake.task.value, at, Answers(h, wake.task.value));
        assert log'[|log|..] == [e];
        assert [e][..0] == [];
        ReplayedBy(cfg, h, log, e);
      } else {
        assert log'[|log|..] == [];
      }
    }
  }

  lemma OneMoreWake(cfg: Config, h0: Handler, script0: seq<Wake>, log0: seq<Event>,
                    h: Handler, script: seq<Wake>, log: seq<Event>, wake: Wake, at: int, h': Handler, script': seq<Wake>, log': seq<Event>)
    requires Pumped(cfg, h0, script0, log0, h, script, log) && CidsRouted(h) && at >= 0
    requires if script == [] then script' == [] && wake.task.None? else wake == script[0] && script' == script[1..]
    requires wake.task.None? ==> h' == h && log' == log
    requires wake.task.Some? ==>
      h' == Model.HandleTask(h, cfg, wake.task.value, at).handler && log' == log + [Handled(wake.task.value, at, Answers(h, wake.task.value))]
    ensures Pumped(cfg, h0, script0, log0, h', script', log') && log <= log' && |log| <= |log'| <= |log| + 1
  {
    OneWake(cfg, h, script, log, wake, at, h', script', log');
    hide HandlerModel.HandleTask, Answers, CidsRouted, Replayed, Drained;
    ReplayedThrough(cfg, h0, log0, h, log, h', log');
    DrainedThrough(script0, log0, script, log, script', log');
    assert log'[|log0|..] == log[|log0|..] + log'[|log|..];
  }

  lemma MarkWorks(cfg: Config, h: Handler, script: seq<Wake>, log: seq<Event>, m: Event)
    requires m.Seen? && m.stage == Cancelling
    ensures Worked(cfg, h, script, log, h, script, log + [m])
  {
    CalmBy(log, [m]);
    NothingDrained(script, log, [m]);
    ReplayedBy(cfg, h, log, m);
    assert [m][..0] == [];
    assert Replay(h, cfg, [m]) == Replay(h, cfg, []);
    hide Drained, Calm, Replayed;
  }

  lemma RoundReplayed(cfg: Config, h: Handler, log1: seq<Event>, h2: Handler, cancels: seq<Event>, rest: seq<Event>, log2: seq<Event>)
    requires Replayed(cfg, h, log1, h2, log2) && cancels == log2[|log1|..]
    ensures Replay(h, cfg, cancels + rest) == Replay(h2, cfg, rest) && Replay(h, cfg, cancels) == h2
  {
    ReplayAppend(h, cfg, cancels, rest);
  }

  lemma NeverReachedYet(cfg: Config, h: Handler, log: seq<Event>, goal: Goal)
    ensures UntilReached(cfg, h, log[|log|..], goal)
  {
  }

  lemma NotReachedBefore(cfg: Config, h0: Handler, script0: seq<Wake>, log0: seq<Event>,
                         h: Handler, script: seq<Wake>, log: seq<Event>, log': seq<Event>, goal: Goal)
    requires Pumped(cfg, h0, script0, log0, h, script, log) && UntilReached(cfg, h0, log[|log0|..], goal) && !Reached(h, goal)
    requires log <= log' && |log'| <= |log| + 1
    ensures UntilReached(cfg, h0, log'[|log0|..], goal)
  {
    hide Reached, Drained, UntilReached;
    assert log'[|log0|..] == log[|log0|..] + log'[|log|..];
    UntilMore(cfg, h0, log[|log0|..], log'[|log|..], goal);
  }

  lemma PumpedWorks(cfg: Config, h: Handler, script: seq<Wake>, log: seq<Event>, h': Handler, script': seq<Wake>, log': seq<Event>)
    requires Pumped(cfg, h, script, log, h', script', log')
    ensures Worked(cfg, h, script, log, h', script', log')
  {
    hide Replayed, Drained;
  }

  lemma PumpedGrows(cfg: Config, h: Handler, script: seq<Wake>, log: seq<Event>, h': Handler, script': seq<Wake>, log': seq<Event>)
    requires Pumped(cfg, h, script, log, h', script', log')
    ensures Grown(log, log', cfg.cancelTimeout) && Drained(script, log, script', log') && log <= log'
    ensures OnlyItems(log'[|log|..]) && h' == Replay(h, cfg, log'[|log|..])
  {
    hide Drained, Replay;
  }

  lemma WorkedThrough(cfg: Config, h0: Handler, script0: seq<Wake>, log0: seq<Event>,
                      h: Handler, script: seq<Wake>, log: seq<Event>, h': Handler, script': seq<Wake>, log': seq<Event>)
    requires Worked(cfg, h0, script0, log0, h, script, log) && Worked(cfg, h, script, log, h', script', log')
    ensures Worked(cfg, h0, script0, log0, h', script', log')
  {
    hide Replayed, Drained, Calm;
    CalmThrough(log0, log, log');
    ReplayedThrough(cfg, h0, log0, h, log, h', log');
    DrainedThrough(script0, log0, script, log, script', log');
  }

  lemma WorkedGrows(cfg: Config, h: Handler, script: seq<Wake>, log: seq<Event>, h': Handler, script': seq<Wake>, log': seq<Event>)
    requires Worked(cfg, h, script, log, h', script', log')
    ensures log <= log' && |log| <= |log'|
  {
  }

  lemma CancelReplayed(cfg: Config, h: Handler, log: seq<Event>, r: Request, at: int)
    requires r.CancelRequest? && r.product in h.states
    ensures Replayed(cfg, h, log, Model.SubmitCancel(h, r.product, r.cid, at).handler, log + [Sent(r, at)])
  {
    hide HandlerModel.SubmitCancel;
    ReplayedBy(cfg, h, log, Sent(r, at));
    assert [Sent(r, at)][..0] == [];
    assert Replay(h, cfg, []) == h;
  }

  lemma CancelsWork(cfg: Config, h: Handler, ps: set<Product>, script: seq<Wake>, before: seq<Event>, h': Handler, after: seq<Event>, at: int)
    requires before <= after && CancelsOf(h, ps, after[|before|..], at) && Replayed(cfg, h, before, h', after)
    ensures Worked(cfg, h, script, before, h', script, after)
  {
    hide Replayed;
    var news := after[|before|..];
    assert forall i :: 0 <= i < |news| ==> news[i] in news;
    NothingDrained(script, before, news);
    assert before + news == after;
  }

  lemma GrownNow(log: seq<Event>, timeout: int)
    ensures Grown(log, log, timeout)
  {
    CalmNow(log);
    CalmGrows(log, log, timeout);
  }

  /** A mark in the log. */
  lemma MarkGrows(log: seq<Event>, m: Event, script: seq<Wake>, timeout: int)
    requires m.Seen?
    ensures Grown(log, log + [m], timeout) && Drained(script, log, script, log + [m])
  {
    GrownBy(log, [m], timeout);
    NothingDrained(script, log, [m]);
  }

  lemma SentDrains(script: seq<Wake>, log: seq<Event>, requests: seq<Request>, at: int)
    ensures Drained(script, log, script, log + SentEvents(requests, at))
  {
    NothingDrained(script, log, SentEvents(requests, at));
  }

  /** A cancel phase in the log: its start, and cancels and queue items after it. */
  lemma PhaseGrows(cfg: Config, h: Handler, script: seq<Wake>, log: seq<Event>, start: int, h': Handler, script': seq<Wake>, log': seq<Event>)
    requires Worked(cfg, h, script, log + [Phase(start, start + cfg.cancelTimeout)], h', script', log')
    ensures Grown(log, log', cfg.cancelTimeout) && Drained(script, log, script', log')
    ensures log <= log' && |log| < |log'| && log'[|log|] == Phase(start, start + cfg.cancelTimeout)
    ensures LastPhase(log', |log|, cfg.cancelTimeout) && NoPlaces(log'[|log|..])
    ensures OnlyCancelsAndItems(log'[|log| + 1..]) && h' == Replay(h, cfg, log'[|log|..])
  {
    var phase := Phase(start, start + cfg.cancelTimeout);
    PhaseInLog(log, log', start, cfg.cancelTimeout);
    NothingDrained(script, log, [phase]);
    DrainedThrough(script, log, script, log + [phase], script', log');
    ReplayedBy(cfg, h, log, phase);
    assert [phase][..0] == [];
    assert Replay(h, cfg, [phase]) == h;
    ReplayedThrough(cfg, h, log, h, log + [phase], h', log');
    hide Drained, Replay, Grown, LastPhase;
  }

  lemma RoundIsDone(cfg: Config, deadline: int, m: Event, out: Outcome, rest: seq<Event>, h: Handler, at: int, busy: int)
    requires m.Seen? && m.stage == Quoting && !Flat(m.h) && 0 <= m.at < deadline && out == LiquidationRound(m.h, cfg, |cfg.tradeProducts|, m.at)
    requires OnlyItems(rest) && h == Replay(out.handler, cfg, rest) && UntilReached(cfg, out.handler, rest, AllFlat)
    requires Flat(h) || at >= Min(m.at + cfg.orderUpdateInterval, deadline)
    requires at - m.at <= cfg.orderUpdateInterval + (busy - m.busy)
    ensures var tail := SentEvents(out.requests, m.at) + rest; IsRound(cfg, deadline, m, tail, h, at, busy) && NoMarks(tail)
  {
    hide Flat, LiquidationRound, Replay, UntilReached;
    var sent := SentEvents(out.requests, m.at);
    assert (sent + rest)[|out.requests|..] == rest;
  }

  /** Nothing but new orders, all at one time. */
  ghost predicate OnlyPlaces(events: seq<Event>, at: int) {
    forall i :: 0 <= i < |events| ==> events[i].Sent? && events[i].at == at && events[i].request.PlaceRequest?
  }

  lemma MorePlaces(events: seq<Event>, requests: seq<Request>, at: int)
    requires OnlyPlaces(events, at) && forall r :: r in requests ==> r.PlaceRequest?
    ensures OnlyPlaces(events + SentEvents(requests, at), at)
  {
    assert forall i :: 0 <= i < |requests| ==> requests[i] in requests;
  }

  /** Market orders for the products that are not to do any more, and nothing else. */
  ghost predicate Closing(cfg: Config, h0: Handler, log0: seq<Event>, h: Handler, log: seq<Event>, todo: set<Product>, at: int) {
    && Stands(h0, h) && Grown(log0, log, cfg.cancelTimeout) && log0 <= log
    && ClosingUnderway(h0, cfg, h, todo, log[|log0|..]) && OnlyPlaces(log[|log0|..], at)
  }

  lemma NothingClosed(cfg: Config, h: Handler, log: seq<Event>, at: int)
    ensures Closing(cfg, h, log, h, log, h.states.Keys, at)
  {
    GrownNow(log, cfg.cancelTimeout);
    NothingMovedStands(h);
    assert log[|log|..] == [];
    hide Grown, Stands;
  }

  lemma OneMoreClosed(cfg: Config, h0: Handler, log0: seq<Event>, h: Handler, log: seq<Event>,
                      h': Handler, log': seq<Event>, todo: set<Product>, p: Product, now: int)
    requires Closing(cfg, h0, log0, h, log, todo, now) && p in todo && p in h.states && now >= 0
    requires Stands(h, h') && Grown(log, log', cfg.cancelTimeout)
    requires h' == MarketOrder(h, cfg, p, now).handler && log' == log + SentEvents(MarketOrder(h, cfg, p, now).requests, now)
    ensures Closing(cfg, h0, log0, h', log', todo - {p}, now) && h'.states.Keys == h.states.Keys
  {
    hide Grown, Stands, ClosingUnderway, ClosesOut, OnlyPlaces, MarketOrder, SentEvents;
    var sent, requests := log[|log0|..], MarketOrder(h, cfg, p, now).requests;
    MarketOrderCloses(h, cfg, p, now);
    ClosingNext(h0, cfg, h, h', todo, sent, p, requests, now);
    MorePlaces(sent, requests, now);
    GrownThrough(log0, log, log', cfg.cancelTimeout);
    StandsThrough(h0, h, h');
    assert log'[|log0|..] == sent + SentEvents(requests, now);
  }

  lemma AllClosed(cfg: Config, h0: Handler, log0: seq<Event>, h: Handler, log: seq<Event>, at: int)
    requires Closing(cfg, h0, log0, h, log, {}, at)
    ensures Stands(h0, h) && Grown(log0, log, cfg.cancelTimeout)
    ensures log0 <= log && ClosesAll(h0, cfg, log[|log0|..]) && OnlyPlaces(log[|log0|..], at)
  {
    hide Grown, Stands, OnlyPlaces, ClosesOut;
  }

  lemma PlacesDrain(script: seq<Wake>, before: seq<Event>, after: seq<Event>, at: int)
    requires before <= after && OnlyPlaces(after[|before|..], at)
    ensures Drained(script, before, script, after)
  {
    NothingDrained(script, before, after[|before|..]);
    assert before + after[|before|..] == after;
  }

  lemma FlattensNothing(cfg: Config, deadline: int, h: Handler, at: int, busy: int, stopped: nat)
    ensures Flat(h) ==> Flattens(cfg, deadline, h, at, busy, [], stopped, h, at)
  {
    hide Flat;
  }

  lemma {:induction false} ItemsPlaceNothing(events: seq<Event>, items: seq<Event>, p: Product)
    requires OnlyItems(items)
    ensures PlacesOf(events + items, p) == PlacesOf(events, p)
    decreases |items|
  {
    if |items| == 0 {
      assert events + items == events;
    } else {
      var n := |items| - 1;
      ItemsPlaceNothing(events, items[..n], p);
      assert (events + items)[..|events + items| - 1] == events + items[..n];
    }
  }

  lemma ItemsCloseNothing(h: Handler, cfg: Config, events: seq<Event>, items: seq<Event>)
    requires OnlyItems(items) && ClosesAll(h, cfg, events)
    ensures ClosesAll(h, cfg, events + items)
  {
    hide ClosesOut, PlacesOf;
    forall p | p in h.states
      ensures ClosesOut(h.states[p], p, cfg.reduceOnly, PlacesOf(events + items, p))
    {
      ItemsPlaceNothing(events, items, p);
    }
  }

  lemma CrossingDone(cfg: Config, h: Handler, at: int, busy: int, log0: seq<Event>, log1: seq<Event>, m: Event,
                     orders: seq<Event>, items: seq<Event>, log: seq<Event>, h': Handler, at': int)
    requires m.Seen? && m.stage == Crossing && (Flat(h') || at' >= m.at + cfg.flattenTimeout)
    requires log0 <= log1 && |log0| < |log1| && log == log1 + [m] + orders + items && log1[|log0|] == Phase(at, at + cfg.cancelTimeout)
    requires CancelPhase(cfg, at + cfg.cancelTimeout, h, at, busy, log1[|log0| + 1..], m.h, m.at, m.busy)
    requires ClosesAll(m.h, cfg, orders) && OnlyPlaces(orders, m.at) && OnlyItems(items)
    ensures Crosses(cfg, h, at, busy, log[|log0|..], h', at')
  {
    hide CancelPhase, ClosesAll, Flat;
    var a, tail := log1[|log0|..], orders + items;
    var events := log[|log0|..];
    assert events == a + [m] + tail;
    ItemsCloseNothing(m.h, cfg, orders, items);
    LastMarkIs(a, m, tail);
    assert events[..|a|] == a && events[|a| + 1..] == tail && events[1..|a|] == log1[|log0| + 1..];
    forall i | |a| < i < |events|
      ensures events[i] == tail[i - |a| - 1]
    {
    }
  }

  lemma FlattenedHere(cfg: Config, h: Handler, busy0: int, log0: seq<Event>, log1: seq<Event>, at: int, busy: int,
                      h1: Handler, log: seq<Event>, stopped: nat, flattened: nat)
    requires log0 <= log1 && |log0| < |log1| && log1 + [Seen(Begun, h1, at, busy)] <= log && |log1| < flattened < |log|
    requires PhaseOf(cfg, h, log1[|log0|], busy0, log1[|log0| + 1..], h1, at, busy)
    requires log[flattened].Seen?
    requires Flattens(cfg, at + cfg.flattenTimeout, h1, at, busy, log[|log1| + 1..flattened], stopped, log[flattened].h, log[flattened].at)
    ensures FlattenedBetween(cfg, h, busy0, log, |log0|, |log1|, stopped, flattened)
  {
    hide Flattens, PhaseOf;
    assert log[|log1|] == Seen(Begun, h1, at, busy);
    assert log[|log0| + 1..|log1|] == log1[|log0| + 1..];
  }

  lemma PulledHere(cfg: Config, h: Handler, log0: seq<Event>, at0: int, busy0: int, log: seq<Event>, h': Handler, at: int, busy: int)
    requires log0 + [Seen(Flattened, h, at0, busy0)] <= log
    requires NothingOutstanding(h) ==> |log| == |log0| + 1 && h' == h
    requires !NothingOutstanding(h) ==>
      && |log0| + 1 < |log| && LastPhase(log, |log0| + 1, cfg.cancelTimeout) && log[|log0| + 1].start == at0
      && CancelPhase(cfg, at0 + cfg.cancelTimeout, h, at0, busy0, log[|log0| + 2..], h', at, busy)
    ensures NothingOutstanding(h) ==> forall last :: Pulled(cfg, log, |log0|, last, h', at, busy)
    ensures !NothingOutstanding(h) ==> Pulled(cfg, log, |log0|, |log0| + 1, h', at, busy)
  {
    hide CancelPhase, NothingOutstanding;
    assert log[|log0|] == Seen(Flattened, h, at0, busy0);
  }

  lemma MarketOrderReduces(requests: seq<Request>, position: int)
    requires position != 0
    requires forall r :: r in requests ==>
      r.PlaceRequest? && r.position == position && r.isBid == (position < 0) && r.recorded == if position > 0 then position else -position
    ensures forall r :: r in requests ==> Reducing(r)
  {
  }

  lemma StandingOrders(h: Handler, h': Handler)
    requires Stands(h, h')
    ensures KeepsOrders(h, h') && h'.states.Keys == h.states.Keys
  {
  }

  lemma SwitchKeepsOrders(h: Handler, h': Handler)
    ensures KeepsOrders(h.(shuttingDown := true), h') <==> KeepsOrders(h, h')
  {
  }

  lemma NothingMovedStands(h: Handler)
    ensures Stands(h, h)
  {
  }

  lemma StandingFlat(h: Handler, h': Handler)
    requires Stands(h, h')
    ensures Flat(h') <==> Flat(h)
  {
  }

  lemma SwitchKeepsRouted(h: Handler)
    requires CidsRouted(h)
    ensures CidsRouted(h.(shuttingDown := true))
  {
  }

  lemma StandsRouted(h: Handler, h': Handler)
    requires Stands(h, h') && CidsRouted(h)
    ensures CidsRouted(h')
  {
  }

  lemma NothingSent(at: int)
    ensures SentEvents([], at) == []
  {
  }

  lemma SendSame(h: Handler, p: Product, d: Pairing, e: Pairing, now: int)
    requires p in h.states && now >= 0
    requires d.bids == e.bids && d.asks == e.asks && d.bidCancels == e.bidCancels && d.askCancels == e.askCancels
    ensures Send(h, p, d, now) == Send(h, p, e, now)
  {
  }

  /** The waits on a cid erased, the wait's time left as it is. */
  function Erased(h: Handler, p: Product, cid: Cid, place: bool, cancel: bool): (r: Handler)
    requires p in h.states
    ensures r.states.Keys == h.states.Keys
  {
    var st := h.states[p];
    h.With(p, st.(waitPlace := if place then st.waitPlace - {cid} else st.waitPlace,
                  waitCancel := if cancel then st.waitCancel - {cid} else st.waitCancel))
  }

  lemma ForgetErased(h: Handler, p: Product, cid: Cid, place: bool)
    requires p in h.states
    ensures var f := Model.ForgetOrder(Erased(h, p, cid, place, true), p, cid);
      f.With(p, f.states[p].ClearIfIdle()) == StopWaiting(Model.ForgetOrder(h, p, cid), p, cid, place, true)
  {
  }
}
