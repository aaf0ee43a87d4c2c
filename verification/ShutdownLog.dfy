/** What a shutdown does, read off its log: phases of cancels until nothing is outstanding or the time
    is up, rounds of liquidation quotes until the positions are flat or the time is up, and then one
    market order for each position that is left. */
module ShutdownLog {
  import opened Ladders
  import opened Strategy
  import opened StrategyProofs
  import opened WantedQuotes
  import opened HandlerModel
  import opened Executions
  import opened DecisionProofs
  import opened SentOrders
  import opened ShutdownModel

  // ---- marks in the log ----

  ghost predicate OnlyItems(events: seq<Event>) {
    forall i :: 0 <= i < |events| ==> events[i].Handled?
  }

  ghost predicate NoMarks(events: seq<Event>) {
    forall i :: 0 <= i < |events| ==> !events[i].Seen?
  }

  /** The index of the last mark, or -1. */
  ghost function LastMark(events: seq<Event>): (k: int)
    ensures -1 <= k < |events|
    ensures k >= 0 ==> events[k].Seen?
    ensures forall i :: k < i < |events| ==> !events[i].Seen?
  {
    if |events| == 0 then -1
    else if events[|events| - 1].Seen? then |events| - 1
    else LastMark(events[..|events| - 1])
  }

  lemma {:induction false} LastMarkIs(events: seq<Event>, m: Event, tail: seq<Event>)
    requires m.Seen? && NoMarks(tail)
    ensures LastMark(events + [m] + tail) == |events|
    decreases |tail|
  {
    var all := events + [m] + tail;
    if |tail| == 0 {
      assert all[|events|] == m;
    } else {
      var n := |tail| - 1;
      LastMarkIs(events, m, tail[..n]);
      assert all[..|all| - 1] == events + [m] + tail[..n];
      assert all[|all| - 1] == tail[n];
    }
  }

  // ---- a phase of cancels ----

  /** The number of requests a log starts with. */
  ghost function Leading(events: seq<Event>): (n: nat)
    ensures n <= |events| && (forall i :: 0 <= i < n ==> events[i].Sent?) && (n < |events| ==> !events[n].Sent?)
  {
    if |events| == 0 || !events[0].Sent? then 0 else 1 + Leading(events[1..])
  }

  /** One round of a cancel phase: a cancel for every order that can be cancelled, all at once, and
      then queue items only, just until nothing is outstanding, something more can be cancelled, or a
      fifth of a second has passed, but not beyond it except for the time spent handling items. */
  ghost predicate IsCancelRound(cfg: Config, deadline: int, m: Event, tail: seq<Event>, h: Handler, at: int, busy: int) {
    && m.Seen? && m.stage == Cancelling && !NothingOutstanding(m.h) && m.at < deadline
    && var n := Leading(tail);
       && CancelsOf(m.h, m.h.states.Keys, tail[..n], m.at) && OnlyItems(tail[n..]) && h == Replay(m.h, cfg, tail)
       && UntilReached(cfg, Replay(m.h, cfg, tail[..n]), tail[n..], GoneOrCancellable)
       && (NothingOutstanding(h) || AnyCancellable(h) || at >= Min(m.at + 200_000_000, deadline))
       && at - m.at <= 200_000_000 + (busy - m.busy)
  }

  /** The log of cancel rounds, one after the other, that lead from one handler and time to another. */
  ghost predicate CancelRounds(cfg: Config, deadline: int, h0: Handler, at0: int, busy0: int, events: seq<Event>, h: Handler, at: int, busy: int) {
    var k := LastMark(events);
    if k < 0 then events == [] && h == h0 && at == at0 && busy == busy0
    else
      && IsCancelRound(cfg, deadline, events[k], events[k + 1..], h, at, busy)
      && CancelRounds(cfg, deadline, h0, at0, busy0, events[..k], events[k].h, events[k].at, events[k].busy)
  }

  /** A whole cancel phase: rounds until nothing is outstanding or the deadline has passed. */
  ghost predicate CancelPhase(cfg: Config, deadline: int, h0: Handler, at0: int, busy0: int, events: seq<Event>, h: Handler, at: int, busy: int) {
    CancelRounds(cfg, deadline, h0, at0, busy0, events, h, at, busy) && (NothingOutstanding(h) || at >= deadline)
  }

  lemma NoCancelRounds(cfg: Config, deadline: int, h: Handler, at: int, busy: int)
    ensures CancelRounds(cfg, deadline, h, at, busy, [], h, at, busy)
  {
    hide IsCancelRound;
  }

  lemma OneMoreCancelRound(cfg: Config, deadline: int, h0: Handler, at0: int, busy0: int, events: seq<Event>,
                           m: Event, tail: seq<Event>, h: Handler, at: int, busy: int)
    requires m.Seen? && CancelRounds(cfg, deadline, h0, at0, busy0, events, m.h, m.at, m.busy)
    requires IsCancelRound(cfg, deadline, m, tail, h, at, busy) && NoMarks(tail)
    ensures CancelRounds(cfg, deadline, h0, at0, busy0, events + [m] + tail, h, at, busy)
  {
    hide IsCancelRound;
    LastMarkIs(events, m, tail);
    var all := events + [m] + tail;
    assert all[..|events|] == events && all[|events| + 1..] == tail && all[|events|] == m;
  }

  lemma CancelRoundIsDone(cfg: Config, deadline: int, m: Event, cancels: seq<Event>, rest: seq<Event>, h: Handler, at: int, busy: int)
    requires m.Seen? && m.stage == Cancelling && !NothingOutstanding(m.h) && m.at < deadline
    requires CancelsOf(m.h, m.h.states.Keys, cancels, m.at) && OnlyItems(rest) && h == Replay(m.h, cfg, cancels + rest)
    requires UntilReached(cfg, Replay(m.h, cfg, cancels), rest, GoneOrCancellable)
    requires NothingOutstanding(h) || AnyCancellable(h) || at >= Min(m.at + 200_000_000, deadline)
    requires at - m.at <= 200_000_000 + (busy - m.busy)
    ensures IsCancelRound(cfg, deadline, m, cancels + rest, h, at, busy) && NoMarks(cancels + rest)
  {
    hide NothingOutstanding, AnyCancellable, Replay, UntilReached;
    var tail := cancels + rest;
    AllSent(m.h, m.h.states.Keys, cancels, m.at);
    hide CancelsOf;
    LeadingIs(cancels, rest);
    assert tail[..|cancels|] == cancels && tail[|cancels|..] == rest;
  }

  lemma {:induction false} LeadingIs(sent: seq<Event>, rest: seq<Event>)
    requires (forall i :: 0 <= i < |sent| ==> sent[i].Sent?) && OnlyItems(rest)
    ensures Leading(sent + rest) == |sent|
  {
    if |sent| > 0 {
      LeadingIs(sent[1..], rest);
      assert (sent + rest)[1..] == sent[1..] + rest;
    } else {
      assert sent + rest == rest;
    }
  }

  lemma AllSent(h: Handler, ps: set<Product>, cancels: seq<Event>, at: int)
    requires CancelsOf(h, ps, cancels, at)
    ensures forall i :: 0 <= i < |cancels| ==> cancels[i].Sent?
  {
    assert forall i :: 0 <= i < |cancels| ==> cancels[i] in cancels;
  }

  /** The log sends the order's cancel, for its number, at that time. */
  ghost predicate SendsCancel(events: seq<Event>, h: Handler, p: Product, c: Cid, at: int) {
    p in h.states && c in h.states[p].cidToNo && Sent(CancelRequest(p, c, h.states[p].cidToNo[c]), at) in events
  }

  lemma RoundCancels(cfg: Config, deadline: int, m: Event, tail: seq<Event>, h: Handler, at: int, busy: int, p: Product, c: Cid)
    requires IsCancelRound(cfg, deadline, m, tail, h, at, busy) && Cancellable(m.h, p, c)
    ensures SendsCancel(tail, m.h, p, c, m.at)
  {
    hide Replay, NothingOutstanding, AnyCancellable, OnlyItems, Leading;
    assert forall e :: e in tail[..Leading(tail)] ==> e in tail;
  }

  lemma SentLater(events: seq<Event>, k: nat, h: Handler, p: Product, c: Cid, at: int)
    requires k <= |events| && (SendsCancel(events[..k], h, p, c, at) || SendsCancel(events[k..], h, p, c, at))
    ensures SendsCancel(events, h, p, c, at)
  {
    assert events == events[..k] + events[k..];
  }

  /** A phase that has something to cancel and time to do it cancels it at once. */
  lemma FirstCancels(cfg: Config, deadline: int, h0: Handler, at0: int, busy0: int, events: seq<Event>, h: Handler, at: int, busy: int, p: Product, c: Cid)
    requires CancelPhase(cfg, deadline, h0, at0, busy0, events, h, at, busy) && at0 < deadline && Cancellable(h0, p, c)
    ensures SendsCancel(events, h0, p, c, at0)
  {
    hide SendsCancel, CancelRounds;
    FirstCancelRound(cfg, deadline, h0, at0, busy0, events, h, at, busy, p, c);
  }

  lemma {:induction false} FirstCancelRound(cfg: Config, deadline: int, h0: Handler, at0: int, busy0: int, events: seq<Event>,
                                            h: Handler, at: int, busy: int, p: Product, c: Cid)
    requires CancelRounds(cfg, deadline, h0, at0, busy0, events, h, at, busy) && Cancellable(h0, p, c)
    ensures if events == [] then h == h0 && at == at0 else SendsCancel(events, h0, p, c, at0)
    decreases |events|
  {
    hide IsCancelRound, SendsCancel, LastMark, Cancellable;
    var k := LastMark(events);
    if k >= 0 {
      var m := events[k];
      FirstCancelRound(cfg, deadline, h0, at0, busy0, events[..k], m.h, m.at, m.busy, p, c);
      if events[..k] == [] {
        RoundCancels(cfg, deadline, m, events[k + 1..], h, at, busy, p, c);
        SentLater(events, k + 1, h0, p, c, at0);
      } else {
        SentLater(events, k, h0, p, c, at0);
      }
    }
  }

  // ---- one round of liquidation quotes ----

  /** A liquidation decision for each of the first `n` traded products, in turn. */
  ghost function LiquidationRound(h: Handler, cfg: Config, n: nat, now: int): (s: Outcome)
    requires n <= |cfg.tradeProducts| && now >= 0
    ensures s.handler.states.Keys == h.states.Keys
  {
    if n == 0 then Outcome(h, [])
    else
      var before := LiquidationRound(h, cfg, n - 1, now);
      var last := UpdateOrders(before.handler, cfg, cfg.tradeProducts[n - 1], true, now);
      Outcome(last.handler, before.requests + last.requests)
  }

  lemma {:induction false} CancelsTouchOne(h: Handler, p: Product, cids: seq<Cid>, now: int)
    requires p in h.states
    ensures OthersAsBefore(h, SubmitCancels(h, p, cids, now).handler, p)
  {
    if |cids| > 0 {
      CancelsTouchOne(h, p, cids[..|cids| - 1], now);
    }
  }

  lemma PlaceTouchesOne(h: Handler, p: Product, isBid: bool, q: Quote, now: int)
    requires p in h.states && now >= 0
    ensures OthersAsBefore(h, SubmitPlace(h, p, isBid, q.price, q.qty, true, false, now).handler, p)
  {
    hide SnapTo;
  }

  lemma {:induction false} PlacesTouchOne(h: Handler, p: Product, isBid: bool, quotes: seq<Quote>, now: int)
    requires p in h.states && now >= 0
    ensures OthersAsBefore(h, SubmitPlaces(h, p, isBid, quotes, now).handler, p)
  {
    if |quotes| > 0 {
      hide SubmitPlace;
      var n := |quotes| - 1;
      PlacesTouchOne(h, p, isBid, quotes[..n], now);
      PlaceTouchesOne(SubmitPlaces(h, p, isBid, quotes[..n], now).handler, p, isBid, quotes[n], now);
    }
  }

  /** A decision changes its own product alone. */
  lemma DecisionTouchesOne(h: Handler, cfg: Config, p: Product, liquidate: bool, now: int)
    requires now >= 0
    ensures OthersAsBefore(h, UpdateOrders(h, cfg, p, liquidate, now).handler, p)
  {
    hide DecideFor, Send;
    if ReadyToDecide(h, p, liquidate) {
      var h1 := if h.states[p].NoWaiting() then h else ClearWaits(h, p);
      var decision := DecideFor(h1.states[p], cfg, liquidate, now);
      if decision.Some? {
        SendTouchesOne(h1, p, decision.value, now);
      }
    }
  }

  lemma SendTouchesOne(h: Handler, p: Product, d: Pairing, now: int)
    requires p in h.states && now >= 0
    ensures OthersAsBefore(h, Send(h, p, d, now).handler, p)
  {
    hide SubmitCancels, SubmitPlaces, OthersAsBefore;
    var s1 := SubmitCancels(h, p, d.bidCancels, now);
    var s2 := SubmitCancels(s1.handler, p, d.askCancels, now);
    var s3 := SubmitPlaces(s2.handler, p, true, d.bids, now);
    var s4 := SubmitPlaces(s3.handler, p, false, d.asks, now);
    CancelsTouchOne(h, p, d.bidCancels, now);
    CancelsTouchOne(s1.handler, p, d.askCancels, now);
    PlacesTouchOne(s2.handler, p, true, d.bids, now);
    PlacesTouchOne(s3.handler, p, false, d.asks, now);
    TouchThrough(h, s1.handler, s2.handler, p);
    TouchThrough(h, s2.handler, s3.handler, p);
    TouchThrough(h, s3.handler, s4.handler, p);
  }

  lemma TouchThrough(h: Handler, h1: Handler, h2: Handler, p: Product)
    requires OthersAsBefore(h, h1, p) && OthersAsBefore(h1, h2, p)
    ensures OthersAsBefore(h, h2, p)
  {
  }

  lemma {:induction false} RoundLeavesOthers(h: Handler, cfg: Config, n: nat, now: int, p: Product)
    requires n <= |cfg.tradeProducts| && now >= 0 && p in h.states && p !in cfg.tradeProducts[..n]
    ensures var s := LiquidationRound(h, cfg, n, now).handler;
      s.states[p] == h.states[p] && s.listenerConnected == h.listenerConnected && s.shuttingDown == h.shuttingDown
  {
    hide UpdateOrders;
    if n > 0 {
      assert cfg.tradeProducts[..n - 1] <= cfg.tradeProducts[..n];
      RoundLeavesOthers(h, cfg, n - 1, now, p);
      DecisionTouchesOne(LiquidationRound(h, cfg, n - 1, now).handler, cfg, cfg.tradeProducts[n - 1], true, now);
    }
  }

  lemma {:induction false} RoundHas(h: Handler, cfg: Config, n: nat, now: int, i: nat, r: Request)
    requires i < n <= |cfg.tradeProducts| && now >= 0
    requires r in UpdateOrders(LiquidationRound(h, cfg, i, now).handler, cfg, cfg.tradeProducts[i], true, now).requests
    ensures r in LiquidationRound(h, cfg, n, now).requests
  {
    hide UpdateOrders;
    if i < n - 1 {
      RoundHas(h, cfg, n - 1, now, i, r);
    }
  }

  /** The product's liquidation quote: out of the whole position, one tick inside the opposite touch. */
  function Exit(st: ProductState): Quote {
    var tick := if st.tick.Some? && st.tick.value > 0 then st.tick.value else 1;
    if st.position > 0 then Quote(st.bask - tick, st.position) else Quote(st.bbid + tick, -st.position)
  }

  /** An order at the quote's price already rests on its side. */
  ghost predicate RestsAtPrice(st: ProductState, isBid: bool, price: int) {
    exists c :: c in st.outstanding && st.outstanding[c].isBid == isBid && st.outstanding[c].price == price
  }

  ghost predicate CanExit(h: Handler, p: Product, now: int) {
    && p in h.states && h.listenerConnected
    && var st := h.states[p];
       && st.position != 0 && st.tick.Some? && st.bbid != -1 && st.bask != -1 && (st.NoWaiting() || TimedOut(st, now))
       && Placeable(st, Exit(st))
  }

  /** A liquidation decision of a product that can decide and holds a position: the exit quote goes
      out, unless an order already rests at its price. */
  lemma DecisionExits(h: Handler, cfg: Config, p: Product, now: int)
    requires now >= 0 && CanExit(h, p, now)
    ensures var st, isBid := h.states[p], h.states[p].position < 0;
      RestsAtPrice(st, isBid, Exit(st).price) || CarriedBy(st, Exit(st), p, isBid, UpdateOrders(h, cfg, p, true, now).requests)
  {
    hide Send, Decide, RestingOrders, Carries, Placeable, CarriedBy, RestsAtPrice;
    var h1 := if h.states[p].NoWaiting() then h else ClearWaits(h, p);
    var st, isBid := h1.states[p], h1.states[p].position < 0;
    var info := BuildPriceInfo(st, cfg.fairPriceMaxAge, now).value;
    ExitIsWanted(st, cfg, now);
    var d := Decide(cfg.params, info, true, st.position, RestingOrders(st.outstanding));
    SendCarries(h1, p, d, now);
    SameGrid(h.states[p], st);
    hide BuildPriceInfo;
    if Exit(st) !in d.Wanted(isBid) {
      ExitClaimed(st, cfg.params, info, Exit(st), isBid);
    }
    SameRest(h.states[p], st, isBid, Exit(st).price);
    SameCarried(h.states[p], st, Exit(st), p, isBid, Send(h1, p, d, now).requests);
  }

  lemma SameRest(st: ProductState, st1: ProductState, isBid: bool, price: int)
    requires st1.outstanding == st.outstanding
    ensures RestsAtPrice(st1, isBid, price) <==> RestsAtPrice(st, isBid, price)
  {
  }

  lemma SameCarried(st: ProductState, st1: ProductState, q: Quote, p: Product, isBid: bool, requests: seq<Request>)
    requires st1.tick == st.tick && st1.lot == st.lot
    ensures CarriedBy(st1, q, p, isBid, requests) <==> CarriedBy(st, q, p, isBid, requests)
  {
    hide Carries;
    SameGrid(st, st1);
  }

  lemma ExitIsWanted(st: ProductState, cfg: Config, now: int)
    requires st.position != 0 && st.tick.Some? && st.bbid != -1 && st.bask != -1
    ensures BuildPriceInfo(st, cfg.fairPriceMaxAge, now).Some?
    ensures var info := BuildPriceInfo(st, cfg.fairPriceMaxAge, now).value;
      (if st.position < 0 then WantedBids(cfg.params, info, true, st.position) else WantedAsks(cfg.params, info, true, st.position)) == [Exit(st)]
  {
    LiquidationQuote(cfg.params, BuildPriceInfo(st, cfg.fairPriceMaxAge, now).value, st.position);
    hide WantedBids, WantedAsks;
  }

  /** The one wanted quote not left to place was claimed by an order at its very price. */
  lemma ExitClaimed(st: ProductState, params: Params, info: PriceInfo, q: Quote, isBid: bool)
    requires (if isBid then WantedBids(params, info, true, st.position) else WantedAsks(params, info, true, st.position)) == [q]
    requires q !in Decide(params, info, true, st.position, RestingOrders(st.outstanding)).Wanted(isBid)
    ensures RestsAtPrice(st, isBid, q.price)
  {
    hide WantedBids, WantedAsks, Pair, RestingOrders;
    var orders := RestingOrders(st.outstanding);
    var d := Decide(params, info, true, st.position, orders);
    PairConserves(orders, WantedBids(params, info, true, st.position), WantedAsks(params, info, true, st.position),
                  BufferTolerance(params, true), isBid);
    assert q in multiset([q]);
    hide ClaimedQuotes, ClaimedCids, SideCids;
    assert q in multiset(ClaimedQuotes(d.claims, isBid));
    var o := ClaimOf(d.claims, isBid, q);
    assert o in orders && Distance(q, o.price) <= 0;
    RestsThere(st, o);
  }

  lemma RestsThere(st: ProductState, o: Resting)
    requires o in RestingOrders(st.outstanding)
    ensures RestsAtPrice(st, o.isBid, o.price)
  {
    hide RestingOrders;
    RestingOrdersLists(st.outstanding);
    var orders := RestingOrders(st.outstanding);
    var i :| 0 <= i < |orders| && orders[i] == o;
    assert st.outstanding[o.cid] == Order(o.price, o.qty, o.isBid);
  }

  lemma {:induction false} ClaimOf(claims: seq<Claim>, isBid: bool, q: Quote) returns (o: Resting)
    requires q in ClaimedQuotes(claims, isBid)
    ensures Claim(o, q) in claims && o.isBid == isBid
  {
    var n := |claims| - 1;
    if claims[n].order.isBid == isBid && claims[n].wanted == q {
      o := claims[n].order;
    } else {
      o := ClaimOf(claims[..n], isBid, q);
    }
  }

  /** In a round, every traded product that can decide and holds a position gets its exit quote. */
  lemma RoundExits(h: Handler, cfg: Config, now: int, i: nat)
    requires i < |cfg.tradeProducts| && now >= 0
    requires var p := cfg.tradeProducts[i]; p !in cfg.tradeProducts[..i] && CanExit(h, p, now)
    ensures var p := cfg.tradeProducts[i];
      var st, isBid := h.states[p], h.states[p].position < 0;
      RestsAtPrice(st, isBid, Exit(st).price)
      || CarriedBy(st, Exit(st), p, isBid, LiquidationRound(h, cfg, |cfg.tradeProducts|, now).requests)
  {
    hide UpdateOrders, LiquidationRound, Placeable, Carries, RestsAtPrice;
    var p := cfg.tradeProducts[i];
    RoundLeavesOthers(h, cfg, i, now, p);
    var h1 := LiquidationRound(h, cfg, i, now).handler;
    DecisionExits(h1, cfg, p, now);
    var requests := UpdateOrders(h1, cfg, p, true, now).requests;
    forall r | r in requests
      ensures r in LiquidationRound(h, cfg, |cfg.tradeProducts|, now).requests
    {
      RoundHas(h, cfg, |cfg.tradeProducts|, now, i, r);
    }
  }

  // ---- the rounds, in the log ----

  /** One round: the quotes of every traded product, sent at once, and then queue items only, just until
      the positions are flat or the update interval has passed, but not beyond it except for the
      time spent handling items. */
  ghost predicate IsRound(cfg: Config, deadline: int, m: Event, tail: seq<Event>, h: Handler, at: int, busy: int) {
    && m.Seen? && m.stage == Quoting && !Flat(m.h) && 0 <= m.at < deadline
    && var out := LiquidationRound(m.h, cfg, |cfg.tradeProducts|, m.at);
       && SentEvents(out.requests, m.at) <= tail
       && var rest := tail[|out.requests|..];
          && OnlyItems(rest) && h == Replay(out.handler, cfg, rest) && UntilReached(cfg, out.handler, rest, AllFlat)
          && (Flat(h) || at >= Min(m.at + cfg.orderUpdateInterval, deadline))
          && at - m.at <= cfg.orderUpdateInterval + (busy - m.busy)
  }

  /** The log of rounds, one after the other, that lead from one handler and time to another. */
  ghost predicate Rounds(cfg: Config, deadline: int, h0: Handler, at0: int, busy0: int, events: seq<Event>, h: Handler, at: int, busy: int) {
    var k := LastMark(events);
    if k < 0 then events == [] && h == h0 && at == at0 && busy == busy0
    else
      && IsRound(cfg, deadline, events[k], events[k + 1..], h, at, busy)
      && Rounds(cfg, deadline, h0, at0, busy0, events[..k], events[k].h, events[k].at, events[k].busy)
  }

  lemma NoRounds(cfg: Config, deadline: int, h: Handler, at: int, busy: int)
    ensures Rounds(cfg, deadline, h, at, busy, [], h, at, busy)
  {
    hide IsRound;
  }

  lemma OneMoreRound(cfg: Config, deadline: int, h0: Handler, at0: int, busy0: int, events: seq<Event>,
                     m: Event, tail: seq<Event>, h: Handler, at: int, busy: int)
    requires m.Seen? && Rounds(cfg, deadline, h0, at0, busy0, events, m.h, m.at, m.busy)
    requires IsRound(cfg, deadline, m, tail, h, at, busy) && NoMarks(tail)
    ensures Rounds(cfg, deadline, h0, at0, busy0, events + [m] + tail, h, at, busy)
  {
    hide IsRound;
    LastMarkIs(events, m, tail);
    var all := events + [m] + tail;
    assert all[..|events|] == events && all[|events| + 1..] == tail && all[|events|] == m;
  }

  /** The first round of a flattening that has time begins at once. */
  lemma {:induction false} FirstRound(cfg: Config, deadline: int, h0: Handler, at0: int, busy0: int, events: seq<Event>, h: Handler, at: int, busy: int)
    requires Rounds(cfg, deadline, h0, at0, busy0, events, h, at, busy) && !Flat(h0) && at0 < deadline && (Flat(h) || at >= deadline)
    ensures |events| > 0 && events[0] == Seen(Quoting, h0, at0, busy0)
    decreases |events|
  {
    hide IsRound;
    FirstOf(cfg, deadline, h0, at0, busy0, events, h, at, busy);
  }

  lemma {:induction false} FirstOf(cfg: Config, deadline: int, h0: Handler, at0: int, busy0: int, events: seq<Event>, h: Handler, at: int, busy: int)
    requires Rounds(cfg, deadline, h0, at0, busy0, events, h, at, busy)
    ensures events == [] ==> h == h0 && at == at0 && busy == busy0
    ensures events != [] ==> events[0] == Seen(Quoting, h0, at0, busy0)
    decreases |events|
  {
    var k := LastMark(events);
    if k >= 0 {
      FirstOf(cfg, deadline, h0, at0, busy0, events[..k], events[k].h, events[k].at, events[k].busy);
      hide Flat, LiquidationRound, Replay;
    }
  }

  // ---- the market orders ----

  /** The orders placed for a product. */
  ghost function PlacesOf(events: seq<Event>, p: Product): seq<Request> {
    if |events| == 0 then []
    else
      var last := events[|events| - 1];
      PlacesOf(events[..|events| - 1], p) + if last.Sent? && last.request.PlaceRequest? && last.request.product == p then [last.request] else []
  }

  lemma PlacesAppend(events: seq<Event>, e: Event, p: Product)
    ensures PlacesOf(events + [e], p) ==
      PlacesOf(events, p) + if e.Sent? && e.request.PlaceRequest? && e.request.product == p then [e.request] else []
  {
    assert (events + [e])[..|events|] == events;
  }

  function Size(position: int): nat { if position > 0 then position else -position }

  ghost predicate ClosesOutWith(st: ProductState, p: Product, reduceOnly: bool, orders: seq<Request>, lots: int) {
    && IsSnapped(st.lot, Size(st.position), lots)
    && if st.position == 0 || lots <= 0 then orders == []
       else |orders| == 1 && orders[0] == PlaceRequest(p, orders[0].cid, st.position < 0, false, 0, lots, Size(st.position), reduceOnly, st.position)
  }

  /** For a position, exactly one market order against it and for all of it, on the product's lot;
      for none, or one that snaps to nothing, no order. */
  ghost predicate ClosesOut(st: ProductState, p: Product, reduceOnly: bool, orders: seq<Request>) {
    exists lots :: ClosesOutWith(st, p, reduceOnly, orders, lots)
  }

  /** Every position is closed out by a market order. */
  ghost predicate ClosesAll(h: Handler, cfg: Config, events: seq<Event>) {
    forall p :: p in h.states ==> ClosesOut(h.states[p], p, cfg.reduceOnly, PlacesOf(events, p))
  }

  function MarketOrder(h: Handler, cfg: Config, p: Product, now: int): (s: Outcome)
    requires p in h.states && now >= 0
    ensures s.handler.states.Keys == h.states.Keys
  {
    var position := h.states[p].position;
    if position == 0 then Outcome(h, [])
    else SubmitPlace(h, p, position < 0, 0, Size(position), false, cfg.reduceOnly, now)
  }

  lemma MarketOrderCloses(h: Handler, cfg: Config, p: Product, now: int)
    requires p in h.states && now >= 0
    ensures var out := MarketOrder(h, cfg, p, now);
      && ClosesOut(h.states[p], p, cfg.reduceOnly, out.requests) && |out.requests| <= 1
      && (forall r :: r in out.requests ==> r.PlaceRequest? && r.product == p)
      && OthersAsBefore(h, out.handler, p)
  {
    var st := h.states[p];
    var size := Size(st.position);
    var lots := SnapTo(st.lot, size);
    SnapToIs(st.lot, size, lots);
    SnapToIs(st.tick, 0, SnapTo(st.tick, 0));
    hide IsSnapped, SnapTo;
    var out := MarketOrder(h, cfg, p, now);
    if st.position != 0 {
      PlaceSays(h, p, st.position < 0, 0, size, false, cfg.reduceOnly, now, SnapTo(st.tick, 0), lots);
      hide SubmitPlace;
    }
    assert ClosesOutWith(st, p, cfg.reduceOnly, out.requests, lots);
  }

  /** The market orders so far: of the products done, none of those to do. */
  ghost predicate ClosingUnderway(h: Handler, cfg: Config, h': Handler, todo: set<Product>, events: seq<Event>) {
    && h'.states.Keys == h.states.Keys && todo <= h.states.Keys
    && (forall p :: p in h.states && p in todo ==> h'.states[p] == h.states[p] && PlacesOf(events, p) == [])
    && forall p :: p in h.states && p !in todo ==> ClosesOut(h.states[p], p, cfg.reduceOnly, PlacesOf(events, p))
  }

  lemma ClosingNext(h: Handler, cfg: Config, h1: Handler, h2: Handler, todo: set<Product>, events: seq<Event>,
                    p: Product, requests: seq<Request>, now: int)
    requires p in todo && ClosingUnderway(h, cfg, h1, todo, events) && p in h1.states && OthersAsBefore(h1, h2, p)
    requires ClosesOut(h1.states[p], p, cfg.reduceOnly, requests) && |requests| <= 1 && forall r :: r in requests ==> r.PlaceRequest? && r.product == p
    ensures ClosingUnderway(h, cfg, h2, todo - {p}, events + SentEvents(requests, now))
  {
    hide ClosesOut, PlacesOf;
    forall q
      ensures q != p ==> PlacesOf(events + SentEvents(requests, now), q) == PlacesOf(events, q)
      ensures PlacesOf(events, p) == [] ==> PlacesOf(events + SentEvents(requests, now), p) == requests
    {
      OneOrderMore(events, requests, now, p, q);
    }
  }

  lemma OneOrderMore(events: seq<Event>, requests: seq<Request>, now: int, p: Product, q: Product)
    requires |requests| <= 1 && forall r :: r in requests ==> r.PlaceRequest? && r.product == p
    ensures q != p ==> PlacesOf(events + SentEvents(requests, now), q) == PlacesOf(events, q)
    ensures PlacesOf(events, p) == [] ==> PlacesOf(events + SentEvents(requests, now), p) == requests
  {
    if |requests| == 0 {
      assert events + SentEvents(requests, now) == events;
    } else {
      assert requests == [requests[0]] && requests[0] in requests;
      assert SentEvents(requests, now) == [Sent(requests[0], now)];
      PlacesAppend(events, Sent(requests[0], now), q);
      PlacesAppend(events, Sent(requests[0], now), p);
    }
  }

  /** After the rounds, with a position left and market orders allowed: a cancel phase; then, with
      everything cancelled or the phase out of time, a market order for every position; then queue
      items only, until the positions are flat or the flatten timeout has passed. */
  ghost predicate Crosses(cfg: Config, h: Handler, at: int, busy: int, events: seq<Event>, h': Handler, at': int) {
    var k := LastMark(events);
    && 1 <= k && events[k].stage == Crossing && events[0] == Phase(at, at + cfg.cancelTimeout)
    && CancelPhase(cfg, at + cfg.cancelTimeout, h, at, busy, events[1..k], events[k].h, events[k].at, events[k].busy)
    && ClosesAll(events[k].h, cfg, events[k + 1..]) && (Flat(h') || at' >= events[k].at + cfg.flattenTimeout)
    && (forall i :: k < i < |events| ==> events[i].Handled? || (events[i].Sent? && events[i].at == events[k].at && !events[i].request.CancelRequest?))
    && (forall i, j :: k < i < j < |events| && events[j].Sent? ==> events[i].Sent?)
  }

  /** The whole flattening, from its first look at the positions to the handler and time it ends with.
      `stopped` is where the rounds end. */
  ghost predicate Flattens(cfg: Config, deadline: int, h: Handler, at: int, busy: int, events: seq<Event>, stopped: nat, h': Handler, at': int) {
    if Flat(h) then events == [] && h' == h && at' == at
    else
      && stopped < |events| && events[stopped].Seen? && events[stopped].stage == Stopped
      && var m := events[stopped];
         && Rounds(cfg, deadline, h, at, busy, events[..stopped], m.h, m.at, m.busy) && (Flat(m.h) || m.at >= deadline)
         && if Flat(m.h) || !cfg.marketFlatten then stopped == |events| - 1 && h' == m.h && at' == m.at
            else Crosses(cfg, m.h, m.at, m.busy, events[stopped + 1..], h', at')
  }

  lemma FlattensByRounds(cfg: Config, deadline: int, h: Handler, at: int, busy: int, rounds: seq<Event>, m: Event)
    requires !Flat(h) && m.Seen? && m.stage == Stopped && Rounds(cfg, deadline, h, at, busy, rounds, m.h, m.at, m.busy)
    requires (Flat(m.h) || m.at >= deadline) && (Flat(m.h) || !cfg.marketFlatten)
    ensures Flattens(cfg, deadline, h, at, busy, rounds + [m], |rounds|, m.h, m.at)
  {
    hide Flat, Rounds, Crosses;
    assert (rounds + [m])[..|rounds|] == rounds;
  }

  lemma FlattensByCrossing(cfg: Config, deadline: int, h: Handler, at: int, busy: int, rounds: seq<Event>,
                           m: Event, crossing: seq<Event>, h': Handler, at': int)
    requires !Flat(h) && m.Seen? && m.stage == Stopped && Rounds(cfg, deadline, h, at, busy, rounds, m.h, m.at, m.busy)
    requires !Flat(m.h) && m.at >= deadline && cfg.marketFlatten && Crosses(cfg, m.h, m.at, m.busy, crossing, h', at')
    ensures Flattens(cfg, deadline, h, at, busy, rounds + [m] + crossing, |rounds|, h', at')
  {
    hide Flat, Rounds, Crosses;
    var events := rounds + [m] + crossing;
    assert events[..|rounds|] == rounds && events[|rounds| + 1..] == crossing && events[|rounds|] == m;
  }
}
