/** What holds on every run of handler, gateway, feed and venue, and the two assumptions about the
    environment without which it does not. */
module VenueTheorems {
  import opened Optional
  import opened Rounding
  import opened Ladders
  import opened Strategy
  import opened StrategyProofs
  import opened HandlerModel
  import opened IndexInvariant
  import opened VenueModel
  import opened VenueInvariant
  import opened VenueSteps
  import opened HandlerSteps
  import opened HandlerPlaces
  import opened HandlerFeed
  import opened FeedDelivery
  import opened Deliveries
  import opened DecisionProofs
  import opened ShutdownModel

  lemma DeliverFeedKeepsInv(s: System, now: int)
    requires Inv(s) && Enabled(s, DeliverFeed(now))
    ensures Inv(Next(s, DeliverFeed(now)))
  {
    hide Inv;
    match s.feed[0]
    case Accepted(_) => DeliverAccepted(s, now);
    case Reported(_, _) => DeliverReported(s, now);
    case Filled(_, _) => DeliverFill(s, now);
    case Cancelled(_) => DeliverEnd(s, now);
    case Rejected(_) => DeliverEnd(s, now);
    case Foreign(_, _) => DeliverForeign(s, now);
  }

  lemma StepKeepsInv(s: System, step: Step)
    requires Inv(s) && Enabled(s, step)
    ensures Inv(Next(s, step))
  {
    hide Inv, Enabled, Possible, Next;
    match step
    case Place(p, isBid, price, qty, isLimit, reduceOnly, now) => PlaceKeepsInv(s, p, isBid, price, qty, isLimit, reduceOnly, now);
    case Cancel(p, cid, now) => HandlerSteps.CancelKeepsInv(s, p, cid, now);
    case Timeout(p) => TimeoutKeepsInv(s, p);
    case Observe(p, st) => ObserveKeepsInv(s, p, st);
    case Link(connected, down) => LinkKeepsInv(s, connected, down);
    case Accept(c, no, answer) => AcceptKeepsInv(s, c, no, answer);
    case Refuse(c, answer, onFeed) => RefuseKeepsInv(s, c, answer, onFeed);
    case Report(c) => ReportKeepsInv(s, c);
    case Trade(c, lots) => TradeKeepsInv(s, c, lots);
    case Expire(c) => ExpireKeepsInv(s, c);
    case TakeCancel(request, effect, verdict, again) => TakeCancelKeepsInv(s, request, effect, verdict, again);
    case ForeignEvent(p, d) => ForeignEventKeepsInv(s, p, d);
    case DeliverPlaceReply(c) => DeliverPlaceReplyKeepsInv(s, c);
    case DeliverCancelReply(a, again) => DeliverCancelReplyKeepsInv(s, a, again);
    case DeliverFeed(now) => DeliverFeedKeepsInv(s, now);
  }

  lemma ExpireKeepsInv(s: System, c: Cid)
    requires Inv(s) && Enabled(s, Expire(c))
    ensures Inv(Next(s, Expire(c)))
  {
    hide Inv;
    KillKeepsInv(s, c);
  }

  lemma {:induction false} RunKeepsInv(s: System, steps: seq<Step>)
    requires Inv(s) && Runs(s, steps)
    ensures Inv(After(s, steps))
    decreases |steps|
  {
    hide Inv, Possible, Next;
    if |steps| > 0 {
      StepKeepsInv(s, steps[0]);
      RunKeepsInv(Next(s, steps[0]), steps[1..]);
    }
  }

  /** A constructed handler with nothing in flight is where every run starts. */
  ghost function FreshSystem(products: seq<Product>, others: set<Cid>): System {
    System(FreshHandler(products), map[], map[], {}, others, {}, {}, [], false)
  }

  lemma FreshIsInitial(products: seq<Product>, others: set<Cid>)
    ensures Initial(FreshSystem(products, others)) <==> "" !in products
  {
  }

  lemma ReachableInv(s0: System, steps: seq<Step>)
    requires Initial(s0) && Runs(s0, steps)
    ensures Inv(After(s0, steps))
  {
    hide Inv, Initial, Runs, After;
    InitialInv(s0);
    RunKeepsInv(s0, steps);
  }

  // ---- no live order is lost ----

  ghost predicate Resting(s: System, c: Cid) {
    c in s.venue && s.venue[c].phase == Live && s.venue[c].isLimit
  }

  /** The handler's outstanding orders contain `c`, under its own cid or under the cid it was
      adopted as. */
  ghost predicate IsOutstanding(s: System, c: Cid)
    requires c in s.venue
  {
    var p := s.venue[c].product;
    p in s.h.states && (c in s.h.states[p].outstanding || TracksByNumber(s.h, p, s.venue[c].no))
  }

  /** Every order this session placed that rests at the venue is among the outstanding orders,
      or its acceptance is still in the feed. */
  lemma NoLiveOrderLost(s0: System, steps: seq<Step>)
    requires Initial(s0) && Runs(s0, steps)
    ensures var s := After(s0, steps);
      forall c :: Resting(s, c) ==> IsOutstanding(s, c) || Accepted(c) in s.feed
  {
    hide Inv, Initial, Runs, After;
    ReachableInv(s0, steps);
    var s := After(s0, steps);
    forall c | Resting(s, c)
      ensures IsOutstanding(s, c) || Accepted(c) in s.feed
    {
      RestingFacts(s, c);
    }
  }

  lemma RestingFacts(s: System, c: Cid)
    requires Inv(s) && Resting(s, c)
    ensures IsOutstanding(s, c) || Accepted(c) in s.feed
  {
    hide Indexed, BindingsOk, AdoptedOk, WaitsOk, CancelsOk, FillsOk, UntimedOk;
    assert OrderOk(s.owner, s.foreign, c, s.venue[c]);
    assert Known(s.h, c, s.venue[c]);
    if s.venue[c].acceptSeen {
      assert MustTrack(s, c) && Tracked(s, c);
    }
  }

  /** What the shutdown's end means at the venue: once nothing is outstanding, no order of this
      session rests there but one whose acceptance has not been heard yet. */
  lemma NothingOutstandingNothingRests(s0: System, steps: seq<Step>)
    requires Initial(s0) && Runs(s0, steps) && NothingOutstanding(After(s0, steps).h)
    ensures var s := After(s0, steps); forall c :: Resting(s, c) ==> Accepted(c) in s.feed
  {
    hide Initial, Runs, After;
    NoLiveOrderLost(s0, steps);
    var s := After(s0, steps);
    forall c | Resting(s, c)
      ensures Accepted(c) in s.feed
    {
      assert s.venue[c].product in s.h.states ==> s.h.states[s.venue[c].product].outstanding == map[];
    }
  }

  /** The order indexes agree in every reachable state. */
  lemma IndexesAgree(s0: System, steps: seq<Step>)
    requires Initial(s0) && Runs(s0, steps)
    ensures Indexed(After(s0, steps).h) && CidsRouted(After(s0, steps).h)
  {
    hide Initial, Runs, After, Indexed, VenueOk, KnownOk, BindingsOk, AdoptedOk, WaitsOk, CancelsOk, FeedOk, FillsOk, LiveOk, UntimedOk, CidsRouted;
    ReachableInv(s0, steps);
    IndexedRouted(After(s0, steps).h);
  }

  lemma IndexedRouted(h: Handler)
    requires Indexed(h)
    ensures CidsRouted(h)
  {
  }

  // ---- the waiting sets ----

  /** The wait is timed exactly while there is one; whatever is waited on can still be routed; and
      until a wait has been given up on, every outstanding order has its number or awaits it. */
  ghost predicate WaitsDisciplined(h: Handler, p: Product, timedOut: bool)
    requires p in h.states
  {
    var st := h.states[p];
    && (st.waitingSince == 0 <==> st.waitPlace == {} && st.waitCancel == {})
    && (forall c :: c in st.waitPlace + st.waitCancel ==> RoutedTo(h, c, p))
    && (!timedOut ==> forall c :: c in st.outstanding ==> c in st.cidToNo || c in st.waitPlace)
  }

  lemma WaitingDiscipline(s0: System, steps: seq<Step>)
    requires Initial(s0) && Runs(s0, steps)
    ensures var s := After(s0, steps); forall p :: p in s.h.states ==> WaitsDisciplined(s.h, p, s.timedOut)
  {
    hide Inv, Initial, Runs, After;
    ReachableInv(s0, steps);
    var s := After(s0, steps);
    forall p | p in s.h.states
      ensures WaitsDisciplined(s.h, p, s.timedOut)
    {
      WaitFacts(s, p);
      UntimedFacts(s, p);
    }
  }

  lemma UntimedFacts(s: System, p: Product)
    requires Inv(s) && p in s.h.states
    ensures !s.timedOut ==> forall c :: c in s.h.states[p].outstanding ==> c in s.h.states[p].cidToNo || c in s.h.states[p].waitPlace
  {
    hide Indexed, VenueOk, KnownOk, BindingsOk, AdoptedOk, WaitsOk, CancelsOk, FeedOk, FillsOk, LiveOk;
  }

  /** A reachable state in which no wait has been given up on is settled once nothing is awaited. */
  lemma SettledWhenIdle(s0: System, steps: seq<Step>, p: Product)
    requires Initial(s0) && Runs(s0, steps)
    requires var s := After(s0, steps); !s.timedOut && p in s.h.states && s.h.states[p].NoWaiting()
    ensures Settled(After(s0, steps).h, p)
  {
    hide Inv, Initial, Runs, After, Indexed;
    ReachableInv(s0, steps);
    UntimedFacts(After(s0, steps), p);
    WaitFacts(After(s0, steps), p);
  }

  /** Unless a wait has been given up on, no cancel a decision makes is dropped: each goes out,
      for the number its order is bound to. */
  lemma NoCancelDropped(s0: System, steps: seq<Step>, cfg: Config, p: Product, liquidate: bool, now: int)
    requires Initial(s0) && Runs(s0, steps) && now >= 0
    requires var s := After(s0, steps);
      && !s.timedOut && ReadyToDecide(s.h, p, liquidate) && s.h.states[p].NoWaiting()
      && DecideFor(s.h.states[p], cfg, liquidate, now).Some?
    ensures var h := After(s0, steps).h;
      forall c :: c in CancelSet(DecideFor(h.states[p], cfg, liquidate, now).value) ==>
        c in h.states[p].cidToNo && CancelRequest(p, c, h.states[p].cidToNo[c]) in UpdateOrders(h, cfg, p, liquidate, now).requests
  {
    hide Inv, Initial, Runs, After, Indexed, CancelSet, SubmitCancels, SubmitPlaces, BuildPriceInfo, RestingOrders, WantedBids, WantedAsks;
    SettledWhenIdle(s0, steps, p);
    var h := After(s0, steps).h;
    var st := h.states[p];
    var d := DecideFor(st, cfg, liquidate, now).value;
    var info := BuildPriceInfo(st, cfg.fairPriceMaxAge, now).value;
    DecisionCancels(st, d, WantedBids(cfg.params, info, liquidate, st.position), WantedAsks(cfg.params, info, liquidate, st.position),
                    BufferTolerance(cfg.params, liquidate));
    forall c | c in CancelSet(d)
      ensures CancelRequest(p, c, st.cidToNo[c]) in Send(h, p, d, now).requests
    {
      CancelGoesOut(h, p, d, now, c);
    }
  }

  /** From the constructed handler a product becomes ready for its first decision as soon as the
      listener's link is up and the product's market, with its tick, has been observed. */
  lemma ReadyOnceObserved(products: seq<Product>, others: set<Cid>, p: Product, market: ProductState, liquidate: bool)
    requires "" !in products && p in products && SameOrders(FreshState(), market) && market.tick.Some?
    ensures var s0, steps := FreshSystem(products, others), [Link(true, false), Observe(p, market)];
      && Initial(s0) && Runs(s0, steps)
      && var s := After(s0, steps);
         ReadyToDecide(s.h, p, liquidate) && s.h.states[p] == market && market.NoWaiting() && !s.timedOut
  {
    var s0 := FreshSystem(products, others);
    var s1 := Next(s0, Link(true, false));
    OneStepRuns(s1, Observe(p, market));
    assert [Link(true, false), Observe(p, market)][1..] == [Observe(p, market)];
  }

  lemma CancelGoesOut(h: Handler, p: Product, d: Pairing, now: int, c: Cid)
    requires p in h.states && now >= 0 && c in CancelSet(d) && forall x :: x in CancelSet(d) ==> x in h.states[p].cidToNo
    ensures CancelRequest(p, c, h.states[p].cidToNo[c]) in Send(h, p, d, now).requests
  {
    hide SubmitCancels, SubmitPlaces;
    assert forall i :: 0 <= i < |d.bidCancels| ==> d.bidCancels[i] in CancelSet(d);
    assert forall i :: 0 <= i < |d.askCancels| ==> d.askCancels[i] in CancelSet(d);
    var s1 := SubmitCancels(h, p, d.bidCancels, now);
    var s2 := SubmitCancels(s1.handler, p, d.askCancels, now);
    CancelsSent(h, p, d.bidCancels, now);
    CancelsSent(s1.handler, p, d.askCancels, now);
    if c in d.bidCancels {
      var i :| 0 <= i < |d.bidCancels| && d.bidCancels[i] == c;
      assert s1.requests[i] == CancelRequest(p, c, h.states[p].cidToNo[c]);
    } else {
      var i :| 0 <= i < |d.askCancels| && d.askCancels[i] == c;
      assert s2.requests[i] == CancelRequest(p, c, h.states[p].cidToNo[c]);
    }
  }

  // ---- fills ----

  /** The fill at the head of the feed, delivered, makes the handler forget a resting order exactly
      when nothing of the order remains, at the venue or in the feed, and no more was recorded
      than sent. */
  lemma FillForgetsIff(s0: System, steps: seq<Step>, c: Cid, lots: int, now: int)
    requires Initial(s0) && Runs(s0, steps)
    requires var s := After(s0, steps);
      && Enabled(s, DeliverFeed(now)) && s.feed[0] == Filled(c, lots)
      && c in s.h.cidProduct && s.venue[c].isLimit
    ensures var s := After(s0, steps);
      var s' := Next(s, DeliverFeed(now));
      && c in s.venue && c in s'.venue
      && (c !in s'.h.cidProduct <==> Unheard(s', c) == 0 && s.venue[c].recorded <= s.venue[c].sent)
      && (c !in s'.h.cidProduct ==> s'.venue[c].remaining == 0)
  {
    hide Inv, Initial, Runs, After, OnExecution, Unheard;
    ReachableInv(s0, steps);
    var s := After(s0, steps);
    var s' := Next(s, DeliverFeed(now));
    var p := s.venue[c].product;
    ProductKnown(s, c);
    HeadFill(s);
    RemainderFacts(s, p, c);
    OrderFacts(s, c);
    FillByCid(s, c, lots, now, p, ToExecution(s, s.feed[0]).1);
    SameAfterHead(s, s', c, lots);
    UnheardInLots(s, c);
    var o := s.venue[c];
    ForgetsWhenNothingLeft(o.recorded, o.sent, o.lot, Unheard(s', c));
  }

  lemma SameAfterHead(s: System, s': System, c: Cid, lots: int)
    requires Inv(s) && |s.feed| > 0 && s.feed[0] == Filled(c, lots) && s'.feed == s.feed[1..] && s'.venue == s.venue && c in s.venue
    ensures Unheard(s', c) == Unheard(s, c) - lots && Unheard(s', c) >= s'.venue[c].remaining
  {
    hide Inv;
    HeadFill(s);
    UnheardBehind(s, s', c);
  }

  /** A fill routed by the order's own cid forgets it exactly when it uses up what is recorded. */
  lemma FillByCid(s: System, c: Cid, lots: int, now: int, p: Product, d: Execution)
    requires Inv(s) && now > 0 && |s.feed| > 0 && s.feed[0] == Filled(c, lots) && c in s.h.cidProduct
    requires c in s.venue && p == s.venue[c].product && d == ToExecution(s, s.feed[0]).1
    requires p in s.h.states && c in s.h.states[p].outstanding
    ensures c !in OnExecution(s.h, p, d, now).cidProduct <==> s.h.states[p].outstanding[c].qty <= lots
  {
    hide Inv, Route, StopWaiting, ForgetOrder;
    RouteOfOwn(s, c, d);
    ForgottenIsUnrouted(s.h, p, c);
  }

  lemma ForgottenIsUnrouted(h: Handler, p: Product, c: Cid)
    requires p in h.states
    ensures c !in StopWaiting(ForgetOrder(h, p, c), p, c, true, true).cidProduct
  {
  }

  /** Everything unheard of an order is a whole number of its lots. */
  lemma UnheardInLots(s: System, c: Cid)
    requires Inv(s) && |s.feed| > 0 && s.feed[0].Filled? && s.feed[0].cid == c && c in s.venue
    ensures s.venue[c].lot >= 1 && Unheard(s, c) % s.venue[c].lot == 0 && (Unheard(s, c) - s.feed[0].lots) % s.venue[c].lot == 0
  {
    hide Indexed, KnownOk, BindingsOk, AdoptedOk, WaitsOk, CancelsOk, FillsOk, LiveOk, UntimedOk;
    var lot := s.venue[c].lot;
    assert OrderOk(s.owner, s.foreign, c, s.venue[c]);
    forall i | 0 <= i < |s.feed|
      ensures s.feed[i].Filled? && s.feed[i].cid == c ==> s.feed[i].lots % lot == 0
    {
      assert MessageOk(s, i);
    }
    PendingInLots(s.feed, c, lot);
    MultiplesAdd(s.venue[c].remaining, Pending(s.feed, c), lot);
    MultiplesSubtract(Unheard(s, c), s.feed[0].lots, lot);
  }

  lemma {:induction false} PendingInLots(feed: seq<FeedMessage>, c: Cid, lot: int)
    requires lot >= 1
    requires forall i :: 0 <= i < |feed| ==> feed[i].Filled? && feed[i].cid == c ==> feed[i].lots % lot == 0
    ensures Pending(feed, c) % lot == 0
  {
    if |feed| > 0 {
      PendingInLots(feed[1..], c, lot);
      var head := if feed[0].Filled? && feed[0].cid == c then feed[0].lots else 0;
      MultiplesAdd(head, Pending(feed[1..], c), lot);
    }
  }

  lemma MultiplesAdd(a: int, b: int, m: int)
    requires m >= 1 && a % m == 0 && b % m == 0
    ensures (a + b) % m == 0
  {
    var i, j := a / m, b / m;
    assert a + b == (i + j) * m;
    MultipleHasNoRemainder(i + j, m);
  }

  lemma ForgetsWhenNothingLeft(recorded: int, sent: int, lot: int, unheard: int)
    requires lot >= 1 && unheard >= 0 && unheard % lot == 0 && 2 * (sent - recorded) <= lot
    ensures recorded - sent + unheard <= 0 <==> unheard == 0 && recorded <= sent
  {
  }

  // ---- a decision is a run ----

  lemma {:induction false} RunsAppend(s: System, a: seq<Step>, b: seq<Step>)
    requires Runs(s, a) && Runs(After(s, a), b)
    ensures Runs(s, a + b) && After(s, a + b) == After(After(s, a), b)
    decreases |a|
  {
    hide Possible, Next;
    if |a| == 0 {
      assert a + b == b;
    } else {
      RunsAppend(Next(s, a[0]), a[1..], b);
      assert (a + b)[1..] == a[1..] + b;
      assert (a + b)[0] == a[0];
    }
  }

  lemma OneStepRuns(s: System, step: Step)
    requires Enabled(s, step)
    ensures Runs(s, [step]) && After(s, [step]) == Next(s, step)
  {
    hide Possible, Next;
    assert [step][1..] == [];
  }

  function CancelSteps(p: Product, cids: seq<Cid>, now: int): seq<Step> {
    seq(|cids|, i requires 0 <= i < |cids| => Cancel(p, cids[i], now))
  }

  function PlaceSteps(p: Product, isBid: bool, quotes: seq<Quote>, now: int): seq<Step> {
    seq(|quotes|, i requires 0 <= i < |quotes| => Place(p, isBid, quotes[i].price, quotes[i].qty, true, false, now))
  }

  lemma {:induction false} CancelsRun(s: System, p: Product, cids: seq<Cid>, now: int)
    requires p in s.h.states && now > 0
    requires forall i :: 0 <= i < |cids| && cids[i] in s.venue ==> s.venue[cids[i]].reply == Closed
    ensures Runs(s, CancelSteps(p, cids, now))
    ensures var s' := After(s, CancelSteps(p, cids, now));
      s'.h == SubmitCancels(s.h, p, cids, now).handler && s'.venue == s.venue && s'.others == s.others
  {
    hide SubmitCancel;
    if |cids| > 0 {
      var n := |cids| - 1;
      CancelsRun(s, p, cids[..n], now);
      var s1 := After(s, CancelSteps(p, cids[..n], now));
      OneStepRuns(s1, Cancel(p, cids[n], now));
      RunsAppend(s, CancelSteps(p, cids[..n], now), [Cancel(p, cids[n], now)]);
      assert CancelSteps(p, cids, now) == CancelSteps(p, cids[..n], now) + [Cancel(p, cids[n], now)];
    }
  }

  /** The client order ids of other orders lie before the clock, as those of earlier sessions do. */
  ghost predicate ClockIsAhead(s: System, now: int) {
    forall c :: c in s.others ==> c < now
  }

  lemma PlaceStepHandler(s: System, p: Product, isBid: bool, quote: Quote, now: int)
    requires p in s.h.states && now > 0 && ClockIsAhead(s, now)
    ensures var step := Place(p, isBid, quote.price, quote.qty, true, false, now);
      && Enabled(s, step) && Next(s, step).others == s.others
      && Next(s, step).h == SubmitPlace(s.h, p, isBid, quote.price, quote.qty, true, false, now).handler
  {
    hide SnapTo, Record, ReserveCid;
  }

  lemma {:induction false} PlacesRun(s: System, p: Product, isBid: bool, quotes: seq<Quote>, now: int)
    requires p in s.h.states && now > 0 && ClockIsAhead(s, now)
    ensures Runs(s, PlaceSteps(p, isBid, quotes, now))
    ensures After(s, PlaceSteps(p, isBid, quotes, now)).h == SubmitPlaces(s.h, p, isBid, quotes, now).handler
    ensures After(s, PlaceSteps(p, isBid, quotes, now)).others == s.others
  {
    hide SubmitPlace, Enabled, Next;
    if |quotes| > 0 {
      var n := |quotes| - 1;
      var last := Place(p, isBid, quotes[n].price, quotes[n].qty, true, false, now);
      PlacesRun(s, p, isBid, quotes[..n], now);
      PlaceStepHandler(After(s, PlaceSteps(p, isBid, quotes[..n], now)), p, isBid, quotes[n], now);
      OneStepRuns(After(s, PlaceSteps(p, isBid, quotes[..n], now)), last);
      RunsAppend(s, PlaceSteps(p, isBid, quotes[..n], now), [last]);
      assert PlaceSteps(p, isBid, quotes, now) == PlaceSteps(p, isBid, quotes[..n], now) + [last];
    }
  }

  function SendSteps(p: Product, d: Pairing, now: int): seq<Step> {
    CancelSteps(p, d.bidCancels, now) + CancelSteps(p, d.askCancels, now)
    + PlaceSteps(p, true, d.bids, now) + PlaceSteps(p, false, d.asks, now)
  }

  lemma SendRuns(s: System, p: Product, d: Pairing, now: int)
    requires p in s.h.states && now > 0 && ClockIsAhead(s, now)
    requires forall c :: (c in d.bidCancels || c in d.askCancels) && c in s.venue ==> s.venue[c].reply == Closed
    ensures Runs(s, SendSteps(p, d, now)) && After(s, SendSteps(p, d, now)).h == Send(s.h, p, d, now).handler
  {
    hide SubmitCancels, SubmitPlaces, CancelSteps, PlaceSteps, Possible, Next;
    var c1, c2 := CancelSteps(p, d.bidCancels, now), CancelSteps(p, d.askCancels, now);
    var p1, p2 := PlaceSteps(p, true, d.bids, now), PlaceSteps(p, false, d.asks, now);
    CancelsRun(s, p, d.bidCancels, now);
    var s1 := After(s, c1);
    CancelsRun(s1, p, d.askCancels, now);
    RunsAppend(s, c1, c2);
    var s2 := After(s, c1 + c2);
    PlacesRun(s2, p, true, d.bids, now);
    RunsAppend(s, c1 + c2, p1);
    var s3 := After(s, c1 + c2 + p1);
    PlacesRun(s3, p, false, d.asks, now);
    RunsAppend(s, c1 + c2 + p1, p2);
  }

  ghost function DecisionSteps(h: Handler, cfg: Config, p: Product, liquidate: bool, now: int): seq<Step> {
    if !ReadyToDecide(h, p, liquidate) then []
    else
      var st := h.states[p];
      if !st.NoWaiting() && !TimedOut(st, now) then []
      else
        var d := DecideFor(st, cfg, liquidate, now);
        (if st.NoWaiting() then [] else [Timeout(p)]) + if d.Some? then SendSteps(p, d.value, now) else []
  }

  /** A decision is a run of the handler's own steps, so everything above holds after it, as long
      as the place replies of the orders it cancels have been consumed. */
  lemma DecisionIsARun(s: System, cfg: Config, p: Product, liquidate: bool, now: int)
    requires now > 0 && ClockIsAhead(s, now)
    requires p in s.h.states ==>
      var d := DecideFor(s.h.states[p], cfg, liquidate, now);
      d.Some? ==> forall c :: c in CancelSet(d.value) && c in s.venue ==> s.venue[c].reply == Closed
    ensures Runs(s, DecisionSteps(s.h, cfg, p, liquidate, now))
    ensures After(s, DecisionSteps(s.h, cfg, p, liquidate, now)).h == UpdateOrders(s.h, cfg, p, liquidate, now).handler
  {
    hide Send, SendSteps, CancelSet, Pair, RestingOrders, WantedBids, WantedAsks, BuildPriceInfo, Possible;
    if ReadyToDecide(s.h, p, liquidate) && (s.h.states[p].NoWaiting() || TimedOut(s.h.states[p], now)) {
      var st := s.h.states[p];
      var first: seq<Step> := if st.NoWaiting() then [] else [Timeout(p)];
      TimeoutRuns(s, p, first);
      var s1 := After(s, first);
      var decision := DecideFor(st, cfg, liquidate, now);
      if decision.Some? {
        CancelSetMembers(decision.value);
        SendRuns(s1, p, decision.value, now);
        RunsAppend(s, first, SendSteps(p, decision.value, now));
      } else {
        assert first + [] == first;
      }
      ClearedDecidesTheSame(st, cfg, liquidate, now);
    }
  }

  lemma CancelSetMembers(d: Pairing)
    ensures forall c :: c in d.bidCancels || c in d.askCancels ==> c in CancelSet(d)
  {
  }

  lemma TimeoutRuns(s: System, p: Product, steps: seq<Step>)
    requires p in s.h.states && (steps == [] || steps == [Timeout(p)])
    ensures Runs(s, steps)
    ensures After(s, steps).h == (if steps == [] then s.h else ClearWaits(s.h, p)) && After(s, steps).venue == s.venue
    ensures After(s, steps).others == s.others
  {
    if steps != [] {
      OneStepRuns(s, Timeout(p));
    }
  }

  lemma ClearedDecidesTheSame(st: ProductState, cfg: Config, liquidate: bool, now: int)
    ensures DecideFor(st.(waitPlace := {}, waitCancel := {}, waitingSince := 0), cfg, liquidate, now) == DecideFor(st, cfg, liquidate, now)
  {
    hide PriceInfoFrom;
  }

  // ---- without the assumptions ----

  /** A successful place reply keeps the order exactly when no cancel for it is awaited: with one,
      the reply is taken for the cancel's. */
  lemma PlaceReplyKeepsOrderIff(h: Handler, c: Cid, no: OrderNo)
    requires Indexed(h) && c in h.cidProduct && c in h.states[h.cidProduct[c]].outstanding
    ensures CidsRouted(h)
    ensures var p := h.cidProduct[c];
      var h' := OnOrderResponse(h, Response(c, true, no, false));
      c in h'.states[p].outstanding <==> c !in h.states[p].waitCancel
  {
    hide Inverse, NumbersRouted;
    var p := h.cidProduct[c];
    StopLeaves(h, p, c, true, true);
    BindLeaves(StopWaiting(h, p, c, true, true), p, c, no);
    hide StopWaiting, Bind;
  }

  /** A reported cancellation leaves only routable cids awaited exactly when the order's place
      reply was not awaited any more: the report does not clear that wait. */
  lemma CancelReportKeepsWaitsRoutableIff(h: Handler, product: Product, d: Execution, now: int)
    requires Indexed(h) && now >= 0 && d.isAcceptData && d.isCancel && !d.isRejected
    requires d.clientCid.Some? && d.clientCid.value in h.cidProduct
    requires var p := h.cidProduct[d.clientCid.value];
      p in h.states && forall c :: c in h.states[p].waitPlace ==> RoutedTo(h, c, p)
    ensures var p := h.cidProduct[d.clientCid.value];
      var h' := OnExecution(h, product, d, now);
      (forall c :: c in h'.states[p].waitPlace ==> RoutedTo(h', c, p)) <==> d.clientCid.value !in h.states[p].waitPlace
  {
    hide Indexed, Route, ForgetOrder, StopWaiting;
    var c := d.clientCid.value;
    var p := h.cidProduct[c];
    NoEmptyProduct(h);
    RouteKnown(h, product, d, p, c);
    CancelReportLeaves(h, p, c);
    var h' := StopWaiting(ForgetOrder(h, p, c), p, c, false, true);
    assert OnExecution(h, product, d, now) == h';
    if c in h.states[p].waitPlace {
      assert c in h'.states[p].waitPlace && !RoutedTo(h', c, p);
    } else {
      assert forall x :: x in h'.states[p].waitPlace ==> RoutedTo(h', x, p);
    }
  }

  lemma NoEmptyProduct(h: Handler)
    requires Indexed(h)
    ensures "" !in h.states
  {
  }

  lemma CancelReportLeaves(h: Handler, p: Product, c: Cid)
    requires p in h.states
    ensures var h' := StopWaiting(ForgetOrder(h, p, c), p, c, false, true);
      h'.states[p].waitPlace == h.states[p].waitPlace && h'.cidProduct == h.cidProduct - {c}
  {
  }

  // A run in which a cancel overtakes the reply to its place request.

  ghost function EmptySystem(): System {
    FreshSystem(["p"], {})
  }

  // The stages of that run: placed, accepted, acceptance heard, cancel sent, place reply consumed.

  ghost predicate Stage1(s: System) {
    && s.feed == [] && s.owner == map[] && s.foreign == {} && s.others == {} && s.h.states.Keys == {"p"} && s.h.cidProduct == map[1 := "p"]
    && s.venue == map[1 := VenueOrder("p", true, true, 5, 5, 1, 5, Requested, "", Unanswered, false)]
    && s.h.noProduct == map[]
    && s.h.states["p"] == FreshState().(outstanding := map[1 := Order(100, 5, true)], waitPlace := {1}, waitingSince := 1)
  }

  ghost predicate Stage3(s: System) {
    && s.feed == [] && s.others == {} && s.h.states.Keys == {"p"} && s.h.cidProduct == map[1 := "p"] && s.h.noProduct == map["n" := "p"]
    && s.venue == map[1 := VenueOrder("p", true, true, 5, 5, 1, 5, Live, "n", OkInFlight, true)]
    && s.h.states["p"] ==
         FreshState().(outstanding := map[1 := Order(100, 5, true)], cidToNo := map[1 := "n"], noToCid := map["n" := 1])
  }

  ghost predicate Lost(s: System) {
    Resting(s, 1) && !IsOutstanding(s, 1) && s.feed == [] && s.venue[1].reply == Closed
  }

  lemma ToStage1(s: System)
    requires s == EmptySystem()
    ensures Initial(s) && Possible(s, Place("p", true, 100, 5, true, false, 1))
    ensures Stage1(Next(s, Place("p", true, 100, 5, true, false, 1)))
  {
  }

  lemma ToStage3(s: System)
    requires Stage1(s)
    ensures Possible(s, Accept(1, "n", OkInFlight)) && Possible(Next(s, Accept(1, "n", OkInFlight)), DeliverFeed(2))
    ensures Stage3(Next(Next(s, Accept(1, "n", OkInFlight)), DeliverFeed(2)))
  {
    var s2 := Next(s, Accept(1, "n", OkInFlight));
    assert s2.feed == [Accepted(1)];
    assert s2.feed[1..] == [];
    var (p, d) := ToExecution(s2, Accepted(1));
    assert Route(s2.h, p, d) == Routed("p", Some(1));
  }

  lemma ToLost(s: System)
    requires Stage3(s)
    ensures Possible(s, Cancel("p", 1, 3)) && !Enabled(s, Cancel("p", 1, 3))
    ensures Possible(Next(s, Cancel("p", 1, 3)), DeliverPlaceReply(1))
    ensures Lost(Next(Next(s, Cancel("p", 1, 3)), DeliverPlaceReply(1)))
  {
    var s4 := Next(s, Cancel("p", 1, 3));
    assert s4.h.states["p"].waitCancel == {1};
  }

  /** Without the promise that no cancel overtakes its order's place reply, an order can rest at
      the venue unknown to the handler, with nothing in flight that would tell it. */
  lemma EarlyCancelLosesOrder() returns (s0: System, s1: System, s2: System, s3: System, s4: System, s5: System)
    ensures Initial(s0)
    ensures Enabled(s0, Place("p", true, 100, 5, true, false, 1)) && s1 == Next(s0, Place("p", true, 100, 5, true, false, 1))
    ensures Enabled(s1, Accept(1, "n", OkInFlight)) && s2 == Next(s1, Accept(1, "n", OkInFlight))
    ensures Enabled(s2, DeliverFeed(2)) && s3 == Next(s2, DeliverFeed(2))
    ensures Possible(s3, Cancel("p", 1, 3)) && !Enabled(s3, Cancel("p", 1, 3)) && s4 == Next(s3, Cancel("p", 1, 3))
    ensures Enabled(s4, DeliverPlaceReply(1)) && s5 == Next(s4, DeliverPlaceReply(1))
    ensures Resting(s5, 1) && !IsOutstanding(s5, 1) && s5.feed == []
  {
    hide Possible, Next, Stage1, Stage3, Initial;
    s0 := EmptySystem();
    ToStage1(s0);
    s1 := Next(s0, Place("p", true, 100, 5, true, false, 1));
    ToStage3(s1);
    s2 := Next(s1, Accept(1, "n", OkInFlight));
    s3 := Next(s2, DeliverFeed(2));
    ToLost(s3);
    s4 := Next(s3, Cancel("p", 1, 3));
    s5 := Next(s4, DeliverPlaceReply(1));
  }
}
