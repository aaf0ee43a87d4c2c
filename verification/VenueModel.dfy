/** The order handler together with what it talks to: a venue, the gateway's requests and
    replies in flight, and the execution feed. Replies and feed are not ordered against each
    other; every interleaving of the steps below is a run. */
module VenueModel {
  import opened Optional
  import opened Strategy
  import opened HandlerModel

  datatype Phase = Requested | Live | Dead

  /** Where the gateway's reply to a place request is. */
  datatype PlaceReply = Unanswered | OkInFlight | FailureInFlight | Closed

  /** One place request of this session and the venue's order for it. `recorded` is the size the
      handler recorded, `sent` the size it sent, both in default lots; `lot` is the product lot
      the size was snapped to. `acceptSeen`: the feed's acceptance has reached the handler. */
  datatype VenueOrder = VenueOrder(
    product: Product, isBid: bool, isLimit: bool,
    recorded: int, sent: int, lot: int, remaining: int,
    phase: Phase, no: OrderNo, reply: PlaceReply, acceptSeen: bool)

  datatype FeedMessage =
    | Accepted(cid: Cid)
    // an open-orders report: the order is live, with `left` lots open
    | Reported(cid: Cid, left: int)
    | Filled(cid: Cid, lots: int)
    | Cancelled(cid: Cid)
    | Rejected(cid: Cid)
    // anything about an order this session did not place
    | Foreign(product: Product, data: Execution)

  datatype CancelInFlight = CancelInFlight(cid: Cid, no: OrderNo)
  datatype CancelReply = CancelReply(cid: Cid, no: OrderNo, success: bool, gone: bool, echo: bool)

  datatype System = System(
    h: Handler,
    venue: map<Cid, VenueOrder>,
    owner: map<OrderNo, Cid>,          // the venue's index of this session's order numbers
    foreign: set<OrderNo>,             // numbers of other orders
    others: set<Cid>,                  // what their client order ids parse to
    cancels: set<CancelInFlight>,
    cancelReplies: set<CancelReply>,
    feed: seq<FeedMessage>,
    timedOut: bool)                    // some wait was given up on
  {
    function Set(c: Cid, o: VenueOrder): System { this.(venue := venue[c := o]) }
    function Tell(m: FeedMessage): System { this.(feed := feed + [m]) }
  }

  datatype Step =
    // the handler's own operations
    | Place(product: Product, isBid: bool, price: int, qty: int, isLimit: bool, reduceOnly: bool, now: int)
    | Cancel(product: Product, cid: Cid, now: int)
    | Timeout(product: Product)
    | Observe(product: Product, st: ProductState)
    | Link(listenerConnected: bool, shuttingDown: bool)
    // the venue
    | Accept(cid: Cid, no: OrderNo, answer: PlaceReply)
    | Refuse(cid: Cid, answer: PlaceReply, onFeed: bool)
    | Report(cid: Cid)
    | Trade(cid: Cid, lots: int)
    | Expire(cid: Cid)
    | TakeCancel(request: CancelInFlight, effect: bool, verdict: Option<CancelReply>, again: bool)
    | ForeignEvent(product: Product, data: Execution)
    // deliveries to the handler
    | DeliverPlaceReply(cid: Cid)
    | DeliverCancelReply(answered: CancelReply, again: bool)
    | DeliverFeed(now: int)

  function PlacedOrder(h: Handler, r: Request): VenueOrder
    requires r.PlaceRequest? && r.product in h.states
  {
    var lot := h.states[r.product].lot;
    VenueOrder(r.product, r.isBid, r.isLimit, r.recorded, r.qty,
               if lot.Some? && lot.value > 0 then lot.value else 1,
               r.qty, Requested, "", Unanswered, false)
  }

  function ToExecution(s: System, m: FeedMessage): (Product, Execution)
    requires !m.Foreign? ==> m.cid in s.venue
  {
    match m
    case Foreign(p, d) => (p, d)
    case Accepted(c) =>
      var o := s.venue[c];
      (o.product, Execution(Some(c), o.no, true, true, false, o.isBid, true, false, false, false, 0, true, o.sent, false, 0))
    case Reported(c, left) =>
      var o := s.venue[c];
      (o.product, Execution(Some(c), o.no, true, true, false, o.isBid, true, false, false, false, 0, left > 0, left, false, 0))
    case Filled(c, lots) =>
      var o := s.venue[c];
      (o.product, Execution(Some(c), o.no, false, false, false, o.isBid, false, false, true, false, 0, false, 0, true, lots))
    case Cancelled(c) =>
      var o := s.venue[c];
      (o.product, Execution(Some(c), o.no, true, false, true, o.isBid, false, false, false, false, 0, false, 0, false, 0))
    case Rejected(c) =>
      var o := s.venue[c];
      (o.product, Execution(Some(c), "", true, false, false, o.isBid, false, true, false, false, 0, false, 0, false, 0))
  }

  /** Fields of a product's state that order tracking does not touch may change at any time. */
  ghost predicate SameOrders(st: ProductState, st': ProductState) {
    && st'.outstanding == st.outstanding && st'.cidToNo == st.cidToNo && st'.noToCid == st.noToCid
    && st'.waitPlace == st.waitPlace && st'.waitCancel == st.waitCancel && st'.waitingSince == st.waitingSince
  }

  /** The cid the handler would reserve next. */
  function NextCid(h: Handler, now: int): Cid
    requires now >= 0
  {
    if now <= h.lastCid then h.lastCid + 1 else now
  }

  /** When a step can happen. The environment's promises are here: order numbers are fresh and not
      empty; a fill is a whole number of product lots; the clock is positive; a cancel is answered
      with success, or as unknown, only when the order is no longer live; the client order ids of
      other orders are none this session issues; an order is reported open only while it is live,
      in order with the rest of its feed. That cids lead to known
      products is no promise: it is what OnOrderResponse needs, and it holds in every reachable state. */
  ghost predicate Possible(s: System, step: Step) {
    match step
    case Place(p, isBid, price, qty, isLimit, reduceOnly, now) => p in s.h.states && now > 0 && NextCid(s.h, now) !in s.others
    case Cancel(p, cid, now) => p in s.h.states && now > 0
    case Timeout(p) => p in s.h.states
    case Observe(p, st) => p in s.h.states && SameOrders(s.h.states[p], st)
    case Link(_, _) => true
    case Accept(c, no, answer) =>
      c in s.venue && s.venue[c].phase == Requested && no != "" && no !in s.owner && no !in s.foreign && answer != Unanswered
    case Refuse(c, answer, onFeed) =>
      c in s.venue && s.venue[c].phase == Requested && (answer == FailureInFlight || answer == Closed)
    case Report(c) => c in s.venue && s.venue[c].phase == Live
    case Trade(c, lots) =>
      c in s.venue && s.venue[c].phase == Live && 0 < lots <= s.venue[c].remaining && s.venue[c].lot > 0 && lots % s.venue[c].lot == 0
    case Expire(c) => c in s.venue && s.venue[c].phase == Live
    case TakeCancel(request, effect, verdict, again) =>
      && request in s.cancels
      && (verdict.Some? ==>
            && verdict.value.cid == request.cid && verdict.value.no == request.no
            && ((verdict.value.success || verdict.value.gone) && request.no in s.owner && s.owner[request.no] in s.venue ==>
                  effect || s.venue[s.owner[request.no]].phase == Dead))
    case ForeignEvent(p, d) =>
      (d.clientCid.Some? ==> d.clientCid.value in s.others) && d.orderNo != "" && d.orderNo !in s.owner && d.executeLots >= 0
    case DeliverPlaceReply(c) => c in s.venue && (s.venue[c].reply == OkInFlight || s.venue[c].reply == FailureInFlight) && CidsRouted(s.h)
    case DeliverCancelReply(answered, again) => answered in s.cancelReplies && CidsRouted(s.h)
    case DeliverFeed(now) =>
      now > 0 && NextCid(s.h, now) !in s.others && |s.feed| > 0 && (!s.feed[0].Foreign? ==> s.feed[0].cid in s.venue)
  }

  /** The last promise: a cancel for an order is not sent while the reply to its place request is
      still to come. */
  ghost predicate Enabled(s: System, step: Step) {
    Possible(s, step) && (step.Cancel? && step.cid in s.venue ==> s.venue[step.cid].reply == Closed)
  }

  function Kill(s: System, c: Cid): System
    requires c in s.venue
  {
    if s.venue[c].phase == Live then s.Set(c, s.venue[c].(phase := Dead)).Tell(Cancelled(c)) else s
  }

  ghost function Next(s: System, step: Step): System
    requires Possible(s, step)
  {
    match step
    case Place(p, isBid, price, qty, isLimit, reduceOnly, now) =>
      var out := SubmitPlace(s.h, p, isBid, price, qty, isLimit, reduceOnly, now);
      var s1 := s.(h := out.handler);
      if |out.requests| == 0 then s1 else s1.Set(out.requests[0].cid, PlacedOrder(s.h, out.requests[0]))
    case Cancel(p, cid, now) =>
      var sent := if cid in s.h.states[p].cidToNo then {CancelInFlight(cid, s.h.states[p].cidToNo[cid])} else {};
      s.(h := SubmitCancel(s.h, p, cid, now).handler, cancels := s.cancels + sent)
    case Timeout(p) => s.(h := ClearWaits(s.h, p), timedOut := true)
    case Observe(p, st) => s.(h := s.h.With(p, st))
    case Link(connected, down) => s.(h := s.h.(listenerConnected := connected, shuttingDown := down))
    case Accept(c, no, answer) =>
      s.Set(c, s.venue[c].(phase := Live, no := no, reply := answer)).Tell(Accepted(c)).(owner := s.owner[no := c])
    case Refuse(c, answer, onFeed) =>
      var s1 := s.Set(c, s.venue[c].(phase := Dead, reply := answer));
      if onFeed then s1.Tell(Rejected(c)) else s1
    case Report(c) => s.Tell(Reported(c, s.venue[c].remaining))
    case Trade(c, lots) =>
      var left := s.venue[c].remaining - lots;
      s.Set(c, s.venue[c].(remaining := left, phase := if left == 0 then Dead else Live)).Tell(Filled(c, lots))
    case Expire(c) => Kill(s, c)
    case TakeCancel(request, effect, verdict, again) =>
      var s1 := if effect && request.no in s.owner && s.owner[request.no] in s.venue then Kill(s, s.owner[request.no]) else s;
      s1.(cancels := if again then s.cancels else s.cancels - {request},
          cancelReplies := s.cancelReplies + if verdict.Some? then {verdict.value} else {})
    case ForeignEvent(p, d) => s.Tell(Foreign(p, d)).(foreign := s.foreign + {d.orderNo})
    case DeliverPlaceReply(c) =>
      var o := s.venue[c];
      var r := Response(c, o.reply == OkInFlight, if o.reply == OkInFlight then o.no else "", false);
      s.(h := OnOrderResponse(s.h, r)).Set(c, o.(reply := Closed))
    case DeliverCancelReply(a, again) =>
      var r := Response(a.cid, a.success, if a.echo then a.no else "", a.gone);
      s.(h := OnOrderResponse(s.h, r), cancelReplies := if again then s.cancelReplies else s.cancelReplies - {a})
    case DeliverFeed(now) =>
      var m := s.feed[0];
      var (p, d) := ToExecution(s, m);
      var s1 := s.(h := OnExecution(s.h, p, d, now), feed := s.feed[1..]);
      if m.Accepted? then s1.Set(m.cid, s.venue[m.cid].(acceptSeen := true)) else s1
  }

  ghost predicate Runs(s: System, steps: seq<Step>)
    decreases |steps|
  {
    |steps| == 0 || (Enabled(s, steps[0]) && Runs(Next(s, steps[0]), steps[1..]))
  }

  ghost function After(s: System, steps: seq<Step>): System
    requires Runs(s, steps)
    decreases |steps|
  {
    if |steps| == 0 then s else After(Next(s, steps[0]), steps[1..])
  }

  /** A freshly constructed handler for the given products, nothing in flight. */
  ghost predicate Initial(s: System) {
    && "" !in s.h.states
    && (forall p :: p in s.h.states ==>
          var st := s.h.states[p];
          st.outstanding == map[] && st.cidToNo == map[] && st.noToCid == map[] && st.NoWaiting() && st.waitingSince == 0)
    && s.h.cidProduct == map[] && s.h.noProduct == map[]
    && s.venue == map[] && s.owner == map[] && s.foreign == {} && s.cancels == {} && s.cancelReplies == {} && s.feed == []
    && !s.timedOut
  }
}
