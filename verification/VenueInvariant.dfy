/** What holds in every reachable state of handler, gateway, feed and venue. */
module VenueInvariant {
  import opened Strategy
  import opened HandlerModel
  import opened IndexInvariant
  import opened VenueModel

  /** One order, as the venue knows it. */
  ghost predicate OrderOk(owner: map<OrderNo, Cid>, foreign: set<OrderNo>, c: Cid, o: VenueOrder) {
    && o.lot >= 1 && o.sent > 0 && o.sent % o.lot == 0 && 2 * (o.sent - o.recorded) <= o.lot
    && 0 <= o.remaining <= o.sent && o.remaining % o.lot == 0
    && (o.phase == Requested ==> o.no == "" && o.reply == Unanswered && o.remaining == o.sent)
    && (o.phase == Live ==> o.no != "" && o.remaining > 0)
    && (o.acceptSeen ==> o.no != "")
    && (o.reply == OkInFlight ==> o.no != "")
    && (o.no != "" ==> o.no in owner && owner[o.no] == c && o.no !in foreign)
  }

  ghost predicate VenueOk(s: System) {
    && (forall c :: c in s.venue ==> OrderOk(s.owner, s.foreign, c, s.venue[c]))
    && (forall n :: n in s.owner ==> n != "" && s.owner[n] in s.venue && s.venue[s.owner[n]].no == n)
    && "" !in s.foreign
  }

  /** A place request came from a product the handler trades, under an issued cid; the handler
      knows the cid exactly as long as it tracks the order. */
  ghost predicate Known(h: Handler, c: Cid, o: VenueOrder) {
    && o.product in h.states && c <= h.lastCid
    && (c in h.cidProduct ==> RoutedTo(h, c, o.product))
    && (o.isLimit && c in h.cidProduct ==> c in h.states[o.product].outstanding)
  }

  ghost predicate KnownOk(s: System) {
    && (forall c :: c in s.venue ==> Known(s.h, c, s.venue[c]))
    && (forall c :: c in s.others ==> c !in s.h.cidProduct)
  }

  /** A session order whose own cid the handler dropped after the feed accepted it. */
  ghost predicate Orphan(s: System, c: Cid, p: Product) {
    c in s.venue && s.venue[c].product == p && c !in s.h.cidProduct && s.venue[c].acceptSeen
  }

  ghost predicate BindingOk(s: System, p: Product, d: Cid, no: OrderNo) {
    && no != ""
    && (d in s.venue ==> s.venue[d].product == p && s.venue[d].no == no)
    && (d !in s.venue ==> no in s.foreign || (no in s.owner && Orphan(s, s.owner[no], p)))
  }

  ghost predicate BindingsOk(s: System) {
    forall p, d :: p in s.h.states && d in s.h.states[p].cidToNo ==> BindingOk(s, p, d, s.h.states[p].cidToNo[d])
  }

  /** A cid that is no place request's was adopted off the feed: bound and outstanding. */
  ghost predicate AdoptedOk(s: System) {
    forall p, d :: p in s.h.states && RoutedTo(s.h, d, p) && d !in s.venue ==>
      d in s.h.states[p].cidToNo && d in s.h.states[p].outstanding
  }

  ghost predicate PlaceWaitOk(s: System, p: Product, c: Cid)
    requires p in s.h.states
  {
    c in s.venue && RoutedTo(s.h, c, p) && !s.venue[c].acceptSeen && c !in s.h.states[p].cidToNo
  }

  ghost predicate CancelWaitOk(s: System, p: Product, d: Cid)
    requires p in s.h.states
  {
    RoutedTo(s.h, d, p) && d in s.h.states[p].cidToNo && (d in s.venue ==> s.venue[d].reply == Closed)
  }

  /** The waiting sets: timed exactly while non-empty, and holding only routable cids. */
  ghost predicate WaitsOk(s: System) {
    forall p :: p in s.h.states ==>
      && (s.h.states[p].waitingSince == 0 <==> s.h.states[p].NoWaiting())
      && (forall c :: c in s.h.states[p].waitPlace ==> PlaceWaitOk(s, p, c))
      && (forall d :: d in s.h.states[p].waitCancel ==> CancelWaitOk(s, p, d))
  }

  /** A cancel in flight, or its reply, names the number its cid is still bound to if known. */
  ghost predicate CancelOk(s: System, d: Cid, no: OrderNo) {
    && d <= s.h.lastCid && (no in s.owner || no in s.foreign)
    && (forall p :: p in s.h.states && RoutedTo(s.h, d, p) ==> d in s.h.states[p].cidToNo && s.h.states[p].cidToNo[d] == no)
    && (d in s.venue ==> s.venue[d].reply == Closed)
  }

  ghost predicate GoneOk(s: System, no: OrderNo) {
    no in s.owner ==> s.owner[no] in s.venue && s.venue[s.owner[no]].phase == Dead
  }

  ghost predicate CancelsOk(s: System) {
    && (forall r :: r in s.cancels ==> CancelOk(s, r.cid, r.no))
    && (forall a :: a in s.cancelReplies ==> CancelOk(s, a.cid, a.no) && (a.success || a.gone ==> GoneOk(s, a.no)))
  }

  /** What is known when a message about `c` other than its acceptance is in the feed. */
  ghost predicate AcceptedBefore(s: System, c: Cid, i: nat)
    requires i <= |s.feed|
  {
    c in s.venue && s.venue[c].no != "" && (s.venue[c].acceptSeen || Accepted(c) in s.feed[..i])
  }

  /** Lots filled at the venue that the handler has not heard of. */
  function Pending(feed: seq<FeedMessage>, c: Cid): int {
    if |feed| == 0 then 0
    else (if feed[0].Filled? && feed[0].cid == c then feed[0].lots else 0) + Pending(feed[1..], c)
  }

  ghost predicate MessageOk(s: System, i: nat)
    requires i < |s.feed|
  {
    match s.feed[i]
    case Accepted(c) => c in s.venue && s.venue[c].no != "" && !s.venue[c].acceptSeen && Accepted(c) !in s.feed[..i]
    case Reported(c, left) => AcceptedBefore(s, c, i) && left == s.venue[c].remaining + Pending(s.feed[i + 1..], c)
    case Filled(c, lots) => lots > 0 && AcceptedBefore(s, c, i) && s.venue[c].lot >= 1 && lots % s.venue[c].lot == 0
    case Cancelled(c) => AcceptedBefore(s, c, i) && s.venue[c].phase == Dead
    case Rejected(c) => c in s.venue && s.venue[c].phase == Dead && s.venue[c].no == ""
    case Foreign(p, d) => d.orderNo in s.foreign && (d.clientCid.Some? ==> d.clientCid.value in s.others) && d.executeLots >= 0
  }

  ghost predicate FeedOk(s: System) {
    && (forall i :: 0 <= i < |s.feed| ==> MessageOk(s, i))
    && (forall c :: c in s.venue && s.venue[c].no != "" && !s.venue[c].acceptSeen ==> Accepted(c) in s.feed)
  }

  /** What the venue has left of the order, plus the fills still on the way. */
  function Unheard(s: System, c: Cid): int
    requires c in s.venue
  {
    s.venue[c].remaining + Pending(s.feed, c)
  }

  /** Recorded remainders differ from the venue's only by the lot snapping and by fills in flight. */
  ghost predicate FillsOk(s: System) {
    && (forall c :: c in s.venue && !s.venue[c].acceptSeen ==> s.venue[c].sent == Unheard(s, c))
    && (forall p, d :: p in s.h.states && d in s.h.states[p].outstanding ==> RemainderOk(s, p, d))
  }

  ghost predicate RemainderOk(s: System, p: Product, d: Cid)
    requires p in s.h.states && d in s.h.states[p].outstanding
  {
    var st := s.h.states[p];
    && (d in s.venue ==> st.outstanding[d].qty == s.venue[d].recorded - s.venue[d].sent + Unheard(s, d))
    && (d !in s.venue && d in st.cidToNo && st.cidToNo[d] in s.owner && s.owner[st.cidToNo[d]] in s.venue ==>
          st.outstanding[d].qty == Unheard(s, s.owner[st.cidToNo[d]]))
  }

  ghost predicate TracksByNumber(h: Handler, p: Product, no: OrderNo) {
    p in h.states && no in h.states[p].noToCid && h.states[p].noToCid[no] in h.states[p].outstanding
  }

  ghost predicate Tracked(s: System, c: Cid)
    requires c in s.venue
  {
    c in s.h.cidProduct || TracksByNumber(s.h, s.venue[c].product, s.venue[c].no)
  }

  ghost predicate MustTrack(s: System, c: Cid) {
    c in s.venue && s.venue[c].phase == Live && s.venue[c].isLimit && s.venue[c].acceptSeen
  }

  /** A live order whose acceptance the handler has seen is tracked. */
  ghost predicate LiveOk(s: System) {
    forall c :: MustTrack(s, c) ==> Tracked(s, c)
  }

  /** As long as no wait was given up on, an outstanding order is bound or awaits its place reply. */
  ghost predicate UntimedOk(s: System) {
    !s.timedOut ==> forall p, d :: p in s.h.states && d in s.h.states[p].outstanding ==>
      d in s.h.states[p].cidToNo || d in s.h.states[p].waitPlace
  }

  ghost predicate Inv(s: System) {
    && Indexed(s.h) && VenueOk(s) && KnownOk(s) && BindingsOk(s) && AdoptedOk(s) && WaitsOk(s)
    && CancelsOk(s) && FeedOk(s) && FillsOk(s) && LiveOk(s) && UntimedOk(s)
  }

  lemma InitialInv(s: System)
    requires Initial(s)
    ensures Inv(s)
  {
  }

  // ---- steps of the venue: the handler does not move ----

  /** The venue's record of an order moves on, keeping what the handler relies on. */
  ghost predicate Evolves(o: VenueOrder, o': VenueOrder) {
    && o' == o.(remaining := o'.remaining, phase := o'.phase, no := o'.no, reply := o'.reply)
    && (o.no != "" ==> o'.no == o.no)
    && (o.reply == Closed ==> o'.reply == Closed)
    && (o.phase == Dead ==> o'.phase == Dead && o'.no == o.no && o'.remaining == o.remaining)
    && (o.acceptSeen && o'.phase == Live ==> o.phase == Live)
  }

  ghost predicate VenueMoves(s: System, s': System) {
    && s'.h == s.h && s'.timedOut == s.timedOut && s'.others == s.others
    && s'.venue.Keys == s.venue.Keys
    && (forall c :: c in s.venue ==> Evolves(s.venue[c], s'.venue[c]))
    && s.foreign <= s'.foreign
    && (forall n :: n in s.owner ==> n in s'.owner && s'.owner[n] == s.owner[n])
  }

  lemma KnownUnmoved(s: System, s': System)
    requires KnownOk(s) && VenueMoves(s, s')
    ensures KnownOk(s')
  {
  }

  lemma BindingsUnmoved(s: System, s': System)
    requires BindingsOk(s) && VenueMoves(s, s')
    ensures BindingsOk(s')
  {
    forall p, d | p in s'.h.states && d in s'.h.states[p].cidToNo
      ensures BindingOk(s', p, d, s'.h.states[p].cidToNo[d])
    {
      assert BindingOk(s, p, d, s.h.states[p].cidToNo[d]);
    }
  }

  lemma AdoptedUnmoved(s: System, s': System)
    requires AdoptedOk(s) && VenueMoves(s, s')
    ensures AdoptedOk(s')
  {
  }

  lemma WaitsUnmoved(s: System, s': System)
    requires WaitsOk(s) && VenueMoves(s, s')
    ensures WaitsOk(s')
  {
  }

  lemma CancelsUnmoved(s: System, s': System, d: Cid, no: OrderNo)
    requires CancelOk(s, d, no) && VenueMoves(s, s')
    ensures CancelOk(s', d, no)
  {
  }

  lemma UntimedUnmoved(s: System, s': System)
    requires UntimedOk(s) && VenueMoves(s, s')
    ensures UntimedOk(s')
  {
  }

  /** New order numbers are not ones the handler could already have met. */
  ghost predicate FreshNumbers(s: System, s': System) {
    forall n :: n in s'.owner && n !in s.owner ==> n !in s.foreign
  }

  lemma CancelsStillOk(s: System, s': System)
    requires CancelsOk(s) && VenueMoves(s, s') && FreshNumbers(s, s')
    requires s'.cancels <= s.cancels
    requires forall a :: a in s'.cancelReplies && a !in s.cancelReplies ==>
      CancelOk(s, a.cid, a.no) && (a.success || a.gone ==> GoneOk(s', a.no))
    ensures CancelsOk(s')
  {
    hide CancelOk;
    forall r | r in s'.cancels
      ensures CancelOk(s', r.cid, r.no)
    {
      CancelsUnmoved(s, s', r.cid, r.no);
    }
    forall a | a in s'.cancelReplies
      ensures CancelOk(s', a.cid, a.no) && (a.success || a.gone ==> GoneOk(s', a.no))
    {
      CancelsUnmoved(s, s', a.cid, a.no);
      if a in s.cancelReplies {
        GoneStays(s, s', a);
      }
    }
  }

  lemma GoneStays(s: System, s': System, a: CancelReply)
    requires CancelOk(s, a.cid, a.no) && (a.success || a.gone ==> GoneOk(s, a.no)) && VenueMoves(s, s') && FreshNumbers(s, s')
    ensures a.success || a.gone ==> GoneOk(s', a.no)
  {
  }

  lemma MessageStays(s: System, s': System, i: nat)
    requires VenueMoves(s, s') && i < |s.feed| <= |s'.feed| <= |s.feed| + 1 && s'.feed[..|s.feed|] == s.feed && MessageOk(s, i)
    requires forall c :: c in s.venue ==> Unheard(s', c) == Unheard(s, c)
    ensures MessageOk(s', i)
  {
    assert s'.feed[..i] == s.feed[..i];
    assert s'.feed[i] == s.feed[i];
    if s.feed[i].Reported? {
      ReportStays(s, s', i, s.feed[i].cid);
    }
  }

  /** What an order's later fills leave open is the same, seen from any place in the feed. */
  lemma ReportStays(s: System, s': System, i: nat, c: Cid)
    requires i < |s.feed| <= |s'.feed| <= |s.feed| + 1 && s'.feed[..|s.feed|] == s.feed && c in s.venue && c in s'.venue
    requires Unheard(s', c) == Unheard(s, c)
    ensures s'.venue[c].remaining + Pending(s'.feed[i + 1..], c) == s.venue[c].remaining + Pending(s.feed[i + 1..], c)
  {
    if |s'.feed| == |s.feed| {
      assert s'.feed == s.feed;
    } else {
      var m := s'.feed[|s.feed|];
      assert s'.feed == s.feed + [m] && s'.feed[i + 1..] == s.feed[i + 1..] + [m];
      PendingAppend(s.feed, m, c);
      PendingAppend(s.feed[i + 1..], m, c);
    }
  }

  /** At most one message was added, and it may stand where it was added. */
  lemma FeedStillOk(s: System, s': System)
    requires FeedOk(s) && VenueMoves(s, s') && |s.feed| <= |s'.feed| <= |s.feed| + 1 && s'.feed[..|s.feed|] == s.feed
    requires |s'.feed| > |s.feed| ==> MessageOk(s', |s.feed|)
    requires forall c :: c in s'.venue && s'.venue[c].no != "" && s.venue[c].no == "" ==> Accepted(c) in s'.feed
    requires forall c :: c in s.venue ==> Unheard(s', c) == Unheard(s, c)
    ensures FeedOk(s')
  {
    hide MessageOk, Unheard;
    forall i | 0 <= i < |s'.feed|
      ensures MessageOk(s', i)
    {
      if i < |s.feed| {
        MessageStays(s, s', i);
      }
    }
    assert forall m :: m in s.feed ==> m in s'.feed[..|s.feed|];
  }

  lemma {:induction false} PendingAppend(feed: seq<FeedMessage>, m: FeedMessage, c: Cid)
    ensures Pending(feed + [m], c) == Pending(feed, c) + if m.Filled? && m.cid == c then m.lots else 0
  {
    if |feed| == 0 {
      assert feed + [m] == [m];
      assert [m][1..] == [];
    } else {
      PendingAppend(feed[1..], m, c);
      assert (feed + [m])[1..] == feed[1..] + [m];
    }
  }

  lemma FillsUnmoved(s: System, s': System)
    requires FillsOk(s) && BindingsOk(s) && VenueMoves(s, s') && FreshNumbers(s, s')
    requires forall c :: c in s.venue ==> Unheard(s', c) == Unheard(s, c)
    ensures FillsOk(s')
  {
    hide Unheard;
    forall p, d | p in s'.h.states && d in s'.h.states[p].outstanding
      ensures RemainderOk(s', p, d)
    {
      assert RemainderOk(s, p, d);
      if d in s.h.states[p].cidToNo {
        assert BindingOk(s, p, d, s.h.states[p].cidToNo[d]);
      }
    }
  }

  lemma LiveUnmoved(s: System, s': System)
    requires LiveOk(s) && VenueOk(s) && VenueMoves(s, s')
    ensures LiveOk(s')
  {
    forall c | MustTrack(s', c)
      ensures Tracked(s', c)
    {
      assert OrderOk(s.owner, s.foreign, c, s.venue[c]);
      assert MustTrack(s, c) && Tracked(s, c);
    }
  }

  lemma SameVenue(s: System, s': System)
    requires VenueOk(s) && s'.venue == s.venue && s'.owner == s.owner && s'.foreign == s.foreign
    ensures VenueOk(s')
  {
  }

  /** Everything the venue's step does not have to re-establish itself. */
  lemma VenueStepKeeps(s: System, s': System)
    requires Inv(s) && VenueMoves(s, s') && FreshNumbers(s, s') && VenueOk(s') && FeedOk(s') && CancelsOk(s')
    requires forall c :: c in s.venue ==> Unheard(s', c) == Unheard(s, c)
    ensures Inv(s')
  {
    hide Indexed, VenueOk, KnownOk, BindingsOk, AdoptedOk, WaitsOk, CancelsOk, FeedOk, FillsOk, LiveOk, UntimedOk, VenueMoves, FreshNumbers, Unheard;
    KnownUnmoved(s, s');
    BindingsUnmoved(s, s');
    AdoptedUnmoved(s, s');
    WaitsUnmoved(s, s');
    UntimedUnmoved(s, s');
    FillsUnmoved(s, s');
    LiveUnmoved(s, s');
    HandlerUnmoved(s, s');
  }

  lemma HandlerUnmoved(s: System, s': System)
    requires VenueMoves(s, s')
    ensures s'.h == s.h
  {
  }
}
