/** Each kind of feed message, delivered to the handler, keeps the invariant. */
module FeedDelivery {
  import opened Optional
  import opened Strategy
  import opened HandlerModel
  import opened IndexInvariant
  import opened VenueModel
  import opened VenueInvariant
  import opened VenueSteps
  import opened HandlerForgets
  import opened HandlerFeed

  lemma RouteFacts(s: System, c: Cid)
    requires Inv(s) && c in s.venue && RouteOf(s, c).Some?
    ensures var p, x := s.venue[c].product, RouteOf(s, c).value;
      && p in s.h.states && RoutedTo(s.h, x, p)
      && (x == c || (x !in s.venue && x in s.h.states[p].cidToNo && s.h.states[p].cidToNo[x] in s.owner
                     && s.owner[s.h.states[p].cidToNo[x]] == c && x in s.h.states[p].outstanding))
  {
    hide Inv;
    ProductKnown(s, c);
    if c !in s.h.cidProduct {
      var p, no := s.venue[c].product, s.venue[c].no;
      NumberRoute(s, p, no);
      OwnNumber(s, c);
      NumberLeadsHome(s, p, s.h.states[p].noToCid[no]);
      AdoptedIsOutstanding(s, p, s.h.states[p].noToCid[no]);
    }
  }

  lemma NumberRoute(s: System, q: Product, no: OrderNo)
    requires Inv(s) && q in s.h.states && no in s.h.states[q].noToCid
    ensures NumberOf(s.h, no, q) && no != ""
    ensures s.h.states[q].noToCid[no] in s.h.states[q].cidToNo && s.h.states[q].cidToNo[s.h.states[q].noToCid[no]] == no
  {
    hide KnownOk, AdoptedOk, WaitsOk, CancelsOk, FeedOk, FillsOk, LiveOk, UntimedOk, VenueOk;
    NumberIsBound(s, q, no);
  }

  lemma AdoptedIsOutstanding(s: System, q: Product, x: Cid)
    requires Inv(s) && q in s.h.states && RoutedTo(s.h, x, q) && x !in s.venue
    ensures x in s.h.states[q].outstanding
  {
    hide Indexed, KnownOk, BindingsOk, WaitsOk, CancelsOk, FeedOk, FillsOk, LiveOk, UntimedOk, VenueOk;
  }

  /** An order is routed to whatever tracks it. */
  lemma TrackerIsRoute(s: System, p: Product, d: Cid, c: Cid)
    requires Inv(s) && p in s.h.states && Tracks(s, p, d, c)
    ensures p == s.venue[c].product && RouteOf(s, c) == Some(d)
  {
    hide Inv;
    OutstandingIsRouted(s, p, d);
    ProductKnown(s, c);
    if d != c {
      NumberLeadsHome(s, p, d);
      BoundBack(s, p, d);
    }
  }

  lemma OutstandingIsRouted(s: System, p: Product, d: Cid)
    requires Inv(s) && p in s.h.states && d in s.h.states[p].outstanding
    ensures RoutedTo(s.h, d, p)
  {
    hide VenueOk, KnownOk, BindingsOk, AdoptedOk, WaitsOk, CancelsOk, FeedOk, FillsOk, LiveOk, UntimedOk;
  }

  lemma BoundBack(s: System, p: Product, d: Cid)
    requires Inv(s) && p in s.h.states && d in s.h.states[p].cidToNo
    ensures s.h.states[p].cidToNo[d] in s.h.states[p].noToCid && s.h.states[p].noToCid[s.h.states[p].cidToNo[d]] == d
    ensures RoutedTo(s.h, d, p)
  {
    hide VenueOk, KnownOk, BindingsOk, AdoptedOk, WaitsOk, CancelsOk, FeedOk, FillsOk, LiveOk, UntimedOk;
  }

  // ---- dropping ----

  /** Forgetting an order and all waits on it. */
  lemma ForgetDrops(h: Handler, p: Product, x: Cid, place: bool)
    requires Indexed(h) && RoutedTo(h, x, p) && p in h.states && (!place ==> x !in h.states[p].waitPlace)
    requires h.states[p].waitingSince == 0 <==> h.states[p].NoWaiting()
    ensures var h' := StopWaiting(ForgetOrder(h, p, x), p, x, place, true); Drops(h, h', p, x) && Indexed(h')
  {
    hide Indexed;
    ForgetKeepsIndexes(h, p, x);
    StopWaitingSameIndexes(ForgetOrder(h, p, x), p, x, place, true);
  }

  /** What an order is routed to may be dropped once the order need not be tracked. */
  lemma RouteDroppable(s: System, c: Cid)
    requires Inv(s) && c in s.venue && RouteOf(s, c).Some? && !MustTrack(s, c)
    ensures var p := s.venue[c].product; p in s.h.states && Droppable(s, p, RouteOf(s, c).value)
  {
    hide Inv;
    RouteFacts(s, c);
  }

  lemma WaitFacts(s: System, p: Product)
    requires Inv(s) && p in s.h.states
    ensures s.h.states[p].waitingSince == 0 <==> s.h.states[p].NoWaiting()
    ensures forall x :: x in s.h.states[p].waitPlace ==> PlaceWaitOk(s, p, x)
    ensures forall x :: x in s.h.states[p].waitCancel ==> CancelWaitOk(s, p, x)
    ensures Indexed(s.h)
  {
    hide Indexed, VenueOk, KnownOk, BindingsOk, AdoptedOk, CancelsOk, FeedOk, FillsOk, LiveOk, UntimedOk;
  }

  lemma RouteDrops(s: System, c: Cid, place: bool)
    requires Inv(s) && c in s.venue && RouteOf(s, c).Some? && !MustTrack(s, c) && (!place ==> s.venue[c].acceptSeen)
    ensures var p, x := s.venue[c].product, RouteOf(s, c).value;
      && p in s.h.states
      && Inv(s.(h := StopWaiting(ForgetOrder(s.h, p, x), p, x, place, true)))
      && Drops(s.h, StopWaiting(ForgetOrder(s.h, p, x), p, x, place, true), p, x)
  {
    hide Inv, Indexed, Drops, StopWaiting, ForgetOrder, Droppable, MustTrack;
    var p, x := s.venue[c].product, RouteOf(s, c).value;
    RouteFacts(s, c);
    WaitFacts(s, p);
    ForgetDrops(s.h, p, x, place);
    RouteDroppable(s, c);
    DropKeepsInv(s, s.(h := StopWaiting(ForgetOrder(s.h, p, x), p, x, place, true)), p, x);
  }

  lemma NothingMoved(s: System, s': System)
    requires s' == s.(feed := s'.feed)
    ensures SizesMove(s, s') && SameSizes(s.h, s'.h)
  {
  }

  lemma DeadNeedsNoTracking(s: System)
    requires Inv(s) && |s.feed| > 0 && (s.feed[0].Cancelled? || s.feed[0].Rejected?)
    ensures s.feed[0].cid in s.venue && !MustTrack(s, s.feed[0].cid)
    ensures s.feed[0].Cancelled? ==> s.venue[s.feed[0].cid].acceptSeen
    ensures s.feed[0].Rejected? ==> s.venue[s.feed[0].cid].no == ""
  {
    HeadFacts(s);
  }

  lemma DeliverEnd(s: System, now: int)
    requires Inv(s) && Enabled(s, DeliverFeed(now)) && (s.feed[0].Cancelled? || s.feed[0].Rejected?)
    ensures Inv(Next(s, DeliverFeed(now)))
  {
    hide Inv, RouteOf, StopWaiting, ForgetOrder, Route, Drops, SizesMove, SameSizes, MustTrack;
    var c := s.feed[0].cid;
    var (p, d) := ToExecution(s, s.feed[0]);
    DeadNeedsNoTracking(s);
    RouteOfOwn(s, c, d);
    if RouteOf(s, c).Some? {
      RouteDrops(s, c, s.feed[0].Rejected?);
    }
    var s1 := s.(h := OnExecution(s.h, p, d, now));
    assert Inv(s1) by {
      if RouteOf(s, c).None? {
        assert s1 == s;
      }
    }
    var s' := Next(s, DeliverFeed(now));
    NothingMoved(s1, s');
    HeadGoes(s1, s');
  }

  // ---- fills ----

  lemma WholeLotsLeft(recorded: int, sent: int, lot: int, remaining: int, pending: int)
    requires lot >= 1 && remaining >= 0 && remaining % lot == 0 && pending >= 0
    requires 2 * (sent - recorded) <= lot && recorded - sent + remaining + pending <= 0
    ensures remaining == 0
  {
  }

  lemma HeadFill(s: System)
    requires Inv(s) && |s.feed| > 0 && s.feed[0].Filled?
    ensures s.feed[0].cid in s.venue && s.feed[0].lots > 0
    ensures Unheard(s, s.feed[0].cid) - s.feed[0].lots >= s.venue[s.feed[0].cid].remaining
    ensures Unheard(s.(feed := s.feed[1..]), s.feed[0].cid) == Unheard(s, s.feed[0].cid) - s.feed[0].lots
  {
    hide Indexed, KnownOk, BindingsOk, AdoptedOk, WaitsOk, CancelsOk, FillsOk, LiveOk, UntimedOk, VenueOk;
    var c := s.feed[0].cid;
    HeadFacts(s);
    var s1 := s.(feed := s.feed[1..]);
    UnheardBehind(s, s1, c);
    FeedBehind(s, s1);
    UnheardAtLeastRemaining(s1, c);
  }

  lemma RemainderFacts(s: System, p: Product, x: Cid)
    requires Inv(s) && p in s.h.states && x in s.h.states[p].outstanding
    ensures RemainderOk(s, p, x)
  {
    hide Indexed, KnownOk, BindingsOk, AdoptedOk, WaitsOk, CancelsOk, FeedOk, LiveOk, UntimedOk, VenueOk;
  }

  ghost function Recorded(s: System, p: Product, x: Cid): int
    requires p in s.h.states
  {
    if x in s.h.states[p].outstanding then s.h.states[p].outstanding[x].qty else 0
  }

  /** The recorded remainder reaches zero only once the venue has nothing left of the order. */
  lemma FilledUpMeansDead(s: System)
    requires Inv(s) && |s.feed| > 0 && s.feed[0].Filled? && s.feed[0].cid in s.venue && RouteOf(s, s.feed[0].cid).Some?
    ensures var c := s.feed[0].cid; var p, x := s.venue[c].product, RouteOf(s, c).value;
      p in s.h.states && (Recorded(s, p, x) <= s.feed[0].lots ==> !MustTrack(s, c))
  {
    hide Inv, RouteOf, Unheard;
    var c := s.feed[0].cid;
    var p, x := s.venue[c].product, RouteOf(s, c).value;
    RouteFacts(s, c);
    HeadFill(s);
    OrderFacts(s, c);
    ProductKnown(s, c);
    if x in s.h.states[p].outstanding {
      RemainderFacts(s, p, x);
      if Recorded(s, p, x) <= s.feed[0].lots {
        var o := s.venue[c];
        if x == c {
          WholeLotsLeft(o.recorded, o.sent, o.lot, o.remaining, Unheard(s, c) - s.feed[0].lots - o.remaining);
        }
        assert o.remaining == 0;
      }
    }
  }

  /** Once its tracker is dropped, nothing tracks the order. */
  lemma DroppedTracksNothing(s: System, s1: System, c: Cid)
    requires Inv(s) && c in s.venue && s1 == s.(h := s1.h)
    requires RouteOf(s, c).Some? ==> Drops(s.h, s1.h, s.venue[c].product, RouteOf(s, c).value)
    requires RouteOf(s, c).None? ==> s1 == s
    ensures NobodyTracks(s1, c)
  {
    hide Inv, RouteOf;
    forall p, d | p in s1.h.states && d in s1.h.states[p].outstanding
      ensures !Tracks(s1, p, d, c)
    {
      if Tracks(s1, p, d, c) {
        assert Tracks(s, p, d, c);
        TrackerIsRoute(s, p, d, c);
      }
    }
  }

  /** A partial fill reduces the recorded size of the one order that tracks the filled one. */
  ghost predicate Reduces(s: System, s': System, p: Product, x: Cid, lots: int) {
    && SizesMove(s, s') && p in s.h.states && x in s.h.states[p].outstanding
    && s'.h.states[p].outstanding[x].qty == s.h.states[p].outstanding[x].qty - lots
    && (forall q, y :: q in s.h.states && y in s.h.states[q].outstanding && (q != p || y != x) ==>
          s'.h.states[q].outstanding[y] == s.h.states[q].outstanding[y])
  }

  lemma ReducesElsewhere(s: System, s': System, p: Product, x: Cid, lots: int, q: Product, y: Cid)
    requires Reduces(s, s', p, x, lots) && q in s'.h.states && y in s'.h.states[q].outstanding
    ensures q in s.h.states && y in s.h.states[q].outstanding && s'.h.states[q].cidToNo == s.h.states[q].cidToNo
    ensures s'.h.states[q].outstanding[y].qty == s.h.states[q].outstanding[y].qty - if q == p && y == x then lots else 0
    ensures s'.venue == s.venue && s'.owner == s.owner
  {
    assert y in s'.h.states[q].outstanding.Keys;
  }

  lemma PartialFills(s: System, s': System, p: Product, x: Cid)
    requires Inv(s) && |s.feed| > 0 && s.feed[0].Filled? && s'.feed == s.feed[1..]
    requires Reduces(s, s', p, x, s.feed[0].lots) && Tracks(s, p, x, s.feed[0].cid)
    ensures FillsOk(s')
  {
    hide Indexed, VenueOk, KnownOk, BindingsOk, AdoptedOk, WaitsOk, CancelsOk, FeedOk, LiveOk, UntimedOk, Unheard, Reduces, Tracks;
    var c := s.feed[0].cid;
    HeadFacts(s);
    SameVenueMap(s, s', p, x, s.feed[0].lots);
    forall y | y in s.venue
      ensures Unheard(s', y) == Unheard(s, y) - if y == c then s.feed[0].lots else 0
    {
      UnheardBehind(s, s', y);
    }
    TrackerIsRoute(s, p, x, c);
    forall q, y | q in s'.h.states && y in s'.h.states[q].outstanding
      ensures RemainderOk(s', q, y)
    {
      ReducesElsewhere(s, s', p, x, s.feed[0].lots, q, y);
      assert RemainderOk(s, q, y);
      if Tracks(s, q, y, c) {
        TrackerIsRoute(s, q, y, c);
      }
      RemainderMoves(s, s', p, x, q, y);
    }
  }

  lemma SameVenueMap(s: System, s': System, p: Product, x: Cid, lots: int)
    requires Reduces(s, s', p, x, lots)
    ensures s'.venue == s.venue && s'.owner == s.owner && p in s.h.states && x in s.h.states[p].outstanding
  {
  }

  lemma RemainderMoves(s: System, s': System, p: Product, x: Cid, q: Product, y: Cid)
    requires p in s.h.states && |s.feed| > 0 && s.feed[0].Filled?
    requires q in s.h.states && q in s'.h.states && y in s.h.states[q].outstanding && y in s'.h.states[q].outstanding
    requires RemainderOk(s, q, y) && s'.venue == s.venue && s'.owner == s.owner && s'.h.states[q].cidToNo == s.h.states[q].cidToNo
    requires forall z :: z in s.venue ==> Unheard(s', z) == Unheard(s, z) - if z == s.feed[0].cid then s.feed[0].lots else 0
    requires s'.h.states[q].outstanding[y].qty == s.h.states[q].outstanding[y].qty - if q == p && y == x then s.feed[0].lots else 0
    requires Tracks(s, p, x, s.feed[0].cid)
    requires Tracks(s, q, y, s.feed[0].cid) ==> q == p && y == x
    ensures RemainderOk(s', q, y)
  {
    hide Unheard;
  }

  lemma FillDropsOrReduces(h: Handler, p: Product, x: Cid, lots: int)
    requires p in h.states && RoutedTo(h, x, p)
    requires h.states[p].waitingSince == 0 <==> h.states[p].NoWaiting()
    ensures var recorded := if x in h.states[p].outstanding then h.states[p].outstanding[x].qty else 0;
      Fill(h, p, x, lots) ==
        if recorded <= lots then StopWaiting(ForgetOrder(h, p, x), p, x, true, true)
        else Record(h, p, x, (if x in h.states[p].outstanding then h.states[p].outstanding[x] else Order(0, 0, false)).(qty := recorded - lots))
  {
    hide StopWaiting, ForgetOrder, Record;
  }

  lemma RecordSameIndexing(h: Handler, p: Product, x: Cid, order: Order)
    requires p in h.states && x in h.states[p].outstanding
    ensures SameIndexing(h, Record(h, p, x, order))
  {
    assert h.states[p].outstanding[x := order].Keys == h.states[p].outstanding.Keys;
  }

  lemma RecordReduces(s: System, s': System, p: Product, x: Cid, lots: int)
    requires p in s.h.states && x in s.h.states[p].outstanding
    requires s' == s.(feed := s'.feed, h := Record(s.h, p, x, s.h.states[p].outstanding[x].(qty := s.h.states[p].outstanding[x].qty - lots)))
    ensures Reduces(s, s', p, x, lots)
  {
    hide RemainderOk, SameIndexing;
    RecordSameIndexing(s.h, p, x, s'.h.states[p].outstanding[x]);
  }

  lemma DeliverFill(s: System, now: int)
    requires Inv(s) && Enabled(s, DeliverFeed(now)) && s.feed[0].Filled?
    ensures Inv(Next(s, DeliverFeed(now)))
  {
    hide Inv, RouteOf, StopWaiting, ForgetOrder, Route, Drops, SizesMove, SameSizes, MustTrack, Fill, NobodyTracks, Reduces, Tracks;
    var c := s.feed[0].cid;
    var lots := s.feed[0].lots;
    var (p, d) := ToExecution(s, s.feed[0]);
    RouteOfOwn(s, c, d);
    HeadFill(s);
    var s' := Next(s, DeliverFeed(now));
    var s1 := s.(h := s'.h);
    if RouteOf(s, c).Some? {
      var x := RouteOf(s, c).value;
      RouteFacts(s, c);
      WaitFacts(s, p);
      FillDropsOrReduces(s.h, p, x, lots);
      if Recorded(s, p, x) > lots {
        FillReduces(s, s', p, x);
        return;
      }
      FilledUpMeansDead(s);
      RouteDrops(s, c, true);
    }
    assert RouteOf(s, c).None? ==> s1 == s;
    DroppedTracksNothing(s, s1, c);
    NothingMoved(s1, s');
    HeadGoes(s1, s');
  }

  lemma FillReduces(s: System, s': System, p: Product, x: Cid)
    requires Inv(s) && |s.feed| > 0 && s.feed[0].Filled? && s.feed[0].cid in s.venue
    requires p == s.venue[s.feed[0].cid].product && RouteOf(s, s.feed[0].cid) == Some(x)
    requires p in s.h.states && Recorded(s, p, x) > s.feed[0].lots
    requires s'.h == Fill(s.h, p, x, s.feed[0].lots) && s' == s.(h := s'.h, feed := s.feed[1..])
    ensures Inv(s')
  {
    hide Inv, RouteOf, StopWaiting, ForgetOrder, Record, Reduces, Tracks, FillsOk, FeedOk;
    var lots := s.feed[0].lots;
    RouteFacts(s, s.feed[0].cid);
    WaitFacts(s, p);
    HeadFill(s);
    FillDropsOrReduces(s.h, p, x, lots);
    RecordReduces(s, s', p, x, lots);
    RouteTracks(s, s.feed[0].cid);
    PartialFills(s, s', p, x);
    FeedAfterHead(s, s');
    ReducesIsSizes(s, s', p, x, lots);
    SizesKeep(s, s');
  }

  lemma FeedAfterHead(s: System, s': System)
    requires Inv(s) && |s.feed| > 0 && !s.feed[0].Accepted? && s'.feed == s.feed[1..] && s'.venue == s.venue && s'.foreign == s.foreign && s'.others == s.others
    ensures FeedOk(s')
  {
    hide Indexed, VenueOk, KnownOk, BindingsOk, AdoptedOk, WaitsOk, CancelsOk, FillsOk, LiveOk, UntimedOk;
    FeedBehind(s, s');
  }

  lemma ReducesIsSizes(s: System, s': System, p: Product, x: Cid, lots: int)
    requires Reduces(s, s', p, x, lots)
    ensures SizesMove(s, s')
  {
  }

  lemma RouteTracks(s: System, c: Cid)
    requires Inv(s) && c in s.venue && RouteOf(s, c).Some?
    ensures var p, x := s.venue[c].product, RouteOf(s, c).value;
      p in s.h.states && (x in s.h.states[p].outstanding ==> Tracks(s, p, x, c))
  {
    hide Inv;
    RouteFacts(s, c);
  }

  // ---- acceptances ----

  /** The feed's acceptance of `c` has been heard. */
  ghost predicate Hears(s: System, s': System, c: Cid) {
    && |s.feed| > 0 && s.feed[0] == Accepted(c) && c in s.venue
    && s' == s.(feed := s.feed[1..], venue := s.venue[c := s.venue[c].(acceptSeen := true)])
  }

  lemma HearsVenue(s: System, s': System, c: Cid)
    requires VenueOk(s) && Hears(s, s', c) && s.venue[c].no != ""
    ensures VenueOk(s')
  {
    forall x | x in s'.venue
      ensures OrderOk(s'.owner, s'.foreign, x, s'.venue[x])
    {
      assert OrderOk(s.owner, s.foreign, x, s.venue[x]);
    }
  }

  lemma HearsKnown(s: System, s': System, c: Cid)
    requires KnownOk(s) && Hears(s, s', c)
    ensures KnownOk(s')
  {
    forall x | x in s'.venue
      ensures Known(s'.h, x, s'.venue[x])
    {
      assert Known(s.h, x, s.venue[x]);
    }
  }

  lemma HearsBindings(s: System, s': System, c: Cid)
    requires BindingsOk(s) && Hears(s, s', c)
    ensures BindingsOk(s')
  {
    forall q, x | q in s'.h.states && x in s'.h.states[q].cidToNo
      ensures BindingOk(s', q, x, s'.h.states[q].cidToNo[x])
    {
      assert BindingOk(s, q, x, s.h.states[q].cidToNo[x]);
    }
  }

  lemma HearsWaits(s: System, s': System, c: Cid)
    requires WaitsOk(s) && Hears(s, s', c) && forall q :: q in s.h.states ==> c !in s.h.states[q].waitPlace
    ensures WaitsOk(s')
  {
    forall q | q in s'.h.states
      ensures s'.h.states[q].waitingSince == 0 <==> s'.h.states[q].NoWaiting()
      ensures forall x :: x in s'.h.states[q].waitPlace ==> PlaceWaitOk(s', q, x)
      ensures forall x :: x in s'.h.states[q].waitCancel ==> CancelWaitOk(s', q, x)
    {
      assert forall x :: x in s.h.states[q].waitPlace ==> PlaceWaitOk(s, q, x);
      assert forall x :: x in s.h.states[q].waitCancel ==> CancelWaitOk(s, q, x);
    }
  }

  lemma HearsCancel(s: System, s': System, c: Cid, d: Cid, no: OrderNo)
    requires CancelOk(s, d, no) && Hears(s, s', c)
    ensures CancelOk(s', d, no)
  {
  }

  lemma HearsCancels(s: System, s': System, c: Cid)
    requires CancelsOk(s) && Hears(s, s', c)
    ensures CancelsOk(s')
  {
    hide CancelOk;
    forall r | r in s'.cancels
      ensures CancelOk(s', r.cid, r.no)
    {
      HearsCancel(s, s', c, r.cid, r.no);
    }
    forall a | a in s'.cancelReplies
      ensures CancelOk(s', a.cid, a.no) && (a.success || a.gone ==> GoneOk(s', a.no))
    {
      HearsCancel(s, s', c, a.cid, a.no);
    }
  }

  lemma HearsMessage(s: System, s': System, c: Cid, i: nat)
    requires Hears(s, s', c) && i + 1 < |s.feed| && MessageOk(s, i + 1)
    ensures MessageOk(s', i)
  {
    assert s'.feed[i] == s.feed[i + 1];
    assert s.feed[..i + 1] == [s.feed[0]] + s'.feed[..i];
    assert s'.feed[i + 1..] == s.feed[i + 2..];
  }

  lemma HearsFeed(s: System, s': System, c: Cid)
    requires FeedOk(s) && Hears(s, s', c)
    ensures FeedOk(s')
  {
    forall i | 0 <= i < |s'.feed|
      ensures MessageOk(s', i)
    {
      HearsMessage(s, s', c, i);
    }
    assert s.feed == [s.feed[0]] + s'.feed;
  }

  lemma HearsFills(s: System, s': System, c: Cid)
    requires FillsOk(s) && Hears(s, s', c)
    ensures FillsOk(s')
    ensures forall y :: y in s.venue ==> Unheard(s', y) == Unheard(s, y)
  {
    forall y | y in s.venue
      ensures Unheard(s', y) == Unheard(s, y)
    {
      assert Pending(s.feed, y) == Pending(s.feed[1..], y);
    }
    hide Unheard;
    forall q, y | q in s'.h.states && y in s'.h.states[q].outstanding
      ensures RemainderOk(s', q, y)
    {
      assert RemainderOk(s, q, y);
    }
  }

  lemma HearsLive(s: System, s': System, c: Cid)
    requires LiveOk(s) && Hears(s, s', c)
    ensures forall x :: MustTrack(s', x) ==> Tracked(s', x) || x == c
  {
    forall x | MustTrack(s', x) && x != c
      ensures Tracked(s', x)
    {
      assert MustTrack(s, x) && Tracked(s, x);
    }
  }

  lemma HearsAdopted(s: System, s': System, c: Cid)
    requires AdoptedOk(s) && UntimedOk(s) && Hears(s, s', c)
    ensures AdoptedOk(s') && UntimedOk(s')
  {
  }

  /** Hearing the acceptance may leave the accepted order, and no other, untracked. */
  lemma HearsKeeps(s: System, s': System, c: Cid)
    requires Inv(s) && Hears(s, s', c)
    requires forall q :: q in s.h.states ==> c !in s.h.states[q].waitPlace
    ensures Indexed(s'.h) && VenueOk(s') && KnownOk(s') && BindingsOk(s') && AdoptedOk(s') && WaitsOk(s')
    ensures CancelsOk(s') && FeedOk(s') && FillsOk(s') && UntimedOk(s')
    ensures forall x :: MustTrack(s', x) ==> Tracked(s', x) || x == c
    ensures s'.h == s.h && c in s'.venue && s'.venue[c] == s.venue[c].(acceptSeen := true) && s'.owner == s.owner && s'.others == s.others
    ensures Unheard(s', c) == s.venue[c].sent && !s.venue[c].acceptSeen && s.venue[c].no != ""
  {
    hide Indexed, VenueOk, KnownOk, BindingsOk, AdoptedOk, WaitsOk, CancelsOk, FeedOk, FillsOk, LiveOk, UntimedOk, Hears, Unheard;
    HearsHead(s, s', c);
    HearsVenue(s, s', c);
    HearsKnown(s, s', c);
    HearsBindings(s, s', c);
    HearsAdopted(s, s', c);
    HearsWaits(s, s', c);
    HearsCancels(s, s', c);
    HearsFeed(s, s', c);
    HearsFills(s, s', c);
    HearsLive(s, s', c);
  }

  lemma HearsHead(s: System, s': System, c: Cid)
    requires Inv(s) && Hears(s, s', c)
    ensures c in s.venue
    ensures s'.h == s.h && c in s'.venue && s'.venue[c] == s.venue[c].(acceptSeen := true) && s'.owner == s.owner && s'.others == s.others
    ensures !s.venue[c].acceptSeen && s.venue[c].no != "" && Unheard(s, c) == s.venue[c].sent
  {
    hide Unheard;
    HeadFacts(s);
  }

  /** The number the venue gave an order may be bound to the order's own cid. */
  lemma OwnNumberBinds(s: System, c: Cid)
    requires Inv(s) && c in s.venue && s.venue[c].no != "" && c in s.h.cidProduct
    ensures var p, no := s.venue[c].product, s.venue[c].no;
      p in s.h.states && RoutedTo(s.h, c, p) && BindOk(s.h, p, c, no) && BindingOk(s, p, c, no)
  {
    hide Inv;
    var p, no := s.venue[c].product, s.venue[c].no;
    ProductKnown(s, c);
    OwnNumber(s, c);
    BindingNumber(s, p, c);
    if no in s.h.noProduct {
      var q := s.h.noProduct[no];
      assert NumberOf(s.h, no, q);
      NumberIsBound(s, q, no);
      NumberLeadsHome(s, q, s.h.states[q].noToCid[no]);
    } else {
      Unbound(s, p, no);
    }
  }

  lemma BindingNumber(s: System, p: Product, c: Cid)
    requires Inv(s) && c in s.venue && p in s.h.states
    ensures c in s.h.states[p].cidToNo ==> s.h.states[p].cidToNo[c] == s.venue[c].no
  {
    hide Indexed, VenueOk, KnownOk, AdoptedOk, WaitsOk, CancelsOk, FeedOk, FillsOk, LiveOk, UntimedOk;
    if c in s.h.states[p].cidToNo {
      assert BindingOk(s, p, c, s.h.states[p].cidToNo[c]);
    }
  }

  lemma BindIsBinds(h: Handler, p: Product, c: Cid, no: OrderNo)
    requires p in h.states && no != "" && Indexed(h) && RoutedTo(h, c, p) && BindOk(h, p, c, no)
    requires h.states[p].waitingSince == 0 <==> h.states[p].NoWaiting()
    ensures var h' := StopWaiting(Bind(h, p, c, no), p, c, true, false); Binds(h, h', p, c, no) && Indexed(h')
  {
    hide Indexed, BindOk;
    BindKeepsIndexes(h, p, c, no);
    StopWaitingSameIndexes(Bind(h, p, c, no), p, c, true, false);
  }

  /** While its acceptance is on the way, an order is routed by its own cid or not at all. */
  lemma UnacceptedRoute(s: System, c: Cid)
    requires Inv(s) && c in s.venue && !s.venue[c].acceptSeen
    ensures RouteOf(s, c) == if c in s.h.cidProduct then Some(c) else None
  {
    hide Inv;
    if RouteOf(s, c).Some? {
      RouteFacts(s, c);
      var p, x := s.venue[c].product, RouteOf(s, c).value;
      if x != c {
        NumberLeadsHome(s, p, x);
      }
    }
  }

  lemma NotWaitedFor(s: System, c: Cid)
    requires Inv(s) && c in s.venue
    requires forall p :: p in s.h.states && RoutedTo(s.h, c, p) ==> c !in s.h.states[p].waitPlace
    ensures forall q :: q in s.h.states ==> c !in s.h.states[q].waitPlace
  {
    hide Indexed, VenueOk, KnownOk, BindingsOk, AdoptedOk, CancelsOk, FeedOk, FillsOk, LiveOk, UntimedOk;
    forall q | q in s.h.states
      ensures c !in s.h.states[q].waitPlace
    {
      assert c in s.h.states[q].waitPlace ==> PlaceWaitOk(s, q, c);
    }
  }

  lemma BindsClearsWait(s: System, s1: System, p: Product, c: Cid, no: OrderNo)
    requires s1 == s.(h := s1.h) && Binds(s.h, s1.h, p, c, no) && RoutedTo(s.h, c, p)
    ensures forall q :: q in s1.h.states && RoutedTo(s1.h, c, q) ==> c !in s1.h.states[q].waitPlace
    ensures c in s1.h.cidProduct
  {
  }

  lemma AcceptKnown(s: System, s': System, p: Product, c: Cid, h1: Handler)
    requires Inv(s) && |s.feed| > 0 && s.feed[0] == Accepted(c) && c in s.venue && c in s.h.cidProduct && p == s.venue[c].product
    requires p in s.h.states && h1 == StopWaiting(Bind(s.h, p, c, s.venue[c].no), p, c, true, false)
    requires Hears(s.(h := h1), s', c)
    ensures Inv(s')
  {
    hide Inv, StopWaiting, Bind, Hears, Binds, BindOk, BindingOk, Indexed, RouteOf;
    var no := s.venue[c].no;
    AcceptedHasNumber(s, c);
    OwnNumberBinds(s, c);
    WaitFacts(s, p);
    BindIsBinds(s.h, p, c, no);
    var s1 := s.(h := h1);
    BindKeepsInv(s, s1, p, c, no);
    BindsClearsWait(s, s1, p, c, no);
    NotWaitedFor(s1, c);
    HearsKeeps(s1, s', c);
    AllTracked(s', c);
  }

  lemma AcceptedHasNumber(s: System, c: Cid)
    requires Inv(s) && |s.feed| > 0 && s.feed[0] == Accepted(c)
    ensures c in s.venue && s.venue[c].no != "" && !s.venue[c].acceptSeen
  {
    HeadFacts(s);
  }

  lemma AllTracked(s: System, c: Cid)
    requires Indexed(s.h) && VenueOk(s) && KnownOk(s) && BindingsOk(s) && AdoptedOk(s) && WaitsOk(s)
    requires CancelsOk(s) && FeedOk(s) && FillsOk(s) && UntimedOk(s)
    requires c in s.h.cidProduct && forall x :: MustTrack(s, x) ==> Tracked(s, x) || x == c
    ensures Inv(s)
  {
    hide Indexed, VenueOk, KnownOk, BindingsOk, AdoptedOk, WaitsOk, CancelsOk, FeedOk, FillsOk, UntimedOk;
  }

  lemma AdoptIsAdopts(h: Handler, p: Product, d: Execution, now: int)
    requires Indexed(h) && p in h.states && now > 0 && d.orderNo != "" && d.orderNo !in h.noProduct
    ensures var h' := Adopt(h, p, d, now);
      Indexed(h') && h'.lastCid > h.lastCid && h'.lastCid == NextCid(h, now) && Adopts(h, h', p, h'.lastCid, Order(d.orderPrice, d.orderLots, d.isBid), d.orderNo)
  {
    hide Indexed;
    AdoptKeepsIndexes(h, p, d, now);
  }

  lemma AcceptForgotten(s: System, s1: System, s': System, c: Cid, d: Execution, now: int)
    requires Inv(s) && now > 0 && NextCid(s.h, now) !in s.others && c in s.venue && c !in s.h.cidProduct && Hears(s, s1, c)
    requires d.orderNo == s.venue[c].no && d.orderNo !in s.h.noProduct && d.orderLots == s.venue[c].sent
    requires s.venue[c].product in s.h.states && s' == s1.(h := Adopt(s.h, s.venue[c].product, d, now))
    ensures Inv(s')
  {
    hide Inv, Adopt, Hears, Adopts, Indexed, Unheard, MustTrack, Tracked;
    var p := s.venue[c].product;
    NotWaitedFor(s, c);
    AcceptedFirst(s, s1, c);
    HearsKeeps(s, s1, c);
    AdoptIsAdopts(s.h, p, d, now);
    assert Orphan(s1, c, p);
    AdoptedNumberOk(s, s1, c, s'.h.lastCid, d.orderNo);
    MustTrackOnly(s1, c, p, d.orderNo);
    AdoptKeepsInv(s1, s', p, s'.h.lastCid, Order(d.orderPrice, d.orderLots, d.isBid), d.orderNo);
  }

  lemma AcceptedFirst(s: System, s1: System, c: Cid)
    requires Hears(s, s1, c)
    ensures |s.feed| > 0 && s.feed[0] == Accepted(c)
  {
  }

  lemma MustTrackOnly(s: System, c: Cid, p: Product, no: OrderNo)
    requires c in s.venue && s.venue[c].product == p && s.venue[c].no == no
    requires forall x :: MustTrack(s, x) ==> Tracked(s, x) || x == c
    ensures forall x :: MustTrack(s, x) ==> Tracked(s, x) || (s.venue[x].product == p && s.venue[x].no == no)
  {
  }

  lemma AdoptedNumberOk(s: System, s1: System, c: Cid, d: Cid, no: OrderNo)
    requires Inv(s) && Hears(s, s1, c) && no == s.venue[c].no && no != "" && d > s.h.lastCid && c !in s.h.cidProduct
    ensures BindingOk(s1, s.venue[c].product, d, no) && no in s1.owner && s1.owner[no] == c
  {
    hide Inv;
    OwnNumber(s, c);
    ProductKnown(s, c);
    if d in s.venue {
      ProductKnown(s, d);
    }
  }

  lemma DeliverAccepted(s: System, now: int)
    requires Inv(s) && Enabled(s, DeliverFeed(now)) && s.feed[0].Accepted?
    ensures Inv(Next(s, DeliverFeed(now)))
  {
    hide Inv, RouteOf, StopWaiting, Bind, Route, Adopt, Indexed;
    var c := s.feed[0].cid;
    var (p, d) := ToExecution(s, s.feed[0]);
    RouteOfOwn(s, c, d);
    AcceptedHasNumber(s, c);
    UnacceptedRoute(s, c);
    ProductKnown(s, c);
    var s' := Next(s, DeliverFeed(now));
    var h' := OnExecution(s.h, p, d, now);
    if c in s.h.cidProduct {
      AcceptKnown(s, s', p, c, h');
    } else {
      NumberUnrouted(s, c);
      var s1 := s.(feed := s.feed[1..], venue := s.venue[c := s.venue[c].(acceptSeen := true)]);
      AcceptForgotten(s, s1, s', c, d, now);
    }
  }

  /** Nothing is bound to the number of a forgotten order before its acceptance is heard. */
  lemma NumberUnrouted(s: System, c: Cid)
    requires Inv(s) && c in s.venue && !s.venue[c].acceptSeen && c !in s.h.cidProduct && s.venue[c].no != ""
    ensures s.venue[c].no !in s.h.noProduct
  {
    hide Inv;
    var no := s.venue[c].no;
    if no in s.h.noProduct {
      var q := s.h.noProduct[no];
      OwnNumbersProduct(s, c);
      assert NumberOf(s.h, no, q);
      NumberIsBound(s, q, no);
      OwnNumber(s, c);
      NumberLeadsHome(s, q, s.h.states[q].noToCid[no]);
    }
  }

  // ---- open-orders reports ----

  lemma HeadReport(s: System)
    requires Inv(s) && |s.feed| > 0 && s.feed[0].Reported?
    ensures var c := s.feed[0].cid;
      && c in s.venue && s.venue[c].no != "" && s.venue[c].acceptSeen
      && s.feed[0].left == Unheard(s, c)
  {
    HeadFacts(s);
  }

  /** Whatever the handler tracks the order by is bound to the order's number, or may be. */
  lemma RouteBinds(s: System, c: Cid)
    requires Inv(s) && c in s.venue && s.venue[c].no != "" && RouteOf(s, c).Some?
    ensures var p, x, no := s.venue[c].product, RouteOf(s, c).value, s.venue[c].no;
      p in s.h.states && RoutedTo(s.h, x, p) && BindOk(s.h, p, x, no) && BindingOk(s, p, x, no)
  {
    hide Inv, RouteOf;
    RouteFacts(s, c);
    var p, x, no := s.venue[c].product, RouteOf(s, c).value, s.venue[c].no;
    if x == c {
      OwnNumberBinds(s, c);
    } else {
      NumberLeadsHome(s, p, x);
      BoundBack(s, p, x);
      BoundFacts(s, p, x, no);
    }
  }

  lemma BoundFacts(s: System, p: Product, x: Cid, no: OrderNo)
    requires Inv(s) && p in s.h.states && x in s.h.states[p].cidToNo && s.h.states[p].cidToNo[x] == no
    ensures RoutedTo(s.h, x, p) && BindOk(s.h, p, x, no) && BindingOk(s, p, x, no) && no != ""
  {
    hide KnownOk, AdoptedOk, WaitsOk, CancelsOk, FeedOk, FillsOk, LiveOk, UntimedOk, VenueOk;
    assert BindingOk(s, p, x, s.h.states[p].cidToNo[x]);
    assert NumberOf(s.h, no, p);
  }

  lemma ReportKnown(s: System, c: Cid)
    requires Inv(s) && c in s.venue && s.venue[c].no != "" && RouteOf(s, c).Some?
    ensures var p, x := s.venue[c].product, RouteOf(s, c).value;
      p in s.h.states && Inv(s.(h := StopWaiting(Bind(s.h, p, x, s.venue[c].no), p, x, true, false)))
  {
    hide Inv, RouteOf, StopWaiting, Bind, Binds, BindOk, BindingOk, Indexed;
    RouteBinds(s, c);
    var p, x, no := s.venue[c].product, RouteOf(s, c).value, s.venue[c].no;
    WaitFacts(s, p);
    BindIsBinds(s.h, p, x, no);
    BindKeepsInv(s, s.(h := StopWaiting(Bind(s.h, p, x, no), p, x, true, false)), p, x, no);
  }

  /** A report of an order nothing tracks adopts it, with what is open of it. */
  lemma ReportAdopts(s: System, c: Cid, d: Execution, now: int)
    requires Inv(s) && now > 0 && NextCid(s.h, now) !in s.others && c in s.venue && RouteOf(s, c).None?
    requires s.venue[c].no != "" && s.venue[c].acceptSeen
    requires d.orderNo == s.venue[c].no && d.orderLots == Unheard(s, c)
    ensures s.venue[c].product in s.h.states && Inv(s.(h := Adopt(s.h, s.venue[c].product, d, now)))
  {
    hide Inv, Adopt, Adopts, Indexed, Unheard, MustTrack, Tracked, RouteOf;
    var p := s.venue[c].product;
    ProductKnown(s, c);
    UntrackedNumber(s, c);
    WaitFacts(s, p);
    AdoptIsAdopts(s.h, p, d, now);
    var s' := s.(h := Adopt(s.h, p, d, now));
    assert Orphan(s, c, p);
    OwnNumber(s, c);
    FreshIsNoOrder(s, s'.h.lastCid);
    InvParts(s);
    AdoptKeepsInv(s, s', p, s'.h.lastCid, Order(d.orderPrice, d.orderLots, d.isBid), d.orderNo);
  }

  lemma UntrackedNumber(s: System, c: Cid)
    requires Inv(s) && c in s.venue && s.venue[c].no != "" && RouteOf(s, c).None?
    ensures c !in s.h.cidProduct && s.venue[c].no !in s.h.noProduct
  {
    hide Inv;
    var no := s.venue[c].no;
    if no in s.h.noProduct {
      OwnNumbersProduct(s, c);
      assert NumberOf(s.h, no, s.venue[c].product);
      NumberIsBound(s, s.venue[c].product, no);
    }
  }

  lemma FreshIsNoOrder(s: System, c: Cid)
    requires Inv(s) && c > s.h.lastCid
    ensures c !in s.venue
  {
    hide Inv;
    if c in s.venue {
      ProductKnown(s, c);
    }
  }

  lemma InvParts(s: System)
    requires Inv(s)
    ensures Indexed(s.h) && VenueOk(s) && KnownOk(s) && BindingsOk(s) && AdoptedOk(s) && WaitsOk(s)
    ensures CancelsOk(s) && FeedOk(s) && FillsOk(s) && UntimedOk(s)
    ensures forall c :: MustTrack(s, c) ==> Tracked(s, c)
  {
    hide Indexed, VenueOk, KnownOk, BindingsOk, AdoptedOk, WaitsOk, CancelsOk, FeedOk, FillsOk, UntimedOk;
  }

  lemma DeliverReported(s: System, now: int)
    requires Inv(s) && Enabled(s, DeliverFeed(now)) && s.feed[0].Reported?
    ensures Inv(Next(s, DeliverFeed(now)))
  {
    hide Inv, RouteOf, StopWaiting, Bind, Route, Adopt, SizesMove, SameSizes, Unheard;
    var c := s.feed[0].cid;
    var (p, d) := ToExecution(s, s.feed[0]);
    HeadReport(s);
    RouteOfOwn(s, c, d);
    ProductKnown(s, c);
    if RouteOf(s, c).Some? {
      ReportKnown(s, c);
    } else if s.feed[0].left > 0 {
      ReportAdopts(s, c, d, now);
    }
    var s1 := s.(h := OnExecution(s.h, p, d, now));
    assert Inv(s1) by {
      if RouteOf(s, c).None? && s.feed[0].left <= 0 {
        assert s1 == s;
      }
    }
    var s' := Next(s, DeliverFeed(now));
    NothingMoved(s1, s');
    HeadGoes(s1, s');
  }
}
