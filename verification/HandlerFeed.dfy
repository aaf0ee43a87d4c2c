/** Consuming a message of the execution feed keeps the invariant. */
module HandlerFeed {
  import opened Optional
  import opened Strategy
  import opened HandlerModel
  import opened IndexInvariant
  import opened VenueModel
  import opened VenueInvariant

  // ---- sizes and positions change, and the head of the feed goes ----

  /** Nothing but recorded sizes and fields that are not about orders changed. */
  ghost predicate OnlySizes(h: Handler, h': Handler) {
    && SameIndexing(h, h')
    && forall q :: q in h.states ==>
         && h'.states[q].waitPlace == h.states[q].waitPlace && h'.states[q].waitCancel == h.states[q].waitCancel
         && h'.states[q].waitingSince == h.states[q].waitingSince
  }

  ghost predicate SizesMove(s: System, s': System) {
    s' == s.(h := s'.h, feed := s'.feed) && OnlySizes(s.h, s'.h)
  }

  lemma SizesKnown(s: System, s': System)
    requires KnownOk(s) && SizesMove(s, s')
    ensures KnownOk(s')
  {
    forall x | x in s'.venue
      ensures Known(s'.h, x, s'.venue[x])
    {
      assert Known(s.h, x, s.venue[x]);
      assert s.venue[x].product in s.h.states ==>
        s'.h.states[s.venue[x].product].outstanding.Keys == s.h.states[s.venue[x].product].outstanding.Keys;
    }
  }

  lemma SizesBindings(s: System, s': System)
    requires BindingsOk(s) && SizesMove(s, s')
    ensures BindingsOk(s')
  {
    forall q, x | q in s'.h.states && x in s'.h.states[q].cidToNo
      ensures BindingOk(s', q, x, s'.h.states[q].cidToNo[x])
    {
      assert BindingOk(s, q, x, s.h.states[q].cidToNo[x]);
    }
  }

  lemma SizesAdopted(s: System, s': System)
    requires AdoptedOk(s) && SizesMove(s, s')
    ensures AdoptedOk(s')
  {
    forall q, x | q in s'.h.states && RoutedTo(s'.h, x, q) && x !in s'.venue
      ensures x in s'.h.states[q].cidToNo && x in s'.h.states[q].outstanding
    {
      assert RoutedTo(s.h, x, q);
      assert x in s.h.states[q].outstanding.Keys;
    }
  }

  lemma SizesWaits(s: System, s': System)
    requires WaitsOk(s) && SizesMove(s, s')
    ensures WaitsOk(s')
  {
    forall q | q in s'.h.states
      ensures s'.h.states[q].waitingSince == 0 <==> s'.h.states[q].NoWaiting()
      ensures forall x :: x in s'.h.states[q].waitPlace ==> PlaceWaitOk(s', q, x)
      ensures forall x :: x in s'.h.states[q].waitCancel ==> CancelWaitOk(s', q, x)
    {
      assert forall x :: x in s.h.states[q].waitPlace ==> PlaceWaitOk(s, q, x);
      assert forall x :: x in s.h.states[q].waitCancel ==> CancelWaitOk(s, q, x);
    }
  }

  lemma SizesCancel(s: System, s': System, d: Cid, no: OrderNo)
    requires CancelOk(s, d, no) && SizesMove(s, s')
    ensures CancelOk(s', d, no)
  {
  }

  lemma SizesCancels(s: System, s': System)
    requires CancelsOk(s) && SizesMove(s, s')
    ensures CancelsOk(s')
  {
    hide CancelOk, SizesMove;
    SizesSame(s, s');
    forall r | r in s'.cancels
      ensures CancelOk(s', r.cid, r.no)
    {
      SizesCancel(s, s', r.cid, r.no);
    }
    forall a | a in s'.cancelReplies
      ensures CancelOk(s', a.cid, a.no) && (a.success || a.gone ==> GoneOk(s', a.no))
    {
      SizesCancel(s, s', a.cid, a.no);
    }
  }

  lemma SizesSame(s: System, s': System)
    requires SizesMove(s, s')
    ensures s'.venue == s.venue && s'.owner == s.owner && s'.foreign == s.foreign && s'.others == s.others && s'.cancels == s.cancels
    ensures s'.cancelReplies == s.cancelReplies && s'.timedOut == s.timedOut
    ensures SameIndexing(s.h, s'.h)
  {
  }

  lemma SizesLive(s: System, s': System)
    requires LiveOk(s) && SizesMove(s, s')
    ensures LiveOk(s')
  {
    forall c | MustTrack(s', c)
      ensures Tracked(s', c)
    {
      assert MustTrack(s, c) && Tracked(s, c);
      var p := s.venue[c].product;
      assert p in s.h.states ==> s'.h.states[p].outstanding.Keys == s.h.states[p].outstanding.Keys;
    }
  }

  lemma SizesUntimed(s: System, s': System)
    requires UntimedOk(s) && SizesMove(s, s')
    ensures UntimedOk(s')
  {
    forall q, x | !s'.timedOut && q in s'.h.states && x in s'.h.states[q].outstanding
      ensures x in s'.h.states[q].cidToNo || x in s'.h.states[q].waitPlace
    {
      assert x in s'.h.states[q].outstanding.Keys;
      assert x in s.h.states[q].outstanding;
    }
  }

  lemma SizesKeep(s: System, s': System)
    requires Inv(s) && SizesMove(s, s') && FeedOk(s') && FillsOk(s')
    ensures Inv(s')
  {
    hide Indexed, VenueOk, KnownOk, BindingsOk, AdoptedOk, WaitsOk, CancelsOk, FeedOk, FillsOk, LiveOk, UntimedOk, SizesMove, SameIndexing;
    SizesSame(s, s');
    SameIndexesOneWay(s.h, s'.h);
    SameVenue(s, s');
    SizesKnown(s, s');
    SizesBindings(s, s');
    SizesAdopted(s, s');
    SizesWaits(s, s');
    SizesCancels(s, s');
    SizesLive(s, s');
    SizesUntimed(s, s');
  }

  // ---- the feed without its head ----

  lemma MessageBehind(s: System, s': System, i: nat)
    requires |s.feed| > 0 && i + 1 < |s.feed| && s'.feed == s.feed[1..] && s'.venue == s.venue && s'.foreign == s.foreign && s'.others == s.others
    requires !s.feed[0].Accepted? && MessageOk(s, i + 1)
    ensures MessageOk(s', i)
  {
    assert s'.feed[i] == s.feed[i + 1];
    assert s.feed[..i + 1] == [s.feed[0]] + s'.feed[..i];
    assert s'.feed[i + 1..] == s.feed[i + 2..];
  }

  lemma FeedBehind(s: System, s': System)
    requires |s.feed| > 0 && FeedOk(s) && s'.feed == s.feed[1..] && s'.venue == s.venue && s'.foreign == s.foreign && s'.others == s.others
    requires !s.feed[0].Accepted?
    ensures FeedOk(s')
  {
    hide MessageOk;
    forall i | 0 <= i < |s'.feed|
      ensures MessageOk(s', i)
    {
      MessageBehind(s, s', i);
    }
    assert s.feed == [s.feed[0]] + s'.feed;
  }

  /** Only a fill at the head changes what has not been heard of its order. */
  lemma UnheardBehind(s: System, s': System, c: Cid)
    requires |s.feed| > 0 && s'.feed == s.feed[1..] && s'.venue == s.venue && c in s.venue
    ensures Unheard(s', c) == Unheard(s, c) - if s.feed[0].Filled? && s.feed[0].cid == c then s.feed[0].lots else 0
  {
  }

  lemma {:induction false} PendingIsPositive(feed: seq<FeedMessage>, c: Cid)
    requires forall m :: m in feed && m.Filled? ==> m.lots > 0
    ensures Pending(feed, c) >= 0
  {
    if |feed| > 0 {
      assert feed[0] in feed;
      assert forall m :: m in feed[1..] ==> m in feed;
      PendingIsPositive(feed[1..], c);
    }
  }

  lemma UnheardAtLeastRemaining(s: System, c: Cid)
    requires FeedOk(s) && c in s.venue
    ensures Unheard(s, c) >= s.venue[c].remaining
  {
    forall m | m in s.feed && m.Filled?
      ensures m.lots > 0
    {
      var i :| 0 <= i < |s.feed| && s.feed[i] == m;
      assert MessageOk(s, i);
    }
    PendingIsPositive(s.feed, c);
  }

  /** The message at the head, and what is known about it. */
  lemma HeadFacts(s: System)
    requires Inv(s) && |s.feed| > 0
    ensures MessageOk(s, 0)
    ensures s.feed[0].Filled? || s.feed[0].Cancelled? || s.feed[0].Reported? ==>
      s.feed[0].cid in s.venue && s.venue[s.feed[0].cid].no != "" && s.venue[s.feed[0].cid].acceptSeen
  {
  }

  /** A head that is not about a fill, or about one whose order is no longer outstanding, can go. */
  lemma HeadGoes(s: System, s': System)
    requires Inv(s) && |s.feed| > 0 && !s.feed[0].Accepted?
    requires s'.feed == s.feed[1..] && SizesMove(s, s') && SameSizes(s.h, s'.h)
    requires s.feed[0].Filled? ==> NobodyTracks(s, s.feed[0].cid)
    ensures Inv(s')
  {
    hide Indexed, VenueOk, KnownOk, BindingsOk, AdoptedOk, WaitsOk, CancelsOk, FeedOk, FillsOk, LiveOk, UntimedOk, SizesMove, SameIndexing, SameSizes, NobodyTracks;
    SizesSame(s, s');
    FeedBehind(s, s');
    FillsBehind(s, s');
    SizesKeep(s, s');
  }

  ghost predicate SameSizes(h: Handler, h': Handler) {
    && h'.states.Keys == h.states.Keys
    && forall q :: q in h.states ==> h'.states[q].outstanding == h.states[q].outstanding && h'.states[q].cidToNo == h.states[q].cidToNo
  }

  ghost predicate Tracks(s: System, p: Product, d: Cid, c: Cid)
    requires p in s.h.states
  {
    && c in s.venue && d in s.h.states[p].outstanding
    && (d == c || (d !in s.venue && d in s.h.states[p].cidToNo && s.h.states[p].cidToNo[d] in s.owner && s.owner[s.h.states[p].cidToNo[d]] == c))
  }

  /** No outstanding order stands for venue order `c`. */
  ghost predicate NobodyTracks(s: System, c: Cid) {
    forall p, d :: p in s.h.states && d in s.h.states[p].outstanding ==> !Tracks(s, p, d, c)
  }

  lemma FillsBehind(s: System, s': System)
    requires Inv(s) && |s.feed| > 0 && s'.venue == s.venue && s'.owner == s.owner && s'.feed == s.feed[1..] && SameSizes(s.h, s'.h)
    requires s.feed[0].Filled? ==> NobodyTracks(s, s.feed[0].cid)
    ensures FillsOk(s')
  {
    hide Indexed, VenueOk, KnownOk, BindingsOk, AdoptedOk, WaitsOk, CancelsOk, FeedOk, LiveOk, UntimedOk, Unheard;
    HeadFacts(s);
    forall c | c in s.venue
      ensures Unheard(s', c) == Unheard(s, c) - if s.feed[0].Filled? && s.feed[0].cid == c then s.feed[0].lots else 0
    {
      UnheardBehind(s, s', c);
    }
    forall q, x | q in s'.h.states && x in s'.h.states[q].outstanding
      ensures RemainderOk(s', q, x)
    {
      assert RemainderOk(s, q, x);
      assert s.feed[0].Filled? ==> !Tracks(s, q, x, s.feed[0].cid);
    }
  }

  // ---- which outstanding order stands for which venue order ----

  /** The cid an execution of `c` is routed to. */
  ghost function RouteOf(s: System, c: Cid): Option<Cid>
    requires c in s.venue
  {
    var o := s.venue[c];
    if c in s.h.cidProduct then Some(c)
    else if o.product in s.h.states && o.no in s.h.states[o.product].noToCid then Some(s.h.states[o.product].noToCid[o.no])
    else None
  }

  /** A number of this session's leads to its own cid, or to the cid it was adopted under. */
  lemma NumberLeadsHome(s: System, q: Product, x: Cid)
    requires Inv(s) && q in s.h.states && x in s.h.states[q].cidToNo && s.h.states[q].cidToNo[x] in s.owner
    ensures var no := s.h.states[q].cidToNo[x]; var c := s.owner[no];
      && c in s.venue && s.venue[c].no == no && RoutedTo(s.h, x, q)
      && (x in s.venue ==> x == c) && (x !in s.venue ==> Orphan(s, c, q))
  {
    hide KnownOk, AdoptedOk, WaitsOk, CancelsOk, FeedOk, FillsOk, LiveOk, UntimedOk;
    var no := s.h.states[q].cidToNo[x];
    assert BindingOk(s, q, x, no);
    assert OrderOk(s.owner, s.foreign, s.owner[no], s.venue[s.owner[no]]);
    if x in s.venue {
      assert OrderOk(s.owner, s.foreign, x, s.venue[x]);
    }
  }

  lemma NumberIsBound(s: System, q: Product, no: OrderNo)
    requires Inv(s) && NumberOf(s.h, no, q)
    ensures q in s.h.states && no in s.h.states[q].noToCid && no != ""
    ensures s.h.states[q].noToCid[no] in s.h.states[q].cidToNo && s.h.states[q].cidToNo[s.h.states[q].noToCid[no]] == no
  {
    hide KnownOk, AdoptedOk, WaitsOk, CancelsOk, FeedOk, FillsOk, LiveOk, UntimedOk, VenueOk;
    var x := s.h.states[q].noToCid[no];
    assert BindingOk(s, q, x, s.h.states[q].cidToNo[x]);
  }

  lemma ProductKnown(s: System, c: Cid)
    requires Inv(s) && c in s.venue
    ensures Known(s.h, c, s.venue[c]) && "" !in s.h.states
    ensures c in s.h.cidProduct ==> RoutedTo(s.h, c, s.venue[c].product)
  {
    hide VenueOk, BindingsOk, AdoptedOk, WaitsOk, CancelsOk, FeedOk, FillsOk, LiveOk, UntimedOk;
  }

  lemma RouteOfOwn(s: System, c: Cid, d: Execution)
    requires Inv(s) && c in s.venue && d.clientCid == Some(c) && d.orderNo == s.venue[c].no
    ensures Route(s.h, s.venue[c].product, d) == Routed(s.venue[c].product, RouteOf(s, c))
  {
    hide Inv;
    ProductKnown(s, c);
    if c !in s.h.cidProduct {
      if s.venue[c].no in s.h.noProduct {
        OwnNumbersProduct(s, c);
        assert NumberOf(s.h, s.venue[c].no, s.venue[c].product);
        NumberIsBound(s, s.venue[c].product, s.venue[c].no);
      } else {
        Unbound(s, s.venue[c].product, s.venue[c].no);
      }
    }
  }

  lemma Unbound(s: System, q: Product, no: OrderNo)
    requires Inv(s) && q in s.h.states && no !in s.h.noProduct
    ensures no !in s.h.states[q].noToCid
  {
    hide VenueOk, KnownOk, BindingsOk, AdoptedOk, WaitsOk, CancelsOk, FeedOk, FillsOk, LiveOk, UntimedOk;
    assert !NumberOf(s.h, no, q);
  }

  /** The number of an order whose cid was dropped is routed to the order's product, if anywhere. */
  lemma OwnNumbersProduct(s: System, c: Cid)
    requires Inv(s) && c in s.venue && s.venue[c].no in s.h.noProduct && c !in s.h.cidProduct
    ensures s.h.noProduct[s.venue[c].no] == s.venue[c].product
  {
    hide Inv;
    var no := s.venue[c].no;
    var q := s.h.noProduct[no];
    assert NumberOf(s.h, no, q);
    NumberIsBound(s, q, no);
    OwnNumber(s, c);
    NumberLeadsHome(s, q, s.h.states[q].noToCid[no]);
  }

  lemma OwnNumber(s: System, c: Cid)
    requires Inv(s) && c in s.venue && s.venue[c].no != ""
    ensures s.venue[c].no in s.owner && s.owner[s.venue[c].no] == c && s.venue[c].no !in s.foreign
  {
    hide Indexed, KnownOk, BindingsOk, AdoptedOk, WaitsOk, CancelsOk, FeedOk, FillsOk, LiveOk, UntimedOk;
    assert OrderOk(s.owner, s.foreign, c, s.venue[c]);
  }
}
