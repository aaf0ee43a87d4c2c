/** Every step of the venue keeps the invariant. */
module VenueSteps {
  import opened Optional
  import opened Rounding
  import opened Strategy
  import opened HandlerModel
  import opened IndexInvariant
  import opened VenueModel
  import opened VenueInvariant

  /** One order replaced by a later version of itself, and at most one message told. */
  ghost predicate OneOrderMoves(s: System, s': System, c: Cid, o': VenueOrder, told: seq<FeedMessage>) {
    && c in s.venue && s'.h == s.h && s'.timedOut == s.timedOut && s'.others == s.others
    && s'.venue == s.venue[c := o'] && Evolves(s.venue[c], o')
    && s'.feed == s.feed + told && |told| <= 1
    && (s'.owner == s.owner || (o'.no != "" && o'.no !in s.owner && o'.no !in s.foreign && s'.owner == s.owner[o'.no := c]))
    && s'.foreign == s.foreign
  }

  lemma OneOrderIsAMove(s: System, s': System, c: Cid, o': VenueOrder, told: seq<FeedMessage>)
    requires OneOrderMoves(s, s', c, o', told)
    ensures VenueMoves(s, s') && FreshNumbers(s, s')
  {
  }

  lemma OneOrderVenueOk(s: System, s': System, c: Cid, o': VenueOrder, told: seq<FeedMessage>)
    requires VenueOk(s) && OneOrderMoves(s, s', c, o', told) && OrderOk(s'.owner, s'.foreign, c, o')
    requires s.venue[c].no != "" ==> o'.no == s.venue[c].no
    ensures VenueOk(s')
  {
    forall x | x in s'.venue
      ensures OrderOk(s'.owner, s'.foreign, x, s'.venue[x])
    {
      assert x != c ==> OrderOk(s.owner, s.foreign, x, s.venue[x]);
    }
  }

  lemma OneOrderUnheard(s: System, s': System, c: Cid, o': VenueOrder, told: seq<FeedMessage>)
    requires OneOrderMoves(s, s', c, o', told)
    requires s.venue[c].remaining - o'.remaining == if |told| == 1 && told[0].Filled? then told[0].lots else 0
    requires |told| == 1 && told[0].Filled? ==> told[0].cid == c
    ensures forall x :: x in s.venue ==> Unheard(s', x) == Unheard(s, x)
  {
    forall x | x in s.venue
      ensures Unheard(s', x) == Unheard(s, x)
    {
      if |told| == 1 {
        assert told == [told[0]];
        PendingAppend(s.feed, told[0], x);
      } else {
        assert s.feed + told == s.feed;
      }
    }
  }

  lemma OneOrderKeeps(s: System, s': System, c: Cid, o': VenueOrder, told: seq<FeedMessage>)
    requires Inv(s) && OneOrderMoves(s, s', c, o', told) && OrderOk(s'.owner, s'.foreign, c, o')
    requires s'.cancels == s.cancels && s'.cancelReplies == s.cancelReplies
    requires s.venue[c].remaining - o'.remaining == if |told| == 1 && told[0].Filled? then told[0].lots else 0
    requires |told| == 1 && told[0].Filled? ==> told[0].cid == c
    requires |told| == 1 ==> MessageOk(s', |s.feed|)
    requires s.venue[c].no == "" && o'.no != "" ==> Accepted(c) in told
    ensures Inv(s')
  {
    hide Indexed, VenueOk, KnownOk, BindingsOk, AdoptedOk, WaitsOk, CancelsOk, FeedOk, FillsOk, LiveOk, UntimedOk;
    OneOrderIsAMove(s, s', c, o', told);
    OneOrderVenueOk(s, s', c, o', told);
    OneOrderUnheard(s, s', c, o', told);
    CancelsStillOk(s, s');
    FeedStillOk(s, s');
    VenueStepKeeps(s, s');
  }

  lemma AcceptKeepsInv(s: System, c: Cid, no: OrderNo, answer: PlaceReply)
    requires Inv(s) && Enabled(s, Accept(c, no, answer))
    ensures Inv(Next(s, Accept(c, no, answer)))
  {
    hide Inv;
    var s' := Next(s, Accept(c, no, answer));
    OrderFacts(s, c);
    NotYetAccepted(s, c);
    assert s'.feed[..|s.feed|] == s.feed;
    OneOrderKeeps(s, s', c, s.venue[c].(phase := Live, no := no, reply := answer), [Accepted(c)]);
  }

  lemma OrderFacts(s: System, c: Cid)
    requires Inv(s) && c in s.venue
    ensures OrderOk(s.owner, s.foreign, c, s.venue[c])
  {
  }

  /** Nothing about an order without a number is in the feed, but a rejection. */
  lemma NotYetAccepted(s: System, c: Cid)
    requires Inv(s) && c in s.venue && s.venue[c].no == ""
    ensures Accepted(c) !in s.feed
  {
    forall i | 0 <= i < |s.feed|
      ensures s.feed[i] != Accepted(c)
    {
      assert MessageOk(s, i);
    }
  }

  lemma RefuseKeepsInv(s: System, c: Cid, answer: PlaceReply, onFeed: bool)
    requires Inv(s) && Enabled(s, Refuse(c, answer, onFeed))
    ensures Inv(Next(s, Refuse(c, answer, onFeed)))
  {
    hide Inv;
    var s' := Next(s, Refuse(c, answer, onFeed));
    OrderFacts(s, c);
    var told := if onFeed then [Rejected(c)] else [];
    assert s'.feed == s.feed + told;
    OneOrderKeeps(s, s', c, s.venue[c].(phase := Dead, reply := answer), told);
  }

  /** A live order's messages may follow in the feed: it is accepted already, or its acceptance
      is on the way. */
  lemma LiveOrderAnnounced(s: System, c: Cid)
    requires Inv(s) && c in s.venue && s.venue[c].no != ""
    ensures s.feed[..|s.feed|] == s.feed && AcceptedBefore(s, c, |s.feed|)
  {
    hide Indexed, VenueOk, KnownOk, BindingsOk, AdoptedOk, WaitsOk, CancelsOk, FillsOk, LiveOk, UntimedOk;
  }

  lemma TradeKeepsInv(s: System, c: Cid, lots: int)
    requires Inv(s) && Enabled(s, Trade(c, lots))
    ensures Inv(Next(s, Trade(c, lots)))
  {
    hide Inv;
    var s' := Next(s, Trade(c, lots));
    var o := s.venue[c];
    var left := o.remaining - lots;
    OrderFacts(s, c);
    MultiplesSubtract(o.remaining, lots, o.lot);
    LiveOrderAnnounced(s, c);
    assert s'.feed[..|s.feed|] == s.feed;
    OneOrderKeeps(s, s', c, o.(remaining := left, phase := if left == 0 then Dead else Live), [Filled(c, lots)]);
  }

  /** Reporting a live order open: the report says what is left after everything before it. */
  lemma ReportKeepsInv(s: System, c: Cid)
    requires Inv(s) && Enabled(s, Report(c))
    ensures Inv(Next(s, Report(c)))
  {
    hide Inv;
    var s' := Next(s, Report(c));
    OrderFacts(s, c);
    LiveOrderAnnounced(s, c);
    assert s'.feed[..|s.feed|] == s.feed;
    assert s'.feed[|s.feed| + 1..] == [];
    OneOrderKeeps(s, s', c, s.venue[c], [Reported(c, s.venue[c].remaining)]);
  }

  lemma MultiplesSubtract(a: int, b: int, m: int)
    requires m >= 1 && a % m == 0 && b % m == 0
    ensures (a - b) % m == 0
  {
    var i, j := a / m, b / m;
    assert a - b == (i - j) * m;
    MultipleHasNoRemainder(i - j, m);
  }

  lemma KillKeepsInv(s: System, c: Cid)
    requires Inv(s) && c in s.venue
    ensures Inv(Kill(s, c)) && VenueMoves(s, Kill(s, c)) && FreshNumbers(s, Kill(s, c))
    ensures Kill(s, c).venue[c].phase != Live
  {
    hide Inv;
    var s' := Kill(s, c);
    if s.venue[c].phase == Live {
      OrderFacts(s, c);
      LiveOrderAnnounced(s, c);
      assert s'.feed[..|s.feed|] == s.feed;
      OneOrderKeeps(s, s', c, s.venue[c].(phase := Dead), [Cancelled(c)]);
      OneOrderIsAMove(s, s', c, s.venue[c].(phase := Dead), [Cancelled(c)]);
    }
  }

  lemma TakeCancelKeepsInv(s: System, request: CancelInFlight, effect: bool, verdict: Option<CancelReply>, again: bool)
    requires Inv(s) && Enabled(s, TakeCancel(request, effect, verdict, again))
    ensures Inv(Next(s, TakeCancel(request, effect, verdict, again)))
  {
    hide Inv;
    var s' := Next(s, TakeCancel(request, effect, verdict, again));
    var killed := effect && request.no in s.owner && s.owner[request.no] in s.venue;
    var s1 := if killed then Kill(s, s.owner[request.no]) else s;
    if killed {
      KillKeepsInv(s, s.owner[request.no]);
    }
    RequestFacts(s, request);
    RequestStays(s, s1, request, killed);
    VerdictIsSound(s, s1, request, effect, verdict);
    AnswerKeepsInv(s1, s', verdict);
  }

  lemma RequestFacts(s: System, request: CancelInFlight)
    requires Inv(s) && request in s.cancels
    ensures CancelOk(s, request.cid, request.no)
  {
  }

  lemma RequestStays(s: System, s1: System, request: CancelInFlight, killed: bool)
    requires CancelOk(s, request.cid, request.no) && (if killed then VenueMoves(s, s1) else s1 == s)
    ensures CancelOk(s1, request.cid, request.no)
  {
    if killed {
      CancelsUnmoved(s, s1, request.cid, request.no);
    }
  }

  /** A cancel answered as done or as unknown leaves its order dead. */
  lemma VerdictIsSound(s: System, s1: System, request: CancelInFlight, effect: bool, verdict: Option<CancelReply>)
    requires Inv(s) && Enabled(s, TakeCancel(request, effect, verdict, true))
    requires s1 == if effect && request.no in s.owner && s.owner[request.no] in s.venue then Kill(s, s.owner[request.no]) else s
    ensures verdict.Some? && (verdict.value.success || verdict.value.gone) ==> GoneOk(s1, request.no)
  {
    hide Inv;
    if request.no in s.owner {
      var c := s.owner[request.no];
      OwnerFacts(s, request.no);
      OrderFacts(s, c);
    }
  }

  lemma OwnerFacts(s: System, no: OrderNo)
    requires Inv(s) && no in s.owner
    ensures s.owner[no] in s.venue && s.venue[s.owner[no]].no == no && no != ""
  {
  }

  lemma AnswerKeepsInv(s: System, s': System, verdict: Option<CancelReply>)
    requires Inv(s) && s'.cancels <= s.cancels
    requires s' == s.(cancels := s'.cancels, cancelReplies := s.cancelReplies + if verdict.Some? then {verdict.value} else {})
    requires verdict.Some? ==> CancelOk(s, verdict.value.cid, verdict.value.no)
    requires verdict.Some? && (verdict.value.success || verdict.value.gone) ==> GoneOk(s, verdict.value.no)
    ensures Inv(s')
  {
    hide Indexed, VenueOk, KnownOk, BindingsOk, AdoptedOk, WaitsOk, CancelsOk, FeedOk, FillsOk, LiveOk, UntimedOk, CancelOk;
    CancelsStillOk(s, s');
    SameVenue(s, s');
    FeedStillOk(s, s');
    VenueStepKeeps(s, s');
  }

  lemma ForeignEventKeepsInv(s: System, p: Product, d: Execution)
    requires Inv(s) && Enabled(s, ForeignEvent(p, d))
    ensures Inv(Next(s, ForeignEvent(p, d)))
  {
    hide Indexed, KnownOk, BindingsOk, AdoptedOk, WaitsOk, CancelsOk, FillsOk, LiveOk, UntimedOk;
    var s' := Next(s, ForeignEvent(p, d));
    ForeignVenueOk(s, s', d.orderNo);
    assert s'.feed[..|s.feed|] == s.feed;
    forall x | x in s.venue
      ensures Unheard(s', x) == Unheard(s, x)
    {
      PendingAppend(s.feed, Foreign(p, d), x);
    }
    hide Indexed, VenueOk, KnownOk, BindingsOk, AdoptedOk, WaitsOk, CancelsOk, FeedOk, FillsOk, LiveOk, UntimedOk;
    CancelsStillOk(s, s');
    FeedStillOk(s, s');
    VenueStepKeeps(s, s');
  }

  lemma ForeignVenueOk(s: System, s': System, no: OrderNo)
    requires VenueOk(s) && s'.venue == s.venue && s'.owner == s.owner && s'.foreign == s.foreign + {no}
    requires no != "" && no !in s.owner
    ensures VenueOk(s')
  {
    forall c | c in s'.venue
      ensures OrderOk(s'.owner, s'.foreign, c, s'.venue[c])
    {
      assert OrderOk(s.owner, s.foreign, c, s.venue[c]);
    }
  }
}
