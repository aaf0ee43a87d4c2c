/** The local Binance order book and the venue's book it must agree with. */
module DepthBook {
  import opened Strategy

  type Price = p: real | p >= 0.0

  datatype Level = Level(price: Price, qty: real)

  type Side = map<Price, real>

  datatype Book = Book(synced: bool, lastUpdateId: int, bids: Side, asks: Side)

  datatype Diff = Diff(U: int, u: int, pu: int, bids: seq<Level>, asks: seq<Level>)

  datatype Snapshot = Snapshot(lastUpdateId: int, bids: seq<Level>, asks: seq<Level>)

  // ---- what the operations compute ----

  /** A level with no quantity is removed, any other set. */
  function SetLevel(side: Side, l: Level): Side {
    if l.qty <= 0.0 then side - {l.price} else side[l.price := l.qty]
  }

  function ApplySide(side: Side, levels: seq<Level>): Side {
    if |levels| == 0 then side
    else SetLevel(ApplySide(side, levels[..|levels| - 1]), levels[|levels| - 1])
  }

  function ListedSide(levels: seq<Level>): Side {
    if |levels| == 0 then map[]
    else
      var l := levels[|levels| - 1];
      var before := ListedSide(levels[..|levels| - 1]);
      if l.qty > 0.0 then before[l.price := l.qty] else before
  }

  function ApplySnapshot(s: Snapshot): Book {
    Book(true, s.lastUpdateId, ListedSide(s.bids), ListedSide(s.asks))
  }

  predicate IsStale(b: Book, d: Diff) { d.u < b.lastUpdateId }

  predicate Follows(b: Book, d: Diff) {
    (d.U <= b.lastUpdateId + 1 && b.lastUpdateId + 1 <= d.u) || d.pu == b.lastUpdateId
  }

  function ApplyDiff(b: Book, d: Diff): (Book, bool) {
    if !b.synced then (b, false)
    else if IsStale(b, d) then (b, true)
    else if !Follows(b, d) then (b.(synced := false), false)
    else (Book(true, d.u, ApplySide(b.bids, d.bids), ApplySide(b.asks, d.asks)), true)
  }

  // ---- the venue ----

  /** One update of the venue's book: the levels it sets, a quantity of zero removing one. */
  datatype Change = Change(bids: map<Price, real>, asks: map<Price, real>)

  function Overlay(side: Side, change: map<Price, real>): Side {
    map p | p in side.Keys + change.Keys && (p in change ==> change[p] > 0.0) :: if p in change then change[p] else side[p]
  }

  /** The venue's side after the first `n` updates. */
  function SideAt(changes: seq<map<Price, real>>, n: nat): Side
    requires n <= |changes|
  {
    if n == 0 then map[] else Overlay(SideAt(changes, n - 1), changes[n - 1])
  }

  function BidChanges(history: seq<Change>): seq<map<Price, real>> {
    seq(|history|, i requires 0 <= i < |history| => history[i].bids)
  }

  function AskChanges(history: seq<Change>): seq<map<Price, real>> {
    seq(|history|, i requires 0 <= i < |history| => history[i].asks)
  }

  function Qty(side: Side, price: Price): real {
    if price in side then side[price] else 0.0
  }

  /** Lists the absolute quantity at update `u` of every level changed after `pu`, and of no level
      anything else. */
  ghost predicate ListsChanges(changes: seq<map<Price, real>>, pu: nat, u: nat, levels: seq<Level>)
    requires pu <= u <= |changes|
  {
    && (forall l :: l in levels ==> l.qty == Qty(SideAt(changes, u), l.price))
    && (forall k, p :: pu <= k < u && p in changes[k] ==> exists l :: l in levels && l.price == p)
  }

  /** A message of the venue's diff stream. */
  ghost predicate FromStream(history: seq<Change>, d: Diff) {
    && 0 <= d.pu < d.U <= d.u <= |history|
    && ListsChanges(BidChanges(history), d.pu, d.u, d.bids)
    && ListsChanges(AskChanges(history), d.pu, d.u, d.asks)
  }

  ghost predicate ListsSide(side: Side, levels: seq<Level>) {
    && (forall l :: l in levels ==> l.qty == Qty(side, l.price))
    && (forall p :: p in side ==> exists l :: l in levels && l.price == p)
  }

  /** A full snapshot of the venue's book. */
  ghost predicate FromVenue(history: seq<Change>, s: Snapshot) {
    && 0 <= s.lastUpdateId <= |history|
    && ListsSide(SideAt(BidChanges(history), s.lastUpdateId), s.bids)
    && ListsSide(SideAt(AskChanges(history), s.lastUpdateId), s.asks)
  }

  /** Synced means equal to the venue's book at the last update id. */
  ghost predicate Agrees(history: seq<Change>, b: Book) {
    b.synced ==>
      && 0 <= b.lastUpdateId <= |history|
      && b.bids == SideAt(BidChanges(history), b.lastUpdateId)
      && b.asks == SideAt(AskChanges(history), b.lastUpdateId)
  }

  // ---- the book agrees with the venue ----

  lemma {:induction false} SideIsPositive(changes: seq<map<Price, real>>, n: nat)
    requires n <= |changes|
    ensures forall p :: p in SideAt(changes, n) ==> SideAt(changes, n)[p] > 0.0
  {
    if n > 0 {
      SideIsPositive(changes, n - 1);
    }
  }

  /** A level none of the updates mentions keeps its quantity. */
  lemma {:induction false} UnchangedLevel(changes: seq<map<Price, real>>, n: nat, u: nat, p: Price)
    requires n <= u <= |changes| && forall k :: n <= k < u ==> p !in changes[k]
    ensures Qty(SideAt(changes, u), p) == Qty(SideAt(changes, n), p)
  {
    if n < u {
      UnchangedLevel(changes, n, u - 1, p);
    }
  }

  /** Applying levels sets the listed ones, to the last quantity listed, and leaves the others. */
  lemma {:induction false} ApplySideQty(side: Side, levels: seq<Level>, q: Price -> real)
    requires forall l :: l in levels ==> l.qty == q(l.price)
    requires forall p :: q(p) >= 0.0
    requires forall p :: p in side ==> side[p] > 0.0
    ensures var r := ApplySide(side, levels);
      && (forall p :: p in r ==> r[p] > 0.0)
      && forall p :: Qty(r, p) == if exists l :: l in levels && l.price == p then q(p) else Qty(side, p)
  {
    if |levels| > 0 {
      var n := |levels| - 1;
      var before := levels[..n];
      assert forall l :: l in levels <==> l in before || l == levels[n];
      ApplySideQty(side, before, q);
      var r := ApplySide(side, levels);
      forall p
        ensures Qty(r, p) == if exists l :: l in levels && l.price == p then q(p) else Qty(side, p)
      {
        ListedIn(levels, p);
      }
    }
  }

  lemma ListedIn(levels: seq<Level>, p: Price)
    requires |levels| > 0
    ensures (exists l :: l in levels && l.price == p) <==>
      (exists l :: l in levels[..|levels| - 1] && l.price == p) || levels[|levels| - 1].price == p
  {
    assert levels == levels[..|levels| - 1] + [levels[|levels| - 1]];
  }

  lemma SameQtySameSide(a: Side, b: Side)
    requires (forall p :: p in a ==> a[p] > 0.0) && forall p :: p in b ==> b[p] > 0.0
    requires forall p :: Qty(a, p) == Qty(b, p)
    ensures a == b
  {
    forall p
      ensures p in a <==> p in b
      ensures p in a ==> p in b && a[p] == b[p]
    {
      assert Qty(a, p) == Qty(b, p);
    }
  }

  lemma SideCatchesUp(changes: seq<map<Price, real>>, pu: nat, n: nat, u: nat, levels: seq<Level>)
    requires pu <= n <= u <= |changes| && ListsChanges(changes, pu, u, levels)
    ensures ApplySide(SideAt(changes, n), levels) == SideAt(changes, u)
  {
    var side, target := SideAt(changes, n), SideAt(changes, u);
    SideIsPositive(changes, n);
    SideIsPositive(changes, u);
    ApplySideQty(side, levels, (p: Price) => Qty(target, p));
    var r := ApplySide(side, levels);
    forall p
      ensures Qty(r, p) == Qty(target, p)
    {
      if !exists l :: l in levels && l.price == p {
        assert forall k :: pu <= k < u ==> p !in changes[k];
        UnchangedLevel(changes, n, u, p);
      }
    }
    SameQtySameSide(r, target);
  }

  /** A diff the book accepts takes it from the venue's book at one update to the venue's book at
      a later one, whichever of the two rules accepted it. */
  lemma DiffKeepsAgreement(history: seq<Change>, b: Book, d: Diff)
    requires Agrees(history, b) && FromStream(history, d)
    ensures Agrees(history, ApplyDiff(b, d).0)
  {
    if b.synced && !IsStale(b, d) && Follows(b, d) {
      SideCatchesUp(BidChanges(history), d.pu, b.lastUpdateId, d.u, d.bids);
      SideCatchesUp(AskChanges(history), d.pu, b.lastUpdateId, d.u, d.asks);
    }
  }

  lemma {:induction false} ListedSideQty(levels: seq<Level>, q: Price -> real)
    requires forall l :: l in levels ==> l.qty == q(l.price)
    ensures var r := ListedSide(levels);
      && (forall p :: p in r ==> r[p] > 0.0)
      && forall p :: p in r <==> q(p) > 0.0 && exists l :: l in levels && l.price == p
    ensures forall p :: p in ListedSide(levels) ==> ListedSide(levels)[p] == q(p)
  {
    if |levels| > 0 {
      var n := |levels| - 1;
      var before := levels[..n];
      assert forall l :: l in levels <==> l in before || l == levels[n];
      ListedSideQty(before, q);
      forall p
        ensures p in ListedSide(levels) <==> q(p) > 0.0 && exists l :: l in levels && l.price == p
      {
        ListedIn(levels, p);
      }
    }
  }

  lemma SnapshotSide(changes: seq<map<Price, real>>, n: nat, levels: seq<Level>)
    requires n <= |changes| && ListsSide(SideAt(changes, n), levels)
    ensures ListedSide(levels) == SideAt(changes, n)
  {
    var target := SideAt(changes, n);
    SideIsPositive(changes, n);
    ListedSideQty(levels, (p: Price) => Qty(target, p));
    var r := ListedSide(levels);
    forall p
      ensures p in r <==> p in target
      ensures p in r ==> p in target && r[p] == target[p]
    {
      assert p in target ==> Qty(target, p) > 0.0;
    }
    assert r.Keys == target.Keys;
  }

  lemma SnapshotAgrees(history: seq<Change>, s: Snapshot)
    requires FromVenue(history, s)
    ensures Agrees(history, ApplySnapshot(s))
  {
    SnapshotSide(BidChanges(history), s.lastUpdateId, s.bids);
    SnapshotSide(AskChanges(history), s.lastUpdateId, s.asks);
  }

  /** On a synced book a diff of the stream is dropped, applied, or takes the book out of sync: it
      is applied, and moves the book strictly forward, exactly when the book's update lies at the
      diff's `pu` or in its range; it breaks the sync exactly when it is neither older nor that. */
  lemma DiffOutcomeIff(history: seq<Change>, b: Book, d: Diff)
    requires Agrees(history, b) && FromStream(history, d) && b.synced
    ensures var (after, ok) := ApplyDiff(b, d);
      && (ok <==> after.synced)
      && (ok && after != b ==> after.lastUpdateId == d.u)
      && (ok && after.lastUpdateId > b.lastUpdateId <==> b.lastUpdateId < d.u && (d.U <= b.lastUpdateId + 1 || d.pu == b.lastUpdateId))
      && (!ok <==> d.u == b.lastUpdateId || (b.lastUpdateId < d.pu || d.pu < b.lastUpdateId < d.U - 1))
      && (ok ==> after.lastUpdateId >= b.lastUpdateId)
  {
  }

  // ---- a stream of diffs ----

  /** The book after a stream of diffs; once out of sync it stays so until the next snapshot. */
  function AfterDiffs(b: Book, diffs: seq<Diff>): Book {
    if |diffs| == 0 then b else ApplyDiff(AfterDiffs(b, diffs[..|diffs| - 1]), diffs[|diffs| - 1]).0
  }

  /** Messages of the venue's stream, none missing: each starts where the one before it ended. */
  ghost predicate Chained(history: seq<Change>, diffs: seq<Diff>) {
    && (forall i :: 0 <= i < |diffs| ==> FromStream(history, diffs[i]))
    && forall i :: 0 < i < |diffs| ==> diffs[i].pu == diffs[i - 1].u
  }

  /** Which streams a book at update `id` can take up: it begins early enough, no message ends
      exactly at `id`, and none jumps over it. */
  ghost predicate TakesUp(id: int, diffs: seq<Diff>) {
    && (|diffs| > 0 ==> diffs[0].pu <= id)
    && forall i :: 0 <= i < |diffs| ==> diffs[i].u != id && !(diffs[i].pu < id < diffs[i].U - 1)
  }

  /** A book put in sync at some update stays in sync over an unbroken stream exactly when the
      stream can be taken up there, and then is the venue's book at the end of the stream. */
  lemma {:induction false} StreamKeepsSyncIff(history: seq<Change>, b: Book, diffs: seq<Diff>)
    requires Agrees(history, b) && b.synced && Chained(history, diffs)
    ensures Agrees(history, AfterDiffs(b, diffs))
    ensures AfterDiffs(b, diffs).synced <==> TakesUp(b.lastUpdateId, diffs)
    ensures var end := if |diffs| > 0 then diffs[|diffs| - 1].u else b.lastUpdateId;
      AfterDiffs(b, diffs).synced ==> AfterDiffs(b, diffs).lastUpdateId == Max(b.lastUpdateId, end)
    decreases |diffs|
  {
    hide FromStream, Agrees;
    if |diffs| > 0 {
      var n := |diffs| - 1;
      var before := AfterDiffs(b, diffs[..n]);
      StreamKeepsSyncIff(history, b, diffs[..n]);
      DiffKeepsAgreement(history, before, diffs[n]);
      StreamRange(history, diffs[n]);
      TakesUpMore(b.lastUpdateId, diffs);
    }
  }

  lemma StreamRange(history: seq<Change>, d: Diff)
    requires FromStream(history, d)
    ensures d.pu < d.U <= d.u
  {
  }

  lemma TakesUpMore(id: int, diffs: seq<Diff>)
    requires |diffs| > 0
    ensures var n := |diffs| - 1; var d := diffs[n];
      TakesUp(id, diffs) <==>
        TakesUp(id, diffs[..n]) && d.u != id && !(d.pu < id < d.U - 1) && (n == 0 ==> d.pu <= id)
  {
    var n := |diffs| - 1;
    assert forall i :: 0 <= i < n ==> diffs[..n][i] == diffs[i];
  }

  /** A message ending exactly at the snapshot's id is one the exchange's rule starts from and the
      book takes for a gap: after the venue's first change, the message of that change. */
  lemma DiffEndingAtSnapshotDesyncs() returns (history: seq<Change>, s: Snapshot, d: Diff)
    ensures FromVenue(history, s) && FromStream(history, d)
    ensures d.U <= s.lastUpdateId <= d.u
    ensures !ApplyDiff(ApplySnapshot(s), d).0.synced
  {
    var change: map<Price, real> := map[100.0 := 1.0];
    history := [Change(change, map[])];
    var level := Level(100.0, 1.0);
    s, d := Snapshot(1, [level], []), Diff(1, 1, 0, [level], []);
    assert SideAt(BidChanges(history), 0) == map[] && SideAt(AskChanges(history), 0) == map[];
    assert SideAt(BidChanges(history), 1) == change;
    assert SideAt(AskChanges(history), 1) == map[];
    assert level in s.bids && level.price == 100.0;
  }

  /** Extending the venue's history changes nothing about the book it had. */
  lemma HistoryExtends(history: seq<Change>, more: seq<Change>, b: Book)
    requires Agrees(history, b)
    ensures Agrees(history + more, b)
  {
    if b.synced {
      PrefixSide(BidChanges(history), BidChanges(history + more), b.lastUpdateId);
      PrefixSide(AskChanges(history), AskChanges(history + more), b.lastUpdateId);
    }
  }

  lemma {:induction false} PrefixSide(changes: seq<map<Price, real>>, longer: seq<map<Price, real>>, n: nat)
    requires n <= |changes| <= |longer| && forall i :: 0 <= i < |changes| ==> longer[i] == changes[i]
    ensures SideAt(longer, n) == SideAt(changes, n)
  {
    if n > 0 {
      PrefixSide(changes, longer, n - 1);
    }
  }

  // ---- the published book ----

  /** `a` comes before `b`: the higher bid, the lower ask. */
  predicate Better(isBid: bool, a: Price, b: Price) {
    if isBid then a > b else a < b
  }

  lemma BestExists(isBid: bool, prices: set<Price>)
    requires prices != {}
    ensures exists m :: m in prices && forall p :: p in prices && p != m ==> Better(isBid, m, p)
  {
    var c :| c in prices;
    var rest := prices - {c};
    if rest == {} {
      assert prices == {c};
    } else {
      BestExists(isBid, rest);
      var m :| m in rest && forall p :: p in rest && p != m ==> Better(isBid, m, p);
      var best := if Better(isBid, c, m) then c else m;
      assert prices == rest + {c};
      assert best in prices && forall p :: p in prices && p != best ==> Better(isBid, best, p);
    }
  }

  function Best(isBid: bool, prices: set<Price>): (m: Price)
    requires prices != {}
    ensures m in prices && forall p :: p in prices && p != m ==> Better(isBid, m, p)
  {
    BestExists(isBid, prices);
    var m :| m in prices && forall p :: p in prices && p != m ==> Better(isBid, m, p);
    m
  }

  /** The levels of a side in the order its map iterates them. */
  function InOrder(isBid: bool, side: Side): (levels: seq<Level>)
    ensures |levels| == |side|
    decreases |side|
  {
    if |side| == 0 then []
    else
      var best := Best(isBid, side.Keys);
      var rest := side - {best};
      assert side.Keys == rest.Keys + {best};
      [Level(best, side[best])] + InOrder(isBid, rest)
  }

  function Top(isBid: bool, side: Side, levels: int): seq<Level> {
    InOrder(isBid, side)[..Max(0, Min(levels, |side|))]
  }

  /** Up to `levels` levels of `side`, best first, and none better left out. */
  ghost predicate IsTop(isBid: bool, side: Side, levels: int, data: seq<Level>) {
    && |data| == Max(0, Min(levels, |side|))
    && (forall i :: 0 <= i < |data| ==> data[i].price in side && side[data[i].price] == data[i].qty)
    && (forall i, j :: 0 <= i < j < |data| ==> Better(isBid, data[i].price, data[j].price))
    && (forall i, p :: 0 <= i < |data| && p in side && LeftOut(data, p) ==> Better(isBid, data[i].price, p))
  }

  ghost predicate LeftOut(data: seq<Level>, price: Price) {
    forall j :: 0 <= j < |data| ==> data[j].price != price
  }

  lemma TopUnfolds(isBid: bool, side: Side, levels: int)
    requires levels > 0 && |side| > 0
    ensures var best := Best(isBid, side.Keys);
      |side - {best}| == |side| - 1 && Top(isBid, side, levels) == [Level(best, side[best])] + Top(isBid, side - {best}, levels - 1)
  {
    var best := Best(isBid, side.Keys);
    assert side.Keys == (side - {best}).Keys + {best};
  }

  lemma {:induction false} TopIsTop(isBid: bool, side: Side, levels: int)
    ensures IsTop(isBid, side, levels, Top(isBid, side, levels))
    decreases |side|
  {
    hide IsTop, Top, InOrder, Best;
    if levels > 0 && |side| > 0 {
      var best := Best(isBid, side.Keys);
      var rest := side - {best};
      TopUnfolds(isBid, side, levels);
      TopIsTop(isBid, rest, levels - 1);
      TopFirst(isBid, side, best, levels, Top(isBid, rest, levels - 1), Top(isBid, side, levels));
    } else {
      NoTop(isBid, side, levels);
    }
  }

  lemma NoTop(isBid: bool, side: Side, levels: int)
    requires levels <= 0 || |side| == 0
    ensures IsTop(isBid, side, levels, Top(isBid, side, levels))
  {
    assert Top(isBid, side, levels) == [];
  }

  lemma TopFirst(isBid: bool, side: Side, best: Price, levels: int, tail: seq<Level>, data: seq<Level>)
    requires best in side && forall p :: p in side && p != best ==> Better(isBid, best, p)
    requires levels > 0 && IsTop(isBid, side - {best}, levels - 1, tail) && data == [Level(best, side[best])] + tail
    requires |side - {best}| == |side| - 1
    ensures IsTop(isBid, side, levels, data)
  {
    FirstIsBetter(isBid, side, best, tail, data);
    FirstIsListed(side, best, tail, data);
    FirstIsFirst(isBid, side, best, tail, data);
    hide Better, LeftOut;
  }

  lemma FirstIsListed(side: Side, best: Price, tail: seq<Level>, data: seq<Level>)
    requires best in side && data == [Level(best, side[best])] + tail
    requires forall i :: 0 <= i < |tail| ==> tail[i].price in side - {best} && (side - {best})[tail[i].price] == tail[i].qty
    ensures forall i :: 0 <= i < |data| ==> data[i].price in side && side[data[i].price] == data[i].qty
  {
    assert data[0] == Level(best, side[best]);
    forall i | 0 < i < |data|
      ensures data[i].price in side && side[data[i].price] == data[i].qty
    {
      assert data[i] == tail[i - 1];
    }
  }

  lemma FirstIsFirst(isBid: bool, side: Side, best: Price, tail: seq<Level>, data: seq<Level>)
    requires best in side && (forall p :: p in side && p != best ==> Better(isBid, best, p)) && data == [Level(best, side[best])] + tail
    requires forall i :: 0 <= i < |tail| ==> tail[i].price in side - {best}
    requires forall i, j :: 0 <= i < j < |tail| ==> Better(isBid, tail[i].price, tail[j].price)
    ensures forall i, j :: 0 <= i < j < |data| ==> Better(isBid, data[i].price, data[j].price)
  {
    hide Better;
    forall i, j | 0 <= i < j < |data|
      ensures Better(isBid, data[i].price, data[j].price)
    {
      assert data[j] == tail[j - 1] && tail[j - 1].price in side - {best};
      if i > 0 {
        assert data[i] == tail[i - 1];
      }
    }
  }

  /** No level left out is better than one listed. */
  lemma FirstIsBetter(isBid: bool, side: Side, best: Price, tail: seq<Level>, data: seq<Level>)
    requires best in side && (forall p :: p in side && p != best ==> Better(isBid, best, p)) && data == [Level(best, side[best])] + tail
    requires forall i, p :: 0 <= i < |tail| && p in side - {best} && LeftOut(tail, p) ==> Better(isBid, tail[i].price, p)
    ensures forall i, p :: 0 <= i < |data| && p in side && LeftOut(data, p) ==> Better(isBid, data[i].price, p)
  {
    forall i, p | 0 <= i < |data| && p in side && LeftOut(data, p)
      ensures Better(isBid, data[i].price, p)
    {
      assert data[0].price == best && p != best;
      assert forall j :: 0 <= j < |tail| ==> tail[j] == data[j + 1];
      assert LeftOut(tail, p) && p in side - {best};
      if i > 0 {
        assert data[i] == tail[i - 1];
      }
    }
  }
}
