/** OrderBook and the listener that keeps one per product: their methods change the books in
    place, and every book they publish is the top of the venue's book at some update. */
module BinanceOrderBook {
  import opened Optional
  import opened Strategy
  import opened DepthBook
  import Model = DepthBook

  class OrderBook {
    var synced: bool
    var lastUpdateId: int
    var bids: Side
    var asks: Side

    constructor ()
      ensures View() == Book(false, 0, map[], map[])
    {
      synced, lastUpdateId, bids, asks := false, 0, map[], map[];
    }

    function View(): Book
      reads this
    {
      Book(synced, lastUpdateId, bids, asks)
    }

    static method ApplySide(side: Side, levels: seq<Level>) returns (r: Side)
      ensures r == Model.ApplySide(side, levels)
    {
      r := side;
      for i := 0 to |levels|
        invariant r == Model.ApplySide(side, levels[..i])
      {
        assert levels[..i + 1][..i] == levels[..i];
        if levels[i].qty <= 0.0 {
          r := r - {levels[i].price};
        } else {
          r := r[levels[i].price := levels[i].qty];
        }
      }
      assert levels[..|levels|] == levels;
    }

    static method Listed(levels: seq<Level>) returns (r: Side)
      ensures r == ListedSide(levels)
    {
      r := map[];
      for i := 0 to |levels|
        invariant r == ListedSide(levels[..i])
      {
        assert levels[..i + 1][..i] == levels[..i];
        if levels[i].qty > 0.0 { r := r[levels[i].price := levels[i].qty]; }
      }
      assert levels[..|levels|] == levels;
    }

    method ApplySnapshot(snapshot: Snapshot)
      modifies this
      ensures View() == Model.ApplySnapshot(snapshot)
    {
      bids := Listed(snapshot.bids);
      asks := Listed(snapshot.asks);
      lastUpdateId := snapshot.lastUpdateId;
      synced := true;
    }

    method MarkDesynced()
      modifies this`synced
      ensures View() == old(View()).(synced := false)
    {
      synced := false;
    }

    method ApplyDiff(d: Diff) returns (ok: bool)
      modifies this
      ensures (View(), ok) == Model.ApplyDiff(old(View()), d)
    {
      if !synced { return false; }
      if d.u < lastUpdateId { return true; }
      var firstOk := d.U <= lastUpdateId + 1 && lastUpdateId + 1 <= d.u;
      var chainOk := d.pu == lastUpdateId;
      if !firstOk && !chainOk {
        synced := false;
        return false;
      }
      bids := ApplySide(bids, d.bids);
      asks := ApplySide(asks, d.asks);
      lastUpdateId := d.u;
      return true;
    }

    static method FirstLevels(isBid: bool, side: Side, levels: int) returns (data: seq<Level>)
      ensures data == Top(isBid, side, levels)
    {
      var entries := InOrder(isBid, side);
      data := [];
      var count := 0;
      for i := 0 to |entries|
        invariant count == i && data == entries[..i] && i <= Max(0, levels)
      {
        if count >= levels { break; }
        count := count + 1;
        data := data + [entries[i]];
      }
    }

    method ToData(levels: int) returns (bidBook: seq<Level>, askBook: seq<Level>)
      ensures bidBook == Top(true, bids, levels) && askBook == Top(false, asks, levels)
    {
      bidBook := FirstLevels(true, bids, levels);
      askBook := FirstLevels(false, asks, levels);
    }
  }

  type Product = string

  datatype Published = Published(product: Product, bids: seq<Level>, asks: seq<Level>)

  /** The published book is the top of the venue's book for the product after some update. */
  ghost predicate IsVenueTop(venue: map<Product, seq<Change>>, levels: int, m: Published, n: nat) {
    && m.product in venue && n <= |venue[m.product]|
    && IsTop(true, SideAt(BidChanges(venue[m.product]), n), levels, m.bids)
    && IsTop(false, SideAt(AskChanges(venue[m.product]), n), levels, m.asks)
  }

  lemma SyncedTop(venue: map<Product, seq<Change>>, levels: int, p: Product, b: Book)
    requires p in venue && Agrees(venue[p], b) && b.synced
    ensures b.lastUpdateId >= 0 && IsVenueTop(venue, levels, Published(p, Top(true, b.bids, levels), Top(false, b.asks, levels)), b.lastUpdateId)
  {
    TopIsTop(true, b.bids, levels);
    TopIsTop(false, b.asks, levels);
  }

  lemma FreshAgrees(history: seq<Change>)
    ensures Agrees(history, Book(false, 0, map[], map[]))
  {
  }

  lemma DesyncedAgrees(history: seq<Change>, b: Book)
    ensures Agrees(history, b.(synced := false))
  {
  }

  /** The part of the listener that keeps the order books and publishes from them. */
  class DepthListener {
    const levels: int
    // what each venue book goes through, as far as any message refers to it
    ghost const venue: map<Product, seq<Change>>
    var books: map<Product, OrderBook>
    var published: seq<Published>
    // the update each published book shows
    ghost var shows: seq<nat>

    ghost predicate Valid()
      reads this, books.Values
    {
      && (forall p, q :: p in books && q in books && p != q ==> books[p] != books[q])
      && (forall p :: p in books ==> p in venue && Agrees(venue[p], books[p].View()))
      && |shows| == |published|
      && forall i :: 0 <= i < |published| ==> IsVenueTop(venue, levels, published[i], shows[i])
    }

    constructor (levels: int, ghost venue: map<Product, seq<Change>>)
      ensures Valid() && books == map[] && published == [] && this.levels == levels && this.venue == venue
    {
      this.levels, this.venue := levels, venue;
      books, published, shows := map[], [], [];
    }

    method Publish(p: Product)
      requires Valid() && p in books && books[p].synced
      modifies this`published, this`shows
      ensures Valid()
      ensures |published| == |old(published)| + 1 && published[..|old(published)|] == old(published)
      ensures published[|old(published)|].product == p && shows[..|old(shows)|] == old(shows)
      ensures |shows| == |old(shows)| + 1 && shows[|old(shows)|] == books[p].lastUpdateId
    {
      hide Agrees, IsVenueTop, Top;
      var book := books[p];
      var bids, asks := book.ToData(levels);
      SyncedTop(venue, levels, p, book.View());
      published := published + [Published(p, bids, asks)];
      shows := shows + [book.lastUpdateId];
    }

    /** The book of a product, added if there is none yet. */
    method BookFor(p: Product) returns (book: OrderBook)
      requires Valid() && p in venue
      modifies this`books
      ensures Valid() && books.Keys == old(books.Keys) + {p} && books[p] == book
      ensures forall q :: q in old(books) ==> books[q] == old(books[q])
      ensures p !in old(books) ==> fresh(book)
    {
      hide Agrees, IsVenueTop;
      if p !in books {
        var added := new OrderBook();
        FreshAgrees(venue[p]);
        books := books[p := added];
      }
      book := books[p];
    }

    /** Desyncs the book, then takes a snapshot if one can be had, and publishes it. */
    method ResyncOrderBook(p: Product, snapshot: Option<Snapshot>)
      requires Valid() && p in venue && (snapshot.Some? ==> FromVenue(venue[p], snapshot.value))
      modifies this`books, this`published, this`shows, books.Values
      ensures Valid() && old(books.Keys) <= books.Keys == old(books.Keys) + {p}
      ensures forall q :: q in old(books) ==> books[q] == old(books[q])
      ensures p !in old(books) ==> fresh(books[p])
      ensures forall q :: q in old(books) && q != p ==> books[q].View() == old(books[q].View())
      ensures books[p].synced <==> snapshot.Some?
      ensures snapshot.None? ==> published == old(published)
      ensures snapshot.Some? ==> books[p].lastUpdateId == snapshot.value.lastUpdateId
      ensures snapshot.Some? ==>
        |published| == |old(published)| + 1 && published[|old(published)|].product == p && shows[|old(published)|] == snapshot.value.lastUpdateId
      ensures old(published) <= published && old(shows) <= shows
    {
      hide Agrees, IsVenueTop, FromVenue, ListedSide;
      var book := BookFor(p);
      Reload(book, p, snapshot);
      if snapshot.Some? { Publish(p); }
    }

    method Reload(book: OrderBook, p: Product, snapshot: Option<Snapshot>)
      requires Valid() && p in books && books[p] == book && (snapshot.Some? ==> FromVenue(venue[p], snapshot.value))
      modifies book
      ensures Valid()
      ensures book.synced <==> snapshot.Some?
      ensures snapshot.Some? ==> book.lastUpdateId == snapshot.value.lastUpdateId
    {
      hide Agrees, IsVenueTop, FromVenue, ListedSide;
      DesyncedAgrees(venue[p], book.View());
      book.MarkDesynced();
      if snapshot.None? { return; }
      SnapshotAgrees(venue[p], snapshot.value);
      book.ApplySnapshot(snapshot.value);
    }

    /** A diff of the stream for `p`; `snapshot` is what a resync would be answered with. */
    method OnDepthUpdate(p: Product, d: Diff, snapshot: Option<Snapshot>)
      requires Valid()
      requires p in books ==> FromStream(venue[p], d) && (snapshot.Some? ==> FromVenue(venue[p], snapshot.value))
      modifies this`books, this`published, this`shows, books.Values
      ensures Valid() && books == old(books)
      ensures forall q :: q in books && q != p ==> books[q].View() == old(books[q].View())
      ensures p !in books ==> published == old(published)
      ensures p in books && Model.ApplyDiff(old(books[p].View()), d).1 ==>
        books[p].View() == Model.ApplyDiff(old(books[p].View()), d).0 && |published| == |old(published)| + 1
        && published[|old(published)|].product == p && shows[|old(published)|] == books[p].lastUpdateId
      ensures p in books && !Model.ApplyDiff(old(books[p].View()), d).1 ==>
        && (books[p].synced <==> snapshot.Some?) && |published| == |old(published)| + (if snapshot.Some? then 1 else 0)
        && (snapshot.Some? ==> published[|old(published)|].product == p && shows[|old(published)|] == snapshot.value.lastUpdateId)
      ensures old(published) <= published && old(shows) <= shows
    {
      hide Agrees, IsVenueTop, FromVenue, FromStream, Follows;
      if p !in books { return; }
      var book := books[p];
      DiffKeepsAgreement(venue[p], book.View(), d);
      var ok := book.ApplyDiff(d);
      if !ok {
        ResyncOrderBook(p, snapshot);
        return;
      }
      Publish(p);
    }
  }
}
