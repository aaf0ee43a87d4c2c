/** `std::map<int64_t, int32_t>` of wanted quotes, as its in-order sequence of entries. */
module Ladders {

  datatype Quote = Quote(price: int, qty: int)

  ghost predicate Sorted(l: seq<Quote>) {
    forall i, j :: 0 <= i < j < |l| ==> l[i].price < l[j].price
  }

  ghost function Prices(l: seq<Quote>): set<int> {
    set i | 0 <= i < |l| :: l[i].price
  }

  /** `rbegin()->first`. */
  function HighestPrice(l: seq<Quote>): (p: int)
    requires |l| > 0
    ensures Sorted(l) ==> forall i :: 0 <= i < |l| ==> l[i].price <= p
  {
    l[|l| - 1].price
  }

  /** Index of the first quote at or above `price`. */
  function LowerBound(l: seq<Quote>, price: int): (i: nat)
    ensures i <= |l|
    ensures forall k :: 0 <= k < i ==> l[k].price < price
    ensures i < |l| ==> price <= l[i].price
  {
    if |l| == 0 || price <= l[0].price then 0 else 1 + LowerBound(l[1..], price)
  }

  /** `map[price] = qty`. */
  function Put(l: seq<Quote>, price: int, qty: int): (r: seq<Quote>)
    requires Sorted(l)
    ensures Sorted(r) && |l| <= |r| <= |l| + 1 && |r| > 0
  {
    var i := LowerBound(l, price);
    if i < |l| && l[i].price == price then l[i := Quote(price, qty)] else l[..i] + [Quote(price, qty)] + l[i..]
  }

  /** Put overwrites the entry at `price`, or adds one, and touches no other. */
  lemma PutContents(l: seq<Quote>, price: int, qty: int)
    requires Sorted(l)
    ensures var r := Put(l, price, qty);
      && Quote(price, qty) in r
      && (forall q :: q in r ==> q == Quote(price, qty) || (q in l && q.price != price))
      && (forall q :: q in l ==> q.price == price || q in r)
  {
    hide LowerBound;
    var i := LowerBound(l, price);
    var r := Put(l, price, qty);
    assert r[i] == Quote(price, qty);
    if i < |l| && l[i].price == price {
      assert forall k :: 0 <= k < |l| && k != i ==> r[k] == l[k];
    } else {
      assert forall k :: 0 <= k < i ==> r[k] == l[k];
      assert forall k :: i <= k < |l| ==> r[k + 1] == l[k];
    }
  }

  lemma PutPrices(l: seq<Quote>, price: int, qty: int)
    requires Sorted(l)
    ensures Prices(Put(l, price, qty)) == Prices(l) + {price}
  {
    var r := Put(l, price, qty);
    PutContents(l, price, qty);
    forall p | p in Prices(r)
      ensures p in Prices(l) + {price}
    {
      var i :| 0 <= i < |r| && r[i].price == p;
      assert r[i] in r;
    }
    forall p | p in Prices(l) + {price}
      ensures p in Prices(r)
    {
      if p == price {
        assert Quote(price, qty) in r;
      } else {
        var i :| 0 <= i < |l| && l[i].price == p;
        assert l[i] in r;
      }
    }
  }

  lemma PutBelow(l: seq<Quote>, price: int, qty: int)
    requires Sorted(l) && |l| > 0 && price <= HighestPrice(l)
    ensures HighestPrice(Put(l, price, qty)) == HighestPrice(l)
  {
  }

  lemma PutAbove(l: seq<Quote>, price: int, qty: int)
    requires Sorted(l) && |l| > 0 && price >= l[0].price
    ensures var r := Put(l, price, qty); r[0].price == l[0].price
  {
  }

  /** `map.erase(iterator)`. */
  function Erase(l: seq<Quote>, i: nat): (r: seq<Quote>)
    requires i < |l|
    ensures |r| == |l| - 1
    ensures forall k :: 0 <= k < i ==> r[k] == l[k]
    ensures forall k :: i <= k < |r| ==> r[k] == l[k + 1]
    ensures Sorted(l) ==> Sorted(r)
    ensures multiset(r) + multiset{l[i]} == multiset(l)
  {
    assert l == l[..i] + [l[i]] + l[i + 1..];
    l[..i] + l[i + 1..]
  }
}
