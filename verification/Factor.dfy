/** The pricer's factor: clamped, then smoothed. */
module Factor {
  import opened Optional

  function Clamp(x: real, low: real, high: real): real { if x < low then low else if high < x then high else x }

  /** The smoothed factor after a sequence of raw ones, latest last. */
  function Smoothed(alpha: real, raws: seq<real>): (r: real)
    requires |raws| > 0
  {
    var n := |raws| - 1;
    if n == 0 || alpha >= 1.0 then raws[n] else alpha * raws[n] + (1.0 - alpha) * Smoothed(alpha, raws[..n])
  }

  lemma SmoothedAppend(alpha: real, raws: seq<real>, raw: real)
    ensures Smoothed(alpha, raws + [raw]) ==
      if |raws| == 0 || alpha >= 1.0 then raw else alpha * raw + (1.0 - alpha) * Smoothed(alpha, raws)
  {
    assert (raws + [raw])[..|raws|] == raws;
  }

  lemma Blend(alpha: real, x: real, y: real, low: real, high: real)
    requires 0.0 <= alpha <= 1.0 && low <= x <= high && low <= y <= high
    ensures low <= alpha * x + (1.0 - alpha) * y <= high
  {
    assert alpha * x + (1.0 - alpha) * y - low == alpha * (x - low) + (1.0 - alpha) * (y - low);
    assert high - (alpha * x + (1.0 - alpha) * y) == alpha * (high - x) + (1.0 - alpha) * (high - y);
    NotNegative(alpha, x - low);
    NotNegative(1.0 - alpha, y - low);
    NotNegative(alpha, high - x);
    NotNegative(1.0 - alpha, high - y);
  }

  lemma NotNegative(a: real, b: real)
    requires a >= 0.0 && b >= 0.0
    ensures a * b >= 0.0
  {
  }

  /** Smoothing never leaves the range of what is smoothed, however long the run. */
  lemma {:induction false} SmoothedStaysWithin(alpha: real, raws: seq<real>, low: real, high: real)
    requires |raws| > 0 && alpha >= 0.0 && forall i :: 0 <= i < |raws| ==> low <= raws[i] <= high
    ensures low <= Smoothed(alpha, raws) <= high
  {
    var n := |raws| - 1;
    if n > 0 && alpha < 1.0 {
      SmoothedStaysWithin(alpha, raws[..n], low, high);
      Blend(alpha, raws[n], Smoothed(alpha, raws[..n]), low, high);
    }
  }

  class MicropriceFactor {
    const emaAlpha: real
    const capBp: real
    // a size raised to the configured exponent
    const weigh: real -> real
    var emaFactor: Option<real>
    // the clamped factors so far
    ghost var raws: seq<real>

    ghost predicate Valid()
      reads this
    {
      && emaAlpha >= 0.0 && capBp >= 0.0
      && (forall i :: 0 <= i < |raws| ==> 1.0 - capBp / 10000.0 <= raws[i] <= 1.0 + capBp / 10000.0)
      && emaFactor == if |raws| == 0 then None else Some(Smoothed(emaAlpha, raws))
    }

    constructor (emaAlpha: real, capBp: real, weigh: real -> real)
      requires emaAlpha >= 0.0 && capBp >= 0.0
      ensures Valid() && raws == [] && this.emaAlpha == emaAlpha && this.capBp == capBp && this.weigh == weigh
    {
      this.emaAlpha, this.capBp, this.weigh, emaFactor, raws := emaAlpha, capBp, weigh, None, [];
    }

    method ApplyEma(raw: real) returns (r: real)
      requires Valid() && 1.0 - capBp / 10000.0 <= raw <= 1.0 + capBp / 10000.0
      modifies this`emaFactor, this`raws
      ensures Valid() && raws == old(raws) + [raw] && r == Smoothed(emaAlpha, raws)
    {
      hide Smoothed;
      ghost var before := raws;
      SmoothedAppend(emaAlpha, before, raw);
      if emaFactor.None? || emaAlpha >= 1.0 {
        r := raw;
      } else {
        r := emaAlpha * raw + (1.0 - emaAlpha) * emaFactor.value;
      }
      emaFactor := Some(r);
      raws := raws + [raw];
      assert r == Smoothed(emaAlpha, raws);
      assert forall i :: 0 <= i < |raws| ==> raws[i] == if i < |before| then before[i] else raw;
    }

    /** The published factor stays within the cap on every run. Each price is weighed by the other
        side's size. */
    method Compute(twoSided: bool, bbid: real, bask: real, bidQty: real, askQty: real) returns (factor: Option<real>)
      requires Valid()
      modifies this`emaFactor, this`raws
      ensures Valid()
      ensures factor.None? <==> !twoSided || (bbid + bask) / 2.0 <= 0.0 || weigh(bidQty) + weigh(askQty) <= 0.0
      ensures factor.None? ==> raws == old(raws) && emaFactor == old(emaFactor)
      ensures factor.Some? ==>
        raws == old(raws) + [Raw(weigh, capBp, bbid, bask, bidQty, askQty)] && factor.value == Smoothed(emaAlpha, raws)
      ensures factor.Some? ==> 1.0 - capBp / 10000.0 <= factor.value <= 1.0 + capBp / 10000.0
    {
      hide Smoothed;
      if !twoSided { return None; }
      var mid := (bbid + bask) / 2.0;
      if mid <= 0.0 { return None; }
      var bidWeight, askWeight := weigh(askQty), weigh(bidQty);
      var total := bidWeight + askWeight;
      if !(total > 0.0) { return None; }
      var microprice := (bbid * bidWeight + bask * askWeight) / total;
      assert microprice == Microprice(bbid, bask, weigh(askQty), weigh(bidQty));
      hide Microprice;
      var cap := capBp / 10000.0;
      var r := ApplyEma(Clamp(microprice / mid, 1.0 - cap, 1.0 + cap));
      SmoothedStaysWithin(emaAlpha, raws, 1.0 - cap, 1.0 + cap);
      factor := Some(r);
    }
  }

  function Microprice(bbid: real, bask: real, bidWeight: real, askWeight: real): real
    requires bidWeight + askWeight > 0.0
  {
    (bbid * bidWeight + bask * askWeight) / (bidWeight + askWeight)
  }

  /** The clamped ratio of microprice to mid. */
  function Raw(weigh: real -> real, capBp: real, bbid: real, bask: real, bidQty: real, askQty: real): real
    requires weigh(bidQty) + weigh(askQty) > 0.0 && bbid + bask > 0.0
  {
    Clamp(Microprice(bbid, bask, weigh(askQty), weigh(bidQty)) / ((bbid + bask) / 2.0), 1.0 - capBp / 10000.0, 1.0 + capBp / 10000.0)
  }

  /** The microprice is the share of the way from bid to ask that the ask's weight has of all. */
  lemma MicropriceShare(bbid: real, bask: real, bidWeight: real, askWeight: real)
    requires bidWeight + askWeight > 0.0
    ensures Microprice(bbid, bask, bidWeight, askWeight) == bbid + (bask - bbid) * Share(bidWeight, askWeight)
  {
    var total := bidWeight + askWeight;
    var share := Share(bidWeight, askWeight);
    hide Share;
    assert bbid * bidWeight + bask * askWeight == bbid * total + (bask - bbid) * askWeight;
    assert (bask - bbid) * askWeight == (bask - bbid) * share * total;
    assert bbid * bidWeight + bask * askWeight == (bbid + (bask - bbid) * share) * total;
  }

  /** The ask's share of the weight. */
  function Share(bidWeight: real, askWeight: real): (s: real)
    requires bidWeight + askWeight > 0.0
    ensures s * (bidWeight + askWeight) == askWeight
    ensures bidWeight >= 0.0 && askWeight >= 0.0 ==> 0.0 <= s <= 1.0
  {
    var s := askWeight / (bidWeight + askWeight);
    assert s * (bidWeight + askWeight) == askWeight;
    s
  }

  lemma ShareGrows(bidWeight: real, askWeight: real, bidWeight': real, askWeight': real)
    requires 0.0 <= bidWeight' <= bidWeight && 0.0 <= askWeight <= askWeight' && bidWeight + askWeight > 0.0 && bidWeight' + askWeight' > 0.0
    ensures Share(bidWeight, askWeight) <= Share(bidWeight', askWeight')
  {
    var t, t' := bidWeight + askWeight, bidWeight' + askWeight';
    var s, s' := Share(bidWeight, askWeight), Share(bidWeight', askWeight');
    hide Share;
    assert (1.0 - s) * t == bidWeight && (1.0 - s') * t' == bidWeight';
    if s' < s {
      if t' <= t {
        StrictlyMore(s', t', s, t);
      } else {
        StrictlyMore(1.0 - s, t, 1.0 - s', t');
      }
    }
  }

  lemma StrictlyMore(x: real, y: real, u: real, v: real)
    requires 0.0 <= x < u && 0.0 < y <= v
    ensures x * y < u * v
  {
    NotNegative(u, v - y);
    assert u * v - x * y == (u - x) * y + u * (v - y);
    assert (u - x) * y > 0.0;
  }

  /** The microprice lies between the touch prices it weighs. */
  lemma MicropriceWithinTouch(bbid: real, bask: real, bidWeight: real, askWeight: real)
    requires 0.0 < bbid <= bask && bidWeight >= 0.0 && askWeight >= 0.0 && bidWeight + askWeight > 0.0
    ensures bbid <= Microprice(bbid, bask, bidWeight, askWeight) <= bask
  {
    MicropriceShare(bbid, bask, bidWeight, askWeight);
    var s := Share(bidWeight, askWeight);
    hide Share, Microprice;
    Further(bbid, bask, 0.0, s, bbid, Microprice(bbid, bask, bidWeight, askWeight));
    Further(bbid, bask, s, 1.0, Microprice(bbid, bask, bidWeight, askWeight), bask);
  }

  /** Weight moved from the bid to the ask moves the microprice up. */
  lemma MicropriceGrows(bbid: real, bask: real, bidWeight: real, askWeight: real, bidWeight': real, askWeight': real)
    requires bbid <= bask
    requires 0.0 <= bidWeight' <= bidWeight && 0.0 <= askWeight <= askWeight' && bidWeight + askWeight > 0.0 && bidWeight' + askWeight' > 0.0
    ensures Microprice(bbid, bask, bidWeight, askWeight) <= Microprice(bbid, bask, bidWeight', askWeight')
  {
    MicropriceShare(bbid, bask, bidWeight, askWeight);
    MicropriceShare(bbid, bask, bidWeight', askWeight');
    ShareGrows(bidWeight, askWeight, bidWeight', askWeight');
    hide Microprice, Share;
    Further(bbid, bask, Share(bidWeight, askWeight), Share(bidWeight', askWeight'),
            Microprice(bbid, bask, bidWeight, askWeight), Microprice(bbid, bask, bidWeight', askWeight'));
  }

  /** A longer bid queue pulls the factor up, a longer ask queue down; a balanced book leaves it at
      one; and the price it stands for, before the cap, lies between the touch prices. */
  lemma ImbalancePulls(weigh: real -> real, capBp: real, bbid: real, bask: real, bidQty: real, askQty: real, bidQty': real, askQty': real)
    requires 0.0 < bbid <= bask && capBp >= 0.0
    requires forall x, y :: 0.0 <= x <= y ==> 0.0 <= weigh(x) <= weigh(y)
    requires 0.0 <= bidQty <= bidQty' && 0.0 <= askQty' <= askQty
    requires weigh(bidQty) + weigh(askQty) > 0.0 && weigh(bidQty') + weigh(askQty') > 0.0
    ensures Raw(weigh, capBp, bbid, bask, bidQty, askQty) <= Raw(weigh, capBp, bbid, bask, bidQty', askQty')
    ensures bidQty == askQty ==> Raw(weigh, capBp, bbid, bask, bidQty, askQty) == 1.0
    ensures bbid <= Microprice(bbid, bask, weigh(askQty), weigh(bidQty)) <= bask
  {
    assert 0.0 <= weigh(askQty') <= weigh(askQty) && 0.0 <= weigh(bidQty) <= weigh(bidQty');
    MicropriceWithinTouch(bbid, bask, weigh(askQty), weigh(bidQty));
    MicropriceGrows(bbid, bask, weigh(askQty), weigh(bidQty), weigh(askQty'), weigh(bidQty'));
    if bidQty == askQty {
      Balanced(weigh(askQty), bbid, bask);
    }
    hide Microprice;
    RatioGrows(Microprice(bbid, bask, weigh(askQty), weigh(bidQty)), Microprice(bbid, bask, weigh(askQty'), weigh(bidQty')), (bbid + bask) / 2.0);
  }

  /** A larger share of the way from bid to ask. */
  lemma Further(bbid: real, bask: real, a: real, b: real, m: real, m': real)
    requires bbid <= bask && a <= b && m == bbid + (bask - bbid) * a && m' == bbid + (bask - bbid) * b
    ensures m <= m'
  {
    NotNegative(bask - bbid, b - a);
  }

  lemma RatioGrows(m: real, m': real, mid: real)
    requires m <= m' && mid > 0.0
    ensures m / mid <= m' / mid
  {
  }

  lemma Balanced(w: real, bbid: real, bask: real)
    requires w > 0.0 && bbid + bask > 0.0
    ensures Microprice(bbid, bask, w, w) / ((bbid + bask) / 2.0) == 1.0
  {
    var mid := (bbid + bask) / 2.0;
    assert bbid * w + bask * w == mid * (w + w);
    assert Microprice(bbid, bask, w, w) == mid;
  }
}
