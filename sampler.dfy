/**
  The curve sampler: the nested helpers `get_loading`, `get_err`, `get_wc`
  and `get_nwc` of src/dashboard.py. A curve is a pressure-indexed list
  (index k is (k + 1) * 0.5 bar); any access past its end yields Missing
  instead of raising.
 */
module Sampler {
  import opened Numeric

  /**
    `get_err(x, i)`, and `get_loading(x)` with i = lp: the i-th entry of the
    curve, or Missing. The emptiness test of the source is subsumed by the
    length test, as the contract shows.
   */
  function Sample(x: seq<Num>, i: nat): (r: Num)
    ensures i < |x| ==> r == x[i]
    ensures |x| <= i ==> r == Missing
  {
    if |x| == 0 then Missing
    else if |x| <= i then Missing
    else x[i]
  }

  /**
    `get_wc(x)`: the working capacity between pressure indices p1 and p2,
    that is the uptake at p2 minus the uptake at p1. It agrees with the
    difference of the two samples, so a missing end makes it Missing.
   */
  function WorkingCapacity(x: seq<Num>, p1: nat, p2: nat): (r: Num)
    ensures r == Sub(Sample(x, p2), Sample(x, p1))
    ensures r.Val? ==> p1 < |x| && p2 < |x|
  {
    if |x| == 0 then Missing
    else if |x| <= p1 || |x| <= p2 then Missing
    else Sub(x[p2], x[p1])
  }

  /**
    `get_nwc(x)`: the significance of a working capacity, the SUM of the
    counts at p1 and p2 under the same guard as `get_wc`.
   */
  function WcSignificance(x: seq<Num>, p1: nat, p2: nat): (r: Num)
    ensures r == Add(Sample(x, p1), Sample(x, p2))
    ensures r.Val? ==> p1 < |x| && p2 < |x|
  {
    if |x| == 0 then Missing
    else if |x| <= p1 || |x| <= p2 then Missing
    else Add(x[p1], x[p2])
  }

  /**
    The two helpers differ in their operation, not just their curve: applied
    to one count curve, the sum at p1 and p2 exceeds the difference by twice
    the count at p1, so the two agree only where that count is zero.
   */
  lemma SignificanceIsNotCapacity(x: seq<Num>, p1: nat, p2: nat)
    requires WorkingCapacity(x, p1, p2).Val? && WcSignificance(x, p1, p2).Val?
    ensures WcSignificance(x, p1, p2).v - WorkingCapacity(x, p1, p2).v == 2.0 * x[p1].v
    ensures WcSignificance(x, p1, p2) == WorkingCapacity(x, p1, p2) <==> x[p1].v == 0.0
  {
  }
}
