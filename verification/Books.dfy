// Order-book sides and the arithmetic of walking them.
//
// A side is a sequence of levels ordered from the best price outwards. All the
// functions below walk the first n levels, so that a loop over the levels and
// the function it computes share one index.
module Books {
  import opened RealArith

  type Quantity = x: real | 0.0 <= x witness 0.0

  datatype Level = Level(price: real, depth: Quantity)

  /** Total depth of the first n levels. */
  function Depth(levels: seq<Level>, n: nat): (d: real)
    requires n <= |levels|
    ensures 0.0 <= d
  {
    if n == 0 then 0.0 else Depth(levels, n - 1) + levels[n - 1].depth
  }

  /** What the first n levels contribute towards a fill of q. */
  function Filled(levels: seq<Level>, q: real, n: nat): real
    requires n <= |levels| && 0.0 <= q
  {
    Min(q, Depth(levels, n))
  }

  /** What level i alone contributes towards a fill of q. */
  function Take(levels: seq<Level>, q: real, i: nat): (t: real)
    requires i < |levels| && 0.0 <= q
    ensures 0.0 <= t <= levels[i].depth
    ensures Filled(levels, q, i) + t == Filled(levels, q, i + 1)
  {
    Filled(levels, q, i + 1) - Filled(levels, q, i)
  }

  /** Quote paid (or received) for what the first n levels contribute to a fill of q. */
  function Cost(levels: seq<Level>, q: real, n: nat): real
    requires n <= |levels| && 0.0 <= q
  {
    if n == 0 then 0.0
    else Cost(levels, q, n - 1) + Times(Take(levels, q, n - 1), levels[n - 1].price)
  }

  /** The index of the deepest level needed to fill q: the first whose cumulative depth reaches q. */
  function Reach(levels: seq<Level>, q: real, n: nat): (r: nat)
    requires n <= |levels| && 0.0 < q <= Depth(levels, n)
    ensures r < n && Depth(levels, r) < q <= Depth(levels, r + 1)
  {
    if q <= Depth(levels, n - 1) then Reach(levels, q, n - 1) else n - 1
  }

  function DeepestPrice(levels: seq<Level>, q: real): real
    requires 0.0 < q <= Depth(levels, |levels|)
  {
    levels[Reach(levels, q, |levels|)].price
  }

  ghost predicate Ascending(levels: seq<Level>) {
    forall i, j :: 0 <= i <= j < |levels| ==> levels[i].price <= levels[j].price
  }

  ghost predicate Descending(levels: seq<Level>) {
    forall i, j :: 0 <= i <= j < |levels| ==> levels[j].price <= levels[i].price
  }

  ghost predicate Positive(levels: seq<Level>) {
    forall i :: 0 <= i < |levels| ==> 0.0 < levels[i].price
  }

  /** Volume-weighted average price of a fill of q, full-depth average when q exceeds the depth. */
  function Vwap(levels: seq<Level>, q: real): real {
    if q <= 0.0 || Filled(levels, q, |levels|) <= 0.0 then 0.0
    else Over(Cost(levels, q, |levels|), Filled(levels, q, |levels|))
  }

  lemma {:induction false} DepthMonotone(levels: seq<Level>, m: nat, n: nat)
    requires m <= n <= |levels|
    ensures Depth(levels, m) <= Depth(levels, n)
  {
    if m < n {
      DepthMonotone(levels, m, n - 1);
    }
  }

  /** A smaller fill never needs a deeper level. */
  lemma ReachMonotone(levels: seq<Level>, p: real, q: real)
    requires 0.0 < p <= q <= Depth(levels, |levels|)
    ensures Reach(levels, p, |levels|) <= Reach(levels, q, |levels|)
  {
    var i, j := Reach(levels, p, |levels|), Reach(levels, q, |levels|);
    if j < i {
      DepthMonotone(levels, j + 1, i);
    }
  }

  /** Reach is pinned down by the two depths around q. */
  lemma ReachUnique(levels: seq<Level>, q: real, k: nat)
    requires k < |levels| && 0.0 < q && Depth(levels, k) < q <= Depth(levels, k + 1)
    ensures q <= Depth(levels, |levels|) && Reach(levels, q, |levels|) == k
  {
    DepthMonotone(levels, k + 1, |levels|);
    var i := Reach(levels, q, |levels|);
    if i < k {
      DepthMonotone(levels, i + 1, k);
    } else if k < i {
      DepthMonotone(levels, k + 1, i);
    }
  }

  /** Levels past the fill contribute nothing. */
  lemma {:induction false} CostSettled(levels: seq<Level>, q: real, m: nat, n: nat)
    requires m <= n <= |levels| && 0.0 <= q <= Depth(levels, m)
    ensures Cost(levels, q, m) == Cost(levels, q, n)
  {
    if m < n {
      DepthMonotone(levels, m, n - 1);
      DepthMonotone(levels, m, n);
      CostSettled(levels, q, m, n - 1);
    }
  }

  /** Walking a prefix of the book is walking the book. */
  lemma {:induction false} CostOfPrefix(levels: seq<Level>, k: nat, q: real, n: nat)
    requires n <= k <= |levels| && 0.0 <= q
    ensures Depth(levels[..k], n) == Depth(levels, n)
    ensures Cost(levels[..k], q, n) == Cost(levels, q, n)
  {
    if n > 0 {
      CostOfPrefix(levels, k, q, n - 1);
    }
  }

  /** On ascending prices a fill costs at most its quantity times any later price. */
  lemma {:induction false} CostBelow(levels: seq<Level>, q: real, n: nat, p: real)
    requires n <= |levels| && 0.0 <= q
    requires forall i :: 0 <= i < n ==> levels[i].price <= p
    ensures Cost(levels, q, n) <= Times(Filled(levels, q, n), p)
  {
    if n > 0 {
      CostBelow(levels, q, n - 1, p);
      BelowStep(Cost(levels, q, n - 1), Filled(levels, q, n - 1), Take(levels, q, n - 1), Filled(levels, q, n),
                levels[n - 1].price, p);
    }
  }

  lemma BelowStep(c: real, f: real, t: real, f': real, price: real, p: real)
    requires c <= Times(f, p) && 0.0 <= t && price <= p && f' == f + t
    ensures c + Times(t, price) <= Times(f', p)
  {
    Scale(t, price, p);
    Distribute(f, t, p);
  }

  lemma {:induction false} CostPositive(levels: seq<Level>, q: real, n: nat)
    requires n <= |levels| && 0.0 <= q && Positive(levels)
    ensures 0.0 <= Cost(levels, q, n)
    ensures 0.0 < Filled(levels, q, n) ==> 0.0 < Cost(levels, q, n)
  {
    if n > 0 {
      CostPositive(levels, q, n - 1);
      ProductPositive(Take(levels, q, n - 1), levels[n - 1].price);
    }
  }

  /** A bigger fill costs more. */
  lemma {:induction false} CostMonotone(levels: seq<Level>, p: real, q: real, n: nat)
    requires n <= |levels| && 0.0 <= p <= q && Positive(levels)
    ensures Cost(levels, p, n) <= Cost(levels, q, n)
  {
    if n > 0 {
      CostMonotone(levels, p, q, n - 1);
      assert Take(levels, p, n - 1) <= Take(levels, q, n - 1);
      Scale(levels[n - 1].price, Take(levels, p, n - 1), Take(levels, q, n - 1));
    }
  }

  /** While a level is still needed for p, everything before it is taken whole by p and by any q above. */
  lemma {:induction false} SameWalk(levels: seq<Level>, p: real, q: real, n: nat)
    requires n <= |levels| && 0.0 <= p <= q && Depth(levels, n) <= p
    ensures Filled(levels, p, n) == Filled(levels, q, n) == Depth(levels, n)
    ensures Cost(levels, p, n) == Cost(levels, q, n)
  {
    if n > 0 {
      SameWalk(levels, p, q, n - 1);
    }
  }

  /** What q buys beyond p costs at least the price of the deepest level p needs. */
  lemma {:induction false} CostAbove(levels: seq<Level>, p: real, q: real, k: nat, n: nat)
    requires k < n <= |levels| && 0.0 < p <= q && Ascending(levels)
    requires Depth(levels, k) < p <= Depth(levels, k + 1)
    ensures Cost(levels, p, n) + Times(Filled(levels, q, n) - Filled(levels, p, n), levels[k].price)
            <= Cost(levels, q, n)
    decreases n
  {
    if n == k + 1 {
      SameWalk(levels, p, q, k);
      AboveStep(Cost(levels, p, k), Cost(levels, q, k), 0.0, Take(levels, p, k), Take(levels, q, k),
                Filled(levels, q, n) - Filled(levels, p, n), levels[k].price, levels[k].price);
    } else {
      CostAbove(levels, p, q, k, n - 1);
      assert Take(levels, p, n - 1) <= Take(levels, q, n - 1);
      AboveStep(Cost(levels, p, n - 1), Cost(levels, q, n - 1), Filled(levels, q, n - 1) - Filled(levels, p, n - 1),
                Take(levels, p, n - 1), Take(levels, q, n - 1),
                Filled(levels, q, n) - Filled(levels, p, n), levels[k].price, levels[n - 1].price);
    }
  }

  lemma AboveStep(c: real, c': real, d: real, t: real, t': real, e: real, low: real, price: real)
    requires c + Times(d, low) <= c' && 0.0 <= t <= t' && low <= price && e == d + t' - t
    ensures c + Times(t, price) + Times(e, low) <= c' + Times(t', price)
  {
    Scale(t' - t, low, price);
    Distribute(d, t' - t, low);
    Distribute(t, t' - t, price);
  }

  /** On asks, the average price of a fill grows with the quantity. */
  lemma VwapAscends(levels: seq<Level>, p: real, q: real)
    requires Ascending(levels) && 0.0 < p <= q <= Depth(levels, |levels|)
    ensures Vwap(levels, p) <= Vwap(levels, q)
  {
    var n, k := |levels|, Reach(levels, p, |levels|);
    CostAbove(levels, p, q, k, n);
    CostSettled(levels, p, k + 1, n);
    CostBelow(levels, p, k + 1, levels[k].price);
    AverageGrows(p, q, Cost(levels, p, n), Cost(levels, q, n), levels[k].price);
  }

  lemma AverageGrows(p: real, q: real, c: real, d: real, price: real)
    requires 0.0 < p <= q && c <= Times(p, price) && c + Times(q - p, price) <= d
    ensures Over(c, p) <= Over(d, q)
  {
    Scale(q - p, c, Times(p, price));
    Scale(p, c + Times(q - p, price), d);
    Distribute(p, q - p, c);
    Distribute(c, Times(q - p, price), p);
    assert Times(p, Times(q - p, price)) == Times(q - p, Times(p, price));
    CompareQuotients(c, p, d, q);
  }

  /** The same side with every price negated: turns bids into asks. */
  function Mirror(levels: seq<Level>): (mirror: seq<Level>)
    ensures |mirror| == |levels|
    ensures forall i :: 0 <= i < |levels| ==> mirror[i] == Level(-levels[i].price, levels[i].depth)
  {
    seq(|levels|, i requires 0 <= i < |levels| => Level(-levels[i].price, levels[i].depth))
  }

  lemma {:induction false} CostOfMirror(levels: seq<Level>, q: real, n: nat)
    requires n <= |levels| && 0.0 <= q
    ensures Depth(Mirror(levels), n) == Depth(levels, n)
    ensures Cost(Mirror(levels), q, n) == -Cost(levels, q, n)
  {
    if n > 0 {
      CostOfMirror(levels, q, n - 1);
      MirrorStep(Cost(Mirror(levels), q, n - 1), Cost(levels, q, n - 1), Take(levels, q, n - 1), levels[n - 1].price,
                 Mirror(levels)[n - 1].price);
    }
  }

  lemma MirrorStep(c: real, d: real, t: real, price: real, price': real)
    requires c == -d && price' == -price
    ensures c + Times(t, price') == -(d + Times(t, price))
  {
    Negate(t, price);
  }

  lemma VwapOfMirror(levels: seq<Level>, q: real)
    ensures Vwap(Mirror(levels), q) == -Vwap(levels, q)
  {
    if 0.0 < q && 0.0 < Filled(levels, q, |levels|) {
      CostOfMirror(levels, q, |levels|);
      Opposite(Cost(levels, q, |levels|), Filled(levels, q, |levels|));
    } else if 0.0 < q {
      CostOfMirror(levels, q, |levels|);
    }
  }

  /** On bids, the average price of a fill falls with the quantity. */
  lemma VwapDescends(levels: seq<Level>, p: real, q: real)
    requires Descending(levels) && 0.0 < p <= q <= Depth(levels, |levels|)
    ensures Vwap(levels, q) <= Vwap(levels, p)
  {
    CostOfMirror(levels, q, |levels|);
    VwapAscends(Mirror(levels), p, q);
    VwapOfMirror(levels, p);
    VwapOfMirror(levels, q);
  }

  lemma Opposite(c: real, p: real)
    requires 0.0 < p
    ensures Over(-c, p) == -Over(c, p)
  {
  }

  // ----- when an average is a price -----

  /** Every level a fill of q takes from has this price. */
  ghost predicate OnePrice(levels: seq<Level>, q: real, price: real)
    requires 0.0 <= q
  {
    forall i :: 0 <= i < |levels| && 0.0 < Take(levels, q, i) ==> levels[i].price == price
  }

  /** No level a fill of q takes from is dearer. */
  ghost predicate TakesBelow(levels: seq<Level>, q: real, price: real)
    requires 0.0 <= q
  {
    forall i :: 0 <= i < |levels| && 0.0 < Take(levels, q, i) ==> levels[i].price <= price
  }

  lemma StrictStep(c: real, f: real, t: real, f': real, price: real, p: real)
    requires f' == f + t && 0.0 <= t
    ensures c <= Times(f, p) && (0.0 < t ==> price <= p) ==> c + Times(t, price) <= Times(f', p)
    ensures c < Times(f, p) && (0.0 < t ==> price <= p) ==> c + Times(t, price) < Times(f', p)
    ensures c <= Times(f, p) && 0.0 < t && price < p ==> c + Times(t, price) < Times(f', p)
    ensures c == Times(f, p) && (0.0 < t ==> price == p) ==> c + Times(t, price) == Times(f', p)
  {
    Distribute(f, t, p);
    if 0.0 < t && price <= p {
      Scale(t, price, p);
    }
    if 0.0 < t && price < p {
      ScaleStrict(t, price, p);
    }
  }

  lemma {:induction false} CostAtMost(levels: seq<Level>, q: real, n: nat, p: real)
    requires n <= |levels| && 0.0 <= q && TakesBelow(levels, q, p)
    ensures Cost(levels, q, n) <= Times(Filled(levels, q, n), p)
    ensures Cost(levels, q, n) == Times(Filled(levels, q, n), p)
      <==> forall i :: 0 <= i < n && 0.0 < Take(levels, q, i) ==> levels[i].price == p
  {
    if n > 0 {
      CostAtMost(levels, q, n - 1, p);
      StrictStep(Cost(levels, q, n - 1), Filled(levels, q, n - 1), Take(levels, q, n - 1), Filled(levels, q, n),
                 levels[n - 1].price, p);
    }
  }

  /** The average of a fill reaches the dearest price it meets exactly when it meets no other. */
  lemma VwapIsDearestIff(levels: seq<Level>, q: real, p: real)
    requires 0.0 < q && 0.0 < Filled(levels, q, |levels|) && TakesBelow(levels, q, p)
    ensures Vwap(levels, q) <= p
    ensures Vwap(levels, q) == p <==> OnePrice(levels, q, p)
  {
    var n := |levels|;
    CostAtMost(levels, q, n, p);
    QuotientBound(p, Cost(levels, q, n), Filled(levels, q, n));
    Commute(p, Filled(levels, q, n));
  }

  lemma TakesUpToReach(levels: seq<Level>, q: real, i: nat)
    requires 0.0 < q <= Depth(levels, |levels|) && i < |levels| && 0.0 < Take(levels, q, i)
    ensures i <= Reach(levels, q, |levels|)
  {
    var k := Reach(levels, q, |levels|);
    if k < i {
      DepthMonotone(levels, k + 1, i);
    }
  }

  lemma FillTakesBelow(levels: seq<Level>, q: real)
    requires Ascending(levels) && 0.0 < q <= Depth(levels, |levels|)
    ensures TakesBelow(levels, q, DeepestPrice(levels, q))
  {
    forall i | 0 <= i < |levels| && 0.0 < Take(levels, q, i)
      ensures levels[i].price <= DeepestPrice(levels, q)
    {
      TakesUpToReach(levels, q, i);
    }
  }

  lemma TakeGrows(levels: seq<Level>, p: real, q: real, i: nat)
    requires i < |levels| && 0.0 <= p <= q
    ensures Take(levels, p, i) <= Take(levels, q, i)
  {
  }

  lemma TakeOfMirror(levels: seq<Level>, q: real, i: nat)
    requires i < |levels| && 0.0 <= q
    ensures Take(Mirror(levels), q, i) == Take(levels, q, i)
  {
    CostOfMirror(levels, q, i);
    CostOfMirror(levels, q, i + 1);
  }

  lemma OnePriceOfMirror(levels: seq<Level>, q: real, price: real)
    requires 0.0 <= q
    ensures OnePrice(Mirror(levels), q, -price) <==> OnePrice(levels, q, price)
  {
    forall i | 0 <= i < |levels|
      ensures Take(Mirror(levels), q, i) == Take(levels, q, i)
    {
      TakeOfMirror(levels, q, i);
    }
    if OnePrice(Mirror(levels), q, -price) {
      forall i | 0 <= i < |levels| && 0.0 < Take(levels, q, i)
        ensures levels[i].price == price
      {
        assert Mirror(levels)[i].price == -price;
      }
    }
  }

  /** The average of a fill is the cheapest price it meets exactly when it meets no other. */
  lemma VwapIsCheapestIff(levels: seq<Level>, q: real, p: real)
    requires 0.0 < q && 0.0 < Filled(levels, q, |levels|)
    requires forall i :: 0 <= i < |levels| && 0.0 < Take(levels, q, i) ==> p <= levels[i].price
    ensures p <= Vwap(levels, q)
    ensures Vwap(levels, q) == p <==> OnePrice(levels, q, p)
  {
    forall i | 0 <= i < |levels| && 0.0 < Take(Mirror(levels), q, i)
      ensures Mirror(levels)[i].price <= -p
    {
      TakeOfMirror(levels, q, i);
    }
    CostOfMirror(levels, q, |levels|);
    VwapIsDearestIff(Mirror(levels), q, -p);
    VwapOfMirror(levels, q);
    OnePriceOfMirror(levels, q, p);
  }

  /** A dearer level past a one-price fill pushes the average of the larger fill up. */
  lemma DearerLevelRaises(levels: seq<Level>, p: real, q: real)
    requires Ascending(levels) && 0.0 < p < q <= Depth(levels, |levels|)
    requires OnePrice(levels, p, DeepestPrice(levels, p)) && DeepestPrice(levels, p) < DeepestPrice(levels, q)
    ensures Vwap(levels, p) < Vwap(levels, q)
  {
    var n, low, k := |levels|, DeepestPrice(levels, p), Reach(levels, q, |levels|);
    FillTakesBelow(levels, p);
    VwapIsDearestIff(levels, p, low);
    forall i | 0 <= i < n && 0.0 < Take(levels, q, i)
      ensures low <= levels[i].price
    {
      SameBelowReach(levels, p, q, i);
    }
    VwapIsCheapestIff(levels, q, low);
    assert 0.0 < Take(levels, q, k) && levels[k].price != low;
  }

  /** On ascending asks two averages agree exactly when the larger fill stays within one price. */
  lemma VwapSteadyIff(levels: seq<Level>, p: real, q: real)
    requires Ascending(levels) && 0.0 < p < q <= Depth(levels, |levels|)
    ensures Vwap(levels, p) == Vwap(levels, q) <==> OnePrice(levels, q, DeepestPrice(levels, q))
  {
    var n, low, top := |levels|, DeepestPrice(levels, p), DeepestPrice(levels, q);
    FillTakesBelow(levels, p);
    FillTakesBelow(levels, q);
    VwapIsDearestIff(levels, p, low);
    VwapIsDearestIff(levels, q, top);
    ReachMonotone(levels, p, q);
    if OnePrice(levels, q, top) {
      forall i | 0 <= i < n && 0.0 < Take(levels, p, i)
        ensures levels[i].price == top
      {
        TakeGrows(levels, p, q, i);
      }
      assert 0.0 < Take(levels, p, Reach(levels, p, n));
    } else if Vwap(levels, p) < low {
      SteeperIsDearer(levels, p, q);
    } else if low < top {
      DearerLevelRaises(levels, p, q);
    } else {
      forall i | 0 <= i < n && 0.0 < Take(levels, q, i)
        ensures levels[i].price == top
      {
        TakesUpToReach(levels, q, i);
        SameBelowReach(levels, p, q, i);
      }
    }
  }

  /** What the larger fill takes, the smaller one takes too, or it lies at or past the smaller one's deepest level. */
  lemma SameBelowReach(levels: seq<Level>, p: real, q: real, i: nat)
    requires 0.0 < p <= q && p <= Depth(levels, |levels|) && i < |levels| && 0.0 < Take(levels, q, i)
    ensures 0.0 < Take(levels, p, i) || Reach(levels, p, |levels|) <= i
  {
    var j := Reach(levels, p, |levels|);
    if i < j {
      DepthMonotone(levels, i + 1, j);
    }
  }

  lemma SteeperIsDearer(levels: seq<Level>, p: real, q: real)
    requires Ascending(levels) && 0.0 < p < q <= Depth(levels, |levels|)
    requires Vwap(levels, p) < DeepestPrice(levels, p)
    ensures Vwap(levels, p) < Vwap(levels, q)
  {
    var n, k := |levels|, Reach(levels, p, |levels|);
    CostAbove(levels, p, q, k, n);
    SteeperArithmetic(p, q, Cost(levels, p, n), Cost(levels, q, n), levels[k].price);
  }

  lemma SteeperArithmetic(p: real, q: real, c: real, d: real, price: real)
    requires 0.0 < p < q && Over(c, p) < price && c + Times(q - p, price) <= d
    ensures Over(c, p) < Over(d, q)
  {
    var x := Over(c, p);
    Quotient(c, p);
    ScaleStrict(q - p, x, price);
    Distribute(p, q - p, x);
    Commute(p, x);
    Commute(q, x);
    Commute(q - p, x);
    QuotientBound(x, d, q);
    Quotient(d, q);
  }

  /** The same on descending bids. */
  lemma VwapSteadyDownIff(levels: seq<Level>, p: real, q: real)
    requires Descending(levels) && 0.0 < p < q <= Depth(levels, |levels|)
    ensures Vwap(levels, p) == Vwap(levels, q) <==> OnePrice(levels, q, DeepestPrice(levels, q))
  {
    MirrorReach(levels, q);
    VwapSteadyIff(Mirror(levels), p, q);
    VwapOfMirror(levels, p);
    VwapOfMirror(levels, q);
    OnePriceOfMirror(levels, q, DeepestPrice(levels, q));
  }

  lemma MirrorReach(levels: seq<Level>, q: real)
    requires 0.0 < q <= Depth(levels, |levels|)
    ensures q <= Depth(Mirror(levels), |levels|) && DeepestPrice(Mirror(levels), q) == -DeepestPrice(levels, q)
  {
    var k := Reach(levels, q, |levels|);
    CostOfMirror(levels, q, k);
    CostOfMirror(levels, q, k + 1);
    CostOfMirror(levels, q, |levels|);
    ReachUnique(Mirror(levels), q, k);
  }
}
