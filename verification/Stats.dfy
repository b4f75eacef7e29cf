/** Streaming statistics of latency samples: running moments, extremes and a random reservoir, fed by
    pushes and by merging the statistics of other workers. Moments are over `real`. */
module Stats {
  import opened Common

  const U32_MAX: nat := U32_SPAN - 1

  // ---- the quantities being summarised ----------------------------------------------------------------

  function Total(h: seq<u32>): real {
    if h == [] then 0.0 else Total(h[..|h| - 1]) + h[|h| - 1] as real
  }

  /** Sum of squared deviations from `centre`. */
  function Spread(h: seq<u32>, centre: real): real {
    if h == [] then 0.0 else
    Spread(h[..|h| - 1], centre) + (h[|h| - 1] as real - centre) * (h[|h| - 1] as real - centre)
  }

  /** The least sample; the largest 32-bit value when there is none. */
  ghost predicate IsLeast(h: seq<u32>, least: u32) {
    && (forall i :: 0 <= i < |h| ==> least <= h[i])
    && (if h == [] then least == U32_MAX else least in h)
  }

  ghost predicate IsGreatest(h: seq<u32>, greatest: u32) {
    && (forall i :: 0 <= i < |h| ==> h[i] <= greatest)
    && (if h == [] then greatest == 0 else greatest in h)
  }

  lemma {:induction false} TotalConcat(a: seq<u32>, b: seq<u32>)
    ensures Total(a + b) == Total(a) + Total(b)
  {
    if b == [] {
      assert a + b == a;
    } else {
      assert (a + b)[..|a + b| - 1] == a + b[..|b| - 1];
      TotalConcat(a, b[..|b| - 1]);
    }
  }

  lemma {:induction false} SpreadConcat(a: seq<u32>, b: seq<u32>, centre: real)
    ensures Spread(a + b, centre) == Spread(a, centre) + Spread(b, centre)
  {
    if b == [] {
      assert a + b == a;
    } else {
      assert (a + b)[..|a + b| - 1] == a + b[..|b| - 1];
      SpreadConcat(a, b[..|b| - 1], centre);
    }
  }

  lemma ShiftStep(t: real, n: real, x: real, c: real, d: real)
    ensures (x - (c + d)) * (x - (c + d)) - 2.0 * d * (t - n * c) + n * (d * d)
         == (x - c) * (x - c) - 2.0 * d * (t + x - (n + 1.0) * c) + (n + 1.0) * (d * d)
  {
    assert (x - (c + d)) * (x - (c + d)) == (x - c) * (x - c) - 2.0 * d * (x - c) + d * d;
    assert (n + 1.0) * c == n * c + c;
    assert (n + 1.0) * (d * d) == n * (d * d) + d * d;
    assert 2.0 * d * (t + x - (n * c + c)) == 2.0 * d * (t - n * c) + 2.0 * d * (x - c);
  }

  /** Moving the centre by `d` changes the spread by a term that vanishes at the mean. */
  lemma {:induction false} SpreadShift(h: seq<u32>, centre: real, d: real)
    ensures Spread(h, centre + d)
         == Spread(h, centre) - 2.0 * d * (Total(h) - |h| as real * centre) + |h| as real * (d * d)
  {
    if h == [] {
      assert 2.0 * d * 0.0 == 0.0;
    } else {
      var rest := h[..|h| - 1];
      SpreadShift(rest, centre, d);
      assert |h| as real == |rest| as real + 1.0;
      ShiftStep(Total(rest), |rest| as real, h[|h| - 1] as real, centre, d);
    }
  }

  lemma SpreadFromMean(h: seq<u32>, mean: real, d: real)
    requires |h| as real * mean == Total(h)
    ensures Spread(h, mean + d) == Spread(h, mean) + |h| as real * (d * d)
  {
    SpreadShift(h, mean, d);
    hide Spread, Total;
    var gap := Total(h) - |h| as real * mean;
    assert gap == 0.0 && 2.0 * d * gap == 0.0;
  }

  lemma {:induction false} SpreadNonNegative(h: seq<u32>, centre: real)
    ensures Spread(h, centre) >= 0.0
  {
    if h != [] {
      SpreadNonNegative(h[..|h| - 1], centre);
    }
  }

  /** Two groups of `n` and `m` samples whose means are `d` apart: the distance `x` from the first mean
      to the common one, and what the two shifts add to the spread. */
  lemma CommonMean(n: real, m: real, d: real, x: real)
    requires n + m > 0.0 && x == d * m / (n + m)
    ensures x * (n + m) == d * m
    ensures n * (x * x) + m * ((x - d) * (x - d)) == d * d * n * m / (n + m)
  {
    var all := n + m;
    assert x * all == d * m;
    assert (d - x) * all == d * n by {
      assert (d - x) * all == d * all - x * all == d * n + d * m - d * m;
    }
    var added := n * (x * x) + m * ((x - d) * (x - d));
    assert n * (x * x) * all == n * x * (d * m) by {
      assert n * (x * x) * all == n * x * (x * all);
    }
    assert m * ((x - d) * (x - d)) * all == m * (d - x) * (d * n) by {
      assert (x - d) * (x - d) == (d - x) * (d - x);
      assert m * ((d - x) * (d - x)) * all == m * (d - x) * ((d - x) * all);
    }
    assert added * all == n * (x * x) * all + m * ((x - d) * (x - d)) * all;
    assert n * x * (d * m) + m * (d - x) * (d * n) == d * d * n * m by {
      assert n * x * (d * m) == d * n * m * x;
      assert m * (d - x) * (d * n) == d * n * m * (d - x);
      assert d * n * m * x + d * n * m * (d - x) == d * n * m * d;
    }
    assert added == d * d * n * m / all;
  }

  // ---- the accumulator --------------------------------------------------------------------------------

  function Smaller(a: nat, b: nat): nat { if a <= b then a else b }

  /** A reservoir drawn from `h`: some of its samples, each at most as often as it occurred. */
  ghost predicate Drawn(reservoir: seq<u32>, h: seq<u32>) {
    |reservoir| <= |h| && multiset(reservoir) <= multiset(h)
  }

  /** A full-size sample: everything while it fits. */
  ghost predicate Sampled(reservoir: seq<u32>, h: seq<u32>, size: nat) {
    && Drawn(reservoir, h) && |reservoir| == Smaller(|h|, size)
    && (|h| <= size ==> multiset(reservoir) == multiset(h))
  }

  ghost predicate Moments(h: seq<u32>, mean: real, m2: real) {
    && |h| as real * mean == Total(h) && m2 == Spread(h, mean)
    && (h == [] ==> mean == 0.0)
  }

  lemma OneSample(value: u32, centre: real)
    ensures Total([value]) == value as real
    ensures Spread([value], centre) == (value as real - centre) * (value as real - centre)
  {
    assert [value][..0] == [];
  }

  // The pieces of the pairwise update, named so that each is reasoned about on its own.
  function Shift(delta: real, n: real, m: real): real
    requires n + m > 0.0
  {
    delta * m / (n + m)
  }

  function Added(delta: real, n: real, m: real): real
    requires n + m > 0.0
  {
    delta * delta * n * m / (n + m)
  }

  function Moved(n: real, d: real): real { n * (d * d) }

  lemma MergeAdded(n: real, m: real, delta: real)
    requires n + m > 0.0
    ensures var x := Shift(delta, n, m); Moved(n, x) + Moved(m, x - delta) == Added(delta, n, m)
  {
    CommonMean(n, m, delta, Shift(delta, n, m));
  }

  lemma MergeMean(n: real, m: real, mean: real, otherMean: real)
    requires n + m > 0.0
    ensures (n + m) * (mean + Shift(otherMean - mean, n, m)) == n * mean + m * otherMean
  {
    var delta, x := otherMean - mean, Shift(otherMean - mean, n, m);
    CommonMean(n, m, delta, x);
    assert (n + m) * (mean + x) == n * mean + m * mean + x * (n + m);
    assert m * mean + delta * m == m * otherMean;
  }

  lemma MergeTotal(a: seq<u32>, b: seq<u32>, mean: real, m2: real, otherMean: real, otherM2: real)
    requires Moments(a, mean, m2) && Moments(b, otherMean, otherM2) && b != []
    ensures |a + b| as real * (mean + Shift(otherMean - mean, |a| as real, |b| as real)) == Total(a + b)
  {
    TotalConcat(a, b);
    MergeMean(|a| as real, |b| as real, mean, otherMean);
    hide Total, Spread, Shift;
    assert |a + b| as real == |a| as real + |b| as real;
  }

  lemma MergeSpread(a: seq<u32>, b: seq<u32>, mean: real, m2: real, otherMean: real, otherM2: real, x: real)
    requires Moments(a, mean, m2) && Moments(b, otherMean, otherM2)
    ensures Spread(a + b, mean + x) == m2 + otherM2 + Moved(|a| as real, x) + Moved(|b| as real, x - (otherMean - mean))
  {
    hide Total, Spread;
    SpreadFromMean(a, mean, x);
    SpreadFromMean(b, otherMean, x - (otherMean - mean));
    SpreadConcat(a, b, mean + x);
    assert otherMean + (x - (otherMean - mean)) == mean + x;
  }

  lemma MomentsAre(h: seq<u32>, mean: real, m2: real)
    requires h != [] && |h| as real * mean == Total(h) && m2 == Spread(h, mean)
    ensures Moments(h, mean, m2)
  {
  }

  /** Two summaries merged: the moments of the concatenation. */
  lemma MergeMoments(a: seq<u32>, b: seq<u32>, mean: real, m2: real, otherMean: real, otherM2: real)
    requires Moments(a, mean, m2) && Moments(b, otherMean, otherM2) && b != []
    ensures var delta, n, m := otherMean - mean, |a| as real, |b| as real;
            Moments(a + b, mean + Shift(delta, n, m), m2 + (otherM2 + Added(delta, n, m)))
  {
    hide *;
    var n, m, delta := |a| as real, |b| as real, otherMean - mean;
    var x := Shift(delta, n, m);
    MergeTotal(a, b, mean, m2, otherMean, otherM2);
    MergeSpread(a, b, mean, m2, otherMean, otherM2, x);
    MergeAdded(n, m, delta);
    MomentsAre(a + b, mean + x, m2 + (otherM2 + Added(delta, n, m)));
  }

  lemma PushAlgebra(n: real, delta: real)
    requires n >= 0.0
    ensures Shift(delta, n, 1.0) == delta / (n + 1.0)
    ensures Added(delta, n, 1.0) == delta * (delta - delta / (n + 1.0))
  {
    var x := delta / (n + 1.0);
    assert x * (n + 1.0) == delta;
    assert (delta - x) * (n + 1.0) == delta * n;
    assert delta * (delta - x) * (n + 1.0) == delta * ((delta - x) * (n + 1.0)) == delta * (delta * n);
    assert delta * (delta - x) == delta * delta * n * 1.0 / (n + 1.0);
  }

  lemma OneMoments(value: u32)
    ensures Moments([value], value as real, 0.0)
  {
    OneSample(value, value as real);
  }

  /** One more sample, by the running update: a merge with a summary of that sample alone. */
  lemma PushMoments(h: seq<u32>, value: u32, mean: real, m2: real)
    requires Moments(h, mean, m2)
    ensures var delta, n := value as real - mean, |h| as real + 1.0;
            Moments(h + [value], mean + delta / n, m2 + delta * (delta - delta / n))
  {
    hide *;
    OneMoments(value);
    MergeMoments(h, [value], mean, m2, value as real, 0.0);
    PushAlgebra(|h| as real, value as real - mean);
  }

  lemma DrawnConcat(r: seq<u32>, h: seq<u32>, value: u32, j: nat)
    requires Drawn(r, h) && j < |r|
    ensures Drawn(r[j := value], h + [value])
  {
    assert r == r[..j] + [r[j]] + r[j + 1..];
    assert r[j := value] == r[..j] + [value] + r[j + 1..];
    assert multiset(r[j := value]) == multiset(r) - multiset{r[j]} + multiset{value};
    assert multiset(h + [value]) == multiset(h) + multiset{value};
  }

  /** Removal that fills the hole with the last value. */
  function SwapRemove(s: seq<u32>, i: nat): (r: seq<u32>)
    requires i < |s|
    ensures |r| == |s| - 1
  {
    s[i := s[|s| - 1]][..|s| - 1]
  }

  lemma SwapRemoves(s: seq<u32>, i: nat)
    requires i < |s|
    ensures multiset(SwapRemove(s, i)) == multiset(s) - multiset{s[i]}
  {
    var last := |s| - 1;
    assert s == s[..last] + [s[last]];
    if i < last {
      assert s[..last] == s[..i] + [s[i]] + s[i + 1..last];
      assert SwapRemove(s, i) == s[..i] + [s[last]] + s[i + 1..last];
    } else {
      assert SwapRemove(s, i) == s[..last];
    }
  }

  lemma LeastMerges(h: seq<u32>, g: seq<u32>, a: u32, b: u32)
    requires IsLeast(h, a) && IsLeast(g, b)
    ensures IsLeast(h + g, if b < a then b else a)
  {
    assert h == [] ==> h + g == g;
  }

  lemma GreatestMerges(h: seq<u32>, g: seq<u32>, a: u32, b: u32)
    requires IsGreatest(h, a) && IsGreatest(g, b)
    ensures IsGreatest(h + g, if b > a then b else a)
  {
    assert h == [] ==> h + g == g;
  }

  lemma SampleMerges(own: seq<u32>, h: seq<u32>, from: seq<u32>, g: seq<u32>, merged: seq<u32>, size: nat)
    requires Drawn(own, h) && Drawn(from, g)
    requires |merged| == Smaller(|own| + |from|, size) && multiset(merged) <= multiset(own) + multiset(from)
    requires |own| + |from| <= size ==> multiset(merged) == multiset(own) + multiset(from)
    ensures Drawn(merged, h + g)
    ensures Sampled(own, h, size) && Sampled(from, g, size) ==> Sampled(merged, h + g, size)
  {
    assert multiset(h + g) == multiset(h) + multiset(g);
  }

  class StreamingStats {
    var count: nat
    var mean: real
    var m2: real
    var min: u32
    var max: u32
    var reservoir: seq<u32>
    const size: nat

    /** The accumulator has seen exactly the samples `h`. */
    ghost predicate Summarizes(h: seq<u32>)
      reads this
    {
      && count == |h| && Moments(h, mean, m2) && IsLeast(h, min) && IsGreatest(h, max)
      && Drawn(reservoir, h) && |reservoir| <= size && |reservoir| <= count
    }

    /** The reservoir is as large as it can be. */
    ghost predicate Samples(h: seq<u32>)
      reads this
    {
      Sampled(reservoir, h, size)
    }

    constructor (capacity: nat)
      ensures size == capacity && Summarizes([]) && Samples([])
    {
      count, mean, m2, min, max, reservoir, size := 0, 0.0, 0.0, U32_MAX, 0, [], capacity;
    }
  
    /** The running update of count and moments. */
    method Measure(value: u32, ghost h: seq<u32>)
      requires count == |h| && Moments(h, mean, m2)
      modifies `count, `mean, `m2
      ensures count == |h + [value]| && Moments(h + [value], mean, m2)
    {
      count := count + 1;
      var delta := value as real - mean;
      hide *;
      PushMoments(h, value, mean, m2);
      assert count as real == |h| as real + 1.0;
      assert value as real - (mean + delta / count as real) == delta - delta / count as real;
      mean := mean + delta / count as real;
      m2 := m2 + delta * (value as real - mean);
    }

    /** The reservoir grows while it has room; then the sample displaces an arbitrary slot or none. */
    method Keep(value: u32, ghost h: seq<u32>)
      requires count == |h| + 1 && Drawn(reservoir, h) && |reservoir| <= size
      modifies `reservoir
      ensures Drawn(reservoir, h + [value]) && |reservoir| <= size && |reservoir| <= count
      ensures old(Samples(h)) ==> Samples(h + [value])
    {
      assert multiset(h + [value]) == multiset(h) + multiset{value};
      if |reservoir| < size {
        reservoir := reservoir + [value];
      } else {
        var j: nat :| j < count;
        if j < size {
          DrawnConcat(reservoir, h, value, j);
          reservoir := reservoir[j := value];
        }
      }
    }

    method Push(value: u32, ghost h: seq<u32>)
      requires Summarizes(h)
      modifies this
      ensures Summarizes(h + [value])
      ensures old(Samples(h)) ==> Samples(h + [value])
    {
      hide Moments, Drawn, Sampled;
      Measure(value, h);
      min := if value < min then value else min;
      max := if value > max then value else max;
      Keep(value, h);
    }

    /** Joins two reservoirs: both whole when they fit, otherwise draws without replacement until full. */
    method MergeReservoir(from: seq<u32>, fromCount: nat)
      requires |reservoir| <= count && |from| <= fromCount && |reservoir| <= size
      modifies `reservoir
      ensures |reservoir| == Smaller(|old(reservoir)| + |from|, size)
      ensures multiset(reservoir) <= multiset(old(reservoir)) + multiset(from)
      ensures |old(reservoir)| + |from| <= size ==> multiset(reservoir) == multiset(old(reservoir)) + multiset(from)
    {
      if |reservoir| + |from| <= size {
        reservoir := reservoir + from;
        return;
      }
      var own, other, merged: seq<u32> := reservoir, from, [];
      var ownWeight := if own != [] then count as real / |own| as real else 0.0;
      var otherWeight := if other != [] then fromCount as real / |other| as real else 0.0;
      assert own != [] ==> ownWeight > 0.0;
      assert other != [] ==> otherWeight > 0.0;
      while |merged| < size && !(own == [] && other == [])
        invariant |merged| <= size && |merged| + |own| + |other| == |old(reservoir)| + |from|
        invariant multiset(merged) + multiset(own) + multiset(other) == multiset(old(reservoir)) + multiset(from)
        invariant (own != [] ==> ownWeight > 0.0) && (other != [] ==> otherWeight > 0.0)
        decreases |own| + |other|
      {
        var mine := other == [];
        if own != [] && other != [] {
          mine := Draw(|own|, |other|, ownWeight, otherWeight);
        }
        if mine {
          var picked: nat :| picked < |own|;
          SwapRemoves(own, picked);
          merged, own := merged + [own[picked]], SwapRemove(own, picked);
        } else {
          var picked: nat :| picked < |other|;
          SwapRemoves(other, picked);
          merged, other := merged + [other[picked]], SwapRemove(other, picked);
        }
      }
      reservoir := merged;
    }

    /** An arbitrary draw from the interval of both remaining weights, which is never empty. */
    static method Draw(own: nat, other: nat, ownWeight: real, otherWeight: real) returns (mine: bool)
      requires own > 0 && other > 0 && ownWeight > 0.0 && otherWeight > 0.0
    {
      var ownLeft, otherLeft := own as real * ownWeight, other as real * otherWeight;
      assert ownLeft > 0.0 && otherLeft > 0.0;
      assert 0.0 <= 0.0 < ownLeft + otherLeft;
      var draw: real :| 0.0 <= draw < ownLeft + otherLeft;
      mine := draw < ownLeft;
    }

    /** Folds another accumulator in: the result is that of one stream with both histories. */
    method Merge(other: StreamingStats, ghost h: seq<u32>, ghost g: seq<u32>)
      requires other != this && Summarizes(h) && other.Summarizes(g)
      modifies this
      ensures Summarizes(h + g)
      ensures old(Samples(h)) && other.Samples(g) && size == other.size ==> Samples(h + g)
    {
      hide Moments, IsLeast, IsGreatest, Drawn, Sampled;
      if other.count == 0 {
        assert h + g == h;
        return;
      }
      MergeMeasures(other.count, other.mean, other.m2, h, g);
      LeastMerges(h, g, min, other.min);
      GreatestMerges(h, g, max, other.max);
      min := if other.min < min then other.min else min;
      max := if other.max > max then other.max else max;
      MergeReservoir(other.reservoir, other.count);
      SampleMerges(old(reservoir), h, other.reservoir, g, reservoir, size);
      count := count + other.count;
    }

    /** The report: exact count and extremes, the reservoir's median and 95th quantile, and the root of
        the mean squared deviation. Without any reservoir the plain quantile's index underflows, which is a
        failure in builds that check for overflow; `None` stands for it. */
    method Finalize(inverted: bool, ghost h: seq<u32>) returns (r: Option<Observations>)
      requires Summarizes(h)
      ensures r.None? <==> h != [] && reservoir == [] && !inverted
      ensures h == [] ==> r == Some(Observations(0, 0, 0, 0, 0, 0, 0))
      ensures h != [] && r.Some? ==>
        && r.value.count == |h| && IsLeast(h, r.value.min) && IsGreatest(h, r.value.max)
        && r.value.avg == Truncated(mean)
        && r.value.median == (if reservoir == [] then r.value.avg else AsI32(Median(reservoir)))
        && r.value.quantile95 == (if reservoir == [] then r.value.avg else AsI32(Quantile(reservoir, inverted)))
        && exists root: nat :: IsRoot(Variance(h, mean), root) && r.value.stddev == Smaller(root, U32_MAX)
    {
      if count == 0 {
        return Some(Observations(0, 0, 0, 0, 0, 0, 0));
      }
      if reservoir == [] && !inverted {
        return None;
      }
      hide Moments, Drawn, IsLeast, IsGreatest, Variance, IsRoot, Truncated, AsI32, Sorted;
      var sorted, avg := Sorted(reservoir), Truncated(mean);
      var median := if sorted != [] then AsI32(sorted[|sorted| / 2]) else avg;
      var p95 := if sorted != [] then AsI32(sorted[QuantileIndex(|sorted|, inverted)]) else avg;
      var root := Deviation(h);
      r := Some(Observations(count, median, min, max, avg, p95, Smaller(root, U32_MAX)));
    }

    method Deviation(ghost h: seq<u32>) returns (root: nat)
      requires h != [] && count == |h| && Moments(h, mean, m2)
      ensures IsRoot(Variance(h, mean), root)
    {
      SpreadNonNegative(h, mean);
      OneHasNoSpread(h, mean, m2);
      hide Total, Spread, Variance, IsRoot;
      var variance := if count > 1 then m2 / count as real else 0.0;
      NotNegative(m2, count as real);
      root := Root(variance);
    }

    method MergeMeasures(otherCount: nat, otherMean: real, otherM2: real, ghost h: seq<u32>, ghost g: seq<u32>)
      requires count == |h| && otherCount == |g| > 0 && Moments(h, mean, m2) && Moments(g, otherMean, otherM2)
      modifies `mean, `m2
      ensures Moments(h + g, mean, m2)
    {
      hide *;
      MergeMoments(h, g, mean, m2, otherMean, otherM2);
      var ownWeight, otherWeight := count as real, otherCount as real;
      var delta := otherMean - mean;
      mean := mean + Shift(delta, ownWeight, otherWeight);
      m2 := m2 + (otherM2 + Added(delta, ownWeight, otherWeight));
    }
  }

  // ---- quantiles --------------------------------------------------------------------------------------

  predicate Ordered(s: seq<u32>) { forall i, j :: 0 <= i <= j < |s| ==> s[i] <= s[j] }

  function Insert(s: seq<u32>, value: u32): (r: seq<u32>)
    requires Ordered(s)
    ensures Ordered(r) && |r| == |s| + 1
    ensures r[|r| - 1] == value || (s != [] && r[|r| - 1] == s[|s| - 1])
  {
    if s == [] || s[|s| - 1] <= value then s + [value]
    else Insert(s[..|s| - 1], value) + [s[|s| - 1]]
  }

  lemma Together(a: seq<u32>, b: seq<u32>)
    ensures multiset(a + b) == multiset(a) + multiset(b)
  {
  }

  lemma {:induction false} InsertKeeps(s: seq<u32>, value: u32)
    requires Ordered(s)
    ensures multiset(Insert(s, value)) == multiset(s) + multiset{value}
  {
    if s == [] || s[|s| - 1] <= value {
      Together(s, [value]);
    } else {
      var rest, last := s[..|s| - 1], [s[|s| - 1]];
      InsertKeeps(rest, value);
      Together(Insert(rest, value), last);
      Together(rest, last);
      assert s == rest + last;
    }
  }

  /** The samples in ascending order. */
  function Sorted(s: seq<u32>): (r: seq<u32>)
    ensures Ordered(r) && |r| == |s|
  {
    if s == [] then [] else Insert(Sorted(s[..|s| - 1]), s[|s| - 1])
  }

  lemma {:induction false} SortedKeeps(s: seq<u32>)
    ensures multiset(Sorted(s)) == multiset(s)
  {
    if s != [] {
      SortedKeeps(s[..|s| - 1]);
      InsertKeeps(Sorted(s[..|s| - 1]), s[|s| - 1]);
      assert s == s[..|s| - 1] + [s[|s| - 1]];
    }
  }

  function AtMost(s: seq<u32>, bound: int): nat {
    if s == [] then 0 else AtMost(s[..|s| - 1], bound) + (if s[|s| - 1] <= bound then 1 else 0)
  }

  function AtLeast(s: seq<u32>, bound: int): nat {
    if s == [] then 0 else AtLeast(s[..|s| - 1], bound) + (if s[|s| - 1] >= bound then 1 else 0)
  }

  lemma {:induction false} InsertCounts(s: seq<u32>, value: u32, bound: int)
    requires Ordered(s)
    ensures AtMost(Insert(s, value), bound) == AtMost(s, bound) + (if value <= bound then 1 else 0)
    ensures AtLeast(Insert(s, value), bound) == AtLeast(s, bound) + (if value >= bound then 1 else 0)
  {
    var r := Insert(s, value);
    if s == [] || s[|s| - 1] <= value {
      assert r[..|r| - 1] == s;
    } else {
      InsertCounts(s[..|s| - 1], value, bound);
      assert r[..|r| - 1] == Insert(s[..|s| - 1], value);
    }
  }

  lemma {:induction false} SortedCounts(s: seq<u32>, bound: int)
    ensures AtMost(Sorted(s), bound) == AtMost(s, bound) && AtLeast(Sorted(s), bound) == AtLeast(s, bound)
  {
    if s != [] {
      SortedCounts(s[..|s| - 1], bound);
      InsertCounts(Sorted(s[..|s| - 1]), s[|s| - 1], bound);
    }
  }

  lemma {:induction false} CountsLow(s: seq<u32>, k: nat, bound: int)
    requires k <= |s| && forall i :: 0 <= i < k ==> s[i] <= bound
    ensures AtMost(s, bound) >= k
  {
    if s != [] {
      CountsLow(s[..|s| - 1], if k == |s| then k - 1 else k, bound);
    }
  }

  lemma {:induction false} CountsHigh(s: seq<u32>, k: nat, bound: int)
    requires k <= |s| && forall i :: k <= i < |s| ==> s[i] > bound
    ensures AtMost(s, bound) <= k
  {
    if s != [] {
      CountsHigh(s[..|s| - 1], if k == |s| then k - 1 else k, bound);
    }
  }

  lemma {:induction false} CountsFrom(s: seq<u32>, k: nat, bound: int)
    requires k <= |s| && forall i :: k <= i < |s| ==> s[i] >= bound
    ensures AtLeast(s, bound) >= |s| - k
  {
    if s != [] {
      CountsFrom(s[..|s| - 1], if k == |s| then k - 1 else k, bound);
    }
  }

  lemma {:induction false} CountsBelow(s: seq<u32>, k: nat, bound: int)
    requires k <= |s| && forall i :: 0 <= i < k ==> s[i] < bound
    ensures AtLeast(s, bound) <= |s| - k
  {
    if s != [] {
      CountsBelow(s[..|s| - 1], if k == |s| then k - 1 else k, bound);
    }
  }

  /** The sample at position `k` of the sorted list: how many lie on either side of it, in any order. */
  lemma PositionCounts(s: seq<u32>, k: nat)
    requires k < |s|
    ensures var v := Sorted(s)[k]; v in s && AtMost(s, v) >= k + 1 && AtLeast(s, v) >= |s| - k
  {
    hide AtMost, AtLeast;
    var r := Sorted(s);
    CountsLow(r, k + 1, r[k]);
    CountsFrom(r, k, r[k]);
    SortedCounts(s, r[k]);
    SortedKeeps(s);
    SameMember(r, s, k);
  }

  lemma SameMember(r: seq<u32>, s: seq<u32>, k: nat)
    requires k < |r| && multiset(r) == multiset(s)
    ensures r[k] in s
  {
    assert r[k] in multiset(r);
  }

  lemma PositionGreatest(s: seq<u32>, k: nat, greater: int)
    requires k < |s| && greater > Sorted(s)[k]
    ensures AtLeast(s, greater) <= |s| - k - 1
  {
    CountsBelow(Sorted(s), k + 1, greater);
    SortedCounts(s, greater);
  }

  lemma PositionLeast(s: seq<u32>, k: nat, smaller: int)
    requires k < |s| && smaller < Sorted(s)[k]
    ensures AtMost(s, smaller) <= k
  {
    CountsHigh(Sorted(s), k, smaller);
    SortedCounts(s, smaller);
  }

  /** Subtraction that stops at zero. */
  function Less(a: nat, b: nat): nat { if a >= b then a - b else 0 }

  function Median(s: seq<u32>): u32
    requires s != []
  {
    Sorted(s)[|s| / 2]
  }

  /** More than half of the samples are at or below the median, and at least half at or above. */
  lemma MedianSplits(s: seq<u32>)
    requires s != []
    ensures Median(s) in s && 2 * AtMost(s, Median(s)) > |s| && 2 * AtLeast(s, Median(s)) >= |s|
  {
    PositionCounts(s, |s| / 2);
  }

  /** How many samples make up 95%, rounded up. */
  function Ninety5(n: nat): nat { (19 * n + 19) / 20 }

  function QuantileIndex(n: nat, inverted: bool): (k: nat)
    requires n > 0
    ensures k < n
  {
    var q := Ninety5(n);
    if inverted then Less(n, q + 1) else Smaller(Less(q, 1), n - 1)
  }

  function Quantile(s: seq<u32>, inverted: bool): u32
    requires s != []
  {
    Sorted(s)[QuantileIndex(|s|, inverted)]
  }

  /** The reported value is the least sample with at least 95% of the samples at or below it. */
  lemma QuantileExact(s: seq<u32>, smaller: int)
    requires s != []
    ensures Quantile(s, false) in s
    ensures 20 * AtMost(s, Quantile(s, false)) >= 19 * |s|
    ensures smaller < Quantile(s, false) ==> 20 * AtMost(s, smaller) < 19 * |s|
  {
    var k := QuantileIndex(|s|, false);
    PositionCounts(s, k);
    if smaller < Quantile(s, false) {
      PositionLeast(s, k, smaller);
    }
  }

  /** Inverted, at least 95% of the samples are at or above the reported value. */
  lemma InvertedQuantile(s: seq<u32>)
    requires s != []
    ensures Quantile(s, true) in s && 20 * AtLeast(s, Quantile(s, true)) >= 19 * |s|
  {
    PositionCounts(s, QuantileIndex(|s|, true));
  }

  /** The reported value is the greatest sample with at least 95% of the samples at or above it. */
  ghost predicate InvertedTight(s: seq<u32>)
    requires s != []
  {
    forall v: u32 :: v in s && v > Quantile(s, true) ==> 20 * AtLeast(s, v) < 19 * |s|
  }

  /** From twenty samples on the inverted index is one lower than it need be, so the reported value is the
      greatest that qualifies exactly when the next sample in order is equal to it. */
  lemma InvertedExact(s: seq<u32>)
    requires s != []
    ensures InvertedTight(s) <==> |s| < 20 || Sorted(s)[|s| - Ninety5(|s|)] == Quantile(s, true)
  {
    hide AtMost, AtLeast, Sorted;
    var k := |s| - Ninety5(|s|);
    PositionCounts(s, k);
    var best := Sorted(s)[k];
    forall v: u32 | v > best ensures 20 * AtLeast(s, v) < 19 * |s| {
      PositionGreatest(s, k, v);
    }
    NextIndex(|s|);
    assert Quantile(s, true) <= best;
  }

  lemma NextIndex(n: nat)
    requires n > 0
    ensures n < 20 ==> n == Ninety5(n) && QuantileIndex(n, true) == 0
    ensures n >= 20 ==> QuantileIndex(n, true) + 1 == n - Ninety5(n)
  {
  }

  /** Twenty distinct samples: the first is reported, though 95% are at or above the second as well. */
  lemma InvertedIsConservative(s: seq<u32>)
    requires |s| == 20 && Ordered(s) && s[0] < s[1]
    ensures QuantileIndex(|s|, true) == 0 && 20 * AtLeast(s, s[1]) >= 19 * |s|
  {
    CountsFrom(s, 1, s[1]);
  }

  /** A 32-bit value reinterpreted as signed. */
  function AsI32(x: u32): int { if x < 0x8000_0000 then x else x - U32_SPAN }

  /** A real truncated toward zero and clamped to the signed 32-bit range. */
  function Truncated(x: real): int {
    var whole := if x >= 0.0 then x.Floor else -((-x).Floor);
    if whole > 0x7fff_ffff then 0x7fff_ffff else if whole < -0x8000_0000 then -0x8000_0000 else whole
  }

  datatype Observations =
    Observations(count: nat, median: int, min: u32, max: u32, avg: int, quantile95: int, stddev: nat)

  /** The mean squared deviation. */
  ghost function Variance(h: seq<u32>, mean: real): real
    requires h != []
  {
    Spread(h, mean) / |h| as real
  }

  /** The whole part of the square root. */
  predicate IsRoot(x: real, root: nat) {
    (root * root) as real <= x < ((root + 1) * (root + 1)) as real
  }

  method Root(x: real) returns (root: nat)
    requires x >= 0.0
    ensures IsRoot(x, root)
  {
    root := 0;
    while ((root + 1) * (root + 1)) as real <= x
      invariant (root * root) as real <= x
      decreases x.Floor - root
    {
      assert root + 1 <= (root + 1) * (root + 1);
      root := root + 1;
    }
  }

  lemma NotNegative(x: real, n: real)
    requires x >= 0.0 && n > 0.0
    ensures x / n >= 0.0
  {
  }

  /** A single sample does not deviate from its mean. */
  lemma OneHasNoSpread(h: seq<u32>, mean: real, m2: real)
    requires Moments(h, mean, m2) && h != []
    ensures Variance(h, mean) == if |h| > 1 then m2 / |h| as real else 0.0
  {
    if |h| == 1 {
      assert h == [h[0]];
      OneSample(h[0], mean);
    }
  }

  // ---- workers ----------------------------------------------------------------------------------------

  /** How an accumulator came about: any nesting of pushes and merges. */
  datatype Tree = Fresh | Pushed(tree: Tree, value: u32) | Merged(left: Tree, right: Tree)

  function History(t: Tree): seq<u32> {
    match t
    case Fresh => []
    case Pushed(tree, value) => History(tree) + [value]
    case Merged(left, right) => History(left) + History(right)
  }

  /** Any nesting of pushes and merges over accumulators of one size summarises the whole history. */
  method Collect(t: Tree, size: nat) returns (s: StreamingStats)
    ensures fresh(s) && s.size == size && s.Summarizes(History(t)) && s.Samples(History(t))
    decreases t
  {
    match t {
      case Fresh => s := new StreamingStats(size);
      case Pushed(tree, value) =>
        s := Collect(tree, size);
        s.Push(value, History(tree));
      case Merged(left, right) =>
        s := Collect(left, size);
        var other := Collect(right, size);
        s.Merge(other, History(left), History(right));
    }
  }

  lemma Dropped(s: seq<u32>, i: nat)
    requires i < |s|
    ensures multiset(s[..i] + s[i + 1..]) == multiset(s) - multiset{s[i]}
  {
    assert s == s[..i] + [s[i]] + s[i + 1..];
  }

  lemma Matched(h: seq<u32>, g: seq<u32>) returns (i: nat)
    requires multiset(h) == multiset(g) && h != []
    ensures i < |g| && g[i] == h[|h| - 1] && multiset(h[..|h| - 1]) == multiset(g[..i] + g[i + 1..])
  {
    var last := |h| - 1;
    assert h[last] in multiset(g);
    i :| 0 <= i < |g| && g[i] == h[last];
    Dropped(h, last);
    Dropped(g, i);
    assert h[..last] + h[last + 1..] == h[..last];
  }

  lemma {:induction false} TotalPermutes(h: seq<u32>, g: seq<u32>)
    requires multiset(h) == multiset(g)
    ensures Total(h) == Total(g) && |h| == |g| && forall centre :: Spread(h, centre) == Spread(g, centre)
    decreases |h|
  {
    if h == [] {
      assert |multiset(g)| == |multiset(h)| == 0;
    } else {
      var i := Matched(h, g);
      var front, value, back := g[..i], g[i], g[i + 1..];
      assert g == front + ([value] + back);
      TotalPermutes(h[..|h| - 1], front + back);
      Extracted(front, value, back);
    }
  }

  lemma Extracted(front: seq<u32>, value: u32, back: seq<u32>)
    ensures Total(front + ([value] + back)) == Total(front + back) + value as real
    ensures forall centre :: Spread(front + ([value] + back), centre)
                          == Spread(front + back, centre) + (value as real - centre) * (value as real - centre)
  {
    TotalConcat(front, [value] + back);
    TotalConcat([value], back);
    TotalConcat(front, back);
    OneSample(value, 0.0);
    forall centre ensures Spread(front + ([value] + back), centre)
                       == Spread(front + back, centre) + (value as real - centre) * (value as real - centre)
    {
      SpreadConcat(front, [value] + back, centre);
      SpreadConcat([value], back, centre);
      SpreadConcat(front, back, centre);
      OneSample(value, centre);
    }
  }

  /** Merged workers are indistinguishable from one stream: summaries of the same samples, in any order
      and however split, agree in count, mean, spread and extremes. */
  lemma SameSamplesSameSummary(a: StreamingStats, b: StreamingStats, h: seq<u32>, g: seq<u32>)
    requires a.Summarizes(h) && b.Summarizes(g) && multiset(h) == multiset(g)
    ensures a.count == b.count && a.mean == b.mean && a.m2 == b.m2 && a.min == b.min && a.max == b.max
  {
    SameMoments(h, g, a.mean, a.m2, b.mean, b.m2);
    SameExtremes(h, g, a.min, b.min, a.max, b.max);
    hide *;
    assert |multiset(h)| == |h| && |multiset(g)| == |g|;
  }

  lemma SameMoments(h: seq<u32>, g: seq<u32>, mean: real, m2: real, mean': real, m2': real)
    requires multiset(h) == multiset(g) && Moments(h, mean, m2) && Moments(g, mean', m2')
    ensures mean == mean' && m2 == m2'
  {
    TotalPermutes(h, g);
    hide Total, Spread;
    if h != [] {
      SameFactor(|h| as real, mean, mean');
    }
  }

  lemma SameFactor(n: real, a: real, b: real)
    requires n > 0.0 && n * a == n * b
    ensures a == b
  {
    assert a == n * a / n && b == n * b / n;
  }

  lemma SameExtremes(h: seq<u32>, g: seq<u32>, a: u32, b: u32, c: u32, d: u32)
    requires multiset(h) == multiset(g) && IsLeast(h, a) && IsLeast(g, b) && IsGreatest(h, c) && IsGreatest(g, d)
    ensures a == b && c == d
  {
    if h != [] {
      assert h[0] in multiset(g);
      assert a in multiset(h) && b in multiset(g) && c in multiset(h) && d in multiset(g);
      assert a in g && b in h && c in g && d in h;
    } else {
      assert |multiset(g)| == 0;
      assert g == [];
    }
  }
}
