/** Dividing one load run over worker threads. */
module Workers {
  import opened Common
  import opened Rate

  /** A worker's iterations: those numbered `first + 1` to `first + count`. */
  datatype Span = Span(first: nat, count: nat)

  predicate Within(s: Span, id: int) { s.first < id <= s.first + s.count }

  ghost predicate Tiles(spans: seq<Span>, total: nat) {
    && (forall i :: 0 <= i < |spans| ==> spans[i].count > 0)
    && (forall i :: 0 <= i < |spans| - 1 ==> spans[i + 1].first == spans[i].first + spans[i].count)
    && (if spans == [] then total == 0
        else spans[0].first == 0 && spans[|spans| - 1].first + spans[|spans| - 1].count == total)
  }

  /** Consecutive non-empty spans, as many as there are workers or iterations, whichever is fewer. */
  method SplitIterations(iterations: nat, workers: nat) returns (spans: seq<Span>)
    ensures workers > 0 ==> Tiles(spans, iterations)
    ensures |spans| == if iterations < workers then iterations else workers
  {
    if workers == 0 {
      return [];
    }
    var shares, first := SplitBudget(iterations, workers), 0;
    spans := [];
    SplitConserves(iterations, workers);
    assert shares[..0] == [];
    while |spans| < |shares| && shares[|spans|] > 0
      invariant |spans| <= workers && first == Sum(shares[..|spans|]) && Tiles(spans, first)
      invariant forall i :: 0 <= i < |spans| ==> shares[i] > 0
    {
      assert shares[..|spans| + 1][..|spans|] == shares[..|spans|];
      spans, first := spans + [Span(first, shares[|spans|])], first + shares[|spans|];
    }
    RestIsZero(iterations, workers, |spans|);
  }

  lemma RestIsZero(total: nat, parts: nat, k: nat)
    requires 0 < parts && k <= parts
    requires (forall i :: 0 <= i < k ==> SplitBudget(total, parts)[i] > 0)
             && (k < parts ==> SplitBudget(total, parts)[k] == 0)
    ensures Sum(SplitBudget(total, parts)[..k]) == total
    ensures k == if total < parts then total else parts
  {
    var shares := SplitBudget(total, parts);
    SplitConserves(total, parts);
    SharesSum(total, parts, k);
    assert shares[..parts] == shares;
    if k < parts {
      assert total / parts == 0 && k >= total % parts;
      assert total % parts == total;
      if k > 0 {
        assert shares[k - 1] == Share(total, parts, k - 1);
      }
    }
  }

  lemma {:induction false} TilesCover(spans: seq<Span>, total: nat, id: int)
    requires Tiles(spans, total)
    ensures (exists i :: 0 <= i < |spans| && Within(spans[i], id)) <==> 1 <= id <= total
    decreases |spans|
  {
    if spans != [] {
      var last := spans[|spans| - 1];
      var rest := spans[..|spans| - 1];
      assert Tiles(rest, last.first);
      TilesCover(rest, last.first, id);
      if i :| 0 <= i < |rest| && Within(rest[i], id) {
        assert Within(spans[i], id);
      }
      if 1 <= id <= total && id > last.first {
        assert Within(spans[|spans| - 1], id);
      }
    }
  }

  lemma {:induction false} TilesOrdered(spans: seq<Span>, total: nat, i: nat, j: nat)
    requires Tiles(spans, total) && i < j < |spans|
    ensures spans[i].first + spans[i].count <= spans[j].first
    decreases j
  {
    if i + 1 < j {
      TilesOrdered(spans, total, i, j - 1);
    }
  }

  /** Every iteration number from 1 to the total belongs to exactly one worker. */
  lemma IterationsPartitioned(spans: seq<Span>, total: nat, id: int)
    requires Tiles(spans, total) && 1 <= id <= total
    ensures exists i :: 0 <= i < |spans| && Within(spans[i], id)
    ensures forall i, j | 0 <= i < |spans| && 0 <= j < |spans| ::
      Within(spans[i], id) && Within(spans[j], id) ==> i == j
  {
    TilesCover(spans, total, id);
    forall i: nat, j: nat | i < j < |spans| && Within(spans[i], id) && Within(spans[j], id) ensures false {
      TilesOrdered(spans, total, i, j);
    }
  }

  datatype Budgets = Budgets(iterations: seq<Span>, rate: seq<Pacing>, concurrency: seq<nat>)

  function Smaller(a: nat, b: nat): nat { if a <= b then a else b }

  /** How many workers the budgets allow: no more than asked for, and no more than there are concurrency
      slots, admissions per second or iterations to give each of them one. */
  function WorkerCount(threads: nat, iterations: nat, rate: Pacing, concurrency: nat): nat {
    var wanted := Smaller(if threads == 0 then 1 else threads, concurrency);
    var paced := match rate case PerSecond(r) => Smaller(wanted, r) case Unlimited => wanted;
    Smaller(paced, iterations)
  }

  /** The workers' budgets are positive and add up to the originals; a zero rate or concurrency is
      refused. Without iterations there are no workers at all. */
  method PartitionBudgets(threads: nat, iterations: nat, rate: Pacing, concurrency: nat) returns (r: Option<Budgets>)
    ensures r.None? <==> rate == PerSecond(0) || concurrency == 0
    ensures r.Some? ==>
      && Tiles(r.value.iterations, iterations)
      && |r.value.iterations| == |r.value.rate| == |r.value.concurrency|
           == WorkerCount(threads, iterations, rate, concurrency)
      && (forall i :: 0 <= i < |r.value.concurrency| ==> r.value.concurrency[i] >= 1)
      && (forall i :: 0 <= i < |r.value.rate| ==> Interval(r.value.rate[i]).Some?)
      && (iterations > 0 ==> Sum(r.value.concurrency) == concurrency)
      && (iterations > 0 ==> r.value.rate != [] && Combined(r.value.rate) == rate)
  {
    if Interval(rate).None? || concurrency == 0 {
      return None;
    }
    var workers := Smaller(if threads == 0 then 1 else threads, concurrency);
    if rate.PerSecond? {
      workers := Smaller(workers, rate.rate);
    }
    var spans := SplitIterations(iterations, workers);
    workers := |spans|;
    assert workers == WorkerCount(threads, iterations, rate, concurrency);
    var rates := Partition(rate, workers);
    r := Some(Budgets(spans, rates.value, SplitBudget(concurrency, workers)));
    if workers > 0 {
      SplitConserves(concurrency, workers);
      PartitionRecombines(rate, workers);
    }
  }
}
