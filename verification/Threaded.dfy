/** A load run over several workers: each drives its own share of the budgets, and the outcomes are
    merged. */
module Threaded {
  import opened Common
  import opened Rate
  import opened Workers
  import D = Driver

  /** The worker with this span has issued request `id` of the whole run. */
  ghost predicate Requested(span: Span, log: seq<D.Event>, id: int) {
    exists k :: 0 <= k < |D.Admitted(log)| && span.first + D.Admitted(log)[k] == id
  }

  /** A worker kept to its shares: in flight, in number and in numbering. */
  ghost predicate Kept(span: Span, share: nat, log: seq<D.Event>) {
    && D.Disciplined(log, share) && D.Consecutive(D.Admitted(log)) && |D.Admitted(log)| <= span.count
  }

  lemma RequestedWithin(span: Span, share: nat, log: seq<D.Event>, id: int)
    requires Kept(span, share, log)
    ensures Requested(span, log, id) ==> Within(span, id)
    ensures |D.Admitted(log)| == span.count && Within(span, id) ==> Requested(span, log, id)
  {
    if |D.Admitted(log)| == span.count && Within(span, id) {
      assert span.first + D.Admitted(log)[id - span.first - 1] == id;
    }
  }

  /** Workers that kept to their shares never issue a request twice, whichever of them finished; if all
      made their iterations, the requests are exactly those numbered 1 to the total. */
  lemma RequestsPartitioned(spans: seq<Span>, shares: seq<nat>, logs: seq<seq<D.Event>>, total: nat, id: int)
    requires Tiles(spans, total) && |shares| == |logs| == |spans|
    requires forall i :: 0 <= i < |spans| ==> Kept(spans[i], shares[i], logs[i])
    ensures forall i, j | 0 <= i < |spans| && 0 <= j < |spans| ::
      Requested(spans[i], logs[i], id) && Requested(spans[j], logs[j], id) ==> i == j
    ensures (forall i :: 0 <= i < |spans| ==> |D.Admitted(logs[i])| == spans[i].count) ==>
      (1 <= id <= total <==> exists i :: 0 <= i < |spans| && Requested(spans[i], logs[i], id))
  {
    hide Requested, Kept, Tiles, D.Admitted;
    forall i | 0 <= i < |spans|
      ensures Requested(spans[i], logs[i], id) ==> Within(spans[i], id)
      ensures |D.Admitted(logs[i])| == spans[i].count && Within(spans[i], id) ==> Requested(spans[i], logs[i], id)
    {
      RequestedWithin(spans[i], shares[i], logs[i], id);
    }
    TilesCover(spans, total, id);
    if 1 <= id <= total {
      IterationsPartitioned(spans, total, id);
    }
  }

  /** One moment of an interleaving: how much of each worker's log has happened. */
  ghost predicate Moment(logs: seq<seq<D.Event>>, cuts: seq<nat>) {
    |cuts| == |logs| && forall i :: 0 <= i < |logs| ==> cuts[i] <= |logs[i]|
  }

  /** Requests in flight over all workers at that moment. */
  function FlyingAt(logs: seq<seq<D.Event>>, cuts: seq<nat>): nat
    requires Moment(logs, cuts)
  {
    if logs == [] then 0 else
    var last := |logs| - 1;
    FlyingAt(logs[..last], cuts[..last]) + |D.InFlight(logs[last][..cuts[last]])|
  }

  /** However the workers' steps interleave, the requests in flight stay within the sum of their shares
      at every moment. */
  lemma {:induction false} FlyingWithin(spans: seq<Span>, shares: seq<nat>, logs: seq<seq<D.Event>>, cuts: seq<nat>)
    requires |spans| == |shares| == |logs| && Moment(logs, cuts)
    requires forall i :: 0 <= i < |spans| ==> Kept(spans[i], shares[i], logs[i])
    ensures FlyingAt(logs, cuts) <= Sum(shares)
    decreases |logs|
  {
    if logs != [] {
      var last := |logs| - 1;
      FlyingWithin(spans[..last], shares[..last], logs[..last], cuts[..last]);
      assert Kept(spans[last], shares[last], logs[last]);
    }
  }

  function Counts(spans: seq<Span>): seq<nat> {
    if spans == [] then [] else Counts(spans[..|spans| - 1]) + [spans[|spans| - 1].count]
  }

  lemma {:induction false} TilesSum(spans: seq<Span>, total: nat)
    requires Tiles(spans, total)
    ensures Sum(Counts(spans)) == total
    decreases |spans|
  {
    if spans != [] {
      var last := spans[|spans| - 1];
      assert Tiles(spans[..|spans| - 1], last.first);
      TilesSum(spans[..|spans| - 1], last.first);
      assert Counts(spans)[..|Counts(spans)| - 1] == Counts(spans[..|spans| - 1]);
    }
  }

  /** The requests of all workers that ended well, or badly. */
  function Tallied(logs: seq<seq<D.Event>>, ok: bool): nat {
    if logs == [] then 0 else Tallied(logs[..|logs| - 1], ok) + D.Tally(logs[|logs| - 1], ok)
  }

  /** What the merged outcome says of the workers: the first that did not finish, or else how many of all
      their requests were delivered and how many failed. */
  ghost predicate Reports(merged: D.Outcome, outcomes: seq<D.Outcome>, logs: seq<seq<D.Event>>) {
    if forall i :: 0 <= i < |outcomes| ==> outcomes[i].Finished?
    then merged == D.Finished(Tallied(logs, true), Tallied(logs, false))
    else exists i :: FirstUnfinished(outcomes, i) && merged == outcomes[i]
  }

  ghost predicate FirstUnfinished(outcomes: seq<D.Outcome>, i: int) {
    0 <= i < |outcomes| && !outcomes[i].Finished? && forall j :: 0 <= j < i ==> outcomes[j].Finished?
  }

  lemma ReportsNext(merged: D.Outcome, outcomes: seq<D.Outcome>, logs: seq<seq<D.Event>>, r: D.Outcome,
                    log: seq<D.Event>)
    requires Reports(merged, outcomes, logs) && |outcomes| == |logs|
    requires r.Finished? ==> r == D.Finished(D.Tally(log, true), D.Tally(log, false))
    ensures Reports(Merged(merged, r), outcomes + [r], logs + [log])
  {
    hide D.Tally;
    var more := outcomes + [r];
    assert (logs + [log])[..|logs|] == logs;
    if forall i :: 0 <= i < |outcomes| ==> outcomes[i].Finished? {
      assert !r.Finished? ==> FirstUnfinished(more, |outcomes|);
    } else {
      var i :| FirstUnfinished(outcomes, i) && merged == outcomes[i];
      assert FirstUnfinished(more, i);
    }
  }

  /** One worker's run, from a fresh driver. */
  method Work(span: Span, rate: Pacing, share: nat, bounded: bool, patience: nat)
    returns (r: D.Outcome, log: seq<D.Event>)
    ensures Kept(span, share, log)
    ensures r.Refused? <==> share == 0 || rate == PerSecond(0)
    ensures r.Finished? ==> r.delivered + r.failed == |D.Admitted(log)|
    ensures r.Finished? ==> r == D.Finished(D.Tally(log, true), D.Tally(log, false))
    ensures r.Finished? && !bounded ==> |D.Admitted(log)| == span.count
  {
    var driver := new D.Driver();
    r := driver.Execute(D.Iterations(span.count, bounded), rate, share, patience);
    log := driver.log;
  }

  /** The whole run: the workers' limits on requests in flight add up to the given one, and a run that
      finishes unbounded has delivered or failed every iteration. */
  method Execute(threads: nat, iterations: nat, rate: Pacing, concurrency: nat, bounded: bool, patience: nat)
    returns (r: Option<D.Outcome>, spans: seq<Span>, shares: seq<nat>, logs: seq<seq<D.Event>>,
             outcomes: seq<D.Outcome>)
    ensures r.None? <==> rate == PerSecond(0) || concurrency == 0
    ensures r.Some? ==> Tiles(spans, iterations) && |shares| == |logs| == |spans|
    ensures r.Some? ==> forall i :: 0 <= i < |spans| ==> Kept(spans[i], shares[i], logs[i])
    ensures r.Some? && iterations > 0 ==> Sum(shares) == concurrency
    ensures r.Some? ==> |outcomes| == |logs| && Reports(r.value, outcomes, logs)
    ensures r.Some? && r.value.Finished? && !bounded ==> r.value.delivered + r.value.failed == iterations
  {
    hide Kept, Tiles, Counts, Sum, D.Tally, Combined, Interval, WorkerCount;
    CountsNone();
    var budgets := PartitionBudgets(threads, iterations, rate, concurrency);
    spans, shares, logs, outcomes := [], [], [], [];
    if budgets.None? {
      return None, [], [], [], [];
    }
    spans, shares := budgets.value.iterations, budgets.value.concurrency;
    var merged := D.Finished(0, 0);
    assert spans[..0] == [];
    for k := 0 to |spans|
      invariant |logs| == |outcomes| == k && Reports(merged, outcomes, logs)
      invariant forall i :: 0 <= i < k ==> Kept(spans[i], shares[i], logs[i])
      invariant merged.Finished? && !bounded ==> merged.delivered + merged.failed == Sum(Counts(spans[..k]))
    {
      var worker, log := Work(spans[k], budgets.value.rate[k], shares[k], bounded, patience);
      ReportsNext(merged, outcomes, logs, worker, log);
      logs, outcomes := logs + [log], outcomes + [worker];
      CountsNext(spans, k);
      merged := Merged(merged, worker);
    }
    assert spans[..|spans|] == spans;
    TilesSum(spans, iterations);
    r := Some(merged);
  }

  /** The first worker's error, or the sums. */
  function Merged(a: D.Outcome, b: D.Outcome): D.Outcome {
    if a.Finished? && b.Finished? then D.Finished(a.delivered + b.delivered, a.failed + b.failed)
    else if a.Finished? then b else a
  }

  lemma CountsNone()
    ensures Sum(Counts([])) == 0
  {
  }

  lemma CountsNext(spans: seq<Span>, k: nat)
    requires k < |spans|
    ensures Sum(Counts(spans[..k + 1])) == Sum(Counts(spans[..k])) + spans[k].count
  {
    var longer := spans[..k + 1];
    assert longer[..k] == spans[..k];
    assert Counts(longer)[..|Counts(longer)| - 1] == Counts(spans[..k]);
  }
}
