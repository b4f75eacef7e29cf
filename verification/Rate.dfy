/** Offered load: how a rate is split over workers and put back together, and how a pacer spaces
    admissions in time (nanoseconds). */
module Rate {
  import opened Common

  datatype Pacing = Unlimited | PerSecond(rate: u32)

  const ONE_SECOND: nat := 1_000_000_000
  const TIMER_RESOLUTION: nat := 1_000_000
  const RESYNC_SLACK: nat := 5_000_000

  /** Outer `None`: the pacing is refused. Inner `None`: admissions are not spaced. */
  function Interval(pacing: Pacing): Option<Option<nat>> {
    match pacing
    case Unlimited => Some(None)
    case PerSecond(rate) => if rate == 0 then None else Some(Some(ONE_SECOND / rate))
  }

  // ---- splitting --------------------------------------------------------------------------------------

  function Share(total: nat, parts: nat, index: nat): nat
    requires parts > 0
  {
    total / parts + (if index < total % parts then 1 else 0)
  }

  /** `total` dealt out in `parts` shares that differ by at most one, larger ones first. */
  function SplitBudget(total: nat, parts: nat): (r: seq<nat>)
    ensures |r| == parts
  {
    seq(parts, i requires 0 <= i < parts => Share(total, parts, i))
  }

  lemma {:induction false} SharesSum(total: nat, parts: nat, k: nat)
    requires 0 < parts && k <= parts
    ensures Sum(SplitBudget(total, parts)[..k])
         == k * (total / parts) + (if k < total % parts then k else total % parts)
  {
    var shares, base := SplitBudget(total, parts), total / parts;
    if k > 0 {
      SharesSum(total, parts, k - 1);
      assert shares[..k][..k - 1] == shares[..k - 1];
      assert shares[k - 1] == Share(total, parts, k - 1);
      assert k * base == (k - 1) * base + base;
    }
  }

  /** The shares add up to the whole, are even to within one, and are all positive exactly when there is
      enough to go around. */
  lemma SplitConserves(total: nat, parts: nat)
    requires parts > 0
    ensures Sum(SplitBudget(total, parts)) == total
    ensures forall i, j :: 0 <= i <= j < parts ==>
      SplitBudget(total, parts)[j] <= SplitBudget(total, parts)[i] <= SplitBudget(total, parts)[j] + 1
    ensures (forall i :: 0 <= i < parts ==> SplitBudget(total, parts)[i] >= 1) <==> total >= parts
  {
    SharesSum(total, parts, parts);
    var shares := SplitBudget(total, parts);
    assert shares[..parts] == shares;
    assert parts * (total / parts) + total % parts == total;
    if total >= parts {
      Quotient(total, parts);
    } else {
      assert shares[parts - 1] == 0;
    }
  }

  lemma Quotient(total: nat, parts: nat)
    requires 0 < parts <= total
    ensures total / parts >= 1
  {
  }

  /** A share is never more than the whole. */
  lemma ShareBound(total: nat, parts: nat, index: nat)
    requires parts > 0
    ensures Share(total, parts, index) <= total
  {
    AtLeastOnce(parts, total / parts);
    assert parts * (total / parts) + total % parts == total;
  }

  lemma AtLeastOnce(times: nat, x: nat)
    requires times > 0
    ensures times * x >= x
  {
    assert times * x == (times - 1) * x + x;
  }

  function RateShare(rate: u32, workers: nat, index: nat): Pacing
    requires workers > 0
  {
    ShareBound(rate, workers, index);
    PerSecond(Share(rate, workers, index))
  }

  /** A pacing for each worker, or nothing when the rate is zero or too small to share. */
  function Partition(pacing: Pacing, workers: nat): (r: Option<seq<Pacing>>)
    ensures r.Some? ==> |r.value| == workers
    ensures r.None? <==> pacing.PerSecond? && (pacing.rate == 0 || pacing.rate < workers)
  {
    match pacing
    case Unlimited => Some(seq(workers, _ => Unlimited))
    case PerSecond(rate) =>
      if rate == 0 || rate < workers then None
      else Some(seq(workers, i requires 0 <= i < workers => RateShare(rate, workers, i)))
  }

  function Combine(a: Pacing, b: Pacing): Pacing {
    match (a, b)
    case (PerSecond(own), PerSecond(other)) => PerSecond(if own + other < U32_SPAN then own + other else U32_SPAN - 1)
    case _ => Unlimited
  }

  /** The workers' pacings folded together, first to last. */
  function Combined(rates: seq<Pacing>): Pacing
    requires rates != []
  {
    if |rates| == 1 then rates[0] else Combine(Combined(rates[..|rates| - 1]), rates[|rates| - 1])
  }

  /** The rates of paced workers; what is not spaced counts nothing. */
  function Rates(rates: seq<Pacing>): seq<nat> {
    if rates == [] then [] else
    var last := rates[|rates| - 1];
    Rates(rates[..|rates| - 1]) + [if last.PerSecond? then last.rate else 0]
  }

  /** Pacings of any workers combine to the sum of their rates, or to the greatest 32-bit rate where the sum
      does not fit; one worker without a pace leaves the whole without. */
  lemma {:induction false} CombinedSaturates(rates: seq<Pacing>)
    requires rates != []
    ensures Combined(rates) == Unlimited <==> Unlimited in rates
    ensures Unlimited !in rates ==>
      Combined(rates) == PerSecond(if Sum(Rates(rates)) <= 0xFFFF_FFFF then Sum(Rates(rates)) else 0xFFFF_FFFF)
    decreases |rates|
  {
    var init, last := rates[..|rates| - 1], rates[|rates| - 1];
    assert rates == init + [last];
    assert Rates(rates)[..|Rates(rates)| - 1] == Rates(init);
    if init != [] {
      CombinedSaturates(init);
    } else {
      assert Sum(Rates(init)) == 0;
    }
  }

  lemma {:induction false} CombinedShares(rate: u32, workers: nat, k: nat)
    requires 0 < k <= workers <= rate
    ensures var c := Combined(Partition(PerSecond(rate), workers).value[..k]);
            c.PerSecond? && c.rate == Sum(SplitBudget(rate, workers)[..k])
  {
    var rates, shares := Partition(PerSecond(rate), workers).value, SplitBudget(rate, workers);
    assert shares[..k][..k - 1] == shares[..k - 1] && rates[..k][..k - 1] == rates[..k - 1];
    SharesSum(rate, workers, k);
    PartialBound(rate, workers, k);
    if k == 1 {
      assert shares[..0] == [];
    } else {
      CombinedShares(rate, workers, k - 1);
    }
  }

  lemma PartialBound(total: nat, parts: nat, k: nat)
    requires 0 < parts && k <= parts
    ensures k * (total / parts) + (if k < total % parts then k else total % parts) <= total
  {
    assert parts * (total / parts) + total % parts == total;
    assert k * (total / parts) <= parts * (total / parts);
  }

  /** Splitting a pacing over any number of workers and combining the shares gives it back. */
  lemma PartitionRecombines(pacing: Pacing, workers: nat)
    requires workers > 0 && Partition(pacing, workers).Some?
    ensures Combined(Partition(pacing, workers).value) == pacing
    ensures forall i :: 0 <= i < workers ==> Interval(Partition(pacing, workers).value[i]).Some?
  {
    var rates := Partition(pacing, workers).value;
    assert rates[..workers] == rates;
    match pacing {
      case Unlimited => AllUnlimited(rates);
      case PerSecond(rate) =>
        CombinedShares(rate, workers, workers);
        SplitConserves(rate, workers);
        assert SplitBudget(rate, workers)[..workers] == SplitBudget(rate, workers);
        forall i | 0 <= i < workers ensures Interval(rates[i]).Some? {
          assert SplitBudget(rate, workers)[i] >= 1;
        }
    }
  }

  lemma {:induction false} AllUnlimited(rates: seq<Pacing>)
    requires rates != [] && forall i :: 0 <= i < |rates| ==> rates[i] == Unlimited
    ensures Combined(rates) == Unlimited
  {
    if |rates| > 1 {
      AllUnlimited(rates[..|rates| - 1]);
    }
  }

  // ---- pacing -----------------------------------------------------------------------------------------

  /** The slot a waiter is given: the planned one, or now when it is too far behind. */
  function Slot(next: int, now: int): int {
    if next <= now && now - next > RESYNC_SLACK then now else next
  }

  /** Whether the waiter sleeps: its slot lies at least one timer tick ahead. */
  predicate Sleeps(next: int, now: int) { next > now && next - now >= TIMER_RESOLUTION }

  /** One admission: the clock when the wait began and when the admission happened. */
  datatype Admission = Admission(called: int, admitted: int)

  function NextAfter(first: int, interval: nat, calls: seq<Admission>): int {
    if calls == [] then first else
    Slot(NextAfter(first, interval, calls[..|calls| - 1]), calls[|calls| - 1].called) + interval
  }

  class Pacer {
    var interval: Option<nat>
    var next: int

    /** Waits for the next slot and returns when. `now` is the clock at the call; `woken` is the clock
        when the sleep ends, which is not before the slot. */
    method Wait(now: int, woken: int) returns (at: int)
      requires interval.Some? && Sleeps(next, now) ==> woken >= next
      modifies `next
      ensures now <= at && (interval.Some? && Sleeps(old(next), now) ==> old(next) <= at)
      ensures interval.None? ==> next == old(next) && at == now
      ensures interval.Some? ==> forall first, calls :: old(next) == NextAfter(first, interval.value, calls) ==>
        next == NextAfter(first, interval.value, calls + [Admission(now, at)])
    {
      at := now;
      if interval.None? {
        return;
      }
      if next > now {
        if next - now >= TIMER_RESOLUTION {
          at := woken;
        }
      } else if now - next > RESYNC_SLACK {
        next := now;
      }
      next := next + interval.value;
      forall first, calls | old(next) == NextAfter(first, interval.value, calls)
        ensures next == NextAfter(first, interval.value, calls + [Admission(now, at)])
      {
        assert (calls + [Admission(now, at)])[..|calls|] == calls;
      }
    }
  }

  /** A clock that never runs backwards and sleeps that never end early. */
  ghost predicate Timed(first: int, interval: nat, calls: seq<Admission>) {
    && (forall k :: 0 <= k < |calls| ==> calls[k].called <= calls[k].admitted)
    && (forall k :: 0 <= k < |calls| - 1 ==> calls[k].admitted <= calls[k + 1].called)
    && (forall k :: 0 <= k < |calls| ==>
          Sleeps(NextAfter(first, interval, calls[..k]), calls[k].called) ==>
            calls[k].admitted >= NextAfter(first, interval, calls[..k]))
  }

  /** The slot of the k-th admission. */
  function Base(first: int, interval: nat, calls: seq<Admission>, k: nat): int
    requires k < |calls|
  {
    Slot(NextAfter(first, interval, calls[..k]), calls[k].called)
  }

  lemma BaseBounds(first: int, interval: nat, calls: seq<Admission>, k: nat)
    requires Timed(first, interval, calls) && k < |calls|
    ensures calls[k].called - RESYNC_SLACK <= Base(first, interval, calls, k) < calls[k].admitted + TIMER_RESOLUTION
    ensures k + 1 < |calls| ==> calls[k].admitted <= calls[k + 1].called
    ensures k + 1 < |calls| ==> Base(first, interval, calls, k + 1) >= Base(first, interval, calls, k) + interval
  {
    if k + 1 < |calls| {
      assert calls[..k + 1][..k] == calls[..k];
    }
  }

  function Spacing(slots: nat, interval: nat): nat { slots * interval }

  lemma OneMore(n: nat, interval: nat)
    ensures Spacing(n + 1, interval) == Spacing(n, interval) + interval
    ensures Spacing(0, interval) == 0
  {
  }

  lemma {:induction false} BasesApart(first: int, interval: nat, calls: seq<Admission>, i: nat, j: nat)
    requires Timed(first, interval, calls) && i <= j < |calls|
    ensures Base(first, interval, calls, j) >= Base(first, interval, calls, i) + Spacing(j - i, interval)
    decreases j - i
  {
    hide Timed, Base, Spacing;
    OneMore(0, interval);
    if i < j {
      BasesApart(first, interval, calls, i, j - 1);
      BaseBounds(first, interval, calls, j - 1);
      OneMore(j - 1 - i, interval);
    }
  }

  /** `n` admissions within a window of length `width`: all but two of them fit into the window widened
      by the resynchronisation slack and the timer resolution. */
  lemma WindowBound(first: int, interval: nat, calls: seq<Admission>, i: nat, n: nat, width: nat)
    requires Timed(first, interval, calls) && 2 <= n && i + n <= |calls|
    requires calls[i + n - 1].admitted - calls[i].admitted <= width
    ensures Spacing(n - 2, interval) < width + RESYNC_SLACK + TIMER_RESOLUTION
  {
    hide *;
    BaseBounds(first, interval, calls, i);
    BaseBounds(first, interval, calls, i + 1);
    BaseBounds(first, interval, calls, i + n - 1);
    BasesApart(first, interval, calls, i + 1, i + n - 1);
  }
}
