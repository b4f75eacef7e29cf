/** The load driver: admits numbered requests while fewer than `concurrency` are in flight, records each
    completion, and drains what is in flight once admission ends. Stops, completions, timer ticks and
    failures come from the surroundings in any order. */
module Driver {
  import opened Common
  import opened Rate

  /** What the driver did, in order. */
  datatype Event = Admit(id: nat) | Finish(id: nat, ok: bool)

  /** When admission ends: after a number of iterations (and earlier if `bounded` by a deadline or a stop
      signal), or only on a deadline or stop signal. */
  datatype Completion = Iterations(total: nat, bounded: bool) | Until

  /** `Running`: the surroundings have not yet let the run end. */
  datatype Outcome = Running | Refused | Undrained | Stalled | Finished(delivered: nat, failed: nat)

  /** What the driver's select statement can wake up to. */
  datatype Signal = Stop | Done(index: nat, ok: bool) | Interval(late: bool) | Slot

  function InFlight(log: seq<Event>): set<nat> {
    if log == [] then {} else
    var before := InFlight(log[..|log| - 1]);
    match log[|log| - 1]
    case Admit(id) => before + {id}
    case Finish(id, _) => before - {id}
  }

  function Admitted(log: seq<Event>): seq<nat> {
    if log == [] then [] else
    var before := Admitted(log[..|log| - 1]);
    if log[|log| - 1].Admit? then before + [log[|log| - 1].id] else before
  }

  function Tally(log: seq<Event>, ok: bool): nat {
    if log == [] then 0 else
    Tally(log[..|log| - 1], ok) + (if log[|log| - 1].Finish? && log[|log| - 1].ok == ok then 1 else 0)
  }

  /** Every admitted request was delivered, failed or is in flight. */
  ghost predicate Balanced(log: seq<Event>) {
    |Admitted(log)| == Tally(log, true) + Tally(log, false) + |InFlight(log)|
  }

  /** At every moment at most `limit` requests are in flight, the admitted ones are accounted for, and
      only requests in flight can finish. */
  ghost predicate Disciplined(log: seq<Event>, limit: nat) {
    && (forall k :: 0 <= k <= |log| ==> |InFlight(log[..k])| <= limit && Balanced(log[..k]))
    && (forall k :: 0 <= k < |log| && log[k].Finish? ==> log[k].id in InFlight(log[..k]))
  }

  /** Requests are numbered 1, 2, 3, ... in the order of admission. */
  ghost predicate Consecutive(ids: seq<nat>) { forall i :: 0 <= i < |ids| ==> ids[i] == i + 1 }

  lemma DisciplinedStep(log: seq<Event>, e: Event, limit: nat)
    requires Disciplined(log, limit) && |InFlight(log + [e])| <= limit && Balanced(log + [e])
    requires e.Finish? ==> e.id in InFlight(log)
    ensures Disciplined(log + [e], limit)
  {
    var longer := log + [e];
    forall k | 0 <= k <= |longer| ensures |InFlight(longer[..k])| <= limit && Balanced(longer[..k]) {
      if k <= |log| {
        assert longer[..k] == log[..k];
      } else {
        assert longer[..k] == longer;
      }
    }
    forall k | 0 <= k < |longer| && longer[k].Finish? ensures longer[k].id in InFlight(longer[..k]) {
      assert longer[..k] == log[..k];
      assert log[..|log|] == log;
    }
  }

  lemma WithinLimit(log: seq<Event>, limit: nat)
    requires Disciplined(log, limit)
    ensures |InFlight(log)| <= limit
  {
    assert log[..|log|] == log;
  }

  predicate Exhausted(completion: Completion, admitted: nat, expired: bool) {
    match completion
    case Iterations(total, bounded) => admitted >= total || (bounded && expired)
    case Until => expired
  }

  /** `jobs` lists exactly the requests in flight, all of them among the first `admitted`. */
  ghost predicate Tracked(jobs: seq<nat>, flying: set<nat>, admitted: nat) {
    && Distinct(jobs) && |jobs| == |flying|
    && (forall i :: 0 <= i < |jobs| ==> jobs[i] in flying)
    && (forall id :: id in flying ==> id in jobs && id <= admitted)
  }

  lemma TrackLaunch(jobs: seq<nat>, flying: set<nat>, admitted: nat)
    requires Tracked(jobs, flying, admitted)
    ensures Tracked(jobs + [admitted + 1], flying + {admitted + 1}, admitted + 1)
    ensures |flying + {admitted + 1}| == |jobs| + 1
  {
    assert admitted + 1 !in flying;
  }

  lemma TrackRecord(jobs: seq<nat>, flying: set<nat>, admitted: nat, index: nat)
    requires Tracked(jobs, flying, admitted) && index < |jobs|
    ensures Tracked(jobs[..index] + jobs[index + 1..], flying - {jobs[index]}, admitted)
    ensures jobs[index] in flying && |flying - {jobs[index]}| == |flying| - 1 == |jobs| - 1
  {
    var rest, id := jobs[..index] + jobs[index + 1..], jobs[index];
    forall other | other in flying - {id} ensures other in rest {
      var i :| 0 <= i < |jobs| && jobs[i] == other;
      assert i < index ==> rest[i] == other;
      assert i > index ==> rest[i - 1] == other;
    }
  }

  lemma LogStep(log: seq<Event>, e: Event)
    ensures InFlight(log + [e]) == if e.Admit? then InFlight(log) + {e.id} else InFlight(log) - {e.id}
    ensures Admitted(log + [e]) == if e.Admit? then Admitted(log) + [e.id] else Admitted(log)
    ensures forall ok :: Tally(log + [e], ok) == Tally(log, ok) + if e.Finish? && e.ok == ok then 1 else 0
  {
    assert (log + [e])[..|log|] == log;
  }

  datatype Book = Book(admitted: nat, jobs: seq<nat>, delivered: nat, failed: nat, log: seq<Event>)

  /** The counters agree with the log, and the log is disciplined. */
  ghost predicate Accounts(b: Book, limit: nat) {
    && Disciplined(b.log, limit) && Consecutive(Admitted(b.log)) && |Admitted(b.log)| == b.admitted
    && Tracked(b.jobs, InFlight(b.log), b.admitted)
    && b.delivered == Tally(b.log, true) && b.failed == Tally(b.log, false)
    && b.admitted == b.delivered + b.failed + |b.jobs|
  }

  function Launched(b: Book): Book {
    Book(b.admitted + 1, b.jobs + [b.admitted + 1], b.delivered, b.failed, b.log + [Admit(b.admitted + 1)])
  }

  function Recorded(b: Book, index: nat, ok: bool): Book
    requires index < |b.jobs|
  {
    Book(b.admitted, b.jobs[..index] + b.jobs[index + 1..], if ok then b.delivered + 1 else b.delivered,
         if ok then b.failed else b.failed + 1, b.log + [Finish(b.jobs[index], ok)])
  }

  lemma LaunchAccounts(b: Book, limit: nat)
    requires Accounts(b, limit) && |b.jobs| < limit
    ensures Accounts(Launched(b), limit)
  {
    hide InFlight, Admitted, Tally, Disciplined, Tracked;
    var e := Admit(b.admitted + 1);
    TrackLaunch(b.jobs, InFlight(b.log), b.admitted);
    LogStep(b.log, e);
    DisciplinedStep(b.log, e, limit);
  }

  lemma RecordAccounts(b: Book, limit: nat, index: nat, ok: bool)
    requires Accounts(b, limit) && index < |b.jobs|
    ensures Accounts(Recorded(b, index, ok), limit)
  {
    hide InFlight, Admitted, Tally, Disciplined, Tracked;
    var e := Finish(b.jobs[index], ok);
    WithinLimit(b.log, limit);
    TrackRecord(b.jobs, InFlight(b.log), b.admitted, index);
    LogStep(b.log, e);
    DisciplinedStep(b.log, e, limit);
  }

  class Driver {
    var admitted: nat
    var jobs: seq<nat>
    var delivered: nat
    var failed: nat
    var log: seq<Event>

    ghost function View(): Book
      reads this
    {
      Book(admitted, jobs, delivered, failed, log)
    }

    constructor ()
      ensures View() == Book(0, [], 0, 0, [])
    {
      admitted, jobs, delivered, failed, log := 0, [], 0, 0, [];
    }

    method Launch()
      modifies this
      ensures View() == Launched(old(View()))
    {
      admitted := admitted + 1;
      jobs := jobs + [admitted];
      log := log + [Admit(admitted)];
    }

    method Record(index: nat, ok: bool)
      requires index < |jobs|
      modifies this
      ensures View() == Recorded(old(View()), index, ok)
    {
      log := log + [Finish(jobs[index], ok)];
      jobs := jobs[..index] + jobs[index + 1..];
      if ok {
        delivered := delivered + 1;
      } else {
        failed := failed + 1;
      }
    }

    /** Waits until the next admission slot, recording completions meanwhile. `steps` is how many more
        times the surroundings wake the driver. */
    method Await(completion: Completion, concurrency: nat, patience: nat)
      returns (woken: Woken, steps: nat)
      requires Accounts(View(), concurrency)
      modifies this
      ensures Accounts(View(), concurrency) && admitted == old(admitted) && steps <= patience
      ensures woken.Ready? ==> |jobs| < concurrency && steps < patience
      ensures woken.Halted? ==> completion.Until? || completion.bounded
    {
      steps := patience;
      while steps > 0
        invariant Accounts(View(), concurrency) && admitted == old(admitted) && steps <= patience
      {
        hide Accounts;
        steps := steps - 1;
        var signal: Signal := *;
        match signal {
          case Stop =>
            if completion.Until? || completion.bounded {
              return Halted, steps;
            }
          case Done(index, ok) =>
            if index < |jobs| {
              RecordAccounts(View(), concurrency, index, ok);
              Record(index, ok);
            }
          case Interval(late) =>
            if jobs != [] && late {
              return Late, steps;
            }
          case Slot =>
            if |jobs| < concurrency {
              return Ready, steps;
            }
        }
      }
      woken := Asleep;
    }

    /** Lets everything in flight finish, unless the surroundings' deadline comes first. */
    method Drain(concurrency: nat, patience: nat) returns (woken: Woken)
      requires Accounts(View(), concurrency)
      modifies this
      ensures Accounts(View(), concurrency) && admitted == old(admitted)
      ensures woken.Ready? <==> jobs == []
    {
      var steps := patience;
      while jobs != []
        invariant Accounts(View(), concurrency) && admitted == old(admitted)
        decreases steps
      {
        if steps == 0 {
          return Asleep;
        }
        steps := steps - 1;
        var signal: Signal := *;
        if signal.Done? && signal.index < |jobs| {
          RecordAccounts(View(), concurrency, signal.index, signal.ok);
          Record(signal.index, signal.ok);
        } else if signal.Stop? {
          return Late;
        }
      }
      woken := Ready;
    }

    /** A whole run. At every moment of it the in-flight requests are within the limit and every admitted
        request is delivered, failed or in flight; the requests are numbered from 1 without gaps; a run
        that finishes has nothing in flight, and has made every iteration unless it may be stopped. */
    method Execute(completion: Completion, rate: Pacing, concurrency: nat, patience: nat) returns (r: Outcome)
      requires View() == Book(0, [], 0, 0, [])
      modifies this
      ensures Accounts(View(), concurrency)
      ensures r.Refused? <==> concurrency == 0 || rate == PerSecond(0)
      ensures r.Refused? ==> log == []
      ensures r.Finished? ==> InFlight(log) == {} && r == Finished(Tally(log, true), Tally(log, false))
      ensures r.Finished? ==> r.delivered + r.failed == |Admitted(log)|
      ensures completion.Iterations? ==> |Admitted(log)| <= completion.total
      ensures r.Finished? && completion.Iterations? && !completion.bounded ==> |Admitted(log)| == completion.total
    {
      if concurrency == 0 || Rate.Interval(rate).None? {
        return Refused;
      }
      var steps, stalled := patience, false;
      while true
        invariant Accounts(View(), concurrency) && !stalled
        invariant completion.Iterations? ==> admitted <= completion.total
        decreases steps
      {
        hide Accounts;
        var expired: bool := *;
        if Exhausted(completion, admitted, expired) {
          break;
        }
        var woken: Woken;
        woken, steps := Await(completion, concurrency, steps);
        if woken.Asleep? {
          return Running;
        }
        if !woken.Ready? {
          stalled := woken.Late?;
          break;
        }
        expired := *;
        if Exhausted(completion, admitted, expired) {
          break;
        }
        LaunchAccounts(View(), concurrency);
        Launch();
      }
      var drained := Drain(concurrency, steps);
      if !drained.Ready? {
        return if drained.Late? then Undrained else Running;
      }
      if stalled {
        return Stalled;
      }
      return Finished(delivered, failed);
    }
  }

  /** Why a wait ended. */
  datatype Woken = Ready | Halted | Late | Asleep
}
