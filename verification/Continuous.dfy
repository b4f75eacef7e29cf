/** One round of the continuous mode: shuffled cases share a group up to a limit, an exclusive case runs
    alone, and a failure or a stop ends the starts. */
module Continuous {
  import opened S = Suite

  function Losers(records: seq<Record>): seq<Entry> {
    if records == [] then [] else
    var before := Losers(records[..|records| - 1]);
    if records[|records| - 1].Ran? && !records[|records| - 1].passed
    then before + [records[|records| - 1].entry] else before
  }

  /** An exclusive entry among the running ones is the only one. */
  ghost predicate Quiet(running: multiset<Entry>) {
    forall e :: e in running && e.er.Exclusive? ==> |running| == 1
  }

  /** A round under way. */
  ghost predicate Underway(cases: seq<Entry>, i: nat, running: seq<Entry>, failed: seq<Entry>,
                           trace: seq<Event>, limit: nat) {
    && Progress(cases, i, running, Ends(trace), trace) && Orderly(trace, limit, true) && Secluded(trace)
    && failed == Losers(Ends(trace)) && (failed != [] <==> Failed(trace)) && Quiet(multiset(running))
  }

  lemma SecludedStep(trace: seq<Event>, e: Event)
    requires Secluded(trace) && Quiet(Running(trace + [e]))
    ensures Secluded(trace + [e])
  {
    hide Running;
    var longer := trace + [e];
    forall k, x | 0 <= k <= |longer| && x in Running(longer[..k]) && x.er.Exclusive?
      ensures |Running(longer[..k])| == 1 {
      if k <= |trace| {
        assert longer[..k] == trace[..k];
      } else {
        assert longer[..k] == longer;
      }
    }
  }

  lemma QuietWithout(m: multiset<Entry>, e: Entry)
    requires Quiet(m) && e in m
    ensures Quiet(m - multiset{e})
  {
    var rest := m - multiset{e};
    assert |rest| == |m| - 1;
    assert forall x :: x in rest ==> x in m;
    assert |m| == 1 ==> rest == multiset{};
  }

  lemma QuietWith(running: seq<Entry>, e: Entry)
    requires (forall x :: x in running ==> !x.er.Exclusive?) && (e.er.Exclusive? ==> running == [])
    ensures Quiet(multiset(running + [e]))
  {
    assert multiset(running + [e]) == multiset(running) + multiset{e};
    forall x | x in multiset(running + [e]) && x.er.Exclusive? ensures |multiset(running + [e])| == 1 {
      assert x in running + [e];
    }
  }

  lemma {:induction false} LosersPush(records: seq<Record>, r: Record)
    ensures Losers(records + [r]) == if r.Ran? && !r.passed then Losers(records) + [r.entry] else Losers(records)
  {
    assert (records + [r])[..|records|] == records;
  }

  lemma StartKeeps(cases: seq<Entry>, i: nat, running: seq<Entry>, failed: seq<Entry>, trace: seq<Event>, limit: nat)
    requires Underway(cases, i, running, failed, trace, limit) && i < |cases| && |running| < limit && failed == []
    requires (forall x :: x in running ==> !x.er.Exclusive?) && (cases[i].er.Exclusive? ==> running == [])
    ensures Underway(cases, i + 1, running + [cases[i]], failed, trace + [Start(cases[i])], limit)
  {
    hide Running, Ends, Failed, Orderly, Secluded, Quiet, Losers, OnlyOf, EntriesOf;
    var e := Start(cases[i]);
    RunningSize(cases, i, running, Ends(trace), trace);
    StartProgress(cases, i, running, Ends(trace), trace);
    TraceStep(trace, e);
    OrderlyStep(trace, e, limit, true);
    QuietWith(running, cases[i]);
    assert multiset(running + [cases[i]]) == multiset(running) + multiset{cases[i]};
    SecludedStep(trace, e);
  }

  lemma EndKeeps(cases: seq<Entry>, i: nat, running: seq<Entry>, failed: seq<Entry>,
                 trace: seq<Event>, limit: nat, j: nat, passed: bool)
    requires Underway(cases, i, running, failed, trace, limit) && j < |running|
    ensures Underway(cases, i, running[..j] + running[j + 1..], if passed then failed else failed + [running[j]],
                     trace + [End(running[j], passed)], limit)
  {
    hide Running, Ends, Failed, Orderly, Secluded, Quiet, Losers, OnlyOf, EntriesOf;
    var e := End(running[j], passed);
    RunningSize(cases, i, running, Ends(trace), trace);
    EndProgress(cases, i, running, Ends(trace), trace, j, passed);
    TraceStep(trace, e);
    OrderlyStep(trace, e, limit, true);
    LosersPush(Ends(trace), Ran(running[j], passed));
    QuietWithout(multiset(running), running[j]);
    Removal(running, j);
    assert multiset(running[..j] + running[j + 1..]) == multiset(running) - multiset{running[j]};
    SecludedStep(trace, e);
  }

  lemma Opened(cases: seq<Entry>, limit: nat)
    ensures Underway(cases, 0, [], [], [], limit)
  {
    Begun(cases, limit, true);
  }

  lemma RoundDone(cases: seq<Entry>, i: nat, failed: seq<Entry>, trace: seq<Event>, limit: nat)
    requires Underway(cases, i, [], failed, trace, limit)
    ensures Orderly(trace, limit, true) && Secluded(trace) && Running(trace) == multiset{}
            && failed == Losers(Ends(trace))
    ensures EntriesOf(Ends(trace)) == multiset(cases[..i]) && i <= |cases| && (failed != [] <==> Failed(trace))
  {
  }

  class Round {
    var running: seq<Entry>
    var failed: seq<Entry>
    var trace: seq<Event>

    constructor ()
      ensures running == [] && failed == [] && trace == []
    {
      running, failed, trace := [], [], [];
    }

    /** Lets running cases complete, in any order, until at most `keep` are left. */
    method Settle(keep: nat, ghost cases: seq<Entry>, ghost i: nat, ghost limit: nat)
      requires Underway(cases, i, running, failed, trace, limit)
      modifies this
      ensures Underway(cases, i, running, failed, trace, limit) && |running| <= keep
      ensures old(failed) <= failed
      ensures forall e :: e in running ==> e in old(running)
    {
      hide Underway;
      while |running| > keep
        invariant Underway(cases, i, running, failed, trace, limit) && old(failed) <= failed
        invariant forall e :: e in running ==> e in old(running)
      {
        var j: nat :| j < |running|;
        var passed: bool := *;
        EndKeeps(cases, i, running, failed, trace, limit, j, passed);
        trace := trace + [End(running[j], passed)];
        if !passed {
          failed := failed + [running[j]];
        }
        running := running[..j] + running[j + 1..];
      }
    }

    /** A whole round. Nothing starts after a failure was seen, an exclusive case never overlaps another,
        everything started is drained, and a round without failures that was not stopped ran every case. */
    method Run(cases: seq<Entry>, limit: nat) returns (stopped: bool)
      requires limit > 0 && running == [] && failed == [] && trace == []
      modifies this
      ensures Orderly(trace, limit, true) && Secluded(trace) && Running(trace) == multiset{}
      ensures failed == Losers(Ends(trace)) && (failed != [] <==> Failed(trace))
      ensures failed == [] && !stopped ==> EntriesOf(Ends(trace)) == multiset(cases)
    {
      hide *;
      stopped := false;
      var i := 0;
      Opened(cases, limit);
      while i < |cases|
        invariant i <= |cases| && Underway(cases, i, running, failed, trace, limit)
        invariant !stopped && forall x :: x in running ==> !x.er.Exclusive?
      {
        var exclusive := cases[i].er.Exclusive?;
        Settle(if exclusive then 0 else limit - 1, cases, i, limit);
        var raised: bool := *;
        stopped := raised;
        if failed != [] || stopped {
          break;
        }
        StartKeeps(cases, i, running, failed, trace, limit);
        trace, running := trace + [Start(cases[i])], running + [cases[i]];
        i := i + 1;
        if exclusive {
          Settle(0, cases, i, limit);
        }
      }
      Settle(0, cases, i, limit);
      assert running == [];
      RoundDone(cases, i, failed, trace, limit);
      assert i == |cases| ==> cases[..i] == cases;
    }
  }
}
