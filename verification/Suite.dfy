/** Scheduling a suite: entries of one lane run concurrently up to a limit, a failure in a shared group
    stops further starts, exclusive entries run alone, and every entry ends up with one record. Which
    running entry completes next, whether it passes and when the run is interrupted are arbitrary. */
module Suite {
  import opened Common

  datatype Er = Fresh | Shared(group: string) | Exclusive(group: string)

  datatype Entry = Entry(name: string, order: nat, er: Er)

  datatype Record = Ran(entry: Entry, passed: bool)
                  | NotRun(entry: Entry, interrupted: bool) | CleanupFailed(lane: string)

  datatype Event = Start(entry: Entry) | End(entry: Entry, passed: bool)

  predicate Passed(r: Record) { r.Ran? && r.passed }

  // ---- what a schedule did ----------------------------------------------------------------------------

  function Running(trace: seq<Event>): multiset<Entry> {
    if trace == [] then multiset{} else
    var before := Running(trace[..|trace| - 1]);
    match trace[|trace| - 1]
    case Start(e) => before + multiset{e}
    case End(e, _) => before - multiset{e}
  }

  /** The records of completed entries, in completion order. */
  function Ends(trace: seq<Event>): seq<Record> {
    if trace == [] then [] else
    var before := Ends(trace[..|trace| - 1]);
    match trace[|trace| - 1]
    case Start(_) => before
    case End(e, passed) => before + [Ran(e, passed)]
  }

  predicate Failed(trace: seq<Event>) { exists k :: 0 <= k < |trace| && trace[k].End? && !trace[k].passed }

  /** A permissible next step: a start within the limit and, where failures stop the schedule, before any
      failure; only running entries end. */
  predicate Permitted(trace: seq<Event>, e: Event, limit: nat, stopping: bool) {
    match e
    case Start(_) => |Running(trace)| < limit && (stopping ==> !Failed(trace))
    case End(entry, _) => entry in Running(trace)
  }

  ghost predicate Orderly(trace: seq<Event>, limit: nat, stopping: bool) {
    forall k :: 0 <= k < |trace| ==> Permitted(trace[..k], trace[k], limit, stopping)
  }

  /** Whenever an exclusive entry runs, nothing else does. */
  ghost predicate Secluded(trace: seq<Event>) {
    forall k, e :: 0 <= k <= |trace| && e in Running(trace[..k]) && e.er.Exclusive? ==> |Running(trace[..k])| == 1
  }

  ghost predicate OnlyOf(trace: seq<Event>, entries: seq<Entry>) {
    forall k :: 0 <= k < |trace| ==> trace[k].entry in entries
  }

  function EntriesOf(records: seq<Record>): multiset<Entry> {
    if records == [] then multiset{} else
    EntriesOf(records[..|records| - 1])
      + (if records[|records| - 1].CleanupFailed? then multiset{} else multiset{records[|records| - 1].entry})
  }

  function Skipped(entries: seq<Entry>, interrupted: bool): seq<Record> {
    if entries == [] then [] else
    Skipped(entries[..|entries| - 1], interrupted) + [NotRun(entries[|entries| - 1], interrupted)]
  }

  lemma FailedStep(trace: seq<Event>, e: Event)
    ensures Failed(trace + [e]) <==> Failed(trace) || (e.End? && !e.passed)
  {
    var longer := trace + [e];
    if Failed(trace) {
      var k :| 0 <= k < |trace| && trace[k].End? && !trace[k].passed;
      assert longer[k] == trace[k];
    }
    assert longer[|trace|] == e;
  }

  lemma TraceStep(trace: seq<Event>, e: Event)
    ensures Running(trace + [e])
         == if e.Start? then Running(trace) + multiset{e.entry} else Running(trace) - multiset{e.entry}
    ensures Ends(trace + [e]) == if e.Start? then Ends(trace) else Ends(trace) + [Ran(e.entry, e.passed)]
    ensures Failed(trace + [e]) <==> Failed(trace) || (e.End? && !e.passed)
  {
    hide Failed;
    FailedStep(trace, e);
    assert (trace + [e])[..|trace|] == trace;
  }

  lemma OrderlyStep(trace: seq<Event>, e: Event, limit: nat, stopping: bool)
    requires Orderly(trace, limit, stopping) && Permitted(trace, e, limit, stopping)
    ensures Orderly(trace + [e], limit, stopping)
  {
    var longer := trace + [e];
    forall k | 0 <= k < |longer| ensures Permitted(longer[..k], longer[k], limit, stopping) {
      assert longer[..k] == trace[..k];
      assert trace[..|trace|] == trace;
    }
  }

  lemma {:induction false} EntriesConcat(a: seq<Record>, b: seq<Record>)
    ensures EntriesOf(a + b) == EntriesOf(a) + EntriesOf(b)
  {
    if b == [] {
      assert a + b == a;
    } else {
      assert (a + b)[..|a + b| - 1] == a + b[..|b| - 1];
      EntriesConcat(a, b[..|b| - 1]);
    }
  }

  lemma {:induction false} SkippedEntries(entries: seq<Entry>, interrupted: bool)
    ensures EntriesOf(Skipped(entries, interrupted)) == multiset(entries)
         && |Skipped(entries, interrupted)| == |entries|
    ensures forall r :: r in Skipped(entries, interrupted) ==> r.NotRun? && r.interrupted == interrupted
  {
    if entries != [] {
      var rest := entries[..|entries| - 1];
      SkippedEntries(rest, interrupted);
      assert entries == rest + [entries[|entries| - 1]];
      var all := Skipped(entries, interrupted);
      assert all[..|all| - 1] == Skipped(rest, interrupted);
    }
  }

  lemma WithinStep(trace: seq<Event>, e: Event, limit: nat, stopping: bool)
    requires Permitted(trace, e, limit, stopping) && |Running(trace)| <= limit
    ensures |Running(trace + [e])| <= limit
  {
    TraceStep(trace, e);
  }

  lemma NothingRuns()
    ensures Running([]) == multiset{}
  {
  }

  /** At every moment of an orderly schedule the limit is kept. */
  lemma {:induction false} OrderlyWithin(trace: seq<Event>, limit: nat, stopping: bool, k: nat)
    requires Orderly(trace, limit, stopping) && k <= |trace|
    ensures |Running(trace[..k])| <= limit
  {
    hide Running, Permitted;
    if k == 0 {
      NothingRuns();
      assert trace[..0] == [];
    } else {
      OrderlyWithin(trace, limit, stopping, k - 1);
      var past, e := trace[..k - 1], trace[k - 1];
      assert trace[..k] == past + [e];
      WithinStep(past, e, limit, stopping);
    }
  }

  /** What one schedule of `entries` left behind: everything started has ended, the completed entries are
      recorded as they ended and the rest as not run, for the reason that applies. */
  ghost predicate Settled(entries: seq<Entry>, trace: seq<Event>, records: seq<Record>, stopping: bool, stopped: bool) {
    && Running(trace) == multiset{} && OnlyOf(trace, entries)
    && Ends(trace) <= records && EntriesOf(records) == multiset(entries)
    && (forall i :: |Ends(trace)| <= i < |records| ==> records[i].NotRun? && records[i].interrupted == stopped)
    && (|records| > |Ends(trace)| ==> stopped || (stopping && Failed(trace)))
  }

  /** A schedule under way: the first `i` entries were started, `running` of them have not ended. */
  ghost predicate Progress(entries: seq<Entry>, i: nat, running: seq<Entry>, records: seq<Record>, trace: seq<Event>) {
    && i <= |entries| && |records| + |running| == i && records == Ends(trace)
    && Running(trace) == multiset(running)
    && EntriesOf(records) + multiset(running) == multiset(entries[..i])
    && OnlyOf(trace, entries) && (forall j :: 0 <= j < |running| ==> running[j] in entries)
  }

  lemma StartProgress(entries: seq<Entry>, i: nat, running: seq<Entry>, records: seq<Record>, trace: seq<Event>)
    requires Progress(entries, i, running, records, trace) && i < |entries|
    ensures Progress(entries, i + 1, running + [entries[i]], records, trace + [Start(entries[i])])
  {
    hide Running, Ends, EntriesOf, Failed;
    TraceStep(trace, Start(entries[i]));
    assert entries[..i + 1] == entries[..i] + [entries[i]];
    assert multiset(running + [entries[i]]) == multiset(running) + multiset{entries[i]};
  }

  lemma EndProgress(entries: seq<Entry>, i: nat, running: seq<Entry>, records: seq<Record>,
                    trace: seq<Event>, j: nat, passed: bool)
    requires Progress(entries, i, running, records, trace) && j < |running|
    ensures Progress(entries, i, running[..j] + running[j + 1..], records + [Ran(running[j], passed)],
                     trace + [End(running[j], passed)])
  {
    hide Running, Ends, EntriesOf, Failed, OnlyOf;
    var e := running[j];
    TraceStep(trace, End(e, passed));
    OnlyStep(trace, End(e, passed), entries);
    EntriesConcat(records, [Ran(e, passed)]);
    OneRecord(Ran(e, passed));
    Removal(running, j);
  }

  lemma OnlyStep(trace: seq<Event>, e: Event, entries: seq<Entry>)
    requires OnlyOf(trace, entries) && e.entry in entries
    ensures OnlyOf(trace + [e], entries)
  {
  }

  lemma OneRecord(r: Record)
    requires !r.CleanupFailed?
    ensures EntriesOf([r]) == multiset{r.entry}
  {
    assert [r][..0] == [];
  }

  lemma Removal(running: seq<Entry>, j: nat)
    requires j < |running|
    ensures multiset(running) == multiset(running[..j] + running[j + 1..]) + multiset{running[j]}
  {
    assert running == running[..j] + [running[j]] + running[j + 1..];
  }

  lemma Begun(entries: seq<Entry>, limit: nat, stopping: bool)
    ensures Progress(entries, 0, [], [], []) && Orderly([], limit, stopping) && !Failed([])
  {
  }

  lemma Sizes(entries: seq<Entry>, i: nat, running: seq<Entry>, records: seq<Record>, trace: seq<Event>)
    requires Progress(entries, i, running, records, trace)
    ensures |records| + |running| == i <= |entries|
  {
  }

  lemma RunningSize(entries: seq<Entry>, i: nat, running: seq<Entry>, records: seq<Record>, trace: seq<Event>)
    requires Progress(entries, i, running, records, trace)
    ensures |Running(trace)| == |running|
    ensures forall j :: 0 <= j < |running| ==> running[j] in Running(trace)
  {
    forall j | 0 <= j < |running| ensures running[j] in Running(trace) {
      assert running[j] in multiset(running);
    }
  }

  lemma ProgressSettled(entries: seq<Entry>, i: nat, records: seq<Record>, trace: seq<Event>,
                        stopping: bool, stopped: bool)
    requires Progress(entries, i, [], records, trace)
    requires i < |entries| ==> stopped || (stopping && Failed(trace))
    ensures Settled(entries, trace, records + Skipped(entries[i..], stopped), stopping, stopped)
  {
    hide Running, Ends, EntriesOf, Failed, Skipped;
    var rest := Skipped(entries[i..], stopped);
    SkippedEntries(entries[i..], stopped);
    EntriesConcat(records, rest);
    assert multiset(entries) == multiset(entries[..i]) + multiset(entries[i..]) by {
      assert entries == entries[..i] + entries[i..];
    }
    forall k | |records| <= k < |records + rest|
      ensures (records + rest)[k].NotRun? && (records + rest)[k].interrupted == stopped {
      assert (records + rest)[k] in rest;
    }
  }

  // ---- schedules one after another --------------------------------------------------------------------

  /** After a drained schedule, another one runs as if it were first. */
  ghost predicate Joins(a: seq<Event>, b: seq<Event>) {
    && Running(a + b) == Running(b) && Ends(a + b) == Ends(a) + Ends(b)
    && (Failed(a + b) <==> Failed(a) || Failed(b))
  }

  lemma JoinStep(a: seq<Event>, b: seq<Event>, e: Event)
    requires Joins(a, b)
    ensures Joins(a, b + [e])
  {
    hide Running, Ends, Failed;
    TraceStep(a + b, e);
    TraceStep(b, e);
    assert a + b + [e] == a + (b + [e]);
  }

  lemma {:induction false} RunningJoin(a: seq<Event>, b: seq<Event>)
    requires Running(a) == multiset{}
    ensures Joins(a, b)
    decreases |b|
  {
    if b == [] {
      assert a + b == a;
    } else {
      RunningJoin(a, b[..|b| - 1]);
      JoinStep(a, b[..|b| - 1], b[|b| - 1]);
      assert b[..|b| - 1] + [b[|b| - 1]] == b;
    }
  }

  /** A schedule that drained without failure, followed by another. */
  lemma OrderlyJoin(a: seq<Event>, b: seq<Event>, limit: nat, smaller: nat, stopping: bool)
    requires Orderly(a, limit, stopping) && Orderly(b, smaller, stopping) && smaller <= limit
    requires Running(a) == multiset{} && (stopping ==> !Failed(a))
    ensures Orderly(a + b, limit, stopping)
  {
    forall k | 0 <= k < |a + b| ensures Permitted((a + b)[..k], (a + b)[k], limit, stopping) {
      if k < |a| {
        assert (a + b)[..k] == a[..k];
      } else {
        assert (a + b)[..k] == a + b[..k - |a|];
        RunningJoin(a, b[..k - |a|]);
        assert Permitted(b[..k - |a|], b[k - |a|], smaller, stopping);
      }
    }
  }

  lemma {:induction false} RunningFrom(trace: seq<Event>, entries: seq<Entry>)
    requires OnlyOf(trace, entries)
    ensures forall e :: e in Running(trace) ==> e in entries
  {
    if trace != [] {
      RunningFrom(trace[..|trace| - 1], entries);
      assert trace[|trace| - 1].entry in entries;
    }
  }

  /** Schedules without exclusive entries seclude them trivially; so do schedules one at a time. */
  lemma SecludedAt(trace: seq<Event>, limit: nat, stopping: bool, k: nat, e: Entry)
    requires Orderly(trace, limit, stopping) && k <= |trace| && e in Running(trace[..k])
    requires limit <= 1
    ensures |Running(trace[..k])| == 1
  {
    OrderlyWithin(trace, limit, stopping, k);
    var m := Running(trace[..k]);
    assert m == (m - multiset{e}) + multiset{e};
  }

  lemma SecludedJoinAt(a: seq<Event>, entries: seq<Entry>, b: seq<Event>, stopping: bool, k: nat, e: Entry)
    requires OnlyOf(a, entries) && (forall e :: e in entries ==> !e.er.Exclusive?)
    requires Running(a) == multiset{} && Orderly(b, 1, stopping)
    requires k <= |a + b| && e in Running((a + b)[..k]) && e.er.Exclusive?
    ensures |Running((a + b)[..k])| == 1
  {
    hide Running, Orderly, Ends, Failed;
    if k <= |a| {
      assert (a + b)[..k] == a[..k];
      RunningFrom(a[..k], entries);
    } else {
      assert (a + b)[..k] == a + b[..k - |a|];
      RunningJoin(a, b[..k - |a|]);
      SecludedAt(b, 1, stopping, k - |a|, e);
    }
  }

  lemma SecludedJoin(a: seq<Event>, entries: seq<Entry>, b: seq<Event>, stopping: bool)
    requires OnlyOf(a, entries) && (forall e :: e in entries ==> !e.er.Exclusive?)
    requires Running(a) == multiset{} && Orderly(b, 1, stopping)
    ensures Secluded(a + b)
  {
    hide Running, Orderly, OnlyOf;
    forall k, e | 0 <= k <= |a + b| && e in Running((a + b)[..k]) && e.er.Exclusive?
      ensures |Running((a + b)[..k])| == 1 {
      SecludedJoinAt(a, entries, b, stopping, k, e);
    }
  }

  // ---- lanes ------------------------------------------------------------------------------------------

  /** Entries that share an ephemeral rollup group, or all that bring their own. */
  datatype Lane = Lane(name: string, grouped: bool, entries: seq<Entry>)

  function LaneName(e: Entry): string {
    match e.er
    case Fresh => "fresh"
    case Shared(group) => group
    case Exclusive(group) => group
  }

  function Named(entries: seq<Entry>, name: string): seq<Entry> {
    if entries == [] then [] else
    var before := Named(entries[..|entries| - 1], name);
    if LaneName(entries[|entries| - 1]) == name then before + [entries[|entries| - 1]] else before
  }

  function Gathered(lanes: seq<Lane>): multiset<Entry> {
    if lanes == [] then multiset{} else Gathered(lanes[..|lanes| - 1]) + multiset(lanes[|lanes| - 1].entries)
  }

  lemma {:induction false} GatheredUpdate(lanes: seq<Lane>, i: nat, e: Entry)
    requires i < |lanes|
    ensures Gathered(lanes[i := lanes[i].(entries := lanes[i].entries + [e])]) == Gathered(lanes) + multiset{e}
  {
    var changed := lanes[i := lanes[i].(entries := lanes[i].entries + [e])];
    var last := |lanes| - 1;
    if i == last {
      assert changed[..last] == lanes[..last];
    } else {
      GatheredUpdate(lanes[..last], i, e);
      assert changed[..last] == lanes[..last][i := lanes[i].(entries := lanes[i].entries + [e])];
    }
  }

  /** Each entry goes to the lane of its name, in order, and there is one lane per name. */
  ghost predicate Sorted(entries: seq<Entry>, lanes: seq<Lane>) {
    && (forall i, j :: 0 <= i < j < |lanes| ==> lanes[i].name != lanes[j].name)
    && (forall i :: 0 <= i < |lanes| ==> lanes[i].entries != [] && lanes[i].entries == Named(entries, lanes[i].name))
    && Gathered(lanes) == multiset(entries)
  }

  lemma NamedStep(entries: seq<Entry>, e: Entry, name: string)
    ensures Named(entries + [e], name)
         == if LaneName(e) == name then Named(entries, name) + [e] else Named(entries, name)
  {
    assert (entries + [e])[..|entries|] == entries;
  }

  ghost predicate Complete(entries: seq<Entry>, lanes: seq<Lane>) {
    forall name :: (forall i :: 0 <= i < |lanes| ==> lanes[i].name != name) ==> Named(entries, name) == []
  }

  ghost predicate Marked(lanes: seq<Lane>) {
    forall i :: 0 <= i < |lanes| ==> lanes[i].entries != [] && lanes[i].grouped == !lanes[i].entries[0].er.Fresh?
  }

  lemma LaneGrows(entries: seq<Entry>, e: Entry, lanes: seq<Lane>, at: nat)
    requires Sorted(entries, lanes) && at < |lanes| && lanes[at].name == LaneName(e)
    ensures Sorted(entries + [e], lanes[at := lanes[at].(entries := lanes[at].entries + [e])])
  {
    hide Named, Gathered;
    GatheredUpdate(lanes, at, e);
    assert multiset(entries + [e]) == multiset(entries) + multiset{e};
    forall i | 0 <= i < |lanes|
      ensures Named(entries + [e], lanes[i].name) == if i == at then lanes[i].entries + [e] else lanes[i].entries
    {
      NamedStep(entries, e, lanes[i].name);
    }
  }

  lemma LaneOpens(entries: seq<Entry>, e: Entry, lanes: seq<Lane>)
    requires Sorted(entries, lanes) && Complete(entries, lanes)
             && forall i :: 0 <= i < |lanes| ==> lanes[i].name != LaneName(e)
    ensures Sorted(entries + [e], lanes + [Lane(LaneName(e), !e.er.Fresh?, [e])])
  {
    GatheredPush(lanes, Lane(LaneName(e), !e.er.Fresh?, [e]));
    forall name { NamedStep(entries, e, name); }
    hide Named, Gathered;
  }

  lemma LaneCompletes(entries: seq<Entry>, e: Entry, lanes: seq<Lane>, more: seq<Lane>)
    requires Complete(entries, lanes) && |lanes| <= |more|
             && (forall i :: 0 <= i < |lanes| ==> lanes[i].name == more[i].name)
    requires exists i :: 0 <= i < |more| && more[i].name == LaneName(e)
    ensures Complete(entries + [e], more)
  {
    forall name | forall i :: 0 <= i < |more| ==> more[i].name != name ensures Named(entries + [e], name) == [] {
      NamedStep(entries, e, name);
    }
  }

  /** Puts an entry into the lane of its name, opening it if need be. */
  method Place(lanes: seq<Lane>, e: Entry, ghost entries: seq<Entry>) returns (more: seq<Lane>)
    requires Sorted(entries, lanes) && Complete(entries, lanes) && Marked(lanes)
    ensures Sorted(entries + [e], more) && Complete(entries + [e], more) && Marked(more)
  {
    hide Sorted, Complete;
    var at := FindLane(lanes, LaneName(e));
    if at.Some? {
      LaneGrows(entries, e, lanes, at.value);
      more := lanes[at.value := lanes[at.value].(entries := lanes[at.value].entries + [e])];
      assert more[at.value].name == LaneName(e);
    } else {
      LaneOpens(entries, e, lanes);
      more := lanes + [Lane(LaneName(e), !e.er.Fresh?, [e])];
      assert more[|lanes|].name == LaneName(e);
    }
    LaneCompletes(entries, e, lanes, more);
  }

  predicate Rising(entries: seq<Entry>) {
    forall i, j :: 0 <= i <= j < |entries| ==> entries[i].order <= entries[j].order
  }

  /** Behind every entry of the same or a lower order. */
  function Slotted(entries: seq<Entry>, e: Entry): (r: seq<Entry>)
    requires Rising(entries)
    ensures Rising(r) && |r| == |entries| + 1 && multiset(r) == multiset(entries) + multiset{e}
    ensures r[|r| - 1] == e || (entries != [] && r[|r| - 1] == entries[|entries| - 1])
  {
    if entries == [] || entries[|entries| - 1].order <= e.order then entries + [e]
    else
      assert entries == entries[..|entries| - 1] + [entries[|entries| - 1]];
      Slotted(entries[..|entries| - 1], e) + [entries[|entries| - 1]]
  }

  /** The stable sort by declared order. */
  function ByOrder(entries: seq<Entry>): (r: seq<Entry>)
    ensures Rising(r) && |r| == |entries| && multiset(r) == multiset(entries)
  {
    if entries == [] then [] else
    assert entries == entries[..|entries| - 1] + [entries[|entries| - 1]];
    Slotted(ByOrder(entries[..|entries| - 1]), entries[|entries| - 1])
  }

  function OfOrder(entries: seq<Entry>, order: nat): seq<Entry> {
    if entries == [] then [] else
    var before := OfOrder(entries[..|entries| - 1], order);
    if entries[|entries| - 1].order == order then before + [entries[|entries| - 1]] else before
  }

  lemma {:induction false} SlottedStable(entries: seq<Entry>, e: Entry, order: nat)
    requires Rising(entries)
    ensures OfOrder(Slotted(entries, e), order)
         == if e.order == order then OfOrder(entries, order) + [e] else OfOrder(entries, order)
  {
    var r := Slotted(entries, e);
    if entries == [] || entries[|entries| - 1].order <= e.order {
      assert r[..|r| - 1] == entries;
    } else {
      var rest := entries[..|entries| - 1];
      SlottedStable(rest, e, order);
      assert r[..|r| - 1] == Slotted(rest, e);
    }
  }

  /** Entries of one declared order keep their positions among themselves. */
  lemma {:induction false} SortStable(entries: seq<Entry>, order: nat)
    ensures OfOrder(ByOrder(entries), order) == OfOrder(entries, order)
  {
    if entries != [] {
      SortStable(entries[..|entries| - 1], order);
      SlottedStable(ByOrder(entries[..|entries| - 1]), entries[|entries| - 1], order);
    }
  }

  /** Lanes of the entries in declared order. */
  method Lanes(entries: seq<Entry>) returns (lanes: seq<Lane>)
    ensures Sorted(ByOrder(entries), lanes) && Complete(ByOrder(entries), lanes) && Marked(lanes)
  {
    lanes := Deal(ByOrder(entries));
  }

  /** One lane per name, opened in the order of its first entry. */
  method Deal(entries: seq<Entry>) returns (lanes: seq<Lane>)
    ensures Sorted(entries, lanes) && Complete(entries, lanes) && Marked(lanes)
  {
    lanes := [];
    NoLanes();
    hide Sorted, Complete, Marked;
    for k := 0 to |entries|
      invariant Sorted(entries[..k], lanes) && Complete(entries[..k], lanes) && Marked(lanes)
    {
      assert entries[..k + 1] == entries[..k] + [entries[k]];
      lanes := Place(lanes, entries[k], entries[..k]);
    }
    assert entries[..|entries|] == entries;
  }

  lemma NoLanes()
    ensures Sorted([], []) && Complete([], []) && Marked([])
  {
  }

  lemma GatheredPush(lanes: seq<Lane>, lane: Lane)
    ensures Gathered(lanes + [lane]) == Gathered(lanes) + multiset(lane.entries)
  {
    assert (lanes + [lane])[..|lanes|] == lanes;
  }

  method FindLane(lanes: seq<Lane>, name: string) returns (at: Option<nat>)
    ensures at.Some? ==> at.value < |lanes| && lanes[at.value].name == name
    ensures at.None? ==> forall i :: 0 <= i < |lanes| ==> lanes[i].name != name
  {
    for i := 0 to |lanes|
      invariant forall j :: 0 <= j < i ==> lanes[j].name != name
    {
      if lanes[i].name == name {
        return Some(i);
      }
    }
    at := None;
  }

  // ---- running a lane ---------------------------------------------------------------------------------

  /** The records of entries that ran. */
  function Runs(records: seq<Record>): seq<Record> {
    if records == [] then [] else
    var before := Runs(records[..|records| - 1]);
    if records[|records| - 1].Ran? then before + [records[|records| - 1]] else before
  }

  lemma {:induction false} RunsConcat(a: seq<Record>, b: seq<Record>)
    ensures Runs(a + b) == Runs(a) + Runs(b)
  {
    if b == [] {
      assert a + b == a;
    } else {
      assert (a + b)[..|a + b| - 1] == a + b[..|b| - 1];
      RunsConcat(a, b[..|b| - 1]);
    }
  }

  lemma {:induction false} RunsNone(records: seq<Record>)
    requires forall i :: 0 <= i < |records| ==> !records[i].Ran?
    ensures Runs(records) == []
  {
    if records != [] {
      RunsNone(records[..|records| - 1]);
    }
  }

  lemma {:induction false} RunsOfEnds(trace: seq<Event>)
    ensures Runs(Ends(trace)) == Ends(trace)
    ensures Failed(trace) ==> exists i :: 0 <= i < |Ends(trace)| && !Passed(Ends(trace)[i])
  {
    if trace != [] {
      var past, e := trace[..|trace| - 1], trace[|trace| - 1];
      RunsOfEnds(past);
      assert past + [e] == trace;
      TraceStep(past, e);
      var ends := Ends(trace);
      if e.End? {
        assert ends[..|ends| - 1] == Ends(past);
        if !e.passed {
          assert !Passed(ends[|ends| - 1]);
        } else if Failed(trace) {
          var i :| 0 <= i < |Ends(past)| && !Passed(Ends(past)[i]);
          assert ends[i] == Ends(past)[i];
        }
      }
    }
  }

  lemma SettledRuns(entries: seq<Entry>, trace: seq<Event>, records: seq<Record>, stopping: bool, stopped: bool)
    requires Settled(entries, trace, records, stopping, stopped)
    ensures Runs(records) == Ends(trace)
    ensures (forall i :: 0 <= i < |records| ==> Passed(records[i])) ==> !Failed(trace)
  {
    hide Running, Ends, Failed, EntriesOf, OnlyOf, Runs;
    var ends := Ends(trace);
    assert records == ends + records[|ends|..];
    RunsConcat(ends, records[|ends|..]);
    RunsNone(records[|ends|..]);
    RunsOfEnds(trace);
  }

  function Pick(entries: seq<Entry>, shared: bool): seq<Entry> {
    if entries == [] then [] else
    var before := Pick(entries[..|entries| - 1], shared);
    if entries[|entries| - 1].er.Shared? == shared then before + [entries[|entries| - 1]] else before
  }

  lemma {:induction false} PickParts(entries: seq<Entry>)
    ensures multiset(Pick(entries, true)) + multiset(Pick(entries, false)) == multiset(entries)
    ensures |Pick(entries, true)| + |Pick(entries, false)| == |entries|
    ensures forall e :: e in Pick(entries, true) ==> e.er.Shared?
  {
    if entries != [] {
      PickParts(entries[..|entries| - 1]);
      assert entries == entries[..|entries| - 1] + [entries[|entries| - 1]];
    }
  }

  /** What running a lane guarantees. */
  ghost predicate LaneDone(lane: Lane, limit: nat, trace: seq<Event>, records: seq<Record>) {
    && Orderly(trace, limit, lane.grouped) && Running(trace) == multiset{}
    && (lane.grouped ==> Secluded(trace))
    && EntriesOf(records) == multiset(lane.entries) && Runs(records) == Ends(trace)
  }

  /** When an entry may be left unrun: the run was interrupted, or an entry of the same group failed; only an
      interrupted run says so, and only a group has something to clean up. */
  ghost predicate Excused(lane: Lane, trace: seq<Event>, records: seq<Record>, stopped: bool) {
    forall i :: 0 <= i < |records| ==>
      && (records[i].NotRun? ==> stopped || (lane.grouped && Failed(trace)))
      && (records[i].NotRun? && records[i].interrupted ==> stopped)
      && (records[i].CleanupFailed? ==> lane.grouped)
  }

  /** Shared entries first; nothing else of the group starts unless every one of them has ended and passed. */
  ghost predicate SharedFirst(lane: Lane, trace: seq<Event>) {
    exists cut :: 0 <= cut <= |trace| && FirstPhase(lane, trace, cut)
  }

  ghost predicate FirstPhase(lane: Lane, trace: seq<Event>, cut: nat)
    requires cut <= |trace|
  {
    && OnlyOf(trace[..cut], Pick(lane.entries, true)) && OnlyOf(trace[cut..], Pick(lane.entries, false))
    && (cut < |trace| ==> !Failed(trace[..cut])
                          && EntriesOf(Ends(trace[..cut])) == multiset(Pick(lane.entries, true)))
  }

  lemma {:induction false} EndsRan(trace: seq<Event>)
    ensures forall i :: 0 <= i < |Ends(trace)| ==> Ends(trace)[i].Ran?
  {
    if trace != [] {
      EndsRan(trace[..|trace| - 1]);
    }
  }

  lemma SettledExcused(lane: Lane, entries: seq<Entry>, trace: seq<Event>, records: seq<Record>, stopped: bool)
    requires Settled(entries, trace, records, lane.grouped, stopped)
    ensures Excused(lane, trace, records, stopped)
  {
    EndsRan(trace);
    assert forall i :: 0 <= i < |Ends(trace)| ==> records[i] == Ends(trace)[i];
  }

  lemma SharedExcused(lane: Lane, trace: seq<Event>, records: seq<Record>, stopped: bool)
    requires lane.grouped && Settled(Pick(lane.entries, true), trace, records, true, stopped)
    requires exists i :: 0 <= i < |records| && !Passed(records[i])
    ensures Excused(lane, trace, records + Skipped(Pick(lane.entries, false), false), stopped)
    ensures SharedFirst(lane, trace)
  {
    hide Pick, OnlyOf, Running;
    SettledExcused(lane, Pick(lane.entries, true), trace, records, stopped);
    var rest := Skipped(Pick(lane.entries, false), false);
    SkippedEntries(Pick(lane.entries, false), false);
    assert forall i :: 0 <= i < |rest| ==> rest[i] in rest;
    var k :| 0 <= k < |records| && !Passed(records[k]);
    if k < |Ends(trace)| {
      assert Ends(trace)[k] == records[k];
      EndsFail(trace, k);
    }
    assert trace[..|trace|] == trace && trace[|trace|..] == [];
    assert FirstPhase(lane, trace, |trace|) by {
      NothingOnly(Pick(lane.entries, false));
    }
  }

  lemma NothingOnly(entries: seq<Entry>)
    ensures OnlyOf([], entries)
  {
  }

  lemma {:induction false} EndsFail(trace: seq<Event>, k: nat)
    requires k < |Ends(trace)| && !Passed(Ends(trace)[k])
    ensures Failed(trace)
  {
    var last := |trace| - 1;
    if k < |Ends(trace[..last])| {
      EndsFail(trace[..last], k);
      var j :| 0 <= j < last && trace[..last][j].End? && !trace[..last][j].passed;
      assert trace[j].End?;
    } else {
      assert trace[last].End? && !trace[last].passed;
    }
  }

  lemma BothExcused(lane: Lane, a: seq<Event>, first: seq<Record>, b: seq<Event>, second: seq<Record>,
                    s: bool, t: bool)
    requires lane.grouped && Settled(Pick(lane.entries, true), a, first, true, s)
             && Settled(Pick(lane.entries, false), b, second, true, t)
    requires forall i :: 0 <= i < |first| ==> Passed(first[i])
    ensures Excused(lane, a + b, first + second, t)
  {
    hide Settled, Excused;
    SettledExcused(lane, Pick(lane.entries, false), b, second, t);
    ExcusedAfter(lane, a, first, b, second, t);
  }

  lemma ExcusedAfter(lane: Lane, a: seq<Event>, first: seq<Record>, b: seq<Event>, second: seq<Record>, t: bool)
    requires Excused(lane, b, second, t) && forall i :: 0 <= i < |first| ==> Passed(first[i])
    ensures Excused(lane, a + b, first + second, t)
  {
    if Failed(b) {
      var j :| 0 <= j < |b| && b[j].End? && !b[j].passed;
      assert (a + b)[|a| + j] == b[j];
    }
  }

  lemma BothPhased(lane: Lane, a: seq<Event>, first: seq<Record>, b: seq<Event>, second: seq<Record>,
                   s: bool, t: bool)
    requires lane.grouped && Settled(Pick(lane.entries, true), a, first, true, s)
             && Settled(Pick(lane.entries, false), b, second, true, t)
    requires forall i :: 0 <= i < |first| ==> Passed(first[i])
    ensures SharedFirst(lane, a + b)
  {
    hide Pick, OnlyOf, Running, Ends, EntriesOf, Failed;
    SettledRuns(Pick(lane.entries, true), a, first, true, s);
    assert first == Ends(a);
    assert (a + b)[..|a|] == a && (a + b)[|a|..] == b;
    assert FirstPhase(lane, a + b, |a|);
  }

  lemma OnePhase(lane: Lane, limit: nat, trace: seq<Event>, records: seq<Record>, stopped: bool)
    requires Orderly(trace, limit, lane.grouped) && Settled(lane.entries, trace, records, lane.grouped, stopped)
    requires lane.grouped ==> limit == 1
    ensures LaneDone(lane, limit, trace, records)
  {
    SettledRuns(lane.entries, trace, records, lane.grouped, stopped);
    if lane.grouped {
      SecludedJoin([], [], trace, true);
      assert [] + trace == trace;
    }
  }

  lemma SharedOnly(lane: Lane, limit: nat, trace: seq<Event>, records: seq<Record>, stopped: bool)
    requires lane.grouped && Orderly(trace, limit, true)
    requires Settled(Pick(lane.entries, true), trace, records, true, stopped)
    ensures LaneDone(lane, limit, trace, records + Skipped(Pick(lane.entries, false), false))
  {
    hide Orderly, Secluded, OnlyOf, Running, Ends, Failed, EntriesOf, Runs, Pick, Skipped;
    PickParts(lane.entries);
    SettledRuns(Pick(lane.entries, true), trace, records, true, stopped);
    var rest := Skipped(Pick(lane.entries, false), false);
    SkippedEntries(Pick(lane.entries, false), false);
    EntriesConcat(records, rest);
    RunsConcat(records, rest);
    forall i | 0 <= i < |rest| ensures !rest[i].Ran? {
      assert rest[i] in rest;
    }
    RunsNone(rest);
    Begun([], 1, true);
    SecludedJoin(trace, Pick(lane.entries, true), [], true);
    assert trace + [] == trace;
  }

  lemma TwoPhases(lane: Lane, limit: nat, a: seq<Event>, first: seq<Record>, b: seq<Event>,
                  second: seq<Record>, s: bool, t: bool)
    requires lane.grouped && limit > 0 && Orderly(a, limit, true) && Orderly(b, 1, true)
    requires Settled(Pick(lane.entries, true), a, first, true, s)
             && Settled(Pick(lane.entries, false), b, second, true, t)
    requires forall i :: 0 <= i < |first| ==> Passed(first[i])
    ensures LaneDone(lane, limit, a + b, first + second)
  {
    PickParts(lane.entries);
    SettledRuns(Pick(lane.entries, true), a, first, true, s);
    SettledRuns(Pick(lane.entries, false), b, second, true, t);
    EntriesConcat(first, second);
    RunsConcat(first, second);
    RunningJoin(a, b);
    OrderlyJoin(a, b, limit, 1, true);
    SecludedJoin(a, Pick(lane.entries, true), b, true);
  }

  lemma CleanupKeeps(lane: Lane, limit: nat, trace: seq<Event>, records: seq<Record>, name: string)
    requires LaneDone(lane, limit, trace, records)
    ensures LaneDone(lane, limit, trace, records + [CleanupFailed(name)])
  {
    var one := [CleanupFailed(name)];
    assert one[..0] == [];
    EntriesConcat(records, one);
    RunsConcat(records, one);
  }

  lemma CleanupExcused(lane: Lane, trace: seq<Event>, records: seq<Record>, stopped: bool)
    requires lane.grouped && Excused(lane, trace, records, stopped)
    ensures Excused(lane, trace, records + [CleanupFailed(lane.name)], stopped)
  {
  }

  class Suite {
    var stopped: bool
    var finished: nat

    constructor ()
      ensures finished == 0
    {
      stopped, finished := false, 0;
    }

    /** Looks at the stop signal, which may have been raised meanwhile and is never lowered. */
    method Poll()
      modifies `stopped
      ensures old(stopped) ==> stopped
    {
      var raised: bool := *;
      stopped := stopped || raised;
    }

    /** Runs entries with at most `limit` at a time; with `stopping`, a failure ends the starts. */
    method RunEntries(entries: seq<Entry>, limit: nat, stopping: bool) returns (records: seq<Record>, trace: seq<Event>)
      requires limit > 0
      modifies this
      ensures Orderly(trace, limit, stopping) && Settled(entries, trace, records, stopping, stopped)
      ensures finished == old(finished) + |entries| && (old(stopped) ==> stopped)
    {
      hide Progress, Orderly, Failed, Running, Ends, Settled, Skipped;
      Begun(entries, limit, stopping);
      var i, running, failed := 0, [], false;
      records, trace := [], [];
      while true
        invariant Progress(entries, i, running, records, trace) && Orderly(trace, limit, stopping)
        invariant failed == (stopping && Failed(trace)) && (old(stopped) ==> stopped)
        invariant finished == old(finished) + |records| && i <= |entries|
        decreases 2 * (|entries| - i) + |running|
      {
        i, running, trace := Fill(entries, i, running, records, trace, limit, stopping, failed);
        if running == [] {
          break;
        }
        var j: nat :| j < |running|;
        var passed: bool := *;
        RunningSize(entries, i, running, records, trace);
        EndProgress(entries, i, running, records, trace, j, passed);
        OrderlyStep(trace, End(running[j], passed), limit, stopping);
        TraceStep(trace, End(running[j], passed));
        failed := failed || (stopping && !passed);
        finished := finished + 1;
        records, trace := records + [Ran(running[j], passed)], trace + [End(running[j], passed)];
        running := running[..j] + running[j + 1..];
      }
      Poll();
      Sizes(entries, i, running, records, trace);
      ProgressSettled(entries, i, records, trace, stopping, stopped);
      SkippedEntries(entries[i..], stopped);
      finished := finished + |entries[i..]|;
      records := records + Skipped(entries[i..], stopped);
    }

    /** Starts pending entries until the limit, a failure, a stop or the end. */
    method Fill(entries: seq<Entry>, from: nat, flying: seq<Entry>, ghost records: seq<Record>, before: seq<Event>,
                limit: nat, ghost stopping: bool, failed: bool)
      returns (i: nat, running: seq<Entry>, trace: seq<Event>)
      requires limit > 0 && Progress(entries, from, flying, records, before) && Orderly(before, limit, stopping)
      requires failed == (stopping && Failed(before))
      modifies `stopped
      ensures Progress(entries, i, running, records, trace) && Orderly(trace, limit, stopping)
      ensures failed == (stopping && Failed(trace)) && (old(stopped) ==> stopped)
      ensures 2 * (|entries| - i) + |running| <= 2 * (|entries| - from) + |flying|
      ensures i <= |entries| && (running == [] ==> i == |entries| || failed || stopped)
    {
      hide Progress, Orderly, Failed, Running, Ends;
      i, running, trace := from, flying, before;
      Sizes(entries, i, running, records, trace);
      while !failed && |running| < limit && i < |entries|
        invariant Progress(entries, i, running, records, trace) && Orderly(trace, limit, stopping) && i <= |entries|
        invariant failed == (stopping && Failed(trace)) && (old(stopped) ==> stopped)
        invariant 2 * (|entries| - i) + |running| <= 2 * (|entries| - from) + |flying|
      {
        Poll();
        if stopped {
          break;
        }
        RunningSize(entries, i, running, records, trace);
        StartProgress(entries, i, running, records, trace);
        OrderlyStep(trace, Start(entries[i]), limit, stopping);
        TraceStep(trace, Start(entries[i]));
        trace, running, i := trace + [Start(entries[i])], running + [entries[i]], i + 1;
      }
    }
  
    /** Runs one lane: exclusive entries of a group only after all its shared ones have passed. */
    method RunLane(lane: Lane, serial: bool, freshLimit: nat, sharedLimit: nat)
      returns (records: seq<Record>, trace: seq<Event>)
      requires freshLimit > 0 && sharedLimit > 0
      modifies this
      ensures LaneDone(lane, LaneLimit(lane, serial, freshLimit, sharedLimit), trace, records)
      ensures Excused(lane, trace, records, stopped) && (old(stopped) ==> stopped)
      ensures lane.grouped && !serial ==> SharedFirst(lane, trace)
      ensures finished == old(finished) + |lane.entries|
    {
      hide Excused, SharedFirst;
      if serial || !lane.grouped {
        records, trace := RunEntries(lane.entries, if serial then 1 else freshLimit, lane.grouped);
        OnePhase(lane, LaneLimit(lane, serial, freshLimit, sharedLimit), trace, records, stopped);
        SettledExcused(lane, lane.entries, trace, records, stopped);
      } else {
        var exclusive := Pick(lane.entries, false);
        PickParts(lane.entries);
        records, trace := RunEntries(Pick(lane.entries, true), sharedLimit, true);
        ghost var stoppedFirst := stopped;
        if forall i :: 0 <= i < |records| ==> Passed(records[i]) {
          var more, rest := RunEntries(exclusive, 1, true);
          TwoPhases(lane, sharedLimit, trace, records, rest, more, stoppedFirst, stopped);
          BothExcused(lane, trace, records, rest, more, stoppedFirst, stopped);
          BothPhased(lane, trace, records, rest, more, stoppedFirst, stopped);
          records, trace := records + more, trace + rest;
        } else {
          SharedOnly(lane, sharedLimit, trace, records, stopped);
          SharedExcused(lane, trace, records, stopped);
          finished := finished + |exclusive|;
          records := records + Skipped(exclusive, false);
        }
      }
      var cleanupFails: bool := *;
      if lane.grouped && cleanupFails {
        CleanupKeeps(lane, LaneLimit(lane, serial, freshLimit, sharedLimit), trace, records, lane.name);
        CleanupExcused(lane, trace, records, stopped);
        records := records + [CleanupFailed(lane.name)];
      }
    }

    /** Runs every lane; each leaves the guarantees of its schedule, and together they leave one record
        per selected entry. */
    method Execute(entries: seq<Entry>, serial: bool, freshLimit: nat, sharedLimit: nat)
      returns (lanes: seq<Lane>, results: seq<seq<Record>>, traces: seq<seq<Event>>)
      requires freshLimit > 0 && sharedLimit > 0
      modifies this
      ensures Sorted(ByOrder(entries), lanes) && |results| == |traces| == |lanes|
      ensures forall i :: 0 <= i < |lanes| ==>
        LaneDone(lanes[i], LaneLimit(lanes[i], serial, freshLimit, sharedLimit), traces[i], results[i])
      ensures forall i :: 0 <= i < |lanes| ==> Excused(lanes[i], traces[i], results[i], stopped)
      ensures EntriesOf(Joined(results)) == multiset(entries)
      ensures finished == old(finished) + |entries|
    {
      hide *;
      lanes := Lanes(entries);
      NothingGathered(ByOrder(entries), lanes);
      results, traces := [], [];
      assert lanes[..0] == [];
      for k := 0 to |lanes|
        invariant |results| == |traces| == k
        invariant forall i :: 0 <= i < k ==>
          LaneDone(lanes[i], LaneLimit(lanes[i], serial, freshLimit, sharedLimit), traces[i], results[i])
        invariant forall i :: 0 <= i < k ==> Excused(lanes[i], traces[i], results[i], stopped)
        invariant EntriesOf(Joined(results)) == Gathered(lanes[..k])
        invariant finished == old(finished) + |Gathered(lanes[..k])|
      {
        ghost var earlier := stopped;
        var records, trace := RunLane(lanes[k], serial, freshLimit, sharedLimit);
        forall i | 0 <= i < k ensures Excused(lanes[i], traces[i], results[i], stopped) {
          StillExcused(lanes[i], traces[i], results[i], earlier, stopped);
        }
        LaneEntries(lanes[k], LaneLimit(lanes[k], serial, freshLimit, sharedLimit), trace, records);
        assert lanes[..k + 1] == lanes[..k] + [lanes[k]];
        GatheredPush(lanes[..k], lanes[k]);
        JoinedPush(results, records);
        results, traces := results + [records], traces + [trace];
      }
      assert lanes[..|lanes|] == lanes;
    }
  }

  lemma StillExcused(lane: Lane, trace: seq<Event>, records: seq<Record>, stopped: bool, later: bool)
    requires Excused(lane, trace, records, stopped) && (stopped ==> later)
    ensures Excused(lane, trace, records, later)
  {
  }

  /** Uninterrupted, a lane whose entries all passed ran them all. */
  lemma NothingSkipped(lane: Lane, limit: nat, trace: seq<Event>, records: seq<Record>, i: nat)
    requires LaneDone(lane, limit, trace, records) && Excused(lane, trace, records, false)
    requires !lane.grouped || !Failed(trace)
    requires i < |lane.entries|
    ensures exists passed :: Ran(lane.entries[i], passed) in records
  {
    var e := lane.entries[i];
    assert e in multiset(lane.entries);
    EntryRecorded(records, e);
    var k :| 0 <= k < |records| && !records[k].CleanupFailed? && records[k].entry == e;
    assert records[k] == Ran(e, records[k].passed);
  }

  lemma NothingGathered(entries: seq<Entry>, lanes: seq<Lane>)
    requires Sorted(entries, lanes)
    ensures Gathered([]) == multiset{} == EntriesOf(Joined([])) && Gathered(lanes) == multiset(entries)
  {
  }

  lemma LaneEntries(lane: Lane, limit: nat, trace: seq<Event>, records: seq<Record>)
    requires LaneDone(lane, limit, trace, records)
    ensures EntriesOf(records) == multiset(lane.entries)
  {
  }

  function Joined(results: seq<seq<Record>>): seq<Record> {
    if results == [] then [] else Joined(results[..|results| - 1]) + results[|results| - 1]
  }

  lemma JoinedPush(results: seq<seq<Record>>, records: seq<Record>)
    ensures EntriesOf(Joined(results + [records])) == EntriesOf(Joined(results)) + EntriesOf(records)
  {
    assert (results + [records])[..|results|] == results;
    EntriesConcat(Joined(results), records);
  }

  /** The verdict: the counts of failed and not-run records are both zero, and cleanup succeeded. */
  method Finish(records: seq<Record>, cleanup: bool) returns (ok: bool)
    ensures ok <==> cleanup && forall i :: 0 <= i < |records| ==> Passed(records[i])
  {
    var notRun, failed := 0, 0;
    for i := 0 to |records|
      invariant notRun >= 0 && failed >= 0
      invariant notRun == 0 && failed == 0 <==> forall j :: 0 <= j < i ==> Passed(records[j])
    {
      if records[i].NotRun? {
        notRun := notRun + 1;
      } else if !Passed(records[i]) {
        failed := failed + 1;
      }
    }
    ok := failed == 0 && notRun == 0 && cleanup;
  }

  lemma {:induction false} EntryRecorded(records: seq<Record>, e: Entry)
    requires e in EntriesOf(records)
    ensures exists i :: 0 <= i < |records| && !records[i].CleanupFailed? && records[i].entry == e
  {
    var last := |records| - 1;
    if !records[last].CleanupFailed? && records[last].entry == e {
    } else {
      EntryRecorded(records[..last], e);
      var i :| 0 <= i < last && !records[..last][i].CleanupFailed? && records[..last][i].entry == e;
      assert records[i].entry == e;
    }
  }

  /** A suite that finishes well has run every selected entry, and every one passed. */
  lemma FinishedMeansPassed(entries: seq<Entry>, records: seq<Record>, e: Entry)
    requires EntriesOf(records) == multiset(entries) && (forall i :: 0 <= i < |records| ==> Passed(records[i]))
             && e in entries
    ensures Ran(e, true) in records
  {
    assert e in multiset(entries);
    EntryRecorded(records, e);
    var i :| 0 <= i < |records| && !records[i].CleanupFailed? && records[i].entry == e;
    assert Passed(records[i]) && records[i] == Ran(e, true);
  }

  function LaneLimit(lane: Lane, serial: bool, freshLimit: nat, sharedLimit: nat): nat {
    if serial then 1 else if lane.grouped then sharedLimit else freshLimit
  }
}
