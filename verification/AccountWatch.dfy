/** Watching accounts through notifications and one snapshot: subscriptions are acknowledged first,
    then a snapshot is fetched in pieces, then notifications overwrite the remembered images. */
module AccountWatch {
  import opened Common

  datatype Account = Account(lamports: nat, data: seq<byte>, owner: seq<byte>, executable: bool, rentEpoch: nat)

  /** The system program's address. */
  const SYSTEM: seq<byte> :=
      [0, 0, 0, 0, 0, 0, 0, 0, 0, 0, 0, 0, 0, 0, 0, 0, 0, 0, 0, 0, 0, 0, 0, 0, 0, 0, 0, 0, 0, 0, 0, 0]

  /** The empty system account, which is also how a closed account is announced. */
  const CLOSED: Account := Account(0, [], SYSTEM, false, 0)

  function Told(state: Option<Account>): Account {
    match state
    case Some(account) => account
    case None => CLOSED
  }

  function Image(account: Account): Option<Account> {
    if account != CLOSED then Some(account) else None
  }

  /** A notification carries the state exactly, except for a live account that looks closed. */
  lemma ImageOfTold(state: Option<Account>)
    ensures Image(Told(state)) == state <==> state != Some(CLOSED)
  {
  }

  // ---- one watched account in every interleaving ------------------------------------------------------

  datatype Stage = Subscribing | Fetching | Watching

  /** The server's account, whether its subscription is acknowledged, the notifications still on the
      wire and those delivered but unread, what the snapshot read found, and the watcher's image. */
  datatype Slot = Slot(server: Option<Account>, acked: bool, wire: seq<Account>, queue: seq<Account>,
                       fetched: Option<Option<Account>>, image: Option<Account>, seen: bool)

  datatype World = World(stage: Stage, slots: seq<Slot>)

  datatype Event =
    | Change(index: nat, state: Option<Account>)
    | Deliver(index: nat, account: Account)
    | Ack(index: nat)
    | Subscribed
    | Fetch(index: nat)
    | Seed
    | Unseeded
    | Consume(index: nat)

  function Fresh(state: Option<Account>): Slot { Slot(state, false, [], [], None, None, false) }

  function Slots(server: seq<Option<Account>>): (r: seq<Slot>)
    ensures |r| == |server| && forall i :: 0 <= i < |server| ==> r[i] == Fresh(server[i])
  {
    if server == [] then [] else [Fresh(server[0])] + Slots(server[1..])
  }

  function Opening(server: seq<Option<Account>>): World { World(Subscribing, Slots(server)) }

  /** The subscription that a read serves: the first with an unread notification. */
  predicate First(slots: seq<Slot>, index: nat) {
    index < |slots| && slots[index].queue != [] && forall i :: 0 <= i < index ==> slots[i].queue == []
  }

  predicate Enabled(w: World, e: Event) {
    match e
    case Change(index, _) => index < |w.slots|
    case Deliver(index, account) => index < |w.slots| && w.slots[index].wire != [] && w.slots[index].wire[0] == account
    case Ack(index) => w.stage.Subscribing? && index < |w.slots| && !w.slots[index].acked
    case Subscribed => w.stage.Subscribing? && forall i :: 0 <= i < |w.slots| ==> w.slots[i].acked
    case Fetch(index) => w.stage.Fetching? && index < |w.slots| && w.slots[index].fetched.None?
    case Seed => w.stage.Fetching? && forall i :: 0 <= i < |w.slots| ==> w.slots[i].fetched.Some?
    case Unseeded => w.stage.Fetching?
    case Consume(index) => w.stage.Watching? && First(w.slots, index)
  }

  function Changed(s: Slot, state: Option<Account>): Slot {
    s.(server := state, wire := if s.acked then s.wire + [Told(state)] else s.wire)
  }

  function Delivered(s: Slot): Slot
    requires s.wire != []
  {
    s.(wire := s.wire[1..], queue := s.queue + [s.wire[0]])
  }

  function Seeded(s: Slot): Slot {
    if s.fetched.Some? then s.(image := s.fetched.value, seen := true) else s
  }

  function SeededAll(slots: seq<Slot>): (r: seq<Slot>)
    ensures |r| == |slots| && forall i :: 0 <= i < |slots| ==> r[i] == Seeded(slots[i])
  {
    if slots == [] then [] else [Seeded(slots[0])] + SeededAll(slots[1..])
  }

  function Consumed(s: Slot): Slot
    requires s.queue != []
  {
    s.(queue := s.queue[1..], image := Image(s.queue[0]), seen := true)
  }

  function Next(w: World, e: Event): World
    requires Enabled(w, e)
  {
    match e
    case Change(index, state) => w.(slots := w.slots[index := Changed(w.slots[index], state)])
    case Deliver(index, _) => w.(slots := w.slots[index := Delivered(w.slots[index])])
    case Ack(index) => w.(slots := w.slots[index := w.slots[index].(acked := true)])
    case Subscribed => w.(stage := Fetching)
    case Fetch(index) => w.(slots := w.slots[index := w.slots[index].(fetched := Some(w.slots[index].server))])
    case Seed => World(Watching, SeededAll(w.slots))
    case Unseeded => w.(stage := Watching)
    case Consume(index) => w.(slots := w.slots[index := Consumed(w.slots[index])])
  }

  function After(w: World, trace: seq<Event>): (r: Option<World>)
    ensures r.Some? ==> |r.value.slots| == |w.slots|
    decreases |trace|
  {
    if trace == [] then Some(w)
    else if Enabled(w, trace[0]) then After(Next(w, trace[0]), trace[1..])
    else None
  }

  /** The image shows the server's state, up to a live account that looks closed. */
  predicate Shown(image: Option<Account>, server: Option<Account>) {
    image == server || (server == Some(CLOSED) && image == None)
  }

  /** Notifications the watcher has not taken yet, oldest first. */
  function Outstanding(s: Slot): seq<Account> { s.queue + s.wire }

  /** The newest outstanding notification tells the server's state; with none outstanding, the snapshot
      read (while fetching) and the image (while watching) show it. */
  ghost predicate Current(stage: Stage, s: Slot) {
    && (!s.acked ==> Outstanding(s) == [] && stage.Subscribing?)
    && (Outstanding(s) != [] ==> Outstanding(s)[|Outstanding(s)| - 1] == Told(s.server))
    && (stage.Subscribing? ==> s.fetched.None?)
    && (Outstanding(s) == [] && s.fetched.Some? && stage.Fetching? ==> Shown(s.fetched.value, s.server))
    && (!stage.Watching? ==> !s.seen)
    && (Outstanding(s) == [] && s.seen ==> Shown(s.image, s.server))
  }

  ghost predicate Inv(w: World) { forall i :: 0 <= i < |w.slots| ==> Current(w.stage, w.slots[i]) }

  lemma ChangedCurrent(stage: Stage, s: Slot, state: Option<Account>)
    requires Current(stage, s)
    ensures Current(stage, Changed(s, state))
  {
    if s.acked {
      assert Outstanding(Changed(s, state)) == Outstanding(s) + [Told(state)];
    }
  }

  lemma DeliveredCurrent(stage: Stage, s: Slot)
    requires Current(stage, s) && s.wire != []
    ensures Current(stage, Delivered(s))
  {
    assert Outstanding(Delivered(s)) == Outstanding(s);
  }

  lemma ConsumedCurrent(s: Slot)
    requires Current(Watching, s) && s.queue != []
    ensures Current(Watching, Consumed(s))
  {
    assert Outstanding(Consumed(s)) == Outstanding(s)[1..];
  }

  lemma NextCurrent(w: World, e: Event)
    requires Inv(w) && Enabled(w, e)
    ensures Inv(Next(w, e))
  {
    match e {
      case Change(index, state) =>
        ChangedCurrent(w.stage, w.slots[index], state);
        OneCurrent(w, index, Changed(w.slots[index], state));
      case Deliver(index, _) =>
        DeliveredCurrent(w.stage, w.slots[index]);
        OneCurrent(w, index, Delivered(w.slots[index]));
      case Consume(index) =>
        ConsumedCurrent(w.slots[index]);
        OneCurrent(w, index, Consumed(w.slots[index]));
      case _ => SetupCurrent(w, e);
    }
  }

  lemma OneCurrent(w: World, index: nat, s: Slot)
    requires Inv(w) && index < |w.slots| && Current(w.stage, s)
    ensures Inv(w.(slots := w.slots[index := s]))
  {
    hide Current;
  }

  lemma SetupCurrent(w: World, e: Event)
    requires Inv(w) && Enabled(w, e) && !e.Change? && !e.Deliver? && !e.Consume?
    ensures Inv(Next(w, e))
  {
  }

  lemma {:induction false} RunCurrent(w: World, trace: seq<Event>)
    requires Inv(w) && After(w, trace).Some?
    ensures Inv(After(w, trace).value)
    decreases |trace|
  {
    if trace != [] {
      NextCurrent(w, trace[0]);
      RunCurrent(Next(w, trace[0]), trace[1..]);
    }
  }

  /** There is no setup gap: in every run, an account with an image and no outstanding notification shows
      the server's current state. */
  lemma DrainedIsCurrent(server: seq<Option<Account>>, trace: seq<Event>, index: nat)
    requires After(Opening(server), trace).Some? && index < |server|
    ensures var s := After(Opening(server), trace).value.slots[index];
            s.seen && s.queue == [] && s.wire == [] ==> Shown(s.image, s.server)
  {
    RunCurrent(Opening(server), trace);
  }

  /** The image can move backwards on the way: a notification older than the snapshot overwrites it,
      and a later one repairs it. */
  lemma StaleOvertakesSnapshot(older: Account, newer: Account)
    requires older != newer && older != CLOSED && newer != CLOSED
    ensures var z := After(Opening([None]),
                           [Ack(0), Subscribed, Change(0, Some(older)), Change(0, Some(newer)), Fetch(0), Seed]);
            && z.Some? && z.value.slots[0].image == Some(newer)
            && var stale := After(z.value, [Deliver(0, older), Consume(0)]);
            && stale.Some? && stale.value.slots[0].image == Some(older)
            && var repaired := After(stale.value, [Deliver(0, newer), Consume(0)]);
            && repaired.Some? && repaired.value.slots[0].image == Some(newer)
  {
    var a := Next(Next(Opening([None]), Ack(0)), Subscribed);
    var b := Next(Next(a, Change(0, Some(older))), Change(0, Some(newer)));
    var c := Next(Next(b, Fetch(0)), Seed);
    assert After(b, [Fetch(0), Seed]) == Some(c);
    assert After(a, [Change(0, Some(older)), Change(0, Some(newer)), Fetch(0), Seed]) == Some(c);
    assert [Ack(0), Subscribed, Change(0, Some(older)), Change(0, Some(newer)), Fetch(0), Seed][1..][1..]
        == [Change(0, Some(older)), Change(0, Some(newer)), Fetch(0), Seed];
    Overtaken(c, older, newer);
  }

  lemma Overtaken(c: World, older: Account, newer: Account)
    requires older != CLOSED && newer != CLOSED && c.stage.Watching? && |c.slots| == 1
    requires c.slots[0].queue == [] && c.slots[0].wire == [older, newer]
    ensures var stale := After(c, [Deliver(0, older), Consume(0)]);
            && stale.Some? && stale.value.slots[0].image == Some(older)
            && var repaired := After(stale.value, [Deliver(0, newer), Consume(0)]);
            && repaired.Some? && repaired.value.slots[0].image == Some(newer)
  {
    Taken(c, older);
    var d := Next(Next(c, Deliver(0, older)), Consume(0));
    assert d.slots[0].queue == [] && d.slots[0].wire == [newer];
    Taken(d, newer);
  }

  lemma Taken(c: World, account: Account)
    requires account != CLOSED && c.stage.Watching? && |c.slots| == 1
    requires c.slots[0].queue == [] && c.slots[0].wire != [] && c.slots[0].wire[0] == account
    ensures Enabled(c, Deliver(0, account)) && Enabled(Next(c, Deliver(0, account)), Consume(0))
    ensures var d := Next(Next(c, Deliver(0, account)), Consume(0));
            && After(c, [Deliver(0, account), Consume(0)]) == Some(d)
            && d.stage.Watching? && |d.slots| == 1 && d.slots[0].image == Some(account)
            && d.slots[0].queue == [] && d.slots[0].wire == c.slots[0].wire[1..]
  {
    var m := Next(c, Deliver(0, account));
    var d := Next(m, Consume(0));
    assert [Deliver(0, account), Consume(0)][1..] == [Consume(0)] && [Consume(0)][1..] == [];
    assert After(m, [Consume(0)]) == After(d, []) == Some(d);
  }

  lemma {:induction false} AfterOne(w: World, trace: seq<Event>, e: Event)
    requires After(w, trace).Some? && Enabled(After(w, trace).value, e)
    ensures After(w, trace + [e]) == Some(Next(After(w, trace).value, e))
    decreases |trace|
  {
    if trace == [] {
      assert trace + [e] == [e];
    } else {
      assert (trace + [e])[1..] == trace[1..] + [e];
      AfterOne(Next(w, trace[0]), trace[1..], e);
    }
  }

  // ---- the watcher ------------------------------------------------------------------------------------

  /** The server's accounts after the changes among some events. */
  function Applied(server: seq<Option<Account>>, events: seq<Event>): (r: seq<Option<Account>>)
    ensures |r| == |server|
    decreases |events|
  {
    if events == [] then server else
    var before, last := Applied(server, events[..|events| - 1]), events[|events| - 1];
    if last.Change? && last.index < |server| then before[last.index := last.state] else before
  }

  ghost predicate Serves(w: World, server: seq<Option<Account>>) {
    |w.slots| == |server| && forall i :: 0 <= i < |server| ==> w.slots[i].server == server[i]
  }

  /** Changes on the server and deliveries that can happen in this order, whatever is read meanwhile. */
  ghost predicate Feasible(w: World, events: seq<Event>)
    decreases |events|
  {
    if events == [] then true else
    (events[0].Change? || events[0].Deliver?) && Enabled(w, events[0]) && Feasible(Next(w, events[0]), events[1..])
  }

  /** The two worlds differ only in what has been read. */
  ghost predicate SameWires(w: World, z: World) {
    && |w.slots| == |z.slots|
    && forall i :: 0 <= i < |w.slots| ==> w.slots[i].acked == z.slots[i].acked && w.slots[i].wire == z.slots[i].wire
  }

  lemma {:induction false} FeasibleSame(w: World, z: World, events: seq<Event>)
    requires SameWires(w, z) && Feasible(w, events)
    ensures Feasible(z, events)
    decreases |events|
  {
    if events != [] {
      FeasibleSame(Next(w, events[0]), Next(z, events[0]), events[1..]);
    }
  }

  /** `z` is where the run `trace` from `w` has led. */
  ghost predicate Reached(w: World, trace: seq<Event>, z: World, server: seq<Option<Account>>) {
    After(w, trace) == Some(z) && Inv(z) && z.stage.Watching? && Serves(z, server)
  }

  lemma AtWatching(w: World, trace: seq<Event>, z: World, server: seq<Option<Account>>)
    requires Reached(w, trace, z, server)
    ensures After(w, trace) == Some(z) && z.stage.Watching? && |z.slots| == |server| && Serves(z, server) && Inv(z)
  {
  }

  lemma StepServes(w: World, trace: seq<Event>, z: World, e: Event, server: seq<Option<Account>>)
    requires Reached(w, trace, z, server) && (e.Change? || e.Deliver? || e.Consume?) && Enabled(z, e)
    ensures e.Change? ==> e.index < |server|
    ensures Reached(w, trace + [e], Next(z, e), if e.Change? then server[e.index := e.state] else server)
    ensures e.Consume? ==> SameWires(z, Next(z, e))
  {
    AfterOne(w, trace, e);
    NextCurrent(z, e);
  }

  function Unread(queues: seq<seq<Account>>): nat {
    if queues == [] then 0 else |queues[0]| + Unread(queues[1..])
  }

  lemma {:induction false} UnreadUpdate(queues: seq<seq<Account>>, i: nat, queue: seq<Account>)
    requires i < |queues|
    ensures Unread(queues[i := queue]) == Unread(queues) - |queues[i]| + |queue|
  {
    if i > 0 {
      assert queues[i := queue][1..] == queues[1..][i - 1 := queue];
      UnreadUpdate(queues[1..], i - 1, queue);
    } else {
      assert queues[i := queue][1..] == queues[1..];
    }
  }

  ghost predicate Mirrors(accounts: seq<Option<Account>>, seen: seq<bool>, queues: seq<seq<Account>>, w: World) {
    && |accounts| == |seen| == |queues| == |w.slots|
    && (forall i :: 0 <= i < |accounts| ==> accounts[i] == w.slots[i].image)
    && (forall i :: 0 <= i < |seen| ==> seen[i] == w.slots[i].seen)
    && (forall i :: 0 <= i < |queues| ==> queues[i] == w.slots[i].queue)
  }

  /** Every account has been read, and the snapshot is what was found. */
  ghost predicate Found(w: World, snapshot: seq<Option<Account>>) {
    && Enabled(w, Seed) && |snapshot| == |w.slots|
    && forall i :: 0 <= i < |snapshot| ==> w.slots[i].fetched == Some(snapshot[i])
  }

  class Watch {
    var accounts: seq<Option<Account>>
    var seen: seq<bool>
    var queues: seq<seq<Account>>

    /** The watcher and the queues of its subscriptions are as in `w`. */
    ghost predicate Shows(w: World)
      reads this
    {
      Mirrors(accounts, seen, queues, w)
    }

    /** Installs a snapshot; refuses one of the wrong length and changes nothing. In a run, that is the
        seeding step whenever the snapshot is what the reads found. */
    method Seed(snapshot: seq<Option<Account>>) returns (ok: bool)
      requires |seen| == |accounts|
      modifies this
      ensures ok <==> |snapshot| == |old(accounts)|
      ensures !ok ==> accounts == old(accounts) && seen == old(seen) && queues == old(queues)
      ensures ok ==> forall w :: Mirrors(old(accounts), old(seen), old(queues), w) && Found(w, snapshot) ==>
        Shows(Next(w, Event.Seed))
    {
      ok := |snapshot| == |accounts|;
      if ok {
        accounts := snapshot;
        var i := 0;
        while i < |seen|
          invariant i <= |seen| == |snapshot| && accounts == snapshot && queues == old(queues)
          invariant forall j :: 0 <= j < i ==> seen[j]
        {
          seen := seen[i := true];
          i := i + 1;
        }
      }
    }

    /** A notification is delivered into a subscription's queue. */
    method Arrive(index: nat, account: Account, ghost w: World)
      requires Shows(w) && Enabled(w, Deliver(index, account))
      modifies this
      ensures Shows(Next(w, Deliver(index, account)))
      ensures Unread(queues) == Unread(old(queues)) + 1 && accounts == old(accounts) && seen == old(seen)
    {
      UnreadUpdate(queues, index, queues[index] + [account]);
      queues := queues[index := queues[index] + [account]];
    }

    /** Takes one notification, from the first subscription that has one, and remembers its image. */
    method Absorb(ghost w: World) returns (taken: Option<nat>)
      requires Shows(w) && w.stage.Watching?
      modifies this
      ensures taken.None? ==> accounts == old(accounts) && seen == old(seen) && queues == old(queues)
      ensures taken.None? ==> Shows(w) && forall i :: 0 <= i < |w.slots| ==> w.slots[i].queue == []
      ensures taken.Some? ==> Enabled(w, Consume(taken.value)) && Shows(Next(w, Consume(taken.value)))
      ensures taken.Some? ==> Unread(queues) == Unread(old(queues)) - 1
      ensures taken.Some? ==>
        var k := taken.value;
        && k < |old(queues)| == |old(accounts)| == |old(seen)| && old(queues)[k] != []
        && (forall i :: 0 <= i < k ==> old(queues)[i] == [])
        && queues == old(queues)[k := old(queues)[k][1..]] && seen == old(seen)[k := true]
        && accounts == old(accounts)[k := Image(old(queues)[k][0])]
    {
      taken := None;
      for index := 0 to |queues|
        invariant Shows(w) && queues == old(queues)
        invariant forall i :: 0 <= i < index ==> queues[i] == []
      {
        if queues[index] != [] {
          var update := queues[index][0];
          UnreadUpdate(queues, index, queues[index][1..]);
          queues := queues[index := queues[index][1..]];
          accounts := accounts[index := Image(update)];
          seen := seen[index := true];
          taken := Some(index);
          return;
        }
      }
    }

    /** With nothing outstanding, the images show the server's accounts. */
    lemma AllCurrent(z: World, server: seq<Option<Account>>)
      requires Shows(z) && Inv(z) && Serves(z, server) && false !in seen
      requires forall i :: 0 <= i < |z.slots| ==> z.slots[i].queue == [] && z.slots[i].wire == []
      ensures |accounts| == |server| && forall i :: 0 <= i < |server| ==> Shown(accounts[i], server[i])
    {
      forall i | 0 <= i < |server| ensures Shown(accounts[i], server[i]) {
        assert seen[i] in seen;
        assert Current(z.stage, z.slots[i]);
      }
    }

    /** The run has led to `z`, and the watcher is up to date with it. */
    ghost predicate Following(w: World, trace: seq<Event>, z: World, server: seq<Option<Account>>)
      reads this
    {
      Reached(w, trace, z, server) && Shows(z)
    }

    lemma ChangeShows(z: World, e: Event)
      requires e.Change? && Enabled(z, e) && Shows(z)
      ensures Shows(Next(z, e))
    {
    }

    /** One wait: the next outside event may happen first; otherwise a notification is absorbed. */
    method Wait(outside: Option<Event>, ghost w: World, ghost trace: seq<Event>, ghost z: World,
                ghost server: seq<Option<Account>>)
      returns (taken: bool, ghost e: Event)
      requires Following(w, trace, z, server)
      requires outside.Some? ==> (outside.value.Change? || outside.value.Deliver?) && Enabled(z, outside.value)
      modifies this
      ensures taken ==> Enabled(z, e) && Following(w, trace + [e], Next(z, e), server) && SameWires(z, Next(z, e))
      ensures taken ==> Unread(queues) == Unread(old(queues)) - 1
      ensures !taken && outside.Some? ==> e == outside.value && Unread(queues) <= Unread(old(queues)) + 1
      ensures !taken && outside.Some? ==>
        Following(w, trace + [e], Next(z, e), if e.Change? then server[e.index := e.state] else server)
      ensures !taken && outside.None? ==>
        && Following(w, trace, z, server) && accounts == old(accounts) && seen == old(seen)
        && forall i :: 0 <= i < |z.slots| ==> z.slots[i].queue == []
    {
      hide Inv, After, Serves, Shows, SameWires, Next, Unread, Reached, First;
      AtWatching(w, trace, z, server);
      e := Subscribed;
      var first: bool := *;
      var index: Option<nat> := None;
      if outside.None? || !first {
        index := Absorb(z);
      }
      taken := index.Some?;
      if index.Some? {
        e := Consume(index.value);
        StepServes(w, trace, z, e, server);
      } else if outside.Some? {
        e := outside.value;
        if outside.value.Deliver? {
          Arrive(outside.value.index, outside.value.account, z);
        } else {
          ChangeShows(z, e);
        }
        StepServes(w, trace, z, e, server);
      }
    }

    /** Waits until every account has an image and `ready` accepts the images, while changes and
        deliveries happen outside at arbitrary moments. Giving up means the images, which show the
        server's own final state once everything is delivered, are not what was waited for. */
    method Until(outside: seq<Event>, ready: seq<Option<Account>> -> bool, ghost w: World,
                 ghost server: seq<Option<Account>>)
      returns (done: bool, ghost trace: seq<Event>)
      requires Shows(w) && Inv(w) && w.stage.Watching? && Serves(w, server) && Feasible(w, outside)
      modifies this
      ensures After(w, trace).Some? && Shows(After(w, trace).value)
      ensures done ==> false !in seen && ready(accounts)
      ensures !done ==> Serves(After(w, trace).value, Applied(server, outside))
      ensures !done && false !in seen ==> !ready(accounts)
      ensures !done && false !in seen && Quiet(After(w, trace).value) ==>
        |accounts| == |server| && forall i :: 0 <= i < |server| ==> Shown(accounts[i], Applied(server, outside)[i])
    {
      trace := [];
      ghost var z := w;
      var k := 0;
      done := false;
      while true
        invariant k <= |outside| && Following(w, trace, z, Applied(server, outside[..k])) && Feasible(z, outside[k..])
        decreases 2 * (|outside| - k) + Unread(queues)
      {
        hide Next, Inv, After, Unread, Enabled, Serves, Shows, SameWires, Reached, Feasible, Quiet, Applied;
        AtWatching(w, trace, z, Applied(server, outside[..k]));
        if false !in seen && ready(accounts) {
          return true, trace;
        }
        var next := if k < |outside| then Some(outside[k]) else None;
        if next.Some? {
          FeasibleFirst(z, outside, k, server);
        }
        ghost var e;
        var taken: bool;
        taken, e := Wait(next, w, trace, z, Applied(server, outside[..k]));
        if !taken && next.None? {
          assert outside[..k] == outside;
          if false !in seen && Quiet(z) {
            NothingOutstanding(z);
            AllCurrent(z, Applied(server, outside));
          }
          return false, trace;
        }
        if taken {
          FeasibleSame(z, Next(z, e), outside[k..]);
        } else {
          k := k + 1;
        }
        trace, z := trace + [e], Next(z, e);
      }
    }
  }

  /** Nothing is still on its way. */
  ghost predicate Quiet(w: World) { forall i :: 0 <= i < |w.slots| ==> w.slots[i].wire == [] }

  lemma NothingOutstanding(w: World)
    requires Quiet(w) && forall i :: 0 <= i < |w.slots| ==> w.slots[i].queue == []
    ensures forall i :: 0 <= i < |w.slots| ==> w.slots[i].queue == [] && w.slots[i].wire == []
  {
  }

  lemma FeasibleFirst(z: World, outside: seq<Event>, k: nat, server: seq<Option<Account>>)
    requires k < |outside| && Feasible(z, outside[k..]) && Serves(z, Applied(server, outside[..k]))
    ensures (outside[k].Change? || outside[k].Deliver?) && Enabled(z, outside[k])
    ensures Feasible(Next(z, outside[k]), outside[k + 1..])
    ensures var before := Applied(server, outside[..k]);
            Applied(server, outside[..k + 1])
            == if outside[k].Change? then before[outside[k].index := outside[k].state] else before
  {
    assert outside[k..][1..] == outside[k + 1..];
    assert outside[..k + 1][..k] == outside[..k];
  }
}
