/** Pending account writes, indexed by write id and by account, and settled by notifications. */
module AccountUpdates {
  import opened Common

  type Pubkey = nat

  /** The writes still outstanding, the ids awaited, and the counters of the current window. */
  datatype Abs = Abs(writes: set<(nat, Pubkey)>, waiters: set<nat>, woken: set<nat>, observed: nat, superseded: nat)

  const START: Abs := Abs({}, {}, {}, 0, 0)

  datatype Event =
    | Track(id: nat, account: Pubkey)
    | AwaitId(id: nat)
    | Observe(account: Pubkey, id: nat)
    | Take
    | Shut

  ghost function Ids(writes: set<(nat, Pubkey)>): set<nat> { set w | w in writes :: w.0 }

  /** The writes one notification settles: those of its account up to its id. */
  ghost function Settles(writes: set<(nat, Pubkey)>, account: Pubkey, id: nat): set<(nat, Pubkey)> {
    set w | w in writes && w.1 == account && w.0 <= id
  }

  /** Those of them a newer write has overtaken. */
  ghost function Older(writes: set<(nat, Pubkey)>, account: Pubkey, id: nat): set<(nat, Pubkey)> {
    set w | w in writes && w.1 == account && w.0 < id
  }

  /** Waiters whose id has nothing left outstanding are woken. */
  ghost function Wake(a: Abs): Abs {
    a.(waiters := a.waiters * Ids(a.writes), woken := a.woken + (a.waiters - Ids(a.writes)))
  }

  ghost function Next(a: Abs, e: Event): Abs {
    match e
    case Track(id, account) => a.(writes := a.writes + {(id, account)})
    case AwaitId(id) => if id in Ids(a.writes) then a.(waiters := a.waiters + {id}) else a
    case Observe(account, id) =>
      Wake(a.(writes := a.writes - Settles(a.writes, account, id),
              observed := a.observed + (if (id, account) in a.writes then 1 else 0),
              superseded := a.superseded + |Older(a.writes, account, id)|))
    case Take => a.(observed := 0, superseded := 0)
    case Shut => a.(waiters := {})
  }

  // ---- the double-indexed state ---------------------------------------------------------------------

  /** An index entry. */
  predicate Holds(index: map<nat, set<nat>>, key: nat, value: nat) { key in index && value in index[key] }

  ghost function Flatten(pending: map<nat, set<Pubkey>>): (r: set<(nat, Pubkey)>)
    ensures forall id: nat, account: nat :: (id, account) in r <==> Holds(pending, id, account)
  {
    set id, account | id in pending && account in pending[id] :: (id, account)
  }

  function Dropped(pending: map<nat, set<Pubkey>>, id: nat, account: Pubkey): map<nat, set<Pubkey>>
    requires id in pending
  {
    if pending[id] - {account} == {} then pending - {id} else pending[id := pending[id] - {account}]
  }

  lemma FlattenDropped(pending: map<nat, set<Pubkey>>, id: nat, account: Pubkey)
    requires id in pending
    ensures Flatten(Dropped(pending, id, account)) == Flatten(pending) - {(id, account)}
  {
    var after := Dropped(pending, id, account);
    forall i: nat, a: nat ensures Holds(after, i, a) <==> Holds(pending, i, a) && (i, a) != (id, account) {
      if i == id && a in pending[id] && a != account {
        assert a in pending[id] - {account};
      }
    }
  }

  /** The same entries, read from either side. */
  ghost predicate Mirrors(pending: map<nat, set<nat>>, byAccount: map<nat, set<nat>>) {
    forall id: nat, account: nat :: Holds(pending, id, account) <==> Holds(byAccount, account, id)
  }

  lemma MirrorsDropped(pending: map<nat, set<nat>>, byAccount: map<nat, set<nat>>, id: nat, account: nat)
    requires Mirrors(pending, byAccount) && Holds(pending, id, account)
    ensures Holds(byAccount, account, id)
    ensures Mirrors(Dropped(pending, id, account), byAccount[account := byAccount[account] - {id}])
  {
    var after, b := Dropped(pending, id, account), byAccount[account := byAccount[account] - {id}];
    FlattenDropped(pending, id, account);
    forall i: nat, a: nat ensures Holds(after, i, a) <==> Holds(b, a, i) {
      assert Holds(after, i, a) <==> (i, a) in Flatten(after);
      assert Holds(pending, i, a) <==> (i, a) in Flatten(pending);
    }
  }

  lemma MirrorsTracked(pending: map<nat, set<nat>>, byAccount: map<nat, set<nat>>, id: nat, account: nat)
    requires Mirrors(pending, byAccount)
    ensures var targets := if id in pending then pending[id] else {};
            var ids := if account in byAccount then byAccount[account] else {};
            Mirrors(pending[id := targets + {account}], byAccount[account := ids + {id}])
  {
    var targets := if id in pending then pending[id] else {};
    var ids := if account in byAccount then byAccount[account] else {};
    var p, b := pending[id := targets + {account}], byAccount[account := ids + {id}];
    forall i: nat, a: nat ensures Holds(p, i, a) <==> Holds(b, a, i) {
      assert Holds(pending, i, a) <==> Holds(byAccount, a, i);
    }
  }

  lemma FlattenTracked(pending: map<nat, set<Pubkey>>, id: nat, account: Pubkey)
    ensures var targets := if id in pending then pending[id] else {};
            Flatten(pending[id := targets + {account}]) == Flatten(pending) + {(id, account)}
  {
  }

  lemma WakeKeeps(a: Abs)
    ensures Wake(a).writes == a.writes && Wake(a).observed == a.observed && Wake(a).superseded == a.superseded
  {
  }

  /** `a` after a set of older writes has been settled. */
  ghost function Overtake(a: Abs, gone: set<(nat, Pubkey)>): Abs {
    Wake(a.(writes := a.writes - gone, superseded := a.superseded + |gone|))
  }

  /** Waking as writes settle one by one wakes the same ids as waking once at the end. */
  lemma OvertakeOne(a: Abs, gone: set<(nat, Pubkey)>, w: (nat, Pubkey))
    requires w !in gone
    ensures var v := Overtake(a, gone).(superseded := Overtake(a, gone).superseded + 1);
            Wake(v.(writes := v.writes - {w})) == Overtake(a, gone + {w})
  {
    assert a.writes - (gone + {w}) == (a.writes - gone) - {w};
    assert Ids(a.writes - (gone + {w})) <= Ids(a.writes - gone);
  }

  lemma OvertakeNone(a: Abs)
    requires a.waiters <= Ids(a.writes)
    ensures Overtake(a, {}) == a
  {
    assert a.writes - {} == a.writes;
  }

  /** Settling the written id and then what it overtook is one observation. */
  lemma ObserveSplits(a: Abs, account: Pubkey, id: nat)
    requires a.waiters <= Ids(a.writes)
    ensures var w := (id, account);
            var v := if w in a.writes then Wake(a.(writes := a.writes - {w}, observed := a.observed + 1)) else a;
            Overtake(v, Older(v.writes, account, id)) == Next(a, Observe(account, id))
  {
    var w := (id, account);
    var v := if w in a.writes then Wake(a.(writes := a.writes - {w}, observed := a.observed + 1)) else a;
    var older := Older(a.writes, account, id);
    assert v.writes == a.writes - {w};
    assert Older(v.writes, account, id) == older;
    assert v.writes - older == a.writes - Settles(a.writes, account, id);
    assert Ids(v.writes - older) <= Ids(v.writes);
  }

  lemma LeastExists(ids: set<nat>) returns (least: nat)
    requires ids != {}
    ensures least in ids && forall id :: id in ids ==> least <= id
  {
    var x :| x in ids;
    if ids == {x} {
      least := x;
    } else {
      assert forall id :: id in ids ==> id == x || id in ids - {x};
      assert ids - {x} != {};
      least := LeastExists(ids - {x});
      if x < least {
        least := x;
      }
    }
  }

  /** An account whose smallest pending id is not older has no older write at all. */
  lemma NoneOlder(pending: map<nat, set<nat>>, byAccount: map<nat, set<nat>>, account: nat, id: nat)
    requires Mirrors(pending, byAccount)
    requires account in byAccount ==> forall other :: other in byAccount[account] ==> id <= other
    ensures Older(Flatten(pending), account, id) == {}
  {
    forall w | w in Flatten(pending) && w.1 == account ensures id <= w.0 {
      assert Holds(pending, w.0, w.1);
    }
  }

  class AccountState {
    var pending: map<nat, set<Pubkey>>
    var byAccount: map<Pubkey, set<nat>>
    var waiters: set<nat>
    var woken: set<nat>
    var observed: nat
    var superseded: nat

    /** The two indexes are mirror images, no pending entry is empty, and every waiter's id is
        pending. */
    ghost predicate Valid()
      reads this
    {
      && (forall id :: id in pending ==> pending[id] != {})
      && Mirrors(pending, byAccount)
      && waiters <= pending.Keys
    }

    ghost function View(): Abs
      reads this
    {
      Abs(Flatten(pending), waiters, woken, observed, superseded)
    }

    constructor ()
      ensures Valid() && View() == START
    {
      pending, byAccount, waiters, woken, observed, superseded := map[], map[], {}, {}, 0, 0;
    }

    /** `settle`: drops one write from both indexes and wakes the id's waiter with its last write.
        Both lookups succeed because the write is pending. */
    method Settle(id: nat, account: Pubkey)
      requires Valid() && id in pending && account in pending[id]
      modifies this
      ensures Valid()
      ensures View() == Wake(old(View()).(writes := old(View()).writes - {(id, account)}))
    {
      assert Holds(pending, id, account) && Holds(byAccount, account, id);
      var targets := pending[id] - {account};
      pending := pending[id := targets];
      byAccount := byAccount[account := byAccount[account] - {id}];
      if targets == {} {
        pending := pending - {id};
        if id in waiters {
          waiters, woken := waiters - {id}, woken + {id};
        }
      }
      FlattenDropped(old(pending), id, account);
      MirrorsDropped(old(pending), old(byAccount), id, account);
      hide Mirrors, Holds, Flatten;
      assert pending == Dropped(old(pending), id, account);
      IdsArePending();
    }

    /** `track`. */
    method TrackWrite(id: nat, account: Pubkey)
      requires Valid()
      modifies this
      ensures Valid() && View() == Next(old(View()), Track(id, account))
    {
      FlattenTracked(pending, id, account);
      MirrorsTracked(pending, byAccount, id, account);
      pending := pending[id := (if id in pending then pending[id] else {}) + {account}];
      byAccount := byAccount[account := (if account in byAccount then byAccount[account] else {}) + {id}];
    }

    /** `await_id` up to parking: resolves at once for settled or untracked ids. */
    method Await(id: nat) returns (parked: bool)
      requires Valid()
      modifies this
      ensures Valid() && View() == Next(old(View()), AwaitId(id))
      ensures parked <==> id in Ids(old(View()).writes)
    {
      IdsArePending();
      parked := id in pending;
      if parked {
        waiters := waiters + {id};
      }
    }

    /** `take_outcome`. */
    method TakeOutcome() returns (seen: nat, overtaken: nat)
      requires Valid()
      modifies this
      ensures Valid() && View() == Next(old(View()), Take)
      ensures seen == old(observed) && overtaken == old(superseded)
    {
      seen, overtaken := observed, superseded;
      observed, superseded := 0, 0;
    }

    /** `on_close`. */
    method Close()
      requires Valid()
      modifies this
      ensures Valid() && View() == Next(old(View()), Shut)
    {
      waiters := {};
    }

    /** The loop of `observe`: settles every older id of the account, smallest first. */
    method SettleOlder(account: Pubkey, id: nat)
      requires Valid()
      modifies this
      ensures Valid() && View() == Overtake(old(View()), Older(old(View()).writes, account, id))
    {
      ghost var before := View();
      ghost var older := Older(before.writes, account, id);
      ghost var gone: set<(nat, Pubkey)> := {};
      IdsArePending();
      OvertakeNone(before);
      while account in byAccount && byAccount[account] != {}
        invariant Valid() && gone <= older && View() == Overtake(before, gone)
        invariant older - gone == Older(View().writes, account, id)
        decreases |View().writes|
      {
        ghost var least := LeastExists(byAccount[account]);
        var first :| first in byAccount[account] && forall other :: other in byAccount[account] ==> first <= other;
        if first >= id {
          break;
        }
        SettleFirst(before, gone, account, id, first);
        gone := gone + {(first, account)};
      }
      NoneOlder(pending, byAccount, account, id);
      assert gone == older;
    }

    /** One round of the loop. */
    method SettleFirst(ghost before: Abs, ghost gone: set<(nat, Pubkey)>, account: Pubkey, id: nat, first: nat)
      requires Valid() && Holds(byAccount, account, first) && first < id
      requires View() == Overtake(before, gone) && gone <= Older(before.writes, account, id)
      requires Older(before.writes, account, id) - gone == Older(View().writes, account, id)
      modifies this
      ensures Valid() && View() == Overtake(before, gone + {(first, account)})
      ensures (first, account) in old(View()).writes
      ensures gone + {(first, account)} <= Older(before.writes, account, id)
      ensures Older(before.writes, account, id) - (gone + {(first, account)}) == Older(View().writes, account, id)
      ensures |View().writes| < |old(View()).writes|
    {
      assert Holds(pending, first, account);
      assert (first, account) in Flatten(pending) && (first, account) in Older(View().writes, account, id);
      OvertakeOne(before, gone, (first, account));
      WakeKeeps(old(View()).(superseded := superseded + 1, writes := old(View()).writes - {(first, account)}));
      superseded := superseded + 1;
      Settle(first, account);
      assert View().writes == old(View()).writes - {(first, account)};
    }

    /** `observe`: settles the written id if it is pending, then whatever it overtook. */
    method ObserveWrite(account: Pubkey, id: nat)
      requires Valid()
      modifies this
      ensures Valid() && View() == Next(old(View()), Observe(account, id))
    {
      hide Wake, Overtake, Older, Next, Mirrors;
      IdsArePending();
      ObserveSplits(View(), account, id);
      assert (id, account) in View().writes <==> Holds(pending, id, account);
      if id in pending && account in pending[id] {
        observed := observed + 1;
        Settle(id, account);
      }
      SettleOlder(account, id);
    }

    lemma IdsArePending()
      requires forall id :: id in pending ==> pending[id] != {}
      ensures Ids(Flatten(pending)) == pending.Keys
    {
      forall id | id in pending ensures id in Ids(Flatten(pending)) {
        var account :| account in pending[id];
        assert Holds(pending, id, account);
        assert (id, account) in Flatten(pending);
      }
    }
  }

  // ---- whole runs -------------------------------------------------------------------------------------

  ghost function Run(a: Abs, events: seq<Event>): Abs
    decreases |events|
  {
    if events == [] then a else Run(Next(a, events[0]), events[1..])
  }

  /** Every waiter's id still has a write outstanding. */
  ghost predicate Sound(a: Abs) { a.waiters <= Ids(a.writes) }

  lemma {:induction false} RunSound(a: Abs, events: seq<Event>)
    requires Sound(a)
    ensures Sound(Run(a, events))
    decreases |events|
  {
    if events != [] {
      var e := events[0];
      if e.Track? {
        assert Ids(a.writes) <= Ids(a.writes + {(e.id, e.account)});
      }
      RunSound(Next(a, e), events[1..]);
    }
  }

  /** A tracked write counts when it was not already outstanding; taking a window's counters hands
      them over. */
  ghost function Tracked(a: Abs, events: seq<Event>): nat
    decreases |events|
  {
    if events == [] then 0 else
    (if events[0].Track? && (events[0].id, events[0].account) !in a.writes then 1 else 0)
    + Tracked(Next(a, events[0]), events[1..])
  }

  ghost function Taken(a: Abs, events: seq<Event>): nat
    decreases |events|
  {
    if events == [] then 0 else
    (if events[0].Take? then a.observed + a.superseded else 0) + Taken(Next(a, events[0]), events[1..])
  }

  lemma SettlesCount(writes: set<(nat, Pubkey)>, account: Pubkey, id: nat)
    ensures |writes - Settles(writes, account, id)| + |Older(writes, account, id)|
            + (if (id, account) in writes then 1 else 0) == |writes|
  {
    var settled, older := Settles(writes, account, id), Older(writes, account, id);
    if (id, account) in writes {
      assert settled == older + {(id, account)};
    } else {
      assert settled == older;
    }
    assert writes == (writes - settled) + settled;
  }

  lemma StepConserved(a: Abs, e: Event)
    ensures var z := Next(a, e);
            z.observed + z.superseded + |z.writes| + (if e.Take? then a.observed + a.superseded else 0)
            == a.observed + a.superseded + |a.writes| + (if e.Track? && (e.id, e.account) !in a.writes then 1 else 0)
  {
    if e.Observe? {
      SettlesCount(a.writes, e.account, e.id);
    } else if e.Track? && (e.id, e.account) in a.writes {
      assert a.writes + {(e.id, e.account)} == a.writes;
    }
  }

  /** Conservation over every run: each distinct tracked write is observed, superseded or still
      outstanding, and is accounted for once. */
  lemma {:induction false} WritesConserved(a: Abs, events: seq<Event>)
    ensures var z := Run(a, events);
            z.observed + z.superseded + |z.writes| + Taken(a, events)
            == a.observed + a.superseded + |a.writes| + Tracked(a, events)
    decreases |events|
  {
    if events != [] {
      var e := events[0];
      StepConserved(a, e);
      WritesConserved(Next(a, e), events[1..]);
    }
  }

  ghost function WithId(writes: set<(nat, Pubkey)>, id: nat): set<(nat, Pubkey)> { set w | w in writes && w.0 == id }

  ghost function BelowId(writes: set<(nat, Pubkey)>, id: nat): set<(nat, Pubkey)> { set w | w in writes && w.0 < id }

  /** Each settled write is counted once, as observed when it is the notified one and as superseded when a
      newer one overtook it. */
  lemma SettledClassified(a: Abs, account: Pubkey, id: nat)
    ensures var z := Next(a, Observe(account, id));
            var settled := a.writes - z.writes;
            && z.observed == a.observed + |WithId(settled, id)|
            && z.superseded == a.superseded + |BelowId(settled, id)|
            && WithId(settled, id) + BelowId(settled, id) == settled
  {
    var z := Next(a, Observe(account, id));
    var settled := a.writes - z.writes;
    assert settled == Settles(a.writes, account, id);
    assert BelowId(settled, id) == Older(a.writes, account, id);
    if (id, account) in a.writes {
      assert WithId(settled, id) == {(id, account)};
    } else {
      assert WithId(settled, id) == {};
    }
  }

  // ---- who is woken -----------------------------------------------------------------------------------

  /** Some write of this id is still unsettled. */
  ghost predicate Outstanding(a: Abs, id: nat) { exists account: nat :: (id, account) in a.writes }

  lemma IdsMean(a: Abs, id: nat)
    ensures id in Ids(a.writes) <==> Outstanding(a, id)
  {
    if id in Ids(a.writes) {
      var w :| w in a.writes && w.0 == id;
      assert (id, w.1) in a.writes;
    }
    if account: nat :| (id, account) in a.writes {
      assert (id, account).0 == id;
    }
  }

  /** No step but closing loses a waiter: it goes on waiting while a write of its id is outstanding and is
      woken when none is; nobody else is ever woken. */
  lemma StepWakes(a: Abs, e: Event, id: nat)
    requires Sound(a)
    ensures !e.Shut? && id in a.waiters ==>
      if Outstanding(Next(a, e), id) then id in Next(a, e).waiters else id in Next(a, e).woken
    ensures id in Next(a, e).woken <==>
      id in a.woken || (id in a.waiters && !e.Shut? && !Outstanding(Next(a, e), id))
    ensures id in Next(a, e).waiters ==> Outstanding(Next(a, e), id)
    ensures id in Next(a, e).waiters && id !in a.waiters ==> e == AwaitId(id)
  {
    IdsMean(a, id);
    IdsMean(Next(a, e), id);
    if e.Track? {
      assert Ids(a.writes) <= Ids(a.writes + {(e.id, e.account)});
    }
  }

  /** Over every run without a close, an id that is waited for is woken or still has a write outstanding; so
      it is woken as soon as its last write is settled, and stays so. */
  lemma {:induction false} WaiterIsWoken(a: Abs, events: seq<Event>, id: nat)
    requires Sound(a) && (id in a.waiters || id in a.woken)
    requires forall i :: 0 <= i < |events| ==> !events[i].Shut?
    ensures var z := Run(a, events); id in z.woken || (id in z.waiters && Outstanding(z, id))
    decreases |events|
  {
    if events == [] {
      IdsMean(a, id);
    } else {
      StepWakes(a, events[0], id);
      RunSound(a, [events[0]]);
      assert [events[0]][1..] == [] && Run(a, [events[0]]) == Next(a, events[0]);
      WaiterIsWoken(Next(a, events[0]), events[1..], id);
    }
  }

  /** Awaiting a pending id: from then on, without a close, the id is woken at every later moment at which
      none of its writes is outstanding. */
  lemma AwaitedIsWoken(a: Abs, id: nat, events: seq<Event>)
    requires Sound(a) && Outstanding(a, id) && forall i :: 0 <= i < |events| ==> !events[i].Shut?
    ensures var z := Run(Next(a, AwaitId(id)), events); !Outstanding(z, id) ==> id in z.woken
  {
    IdsMean(a, id);
    WaiterIsWoken(Next(a, AwaitId(id)), events, id);
  }

  /** And never sooner: an id that comes to be woken was waited for and had nothing outstanding at some
      moment of the run. */
  lemma {:induction false} WokenHadSettled(a: Abs, events: seq<Event>, id: nat) returns (k: nat)
    requires Sound(a) && id !in a.woken && id in Run(a, events).woken
    ensures k < |events| && id in Run(a, events[..k]).waiters && !Outstanding(Run(a, events[..k + 1]), id)
    decreases |events|
  {
    var e := events[0];
    StepWakes(a, e, id);
    if id in Next(a, e).woken {
      assert events[..0] == [] && events[..1] == [e] && [e][1..] == [];
      assert Run(a, [e]) == Run(Next(a, e), []);
      return 0;
    }
    RunSound(a, [e]);
    assert [e][1..] == [] && Run(a, [e]) == Next(a, e);
    k := WokenHadSettled(Next(a, e), events[1..], id);
    assert events[..k + 1][1..] == events[1..][..k] && events[..k + 2][1..] == events[1..][..k + 1];
    k := k + 1;
  }

  /** An observation touches only its own account's writes up to its id. */
  lemma ObserveIsExact(a: Abs, account: Pubkey, id: nat, w: (nat, Pubkey))
    requires w in a.writes
    ensures w in Next(a, Observe(account, id)).writes <==> !(w.1 == account && w.0 <= id)
  {
  }

  // ---- the fanout window --------------------------------------------------------------------------------

  const WRAP: int := U64_MAX + 1

  /** `copy_three`: the source and two destinations value `v` picks from the pool. */
  function CopyFirst(length: nat, v: u64): nat
    requires length > 0
  {
    ((((v - 1) % WRAP) * 3) % WRAP) % length
  }

  function Destinations(pool: seq<Pubkey>, v: u64): (Pubkey, Pubkey)
    requires pool != []
  {
    var first := CopyFirst(|pool|, v);
    (pool[(first + 1) % |pool|], pool[(first + 2) % |pool|])
  }

  lemma WrapOnce(x: nat, n: nat)
    requires n <= x < 2 * n
    ensures x % n == x - n
  {
    assert x / n == 1;
  }

  lemma DestinationsDiffer(pool: seq<Pubkey>, v: u64)
    requires |pool| >= 2 && Distinct(pool)
    ensures Destinations(pool, v).0 != Destinations(pool, v).1
  {
    hide CopyFirst;
    var n, first := |pool|, CopyFirst(|pool|, v);
    CopyFirstBound(n, v);
    if first + 2 < n {
      SmallMod(first + 1, n);
      SmallMod(first + 2, n);
    } else if first + 2 == n {
      SmallMod(first + 1, n);
      WrapOnce(first + 2, n);
    } else {
      WrapOnce(first + 1, n);
      WrapOnce(first + 2, n);
    }
    var i, j := (first + 1) % n, (first + 2) % n;
    assert pool[i] != pool[j];
  }

  lemma CopyFirstBound(n: nat, v: u64)
    requires n > 0
    ensures CopyFirst(n, v) < n
  {
  }

  lemma SmallMod(x: nat, n: nat)
    requires x < n
    ensures x % n == x
  {
  }

  /** While the pool lasts, value `v` writes the second and third account of the `v`-th three. */
  lemma DestinationsTile(pool: seq<Pubkey>, v: u64)
    requires 1 <= v && 3 * v <= |pool| <= U64_MAX
    ensures Destinations(pool, v) == (pool[3 * v - 2], pool[3 * v - 1])
  {
    SmallMod(v - 1, WRAP);
    SmallMod((v - 1) * 3, WRAP);
    SmallMod(3 * v - 3, |pool|);
    SmallMod(3 * v - 2, |pool|);
    SmallMod(3 * v - 1, |pool|);
  }

  /** The writes a window of `n` admitted ids after `cursor` tracks. */
  ghost function Window(pool: seq<Pubkey>, cursor: nat, n: nat): seq<(nat, Pubkey)>
    requires pool != [] && cursor + n <= U64_MAX
  {
    if n == 0 then [] else
    var id := cursor + n;
    Window(pool, cursor, n - 1) + [(id, Destinations(pool, id).0), (id, Destinations(pool, id).1)]
  }

  lemma {:induction false} WindowDistinct(pool: seq<Pubkey>, cursor: nat, n: nat)
    requires |pool| >= 2 && Distinct(pool) && cursor + n <= U64_MAX
    ensures |Window(pool, cursor, n)| == 2 * n && Distinct(Window(pool, cursor, n))
    ensures forall i :: 0 <= i < 2 * n ==> Window(pool, cursor, n)[i].0 <= cursor + n
  {
    if n > 0 {
      WindowDistinct(pool, cursor, n - 1);
      DestinationsDiffer(pool, cursor + n);
    }
  }

  /** The writes a run tracks, in order. */
  ghost function Tracks(events: seq<Event>): seq<(nat, Pubkey)> {
    if events == [] then [] else
    (if events[0].Track? then [(events[0].id, events[0].account)] else []) + Tracks(events[1..])
  }

  lemma {:induction false} FreshTracksCount(a: Abs, events: seq<Event>)
    requires Distinct(Tracks(events))
    requires forall w :: w in Tracks(events) ==> w !in a.writes
    ensures Tracked(a, events) == |Tracks(events)|
    decreases |events|
  {
    if events != [] {
      var e, rest := events[0], events[1..];
      if e.Track? {
        var w := (e.id, e.account);
        assert Tracks(events) == [w] + Tracks(rest);
        assert Tracks(events)[0] == w && Tracks(events)[1..] == Tracks(rest);
        forall x | x in Tracks(rest) ensures x !in Next(a, e).writes && x in Tracks(events) {
          var i :| 0 <= i < |Tracks(rest)| && Tracks(rest)[i] == x;
          assert Tracks(events)[i + 1] == x;
        }
        forall i, j | 0 <= i < j < |Tracks(rest)| ensures Tracks(rest)[i] != Tracks(rest)[j] {
          assert Tracks(events)[i + 1] == Tracks(rest)[i] && Tracks(events)[j + 1] == Tracks(rest)[j];
        }
      } else {
        assert Tracks(events) == Tracks(rest);
      }
      FreshTracksCount(Next(a, e), rest);
    }
  }

  /** A window that tracked both destinations of `n` admitted copies and has settled tallies exactly
      two per admitted id, however notifications interleaved with the tracking. */
  lemma SettledWindowTallies(a: Abs, events: seq<Event>, pool: seq<Pubkey>, cursor: nat, n: nat)
    requires a.writes == {} && a.observed == a.superseded == 0
    requires |pool| >= 2 && Distinct(pool) && cursor + n <= U64_MAX
    requires Tracks(events) == Window(pool, cursor, n) && Taken(a, events) == 0
    requires Run(a, events).writes == {}
    ensures Run(a, events).observed + Run(a, events).superseded == 2 * n
  {
    WindowDistinct(pool, cursor, n);
    FreshTracksCount(a, events);
    WritesConserved(a, events);
  }

  /** With a pool of one key both destinations are the same write, so the tally would be one. */
  lemma SinglePoolCollides(key: Pubkey, v: u64)
    ensures Destinations([key], v).0 == Destinations([key], v).1
  {
  }
}
