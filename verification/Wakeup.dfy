/** Waiting for a condition on shared state: a waiter registers, then observes, then parks; a writer
    changes the state, then notifies every registered waiter. All interleavings of any number of
    both. */
module Wakeup {
  import opened Common

  datatype Waiter = Idle | Registered(notified: bool) | Parked(notified: bool) | Returned

  /** The shared state, each waiter's position, and the writers between their change and their
      notification. */
  datatype World<S> = World(shared: S, waiters: map<nat, Waiter>, writing: set<nat>)

  datatype Event<S> =
    | Change(writer: nat, value: S)
    | Notify(writer: nat)
    | Register(waiter: nat)
    | Observe(waiter: nat)
    | Wake(waiter: nat)

  /** Whether the state is what a waiter is waiting for. */
  type Condition<!S> = (nat, S) -> bool

  predicate Enabled<S>(w: World<S>, e: Event<S>) {
    match e
    case Change(writer, _) => writer !in w.writing
    case Notify(writer) => writer in w.writing
    case Register(waiter) => waiter in w.waiters && w.waiters[waiter].Idle?
    case Observe(waiter) => waiter in w.waiters && w.waiters[waiter].Registered?
    case Wake(waiter) => waiter in w.waiters && w.waiters[waiter] == Parked(true)
  }

  function Nudged(waiter: Waiter): Waiter {
    match waiter
    case Registered(_) => Registered(true)
    case Parked(_) => Parked(true)
    case _ => waiter
  }

  function Next<S>(w: World<S>, e: Event<S>, done: Condition<S>): World<S>
    requires Enabled(w, e)
  {
    match e
    case Change(writer, value) => w.(shared := value, writing := w.writing + {writer})
    case Notify(writer) =>
      w.(waiters := map id | id in w.waiters :: Nudged(w.waiters[id]), writing := w.writing - {writer})
    case Register(waiter) => w.(waiters := w.waiters[waiter := Registered(false)])
    case Observe(waiter) =>
      w.(waiters := w.waiters[waiter :=
           if done(waiter, w.shared) then Returned else Parked(w.waiters[waiter].notified)])
    case Wake(waiter) => w.(waiters := w.waiters[waiter := Idle])
  }

  /** The world after a run, or nothing when some step of it was not possible. */
  function After<S>(w: World<S>, trace: seq<Event<S>>, done: Condition<S>): Option<World<S>>
    decreases |trace|
  {
    if trace == [] then Some(w)
    else if Enabled(w, trace[0]) then After(Next(w, trace[0], done), trace[1..], done)
    else None
  }

  /** A parked waiter whose condition holds has been notified, or a writer is about to notify. */
  predicate Awake<S>(w: World<S>, waiter: nat, done: Condition<S>) {
    waiter in w.waiters && w.waiters[waiter].Parked? && done(waiter, w.shared) ==>
      w.waiters[waiter].notified || w.writing != {}
  }

  /** No wakeup is lost, whatever the interleaving. */
  lemma {:induction false} NoLostWakeup<S>(w: World<S>, trace: seq<Event<S>>, done: Condition<S>, waiter: nat)
    requires Awake(w, waiter, done) && After(w, trace, done).Some?
    ensures Awake(After(w, trace, done).value, waiter, done)
    decreases |trace|
  {
    if trace != [] {
      NoLostWakeup(Next(w, trace[0], done), trace[1..], done, waiter);
    }
  }

  /** Once no writer is mid-way, no waiter sleeps on a condition that holds. */
  lemma QuietMeansAwake<S>(w: World<S>, trace: seq<Event<S>>, done: Condition<S>, waiter: nat)
    requires Awake(w, waiter, done) && After(w, trace, done).Some?
    requires var z := After(w, trace, done).value; z.writing == {} && waiter in z.waiters && done(waiter, z.shared)
    ensures After(w, trace, done).value.waiters[waiter] != Parked(false)
  {
    NoLostWakeup(w, trace, done, waiter);
  }

  /** How many of a waiter's own steps stand between it and its return. */
  function Distance(waiter: Waiter): nat {
    match waiter
    case Returned => 0
    case Registered(_) => 1
    case Idle => 2
    case Parked(_) => 3
  }

  function StepsOf<S>(trace: seq<Event<S>>, waiter: nat): nat {
    if trace == [] then 0 else
    StepsOf(trace[1..], waiter)
      + (if (trace[0].Register? || trace[0].Observe? || trace[0].Wake?) && trace[0].waiter == waiter then 1 else 0)
  }

  /** While its condition keeps holding, a waiter returns within three of its own steps. */
  lemma {:induction false} ReturnsPromptly<S>(w: World<S>, trace: seq<Event<S>>, done: Condition<S>, waiter: nat)
    requires After(w, trace, done).Some? && waiter in w.waiters && done(waiter, w.shared)
    requires forall i :: 0 <= i < |trace| && trace[i].Change? ==> done(waiter, trace[i].value)
    requires StepsOf(trace, waiter) >= Distance(w.waiters[waiter])
    ensures var z := After(w, trace, done).value; waiter in z.waiters && z.waiters[waiter] == Returned
    decreases |trace|
  {
    if trace != [] {
      var z := Next(w, trace[0], done);
      forall i | 0 <= i < |trace[1..]| && trace[1..][i].Change? ensures done(waiter, trace[1..][i].value) {
        assert trace[i + 1].Change?;
      }
      ReturnsPromptly(z, trace[1..], done, waiter);
    }
  }

  /** The value of the last change of a run, or the one before it. */
  function Written<S>(shared: S, trace: seq<Event<S>>): S {
    if trace == [] then shared
    else Written(if trace[0].Change? then trace[0].value else shared, trace[1..])
  }

  /** The writer has changed the state and not notified since. */
  predicate Midway<S>(writing: bool, trace: seq<Event<S>>, writer: nat)
    decreases |trace|
  {
    if trace == [] then writing
    else
      var mine := (trace[0].Change? || trace[0].Notify?) && trace[0].writer == writer;
      Midway(if mine then trace[0].Change? else writing, trace[1..], writer)
  }

  /** Over every run the shared state is the last change's, and a writer is under way exactly between its
      change and its notification. */
  lemma {:induction false} StateIsWritten<S>(w: World<S>, trace: seq<Event<S>>, done: Condition<S>, writer: nat)
    requires After(w, trace, done).Some?
    ensures After(w, trace, done).value.shared == Written(w.shared, trace)
    ensures writer in After(w, trace, done).value.writing <==> Midway(writer in w.writing, trace, writer)
    decreases |trace|
  {
    if trace != [] {
      StateIsWritten(Next(w, trace[0], done), trace[1..], done, writer);
    }
  }

  /** A notification reaches every waiter that registered before it and has not returned. */
  lemma NotifyReachesAll<S>(w: World<S>, trace: seq<Event<S>>, done: Condition<S>, writer: nat, waiter: nat)
    requires writer in w.writing && waiter in w.waiters
    requires w.waiters[waiter].Registered? || w.waiters[waiter].Parked?
    requires After(w, [Notify(writer)] + trace, done).Some? && StepsOf(trace, waiter) == 0
    ensures var z := After(w, [Notify(writer)] + trace, done).value;
            waiter in z.waiters && (z.waiters[waiter] == Registered(true) || z.waiters[waiter] == Parked(true))
  {
    assert ([Notify(writer)] + trace)[1..] == trace;
    StaysNotified(Next(w, Notify(writer), done), trace, done, waiter);
  }

  lemma {:induction false} StaysNotified<S>(w: World<S>, trace: seq<Event<S>>, done: Condition<S>, waiter: nat)
    requires waiter in w.waiters && (w.waiters[waiter] == Registered(true) || w.waiters[waiter] == Parked(true))
    requires After(w, trace, done).Some? && StepsOf(trace, waiter) == 0
    ensures waiter in After(w, trace, done).value.waiters
    ensures After(w, trace, done).value.waiters[waiter] == w.waiters[waiter]
    decreases |trace|
  {
    if trace != [] {
      StaysNotified(Next(w, trace[0], done), trace[1..], done, waiter);
    }
  }
}
