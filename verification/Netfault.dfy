/** The fault proxy's gate: persistent rules, one-shot interceptions, held and stalled operations,
    and the restore that must always set them free. */
module Netfault {
  import opened Common

  datatype Transport = Http | Ws
  datatype Stage = Request | Response | Notification

  datatype Operation = Operation(transport: Transport, stage: Stage, name: string,
                                 signatures: seq<string>, accounts: seq<string>)

  datatype Selector = Selector(transport: Option<Transport>, stages: seq<Stage>, names: seq<string>,
                               signature: Option<string>, account: Option<string>)

  /** `Selector::matches`: an absent criterion matches everything. */
  predicate Matches(s: Selector, op: Operation) {
    && (s.transport.None? || s.transport.value == op.transport)
    && (s.stages == [] || op.stage in s.stages)
    && (s.names == [] || op.name in s.names)
    && (s.signature.None? || s.signature.value in op.signatures)
    && (s.account.None? || s.account.value in op.accounts)
  }

  // ---- selectors as they are built --------------------------------------------------------------------

  /** The builder calls that narrow a selector. */
  datatype Narrowing =
    | Over(transport: Transport)
    | During(stage: Stage)
    | Carrying(signature: string)
    | Touching(account: string)

  function Narrowed(s: Selector, n: Narrowing): Selector {
    match n
    case Over(transport) => s.(transport := Some(transport))
    case During(stage) => s.(stages := s.stages + [stage])
    case Carrying(signature) => s.(signature := Some(signature))
    case Touching(account) => s.(account := Some(account))
  }

  function Built(names: seq<string>, ns: seq<Narrowing>): Selector {
    if ns == [] then Selector(None, [], names, None, None)
    else Narrowed(Built(names, ns[..|ns| - 1]), ns[|ns| - 1])
  }

  /** The operation meets this narrowing. */
  predicate Meets(op: Operation, n: Narrowing) {
    match n
    case Over(transport) => op.transport == transport
    case During(stage) => op.stage == stage
    case Carrying(signature) => signature in op.signatures
    case Touching(account) => account in op.accounts
  }

  predicate SameKind(m: Narrowing, n: Narrowing) {
    m.Over? == n.Over? && m.During? == n.During? && m.Carrying? == n.Carrying?
  }

  /** The last narrowing of its kind. */
  ghost predicate Final(ns: seq<Narrowing>, i: int) {
    0 <= i < |ns| && forall j :: i < j < |ns| ==> !SameKind(ns[j], ns[i])
  }

  ghost predicate AnyStage(ns: seq<Narrowing>) { exists i :: 0 <= i < |ns| && ns[i].During? }

  ghost predicate StageMet(ns: seq<Narrowing>, op: Operation) {
    exists i :: 0 <= i < |ns| && ns[i].During? && Meets(op, ns[i])
  }

  lemma FinalStep(ns: seq<Narrowing>, i: nat)
    requires i < |ns|
    ensures Final(ns, |ns| - 1)
    ensures i < |ns| - 1 ==>
      ns[..|ns| - 1][i] == ns[i] && (Final(ns, i) <==> Final(ns[..|ns| - 1], i) && !SameKind(ns[|ns| - 1], ns[i]))
  {
  }

  lemma {:induction false} StagesHold(names: seq<string>, ns: seq<Narrowing>, op: Operation)
    ensures Built(names, ns).names == names
    ensures Built(names, ns).stages == [] <==> !AnyStage(ns)
    ensures op.stage in Built(names, ns).stages <==> StageMet(ns, op)
  {
    if ns != [] {
      var init, last := ns[..|ns| - 1], ns[|ns| - 1];
      StagesHold(names, init, op);
      assert ns == init + [last];
      assert forall n :: n in ns <==> n in init || n == last;
      assert forall xs: seq<Narrowing> :: StageMet(xs, op) <==> During(op.stage) in xs;
      assert AnyStage(ns) <==> AnyStage(init) || last.During?;
    }
  }

  /** What the selector asks of the operation in the narrowings of one kind. */
  predicate Asks(s: Selector, op: Operation, kind: Narrowing) {
    match kind
    case Over(_) => s.transport.None? || s.transport.value == op.transport
    case During(_) => true
    case Carrying(_) => s.signature.None? || s.signature.value in op.signatures
    case Touching(_) => s.account.None? || s.account.value in op.accounts
  }

  lemma {:induction false} LastHolds(names: seq<string>, ns: seq<Narrowing>, op: Operation, kind: Narrowing)
    requires !kind.During?
    ensures Asks(Built(names, ns), op, kind) <==>
            forall i :: Final(ns, i) && SameKind(ns[i], kind) ==> Meets(op, ns[i])
  {
    if ns != [] {
      var init, last := ns[..|ns| - 1], |ns| - 1;
      LastHolds(names, init, op, kind);
      forall i: nat | i < |ns|
        ensures Final(ns, last)
        ensures i < last ==> init[i] == ns[i] && (Final(ns, i) <==> Final(init, i) && !SameKind(ns[last], ns[i]))
      {
        FinalStep(ns, i);
      }
      if !SameKind(ns[last], kind) {
        assert Asks(Built(names, ns), op, kind) == Asks(Built(names, init), op, kind);
        forall i | Final(init, i) && SameKind(init[i], kind) ensures Final(ns, i) && ns[i] == init[i] {
        }
        forall i | Final(ns, i) && SameKind(ns[i], kind) ensures Final(init, i) && ns[i] == init[i] {
        }
      }
    }
  }

  /** Which operations a selector takes: one of its methods, if it names any; one of its stages, if it names
      any; and the last transport, signature and account it was narrowed to. */
  lemma SelectorMeans(names: seq<string>, ns: seq<Narrowing>, op: Operation)
    ensures Matches(Built(names, ns), op) <==>
      && (names == [] || op.name in names)
      && (AnyStage(ns) ==> StageMet(ns, op))
      && (forall i :: Final(ns, i) && !ns[i].During? ==> Meets(op, ns[i]))
  {
    hide Final, AnyStage, StageMet, Built;
    StagesHold(names, ns, op);
    LastHolds(names, ns, op, Over(op.transport));
    LastHolds(names, ns, op, Carrying(""));
    LastHolds(names, ns, op, Touching(""));
  }

  datatype Decision = Release | Discard | Reject(message: string)

  datatype Effect = Watch | Refuse(message: string) | Stall

  /** `id` stands for the rule's shared hit counter, which its handle also holds. */
  datatype Rule = Rule(id: nat, selector: Selector, effect: Effect)

  /** `armed` is false once the interception has delivered its operation. */
  datatype Trap = Trap(id: nat, selector: Selector, armed: bool)

  datatype State = State(traps: seq<Trap>, rules: seq<Rule>, unfired: seq<Trap>, observed: seq<nat>,
                         holding: int, sequence: nat, resets: nat, hits: map<nat, nat>)

  const FRESH: State := State([], [], [], [0, 0, 0], 0, 0, 0, map[])

  function StageIndex(s: Stage): (i: nat)
    ensures i < 3
  {
    match s
    case Request => 0
    case Response => 1
    case Notification => 2
  }

  function Record(hits: map<nat, nat>, id: nat): map<nat, nat> {
    hits[id := (if id in hits then hits[id] else 0) + 1]
  }

  /** Every matching observer records a hit, in rule order. */
  function Watched(hits: map<nat, nat>, rules: seq<Rule>, op: Operation): map<nat, nat>
  {
    if rules == [] then hits else
    var r := rules[|rules| - 1];
    var earlier := Watched(hits, rules[..|rules| - 1], op);
    if r.effect.Watch? && Matches(r.selector, op) then Record(earlier, r.id) else earlier
  }

  predicate Decides(r: Rule, op: Operation) { !r.effect.Watch? && Matches(r.selector, op) }

  /** The first rejecting or stalling rule that matches. */
  function Deciding(rules: seq<Rule>, op: Operation): (r: Option<nat>)
    ensures r.Some? ==> r.value < |rules| && Decides(rules[r.value], op)
    ensures r.Some? ==> forall i :: 0 <= i < r.value ==> !Decides(rules[i], op)
    ensures r.None? ==> forall i :: 0 <= i < |rules| ==> !Decides(rules[i], op)
  {
    FirstRule(rules, op, 0)
  }

  function FirstRule(rules: seq<Rule>, op: Operation, i: nat): (r: Option<nat>)
    requires i <= |rules|
    ensures r.Some? ==> i <= r.value < |rules| && Decides(rules[r.value], op)
    ensures r.Some? ==> forall j :: i <= j < r.value ==> !Decides(rules[j], op)
    ensures r.None? ==> forall j :: i <= j < |rules| ==> !Decides(rules[j], op)
    decreases |rules| - i
  {
    if i == |rules| then None else if Decides(rules[i], op) then Some(i) else FirstRule(rules, op, i + 1)
  }

  predicate Catches(t: Trap, op: Operation) { t.armed && Matches(t.selector, op) }

  /** The first interception still armed that matches. */
  function FirstTrap(traps: seq<Trap>, op: Operation, i: nat): (r: Option<nat>)
    requires i <= |traps|
    ensures r.Some? ==> i <= r.value < |traps| && Catches(traps[r.value], op)
    ensures r.Some? ==> forall j :: i <= j < r.value ==> !Catches(traps[j], op)
    ensures r.None? ==> forall j :: i <= j < |traps| ==> !Catches(traps[j], op)
    decreases |traps| - i
  {
    if i == |traps| then None else if Catches(traps[i], op) then Some(i) else FirstTrap(traps, op, i + 1)
  }

  /** What the gate hands back: a decision, or a pending operation with a holding token. */
  datatype Gate = Decided(decision: Decision) | Held(trap: nat, sequence: nat, version: nat) | Stalled(rule: nat)

  datatype Gated = Gated(state: State, gate: Gate)

  ghost predicate Shaped(s: State) { |s.observed| == 3 }

  function Seen(s: State, op: Operation): State
    requires Shaped(s)
  {
    var i := StageIndex(op.stage);
    s.(observed := s.observed[i := s.observed[i] + 1], hits := Watched(s.hits, s.rules, op))
  }

  /** `gate` inside an active scope. */
  function Pass(s: State, op: Operation): Gated
    requires Shaped(s)
  {
    var t := Seen(s, op);
    match Deciding(s.rules, op)
    case Some(i) =>
      var r := s.rules[i];
      var hit := t.(hits := Record(t.hits, r.id));
      if r.effect.Refuse? then Gated(hit, Decided(Reject(r.effect.message)))
      else Gated(hit.(holding := hit.holding + 1), Stalled(r.id))
    case None =>
      match FirstTrap(s.traps, op, 0)
      case None => Gated(t, Decided(Release))
      case Some(i) =>
        Gated(t.(sequence := t.sequence + 1, holding := t.holding + 1,
                 traps := t.traps[i := t.traps[i].(armed := false)]),
              Held(s.traps[i].id, t.sequence + 1, t.resets))
  }

  /** How many of the rules that only watch match the operation, among those numbered `id`. */
  function Watchers(rules: seq<Rule>, op: Operation, id: nat): nat {
    if rules == [] then 0 else
    var r := rules[|rules| - 1];
    Watchers(rules[..|rules| - 1], op, id) + (if r.effect.Watch? && r.id == id && Matches(r.selector, op) then 1 else 0)
  }

  function HitsOf(hits: map<nat, nat>, id: nat): nat { if id in hits then hits[id] else 0 }

  lemma {:induction false} WatchedCounts(hits: map<nat, nat>, rules: seq<Rule>, op: Operation, id: nat)
    ensures HitsOf(Watched(hits, rules, op), id) == HitsOf(hits, id) + Watchers(rules, op, id)
  {
    if rules != [] {
      WatchedCounts(hits, rules[..|rules| - 1], op, id);
    }
  }

  /** Rule `i` is the first matching one that rejects or stalls. */
  ghost predicate Rules(rules: seq<Rule>, op: Operation, i: nat) {
    && i < |rules| && !rules[i].effect.Watch? && Matches(rules[i].selector, op)
    && forall j :: 0 <= j < i ==> rules[j].effect.Watch? || !Matches(rules[j].selector, op)
  }

  /** What the gate answers, and what it counts: the first matching rejecting or stalling rule decides; with
      none, an operation nothing armed catches is released; the operation is counted under its stage, and a
      rule's hits grow by one for every matching watcher and for the decision. */
  lemma GateMeans(s: State, op: Operation, i: nat, id: nat)
    requires Shaped(s)
    ensures Rules(s.rules, op, i) ==> Pass(s, op).gate == match s.rules[i].effect
      case Refuse(message) => Decided(Reject(message))
      case _ => Stalled(s.rules[i].id)
    ensures Pass(s, op).gate == Decided(Release) <==>
      && (forall j :: 0 <= j < |s.rules| ==> s.rules[j].effect.Watch? || !Matches(s.rules[j].selector, op))
      && (forall j :: 0 <= j < |s.traps| ==> !s.traps[j].armed || !Matches(s.traps[j].selector, op))
    ensures var z := Pass(s, op).state;
            && |z.observed| == 3
            && (forall stage: Stage ::
                  z.observed[StageIndex(stage)] == s.observed[StageIndex(stage)] + if stage == op.stage then 1 else 0)
            && HitsOf(z.hits, id) == HitsOf(s.hits, id) + Watchers(s.rules, op, id)
                 + if exists k: nat :: Rules(s.rules, op, k) && s.rules[k].id == id then 1 else 0
  {
    WatchedCounts(s.hits, s.rules, op, id);
    var d := Deciding(s.rules, op);
    if Rules(s.rules, op, i) {
      assert d.Some? && d.value == i;
    }
  }

  function Armed(traps: seq<Trap>): seq<Trap> {
    if traps == [] then [] else
    Armed(traps[..|traps| - 1]) + (if traps[|traps| - 1].armed then [traps[|traps| - 1]] else [])
  }

  /** `State::restore`: rules go, parked operations are signalled, and unfired interceptions are
      remembered. */
  function Restored(s: State): State {
    s.(rules := [], resets := s.resets + 1, traps := [], unfired := s.unfired + Armed(s.traps))
  }

  function Without(rules: seq<Rule>, id: nat): seq<Rule> {
    if rules == [] then [] else
    Without(rules[..|rules| - 1], id) + (if rules[|rules| - 1].id == id then [] else [rules[|rules| - 1]])
  }

  /** The shared scope state as the proxy mutates it. */
  class Scope {
    var traps: seq<Trap>
    var rules: seq<Rule>
    var unfired: seq<Trap>
    var observed: seq<nat>
    var holding: nat
    var sequence: nat
    var resets: nat
    var hits: map<nat, nat>

    constructor ()
      ensures View() == FRESH
    {
      traps, rules, unfired, observed := [], [], [], [0, 0, 0];
      holding, sequence, resets, hits := 0, 0, 0, map[];
    }

    function View(): State
      reads this
    {
      State(traps, rules, unfired, observed, holding, sequence, resets, hits)
    }

    /** `gate`. */
    method GateOp(op: Operation) returns (g: Gate)
      requires Shaped(View())
      modifies this
      ensures Gated(View(), g) == Pass(old(View()), op)
    {
      var i := StageIndex(op.stage);
      observed := observed[i := observed[i] + 1];
      for k := 0 to |rules|
        invariant rules == old(rules) && hits == Watched(old(hits), rules[..k], op)
        invariant View() == old(View()).(observed := old(observed)[i := old(observed)[i] + 1], hits := hits)
      {
        assert rules[..k + 1][..k] == rules[..k];
        if rules[k].effect.Watch? && Matches(rules[k].selector, op) {
          hits := Record(hits, rules[k].id);
        }
      }
      assert rules[..|rules|] == rules;
      var d := Deciding(rules, op);
      if d.Some? {
        var r := rules[d.value];
        hits := Record(hits, r.id);
        if r.effect.Refuse? {
          return Decided(Reject(r.effect.message));
        }
        holding := holding + 1;
        return Stalled(r.id);
      }
      var t := FirstTrap(traps, op, 0);
      if t.None? {
        return Decided(Release);
      }
      sequence := sequence + 1;
      var id := traps[t.value].id;
      traps := traps[t.value := traps[t.value].(armed := false)];
      g := Held(id, sequence, resets);
      holding := holding + 1;
    }

    /** Dropping a holding token. The subtraction is safe because a token exists. */
    method DropHolding()
      requires holding > 0
      modifies this
      ensures forall w: World, token: nat :: Shaped(w.state) && w.state == old(View()) && token in w.live ==>
        View() == Next(w, Drop(token)).state
    {
      holding := holding - 1;
    }

    /** `State::restore`. */
    method Restore()
      modifies this
      ensures View() == Restored(old(View()))
    {
      rules := [];
      resets := resets + 1;
      var drained := traps;
      traps := [];
      for k := 0 to |drained|
        invariant drained == old(traps) && unfired == old(unfired) + Armed(drained[..k])
        invariant View() == Restored(old(View())).(unfired := unfired)
      {
        assert drained[..k + 1][..k] == drained[..k];
        if drained[k].armed {
          unfired := unfired + [drained[k]];
        }
      }
      assert drained[..|drained|] == drained;
    }

    method RemoveRule(id: nat)
      modifies this
      ensures View() == old(View()).(rules := Without(old(rules), id))
    {
      var kept: seq<Rule> := [];
      for k := 0 to |rules|
        invariant rules == old(rules) && View() == old(View()) && kept == Without(rules[..k], id)
      {
        assert rules[..k + 1][..k] == rules[..k];
        if rules[k].id != id {
          kept := kept + [rules[k]];
        }
      }
      assert rules[..|rules|] == rules;
      rules := kept;
    }
  }

  // ---- every interleaving -----------------------------------------------------------------------------

  /** A pending operation and its holding token. `answer` is what the interceptor decided, or a
      release when it dropped the operation undecided. */
  datatype Token = Parked(trap: nat, sequence: nat, version: nat, answer: Option<Decision>) | Waiting(rule: nat)

  datatype Delivery = Delivery(trap: nat, sequence: nat)

  /** The scope together with its surroundings: live tokens, what each interception received, which
      interceptions fired, and which were already reported as unfired. */
  datatype World = World(state: State, live: map<nat, Token>, delivered: seq<Delivery>, issued: nat,
                         registered: nat, ruleCount: nat, reported: set<nat>)

  datatype Event =
    | Intercept(selector: Selector)
    | AddRule(selector: Selector, effect: Effect)
    | Remove(rule: nat)
    | Arrive(op: Operation)
    | Answer(token: nat, decision: Decision)
    | Drop(token: nat)
    | Restore
    | TakeUnfired

  const OPEN: World := World(FRESH, map[], [], 0, 0, 0, {})

  function TrapIds(traps: seq<Trap>): set<nat> { set t | t in traps :: t.id }

  /** An event the surroundings can produce: only live tokens are answered or dropped, and `reset`
      takes the unfired list only once nothing is held. */
  predicate Enabled(w: World, e: Event) {
    match e
    case Answer(token, _) => token in w.live && w.live[token].Parked? && w.live[token].answer.None?
    case Drop(token) => token in w.live
    case TakeUnfired => w.state.holding == 0
    case _ => true
  }

  ghost function Next(w: World, e: Event): World
    requires Shaped(w.state) && Enabled(w, e)
  {
    match e
    case Intercept(selector) =>
      w.(state := w.state.(traps := w.state.traps + [Trap(w.registered, selector, true)]),
         registered := w.registered + 1)
    case AddRule(selector, effect) =>
      w.(state := w.state.(rules := w.state.rules + [Rule(w.ruleCount, selector, effect)]),
         ruleCount := w.ruleCount + 1)
    case Remove(rule) => w.(state := w.state.(rules := Without(w.state.rules, rule)))
    case Arrive(op) =>
      var g := Pass(w.state, op);
      (match g.gate
       case Decided(_) => w.(state := g.state)
       case Stalled(rule) => w.(state := g.state, live := w.live[w.issued := Waiting(rule)], issued := w.issued + 1)
       case Held(trap, sequence, version) =>
         w.(state := g.state, live := w.live[w.issued := Parked(trap, sequence, version, None)], issued := w.issued + 1,
            delivered := w.delivered + [Delivery(trap, sequence)]))
    case Answer(token, decision) => w.(live := w.live[token := w.live[token].(answer := Some(decision))])
    case Drop(token) => w.(state := w.state.(holding := w.state.holding - 1), live := w.live - {token})
    case Restore => w.(state := Restored(w.state))
    case TakeUnfired => w.(state := w.state.(unfired := []), reported := w.reported + TrapIds(w.state.unfired))
  }

  /** A pending operation may complete: it was decided, the scope was reset since, or the rule that
      stalled it is gone. */
  ghost predicate CanComplete(w: World, token: nat)
    requires token in w.live
  {
    match w.live[token]
    case Parked(_, _, version, answer) => answer.Some? || version < w.state.resets
    case Waiting(rule) => forall r :: r in w.state.rules ==> r.id != rule
  }

  ghost predicate Fired(w: World, trap: nat) { exists i :: 0 <= i < |w.delivered| && w.delivered[i].trap == trap }

  /** The n-th delivery carries sequence n, so sequence numbers strictly increase. */
  ghost predicate Numbered(w: World) {
    && w.state.sequence == |w.delivered|
    && forall i :: 0 <= i < |w.delivered| ==> w.delivered[i].sequence == i + 1
  }

  /** No interception received two operations, and none of the listed ones is misfiled. */
  ghost predicate TrapsSound(w: World) {
    && (forall i, j :: 0 <= i < j < |w.delivered| ==> w.delivered[i].trap != w.delivered[j].trap)
    && (forall i, j :: 0 <= i < j < |w.state.traps| ==> w.state.traps[i].id != w.state.traps[j].id)
    && (forall i :: 0 <= i < |w.delivered| ==> w.delivered[i].trap < w.registered)
    && (forall i :: 0 <= i < |w.state.traps| ==>
          w.state.traps[i].id < w.registered && (w.state.traps[i].armed <==> !Fired(w, w.state.traps[i].id)))
  }

  ghost predicate Awaiting(traps: seq<Trap>, id: nat) {
    exists i :: 0 <= i < |traps| && traps[i].id == id && traps[i].armed
  }

  ghost predicate Listed(traps: seq<Trap>, id: nat) { exists i :: 0 <= i < |traps| && traps[i].id == id }

  /** Every registered interception is still armed, fired, or on record as unfired. */
  ghost predicate TrapsAccounted(w: World) {
    forall id: nat :: id < w.registered ==>
      Fired(w, id) || Awaiting(w.state.traps, id) || Listed(w.state.unfired, id) || id in w.reported
  }

  ghost predicate TokensSound(w: World) {
    && w.state.holding == |w.live|
    && (forall token :: token in w.live ==> token < w.issued)
    && (forall token :: token in w.live && w.live[token].Parked? ==> w.live[token].version <= w.state.resets)
    && (forall token :: token in w.live && w.live[token].Waiting? ==> w.live[token].rule < w.ruleCount)
    && (forall i :: 0 <= i < |w.state.rules| ==> w.state.rules[i].id < w.ruleCount)
  }

  ghost predicate Core(w: World) {
    Shaped(w.state) && Numbered(w) && TrapsSound(w) && TrapsAccounted(w) && TokensSound(w)
  }

  lemma {:induction false} WithoutKeeps(rules: seq<Rule>, id: nat)
    ensures forall r :: r in Without(rules, id) <==> r in rules && r.id != id
  {
    if rules != [] {
      WithoutKeeps(rules[..|rules| - 1], id);
      assert rules == rules[..|rules| - 1] + [rules[|rules| - 1]];
    }
  }

  lemma {:induction false} ArmedKeeps(traps: seq<Trap>)
    ensures forall t :: t in Armed(traps) <==> t in traps && t.armed
  {
    if traps != [] {
      ArmedKeeps(traps[..|traps| - 1]);
      assert traps == traps[..|traps| - 1] + [traps[|traps| - 1]];
    }
  }

  lemma InterceptKeeps(w: World, selector: Selector)
    requires Core(w)
    ensures Core(Next(w, Intercept(selector)))
  {
    var z := Next(w, Intercept(selector));
    assert forall id :: Fired(z, id) <==> Fired(w, id);
    assert !Fired(w, w.registered);
    var last := |w.state.traps|;
    assert z.state.traps[last].id == w.registered && z.state.traps[last].armed;
    forall id: nat | id < z.registered && Awaiting(w.state.traps, id) ensures Awaiting(z.state.traps, id) {
      var i :| 0 <= i < |w.state.traps| && w.state.traps[i].id == id && w.state.traps[i].armed;
      assert z.state.traps[i] == w.state.traps[i];
    }
    assert Awaiting(z.state.traps, w.registered);
  }

  lemma RuleKeeps(w: World, e: Event)
    requires Core(w) && (e.AddRule? || e.Remove?)
    ensures Core(Next(w, e))
  {
    var z := Next(w, e);
    assert forall id :: Fired(z, id) <==> Fired(w, id);
    if e.Remove? {
      WithoutKeeps(w.state.rules, e.rule);
      forall i | 0 <= i < |z.state.rules| ensures z.state.rules[i].id < z.ruleCount {
        assert z.state.rules[i] in z.state.rules;
      }
    }
  }

  lemma TokenKeeps(w: World, e: Event)
    requires Core(w) && (e.Answer? || e.Drop?) && Enabled(w, e)
    ensures Core(Next(w, e))
  {
    var z := Next(w, e);
    assert forall id :: Fired(z, id) <==> Fired(w, id);
    if e.Answer? {
      assert z.live.Keys == w.live.Keys;
    } else {
      assert z.live.Keys == w.live.Keys - {e.token};
    }
  }

  lemma RestoreLists(s: State, id: nat)
    requires Awaiting(s.traps, id) || Listed(s.unfired, id)
    ensures Listed(Restored(s).unfired, id)
  {
    if Listed(s.unfired, id) {
      var i :| 0 <= i < |s.unfired| && s.unfired[i].id == id;
      assert Restored(s).unfired[i].id == id;
    } else {
      var i :| 0 <= i < |s.traps| && s.traps[i].id == id && s.traps[i].armed;
      ArmedKeeps(s.traps);
      assert s.traps[i] in Armed(s.traps);
      var j :| 0 <= j < |Armed(s.traps)| && Armed(s.traps)[j] == s.traps[i];
      assert Restored(s).unfired[|s.unfired| + j].id == id;
    }
  }

  lemma RestoreKeeps(w: World)
    requires Core(w)
    ensures Core(Next(w, Restore))
  {
    var z := Next(w, Restore);
    assert forall id :: Fired(z, id) <==> Fired(w, id);
    forall id: nat | Awaiting(w.state.traps, id) || Listed(w.state.unfired, id) ensures Listed(z.state.unfired, id) {
      RestoreLists(w.state, id);
    }
    hide Awaiting, Listed, Fired;
  }

  lemma TakeKeeps(w: World)
    requires Core(w) && Enabled(w, TakeUnfired)
    ensures Core(Next(w, TakeUnfired))
  {
    var z := Next(w, TakeUnfired);
    assert forall id :: Fired(z, id) <==> Fired(w, id);
    forall i | 0 <= i < |w.state.unfired| ensures w.state.unfired[i].id in z.reported {
      assert w.state.unfired[i] in w.state.unfired;
    }
  }

  lemma PassFrame(s: State, op: Operation)
    requires Shaped(s)
    ensures var g := Pass(s, op);
            && Shaped(g.state) && g.state.rules == s.rules && g.state.unfired == s.unfired && g.state.resets == s.resets
            && g.state.holding == s.holding + (if g.gate.Decided? then 0 else 1)
            && (!g.gate.Held? ==> g.state.traps == s.traps && g.state.sequence == s.sequence)
            && (g.gate.Stalled? ==> exists i :: 0 <= i < |s.rules| && s.rules[i].id == g.gate.rule)
            && (g.gate.Held? ==> Deciding(s.rules, op).None? && FirstTrap(s.traps, op, 0).Some?)
  {
  }

  lemma PassHeld(s: State, op: Operation)
    requires Shaped(s) && Pass(s, op).gate.Held?
    ensures FirstTrap(s.traps, op, 0).Some?
    ensures var g, k := Pass(s, op), FirstTrap(s.traps, op, 0).value;
            && g.state.traps == s.traps[k := s.traps[k].(armed := false)]
            && g.state.sequence == s.sequence + 1
            && g.gate == Held(s.traps[k].id, s.sequence + 1, s.resets)
            && s.traps[k].armed
  {
  }

  lemma IssueKeeps(w: World, z: World, t: Token)
    requires TokensSound(w)
    requires z.live == w.live[w.issued := t] && z.issued == w.issued + 1 && z.ruleCount == w.ruleCount
    requires z.state.holding == w.state.holding + 1 && z.state.rules == w.state.rules
             && z.state.resets == w.state.resets
    requires if t.Parked? then t.version <= w.state.resets else t.rule < w.ruleCount
    ensures TokensSound(z)
  {
    assert z.live.Keys == w.live.Keys + {w.issued};
  }

  lemma ArriveTokens(w: World, op: Operation)
    requires Core(w)
    ensures TokensSound(Next(w, Arrive(op))) && Shaped(Next(w, Arrive(op)).state)
  {
    PassFrame(w.state, op);
    var z, gate := Next(w, Arrive(op)), Pass(w.state, op).gate;
    if gate.Held? {
      PassHeld(w.state, op);
      hide *;
      IssueKeeps(w, z, Parked(gate.trap, gate.sequence, gate.version, None));
    } else if gate.Stalled? {
      IssueKeeps(w, z, Waiting(gate.rule));
    }
  }

  lemma ArriveKeeps(w: World, op: Operation)
    requires Core(w)
    ensures Core(Next(w, Arrive(op)))
  {
    PassFrame(w.state, op);
    ArriveTokens(w, op);
    if Pass(w.state, op).gate.Held? {
      HeldTraps(w, op);
      HeldAccounts(w, op);
      hide Next, Numbered, TrapsSound, TrapsAccounted, TokensSound;
    } else {
      hide Pass, TokensSound;
      var z := Next(w, Arrive(op));
      assert z.delivered == w.delivered;
      assert forall id :: Fired(z, id) <==> Fired(w, id);
    }
  }

  lemma HeldFires(w: World, op: Operation) returns (k: nat)
    requires Core(w) && Pass(w.state, op).gate.Held?
    ensures k < |w.state.traps| && w.state.traps[k].armed
    ensures var z := Next(w, Arrive(op));
            && z.state.traps == w.state.traps[k := w.state.traps[k].(armed := false)]
            && z.state.unfired == w.state.unfired && z.registered == w.registered && z.reported == w.reported
            && z.state.sequence == w.state.sequence + 1
            && z.delivered == w.delivered + [Delivery(w.state.traps[k].id, w.state.sequence + 1)]
            && (forall id :: Fired(z, id) <==> Fired(w, id) || id == w.state.traps[k].id)
  {
    PassFrame(w.state, op);
    PassHeld(w.state, op);
    hide Pass, Inv, FirstTrap;
    var z := Next(w, Arrive(op));
    k := FirstTrap(w.state.traps, op, 0).value;
    var trap := w.state.traps[k].id;
    assert z.delivered[|w.delivered|].trap == trap;
    forall id | Fired(w, id) ensures Fired(z, id) {
      var i :| 0 <= i < |w.delivered| && w.delivered[i].trap == id;
      assert z.delivered[i].trap == id;
    }
  }

  lemma HeldTraps(w: World, op: Operation)
    requires Core(w) && Pass(w.state, op).gate.Held?
    ensures var z := Next(w, Arrive(op)); Numbered(z) && TrapsSound(z)
  {
    var k := HeldFires(w, op);
    hide Next, Pass, TokensSound, TrapsAccounted;
    assert !Fired(w, w.state.traps[k].id);
  }

  lemma HeldAccounts(w: World, op: Operation)
    requires Core(w) && Pass(w.state, op).gate.Held?
    ensures TrapsAccounted(Next(w, Arrive(op)))
  {
    var k := HeldFires(w, op);
    hide Next, Pass, TokensSound, Fired, Listed;
    var z := Next(w, Arrive(op));
    forall id: nat | Awaiting(w.state.traps, id) && id != w.state.traps[k].id ensures Awaiting(z.state.traps, id) {
      var i :| 0 <= i < |w.state.traps| && w.state.traps[i].id == id && w.state.traps[i].armed;
      assert z.state.traps[i] == w.state.traps[i];
    }
  }

  lemma CoreKeeps(w: World, e: Event)
    requires Core(w) && Enabled(w, e)
    ensures Core(Next(w, e))
  {
    match e {
      case Intercept(selector) => InterceptKeeps(w, selector);
      case AddRule(_, _) => RuleKeeps(w, e);
      case Remove(_) => RuleKeeps(w, e);
      case Arrive(op) => ArriveKeeps(w, op);
      case Answer(_, _) => TokenKeeps(w, e);
      case Drop(_) => TokenKeeps(w, e);
      case Restore => RestoreKeeps(w);
      case TakeUnfired => TakeKeeps(w);
    }
  }

  /** An interception that can no longer fire and never has. */
  ghost predicate Missed(w: World, id: nat) {
    id < w.registered && !Fired(w, id) && !Listed(w.state.traps, id)
  }

  /** What is on record as unfired, or was reported so, has missed its chance for good. */
  ghost predicate Unheard(w: World) {
    && (forall i :: 0 <= i < |w.state.unfired| ==> Missed(w, w.state.unfired[i].id))
    && (forall id :: id in w.reported ==> Missed(w, id))
  }

  /** Only a registered interception still listed can come to fire. */
  lemma MissedStays(w: World, e: Event, id: nat)
    requires Core(w) && Enabled(w, e) && Missed(w, id)
    ensures Missed(Next(w, e), id)
  {
    if e.Arrive? {
      PassFrame(w.state, e.op);
      if Pass(w.state, e.op).gate.Held? {
        var k := HeldFires(w, e.op);
        hide Next, Pass, Core, Fired;
        assert w.state.traps[k].id != id;
        SameIds(w.state.traps, k, id);
      }
    } else if e.Intercept? {
      SameListing(w.state.traps, Trap(w.registered, e.selector, true), id);
    }
  }

  lemma SameIds(traps: seq<Trap>, k: nat, id: nat)
    requires k < |traps|
    ensures Listed(traps[k := traps[k].(armed := false)], id) ==> Listed(traps, id)
  {
    var fired := traps[k := traps[k].(armed := false)];
    if Listed(fired, id) {
      var i :| 0 <= i < |fired| && fired[i].id == id;
      assert traps[i].id == id;
    }
  }

  lemma SameListing(traps: seq<Trap>, added: Trap, id: nat)
    requires added.id != id
    ensures Listed(traps + [added], id) ==> Listed(traps, id)
  {
    if Listed(traps + [added], id) {
      var i :| 0 <= i < |traps + [added]| && (traps + [added])[i].id == id;
      assert traps[i].id == id;
    }
  }

  /** A restore takes armed interceptions out of play. */
  lemma RestoreMisses(w: World, t: Trap)
    requires Core(w) && t in Armed(w.state.traps)
    ensures Missed(Next(w, Restore), t.id)
  {
    ArmedKeeps(w.state.traps);
    var i :| 0 <= i < |w.state.traps| && w.state.traps[i] == t;
    assert Fired(Next(w, Restore), t.id) <==> Fired(w, t.id);
  }

  lemma UnheardKeeps(w: World, e: Event)
    requires Core(w) && Unheard(w) && Enabled(w, e)
    ensures Unheard(Next(w, e))
  {
    var z := Next(w, e);
    forall id | Missed(w, id) ensures Missed(z, id) {
      MissedStays(w, e, id);
    }
    if e.Restore? {
      forall t | t in Armed(w.state.traps) ensures Missed(z, t.id) {
        RestoreMisses(w, t);
      }
    }
    ListsFrom(w, e);
    hide Missed, Core, Next, Armed, Enabled;
  }

  /** New names come onto the two records only by a restore and by taking the list. */
  lemma ListsFrom(w: World, e: Event)
    requires Core(w) && Enabled(w, e)
    ensures forall i :: 0 <= i < |Next(w, e).state.unfired| ==>
      || Next(w, e).state.unfired[i] in w.state.unfired
      || (e.Restore? && Next(w, e).state.unfired[i] in Armed(w.state.traps))
    ensures forall id :: id in Next(w, e).reported ==>
      id in w.reported || (e.TakeUnfired? && Listed(w.state.unfired, id))
  {
    if e.Arrive? {
      PassFrame(w.state, e.op);
    }
  }

  ghost predicate Inv(w: World) { Core(w) && Unheard(w) }

  /** Every event keeps the invariant. */
  lemma NextKeeps(w: World, e: Event)
    requires Inv(w) && Enabled(w, e)
    ensures Inv(Next(w, e))
  {
    hide Core, Unheard, Next;
    CoreKeeps(w, e);
    UnheardKeeps(w, e);
  }

  lemma OpenHolds()
    ensures Inv(OPEN)
  {
  }

  /** `z` is reached from `w` by some enabled events, in that order. */
  ghost predicate Reaches(w: World, events: seq<Event>, z: World)
    requires Inv(w)
    decreases |events|
  {
    if events == [] then w == z else
    Enabled(w, events[0]) && (NextKeeps(w, events[0]); Reaches(Next(w, events[0]), events[1..], z))
  }

  /** In every reachable world: the counter equals the live tokens, each interception received at
      most one operation, deliveries are numbered upwards, and no interception is lost track of. */
  lemma {:induction false} RunKeeps(w: World, events: seq<Event>, z: World)
    requires Inv(w) && Reaches(w, events, z)
    ensures Inv(z)
    decreases |events|
  {
    if events != [] {
      NextKeeps(w, events[0]);
      RunKeeps(Next(w, events[0]), events[1..], z);
    }
  }

  /** The counter never underflows: a token that can be dropped is still counted. */
  lemma DropIsCounted(w: World, token: nat)
    requires Inv(w) && Enabled(w, Drop(token))
    ensures w.state.holding >= 1
  {
    assert token in w.live.Keys;
    if w.live.Keys - {token} == {} {
      assert w.live.Keys == {token};
    }
    assert |w.live.Keys| == |w.live.Keys - {token}| + 1;
  }

  /** An operation is intercepted exactly when no rejecting or stalling rule matches and some armed
      interception does; it then goes to the first such interception alone. */
  lemma InterceptedExactly(s: State, op: Operation)
    requires Shaped(s)
    ensures Pass(s, op).gate.Held? <==>
      (forall i :: 0 <= i < |s.rules| ==> !Decides(s.rules[i], op))
      && (exists i :: 0 <= i < |s.traps| && Catches(s.traps[i], op))
    ensures Pass(s, op).gate.Held? ==> exists k ::
      && 0 <= k < |s.traps| && Catches(s.traps[k], op) && Pass(s, op).gate.trap == s.traps[k].id
      && (forall i :: 0 <= i < k ==> !Catches(s.traps[i], op))
      && Pass(s, op).state.traps == s.traps[k := s.traps[k].(armed := false)]
  {
    var d, t := Deciding(s.rules, op), FirstTrap(s.traps, op, 0);
    if d.Some? {
      assert Decides(s.rules[d.value], op);
    } else if t.Some? {
      assert Catches(s.traps[t.value], op);
    }
  }

  /** A restore sets every pending operation free, whatever held it, ... */
  lemma RestoreFrees(w: World, token: nat)
    requires Inv(w) && token in w.live
    ensures token in Next(w, Restore).live && CanComplete(Next(w, Restore), token)
  {
  }

  lemma StillFree(w: World, e: Event, token: nat)
    requires Inv(w) && Enabled(w, e) && token in w.live && CanComplete(w, token)
    ensures token in Next(w, e).live ==> CanComplete(Next(w, e), token)
  {
    match e {
      case Remove(rule) => WithoutKeeps(w.state.rules, rule);
      case Arrive(op) => PassFrame(w.state, op);
      case _ =>
    }
  }

  /** ... and nothing that happens later can block it again before it completes. */
  lemma {:induction false} FreedStaysFree(w: World, events: seq<Event>, z: World, token: nat)
    requires Inv(w) && Reaches(w, events, z) && token in w.live && CanComplete(w, token) && token in z.live
    ensures CanComplete(z, token)
    decreases |events|
  {
    if events != [] {
      NextKeeps(w, events[0]);
      StillFree(w, events[0], token);
      var next := Next(w, events[0]);
      if token !in next.live {
        GoneStaysGone(next, events[1..], z, token);
      } else {
        FreedStaysFree(next, events[1..], z, token);
      }
    }
  }

  lemma {:induction false} GoneStaysGone(w: World, events: seq<Event>, z: World, token: nat)
    requires Inv(w) && Reaches(w, events, z) && token !in w.live && token < w.issued
    ensures token !in z.live
    decreases |events|
  {
    if events != [] {
      NextKeeps(w, events[0]);
      GoneStaysGone(Next(w, events[0]), events[1..], z, token);
    }
  }

  ghost predicate Newer(w: World, floor: nat) {
    floor <= w.registered && forall i :: 0 <= i < |w.state.traps| ==> floor <= w.state.traps[i].id
  }

  lemma NewerNext(w: World, e: Event, floor: nat)
    requires Inv(w) && Enabled(w, e) && Newer(w, floor)
    ensures Newer(Next(w, e), floor)
  {
    if e.Arrive? {
      PassFrame(w.state, e.op);
      if Pass(w.state, e.op).gate.Held? {
        PassHeld(w.state, e.op);
      }
    }
  }

  lemma {:induction false} NewerStays(w: World, events: seq<Event>, z: World, floor: nat)
    requires Inv(w) && Reaches(w, events, z) && Newer(w, floor)
    ensures Newer(z, floor)
    decreases |events|
  {
    if events != [] {
      NextKeeps(w, events[0]);
      NewerNext(w, events[0], floor);
      NewerStays(Next(w, events[0]), events[1..], z, floor);
    }
  }

  /** A `reset` that began in `w`, drained in `z` and found no unfired interception: nothing was held at
      the drain point, and an interception registered before the reset has fired if and only if no reset
      has reported it as unfired. */
  lemma ResetConclusive(w: World, events: seq<Event>, z: World, id: nat)
    requires Inv(w) && Inv(Next(w, Restore)) && Reaches(Next(w, Restore), events, z)
    requires Enabled(z, TakeUnfired) && z.state.unfired == []
    requires id < w.registered
    ensures z.live == map[] && (Fired(z, id) <==> id !in z.reported)
  {
    var start := Next(w, Restore);
    RunKeeps(start, events, z);
    NewerStays(start, events, z, w.registered);
    assert |z.live| == 0;
    assert id in z.reported ==> Missed(z, id);
  }

  /** Every reset of the run found the list empty when it took it, that is, returned Ok. */
  ghost predicate ResetsClean(w: World, events: seq<Event>)
    requires Inv(w)
    decreases |events|
  {
    events == [] || (Enabled(w, events[0]) ==>
      && (events[0].TakeUnfired? ==> w.state.unfired == [])
      && (NextKeeps(w, events[0]); ResetsClean(Next(w, events[0]), events[1..])))
  }

  /** Only a reset that returns an error reports anything. */
  lemma {:induction false} ReportedByFailure(w: World, events: seq<Event>, z: World)
    requires Inv(w) && Reaches(w, events, z) && ResetsClean(w, events)
    ensures z.reported == w.reported
    decreases |events|
  {
    if events != [] {
      NextKeeps(w, events[0]);
      ListsFrom(w, events[0]);
      ReportedOnce(w, events[0]);
      ReportedByFailure(Next(w, events[0]), events[1..], z);
    }
  }

  lemma ReportedOnce(w: World, e: Event)
    requires Inv(w) && Enabled(w, e) && (e.TakeUnfired? ==> w.state.unfired == [])
    ensures Next(w, e).reported == w.reported
  {
  }

  /** So as long as no reset of a scope has failed, one that returns Ok means every interception
      registered before it fired. */
  lemma CleanResetMeansFired(before: seq<Event>, w: World, events: seq<Event>, z: World, id: nat)
    requires Inv(OPEN) && Reaches(OPEN, before, w) && ResetsClean(OPEN, before)
    requires Inv(w) && Inv(Next(w, Restore)) && Reaches(Next(w, Restore), events, z)
             && ResetsClean(Next(w, Restore), events)
    requires Enabled(z, TakeUnfired) && z.state.unfired == [] && id < w.registered
    ensures Fired(z, id)
  {
    ReportedByFailure(OPEN, before, w);
    ReportedByFailure(Next(w, Restore), events, z);
    ResetConclusive(w, events, z, id);
  }

  /** After a failed reset the next one returns Ok although the interception never fired. */
  lemma SecondResetForgets(selector: Selector)
    ensures Inv(OPEN)
    ensures var w := Next(OPEN, Intercept(selector));
            var failed := Next(w, Restore);
            var taken := Next(failed, TakeUnfired);
            var z := Next(taken, Restore);
            && Enabled(failed, TakeUnfired) && failed.state.unfired != []
            && Enabled(z, TakeUnfired) && z.state.unfired == [] && 0 < taken.registered
            && !Fired(z, 0)
  {
    OpenHolds();
    hide Inv, Pass;
    assert [Trap(0, selector, true)][..0] == [];
  }
}
