/**
 Whole runs of the lifecycle oracle: every step, probe and surplus transfer a workload accepts
 keeps lamports, deposits, the vault's backing and the sponsors' accounts in agreement.
 */
module RentRuns {
  import opened Common
  import opened RentOracle
  import opened RentLedger

  datatype World = World(keys: seq<Pubkey>, state: seq<Account>, ledger: Ledger)

  /** A lifecycle action on the target or the victim, a probe that must be refused, or a plain
      transfer from the payer into the vault. */
  datatype Event = Step(action: Action, victim: bool, fee: u64) | Probe(fee: u64) | Surplus(amount: u64)

  function Exchanged<T>(xs: seq<T>): (r: seq<T>)
    requires |xs| == ROLES
    ensures |r| == ROLES
  {
    xs[TARGET := xs[VICTIM]][VICTIM := xs[TARGET]]
  }

  function Swapped(w: World): World
    requires |w.keys| == |w.state| == ROLES
  {
    w.(keys := Exchanged(w.keys), state := Exchanged(w.state))
  }

  predicate Shaped(w: World) { |w.keys| == |w.state| == ROLES }

  function Charged(state: seq<Account>, fee: nat): (r: seq<Account>)
    requires |state| == ROLES && fee <= state[PAYER].lamports
    ensures |r| == ROLES
  {
    state[PAYER := state[PAYER].(lamports := state[PAYER].lamports - fee)]
  }

  /** The images an action is predicted to leave, before the fee. */
  function Outcome(rent: Rent, w: World, a: Action): (after: seq<Account>)
    requires Shaped(w) && a.sponsor < ROLES
    ensures |after| == ROLES
  {
    match Predict(rent, a, w.state, DepositOf(w.ledger, w.keys[TARGET]))
    case Accepted(state) => state
    case Refused(_) => w.state
  }

  /** `Workload::run` once the record and the observed images agree with the prediction. */
  ghost function Reconciled(w: World, sponsor: nat, applied: seq<Account>, fee: nat): (r: Option<World>)
    requires Shaped(w) && |applied| == ROLES && sponsor < ROLES
    ensures r.Some? ==> Shaped(r.value)
  {
    if applied[PAYER].lamports < fee then None else
    match Attributed(w.ledger, w.keys, w.keys[sponsor], w.state, Charged(applied, fee))
    case None => None
    case Some(next) => Some(World(w.keys, Charged(applied, fee), next))
  }

  ghost function StepTarget(rent: Rent, w: World, a: Action, fee: nat): (r: Option<World>)
    requires Shaped(w) && a.sponsor < ROLES
    ensures r.Some? ==> Shaped(r.value)
  {
    if w.keys[TARGET] !in w.ledger.deposits then None else Reconciled(w, a.sponsor, Outcome(rent, w, a), fee)
  }

  /** `check_surplus_transfer`. */
  ghost function Transferred(w: World, amount: nat): (r: Option<World>)
    requires Shaped(w)
    ensures r.Some? ==> Shaped(r.value)
  {
    if w.state[PAYER].lamports < amount || w.state[VAULT].lamports + amount > U64_MAX
       || w.ledger.surplus + amount > U64_MAX then None else
    var paid := Charged(w.state, amount);
    var after := paid[VAULT := paid[VAULT].(lamports := paid[VAULT].lamports + amount)];
    var next := w.ledger.(surplus := w.ledger.surplus + amount);
    if Backed(next, after[VAULT].lamports) && SponsorsSettle(next, w.keys, after) then Some(World(w.keys, after, next))
    else None
  }

  /** A sponsor is one of the roles. */
  predicate Legal(e: Event) { e.Step? ==> e.action.sponsor < ROLES }

  /** `Workload::step_victim`: a target step in the exchanged world, exchanged back. */
  ghost function StepVictim(rent: Rent, w: World, a: Action, fee: nat): (r: Option<World>)
    requires Shaped(w) && a.sponsor < ROLES
    ensures r.Some? ==> Shaped(r.value)
  {
    match StepTarget(rent, Swapped(w), a, fee)
    case None => None
    case Some(next) => Some(Swapped(next))
  }

  ghost function Advance(rent: Rent, w: World, e: Event): (r: Option<World>)
    requires Shaped(w) && Legal(e)
    ensures r.Some? ==> Shaped(r.value)
  {
    match e
    case Step(a, victim, fee) =>
      if victim then StepVictim(rent, w, a, fee) else StepTarget(rent, w, a, fee)
    case Probe(fee) => Reconciled(w, SPONSOR, w.state, fee)
    case Surplus(amount) => Transferred(w, amount)
  }

  /** The step charges rent for an account that it leaves to the system program, so that the account
      counts as absent. Only a create on behalf of the system program can. */
  predicate Orphans(rent: Rent, w: World, e: Event)
    requires Shaped(w) && Legal(e)
  {
    e.Step? && e.action.caller == SYSTEM &&
    var v := if e.victim then Swapped(w) else w;
    && Predict(rent, e.action, v.state, DepositOf(v.ledger, v.keys[TARGET])).Accepted?
    && Payment(rent, e.action, v.state[TARGET]) > 0
  }

  predicate Permitted(rent: Rent, w: World, e: Event)
    requires Shaped(w)
  {
    Legal(e) && !Orphans(rent, w, e)
  }

  // ---- the invariant --------------------------------------------------------------------------

  /** An existing target holds no lamports of its own, and its deposit is exactly the rent it owes. */
  predicate TargetSettled(rent: Rent, w: World, i: nat)
    requires Shaped(w) && i < ROLES
  {
    && (w.state[i].owner == SYSTEM || w.state[i].lamports == 0)
    && |w.state[i].data| < U32_SPAN
    && w.keys[i] in w.ledger.deposits
    && w.ledger.deposits[w.keys[i]] == Due(rent, w.state[i])
  }

  /** A sponsor's balance plus what it paid equals its opening balance plus what it got back; the
      payer additionally paid the surplus and `fees`. */
  predicate SponsorBalanced(w: World, i: nat, fees: nat)
    requires Shaped(w) && i < ROLES
  {
    var c := ChargesOf(w.ledger, w.keys[i]);
    && w.keys[i] in w.ledger.openings
    && w.state[i].lamports + c.paid + (if i == PAYER then w.ledger.surplus + fees else 0)
       == w.ledger.openings[w.keys[i]] + c.refunded
  }

  /** `slack` is what the vault holds beyond floor, deposits and surplus; `fees` is what the payer
      has spent on fees since its opening balance. */
  ghost predicate Inv(rent: Rent, w: World, slack: nat, fees: nat) {
    && Shaped(w)
    && Distinct(w.keys)
    && TargetSettled(rent, w, TARGET)
    && TargetSettled(rent, w, VICTIM)
    && w.state[VAULT].lamports == w.ledger.floor + w.ledger.surplus + SumValues(w.ledger.deposits) + slack
    && w.ledger.openings.Keys == {w.keys[PAYER], w.keys[SPONSOR], w.keys[SUBSTITUTE]}
    && w.ledger.sponsors.Keys <= w.ledger.openings.Keys
    && SponsorBalanced(w, PAYER, fees)
    && SponsorBalanced(w, SPONSOR, fees)
    && SponsorBalanced(w, SUBSTITUTE, fees)
  }

  function Total(state: seq<Account>): nat
    requires |state| == ROLES
  {
    state[PAYER].lamports + state[SPONSOR].lamports + state[TARGET].lamports
    + state[VAULT].lamports + state[SUBSTITUTE].lamports + state[VICTIM].lamports
  }

  lemma SwapKeepsInv(rent: Rent, w: World, slack: nat, fees: nat)
    requires Inv(rent, w, slack, fees)
    ensures Inv(rent, Swapped(w), slack, fees) && Swapped(Swapped(w)) == w
    ensures Total(Swapped(w).state) == Total(w.state)
  {
    var s := Swapped(w);
    forall i, j | 0 <= i < j < ROLES ensures s.keys[i] != s.keys[j] {
      var a, b := (if i == TARGET then VICTIM else if i == VICTIM then TARGET else i),
                  (if j == TARGET then VICTIM else if j == VICTIM then TARGET else j);
      assert s.keys[i] == w.keys[a] && s.keys[j] == w.keys[b];
    }
    assert Exchanged(Exchanged(w.keys)) == w.keys && Exchanged(Exchanged(w.state)) == w.state;
  }

  /** `after` differs from the world's images only by a payment into or a refund out of the vault,
      matched by the sponsor's balance and by the rent the target owes. */
  ghost predicate Transfers(rent: Rent, w: World, sponsor: nat, after: seq<Account>, payment: nat, refund: nat)
    requires Shaped(w) && |after| == ROLES && sponsor in FUNDERS
  {
    && (payment == 0 || refund == 0)
    && after[TARGET].lamports == w.state[TARGET].lamports && |after[TARGET].data| < U32_SPAN
    && (after[TARGET].owner == SYSTEM || after[TARGET].lamports == 0)
    && Due(rent, after[TARGET]) == Due(rent, w.state[TARGET]) + payment - refund
    && after[VAULT].lamports == w.state[VAULT].lamports + payment - refund
    && after[sponsor].lamports == w.state[sponsor].lamports + refund - payment
    && forall i :: 0 <= i < ROLES && i != TARGET && i != VAULT && i != sponsor ==> after[i] == w.state[i]
  }

  const FUNDERS: set<nat> := {PAYER, SPONSOR, SUBSTITUTE}

  /** With the deposit equal to the rent owed, the refund cap never bites whoever sponsors, and for a
      sponsor the ledger knows the deposit follows the new length. */
  lemma DepositFollowsLength(rent: Rent, w: World, a: Action, slack: nat, fees: nat)
    requires Inv(rent, w, slack, fees) && Permitted(rent, w, Step(a, false, 0))
    requires Predict(rent, a, w.state, w.ledger.deposits[w.keys[TARGET]]).Accepted?
    ensures Refund(rent, a, w.state[TARGET], w.ledger.deposits[w.keys[TARGET]])
            == Monus(Due(rent, w.state[TARGET]), NewRent(rent, a.operation))
    ensures a.sponsor in FUNDERS ==>
      Transfers(rent, w, a.sponsor, Outcome(rent, w, a), Payment(rent, a, w.state[TARGET]),
                Refund(rent, a, w.state[TARGET], w.ledger.deposits[w.keys[TARGET]]))
  {
  }

  /** Any other role moves nothing when the vault does not move: the step is one of equal rents, or a
      refusal. */
  lemma OutsiderMovesNothing(rent: Rent, w: World, a: Action, slack: nat, fees: nat)
    requires Inv(rent, w, slack, fees) && Permitted(rent, w, Step(a, false, 0)) && a.sponsor !in FUNDERS
    requires Outcome(rent, w, a)[VAULT].lamports == w.state[VAULT].lamports
    ensures Transfers(rent, w, SPONSOR, Outcome(rent, w, a), 0, 0)
  {
    if Predict(rent, a, w.state, w.ledger.deposits[w.keys[TARGET]]).Accepted? {
      DepositFollowsLength(rent, w, a, slack, fees);
    }
  }

  // ---- one event --------------------------------------------------------------------------------

  /** Where an event leads when only its effect, not the ledger's reconciliation, is applied. The
      refund guard of the ledger is part of it. */
  function Moved(rent: Rent, w: World, e: Event): (r: Option<World>)
    requires Shaped(w) && Legal(e)
    ensures r.Some? ==> Shaped(r.value)
  {
    match e
    case Step(a, victim, fee) =>
      var v := if victim then Swapped(w) else w;
      if Outcome(rent, v, a)[PAYER].lamports < fee then None else
      (match Settled(v, a.sponsor, Outcome(rent, v, a), fee)
       case None => None
       case Some(next) => Some(if victim then Swapped(next) else next))
    case Probe(fee) =>
      if w.state[PAYER].lamports < fee then None else Some(w.(state := Charged(w.state, fee)))
    case Surplus(amount) =>
      if w.state[PAYER].lamports < amount || w.state[VAULT].lamports + amount > U64_MAX then None else
      if w.ledger.surplus + amount > U64_MAX then None else
      var paid := Charged(w.state, amount);
      Some(World(w.keys, paid[VAULT := paid[VAULT].(lamports := paid[VAULT].lamports + amount)],
                 w.ledger.(surplus := w.ledger.surplus + amount)))
  }

  /** The payer can cover what the event takes from it, and the vault can hold what it adds. */
  predicate Covered(rent: Rent, w: World, e: Event)
    requires Shaped(w) && Legal(e)
  {
    match e
    case Step(a, victim, fee) => fee <= Outcome(rent, if victim then Swapped(w) else w, a)[PAYER].lamports
    case Probe(fee) => fee <= w.state[PAYER].lamports
    case Surplus(amount) => amount <= w.state[PAYER].lamports && w.state[VAULT].lamports + amount <= U64_MAX
  }

  /** What moves the vault is sponsored by an account whose opening balance the ledger knows. */
  predicate Funded(rent: Rent, w: World, e: Event)
    requires Shaped(w) && Legal(e)
  {
    e.Step? && e.action.sponsor !in FUNDERS ==>
      var v := if e.victim then Swapped(w) else w;
      Outcome(rent, v, e.action)[VAULT].lamports == v.state[VAULT].lamports
  }

  function Fee(e: Event): nat { if e.Surplus? then 0 else e.fee }

  /** The sponsors' equation can be checked: a sponsoring payer paid no fees, and no sponsor's
      refunds overflow its opening balance. */
  predicate Checkable(w: World, fees: nat)
    requires Shaped(w)
  {
    && (w.keys[PAYER] in w.ledger.sponsors ==> fees == 0)
    && forall key :: key in w.ledger.sponsors && key in w.ledger.openings ==>
         w.ledger.openings[key] + w.ledger.sponsors[key].refunded <= U64_MAX
  }

  /** The world `Moved` reaches through the target's action. */
  function Settled(w: World, sponsor: nat, applied: seq<Account>, fee: nat): (r: Option<World>)
    requires Shaped(w) && |applied| == ROLES && sponsor < ROLES && fee <= applied[PAYER].lamports
    ensures r.Some? ==> Shaped(r.value)
  {
    match Attribute(w.ledger, w.keys[TARGET], w.keys[sponsor], w.state[VAULT].lamports, applied[VAULT].lamports)
    case None => None
    case Some(l) => Some(World(w.keys, Charged(applied, fee), l))
  }

  lemma TransferKeepsInv(rent: Rent, w: World, sponsor: nat, applied: seq<Account>, payment: nat, refund: nat,
                         fee: u64, slack: nat, fees: nat)
    requires Inv(rent, w, slack, fees) && |applied| == ROLES && sponsor in FUNDERS
    requires Transfers(rent, w, sponsor, applied, payment, refund) && fee <= applied[PAYER].lamports
    ensures var m := Settled(w, sponsor, applied, fee);
            m.Some? && Inv(rent, m.value, slack, fees + fee) && Total(m.value.state) + fee == Total(w.state)
  {
    AttributeKeepsSlack(w.ledger, w.keys[TARGET], w.keys[sponsor], w.state[VAULT].lamports, applied[VAULT].lamports);
  }

  lemma MoveTarget(rent: Rent, w: World, a: Action, fee: u64, slack: nat, fees: nat)
    requires var e := Step(a, false, fee);
             Inv(rent, w, slack, fees) && Permitted(rent, w, e) && Covered(rent, w, e) && Funded(rent, w, e)
    ensures var m := Moved(rent, w, Step(a, false, fee));
            m.Some? && Inv(rent, m.value, slack, fees + fee) && Total(m.value.state) + fee == Total(w.state)
  {
    var applied := Outcome(rent, w, a);
    if a.sponsor !in FUNDERS {
      OutsiderMovesNothing(rent, w, a, slack, fees);
      TransferKeepsInv(rent, w, SPONSOR, applied, 0, 0, fee, slack, fees);
      assert Settled(w, a.sponsor, applied, fee) == Settled(w, SPONSOR, applied, fee);
      return;
    }
    var payment, refund := 0, 0;
    if Predict(rent, a, w.state, w.ledger.deposits[w.keys[TARGET]]).Accepted? {
      DepositFollowsLength(rent, w, a, slack, fees);
      payment := Payment(rent, a, w.state[TARGET]);
      refund := Refund(rent, a, w.state[TARGET], w.ledger.deposits[w.keys[TARGET]]);
    }
    TransferKeepsInv(rent, w, a.sponsor, applied, payment, refund, fee, slack, fees);
  }

  lemma MoveVictim(rent: Rent, w: World, a: Action, fee: u64, slack: nat, fees: nat)
    requires var e := Step(a, true, fee);
             Inv(rent, w, slack, fees) && Permitted(rent, w, e) && Covered(rent, w, e) && Funded(rent, w, e)
    ensures var m := Moved(rent, w, Step(a, true, fee));
            m.Some? && Inv(rent, m.value, slack, fees + fee) && Total(m.value.state) + fee == Total(w.state)
  {
    SwapKeepsInv(rent, w, slack, fees);
    MoveTarget(rent, Swapped(w), a, fee, slack, fees);
    var m := Moved(rent, Swapped(w), Step(a, false, fee)).value;
    SwapKeepsInv(rent, m, slack, fees + fee);
    assert Moved(rent, w, Step(a, true, fee)) == Some(Swapped(m));
  }

  /** Every event that is covered and funded leads to a settled world with the same slack; lamports
      only leave as fees. */
  lemma MoveKeepsInv(rent: Rent, w: World, e: Event, slack: nat, fees: nat)
    requires Inv(rent, w, slack, fees) && Permitted(rent, w, e) && Covered(rent, w, e) && Funded(rent, w, e)
    ensures var m := Moved(rent, w, e);
            m.Some? && Inv(rent, m.value, slack, fees + Fee(e)) && Total(m.value.state) + Fee(e) == Total(w.state)
  {
    if e.Step? {
      if e.victim {
        MoveVictim(rent, w, e.action, e.fee, slack, fees);
      } else {
        MoveTarget(rent, w, e.action, e.fee, slack, fees);
      }
    }
  }

  /** In a settled world backing always holds, and the sponsor check passes exactly when the
      equation is checkable. */
  lemma SettlesIff(rent: Rent, w: World, slack: nat, fees: nat)
    requires Inv(rent, w, slack, fees)
    ensures Backed(w.ledger, w.state[VAULT].lamports)
    ensures SponsorsSettle(w.ledger, w.keys, w.state) <==> Checkable(w, fees)
  {
    forall key | key in w.ledger.sponsors
      ensures SponsorSettles(w.ledger, w.keys, w.state, key) <==>
        (key == w.keys[PAYER] ==> fees == 0) && w.ledger.openings[key] + w.ledger.sponsors[key].refunded <= U64_MAX
    {
      var i := Position(w.keys, key).value;
      assert i in {PAYER, SPONSOR, SUBSTITUTE};
    }
  }

  lemma StepExact(rent: Rent, w: World, a: Action, fee: u64, slack: nat, fees: nat)
    requires var e := Step(a, false, fee);
             Inv(rent, w, slack, fees) && Permitted(rent, w, e) && Covered(rent, w, e) && Funded(rent, w, e)
    ensures var m := Moved(rent, w, Step(a, false, fee));
            m.Some? && StepTarget(rent, w, a, fee) == if Checkable(m.value, fees + fee) then m else None
  {
    MoveTarget(rent, w, a, fee, slack, fees);
    SettlesIff(rent, Moved(rent, w, Step(a, false, fee)).value, slack, fees + fee);
  }

  lemma VictimExact(rent: Rent, w: World, a: Action, fee: u64, slack: nat, fees: nat)
    requires var e := Step(a, true, fee);
             Inv(rent, w, slack, fees) && Permitted(rent, w, e) && Covered(rent, w, e) && Funded(rent, w, e)
    ensures var m := Moved(rent, w, Step(a, true, fee));
            m.Some? && Advance(rent, w, Step(a, true, fee)) == if Checkable(m.value, fees + fee) then m else None
  {
    SwapKeepsInv(rent, w, slack, fees);
    StepExact(rent, Swapped(w), a, fee, slack, fees);
    var m := Moved(rent, Swapped(w), Step(a, false, fee)).value;
    assert Moved(rent, w, Step(a, true, fee)) == Some(Swapped(m));
    assert Checkable(m, fees + fee) <==> Checkable(Swapped(m), fees + fee);
  }

  lemma PlainExact(rent: Rent, w: World, e: Event, slack: nat, fees: nat)
    requires Inv(rent, w, slack, fees) && !e.Step? && Covered(rent, w, e)
    ensures var m := Moved(rent, w, e);
            m.Some? && Advance(rent, w, e) == if Checkable(m.value, fees + Fee(e)) then m else None
  {
    MoveKeepsInv(rent, w, e, slack, fees);
    SettlesIff(rent, Moved(rent, w, e).value, slack, fees + Fee(e));
  }

  /** A vault movement sponsored by any other role is never accepted: its key has no opening balance. */
  lemma UnfundedRejected(rent: Rent, w: World, a: Action, fee: u64, slack: nat, fees: nat)
    requires Inv(rent, w, slack, fees) && a.sponsor < ROLES && a.sponsor !in FUNDERS
    requires Outcome(rent, w, a)[VAULT].lamports != w.state[VAULT].lamports
    ensures StepTarget(rent, w, a, fee).None?
  {
    var applied := Outcome(rent, w, a);
    var l := Attribute(w.ledger, w.keys[TARGET], w.keys[a.sponsor], w.state[VAULT].lamports, applied[VAULT].lamports);
    if l.Some? && fee <= applied[PAYER].lamports {
      assert w.keys[a.sponsor] !in w.ledger.openings;
      assert w.keys[a.sponsor] in l.value.sponsors;
      assert !SponsorSettles(l.value, w.keys, Charged(applied, fee), w.keys[a.sponsor]);
    }
  }

  /** The exact condition under which the workload accepts an event from a settled world, whoever
      sponsors it: neither the deposit cap, nor the refund guard, nor the backing check can ever be
      what fails. */
  lemma AdvanceExact(rent: Rent, w: World, e: Event, slack: nat, fees: nat)
    requires Inv(rent, w, slack, fees) && Permitted(rent, w, e)
    ensures Covered(rent, w, e) && Funded(rent, w, e) ==> Moved(rent, w, e).Some?
    ensures Advance(rent, w, e) ==
      if Covered(rent, w, e) && Funded(rent, w, e) && Checkable(Moved(rent, w, e).value, fees + Fee(e))
      then Moved(rent, w, e) else None
  {
    if !Funded(rent, w, e) {
      SwapKeepsInv(rent, w, slack, fees);
      UnfundedRejected(rent, if e.victim then Swapped(w) else w, e.action, e.fee, slack, fees);
    } else if Covered(rent, w, e) {
      if !e.Step? {
        PlainExact(rent, w, e, slack, fees);
      } else if e.victim {
        VictimExact(rent, w, e.action, e.fee, slack, fees);
      } else {
        StepExact(rent, w, e.action, e.fee, slack, fees);
      }
    }
  }

  // ---- whole runs -----------------------------------------------------------------------------

  ghost function Run(rent: Rent, w: World, events: seq<Event>): (r: Option<World>)
    requires Shaped(w) && AllLegal(events)
    ensures r.Some? ==> Shaped(r.value)
    decreases |events|
  {
    if events == [] then Some(w) else
    match Advance(rent, w, events[0])
    case None => None
    case Some(next) => Run(rent, next, events[1..])
  }

  ghost predicate AllLegal(events: seq<Event>) { forall i :: 0 <= i < |events| ==> Legal(events[i]) }

  /** No step of the run orphans an account. */
  ghost predicate Proper(rent: Rent, w: World, events: seq<Event>)
    requires Shaped(w) && AllLegal(events)
    decreases |events|
  {
    if events == [] then true else
    && Permitted(rent, w, events[0])
    && match Advance(rent, w, events[0])
       case None => true
       case Some(next) => Proper(rent, next, events[1..])
  }

  function Fees(events: seq<Event>): nat
  {
    if events == [] then 0 else Fee(events[0]) + Fees(events[1..])
  }

  /** What no event touches: the keys, the floor and the deposits of other accounts. */
  ghost predicate Framed(w: World, last: World) {
    && Shaped(w) && Shaped(last)
    && last.keys == w.keys && last.ledger.floor == w.ledger.floor
    && last.ledger.deposits.Keys == w.ledger.deposits.Keys
    && forall key :: key in w.ledger.deposits && key !in {w.keys[TARGET], w.keys[VICTIM]} ==>
         last.ledger.deposits[key] == w.ledger.deposits[key]
  }

  lemma MoveFrames(rent: Rent, w: World, e: Event)
    requires Shaped(w) && Legal(e) && Moved(rent, w, e).Some?
    requires w.keys[TARGET] in w.ledger.deposits && w.keys[VICTIM] in w.ledger.deposits
    ensures Framed(w, Moved(rent, w, e).value)
  {
    assert Exchanged(Exchanged(w.keys)) == w.keys;
  }

  /** Over every run: lamports are conserved up to the fees, deposits stay equal to the rent owed,
      the vault keeps backing floor, deposits and surplus with unchanged slack, and every sponsor's
      equation keeps holding. */
  lemma {:induction false} RunKeepsInv(rent: Rent, w: World, events: seq<Event>, slack: nat, fees: nat)
    requires Inv(rent, w, slack, fees) && AllLegal(events) && Proper(rent, w, events)
    requires Run(rent, w, events).Some?
    ensures Inv(rent, Run(rent, w, events).value, slack, fees + Fees(events))
    ensures Total(Run(rent, w, events).value.state) + Fees(events) == Total(w.state)
    ensures Framed(w, Run(rent, w, events).value)
    decreases |events|
  {
    if events != [] {
      var e := events[0];
      AdvanceExact(rent, w, e, slack, fees);
      var next := Moved(rent, w, e).value;
      MoveFrames(rent, w, e);
      MoveKeepsInv(rent, w, e, slack, fees);
      RunKeepsInv(rent, next, events[1..], slack, fees + Fee(e));
      FramedChain(w, next, Run(rent, next, events[1..]).value);
      assert Run(rent, w, events) == Run(rent, next, events[1..]);
    }
  }

  lemma FramedChain(a: World, b: World, c: World)
    requires Framed(a, b) && Framed(b, c)
    ensures Framed(a, c)
  {
  }

  lemma SumValuesSame(a: map<Pubkey, nat>, b: map<Pubkey, nat>)
    requires a.Keys == b.Keys && forall key :: key in a ==> a[key] == b[key]
    ensures SumValues(a) == SumValues(b)
  {
    assert a == b;
  }

  /** A run that returns both targets to the rent they owed and moves no surplus returns the vault
      to its balance: every create is refunded in full by its close. */
  lemma VaultRestored(rent: Rent, w: World, events: seq<Event>, slack: nat, fees: nat)
    requires Inv(rent, w, slack, fees) && AllLegal(events) && Proper(rent, w, events)
    requires Run(rent, w, events).Some?
    requires Run(rent, w, events).value.ledger.surplus == w.ledger.surplus
    requires Due(rent, Run(rent, w, events).value.state[TARGET]) == Due(rent, w.state[TARGET])
    requires Due(rent, Run(rent, w, events).value.state[VICTIM]) == Due(rent, w.state[VICTIM])
    ensures Run(rent, w, events).value.state[VAULT].lamports == w.state[VAULT].lamports
  {
    RunKeepsInv(rent, w, events, slack, fees);
    SumValuesSame(Run(rent, w, events).value.ledger.deposits, w.ledger.deposits);
  }

  /** A refused action, on the target or the victim, costs its fee and nothing else. */
  lemma RefusalChangesNothing(rent: Rent, w: World, a: Action, victim: bool, fee: u64)
    requires Shaped(w) && a.sponsor < ROLES && fee <= w.state[PAYER].lamports
    requires var v := if victim then Swapped(w) else w;
             Predict(rent, a, v.state, DepositOf(v.ledger, v.keys[TARGET])).Refused?
    ensures Moved(rent, w, Step(a, victim, fee)) == Moved(rent, w, Probe(fee))
  {
    if victim {
      assert Exchanged(Exchanged(w.keys)) == w.keys;
      assert Exchanged(Charged(Exchanged(w.state), fee)) == Charged(w.state, fee);
    }
  }

  /** An orphaning step, once accepted, always leaves a deposit that nothing owes. */
  lemma OrphanBreaks(rent: Rent, w: World, a: Action, victim: bool, fee: u64, slack: nat, fees: nat)
    requires var e := Step(a, victim, fee); Inv(rent, w, slack, fees) && Legal(e) && Orphans(rent, w, e)
    requires Advance(rent, w, Step(a, victim, fee)).Some?
    ensures var z, i := Advance(rent, w, Step(a, victim, fee)).value, if victim then VICTIM else TARGET;
            && z.keys == w.keys && DepositOf(z.ledger, w.keys[i]) > 0 && Due(rent, z.state[i]) == 0
  {
    SwapKeepsInv(rent, w, slack, fees);
    if victim {
      OrphanStep(rent, Swapped(w), a, fee, slack, fees);
    } else {
      OrphanStep(rent, w, a, fee, slack, fees);
    }
  }

  lemma OrphanStep(rent: Rent, w: World, a: Action, fee: u64, slack: nat, fees: nat)
    requires Inv(rent, w, slack, fees) && a.sponsor < ROLES && Orphans(rent, w, Step(a, false, fee))
    requires StepTarget(rent, w, a, fee).Some?
    ensures var z := StepTarget(rent, w, a, fee).value;
            && z.keys == w.keys && DepositOf(z.ledger, w.keys[TARGET]) > 0 && Due(rent, z.state[TARGET]) == 0
  {
    if a.sponsor !in FUNDERS {
      assert Outcome(rent, w, a)[VAULT].lamports != w.state[VAULT].lamports;
      UnfundedRejected(rent, w, a, fee, slack, fees);
    }
  }

  // ---- how a workload opens ---------------------------------------------------------------------

  /** A workload as `into_workload` opens it: the victim is checked to be empty, the target is not. */
  ghost predicate Opening(w: World) {
    && Shaped(w) && Distinct(w.keys) && w.state[VICTIM] == EMPTY && |w.state[TARGET].data| < U32_SPAN
    && w.ledger.deposits == map[w.keys[TARGET] := 0, w.keys[VICTIM] := 0]
    && w.ledger.sponsors == map[] && w.ledger.floor == 0 && w.ledger.surplus == 0
    && w.ledger.openings == map[w.keys[PAYER] := w.state[PAYER].lamports,
                                w.keys[SPONSOR] := w.state[SPONSOR].lamports,
                                w.keys[SUBSTITUTE] := w.state[SUBSTITUTE].lamports]
  }

  /** After every accepted run that orphans nothing, lamports are conserved up to the fees and the
      target's deposit is the rent it owes. */
  ghost predicate AlwaysAgrees(rent: Rent, w: World)
    requires Opening(w)
  {
    forall events: seq<Event> ::
      AllLegal(events) && Proper(rent, w, events) && Run(rent, w, events).Some? ==> Accounted(rent, w, events)
  }

  ghost predicate Accounted(rent: Rent, w: World, events: seq<Event>)
    requires Shaped(w) && AllLegal(events) && Run(rent, w, events).Some?
  {
    var z := Run(rent, w, events).value;
    && Total(z.state) + Fees(events) == Total(w.state)
    && DepositOf(z.ledger, z.keys[TARGET]) == Due(rent, z.state[TARGET])
  }

  lemma OpeningBalanced(w: World)
    requires Opening(w)
    ensures SumValues(w.ledger.deposits) == 0
  {
    SumValuesSplit(w.ledger.deposits, w.keys[TARGET]);
    SumValuesSplit(w.ledger.deposits - {w.keys[TARGET]}, w.keys[VICTIM]);
    assert w.ledger.deposits - {w.keys[TARGET]} - {w.keys[VICTIM]} == map[];
  }

  /** A target already there at the opening can be closed by its owner at once; it is refunded nothing,
      whatever rent it owes, and whatever lamports it holds are gone. */
  lemma PresentTargetCloses(rent: Rent, w: World)
    requires Opening(w) && w.state[TARGET].owner != SYSTEM
    ensures Advance(rent, w, Closing(w)) == Some(w.(state := w.state[TARGET := EMPTY]))
    ensures Refund(rent, Closing(w).action, w.state[TARGET], 0) == 0
    ensures Monus(Due(rent, w.state[TARGET]), NewRent(rent, Close)) == Due(rent, w.state[TARGET])
    ensures Total(w.state[TARGET := EMPTY]) == Total(w.state) - w.state[TARGET].lamports
  {
    OpeningBalanced(w);
    var a := Closing(w).action;
    assert Predict(rent, a, w.state, 0) == Accepted(w.state[TARGET := EMPTY]) by {
      assert Affordable(rent, a, w.state, 0);
      var t := w.state[TARGET := EMPTY];
      assert t[SPONSOR := t[SPONSOR].(lamports := w.state[SPONSOR].lamports)] == t;
      assert t[VAULT := t[VAULT].(lamports := w.state[VAULT].lamports)] == t;
    }
    var t := w.state[TARGET := EMPTY];
    assert Charged(t, 0) == t;
  }

  function Closing(w: World): Event
    requires Shaped(w)
  {
    Step(Action(Close, w.state[TARGET].owner, 0, SPONSOR), false, 0)
  }

  /** Oracle and ledger agree over every run from an opening if and only if its target holds no lamports
      unless it is absent, and owes no rent. */
  lemma OpeningExact(rent: Rent, w: World)
    requires Opening(w)
    ensures AlwaysAgrees(rent, w) <==>
      (w.state[TARGET].owner == SYSTEM || w.state[TARGET].lamports == 0) && Due(rent, w.state[TARGET]) == 0
  {
    OpeningBalanced(w);
    if Due(rent, w.state[TARGET]) != 0 {
      assert Run(rent, w, []) == Some(w);
      assert !Accounted(rent, w, []);
    } else if w.state[TARGET].owner != SYSTEM && w.state[TARGET].lamports != 0 {
      LamportsVanish(rent, w);
    } else {
      forall events: seq<Event> |
        AllLegal(events) && Proper(rent, w, events) && Run(rent, w, events).Some?
        ensures Accounted(rent, w, events)
      {
        RunKeepsInv(rent, w, events, w.state[VAULT].lamports, 0);
      }
    }
  }

  lemma LamportsVanish(rent: Rent, w: World)
    requires Opening(w) && w.state[TARGET].owner != SYSTEM && w.state[TARGET].lamports != 0
    ensures Run(rent, w, [Closing(w)]).Some? && Proper(rent, w, [Closing(w)]) && !Accounted(rent, w, [Closing(w)])
  {
    PresentTargetCloses(rent, w);
    var next := Advance(rent, w, Closing(w)).value;
    assert [Closing(w)][1..] == [];
    assert Run(rent, next, []) == Some(next);
    assert Fees([Closing(w)]) == Fee(Closing(w)) + Fees([]);
  }

  function OpeningWith(target: Account): World {
    World([10, 11, 12, 13, 14, 15], [EMPTY, EMPTY, target, EMPTY, EMPTY, EMPTY],
          Ledger(map[12 := 0, 15 := 0], map[], map[10 := 0, 11 := 0, 14 := 0], 0, 0))
  }

  /** Openings that break: a target that already owes rent, which closing does not refund, and one that
      holds lamports, which closing loses. */
  lemma BrokenOpenings()
    ensures var owing := OpeningWith(Account(0, [], 1, false, U64_MAX));
            Opening(owing) && !AlwaysAgrees(_ => 5, owing)
    ensures var holding := OpeningWith(Account(3, [], 1, false, U64_MAX));
            Opening(holding) && !AlwaysAgrees(_ => 0, holding)
  {
    OpeningExact(_ => 5, OpeningWith(Account(0, [], 1, false, U64_MAX)));
    OpeningExact(_ => 0, OpeningWith(Account(3, [], 1, false, U64_MAX)));
  }

  /** The floor is then raised to exclude the victim's older deposit. */
  lemma FloorRaised(rent: Rent, w: World, slack: nat, fees: nat, raise: nat)
    requires Inv(rent, w, slack, fees) && raise <= slack
    ensures Inv(rent, w.(ledger := w.ledger.(floor := w.ledger.floor + raise)), slack - raise, fees)
  {
  }
}
