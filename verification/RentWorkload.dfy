/** The evolving workload object: it advances its expected images only when state, record and rent
    ledger all agree with the oracle. */
module RentWorkload {
  import opened Common
  import opened RentOracle
  import opened RentLedger
  import opened RentRuns

  /** What one probe brings back from outside: its record and the images read around it. */
  datatype Evidence = Evidence(record: Record, before: seq<Account>, after: seq<Account>, baseIntact: bool)

  /** An action expected to run under the oracle, or an error expected at an instruction index. */
  datatype Effect = Act(action: Action) | Fail(error: TxError)

  function SponsorOf(f: Effect): nat { if f.Act? then f.action.sponsor else SPONSOR }

  function Applied(rent: Rent, w: World, f: Effect): (after: seq<Account>)
    requires Shaped(w) && SponsorOf(f) < ROLES
    ensures |after| == ROLES
  {
    if f.Act? then Outcome(rent, w, f.action) else w.state
  }

  function ExpectedError(rent: Rent, w: World, f: Effect): Option<TxError>
    requires Shaped(w) && SponsorOf(f) < ROLES
  {
    match f
    case Fail(error) => Some(error)
    case Act(a) =>
      match Predict(rent, a, w.state, DepositOf(w.ledger, w.keys[TARGET]))
      case Accepted(_) => None
      case Refused(reason) => Some(InstructionError(0, reason))
  }

  /** Everything `Workload::run` checks before it advances. */
  ghost predicate Agrees(rent: Rent, hash: Hash, w: World, f: Effect, e: Evidence)
    requires Shaped(w) && SponsorOf(f) < ROLES
  {
    && e.before == w.state
    && (f.Act? ==> w.keys[TARGET] in w.ledger.deposits)
    && e.record.fee <= Applied(rent, w, f)[PAYER].lamports
    && e.after == Charged(Applied(rent, w, f), e.record.fee)
    && RecordAgrees(hash, e.record, w.keys, w.state, e.after, ExpectedError(rent, w, f))
    && e.baseIntact
  }

  /** What an accepted step means, field by field: the images read before are the expected ones; an action
      did what the oracle says under exactly the error the record retains, an expected failure retained its
      error and changed nothing; the payer paid the fee; record, ledger and base chain bear it out. */
  ghost predicate Justified(rent: Rent, hash: Hash, w: World, f: Effect, e: Evidence, next: World)
    requires Shaped(w) && SponsorOf(f) < ROLES
  {
    && Shaped(next) && next.keys == w.keys && e.before == w.state && e.after == next.state && e.baseIntact
    && next.state[PAYER].lamports + e.record.fee <= U64_MAX
    && Caused(rent, w, f, e.record, Refunded(next.state, e.record.fee))
    && Testifies(hash, e.record, w.keys, w.state, next.state, e.record.err)
    && Attributed(w.ledger, w.keys, w.keys[SponsorOf(f)], w.state, next.state) == Some(next.ledger)
  }

  /** The images with the fee given back. */
  function Refunded(state: seq<Account>, fee: nat): (r: seq<Account>)
    requires |state| == ROLES && state[PAYER].lamports + fee <= U64_MAX
    ensures |r| == ROLES
  {
    state[PAYER := state[PAYER].(lamports := state[PAYER].lamports + fee)]
  }

  ghost predicate Caused(rent: Rent, w: World, f: Effect, r: Record, applied: seq<Account>)
    requires Shaped(w) && SponsorOf(f) < ROLES && |applied| == ROLES
  {
    match f
    case Fail(error) => r.err == Some(error) && applied == w.state
    case Act(a) =>
      && w.keys[TARGET] in w.ledger.deposits && (r.err.Some? ==> r.err.value.index == 0)
      && Lawful(rent, a, w.state, w.ledger.deposits[w.keys[TARGET]],
                if r.err.Some? then Some(r.err.value.reason) else None, applied)
  }

  /** Once the record's error is the expected one, the effect is the cause. */
  lemma EffectCauses(rent: Rent, w: World, f: Effect, r: Record, applied: seq<Account>)
    requires Shaped(w) && SponsorOf(f) < ROLES && |applied| == ROLES
    requires f.Act? ==> w.keys[TARGET] in w.ledger.deposits
    ensures Caused(rent, w, f, r, applied) <==> applied == Applied(rent, w, f) && r.err == ExpectedError(rent, w, f)
  {
    if f.Act? {
      var deposit := w.ledger.deposits[w.keys[TARGET]];
      PredictLawful(rent, f.action, w.state, deposit);
      hide Predict, Lawful;
      var predicted := Predict(rent, f.action, w.state, deposit);
      var reason := if predicted.Refused? then Some(predicted.reason) else None;
      var after := if predicted.Refused? then w.state else predicted.state;
      if Caused(rent, w, f, r, applied) {
        LawfulDetermined(rent, f.action, w.state, deposit,
                         if r.err.Some? then Some(r.err.value.reason) else None, applied, reason, after);
      }
    }
  }

  lemma FeeRoundTrip(applied: seq<Account>, fee: u64, state: seq<Account>)
    requires |applied| == |state| == ROLES
    ensures fee <= applied[PAYER].lamports && state == Charged(applied, fee) <==>
      state[PAYER].lamports + fee <= U64_MAX && applied == Refunded(state, fee)
  {
    if fee <= applied[PAYER].lamports && state == Charged(applied, fee) {
      assert applied == Refunded(state, fee);
    }
    if state[PAYER].lamports + fee <= U64_MAX && applied == Refunded(state, fee) {
      assert state == Charged(applied, fee);
    }
  }

  /** The step is accepted exactly when it is justified, and leads there. */
  lemma StepMeans(rent: Rent, hash: Hash, w: World, f: Effect, e: Evidence, next: World)
    requires Shaped(w) && SponsorOf(f) < ROLES
    ensures Agrees(rent, hash, w, f, e) && Reconciled(w, SponsorOf(f), Applied(rent, w, f), e.record.fee) == Some(next)
       <==> Justified(rent, hash, w, f, e, next)
  {
    if |e.after| == ROLES {
      FeeRoundTrip(Applied(rent, w, f), e.record.fee, e.after);
      RecordMeans(hash, e.record, w.keys, w.state, e.after, ExpectedError(rent, w, f));
      ErrorRetained(hash, e.record, w.keys, w.state, e.after, ExpectedError(rent, w, f));
      if f.Act? ==> w.keys[TARGET] in w.ledger.deposits {
        if e.after[PAYER].lamports + e.record.fee <= U64_MAX {
          EffectCauses(rent, w, f, e.record, Refunded(e.after, e.record.fee));
        }
      }
      hide Applied, ExpectedError, RecordAgrees, Testifies, Attributed, Lawful, Refunded, Charged;
    }
  }

  lemma ErrorRetained(hash: Hash, r: Record, keys: seq<Pubkey>, before: seq<Account>, after: seq<Account>,
                      expected: Option<TxError>)
    requires |keys| == |before| == |after| == ROLES
    ensures Testifies(hash, r, keys, before, after, expected) <==>
      Testifies(hash, r, keys, before, after, r.err) && r.err == expected
  {
  }

  class Workload {
    var keys: seq<Pubkey>
    var expected: seq<Account>
    const ledger: RentLedger

    constructor (keys: seq<Pubkey>, expected: seq<Account>, ledger: RentLedger)
      ensures this.keys == keys && this.expected == expected && this.ledger == ledger
    {
      this.keys, this.expected, this.ledger := keys, expected, ledger;
    }

    function View(): World
      reads this, ledger
    {
      World(keys, expected, ledger.View())
    }

    /** `Workload::run`. */
    method Run(rent: Rent, hash: Hash, f: Effect, e: Evidence) returns (ok: bool)
      requires Shaped(View()) && SponsorOf(f) < ROLES
      modifies this, ledger
      ensures keys == old(keys) && (!ok ==> expected == old(expected))
      ensures ok <==> Agrees(rent, hash, old(View()), f, e)
                      && Reconciled(old(View()), SponsorOf(f), Applied(rent, old(View()), f), e.record.fee).Some?
      ensures ok ==> View() == Reconciled(old(View()), SponsorOf(f), Applied(rent, old(View()), f), e.record.fee).value
      ensures ok ==> Justified(rent, hash, old(View()), f, e, View())
      ensures !ok ==> forall next :: !Justified(rent, hash, old(View()), f, e, next)
    {
      forall next {
        StepMeans(rent, hash, View(), f, e, next);
      }
      hide Justified, RecordAgrees, Attributed, Predict, Outcome;
      ok := false;
      if e.before != expected {
        return;
      }
      var before := expected;
      var known, after, expectedError := Expect(rent, f);
      if !known {
        return;
      }
      if after[PAYER].lamports < e.record.fee {
        return;
      }
      after := after[PAYER := after[PAYER].(lamports := after[PAYER].lamports - e.record.fee)];
      if e.after != after || !RecordAgrees(hash, e.record, keys, before, after, expectedError) {
        return;
      }
      assert after == Charged(Applied(rent, View(), f), e.record.fee);
      ok := ledger.Apply(keys, keys[SponsorOf(f)], before, after);
      ok := ok && e.baseIntact;
      expected := if ok then after else before;
    }

    /** The oracle's images and error for an effect; unknown when the target has no deposit entry. */
    method Expect(rent: Rent, f: Effect) returns (known: bool, after: seq<Account>, error: Option<TxError>)
      requires Shaped(View()) && SponsorOf(f) < ROLES
      ensures known <==> f.Act? ==> keys[TARGET] in ledger.deposits
      ensures |after| == ROLES
      ensures known ==> after == Applied(rent, View(), f) && error == ExpectedError(rent, View(), f)
    {
      known, after, error := true, expected, None;
      match f {
        case Fail(e) =>
          error := Some(e);
        case Act(a) =>
          if keys[TARGET] !in ledger.deposits {
            known := false;
            return;
          }
          var before := expected;
          var images := new Account[ROLES](i requires 0 <= i < ROLES => before[i]);
          assert images[..] == before;
          var refusal := Apply(rent, a, images, ledger.deposits[keys[TARGET]]);
          after := images[..];
          error := if refusal.Some? then Some(InstructionError(0, refusal.value)) else None;
      }
    }

    /** `Workload::step_victim`: exchanges target and victim around one step, and back again whether
        or not the step agreed. */
    method StepVictim(rent: Rent, hash: Hash, a: Action, e: Evidence) returns (ok: bool)
      requires Shaped(View()) && a.sponsor < ROLES
      modifies this, ledger
      ensures keys == old(keys) && (!ok ==> expected == old(expected))
      ensures ok <==> Agrees(rent, hash, Swapped(old(View())), Act(a), e)
                      && RentRuns.StepVictim(rent, old(View()), a, e.record.fee).Some?
      ensures ok ==> View() == RentRuns.StepVictim(rent, old(View()), a, e.record.fee).value
    {
      assert Exchanged(Exchanged(keys)) == keys && Exchanged(Exchanged(expected)) == expected;
      keys, expected := Exchanged(keys), Exchanged(expected);
      ok := Run(rent, hash, Act(a), e);
      keys, expected := Exchanged(keys), Exchanged(expected);
    }
  }
}
