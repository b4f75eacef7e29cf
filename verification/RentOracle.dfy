/**
 The ephemeral-account oracle: what one create, resize or close must do to the tracked
 accounts, and how a retained execution record is reconciled with that prediction.
 The rent schedule and the content hash come from outside the code and are parameters.
 */
module RentOracle {
  import opened Common

  type Pubkey = nat
  const SYSTEM: Pubkey := 0

  const PAYER: nat := 0
  const SPONSOR: nat := 1
  const TARGET: nat := 2
  const VAULT: nat := 3
  const SUBSTITUTE: nat := 4
  const VICTIM: nat := 5
  const ROLES: nat := 6

  datatype Account = Account(lamports: u64, data: seq<byte>, owner: Pubkey, executable: bool, rentEpoch: u64)

  const EMPTY: Account := Account(0, [], SYSTEM, false, U64_MAX)

  datatype Operation = Create(dataLen: u32) | Resize(newDataLen: u32) | Close

  datatype Reason = InvalidAccountData | InvalidAccountOwner | InsufficientFunds | Other(code: nat)

  datatype Action = Action(operation: Operation, caller: Pubkey, fill: byte, sponsor: nat)

  type Rent = u32 -> u64

  /** The rent an existing target is charged for; an absent one owes nothing. */
  function Due(rent: Rent, target: Account): u64 {
    if target.owner != SYSTEM then rent(|target.data| % U32_SPAN) else 0
  }

  function Zeros(n: nat): (r: seq<byte>)
    ensures |r| == n
  {
    seq(n, _ => 0)
  }

  /** Rust's `Vec::resize(n, 0)`. */
  function Resized(data: seq<byte>, n: nat): (r: seq<byte>)
    ensures |r| == n
  {
    if n <= |data| then data[..n] else data + Zeros(n - |data|)
  }

  /** The refusals that do not depend on balances. */
  function Refusal(a: Action, target: Account): Option<Reason> {
    var exists' := target.owner != SYSTEM;
    match a.operation
    case Create(_) => if exists' || target.lamports != 0 then Some(InvalidAccountData) else None
    case _ =>
      if !exists' then Some(InvalidAccountData)
      else if target.owner != a.caller then Some(InvalidAccountOwner)
      else None
  }

  function NewRent(rent: Rent, op: Operation): u64 {
    match op
    case Create(n) => rent(n)
    case Resize(n) => rent(n)
    case Close => 0
  }

  function Monus(a: nat, b: nat): nat { if a > b then a - b else 0 }

  function Min(a: nat, b: nat): nat { if a < b then a else b }

  function Payment(rent: Rent, a: Action, target: Account): nat {
    Monus(NewRent(rent, a.operation), Due(rent, target))
  }

  /** What leaves the vault: never more than the deposit attributed to the target. */
  function Refund(rent: Rent, a: Action, target: Account, deposit: nat): nat {
    Min(Monus(Due(rent, target), NewRent(rent, a.operation)), deposit)
  }

  function NewTarget(a: Action, target: Account): Account {
    var changed := match a.operation
      case Create(n) => target.(owner := a.caller, rentEpoch := U64_MAX, data := Zeros(n))
      case Resize(n) => target.(data := Resized(target.data, n))
      case Close => EMPTY;
    if a.fill != 0 then changed.(data := seq(|changed.data|, _ => a.fill)) else changed
  }

  /** Both balances must stay in `u64` at every intermediate sum. */
  predicate Affordable(rent: Rent, a: Action, state: seq<Account>, deposit: nat)
    requires |state| == ROLES && a.sponsor < ROLES
  {
    var refund, payment := Refund(rent, a, state[TARGET], deposit), Payment(rent, a, state[TARGET]);
    && 0 <= state[a.sponsor].lamports + refund - payment
    && state[a.sponsor].lamports + refund <= U64_MAX
    && 0 <= state[VAULT].lamports + payment - refund
    && state[VAULT].lamports + payment <= U64_MAX
  }

  datatype Prediction = Accepted(state: seq<Account>) | Refused(reason: Reason)

  /** The predicted effect of one action on the tracked accounts. */
  function Predict(rent: Rent, a: Action, state: seq<Account>, deposit: nat): (p: Prediction)
    requires |state| == ROLES && a.sponsor < ROLES
    ensures p.Accepted? ==> |p.state| == ROLES
  {
    match Refusal(a, state[TARGET])
    case Some(reason) => Refused(reason)
    case None =>
      if !Affordable(rent, a, state, deposit) then Refused(InsufficientFunds) else
      var refund, payment := Refund(rent, a, state[TARGET], deposit), Payment(rent, a, state[TARGET]);
      var sponsor, vault := state[a.sponsor].lamports + refund - payment, state[VAULT].lamports + payment - refund;
      var s := state[TARGET := NewTarget(a, state[TARGET])];
      var t := s[a.sponsor := s[a.sponsor].(lamports := sponsor)];
      Accepted(t[VAULT := t[VAULT].(lamports := vault)])
  }

  // ---- what the oracle means, field by field ----------------------------------------------------

  /** Who may do it: a create needs an absent account without lamports, anything else the owner. */
  predicate Authorised(a: Action, target: Account) {
    if a.operation.Create? then target.owner == SYSTEM && target.lamports == 0
    else target.owner != SYSTEM && target.owner == a.caller
  }

  /** Rent before and after the action. */
  function OldRent(rent: Rent, target: Account): u64 {
    if target.owner == SYSTEM then 0 else rent(|target.data| % U32_SPAN)
  }

  function RentAfter(rent: Rent, a: Action): u64 {
    match a.operation
    case Create(n) => rent(n)
    case Resize(n) => rent(n)
    case Close => 0
  }

  /** What the sponsor pays into the vault; negative when the vault refunds it, which it does from the
      target's deposit alone. */
  function Charge(rent: Rent, a: Action, target: Account, deposit: nat): int {
    var more := RentAfter(rent, a) - OldRent(rent, target);
    if more + deposit < 0 then 0 - deposit else more
  }

  /** The sponsor has it and the vault can take it, or the other way round. */
  predicate Sufficient(rent: Rent, a: Action, before: seq<Account>, deposit: nat)
    requires |before| == ROLES && a.sponsor < ROLES
  {
    var charge := Charge(rent, a, before[TARGET], deposit);
    && 0 <= before[a.sponsor].lamports - charge <= U64_MAX
    && 0 <= before[VAULT].lamports + charge <= U64_MAX
  }

  /** The target's data afterwards: created bytes are zero, a resize keeps the common prefix and adds
      zeros, a close leaves none, and a fill overwrites whatever is there. */
  ghost predicate NewData(a: Action, before: seq<byte>, after: seq<byte>) {
    && |after| == (match a.operation case Create(n) => n case Resize(n) => n case Close => 0)
    && forall i :: 0 <= i < |after| ==>
         after[i] == if a.fill != 0 then a.fill else if a.operation.Resize? && i < |before| then before[i] else 0
  }

  /** Lamports and data of every account after an accepted action. */
  ghost predicate Performed(rent: Rent, a: Action, before: seq<Account>, after: seq<Account>, deposit: nat)
    requires |before| == ROLES && a.sponsor < ROLES
  {
    var charge := Charge(rent, a, before[TARGET], deposit);
    && |after| == ROLES
    && NewData(a, before[TARGET].data, after[TARGET].data)
    && after[TARGET].owner == (match a.operation
                               case Create(_) => a.caller case Resize(_) => before[TARGET].owner case Close => SYSTEM)
    && after[TARGET].executable == (!a.operation.Close? && before[TARGET].executable)
    && after[TARGET].rentEpoch == (if a.operation.Resize? then before[TARGET].rentEpoch else U64_MAX)
    && after[VAULT].lamports == before[VAULT].lamports + charge
    && (a.sponsor != VAULT ==> after[a.sponsor].lamports == before[a.sponsor].lamports - charge)
    && (a.sponsor != TARGET ==>
          after[TARGET].lamports == if a.operation.Close? then 0 else before[TARGET].lamports)
    && (forall i :: 0 <= i < ROLES && i != TARGET && i != VAULT && i != a.sponsor ==> after[i] == before[i])
    && (forall i :: 0 <= i < ROLES && i != TARGET ==> after[i] == before[i].(lamports := after[i].lamports))
  }

  /** Exactly when each refusal is given. */
  ghost predicate RefusedFor(rent: Rent, a: Action, before: seq<Account>, deposit: nat, reason: Reason)
    requires |before| == ROLES && a.sponsor < ROLES
  {
    var target := before[TARGET];
    match reason
    case InvalidAccountData =>
      if a.operation.Create? then target.owner != SYSTEM || target.lamports != 0 else target.owner == SYSTEM
    case InvalidAccountOwner => !a.operation.Create? && target.owner != SYSTEM && target.owner != a.caller
    case InsufficientFunds => Authorised(a, target) && !Sufficient(rent, a, before, deposit)
    case Other(_) => false
  }

  /** The oracle's answer, without reference to how it is computed. */
  ghost predicate Lawful(rent: Rent, a: Action, before: seq<Account>, deposit: nat,
                         refusal: Option<Reason>, after: seq<Account>)
    requires |before| == ROLES && a.sponsor < ROLES
  {
    match refusal
    case None => Authorised(a, before[TARGET]) && Sufficient(rent, a, before, deposit)
                 && Performed(rent, a, before, after, deposit)
    case Some(reason) => RefusedFor(rent, a, before, deposit, reason) && after == before
  }

  lemma PredictLawful(rent: Rent, a: Action, before: seq<Account>, deposit: nat)
    requires |before| == ROLES && a.sponsor < ROLES
    ensures match Predict(rent, a, before, deposit)
      case Accepted(after) => Lawful(rent, a, before, deposit, None, after)
      case Refused(reason) => Lawful(rent, a, before, deposit, Some(reason), before)
  {
    DataLawful(a, before[TARGET]);
  }

  lemma DataLawful(a: Action, target: Account)
    ensures NewData(a, target.data, NewTarget(a, target).data)
  {
  }

  /** The refusals exclude each other and the acceptance: the answer is determined. */
  lemma LawfulDetermined(rent: Rent, a: Action, before: seq<Account>, deposit: nat,
                         r: Option<Reason>, after: seq<Account>, r': Option<Reason>, after': seq<Account>)
    requires |before| == ROLES && a.sponsor < ROLES
    requires Lawful(rent, a, before, deposit, r, after) && Lawful(rent, a, before, deposit, r', after')
    ensures r == r' && after == after'
  {
    if r.None? && r'.None? {
      assert after[TARGET].data == after'[TARGET].data;
      forall i | 0 <= i < ROLES ensures after[i] == after'[i] {
        assert after[i].lamports == after'[i].lamports;
      }
    }
  }

  /** Creates, resizes or clears the target account, then fills what data it has. */
  method EditTarget(a: Action, state: array<Account>)
    requires state.Length == ROLES
    modifies state
    ensures state[..] == old(state[..])[TARGET := NewTarget(a, old(state[TARGET]))]
  {
    match a.operation {
      case Create(n) => state[TARGET] := state[TARGET].(owner := a.caller, rentEpoch := U64_MAX, data := Zeros(n));
      case Resize(n) => state[TARGET] := state[TARGET].(data := Resized(state[TARGET].data, n));
      case Close => state[TARGET] := EMPTY;
    }
    if a.fill != 0 {
      state[TARGET] := state[TARGET].(data := seq(|state[TARGET].data|, _ => a.fill));
    }
  }

  /** `Action::apply`: edits the account slice in place, or reports why it must be refused. */
  method Apply(rent: Rent, a: Action, state: array<Account>, deposit: nat) returns (refusal: Option<Reason>)
    requires state.Length == ROLES && a.sponsor < ROLES
    modifies state
    ensures match Predict(rent, a, old(state[..]), deposit)
      case Accepted(after) => refusal == None && state[..] == after
      case Refused(reason) => refusal == Some(reason) && state[..] == old(state[..])
    ensures Lawful(rent, a, old(state[..]), deposit, refusal, state[..])
  {
    PredictLawful(rent, a, state[..], deposit);
    hide Lawful, RefusedFor, Performed;
    var target := state[TARGET];
    var exists' := target.owner != SYSTEM;
    var oldRent := if exists' then rent(|target.data| % U32_SPAN) else 0;
    var newRent: u64;
    if a.operation.Create? {
      if exists' || target.lamports != 0 {
        return Some(InvalidAccountData);
      }
      newRent := rent(a.operation.dataLen);
    } else {
      if !exists' {
        return Some(InvalidAccountData);
      }
      if target.owner != a.caller {
        return Some(InvalidAccountOwner);
      }
      newRent := if a.operation.Resize? then rent(a.operation.newDataLen) else 0;
    }
    var refund := Min(Monus(oldRent, newRent), deposit);
    var payment := Monus(newRent, oldRent);
    var sponsor := state[a.sponsor].lamports + refund;
    if sponsor > U64_MAX || sponsor < payment {
      return Some(InsufficientFunds);
    }
    var vault := state[VAULT].lamports + payment;
    if vault > U64_MAX || vault < refund {
      return Some(InsufficientFunds);
    }
    EditTarget(a, state);
    state[a.sponsor] := state[a.sponsor].(lamports := sponsor - payment);
    state[VAULT] := state[VAULT].(lamports := vault - refund);
    refusal := None;
  }

  /** What a CPI wrapper logs about one account; the hash is the foreign content hash. */
  datatype Observation = Observation(owner: Pubkey, length: nat, lamports: u64, hash: nat)

  type Hash = seq<byte> -> nat

  function Observe(hash: Hash, a: Account): Observation {
    Observation(a.owner, |a.data|, a.lamports, hash(a.data))
  }

  function Observations(hash: Hash, state: seq<Account>): seq<Observation>
    requires |state| == ROLES
  {
    [Observe(hash, state[TARGET]), Observe(hash, state[SPONSOR]), Observe(hash, state[VAULT])]
  }

  datatype TxError = InstructionError(index: nat, reason: Reason)

  /** A submitted transaction's account keys and its retained execution metadata. */
  datatype Record = Record(keys: seq<Pubkey>, pre: seq<u64>, post: seq<u64>, fee: u64,
                           err: Option<TxError>, observed: seq<Observation>)

  function ExpectedPost(keys: seq<Pubkey>, after: seq<Account>, key: Pubkey, pre: u64): u64
    requires |keys| == |after|
  {
    match Position(keys, key)
    case Some(i) => after[i].lamports
    case None => pre
  }

  /** Tracked keys move from their old to their new balance, every other key keeps its own,
      and only the fee leaves the transaction. */
  predicate BalancesReconcile(r: Record, keys: seq<Pubkey>, before: seq<Account>, after: seq<Account>)
    requires |keys| == |before| == |after|
  {
    && Sum(r.pre) == Sum(r.post) + r.fee
    && |r.pre| == |r.keys| == |r.post|
    && forall i :: 0 <= i < |r.keys| ==>
         && (r.keys[i] in keys ==> r.pre[i] == before[Position(keys, r.keys[i]).value].lamports)
         && r.post[i] == ExpectedPost(keys, after, r.keys[i], r.pre[i])
  }

  /** `Record::check_balances`, which edits a copy of the opening balances key by key. */
  method CheckBalances(r: Record, keys: seq<Pubkey>, before: seq<Account>, after: seq<Account>) returns (ok: bool)
    requires |keys| == |before| == |after|
    ensures ok <==> BalancesReconcile(r, keys, before, after)
  {
    if Sum(r.pre) != Sum(r.post) + r.fee {
      return false;
    }
    var balances := r.pre;
    if |balances| != |r.keys| {
      return false;
    }
    for index := 0 to |r.keys|
      invariant |balances| == |r.pre|
      invariant forall j :: index <= j < |balances| ==> balances[j] == r.pre[j]
      invariant forall j :: 0 <= j < index ==>
        && (r.keys[j] in keys ==> r.pre[j] == before[Position(keys, r.keys[j]).value].lamports)
        && balances[j] == ExpectedPost(keys, after, r.keys[j], r.pre[j])
    {
      match Position(keys, r.keys[index]) {
        case Some(i) =>
          if balances[index] != before[i].lamports {
            assert r.keys[index] in keys;
            return false;
          }
          balances := balances[index := after[i].lamports];
        case None =>
      }
    }
    ok := r.post == balances;
  }

  /** `Record::check`. */
  predicate RecordAgrees(hash: Hash, r: Record, keys: seq<Pubkey>, before: seq<Account>, after: seq<Account>,
                         expected: Option<TxError>)
    requires |keys| == |before| == |after| == ROLES
  {
    && r.err == expected
    && BalancesReconcile(r, keys, before, after)
    && (r.err.None? ==> r.observed == Observations(hash, before) + Observations(hash, after))
  }

  // ---- what a record means, field by field -------------------------------------------------------

  /** Observation `k` of a record: which account it shows, and whether before or after the action. */
  ghost predicate Witnessed(hash: Hash, o: Observation, account: Account) {
    && o.owner == account.owner && o.lamports == account.lamports
    && o.length == |account.data| && o.hash == hash(account.data)
  }

  /** The retained record tells the same story as the images: the error, the observations of target,
      sponsor and vault before and after when there is no error, and every balance. */
  ghost predicate Testifies(hash: Hash, r: Record, keys: seq<Pubkey>, before: seq<Account>, after: seq<Account>,
                            expected: Option<TxError>)
    requires |keys| == |before| == |after| == ROLES
  {
    && (expected.None? <==> r.err.None?) && (expected.Some? ==> r.err == expected)
    && (expected.None? ==> Watched(hash, r.observed, before, after))
    && Reconciles(r, keys, before, after)
  }

  ghost predicate Watched(hash: Hash, observed: seq<Observation>, before: seq<Account>, after: seq<Account>)
    requires |before| == |after| == ROLES
  {
    && |observed| == 6
    && Witnessed(hash, observed[0], before[TARGET]) && Witnessed(hash, observed[3], after[TARGET])
    && Witnessed(hash, observed[1], before[SPONSOR]) && Witnessed(hash, observed[4], after[SPONSOR])
    && Witnessed(hash, observed[2], before[VAULT]) && Witnessed(hash, observed[5], after[VAULT])
  }

  /** The i-th key of the record is the account of this role, by the first role that has it. */
  ghost predicate Plays(r: Record, keys: seq<Pubkey>, i: int, role: int)
    requires |keys| == ROLES
  {
    0 <= i < |r.keys| && 0 <= role < ROLES && keys[role] == r.keys[i] && r.keys[i] !in keys[..role]
  }

  ghost predicate Reconciles(r: Record, keys: seq<Pubkey>, before: seq<Account>, after: seq<Account>)
    requires |keys| == |before| == |after| == ROLES
  {
    && Sum(r.pre) == Sum(r.post) + r.fee && |r.pre| == |r.keys| == |r.post|
    && (forall i, role :: Plays(r, keys, i, role) ==>
          r.pre[i] == before[role].lamports && r.post[i] == after[role].lamports)
    && (forall i :: 0 <= i < |r.keys| && r.keys[i] !in keys ==> r.post[i] == r.pre[i])
  }

  /** The check accepts exactly the records that do. */
  lemma RecordMeans(hash: Hash, r: Record, keys: seq<Pubkey>, before: seq<Account>, after: seq<Account>,
                    expected: Option<TxError>)
    requires |keys| == |before| == |after| == ROLES
    ensures RecordAgrees(hash, r, keys, before, after, expected) <==> Testifies(hash, r, keys, before, after, expected)
  {
    hide Sum;
    BalancesMean(r, keys, before, after);
    hide BalancesReconcile;
  }

  lemma BalancesMean(r: Record, keys: seq<Pubkey>, before: seq<Account>, after: seq<Account>)
    requires |keys| == |before| == |after| == ROLES
    ensures BalancesReconcile(r, keys, before, after) <==> Reconciles(r, keys, before, after)
  {
    hide Sum;
    forall i, role | Plays(r, keys, i, role) ensures Position(keys, r.keys[i]) == Some(role) {
      PositionUnique(keys, r.keys[i], role);
    }
    if Reconciles(r, keys, before, after) {
      forall i | 0 <= i < |r.keys| && r.keys[i] in keys ensures Plays(r, keys, i, Position(keys, r.keys[i]).value) {
      }
    }
  }
}
