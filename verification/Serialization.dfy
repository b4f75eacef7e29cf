/**
 The backtracking search for a serial order that explains concurrently executed records.
 It is proved against an independent reading: an order explains the records when replaying
 them one after another, each reconciled with its record and the rent ledger, ends in the
 observed final images.
 */
module Serialization {
  import opened Common
  import opened RentOracle
  import opened RentLedger

  // ---- the u32 mask of consumed records -------------------------------------------------

  ghost function Pow2(n: nat): nat { if n == 0 then 1 else 2 * Pow2(n - 1) }

  predicate TestBit(mask: nat, i: nat) { if i == 0 then mask % 2 == 1 else TestBit(mask / 2, i - 1) }

  /** `mask | 1 << i`. */
  function SetBit(mask: nat, i: nat): nat {
    if i == 0 then (if mask % 2 == 1 then mask else mask + 1) else 2 * SetBit(mask / 2, i - 1) + mask % 2
  }

  function CountOnes(mask: nat): nat { if mask == 0 then 0 else mask % 2 + CountOnes(mask / 2) }

  lemma {:induction false} SetBitTest(mask: nat, i: nat, j: nat)
    ensures TestBit(SetBit(mask, i), j) <==> j == i || TestBit(mask, j)
  {
    if i > 0 && j > 0 {
      SetBitTest(mask / 2, i - 1, j - 1);
    }
  }

  lemma {:induction false} SetBitBound(mask: nat, i: nat, n: nat)
    requires i < n && mask < Pow2(n)
    ensures SetBit(mask, i) < Pow2(n)
  {
    if i > 0 {
      SetBitBound(mask / 2, i - 1, n - 1);
    }
  }

  lemma {:induction false} SetBitCount(mask: nat, i: nat)
    requires !TestBit(mask, i)
    ensures CountOnes(SetBit(mask, i)) == CountOnes(mask) + 1
  {
    if i == 0 {
      assert (mask + 1) / 2 == mask / 2 && (mask + 1) % 2 == 1;
    } else {
      SetBitCount(mask / 2, i - 1);
      var high := SetBit(mask / 2, i - 1);
      var set' := SetBit(mask, i);
      assert set' == 2 * high + mask % 2;
      assert set' / 2 == high && set' % 2 == mask % 2;
      assert CountOnes(set') == mask % 2 + CountOnes(high);
    }
  }

  /** Consuming a free record leaves fewer free, inside the mask. */
  lemma Consume(mask: nat, i: nat, n: nat)
    requires i < n && mask < Pow2(n) && !TestBit(mask, i)
    ensures SetBit(mask, i) < Pow2(n)
    ensures CountOnes(mask) < CountOnes(SetBit(mask, i)) <= n
  {
    SetBitBound(mask, i, n);
    SetBitCount(mask, i);
    CountBound(SetBit(mask, i), n);
  }

  lemma {:induction false} CountBound(mask: nat, n: nat)
    requires mask < Pow2(n)
    ensures CountOnes(mask) <= n
  {
    if n > 0 {
      CountBound(mask / 2, n - 1);
    }
  }

  lemma {:induction false} CountFull(mask: nat, n: nat, i: nat)
    requires mask < Pow2(n) && CountOnes(mask) == n && i < n
    ensures TestBit(mask, i)
  {
    CountBound(mask / 2, n - 1);
    if i > 0 {
      CountFull(mask / 2, n - 1, i - 1);
    }
  }

  lemma {:induction false} FreeBit(mask: nat, n: nat) returns (i: nat)
    requires mask < Pow2(n) && CountOnes(mask) < n
    ensures i < n && !TestBit(mask, i)
  {
    if mask % 2 == 0 {
      i := 0;
    } else {
      i := FreeBit(mask / 2, n - 1);
      i := i + 1;
    }
  }

  // ---- the reference reading ------------------------------------------------------------

  /** Everything a search holds fixed. */
  datatype Case = Case(rent: Rent, hash: Hash, keys: seq<Pubkey>, final: seq<Account>, records: seq<(Action, Record)>)

  /** What the source demands: role-indexed slices, sponsors that are roles, and a `u32` mask. */
  ghost predicate Valid(c: Case) {
    && |c.keys| == |c.final| == ROLES
    && |c.records| <= 32
    && forall i :: 0 <= i < |c.records| ==> c.records[i].0.sponsor < ROLES
  }

  /** The predicted images before the fee is taken. */
  ghost function Outcome(c: Case, before: seq<Account>, index: nat, deposit: nat): (after: seq<Account>)
    requires Valid(c) && |before| == ROLES && index < |c.records|
    ensures |after| == ROLES
  {
    match Predict(c.rent, c.records[index].0, before, deposit)
    case Accepted(state) => state
    case Refused(_) => before
  }

  ghost function OutcomeError(c: Case, before: seq<Account>, index: nat, deposit: nat): Option<TxError>
    requires Valid(c) && |before| == ROLES && index < |c.records|
  {
    match Predict(c.rent, c.records[index].0, before, deposit)
    case Accepted(_) => None
    case Refused(reason) => Some(InstructionError(0, reason))
  }

  datatype Progress = Progress(state: seq<Account>, ledger: Ledger)

  /** Replaying one record: prediction, fee, record and ledger must all agree. */
  ghost function Replay(c: Case, p: Progress, index: nat): (r: Option<Progress>)
    requires Valid(c) && |p.state| == ROLES && index < |c.records|
    ensures r.Some? ==> |r.value.state| == ROLES
  {
    if c.keys[TARGET] !in p.ledger.deposits then None else
    var deposit := p.ledger.deposits[c.keys[TARGET]];
    var applied := Outcome(c, p.state, index, deposit);
    var record := c.records[index].1;
    if applied[PAYER].lamports < record.fee then None else
    var after := applied[PAYER := applied[PAYER].(lamports := applied[PAYER].lamports - record.fee)];
    Reconciled(c, p, index, after, OutcomeError(c, p.state, index, deposit))
  }

  ghost function Reconciled(c: Case, p: Progress, index: nat, after: seq<Account>,
                             error: Option<TxError>): Option<Progress>
    requires Valid(c) && |p.state| == |after| == ROLES && index < |c.records|
  {
    var (action, record) := c.records[index];
    if !RecordAgrees(c.hash, record, c.keys, p.state, after, error) then None else
    match Attributed(p.ledger, c.keys, c.keys[action.sponsor], p.state, after)
    case None => None
    case Some(next) => Some(Progress(after, next))
  }

  /** The ledger reached when `order` replays every step and ends in the final images. */
  ghost function Explained(c: Case, p: Progress, order: seq<nat>): Option<Ledger>
    requires Valid(c) && |p.state| == ROLES
    requires forall k :: 0 <= k < |order| ==> order[k] < |c.records|
    decreases |order|
  {
    if order == [] then (if p.state == c.final then Some(p.ledger) else None)
    else match Replay(c, p, order[0])
      case None => None
      case Some(next) => Explained(c, next, order[1..])
  }

  /** `order` lists exactly the records whose bit is clear, each once. */
  ghost predicate IsOrder(c: Case, used: nat, order: seq<nat>) {
    && Distinct(order)
    && (forall k :: 0 <= k < |order| ==> order[k] < |c.records| && !TestBit(used, order[k]))
    && forall i :: 0 <= i < |c.records| && !TestBit(used, i) ==> i in order
  }

  ghost predicate Explains(c: Case, p: Progress, used: nat, order: seq<nat>)
    requires Valid(c) && |p.state| == ROLES
  {
    IsOrder(c, used, order) && Explained(c, p, order).Some?
  }

  // ---- the search -------------------------------------------------------------------------

  /** The search from a node, and its loop from record `i` on. A missing deposit or a fee the
      payer cannot cover abandons the node, whatever records are left to try. */
  ghost function Search(c: Case, p: Progress, used: nat): Option<Ledger>
    requires Valid(c) && |p.state| == ROLES && used < Pow2(|c.records|)
    decreases |c.records| - CountOnes(used), |c.records| + 1
  {
    if CountOnes(used) == |c.records| then (if p.state == c.final then Some(p.ledger) else None)
    else Try(c, p, used, 0)
  }

  ghost function Try(c: Case, p: Progress, used: nat, i: nat): Option<Ledger>
    requires Valid(c) && |p.state| == ROLES && used < Pow2(|c.records|) && i <= |c.records|
    decreases |c.records| - CountOnes(used), |c.records| - i
  {
    if i == |c.records| then None
    else if TestBit(used, i) then Try(c, p, used, i + 1)
    else if c.keys[TARGET] !in p.ledger.deposits then None
    else if FeeUncovered(c, p, i) then None
    else
      match Replay(c, p, i)
      case None => Try(c, p, used, i + 1)
      case Some(next) =>
        Consume(used, i, |c.records|);
        match Search(c, next, SetBit(used, i))
        case Some(ledger) => Some(ledger)
        case None => Try(c, p, used, i + 1)
  }

  ghost predicate FeeUncovered(c: Case, p: Progress, i: nat)
    requires Valid(c) && |p.state| == ROLES && i < |c.records| && c.keys[TARGET] in p.ledger.deposits
  {
    Outcome(c, p.state, i, p.ledger.deposits[c.keys[TARGET]])[PAYER].lamports < c.records[i].1.fee
  }

  /** One loop iteration of `find_serialization` up to the recursive call. `abandoned` stands for
      the two early exits that leave the whole node. */
  method Attempt(c: Case, before: seq<Account>, index: nat, ledger: Ledger)
    returns (abandoned: bool, next: Option<Progress>)
    requires Valid(c) && |before| == ROLES && index < |c.records|
    ensures abandoned <==> c.keys[TARGET] !in ledger.deposits || FeeUncovered(c, Progress(before, ledger), index)
    ensures next == Replay(c, Progress(before, ledger), index)
  {
    hide Predict, Reconciled;
    var (action, record) := c.records[index];
    if c.keys[TARGET] !in ledger.deposits {
      return true, None;
    }
    var after := new Account[ROLES](i requires 0 <= i < ROLES => before[i]);
    assert after[..] == before;
    var refusal := Apply(c.rent, action, after, ledger.deposits[c.keys[TARGET]]);
    var outcome := if refusal.Some? then Some(InstructionError(0, refusal.value)) else None;
    if after[PAYER].lamports < record.fee {
      return true, None;
    }
    after[PAYER] := after[PAYER].(lamports := after[PAYER].lamports - record.fee);
    abandoned := false;
    next := Reconcile(c, before, index, ledger, after[..], outcome);
  }

  /** Checks the record against the prediction and a clone of the ledger. */
  method Reconcile(c: Case, before: seq<Account>, index: nat, ledger: Ledger, after: seq<Account>,
                   error: Option<TxError>)
    returns (next: Option<Progress>)
    requires Valid(c) && |before| == |after| == ROLES && index < |c.records|
    ensures next == Reconciled(c, Progress(before, ledger), index, after, error)
  {
    var (action, record) := c.records[index];
    next := None;
    if RecordAgrees(c.hash, record, c.keys, before, after, error) {
      var clone := new RentLedger(ledger);
      var ok := clone.Apply(c.keys, c.keys[action.sponsor], before, after);
      if ok {
        next := Some(Progress(after, clone.View()));
      }
    }
  }

  /** `find_serialization`: recursive backtracking over cloned images and ledgers. */
  method FindSerialization(c: Case, before: seq<Account>, used: nat, ledger: Ledger) returns (r: Option<Ledger>)
    requires Valid(c) && |before| == ROLES && used < Pow2(|c.records|)
    ensures r == Search(c, Progress(before, ledger), used)
    decreases |c.records| - CountOnes(used)
  {
    if CountOnes(used) == |c.records| {
      return if before == c.final then Some(ledger) else None;
    }
    ghost var p := Progress(before, ledger);
    for index := 0 to |c.records|
      invariant Search(c, p, used) == Try(c, p, used, index)
    {
      if !TestBit(used, index) {
        var abandoned, next := Attempt(c, before, index, ledger);
        if abandoned {
          return None;
        }
        if next.Some? {
          Consume(used, index, |c.records|);
          var found := FindSerialization(c, next.value.state, SetBit(used, index), next.value.ledger);
          if found.Some? {
            return found;
          }
        }
      }
    }
    r := None;
  }

  // ---- soundness and completeness -----------------------------------------------------------

  /** Putting a free record before an order of the others gives an order, ... */
  lemma OrderPush(c: Case, used: nat, i: nat, rest: seq<nat>)
    requires i < |c.records| && !TestBit(used, i) && IsOrder(c, SetBit(used, i), rest)
    ensures IsOrder(c, used, [i] + rest)
  {
    var order := [i] + rest;
    forall k | 0 <= k < |rest| ensures rest[k] != i && !TestBit(used, rest[k]) {
      SetBitTest(used, i, rest[k]);
    }
    forall j | 0 <= j < |c.records| && !TestBit(used, j) ensures j in order {
      SetBitTest(used, i, j);
      assert j == i || j in rest;
    }
  }

  /** ... and every order starts that way. */
  lemma OrderPop(c: Case, used: nat, order: seq<nat>)
    requires IsOrder(c, used, order) && order != []
    ensures IsOrder(c, SetBit(used, order[0]), order[1..])
  {
    var i, rest := order[0], order[1..];
    forall k | 0 <= k < |rest| ensures rest[k] < |c.records| && !TestBit(SetBit(used, i), rest[k]) {
      assert rest[k] == order[k + 1];
      SetBitTest(used, i, rest[k]);
    }
    forall j | 0 <= j < |c.records| && !TestBit(SetBit(used, i), j) ensures j in rest {
      SetBitTest(used, i, j);
      assert j in order && j != i;
    }
  }

  /** Trying record `i` at a node makes the search leave the node. */
  ghost predicate Obstructs(c: Case, p: Progress, i: nat)
    requires Valid(c) && |p.state| == ROLES && i < |c.records|
  {
    c.keys[TARGET] !in p.ledger.deposits || FeeUncovered(c, p, i)
  }

  /** No free record before `i` does. */
  ghost predicate Clear(c: Case, p: Progress, used: nat, i: nat)
    requires Valid(c) && |p.state| == ROLES && i <= |c.records|
  {
    forall j: nat :: j < i && !TestBit(used, j) ==> !Obstructs(c, p, j)
  }

  /** The search gets to follow `order`: at every step, nothing it tries up to and including that
      step's record makes it leave the node. */
  ghost predicate Unobstructed(c: Case, p: Progress, used: nat, order: seq<nat>)
    requires Valid(c) && |p.state| == ROLES
    requires forall k :: 0 <= k < |order| ==> order[k] < |c.records|
    decreases |order|
  {
    if order == [] then true else
    && Clear(c, p, used, order[0] + 1)
    && match Replay(c, p, order[0])
       case None => true
       case Some(next) => Unobstructed(c, next, SetBit(used, order[0]), order[1..])
  }

  lemma {:induction false} SearchSound(c: Case, p: Progress, used: nat) returns (order: seq<nat>)
    requires Valid(c) && |p.state| == ROLES && used < Pow2(|c.records|) && Search(c, p, used).Some?
    ensures IsOrder(c, used, order) && Explained(c, p, order) == Search(c, p, used)
    ensures Unobstructed(c, p, used, order)
    decreases |c.records| - CountOnes(used), |c.records| + 1
  {
    if CountOnes(used) == |c.records| {
      order := [];
      forall i | 0 <= i < |c.records| ensures TestBit(used, i) {
        CountFull(used, |c.records|, i);
      }
    } else {
      order := TrySound(c, p, used, 0);
    }
  }

  lemma {:induction false} TrySound(c: Case, p: Progress, used: nat, i: nat) returns (order: seq<nat>)
    requires Valid(c) && |p.state| == ROLES && used < Pow2(|c.records|) && i <= |c.records|
    requires Try(c, p, used, i).Some? && Clear(c, p, used, i)
    ensures IsOrder(c, used, order) && Explained(c, p, order) == Try(c, p, used, i)
    ensures Unobstructed(c, p, used, order)
    decreases |c.records| - CountOnes(used), |c.records| - i
  {
    hide Replay, Outcome, FeeUncovered, TestBit, SetBit, CountOnes, Pow2, IsOrder;
    if TestBit(used, i) {
      order := TrySound(c, p, used, i + 1);
      return;
    }
    var next := Replay(c, p, i);
    Consume(used, i, |c.records|);
    if next.Some? && Search(c, next.value, SetBit(used, i)).Some? {
      var rest := SearchSound(c, next.value, SetBit(used, i));
      OrderPush(c, used, i, rest);
      order := [i] + rest;
      assert order[1..] == rest;
    } else {
      order := TrySound(c, p, used, i + 1);
    }
  }

  /** No action draws on or refunds the fee payer. */
  ghost predicate PayerOnlyPaysFees(c: Case) {
    forall i :: 0 <= i < |c.records| ==> c.records[i].0.sponsor != PAYER
  }

  /** What a caller can check up front to know an abandoned node hides nothing. */
  ghost predicate FeesNeverHide(c: Case) {
    PayerOnlyPaysFees(c) || forall i :: 0 <= i < |c.records| ==> c.records[i].1.fee == 0
  }

  /** With no action sponsored by it, the payer's balance only falls, by exactly each
      record's fee. */
  lemma PayerFalls(c: Case, p: Progress, i: nat)
    requires Valid(c) && PayerOnlyPaysFees(c) && |p.state| == ROLES && i < |c.records|
    requires Replay(c, p, i).Some?
    ensures Replay(c, p, i).value.state[PAYER].lamports == p.state[PAYER].lamports - c.records[i].1.fee
  {
  }

  /** A fee the payer cannot cover now is never covered later, so no order can place it. */
  lemma {:induction false} FeeBlocks(c: Case, p: Progress, order: seq<nat>, i: nat)
    requires Valid(c) && PayerOnlyPaysFees(c) && |p.state| == ROLES
    requires forall k :: 0 <= k < |order| ==> order[k] < |c.records|
    requires i < |c.records| && i in order && p.state[PAYER].lamports < c.records[i].1.fee
    ensures Explained(c, p, order) == None
    decreases |order|
  {
    var next := Replay(c, p, order[0]);
    if next.Some? {
      PayerFalls(c, p, order[0]);
      if order[0] != i {
        assert i in order[1..];
        FeeBlocks(c, next.value, order[1..], i);
      }
    }
  }

  /** An uncovered fee at a node only happens when the payer's own balance is short of it. */
  lemma PayerShort(c: Case, p: Progress, i: nat)
    requires Valid(c) && FeesNeverHide(c) && |p.state| == ROLES && i < |c.records|
    requires c.keys[TARGET] in p.ledger.deposits && FeeUncovered(c, p, i)
    ensures PayerOnlyPaysFees(c) && p.state[PAYER].lamports < c.records[i].1.fee
  {
  }

  lemma FirstReplays(c: Case, p: Progress, used: nat, order: seq<nat>)
    requires Valid(c) && |p.state| == ROLES && Explains(c, p, used, order) && order != []
    ensures c.keys[TARGET] in p.ledger.deposits && Replay(c, p, order[0]).Some?
    ensures Explained(c, Replay(c, p, order[0]).value, order[1..]).Some?
  {
  }

  lemma {:induction false} SearchComplete(c: Case, p: Progress, used: nat, order: seq<nat>)
    requires Valid(c) && |p.state| == ROLES && used < Pow2(|c.records|)
    requires Explains(c, p, used, order) && Unobstructed(c, p, used, order)
    ensures Search(c, p, used).Some?
    decreases |c.records| - CountOnes(used), |c.records| + 1
  {
    CountBound(used, |c.records|);
    if CountOnes(used) == |c.records| {
      if order != [] {
        CountFull(used, |c.records|, order[0]);
      }
    } else {
      var free := FreeBit(used, |c.records|);
      TryComplete(c, p, used, 0, order);
    }
  }

  lemma {:induction false} TryComplete(c: Case, p: Progress, used: nat, i: nat, order: seq<nat>)
    requires Valid(c) && |p.state| == ROLES && used < Pow2(|c.records|)
    requires Explains(c, p, used, order) && Unobstructed(c, p, used, order) && order != [] && i <= order[0]
    ensures Try(c, p, used, i).Some?
    decreases |c.records| - CountOnes(used), |c.records| - i
  {
    hide Replay, SetBit, CountOnes, Pow2, FeeUncovered;
    if TestBit(used, i) {
      TryComplete(c, p, used, i + 1, order);
      return;
    }
    FirstReplays(c, p, used, order);
    assert !Obstructs(c, p, i);
    if i == order[0] {
      Consume(used, i, |c.records|);
      OrderPop(c, used, order);
      SearchComplete(c, Replay(c, p, i).value, SetBit(used, i), order[1..]);
    } else {
      TryComplete(c, p, used, i + 1, order);
    }
  }

  /** The search is exact, for all inputs: it answers if and only if some explaining order is
      unobstructed, and then with the ledger such an order reaches. */
  lemma SearchExact(c: Case, before: seq<Account>, used: nat, ledger: Ledger)
    requires Valid(c) && |before| == ROLES && used < Pow2(|c.records|)
    ensures var p := Progress(before, ledger);
            var r := Search(c, p, used);
            && (r.Some? <==> exists order :: Explains(c, p, used, order) && Unobstructed(c, p, used, order))
            && (r.Some? ==> exists order ::
                  Explains(c, p, used, order) && Unobstructed(c, p, used, order) && Explained(c, p, order) == r)
  {
    var p := Progress(before, ledger);
    if Search(c, p, used).Some? {
      var order := SearchSound(c, p, used);
      assert Explains(c, p, used, order);
    } else {
      forall order ensures !(Explains(c, p, used, order) && Unobstructed(c, p, used, order)) {
        if Explains(c, p, used, order) && Unobstructed(c, p, used, order) {
          SearchComplete(c, p, used, order);
        }
      }
    }
  }

  /** Under the condition a caller can check, every explaining order is unobstructed: a fee that does
      not fit rules out every order. */
  lemma {:induction false} NothingHidden(c: Case, p: Progress, used: nat, order: seq<nat>)
    requires Valid(c) && FeesNeverHide(c) && |p.state| == ROLES && Explains(c, p, used, order)
    ensures Unobstructed(c, p, used, order)
    decreases |order|
  {
    if order != [] {
      hide Replay, SetBit;
      FirstReplays(c, p, used, order);
      forall j: nat | j <= order[0] && !TestBit(used, j) ensures !Obstructs(c, p, j) {
        if FeeUncovered(c, p, j) {
          PayerShort(c, p, j);
          FeeBlocks(c, p, order, j);
        }
      }
      OrderPop(c, used, order);
      NothingHidden(c, Replay(c, p, order[0]).value, SetBit(used, order[0]), order[1..]);
    }
  }

  /** With no action sponsored by the fee payer, or no fees, the search decides whether an explaining
      order exists. */
  lemma SearchDecides(c: Case, before: seq<Account>, used: nat, ledger: Ledger)
    requires Valid(c) && FeesNeverHide(c) && |before| == ROLES && used < Pow2(|c.records|)
    ensures var p := Progress(before, ledger);
            Search(c, p, used).Some? <==> exists order :: Explains(c, p, used, order)
  {
    var p := Progress(before, ledger);
    SearchExact(c, before, used, ledger);
    forall order | Explains(c, p, used, order) ensures Unobstructed(c, p, used, order) {
      NothingHidden(c, p, used, order);
    }
  }

  // ---- what a replay and an answer mean ---------------------------------------------------------

  /** Record `i` tells the truth about going from `p` to `next`: the oracle gives exactly the error the
      record retains, the images move as the oracle says and the payer also pays the fee, the record
      testifies to those images, and the ledger attributes the vault's movement. */
  ghost predicate Honest(c: Case, p: Progress, i: nat, next: Progress)
    requires Valid(c) && |p.state| == ROLES && i < |c.records|
  {
    var (action, record) := c.records[i];
    && c.keys[TARGET] in p.ledger.deposits && |next.state| == ROLES
    && next.state[PAYER].lamports + record.fee <= U64_MAX
    && (record.err.Some? ==> record.err.value.index == 0)
    && Lawful(c.rent, action, p.state, p.ledger.deposits[c.keys[TARGET]],
              if record.err.Some? then Some(record.err.value.reason) else None,
              next.state[PAYER := next.state[PAYER].(lamports := next.state[PAYER].lamports + record.fee)])
    && Testifies(c.hash, record, c.keys, p.state, next.state, record.err)
    && Attributed(p.ledger, c.keys, c.keys[action.sponsor], p.state, next.state) == Some(next.ledger)
  }

  /** A record replays exactly when it is honest. */
  lemma ReplayMeans(c: Case, p: Progress, i: nat, next: Progress)
    requires Valid(c) && |p.state| == ROLES && i < |c.records|
    ensures Replay(c, p, i) == Some(next) <==> Honest(c, p, i, next)
  {
    if Replay(c, p, i) == Some(next) {
      ReplayHonest(c, p, i, next);
    }
    if Honest(c, p, i, next) {
      HonestReplays(c, p, i, next);
    }
  }

  lemma ReplayHonest(c: Case, p: Progress, i: nat, next: Progress)
    requires Valid(c) && |p.state| == ROLES && i < |c.records| && Replay(c, p, i) == Some(next)
    ensures Honest(c, p, i, next)
  {
    var (action, record) := c.records[i];
    var deposit := p.ledger.deposits[c.keys[TARGET]];
    PredictLawful(c.rent, action, p.state, deposit);
    RecordMeans(c.hash, record, c.keys, p.state, next.state, OutcomeError(c, p.state, i, deposit));
    hide Predict, Lawful, Testifies, RecordAgrees, Attributed;
    var applied := Outcome(c, p.state, i, deposit);
    assert next.state[PAYER := next.state[PAYER].(lamports := next.state[PAYER].lamports + record.fee)] == applied;
    assert record.err == OutcomeError(c, p.state, i, deposit) by {
      ErrorAgrees(c.hash, record, c.keys, p.state, next.state, OutcomeError(c, p.state, i, deposit));
    }
  }

  lemma ErrorAgrees(hash: Hash, r: Record, keys: seq<Pubkey>, before: seq<Account>, after: seq<Account>,
                    expected: Option<TxError>)
    requires |keys| == |before| == |after| == ROLES && Testifies(hash, r, keys, before, after, expected)
    ensures r.err == expected
  {
  }

  lemma OracleDetermined(c: Case, p: Progress, i: nat, refusal: Option<Reason>, applied: seq<Account>, deposit: nat)
    requires Valid(c) && |p.state| == ROLES && i < |c.records|
    requires Lawful(c.rent, c.records[i].0, p.state, deposit, refusal, applied)
    ensures |applied| == ROLES && Outcome(c, p.state, i, deposit) == applied
    ensures OutcomeError(c, p.state, i, deposit)
         == if refusal.Some? then Some(InstructionError(0, refusal.value)) else None
  {
    var action := c.records[i].0;
    PredictLawful(c.rent, action, p.state, deposit);
    hide Predict, Lawful;
    match Predict(c.rent, action, p.state, deposit) {
      case Accepted(state) => LawfulDetermined(c.rent, action, p.state, deposit, refusal, applied, None, state);
      case Refused(reason) =>
        LawfulDetermined(c.rent, action, p.state, deposit, refusal, applied, Some(reason), p.state);
    }
  }

  lemma HonestReplays(c: Case, p: Progress, i: nat, next: Progress)
    requires Valid(c) && |p.state| == ROLES && i < |c.records| && Honest(c, p, i, next)
    ensures Replay(c, p, i) == Some(next)
  {
    hide Outcome, OutcomeError, Lawful, Testifies, RecordAgrees, Attributed, Predict;
    var record, deposit := c.records[i].1, p.ledger.deposits[c.keys[TARGET]];
    var applied := next.state[PAYER := next.state[PAYER].(lamports := next.state[PAYER].lamports + record.fee)];
    OracleDetermined(c, p, i, if record.err.Some? then Some(record.err.value.reason) else None, applied, deposit);
    RecordMeans(c.hash, record, c.keys, p.state, next.state, record.err);
    assert Reconciled(c, p, i, next.state, record.err) == Some(next);
    hide Reconciled;
    assert OutcomeError(c, p.state, i, deposit) == record.err;
    assert applied[PAYER := applied[PAYER].(lamports := applied[PAYER].lamports - record.fee)] == next.state;
  }

  /** A history of progress that follows `order` honestly and ends in the final images. */
  ghost predicate History(c: Case, used: nat, order: seq<nat>, steps: seq<Progress>)
    requires Valid(c)
  {
    && IsOrder(c, used, order) && |steps| == |order| + 1
    && (forall k :: 0 <= k <= |order| ==> |steps[k].state| == ROLES)
    && (forall k :: 0 <= k < |order| ==> Honest(c, steps[k], order[k], steps[k + 1]))
    && steps[|order|].state == c.final
  }

  lemma {:induction false} ExplainedSteps(c: Case, p: Progress, order: seq<nat>) returns (steps: seq<Progress>)
    requires Valid(c) && |p.state| == ROLES && (forall k :: 0 <= k < |order| ==> order[k] < |c.records|)
    requires Explained(c, p, order).Some?
    ensures |steps| == |order| + 1 && steps[0] == p && forall k :: 0 <= k <= |order| ==> |steps[k].state| == ROLES
    ensures forall k :: 0 <= k < |order| ==> Honest(c, steps[k], order[k], steps[k + 1])
    ensures steps[|order|].state == c.final && Explained(c, p, order) == Some(steps[|order|].ledger)
    decreases |order|
  {
    if order == [] {
      return [p];
    }
    hide Honest, Replay;
    var next := Replay(c, p, order[0]).value;
    ReplayMeans(c, p, order[0], next);
    var rest := ExplainedSteps(c, next, order[1..]);
    steps := [p] + rest;
    forall k | 0 <= k < |order| ensures Honest(c, steps[k], order[k], steps[k + 1]) {
      if k > 0 {
        assert Honest(c, rest[k - 1], order[1..][k - 1], rest[k]);
      }
    }
  }

  /** What an answer is worth: some order of all unused records has an honest history from the given
      images to the final ones, and the answer is the ledger at its end. */
  lemma SearchMeans(c: Case, p: Progress, used: nat) returns (order: seq<nat>, steps: seq<Progress>)
    requires Valid(c) && |p.state| == ROLES && used < Pow2(|c.records|) && Search(c, p, used).Some?
    ensures History(c, used, order, steps) && steps[0] == p
    ensures Search(c, p, used) == Some(steps[|order|].ledger)
  {
    order := SearchSound(c, p, used);
    hide Honest, IsOrder, Search;
    OrderWithin(c, used, order);
    steps := ExplainedSteps(c, p, order);
  }

  lemma {:induction false} StepsExplain(c: Case, order: seq<nat>, steps: seq<Progress>)
    requires Valid(c) && |steps| == |order| + 1 && (forall k :: 0 <= k < |order| ==> order[k] < |c.records|)
    requires forall k :: 0 <= k <= |order| ==> |steps[k].state| == ROLES
    requires forall k :: 0 <= k < |order| ==> Honest(c, steps[k], order[k], steps[k + 1])
    requires steps[|order|].state == c.final
    ensures Explained(c, steps[0], order) == Some(steps[|order|].ledger)
    decreases |order|
  {
    if order != [] {
      ReplayMeans(c, steps[0], order[0], steps[1]);
      hide Honest, Replay;
      forall k | 0 <= k < |order| - 1 ensures Honest(c, steps[1..][k], order[1..][k], steps[1..][k + 1]) {
        assert Honest(c, steps[k + 1], order[k + 1], steps[k + 2]);
      }
      StepsExplain(c, order[1..], steps[1..]);
    }
  }

  /** With no action sponsored by the fee payer, or no fees, the search answers if and only if the unused
      records have an honest history to the final images. */
  lemma SearchDecidesHistories(c: Case, p: Progress, used: nat)
    requires Valid(c) && FeesNeverHide(c) && |p.state| == ROLES && used < Pow2(|c.records|)
    ensures Search(c, p, used).Some? <==>
      exists order, steps :: History(c, used, order, steps) && steps[0] == p
  {
    hide Search, Honest, FeesNeverHide, Pow2;
    if Search(c, p, used).Some? {
      var order, steps := SearchMeans(c, p, used);
    }
    if order, steps :| History(c, used, order, steps) && steps[0] == p {
      OrderWithin(c, used, order);
      StepsExplain(c, order, steps);
      assert Explains(c, p, used, order);
      SearchDecides(c, p.state, used, p.ledger);
    }
  }

  lemma OrderWithin(c: Case, used: nat, order: seq<nat>)
    requires IsOrder(c, used, order)
    ensures forall k :: 0 <= k < |order| ==> order[k] < |c.records|
  {
  }

  /** The oracle can give this error. */
  predicate Expectable(e: TxError) {
    e.index == 0 && (e.reason == InvalidAccountData || e.reason == InvalidAccountOwner || e.reason == InsufficientFunds)
  }

  /** A record that retains any other error is never explained. */
  lemma ForeignErrorUnexplained(c: Case, p: Progress, used: nat, i: nat)
    requires Valid(c) && |p.state| == ROLES && used < Pow2(|c.records|) && i < |c.records| && !TestBit(used, i)
    requires c.records[i].1.err.Some? && !Expectable(c.records[i].1.err.value)
    ensures Search(c, p, used) == None
  {
    hide Search;
    if Search(c, p, used).Some? {
      var order, steps := SearchMeans(c, p, used);
      var k :| 0 <= k < |order| && order[k] == i;
      HonestExpectable(c, steps[k], i, steps[k + 1]);
    }
  }

  lemma HonestExpectable(c: Case, p: Progress, i: nat, next: Progress)
    requires Valid(c) && |p.state| == ROLES && i < |c.records| && Honest(c, p, i, next)
    ensures c.records[i].1.err.Some? ==> Expectable(c.records[i].1.err.value)
  {
  }

  // ---- why the condition is there -------------------------------------------------------------

  const KEYS: seq<Pubkey> := [10, 11, 12, 13, 14, 15]

  function Wallet(lamports: u64): Account { Account(lamports, [], SYSTEM, false, U64_MAX) }

  function Images(payer: u64, sponsor: u64, target: Account, vault: u64): seq<Account> {
    [Wallet(payer), Wallet(sponsor), target, Wallet(vault), Wallet(0), EMPTY]
  }

  const RACE_RENT: Rent := _ => 5
  const RACE_HASH: Hash := _ => 0
  const CREATED := Account(0, [], 1, false, U64_MAX)
  const OPENING := Images(7, 9, EMPTY, 0)
  const MIDDLE := Images(7, 4, CREATED, 5)
  const FINAL := Images(4, 4, CREATED, 5)
  const LOST := Record([10, 12, 13], [7, 0, 5], [4, 0, 5], 3, Some(InstructionError(0, InvalidAccountData)), [])
  const WON := Record([10, 11, 12, 13], [7, 9, 0, 0], [7, 4, 0, 5], 0, None,
                      Observations(RACE_HASH, OPENING) + Observations(RACE_HASH, MIDDLE))
  const OPENINGS: map<Pubkey, u64> := map[10 := 7, 11 := 9]
  const UNPAID := Ledger(map[12 := 0], map[], OPENINGS, 0, 0)
  const PAID := Ledger(map[12 := 5], map[11 := Charges(5, 0)], OPENINGS, 0, 0)
  const RACE := Case(RACE_RENT, RACE_HASH, KEYS, FINAL,
                     [(Action(Create(0), 1, 0, PAYER), LOST), (Action(Create(0), 1, 0, SPONSOR), WON)])

  lemma RaceKeys()
    ensures Position(KEYS, 10) == Some(0) && Position(KEYS, 11) == Some(1)
    ensures Position(KEYS, 12) == Some(2) && Position(KEYS, 13) == Some(3)
  {
  }

  lemma RaceLedgers()
    ensures Attribute(UNPAID, 12, 11, 0, 5) == Some(PAID)
    ensures Backed(PAID, 5)
  {
    assert UNPAID.deposits[12 := 5] == PAID.deposits;
    assert UNPAID.sponsors[11 := Charges(5, 0)] == PAID.sponsors;
    SumValuesSplit(PAID.deposits, 12);
    assert PAID.deposits - {12} == map[];
  }

  lemma ThreeBalances(a: nat, b: nat, c: nat)
    ensures Sum([a, b, c]) == a + b + c
  {
    assert [a][..0] == [] && Sum([a]) == a;
    assert [a, b][..1] == [a] && Sum([a, b]) == a + b;
    assert [a, b, c][..2] == [a, b];
  }

  lemma FourBalances(a: nat, b: nat, c: nat, d: nat)
    ensures Sum([a, b, c, d]) == a + b + c + d
  {
    ThreeBalances(a, b, c);
    assert [a, b, c, d][..3] == [a, b, c];
  }

  lemma WinnerApplies()
    ensures Outcome(RACE, OPENING, 1, 0) == MIDDLE && OutcomeError(RACE, OPENING, 1, 0) == None
  {
    assert NewTarget(RACE.records[1].0, EMPTY) == CREATED;
    assert Predict(RACE_RENT, RACE.records[1].0, OPENING, 0) == Accepted(MIDDLE);
  }

  lemma WinnerRecorded()
    ensures RecordAgrees(RACE_HASH, WON, KEYS, OPENING, MIDDLE, None)
  {
    hide Sum, Position, Observations;
    FourBalances(7, 9, 0, 0);
    FourBalances(7, 4, 0, 5);
    BalanceMoves(WON, OPENING, MIDDLE, 0, 0);
    BalanceMoves(WON, OPENING, MIDDLE, 1, 1);
    BalanceMoves(WON, OPENING, MIDDLE, 2, 2);
    BalanceMoves(WON, OPENING, MIDDLE, 3, 3);
    hide Moves;
    forall i: nat | i < |WON.keys| ensures Moves(WON, OPENING, MIDDLE, i) {
      assert i == 0 || i == 1 || i == 2 || i == 3;
    }
    MovesReconcile(WON, OPENING, MIDDLE);
  }

  /** A record's balance of one tracked key goes from its old image to its new one. */
  ghost predicate Moves(r: Record, before: seq<Account>, after: seq<Account>, i: nat)
    requires |before| == |after| == ROLES && |r.pre| == |r.post| == |r.keys| && i < |r.keys|
  {
    && r.keys[i] in KEYS && r.pre[i] == before[Position(KEYS, r.keys[i]).value].lamports
    && r.post[i] == ExpectedPost(KEYS, after, r.keys[i], r.pre[i])
  }

  lemma BalanceMoves(r: Record, before: seq<Account>, after: seq<Account>, i: nat, role: nat)
    requires |before| == |after| == ROLES && |r.pre| == |r.post| == |r.keys| && i < |r.keys|
    requires role < 4 && r.keys[i] == KEYS[role] && r.pre[i] == before[role].lamports
             && r.post[i] == after[role].lamports
    ensures Moves(r, before, after, i)
  {
    RaceKeys();
  }

  lemma MovesReconcile(r: Record, before: seq<Account>, after: seq<Account>)
    requires |before| == |after| == ROLES && |r.pre| == |r.post| == |r.keys| && Sum(r.pre) == Sum(r.post) + r.fee
    requires forall i: nat :: i < |r.keys| ==> Moves(r, before, after, i)
    ensures BalancesReconcile(r, KEYS, before, after)
  {
    hide Position, Sum, ExpectedPost;
    forall i | 0 <= i < |r.keys| ensures r.post[i] == ExpectedPost(KEYS, after, r.keys[i], r.pre[i])
      && (r.keys[i] in KEYS ==> r.pre[i] == before[Position(KEYS, r.keys[i]).value].lamports)
    {
      assert Moves(r, before, after, i);
    }
  }

  lemma WinnerAttributed()
    ensures Attributed(UNPAID, KEYS, 11, OPENING, MIDDLE) == Some(PAID)
  {
    RaceKeys();
    RaceLedgers();
    hide Position, Backed, Attribute;
    assert SponsorSettles(PAID, KEYS, MIDDLE, 11);
  }

  lemma WinnerReconciles()
    ensures Reconciled(RACE, Progress(OPENING, UNPAID), 1, MIDDLE, None) == Some(Progress(MIDDLE, PAID))
  {
    WinnerRecorded();
    WinnerAttributed();
    hide RecordAgrees, Attributed;
  }

  lemma RaceWinner()
    ensures Replay(RACE, Progress(OPENING, UNPAID), 1) == Some(Progress(MIDDLE, PAID))
  {
    hide Outcome, OutcomeError, Reconciled;
    WinnerApplies();
    WinnerReconciles();
    assert MIDDLE[PAYER := MIDDLE[PAYER].(lamports := 7 - 0)] == MIDDLE;
  }

  lemma LoserApplies()
    ensures Outcome(RACE, MIDDLE, 0, 5) == MIDDLE && OutcomeError(RACE, MIDDLE, 0, 5) == LOST.err
  {
    assert Predict(RACE_RENT, RACE.records[0].0, MIDDLE, 5) == Refused(InvalidAccountData);
  }

  lemma LoserRecorded()
    ensures RecordAgrees(RACE_HASH, LOST, KEYS, MIDDLE, FINAL, LOST.err)
  {
    hide Sum, Position, Observations;
    ThreeBalances(7, 0, 5);
    ThreeBalances(4, 0, 5);
    BalanceMoves(LOST, MIDDLE, FINAL, 0, 0);
    BalanceMoves(LOST, MIDDLE, FINAL, 1, 2);
    BalanceMoves(LOST, MIDDLE, FINAL, 2, 3);
    hide Moves;
    forall i: nat | i < |LOST.keys| ensures Moves(LOST, MIDDLE, FINAL, i) {
      assert i == 0 || i == 1 || i == 2;
    }
    MovesReconcile(LOST, MIDDLE, FINAL);
  }

  lemma LoserAttributed()
    ensures Attributed(PAID, KEYS, 10, MIDDLE, FINAL) == Some(PAID)
  {
    RaceKeys();
    RaceLedgers();
    hide Position, Backed;
    assert SponsorSettles(PAID, KEYS, FINAL, 11);
  }

  lemma LoserReconciles()
    ensures Reconciled(RACE, Progress(MIDDLE, PAID), 0, FINAL, LOST.err) == Some(Progress(FINAL, PAID))
  {
    LoserRecorded();
    LoserAttributed();
    hide RecordAgrees, Attributed;
  }

  lemma RaceLoser()
    ensures Replay(RACE, Progress(MIDDLE, PAID), 0) == Some(Progress(FINAL, PAID))
  {
    hide Outcome, OutcomeError, Reconciled;
    LoserApplies();
    LoserReconciles();
    assert MIDDLE[PAYER := MIDDLE[PAYER].(lamports := 7 - 3)] == FINAL;
  }

  lemma TwoReplays(c: Case, p: Progress, q: Progress, r: Progress, i: nat, j: nat)
    requires Valid(c) && |p.state| == |q.state| == ROLES && i < |c.records| && j < |c.records|
    requires Replay(c, p, i) == Some(q) && Replay(c, q, j) == Some(r) && r.state == c.final
    ensures Explained(c, p, [i, j]) == Some(r.ledger)
  {
    assert [i, j][1..] == [j] && [j][1..] == [];
    assert Explained(c, q, [j]) == Some(r.ledger);
  }

  lemma RaceOrder(c: Case)
    requires |c.records| == 2
    ensures IsOrder(c, 0, [1, 0])
  {
    assert !TestBit(0, 0) && !TestBit(0, 1);
    assert [1, 0][1] == 0 && [1, 0][0] == 1;
  }

  lemma RaceAbandoned()
    ensures Valid(RACE) && |OPENING| == ROLES && 0 < Pow2(|RACE.records|)
    ensures Search(RACE, Progress(OPENING, UNPAID), 0) == None
  {
    assert Predict(RACE_RENT, RACE.records[0].0, OPENING, 0).Accepted?;
    assert FeeUncovered(RACE, Progress(OPENING, UNPAID), 0);
    assert Try(RACE, Progress(OPENING, UNPAID), 0, 0) == None;
  }

  lemma RaceDraws()
    ensures !FeesNeverHide(RACE)
  {
    assert RACE.records[0].0.sponsor == PAYER && RACE.records[0].1.fee == 3;
  }

  /** Two creates race for one address. The one sponsored by the payer lost, and its order after
      the winner explains everything; tried first, it would also have charged rent, the payer
      could then not cover the fee, and the search gives up on the whole node. */
  lemma PayerSponsorHidesAnOrder()
    ensures Valid(RACE) && !FeesNeverHide(RACE) && |OPENING| == ROLES && 0 < Pow2(|RACE.records|)
    ensures Explains(RACE, Progress(OPENING, UNPAID), 0, [1, 0])
    ensures Search(RACE, Progress(OPENING, UNPAID), 0) == None
  {
    hide Replay, Search, Explained, IsOrder, FeesNeverHide, Pow2;
    RaceAbandoned();
    RaceDraws();
    RaceWinner();
    RaceLoser();
    RaceOrder(RACE);
    TwoReplays(RACE, Progress(OPENING, UNPAID), Progress(MIDDLE, PAID), Progress(FINAL, PAID), 1, 0);
  }
}
