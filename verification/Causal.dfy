/** The causal pair: a two-cell hash model, and the proof that the on-chain interpreter follows it. */
module Causal {
  import opened Common
  import opened FixtureState
  import opened FixtureExecute
  import opened FixtureBuild
  import opened FixtureMeaning

  datatype Step = X | Y | Z

  /** One submitted step with its identifier and hash rounds. */
  datatype Sent = Sent(step: Step, id: u64, iters: u32)

  datatype Model = Model(a: Digest, b: Digest, aId: u64, bId: u64)

  const ZERO: Digest := seq(32, _ => 0)

  function Advance(sha: Sha, m: Model, s: Sent): Model {
    match s.step
    case X => m.(a := Fold(sha, s.id, [m.a], s.iters), aId := s.id)
    case Y =>
      var merged := Fold(sha, s.id, [m.a, m.b], s.iters);
      Model(merged, merged, s.id, s.id)
    case Z => m.(b := Fold(sha, s.id, [m.b], s.iters), bId := s.id)
  }

  function AdvanceAll(sha: Sha, m: Model, steps: seq<Sent>): Model
    decreases |steps|
  {
    if steps == [] then m else AdvanceAll(sha, Advance(sha, m, steps[0]), steps[1..])
  }

  function Accounts(step: Step, a: Pubkey, b: Pubkey): seq<Pubkey> {
    match step
    case X => [a]
    case Y => [a, b]
    case Z => [b]
  }

  /** `Program::fold_hashes` as builder calls. */
  function FoldCalls(s: Sent, a: Pubkey, b: Pubkey): seq<Call> {
    var cells := Accounts(s.step, a, b);
    [Op(Set(cells, s.id)), Op(FoldHashes(cells, s.id, s.iters))]
  }

  // ---- one cell -----------------------------------------------------------------------------------

  /** A cell's bytes: header, current hash, and whatever follows it. */
  function CellData(h: CellHeader, hash: Digest, rest: seq<byte>): seq<byte> { Encode(h) + (hash + rest) }

  function Bump(h: CellHeader): CellHeader
    requires h.revision < U64_MAX
  {
    h.(revision := h.revision + 1)
  }

  lemma SetCell(h: CellHeader, hash: Digest, rest: seq<byte>, id: u64)
    ensures var r := Update(CellData(h, hash, rest), SetValue(id));
            if h.revision == U64_MAX then r.error == Some(ArithmeticOverflow)
            else r == Edited(CellData(Bump(h.(value := id)), hash, rest), None)
  {
    DecodeEncode(h, hash + rest);
  }

  lemma HashCell(h: CellHeader, hash: Digest, rest: seq<byte>, next: Digest)
    ensures var r := Update(CellData(h, hash, rest), WriteBytes(next));
            if h.revision == U64_MAX then r.error == Some(ArithmeticOverflow)
            else r == Edited(CellData(Bump(h), next, rest), None)
    ensures ReadHash(CellData(h, hash, rest)) == Value(hash)
  {
    DecodeEncode(h, hash + rest);
    assert (hash + rest)[32..] == rest;
    assert CellData(h, hash, rest)[SIZE..SIZE + 32] == hash;
  }

  /** One of the two cells: its header apart from value and revision, and the bytes past the hash. */
  datatype Cell = Cell(key: Pubkey, header: CellHeader, rest: seq<byte>)

  function Bytes(c: Cell, hash: Digest, id: u64, revision: u64): seq<byte> {
    CellData(c.header.(value := id, revision := revision), hash, c.rest)
  }

  ghost predicate OneCell(store: Store, c: Cell, hash: Digest, id: u64, revision: u64) {
    c.key in store && store[c.key] == Bytes(c, hash, id, revision)
  }

  lemma SetOne(store: Store, c: Cell, hash: Digest, id: u64, revision: u64, next: u64)
    requires OneCell(store, c, hash, id, revision)
    ensures var r := UpdateKey(store, c.key, SetValue(next));
            if revision == U64_MAX then r.error == Some(ArithmeticOverflow)
            else r.error == None && r.state == store[c.key := Bytes(c, hash, next, revision + 1)]
  {
    SetCell(c.header.(value := id, revision := revision), hash, c.rest, next);
  }

  lemma HashOne(store: Store, c: Cell, hash: Digest, id: u64, revision: u64, next: Digest)
    requires OneCell(store, c, hash, id, revision)
    ensures ReadHash(store[c.key]) == Value(hash)
    ensures var r := UpdateKey(store, c.key, WriteBytes(next));
            if revision == U64_MAX then r.error == Some(ArithmeticOverflow)
            else r.error == None && r.state == store[c.key := Bytes(c, next, id, revision + 1)]
  {
    HashCell(c.header.(value := id, revision := revision), hash, c.rest, next);
  }

  function FoldOps(s: Sent, cells: seq<Pubkey>): seq<Operation<Pubkey>> {
    [Set(cells, s.id), FoldHashes(cells, s.id, s.iters)]
  }

  lemma RunTwo(sha: Sha, m: Store, p: Operation<Pubkey>, q: Operation<Pubkey>)
    ensures RunKeys(sha, m, [p, q]) ==
      var first := ApplyKeys(sha, m, p);
      if first.error.Some? then first else ApplyKeys(sha, first.state, q)
  {
    assert [p, q][1..] == [q] && [q][1..] == [];
    var first := ApplyKeys(sha, m, p);
    assert RunKeys(sha, first.state, [q]) == ApplyKeys(sha, first.state, q);
  }

  lemma EachOne(m: Store, k: Pubkey, edit: Edit)
    ensures EachKey(m, [k], edit) == UpdateKey(m, k, edit)
  {
    assert [k][1..] == [];
  }

  lemma EachTwo(m: Store, k: Pubkey, l: Pubkey, edit: Edit)
    ensures EachKey(m, [k, l], edit) ==
      var first := UpdateKey(m, k, edit);
      if first.error.Some? then first else UpdateKey(first.state, l, edit)
  {
    assert [k, l][1..] == [l];
    EachOne(UpdateKey(m, k, edit).state, l, edit);
  }

  // The two operations of a step, on one cell and on both.

  lemma SetSingle(sha: Sha, store: Store, c: Cell, hash: Digest, id: u64, revision: u64, next: u64)
    requires OneCell(store, c, hash, id, revision)
    ensures var r := ApplyKeys(sha, store, Set([c.key], next));
            if revision == U64_MAX then r.error == Some(ArithmeticOverflow)
            else r.error == None && r.state == store[c.key := Bytes(c, hash, next, revision + 1)]
  {
    EachOne(store, c.key, SetValue(next));
    SetOne(store, c, hash, id, revision, next);
  }

  lemma HashesSingle(store: Store, k: Pubkey, hash: Digest)
    requires k in store && ReadHash(store[k]) == Value(hash)
    ensures HashesOf(store, [k]) == Value([hash])
  {
    hide ReadHash;
    assert [k][1..] == [];
    assert HashesOf(store, []) == Value([]);
    assert [hash] + [] == [hash];
  }

  lemma FoldSingle(sha: Sha, store: Store, c: Cell, hash: Digest, id: u64, revision: u64, salt: u64, rounds: u32)
    requires OneCell(store, c, hash, id, revision)
    ensures var r := ApplyKeys(sha, store, FoldHashes([c.key], salt, rounds));
            if revision == U64_MAX then r.error == Some(ArithmeticOverflow)
            else r.error == None
                 && r.state == store[c.key := Bytes(c, Fold(sha, salt, [hash], rounds), id, revision + 1)]
  {
    hide UpdateKey, Bytes, Fold, ReadHash;
    var folded := Fold(sha, salt, [hash], rounds);
    HashOne(store, c, hash, id, revision, folded);
    HashesSingle(store, c.key, hash);
    EachOne(store, c.key, WriteBytes(folded));
  }

  /** The store holds the model's hashes and ids in the two cells, at the given revisions. */
  ghost predicate Both(store: Store, a: Cell, b: Cell, m: Model, ra: u64, rb: u64) {
    a.key != b.key && OneCell(store, a, m.a, m.aId, ra) && OneCell(store, b, m.b, m.bId, rb)
  }

  lemma SetBoth(sha: Sha, store: Store, a: Cell, b: Cell, m: Model, ra: u64, rb: u64, next: u64)
    requires Both(store, a, b, m, ra, rb)
    ensures var r := ApplyKeys(sha, store, Set([a.key, b.key], next));
            if ra == U64_MAX || rb == U64_MAX then r.error == Some(ArithmeticOverflow)
            else r.error == None
                 && r.state == store[a.key := Bytes(a, m.a, next, ra + 1)][b.key := Bytes(b, m.b, next, rb + 1)]
  {
    EachTwo(store, a.key, b.key, SetValue(next));
    SetOne(store, a, m.a, m.aId, ra, next);
    if ra < U64_MAX {
      SetOne(store[a.key := Bytes(a, m.a, next, ra + 1)], b, m.b, m.bId, rb, next);
    }
  }

  lemma FoldBoth(sha: Sha, store: Store, a: Cell, b: Cell, m: Model, ra: u64, rb: u64, salt: u64, rounds: u32)
    requires Both(store, a, b, m, ra, rb)
    ensures var r := ApplyKeys(sha, store, FoldHashes([a.key, b.key], salt, rounds));
            var folded := Fold(sha, salt, [m.a, m.b], rounds);
            if ra == U64_MAX || rb == U64_MAX then r.error == Some(ArithmeticOverflow)
            else r.error == None
                 && r.state == store[a.key := Bytes(a, folded, m.aId, ra + 1)][b.key := Bytes(b, folded, m.bId, rb + 1)]
  {
    hide UpdateKey, Bytes, Fold, ReadHash;
    var folded := Fold(sha, salt, [m.a, m.b], rounds);
    HashOne(store, a, m.a, m.aId, ra, folded);
    HashOne(store, b, m.b, m.bId, rb, folded);
    HashesSingle(store, b.key, m.b);
    assert HashesOf(store, [a.key, b.key]) == Value([m.a, m.b]) by {
      assert [a.key, b.key][1..] == [b.key];
      assert [m.a] + [m.b] == [m.a, m.b];
    }
    EachTwo(store, a.key, b.key, WriteBytes(folded));
    if ra < U64_MAX {
      HashOne(store[a.key := Bytes(a, folded, m.aId, ra + 1)], b, m.b, m.bId, rb, folded);
    }
  }

  /** A step on one cell: set then fold, each raising the revision. */
  lemma StepSingle(sha: Sha, store: Store, c: Cell, hash: Digest, id: u64, revision: u64, s: Sent)
    requires OneCell(store, c, hash, id, revision)
    ensures var r := RunKeys(sha, store, FoldOps(s, [c.key]));
            if revision + 2 > U64_MAX then r.error == Some(ArithmeticOverflow)
            else r.error == None
                 && r.state == store[c.key := Bytes(c, Fold(sha, s.id, [hash], s.iters), s.id, revision + 2)]
  {
    hide ApplyKeys, Bytes, Fold;
    RunTwo(sha, store, Set([c.key], s.id), FoldHashes([c.key], s.id, s.iters));
    SetSingle(sha, store, c, hash, id, revision, s.id);
    if revision < U64_MAX {
      FoldSingle(sha, store[c.key := Bytes(c, hash, s.id, revision + 1)], c, hash, s.id, revision + 1, s.id, s.iters);
    }
  }

  lemma StepBoth(sha: Sha, store: Store, a: Cell, b: Cell, m: Model, ra: u64, rb: u64, s: Sent)
    requires Both(store, a, b, m, ra, rb)
    ensures var r := RunKeys(sha, store, FoldOps(s, [a.key, b.key]));
            var folded := Fold(sha, s.id, [m.a, m.b], s.iters);
            if ra + 2 > U64_MAX || rb + 2 > U64_MAX then r.error == Some(ArithmeticOverflow)
            else r.error == None
                 && r.state == store[a.key := Bytes(a, folded, s.id, ra + 2)][b.key := Bytes(b, folded, s.id, rb + 2)]
  {
    hide ApplyKeys, Bytes, Fold;
    RunTwo(sha, store, Set([a.key, b.key], s.id), FoldHashes([a.key, b.key], s.id, s.iters));
    SetBoth(sha, store, a, b, m, ra, rb, s.id);
    if ra < U64_MAX && rb < U64_MAX {
      var mid := store[a.key := Bytes(a, m.a, s.id, ra + 1)][b.key := Bytes(b, m.b, s.id, rb + 1)];
      FoldBoth(sha, mid, a, b, m.(aId := s.id, bId := s.id), ra + 1, rb + 1, s.id, s.iters);
      var folded := Fold(sha, s.id, [m.a, m.b], s.iters);
      if ra + 2 <= U64_MAX && rb + 2 <= U64_MAX {
        assert mid[a.key := Bytes(a, folded, s.id, ra + 2)][b.key := Bytes(b, folded, s.id, rb + 2)]
               == store[a.key := Bytes(a, folded, s.id, ra + 2)][b.key := Bytes(b, folded, s.id, rb + 2)];
      }
    }
  }

  // ---- the refinement ---------------------------------------------------------------------------------

  /** The addressed operations of a step. */
  function StepOps(s: Sent, a: Pubkey, b: Pubkey): seq<Operation<Pubkey>> { FoldOps(s, Accounts(s.step, a, b)) }

  /** Every account but the two cells is left alone. */
  ghost predicate Elsewhere(x: Store, y: Store, a: Pubkey, b: Pubkey) {
    x.Keys == y.Keys && forall k :: k in x && k != a && k != b ==> x[k] == y[k]
  }

  function TouchA(s: Step): nat { if s.Z? then 0 else 2 }

  function TouchB(s: Step): nat { if s.X? then 0 else 2 }

  /** One step either advances both cells exactly as the model does, raising each touched revision
      by two, or a touched revision has no room left and the step overflows. */
  lemma StepRefines(sha: Sha, store: Store, a: Cell, b: Cell, m: Model, ra: u64, rb: u64, s: Sent)
    requires Both(store, a, b, m, ra, rb)
    ensures var r := RunKeys(sha, store, StepOps(s, a.key, b.key));
            if ra + TouchA(s.step) > U64_MAX || rb + TouchB(s.step) > U64_MAX then r.error == Some(ArithmeticOverflow)
            else && r.error == None
                 && Both(r.state, a, b, Advance(sha, m, s), ra + TouchA(s.step), rb + TouchB(s.step))
                 && Elsewhere(store, r.state, a.key, b.key)
  {
    hide ApplyKeys, RunKeys, Bytes, Fold;
    match s.step {
      case X => StepSingle(sha, store, a, m.a, m.aId, ra, s);
      case Y => StepBoth(sha, store, a, b, m, ra, rb, s);
      case Z => StepSingle(sha, store, b, m.b, m.bId, rb, s);
    }
  }

  // ---- on chain ---------------------------------------------------------------------------------------

  /** A step's batch mentions only the pair, and asks for the step's two operations. */
  lemma FoldBatch(s: Sent, a: Pubkey, b: Pubkey)
    ensures Plain(FoldCalls(s, a, b)) && Asked(FoldCalls(s, a, b)) == StepOps(s, a, b)
    ensures var table := Build(FoldCalls(s, a, b)).table;
            forall i :: 0 <= i < |table| ==> table[i].key == a || table[i].key == b
  {
    var calls := FoldCalls(s, a, b);
    assert calls[..1][..0] == [];
    assert Asked(calls[..1]) == [calls[0].op];
    BuildOnly(calls, {a, b});
  }

  /** Submitting one step: its batch is built, loaded, interpreted and written back. */
  ghost function ChainStep(sha: Sha, store: Store, s: Sent, a: Pubkey, b: Pubkey): (r: Ran<Store>)
    requires a in store && b in store
    ensures r == RunKeys(sha, store, StepOps(s, a, b))
    ensures r.state.Keys == store.Keys
  {
    FoldBatch(s, a, b);
    OnChainMeans(sha, FoldCalls(s, a, b), store);
    OnChain(sha, store, Build(FoldCalls(s, a, b)))
  }

  /** Submitting steps one after another until one fails. */
  ghost function ChainRun(sha: Sha, store: Store, steps: seq<Sent>, a: Pubkey, b: Pubkey): (r: Ran<Store>)
    requires a in store && b in store
    decreases |steps|
  {
    if steps == [] then Ran(store, None) else
    var first := ChainStep(sha, store, steps[0], a, b);
    if first.error.Some? then first else ChainRun(sha, first.state, steps[1..], a, b)
  }

  function TouchesA(steps: seq<Sent>): nat { if steps == [] then 0 else TouchA(steps[0].step) + TouchesA(steps[1..]) }

  function TouchesB(steps: seq<Sent>): nat { if steps == [] then 0 else TouchB(steps[0].step) + TouchesB(steps[1..]) }

  lemma BothPresent(store: Store, a: Cell, b: Cell, m: Model, ra: u64, rb: u64)
    requires Both(store, a, b, m, ra, rb)
    ensures a.key in store && b.key in store
  {
  }

  /** The interpreter refines the causal model over every sequence of steps: while both revisions
      have room, values and hashes are the model's, each touched revision rose by exactly two per
      step, and nothing else on chain changed; otherwise the run stops on overflow. */
  lemma {:induction false} RunRefines(sha: Sha, store: Store, a: Cell, b: Cell,
                                      m: Model, ra: u64, rb: u64, steps: seq<Sent>)
    requires Both(store, a, b, m, ra, rb)
    ensures var r := ChainRun(sha, store, steps, a.key, b.key);
            if ra + TouchesA(steps) > U64_MAX || rb + TouchesB(steps) > U64_MAX then
              r.error == Some(ArithmeticOverflow)
            else
              && r.error == None
              && Both(r.state, a, b, AdvanceAll(sha, m, steps), ra + TouchesA(steps), rb + TouchesB(steps))
              && Elsewhere(store, r.state, a.key, b.key)
    decreases |steps|
  {
    hide Bytes, RunKeys, Advance, ChainStep, StepOps, TouchA, TouchB, OneCell;
    BothPresent(store, a, b, m, ra, rb);
    if steps != [] {
      StepRefines(sha, store, a, b, m, ra, rb, steps[0]);
      var first := ChainStep(sha, store, steps[0], a.key, b.key);
      if first.error.None? {
        RunRefines(sha, first.state, a, b, Advance(sha, m, steps[0]), ra + TouchA(steps[0].step),
                   rb + TouchB(steps[0].step), steps[1..]);
      }
    }
  }

  // ---- the model object -------------------------------------------------------------------------------

  /** What `PairModel::compare` accepts: both accounts present, decodable and at least a hash long,
      with the model's ids and hashes. */
  predicate Matches(m: Model, accounts: (Option<seq<byte>>, Option<seq<byte>>)) {
    && CellMatches(m.a, m.aId, accounts.0)
    && CellMatches(m.b, m.bId, accounts.1)
  }

  predicate CellMatches(hash: Digest, id: u64, data: Option<seq<byte>>) {
    && data.Some? && TryDecode(data.value).Some? && TryDecode(data.value).value.value == id
    && ReadHash(data.value) == Value(hash)
  }

  class PairModel {
    var a: Digest
    var b: Digest
    var aId: u64
    var bId: u64

    constructor ()
      ensures View() == Model(ZERO, ZERO, 0, 0)
    {
      a, b, aId, bId := ZERO, ZERO, 0, 0;
    }

    function View(): Model
      reads this
    {
      Model(a, b, aId, bId)
    }

    /** `PairModel::apply`. */
    method Apply(sha: Sha, s: Sent)
      modifies this
      ensures View() == Advance(sha, old(View()), s)
    {
      match s.step {
        case X =>
          a := FoldLoop(sha, s.id, [a], s.iters);
          aId := s.id;
        case Y =>
          var merged := FoldLoop(sha, s.id, [a, b], s.iters);
          a, b := merged, merged;
          aId, bId := s.id, s.id;
        case Z =>
          b := FoldLoop(sha, s.id, [b], s.iters);
          bId := s.id;
      }
    }

    /** `PairModel::compare`. */
    method Compare(accounts: (Option<seq<byte>>, Option<seq<byte>>)) returns (ok: bool)
      ensures ok <==> Matches(View(), accounts)
    {
      ok := CompareCell(a, aId, accounts.0);
      if ok {
        ok := CompareCell(b, bId, accounts.1);
      }
    }

    static method CompareCell(hash: Digest, id: u64, data: Option<seq<byte>>) returns (ok: bool)
      ensures ok <==> CellMatches(hash, id, data)
    {
      ok := false;
      if data.Some? {
        var header := TryDecode(data.value);
        if header.Some? && |data.value| >= SIZE + 32 {
          ok := header.value.value == id && data.value[SIZE..SIZE + 32] == hash;
        }
      }
    }
  }

  /** A freshly created cell with room for a hash. */
  function Zeroed(key: Pubkey, id: CellId, length: nat): (c: Cell)
    requires length >= 32
  {
    Cell(key, NewHeader(id), seq(length - 32, _ => 0))
  }

  lemma BytesMatch(c: Cell, hash: Digest, id: u64, revision: u64)
    ensures CellMatches(hash, id, Some(Bytes(c, hash, id, revision)))
  {
    var h := c.header.(value := id, revision := revision);
    DecodeEncode(h, hash + c.rest);
    assert CellData(h, hash, c.rest)[SIZE..SIZE + 32] == hash;
  }

  /** From two freshly created cells, after any run of steps short of revision overflow, comparing
      the chain's accounts with the folded model succeeds. */
  lemma FreshPairCompares(sha: Sha, store: Store, a: Cell, b: Cell, steps: seq<Sent>)
    requires Both(store, a, b, Model(ZERO, ZERO, 0, 0), 0, 0)
    requires TouchesA(steps) <= U64_MAX && TouchesB(steps) <= U64_MAX
    ensures var r := ChainRun(sha, store, steps, a.key, b.key);
            && r.error == None && a.key in r.state && b.key in r.state
            && Matches(AdvanceAll(sha, Model(ZERO, ZERO, 0, 0), steps), (Some(r.state[a.key]), Some(r.state[b.key])))
  {
    hide Bytes, CellMatches, Advance, AdvanceAll, ChainRun, TouchesA, TouchesB;
    RunRefines(sha, store, a, b, Model(ZERO, ZERO, 0, 0), 0, 0, steps);
    var m := AdvanceAll(sha, Model(ZERO, ZERO, 0, 0), steps);
    BytesMatch(a, m.a, m.aId, TouchesA(steps));
    BytesMatch(b, m.b, m.bId, TouchesB(steps));
  }

  /** The bytes `create` leaves, a header over a zeroed payload, are such a cell. */
  lemma CreatedIsZeroed(key: Pubkey, id: CellId, length: nat)
    requires length >= 32
    ensures Encode(NewHeader(id)) + seq(length, _ => 0) == Bytes(Zeroed(key, id, length), ZERO, 0, 0)
  {
    assert ZERO + seq(length - 32, _ => 0) == seq(length, _ => 0);
  }
}
