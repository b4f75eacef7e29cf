/** The batch builder: addresses are interned into a growing account list, privileges are merged,
    and each operation is recorded over list indices. */
module FixtureBuild {
  import opened Common
  import opened FixtureState
  import opened FixtureExecute

  datatype Meta = Meta(key: Pubkey, signer: bool, writable: bool)

  /** A nested account reference keeps the privileges its own caller asked for. */
  datatype Ref<I> = Ref(account: I, signer: bool, writable: bool)

  /** A cell id whose derived address a nested invocation signs for. */
  datatype Signer = Signer(authority: Pubkey, index: u64, address: Pubkey)

  /** A recorded operation: one of those modelled here, a nested invocation of foreign code, or one that
      is only known by the accounts it names. */
  datatype Compiled<I> =
    | Native(op: Operation<I>)
    | Invoke(program: I, accounts: seq<Ref<I>>, data: seq<byte>, signers: seq<Signer>)
    | Foreign(named: seq<I>, data: seq<byte>)

  /** The builder calls. `Other` stands for those whose effect is not modelled: inspection, raw byte
      writes, resizing, logging, escrow transfers and settlement, by the uses they ask for in order. */
  datatype Call =
    | Op(op: Operation<Pubkey>)
    | RequireSigner(key: Pubkey)
    | Writable(keys: seq<Pubkey>)
    | Readonly(keys: seq<Pubkey>)
    | Cpi(program: Pubkey, metas: seq<Meta>, data: seq<byte>, signers: seq<Signer>)
    | Other(uses: seq<Meta>, data: seq<byte>)

  const MAX_ACCOUNTS: nat := 0x1_0000

  // ---- interning ------------------------------------------------------------------------------

  function Keys(table: seq<Meta>): (r: seq<Pubkey>)
    ensures |r| == |table|
    ensures forall i :: 0 <= i < |r| ==> r[i] == table[i].key
  {
    seq(|table|, i requires 0 <= i < |table| => table[i].key)
  }

  function Merge(entry: Meta, m: Meta): Meta {
    entry.(signer := entry.signer || m.signer, writable := entry.writable || m.writable)
  }

  function Intern(table: seq<Meta>, m: Meta): seq<Meta> {
    match Position(Keys(table), m.key)
    case Some(i) => table[i := Merge(table[i], m)]
    case None => table + [m]
  }

  function InternAll(table: seq<Meta>, ms: seq<Meta>): seq<Meta>
    decreases |ms|
  {
    if ms == [] then table else InternAll(Intern(table, ms[0]), ms[1..])
  }

  function Cleared(table: seq<Meta>, keys: seq<Pubkey>): (r: seq<Meta>)
    ensures Keys(r) == Keys(table)
  {
    seq(|table|, i requires 0 <= i < |table| =>
      if table[i].key in keys then table[i].(writable := false) else table[i])
  }

  ghost predicate Prefix<T>(xs: seq<T>, ys: seq<T>) { |xs| <= |ys| && ys[..|xs|] == xs }

  lemma InternGrows(table: seq<Meta>, m: Meta)
    requires Distinct(Keys(table))
    ensures Distinct(Keys(Intern(table, m))) && Prefix(Keys(table), Keys(Intern(table, m)))
    ensures m.key in Keys(Intern(table, m))
    ensures forall key :: key in Keys(Intern(table, m)) ==> key in Keys(table) || key == m.key
  {
    var next := Intern(table, m);
    match Position(Keys(table), m.key) {
      case Some(i) =>
        assert Keys(next) == Keys(table);
      case None =>
        assert Keys(next) == Keys(table) + [m.key];
    }
  }

  /** Interned keys stay unique, earlier indices never move, and exactly the asked keys enter. */
  lemma {:induction false} InternAllGrows(table: seq<Meta>, ms: seq<Meta>)
    requires Distinct(Keys(table))
    ensures Distinct(Keys(InternAll(table, ms))) && Prefix(Keys(table), Keys(InternAll(table, ms)))
    ensures forall i :: 0 <= i < |ms| ==> ms[i].key in Keys(InternAll(table, ms))
    decreases |ms|
  {
    if ms != [] {
      var next := Intern(table, ms[0]);
      InternGrows(table, ms[0]);
      InternAllGrows(next, ms[1..]);
      var last := Keys(InternAll(table, ms));
      PrefixTransitive(Keys(table), Keys(next), last);
      forall i | 0 <= i < |ms| ensures ms[i].key in last {
        if i == 0 {
          PrefixContains(Keys(next), last, ms[0].key);
        } else {
          assert ms[i] == ms[1..][i - 1];
        }
      }
    }
  }

  ghost predicate Within(ms: seq<Meta>, keys: set<Pubkey>) { forall i :: 0 <= i < |ms| ==> ms[i].key in keys }

  lemma {:induction false} InternAllOnly(table: seq<Meta>, ms: seq<Meta>, keys: set<Pubkey>)
    requires Within(table, keys) && Within(ms, keys)
    ensures Within(InternAll(table, ms), keys)
    decreases |ms|
  {
    hide Position;
    if ms != [] {
      assert Within(Intern(table, ms[0]), keys);
      InternAllOnly(Intern(table, ms[0]), ms[1..], keys);
    }
  }

  lemma PrefixTransitive<T>(a: seq<T>, b: seq<T>, c: seq<T>)
    requires Prefix(a, b) && Prefix(b, c)
    ensures Prefix(a, c)
  {
    assert c[..|a|] == c[..|b|][..|a|];
  }

  lemma PrefixContains<T>(a: seq<T>, b: seq<T>, x: T)
    requires Prefix(a, b) && x in a
    ensures x in b
  {
    var i :| 0 <= i < |a| && a[i] == x;
    assert b[i] == b[..|a|][i];
  }

  function IndexOf(table: seq<Meta>, key: Pubkey): (r: nat)
    requires key in Keys(table)
    ensures r < |table| && table[r].key == key
  {
    Position(Keys(table), key).value
  }

  function IndicesOf(table: seq<Meta>, keys: seq<Pubkey>): (r: seq<nat>)
    requires forall i :: 0 <= i < |keys| ==> keys[i] in Keys(table)
    ensures |r| == |keys| && forall i :: 0 <= i < |keys| ==> r[i] < |table| && table[r[i]].key == keys[i]
  {
    seq(|keys|, i requires 0 <= i < |keys| => IndexOf(table, keys[i]))
  }

  // ---- compiling a call -------------------------------------------------------------------------

  function Cells(keys: seq<Pubkey>, writable: bool): (r: seq<Meta>)
    ensures |r| == |keys|
  {
    seq(|keys|, i requires 0 <= i < |keys| => Meta(keys[i], false, writable))
  }

  function OpUses(op: Operation<Pubkey>): seq<Meta> {
    match op
    case Copy(sources, destinations) => Cells(sources, false) + Cells(destinations, true)
    case SumSizes(output, inputs) => [Meta(output, false, true)] + Cells(inputs, false)
    case Fail(_) => []
    case _ => Cells(op.cells, true)
  }

  predicate Signed(signers: seq<Signer>, key: Pubkey) {
    exists i :: 0 <= i < |signers| && signers[i].address == key
  }

  /** The privileges each account is asked for at the outer call: a key the invocation signs for
      itself is not asked to sign outside. */
  function CpiUses(c: Call): (r: seq<Meta>)
    requires c.Cpi?
    ensures |r| == |c.metas| + 1
    ensures forall i :: 0 <= i < |c.metas| ==> r[i].key == c.metas[i].key
    ensures r[|c.metas|].key == c.program
  {
    seq(|c.metas|, i requires 0 <= i < |c.metas| =>
      c.metas[i].(signer := c.metas[i].signer && !Signed(c.signers, c.metas[i].key))) + [Meta(c.program, false, false)]
  }

  function Uses(c: Call): seq<Meta> {
    match c
    case Op(op) => OpUses(op)
    case RequireSigner(key) => [Meta(key, true, false)]
    case Writable(keys) => Cells(keys, true)
    case Readonly(_) => []
    case Cpi(_, _, _, _) => CpiUses(c)
    case Other(uses, _) => uses
  }

  ghost predicate Interned(table: seq<Meta>, ms: seq<Meta>) {
    forall i :: 0 <= i < |ms| ==> ms[i].key in Keys(table)
  }

  ghost predicate Known(table: seq<Meta>, keys: seq<Pubkey>) {
    forall i :: 0 <= i < |keys| ==> keys[i] in Keys(table)
  }

  lemma OpKnown(table: seq<Meta>, op: Operation<Pubkey>)
    requires Interned(table, OpUses(op))
    ensures op.Copy? ==> Known(table, op.sources) && Known(table, op.destinations)
    ensures op.SumSizes? ==> op.output in Keys(table) && Known(table, op.inputs)
    ensures !op.Copy? && !op.SumSizes? && !op.Fail? ==> Known(table, op.cells)
  {
    if op.Copy? {
      var uses := OpUses(op);
      forall i | 0 <= i < |op.sources| ensures op.sources[i] in Keys(table) { assert uses[i].key == op.sources[i]; }
      forall i | 0 <= i < |op.destinations| ensures op.destinations[i] in Keys(table) {
        assert uses[|op.sources| + i].key == op.destinations[i];
      }
    } else if op.SumSizes? {
      var uses := OpUses(op);
      assert uses[0].key == op.output;
      forall i | 0 <= i < |op.inputs| ensures op.inputs[i] in Keys(table) { assert uses[1 + i].key == op.inputs[i]; }
    } else if !op.Fail? {
      forall i | 0 <= i < |op.cells| ensures op.cells[i] in Keys(table) { assert OpUses(op)[i].key == op.cells[i]; }
    }
  }

  /** The operation over the indices of its keys. */
  function CompileOp(table: seq<Meta>, op: Operation<Pubkey>): Operation<nat>
    requires Interned(table, OpUses(op))
  {
    OpKnown(table, op);
    match op
    case Set(cells, value) => Set(IndicesOf(table, cells), value)
    case Add(cells, change) => Add(IndicesOf(table, cells), change)
    case Fill(cells, seed, step) => Fill(IndicesOf(table, cells), seed, step)
    case Hash(cells, initial, rounds) => Hash(IndicesOf(table, cells), initial, rounds)
    case FoldHashes(cells, salt, rounds) => FoldHashes(IndicesOf(table, cells), salt, rounds)
    case Copy(sources, destinations) => Copy(IndicesOf(table, sources), IndicesOf(table, destinations))
    case SumSizes(output, inputs) => SumSizes(IndexOf(table, output), IndicesOf(table, inputs))
    case Undelegate(cells, outcome) => Undelegate(IndicesOf(table, cells), outcome)
    case Fail(code) => Fail(code)
  }

  function CompileCpi(table: seq<Meta>, c: Call): Compiled<nat>
    requires c.Cpi? && Interned(table, CpiUses(c))
  {
    assert forall i :: 0 <= i < |c.metas| ==> CpiUses(c)[i].key == c.metas[i].key;
    assert CpiUses(c)[|c.metas|].key == c.program;
    Invoke(IndexOf(table, c.program),
           seq(|c.metas|, i requires 0 <= i < |c.metas| =>
             Ref(IndexOf(table, c.metas[i].key), c.metas[i].signer, c.metas[i].writable)),
           c.data, c.signers)
  }

  function UseIndices(table: seq<Meta>, uses: seq<Meta>): seq<nat>
    requires Interned(table, uses)
  {
    seq(|uses|, i requires 0 <= i < |uses| => IndexOf(table, uses[i].key))
  }

  function Emit(table: seq<Meta>, c: Call): seq<Compiled<nat>>
    requires Interned(table, Uses(c))
  {
    match c
    case Op(op) => [Native(CompileOp(table, op))]
    case Cpi(_, _, _, _) => [CompileCpi(table, c)]
    case Other(uses, data) => [Foreign(UseIndices(table, uses), data)]
    case _ => []
  }

  datatype Built = Built(table: seq<Meta>, operations: seq<Compiled<nat>>)

  function Extend(b: Built, c: Call): Built
    requires Distinct(Keys(b.table))
  {
    if c.Readonly? then b.(table := Cleared(b.table, c.keys)) else
    InternAllGrows(b.table, Uses(c));
    var table := InternAll(b.table, Uses(c));
    Built(table, b.operations + Emit(table, c))
  }

  const EMPTY_BATCH: Built := Built([], [])

  function Build(calls: seq<Call>): (b: Built)
    ensures Distinct(Keys(b.table))
  {
    if calls == [] then EMPTY_BATCH else
    var b := Build(calls[..|calls| - 1]);
    var c := calls[|calls| - 1];
    InternAllGrows(b.table, Uses(c));
    Extend(b, c)
  }

  lemma InternAllStable(table: seq<Meta>, ms: seq<Meta>, key: Pubkey)
    requires Distinct(Keys(table)) && key in Keys(table)
    ensures key in Keys(InternAll(table, ms))
    ensures IndexOf(InternAll(table, ms), key) == IndexOf(table, key)
  {
    InternAllGrows(table, ms);
    var last := Keys(InternAll(table, ms));
    PrefixContains(Keys(table), last, key);
    assert last[IndexOf(table, key)] == last[..|table|][IndexOf(table, key)];
  }

  lemma InternShrinksNot(table: seq<Meta>, ms: seq<Meta>)
    ensures |table| <= |InternAll(table, ms)|
    decreases |ms|
  {
    if ms != [] {
      InternShrinksNot(Intern(table, ms[0]), ms[1..]);
    }
  }

  /** `indices` are where the requested keys sit in the table. */
  ghost predicate Located(table: seq<Meta>, ms: seq<Meta>, indices: seq<nat>) {
    && |indices| == |ms|
    && forall i :: 0 <= i < |ms| ==> ms[i].key in Keys(table) && indices[i] == IndexOf(table, ms[i].key)
  }

  lemma EmptyLocated(table: seq<Meta>)
    ensures Located(table, [], [])
  {
  }

  lemma InternAllDone(table: seq<Meta>)
    ensures InternAll(table, []) == table
  {
  }

  /** While the final list fits, so does the next key. */
  lemma RoomForNext(table: seq<Meta>, ms: seq<Meta>, k: nat)
    requires k < |ms| && |InternAll(table, ms[k..])| <= MAX_ACCOUNTS
    ensures InternAll(table, ms[k..]) == InternAll(Intern(table, ms[k]), ms[k + 1..])
    ensures |table| <= MAX_ACCOUNTS && (ms[k].key in Keys(table) || |table| < MAX_ACCOUNTS)
  {
    assert ms[k..][1..] == ms[k + 1..];
    InternShrinksNot(Intern(table, ms[k]), ms[k + 1..]);
  }

  lemma LocatedNext(table: seq<Meta>, ms: seq<Meta>, indices: seq<nat>, m: Meta)
    requires Distinct(Keys(table)) && Located(table, ms, indices)
    ensures Distinct(Keys(Intern(table, m))) && m.key in Keys(Intern(table, m))
    ensures Located(Intern(table, m), ms + [m], indices + [IndexOf(Intern(table, m), m.key)])
  {
    InternGrows(table, m);
    assert InternAll(table, [m]) == Intern(table, m);
    forall i | 0 <= i < |ms|
      ensures ms[i].key in Keys(Intern(table, m)) && indices[i] == IndexOf(Intern(table, m), ms[i].key)
    {
      InternAllStable(table, [m], ms[i].key);
    }
  }

  /** The operation recorded from the indices its key requests came back with. */
  function WithIndices(op: Operation<Pubkey>, i: seq<nat>): Operation<nat>
    requires |i| == |OpUses(op)|
  {
    match op
    case Set(_, value) => Set(i, value)
    case Add(_, change) => Add(i, change)
    case Fill(_, seed, step) => Fill(i, seed, step)
    case Hash(_, initial, rounds) => Hash(i, initial, rounds)
    case FoldHashes(_, salt, rounds) => FoldHashes(i, salt, rounds)
    case Copy(sources, _) => Copy(i[..|sources|], i[|sources|..])
    case SumSizes(_, _) => SumSizes(i[0], i[1..])
    case Undelegate(_, outcome) => Undelegate(i, outcome)
    case Fail(code) => Fail(code)
  }

  lemma LocatedSplit(table: seq<Meta>, xs: seq<Meta>, ys: seq<Meta>, i: seq<nat>)
    requires Located(table, xs + ys, i)
    ensures Located(table, xs, i[..|xs|]) && Located(table, ys, i[|xs|..])
  {
    forall k | 0 <= k < |xs| ensures xs[k].key in Keys(table) && i[k] == IndexOf(table, xs[k].key) {
      assert (xs + ys)[k] == xs[k];
    }
    forall k | 0 <= k < |ys| ensures ys[k].key in Keys(table) && i[|xs| + k] == IndexOf(table, ys[k].key) {
      assert (xs + ys)[|xs| + k] == ys[k];
    }
  }

  lemma CellsLocated(table: seq<Meta>, keys: seq<Pubkey>, writable: bool, i: seq<nat>)
    requires Located(table, Cells(keys, writable), i)
    ensures Known(table, keys) && i == IndicesOf(table, keys)
  {
    assert forall k :: 0 <= k < |keys| ==> Cells(keys, writable)[k].key == keys[k];
  }

  lemma OpFromIndices(table: seq<Meta>, op: Operation<Pubkey>, i: seq<nat>)
    requires Located(table, OpUses(op), i)
    ensures Interned(table, OpUses(op)) && WithIndices(op, i) == CompileOp(table, op)
  {
    if op.Copy? {
      LocatedSplit(table, Cells(op.sources, false), Cells(op.destinations, true), i);
      CellsLocated(table, op.sources, false, i[..|op.sources|]);
      CellsLocated(table, op.destinations, true, i[|op.sources|..]);
    } else if op.SumSizes? {
      LocatedSplit(table, [Meta(op.output, false, true)], Cells(op.inputs, false), i);
      CellsLocated(table, op.inputs, false, i[1..]);
    } else if !op.Fail? {
      CellsLocated(table, op.cells, true, i);
    }
  }

  function CpiWithIndices(c: Call, indices: seq<nat>): Compiled<nat>
    requires c.Cpi? && |indices| == |c.metas| + 1
  {
    Invoke(indices[|c.metas|],
           seq(|c.metas|, i requires 0 <= i < |c.metas| => Ref(indices[i], c.metas[i].signer, c.metas[i].writable)),
           c.data, c.signers)
  }

  lemma CpiFromIndices(table: seq<Meta>, c: Call, indices: seq<nat>)
    requires c.Cpi? && Located(table, CpiUses(c), indices)
    ensures Interned(table, CpiUses(c)) && CpiWithIndices(c, indices) == CompileCpi(table, c)
  {
    assert forall i :: 0 <= i < |c.metas| ==> indices[i] == IndexOf(table, c.metas[i].key);
  }

  /** The builder object. Indices are `u16`, so a batch may intern at most 65,536 accounts. */
  class Batch {
    var accounts: seq<Meta>
    var operations: seq<Compiled<nat>>

    constructor ()
      ensures View() == EMPTY_BATCH
    {
      accounts, operations := [], [];
    }

    function View(): Built
      reads this
    {
      Built(accounts, operations)
    }

    /** `Batch::account`. */
    method Account(m: Meta) returns (index: nat)
      requires m.key in Keys(accounts) || |accounts| < MAX_ACCOUNTS
      requires |accounts| <= MAX_ACCOUNTS
      modifies this`accounts
      ensures accounts == Intern(old(accounts), m)
      ensures m.key in Keys(accounts) && index == IndexOf(accounts, m.key) && index < MAX_ACCOUNTS
    {
      match Position(Keys(accounts), m.key) {
        case Some(i) =>
          ghost var keys := Keys(accounts);
          accounts := accounts[i := accounts[i].(signer := accounts[i].signer || m.signer)];
          accounts := accounts[i := accounts[i].(writable := accounts[i].writable || m.writable)];
          assert Keys(accounts) == keys;
          index := i;
        case None =>
          index := |accounts|;
          ghost var keys := Keys(accounts);
          accounts := accounts + [m];
          assert Keys(accounts) == keys + [m.key];
          assert Keys(accounts)[|keys|] == m.key;
          assert m.key !in Keys(accounts)[..|keys|] by { assert Keys(accounts)[..|keys|] == keys; }
          PositionUnique(Keys(accounts), m.key, index);
      }
    }

    /** Interning a list of requests one by one yields each key's index in the final list. */
    method AccountAll(ms: seq<Meta>) returns (indices: seq<nat>)
      requires Distinct(Keys(accounts)) && |InternAll(accounts, ms)| <= MAX_ACCOUNTS
      modifies this`accounts
      ensures accounts == InternAll(old(accounts), ms) && Distinct(Keys(accounts))
      ensures Located(accounts, ms, indices)
      ensures forall i :: 0 <= i < |ms| ==> indices[i] < MAX_ACCOUNTS
    {
      hide Position, Located, IndexOf, Intern, InternAll, Keys, Distinct;
      indices := [];
      EmptyLocated(accounts);
      assert ms[..0] == [] && ms[0..] == ms;
      for k := 0 to |ms|
        invariant |indices| == k && Distinct(Keys(accounts)) && Located(accounts, ms[..k], indices)
        invariant InternAll(old(accounts), ms) == InternAll(accounts, ms[k..])
        invariant forall i :: 0 <= i < k ==> indices[i] < MAX_ACCOUNTS
      {
        RoomForNext(accounts, ms, k);
        LocatedNext(accounts, ms[..k], indices, ms[k]);
        var index := Account(ms[k]);
        indices := indices + [index];
        assert ms[..k + 1] == ms[..k] + [ms[k]];
      }
      assert ms[..|ms|] == ms && ms[|ms|..] == [];
      InternAllDone(accounts);
    }

    /** The operation builders (`set`, `add`, `fill`, `hash`, `fold_hashes`, `copy`, `sum_sizes`,
        `undelegation`, `fail`): intern the operation's keys, then record it over their indices. */
    method PushOp(op: Operation<Pubkey>)
      requires Distinct(Keys(accounts)) && |InternAll(accounts, OpUses(op))| <= MAX_ACCOUNTS
      modifies this`accounts, this`operations
      ensures View() == Extend(old(View()), Op(op))
    {
      var indices := AccountAll(OpUses(op));
      OpFromIndices(accounts, op, indices);
      operations := operations + [Native(WithIndices(op, indices))];
    }

    method Require(key: Pubkey)
      requires Distinct(Keys(accounts)) && |InternAll(accounts, [Meta(key, true, false)])| <= MAX_ACCOUNTS
      modifies this`accounts
      ensures View() == Extend(old(View()), RequireSigner(key))
    {
      var _ := AccountAll([Meta(key, true, false)]);
    }

    method MarkWritable(keys: seq<Pubkey>)
      requires Distinct(Keys(accounts)) && |InternAll(accounts, Cells(keys, true))| <= MAX_ACCOUNTS
      modifies this`accounts
      ensures View() == Extend(old(View()), Writable(keys))
    {
      var _ := AccountAll(Cells(keys, true));
    }

    /** `readonly`: clears the flag of every named account already interned. */
    method MarkReadonly(keys: seq<Pubkey>)
      requires Distinct(Keys(accounts))
      modifies this`accounts
      ensures View() == Extend(old(View()), Readonly(keys))
    {
      for i := 0 to |accounts|
        invariant |accounts| == |old(accounts)|
        invariant forall j :: 0 <= j < i ==> accounts[j] == Cleared(old(accounts), keys)[j]
        invariant forall j :: i <= j < |accounts| ==> accounts[j] == old(accounts)[j]
      {
        if accounts[i].key in keys {
          accounts := accounts[i := accounts[i].(writable := false)];
        }
      }
      assert accounts == Cleared(old(accounts), keys);
    }

    /** `invoke_signed`, for the addresses the batch signs itself. */
    method InvokeSigned(c: Call)
      requires c.Cpi? && Distinct(Keys(accounts)) && |InternAll(accounts, CpiUses(c))| <= MAX_ACCOUNTS
      modifies this`accounts, this`operations
      ensures View() == Extend(old(View()), c)
    {
      var indices := AccountAll(CpiUses(c));
      CpiFromIndices(accounts, c, indices);
      operations := operations + [CpiWithIndices(c, indices)];
    }

    /** The remaining builders: intern the accounts they name and record them by index. */
    method PushOther(uses: seq<Meta>, data: seq<byte>)
      requires Distinct(Keys(accounts)) && |InternAll(accounts, uses)| <= MAX_ACCOUNTS
      modifies this`accounts, this`operations
      ensures View() == Extend(old(View()), Other(uses, data))
    {
      var indices := AccountAll(uses);
      assert indices == UseIndices(accounts, uses);
      operations := operations + [Foreign(indices, data)];
    }
  }

  /** Only keys the calls mention are interned. */
  lemma {:induction false} BuildOnly(calls: seq<Call>, keys: set<Pubkey>)
    requires forall i :: 0 <= i < |calls| ==> Within(Uses(calls[i]), keys)
    ensures Within(Build(calls).table, keys)
    decreases |calls|
  {
    hide Uses, Emit, Within;
    if calls != [] {
      var init, c := calls[..|calls| - 1], calls[|calls| - 1];
      BuildOnly(init, keys);
      ExtendOnly(Build(init), c, keys);
    } else {
      EmptyWithin(keys);
    }
  }

  lemma EmptyWithin(keys: set<Pubkey>)
    ensures Within([], keys)
  {
  }

  lemma ExtendOnly(b: Built, c: Call, keys: set<Pubkey>)
    requires Distinct(Keys(b.table)) && Within(b.table, keys) && Within(Uses(c), keys)
    ensures Within(Extend(b, c).table, keys)
  {
    hide Uses, Emit, InternAll;
    if c.Readonly? {
      assert forall i :: 0 <= i < |b.table| ==> Extend(b, c).table[i].key == b.table[i].key;
    } else {
      InternAllOnly(b.table, Uses(c), keys);
    }
  }
}
