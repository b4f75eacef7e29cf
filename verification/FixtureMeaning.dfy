/**
 Compiling a batch and executing it means what the builder calls say. The reference reading runs
 the same operations on addresses, over a map from address to account data.
 */
module FixtureMeaning {
  import opened Common
  import opened FixtureState
  import opened FixtureExecute
  import opened FixtureBuild

  type Store = map<Pubkey, seq<byte>>

  // ---- the reference semantics ------------------------------------------------------------------

  function UpdateKey(m: Store, k: Pubkey, edit: Edit): (r: Ran<Store>)
    ensures r.state.Keys == m.Keys
  {
    if k !in m then Ran(m, Some(NotEnoughAccountKeys)) else
    var edited := Update(m[k], edit);
    Ran(m[k := edited.data], edited.error)
  }

  function EachKey(m: Store, cells: seq<Pubkey>, edit: Edit): (r: Ran<Store>)
    ensures r.state.Keys == m.Keys
    decreases |cells|
  {
    if cells == [] then Ran(m, None) else
    var first := UpdateKey(m, cells[0], edit);
    if first.error.Some? then first else EachKey(first.state, cells[1..], edit)
  }

  function HashesOf(m: Store, cells: seq<Pubkey>): Read<seq<Digest>> {
    if cells == [] then Value([]) else
    if cells[0] !in m then Bad(NotEnoughAccountKeys) else
    match ReadHash(m[cells[0]])
    case Bad(e) => Bad(e)
    case Value(hash) =>
      match HashesOf(m, cells[1..])
      case Bad(e) => Bad(e)
      case Value(rest) => Value([hash] + rest)
  }

  function CopyKeys(m: Store, sources: seq<Pubkey>, destinations: seq<Pubkey>, position: nat): (r: Ran<Store>)
    requires sources != [] && position <= |destinations|
    ensures r.state.Keys == m.Keys
    decreases |destinations| - position
  {
    if position == |destinations| then Ran(m, None) else
    var s, d := Cycle(sources, position), destinations[position];
    if s !in m || d !in m then Ran(m, Some(NotEnoughAccountKeys)) else
    match CopyEdit(s == d, m[s])
    case Bad(e) => Ran(m, Some(e))
    case Value(edit) =>
      var copied := UpdateKey(m, d, edit);
      if copied.error.Some? then copied else CopyKeys(copied.state, sources, destinations, position + 1)
  }

  function SizesOf(m: Store, inputs: seq<Pubkey>): Read<nat> {
    if inputs == [] then Value(0) else
    if inputs[0] !in m then Bad(NotEnoughAccountKeys) else
    match SizesOf(m, inputs[1..])
    case Bad(e) => Bad(e)
    case Value(rest) => Value(|m[inputs[0]]| + rest)
  }

  function ApplyKeys(sha: Sha, m: Store, op: Operation<Pubkey>): (r: Ran<Store>)
    ensures r.state.Keys == m.Keys
  {
    match op
    case Set(cells, value) => EachKey(m, cells, SetValue(value))
    case Add(cells, change) => EachKey(m, cells, AddValue(change))
    case Fill(cells, seed, step) => EachKey(m, cells, FillPayload(seed, step))
    case Hash(cells, initial, rounds) => EachKey(m, cells, WriteBytes(Chain(sha, initial, rounds)))
    case FoldHashes(cells, salt, rounds) =>
      (match HashesOf(m, cells)
       case Bad(e) => Ran(m, Some(e))
       case Value(hashes) => EachKey(m, cells, WriteBytes(Fold(sha, salt, hashes, rounds))))
    case Copy(sources, destinations) =>
      if sources == [] then Ran(m, Some(NotEnoughAccountKeys)) else CopyKeys(m, sources, destinations, 0)
    case SumSizes(output, inputs) =>
      (match SizesOf(m, inputs)
       case Bad(e) => Ran(m, Some(e))
       case Value(total) => UpdateKey(m, output, WriteBytes(LeBytes(total, 8))))
    case Undelegate(cells, outcome) => EachKey(m, cells, SetUndelegation(outcome))
    case Fail(code) => Ran(m, Some(Custom(code)))
  }

  function RunKeys(sha: Sha, m: Store, ops: seq<Operation<Pubkey>>): (r: Ran<Store>)
    ensures r.state.Keys == m.Keys
    decreases |ops|
  {
    if ops == [] then Ran(m, None) else
    var first := ApplyKeys(sha, m, ops[0]);
    if first.error.Some? then first else RunKeys(sha, first.state, ops[1..])
  }

  // ---- simulation -------------------------------------------------------------------------------

  /** The account list holds exactly the store's data for its distinct keys. */
  ghost predicate Mirrors(accounts: seq<AccountInfo>, m: Store) {
    && (forall i :: 0 <= i < |accounts| ==> accounts[i].key in m && accounts[i].data == m[accounts[i].key])
    && forall i, j :: 0 <= i < j < |accounts| ==> accounts[i].key != accounts[j].key
  }

  ghost predicate SameKeys(a: seq<AccountInfo>, b: seq<AccountInfo>) {
    |a| == |b| && forall i :: 0 <= i < |a| ==> a[i].key == b[i].key
  }

  /** Only accounts of the list may differ between two stores. */
  ghost predicate Confined(accounts: seq<AccountInfo>, m: Store, n: Store) {
    && m.Keys == n.Keys
    && forall k :: k in m && m[k] != n[k] ==> exists i :: 0 <= i < |accounts| && accounts[i].key == k
  }

  /** Both executions ended alike. */
  ghost predicate Alike(accounts: seq<AccountInfo>, m: Store, a: Ran<seq<AccountInfo>>, b: Ran<Store>) {
    && a.error == b.error
    && Mirrors(a.state, b.state)
    && SameKeys(accounts, a.state)
    && Confined(accounts, m, b.state)
  }

  /** The addresses a list of indices names. */
  ghost predicate Names(accounts: seq<AccountInfo>, indices: seq<nat>, keys: seq<Pubkey>) {
    && |indices| == |keys|
    && forall i :: 0 <= i < |keys| ==> indices[i] < |accounts| && accounts[indices[i]].key == keys[i]
  }

  lemma NamesSame(a: seq<AccountInfo>, b: seq<AccountInfo>, indices: seq<nat>, keys: seq<Pubkey>)
    requires SameKeys(a, b) && Names(a, indices, keys)
    ensures Names(b, indices, keys)
  {
  }

  lemma AlikeChain(a: seq<AccountInfo>, m: Store, b: seq<AccountInfo>, n: Store,
                   x: Ran<seq<AccountInfo>>, y: Ran<Store>)
    requires SameKeys(a, b) && Confined(a, m, n) && Alike(b, n, x, y)
    ensures Alike(a, m, x, y)
  {
    forall k | k in m && m[k] != y.state[k] ensures exists i :: 0 <= i < |a| && a[i].key == k {
      if m[k] == n[k] {
        var i :| 0 <= i < |b| && b[i].key == k;
        assert a[i].key == k;
      }
    }
  }

  lemma UpdateAlike(accounts: seq<AccountInfo>, m: Store, i: nat, edit: Edit)
    requires Mirrors(accounts, m) && i < |accounts|
    ensures Alike(accounts, m, UpdateAt(accounts, i, edit), UpdateKey(m, accounts[i].key, edit))
  {
    var a := UpdateAt(accounts, i, edit).state;
    assert forall j :: 0 <= j < |a| ==> a[j].key == accounts[j].key;
  }

  lemma {:induction false} EachAlike(accounts: seq<AccountInfo>, m: Store, cells: seq<nat>,
                                     keys: seq<Pubkey>, edit: Edit)
    requires Mirrors(accounts, m) && Names(accounts, cells, keys)
    ensures Alike(accounts, m, EachAt(accounts, cells, edit), EachKey(m, keys, edit))
    decreases |cells|
  {
    if cells != [] {
      UpdateAlike(accounts, m, cells[0], edit);
      var a, b := UpdateAt(accounts, cells[0], edit), UpdateKey(m, keys[0], edit);
      if a.error == None {
        NamesSame(accounts, a.state, cells, keys);
        EachAlike(a.state, b.state, cells[1..], keys[1..], edit);
        AlikeChain(accounts, m, a.state, b.state, EachAt(a.state, cells[1..], edit), EachKey(b.state, keys[1..], edit));
      }
    }
  }

  lemma {:induction false} HashesAlike(accounts: seq<AccountInfo>, m: Store, cells: seq<nat>, keys: seq<Pubkey>)
    requires Mirrors(accounts, m) && Names(accounts, cells, keys)
    ensures HashesAt(accounts, cells) == HashesOf(m, keys)
    decreases |cells|
  {
    if cells != [] {
      HashesAlike(accounts, m, cells[1..], keys[1..]);
    }
  }

  lemma {:induction false} SizesAlike(accounts: seq<AccountInfo>, m: Store, cells: seq<nat>, keys: seq<Pubkey>)
    requires Mirrors(accounts, m) && Names(accounts, cells, keys)
    ensures SizesAt(accounts, cells) == SizesOf(m, keys)
    decreases |cells|
  {
    if cells != [] {
      SizesAlike(accounts, m, cells[1..], keys[1..]);
    }
  }

  lemma NamesCycle(accounts: seq<AccountInfo>, indices: seq<nat>, keys: seq<Pubkey>, position: nat)
    requires Names(accounts, indices, keys) && indices != []
    ensures Cycle(indices, position) < |accounts| && accounts[Cycle(indices, position)].key == Cycle(keys, position)
  {
  }

  lemma {:induction false} CopyAlike(accounts: seq<AccountInfo>, m: Store, sources: seq<nat>, sourceKeys: seq<Pubkey>,
                                     destinations: seq<nat>, destinationKeys: seq<Pubkey>, position: nat)
    requires Mirrors(accounts, m) && Names(accounts, sources, sourceKeys)
             && Names(accounts, destinations, destinationKeys)
    requires sources != [] && position <= |destinations|
    ensures Alike(accounts, m, CopyAt(accounts, sources, destinations, position),
                  CopyKeys(m, sourceKeys, destinationKeys, position))
    decreases |destinations| - position
  {
    if position < |destinations| {
      var s, d := Cycle(sources, position), destinations[position];
      NamesCycle(accounts, sources, sourceKeys, position);
      assert destinationKeys[position] == accounts[d].key;
      var edit := CopyEdit(accounts[s].key == accounts[d].key, accounts[s].data);
      if edit.Value? {
        UpdateAlike(accounts, m, d, edit.value);
        var a, b := UpdateAt(accounts, d, edit.value), UpdateKey(m, accounts[d].key, edit.value);
        if a.error == None {
          NamesSame(accounts, a.state, sources, sourceKeys);
          NamesSame(accounts, a.state, destinations, destinationKeys);
          CopyAlike(a.state, b.state, sources, sourceKeys, destinations, destinationKeys, position + 1);
          AlikeChain(accounts, m, a.state, b.state, CopyAt(a.state, sources, destinations, position + 1),
                     CopyKeys(b.state, sourceKeys, destinationKeys, position + 1));
        }
      }
    }
  }

  /** The indexed operation names the same cells as the addressed one, in the same places. */
  ghost predicate Denotes(accounts: seq<AccountInfo>, op: Operation<nat>, named: Operation<Pubkey>) {
    match (op, named)
    case (Set(c, v), Set(k, w)) => Names(accounts, c, k) && v == w
    case (Add(c, v), Add(k, w)) => Names(accounts, c, k) && v == w
    case (Fill(c, v, s), Fill(k, w, t)) => Names(accounts, c, k) && v == w && s == t
    case (Hash(c, v, s), Hash(k, w, t)) => Names(accounts, c, k) && v == w && s == t
    case (FoldHashes(c, v, s), FoldHashes(k, w, t)) => Names(accounts, c, k) && v == w && s == t
    case (Copy(c, d), Copy(k, l)) => Names(accounts, c, k) && Names(accounts, d, l)
    case (SumSizes(o, c), SumSizes(p, k)) => o < |accounts| && accounts[o].key == p && Names(accounts, c, k)
    case (Undelegate(c, v), Undelegate(k, w)) => Names(accounts, c, k) && v == w
    case (Fail(c), Fail(d)) => c == d
    case _ => false
  }

  lemma ApplyAlike(sha: Sha, accounts: seq<AccountInfo>, m: Store, op: Operation<nat>, named: Operation<Pubkey>)
    requires Mirrors(accounts, m) && Denotes(accounts, op, named)
    ensures Alike(accounts, m, ApplyAt(sha, accounts, op), ApplyKeys(sha, m, named))
  {
    match op {
      case Set(cells, value) => EachAlike(accounts, m, cells, named.cells, SetValue(value));
      case Add(cells, change) => EachAlike(accounts, m, cells, named.cells, AddValue(change));
      case Fill(cells, seed, step) => EachAlike(accounts, m, cells, named.cells, FillPayload(seed, step));
      case Hash(cells, initial, rounds) =>
        EachAlike(accounts, m, cells, named.cells, WriteBytes(Chain(sha, initial, rounds)));
      case FoldHashes(cells, salt, rounds) =>
        HashesAlike(accounts, m, cells, named.cells);
        var hashes := HashesAt(accounts, cells);
        if hashes.Value? {
          EachAlike(accounts, m, cells, named.cells, WriteBytes(Fold(sha, salt, hashes.value, rounds)));
        }
      case Copy(sources, destinations) =>
        if sources != [] {
          CopyAlike(accounts, m, sources, named.sources, destinations, named.destinations, 0);
        }
      case SumSizes(output, inputs) =>
        SizesAlike(accounts, m, inputs, named.inputs);
        var sum := SizesAt(accounts, inputs);
        if sum.Value? {
          UpdateAlike(accounts, m, output, WriteBytes(LeBytes(sum.value, 8)));
        }
      case Undelegate(cells, outcome) => EachAlike(accounts, m, cells, named.cells, SetUndelegation(outcome));
      case Fail(_) =>
    }
  }

  ghost predicate AllDenote(accounts: seq<AccountInfo>, ops: seq<Operation<nat>>, named: seq<Operation<Pubkey>>) {
    |ops| == |named| && forall i :: 0 <= i < |ops| ==> Denotes(accounts, ops[i], named[i])
  }

  lemma {:induction false} RunAlike(sha: Sha, accounts: seq<AccountInfo>, m: Store,
                                    ops: seq<Operation<nat>>, named: seq<Operation<Pubkey>>)
    requires Mirrors(accounts, m) && AllDenote(accounts, ops, named)
    ensures Alike(accounts, m, RunAt(sha, accounts, ops), RunKeys(sha, m, named))
    decreases |ops|
  {
    if ops != [] {
      ApplyAlike(sha, accounts, m, ops[0], named[0]);
      var a, b := ApplyAt(sha, accounts, ops[0]), ApplyKeys(sha, m, named[0]);
      if a.error == None {
        DenotesSame(accounts, a.state, ops, named);
        RunAlike(sha, a.state, b.state, ops[1..], named[1..]);
        AlikeChain(accounts, m, a.state, b.state, RunAt(sha, a.state, ops[1..]), RunKeys(sha, b.state, named[1..]));
      }
    }
  }

  lemma DenotesSame(a: seq<AccountInfo>, b: seq<AccountInfo>, ops: seq<Operation<nat>>, named: seq<Operation<Pubkey>>)
    requires SameKeys(a, b) && AllDenote(a, ops, named)
    ensures AllDenote(b, ops, named)
  {
  }

  // ---- compiling ----------------------------------------------------------------------------------

  /** An account list laid out as a batch's table says. */
  ghost predicate Fits(accounts: seq<AccountInfo>, table: seq<Meta>) {
    |table| <= |accounts| && forall i :: 0 <= i < |table| ==> accounts[i].key == table[i].key
  }

  lemma CompileDenotes(accounts: seq<AccountInfo>, table: seq<Meta>, op: Operation<Pubkey>)
    requires Fits(accounts, table) && Interned(table, OpUses(op))
    ensures Denotes(accounts, CompileOp(table, op), op)
  {
    OpKnown(table, op);
  }

  ghost predicate Plain(calls: seq<Call>) { forall i :: 0 <= i < |calls| ==> !calls[i].Cpi? && !calls[i].Other? }

  /** The operations a sequence of calls asks for, in order. */
  function Asked(calls: seq<Call>): seq<Operation<Pubkey>> {
    if calls == [] then [] else
    Asked(calls[..|calls| - 1]) + (if calls[|calls| - 1].Op? then [calls[|calls| - 1].op] else [])
  }

  function Natives(ops: seq<Compiled<nat>>): seq<Operation<nat>> {
    if ops == [] then [] else
    Natives(ops[..|ops| - 1]) + (if ops[|ops| - 1].Native? then [ops[|ops| - 1].op] else [])
  }

  lemma ExtendKeepsLayout(accounts: seq<AccountInfo>, b: Built, c: Call)
    requires Distinct(Keys(b.table)) && Fits(accounts, Extend(b, c).table)
    ensures Fits(accounts, b.table)
  {
    var table := Extend(b, c).table;
    if c.Readonly? {
      assert Keys(table) == Keys(b.table);
    } else {
      InternAllGrows(b.table, Uses(c));
      assert Keys(table)[..|b.table|] == Keys(b.table);
    }
    forall i | 0 <= i < |b.table| ensures accounts[i].key == b.table[i].key {
      assert Keys(table)[i] == Keys(b.table)[i];
    }
  }

  /** Every recorded operation still denotes the call it came from, however much the account list
      grew after it was recorded. */
  lemma {:induction false} BuildDenotes(accounts: seq<AccountInfo>, calls: seq<Call>)
    requires Fits(accounts, Build(calls).table)
    ensures AllDenote(accounts, Natives(Build(calls).operations), Asked(calls))
    decreases |calls|
  {
    if calls != [] {
      var init, c := calls[..|calls| - 1], calls[|calls| - 1];
      var b := Build(init);
      ExtendKeepsLayout(accounts, b, c);
      BuildDenotes(accounts, init);
      if c.Op? {
        InternAllGrows(b.table, OpUses(c.op));
        var table := InternAll(b.table, OpUses(c.op));
        CompileDenotes(accounts, table, c.op);
        var ops := Build(calls).operations;
        assert ops == b.operations + [Native(CompileOp(table, c.op))];
        assert ops[..|ops| - 1] == b.operations;
      } else if c.Cpi? || c.Other? {
        var ops := Build(calls).operations;
        assert ops[..|ops| - 1] == b.operations && !ops[|ops| - 1].Native?;
      } else {
        assert Build(calls).operations == b.operations;
      }
    }
  }

  /** The calls that leave something to execute. */
  function Recording(calls: seq<Call>): seq<Call> {
    if calls == [] then [] else
    var before, c := Recording(calls[..|calls| - 1]), calls[|calls| - 1];
    if c.Op? || c.Cpi? || c.Other? then before + [c] else before
  }

  ghost predicate At(accounts: seq<AccountInfo>, i: nat, key: Pubkey) { i < |accounts| && accounts[i].key == key }

  /** A recorded operation says what its call said: the same accounts, and for an inner call the privileges,
      data and signers it was given. */
  ghost predicate Says(accounts: seq<AccountInfo>, compiled: Compiled<nat>, c: Call) {
    match c
    case Op(op) => compiled.Native? && Denotes(accounts, compiled.op, op)
    case Cpi(program, metas, data, signers) =>
      && compiled.Invoke? && At(accounts, compiled.program, program) && compiled.data == data
      && compiled.signers == signers && |compiled.accounts| == |metas|
      && (forall i :: 0 <= i < |metas| ==> At(accounts, compiled.accounts[i].account, metas[i].key))
      && (forall i :: 0 <= i < |metas| ==> compiled.accounts[i].signer == metas[i].signer)
      && (forall i :: 0 <= i < |metas| ==> compiled.accounts[i].writable == metas[i].writable)
    case Other(uses, data) =>
      && compiled.Foreign? && compiled.data == data && |compiled.named| == |uses|
      && forall i :: 0 <= i < |uses| ==> At(accounts, compiled.named[i], uses[i].key)
    case _ => false
  }

  lemma EmitSays(accounts: seq<AccountInfo>, table: seq<Meta>, c: Call)
    requires Fits(accounts, table) && Interned(table, Uses(c)) && (c.Op? || c.Cpi? || c.Other?)
    ensures |Emit(table, c)| == 1 && Says(accounts, Emit(table, c)[0], c)
  {
    match c {
      case Op(op) => CompileDenotes(accounts, table, op);
      case Cpi(program, metas, _, _) =>
        assert forall i :: 0 <= i < |metas| ==> CpiUses(c)[i].key == metas[i].key;
        assert CpiUses(c)[|metas|].key == program;
      case Other(_, _) =>
    }
  }

  /** Operation for operation, a batch records what its calls said, for every sequence of calls and
      however much the account list grew later. */
  lemma {:induction false} BuildRecords(accounts: seq<AccountInfo>, calls: seq<Call>)
    requires Fits(accounts, Build(calls).table)
    ensures |Build(calls).operations| == |Recording(calls)|
    ensures forall i :: 0 <= i < |Recording(calls)| ==> Says(accounts, Build(calls).operations[i], Recording(calls)[i])
    decreases |calls|
  {
    if calls != [] {
      var init, c := calls[..|calls| - 1], calls[|calls| - 1];
      var b := Build(init);
      ExtendKeepsLayout(accounts, b, c);
      BuildRecords(accounts, init);
      if c.Op? || c.Cpi? || c.Other? {
        InternAllGrows(b.table, Uses(c));
        EmitSays(accounts, InternAll(b.table, Uses(c)), c);
      }
      hide Says, Emit, Uses;
    }
  }

  /** The account list handed to the program: the interned keys with the chain's data. */
  function Load(table: seq<Meta>, m: Store): (r: seq<AccountInfo>)
    requires forall i :: 0 <= i < |table| ==> table[i].key in m
    ensures |r| == |table|
  {
    seq(|table|, i requires 0 <= i < |table| => AccountInfo(table[i].key, m[table[i].key]))
  }

  /** Compile-then-execute preserves meaning: for every sequence of builder calls and every store,
      running the built operations on the interned accounts returns the same error and leaves the
      same data as running the calls on addresses, and touches no other account. */
  lemma CompiledBatchMeans(sha: Sha, calls: seq<Call>, m: Store)
    requires Plain(calls)
    requires forall i :: 0 <= i < |Build(calls).table| ==> Build(calls).table[i].key in m
    ensures var accounts := Load(Build(calls).table, m);
            Alike(accounts, m, RunAt(sha, accounts, Natives(Build(calls).operations)), RunKeys(sha, m, Asked(calls)))
  {
    var table := Build(calls).table;
    var accounts := Load(table, m);
    forall i, j | 0 <= i < j < |accounts| ensures accounts[i].key != accounts[j].key {
      assert Keys(table)[i] != Keys(table)[j];
    }
    BuildDenotes(accounts, calls);
    RunAlike(sha, accounts, m, Natives(Build(calls).operations), Asked(calls));
  }

  /** The store after an invocation's account data is written back. */
  function Stored(m: Store, accounts: seq<AccountInfo>): Store {
    if accounts == [] then m else
    Stored(m, accounts[..|accounts| - 1])[accounts[|accounts| - 1].key := accounts[|accounts| - 1].data]
  }

  lemma {:induction false} StoredLookup(m: Store, accounts: seq<AccountInfo>, n: Store, k: Pubkey)
    requires Mirrors(accounts, n)
    ensures k in Stored(m, accounts) <==> k in m || exists i :: 0 <= i < |accounts| && accounts[i].key == k
    ensures k in Stored(m, accounts) ==>
      Stored(m, accounts)[k] == if exists i :: 0 <= i < |accounts| && accounts[i].key == k then n[k] else m[k]
  {
    if accounts != [] {
      var init := accounts[..|accounts| - 1];
      StoredLookup(m, init, n, k);
      if i :| 0 <= i < |accounts| && accounts[i].key == k {
        assert i == |accounts| - 1 || init[i].key == k;
      }
    }
  }

  /** Executing a built batch against the chain: load its accounts, run, write them back. */
  function OnChain(sha: Sha, m: Store, b: Built): Ran<Store>
    requires forall i :: 0 <= i < |b.table| ==> b.table[i].key in m
  {
    var ran := RunAt(sha, Load(b.table, m), Natives(b.operations));
    Ran(Stored(m, ran.state), ran.error)
  }

  /** So an execution on chain is the reference run, as a function on whole stores. */
  lemma OnChainMeans(sha: Sha, calls: seq<Call>, m: Store)
    requires Plain(calls)
    requires forall i :: 0 <= i < |Build(calls).table| ==> Build(calls).table[i].key in m
    ensures OnChain(sha, m, Build(calls)) == RunKeys(sha, m, Asked(calls))
  {
    CompiledBatchMeans(sha, calls, m);
    var accounts := Load(Build(calls).table, m);
    var a, b := RunAt(sha, accounts, Natives(Build(calls).operations)), RunKeys(sha, m, Asked(calls));
    forall k ensures k in Stored(m, a.state) <==> k in b.state
             ensures k in b.state ==> Stored(m, a.state)[k] == b.state[k]
    {
      StoredLookup(m, a.state, b.state, k);
    }
    assert Stored(m, a.state) == b.state;
  }

  // ---- privileges ---------------------------------------------------------------------------------

  /** What the calls ask of the account list, one request at a time. */
  datatype Request = Use(m: Meta) | Clear(keys: seq<Pubkey>)

  function Requests(c: Call): seq<Request> {
    if c.Readonly? then [Clear(c.keys)] else AsUses(Uses(c))
  }

  function AsUses(ms: seq<Meta>): (r: seq<Request>)
    ensures |r| == |ms|
  {
    seq(|ms|, i requires 0 <= i < |ms| => Use(ms[i]))
  }

  function AllRequests(calls: seq<Call>): seq<Request> {
    if calls == [] then [] else AllRequests(calls[..|calls| - 1]) + Requests(calls[|calls| - 1])
  }

  function Served(table: seq<Meta>, r: Request): seq<Meta> {
    match r
    case Use(m) => Intern(table, m)
    case Clear(keys) => Cleared(table, keys)
  }

  function Serve(table: seq<Meta>, rs: seq<Request>): seq<Meta>
    decreases |rs|
  {
    if rs == [] then table else Served(Serve(table, rs[..|rs| - 1]), rs[|rs| - 1])
  }

  lemma {:induction false} ServeAppend(table: seq<Meta>, xs: seq<Request>, ys: seq<Request>)
    ensures Serve(table, xs + ys) == Serve(Serve(table, xs), ys)
    decreases |ys|
  {
    if ys == [] {
      assert xs + ys == xs;
    } else {
      assert (xs + ys)[..|xs + ys| - 1] == xs + ys[..|ys| - 1];
      ServeAppend(table, xs, ys[..|ys| - 1]);
    }
  }

  lemma ServeOne(table: seq<Meta>, r: Request)
    ensures Serve(table, [r]) == Served(table, r)
  {
    assert [r][..0] == [];
  }

  lemma {:induction false} ServeUses(table: seq<Meta>, ms: seq<Meta>)
    ensures InternAll(table, ms) == Serve(table, AsUses(ms))
    decreases |ms|
  {
    if ms != [] {
      ServeUses(Intern(table, ms[0]), ms[1..]);
      assert AsUses(ms) == [Use(ms[0])] + AsUses(ms[1..]);
      ServeAppend(table, [Use(ms[0])], AsUses(ms[1..]));
      ServeOne(table, Use(ms[0]));
    }
  }

  lemma ExtendServes(b: Built, c: Call)
    requires Distinct(Keys(b.table))
    ensures Extend(b, c).table == Serve(b.table, Requests(c))
  {
    if c.Readonly? {
      ServeOne(b.table, Clear(c.keys));
    } else {
      ServeUses(b.table, Uses(c));
    }
  }

  lemma {:induction false} BuildServes(calls: seq<Call>)
    ensures Build(calls).table == Serve([], AllRequests(calls))
    decreases |calls|
  {
    if calls != [] {
      var init, c := calls[..|calls| - 1], calls[|calls| - 1];
      BuildServes(init);
      ServeAppend([], AllRequests(init), Requests(c));
      ExtendServes(Build(init), c);
    }
  }

  ghost predicate Mentioned(rs: seq<Request>, key: Pubkey) {
    exists i :: 0 <= i < |rs| && rs[i].Use? && rs[i].m.key == key
  }

  ghost predicate SignerAsked(rs: seq<Request>, key: Pubkey) {
    exists i :: 0 <= i < |rs| && rs[i].Use? && rs[i].m.key == key && rs[i].m.signer
  }

  /** Some use asked to write the account and no later `readonly` withdrew it. */
  ghost predicate WriteAsked(rs: seq<Request>, key: Pubkey) {
    exists i :: 0 <= i < |rs| && rs[i].Use? && rs[i].m.key == key && rs[i].m.writable && Unwithdrawn(rs, i, key)
  }

  ghost predicate Unwithdrawn(rs: seq<Request>, i: nat, key: Pubkey) {
    forall j :: i < j < |rs| && rs[j].Clear? ==> key !in rs[j].keys
  }

  /** Exactly the mentioned keys are interned, each once, with exactly the privileges asked for. */
  ghost predicate Exact(table: seq<Meta>, rs: seq<Request>) {
    && Distinct(Keys(table))
    && (forall key :: key in Keys(table) <==> Mentioned(rs, key))
    && (forall i :: 0 <= i < |table| ==> (table[i].signer <==> SignerAsked(rs, table[i].key)))
    && (forall i :: 0 <= i < |table| ==> (table[i].writable <==> WriteAsked(rs, table[i].key)))
  }

  lemma MentionedNext(rs: seq<Request>, r: Request, key: Pubkey)
    ensures Mentioned(rs + [r], key) <==> Mentioned(rs, key) || (r.Use? && r.m.key == key)
    ensures SignerAsked(rs + [r], key) <==> SignerAsked(rs, key) || (r.Use? && r.m.key == key && r.m.signer)
  {
    var all := rs + [r];
    assert all[|rs|] == r;
    assert forall i :: 0 <= i < |rs| ==> all[i] == rs[i];
  }

  lemma WriteNext(rs: seq<Request>, r: Request, key: Pubkey)
    ensures WriteAsked(rs + [r], key) <==>
      if r.Use? then WriteAsked(rs, key) || (r.m.key == key && r.m.writable) else WriteAsked(rs, key) && key !in r.keys
  {
    var all := rs + [r];
    assert all[|rs|] == r;
    forall i | 0 <= i < |rs| ensures all[i] == rs[i]
      && (Unwithdrawn(all, i, key) <==> Unwithdrawn(rs, i, key) && (r.Clear? ==> key !in r.keys))
    {
      assert forall j :: i < j < |rs| ==> all[j] == rs[j];
    }
    assert Unwithdrawn(all, |rs|, key);
  }

  lemma UseExact(table: seq<Meta>, rs: seq<Request>, m: Meta)
    requires Exact(table, rs)
    ensures Exact(Intern(table, m), rs + [Use(m)])
  {
    var next := Intern(table, m);
    InternGrows(table, m);
    forall key ensures key in Keys(next) <==> Mentioned(rs + [Use(m)], key) {
      MentionedNext(rs, Use(m), key);
      if key in Keys(table) { PrefixContains(Keys(table), Keys(next), key); }
    }
    forall i | 0 <= i < |next|
      ensures next[i].signer <==> SignerAsked(rs + [Use(m)], next[i].key)
      ensures next[i].writable <==> WriteAsked(rs + [Use(m)], next[i].key)
    {
      MentionedNext(rs, Use(m), next[i].key);
      WriteNext(rs, Use(m), next[i].key);
      if i == |table| {
        assert !Mentioned(rs, m.key);
      } else if next[i].key == m.key {
        assert Keys(table)[i] == m.key;
      }
    }
  }

  lemma ClearExact(table: seq<Meta>, rs: seq<Request>, keys: seq<Pubkey>)
    requires Exact(table, rs)
    ensures Exact(Cleared(table, keys), rs + [Clear(keys)])
  {
    var next := Cleared(table, keys);
    forall key ensures key in Keys(next) <==> Mentioned(rs + [Clear(keys)], key) {
      MentionedNext(rs, Clear(keys), key);
    }
    forall i | 0 <= i < |next|
      ensures next[i].signer <==> SignerAsked(rs + [Clear(keys)], next[i].key)
      ensures next[i].writable <==> WriteAsked(rs + [Clear(keys)], next[i].key)
    {
      MentionedNext(rs, Clear(keys), next[i].key);
      WriteNext(rs, Clear(keys), next[i].key);
    }
  }

  lemma {:induction false} ServeExact(rs: seq<Request>)
    ensures Exact(Serve([], rs), rs)
    decreases |rs|
  {
    if rs != [] {
      var init, r := rs[..|rs| - 1], rs[|rs| - 1];
      ServeExact(init);
      assert rs == init + [r];
      match r {
        case Use(m) => UseExact(Serve([], init), init, m);
        case Clear(keys) => ClearExact(Serve([], init), init, keys);
      }
    }
  }

  /** Over every sequence of calls: keys are interned exactly when mentioned and only once, an
      account signs exactly when some use asked it to, and is writable exactly when some use asked
      for it after the last `readonly` naming it. */
  lemma BatchPrivileges(calls: seq<Call>)
    ensures Exact(Build(calls).table, AllRequests(calls))
  {
    BuildServes(calls);
    ServeExact(AllRequests(calls));
  }
}
