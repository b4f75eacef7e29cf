/** Which accounts a batch asks to sign and to write, by what its calls are: in particular, whatever a
    batch writes it has asked to write. */
module FixturePrivileges {
  import opened Common
  import opened FixtureState
  import opened FixtureExecute
  import opened FixtureBuild
  import opened FixtureMeaning

  // ---- what a call is about -------------------------------------------------------------------------

  /** The accounts an operation writes: its cells, the destinations of a copy, the output of a sum. */
  predicate OpWrites(op: Operation<Pubkey>, key: Pubkey) {
    match op
    case Copy(_, destinations) => key in destinations
    case SumSizes(output, _) => key == output
    case Fail(_) => false
    case _ => key in op.cells
  }

  /** Those it only reads. */
  predicate OpReads(op: Operation<Pubkey>, key: Pubkey) {
    match op
    case Copy(sources, _) => key in sources
    case SumSizes(_, inputs) => key in inputs
    case _ => false
  }

  ghost predicate Listed(metas: seq<Meta>, key: Pubkey) { exists i :: 0 <= i < |metas| && metas[i].key == key }

  ghost predicate ListedWritable(metas: seq<Meta>, key: Pubkey) {
    exists i :: 0 <= i < |metas| && metas[i].key == key && metas[i].writable
  }

  ghost predicate ListedSigner(metas: seq<Meta>, key: Pubkey) {
    exists i :: 0 <= i < |metas| && metas[i].key == key && metas[i].signer
  }

  ghost predicate Concerns(c: Call, key: Pubkey) {
    match c
    case Op(op) => OpWrites(op, key) || OpReads(op, key)
    case RequireSigner(k) => key == k
    case Writable(keys) => key in keys
    case Readonly(_) => false
    case Cpi(program, metas, _, _) => Listed(metas, key) || key == program
    case Other(uses, _) => Listed(uses, key)
  }

  ghost predicate Writes(c: Call, key: Pubkey) {
    match c
    case Op(op) => OpWrites(op, key)
    case Writable(keys) => key in keys
    case Cpi(_, metas, _, _) => ListedWritable(metas, key)
    case Other(uses, _) => ListedWritable(uses, key)
    case _ => false
  }

  /** A signature is asked of an account the call requires, or that an inner call lists as signer without
      signing for it itself. */
  ghost predicate Signs(c: Call, key: Pubkey) {
    match c
    case RequireSigner(k) => key == k
    case Cpi(_, metas, _, signers) =>
      ListedSigner(metas, key) && forall i :: 0 <= i < |signers| ==> signers[i].address != key
    case Other(uses, _) => ListedSigner(uses, key)
    case _ => false
  }

  // ---- what its uses say ----------------------------------------------------------------------------

  lemma CellsListed(keys: seq<Pubkey>, writable: bool, key: Pubkey)
    ensures Listed(Cells(keys, writable), key) <==> key in keys
    ensures ListedWritable(Cells(keys, writable), key) <==> key in keys && writable
    ensures !ListedSigner(Cells(keys, writable), key)
  {
    var metas := Cells(keys, writable);
    if i :| 0 <= i < |keys| && keys[i] == key {
      assert metas[i].key == key && metas[i].writable == writable;
    }
  }

  lemma ListedJoin(a: seq<Meta>, b: seq<Meta>, key: Pubkey)
    ensures Listed(a + b, key) <==> Listed(a, key) || Listed(b, key)
    ensures ListedWritable(a + b, key) <==> ListedWritable(a, key) || ListedWritable(b, key)
    ensures ListedSigner(a + b, key) <==> ListedSigner(a, key) || ListedSigner(b, key)
  {
    assert forall i :: 0 <= i < |a| ==> (a + b)[i] == a[i];
    assert forall i :: 0 <= i < |b| ==> (a + b)[|a| + i] == b[i];
  }

  lemma OneListed(m: Meta, key: Pubkey)
    ensures Listed([m], key) <==> m.key == key
    ensures ListedWritable([m], key) <==> m.key == key && m.writable
    ensures ListedSigner([m], key) <==> m.key == key && m.signer
  {
    assert [m][0] == m;
  }

  lemma OpListed(op: Operation<Pubkey>, key: Pubkey)
    ensures Listed(OpUses(op), key) <==> OpWrites(op, key) || OpReads(op, key)
    ensures ListedWritable(OpUses(op), key) <==> OpWrites(op, key)
    ensures !ListedSigner(OpUses(op), key)
  {
    match op {
      case Copy(sources, destinations) =>
        ListedJoin(Cells(sources, false), Cells(destinations, true), key);
        CellsListed(sources, false, key);
        CellsListed(destinations, true, key);
      case SumSizes(output, inputs) =>
        ListedJoin([Meta(output, false, true)], Cells(inputs, false), key);
        OneListed(Meta(output, false, true), key);
        CellsListed(inputs, false, key);
      case Fail(_) =>
      case _ => CellsListed(op.cells, true, key);
    }
  }

  lemma CpiListed(c: Call, key: Pubkey)
    requires c.Cpi?
    ensures Listed(CpiUses(c), key) <==> Concerns(c, key)
    ensures ListedWritable(CpiUses(c), key) <==> Writes(c, key)
    ensures ListedSigner(CpiUses(c), key) <==> Signs(c, key)
  {
    var uses := CpiUses(c);
    assert uses[|c.metas|] == Meta(c.program, false, false);
    assert forall i :: 0 <= i < |c.metas| ==>
      uses[i] == c.metas[i].(signer := c.metas[i].signer && !Signed(c.signers, c.metas[i].key));
  }

  lemma UsesListed(c: Call, key: Pubkey)
    ensures Listed(Uses(c), key) <==> Concerns(c, key)
    ensures ListedWritable(Uses(c), key) <==> Writes(c, key)
    ensures ListedSigner(Uses(c), key) <==> Signs(c, key)
  {
    match c {
      case Op(op) => OpListed(op, key);
      case RequireSigner(k) => OneListed(Meta(k, true, false), key);
      case Writable(keys) => CellsListed(keys, true, key);
      case Readonly(_) =>
      case Cpi(_, _, _, _) => CpiListed(c, key);
      case Other(_, _) =>
    }
  }

  // ---- over a batch ---------------------------------------------------------------------------------

  ghost predicate Standing(calls: seq<Call>, i: nat, key: Pubkey) {
    forall j :: i < j < |calls| && calls[j].Readonly? ==> key !in calls[j].keys
  }

  ghost predicate EverConcerns(calls: seq<Call>, key: Pubkey) {
    exists i :: 0 <= i < |calls| && Concerns(calls[i], key)
  }

  ghost predicate EverSigns(calls: seq<Call>, key: Pubkey) { exists i :: 0 <= i < |calls| && Signs(calls[i], key) }

  /** Some call writes the account and no later `readonly` withdraws it. */
  ghost predicate StillWrites(calls: seq<Call>, key: Pubkey) {
    exists i :: 0 <= i < |calls| && Writes(calls[i], key) && Standing(calls, i, key)
  }

  lemma EverNext(calls: seq<Call>, key: Pubkey)
    requires calls != []
    ensures var init, c := calls[..|calls| - 1], calls[|calls| - 1];
            && (EverConcerns(calls, key) <==> EverConcerns(init, key) || Concerns(c, key))
            && (EverSigns(calls, key) <==> EverSigns(init, key) || Signs(c, key))
            && (StillWrites(calls, key) <==>
                  (StillWrites(init, key) && (c.Readonly? ==> key !in c.keys)) || Writes(c, key))
  {
    var init, c := calls[..|calls| - 1], calls[|calls| - 1];
    assert Standing(calls, |init|, key);
    forall i: nat | i < |init|
      ensures calls[i] == init[i]
      ensures Standing(calls, i, key) <==> Standing(init, i, key) && (c.Readonly? ==> key !in c.keys)
    {
      assert forall j :: i < j < |init| ==> calls[j] == init[j];
    }
  }

  lemma {:induction false} UsesServed(rs: seq<Request>, ms: seq<Meta>, key: Pubkey)
    ensures Mentioned(rs + AsUses(ms), key) <==> Mentioned(rs, key) || Listed(ms, key)
    ensures SignerAsked(rs + AsUses(ms), key) <==> SignerAsked(rs, key) || ListedSigner(ms, key)
    ensures WriteAsked(rs + AsUses(ms), key) <==> WriteAsked(rs, key) || ListedWritable(ms, key)
    decreases |ms|
  {
    if ms == [] {
      assert rs + AsUses(ms) == rs;
    } else {
      var init, m := ms[..|ms| - 1], ms[|ms| - 1];
      UsesServed(rs, init, key);
      assert rs + AsUses(ms) == rs + AsUses(init) + [Use(m)];
      MentionedNext(rs + AsUses(init), Use(m), key);
      WriteNext(rs + AsUses(init), Use(m), key);
      ListedJoin(init, [m], key);
      OneListed(m, key);
      assert ms == init + [m];
      hide Mentioned, SignerAsked, WriteAsked, Listed, ListedSigner, ListedWritable;
    }
  }

  lemma {:induction false} RequestsMean(calls: seq<Call>, key: Pubkey)
    ensures Mentioned(AllRequests(calls), key) <==> EverConcerns(calls, key)
    ensures SignerAsked(AllRequests(calls), key) <==> EverSigns(calls, key)
    ensures WriteAsked(AllRequests(calls), key) <==> StillWrites(calls, key)
    decreases |calls|
  {
    if calls != [] {
      var init, c := calls[..|calls| - 1], calls[|calls| - 1];
      RequestsMean(init, key);
      EverNext(calls, key);
      if c.Readonly? {
        MentionedNext(AllRequests(init), Clear(c.keys), key);
        WriteNext(AllRequests(init), Clear(c.keys), key);
      } else {
        UsesServed(AllRequests(init), Uses(c), key);
        UsesListed(c, key);
      }
      hide Mentioned, SignerAsked, WriteAsked, EverConcerns, EverSigns, StillWrites, Listed, ListedSigner,
           ListedWritable, Uses, AsUses;
    }
  }

  /** The account list of a batch, by its calls: an account is there, once, exactly when some call concerns
      it; it signs exactly when some call needs its signature; it is writable exactly when some call writes
      it and no later `readonly` names it. */
  lemma PrivilegesExact(calls: seq<Call>)
    ensures Distinct(Keys(Build(calls).table))
    ensures forall key :: key in Keys(Build(calls).table) <==> EverConcerns(calls, key)
    ensures forall i :: 0 <= i < |Build(calls).table| ==>
      var entry := Build(calls).table[i];
      && (entry.signer <==> EverSigns(calls, entry.key))
      && (entry.writable <==> StillWrites(calls, entry.key))
  {
    BatchPrivileges(calls);
    forall key
      ensures Mentioned(AllRequests(calls), key) <==> EverConcerns(calls, key)
      ensures SignerAsked(AllRequests(calls), key) <==> EverSigns(calls, key)
      ensures WriteAsked(AllRequests(calls), key) <==> StillWrites(calls, key)
    {
      RequestsMean(calls, key);
    }
    hide Mentioned, SignerAsked, WriteAsked, EverConcerns, EverSigns, StillWrites, AllRequests, Build;
  }

  // ---- what is written was asked for ----------------------------------------------------------------

  lemma {:induction false} EachOnly(m: Store, cells: seq<Pubkey>, edit: Edit, k: Pubkey)
    requires k in m && k !in cells
    ensures EachKey(m, cells, edit).state[k] == m[k]
    decreases |cells|
  {
    if cells != [] {
      var first := UpdateKey(m, cells[0], edit);
      assert first.state[k] == m[k];
      if first.error.None? {
        EachOnly(first.state, cells[1..], edit, k);
      }
    }
  }

  lemma {:induction false} CopyOnly(m: Store, sources: seq<Pubkey>, destinations: seq<Pubkey>, position: nat, k: Pubkey)
    requires sources != [] && position <= |destinations| && k in m && k !in destinations
    ensures CopyKeys(m, sources, destinations, position).state[k] == m[k]
    decreases |destinations| - position
  {
    hide Update, CopyEdit, Cycle;
    if position < |destinations| {
      var s, d := Cycle(sources, position), destinations[position];
      if s in m && d in m && CopyEdit(s == d, m[s]).Value? {
        var copied := UpdateKey(m, d, CopyEdit(s == d, m[s]).value);
        if copied.error.None? {
          CopyOnly(copied.state, sources, destinations, position + 1, k);
        }
      }
    }
  }

  lemma ApplyOnly(sha: Sha, m: Store, op: Operation<Pubkey>, k: Pubkey)
    requires k in m && !OpWrites(op, k)
    ensures ApplyKeys(sha, m, op).state[k] == m[k]
  {
    hide Update, HashesOf, SizesOf, Chain, Fold;
    match op {
      case Set(cells, value) => EachOnly(m, cells, SetValue(value), k);
      case Add(cells, change) => EachOnly(m, cells, AddValue(change), k);
      case Fill(cells, seed, step) => EachOnly(m, cells, FillPayload(seed, step), k);
      case Hash(cells, initial, rounds) => EachOnly(m, cells, WriteBytes(Chain(sha, initial, rounds)), k);
      case FoldHashes(cells, salt, rounds) =>
        if HashesOf(m, cells).Value? {
          EachOnly(m, cells, WriteBytes(Fold(sha, salt, HashesOf(m, cells).value, rounds)), k);
        }
      case Copy(sources, destinations) =>
        if sources != [] {
          CopyOnly(m, sources, destinations, 0, k);
        }
      case SumSizes(_, _) =>
      case Undelegate(cells, outcome) => EachOnly(m, cells, SetUndelegation(outcome), k);
      case Fail(_) =>
    }
  }

  lemma {:induction false} RunOnly(sha: Sha, m: Store, ops: seq<Operation<Pubkey>>, k: Pubkey)
    requires k in m && forall i :: 0 <= i < |ops| ==> !OpWrites(ops[i], k)
    ensures RunKeys(sha, m, ops).state[k] == m[k]
    decreases |ops|
  {
    if ops != [] {
      ApplyOnly(sha, m, ops[0], k);
      var first := ApplyKeys(sha, m, ops[0]);
      if first.error.None? {
        RunOnly(sha, first.state, ops[1..], k);
      }
    }
  }

  lemma {:induction false} AskedFrom(calls: seq<Call>, i: nat) returns (j: nat)
    requires i < |Asked(calls)|
    ensures j < |calls| && calls[j].Op? && calls[j].op == Asked(calls)[i]
  {
    var init := calls[..|calls| - 1];
    if i < |Asked(init)| {
      j := AskedFrom(init, i);
    } else {
      j := |calls| - 1;
    }
  }

  /** A batch that withdraws nothing is allowed every write it makes: whatever running it changes has a
      writable entry. */
  lemma WrittenIsWritable(sha: Sha, m: Store, calls: seq<Call>, k: Pubkey) returns (i: nat)
    requires forall j :: 0 <= j < |calls| ==> !calls[j].Readonly?
    requires k in m && RunKeys(sha, m, Asked(calls)).state[k] != m[k]
    ensures i < |Build(calls).table| && Build(calls).table[i].key == k && Build(calls).table[i].writable
  {
    hide RunKeys, Build;
    if forall a :: 0 <= a < |Asked(calls)| ==> !OpWrites(Asked(calls)[a], k) {
      RunOnly(sha, m, Asked(calls), k);
    }
    var a :| 0 <= a < |Asked(calls)| && OpWrites(Asked(calls)[a], k);
    var j := AskedFrom(calls, a);
    assert Concerns(calls[j], k) && Writes(calls[j], k) && Standing(calls, j, k);
    PrivilegesExact(calls);
    assert k in Keys(Build(calls).table);
    i :| 0 <= i < |Build(calls).table| && Keys(Build(calls).table)[i] == k;
  }
}
