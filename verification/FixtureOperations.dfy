/** What each operation of the fixture does to a cell, byte by byte: how a reader sees the account before
    and after, by index on chain and by address in the reference reading. */
module FixtureOperations {
  import opened Common
  import opened FixtureState
  import opened FixtureExecute
  import opened FixtureMeaning

  // ---- one cell -------------------------------------------------------------------------------------

  /** The operations that treat their cells one after another, each by itself. */
  predicate CellWise<I>(op: Operation<I>) { op.Set? || op.Add? || op.Fill? || op.Hash? || op.Undelegate? }

  /** The same operation on other cells. */
  function WithCells<I>(op: Operation<I>, cells: seq<I>): (r: Operation<I>)
    requires CellWise(op)
    ensures CellWise(r) && r.cells == cells
  {
    match op
    case Set(_, value) => Set(cells, value)
    case Add(_, change) => Add(cells, change)
    case Fill(_, seed, step) => Fill(cells, seed, step)
    case Hash(_, initial, rounds) => Hash(cells, initial, rounds)
    case Undelegate(_, outcome) => Undelegate(cells, outcome)
  }

  /** What keeps the operation off the cell before anything is written. */
  function Barrier<I>(op: Operation<I>, data: seq<byte>): Option<ProgramError>
    requires CellWise(op)
  {
    match TryDecode(data)
    case None => Some(InvalidAccountData)
    case Some(h) =>
      if op.Add? && !(0 <= h.value + op.change <= U64_MAX) then Some(ArithmeticOverflow)
      else if op.Hash? && |data| < SIZE + 32 then Some(AccountDataTooSmall)
      else None
  }

  /** Why the cell refuses the operation: a barrier, or no revision left. */
  function CellError<I>(op: Operation<I>, data: seq<byte>): Option<ProgramError>
    requires CellWise(op)
  {
    if Barrier(op, data).Some? then Barrier(op, data)
    else if TryDecode(data).value.revision == U64_MAX then Some(ArithmeticOverflow)
    else None
  }

  /** Byte `i` of the payload afterwards. */
  function PayloadByte<I>(sha: Sha, op: Operation<I>, payload: seq<byte>, i: nat): byte
    requires CellWise(op) && i < |payload|
  {
    match op
    case Fill(_, seed, step) => LeBytes((seed + i / 8 * step) % (U64_MAX + 1), 8)[i % 8]
    case Hash(_, initial, rounds) => if i < 32 then Chain(sha, initial, rounds)[i] else payload[i]
    case _ => payload[i]
  }

  ghost predicate Rewritten<I>(sha: Sha, op: Operation<I>, before: seq<byte>, after: seq<byte>)
    requires CellWise(op) && SIZE <= |before|
  {
    && |after| == |before|
    && forall i: nat :: i < |Payload(before)| ==> Payload(after)[i] == PayloadByte(sha, op, Payload(before), i)
  }

  /** The cell as a reader finds it after an accepted operation. */
  ghost predicate Became<I>(sha: Sha, op: Operation<I>, before: seq<byte>, after: seq<byte>)
    requires CellWise(op)
  {
    && TryDecode(before).Some? && Rewritten(sha, op, before, after)
    && var h := TryDecode(before).value;
       var value := match op case Set(_, v) => v case Add(_, change) => h.value + change case _ => h.value;
    && h.revision < U64_MAX && 0 <= value <= U64_MAX
    && TryDecode(after)
       == Some(CellHeader(h.id, value, h.revision + 1, if op.Undelegate? then op.outcome else h.undelegation))
  }

  /** The cell after the operation met it, with the error it gave. A cell out of revisions keeps its header
      and has its payload rewritten all the same. */
  ghost predicate CellStep<I>(sha: Sha, op: Operation<I>, before: seq<byte>, after: seq<byte>,
                              error: Option<ProgramError>)
    requires CellWise(op)
  {
    && error == CellError(op, before)
    && if error.None? then Became(sha, op, before, after)
       else if Barrier(op, before).Some? then after == before
       else Rewritten(sha, op, before, after) && after[..SIZE] == before[..SIZE]
  }

  function EditOf<I>(sha: Sha, op: Operation<I>): Edit
    requires CellWise(op)
  {
    match op
    case Set(_, value) => SetValue(value)
    case Add(_, change) => AddValue(change)
    case Fill(_, seed, step) => FillPayload(seed, step)
    case Hash(_, initial, rounds) => WriteBytes(Chain(sha, initial, rounds))
    case Undelegate(_, outcome) => SetUndelegation(outcome)
  }

  lemma SameEdit<I>(sha: Sha, op: Operation<I>, cells: seq<I>)
    requires CellWise(op)
    ensures EditOf(sha, WithCells(op, cells)) == EditOf(sha, op)
  {
  }

  lemma BarrierHolds<I>(sha: Sha, op: Operation<I>, data: seq<byte>)
    requires CellWise(op)
    ensures Barrier(op, data).Some? ==> Update(data, EditOf(sha, op)) == Edited(data, Barrier(op, data))
    ensures Barrier(op, data).None? ==> EditError(TryDecode(data).value, Payload(data), EditOf(sha, op)).None?
  {
  }

  lemma UpdateSteps<I>(sha: Sha, op: Operation<I>, data: seq<byte>)
    requires CellWise(op)
    ensures var r := Update(data, EditOf(sha, op)); CellStep(sha, op, data, r.data, r.error)
  {
    BarrierHolds(sha, op, data);
    if Barrier(op, data).None? {
      OpenCell(sha, op, data);
    }
  }

  lemma OpenCell<I>(sha: Sha, op: Operation<I>, data: seq<byte>)
    requires CellWise(op) && Barrier(op, data).None?
    requires EditError(TryDecode(data).value, Payload(data), EditOf(sha, op)).None?
    ensures var r := Update(data, EditOf(sha, op)); CellStep(sha, op, data, r.data, r.error)
  {
    var edit := EditOf(sha, op);
    PayloadRewritten(sha, op, Payload(data));
    if TryDecode(data).value.revision < U64_MAX {
      UpdateDecodes(data, edit);
      AcceptedCell(sha, op, data);
    } else {
      hide TryDecode, EditPayload, PayloadByte, Chain, EditOf;
      var after := Update(data, edit).data;
      assert after == data[..SIZE] + EditPayload(Payload(data), edit);
      assert Payload(after) == EditPayload(Payload(data), edit);
    }
  }

  lemma AcceptedCell<I>(sha: Sha, op: Operation<I>, data: seq<byte>)
    requires CellWise(op) && CellError(op, data).None?
    requires var r := Update(data, EditOf(sha, op)); r.error.None?
    requires var h := TryDecode(data).value;
             && TryDecode(Update(data, EditOf(sha, op)).data)
                == Some(EditHeader(h, EditOf(sha, op)).(revision := h.revision + 1))
             && Payload(Update(data, EditOf(sha, op)).data) == EditPayload(Payload(data), EditOf(sha, op))
    requires forall i: nat :: i < |Payload(data)| ==>
      EditPayload(Payload(data), EditOf(sha, op))[i] == PayloadByte(sha, op, Payload(data), i)
    ensures Became(sha, op, data, Update(data, EditOf(sha, op)).data)
  {
    hide TryDecode, EditPayload, PayloadByte, Chain, Update;
  }

  lemma PayloadRewritten<I>(sha: Sha, op: Operation<I>, payload: seq<byte>)
    requires CellWise(op) && (op.Hash? ==> 32 <= |payload|)
    ensures forall i: nat :: i < |payload| ==>
      EditPayload(payload, EditOf(sha, op))[i] == PayloadByte(sha, op, payload, i)
  {
  }

  // ---- cell by cell ---------------------------------------------------------------------------------

  /** The store after one more cell: nothing happens after an error, a missing account is one, and any
      other account is left as it was. */
  ghost predicate ExtendedKeys(sha: Sha, op: Operation<Pubkey>, before: Ran<Store>, k: Pubkey, after: Ran<Store>)
    requires CellWise(op)
  {
    if before.error.Some? then after == before
    else if k !in before.state then after == Ran(before.state, Some(NotEnoughAccountKeys))
    else
      && after.state.Keys == before.state.Keys
      && (forall other :: other in before.state && other != k ==> after.state[other] == before.state[other])
      && CellStep(sha, op, before.state[k], after.state[k], after.error)
  }

  ghost predicate ExtendedAt(sha: Sha, op: Operation<nat>, before: Ran<seq<AccountInfo>>, i: nat,
                             after: Ran<seq<AccountInfo>>)
    requires CellWise(op)
  {
    if before.error.Some? then after == before
    else if i >= |before.state| then after == Ran(before.state, Some(NotEnoughAccountKeys))
    else
      && |after.state| == |before.state|
      && (forall j :: 0 <= j < |before.state| && j != i ==> after.state[j] == before.state[j])
      && after.state[i].key == before.state[i].key
      && CellStep(sha, op, before.state[i].data, after.state[i].data, after.error)
  }

  lemma {:induction false} EachKeyLast(m: Store, cells: seq<Pubkey>, edit: Edit)
    requires cells != []
    ensures var init := EachKey(m, cells[..|cells| - 1], edit);
            EachKey(m, cells, edit)
            == if init.error.Some? then init else UpdateKey(init.state, cells[|cells| - 1], edit)
    decreases |cells|
  {
    hide Update, UpdateKey;
    if |cells| == 1 {
      assert cells[1..] == [] && cells[..0] == [];
    } else {
      var first := UpdateKey(m, cells[0], edit);
      if first.error.None? {
        EachKeyLast(first.state, cells[1..], edit);
        assert cells[1..][..|cells| - 2] == cells[..|cells| - 1][1..];
      }
    }
  }

  lemma {:induction false} EachAtLast(accounts: seq<AccountInfo>, cells: seq<nat>, edit: Edit)
    requires cells != []
    ensures var init := EachAt(accounts, cells[..|cells| - 1], edit);
            EachAt(accounts, cells, edit)
            == if init.error.Some? then init else UpdateAt(init.state, cells[|cells| - 1], edit)
    decreases |cells|
  {
    hide Update, UpdateAt;
    if |cells| == 1 {
      assert cells[1..] == [] && cells[..0] == [];
    } else {
      var first := UpdateAt(accounts, cells[0], edit);
      if first.error.None? {
        EachAtLast(first.state, cells[1..], edit);
        assert cells[1..][..|cells| - 2] == cells[..|cells| - 1][1..];
      }
    }
  }

  /** Set, add, fill, hash and undelegate by address: no cells, nothing done; and each further cell takes
      the operation from where the cells before it left the store. */
  lemma CellByCell(sha: Sha, m: Store, op: Operation<Pubkey>)
    requires CellWise(op)
    ensures op.cells == [] ==> ApplyKeys(sha, m, op) == Ran(m, None)
    ensures op.cells != [] ==>
      var last := |op.cells| - 1;
      ExtendedKeys(sha, op, ApplyKeys(sha, m, WithCells(op, op.cells[..last])), op.cells[last], ApplyKeys(sha, m, op))
  {
    hide ApplyKeys, UpdateKey, EditOf, ExtendedKeys;
    AsEachKey(sha, m, op);
    if op.cells != [] {
      var last := |op.cells| - 1;
      AsEachKey(sha, m, WithCells(op, op.cells[..last]));
      SameEdit(sha, op, op.cells[..last]);
      EachKeyLast(m, op.cells, EditOf(sha, op));
      KeySteps(sha, op, EachKey(m, op.cells[..last], EditOf(sha, op)), op.cells[last]);
    }
  }

  lemma KeySteps(sha: Sha, op: Operation<Pubkey>, before: Ran<Store>, k: Pubkey)
    requires CellWise(op)
    ensures ExtendedKeys(sha, op, before, k,
                         if before.error.Some? then before else UpdateKey(before.state, k, EditOf(sha, op)))
  {
    hide CellStep, Update, EditOf;
    if k in before.state {
      UpdateSteps(sha, op, before.state[k]);
    }
  }

  lemma AsEachKey(sha: Sha, m: Store, op: Operation<Pubkey>)
    requires CellWise(op)
    ensures ApplyKeys(sha, m, op) == EachKey(m, op.cells, EditOf(sha, op))
  {
  }

  /** The same on chain, by index. */
  lemma IndexByIndex(sha: Sha, accounts: seq<AccountInfo>, op: Operation<nat>)
    requires CellWise(op)
    ensures op.cells == [] ==> ApplyAt(sha, accounts, op) == Ran(accounts, None)
    ensures op.cells != [] ==>
      var last := |op.cells| - 1;
      ExtendedAt(sha, op, ApplyAt(sha, accounts, WithCells(op, op.cells[..last])), op.cells[last],
                 ApplyAt(sha, accounts, op))
  {
    hide ApplyAt, UpdateAt, EditOf, ExtendedAt;
    AsEachAt(sha, accounts, op);
    if op.cells != [] {
      var last := |op.cells| - 1;
      AsEachAt(sha, accounts, WithCells(op, op.cells[..last]));
      SameEdit(sha, op, op.cells[..last]);
      EachAtLast(accounts, op.cells, EditOf(sha, op));
      IndexSteps(sha, op, EachAt(accounts, op.cells[..last], EditOf(sha, op)), op.cells[last]);
    }
  }

  lemma IndexSteps(sha: Sha, op: Operation<nat>, before: Ran<seq<AccountInfo>>, i: nat)
    requires CellWise(op)
    ensures ExtendedAt(sha, op, before, i,
                       if before.error.Some? then before else UpdateAt(before.state, i, EditOf(sha, op)))
  {
    hide CellStep, Update, EditOf;
    if i < |before.state| {
      UpdateSteps(sha, op, before.state[i].data);
    }
  }

  lemma AsEachAt(sha: Sha, accounts: seq<AccountInfo>, op: Operation<nat>)
    requires CellWise(op)
    ensures ApplyAt(sha, accounts, op) == EachAt(accounts, op.cells, EditOf(sha, op))
  {
  }

  /** How often a cell is named. */
  function Times(cells: seq<Pubkey>, k: Pubkey): nat {
    if cells == [] then 0 else Times(cells[..|cells| - 1], k) + (if cells[|cells| - 1] == k then 1 else 0)
  }

  /** Adding to a list of cells adds once for every time a cell is named. */
  lemma {:induction false} AddTotals(sha: Sha, m: Store, cells: seq<Pubkey>, change: int, k: Pubkey)
    requires ApplyKeys(sha, m, Add(cells, change)).error.None? && k in m
    ensures Raised(m[k], ApplyKeys(sha, m, Add(cells, change)).state[k], Times(cells, k), change)
    decreases |cells|
  {
    CellByCell(sha, m, Add(cells, change));
    if cells != [] {
      hide ApplyKeys, ExtendedKeys, Raised;
      var init := cells[..|cells| - 1];
      assert WithCells(Add(cells, change), init) == Add(init, change);
      var before, after := ApplyKeys(sha, m, Add(init, change)), ApplyKeys(sha, m, Add(cells, change));
      AddOnce(sha, before, cells, change, k, after);
      AddTotals(sha, m, init, change, k);
      RaisedMore(m[k], before.state[k], after.state[k], Times(init, k), cells[|cells| - 1] == k, change);
    }
  }

  /** The cell's value was changed `n` times, with a revision each, and its payload not at all. */
  ghost predicate Raised(before: seq<byte>, after: seq<byte>, n: nat, change: int) {
    if n == 0 then after == before else
    && TryDecode(before).Some? && TryDecode(after).Some? && Payload(after) == Payload(before)
    && TryDecode(after).value.value == TryDecode(before).value.value + n * change
    && TryDecode(after).value.revision == TryDecode(before).value.revision + n
  }

  lemma RaisedMore(a: seq<byte>, b: seq<byte>, c: seq<byte>, n: nat, again: bool, change: int)
    requires Raised(a, b, n, change) && Raised(b, c, if again then 1 else 0, change)
    ensures Raised(a, c, n + (if again then 1 else 0), change)
  {
    hide TryDecode;
    assert (n + 1) * change == n * change + change;
  }

  /** The last of the cells, as it bears on `k`. */
  lemma AddOnce(sha: Sha, before: Ran<Store>, cells: seq<Pubkey>, change: int, k: Pubkey, after: Ran<Store>)
    requires cells != [] && ExtendedKeys(sha, Add(cells, change), before, cells[|cells| - 1], after)
    requires after.error.None? && k in before.state
    ensures before.error.None? && k in after.state
    ensures Raised(before.state[k], after.state[k], if cells[|cells| - 1] == k then 1 else 0, change)
  {
    if cells[|cells| - 1] == k {
      assert Payload(after.state[k]) == Payload(before.state[k]);
    }
  }

  // ---- hashes ---------------------------------------------------------------------------------------

  /** A chain is the last of the digests got by hashing each with its round number. */
  lemma {:induction false} ChainSteps(sha: Sha, initial: Digest, rounds: nat) returns (digests: seq<Digest>)
    ensures |digests| == rounds + 1 && digests[0] == initial && digests[rounds] == Chain(sha, initial, rounds)
    ensures forall r: nat :: r < rounds ==> digests[r + 1] == sha(digests[r] + LeBytes(r, 4))
  {
    digests := [initial];
    if rounds > 0 {
      digests := ChainSteps(sha, initial, rounds - 1);
      digests := digests + [Chain(sha, initial, rounds)];
    }
  }

  /** Digest `i` fills bytes `32 * i` on. */
  lemma {:induction false} ConcatAt(hashes: seq<Digest>, i: nat)
    ensures |Concat(hashes)| == 32 * |hashes|
    ensures i < |hashes| ==> Concat(hashes)[32 * i..32 * i + 32] == hashes[i]
  {
    if hashes != [] {
      ConcatAt(hashes[..|hashes| - 1], i);
      if i < |hashes| - 1 {
        assert Concat(hashes)[32 * i..32 * i + 32] == Concat(hashes[..|hashes| - 1])[32 * i..32 * i + 32];
      }
    }
  }

  ghost predicate Hashable(m: Store, k: Pubkey) { k in m && SIZE + 32 <= |m[k]| }

  /** The hashes at the head of the payloads. */
  function Heads(m: Store, cells: seq<Pubkey>): (r: seq<Digest>)
    requires forall i :: 0 <= i < |cells| ==> cells[i] in m && SIZE + 32 <= |m[cells[i]]|
    ensures |r| == |cells| && forall i :: 0 <= i < |cells| ==> r[i] == m[cells[i]][SIZE..SIZE + 32]
  {
    if cells == [] then [] else [m[cells[0]][SIZE..SIZE + 32]] + Heads(m, cells[1..])
  }

  lemma {:induction false} HashesGood(m: Store, cells: seq<Pubkey>)
    requires forall i :: 0 <= i < |cells| ==> cells[i] in m && SIZE + 32 <= |m[cells[i]]|
    ensures HashesOf(m, cells) == Value(Heads(m, cells))
  {
    if cells != [] {
      HashesGood(m, cells[1..]);
    }
  }

  lemma {:induction false} HashesBad(m: Store, cells: seq<Pubkey>, i: nat)
    requires i < |cells| && !Hashable(m, cells[i]) && forall j :: 0 <= j < i ==> Hashable(m, cells[j])
    ensures HashesOf(m, cells) == Bad(if cells[i] !in m then NotEnoughAccountKeys else AccountDataTooSmall)
  {
    if i > 0 {
      assert Hashable(m, cells[0]);
      forall j | 0 <= j < i - 1 ensures Hashable(m, cells[1..][j]) {
        assert Hashable(m, cells[j + 1]);
      }
      HashesBad(m, cells[1..], i - 1);
    }
  }

  /** A fold writes what a hash of the salt and the cells' hashes, in order, writes; ... */
  lemma FoldMeans(sha: Sha, m: Store, cells: seq<Pubkey>, salt: u64, rounds: u32)
    requires forall i :: 0 <= i < |cells| ==> cells[i] in m && SIZE + 32 <= |m[cells[i]]|
    ensures ApplyKeys(sha, m, FoldHashes(cells, salt, rounds))
         == ApplyKeys(sha, m, Hash(cells, sha(LeBytes(salt, 8) + Concat(Heads(m, cells))), rounds))
  {
    HashesGood(m, cells);
  }

  /** ... and the first cell that is missing or too short for a hash stops it before anything is written. */
  lemma FoldRefused(sha: Sha, m: Store, cells: seq<Pubkey>, salt: u64, rounds: u32, i: nat)
    requires i < |cells| && !Hashable(m, cells[i]) && forall j :: 0 <= j < i ==> Hashable(m, cells[j])
    ensures ApplyKeys(sha, m, FoldHashes(cells, salt, rounds))
         == Ran(m, Some(if cells[i] !in m then NotEnoughAccountKeys else AccountDataTooSmall))
  {
    HashesBad(m, cells, i);
  }

  // ---- copying --------------------------------------------------------------------------------------

  /** One copy: as much of the source's payload as fits, the rest kept, one more revision; onto itself
      only the revision moves. A source too short to be a cell is refused first. */
  ghost predicate Copied(source: seq<byte>, same: bool, before: seq<byte>, after: seq<byte>,
                         error: Option<ProgramError>)
  {
    if !same && |source| < SIZE then error == Some(AccountDataTooSmall) && after == before
    else if TryDecode(before).None? then error == Some(InvalidAccountData) && after == before
    else
      var h := TryDecode(before).value;
      && |after| == |before|
      && (forall i :: 0 <= i < |Payload(before)| ==>
            Payload(after)[i] == if !same && i < |Payload(source)| then Payload(source)[i] else Payload(before)[i])
      && if h.revision == U64_MAX then error == Some(ArithmeticOverflow) && after[..SIZE] == before[..SIZE]
         else error.None? && TryDecode(after) == Some(h.(revision := h.revision + 1))
  }

  lemma CopySteps(source: seq<byte>, same: bool, data: seq<byte>)
    ensures match CopyEdit(same, source)
      case Bad(e) => Copied(source, same, data, data, Some(e))
      case Value(edit) => Copied(source, same, data, Update(data, edit).data, Update(data, edit).error)
  {
    var edit := CopyEdit(same, source);
    if edit.Value? && TryDecode(data).Some? {
      if Update(data, edit.value).error.None? {
        UpdateDecodes(data, edit.value);
      } else {
        var after := Update(data, edit.value).data;
        assert Payload(after) == EditPayload(Payload(data), edit.value);
      }
      hide TryDecode, Update, Encode;
    }
  }

  ghost predicate CopiedKeys(before: Ran<Store>, source: Pubkey, destination: Pubkey, after: Ran<Store>) {
    if before.error.Some? then after == before
    else if source !in before.state || destination !in before.state
    then after == Ran(before.state, Some(NotEnoughAccountKeys))
    else
      && after.state.Keys == before.state.Keys
      && (forall k :: k in before.state && k != destination ==> after.state[k] == before.state[k])
      && Copied(before.state[source], source == destination, before.state[destination], after.state[destination],
                after.error)
  }

  function CopyOne(m: Store, s: Pubkey, d: Pubkey): Ran<Store> {
    if s !in m || d !in m then Ran(m, Some(NotEnoughAccountKeys)) else
    match CopyEdit(s == d, m[s])
    case Bad(e) => Ran(m, Some(e))
    case Value(edit) => UpdateKey(m, d, edit)
  }

  lemma {:induction false} CopyLast(m: Store, sources: seq<Pubkey>, destinations: seq<Pubkey>, position: nat)
    requires sources != [] && position < |destinations|
    ensures var last := |destinations| - 1;
            var init := CopyKeys(m, sources, destinations[..last], position);
            CopyKeys(m, sources, destinations, position)
            == if init.error.Some? then init else CopyOne(init.state, Cycle(sources, last), destinations[last])
    decreases |destinations| - position
  {
    hide Update, CopyEdit, Cycle, UpdateKey;
    var last := |destinations| - 1;
    var one := CopyOne(m, Cycle(sources, position), destinations[position]);
    CopyFirst(m, sources, destinations, position);
    if position < last {
      CopyFirst(m, sources, destinations[..last], position);
      if one.error.None? {
        CopyLast(one.state, sources, destinations, position + 1);
      }
    }
  }

  lemma CopyFirst(m: Store, sources: seq<Pubkey>, destinations: seq<Pubkey>, position: nat)
    requires sources != [] && position < |destinations|
    ensures var one := CopyOne(m, Cycle(sources, position), destinations[position]);
            CopyKeys(m, sources, destinations, position)
            == if one.error.Some? then one else CopyKeys(one.state, sources, destinations, position + 1)
  {
  }

  /** Destinations in turn, each from the source its position falls on, from where the ones before it left
      the store. */
  lemma CopyByCopy(sha: Sha, m: Store, sources: seq<Pubkey>, destinations: seq<Pubkey>)
    ensures sources == [] ==> ApplyKeys(sha, m, Copy(sources, destinations)) == Ran(m, Some(NotEnoughAccountKeys))
    ensures sources != [] && destinations == [] ==> ApplyKeys(sha, m, Copy(sources, destinations)) == Ran(m, None)
    ensures sources != [] && destinations != [] ==>
      var last := |destinations| - 1;
      CopiedKeys(ApplyKeys(sha, m, Copy(sources, destinations[..last])), sources[last % |sources|], destinations[last],
                 ApplyKeys(sha, m, Copy(sources, destinations)))
  {
    if sources != [] && destinations != [] {
      var last := |destinations| - 1;
      CopyLast(m, sources, destinations, 0);
      CopyOneSteps(CopyKeys(m, sources, destinations[..last], 0), Cycle(sources, last), destinations[last]);
      hide CopyKeys, CopiedKeys, CopyOne;
    }
  }

  lemma CopyOneSteps(before: Ran<Store>, s: Pubkey, d: Pubkey)
    ensures CopiedKeys(before, s, d, if before.error.Some? then before else CopyOne(before.state, s, d))
  {
    if s in before.state && d in before.state {
      CopySteps(before.state[s], s == d, before.state[d]);
    }
    hide Copied, Update, CopyEdit;
  }

  // ---- sums -----------------------------------------------------------------------------------------

  function Lengths(m: Store, inputs: seq<Pubkey>): (r: seq<nat>)
    requires forall i :: 0 <= i < |inputs| ==> inputs[i] in m
    ensures |r| == |inputs| && forall i :: 0 <= i < |inputs| ==> r[i] == |m[inputs[i]]|
  {
    seq(|inputs|, i requires 0 <= i < |inputs| => |m[inputs[i]]|)
  }

  lemma {:induction false} SizesAdd(m: Store, inputs: seq<Pubkey>)
    requires forall i :: 0 <= i < |inputs| ==> inputs[i] in m
    ensures SizesOf(m, inputs) == Value(Sum(Lengths(m, inputs)))
  {
    if inputs != [] {
      SizesAdd(m, inputs[1..]);
      SumFirst(Lengths(m, inputs));
      assert Lengths(m, inputs)[1..] == Lengths(m, inputs[1..]);
    }
  }

  lemma {:induction false} SumFirst(xs: seq<nat>)
    requires xs != []
    ensures Sum(xs) == xs[0] + Sum(xs[1..])
  {
    if |xs| > 1 {
      SumFirst(xs[..|xs| - 1]);
      assert xs[1..][..|xs| - 2] == xs[..|xs| - 1][1..];
    } else {
      assert xs[..0] == [] && xs[1..] == [];
    }
  }

  lemma {:induction false} SizesMissing(m: Store, inputs: seq<Pubkey>)
    requires exists i :: 0 <= i < |inputs| && inputs[i] !in m
    ensures SizesOf(m, inputs) == Bad(NotEnoughAccountKeys)
  {
    if inputs[0] in m {
      var i :| 0 <= i < |inputs| && inputs[i] !in m;
      assert inputs[1..][i - 1] !in m;
      SizesMissing(m, inputs[1..]);
    }
  }

  /** The output's first eight payload bytes read back as the sum of the inputs' lengths; the rest of its
      payload is kept. Every refusal leaves the store alone, except that an output out of revisions has the
      sum written all the same. */
  lemma SumMeans(sha: Sha, m: Store, output: Pubkey, inputs: seq<Pubkey>)
    ensures var r := ApplyKeys(sha, m, SumSizes(output, inputs));
            if (exists i :: 0 <= i < |inputs| && inputs[i] !in m) || output !in m
            then r == Ran(m, Some(NotEnoughAccountKeys))
            else
              && r.state == m[output := r.state[output]]
              && Summed(Sum(Lengths(m, inputs)), m[output], r.state[output], r.error)
  {
    if i :| 0 <= i < |inputs| && inputs[i] !in m {
      SizesMissing(m, inputs);
    } else {
      SizesAdd(m, inputs);
      if output in m {
        SumSteps(Sum(Lengths(m, inputs)), m[output]);
      }
      hide Summed, Update, SizesOf, Lengths, Sum;
    }
  }

  ghost predicate Summed(total: nat, before: seq<byte>, after: seq<byte>, error: Option<ProgramError>) {
    if TryDecode(before).None? then error == Some(InvalidAccountData) && after == before
    else if |before| < SIZE + 8 then error == Some(AccountDataTooSmall) && after == before
    else
      var h := TryDecode(before).value;
      && |after| == |before| && Payload(after)[8..] == Payload(before)[8..]
      && (total <= U64_MAX ==> FromLe(Payload(after)[..8]) == total)
      && if h.revision == U64_MAX then error == Some(ArithmeticOverflow) && after[..SIZE] == before[..SIZE]
         else error.None? && TryDecode(after) == Some(h.(revision := h.revision + 1))
  }

  lemma SumSteps(total: nat, data: seq<byte>)
    ensures var r := Update(data, WriteBytes(LeBytes(total, 8))); Summed(total, data, r.data, r.error)
  {
    var edit := WriteBytes(LeBytes(total, 8));
    if TryDecode(data).Some? && SIZE + 8 <= |data| {
      var written := EditPayload(Payload(data), edit);
      Words();
      if total <= U64_MAX {
        LeRoundTrip(total, 8);
      }
      assert written[..8] == LeBytes(total, 8) && written[8..] == Payload(data)[8..];
      hide LeBytes, FromLe, TryDecode, Encode, EditPayload;
      var r := Update(data, edit);
      if r.error.None? {
        UpdateDecodes(data, edit);
      } else {
        assert Payload(r.data) == written;
      }
    }
  }
}
