/**
 The on-chain interpreter: indexed operations over the account list of one invocation. The same
 operations over account addresses, on a map from address to data, are the reference semantics.
 */
module FixtureExecute {
  import opened Common
  import opened FixtureState

  datatype ProgramError =
    | NotEnoughAccountKeys
    | InvalidAccountData
    | AccountDataTooSmall
    | ArithmeticOverflow
    | Custom(code: u32)

  /** An operation over cells named by `I`: list indices on chain, addresses in the reference. */
  datatype Operation<I> =
    | Set(cells: seq<I>, value: u64)
    | Add(cells: seq<I>, change: int)
    | Fill(cells: seq<I>, seed: u64, step: u64)
    | Hash(cells: seq<I>, initial: Digest, rounds: u32)
    | FoldHashes(cells: seq<I>, salt: u64, rounds: u32)
    | Copy(sources: seq<I>, destinations: seq<I>)
    | SumSizes(output: I, inputs: seq<I>)
    | Undelegate(cells: seq<I>, outcome: Undelegation)
    | Fail(code: u32)

  // ---- one cell -------------------------------------------------------------------------------

  /** The closures the operations hand to `update`. */
  datatype Edit =
    | SetValue(value: u64)
    | AddValue(change: int)
    | FillPayload(seed: u64, step: u64)
    | WriteBytes(bytes: seq<byte>)
    | CopyFrom(source: seq<byte>)
    | SetUndelegation(outcome: Undelegation)
    | Touch

  datatype Edited = Edited(data: seq<byte>, error: Option<ProgramError>)

  function EditHeader(h: CellHeader, edit: Edit): CellHeader {
    match edit
    case SetValue(v) => h.(value := v)
    case AddValue(c) => if 0 <= h.value + c <= U64_MAX then h.(value := h.value + c) else h
    case SetUndelegation(o) => h.(undelegation := o)
    case _ => h
  }

  function EditPayload(payload: seq<byte>, edit: Edit): (r: seq<byte>)
    ensures |r| == |payload|
  {
    match edit
    case FillPayload(seed, step) => Filled(|payload|, seed, step)
    case WriteBytes(bytes) => if |bytes| <= |payload| then bytes + payload[|bytes|..] else payload
    case CopyFrom(source) =>
      if |source| <= |payload| then source + payload[|source|..] else source[..|payload|]
    case _ => payload
  }

  function EditError(h: CellHeader, payload: seq<byte>, edit: Edit): Option<ProgramError> {
    match edit
    case AddValue(c) => if 0 <= h.value + c <= U64_MAX then None else Some(ArithmeticOverflow)
    case WriteBytes(bytes) => if |bytes| <= |payload| then None else Some(AccountDataTooSmall)
    case _ => None
  }

  /** `update`: the payload is edited in place, so it keeps the edit when the revision overflows. */
  function Update(data: seq<byte>, edit: Edit): (r: Edited)
    ensures |r.data| == |data|
  {
    match TryDecode(data)
    case None => Edited(data, Some(InvalidAccountData))
    case Some(h) =>
      var payload := Payload(data);
      if EditError(h, payload, edit).Some? then Edited(data, EditError(h, payload, edit))
      else if h.revision == U64_MAX then Edited(data[..SIZE] + EditPayload(payload, edit), Some(ArithmeticOverflow))
      else
        var edited := EditHeader(h, edit);
        Edited(Encode(edited.(revision := h.revision + 1)) + EditPayload(payload, edit), None)
  }

  /** What an accepted update means for a reader: the edit, and one more revision. */
  lemma UpdateDecodes(data: seq<byte>, edit: Edit)
    requires Update(data, edit).error == None
    ensures TryDecode(data).Some?
    ensures var h := TryDecode(data).value;
            && TryDecode(Update(data, edit).data) == Some(EditHeader(h, edit).(revision := h.revision + 1))
            && Payload(Update(data, edit).data) == EditPayload(Payload(data), edit)
  {
    var h := TryDecode(data).value;
    DecodeEncode(EditHeader(h, edit).(revision := h.revision + 1), EditPayload(Payload(data), edit));
  }

  // ---- indexed execution ------------------------------------------------------------------------

  datatype AccountInfo = AccountInfo(key: Pubkey, data: seq<byte>)

  datatype Ran<+S> = Ran(state: S, error: Option<ProgramError>)

  function UpdateAt(accounts: seq<AccountInfo>, i: nat, edit: Edit): (r: Ran<seq<AccountInfo>>)
    ensures |r.state| == |accounts|
  {
    if i >= |accounts| then Ran(accounts, Some(NotEnoughAccountKeys)) else
    var edited := Update(accounts[i].data, edit);
    Ran(accounts[i := accounts[i].(data := edited.data)], edited.error)
  }

  function EachAt(accounts: seq<AccountInfo>, cells: seq<nat>, edit: Edit): (r: Ran<seq<AccountInfo>>)
    ensures |r.state| == |accounts|
    decreases |cells|
  {
    if cells == [] then Ran(accounts, None) else
    var first := UpdateAt(accounts, cells[0], edit);
    if first.error.Some? then first else EachAt(first.state, cells[1..], edit)
  }

  datatype Read<+T> = Value(value: T) | Bad(error: ProgramError)

  /** The first 32 payload bytes, which `FoldHashes` takes without decoding the header. */
  function ReadHash(data: seq<byte>): Read<Digest> {
    if |data| < SIZE + 32 then Bad(AccountDataTooSmall) else Value(data[SIZE..SIZE + 32])
  }

  function HashesAt(accounts: seq<AccountInfo>, cells: seq<nat>): Read<seq<Digest>> {
    if cells == [] then Value([]) else
    if cells[0] >= |accounts| then Bad(NotEnoughAccountKeys) else
    match ReadHash(accounts[cells[0]].data)
    case Bad(e) => Bad(e)
    case Value(hash) =>
      match HashesAt(accounts, cells[1..])
      case Bad(e) => Bad(e)
      case Value(rest) => Value([hash] + rest)
  }

  function CopyEdit(same: bool, source: seq<byte>): Read<Edit> {
    if same then Value(Touch)
    else if |source| < SIZE then Bad(AccountDataTooSmall)
    else Value(CopyFrom(Payload(source)))
  }

  /** Sources are reused in turn when there are more destinations. */
  function Cycle<T>(sources: seq<T>, position: nat): T
    requires sources != []
  {
    sources[position % |sources|]
  }

  function CopyAt(accounts: seq<AccountInfo>, sources: seq<nat>, destinations: seq<nat>, position: nat)
    : (r: Ran<seq<AccountInfo>>)
    requires sources != [] && position <= |destinations|
    ensures |r.state| == |accounts|
    decreases |destinations| - position
  {
    if position == |destinations| then Ran(accounts, None) else
    var s, d := Cycle(sources, position), destinations[position];
    if s >= |accounts| || d >= |accounts| then Ran(accounts, Some(NotEnoughAccountKeys)) else
    match CopyEdit(accounts[s].key == accounts[d].key, accounts[s].data)
    case Bad(e) => Ran(accounts, Some(e))
    case Value(edit) =>
      var copied := UpdateAt(accounts, d, edit);
      if copied.error.Some? then copied else CopyAt(copied.state, sources, destinations, position + 1)
  }

  function SizesAt(accounts: seq<AccountInfo>, inputs: seq<nat>): Read<nat> {
    if inputs == [] then Value(0) else
    if inputs[0] >= |accounts| then Bad(NotEnoughAccountKeys) else
    match SizesAt(accounts, inputs[1..])
    case Bad(e) => Bad(e)
    case Value(rest) => Value(|accounts[inputs[0]].data| + rest)
  }

  function ApplyAt(sha: Sha, accounts: seq<AccountInfo>, op: Operation<nat>): (r: Ran<seq<AccountInfo>>)
    ensures |r.state| == |accounts|
  {
    match op
    case Set(cells, value) => EachAt(accounts, cells, SetValue(value))
    case Add(cells, change) => EachAt(accounts, cells, AddValue(change))
    case Fill(cells, seed, step) => EachAt(accounts, cells, FillPayload(seed, step))
    case Hash(cells, initial, rounds) => EachAt(accounts, cells, WriteBytes(Chain(sha, initial, rounds)))
    case FoldHashes(cells, salt, rounds) =>
      (match HashesAt(accounts, cells)
       case Bad(e) => Ran(accounts, Some(e))
       case Value(hashes) => EachAt(accounts, cells, WriteBytes(Fold(sha, salt, hashes, rounds))))
    case Copy(sources, destinations) =>
      if sources == [] then Ran(accounts, Some(NotEnoughAccountKeys)) else CopyAt(accounts, sources, destinations, 0)
    case SumSizes(output, inputs) =>
      (match SizesAt(accounts, inputs)
       case Bad(e) => Ran(accounts, Some(e))
       case Value(total) => UpdateAt(accounts, output, WriteBytes(LeBytes(total, 8))))
    case Undelegate(cells, outcome) => EachAt(accounts, cells, SetUndelegation(outcome))
    case Fail(code) => Ran(accounts, Some(Custom(code)))
  }

  function RunAt(sha: Sha, accounts: seq<AccountInfo>, ops: seq<Operation<nat>>): (r: Ran<seq<AccountInfo>>)
    ensures |r.state| == |accounts|
    decreases |ops|
  {
    if ops == [] then Ran(accounts, None) else
    var first := ApplyAt(sha, accounts, ops[0]);
    if first.error.Some? then first else RunAt(sha, first.state, ops[1..])
  }

  /** The interpreter as it runs: loops over operations and cells, writing account data in place. */
  class Executor {
    const sha: Sha
    var accounts: seq<AccountInfo>

    constructor (sha: Sha, accounts: seq<AccountInfo>)
      ensures this.sha == sha && this.accounts == accounts
    {
      this.sha, this.accounts := sha, accounts;
    }

    /** `update` on the account at an index. */
    method UpdateOne(i: nat, edit: Edit) returns (error: Option<ProgramError>)
      modifies this
      ensures Ran(accounts, error) == UpdateAt(old(accounts), i, edit)
    {
      if i >= |accounts| {
        return Some(NotEnoughAccountKeys);
      }
      var edited := Update(accounts[i].data, edit);
      accounts := accounts[i := accounts[i].(data := edited.data)];
      error := edited.error;
    }

    /** `each`. */
    method Each(cells: seq<nat>, edit: Edit) returns (error: Option<ProgramError>)
      modifies this
      ensures Ran(accounts, error) == EachAt(old(accounts), cells, edit)
    {
      for k := 0 to |cells|
        invariant EachAt(old(accounts), cells, edit) == EachAt(accounts, cells[k..], edit)
      {
        error := UpdateOne(cells[k], edit);
        if error.Some? {
          return;
        }
        assert cells[k..][1..] == cells[k + 1..];
      }
      error := None;
    }

    method Hashes(cells: seq<nat>) returns (r: Read<seq<Digest>>)
      ensures r == HashesAt(accounts, cells)
    {
      var hashes: seq<Digest> := [];
      assert cells[0..] == cells;
      assert forall rest: seq<Digest> :: [] + rest == rest;
      for k := 0 to |cells|
        invariant HashesAt(accounts, cells) ==
          match HashesAt(accounts, cells[k..]) case Bad(e) => Bad(e) case Value(rest) => Value(hashes + rest)
      {
        assert cells[k..][1..] == cells[k + 1..];
        if cells[k] >= |accounts| {
          return Bad(NotEnoughAccountKeys);
        }
        var hash := ReadHash(accounts[cells[k]].data);
        if hash.Bad? {
          return Bad(hash.error);
        }
        assert forall rest: seq<Digest> :: hashes + ([hash.value] + rest) == (hashes + [hash.value]) + rest;
        hashes := hashes + [hash.value];
      }
      assert hashes + [] == hashes;
      r := Value(hashes);
    }

    method CopyCells(sources: seq<nat>, destinations: seq<nat>) returns (error: Option<ProgramError>)
      requires sources != []
      modifies this
      ensures Ran(accounts, error) == CopyAt(old(accounts), sources, destinations, 0)
    {
      for position := 0 to |destinations|
        invariant CopyAt(old(accounts), sources, destinations, 0) == CopyAt(accounts, sources, destinations, position)
      {
        var s, d := Cycle(sources, position), destinations[position];
        if s >= |accounts| || d >= |accounts| {
          return Some(NotEnoughAccountKeys);
        }
        var edit := CopyEdit(accounts[s].key == accounts[d].key, accounts[s].data);
        if edit.Bad? {
          return Some(edit.error);
        }
        error := UpdateOne(d, edit.value);
        if error.Some? {
          return;
        }
      }
      error := None;
    }

    method Sizes(inputs: seq<nat>) returns (r: Read<nat>)
      ensures r == SizesAt(accounts, inputs)
    {
      var sum := 0;
      for k := 0 to |inputs|
        invariant SizesAt(accounts, inputs) ==
          match SizesAt(accounts, inputs[k..]) case Bad(e) => Bad(e) case Value(rest) => Value(sum + rest)
      {
        assert inputs[k..][1..] == inputs[k + 1..];
        if inputs[k] >= |accounts| {
          return Bad(NotEnoughAccountKeys);
        }
        sum := sum + |accounts[inputs[k]].data|;
      }
      r := Value(sum);
    }

    /** `apply`. */
    method Apply(op: Operation<nat>) returns (error: Option<ProgramError>)
      modifies this
      ensures Ran(accounts, error) == ApplyAt(sha, old(accounts), op)
    {
      match op {
        case Set(cells, value) => error := Each(cells, SetValue(value));
        case Add(cells, change) => error := Each(cells, AddValue(change));
        case Fill(cells, seed, step) => error := Each(cells, FillPayload(seed, step));
        case Hash(cells, initial, rounds) =>
          var hash := ChainLoop(sha, initial, rounds);
          error := Each(cells, WriteBytes(hash));
        case FoldHashes(cells, salt, rounds) =>
          var hashes := Hashes(cells);
          if hashes.Bad? {
            return Some(hashes.error);
          }
          var hash := FoldLoop(sha, salt, hashes.value, rounds);
          error := Each(cells, WriteBytes(hash));
        case Copy(sources, destinations) =>
          if sources == [] {
            return Some(NotEnoughAccountKeys);
          }
          error := CopyCells(sources, destinations);
        case SumSizes(output, inputs) =>
          var sum := Sizes(inputs);
          if sum.Bad? {
            return Some(sum.error);
          }
          error := UpdateOne(output, WriteBytes(LeBytes(sum.value, 8)));
        case Undelegate(cells, outcome) => error := Each(cells, SetUndelegation(outcome));
        case Fail(code) => error := Some(Custom(code));
      }
    }

    /** `run`: stops at the first operation that fails. */
    method Run(ops: seq<Operation<nat>>) returns (error: Option<ProgramError>)
      modifies this
      ensures Ran(accounts, error) == RunAt(sha, old(accounts), ops)
    {
      for step := 0 to |ops|
        invariant RunAt(sha, old(accounts), ops) == RunAt(sha, accounts, ops[step..])
      {
        error := Apply(ops[step]);
        if error.Some? {
          return;
        }
        assert ops[step..][1..] == ops[step + 1..];
      }
      error := None;
    }
  }
}
