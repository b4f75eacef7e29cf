/** Fixture cells: a fixed 64-byte header followed by workload bytes, and the hash-chain state. */
module FixtureState {
  import opened Common

  type Pubkey = k: seq<byte> | |k| == 32 witness seq(32, _ => 0)
  type Digest = k: seq<byte> | |k| == 32 witness seq(32, _ => 0)

  // ---- little-endian words ----------------------------------------------------------------

  ghost function Pow256(w: nat): nat { if w == 0 then 1 else 256 * Pow256(w - 1) }

  function LeBytes(n: nat, w: nat): (r: seq<byte>)
    ensures |r| == w
  {
    if w == 0 then [] else [n % 256] + LeBytes(n / 256, w - 1)
  }

  function FromLe(bytes: seq<byte>): nat {
    if bytes == [] then 0 else bytes[0] + 256 * FromLe(bytes[1..])
  }

  lemma {:induction false} LeRoundTrip(n: nat, w: nat)
    requires n < Pow256(w)
    ensures FromLe(LeBytes(n, w)) == n
  {
    if w > 0 {
      LeRoundTrip(n / 256, w - 1);
      assert LeBytes(n, w)[1..] == LeBytes(n / 256, w - 1);
    }
  }

  lemma {:induction false} BytesRoundTrip(bytes: seq<byte>)
    ensures FromLe(bytes) < Pow256(|bytes|)
    ensures LeBytes(FromLe(bytes), |bytes|) == bytes
  {
    if bytes != [] {
      BytesRoundTrip(bytes[1..]);
    }
  }

  lemma Words()
    ensures Pow256(8) == U64_MAX + 1
  {
    assert Pow256(1) == 256;
    assert Pow256(2) == 65536;
    assert Pow256(4) == 256 * (256 * Pow256(2));
    assert Pow256(6) == 256 * (256 * Pow256(4));
  }

  // ---- the header -----------------------------------------------------------------------------

  datatype CellId = CellId(authority: Pubkey, index: u64)
  datatype Undelegation = Accept | Reject
  datatype CellHeader = CellHeader(id: CellId, value: u64, revision: u64, undelegation: Undelegation)

  const SIZE: nat := 64

  function NewHeader(id: CellId): CellHeader { CellHeader(id, 0, 0, Accept) }

  function Encode(h: CellHeader): (r: seq<byte>)
    ensures |r| == SIZE
  {
    h.id.authority + LeBytes(h.id.index, 8) + LeBytes(h.value, 8) + LeBytes(h.revision, 8)
    + LeBytes(if h.undelegation.Accept? then 0 else 1, 8)
  }

  /** `try_decode`: reads the prefix, and refuses short data and unknown outcome tags. */
  function TryDecode(data: seq<byte>): Option<CellHeader> {
    if |data| < SIZE then None else
    var tag := FromLe(data[56..64]);
    if tag > 1 then None else
    Word(data, 32); Word(data, 40); Word(data, 48);
    Some(CellHeader(CellId(data[..32], FromLe(data[32..40])), FromLe(data[40..48]), FromLe(data[48..56]),
                    if tag == 0 then Accept else Reject))
  }

  lemma Word(data: seq<byte>, at: nat)
    requires at + 8 <= |data|
    ensures FromLe(data[at..at + 8]) <= U64_MAX
  {
    BytesRoundTrip(data[at..at + 8]);
    Words();
  }

  function Payload(data: seq<byte>): seq<byte>
    requires SIZE <= |data|
  {
    data[SIZE..]
  }

  /** Writing a header and reading it back, whatever payload follows. */
  lemma DecodeEncode(h: CellHeader, payload: seq<byte>)
    ensures TryDecode(Encode(h) + payload) == Some(h)
    ensures Payload(Encode(h) + payload) == payload
  {
    hide LeBytes;
    Words();
    var data := Encode(h) + payload;
    LeRoundTrip(h.id.index, 8);
    LeRoundTrip(h.value, 8);
    LeRoundTrip(h.revision, 8);
    LeRoundTrip(0, 8);
    LeRoundTrip(1, 8);
    assert data[..32] == h.id.authority;
    assert data[32..40] == LeBytes(h.id.index, 8);
    assert data[40..48] == LeBytes(h.value, 8);
    assert data[48..56] == LeBytes(h.revision, 8);
    assert data[56..64] == LeBytes(if h.undelegation.Accept? then 0 else 1, 8);
  }

  /** Reading a header and writing it back changes no byte. */
  lemma EncodeDecode(data: seq<byte>)
    requires TryDecode(data).Some?
    ensures Encode(TryDecode(data).value) + Payload(data) == data
  {
    BytesRoundTrip(data[32..40]);
    BytesRoundTrip(data[40..48]);
    BytesRoundTrip(data[48..56]);
    BytesRoundTrip(data[56..64]);
    assert data == data[..32] + data[32..40] + data[40..48] + data[48..56] + data[56..64] + data[64..];
  }

  // ---- payload filling ------------------------------------------------------------------------

  /** The word written to chunk `k`, with wrapping arithmetic. */
  function FillWord(seed: u64, step: u64, k: nat): u64 { (seed + k * step) % (U64_MAX + 1) }

  function FillByte(seed: u64, step: u64, i: nat): byte { LeBytes(FillWord(seed, step, i / 8), 8)[i % 8] }

  function Filled(n: nat, seed: u64, step: u64): (r: seq<byte>)
    ensures |r| == n
  {
    seq(n, i requires 0 <= i => FillByte(seed, step, i))
  }

  /** `CellHeader::fill`: eight bytes at a time, the last chunk cut short. */
  method Fill(payload: array<byte>, seed: u64, step: u64)
    modifies payload
    ensures payload[..] == Filled(payload.Length, seed, step)
  {
    var index := 0;
    while 8 * index < payload.Length
      invariant 0 <= 8 * index <= payload.Length + 7
      invariant forall i :: 0 <= i < 8 * index && i < payload.Length ==> payload[i] == FillByte(seed, step, i)
    {
      var word := LeBytes((seed + index * step) % (U64_MAX + 1), 8);
      var length := if payload.Length - 8 * index < 8 then payload.Length - 8 * index else 8;
      for j := 0 to length
        invariant forall i :: 0 <= i < 8 * index + j ==> payload[i] == FillByte(seed, step, i)
      {
        payload[8 * index + j] := word[j];
        assert (8 * index + j) / 8 == index && (8 * index + j) % 8 == j;
      }
      index := index + 1;
    }
  }

  // ---- hash chains ----------------------------------------------------------------------------

  type Sha = seq<byte> -> Digest

  function Chain(sha: Sha, hash: Digest, rounds: nat): Digest {
    if rounds == 0 then hash else sha(Chain(sha, hash, rounds - 1) + LeBytes(rounds - 1, 4))
  }

  function Concat(hashes: seq<Digest>): seq<byte> {
    if hashes == [] then [] else Concat(hashes[..|hashes| - 1]) + hashes[|hashes| - 1]
  }

  function Fold(sha: Sha, salt: u64, hashes: seq<Digest>, rounds: nat): Digest {
    Chain(sha, sha(LeBytes(salt, 8) + Concat(hashes)), rounds)
  }

  /** `HashState::chain`. */
  method ChainLoop(sha: Sha, initial: Digest, rounds: u32) returns (hash: Digest)
    ensures hash == Chain(sha, initial, rounds)
  {
    hash := initial;
    for round := 0 to rounds
      invariant hash == Chain(sha, initial, round)
    {
      hash := sha(hash + LeBytes(round, 4));
    }
  }

  /** `HashState::fold`, feeding one digest at a time. */
  method FoldLoop(sha: Sha, salt: u64, hashes: seq<Digest>, rounds: u32) returns (hash: Digest)
    ensures hash == Fold(sha, salt, hashes, rounds)
  {
    var fed := LeBytes(salt, 8);
    for i := 0 to |hashes|
      invariant fed == LeBytes(salt, 8) + Concat(hashes[..i])
    {
      assert hashes[..i + 1][..i] == hashes[..i];
      fed := fed + hashes[i];
    }
    assert hashes[..|hashes|] == hashes;
    hash := ChainLoop(sha, sha(fed), rounds);
  }
}
