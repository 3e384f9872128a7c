/** The execution payload a consensus driver submits, the block header the
    engine rebuilds from it, and the post-merge header constants of EIP-3675
    ("Block structure"). */
module Header {
  import opened Common

  /** The execution payload (`types2.ExecutionPayload`). Every field that is
      a pointer or a slice on the wire may be nil, so it is an `Option`. */
  datatype ExecutionPayload = ExecutionPayload(
    parentHash: Option<Hash>,
    blockHash: Option<Hash>,
    coinbase: Option<Address>,
    stateRoot: Option<Hash>,
    receiptRoot: Option<Hash>,
    logsBloom: Option<Bloom>,
    random: Option<Hash>,
    extraData: Option<Hash>,
    baseFeePerGas: Option<Hash>,
    blockNumber: uint64,
    gasUsed: uint64,
    gasLimit: uint64,
    timestamp: uint64,
    transactions: Option<seq<seq<byte>>>,
    payloadId: uint64)

  /** The block header (`types.Header`) as the engine builds it. The base fee
      is kept as the 32 bytes it arrives in; `number` is a signed big integer. */
  datatype Header = Header(
    parentHash: Hash,
    uncleHash: Hash,
    coinbase: Address,
    root: Hash,
    txHash: Hash,
    receiptHash: Hash,
    bloom: Bloom,
    difficulty: nat,
    number: int,
    gasLimit: uint64,
    gasUsed: uint64,
    time: uint64,
    extra: seq<byte>,
    mixDigest: Hash,
    nonce: Nonce,
    random: Hash,
    eip1559: bool,
    baseFee: Option<Hash>,
    eip3675: bool)

  /** Keccak-256 of the RLP encoding of the empty list: the uncle hash of a
      block without uncles (`types.EmptyUncleHash`). */
  const EmptyUncleHash: Hash :=
    [0x1d, 0xcc, 0x4d, 0xe8, 0xde, 0xc7, 0x5d, 0x7a, 0xab, 0x85, 0xb5, 0x67, 0xb6, 0xcc, 0xd4, 0x1a,
     0xd3, 0x12, 0x45, 0x1b, 0x94, 0x8a, 0x74, 0x13, 0xf0, 0xa1, 0x42, 0xfd, 0x40, 0xd4, 0x93, 0x47]

  /** The difficulty of every proof-of-stake block (`serenity.SerenityDifficulty`). */
  const SerenityDifficulty: nat := 0

  /** The nonce of every proof-of-stake block (`serenity.SerenityNonce`). */
  const SerenityNonce: Nonce := Zeros(8)

  const TwoTo63: int := 0x8000_0000_0000_0000
  const TwoTo64: int := 0x1_0000_0000_0000_0000

  /** Go's conversion `int64(n)` of a `uint64`: two's-complement reinterpretation,
      so numbers from 2^63 on come out negative. */
  function ToInt64(n: uint64): (r: int)
    ensures -TwoTo63 <= r < TwoTo63
    ensures (r - n) % TwoTo64 == 0
  {
    if n < TwoTo63 then n else n - TwoTo64
  }

  /** Go's conversion `uint64(x)` of an `int64`. */
  function ToUint64(x: int): (r: uint64)
    requires -TwoTo63 <= x < TwoTo63
    ensures (r - x) % TwoTo64 == 0
  {
    if x < 0 then x + TwoTo64 else x
  }

  /** Converting to `int64` and back gives the block number again, so two
      different block numbers never share a header number. */
  lemma ToInt64RoundTrip(n: uint64)
    ensures ToUint64(ToInt64(n)) == n
    ensures n < TwoTo63 ==> ToInt64(n) == n
    ensures n >= TwoTo63 ==> ToInt64(n) < 0
  {
  }

  /** The mandatory-field check: the request and each of its nine mandatory
      fields are present. `BaseFeePerGas` is optional. */
  predicate MandatoryFieldsPresent(req: Option<ExecutionPayload>)
  {
    req.Some? && Complete(req.value)
  }

  predicate Complete(p: ExecutionPayload)
  {
    p.parentHash.Some? && p.blockHash.Some? && p.coinbase.Some? && p.extraData.Some? &&
    p.logsBloom.Some? && p.receiptRoot.Some? && p.stateRoot.Some? && p.random.Some? &&
    p.transactions.Some?
  }

  /** What EIP-3675 fixes in every header of the proof-of-stake chain, together
      with the EIP-1559 rule that the base fee is present exactly when the
      EIP-1559 marker is set, and this engine's 32-byte extra data. */
  predicate PostMergeHeader(h: Header)
  {
    h.eip3675 &&
    h.mixDigest == Zeros(32) &&
    h.uncleHash == EmptyUncleHash &&
    h.difficulty == SerenityDifficulty &&
    h.nonce == SerenityNonce &&
    |h.extra| == 32 &&
    (h.eip1559 <==> h.baseFee.Some?)
  }

  /** The header rebuilt from a complete payload, given the transaction root
      computed over its decoded transactions. */
  function ReconstructHeader(p: ExecutionPayload, txRoot: Hash): (h: Header)
    requires Complete(p)
    ensures PostMergeHeader(h)
    ensures h.eip1559 <==> p.baseFeePerGas.Some?
    ensures h.baseFee == p.baseFeePerGas
    ensures h.extra == p.extraData.value
    ensures h.parentHash == p.parentHash.value && h.coinbase == p.coinbase.value
    ensures h.root == p.stateRoot.value && h.bloom == p.logsBloom.value
    ensures h.random == p.random.value && h.receiptHash == p.receiptRoot.value
    ensures h.gasUsed == p.gasUsed && h.gasLimit == p.gasLimit && h.time == p.timestamp
    ensures h.txHash == txRoot
    ensures h.number == ToInt64(p.blockNumber)
  {
    Header(
      parentHash := p.parentHash.value,
      uncleHash := EmptyUncleHash,
      coinbase := p.coinbase.value,
      root := p.stateRoot.value,
      txHash := txRoot,
      receiptHash := p.receiptRoot.value,
      bloom := p.logsBloom.value,
      difficulty := SerenityDifficulty,
      number := ToInt64(p.blockNumber),
      gasLimit := p.gasLimit,
      gasUsed := p.gasUsed,
      time := p.timestamp,
      extra := p.extraData.value,
      mixDigest := Zeros(32),
      nonce := SerenityNonce,
      random := p.random.value,
      eip1559 := p.baseFeePerGas.Some?,
      baseFee := p.baseFeePerGas,
      eip3675 := true)
  }

  /** Two payloads agree on every field the header is built from. */
  predicate SameHeaderFields(p: ExecutionPayload, q: ExecutionPayload)
  {
    p.parentHash == q.parentHash && p.coinbase == q.coinbase && p.stateRoot == q.stateRoot &&
    p.receiptRoot == q.receiptRoot && p.logsBloom == q.logsBloom && p.random == q.random &&
    p.extraData == q.extraData && p.baseFeePerGas == q.baseFeePerGas &&
    p.blockNumber == q.blockNumber && p.gasUsed == q.gasUsed && p.gasLimit == q.gasLimit &&
    p.timestamp == q.timestamp
  }

  /** The rebuilt header determines the payload fields it is built from and the
      transaction root, and is determined by them: the header hash check
      therefore commits to each of those fields, and to nothing else of the
      payload (not its declared block hash, not its payload id). */
  lemma ReconstructHeaderInjective(p: ExecutionPayload, q: ExecutionPayload, r1: Hash, r2: Hash)
    requires Complete(p) && Complete(q)
    ensures ReconstructHeader(p, r1) == ReconstructHeader(q, r2) <==> SameHeaderFields(p, q) && r1 == r2
  {
  }
}
