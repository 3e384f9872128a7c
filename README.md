# Engine API payload handling of the Erigon backend server

This project models, in Dafny, the Engine API part of Erigon's `EthBackendServer`
(`ethdb/privateapi/ethbackend.go`): the handler `EngineExecutePayloadV1`, through
which a proof-of-stake consensus driver submits an execution payload, and
`EngineGetPayloadV1`, which serves a payload the node assembled earlier. It also
models the loop of the `Block` call that packs transaction senders into one byte
buffer.

The handler takes its checks in this order: proof-of-stake configuration, the
read-only database transaction, the mandatory payload fields, the head block
number, the "one payload in flight" gate `numberSent > headNumber`, transaction
decoding, header reconstruction and the block-hash check. Only then does it set
`numberSent` to the payload's block number and send the block to the staged sync
on the reverse-download channel. It then replies SYNCING when the block does not
extend the current head, and otherwise VALID or INVALID according to the status
the staged sync sends back.

Files:

- `common.dfy` (module `Common`): bytes, `uint64`, fixed-width hashes, addresses and
  blooms, `Option` and `Result`.
- `header.dfy` (module `Header`): the execution payload, the block header, the
  post-merge constants of EIP-3675, Go's `int64(uint64)` conversion and the header
  reconstruction.
- `ethbackend.dfy` (module `EthBackend`): the codec primitives as parameters, the
  decode loop, the handler's specification `ExecutePayload`, and the class
  `EthBackendServer` with the mutable field `numberSent` and the ghost sequence
  `forwarded` that stands for the reverse-download channel.
- `ethbackend_properties.dfy` (module `EthBackendProperties`): the handler's
  promises, proved of `ExecutePayload` for all inputs.
- `senders.dfy` (module `Senders`): the senders packing loop, as written and as
  evidently intended.

Inputs from collaborators are parameters:

- The database reads are a `DbView`: whether `BeginRo` succeeded, the head block
  hash and the optional head number.
- The status the staged sync returns is the `verdict` parameter. The handler
  reads it only when the block was sent and extends the head.
- `header.Hash()`, `types.DeriveSha` and `types.DecodeTransaction` are the
  function fields of a `Codec`. Nothing is assumed about them.

The code and the prose design of this system disagree in places. The model
follows the code:

- In the code the in-flight gate runs before transaction decoding and the hash
  check. The design lists decoding and validation first.
- The code waits for the verdict with a plain channel receive. It has no
  cancellation path and no cancellation error.
- The code never removes a payload from the cache when serving it.

## Model

| member | source | states |
|---|---|---|
| `Header.ToInt64` | ethdb/privateapi/ethbackend.go:243 | the header number is the unique int64 congruent to the uint64 block number modulo 2^64 |
| `Header.ToInt64RoundTrip` | ethdb/privateapi/ethbackend.go:243 | converting the block number to int64 and back gives it again; numbers below 2^63 are kept, larger ones come out negative |
| `Header.ReconstructHeader` | ethdb/privateapi/ethbackend.go:210-253 | every rebuilt header is post-merge (Eip3675 set, zero MixDigest, EmptyUncleHash, difficulty 0, zero nonce, 32-byte Extra), carries Eip1559 and a base fee exactly when BaseFeePerGas is present, and takes the payload's fields and the given transaction root |
| `Header.ReconstructHeaderInjective` | ethdb/privateapi/ethbackend.go:233-257 | two rebuilt headers are equal if and only if the payloads agree on every field the header is built from and the transaction roots agree, so the hash check commits to exactly those fields |
| `EthBackend.DecodeAll` | ethdb/privateapi/ethbackend.go:218-229 | decoding succeeds iff every transaction decodes, then yields each decoded transaction at its own position; a failure is the error of the first transaction that fails |
| `EthBackend.DecodeTransactions` | ethdb/privateapi/ethbackend.go:219-229 | the loop that fills a slice of nil transactions in order and stops at the first failure computes `DecodeAll` |
| `EthBackend.FetchPayload` | ethdb/privateapi/ethbackend.go:286-296 | fails with "not a proof-of-stake chain" when no terminal total difficulty is configured; otherwise returns the cached payload for a present id and "unknown payload" for an absent one |
| `EthBackend.EthBackendServer.constructor` | ethdb/privateapi/ethbackend.go:60-65 | a new server has an empty payload cache, `numberSent` zero and nothing sent |
| `EthBackend.EthBackendServer.EngineExecutePayloadV1` | ethdb/privateapi/ethbackend.go:174-283 | the reply, the new `numberSent` and the blocks sent are those of `ExecutePayload`; the cache is untouched; it keeps the invariant that the last block sent is numbered `int64(numberSent)` and every block sent has a post-merge header |
| `EthBackend.EthBackendServer.EngineGetPayloadV1` | ethdb/privateapi/ethbackend.go:286-296 | returns `FetchPayload` of the server's configuration and cache, and changes nothing |
| `EthBackendProperties.FetchAfterStore` | ethdb/privateapi/ethbackend.go:291-294 | a payload stored under an id is what fetching that id returns afterwards; other ids are served as before |
| `EthBackendProperties.DecodeAllMatchesEach` | ethdb/privateapi/ethbackend.go:221-229 | the decode loop agrees with decoding each transaction independently |
| `EthBackendProperties.NotProofOfStakeComesFirst` | ethdb/privateapi/ethbackend.go:176-178 | without a terminal total difficulty the call fails before any other check, whatever the request, and changes nothing |
| `EthBackendProperties.MissingFieldRejected` | ethdb/privateapi/ethbackend.go:186-191 | a missing request or mandatory field fails with "invalid execution payload", `numberSent` unchanged, nothing sent |
| `EthBackendProperties.MissingHeadNumberRejected` | ethdb/privateapi/ethbackend.go:194-197 | an unknown head number fails, changing nothing |
| `EthBackendProperties.InFlightGate` | ethdb/privateapi/ethbackend.go:199-207 | when `numberSent` exceeds the head number the reply is SYNCING at the current head, nothing changes, and the outcome depends on neither the codec nor the verdict (nothing is decoded or hashed) |
| `EthBackendProperties.GateAdmitsEqualNumber` | ethdb/privateapi/ethbackend.go:201 | the gate is strict: with `numberSent` equal to the head number an admissible payload is sent |
| `EthBackendProperties.MalformedTransactionRejected` | ethdb/privateapi/ethbackend.go:223-229 | the first transaction that fails to decode gives the error, `numberSent` unchanged, nothing sent |
| `EthBackendProperties.HashMismatchRejected` | ethdb/privateapi/ethbackend.go:255-257 | a rebuilt header whose hash is not the declared block hash gives a mismatch error with both hashes, changing nothing |
| `EthBackendProperties.ErrorsChangeNothing` | ethdb/privateapi/ethbackend.go:174-261 | every error path leaves `numberSent` unchanged and sends nothing |
| `EthBackendProperties.ForwardedExactlyWhenAdmitted` | ethdb/privateapi/ethbackend.go:255-261 | a block is sent iff every check passes; then it is the rebuilt header (hashing to the declared hash) with the decoded transactions in order, and `numberSent` becomes the block number; otherwise `numberSent` stays |
| `EthBackendProperties.VerdictMapping` | ethdb/privateapi/ethbackend.go:262-281 | after sending: SYNCING at the current head if the parent is not the head; else VALID at the block hash on a valid verdict, INVALID at the current head on an invalid one |
| `EthBackendProperties.VerdictReadOnlyWhenContiguous` | ethdb/privateapi/ethbackend.go:264-270 | off the contiguous path the outcome is the same for either verdict: the status channel is read only when the sent block extends the head |
| `EthBackendProperties.OneBlockInFlight` | ethdb/privateapi/ethbackend.go:199-207 | after a block numbered N is sent, any later call while the head is below N sends nothing, keeps `numberSent` at N and replies SYNCING at the head or fails |
| `Senders.PackSenders` | ethdb/privateapi/ethbackend.go:166-169 | the loop as written yields `40*n` bytes: `20*n` zero bytes followed by the senders laid end to end |
| `Senders.PackedAsWrittenLayout` | ethdb/privateapi/ethbackend.go:166-169 | in the buffer as written the first `20*n` bytes are zero and slot `n+i` holds the i-th sender |
| `Senders.AsWrittenLosesSenders` | ethdb/privateapi/ethbackend.go:166-169 | as written, the slot read for transaction i holds the zero address, not a non-zero sender |
| `Senders.PackSendersIntended` | ethdb/privateapi/ethbackend.go:166-169 | the intended packing yields `20*n` bytes whose i-th 20-byte slot is the i-th sender |

## Findings

| source | as written | input that shows it | evidently intended | confidence | as-written member | corrected member |
|---|---|---|---|---|---|---|
| ethdb/privateapi/ethbackend.go:166-169 | `make([]byte, 20*len(senders))` creates `20*n` zero bytes and the loop appends each sender after them, so the buffer has `40*n` bytes and slot i (bytes `20*i` to `20*i+20`) is zero for every i | one sender whose first byte is 1 and whose other 19 bytes are 0: the buffer is 40 bytes, and bytes 0 to 19, which a reader takes as the first sender, are all zero | start from an empty buffer with capacity `20*n` (or copy into each slot), so that slot i holds sender i | high (not executed) | `Senders.PackSenders`, `Senders.AsWrittenLosesSenders` | `Senders.PackSendersIntended` |

## Left out

- `Subscribe` (ethbackend.go:99-140) is left out. It registers a callback on an event hub, RLP-encodes headers to a gRPC stream and blocks on two contexts. That is long-lived concurrent fan-out, not sequential logic.
- The accessors `Version`, `Etherbase`, `NetVersion`, `NetPeerCount`, `ProtocolVersion` and `ClientVersion` (ethbackend.go:67-97, 142-149) are left out. They only pass through to the `EthBackend` interface or return constants.
- Of the `Block` call (ethbackend.go:151-171), only the senders loop is modelled. The read transaction, `BlockWithSenders` and the RLP encoding of the block are storage and codec work.
- Database access (`BeginRo`, `ReadHeadBlockHash`, `ReadHeaderNumber`) is a `DbView` input. The read transaction that `EngineExecutePayloadV1` opens is never rolled back; that resource leak is not modelled.
- Keccak hashing of headers, `DeriveSha`, RLP and `DecodeTransaction` are function parameters with no properties assumed.
- EthBackend.EthBackendServer.EngineExecutePayloadV1: the sent block is modelled as the rebuilt header with the decoded transactions. In the code, `types.NewBlock` copies the header and recomputes its transaction root, receipt root and uncle hash. `core/types/block.go` is not part of this model.
- Concurrency is not modelled: blocking on the two channels, and the unsynchronised read and write of `numberSent` when calls run at once. The send is an append to the ghost sequence `forwarded`. The receive is the `verdict` parameter, so the model has no blocked or cancelled wait.
- The conversion of `BaseFeePerGas` to a `big.Int` (ethbackend.go:214) is not modelled. The base fee is kept as its 32 bytes.
- `consensus/serenity` is not part of this model. Its constants are taken from section "Block structure" of EIP-3675: difficulty 0 and an all-zero 8-byte nonce.
- Logging is left out, and so is the text of the hash-mismatch message. That message prints the declared hash as "got" and the computed hash as "wanted"; the model's error carries both hashes, each under its own name.
- The wire conversions of `gointerfaces` (H160, H256, H2048 to Go arrays) are identities here. Fixed-width fields are byte sequences of their width.
