/** The Engine API side of the Ethereum backend server: accepting an execution
    payload from the consensus driver (`EngineExecutePayloadV1`) and serving a
    payload the node assembled (`EngineGetPayloadV1`). Storage, the
    block codec and the channels to the staged sync are collaborators whose
    results arrive as parameters. */
module EthBackend {
  import opened Common
  import opened Header

  /** A decoded transaction (`types.Transaction`), opaque to this layer. Like
      the Go interface it has a zero value, the nil transaction. */
  type Transaction(==, 0)

  /** The reason `types.DecodeTransaction` gave for refusing some bytes. */
  type DecodeError(==)

  /** The codec and hashing primitives this layer calls without seeing:
      `header.Hash()` (Keccak-256 of the RLP header), `types.DeriveSha` (the
      transaction trie root) and `types.DecodeTransaction`. */
  datatype Codec = Codec(
    headerHash: Header -> Hash,
    deriveSha: seq<Transaction> -> Hash,
    decodeTransaction: seq<byte> -> Result<Transaction, DecodeError>)

  /** What the read-only database transaction yields: whether `BeginRo`
      succeeded, the head block hash (`rawdb.ReadHeadBlockHash`, the zero hash
      when unset) and the head's number (`rawdb.ReadHeaderNumber`, nil when
      the header is unknown). */
  datatype DbView = DbView(txOpened: bool, headHash: Hash, headNumber: Option<uint64>)

  /** A block as sent on the reverse-download channel. */
  datatype Block = Block(header: Header, transactions: seq<Transaction>)

  datatype Status = Syncing | Valid | Invalid

  /** `remote.EngineExecutePayloadReply`. */
  datatype Reply = Reply(status: Status, latestValidHash: Hash)

  datatype EngineError =
    | NotProofOfStake          // "not a proof-of-stake chain"
    | DatabaseUnavailable      // the error of BeginRo
    | InvalidPayload           // "invalid execution payload"
    | HeadNumberMissing        // "cannot find latest block number"
    | MalformedTransaction(reason: DecodeError)
    | HashMismatch(computed: Hash, declared: Hash)
    | UnknownPayload           // "unknown payload"

  /** Decoding every encoded transaction, in order; the first failure is the
      result. */
  function DecodeAll(decode: seq<byte> -> Result<Transaction, DecodeError>, encoded: seq<seq<byte>>)
    : (r: Result<seq<Transaction>, DecodeError>)
    ensures r.Success? <==> forall i :: 0 <= i < |encoded| ==> decode(encoded[i]).Success?
    ensures r.Success? ==>
      |r.value| == |encoded| && forall i :: 0 <= i < |encoded| ==> r.value[i] == decode(encoded[i]).value
    ensures r.Failure? ==>
      exists k :: 0 <= k < |encoded| && decode(encoded[k]) == Failure(r.error) &&
        forall j :: 0 <= j < k ==> decode(encoded[j]).Success?
  {
    if encoded == [] then Success([])
    else
      var prefix := encoded[..|encoded| - 1];
      match DecodeAll(decode, prefix)
      case Failure(e) => Failure(e)
      case Success(txs) =>
        match decode(encoded[|encoded| - 1])
        case Failure(e) => Failure(e)
        case Success(t) => Success(txs + [t])
  }

  /** The payload handler as a function of its inputs: the reply or error, the
      new value of `numberSent`, and the block sent to the staged sync, if any. */
  datatype Outcome = Outcome(result: Result<Reply, EngineError>, numberSent: uint64, sent: Option<Block>)

  /** The reply once the block has been forwarded: a block that does not extend
      the current head is left to the reverse download; one that does is judged
      by the verdict the staged sync sends back. */
  function ForwardedReply(parentHash: Hash, currentHead: Hash, blockHash: Hash, verdict: bool): Reply
  {
    if parentHash != currentHead then Reply(Syncing, currentHead)
    else if verdict then Reply(Valid, blockHash)
    else Reply(Invalid, currentHead)
  }

  /** `EngineExecutePayloadV1` step by step, in the order the handler takes its
      checks. `verdict` is the status the staged sync would send back. */
  function ExecutePayload(ttdConfigured: bool, numberSent: uint64, req: Option<ExecutionPayload>,
                          db: DbView, verdict: bool, codec: Codec): Outcome
  {
    if !ttdConfigured then Outcome(Failure(NotProofOfStake), numberSent, None)
    else if !db.txOpened then Outcome(Failure(DatabaseUnavailable), numberSent, None)
    else if !MandatoryFieldsPresent(req) then Outcome(Failure(InvalidPayload), numberSent, None)
    else if db.headNumber.None? then Outcome(Failure(HeadNumberMissing), numberSent, None)
    else if numberSent > db.headNumber.value then
      Outcome(Success(Reply(Syncing, db.headHash)), numberSent, None)
    else
      var p := req.value;
      match DecodeAll(codec.decodeTransaction, p.transactions.value)
      case Failure(e) => Outcome(Failure(MalformedTransaction(e)), numberSent, None)
      case Success(txs) =>
        var header := ReconstructHeader(p, codec.deriveSha(txs));
        var computed := codec.headerHash(header);
        if computed != p.blockHash.value then
          Outcome(Failure(HashMismatch(computed, p.blockHash.value)), numberSent, None)
        else
          Outcome(Success(ForwardedReply(header.parentHash, db.headHash, p.blockHash.value, verdict)),
                  p.blockNumber, Some(Block(header, txs)))
  }

  /** `EngineGetPayloadV1` as a function of the configuration and the cache. */
  function FetchPayload(ttdConfigured: bool, pending: map<uint64, ExecutionPayload>, payloadId: uint64)
    : (r: Result<ExecutionPayload, EngineError>)
    ensures r.Success? <==> ttdConfigured && payloadId in pending
    ensures r.Success? ==> r.value == pending[payloadId]
    ensures !ttdConfigured ==> r == Failure(NotProofOfStake)
    ensures ttdConfigured && payloadId !in pending ==> r == Failure(UnknownPayload)
  {
    if !ttdConfigured then Failure(NotProofOfStake)
    else if payloadId in pending then Success(pending[payloadId])
    else Failure(UnknownPayload)
  }

  /** The decode loop of the payload handler: a slice of nil transactions the
      length of the input, filled in order, abandoned at the first failure. */
  method DecodeTransactions(decode: seq<byte> -> Result<Transaction, DecodeError>, encoded: seq<seq<byte>>)
    returns (r: Result<seq<Transaction>, DecodeError>)
    ensures r == DecodeAll(decode, encoded)
  {
    var transactions := new Transaction[|encoded|];
    for i := 0 to |encoded|
      invariant DecodeAll(decode, encoded[..i]) == Success(transactions[..i])
    {
      match decode(encoded[i])
      case Failure(e) =>
        assert DecodeAll(decode, encoded[..i + 1]) == Failure(e) by {
          assert encoded[..i + 1][..i] == encoded[..i];
        }
        DecodeFailureExtends(decode, encoded, i + 1);
        return Failure(e);
      case Success(t) =>
        transactions[i] := t;
        assert encoded[..i + 1][..i] == encoded[..i];
        assert transactions[..i + 1] == transactions[..i] + [t];
    }
    assert encoded[..|encoded|] == encoded;
    assert transactions[..|encoded|] == transactions[..];
    return Success(transactions[..]);
  }

  /** A failure in decoding a prefix is the failure of decoding the whole. */
  lemma {:induction false} DecodeFailureExtends(decode: seq<byte> -> Result<Transaction, DecodeError>,
                                                encoded: seq<seq<byte>>, n: nat)
    requires n <= |encoded| && DecodeAll(decode, encoded[..n]).Failure?
    ensures DecodeAll(decode, encoded) == DecodeAll(decode, encoded[..n])
    decreases |encoded| - n
  {
    if n < |encoded| {
      assert encoded[..n + 1][..n] == encoded[..n];
      DecodeFailureExtends(decode, encoded, n + 1);
    } else {
      assert encoded[..n] == encoded;
    }
  }

  /** The backend server (`EthBackendServer`) with the state the Engine API
      handlers use: whether a terminal total difficulty is configured, the
      cache of assembled payloads, and the number of the last block sent to
      the staged sync. `forwarded` stands for everything ever sent on the
      reverse-download channel. */
  class EthBackendServer {
    const ttdConfigured: bool
    var pendingPayloads: map<uint64, ExecutionPayload>
    var numberSent: uint64
    ghost var forwarded: seq<Block>

    /** `numberSent` is the number of the last block sent (zero before the
        first), and every block sent carries a proof-of-stake header. */
    ghost predicate Valid()
      reads this
    {
      (forwarded == [] ==> numberSent == 0) &&
      (forwarded != [] ==> forwarded[|forwarded| - 1].header.number == ToInt64(numberSent)) &&
      forall i :: 0 <= i < |forwarded| ==> PostMergeHeader(forwarded[i].header)
    }

    /** `NewEthBackendServer`: an empty cache and nothing sent yet. */
    constructor (ttdConfigured: bool)
      ensures Valid()
      ensures this.ttdConfigured == ttdConfigured
      ensures pendingPayloads == map[] && numberSent == 0 && forwarded == []
    {
      this.ttdConfigured := ttdConfigured;
      pendingPayloads := map[];
      numberSent := 0;
      forwarded := [];
    }

    /** Accepts an execution payload: the checks in order, then the hand-off
        to the staged sync and the reply. */
    method EngineExecutePayloadV1(req: Option<ExecutionPayload>, db: DbView, verdict: bool, codec: Codec)
      returns (r: Result<Reply, EngineError>)
      requires Valid()
      modifies this`numberSent, this`forwarded
      ensures Valid()
      ensures var o := ExecutePayload(ttdConfigured, old(numberSent), req, db, verdict, codec);
        r == o.result && numberSent == o.numberSent &&
        forwarded == old(forwarded) + (if o.sent.Some? then [o.sent.value] else [])
      ensures pendingPayloads == old(pendingPayloads)
    {
      if !ttdConfigured {
        return Failure(NotProofOfStake);
      }
      if !db.txOpened {
        return Failure(DatabaseUnavailable);
      }
      var currentHead := db.headHash;
      if !MandatoryFieldsPresent(req) {
        return Failure(InvalidPayload);
      }
      if db.headNumber.None? {
        return Failure(HeadNumberMissing);
      }
      var headNumber := db.headNumber.value;
      var p := req.value;
      var blockHash := p.blockHash.value;
      if numberSent > headNumber {
        return Success(Reply(Syncing, currentHead));
      }
      var decoded := DecodeTransactions(codec.decodeTransaction, p.transactions.value);
      if decoded.Failure? {
        return Failure(MalformedTransaction(decoded.error));
      }
      var transactions := decoded.value;
      var header := ReconstructHeader(p, codec.deriveSha(transactions));
      var computed := codec.headerHash(header);
      if computed != blockHash {
        return Failure(HashMismatch(computed, blockHash));
      }
      numberSent := p.blockNumber;
      forwarded := forwarded + [Block(header, transactions)];
      if header.parentHash != currentHead {
        return Success(Reply(Syncing, currentHead));
      }
      if verdict {
        return Success(Reply(Status.Valid, blockHash));
      }
      return Success(Reply(Invalid, currentHead));
    }

    /** Serves a payload the node assembled earlier; changes nothing. */
    method EngineGetPayloadV1(payloadId: uint64) returns (r: Result<ExecutionPayload, EngineError>)
      ensures r == FetchPayload(ttdConfigured, pendingPayloads, payloadId)
    {
      if !ttdConfigured {
        return Failure(NotProofOfStake);
      }
      if payloadId in pendingPayloads {
        return Success(pendingPayloads[payloadId]);
      }
      return Failure(UnknownPayload);
    }
  }
}
