/** What the payload handler promises, proved of its step-by-step definition
    `EthBackend.ExecutePayload` for all inputs. */
module EthBackendProperties {
  import opened Common
  import opened Header
  import opened EthBackend

  /** Every encoded transaction decodes. */
  predicate AllDecode(decode: seq<byte> -> Result<Transaction, DecodeError>, encoded: seq<seq<byte>>)
  {
    forall i :: 0 <= i < |encoded| ==> decode(encoded[i]).Success?
  }

  /** The decoded transactions, each from its own encoding, in order. */
  function DecodedEach(decode: seq<byte> -> Result<Transaction, DecodeError>, encoded: seq<seq<byte>>)
    : seq<Transaction>
    requires AllDecode(decode, encoded)
  {
    seq(|encoded|, i requires 0 <= i < |encoded| => decode(encoded[i]).value)
  }

  /** The decode loop succeeds exactly when every transaction decodes, and
      then yields each decoded transaction at its own position. */
  lemma DecodeAllMatchesEach(decode: seq<byte> -> Result<Transaction, DecodeError>, encoded: seq<seq<byte>>)
    ensures DecodeAll(decode, encoded).Success? <==> AllDecode(decode, encoded)
    ensures AllDecode(decode, encoded) ==> DecodeAll(decode, encoded) == Success(DecodedEach(decode, encoded))
  {
    if AllDecode(decode, encoded) {
      var r := DecodeAll(decode, encoded);
      assert r.value == DecodedEach(decode, encoded);
    }
  }

  /** The payload passes every check of the handler: proof of stake, an open
      database transaction, the mandatory fields, a known head number, no
      payload in flight beyond the head, every transaction decodes, and the
      rebuilt header hashes to the declared block hash. */
  predicate Admitted(ttdConfigured: bool, numberSent: uint64, req: Option<ExecutionPayload>, db: DbView, codec: Codec)
  {
    ttdConfigured && db.txOpened && MandatoryFieldsPresent(req) &&
    db.headNumber.Some? && numberSent <= db.headNumber.value &&
    AllDecode(codec.decodeTransaction, req.value.transactions.value) &&
    var txs := DecodedEach(codec.decodeTransaction, req.value.transactions.value);
    codec.headerHash(ReconstructHeader(req.value, codec.deriveSha(txs))) == req.value.blockHash.value
  }

  /** No proof-of-stake configuration: the handler fails before any other
      check, whatever the request, and changes nothing. */
  lemma NotProofOfStakeComesFirst(numberSent: uint64, req: Option<ExecutionPayload>, db: DbView, verdict: bool, codec: Codec)
    ensures ExecutePayload(false, numberSent, req, db, verdict, codec) == Outcome(Failure(NotProofOfStake), numberSent, None)
  {
  }

  /** A missing request or mandatory field: "invalid execution payload",
      `numberSent` unchanged, nothing sent. */
  lemma MissingFieldRejected(numberSent: uint64, req: Option<ExecutionPayload>, db: DbView, verdict: bool, codec: Codec)
    requires db.txOpened && !MandatoryFieldsPresent(req)
    ensures ExecutePayload(true, numberSent, req, db, verdict, codec) == Outcome(Failure(InvalidPayload), numberSent, None)
  {
  }

  /** A complete payload whose head number cannot be read fails, changing nothing. */
  lemma MissingHeadNumberRejected(numberSent: uint64, req: Option<ExecutionPayload>, db: DbView, verdict: bool, codec: Codec)
    requires db.txOpened && MandatoryFieldsPresent(req) && db.headNumber.None?
    ensures ExecutePayload(true, numberSent, req, db, verdict, codec) == Outcome(Failure(HeadNumberMissing), numberSent, None)
  {
  }

  /** With a block in flight beyond the head, the reply is SYNCING at the
      current head; nothing is sent, `numberSent` stays, and the reply does not
      depend on the codec nor on the verdict: no transaction is decoded and no
      hash is checked. */
  lemma InFlightGate(numberSent: uint64, req: Option<ExecutionPayload>, db: DbView, verdict: bool,
                     codec: Codec, otherVerdict: bool, otherCodec: Codec)
    requires db.txOpened && MandatoryFieldsPresent(req) && db.headNumber.Some?
    requires numberSent > db.headNumber.value
    ensures ExecutePayload(true, numberSent, req, db, verdict, codec) ==
            Outcome(Success(Reply(Syncing, db.headHash)), numberSent, None)
    ensures ExecutePayload(true, numberSent, req, db, verdict, codec) ==
            ExecutePayload(true, numberSent, req, db, otherVerdict, otherCodec)
  {
  }

  /** A transaction that fails to decode: the error of the first such
      transaction, `numberSent` unchanged, nothing sent. */
  lemma MalformedTransactionRejected(numberSent: uint64, req: Option<ExecutionPayload>, db: DbView,
                                     verdict: bool, codec: Codec, k: nat)
    requires db.txOpened && MandatoryFieldsPresent(req) && db.headNumber.Some?
    requires numberSent <= db.headNumber.value
    requires k < |req.value.transactions.value|
    requires codec.decodeTransaction(req.value.transactions.value[k]).Failure?
    requires forall j :: 0 <= j < k ==> codec.decodeTransaction(req.value.transactions.value[j]).Success?
    ensures ExecutePayload(true, numberSent, req, db, verdict, codec) ==
            Outcome(Failure(MalformedTransaction(codec.decodeTransaction(req.value.transactions.value[k]).error)), numberSent, None)
  {
  }

  /** A rebuilt header whose hash is not the declared block hash: a hash
      mismatch error carrying both hashes, `numberSent` unchanged, nothing sent. */
  lemma HashMismatchRejected(numberSent: uint64, req: Option<ExecutionPayload>, db: DbView, verdict: bool, codec: Codec)
    requires db.txOpened && MandatoryFieldsPresent(req) && db.headNumber.Some?
    requires numberSent <= db.headNumber.value
    requires AllDecode(codec.decodeTransaction, req.value.transactions.value)
    requires var txs := DecodedEach(codec.decodeTransaction, req.value.transactions.value);
      codec.headerHash(ReconstructHeader(req.value, codec.deriveSha(txs))) != req.value.blockHash.value
    ensures var txs := DecodedEach(codec.decodeTransaction, req.value.transactions.value);
      var computed := codec.headerHash(ReconstructHeader(req.value, codec.deriveSha(txs)));
      ExecutePayload(true, numberSent, req, db, verdict, codec) ==
      Outcome(Failure(HashMismatch(computed, req.value.blockHash.value)), numberSent, None)
  {
    DecodeAllMatchesEach(codec.decodeTransaction, req.value.transactions.value);
  }

  /** Every error leaves `numberSent` as it was and sends nothing. */
  lemma ErrorsChangeNothing(ttdConfigured: bool, numberSent: uint64, req: Option<ExecutionPayload>, db: DbView,
                            verdict: bool, codec: Codec)
    ensures var o := ExecutePayload(ttdConfigured, numberSent, req, db, verdict, codec);
      o.result.Failure? ==> o.numberSent == numberSent && o.sent == None
  {
  }

  /** A block is sent to the staged sync exactly when the payload passes every
      check; then exactly that block is sent: the rebuilt header (whose hash is
      the declared one) with the decoded transactions in order, and
      `numberSent` becomes the payload's block number. Otherwise `numberSent`
      stays. */
  lemma ForwardedExactlyWhenAdmitted(ttdConfigured: bool, numberSent: uint64, req: Option<ExecutionPayload>,
                                     db: DbView, verdict: bool, codec: Codec)
    ensures var o := ExecutePayload(ttdConfigured, numberSent, req, db, verdict, codec);
      o.sent.Some? <==> Admitted(ttdConfigured, numberSent, req, db, codec)
    ensures var o := ExecutePayload(ttdConfigured, numberSent, req, db, verdict, codec);
      Admitted(ttdConfigured, numberSent, req, db, codec) ==>
        var p := req.value;
        var txs := DecodedEach(codec.decodeTransaction, p.transactions.value);
        var header := ReconstructHeader(p, codec.deriveSha(txs));
        o.sent == Some(Block(header, txs)) && o.numberSent == p.blockNumber &&
        o.result.Success? && codec.headerHash(o.sent.value.header) == p.blockHash.value
    ensures var o := ExecutePayload(ttdConfigured, numberSent, req, db, verdict, codec);
      !Admitted(ttdConfigured, numberSent, req, db, codec) ==> o.numberSent == numberSent
  {
    if ttdConfigured && db.txOpened && MandatoryFieldsPresent(req) {
      DecodeAllMatchesEach(codec.decodeTransaction, req.value.transactions.value);
    }
  }

  /** The reply after the block was sent: SYNCING at the current head when the
      block's parent is not the head; otherwise VALID at the block's own hash
      on a valid verdict and INVALID at the current head on an invalid one. */
  lemma VerdictMapping(ttdConfigured: bool, numberSent: uint64, req: Option<ExecutionPayload>, db: DbView,
                       verdict: bool, codec: Codec)
    requires Admitted(ttdConfigured, numberSent, req, db, codec)
    ensures var o := ExecutePayload(ttdConfigured, numberSent, req, db, verdict, codec);
      var parent := req.value.parentHash.value;
      var blockHash := req.value.blockHash.value;
      o.result == Success(
        if parent != db.headHash then Reply(Syncing, db.headHash)
        else if verdict then Reply(Valid, blockHash)
        else Reply(Invalid, db.headHash))
  {
    ForwardedExactlyWhenAdmitted(ttdConfigured, numberSent, req, db, verdict, codec);
  }

  /** The verdict is read only when the block was sent and extends the
      current head: on every other path the outcome is the same for either
      verdict. */
  lemma VerdictReadOnlyWhenContiguous(ttdConfigured: bool, numberSent: uint64, req: Option<ExecutionPayload>,
                                      db: DbView, codec: Codec)
    requires !Admitted(ttdConfigured, numberSent, req, db, codec) || req.value.parentHash.value != db.headHash
    ensures ExecutePayload(ttdConfigured, numberSent, req, db, true, codec) ==
            ExecutePayload(ttdConfigured, numberSent, req, db, false, codec)
  {
    ForwardedExactlyWhenAdmitted(ttdConfigured, numberSent, req, db, true, codec);
    ForwardedExactlyWhenAdmitted(ttdConfigured, numberSent, req, db, false, codec);
  }

  /** The in-flight gate compares strictly: a head number equal to
      `numberSent` lets an otherwise admissible payload through. */
  lemma GateAdmitsEqualNumber(numberSent: uint64, req: Option<ExecutionPayload>, db: DbView, verdict: bool, codec: Codec)
    requires db.txOpened && MandatoryFieldsPresent(req) && db.headNumber == Some(numberSent)
    requires AllDecode(codec.decodeTransaction, req.value.transactions.value)
    requires var txs := DecodedEach(codec.decodeTransaction, req.value.transactions.value);
      codec.headerHash(ReconstructHeader(req.value, codec.deriveSha(txs))) == req.value.blockHash.value
    ensures ExecutePayload(true, numberSent, req, db, verdict, codec).sent.Some?
  {
    ForwardedExactlyWhenAdmitted(true, numberSent, req, db, verdict, codec);
  }

  /** One payload in flight: after a block numbered N was sent, every later
      submission, while the head is still below N, is answered SYNCING at the
      head or with an error, sends nothing, and leaves `numberSent` at N. */
  lemma OneBlockInFlight(numberSent: uint64, reqA: Option<ExecutionPayload>, dbA: DbView, verdictA: bool, codecA: Codec,
                         reqB: Option<ExecutionPayload>, dbB: DbView, verdictB: bool, codecB: Codec)
    requires ExecutePayload(true, numberSent, reqA, dbA, verdictA, codecA).sent.Some?
    requires dbB.headNumber.Some? && dbB.headNumber.value < reqA.value.blockNumber
    ensures var a := ExecutePayload(true, numberSent, reqA, dbA, verdictA, codecA);
      var b := ExecutePayload(true, a.numberSent, reqB, dbB, verdictB, codecB);
      a.numberSent == reqA.value.blockNumber && b.numberSent == a.numberSent && b.sent == None &&
      (b.result.Failure? || b.result == Success(Reply(Syncing, dbB.headHash)))
  {
  }

  /** A payload put in the cache under an id is what fetching that id
      returns afterwards; the entries under other ids are served as before. */
  lemma FetchAfterStore(pending: map<uint64, ExecutionPayload>, id: uint64, p: ExecutionPayload, other: uint64)
    requires other != id
    ensures FetchPayload(true, pending[id := p], id) == Success(p)
    ensures FetchPayload(true, pending[id := p], other) == FetchPayload(true, pending, other)
  {
  }
}
