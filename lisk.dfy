/** The ledger client's request and the post-processing of its response (Lisk.swift). */
module Lisk {
  import opened Wrappers

  /** A ledger transfer as the Lisk API reports it (`struct Transaction`). */
  datatype Transaction = Transaction(id: string, timestamp: int, senderId: string,
                                     recipientId: Option<string>, amount: int, fee: int)

  /** The Lisk network epoch, 2016-05-24 17:00:00 UTC, in seconds since 1970. */
  const LiskEpoch: int := 1464109200

  /** The API's base path and the transactions endpoint. */
  const BasePath: string := "http://node08.lisk.io:8000/api"
  const TransactionsPath: string := BasePath + "/transactions"

  /** The request timeout, in seconds. */
  const RequestTimeout: int := 10

  /** `Lisk.err`: the one error this client raises itself, and its description. */
  datatype LiskError = InvalidTransactions

  function ErrorDescription(e: LiskError): (description: Option<string>)
    ensures description == Some("Could not find the transactions.")
  {
    match e
    case InvalidTransactions => Some("Could not find the transactions.")
  }

  /** Every way fetching transactions can fail: the transport, the JSON decoder, or the client's own check. */
  datatype FetchError = TransportFailure | MalformedBody | Rejected(reason: LiskError)

  datatype HttpMethod = Get | Post

  /** The parts of a `URLRequest` the client sets. */
  datatype Request = Request(path: string, httpMethod: HttpMethod, params: map<string, string>, timeout: int)

  /** The request built by `transactions(senderId:recipientId:)`. */
  function TransactionsRequest(senderId: string, recipientId: string): (r: Request)
    ensures r.path == TransactionsPath && r.httpMethod == Get && r.timeout == RequestTimeout
    ensures r.params.Keys == {"senderId", "recipientId"}
    ensures r.params["senderId"] == senderId && r.params["recipientId"] == recipientId
  {
    Request(TransactionsPath, Get, map["senderId" := senderId, "recipientId" := recipientId], RequestTimeout)
  }

  /** The response body as the JSON decoder produces it (the local `struct Result`). */
  datatype ResponseBody = ResponseBody(success: bool, transactions: Option<seq<Transaction>>)

  /** Converts one transfer's timestamp from network time to Unix time. */
  function ToUnixTime(tx: Transaction): Transaction {
    tx.(timestamp := tx.timestamp + LiskEpoch)
  }

  /** Converts one transfer's timestamp from Unix time back to network time. */
  function ToNetworkTime(tx: Transaction): Transaction {
    tx.(timestamp := tx.timestamp - LiskEpoch)
  }

  /** `out` is `original` with its timestamp moved from network time to Unix time, every other field kept. */
  predicate ShiftedFrom(out: Transaction, original: Transaction) {
    && out.id == original.id
    && out.timestamp == original.timestamp + LiskEpoch
    && out.senderId == original.senderId
    && out.recipientId == original.recipientId
    && out.amount == original.amount
    && out.fee == original.fee
  }

  /** The element-wise map of `decode(transactions:)`. */
  function ShiftAll(txs: seq<Transaction>): (out: seq<Transaction>)
    ensures |out| == |txs|
    ensures forall i :: 0 <= i < |txs| ==> ShiftedFrom(out[i], txs[i])
  {
    if txs == [] then [] else [ToUnixTime(txs[0])] + ShiftAll(txs[1..])
  }

  /** The inverse of `ShiftAll`. */
  function UnshiftAll(txs: seq<Transaction>): (out: seq<Transaction>)
    ensures |out| == |txs|
  {
    if txs == [] then [] else [ToNetworkTime(txs[0])] + UnshiftAll(txs[1..])
  }

  /**
   * `decode(transactions:)` after JSON decoding: a missing list is an error;
   * otherwise every timestamp is shifted by the network epoch. The
   * `success` flag is decoded but never looked at.
   */
  function Decode(body: ResponseBody): (r: Result<seq<Transaction>, LiskError>)
    ensures body.transactions.None? <==> r == Failure(InvalidTransactions)
    ensures body.transactions.Some? ==>
              && r.Success?
              && |r.value| == |body.transactions.value|
              && forall i :: 0 <= i < |r.value| ==> ShiftedFrom(r.value[i], body.transactions.value[i])
  {
    match body.transactions
    case None => Failure(InvalidTransactions)
    case Some(txs) => Success(ShiftAll(txs))
  }

  /** The decoded list determines the ledger's list: shifting back recovers it exactly. */
  lemma {:induction false} UnshiftShiftAll(txs: seq<Transaction>)
    ensures UnshiftAll(ShiftAll(txs)) == txs
  {
    if txs != [] {
      UnshiftShiftAll(txs[1..]);
      assert ShiftAll(txs)[1..] == ShiftAll(txs[1..]);
    }
  }

  lemma DecodeRecoversLedgerList(success: bool, txs: seq<Transaction>)
    ensures Decode(ResponseBody(success, Some(txs))).Success?
    ensures UnshiftAll(Decode(ResponseBody(success, Some(txs))).value) == txs
  {
    UnshiftShiftAll(txs);
  }

  /** The `success` flag is not consulted: a present list decodes the same either way, even when it is false. */
  lemma DecodeIgnoresSuccess(txs: seq<Transaction>)
    ensures Decode(ResponseBody(false, Some(txs))) == Decode(ResponseBody(true, Some(txs)))
    ensures Decode(ResponseBody(false, Some(txs))).Success?
  {
  }

  /**
   * `transactions(senderId:recipientId:)`: build the request, let the
   * transport answer it (`respond` stands for URLSession and the JSON
   * decoder), then post-process the body.
   */
  function Transactions(senderId: string, recipientId: string,
                        respond: Request -> Result<ResponseBody, FetchError>): (r: Result<seq<Transaction>, FetchError>)
    ensures var response := respond(TransactionsRequest(senderId, recipientId));
            && (r.Success? <==> response.Success? && response.value.transactions.Some?)
            && (response.Failure? ==> r == Failure(response.error))
            && (response.Success? && response.value.transactions.None? ==> r == Failure(Rejected(InvalidTransactions)))
            && (r.Success? ==>
                  && |r.value| == |response.value.transactions.value|
                  && forall i :: 0 <= i < |r.value| ==> ShiftedFrom(r.value[i], response.value.transactions.value[i]))
  {
    match respond(TransactionsRequest(senderId, recipientId))
    case Failure(e) => Failure(e)
    case Success(body) =>
      match Decode(body)
      case Failure(e) => Failure(Rejected(e))
      case Success(txs) => Success(txs)
  }
}
