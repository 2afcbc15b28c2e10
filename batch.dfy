/**
 * Single-versus-batch requests and the batch coordinator (src/util/batch.rs),
 * following section 6 of the JSON-RPC 2.0 specification.
 */
module Batch {
  import opened Wrappers
  import opened Json
  import opened Rpc

  datatype BatchRequest = Single(req: Request) | Batch(reqs: seq<Request>)

  datatype BatchResponse = Single(resp: Response) | Batch(resps: seq<Response>)

  /** `BatchRequest::is_batch`. */
  predicate IsBatch(b: BatchRequest): (r: bool)
    ensures r <==> !b.Single?
  {
    b.Batch?
  }

  /** `BatchRequest::len`: one for a single request, the element count for a batch. */
  function Len(b: BatchRequest): (n: nat)
    ensures n == 0 ==> IsBatch(b)
    ensures IsBatch(b) ==> n == |b.reqs|
    ensures !IsBatch(b) ==> n == 1
  {
    match b
    case Single(_) => 1
    case Batch(v) => |v|
  }

  /** `BatchRequest::is_empty`: `len() == 0`, so only the empty batch is empty and a single request never is. */
  predicate IsEmpty(b: BatchRequest): (r: bool)
    ensures r <==> b == BatchRequest.Batch([])
  {
    Len(b) == 0
  }

  /** The answer to an empty batch. */
  function EmptyBatchResponse(): Response
  {
    WithError(Null, INVALID_REQUEST, "Invalid Request: empty batch")
  }

  /**
   * `RpcServer::handle_batch`: a single request is dispatched and answered
   * singly; an empty batch gets one INVALID_REQUEST error with a null id; a
   * non-empty batch gets one response per request, in request order.
   */
  function HandleBatch(handlers: Registry, batch: BatchRequest): (r: BatchResponse)
    ensures batch.Single? ==> r == BatchResponse.Single(HandleRequest(handlers, batch.req))
    ensures batch == BatchRequest.Batch([]) ==> r == BatchResponse.Single(EmptyBatchResponse())
    ensures batch.Batch? && batch.reqs != [] ==>
      && r.Batch? && |r.resps| == |batch.reqs|
      && forall i :: 0 <= i < |batch.reqs| ==> r.resps[i] == HandleRequest(handlers, batch.reqs[i])
  {
    match batch
    case Single(req) => BatchResponse.Single(HandleRequest(handlers, req))
    case Batch(requests) =>
      if requests == [] then BatchResponse.Single(EmptyBatchResponse())
      else BatchResponse.Batch(seq(|requests|, i requires 0 <= i < |requests| => HandleRequest(handlers, requests[i])))
  }

  /** The output has the input's shape, except that an empty batch is answered singly. */
  lemma HandleBatchShape(handlers: Registry, batch: BatchRequest)
    ensures HandleBatch(handlers, batch).Single? <==> batch.Single? || batch == BatchRequest.Batch([])
    ensures HandleBatch(handlers, batch).Batch? ==> |HandleBatch(handlers, batch).resps| == Len(batch)
  {
  }

  /** The empty batch's answer: null id, INVALID_REQUEST, no result. */
  lemma EmptyBatchAnswer(handlers: Registry)
    ensures var r := HandleBatch(handlers, BatchRequest.Batch([]));
      && r.Single? && r.resp.id == Null && r.resp.result == None
      && r.resp.error == Some(ErrorObj(-32600, "Invalid Request: empty batch", None))
  {
  }

  /** Every response in the answer has exactly one of result and error. */
  lemma HandleBatchWellFormed(handlers: Registry, batch: BatchRequest)
    ensures var r := HandleBatch(handlers, batch);
      && (r.Single? ==> r.resp.WellFormed())
      && (r.Batch? ==> forall i :: 0 <= i < |r.resps| ==> r.resps[i].WellFormed())
  {
  }

  /**
   * No short-circuit: a response depends on its own request only, so siblings,
   * failing or not, never change it.
   */
  lemma BatchSiblingsIndependent(handlers: Registry, rs1: seq<Request>, rs2: seq<Request>, i: nat, j: nat)
    requires i < |rs1| && j < |rs2| && rs1[i] == rs2[j]
    ensures HandleBatch(handlers, BatchRequest.Batch(rs1)).resps[i]
         == HandleBatch(handlers, BatchRequest.Batch(rs2)).resps[j]
  {
  }
}
