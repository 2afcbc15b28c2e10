/**
 * The decision logic of the HTTP transport (src/transport/http_transport.rs):
 * parse failure, the authenticated and plain paths, and the error
 * classification that drives request tracing. Routing and serving are not modelled.
 */
module Http {
  import opened Wrappers
  import opened Json
  import opened Rpc
  import opened Batch
  import opened Auth
  import opened ServerMetrics
  import Decimal

  /**
   * A JSON request body as `rpc_handler` receives it: a `BatchRequest`, or the
   * deserialiser's message when the JSON value is not one. Bodies that are not
   * JSON at all are refused by the extractor before `rpc_handler` runs.
   */
  datatype Body = Parsed(batch: BatchRequest) | Unparsable(detail: string)

  datatype HttpTransport = HttpTransport(server: RpcServer, auth: Option<AuthMiddleware>, metrics: Option<Metrics>)
  {
    /** `with_auth`: requests go through the gate from now on. */
    function WithAuth(a: AuthMiddleware): (t: HttpTransport)
      ensures t.auth == Some(a) && t.server == server && t.metrics == metrics
    {
      this.(auth := Some(a))
    }

    /** `with_metrics`: requests are traced from now on. */
    function WithMetrics(m: Metrics): (t: HttpTransport)
      ensures t.metrics == Some(m) && t.server == server && t.auth == auth
    {
      this.(metrics := Some(m))
    }
  }

  /** `HttpTransport::new`: no gate, no metrics. */
  function NewTransport(server: RpcServer): (t: HttpTransport)
    ensures t.server == server && t.auth == None && t.metrics == None
  {
    HttpTransport(server, None, None)
  }

  /** The objects an optional gate reads. */
  function AuthFrame(auth: Option<AuthMiddleware>): set<object>
  {
    if auth.Some? then {auth.value} else {}
  }

  /** Every request of a batch through the gate, one by one, in order. */
  function AuthenticateEach(handlers: Registry, auth: AuthMiddleware, rs: seq<Request>): (out: seq<Response>)
    reads auth
    ensures |out| == |rs|
    ensures forall i :: 0 <= i < |rs| ==> out[i] == HandleAuthenticatedRequest(handlers, auth, rs[i])
  {
    seq(|rs|, i requires 0 <= i < |rs| reads auth => HandleAuthenticatedRequest(handlers, auth, rs[i]))
  }

  /**
   * `handle_authenticated_batch`: the shape of the input is kept and each
   * element is authenticated on its own. There is no empty-batch check.
   */
  function HandleAuthenticatedBatch(handlers: Registry, auth: AuthMiddleware, batch: BatchRequest): (r: BatchResponse)
    reads auth
    ensures batch.Single? ==> r == BatchResponse.Single(HandleAuthenticatedRequest(handlers, auth, batch.req))
    ensures batch.Batch? ==> r.Batch? && |r.resps| == |batch.reqs|
    ensures batch.Batch? ==> forall i :: 0 <= i < |batch.reqs| ==>
      r.resps[i] == HandleAuthenticatedRequest(handlers, auth, batch.reqs[i])
  {
    match batch
    case Single(req) => BatchResponse.Single(HandleAuthenticatedRequest(handlers, auth, req))
    case Batch(requests) => BatchResponse.Batch(AuthenticateEach(handlers, auth, requests))
  }

  /**
   * Unlike `handle_batch`, the authenticated path answers an empty batch with an
   * empty batch instead of the single INVALID_REQUEST error that section 6 of
   * the JSON-RPC 2.0 specification asks for.
   */
  lemma AuthenticatedEmptyBatchDiffers(handlers: Registry, auth: AuthMiddleware)
    ensures HandleAuthenticatedBatch(handlers, auth, BatchRequest.Batch([])) == BatchResponse.Batch([])
    ensures HandleBatch(handlers, BatchRequest.Batch([])).Single?
  {
  }

  /** Whether any response in the answer carries an error. */
  predicate AnyError(rs: seq<Response>)
  {
    exists i :: 0 <= i < |rs| && rs[i].error.Some?
  }

  /** The `any` fold over a batch answer, first element first. */
  function FoldAnyError(rs: seq<Response>): (b: bool)
    ensures b <==> AnyError(rs)
  {
    if rs == [] then false
    else
      var b := rs[0].error.Some? || FoldAnyError(rs[1..]);
      assert AnyError(rs[1..]) ==> AnyError(rs) by {
        if AnyError(rs[1..]) {
          var i :| 0 <= i < |rs[1..]| && rs[1..][i].error.Some?;
          assert rs[i + 1].error.Some?;
        }
      }
      b
  }

  /** "has error": the single response, or some batch element, carries an error. */
  function HasError(resp: BatchResponse): (b: bool)
    ensures resp.Single? ==> (b <==> resp.resp.error.Some?)
    ensures resp.Batch? ==> (b <==> AnyError(resp.resps))
  {
    match resp
    case Single(r) => r.error.Some?
    case Batch(rs) => FoldAnyError(rs)
  }

  /**
   * The response `rpc_handler` sends: a parse error with a null id for a JSON
   * body that is not a request, the gate's batch handling when a gate is configured,
   * `handle_batch` otherwise.
   */
  function Respond(handlers: Registry, auth: Option<AuthMiddleware>, body: Body): (r: BatchResponse)
    reads AuthFrame(auth)
    ensures body.Unparsable? ==>
      r == BatchResponse.Single(WithError(Null, PARSE_ERROR, "Parse error: " + body.detail))
    ensures body.Parsed? && auth.None? ==> r == HandleBatch(handlers, body.batch)
    ensures body.Parsed? && auth.Some? ==> r == HandleAuthenticatedBatch(handlers, auth.value, body.batch)
  {
    match body
    case Unparsable(e) => BatchResponse.Single(WithError(Null, PARSE_ERROR, "Parse error: " + e))
    case Parsed(b) =>
      if auth.Some? then HandleAuthenticatedBatch(handlers, auth.value, b) else HandleBatch(handlers, b)
  }

  /** The name a request is traced under: its method, or `batch(n)` for n elements. */
  function TraceName(batch: BatchRequest): (name: string)
    ensures batch.Single? ==> name == batch.req.methodName
    ensures batch.Batch? ==>
      && |name| > 7 && name[..6] == "batch(" && name[|name| - 1] == ')'
      && Decimal.IsNumeral(name[6..|name| - 1])
      && Decimal.ParseDecimal(name[6..|name| - 1]) == |batch.reqs|
      && (|name| > 8 ==> name[6] != '0')
  {
    match batch
    case Single(req) => req.methodName
    case Batch(reqs) =>
      var digits := Decimal.NatToString(|reqs|);
      Decimal.ParseNatToString(|reqs|);
      var name := "batch(" + digits + ")";
      assert name[..6] == "batch(" && name[6..|name| - 1] == digits;
      name
  }

  /**
   * With ApiKeyInParams, a batch of three where only the middle request carries
   * an invalid key, and whose other two requests succeed, is answered with three
   * responses of which exactly the middle one is an error, AUTH_ERROR.
   */
  lemma MixedAuthBatch(handlers: Registry, auth: AuthMiddleware, r1: Request, r2: Request, r3: Request)
    requires auth.strategy == ApiKeyInParams
    requires ApiKey(r1.params).Some? && auth.IsValidKey(ApiKey(r1.params).value)
    requires ApiKey(r2.params).Some? && !auth.IsValidKey(ApiKey(r2.params).value)
    requires ApiKey(r3.params).Some? && auth.IsValidKey(ApiKey(r3.params).value)
    requires r1.methodName in handlers && handlers[r1.methodName](r1.params).Ok?
    requires r3.methodName in handlers && handlers[r3.methodName](r3.params).Ok?
    ensures var r := HandleAuthenticatedBatch(handlers, auth, BatchRequest.Batch([r1, r2, r3]));
      && r.Batch? && |r.resps| == 3
      && r.resps[0].error.None? && r.resps[2].error.None?
      && r.resps[1].error == Some(ErrorObj(AUTH_ERROR, "Invalid API key", None))
      && HasError(r)
  {
    var r := HandleAuthenticatedBatch(handlers, auth, BatchRequest.Batch([r1, r2, r3]));
    assert r.resps[1].error.Some?;
  }

  /** The metrics objects a transport may update. */
  function MetricsFrame(t: HttpTransport): set<object>
  {
    if t.metrics.Some? then {t.metrics.value} else {}
  }

  /** Whether tracing a body of this shape and duration `d` stays within `u64`. */
  predicate CanTrace(t: HttpTransport, body: Body, d: u64)
    reads MetricsFrame(t)
  {
    body.Parsed? && t.metrics.Some? ==> t.metrics.value.CanRecord(TraceName(body.batch), d)
  }

  /**
   * `rpc_handler`: answers the body as Respond does. When metrics are enabled
   * and the body parsed, the request is traced under its TraceName: one more
   * request, one more error if any response carries one and one more success
   * otherwise, `d` averaged in, the name counted. A parse error is not traced.
   */
  method RpcHandler(t: HttpTransport, body: Body, d: u64) returns (resp: BatchResponse)
    requires CanTrace(t, body, d)
    modifies MetricsFrame(t)
    ensures resp == old(Respond(t.server.handlers, t.auth, body))
    ensures body.Unparsable? || t.metrics.None? ==> unchanged(MetricsFrame(t))
    ensures body.Parsed? && t.metrics.Some? ==>
      var m := t.metrics.value;
      && m.totalRequests == WrappingInc(old(m.totalRequests))
      && m.totalErrors == (if HasError(resp) then WrappingInc(old(m.totalErrors)) else old(m.totalErrors))
      && m.totalSuccess == (if HasError(resp) then old(m.totalSuccess) else WrappingInc(old(m.totalSuccess)))
      && m.avgDurationUs == SmoothedAverage(old(m.avgDurationUs), d)
      && m.methodCounts == Counted(old(m.methodCounts), TraceName(body.batch))
  {
    if body.Unparsable? {
      return BatchResponse.Single(WithError(Null, PARSE_ERROR, "Parse error: " + body.detail));
    }
    var name := TraceName(body.batch);
    var tracer: RequestTracer? := null;
    if t.metrics.Some? {
      tracer := new RequestTracer(name, t.metrics.value);
    }
    if t.auth.Some? {
      resp := HandleAuthenticatedBatch(t.server.handlers, t.auth.value, body.batch);
    } else {
      resp := HandleBatch(t.server.handlers, body.batch);
    }
    if tracer != null {
      if HasError(resp) {
        tracer.Error(d, "Request returned error");
      } else {
        tracer.Success(d);
      }
    }
  }
}
