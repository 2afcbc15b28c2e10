/**
 * The JSON-RPC 2.0 message model, the handler registry and the dispatcher
 * (src/rpc/rpc.rs).
 */
module Rpc {
  import opened Wrappers
  import opened Json
  import Decimal

  const JSONRPC_VERSION: string := "2.0"

  /**
   * Error codes. METHOD_NOT_FOUND is -32602 as in the source, the same value as
   * INVALID_PARAMS; section 5.1 of the JSON-RPC 2.0 specification gives -32601.
   */
  const METHOD_NOT_FOUND: int := -32602
  const INVALID_PARAMS: int := -32602
  /** Used as literals by the batch coordinator and the HTTP transport. */
  const INVALID_REQUEST: int := -32600
  const PARSE_ERROR: int := -32700

  datatype Request = Request(jsonrpc: string, methodName: string, params: Json, id: Json)

  datatype ErrorObj = ErrorObj(code: int, message: string, data: Option<Json>)

  datatype Response = Response(jsonrpc: string, result: Option<Json>, error: Option<ErrorObj>, id: Json)
  {
    /** Exactly one of `result` and `error` is present. */
    predicate WellFormed()
    {
      result.Some? != error.Some?
    }

    /** What a well-formed response reports: its result or its error. */
    function Outcome(): Result<Json, ErrorObj>
      requires WellFormed()
    {
      if result.Some? then Ok(result.value) else Err(error.value)
    }
  }

  /** A registered handler: params in, a result or an error object out. */
  type Handler = Json -> Result<Json, ErrorObj>

  type Registry = map<string, Handler>

  /** `RpcResponse::with_result`: a version-2.0 success response echoing `id`. */
  function WithResult(id: Json, res: Json): (r: Response)
    ensures r.WellFormed() && r.Outcome() == Ok(res)
    ensures r.jsonrpc == JSONRPC_VERSION && r.id == id
  {
    Response(JSONRPC_VERSION, Some(res), None, id)
  }

  /** `RpcResponse::with_error`: a version-2.0 error response without `data`, echoing `id`. */
  function WithError(id: Json, code: int, message: string): (r: Response)
    ensures r.WellFormed() && r.Outcome() == Err(ErrorObj(code, message, None))
    ensures r.jsonrpc == JSONRPC_VERSION && r.id == id
  {
    Response(JSONRPC_VERSION, None, Some(ErrorObj(code, message, None)), id)
  }

  /** A handler's outcome as the dispatcher reports it: the error's `data` is dropped. */
  function WithoutData(res: Result<Json, ErrorObj>): Result<Json, ErrorObj>
  {
    match res
    case Ok(v) => Ok(v)
    case Err(e) => Err(ErrorObj(e.code, e.message, None))
  }

  /**
   * `RpcServer::handle_request` on a snapshot of the registry: an unregistered
   * method gives METHOD_NOT_FOUND naming the method; a registered one gives its
   * handler's outcome on the params. The response always echoes the request id.
   */
  function HandleRequest(handlers: Registry, req: Request): (r: Response)
    ensures r.WellFormed() && r.jsonrpc == JSONRPC_VERSION && r.id == req.id
    ensures req.methodName !in handlers ==>
      r.Outcome() == Err(ErrorObj(METHOD_NOT_FOUND, "Method not found: " + req.methodName, None))
    ensures req.methodName in handlers ==>
      r.Outcome() == WithoutData(handlers[req.methodName](req.params))
  {
    var id := req.id;
    if req.methodName in handlers then
      match handlers[req.methodName](req.params)
      case Ok(res) => WithResult(id, res)
      case Err(err) => WithError(id, err.code, err.message)
    else
      WithError(id, METHOD_NOT_FOUND, "Method not found: " + req.methodName)
  }

  /**
   * Only the registry entry of the request's method matters: registries that
   * agree on it answer every request with that method alike.
   */
  lemma HandleRequestLocal(h1: Registry, h2: Registry, req: Request)
    requires req.methodName in h1 <==> req.methodName in h2
    requires req.methodName in h1 ==> h1[req.methodName] == h2[req.methodName]
    ensures HandleRequest(h1, req) == HandleRequest(h2, req)
  {
  }

  /**
   * The shared code: a client cannot tell an unknown method from a handler's
   * INVALID_PARAMS error by the code.
   */
  lemma MethodNotFoundIsInvalidParams(handlers: Registry, req: Request)
    requires req.methodName !in handlers
    ensures HandleRequest(handlers, req).error.value.code == INVALID_PARAMS
  {
  }

  /** The handler registry; `register` inserts or replaces one entry. */
  class RpcServer {
    var handlers: Registry

    constructor ()
      ensures handlers == map[]
    {
      handlers := map[];
    }

    /** `RpcServer::register`: last registration under a name wins, other names are untouched. */
    method Register(name: string, f: Handler)
      modifies this
      ensures name in handlers && handlers[name] == f
      ensures forall m :: m != name ==>
        (m in handlers <==> m in old(handlers)) && (m in handlers ==> handlers[m] == old(handlers)[m])
      ensures handlers.Keys == old(handlers.Keys) + {name}
    {
      handlers := handlers[name := f];
    }
  }

  /** Default `ping`: "pong" whatever the params. */
  function Ping(params: Json): (r: Result<Json, ErrorObj>)
    ensures r == Ok(String("pong"))
  {
    Ok(String("pong"))
  }

  /**
   * Default `get_balance`: the decimal string of `len(address) * 12345` for a
   * non-empty string `address` in object params, INVALID_PARAMS otherwise.
   */
  function DefaultGetBalance(params: Json): (r: Result<Json, ErrorObj>)
    ensures r.Ok? <==> params.Object? && GetStr(params, "address").Some? && GetStr(params, "address").value != ""
    ensures r.Ok? ==> r.value.String? && Decimal.IsNumeral(r.value.s) &&
                      Decimal.ParseDecimal(r.value.s) == |GetStr(params, "address").value| * 12345
    ensures r.Ok? ==> |r.value.s| > 1 ==> r.value.s[0] != '0'
    ensures r.Err? ==> r.error == ErrorObj(INVALID_PARAMS, "Missing 'address' param", None)
  {
    var address := if params.Object? then
      (match GetStr(params, "address") case Some(a) => a case None => "")
    else "";
    if address == "" then
      Err(ErrorObj(INVALID_PARAMS, "Missing 'address' param", None))
    else
      var bal := |address| * 12345;
      Decimal.ParseNatToString(bal);
      Ok(String(Decimal.NatToString(bal)))
  }

  /**
   * The default `send_tx` handler, given the fresh transaction id it would draw:
   * that id for a non-empty string `raw_tx` in object params, INVALID_PARAMS otherwise.
   */
  function SendTxReply(txid: string, params: Json): (r: Result<Json, ErrorObj>)
    ensures r.Ok? <==> params.Object? && GetStr(params, "raw_tx").Some? && GetStr(params, "raw_tx").value != ""
    ensures r.Ok? ==> r.value == String(txid)
    ensures r.Err? ==> r.error == ErrorObj(INVALID_PARAMS, "Missing 'raw_tx' param", None)
  {
    var raw := if params.Object? then
      (match GetStr(params, "raw_tx") case Some(a) => a case None => "")
    else "";
    if raw == "" then Err(ErrorObj(INVALID_PARAMS, "Missing 'raw_tx' param", None))
    else Ok(String(txid))
  }

  /** `register_default_handlers`, without `send_tx`. */
  method RegisterDefaultHandlers(server: RpcServer)
    modifies server
    ensures server.handlers == old(server.handlers)["ping" := Ping]["get_balance" := DefaultGetBalance]
  {
    server.Register("ping", Ping);
    server.Register("get_balance", DefaultGetBalance);
  }

  /**
   * With the default handlers, `{"jsonrpc":"2.0","method":"ping","params":{},"id":1}`
   * is answered `{"jsonrpc":"2.0","result":"pong","error":null,"id":1}`.
   */
  lemma PingScenario(handlers: Registry)
    requires "ping" in handlers && handlers["ping"] == Ping
    ensures HandleRequest(handlers, Request("2.0", "ping", Object(map[]), Number(1)))
         == Response("2.0", Some(String("pong")), None, Number(1))
  {
  }

  /** Registering twice under one name leaves only the second handler reachable. */
  lemma ReRegisterReplaces(h: Registry, m: string, f1: Handler, f2: Handler, req: Request)
    requires req.methodName == m
    ensures HandleRequest(h[m := f1][m := f2], req) == HandleRequest(map[m := f2], req)
  {
  }
}
