/**
 * The authentication gate (src/middleware/auth.rs): a strategy and a mutable
 * set of valid API keys, consulted per request before dispatch.
 */
module Auth {
  import opened Wrappers
  import opened Json
  import opened Rpc

  const AUTH_ERROR: int := -32001
  const AUTH_REQUIRED: int := -32002

  /** `AuthStrategy`; the source's `None` variant is `NoAuth` here. */
  datatype AuthStrategy = NoAuth | ApiKeyInParams | ApiKeyInHeader

  /** The string `api_key` member of object params, if there is one. */
  function ApiKey(params: Json): Option<string>
  {
    if params.Object? then GetStr(params, "api_key") else None
  }

  const KEY_REQUIRED: ErrorObj := ErrorObj(AUTH_REQUIRED, "API key required in params", None)
  const KEY_INVALID: ErrorObj := ErrorObj(AUTH_ERROR, "Invalid API key", None)

  class AuthMiddleware {
    const strategy: AuthStrategy
    var validKeys: set<string>

    /** `AuthMiddleware::new`: no key is valid yet. */
    constructor (strategy: AuthStrategy)
      ensures this.strategy == strategy && validKeys == {}
    {
      this.strategy := strategy;
      validKeys := {};
    }

    /** `is_valid_key`. */
    predicate IsValidKey(key: string): (b: bool)
      reads this
      ensures b <==> key in validKeys
    {
      key in validKeys
    }

    /** `add_key`: the key becomes valid, no other key changes. */
    method AddKey(key: string)
      modifies this
      ensures IsValidKey(key)
      ensures forall k :: k != key ==> (IsValidKey(k) <==> old(IsValidKey(k)))
      ensures validKeys == old(validKeys) + {key}
    {
      validKeys := validKeys + {key};
    }

    /** `remove_key`: the key stops being valid, no other key changes. */
    method RemoveKey(key: string)
      modifies this
      ensures !IsValidKey(key)
      ensures forall k :: k != key ==> (IsValidKey(k) <==> old(IsValidKey(k)))
      ensures validKeys == old(validKeys) - {key}
    {
      validKeys := validKeys - {key};
    }

    /**
     * `validate_params_key`: non-object params, or an object without a string
     * `api_key`, need a key (AUTH_REQUIRED); a key outside the set is refused
     * (AUTH_ERROR); a key in the set passes.
     */
    function ValidateParamsKey(req: Request): (r: Result<(), ErrorObj>)
      reads this
      ensures r.Ok? <==> ApiKey(req.params).Some? && IsValidKey(ApiKey(req.params).value)
      ensures r.Err? && ApiKey(req.params).None? ==> r.error == KEY_REQUIRED
      ensures r.Err? && ApiKey(req.params).Some? ==> r.error == KEY_INVALID
    {
      var key :- match req.params
        case Object(m) =>
          (match GetStr(req.params, "api_key")
           case Some(k) => Ok(k)
           case None => Err(KEY_REQUIRED))
        case _ => Err(KEY_REQUIRED);
      if IsValidKey(key) then Ok(()) else Err(KEY_INVALID)
    }

    /**
     * `validate_request`: only ApiKeyInParams checks anything here; header keys
     * are left to the transport.
     */
    function ValidateRequest(req: Request): (r: Result<(), ErrorObj>)
      reads this
      ensures r.Ok? <==>
        strategy != ApiKeyInParams || (ApiKey(req.params).Some? && IsValidKey(ApiKey(req.params).value))
      ensures r.Err? && ApiKey(req.params).None? ==> r.error == KEY_REQUIRED
      ensures r.Err? && ApiKey(req.params).Some? ==> r.error == KEY_INVALID
    {
      match strategy
      case NoAuth => Ok(())
      case ApiKeyInParams => ValidateParamsKey(req)
      case ApiKeyInHeader => Ok(())
    }

    /** `auth_error_response`: an AUTH_ERROR response with the given message. */
    static function AuthErrorResponse(id: Json, message: string): (r: Response)
      ensures r.WellFormed() && r.id == id && r.Outcome() == Err(ErrorObj(AUTH_ERROR, message, None))
      ensures r.jsonrpc == JSONRPC_VERSION
    {
      WithError(id, AUTH_ERROR, message)
    }
  }

  /**
   * `handle_authenticated_request`: a request the gate refuses is answered with
   * the gate's error under the request id; any other is dispatched.
   */
  function HandleAuthenticatedRequest(handlers: Registry, auth: AuthMiddleware, req: Request): (r: Response)
    reads auth
    ensures auth.ValidateRequest(req).Err? ==>
      r == WithError(req.id, auth.ValidateRequest(req).error.code, auth.ValidateRequest(req).error.message)
    ensures auth.ValidateRequest(req).Ok? ==> r == HandleRequest(handlers, req)
  {
    match auth.ValidateRequest(req)
    case Err(err) => WithError(req.id, err.code, err.message)
    case Ok(_) => HandleRequest(handlers, req)
  }

  /** A refused request reaches no handler: its answer is the same whatever is registered. */
  lemma RefusedRequestIgnoresHandlers(h1: Registry, h2: Registry, auth: AuthMiddleware, req: Request)
    requires auth.ValidateRequest(req).Err?
    ensures HandleAuthenticatedRequest(h1, auth, req) == HandleAuthenticatedRequest(h2, auth, req)
    ensures HandleAuthenticatedRequest(h1, auth, req).error.Some?
  {
  }

  /** Under NoAuth and ApiKeyInHeader the gate is transparent. */
  lemma OpenStrategiesDispatch(handlers: Registry, auth: AuthMiddleware, req: Request)
    requires auth.strategy != ApiKeyInParams
    ensures HandleAuthenticatedRequest(handlers, auth, req) == HandleRequest(handlers, req)
  {
  }

  /**
   * With ApiKeyInParams and keys {"test-key"}, `{"method":"ping","params":{},"id":1}`
   * is refused with AUTH_REQUIRED and id 1.
   */
  lemma MissingKeyScenario(handlers: Registry, auth: AuthMiddleware)
    requires auth.strategy == ApiKeyInParams && auth.validKeys == {"test-key"}
    ensures var r := HandleAuthenticatedRequest(handlers, auth, Request("2.0", "ping", Object(map[]), Number(1)));
      r.id == Number(1) && r.error.Some? && r.error.value.code == AUTH_REQUIRED
  {
  }
}
