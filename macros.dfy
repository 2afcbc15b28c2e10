/** The `OptionExt` helpers of src/macros.rs: turning a missing value into an RPC error object. */
module Macros {
  import opened Wrappers
  import opened Rpc

  /** `Result::ok()`: forgets the error. */
  function ToOption<T, E>(r: Result<T, E>): Option<T>
  {
    match r
    case Ok(v) => Some(v)
    case Err(_) => None
  }

  /** `ok_or_rpc_error(code, msg)`: a present value passes through, a missing one becomes that error. */
  function OkOrRpcError<T>(o: Option<T>, code: int, msg: string): (r: Result<T, ErrorObj>)
    ensures ToOption(r) == o
    ensures r.Err? ==> r.error == ErrorObj(code, msg, None)
  {
    match o
    case Some(x) => Ok(x)
    case None => Err(ErrorObj(code, msg, None))
  }

  /** `ok_or_invalid_params()`: a missing value becomes INVALID_PARAMS "Invalid parameters". */
  function OkOrInvalidParams<T>(o: Option<T>): (r: Result<T, ErrorObj>)
    ensures ToOption(r) == o
    ensures r.Err? ==> r.error == ErrorObj(INVALID_PARAMS, "Invalid parameters", None)
  {
    match o
    case Some(x) => Ok(x)
    case None => Err(ErrorObj(INVALID_PARAMS, "Invalid parameters", None))
  }

  /** The two helpers agree: `ok_or_invalid_params` is `ok_or_rpc_error` with fixed code and message. */
  lemma InvalidParamsIsRpcError<T>(o: Option<T>)
    ensures OkOrInvalidParams(o) == OkOrRpcError(o, INVALID_PARAMS, "Invalid parameters")
  {
  }
}
