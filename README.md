# DiceRPC core in Dafny

A model of the sequential core of DiceRPC, a JSON-RPC 2.0 engine written in Rust, with proofs of what it promises:

- **Frame codec.** The length-prefixed frame codec of the framed TCP transport: a 4-byte big-endian `u32` length, then the payload. The writer accepts up to `u32::MAX` bytes; the reader caps the declared length at 10,000,000.
- **Dispatch.** The JSON-RPC message model, the handler registry and `handle_request`.
- **Batches.** Single and batch requests (section 6 of the JSON-RPC 2.0 specification).
- **API-key gate.** The check applied per request, and the authenticated batch path of the HTTP transport together with its error classification.
- **Demo ledger.** The ledger (`StateStore`) and the RPC handlers built on it.
- **Metrics.** The request counters, the smoothed average duration and the per-method counts.
- **Helpers.** The `OptionExt` helpers.

One Dafny module per source file:

| module | file |
|---|---|
| `Wrappers` | the Option and Result types |
| `Json` | serde_json values and the `u32`/`u64` ranges |
| `Decimal` | `u64` to decimal text, and back |
| `Framing` | framing.rs |
| `Rpc` | rpc.rs |
| `Macros` | macros.rs |
| `Batch` | batch.rs |
| `Auth` | auth.rs |
| `Http` | http_transport.rs |
| `State` | state.rs |
| `Handlers` | handlers.rs |
| `ServerMetrics` | metrics.rs |

How each part is modelled:

- **Values and functions.** Pure code becomes functions over datatypes. A handler is a Dafny function value `Json -> Result<Json, ErrorObj>`, and the registry is a `map<string, Handler>`.
- **Classes.** Code that updates state in place becomes a class whose methods carry `modifies` clauses:
  - the handler registry;
  - the key set of the gate;
  - the ledger tables;
  - the metrics counters;
  - the frame writer and reader, modelled as a byte sequence plus a read cursor.
- **Locks and async.** Every `RwLock`/`async` section is read as one sequential step.

Error codes:

- `METHOD_NOT_FOUND` is -32602, the same value as `INVALID_PARAMS`, exactly as the source declares it. Section 5.1 of the JSON-RPC 2.0 specification gives -32601. The lemma `Rpc.MethodNotFoundIsInvalidParams` records that a client cannot tell the two apart by code.
- The authenticated HTTP path has no empty-batch check. It answers `[]` with an empty batch, while `handle_batch` answers it with a single -32600 error (`Http.AuthenticatedEmptyBatchDiffers`).

## Model

| member | source | states |
|---|---|---|
| Framing.Be32 | src/transport/framing.rs:21-22 | the length prefix is 4 bytes, and reading them big-endian gives the length back |
| Framing.Be32FromBe32 | src/transport/framing.rs:40-43 | re-encoding a decoded 4-byte prefix gives the same bytes, so the prefix and the length determine each other |
| Framing.DecodeFrame | src/transport/framing.rs:35-55 | when reading succeeds, it consumes exactly one encoded frame of at most 10,000,000 payload bytes; a declared length above 10,000,000 is FrameTooLarge with that length; fewer than 4 bytes, or a declared length within the limit with fewer bytes after the prefix, is UnexpectedEof, so the size is checked before any payload is read |
| Framing.FrameRoundTrip | src/transport/framing.rs:13-55 | a frame written for a payload of at most 10,000,000 bytes reads back as that payload, consuming exactly 4 + its length, whatever follows |
| Framing.OversizeFrameWrittenButRejected | src/transport/framing.rs:17-48 | payloads of 10,000,001 to `u32::MAX` bytes are written, but the reader rejects them as FrameTooLarge |
| Framing.EncodeFramesAppend | tests/framing_tests.rs:22-24 | writing one more frame appends its encoding after the frames already written |
| Framing.WriteFrame | src/transport/framing.rs:13-30 | a payload over `u32::MAX` bytes fails with nothing written; otherwise exactly prefix plus payload is appended to the sink |
| Framing.ReadFrame | src/transport/framing.rs:35-55 | the result and the new cursor are those of DecodeFrame on the unread bytes: the cursor moves past the frame on success, past the prefix only on FrameTooLarge, and to the end of the stream on EOF |
| Framing.WriteFrames | tests/framing_tests.rs:22-24 | writing several payloads appends their frames back to back |
| Framing.ReadFrames | tests/framing_tests.rs:26-31 | reading as many frames as were written back to back returns the payloads in order |
| Framing.WriteThenReadFrames | tests/framing_tests.rs:17-32 | payloads written as frames into one buffer and read back come out in the same order with the same contents |
| Rpc.WithResult | src/rpc/rpc.rs:56-63 | the response is version "2.0", reports exactly the result and echoes the id |
| Rpc.WithError | src/rpc/rpc.rs:77-88 | the response is version "2.0", reports exactly the error with that code and message and no data, and echoes the id |
| Rpc.HandleRequest | src/rpc/rpc.rs:164-180 | the response has exactly one of result and error and echoes the id; an unregistered method gives METHOD_NOT_FOUND "Method not found: <method>"; a registered one gives its handler's result or error, with the error's data dropped |
| Rpc.HandleRequestLocal | src/rpc/rpc.rs:166-167 | the answer depends only on the registry entry for the request's method |
| Rpc.MethodNotFoundIsInvalidParams | src/rpc/rpc.rs:35-36 | the code for an unknown method equals INVALID_PARAMS |
| Rpc.RpcServer.constructor | src/rpc/rpc.rs:143-147 | a new server has no handlers |
| Rpc.RpcServer.Register | src/rpc/rpc.rs:149-162 | afterwards the name maps to the new handler, and every other name keeps its entry or its absence |
| Rpc.ReRegisterReplaces | src/rpc/rpc.rs:161 | after two registrations under one name, requests reach only the second handler |
| Rpc.DefaultGetBalance | src/rpc/rpc.rs:221-234 | succeeds exactly for object params with a non-empty string `address`, giving a decimal numeral without leading zeros whose value is the address length times 12345; anything else gives INVALID_PARAMS "Missing 'address' param" |
| Rpc.SendTxReply | src/rpc/rpc.rs:237-249 | succeeds exactly for object params with a non-empty string `raw_tx`, returning the supplied transaction id; anything else gives INVALID_PARAMS "Missing 'raw_tx' param" |
| Rpc.RegisterDefaultHandlers | src/rpc/rpc.rs:214-234 | the registry gains `ping` and `get_balance` bound to the default handlers |
| Rpc.Ping | src/rpc/rpc.rs:216-218 | `ping` answers "pong" whatever its params |
| Rpc.PingScenario | src/rpc/rpc.rs:216-218 | a ping request with id 1 is answered with result "pong", no error and id 1 |
| Decimal.NatToString | src/rpc/rpc.rs:233 | the decimal text of a number is a non-empty run of digits with no leading zero |
| Decimal.ParseNatToString | src/server/handlers.rs:34 | reading the decimal text of a number gives the number back |
| Decimal.CanonicalNumeral | src/server/handlers.rs:34 | a numeral without a leading zero is exactly the printed form of its value, so the contracts that state value and no leading zero fix the text |
| Decimal.NatToStringInjective | src/server/handlers.rs:34 | distinct balances are printed differently |
| Macros.OkOrInvalidParams | src/macros.rs:59-65 | `Some(x)` gives `Ok(x)`; `None` gives INVALID_PARAMS "Invalid parameters" with no data |
| Macros.OkOrRpcError | src/macros.rs:67-73 | `Some(x)` gives `Ok(x)`; `None` gives the given code and message with no data |
| Macros.InvalidParamsIsRpcError | src/macros.rs:59-73 | `ok_or_invalid_params` is `ok_or_rpc_error` with INVALID_PARAMS and "Invalid parameters" |
| Batch.IsBatch | src/util/batch.rs:30-32 | holds exactly for a batch, never for a single request |
| Batch.Len | src/util/batch.rs:35-40 | a single request has length 1; a batch has the number of its requests, so the length is zero only for the empty batch |
| Batch.IsEmpty | src/util/batch.rs:43-45 | `is_empty` holds exactly for the empty batch |
| Batch.HandleBatch | src/util/batch.rs:51-76 | a single request is answered singly with `handle_request`; an empty batch gets one error response; a non-empty batch gets one response per request, in request order |
| Batch.HandleBatchShape | src/util/batch.rs:52-74 | the answer is single exactly when the request was single or an empty batch; a batch answer has as many responses as there were requests |
| Batch.EmptyBatchAnswer | src/util/batch.rs:57-64 | the empty batch is answered singly with a null id, no result and error -32600 "Invalid Request: empty batch" |
| Batch.HandleBatchWellFormed | src/util/batch.rs:51-76 | every response in the answer has exactly one of result and error |
| Batch.BatchSiblingsIndependent | src/util/batch.rs:66-72 | a request's response does not depend on its siblings or its position, so an error in one does not stop the others |
| Auth.AuthMiddleware.constructor | src/middleware/auth.rs:32-37 | the gate starts with the given strategy and no valid key |
| Auth.AuthMiddleware.IsValidKey | src/middleware/auth.rs:51-53 | a key is valid exactly when it is in the gate's key set |
| Auth.AuthMiddleware.AddKey | src/middleware/auth.rs:41-43 | the key becomes valid and no other key's validity changes |
| Auth.AuthMiddleware.RemoveKey | src/middleware/auth.rs:46-48 | the key stops being valid and no other key's validity changes |
| Auth.AuthMiddleware.ValidateParamsKey | src/middleware/auth.rs:68-97 | passes exactly when the params are an object whose string `api_key` is a valid key; a missing key (non-object params, or no string `api_key`) gives AUTH_REQUIRED; an unknown key gives AUTH_ERROR |
| Auth.AuthMiddleware.ValidateRequest | src/middleware/auth.rs:56-65 | the gate refuses only under ApiKeyInParams, and then exactly as the params check does: AUTH_REQUIRED when no string `api_key` is present, AUTH_ERROR for an unknown key |
| Auth.AuthMiddleware.AuthErrorResponse | src/middleware/auth.rs:102-104 | the response is a version "2.0" AUTH_ERROR error with the message and no data, echoing the id |
| Auth.HandleAuthenticatedRequest | src/middleware/auth.rs:120-132 | a refused request is answered with the gate's code and message under its id; any other request is answered as `handle_request` answers it |
| Auth.RefusedRequestIgnoresHandlers | src/middleware/auth.rs:126-128 | a refused request's answer is an error and does not depend on the registry, so no handler runs |
| Auth.OpenStrategiesDispatch | src/middleware/auth.rs:57-63 | under None and ApiKeyInHeader the gate is transparent |
| Auth.MissingKeyScenario | tests/auth_tests.rs:54-69 | with ApiKeyInParams and key "test-key", a ping with empty params is refused with AUTH_REQUIRED under its id |
| Http.HttpTransport.WithAuth | src/transport/http_transport.rs:59-62 | only the gate is set |
| Http.HttpTransport.WithMetrics | src/transport/http_transport.rs:64-67 | only the metrics are set |
| Http.NewTransport | src/transport/http_transport.rs:51-57 | a new transport has no gate and no metrics |
| Http.AuthenticateEach | src/transport/http_transport.rs:160-165 | every request of a batch goes through the gate on its own, and the results keep request order |
| Http.HandleAuthenticatedBatch | src/transport/http_transport.rs:150-169 | single stays single and batch stays batch of the same length; element i is the authenticated answer to request i |
| Http.AuthenticatedEmptyBatchDiffers | src/transport/http_transport.rs:159-167 | with a gate the empty batch is answered with an empty batch, whereas `handle_batch` answers it singly |
| Http.FoldAnyError | src/transport/http_transport.rs:136 | the fold is true exactly when some response carries an error |
| Http.HasError | src/transport/http_transport.rs:134-137 | "has error" holds exactly when the single response, or some batch element, carries an error |
| Http.TraceName | src/transport/http_transport.rs:114-117 | a single request is traced under its method name; a batch under `batch(n)`, where n is the number of its requests in decimal without leading zeros |
| Http.Respond | src/transport/http_transport.rs:104-130 | a JSON body that does not decode as a single or batch request gives one -32700 "Parse error: ..." response with a null id; with a gate the batch goes through `handle_authenticated_batch`, and without one through `handle_batch` |
| Http.MixedAuthBatch | src/transport/http_transport.rs:159-167 | in a batch of three whose middle request carries an invalid key, only the middle answer is an error (AUTH_ERROR) and the batch counts as erroneous |
| Http.RpcHandler | src/transport/http_transport.rs:99-147 | answers as Respond. A parsed body with metrics enabled is traced under its method name or "batch(n)": one more request; one more error if any response has one, otherwise one more success; the duration averaged in; the name counted. A parse error changes no metric |
| ServerMetrics.WrappingInc | src/server/metrics.rs:37 | an atomic increment adds one, wrapping from `u64::MAX` to 0 |
| ServerMetrics.SmoothedAverage | src/server/metrics.rs:51-61 | the first sample (average 0) is taken as is; afterwards the new average lies between the old average and the sample |
| ServerMetrics.SmoothedAverageFixedPoint | src/server/metrics.rs:59 | feeding the current average as the sample leaves it unchanged |
| ServerMetrics.SmoothedAverageCanRestart | src/server/metrics.rs:56-59 | an average of 1 followed by a zero sample falls to 0, after which the next sample is taken as if it were the first |
| ServerMetrics.Counted | src/server/metrics.rs:64-67 | the method's count goes up by one (from 0 when absent), and no other count changes |
| ServerMetrics.Metrics.constructor | src/server/metrics.rs:25-33 | all counters and the average start at zero, with no method counted |
| ServerMetrics.Metrics.Snapshot | src/server/metrics.rs:70-78 | the snapshot reports the current value of each counter, the average and the per-method counts |
| ServerMetrics.Metrics.RecordRequest | src/server/metrics.rs:36-38 | the request counter goes up by one and nothing else changes |
| ServerMetrics.Metrics.RecordSuccess | src/server/metrics.rs:41-43 | the success counter goes up by one and nothing else changes |
| ServerMetrics.Metrics.RecordError | src/server/metrics.rs:46-48 | the error counter goes up by one and nothing else changes |
| ServerMetrics.Metrics.RecordDuration | src/server/metrics.rs:51-61 | the average becomes the smoothed average with the sample, and nothing else changes |
| ServerMetrics.Metrics.RecordMethod | src/server/metrics.rs:64-67 | the method's count goes up by one, and nothing else changes |
| ServerMetrics.Metrics.Reset | src/server/metrics.rs:81-87 | all counters and the average are zero, and no method is counted |
| ServerMetrics.RequestTracer.constructor | src/server/metrics.rs:117-127 | creating a tracer counts one more request and changes nothing else |
| ServerMetrics.RequestTracer.Success | src/server/metrics.rs:130-141 | one more success, the duration averaged in, the method counted; requests and errors unchanged |
| ServerMetrics.RequestTracer.Error | src/server/metrics.rs:144-156 | one more error, the duration averaged in, the method counted; requests and successes unchanged |
| State.GetBalance | src/state.rs:69-75 | a balance is returned exactly for a known address, and it is that account's balance |
| State.GetTransaction | src/state.rs:146-148 | a transaction is returned exactly for a known id, and it is the stored one |
| State.WithBalance | src/state.rs:79-91 | the address's balance is set; a known account keeps its nonce; an unknown one is created with nonce 0; other accounts are unchanged |
| State.SetBalanceLastWins | src/state.rs:79-91 | setting a balance twice is the same as setting only the second value |
| State.Transferred | src/state.rs:108-120 | for distinct parties, the sender's balance drops by the amount and its nonce rises by 1, and the receiver's balance rises by the amount with its nonce kept (0 when created). A self-transfer only raises the nonce. Everyone else is unchanged, and every account stays filed under its own address |
| State.TransferConservesTotal | src/state.rs:108-120 | a transfer leaves the sum of all balances unchanged |
| State.TransferScenario | tests/state_tests.rs:25-45 | 0x123 at 1000 and 0x456 at 500, after a transfer of 300, hold 700 and 800, and the sender's nonce is 1 |
| State.WithConfirmed | src/state.rs:152-160 | only the given transaction changes, and only its status, to Confirmed |
| State.ConfirmIdempotent | src/state.rs:152-160 | confirming twice is the same as confirming once |
| State.StateStore.constructor | src/state.rs:44-49 | a new store has no accounts and no transactions |
| State.StateStore.GetOrCreateAccount | src/state.rs:53-65 | an unknown address gets a new zero account that is also returned; a known one is returned and nothing changes |
| State.StateStore.SetBalance | src/state.rs:79-91 | the accounts become WithBalance of the old ones, and the transactions are unchanged |
| State.StateStore.Transfer | src/state.rs:95-142 | an unknown sender fails with "Sender account not found" and a short balance with "Insufficient balance", both changing nothing; otherwise the accounts become Transferred and one Pending transaction with these parties, amount and timestamp is recorded under the fresh id |
| State.StateStore.ConfirmTransaction | src/state.rs:152-160 | an unknown id fails with "Transaction not found" and changes nothing; otherwise the transactions become WithConfirmed |
| State.StateStore.GetTransactionsForAddress | src/state.rs:164-172 | the result holds exactly the stored transactions sent or received by the address, each once |
| State.StateStore.GetAllAccounts | src/state.rs:176-178 | the result holds every stored account exactly once |
| Handlers.StatusName | src/server/handlers.rs:154-158 | Pending, Confirmed and Failed are named "pending", "confirmed" and "failed", each name standing for exactly one status |
| Handlers.StrParam | src/server/handlers.rs:21-28 | a present string parameter is passed through; a missing or non-string one gives INVALID_PARAMS with the field's message |
| Handlers.U64Param | src/server/handlers.rs:57-64 | a present `u64` parameter is passed through; a missing or non-`u64` one gives INVALID_PARAMS with the field's message |
| Handlers.StatusNameInjective | src/server/handlers.rs:154-158 | Pending, Confirmed and Failed have distinct wire names, so the name determines the status |
| Handlers.TxJsonInjective | src/server/handlers.rs:148-159 | the rendering of a transaction determines the transaction |
| Handlers.AccountJsonInjective | src/server/handlers.rs:261-265 | the rendering of an account, with its balance as decimal text, determines the account |
| Handlers.GetBalanceReply | src/server/handlers.rs:21-35 | fails with INVALID_PARAMS exactly when `address` is missing or not a string; otherwise echoes the address with the balance as decimal text without leading zeros that reads back as the stored balance, or 0 for an unknown address |
| Handlers.SetBalanceHandler | src/server/handlers.rs:48-72 | a missing `address` is reported first, then a missing or invalid `balance`, neither changing the store; otherwise the balance is set as WithBalance and echoed with success true |
| Handlers.TransferParams | src/server/handlers.rs:85-110 | succeeds exactly when `from`, `to` and `amount` are all present and valid; otherwise INVALID_PARAMS names the first missing field in the order from, to, amount |
| Handlers.TransferHandler | src/server/handlers.rs:85-125 | invalid params change nothing; a refused transfer gives -32000 with the store's message and changes nothing; a successful one performs the store transfer and reports txid, parties, amount and status "pending" |
| Handlers.GetTransactionReply | src/server/handlers.rs:138-165 | a missing `txid` gives INVALID_PARAMS; an unknown id gives -32001 "Transaction not found"; a known one gives the rendering of the stored transaction |
| Handlers.TransferredTransactionIsPending | src/server/handlers.rs:147-159 | right after a transfer records a transaction, `get_transaction` on its id reports it with status "pending" |
| Handlers.ConfirmedTransactionReport | src/server/handlers.rs:147-159 | after confirmation, `get_transaction` reports the same record with status "confirmed" |
| Handlers.ConfirmTransactionHandler | src/server/handlers.rs:178-198 | a missing `txid` gives INVALID_PARAMS; an unknown id gives -32001 "Transaction not found"; both change nothing. Otherwise only that transaction is confirmed and the reply echoes the id with "confirmed" and success true |
| Handlers.GetTransactionsHandler | src/server/handlers.rs:211-243 | a missing `address` gives INVALID_PARAMS; otherwise the reply lists exactly the stored transactions sent or received by the address, each once |
| Handlers.AccountsReply | src/server/handlers.rs:258-272 | `count` equals the length of the `accounts` list, each entry being an account's rendering |
| Handlers.ListAccountsHandler | src/server/handlers.rs:256-272 | the reply lists every stored account exactly once, and `count` is the number of accounts in the store |

## Left out

- **I/O and networking.** The accept loops and connection handling in src/transport/tcp.rs and src/server/server.rs are left out. So are the axum `router`/`serve`, src/transport/metrics_endpoint.rs, src/client/client.rs and src/main.rs. The frame codec is modelled over an in-memory byte sink and source.
- src/transport/shutdown.rs is not part of this model. It consists of broadcast channels, OS signals and timeouts.
- **Non-JSON bodies.** A body that is not JSON at all is rejected by axum's `Json<Value>` extractor before `rpc_handler` runs (src/transport/http_transport.rs:101), with an HTTP error rather than a JSON-RPC response. That rejection is not modelled; `Http.Respond` and `Http.RpcHandler` start from a JSON value.
- **JSON text.** Parsing and serialising JSON text through serde (`parse_rpc_request`, `BatchRequest::parse`, untagged enum decoding) is not modelled:
  - a request body is given as either a parsed `BatchRequest` or a parse-error message;
  - JSON numbers are integers only, with no floating point;
  - a request's params arrive already decoded; serde's `#[serde(default)]` for absent params is not modelled.
- **Nondeterminism.** `Uuid::new_v4`, `SystemTime::now` and `Instant` are replaced by parameters:
  - the transaction id is a fresh id the caller supplies;
  - the timestamp is supplied;
  - the duration in microseconds is supplied.
- **Concurrency.** `RwLock`, `AtomicU64` with relaxed ordering and the `join_all` fan-out are read as sequential steps. Only the order of the joined results is modelled.
- **Logging and macros.** Logging (`init_logging`, `log_startup`, `log_shutdown`, the tracing macros) is left out. So are the `rpc_handler!`/`register_handlers!` macro expansions.
- **Demo programs.** `examples/*` and src/example_full.rs are left out.
- **Ledger handler registration.** `register_stateful_handlers` is not modelled as registry inserts. Its handlers close over the mutable store, so they cannot be the pure `Handler` values of the registry. They are modelled as the functions and methods of `Handlers`, and `ping` is `Rpc.Ping`.
- **send_tx.** The default `send_tx` is not registered by `Rpc.RegisterDefaultHandlers`, because its closure draws a new id on every call. Its reply is modelled by `Rpc.SendTxReply` with the id as a parameter.
- Rpc.DefaultGetBalance: `address.len()` is the UTF-8 byte length. The model uses the character count, which agrees only for ASCII addresses. The `usize` multiplication is taken not to overflow.
- **Overflow in the ledger.** State.StateStore.Transfer requires, only for a transfer that passes both checks, that the sender's `nonce += 1` and a distinct existing receiver's `balance += amount` stay within `u64`. Refused transfers carry no such requirement. Overflow there is neither wrapped nor modelled as a panic. The same precondition carries over to `State.Transferred` and to `Handlers.TransferHandler` for well-formed params.
- **Overflow in metrics.**
  - ServerMetrics.SmoothedAverage requires `avg * 9 + d` to stay within `u64`.
  - ServerMetrics.Metrics.RecordMethod requires that a method's count can go up by one.
  - The three atomic counters (requests, successes, errors) wrap, as `fetch_add` does. The average is a lock-guarded value that is overwritten, not incremented.
- **Fresh ids.** State.StateStore.Transfer requires the supplied transaction id to be fresh, which a random UUID is taken to be. A colliding id would overwrite a stored transaction.
- **Framed-TCP variants.** The framed-TCP authenticated path and the batch handler in src/transport/tcp.rs are not modelled. Their behaviour differs from `handle_authenticated_request` and `handle_batch`.
