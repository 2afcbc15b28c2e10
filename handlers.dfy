/**
 * The ledger's RPC handlers (src/server/handlers.rs): parameter validation,
 * the call into the StateStore, and the mapping of its result or error to a
 * JSON result or an RPC error object. Read-only handlers are functions of a
 * snapshot of the store's tables; the others are methods on the store.
 */
module Handlers {
  import opened Wrappers
  import opened Json
  import opened Rpc
  import opened Macros
  import opened State
  import Decimal

  /** Code of a failed `transfer`. */
  const TRANSFER_FAILED: int := -32000
  /** Code of an unknown or unconfirmable transaction; equal to Auth.AUTH_ERROR. */
  const TX_NOT_FOUND: int := -32001

  /** A required string parameter: `params.get(key).and_then(as_str)`, INVALID_PARAMS `msg` when absent. */
  function StrParam(params: Json, key: string, msg: string): (r: Result<string, ErrorObj>)
    ensures r.Ok? <==> GetStr(params, key).Some?
    ensures r.Ok? ==> r.value == GetStr(params, key).value
    ensures r.Err? ==> r.error == ErrorObj(INVALID_PARAMS, msg, None)
  {
    OkOrRpcError(GetStr(params, key), INVALID_PARAMS, msg)
  }

  /** A required `u64` parameter: `params.get(key).and_then(as_u64)`, INVALID_PARAMS `msg` when absent. */
  function U64Param(params: Json, key: string, msg: string): (r: Result<u64, ErrorObj>)
    ensures r.Ok? <==> GetU64(params, key).Some?
    ensures r.Ok? ==> r.value == GetU64(params, key).value
    ensures r.Err? ==> r.error == ErrorObj(INVALID_PARAMS, msg, None)
  {
    OkOrRpcError(GetU64(params, key), INVALID_PARAMS, msg)
  }

  const MISSING_ADDRESS := "Missing 'address' parameter"
  const MISSING_BALANCE := "Missing or invalid 'balance' parameter"
  const MISSING_FROM := "Missing 'from' parameter"
  const MISSING_TO := "Missing 'to' parameter"
  const MISSING_AMOUNT := "Missing or invalid 'amount' parameter"
  const MISSING_TXID := "Missing 'txid' parameter"

  /** The wire name of a transaction status. */
  function StatusName(s: TransactionStatus): (r: string)
    ensures r == "pending" <==> s == Pending
    ensures r == "confirmed" <==> s == Confirmed
    ensures r == "failed" <==> s == Failed
  {
    match s
    case Pending => "pending"
    case Confirmed => "confirmed"
    case Failed => "failed"
  }

  /** Distinct statuses have distinct names, so a reported name determines the status. */
  lemma StatusNameInjective(a: TransactionStatus, b: TransactionStatus)
    ensures StatusName(a) == StatusName(b) <==> a == b
  {
  }

  /** The JSON rendering of a stored transaction (`get_transaction`, `get_transactions`). */
  function TxJson(tx: Transaction): Json
  {
    Object(map[
      "txid" := String(tx.txid), "from" := String(tx.from), "to" := String(tx.to),
      "amount" := Number(tx.amount), "timestamp" := Number(tx.timestamp),
      "status" := String(StatusName(tx.status))])
  }

  /** The rendering loses nothing: equal renderings come from equal transactions. */
  lemma TxJsonInjective(a: Transaction, b: Transaction)
    ensures TxJson(a) == TxJson(b) ==> a == b
  {
    if TxJson(a) == TxJson(b) {
      assert TxJson(a).fields["status"] == TxJson(b).fields["status"];
      StatusNameInjective(a.status, b.status);
      assert TxJson(a).fields["txid"] == TxJson(b).fields["txid"];
      assert TxJson(a).fields["from"] == TxJson(b).fields["from"];
      assert TxJson(a).fields["to"] == TxJson(b).fields["to"];
      assert TxJson(a).fields["amount"] == TxJson(b).fields["amount"];
      assert TxJson(a).fields["timestamp"] == TxJson(b).fields["timestamp"];
    }
  }

  /** The JSON rendering of an account (`list_accounts`): the balance as a decimal string. */
  function AccountJson(acc: Account): Json
  {
    Object(map[
      "address" := String(acc.address),
      "balance" := String(Decimal.NatToString(acc.balance)),
      "nonce" := Number(acc.nonce)])
  }

  /** The rendering loses nothing: the decimal balance string reads back as the balance. */
  lemma AccountJsonInjective(a: Account, b: Account)
    ensures AccountJson(a) == AccountJson(b) ==> a == b
  {
    if AccountJson(a) == AccountJson(b) {
      assert AccountJson(a).fields["balance"] == AccountJson(b).fields["balance"];
      Decimal.ParseNatToString(a.balance);
      Decimal.ParseNatToString(b.balance);
      assert AccountJson(a).fields["address"] == AccountJson(b).fields["address"];
      assert AccountJson(a).fields["nonce"] == AccountJson(b).fields["nonce"];
    }
  }

  /**
   * `get_balance` over the accounts table: the address's balance as a decimal
   * string, "0" for an unknown address.
   */
  function GetBalanceReply(accts: Accounts, params: Json): (r: Result<Json, ErrorObj>)
    ensures r.Err? <==> GetStr(params, "address").None?
    ensures r.Err? ==> r.error == ErrorObj(INVALID_PARAMS, MISSING_ADDRESS, None)
    ensures r.Ok? ==>
      var address := GetStr(params, "address").value;
      && r.value.Object? && r.value.fields.Keys == {"address", "balance"}
      && r.value.fields["address"] == String(address)
      && r.value.fields["balance"].String? && Decimal.IsNumeral(r.value.fields["balance"].s)
      && (|r.value.fields["balance"].s| > 1 ==> r.value.fields["balance"].s[0] != '0')
      && Decimal.ParseDecimal(r.value.fields["balance"].s)
         == if address in accts then accts[address].balance else 0
  {
    var address :- StrParam(params, "address", MISSING_ADDRESS);
    var balance := match GetBalance(accts, address) case Some(b) => b case None => 0;
    Decimal.ParseNatToString(balance);
    Ok(Object(map["address" := String(address), "balance" := String(Decimal.NatToString(balance))]))
  }

  /** `set_balance`: validates `address` then `balance`, sets the balance and echoes both. */
  method SetBalanceHandler(store: StateStore, params: Json) returns (r: Result<Json, ErrorObj>)
    requires store.Valid()
    modifies store
    ensures store.Valid() && store.transactions == old(store.transactions)
    ensures GetStr(params, "address").None? ==>
      r == Err(ErrorObj(INVALID_PARAMS, MISSING_ADDRESS, None)) && store.accounts == old(store.accounts)
    ensures GetStr(params, "address").Some? && GetU64(params, "balance").None? ==>
      r == Err(ErrorObj(INVALID_PARAMS, MISSING_BALANCE, None)) && store.accounts == old(store.accounts)
    ensures GetStr(params, "address").Some? && GetU64(params, "balance").Some? ==>
      var address, balance := GetStr(params, "address").value, GetU64(params, "balance").value;
      && store.accounts == WithBalance(old(store.accounts), address, balance)
      && r == Ok(Object(map[
           "address" := String(address),
           "balance" := String(Decimal.NatToString(balance)),
           "success" := Bool(true)]))
  {
    var address := StrParam(params, "address", MISSING_ADDRESS);
    if address.Err? {
      return Err(address.error);
    }
    var balance := U64Param(params, "balance", MISSING_BALANCE);
    if balance.Err? {
      return Err(balance.error);
    }
    store.SetBalance(address.value, balance.value);
    r := Ok(Object(map[
      "address" := String(address.value),
      "balance" := String(Decimal.NatToString(balance.value)),
      "success" := Bool(true)]));
  }

  /**
   * The parameters of `transfer`, checked in source order: `from`, `to`, then
   * `amount`; the first one missing is the one reported.
   */
  function TransferParams(params: Json): (r: Result<(string, string, u64), ErrorObj>)
    ensures r.Ok? <==>
      GetStr(params, "from").Some? && GetStr(params, "to").Some? && GetU64(params, "amount").Some?
    ensures r.Ok? ==>
      r.value == (GetStr(params, "from").value, GetStr(params, "to").value, GetU64(params, "amount").value)
    ensures r.Err? ==> r.error.code == INVALID_PARAMS && r.error.data.None?
    ensures r.Err? ==>
      r.error.message == (if GetStr(params, "from").None? then MISSING_FROM
                          else if GetStr(params, "to").None? then MISSING_TO
                          else MISSING_AMOUNT)
  {
    var from :- StrParam(params, "from", MISSING_FROM);
    var to :- StrParam(params, "to", MISSING_TO);
    var amount :- U64Param(params, "amount", MISSING_AMOUNT);
    Ok((from, to, amount))
  }

  /** The reply of a successful `transfer`: the transaction's parties and amount, status "pending". */
  function TransferReceipt(tx: Transaction): Json
  {
    Object(map[
      "txid" := String(tx.txid), "from" := String(tx.from), "to" := String(tx.to),
      "amount" := Number(tx.amount), "status" := String("pending")])
  }

  /** For well-formed params of a transfer that goes through, the ledger's `u64` arithmetic cannot overflow. */
  predicate TransferFits(accts: Accounts, params: Json)
  {
    TransferParams(params).Ok? ==>
      var (from, to, amount) := TransferParams(params).value;
      CanTransfer(accts, from, amount) ==> NoOverflow(accts, from, to, amount)
  }

  /**
   * `transfer`: invalid params are reported without touching the store; a
   * refused transfer becomes TRANSFER_FAILED carrying the store's message; a
   * successful one moves the funds, records a pending transaction under `txid`
   * and reports it.
   */
  method TransferHandler(store: StateStore, params: Json, txid: string, timestamp: u64)
    returns (r: Result<Json, ErrorObj>)
    requires store.Valid() && txid !in store.transactions
    requires TransferFits(store.accounts, params)
    modifies store
    ensures store.Valid()
    ensures TransferParams(params).Err? ==> r == Err(TransferParams(params).error) && unchanged(store)
    ensures TransferParams(params).Ok? ==>
      var (from, to, amount) := TransferParams(params).value;
      if CanTransfer(old(store.accounts), from, amount) then
        var tx := Transaction(txid, from, to, amount, timestamp, Pending);
        && r == Ok(TransferReceipt(tx))
        && store.accounts == Transferred(old(store.accounts), from, to, amount)
        && store.transactions == old(store.transactions)[txid := tx]
      else
        && r == Err(ErrorObj(TRANSFER_FAILED,
                             if from in old(store.accounts) then "Insufficient balance" else "Sender account not found",
                             None))
        && unchanged(store)
  {
    var p := TransferParams(params);
    if p.Err? {
      return Err(p.error);
    }
    var (from, to, amount) := p.value;
    var outcome := store.Transfer(from, to, amount, txid, timestamp);
    match outcome {
      case Ok(tx) => r := Ok(TransferReceipt(tx));
      case Err(e) => r := Err(ErrorObj(TRANSFER_FAILED, e, None));
    }
  }

  /** `get_transaction` over the transactions table. */
  function GetTransactionReply(txs: Transactions, params: Json): (r: Result<Json, ErrorObj>)
    ensures GetStr(params, "txid").None? ==> r == Err(ErrorObj(INVALID_PARAMS, MISSING_TXID, None))
    ensures GetStr(params, "txid").Some? ==>
      var txid := GetStr(params, "txid").value;
      && (txid !in txs ==> r == Err(ErrorObj(TX_NOT_FOUND, "Transaction not found", None)))
      && (txid in txs ==> r.Ok? && r.value == TxJson(txs[txid]))
  {
    var txid :- StrParam(params, "txid", MISSING_TXID);
    match GetTransaction(txs, txid)
    case Some(tx) => Ok(TxJson(tx))
    case None => Err(ErrorObj(TX_NOT_FOUND, "Transaction not found", None))
  }

  /** After a successful transfer, `get_transaction` on its id reports it as pending. */
  lemma TransferredTransactionIsPending(txs: Transactions, tx: Transaction)
    requires tx.status == Pending
    ensures GetTransactionReply(txs[tx.txid := tx], Object(map["txid" := String(tx.txid)]))
         == Ok(TxJson(tx))
    ensures TxJson(tx).fields["status"] == String("pending")
  {
    assert GetStr(Object(map["txid" := String(tx.txid)]), "txid") == Some(tx.txid);
  }

  /** After `confirm_transaction`, `get_transaction` reports "confirmed" and the rest of the record unchanged. */
  lemma ConfirmedTransactionReport(txs: Transactions, txid: string)
    requires txid in txs
    ensures GetTransactionReply(WithConfirmed(txs, txid), Object(map["txid" := String(txid)]))
         == Ok(TxJson(txs[txid].(status := Confirmed)))
    ensures TxJson(txs[txid].(status := Confirmed)).fields["status"] == String("confirmed")
  {
    assert GetStr(Object(map["txid" := String(txid)]), "txid") == Some(txid);
  }

  /** `confirm_transaction`: any store failure becomes TX_NOT_FOUND carrying the store's message. */
  method ConfirmTransactionHandler(store: StateStore, params: Json) returns (r: Result<Json, ErrorObj>)
    requires store.Valid()
    modifies store
    ensures store.Valid() && store.accounts == old(store.accounts)
    ensures GetStr(params, "txid").None? ==>
      r == Err(ErrorObj(INVALID_PARAMS, MISSING_TXID, None)) && store.transactions == old(store.transactions)
    ensures GetStr(params, "txid").Some? ==>
      var txid := GetStr(params, "txid").value;
      && (txid !in old(store.transactions) ==>
            r == Err(ErrorObj(TX_NOT_FOUND, "Transaction not found", None))
            && store.transactions == old(store.transactions))
      && (txid in old(store.transactions) ==>
            r == Ok(Object(map["txid" := String(txid), "status" := String("confirmed"), "success" := Bool(true)]))
            && store.transactions == WithConfirmed(old(store.transactions), txid))
  {
    var txid := StrParam(params, "txid", MISSING_TXID);
    if txid.Err? {
      return Err(txid.error);
    }
    var outcome := store.ConfirmTransaction(txid.value);
    match outcome {
      case Ok(_) =>
        r := Ok(Object(map["txid" := String(txid.value), "status" := String("confirmed"), "success" := Bool(true)]));
      case Err(e) => r := Err(ErrorObj(TX_NOT_FOUND, e, None));
    }
  }

  /** The reply of `get_transactions`: the address and the listed transactions rendered in order. */
  function TransactionsReply(address: string, found: seq<Transaction>): Json
  {
    Object(map[
      "address" := String(address),
      "transactions" := Array(seq(|found|, i requires 0 <= i < |found| => TxJson(found[i])))])
  }

  /**
   * `get_transactions`: the transactions sent or received by `address`, each
   * once; as many as there are such stored transactions.
   */
  method GetTransactionsHandler(store: StateStore, params: Json) returns (r: Result<Json, ErrorObj>)
    requires store.Valid()
    ensures GetStr(params, "address").None? ==> r == Err(ErrorObj(INVALID_PARAMS, MISSING_ADDRESS, None))
    ensures GetStr(params, "address").Some? ==>
      var address := GetStr(params, "address").value;
      exists found :: ListsInvolved(found, store.transactions, store.transactions.Keys, address)
                   && r == Ok(TransactionsReply(address, found))
  {
    var address := StrParam(params, "address", MISSING_ADDRESS);
    if address.Err? {
      return Err(address.error);
    }
    var found := store.GetTransactionsForAddress(address.value);
    r := Ok(TransactionsReply(address.value, found));
  }

  /** The reply of `list_accounts`: the accounts rendered in order and their number. */
  function AccountsReply(accs: seq<Account>): (r: Json)
    ensures r.Object? && r.fields.Keys == {"accounts", "count"}
    ensures r.fields["accounts"] == Array(seq(|accs|, i requires 0 <= i < |accs| => AccountJson(accs[i])))
    ensures r.fields["count"] == Number(|r.fields["accounts"].items|)
  {
    var list := seq(|accs|, i requires 0 <= i < |accs| => AccountJson(accs[i]));
    Object(map["accounts" := Array(list), "count" := Number(|list|)])
  }

  /** `list_accounts`: every account once; `count` is the number of accounts in the store. */
  method ListAccountsHandler(store: StateStore, params: Json) returns (r: Result<Json, ErrorObj>)
    requires store.Valid()
    ensures exists accs :: ListsAccounts(accs, store.accounts, store.accounts.Keys)
                        && |accs| == |store.accounts.Keys|
                        && r == Ok(AccountsReply(accs))
    ensures r.Ok? && r.value.fields["count"] == Number(|store.accounts.Keys|)
  {
    var accs := store.GetAllAccounts();
    r := Ok(AccountsReply(accs));
  }
}
