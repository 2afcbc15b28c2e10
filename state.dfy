/**
 * The demo ledger (src/state.rs): accounts with balance and nonce, and a
 * transaction table, both updated in place. Transaction ids and timestamps,
 * which the source draws from `Uuid::new_v4` and the system clock, are parameters.
 */
module State {
  import opened Wrappers
  import opened Json

  datatype TransactionStatus = Pending | Confirmed | Failed

  datatype Transaction = Transaction(
    txid: string, from: string, to: string, amount: u64, timestamp: u64, status: TransactionStatus)

  datatype Account = Account(address: string, balance: u64, nonce: u64)

  type Accounts = map<string, Account>

  type Transactions = map<string, Transaction>

  /** The sum of all balances. */
  ghost function TotalBalance(accts: Accounts): int
    decreases |accts|
  {
    if accts == map[] then 0
    else
      var a :| a in accts;
      accts[a].balance + TotalBalance(accts - {a})
  }

  /** The sum does not depend on the order in which accounts are taken. */
  lemma {:induction false} TotalBalanceRemove(accts: Accounts, k: string)
    requires k in accts
    ensures TotalBalance(accts) == accts[k].balance + TotalBalance(accts - {k})
    decreases |accts|
  {
    var a :| a in accts && TotalBalance(accts) == accts[a].balance + TotalBalance(accts - {a});
    if a != k {
      var rest := accts - {a} - {k};
      assert accts - {k} - {a} == rest;
      TotalBalanceRemove(accts - {a}, k);
      TotalBalanceRemove(accts - {k}, a);
    }
  }

  /** Replacing or adding one account changes the sum by the difference of its balance. */
  lemma TotalBalanceUpdate(accts: Accounts, k: string, acc: Account)
    ensures TotalBalance(accts[k := acc])
         == TotalBalance(accts) - (if k in accts then accts[k].balance else 0) + acc.balance
  {
    var m := accts[k := acc];
    TotalBalanceRemove(m, k);
    assert m - {k} == accts - {k};
    if k in accts {
      TotalBalanceRemove(accts, k);
    } else {
      assert accts - {k} == accts;
    }
  }

  /**
   * The accounts after `set_balance`: the balance of `address` is set, a known
   * account keeps its nonce, an unknown one is created with nonce 0, and no
   * other account changes.
   */
  function WithBalance(accts: Accounts, address: string, balance: u64): (r: Accounts)
    ensures r.Keys == accts.Keys + {address}
    ensures r[address].balance == balance
    ensures r[address].nonce == (if address in accts then accts[address].nonce else 0)
    ensures AccountsKeyed(accts) ==> AccountsKeyed(r)
    ensures forall a :: a in accts && a != address ==> r[a] == accts[a]
  {
    if address in accts then accts[address := accts[address].(balance := balance)]
    else accts[address := Account(address, balance, 0)]
  }

  /** Setting a balance twice keeps only the second value. */
  lemma SetBalanceLastWins(accts: Accounts, address: string, b1: u64, b2: u64)
    ensures WithBalance(WithBalance(accts, address, b1), address, b2) == WithBalance(accts, address, b2)
  {
  }

  /** `get_balance` on the accounts table: the balance of a known account, nothing for an unknown one. */
  function GetBalance(accts: Accounts, address: string): (r: Option<u64>)
    ensures r.Some? <==> address in accts
    ensures r.Some? ==> r.value == accts[address].balance
  {
    if address in accts then Some(accts[address].balance) else None
  }

  /** `get_transaction` on the transactions table. */
  function GetTransaction(txs: Transactions, txid: string): (r: Option<Transaction>)
    ensures r.Some? <==> txid in txs
    ensures r.Some? ==> r.value == txs[txid]
  {
    if txid in txs then Some(txs[txid]) else None
  }

  /** Whether `transfer` goes through: the sender exists and can cover the amount. */
  predicate CanTransfer(accts: Accounts, from: string, amount: u64)
  {
    from in accts && accts[from].balance >= amount
  }

  /**
   * The `u64` arithmetic of a transfer does not overflow: the sender's nonce can
   * go up and a distinct existing receiver's balance can take the amount.
   */
  predicate NoOverflow(accts: Accounts, from: string, to: string, amount: u64)
  {
    && (from in accts ==> accts[from].nonce < U64_MAX)
    && (to != from && to in accts ==> accts[to].balance + amount <= U64_MAX)
  }

  /**
   * The accounts after a successful transfer: the sender pays the amount and its
   * nonce goes up by one; the receiver, created with nonce 0 when absent, is paid
   * the amount; a self-transfer only bumps the nonce; nobody else changes.
   */
  function Transferred(accts: Accounts, from: string, to: string, amount: u64): (r: Accounts)
    requires CanTransfer(accts, from, amount) && NoOverflow(accts, from, to, amount)
    ensures r.Keys == accts.Keys + {to}
    ensures from != to ==>
      && r[from].balance == accts[from].balance - amount
      && r[from].nonce == accts[from].nonce + 1
      && r[to].balance == (if to in accts then accts[to].balance else 0) + amount
      && r[to].nonce == (if to in accts then accts[to].nonce else 0)
    ensures from == to ==> r[from].balance == accts[from].balance && r[from].nonce == accts[from].nonce + 1
    ensures forall a :: a in accts && a != from && a != to ==> r[a] == accts[a]
    ensures AccountsKeyed(accts) ==> AccountsKeyed(r)
  {
    var s := accts[from];
    var debited := accts[from := s.(balance := s.balance - amount, nonce := s.nonce + 1)];
    if to in debited then
      debited[to := debited[to].(balance := debited[to].balance + amount)]
    else
      debited[to := Account(to, amount, 0)]
  }

  /** A transfer moves money without creating or destroying any. */
  lemma TransferConservesTotal(accts: Accounts, from: string, to: string, amount: u64)
    requires CanTransfer(accts, from, amount) && NoOverflow(accts, from, to, amount)
    ensures TotalBalance(Transferred(accts, from, to, amount)) == TotalBalance(accts)
  {
    var s := accts[from];
    var payer := s.(balance := s.balance - amount, nonce := s.nonce + 1);
    var debited := accts[from := payer];
    TotalBalanceUpdate(accts, from, payer);
    assert TotalBalance(debited) == TotalBalance(accts) - amount;
    var payee := if to in debited then debited[to].(balance := debited[to].balance + amount)
                 else Account(to, amount, 0);
    assert Transferred(accts, from, to, amount) == debited[to := payee];
    TotalBalanceUpdate(debited, to, payee);
  }

  /**
   * Starting from an empty ledger, setting 0x123 to 1000 and 0x456 to 500 and
   * transferring 300 from the first to the second leaves 700 and 800, and the
   * sender's nonce at 1.
   */
  lemma TransferScenario()
    ensures var start := WithBalance(WithBalance(map[], "0x123", 1000), "0x456", 500);
      && CanTransfer(start, "0x123", 300) && NoOverflow(start, "0x123", "0x456", 300)
      && var after := Transferred(start, "0x123", "0x456", 300);
      && after["0x123"].balance == 700 && after["0x456"].balance == 800
      && after["0x123"].nonce == 1 && after["0x456"].nonce == 0
  {
    var start := WithBalance(WithBalance(map[], "0x123", 1000), "0x456", 500);
    assert "0x123" != "0x456";
    assert start["0x123"] == Account("0x123", 1000, 0);
  }

  /** The transactions after `confirm_transaction` on a known id. */
  function WithConfirmed(txs: Transactions, txid: string): (r: Transactions)
    requires txid in txs
    ensures r.Keys == txs.Keys && r[txid].status == Confirmed
    ensures r[txid] == txs[txid].(status := Confirmed)
    ensures forall t :: t in txs && t != txid ==> r[t] == txs[t]
  {
    txs[txid := txs[txid].(status := Confirmed)]
  }

  /** Confirming twice is confirming once. */
  lemma ConfirmIdempotent(txs: Transactions, txid: string)
    requires txid in txs
    ensures WithConfirmed(WithConfirmed(txs, txid), txid) == WithConfirmed(txs, txid)
  {
  }

  predicate Involves(tx: Transaction, address: string)
  {
    tx.from == address || tx.to == address
  }

  /** Every account is filed under its own address. */
  predicate AccountsKeyed(accts: Accounts)
  {
    forall a :: a in accts ==> accts[a].address == a
  }

  /** Every transaction is filed under its own id. */
  predicate TransactionsKeyed(txs: Transactions)
  {
    forall t :: t in txs ==> txs[t].txid == t
  }

  /** `accs` lists the accounts of `accts` filed under `keys`, each exactly once. */
  predicate ListsAccounts(accs: seq<Account>, accts: Accounts, keys: set<string>)
  {
    && (forall i :: 0 <= i < |accs| ==>
          accs[i].address in keys && accs[i].address in accts && accts[accs[i].address] == accs[i])
    && (forall a :: a in keys && a in accts ==> accts[a] in accs)
    && (forall i, j :: 0 <= i < j < |accs| ==> accs[i].address != accs[j].address)
  }

  lemma ListsAccountsAppend(accs: seq<Account>, accts: Accounts, keys: set<string>, a: string)
    requires AccountsKeyed(accts) && a in accts && a !in keys
    requires ListsAccounts(accs, accts, keys)
    ensures ListsAccounts(accs + [accts[a]], accts, keys + {a})
  {
    var accs' := accs + [accts[a]];
    forall k | k in keys + {a} && k in accts
      ensures accts[k] in accs'
    {
      if k != a {
        var i :| 0 <= i < |accs| && accs[i] == accts[k];
        assert accs'[i] == accts[k];
      } else {
        assert accs'[|accs|] == accts[k];
      }
    }
  }

  /** Ids among `ids` of transactions in `txs` sent or received by `address`. */
  ghost function InvolvedAmong(txs: Transactions, ids: set<string>, address: string): set<string>
  {
    set id | id in ids && id in txs && Involves(txs[id], address)
  }

  /** Each entry of `found` is a transaction of `txs` filed under `ids` and involving `address`. */
  ghost predicate FoundAmong(found: seq<Transaction>, txs: Transactions, ids: set<string>, address: string)
  {
    forall i :: 0 <= i < |found| ==>
      && found[i].txid in ids && found[i].txid in txs
      && txs[found[i].txid] == found[i] && Involves(found[i], address)
  }

  /** Each transaction of `txs` filed under `ids` and involving `address` is in `found`. */
  ghost predicate CoversAmong(found: seq<Transaction>, txs: Transactions, ids: set<string>, address: string)
  {
    forall id :: id in ids && id in txs && Involves(txs[id], address) ==> txs[id] in found
  }

  predicate DistinctIds(found: seq<Transaction>)
  {
    forall i, j :: 0 <= i < j < |found| ==> found[i].txid != found[j].txid
  }

  /**
   * `found` lists the transactions of `txs` filed under `ids` that involve
   * `address`, each exactly once.
   */
  ghost predicate ListsInvolved(found: seq<Transaction>, txs: Transactions, ids: set<string>, address: string)
  {
    && FoundAmong(found, txs, ids, address)
    && CoversAmong(found, txs, ids, address)
    && DistinctIds(found)
    && |found| == |InvolvedAmong(txs, ids, address)|
  }

  lemma InvolvedAmongAdd(txs: Transactions, ids: set<string>, id: string, address: string)
    requires id in txs
    ensures InvolvedAmong(txs, ids + {id}, address)
         == if Involves(txs[id], address) then InvolvedAmong(txs, ids, address) + {id}
            else InvolvedAmong(txs, ids, address)
  {
  }

  lemma ListsInvolvedAppend(found: seq<Transaction>, txs: Transactions, ids: set<string>, id: string, address: string)
    requires TransactionsKeyed(txs) && id in txs && id !in ids && Involves(txs[id], address)
    requires ListsInvolved(found, txs, ids, address)
    ensures ListsInvolved(found + [txs[id]], txs, ids + {id}, address)
  {
    InvolvedAmongAdd(txs, ids, id, address);
    FoundAmongAppend(found, txs, ids, id, address);
    CoversAmongAppend(found, txs, ids, id, address);
    DistinctIdsAppend(found, txs, ids, id, address);
  }

  lemma FoundAmongAppend(found: seq<Transaction>, txs: Transactions, ids: set<string>, id: string, address: string)
    requires id in txs && Involves(txs[id], address) && TransactionsKeyed(txs)
    requires FoundAmong(found, txs, ids, address)
    ensures FoundAmong(found + [txs[id]], txs, ids + {id}, address)
  {
  }

  lemma CoversAmongAppend(found: seq<Transaction>, txs: Transactions, ids: set<string>, id: string, address: string)
    requires id in txs
    requires CoversAmong(found, txs, ids, address)
    ensures CoversAmong(found + [txs[id]], txs, ids + {id}, address)
  {
    var found' := found + [txs[id]];
    forall k | k in ids + {id} && k in txs && Involves(txs[k], address)
      ensures txs[k] in found'
    {
      if k != id {
        var i :| 0 <= i < |found| && found[i] == txs[k];
        assert found'[i] == txs[k];
      } else {
        assert found'[|found|] == txs[k];
      }
    }
  }

  lemma DistinctIdsAppend(found: seq<Transaction>, txs: Transactions, ids: set<string>, id: string, address: string)
    requires id in txs && id !in ids && TransactionsKeyed(txs)
    requires FoundAmong(found, txs, ids, address) && DistinctIds(found)
    ensures DistinctIds(found + [txs[id]])
  {
  }

  lemma ListsInvolvedSkip(found: seq<Transaction>, txs: Transactions, ids: set<string>, id: string, address: string)
    requires id in txs && !Involves(txs[id], address)
    requires ListsInvolved(found, txs, ids, address)
    ensures ListsInvolved(found, txs, ids + {id}, address)
  {
    InvolvedAmongAdd(txs, ids, id, address);
  }

  class StateStore {
    var accounts: Accounts
    var transactions: Transactions

    /** Every entry is filed under its own address or id. */
    ghost predicate Valid()
      reads this
    {
      AccountsKeyed(accounts) && TransactionsKeyed(transactions)
    }

    constructor ()
      ensures Valid() && accounts == map[] && transactions == map[]
    {
      accounts := map[];
      transactions := map[];
    }

    /** `get_or_create_account`: an unknown address gets a zero account; a known one is returned untouched. */
    method GetOrCreateAccount(address: string) returns (acc: Account)
      requires Valid()
      modifies this
      ensures Valid() && transactions == old(transactions)
      ensures address in old(accounts) ==> acc == old(accounts)[address] && accounts == old(accounts)
      ensures address !in old(accounts) ==> acc == Account(address, 0, 0) && accounts == old(accounts)[address := acc]
      ensures acc.address == address
    {
      if address !in accounts {
        accounts := accounts[address := Account(address, 0, 0)];
      }
      acc := accounts[address];
    }

    /** `set_balance`. */
    method SetBalance(address: string, balance: u64)
      requires Valid()
      modifies this
      ensures Valid() && transactions == old(transactions)
      ensures accounts == WithBalance(old(accounts), address, balance)
    {
      if address in accounts {
        accounts := accounts[address := accounts[address].(balance := balance)];
      } else {
        accounts := accounts[address := Account(address, balance, 0)];
      }
    }

    /**
     * `transfer`: fails without changing anything when the sender is unknown or
     * short of funds; otherwise moves the funds as Transferred says and records a
     * pending transaction under the fresh id `txid`.
     */
    method Transfer(from: string, to: string, amount: u64, txid: string, timestamp: u64)
      returns (r: Result<Transaction, string>)
      requires Valid() && txid !in transactions
      requires CanTransfer(accounts, from, amount) ==> NoOverflow(accounts, from, to, amount)
      modifies this
      ensures Valid()
      ensures from !in old(accounts) ==> r == Err("Sender account not found") && unchanged(this)
      ensures from in old(accounts) && old(accounts)[from].balance < amount ==>
        r == Err("Insufficient balance") && unchanged(this)
      ensures CanTransfer(old(accounts), from, amount) ==>
        && r == Ok(Transaction(txid, from, to, amount, timestamp, Pending))
        && accounts == Transferred(old(accounts), from, to, amount)
        && transactions == old(transactions)[txid := r.value]
    {
      if from !in accounts {
        return Err("Sender account not found");
      }
      var sender := accounts[from];
      if sender.balance < amount {
        return Err("Insufficient balance");
      }
      ghost var before := accounts;
      accounts := accounts[from := sender.(balance := sender.balance - amount, nonce := sender.nonce + 1)];
      if to in accounts {
        accounts := accounts[to := accounts[to].(balance := accounts[to].balance + amount)];
      } else {
        accounts := accounts[to := Account(to, amount, 0)];
      }
      assert accounts == Transferred(before, from, to, amount);
      var tx := Transaction(txid, from, to, amount, timestamp, Pending);
      transactions := transactions[txid := tx];
      return Ok(tx);
    }

    /** `confirm_transaction`: an unknown id fails; a known one, and only it, becomes Confirmed. */
    method ConfirmTransaction(txid: string) returns (r: Result<(), string>)
      requires Valid()
      modifies this
      ensures Valid() && accounts == old(accounts)
      ensures txid !in old(transactions) ==> r == Err("Transaction not found") && transactions == old(transactions)
      ensures txid in old(transactions) ==> r == Ok(()) && transactions == WithConfirmed(old(transactions), txid)
    {
      if txid !in transactions {
        return Err("Transaction not found");
      }
      transactions := transactions[txid := transactions[txid].(status := Confirmed)];
      return Ok(());
    }

    /**
     * `get_transactions_for_address`: every stored transaction sent or received
     * by `address`, each once, in the table's iteration order.
     */
    method GetTransactionsForAddress(address: string) returns (found: seq<Transaction>)
      requires Valid()
      ensures ListsInvolved(found, transactions, transactions.Keys, address)
    {
      var table := transactions;
      found := [];
      var todo := table.Keys;
      while todo != {}
        invariant todo <= table.Keys
        invariant ListsInvolved(found, table, table.Keys - todo, address)
        decreases |todo|
      {
        var id :| id in todo;
        if Involves(table[id], address) {
          ListsInvolvedAppend(found, table, table.Keys - todo, id, address);
          found := found + [table[id]];
        } else {
          ListsInvolvedSkip(found, table, table.Keys - todo, id, address);
        }
        assert table.Keys - (todo - {id}) == (table.Keys - todo) + {id};
        todo := todo - {id};
      }
      assert table.Keys - todo == table.Keys;
    }

    /** `get_all_accounts`: every account, each once, in the table's iteration order. */
    method GetAllAccounts() returns (accs: seq<Account>)
      requires Valid()
      ensures ListsAccounts(accs, accounts, accounts.Keys)
      ensures |accs| == |accounts.Keys|
    {
      var table := accounts;
      accs := [];
      var todo := table.Keys;
      while todo != {}
        invariant todo <= table.Keys
        invariant ListsAccounts(accs, table, table.Keys - todo)
        invariant |accs| + |todo| == |table.Keys|
        decreases |todo|
      {
        var a :| a in todo;
        ListsAccountsAppend(accs, table, table.Keys - todo, a);
        accs := accs + [table[a]];
        assert table.Keys - (todo - {a}) == (table.Keys - todo) + {a};
        todo := todo - {a};
      }
    }
  }
}
