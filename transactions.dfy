/**
 * emit/transactions/base.py: `BaseTransactionHandler`, the bookkeeping of which
 * transactions each node takes part in. Everything beyond that bookkeeping is left to
 * subclasses: the base class raises `NotImplementedError`.
 */
module Transactions {
  import opened Values

  /** node name -> names of the transactions it belongs to */
  type Membership = map<string, set<string>>

  /** The table after `transaction` is added for node `name`. */
  function WithTransaction(transactions: Membership, transaction: string, name: string): (r: Membership)
    ensures r.Keys == transactions.Keys + {name}
    ensures transaction in r[name]
    ensures r[name] == Get(transactions, name, {}) + {transaction}
    ensures forall n :: n in transactions && n != name ==> r[n] == transactions[n]
  {
    transactions[name := Get(transactions, name, {}) + {transaction}]
  }

  /** Adding the same transaction for the same node twice is the same as adding it once. */
  lemma WithTransactionIdempotent(transactions: Membership, transaction: string, name: string)
    ensures WithTransaction(WithTransaction(transactions, transaction, name), transaction, name)
         == WithTransaction(transactions, transaction, name)
  {
    var once := WithTransaction(transactions, transaction, name);
    assert once[name] + {transaction} == once[name];
  }

  /** Additions for different nodes, or different transactions, commute. */
  lemma WithTransactionCommutes(transactions: Membership, t1: string, n1: string, t2: string, n2: string)
    ensures WithTransaction(WithTransaction(transactions, t1, n1), t2, n2)
         == WithTransaction(WithTransaction(transactions, t2, n2), t1, n1)
  {
    var a := WithTransaction(WithTransaction(transactions, t1, n1), t2, n2);
    var b := WithTransaction(WithTransaction(transactions, t2, n2), t1, n1);
    if n1 == n2 {
      assert a[n1] == b[n1];
    }
  }

  class BaseTransactionHandler {
    var transactions: Membership
    /** transaction name -> node name -> rollback function */
    var rollbackFunctions: map<string, map<string, Callable>>

    /** `__init__`: no transactions and no rollback functions. */
    constructor ()
      ensures transactions == map[] && rollbackFunctions == map[]
    {
      transactions := map[];
      rollbackFunctions := map[];
    }

    /** `add_transaction`: `name` joins `transaction`; the node's whole set is returned. */
    method AddTransaction(transaction: string, name: string) returns (names: set<string>)
      modifies this`transactions
      ensures transactions == WithTransaction(old(transactions), transaction, name)
      ensures names == transactions[name]
    {
      var current := Get(transactions, name, {});
      transactions := transactions[name := current + {transaction}];
      names := transactions[name];
    }

    /** `add_rollback`: not implemented by the base handler. */
    method AddRollback(transaction: string, name: string, rollback: Callable) returns (r: Result<()>)
      ensures r == Err(NotImplementedError)
    {
      r := Err(NotImplementedError);
    }

    /** `set_transaction_id`: not implemented by the base handler. */
    method SetTransactionId(message: Bundle) returns (r: Result<Bundle>)
      ensures r == Err(NotImplementedError)
    {
      r := Err(NotImplementedError);
    }

    /** `start_call`: not implemented by the base handler. */
    method StartCall(transactionId: string, name: string, message: Bundle) returns (r: Result<()>)
      ensures r == Err(NotImplementedError)
    {
      r := Err(NotImplementedError);
    }

    /** `finish_call`: not implemented by the base handler. */
    method FinishCall(transactionId: string, name: string) returns (r: Result<()>)
      ensures r == Err(NotImplementedError)
    {
      r := Err(NotImplementedError);
    }

    /** `rollback`: not implemented by the base handler. */
    method Rollback(transactionId: string, name: string) returns (r: Result<()>)
      ensures r == Err(NotImplementedError)
    {
      r := Err(NotImplementedError);
    }
  }
}
