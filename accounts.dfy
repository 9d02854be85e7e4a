/**
 * One entry of the account table: the record `create_account` builds, and
 * the two in-place updates `deposit` and `withdraw` make to it.
 */
module Accounts {

  /** A log entry; the program writes these as the strings "Deposited ₹x" and "Withdrew ₹x". */
  datatype Transaction = Deposited(amount: real) | Withdrew(amount: real)

  /** `password` holds the hash of the password, never the password itself. */
  datatype Account = Account(name: string, password: string, balance: real, transactions: seq<Transaction>)

  /** The effect of one entry on the balance. */
  function Signed(t: Transaction): real {
    match t
    case Deposited(x) => x
    case Withdrew(x) => -x
  }

  /** The net effect of a log on the balance, summed from the oldest entry. */
  function NetSum(log: seq<Transaction>): real {
    if log == [] then 0.0 else NetSum(log[..|log| - 1]) + Signed(log[|log| - 1])
  }

  lemma NetSumAppend(log: seq<Transaction>, t: Transaction)
    ensures NetSum(log + [t]) == NetSum(log) + Signed(t)
  {
    assert (log + [t])[..|log|] == log;
  }

  /**
   * What holds of every record the program itself creates and updates: the
   * balance is never negative, it is the net sum of the log, and every
   * logged amount is positive.
   */
  predicate AccountValid(a: Account) {
    && a.balance >= 0.0
    && a.balance == NetSum(a.transactions)
    && forall i :: 0 <= i < |a.transactions| ==> a.transactions[i].amount > 0.0
  }

  /** A new record: the given name and hash, balance 0 and an empty log. */
  function Opened(name: string, passwordHash: string): (a: Account)
    ensures AccountValid(a)
    ensures a.name == name && a.password == passwordHash
    ensures a.balance == 0.0 && |a.transactions| == 0
  {
    Account(name, passwordHash, 0.0, [])
  }

  /** A deposit of `amount` applied to the record. */
  function Credit(a: Account, amount: real): (r: Account)
    ensures r.name == a.name && r.password == a.password
    ensures r.balance == a.balance + amount
    ensures r.transactions == a.transactions + [Deposited(amount)]
    ensures AccountValid(a) && amount > 0.0 ==> AccountValid(r)
  {
    var r := a.(balance := a.balance + amount, transactions := a.transactions + [Deposited(amount)]);
    NetSumAppend(a.transactions, Deposited(amount));
    r
  }

  /** A withdrawal of `amount` applied to the record. */
  function Debit(a: Account, amount: real): (r: Account)
    ensures r.name == a.name && r.password == a.password
    ensures r.balance == a.balance - amount
    ensures r.transactions == a.transactions + [Withdrew(amount)]
    ensures AccountValid(a) && 0.0 < amount <= a.balance ==> AccountValid(r)
  {
    var r := a.(balance := a.balance - amount, transactions := a.transactions + [Withdrew(amount)]);
    NetSumAppend(a.transactions, Withdrew(amount));
    r
  }
}
