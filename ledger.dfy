/**
 * The account table and the account-number counter, with the operations
 * the menu offers on them.
 */
module Ledger {
  import opened Options
  import opened Numerals
  import opened Accounts

  /** The counter's starting value, and its value when a data file lacks it. */
  const FirstAccountNumber: int := 10001

  /** How an operation ended; each kind is one message the program prints. */
  datatype Outcome =
    | Success
    | AuthenticationFailed  // "Authentication failed."
    | InvalidAmount         // "Invalid amount." (the amount did not parse)
    | NonPositiveAmount     // "Amount must be positive."
    | InsufficientBalance   // "Insufficient balance."

  /** The top-level keys of the data file; either may be missing. */
  datatype SavedData = SavedData(accounts: Option<map<string, Account>>, nextAccountNumber: Option<int>)

  /** The table a data file gives: its `accounts`, or an empty table. */
  function LoadedAccounts(d: SavedData): map<string, Account> {
    d.accounts.GetOr(map[])
  }

  /** The counter a data file gives: its `next_account_number`, or 10001. */
  function LoadedCounter(d: SavedData): int {
    d.nextAccountNumber.GetOr(FirstAccountNumber)
  }

  /** `key` is a numeral the counter has already handed out. */
  predicate Issued(key: string, next: int) {
    Parse(key).Some? && Parse(key).value < next
  }

  /** Every record is valid and every key was issued before the counter's current value. */
  predicate LedgerValid(accounts: map<string, Account>, next: int) {
    forall key :: key in accounts ==> AccountValid(accounts[key]) && Issued(key, next)
  }

  /**
   * `after` keeps every account of `before` under the same key, with the same
   * name and password hash, and a log that `before`'s log is a prefix of.
   */
  predicate Extends(before: map<string, Account>, after: map<string, Account>) {
    forall key :: key in before ==>
      && key in after
      && after[key].name == before[key].name
      && after[key].password == before[key].password
      && before[key].transactions <= after[key].transactions
  }

  /** In a valid table, the number the counter would hand out next is not a key yet. */
  lemma FreshKey(accounts: map<string, Account>, next: int)
    requires LedgerValid(accounts, next)
    ensures Str(next) !in accounts
  {
    ParseStr(next);
  }

  /** Issuing a number and filing a valid record under it keeps the table valid. */
  lemma OpenKeepsValid(accounts: map<string, Account>, next: int, a: Account)
    requires LedgerValid(accounts, next) && AccountValid(a)
    ensures LedgerValid(accounts[Str(next) := a], next + 1)
    ensures Extends(accounts, accounts[Str(next) := a])
  {
    ParseStr(next);
    FreshKey(accounts, next);
  }

  lemma ExtendsTransitive(a: map<string, Account>, b: map<string, Account>, c: map<string, Account>)
    requires Extends(a, b) && Extends(b, c)
    ensures Extends(a, c)
  {
  }

  /** One choice of the menu, with the values its prompts would read. */
  datatype Request =
    | NewAccount(name: string, password: string)
    | DepositMoney(accountNo: string, password: string, amount: Option<real>)
    | WithdrawMoney(accountNo: string, password: string, amount: Option<real>)
    | BalanceQuery(accountNo: string, password: string)
    | HistoryQuery(accountNo: string, password: string)

  class Bank {
    /** `bank_accounts`: account-number strings to records. */
    var accounts: map<string, Account>
    /** `next_account_number`: the number the next account gets. */
    var nextAccountNumber: int
    /** `hash_password`; the proofs assume nothing about it. */
    const hash: string -> string

    ghost predicate Valid()
      reads this
    {
      LedgerValid(accounts, nextAccountNumber)
    }

    /** The state the program starts in: no accounts, counter at 10001. */
    constructor (hash: string -> string)
      ensures Valid()
      ensures accounts == map[] && nextAccountNumber == FirstAccountNumber
      ensures this.hash == hash
    {
      accounts := map[];
      nextAccountNumber := FirstAccountNumber;
      this.hash := hash;
    }

    /** False for an unknown account; otherwise whether the stored hash is the hash of `password`. */
    function Authenticate(accountNo: string, password: string): (ok: bool)
      reads this
      ensures accountNo !in accounts ==> !ok
      ensures accountNo in accounts ==> (ok <==> accounts[accountNo].password == hash(password))
    {
      accountNo in accounts && accounts[accountNo].password == hash(password)
    }

    method GenerateAccountNumber() returns (accountNo: string)
      modifies this
      ensures accountNo == Str(old(nextAccountNumber))
      ensures nextAccountNumber == old(nextAccountNumber) + 1
      ensures accounts == old(accounts)
      ensures old(Valid()) ==> Valid() && accountNo !in accounts
    {
      ghost var wasValid := Valid();
      accountNo := Str(nextAccountNumber);
      if wasValid {
        FreshKey(accounts, nextAccountNumber);
      }
      nextAccountNumber := nextAccountNumber + 1;
    }

    method CreateAccount(name: string, password: string) returns (accountNo: string)
      modifies this
      ensures accountNo == Str(old(nextAccountNumber))
      ensures nextAccountNumber == old(nextAccountNumber) + 1
      ensures accounts == old(accounts)[accountNo := Opened(name, hash(password))]
      ensures Authenticate(accountNo, password)
      ensures old(Valid()) ==> && Valid()
                               && accountNo !in old(accounts)
                               && accounts.Keys == old(accounts).Keys + {accountNo}
                               && Extends(old(accounts), accounts)
    {
      ghost var wasValid := Valid();
      var before := accounts;
      var next := nextAccountNumber;
      accountNo := GenerateAccountNumber();
      accounts := accounts[accountNo := Opened(name, hash(password))];
      if wasValid {
        OpenKeepsValid(before, next, Opened(name, hash(password)));
      }
    }

    method Deposit(accountNo: string, password: string, amount: Option<real>) returns (r: Outcome)
      modifies this
      ensures !old(Authenticate(accountNo, password)) ==> r == AuthenticationFailed
      ensures old(Authenticate(accountNo, password)) && amount.None? ==> r == InvalidAmount
      ensures old(Authenticate(accountNo, password)) && amount.Some? && amount.value <= 0.0 ==> r == NonPositiveAmount
      ensures r == Success <==> old(Authenticate(accountNo, password)) && amount.Some? && amount.value > 0.0
      ensures r != Success ==> accounts == old(accounts)
      ensures r == Success ==> accounts == old(accounts)[accountNo := Credit(old(accounts)[accountNo], amount.value)]
      ensures nextAccountNumber == old(nextAccountNumber)
      ensures old(Valid()) ==> Valid() && Extends(old(accounts), accounts)
    {
      if !Authenticate(accountNo, password) {
        return AuthenticationFailed;
      }
      if amount.None? {
        return InvalidAmount;
      }
      if amount.value <= 0.0 {
        return NonPositiveAmount;
      }
      accounts := accounts[accountNo := Credit(accounts[accountNo], amount.value)];
      r := Success;
    }

    method Withdraw(accountNo: string, password: string, amount: Option<real>) returns (r: Outcome)
      modifies this
      ensures !old(Authenticate(accountNo, password)) ==> r == AuthenticationFailed
      ensures old(Authenticate(accountNo, password)) && amount.None? ==> r == InvalidAmount
      ensures old(Authenticate(accountNo, password)) && amount.Some? && amount.value <= 0.0 ==> r == NonPositiveAmount
      ensures old(Authenticate(accountNo, password)) && amount.Some? && 0.0 < amount.value
              ==> (r == InsufficientBalance <==> old(accounts)[accountNo].balance < amount.value)
      ensures r == Success <==> && old(Authenticate(accountNo, password))
                                && amount.Some?
                                && 0.0 < amount.value <= old(accounts)[accountNo].balance
      ensures r != Success ==> accounts == old(accounts)
      ensures r == Success ==> accounts == old(accounts)[accountNo := Debit(old(accounts)[accountNo], amount.value)]
      ensures nextAccountNumber == old(nextAccountNumber)
      ensures old(Valid()) ==> Valid() && Extends(old(accounts), accounts)
    {
      if !Authenticate(accountNo, password) {
        return AuthenticationFailed;
      }
      if amount.None? {
        return InvalidAmount;
      }
      if amount.value <= 0.0 {
        return NonPositiveAmount;
      }
      if accounts[accountNo].balance < amount.value {
        return InsufficientBalance;
      }
      accounts := accounts[accountNo := Debit(accounts[accountNo], amount.value)];
      r := Success;
    }

    /** The balance, when authentication succeeds. */
    function CheckBalance(accountNo: string, password: string): (balance: Option<real>)
      reads this
      ensures balance.Some? <==> Authenticate(accountNo, password)
      ensures balance.Some? ==> balance.value == accounts[accountNo].balance
      ensures Valid() && balance.Some? ==> balance.value >= 0.0
    {
      if Authenticate(accountNo, password) then Some(accounts[accountNo].balance) else None
    }

    /** The log, oldest entry first, when authentication succeeds. */
    function ViewTransactions(accountNo: string, password: string): (log: Option<seq<Transaction>>)
      reads this
      ensures log.Some? <==> Authenticate(accountNo, password)
      ensures log.Some? ==> log.value == accounts[accountNo].transactions
      ensures Valid() && log.Some? ==> NetSum(log.value) == accounts[accountNo].balance
    {
      if Authenticate(accountNo, password) then Some(accounts[accountNo].transactions) else None
    }

    /** What `save_data` writes: the whole table and the counter. */
    function Save(): (d: SavedData)
      reads this
      ensures d.accounts.Some? && d.nextAccountNumber.Some?
      ensures LoadedAccounts(d) == accounts && LoadedCounter(d) == nextAccountNumber
    {
      SavedData(Some(accounts), Some(nextAccountNumber))
    }

    /** `load_data`: `None` when there is no data file, which leaves the state as it is. */
    method Load(file: Option<SavedData>)
      modifies this
      ensures file.None? ==> accounts == old(accounts) && nextAccountNumber == old(nextAccountNumber)
      ensures file.Some? ==> accounts == LoadedAccounts(file.value) && nextAccountNumber == LoadedCounter(file.value)
    {
      if file.Some? {
        accounts := LoadedAccounts(file.value);
        nextAccountNumber := LoadedCounter(file.value);
      }
    }

    /** The menu's dispatch, run over a sequence of requests. */
    method Serve(requests: seq<Request>)
      modifies this
      ensures old(nextAccountNumber) <= nextAccountNumber
      ensures old(Valid()) ==> Valid() && Extends(old(accounts), accounts)
    {
      ghost var wasValid := Valid();
      var i := 0;
      while i < |requests|
        invariant 0 <= i <= |requests|
        invariant old(nextAccountNumber) <= nextAccountNumber
        invariant wasValid ==> Valid() && Extends(old(accounts), accounts)
      {
        ghost var before := accounts;
        match requests[i] {
          case NewAccount(name, password) =>
            var _ := CreateAccount(name, password);
          case DepositMoney(no, password, amount) =>
            var _ := Deposit(no, password, amount);
          case WithdrawMoney(no, password, amount) =>
            var _ := Withdraw(no, password, amount);
          case BalanceQuery(no, password) =>
            var _ := CheckBalance(no, password);
          case HistoryQuery(no, password) =>
            var _ := ViewTransactions(no, password);
        }
        if wasValid {
          ExtendsTransitive(old(accounts), before, accounts);
        }
        i := i + 1;
      }
    }
  }

  /** A session that relies only on the contracts above: open an account, deposit, withdraw. */
  method Walkthrough(bank: Bank, name: string, password: string)
    modifies bank
  {
    var no := bank.CreateAccount(name, password);
    var r := bank.Deposit(no, password, Some(100.0));
    assert r == Success;
    assert bank.accounts[no].transactions == [Deposited(100.0)];
    r := bank.Withdraw(no, password, Some(30.0));
    assert r == Success;
    assert bank.accounts[no].transactions == [Deposited(100.0), Withdrew(30.0)];
    r := bank.Withdraw(no, password, Some(100.0));
    assert r == InsufficientBalance;
    r := bank.Deposit(no, password, Some(-5.0));
    assert r == NonPositiveAmount;
    assert bank.CheckBalance(no, password) == Some(70.0);
    assert bank.accounts[no].transactions == [Deposited(100.0), Withdrew(30.0)];
    assert bank.Authenticate(no, password);
    assert bank.ViewTransactions(no, password) == Some([Deposited(100.0), Withdrew(30.0)]);
  }
}
