# Mini bank ledger, modelled in Dafny

This project models the ledger at the heart of `newbnk.py`, a command-line
"mini bank". The program keeps a table `bank_accounts` that maps
account-number strings to records. Each record has a name, a password hash,
a balance and a transaction log. The program also keeps a counter
`next_account_number`, which starts at 10001. The menu offers five
operations: create an account, deposit, withdraw, check the balance and view
the transactions. Every operation except account creation first
authenticates the account number and password.

Files and modules:

- `options.dfy` (`Options`): an `Option` type for missing keys, a missing
  data file and amounts that do not parse.
- `numerals.dfy` (`Numerals`): `Str`, Python's `str` on integers, and
  `Parse`, which reads such a numeral back. Their round trip is what proves
  that distinct counter values give distinct account keys.
- `accounts.dfy` (`Accounts`): the record, the log entry
  `Deposited(x) | Withdrew(x)`, and the updates a deposit and a withdrawal
  make to a record. `AccountValid` says the balance is non-negative, equals
  the net sum of the log, and every logged amount is positive.
- `ledger.dfy` (`Ledger`): class `Bank`, with the table and the counter as
  fields that its methods update. Its invariant `Valid()` says every record
  is valid and every key is a numeral below the counter. Every method except
  `Load` keeps `Valid()` and `Extends`. `Extends` means no account disappears,
  names and hashes never change, and logs only grow at the end. `Load`
  replaces the state with whatever the file holds, which need not be valid
  (see the last note under "Left out").

Modelling choices:

- Money is an exact `real`.
- An amount is an `Option<real>`. `None` means `float()` raised `ValueError`.
- `hash_password` is the field `hash: string -> string`, given to the
  constructor. The proofs assume nothing about it.
- The prompts' values are method parameters.
- Each failure path returns an `Outcome`, one for each message the program
  prints.
- `Load` takes `Option<SavedData>`. `None` means the data file does not
  exist. Either top-level key of `SavedData` may be absent, and then the
  default of `load_data` applies.
- `save_data` becomes the function `Save`. Its contract is the round trip:
  loading what it writes gives back the same table and counter.
- `Serve` runs the menu's dispatch over any sequence of requests. Its
  contract is the whole-session property: a valid ledger stays valid, so no
  balance is ever negative.
- `Walkthrough` is a short client. It uses nothing but the contracts: it
  deposits 100, withdraws 30, and then sees a too-large withdrawal and a
  negative deposit refused.

`newbnk.py` has no transfers, interest or loans, so the model has none.
On a corrupt data file `json.load` raises, and the model claims no recovery.

## Model

| member | source | states |
|---|---|---|
| `Numerals.Digits` | newbnk.py:36 | The decimal rendering of a natural number is non-empty and made of digits only. It is one character long exactly when the number is below 10, and from 10 on it does not start with '0'. |
| `Numerals.Str` | newbnk.py:36 | `str` of an integer is non-empty. It starts with '-' exactly when the integer is negative, and everything after any sign is a digit. |
| `Numerals.ParseStr` | newbnk.py:32-36 | Reading back the string of an issued number gives that number. |
| `Numerals.StrInjective` | newbnk.py:32-36 | Two different counter values are issued as two different account-number strings. |
| `Accounts.Opened` | newbnk.py:49-54 | A new record has the given name, the given password hash, balance 0.0 and an empty log, and it is a valid record. |
| `Accounts.Credit` | newbnk.py:69-70 | A deposit keeps name and hash. It raises the balance by exactly the amount and appends exactly one `Deposited(amount)` at the end of the log. For a positive amount on a valid record, the result is valid. |
| `Accounts.Debit` | newbnk.py:90-91 | A withdrawal keeps name and hash. It lowers the balance by exactly the amount and appends exactly one `Withdrew(amount)` at the end of the log. For an amount in (0, balance] on a valid record, the result is valid and so not negative. |
| `Ledger.FreshKey` | newbnk.py:48-49 | In a valid table, the string of the counter's current value is not yet a key. |
| `Ledger.OpenKeepsValid` | newbnk.py:48-54 | Filing a valid record under the freshly issued number, then raising the counter, keeps the table valid and keeps every existing account as it was. |
| `Ledger.Bank.constructor` | newbnk.py:8-9 | The program starts with an empty table and the counter at 10001; that state is valid. |
| `Ledger.Bank.Authenticate` | newbnk.py:38-42 | False for an account number not in the table. Otherwise true exactly when the stored hash equals the hash of the supplied password. As a function, it changes nothing. |
| `Ledger.Bank.GenerateAccountNumber` | newbnk.py:32-36 | Returns the string of the old counter value and raises the counter by exactly 1. The table is untouched. In a valid ledger the number returned is not a key. |
| `Ledger.Bank.CreateAccount` | newbnk.py:45-56 | The table becomes the old table plus the new number mapped to a fresh record with the given name, the hash of the given password, balance 0 and an empty log. The counter rises by 1. The new account authenticates with its password. In a valid ledger exactly one key is added, every earlier account is unchanged, and validity is kept. |
| `Ledger.Bank.Deposit` | newbnk.py:58-74 | Authentication failure, an amount that does not parse, and an amount <= 0 each return their own outcome and leave the whole state unchanged. Otherwise only that account changes, by `Credit`. The counter never changes. Validity and `Extends` are kept. |
| `Ledger.Bank.Withdraw` | newbnk.py:76-95 | As for deposit. Also, for a positive amount, `InsufficientBalance` is returned exactly when the balance is below the amount, and then nothing changes. Success happens exactly when the amount is in (0, balance], and then only that account changes, by `Debit`. Validity and `Extends` are kept. |
| `Ledger.Bank.CheckBalance` | newbnk.py:97-104 | Gives a balance exactly when authentication succeeds, and that balance is the account's. In a valid ledger it is never negative. |
| `Ledger.Bank.ViewTransactions` | newbnk.py:106-118 | Gives a log exactly when authentication succeeds, and that log is the account's, oldest entry first. In a valid ledger the log's net sum is the balance. |
| `Ledger.Bank.Save` | newbnk.py:23-29 | What is written always holds both top-level keys, `accounts` and `next_account_number`. Loading it back gives exactly the current table and counter. |
| `Ledger.Bank.Load` | newbnk.py:15-21 | No data file: the state is unchanged. Otherwise the table becomes the file's `accounts` (empty if absent) and the counter becomes its `next_account_number` (10001 if absent). |
| `Ledger.Bank.Serve` | newbnk.py:133-142 | Over any sequence of create, deposit, withdraw, balance and history requests, the counter never decreases. A valid ledger stays valid, so every balance stays >= 0. No account is removed or renamed, and every log only grows at its end. |

## Left out

- The menu loop's I/O is not modelled: the prompts, `print` messages,
  `.strip()`, the exit choice and the "invalid choice" branch (newbnk.py:121-148).
  `Serve` models only the dispatch to the five operations.
- File I/O is not modelled: `os.path.exists`, `open`, and JSON encoding and decoding. A data file is a
  `SavedData` value. `json.load` raising on a corrupt file, and a `KeyError`
  from a record that lacks a field, are not modelled.
- The call to `save_data` after each successful operation is not modelled as
  a separate step. Saving does not change the in-memory state, and `Save`
  states what it writes.
- SHA-256 is not modelled. `hash` is an arbitrary function, so nothing is
  proved that depends on what it computes.
- Floating point is not modelled. Amounts and balances are exact reals.
  `float()` also accepts "nan" and "inf". A NaN passes both `amount <= 0` and
  `balance < amount`, and it would make a balance NaN. The model has no such
  values.
- `authenticate` treats an empty record as missing (`if not account`). The
  records here always have all four fields, so they are never empty.
- `create_account` stores the new record whether or not the key is already
  taken, and the model does the same. A loaded file can break the
  invariant, because its keys need not be numerals below its counter (for
  example, a file that has accounts but no `next_account_number`). Then a new
  account can overwrite an old one. For that reason `CreateAccount`
  promises freshness only from a valid ledger.
