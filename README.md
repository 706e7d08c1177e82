# Bank account ledger

A Dafny model of the `BankAccount` class of src/bank_account.py. The class is
an in-memory ledger with four fields: the account number, the owner's name,
the balance and the transaction log. It is opened with a balance clamped to
zero, takes deposits and withdrawals, raises `ValueError` on a negative
amount and on a withdrawal larger than the balance, logs every non-zero
movement as text such as `Deposit of ¤100`, can be reset by
`delete_account`, and writes itself out as a single JSON-like line.

The model has four modules:

- `Text` (text.dfy) holds the decimal rendering of integers, as Python's
  `str` gives it for an `int`, and a reader for it. It also holds
  `", ".join` and the small scanners the snapshot reader uses.
- `Ledger` (ledger.dfy) holds the account as a value (`State`), the log
  records (`Txn`) and their text, and the raised errors with the messages
  of bank_account.py. Each operation is a pure step function. Lemmas there cover any
  run of deposits and withdrawals: the balance never goes negative, the
  number and owner never change, the log only grows at its end, and the
  balance equals the opening balance plus deposits minus withdrawals.
- `Snapshot` (snapshot.dfy) holds the line `to_json` writes, as a function
  of the state (`Encode`), and a reader for exactly that layout (`Decode`).
  It proves the line reads back as the account it was written from
  (`Decode(Encode(s)) == Some(s)`) whenever the owner's name holds no
  double quote. The writer escapes nothing, and `Decode` ends the owner at
  its first double quote, so it cannot read back an owner that holds one.
  The line itself loses nothing even then: two different accounts never
  write the same line (`EncodeInjective`).
- `BankAccounts` (bank_account.dfy) holds `class BankAccount`, whose
  methods update its fields in place. Each method is proved to leave the
  fields exactly as the matching `Ledger` step says. `Valid()` (balance
  `>= 0`) is established by the constructor and kept by every method. The
  module also models the tests of test_bank_account.py as small scenario methods over one
  shared fixture method.

A raised `ValueError` is modelled as the result `Raised(error)` of type
`Outcome`. Whatever raises, it does so before any field changes, so a raised
outcome leaves the state unchanged.

## Model

| member | source | states |
|---|---|---|
| Text.IntToString | src/bank_account.py:38 | Python's `str` of an `int`, used at line 38 for the number and balance and at lines 59 and 78 for the amount: a numeral, with a leading minus sign exactly for a negative number and no leading zero except for 0 itself; `Text.ParseIntToString` shows it is read back as the same integer |
| Text.Join | src/bank_account.py:44 | `", ".join`: the empty list joins to `""`, a one-item list to that item (the case `to_json` writes for one record); `Snapshot.ItemsRoundTrip` shows the joined quoted lines read back as the list |
| Text.ParseIntToString | src/bank_account.py:38 | the decimal text of any integer (the balance and account number in the snapshot, the amount in a log line) reads back as that integer, so distinct amounts never render alike |
| Text.NumeralHasNoDelimiter | src/bank_account.py:38 | a rendered integer contains neither `,` nor `"`, so it cannot run into the next field of the snapshot line |
| Ledger.Render | src/bank_account.py:58-78 | a log line holds no double quote, so wrapping it in quotes as `to_json` does yields one well-delimited string |
| Ledger.RenderParses | src/bank_account.py:58-78 | a log line, `Deposit of ¤<n>` or `Withdraw of ¤<n>`, determines the kind and amount of the movement it records |
| Ledger.ParseRendered | src/bank_account.py:58-78 | the whole log as text determines the list of movements, in order |
| Ledger.AmountError.Message | src/bank_account.py:51-71 | the text of each `ValueError` the operations raise, word for word; it has no `ensures` of its own, and `BankAccounts.DepositScenario` and `BankAccounts.WithdrawScenario` state the messages the tests expect |
| Ledger.DepositStep | src/bank_account.py:47-59 | `deposit` on the account's fields as a value; it has no `ensures` of its own, and `Ledger.DepositEffect` states what it does |
| Ledger.WithdrawStep | src/bank_account.py:62-78 | `withdraw` on the account's fields as a value; it has no `ensures` of its own, and `Ledger.WithdrawEffect` states what it does |
| Ledger.Open | src/bank_account.py:12-17 | a new account has the given number and owner, an empty log, and balance `max(balance, 0)`: the given balance when non-negative, 0 otherwise |
| Ledger.Cleared | src/bank_account.py:19-24 | after `delete_account` the number and balance are 0, the owner is empty and the log is empty, whatever the account held before; the state is valid |
| Ledger.DepositEffect | src/bank_account.py:47-59 | a deposit raises exactly when the amount is negative, with the negative-deposit error and no change; otherwise it adds the amount and appends one record exactly when the amount is non-zero; number and owner never change |
| Ledger.WithdrawEffect | src/bank_account.py:62-78 | a withdrawal completes exactly when `0 <= amount <= balance`; a negative amount raises the negative-withdraw error, checked first; an amount over the balance raises the oversized-withdraw error; a raise changes nothing; a completed one subtracts the amount and logs it exactly when non-zero |
| Ledger.ApplyKeepsLedger | src/bank_account.py:47-78 | one deposit or withdrawal from a valid state leaves a valid state with the same number and owner, and either logs nothing with the balance unchanged, or appends one record whose signed amount is what the balance moved by |
| Ledger.RunKeepsLedger | src/bank_account.py:47-78 | after any sequence of deposits and withdrawals (raises caught), the balance is non-negative, number and owner are unchanged, the old log is a prefix of the new one, the balance is the old one plus the net of the appended records, and no prefix of those records ever takes the balance below zero |
| Ledger.OpenedRun | src/bank_account.py:12-78 | from a freshly opened account, after any run, the balance is the clamped opening balance plus deposits minus withdrawals in the log, and is non-negative |
| Snapshot.Encode | src/bank_account.py:35-44 | the text of the two writes of `to_json`; it has no `ensures` of its own, and `Snapshot.DecodeEncode`, `Snapshot.EncodeInjective` and `Snapshot.EncodeExample` state what it determines and what it is for the test's account |
| Snapshot.Quoted | src/bank_account.py:41 | the list comprehension wraps each log line in double quotes and keeps order and length |
| Snapshot.ItemsRoundTrip | src/bank_account.py:41-44 | a non-empty list of quote-free strings, quoted, joined with `", "` and closed with `]}`, reads back as the same list |
| Snapshot.TransactionsRoundTrip | src/bank_account.py:41-44 | the second write of `to_json` (an empty log included, which gives just `]}`) determines the log |
| Snapshot.DecodeEncode | src/bank_account.py:35-44 | the snapshot line determines all four fields of the account whenever the owner's name holds no double quote |
| Snapshot.DecodedOwnerHasNoQuote | src/bank_account.py:38 | the owner is written between double quotes with nothing escaped, and the reader ends it at the first double quote: any owner `Decode` reads holds none, so an owner that holds one is never read back by it |
| Snapshot.EncodeInjective | src/bank_account.py:35-44 | the line determines the account for every owner, a double quote in it included: two accounts that write the same line are the same account |
| Snapshot.EncodeExample | tests/test_bank_account.py:45-56 | account 1234 of "John Doe" with balance 500 after a deposit and a withdrawal of 100 encodes to the exact line the test expects |
| BankAccounts.BankAccount.constructor | src/bank_account.py:12-17 | the fields are the given number and owner, the balance clamped at 0, an empty log; owner defaults to `""` and balance to 0; the state is `Open(...)` and valid |
| BankAccounts.BankAccount.DeleteAccount | src/bank_account.py:19-24 | all four fields are reset (0, `""`, 0, empty log) and the state is `Cleared()`, the same whatever the fields held |
| BankAccounts.BankAccount.Deposit | src/bank_account.py:47-59 | the outcome and new fields are exactly `DepositStep` of the old state: a negative amount raises and changes nothing, otherwise the balance grows by the amount and a record is appended only for a non-zero amount; validity is kept |
| BankAccounts.BankAccount.Withdraw | src/bank_account.py:62-78 | the outcome and new fields are exactly `WithdrawStep` of the old state: negative raises, then over-balance raises, both changing nothing; otherwise the balance drops by the amount and a record is appended only for a non-zero amount; the balance stays non-negative |
| BankAccounts.BankAccount.GetBalance | src/bank_account.py:81-83 | returns the current balance, which is non-negative, and changes nothing |
| BankAccounts.BankAccount.ShowTransactions | src/bank_account.py:85-88 | the lines printed are the log's lines, one per record, in order |
| BankAccounts.BankAccount.ToJson | src/bank_account.py:35-44 | the text of the two writes is `Encode` of the account's fields, and it reads back as those fields whenever the owner holds no double quote |
| BankAccounts.ToJsonScenario | tests/test_bank_account.py:45-56 | the class's own methods, in the test's order, produce the test's expected line |
| BankAccounts.FixtureRow | tests/test_bank_account.py:12-25 | the test fixture (account 1234 of "John Doe" with 500, log cleared) followed by one deposit or withdrawal gives exactly the outcome, balance and log length of `DepositStep` or `WithdrawStep` on that state |
| BankAccounts.DepositScenario | tests/test_bank_account.py:87-124 | deposits of 100, 0 and -100 into a fresh account of 500: balances 600, 500, 500; logged 1, 0, 0; the last raises with the message "Negative deposits are invalid!" |
| BankAccounts.WithdrawScenario | tests/test_bank_account.py:127-164 | withdrawals of 100, 0, -100 and 1000 from a fresh account of 500: balances 400, 500, 500, 500; logged 1, 0, 0, 0; the last two raise with the negative and oversized messages |
| BankAccounts.OpenScenario | tests/test_bank_account.py:27-43 | opening balances -100, 0, 500 and 1000 give 0, 0, 500 and 1000, with the given number and owner and an empty log |

## Left out

- `from_json`: it reads `<account_number>.json` and parses it with `json.loads`, which is not part of this model. `Snapshot.Decode` is a reader for the written layout only, used to state what the written line determines; "reads back" in this model means that reader, not the program's save and load. `json.loads` after `readline` (src/bank_account.py:30) would also misread or reject owners that hold no double quote: a backslash starts an escape (`\n` and `\u0041` decode to other text, `\q` raises), a control character is rejected, and `readline` stops at a newline.
- File I/O in `to_json`: the file name `<account_number>.json` and the two `f.write` calls are modelled only as the text they write, in the same two parts.
- `print` in `show_transactions`: the method returns the lines it would print.
- Floating-point amounts and balances: money is an unbounded `int`. Python would render a float balance as `500.0`, and the default opening balance is `0.0`, which `to_json` would write as `0.0`. The model writes integer text only.
- Ledger.Txn: bank_account.py logs formatted strings. The model logs `Txn(kind, amount)` records and renders them with `Render`. `Ledger.ParseRendered` shows the two forms carry the same information.
- Argument types: Python does not check them, so a non-numeric amount would raise a `TypeError`. The model accepts only integers.
- The log object: in bank_account.py `transactions` is one list changed in place by `append` and `clear` (lines 17, 24, 59, 78), so code holding a reference to it sees later changes. In the model the log is a `seq<Txn>` value that each method replaces, so that aliasing is not modelled.
- Exceptions: `ValueError` is returned as an `Outcome` value, not thrown.
- The pytest fixture machinery and `test_from_json`: the fixture's teardown call to `delete_account` is covered by `DeleteAccount`. The scenario methods build fresh accounts in place of fixtures.
