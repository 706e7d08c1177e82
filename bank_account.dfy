/** The `BankAccount` class: an in-memory ledger whose methods update its four
    fields in place. Each method is proved to leave the fields exactly as the
    matching step function of `Ledger` says, so the lemmas there about runs of
    deposits and withdrawals hold of the object too. */
module BankAccounts {
  import opened Text
  import opened Ledger
  import Snapshot

  class BankAccount {
    var accountNumber: int
    var owner: string
    var balance: int
    var transactions: seq<Txn>

    /** The object invariant: the account's invariant of its fields. */
    ghost predicate Valid()
      reads this
    {
      Ledger.Valid(Value())
    }

    /** The fields as a value. */
    function Value(): State
      reads this
    {
      State(accountNumber, owner, balance, transactions)
    }

    /** Stores the number and the owner as given, clamps a negative opening
        balance to 0 and starts with an empty log. */
    constructor (accountNumber: int, owner: string := "", balance: int := 0)
      ensures Valid()
      ensures this.accountNumber == accountNumber && this.owner == owner
      ensures this.balance == (if balance < 0 then 0 else balance)
      ensures transactions == []
      ensures Value() == Open(accountNumber, owner, balance)
    {
      this.accountNumber := accountNumber;
      this.owner := owner;
      this.balance := if balance < 0 then 0 else balance;
      this.transactions := [];
    }

    /** Resets every field and empties the log, whatever they held; the object
        stays usable. */
    method DeleteAccount()
      modifies this
      ensures Valid()
      ensures accountNumber == 0 && owner == "" && balance == 0 && transactions == []
      ensures Value() == Cleared()
    {
      accountNumber := 0;
      owner := "";
      balance := 0;
      transactions := [];
    }

    /** Raises on a negative amount before touching anything; otherwise adds
        the amount and logs it unless it is zero. */
    method Deposit(amount: int) returns (outcome: Outcome)
      requires Valid()
      modifies this
      ensures Valid()
      ensures Step(outcome, Value()) == DepositStep(old(Value()), amount)
      ensures amount < 0 ==> outcome == Raised(NegativeDeposit) && Value() == old(Value())
      ensures 0 <= amount ==>
        && outcome == Completed
        && balance == old(balance) + amount
        && transactions == old(transactions) + (if amount == 0 then [] else [Txn(Kind.Deposit, amount)])
        && accountNumber == old(accountNumber) && owner == old(owner)
    {
      if amount < 0 {
        return Raised(NegativeDeposit);
      }
      balance := balance + amount;
      if amount != 0 {
        transactions := transactions + [Txn(Kind.Deposit, amount)];
      }
      outcome := Completed;
    }

    /** Raises on a negative amount, then on one above the balance, before
        touching anything; otherwise takes the amount off and logs it unless
        it is zero. */
    method Withdraw(amount: int) returns (outcome: Outcome)
      requires Valid()
      modifies this
      ensures Valid()
      ensures Step(outcome, Value()) == WithdrawStep(old(Value()), amount)
      ensures amount < 0 ==> outcome == Raised(NegativeWithdraw) && Value() == old(Value())
      ensures 0 <= amount && old(balance) < amount ==>
        outcome == Raised(OversizedWithdraw) && Value() == old(Value())
      ensures 0 <= amount <= old(balance) ==>
        && outcome == Completed
        && balance == old(balance) - amount
        && transactions == old(transactions) + (if amount == 0 then [] else [Txn(Kind.Withdraw, amount)])
        && accountNumber == old(accountNumber) && owner == old(owner)
    {
      if amount < 0 {
        return Raised(NegativeWithdraw);
      }
      if amount > balance {
        return Raised(OversizedWithdraw);
      }
      balance := balance - amount;
      if amount != 0 {
        transactions := transactions + [Txn(Kind.Withdraw, amount)];
      }
      outcome := Completed;
    }

    method GetBalance() returns (b: int)
      requires Valid()
      ensures b == balance && b >= 0
    {
      b := balance;
    }

    /** The lines `show_transactions` prints, one per record, oldest first. */
    method ShowTransactions() returns (lines: seq<string>)
      ensures |lines| == |transactions|
      ensures forall i :: 0 <= i < |transactions| ==> lines[i] == Render(transactions[i])
      ensures lines == Rendered(transactions)
    {
      lines := [];
      for i := 0 to |transactions|
        invariant |lines| == i
        invariant forall k :: 0 <= k < i ==> lines[k] == Render(transactions[k])
      {
        lines := lines + [Render(transactions[i])];
      }
    }

    /** The line `to_json` writes, built by its two writes; `Snapshot.Decode`
        reads it back as this account whenever the owner's name holds no
        double quote. */
    method ToJson() returns (text: string)
      ensures text == Snapshot.Encode(Value())
      ensures '"' !in owner ==> Snapshot.Decode(text) == Some(Value())
    {
      text := Snapshot.NumberKey + IntToString(accountNumber) + Snapshot.OwnerKey + owner
        + Snapshot.BalanceKey + IntToString(balance) + Snapshot.TransactionsKey;
      var fixedTransactions := Snapshot.Quoted(Rendered(transactions));
      text := text + Join(fixedTransactions, ", ") + Snapshot.Close;
      if '"' !in owner {
        Snapshot.DecodeEncode(Value());
      }
    }
  }

  /** test_to_json in test_bank_account.py: account 1234 of "John Doe" opened with
      500, a deposit of 100 and a withdrawal of 100, then `to_json`. */
  method ToJsonScenario() returns (text: string)
    ensures text == "{\"account_number\": " + "1234" + ", \"owner\": \"" + "John Doe" + "\", \"balance\": "
      + "500" + ", \"transactions\": [" + ("\"" + "Deposit of ¤100" + "\", \"" + "Withdraw of ¤100" + "\"") + "]}"
  {
    var account := new BankAccount(1234, "John Doe", 500);
    var deposited := account.Deposit(100);
    var withdrawn := account.Withdraw(100);
    text := account.ToJson();
    Snapshot.EncodeExample();
  }

  /** The test fixture for one row of the deposit and withdrawal tests: a
      fresh account 1234 of "John Doe" with 500 and its log cleared, then one
      operation. Gives its outcome, the balance after and how many records the
      log holds. */
  method FixtureRow(withdraw: bool, amount: int) returns (outcome: Outcome, balance: int, logged: nat)
    ensures var s := State(1234, "John Doe", 500, []);
      var r := if withdraw then WithdrawStep(s, amount) else DepositStep(s, amount);
      outcome == r.outcome && balance == r.next.balance && logged == |r.next.transactions|
  {
    var account := new BankAccount(1234, "John Doe", 500);
    account.transactions := [];
    if withdraw {
      outcome := account.Withdraw(amount);
    } else {
      outcome := account.Deposit(amount);
    }
    balance, logged := account.balance, |account.transactions|;
  }

  /** test_withdraw in test_bank_account.py: 100 and 0 succeed (only 100 is logged),
      -100 and 1000 raise with the log left empty. */
  method WithdrawScenario() returns (outcomes: seq<Outcome>, balances: seq<int>, logged: seq<nat>)
    ensures outcomes == [Completed, Completed, Raised(NegativeWithdraw), Raised(OversizedWithdraw)]
    ensures balances == [400, 500, 500, 500]
    ensures logged == [1, 0, 0, 0]
    ensures outcomes[2].error.Message() == "Negative withdraws are invalid!"
    ensures outcomes[3].error.Message() == "Oversized withdraws (balance < 0) are invalid!"
  {
    var o1, b1, n1 := FixtureRow(true, 100);
    var o2, b2, n2 := FixtureRow(true, 0);
    var o3, b3, n3 := FixtureRow(true, -100);
    var o4, b4, n4 := FixtureRow(true, 1000);
    outcomes, balances, logged := [o1, o2, o3, o4], [b1, b2, b3, b4], [n1, n2, n3, n4];
  }

  /** test_deposit in test_bank_account.py: 100 and 0 succeed (only 100 is logged), -100
      raises with the log left empty. */
  method DepositScenario() returns (outcomes: seq<Outcome>, balances: seq<int>, logged: seq<nat>)
    ensures outcomes == [Completed, Completed, Raised(NegativeDeposit)]
    ensures balances == [600, 500, 500]
    ensures logged == [1, 0, 0]
    ensures outcomes[2].error.Message() == "Negative deposits are invalid!"
  {
    var o1, b1, n1 := FixtureRow(false, 100);
    var o2, b2, n2 := FixtureRow(false, 0);
    var o3, b3, n3 := FixtureRow(false, -100);
    outcomes, balances, logged := [o1, o2, o3], [b1, b2, b3], [n1, n2, n3];
  }

  /** test_init in test_bank_account.py: opening balances -100, 0, 500 and 1000
      give 0, 0, 500 and 1000, each with the given number and owner and an
      empty log. */
  method OpenScenario() returns (balances: seq<int>, asGiven: bool)
    ensures balances == [0, 0, 500, 1000]
    ensures asGiven
  {
    balances, asGiven := [], true;
    var requested := [-100, 0, 500, 1000];
    for i := 0 to 4
      invariant |balances| == i
      invariant forall k :: 0 <= k < i ==> balances[k] == (if requested[k] < 0 then 0 else requested[k])
      invariant asGiven
    {
      var account := new BankAccount(1234, "John Doe", requested[i]);
      balances := balances + [account.balance];
      asGiven := asGiven && account.transactions == [] && account.owner == "John Doe" && account.accountNumber == 1234;
    }
  }
}
