/** The account as a value: its four fields, the transaction records it logs,
    the errors its operations raise, and one pure step function per operation.
    The class in bank_account.dfy is proved to change its fields exactly as
    these functions say, and the lemmas here say what any run of deposits and
    withdrawals does to the balance and the log. */
module Ledger {
  import opened Text

  datatype Kind = Deposit | Withdraw

  /** Only non-zero amounts are ever logged, and both operations refuse negative ones. */
  type Amount = n: int | n > 0 witness 1

  datatype Txn = Txn(kind: Kind, amount: Amount)

  function KindName(k: Kind): string {
    match k
    case Deposit => "Deposit"
    case Withdraw => "Withdraw"
  }

  /** The text bank_account.py appends to its log: "Deposit of ¤100", "Withdraw of ¤100".
      It holds no double quote, and no `b`, the letter that marks the balance
      key of the snapshot line. */
  function Render(t: Txn): (r: string)
    ensures '"' !in r && 'b' !in r
  {
    var n := IntToString(t.amount);
    NumeralHasNoDelimiter(n);
    NumeralLacks(n, 'b');
    KindName(t.kind) + " of ¤" + n
  }

  /** Reads a rendered record back; `None` on text no record renders to. */
  function ParseTxn(text: string): Option<Txn> {
    var d := StripPrefix("Deposit of ¤", text);
    var w := StripPrefix("Withdraw of ¤", text);
    var kind := if d.Some? then Deposit else Withdraw;
    var digits := if d.Some? then d else w;
    if digits.None? then None
    else
      match ParseInt(digits.value)
      case None => None
      case Some(n) => if n > 0 then Some(Txn(kind, n)) else None
  }

  lemma RenderParses(t: Txn)
    ensures ParseTxn(Render(t)) == Some(t)
  {
    var n := IntToString(t.amount);
    ParseIntToString(t.amount);
    match t.kind
    case Deposit =>
      StripPrefixOf("Deposit of ¤", n);
    case Withdraw =>
      assert !("Deposit of ¤" <= Render(t)) by {
        assert Render(t)[0] == 'W';
      }
      StripPrefixOf("Withdraw of ¤", n);
  }

  /** The log as bank_account.py keeps it: one rendered string per record. */
  function Rendered(log: seq<Txn>): (r: seq<string>)
    ensures |r| == |log|
    ensures forall i :: 0 <= i < |log| ==> r[i] == Render(log[i])
  {
    if log == [] then [] else [Render(log[0])] + Rendered(log[1..])
  }

  /** Reads every rendered record back, or gives `None` if one does not read. */
  function ParseRecords(items: seq<string>): Option<seq<Txn>> {
    if items == [] then Some([])
    else
      match (ParseTxn(items[0]), ParseRecords(items[1..]))
      case (Some(t), Some(ts)) => Some([t] + ts)
      case _ => None
  }

  lemma {:induction false} ParseRendered(log: seq<Txn>)
    ensures ParseRecords(Rendered(log)) == Some(log)
  {
    if log != [] {
      var t, rest := log[0], log[1..];
      assert Rendered(log) == [Render(t)] + Rendered(rest);
      RenderParses(t);
      ParseRendered(rest);
      ParseRecordsCons(Render(t), Rendered(rest), t, rest);
      assert [t] + rest == log;
    }
  }

  lemma ParseRecordsCons(item: string, items: seq<string>, t: Txn, ts: seq<Txn>)
    requires ParseTxn(item) == Some(t) && ParseRecords(items) == Some(ts)
    ensures ParseRecords([item] + items) == Some([t] + ts)
  {
    assert ([item] + items)[0] == item && ([item] + items)[1..] == items;
  }

  /** The `ValueError`s the operations raise. */
  datatype AmountError = NegativeDeposit | NegativeWithdraw | OversizedWithdraw {
    function Message(): string {
      match this
      case NegativeDeposit => "Negative deposits are invalid!"
      case NegativeWithdraw => "Negative withdraws are invalid!"
      case OversizedWithdraw => "Oversized withdraws (balance < 0) are invalid!"
    }
  }

  /** How an operation ends: normally, or by raising one of the errors above. */
  datatype Outcome = Completed | Raised(error: AmountError)

  datatype State = State(accountNumber: int, owner: string, balance: int, transactions: seq<Txn>)

  /** The account's invariant. */
  ghost predicate Valid(s: State) {
    s.balance >= 0
  }

  /** The result of one operation and the state it leaves. */
  datatype Step = Step(outcome: Outcome, next: State)

  /** The state a new account starts in. */
  function Open(accountNumber: int, owner: string, balance: int): (s: State)
    ensures Valid(s)
    ensures s.accountNumber == accountNumber && s.owner == owner && s.transactions == []
    ensures balance >= 0 ==> s.balance == balance
    ensures balance < 0 ==> s.balance == 0
  {
    State(accountNumber, owner, if balance < 0 then 0 else balance, [])
  }

  /** The state `delete_account` leaves, the same whatever the state before. */
  function Cleared(): (r: State)
    ensures Valid(r) && r.transactions == [] && r.owner == ""
    ensures r.accountNumber == 0 && r.balance == 0
  {
    State(0, "", 0, [])
  }

  function DepositStep(s: State, amount: int): Step {
    if amount < 0 then Step(Raised(NegativeDeposit), s)
    else
      var log := if amount != 0 then s.transactions + [Txn(Deposit, amount)] else s.transactions;
      Step(Completed, s.(balance := s.balance + amount, transactions := log))
  }

  function WithdrawStep(s: State, amount: int): Step {
    if amount < 0 then Step(Raised(NegativeWithdraw), s)
    else if amount > s.balance then Step(Raised(OversizedWithdraw), s)
    else
      var log := if amount != 0 then s.transactions + [Txn(Withdraw, amount)] else s.transactions;
      Step(Completed, s.(balance := s.balance - amount, transactions := log))
  }

  /** A deposit fails exactly on a negative amount; a failed one changes nothing,
      a completed one adds the amount and logs exactly the non-zero ones. */
  lemma DepositEffect(s: State, amount: int)
    ensures var r := DepositStep(s, amount);
      && (r.outcome.Raised? <==> amount < 0)
      && (r.outcome.Raised? ==> r.outcome.error == NegativeDeposit && r.next == s)
      && (r.outcome.Completed? ==> r.next.balance == s.balance + amount)
      && r.next.accountNumber == s.accountNumber && r.next.owner == s.owner
      && r.next.transactions == s.transactions + (if amount > 0 then [Txn(Deposit, amount)] else [])
  {
  }

  /** A withdrawal completes exactly when 0 <= amount <= balance; the negative
      check comes first; a failed one changes nothing. */
  lemma WithdrawEffect(s: State, amount: int)
    ensures var r := WithdrawStep(s, amount);
      && (r.outcome.Completed? <==> 0 <= amount <= s.balance)
      && (amount < 0 ==> r.outcome == Raised(NegativeWithdraw))
      && (0 <= amount && s.balance < amount ==> r.outcome == Raised(OversizedWithdraw))
      && (r.outcome.Raised? ==> r.next == s)
      && (r.outcome.Completed? ==> r.next.balance == s.balance - amount)
      && r.next.accountNumber == s.accountNumber && r.next.owner == s.owner
      && r.next.transactions == s.transactions + (if r.outcome.Completed? && amount > 0 then [Txn(Withdraw, amount)] else [])
  {
  }

  /** What one record says the balance moved by. */
  function Signed(t: Txn): int {
    if t.kind == Deposit then t.amount else 0 - t.amount
  }

  /** What the log says the balance moved by: deposits minus withdrawals. */
  function Net(log: seq<Txn>): int {
    if log == [] then 0 else Net(log[..|log| - 1]) + Signed(log[|log| - 1])
  }

  lemma NetAppend(log: seq<Txn>, t: Txn)
    ensures Net(log + [t]) == Net(log) + Signed(t)
  {
    assert (log + [t])[..|log|] == log;
  }

  /** A caller's sequence of deposits and withdrawals. One that raises is caught
      and the sequence goes on. */
  datatype Op = DepositOp(amount: int) | WithdrawOp(amount: int)

  function Apply(s: State, op: Op): Step {
    match op
    case DepositOp(a) => DepositStep(s, a)
    case WithdrawOp(a) => WithdrawStep(s, a)
  }

  function Run(s: State, ops: seq<Op>): State {
    if ops == [] then s else Apply(Run(s, ops[..|ops| - 1]), ops[|ops| - 1]).next
  }

  /** One step keeps the invariant and the identity, and either logs nothing and
      leaves the balance, or appends one record whose signed amount is what the
      balance moved by. */
  lemma ApplyKeepsLedger(s: State, op: Op)
    requires Valid(s)
    ensures var t := Apply(s, op).next;
      && Valid(t)
      && t.accountNumber == s.accountNumber && t.owner == s.owner
      && (t.transactions == s.transactions ==> t.balance == s.balance)
      && (t.transactions != s.transactions ==>
            |t.transactions| == |s.transactions| + 1
            && t.transactions == s.transactions + [t.transactions[|s.transactions|]]
            && t.balance == s.balance + Signed(t.transactions[|s.transactions|]))
  {
  }

  /** Starting from `start`, the balance stays non-negative after every prefix of `log`. */
  ghost predicate NeverOverdrawn(start: int, log: seq<Txn>) {
    forall k :: 0 <= k <= |log| ==> start + Net(log[..k]) >= 0
  }

  lemma NeverOverdrawnAppend(start: int, log: seq<Txn>, r: Txn)
    requires NeverOverdrawn(start, log)
    requires start + Net(log) + Signed(r) >= 0
    ensures NeverOverdrawn(start, log + [r])
  {
    var log' := log + [r];
    NetAppend(log, r);
    forall k | 0 <= k <= |log'| ensures start + Net(log'[..k]) >= 0 {
      if k <= |log| {
        assert log'[..k] == log[..k];
      } else {
        assert log'[..k] == log';
      }
    }
  }

  /** Over any run the invariant holds, the identity stays, the log only grows
      at its end, the balance moves by the net of what was appended, and no
      prefix of the appended records ever overdraws the balance the run started
      from. */
  lemma {:induction false} RunKeepsLedger(s: State, ops: seq<Op>)
    requires Valid(s)
    ensures var t := Run(s, ops);
      && Valid(t)
      && t.accountNumber == s.accountNumber && t.owner == s.owner
      && |s.transactions| <= |t.transactions|
      && t.transactions[..|s.transactions|] == s.transactions
      && t.balance == s.balance + Net(t.transactions[|s.transactions|..])
      && NeverOverdrawn(s.balance, t.transactions[|s.transactions|..])
  {
    var n := |s.transactions|;
    if ops == [] {
      assert s.transactions[n..] == [];
      var none: seq<Txn> := [];
      assert none[..0] == none;
    } else {
      var init, op := ops[..|ops| - 1], ops[|ops| - 1];
      var u := Run(s, init);
      RunKeepsLedger(s, init);
      ApplyKeepsLedger(u, op);
      var t := Apply(u, op).next;
      assert Run(s, ops) == t;
      if t.transactions != u.transactions {
        var r := t.transactions[|u.transactions|];
        assert t.transactions == u.transactions + [r];
        assert t.transactions[..n] == u.transactions[..n];
        assert t.transactions[n..] == u.transactions[n..] + [r];
        NetAppend(u.transactions[n..], r);
        NeverOverdrawnAppend(s.balance, u.transactions[n..], r);
      }
    }
  }

  /** From a new account, after any run, the balance is the clamped opening
      balance plus the net of the whole log. */
  lemma OpenedRun(accountNumber: int, owner: string, balance: int, ops: seq<Op>)
    ensures var t := Run(Open(accountNumber, owner, balance), ops);
      && t.balance >= 0
      && t.balance == (if balance < 0 then 0 else balance) + Net(t.transactions)
  {
    var s := Open(accountNumber, owner, balance);
    RunKeepsLedger(s, ops);
    var t := Run(s, ops);
    assert t.transactions[0..] == t.transactions;
  }
}
