/** The single line `to_json` writes to `<account_number>.json`, as a pure
    function of the account's state, and a reference reader for that line. The
    reader is not the JSON parser bank_account.py loads snapshots with; it reads
    exactly this layout and reads the line back as the account whenever the
    owner's name holds no double quote. It ends the owner at the first double
    quote, so it cannot read back one that holds any; the line itself, though
    the writer escapes nothing, still determines every account, as
    `EncodeInjective` shows. None of this says what `json.loads` makes of the
    line. */
module Snapshot {
  import opened Text
  import opened Ledger

  const NumberKey := "{\"account_number\": "
  const OwnerKey := ", \"owner\": \""
  const BalanceKey := "\", \"balance\": "
  const TransactionsKey := ", \"transactions\": ["
  const Close := "]}"

  function Quote(text: string): string {
    "\"" + text + "\""
  }

  /** Each string wrapped in double quotes, in order. */
  function Quoted(items: seq<string>): (q: seq<string>)
    ensures |q| == |items|
    ensures forall i :: 0 <= i < |items| ==> q[i] == Quote(items[i])
  {
    if items == [] then [] else [Quote(items[0])] + Quoted(items[1..])
  }

  /** The text written by the two writes of `to_json`. */
  function Encode(s: State): string {
    NumberKey + IntToString(s.accountNumber) + OwnerKey + s.owner
      + BalanceKey + IntToString(s.balance) + TransactionsKey
      + Join(Quoted(Rendered(s.transactions)), ", ") + Close
  }

  /** Reads one quoted string off the front of `text`; gives it and what follows. */
  function ReadQuoted(text: string): (r: Option<(string, string)>)
    ensures r.Some? ==> |r.value.1| < |text|
  {
    if |text| == 0 || text[0] != '"' then None
    else
      var (body, rest) := Span(text[1..], '"');
      if rest == [] then None else Some((body, rest[1..]))
  }

  /** Reads a non-empty, comma-separated list of quoted strings and the closing brackets. */
  function DecodeItems(text: string): Option<seq<string>>
    decreases |text|
  {
    match ReadQuoted(text)
    case None => None
    case Some((item, rest)) =>
      if rest == Close then Some([item])
      else
        match StripPrefix(", ", rest)
        case None => None
        case Some(more) =>
          match DecodeItems(more)
          case None => None
          case Some(items) => Some([item] + items)
  }

  function DecodeTransactions(text: string): Option<seq<Txn>> {
    if text == Close then Some([])
    else
      match DecodeItems(text)
      case None => None
      case Some(items) => ParseRecords(items)
  }

  /** Reads the four fields back from a snapshot line. */
  function Decode(text: string): Option<State> {
    match StripPrefix(NumberKey, text)
    case None => None
    case Some(r1) =>
      var (numberText, r2) := Span(r1, ',');
      match StripPrefix(OwnerKey, r2)
      case None => None
      case Some(r3) =>
        var (owner, r4) := Span(r3, '"');
        match StripPrefix(BalanceKey, r4)
        case None => None
        case Some(r5) =>
          var (balanceText, r6) := Span(r5, ',');
          match StripPrefix(TransactionsKey, r6)
          case None => None
          case Some(r7) =>
            match (ParseInt(numberText), ParseInt(balanceText), DecodeTransactions(r7))
            case (Some(number), Some(balance), Some(log)) => Some(State(number, owner, balance, log))
            case _ => None
  }

  ghost predicate NoQuotes(items: seq<string>) {
    forall i :: 0 <= i < |items| ==> '"' !in items[i]
  }

  lemma ReadQuotedOf(item: string, tail: string)
    requires '"' !in item
    ensures ReadQuoted("\"" + (item + ("\"" + tail))) == Some((item, tail))
  {
    var text := "\"" + (item + ("\"" + tail));
    assert text[1..] == item + ("\"" + tail);
    SpanOf(item, "\"" + tail, '"');
    assert ("\"" + tail)[1..] == tail;
  }

  /** The first item of the joined list, then whatever follows its closing quote. */
  lemma FirstItem(items: seq<string>)
    requires |items| > 0
    ensures var tail := if |items| == 1 then Close else ", " + (Join(Quoted(items[1..]), ", ") + Close);
      Join(Quoted(items), ", ") + Close == "\"" + (items[0] + ("\"" + tail))
  {
    var q, x := Quoted(items), items[0];
    assert q[0] == "\"" + x + "\"";
    if |items| == 1 {
      assert Join(q, ", ") == q[0];
      assert q[0] + Close == "\"" + (x + ("\"" + Close)) by {
        Regroup4("\"", x, "\"", Close);
      }
    } else {
      var more := Join(Quoted(items[1..]), ", ");
      assert q[1..] == Quoted(items[1..]);
      assert Join(q, ", ") == q[0] + ", " + more;
      assert q[0] + ", " + more + Close == "\"" + (x + ("\"" + (", " + (more + Close)))) by {
        Regroup6("\"", x, "\"", ", ", more, Close);
      }
    }
  }

  lemma {:induction false} ItemsRoundTrip(items: seq<string>)
    requires |items| > 0 && NoQuotes(items)
    ensures DecodeItems(Join(Quoted(items), ", ") + Close) == Some(items)
  {
    var x := items[0];
    assert '"' !in x;
    FirstItem(items);
    if |items| == 1 {
      ReadQuotedOf(x, Close);
      assert items == [x];
    } else {
      var more := Join(Quoted(items[1..]), ", ") + Close;
      var tail := ", " + more;
      ReadQuotedOf(x, tail);
      assert tail != Close by {
        assert tail[0] == ',';
      }
      StripPrefixOf(", ", more);
      assert NoQuotes(items[1..]) by {
        forall i | 0 <= i < |items| - 1 ensures '"' !in items[1..][i] {
          assert items[1..][i] == items[i + 1];
        }
      }
      ItemsRoundTrip(items[1..]);
      assert [x] + items[1..] == items;
    }
  }

  lemma TransactionsRoundTrip(log: seq<Txn>)
    ensures DecodeTransactions(Join(Quoted(Rendered(log)), ", ") + Close) == Some(log)
  {
    var items := Rendered(log);
    ParseRendered(log);
    if |log| == 0 {
      assert Join(Quoted(items), ", ") + Close == Close;
    } else {
      ItemsRoundTrip(items);
      assert Join(Quoted(items), ", ") + Close != Close by {
        FirstItem(items);
      }
    }
  }

  /** The snapshot line determines the account's fields whenever the owner's
      name holds no double quote. */
  lemma DecodeEncode(s: State)
    requires '"' !in s.owner
    ensures Decode(Encode(s)) == Some(s)
  {
    var number, balance := IntToString(s.accountNumber), IntToString(s.balance);
    NumeralHasNoDelimiter(number);
    NumeralHasNoDelimiter(balance);
    ParseIntToString(s.accountNumber);
    ParseIntToString(s.balance);
    var records := Join(Quoted(Rendered(s.transactions)), ", ");
    var r7 := records + Close;
    TransactionsRoundTrip(s.transactions);
    var r6 := TransactionsKey + r7;
    var r5 := balance + r6;
    var r4 := BalanceKey + r5;
    var r3 := s.owner + r4;
    var r2 := OwnerKey + r3;
    var r1 := number + r2;
    Regroup9(NumberKey, number, OwnerKey, s.owner, BalanceKey, balance, TransactionsKey, records, Close);
    assert Encode(s) == NumberKey + r1;
    StripPrefixOf(NumberKey, r1);
    SpanOf(number, r2, ',');
    StripPrefixOf(OwnerKey, r3);
    SpanOf(s.owner, r4, '"');
    StripPrefixOf(BalanceKey, r5);
    SpanOf(balance, r6, ',');
    StripPrefixOf(TransactionsKey, r7);
  }

  lemma RenderedExample()
    ensures Rendered([Txn(Deposit, 100), Txn(Withdraw, 100)]) == ["Deposit of ¤100", "Withdraw of ¤100"]
  {
    var a, b := Txn(Deposit, 100), Txn(Withdraw, 100);
    assert IntToString(100) == "100" by {
      assert NatToString(1) == "1";
      assert NatToString(10) == "10";
      assert NatToString(100) == "100";
    }
    assert Render(a) == "Deposit of ¤100";
    assert Render(b) == "Withdraw of ¤100";
    assert [a, b][1..] == [b];
    assert Rendered([b]) == [Render(b)];
  }

  /** Two log lines quoted and joined: one quoted string, a comma and a space, the other. */
  lemma JoinedPair(a: string, b: string)
    ensures Join(Quoted([a, b]), ", ") == "\"" + a + "\", \"" + b + "\""
  {
    var q := Quoted([a, b]);
    assert q[0] == Quote(a) && q[1] == Quote(b);
    assert q[1..] == [q[1]];
    assert Join(q, ", ") == q[0] + ", " + q[1];
  }

  /** The line test_to_json in test_bank_account.py expects for account 1234 of "John Doe"
      with balance 500, after a deposit of 100 and a withdrawal of 100. The
      expected line is written in pieces cut at the field boundaries; joined,
      they are the test's string character for character. */
  lemma EncodeExample()
    ensures Encode(State(1234, "John Doe", 500, [Txn(Deposit, 100), Txn(Withdraw, 100)]))
      == "{\"account_number\": " + "1234" + ", \"owner\": \"" + "John Doe" + "\", \"balance\": "
         + "500" + ", \"transactions\": [" + ("\"" + "Deposit of ¤100" + "\", \"" + "Withdraw of ¤100" + "\"") + "]}"
  {
    assert IntToString(1234) == "1234" by {
      assert NatToString(1) == "1";
      assert NatToString(12) == "12";
      assert NatToString(123) == "123";
      assert NatToString(1234) == "1234";
    }
    assert IntToString(500) == "500" by {
      assert NatToString(5) == "5";
      assert NatToString(50) == "50";
      assert NatToString(500) == "500";
    }
    RenderedExample();
    JoinedPair("Deposit of ¤100", "Withdraw of ¤100");
  }

  /** `Decode` ends the owner at its first double quote, so whatever line it
      accepts, the owner it reads holds none. An owner that does cannot be
      read back by it, from any text. */
  lemma DecodedOwnerHasNoQuote(text: string)
    ensures Decode(text).Some? ==> '"' !in Decode(text).value.owner
  {
  }

  /** `c` occurs in `s` at index `k` and nowhere else. */
  ghost predicate OnlyAt(s: string, c: char, k: nat) {
    k < |s| && s[k] == c && forall i :: 0 <= i < |s| && s[i] == c ==> i == k
  }

  /** The fixed keys after the owner's name: the balance key holds its one `b`
      at index 4, the later keys hold none, and the fields after a number
      start with a comma. */
  lemma KeyFacts()
    ensures OnlyAt(BalanceKey, 'b', 4)
    ensures 'b' !in TransactionsKey && 'b' !in Close
    ensures OwnerKey[0] == ',' && TransactionsKey[0] == ','
  {
  }

  /** Quoting and joining lines adds no character but quotes, commas and spaces. */
  lemma {:induction false} JoinedLacks(items: seq<string>, c: char)
    requires c != '"' && c != ',' && c != ' '
    requires forall i :: 0 <= i < |items| ==> c !in items[i]
    ensures c !in Join(Quoted(items), ", ")
  {
    if |items| == 1 {
      assert Join(Quoted(items), ", ") == "\"" + items[0] + "\"";
    } else if |items| > 1 {
      var q := Quoted(items);
      assert q[1..] == Quoted(items[1..]);
      assert Join(q, ", ") == q[0] + ", " + Join(Quoted(items[1..]), ", ");
      assert forall i :: 0 <= i < |items| - 1 ==> items[1..][i] == items[i + 1];
      JoinedLacks(items[1..], c);
    }
  }

  /** What the line holds after the owner's name. */
  ghost function AfterOwner(s: State): string {
    BalanceKey + (IntToString(s.balance) + (TransactionsKey + (Join(Quoted(Rendered(s.transactions)), ", ") + Close)))
  }

  lemma EncodeSplit(s: State)
    ensures Encode(s) == NumberKey + (IntToString(s.accountNumber) + (OwnerKey + (s.owner + AfterOwner(s))))
  {
    Regroup9(NumberKey, IntToString(s.accountNumber), OwnerKey, s.owner, BalanceKey, IntToString(s.balance),
      TransactionsKey, Join(Quoted(Rendered(s.transactions)), ", "), Close);
  }

  /** After the owner's name the letter `b` occurs once, in the balance key. */
  lemma AfterOwnerMark(s: State)
    ensures OnlyAt(AfterOwner(s), 'b', 4)
  {
    KeyFacts();
    var b := IntToString(s.balance);
    var rest := b + (TransactionsKey + (Join(Quoted(Rendered(s.transactions)), ", ") + Close));
    NumeralLacks(b, 'b');
    JoinedLacks(Rendered(s.transactions), 'b');
    assert 'b' !in rest;
    var a := AfterOwner(s);
    assert a == BalanceKey + rest;
    forall i | 0 <= i < |a| && a[i] == 'b' ensures i == 4 {
      if i < |BalanceKey| {
        assert BalanceKey[i] == a[i];
      }
    }
  }

  /** Where a shorter first half leaves the mark of the longer split's second half. */
  lemma ShiftedMark(o1: string, a1: string, o2: string, a2: string)
    requires o1 + a1 == o2 + a2 && |o1| < |o2|
    requires OnlyAt(a2, 'b', 4)
    ensures |o2| - |o1| + 4 < |a1| && a1[|o2| - |o1| + 4] == 'b'
  {
    assert a1[|o2| - |o1| + 4] == (o2 + a2)[|o2| + 4];
  }

  /** Two splits of one text whose second halves hold their only `b` at index 4 are the same split. */
  lemma SplitAtMark(o1: string, a1: string, o2: string, a2: string)
    requires o1 + a1 == o2 + a2
    requires OnlyAt(a1, 'b', 4) && OnlyAt(a2, 'b', 4)
    ensures o1 == o2 && a1 == a2
  {
    if |o1| < |o2| {
      ShiftedMark(o1, a1, o2, a2);
      assert false;
    } else if |o2| < |o1| {
      ShiftedMark(o2, a2, o1, a1);
      assert false;
    } else {
      assert o1 == (o1 + a1)[..|o1|] && o2 == (o2 + a2)[..|o2|];
      assert a1 == (o1 + a1)[|o1|..] && a2 == (o2 + a2)[|o2|..];
    }
  }

  /** The fields after the owner's name are determined by what follows it. */
  lemma AfterOwnerInjective(s1: State, s2: State)
    requires AfterOwner(s1) == AfterOwner(s2)
    ensures s1.balance == s2.balance && s1.transactions == s2.transactions
  {
    KeyFacts();
    var b1, b2 := IntToString(s1.balance), IntToString(s2.balance);
    NumeralHasNoDelimiter(b1);
    NumeralHasNoDelimiter(b2);
    var r1 := Join(Quoted(Rendered(s1.transactions)), ", ") + Close;
    var r2 := Join(Quoted(Rendered(s2.transactions)), ", ") + Close;
    StripPrefixOf(BalanceKey, b1 + (TransactionsKey + r1));
    StripPrefixOf(BalanceKey, b2 + (TransactionsKey + r2));
    SpanOf(b1, TransactionsKey + r1, ',');
    SpanOf(b2, TransactionsKey + r2, ',');
    StripPrefixOf(TransactionsKey, r1);
    StripPrefixOf(TransactionsKey, r2);
    ParseIntToString(s1.balance);
    ParseIntToString(s2.balance);
    TransactionsRoundTrip(s1.transactions);
    TransactionsRoundTrip(s2.transactions);
  }

  /** The line determines the account, whatever the owner's name holds: the
      owner ends at the last balance key of the line, since nothing after it
      holds a `b`. So a double quote in the name, which the writer does not
      escape, keeps the line from reading back through `Decode`, yet two
      different accounts never write the same line. */
  lemma EncodeInjective(s1: State, s2: State)
    requires Encode(s1) == Encode(s2)
    ensures s1 == s2
  {
    KeyFacts();
    EncodeSplit(s1);
    EncodeSplit(s2);
    var n1, n2 := IntToString(s1.accountNumber), IntToString(s2.accountNumber);
    NumeralHasNoDelimiter(n1);
    NumeralHasNoDelimiter(n2);
    var t1, t2 := OwnerKey + (s1.owner + AfterOwner(s1)), OwnerKey + (s2.owner + AfterOwner(s2));
    StripPrefixOf(NumberKey, n1 + t1);
    StripPrefixOf(NumberKey, n2 + t2);
    SpanOf(n1, t1, ',');
    SpanOf(n2, t2, ',');
    ParseIntToString(s1.accountNumber);
    ParseIntToString(s2.accountNumber);
    StripPrefixOf(OwnerKey, s1.owner + AfterOwner(s1));
    StripPrefixOf(OwnerKey, s2.owner + AfterOwner(s2));
    AfterOwnerMark(s1);
    AfterOwnerMark(s2);
    SplitAtMark(s1.owner, AfterOwner(s1), s2.owner, AfterOwner(s2));
    AfterOwnerInjective(s1, s2);
  }
}
