/** The chart of accounts Financials posts to. */
module Chart {
  datatype AccountType = Asset | Liability | Revenue | Expense

  datatype Account = Account(code: int, kind: AccountType)

  const CASH := 1000
  const BANK := 1010
  const CARD_RECEIVABLE := 1100
  const INVENTORY := 1200
  const ACCOUNTS_PAYABLE := 2000
  const VAT_PAYABLE := 2100
  const GIFT_CARDS := 2200
  const SALES := 4000
  const SALES_RETURNS := 4900
  const COGS := 5000
  const CASH_OVER_SHORT := 6100
  const INVENTORY_SHRINKAGE := 6200

  const ACCOUNTS: seq<Account> := [
    Account(CASH, Asset), Account(BANK, Asset), Account(CARD_RECEIVABLE, Asset), Account(INVENTORY, Asset),
    Account(ACCOUNTS_PAYABLE, Liability), Account(VAT_PAYABLE, Liability), Account(GIFT_CARDS, Liability),
    Account(SALES, Revenue), Account(SALES_RETURNS, Revenue),
    Account(COGS, Expense), Account(CASH_OVER_SHORT, Expense), Account(INVENTORY_SHRINKAGE, Expense)
  ]

  predicate IsDebitNormal(kind: AccountType) {
    kind == Asset || kind == Expense
  }

  predicate Charted(code: int) {
    || code == CASH || code == BANK || code == CARD_RECEIVABLE || code == INVENTORY
    || code == ACCOUNTS_PAYABLE || code == VAT_PAYABLE || code == GIFT_CARDS
    || code == SALES || code == SALES_RETURNS
    || code == COGS || code == CASH_OVER_SHORT || code == INVENTORY_SHRINKAGE
  }
}

/** Double entry: journal drafts, and the check every draft must pass. */
module Journal {
  import opened Wrappers
  import opened Sums

  datatype EntrySource =
    | GoodsReceivedSource | ItemSoldSource | ItemReturnedSource | DayClosedSource
    | BillPaymentSource | StockAdjustmentSource

  /** The originating document: a reference from an event, or the bill a payment settles. */
  datatype SourceRef = Document(text: string) | BillRef(id: nat)

  datatype Line = Line(account: int, debit: int, credit: int)

  datatype Entry = Entry(occurredAt: int, source: EntrySource, sourceRef: SourceRef, lines: seq<Line>)

  /** Why an event cannot be posted. Only a transient failure can mend itself. */
  datatype PostingError = Unbalanced | Permanent | Transient

  function Debit(): Line -> int {
    (l: Line) => l.debit
  }

  function Credit(): Line -> int {
    (l: Line) => l.credit
  }

  /** What a line adds to the debit side of an account. */
  function NetDebit(account: int): Line -> int {
    (l: Line) => if l.account == account then l.debit - l.credit else 0
  }

  predicate IsZero(l: Line) {
    l.debit == 0 && l.credit == 0
  }

  predicate OneSided(l: Line) {
    l.debit >= 0 && l.credit >= 0 && (l.debit == 0 || l.credit == 0)
  }

  function NonZero(lines: seq<Line>): seq<Line> {
    if lines == [] then []
    else
      var init, last := lines[..|lines| - 1], lines[|lines| - 1];
      if IsZero(last) then NonZero(init) else NonZero(init) + [last]
  }

  /** What the books may hold: positive one-sided lines whose two sides agree. */
  ghost predicate WellFormed(e: Entry) {
    && e.lines != []
    && (forall l :: l in e.lines ==> OneSided(l) && !IsZero(l))
    && SumBy(e.lines, Debit()) == SumBy(e.lines, Credit())
  }

  /** A draft is accepted exactly when, without its zero lines, it is well formed. */
  ghost function Balanced(draft: Entry): (r: Result<Entry, PostingError>)
    ensures r.Ok? ==> WellFormed(r.value)
  {
    var e := draft.(lines := NonZero(draft.lines));
    NonZeroLines(draft.lines);
    if WellFormed(e) then Ok(e) else Err(Unbalanced)
  }

  method CheckBalanced(draft: Entry) returns (r: Result<Entry, PostingError>)
    ensures r == Balanced(draft)
  {
    var lines: seq<Line> := [];
    for i := 0 to |draft.lines|
      invariant lines == NonZero(draft.lines[..i])
    {
      assert draft.lines[..i + 1] == draft.lines[..i] + [draft.lines[i]];
      if draft.lines[i].debit != 0 || draft.lines[i].credit != 0 {
        lines := lines + [draft.lines[i]];
      }
    }
    assert draft.lines[..|draft.lines|] == draft.lines;
    var debits, credits := 0, 0;
    for i := 0 to |lines|
      invariant debits == SumBy(lines[..i], Debit()) && credits == SumBy(lines[..i], Credit())
      invariant forall l :: l in lines[..i] ==> OneSided(l)
    {
      var line := lines[i];
      if line.debit < 0 || line.credit < 0 || (line.debit > 0 && line.credit > 0) {
        assert line in lines && !OneSided(line);
        return Err(Unbalanced);
      }
      debits, credits := debits + line.debit, credits + line.credit;
      SumStep(lines, i, Debit());
      SumStep(lines, i, Credit());
    }
    NonZeroLines(draft.lines);
    assert lines[..|lines|] == lines;
    if |lines| == 0 || debits != credits {
      return Err(Unbalanced);
    }
    return Ok(draft.(lines := lines));
  }

  lemma {:induction false} NonZeroLines(lines: seq<Line>)
    ensures forall l :: l in NonZero(lines) <==> l in lines && !IsZero(l)
  {
    if lines != [] {
      NonZeroLines(lines[..|lines| - 1]);
      assert lines == lines[..|lines| - 1] + [lines[|lines| - 1]];
    }
  }

  /** Dropping zero lines changes no figure read from the lines. */
  lemma {:induction false} NonZeroSum(lines: seq<Line>, f: Line -> int)
    requires forall l :: IsZero(l) ==> f(l) == 0
    ensures SumBy(NonZero(lines), f) == SumBy(lines, f)
  {
    if lines != [] {
      var init, last := lines[..|lines| - 1], lines[|lines| - 1];
      NonZeroSum(init, f);
      SumAppend(NonZero(init), last, f);
    }
  }

  /** Which drafts are accepted, and what acceptance keeps of them. */
  lemma BalancedDraft(draft: Entry)
    ensures Balanced(draft).Ok? <==>
            && (forall l :: l in draft.lines ==> OneSided(l))
            && (exists l :: l in draft.lines && !IsZero(l))
            && SumBy(draft.lines, Debit()) == SumBy(draft.lines, Credit())
    ensures Balanced(draft).Ok? ==>
              var e := Balanced(draft).value;
              && e == draft.(lines := e.lines)
              && (forall l :: l in e.lines ==> l in draft.lines)
              && forall account :: SumBy(e.lines, NetDebit(account)) == SumBy(draft.lines, NetDebit(account))
  {
    NonZeroLines(draft.lines);
    NonZeroSum(draft.lines, Debit());
    NonZeroSum(draft.lines, Credit());
    forall account ensures SumBy(NonZero(draft.lines), NetDebit(account)) == SumBy(draft.lines, NetDebit(account)) {
      NonZeroSum(draft.lines, NetDebit(account));
    }
    if exists l :: l in draft.lines && !IsZero(l) {
      var l :| l in draft.lines && !IsZero(l);
      assert l in NonZero(draft.lines);
    }
    if NonZero(draft.lines) != [] {
      assert NonZero(draft.lines)[0] in draft.lines;
    }
  }

  /**
   A draft is accepted exactly when no side of a line is negative, no line has two
   sides, something is posted and both sides come to the same; it then keeps every
   line that posts something, and only those.
   */
  lemma AcceptedExactlyWhen(draft: Entry)
    ensures Balanced(draft).Ok? <==>
            && (forall l :: l in draft.lines ==> (l.debit >= 0 && l.credit == 0) || (l.debit == 0 && l.credit >= 0))
            && (exists l :: l in draft.lines && (l.debit != 0 || l.credit != 0))
            && SumBy(draft.lines, Debit()) == SumBy(draft.lines, Credit())
    ensures Balanced(draft).Ok? ==>
              forall l :: l in Balanced(draft).value.lines <==> l in draft.lines && (l.debit != 0 || l.credit != 0)
  {
    BalancedDraft(draft);
    NonZeroLines(draft.lines);
    assert forall l :: OneSided(l) <==> (l.debit >= 0 && l.credit == 0) || (l.debit == 0 && l.credit >= 0);
  }
}
