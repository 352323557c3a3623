/** Every account's balance as of a date. */
module TrialBalance {
  import opened Wrappers
  import opened Sums
  import opened Chart
  import opened Journal
  import opened Postings
  import opened Books
  import opened BooksProofs

  datatype Row = Row(code: int, kind: AccountType, debit: int, credit: int, balance: int)

  datatype Report = Report(rows: seq<Row>, totalDebit: int, totalCredit: int, balanced: bool)

  /** The journal lines posted before an instant; with no instant, all of them. */
  function LinesBefore(entries: seq<Entry>, bound: Option<int>): seq<Line> {
    if entries == [] then []
    else
      var init, last := LinesBefore(entries[..|entries| - 1], bound), entries[|entries| - 1];
      if bound.Some? && last.occurredAt >= bound.value then init else init + last.lines
  }

  function AccountOf(): Line -> int {
    (l: Line) => l.account
  }

  function RowDebit(): Row -> int {
    (r: Row) => r.debit
  }

  function RowCredit(): Row -> int {
    (r: Row) => r.credit
  }

  function DebitNormal(): Row -> int {
    (r: Row) => if IsDebitNormal(r.kind) then r.balance else 0
  }

  function CreditNormal(): Row -> int {
    (r: Row) => if IsDebitNormal(r.kind) then 0 else r.balance
  }

  function MakeRow(account: Account, lines: seq<Line>): Row {
    var debit := SumBy(lines, Only(AccountOf(), account.code, Debit()));
    var credit := SumBy(lines, Only(AccountOf(), account.code, Credit()));
    Row(account.code, account.kind, debit, credit,
        if IsDebitNormal(account.kind) then debit - credit else credit - debit)
  }

  /** One row per charted account, as of the end of a day. */
  function Compute(entries: seq<Entry>, asOfDay: Option<int>): Report {
    var bound := if asOfDay.Some? then Some((asOfDay.value + 1) * DAY_MS) else None;
    var lines := LinesBefore(entries, bound);
    var rows := seq(|ACCOUNTS|, i requires 0 <= i < |ACCOUNTS| => MakeRow(ACCOUNTS[i], lines));
    var debit, credit := SumBy(rows, RowDebit()), SumBy(rows, RowCredit());
    Report(rows, debit, credit, debit == credit)
  }

  function Codes(): (codes: seq<int>)
    ensures Distinct(codes) && |codes| == |ACCOUNTS|
    ensures forall i :: 0 <= i < |ACCOUNTS| ==> codes[i] == ACCOUNTS[i].code
    ensures forall code :: Charted(code) <==> code in codes
  {
    [CASH, BANK, CARD_RECEIVABLE, INVENTORY, ACCOUNTS_PAYABLE, VAT_PAYABLE, GIFT_CARDS, SALES, SALES_RETURNS, COGS,
     CASH_OVER_SHORT, INVENTORY_SHRINKAGE]
  }

  lemma {:induction false} LinesBeforeSound(entries: seq<Entry>, bound: Option<int>)
    requires EntriesSound(entries)
    ensures var lines := LinesBefore(entries, bound);
            && (forall l :: l in lines ==> Charted(l.account))
            && SumBy(lines, Debit()) == SumBy(lines, Credit())
  {
    if entries != [] {
      var init, last := entries[..|entries| - 1], entries[|entries| - 1];
      assert last in entries && forall e :: e in init ==> e in entries;
      LinesBeforeSound(init, bound);
      SumConcat(LinesBefore(init, bound), last.lines, Debit());
      SumConcat(LinesBefore(init, bound), last.lines, Credit());
    }
  }

  /** What an entry puts on one side of an account, if it was posted by the end of the day. */
  function PostedBy(asOfDay: Option<int>, code: int, side: Line -> int): Entry -> int {
    (e: Entry) =>
      if asOfDay.None? || e.occurredAt / DAY_MS <= asOfDay.value
      then SumBy(e.lines, Only(AccountOf(), code, side)) else 0
  }

  lemma {:induction false} LinesOfTheDays(entries: seq<Entry>, asOfDay: Option<int>, code: int, side: Line -> int)
    ensures var bound := if asOfDay.Some? then Some((asOfDay.value + 1) * DAY_MS) else None;
            SumBy(LinesBefore(entries, bound), Only(AccountOf(), code, side))
            == SumBy(entries, PostedBy(asOfDay, code, side))
  {
    if entries != [] {
      var bound := if asOfDay.Some? then Some((asOfDay.value + 1) * DAY_MS) else None;
      var init, last := entries[..|entries| - 1], entries[|entries| - 1];
      LinesOfTheDays(init, asOfDay, code, side);
      SumConcat(LinesBefore(init, bound), last.lines, Only(AccountOf(), code, side));
    }
  }

  /** Codes of assets begin with 1 and those of expenses with 5 or 6; they grow with debits, the others with credits. */
  predicate GrowsWithDebits(code: int) {
    code / 1000 in {1, 5, 6}
  }

  /**
   There is one row for each account of the chart. It shows what every entry of
   the days up to and including the report's put on its two sides, and as its
   balance the side the account grows with less the other.
   */
  lemma RowsShowTheirAccounts(entries: seq<Entry>, asOfDay: Option<int>, i: nat)
    requires i < |ACCOUNTS|
    ensures var r := Compute(entries, asOfDay);
            && |r.rows| == |ACCOUNTS| && r.rows[i].code == Codes()[i]
            && var row, debit, credit := r.rows[i], SumBy(entries, PostedBy(asOfDay, Codes()[i], Debit())),
                                         SumBy(entries, PostedBy(asOfDay, Codes()[i], Credit()));
               && row.debit == debit && row.credit == credit
               && row.balance == if GrowsWithDebits(row.code) then debit - credit else credit - debit
  {
    LinesOfTheDays(entries, asOfDay, ACCOUNTS[i].code, Debit());
    LinesOfTheDays(entries, asOfDay, ACCOUNTS[i].code, Credit());
    assert IsDebitNormal(ACCOUNTS[i].kind) <==> GrowsWithDebits(ACCOUNTS[i].code);
  }

  /** The rows of the chart account for every line. */
  lemma RowsAreComplete(entries: seq<Entry>, asOfDay: Option<int>, bound: Option<int>)
    requires EntriesSound(entries)
    requires bound == if asOfDay.Some? then Some((asOfDay.value + 1) * DAY_MS) else None
    ensures var r, lines := Compute(entries, asOfDay), LinesBefore(entries, bound);
            r.totalDebit == SumBy(lines, Debit()) && r.totalCredit == SumBy(lines, Credit())
  {
    var lines := LinesBefore(entries, bound);
    LinesBeforeSound(entries, bound);
    var rows := Compute(entries, asOfDay).rows;
    Partition(lines, Codes(), AccountOf(), Debit());
    Partition(lines, Codes(), AccountOf(), Credit());
    SumPairwise(rows, Codes(), RowDebit(), GroupSum(lines, AccountOf(), Debit()));
    SumPairwise(rows, Codes(), RowCredit(), GroupSum(lines, AccountOf(), Credit()));
  }

  lemma {:induction false} BalancesFollow(rows: seq<Row>)
    requires forall r :: r in rows ==>
                           r.balance == if IsDebitNormal(r.kind) then r.debit - r.credit else r.credit - r.debit
    ensures SumBy(rows, DebitNormal()) - SumBy(rows, CreditNormal())
            == SumBy(rows, RowDebit()) - SumBy(rows, RowCredit())
  {
    if rows != [] {
      assert rows[|rows| - 1] in rows;
      BalancesFollow(rows[..|rows| - 1]);
    }
  }

  /**
   After any run and as of any day the trial balance balances: total debits are
   total credits, and what debit-normal accounts hold is what credit-normal ones
   hold.
   */
  lemma AlwaysBalances(steps: seq<Step>, asOfDay: Option<int>)
    ensures var r := Compute(Run(steps).entries, asOfDay);
            && r.balanced && r.totalDebit == r.totalCredit
            && SumBy(r.rows, DebitNormal()) == SumBy(r.rows, CreditNormal())
  {
    RunKeepsInv(steps, (k, at) => true);
    var entries := Run(steps).entries;
    var bound := if asOfDay.Some? then Some((asOfDay.value + 1) * DAY_MS) else None;
    LinesBeforeSound(entries, bound);
    RowsAreComplete(entries, asOfDay, bound);
    BalancesFollow(Compute(entries, asOfDay).rows);
  }
}
