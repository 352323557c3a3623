/** The VAT report: the VAT-payable account by month. */
module Vat {
  import opened Sums
  import opened Chart
  import opened Journal
  import opened Postings
  import opened PostingProofs
  import opened Books
  import opened BooksProofs

  datatype VatLine = VatLine(debit: int, credit: int, occurredAt: int, source: EntrySource)

  datatype VatMonth = VatMonth(month: int, output: int, refunded: int, other: int)

  datatype VatReport = VatReport(months: seq<VatMonth>, output: int, refunded: int, other: int, net: int)

  /** The account's lines on one entry. */
  function LinesOf(e: Entry, lines: seq<Line>): seq<VatLine> {
    if lines == [] then []
    else
      var init, last := LinesOf(e, lines[..|lines| - 1]), lines[|lines| - 1];
      if last.account != VAT_PAYABLE then init
      else init + [VatLine(last.debit, last.credit, e.occurredAt, e.source)]
  }

  /** The account's lines in a period. */
  function LinesBetween(entries: seq<Entry>, start: int, end: int): seq<VatLine> {
    if entries == [] then []
    else
      var init, last := LinesBetween(entries[..|entries| - 1], start, end), entries[|entries| - 1];
      if start <= last.occurredAt < end then init + LinesOf(last, last.lines) else init
  }

  function Output(): VatLine -> int {
    (l: VatLine) => if l.source == ItemSoldSource then l.credit - l.debit else 0
  }

  function Refunded(): VatLine -> int {
    (l: VatLine) => if l.source == ItemReturnedSource then l.debit - l.credit else 0
  }

  function Other(): VatLine -> int {
    (l: VatLine) => if l.source != ItemSoldSource && l.source != ItemReturnedSource then l.credit - l.debit else 0
  }

  function MonthOutput(): VatMonth -> int {
    (m: VatMonth) => m.output
  }

  function MonthRefunded(): VatMonth -> int {
    (m: VatMonth) => m.refunded
  }

  function MonthOther(): VatMonth -> int {
    (m: VatMonth) => m.other
  }

  function AddLine(months: seq<VatMonth>, month: int, l: VatLine): seq<VatMonth> {
    if months == [] then [VatMonth(month, Output()(l), Refunded()(l), Other()(l))]
    else
      var init, m := months[..|months| - 1], months[|months| - 1];
      if m.month == month
      then init + [VatMonth(month, m.output + Output()(l), m.refunded + Refunded()(l), m.other + Other()(l))]
      else AddLine(init, month, l) + [m]
  }

  function ByMonth(lines: seq<VatLine>, monthOf: int -> int): seq<VatMonth> {
    if lines == [] then []
    else
      var last := lines[|lines| - 1];
      AddLine(ByMonth(lines[..|lines| - 1], monthOf), monthOf(last.occurredAt), last)
  }

  lemma {:induction false} AddLineSums(months: seq<VatMonth>, month: int, l: VatLine)
    ensures var months' := AddLine(months, month, l);
            && SumBy(months', MonthOutput()) == SumBy(months, MonthOutput()) + Output()(l)
            && SumBy(months', MonthRefunded()) == SumBy(months, MonthRefunded()) + Refunded()(l)
            && SumBy(months', MonthOther()) == SumBy(months, MonthOther()) + Other()(l)
  {
    if months == [] {
      assert AddLine(months, month, l) == [] + [VatMonth(month, Output()(l), Refunded()(l), Other()(l))];
    } else {
      var init, m := months[..|months| - 1], months[|months| - 1];
      if m.month == month {
        var m' := VatMonth(month, m.output + Output()(l), m.refunded + Refunded()(l), m.other + Other()(l));
        SumAppend(init, m', MonthOutput());
        SumAppend(init, m', MonthRefunded());
        SumAppend(init, m', MonthOther());
      } else {
        AddLineSums(init, month, l);
        SumAppend(AddLine(init, month, l), m, MonthOutput());
        SumAppend(AddLine(init, month, l), m, MonthRefunded());
        SumAppend(AddLine(init, month, l), m, MonthOther());
      }
    }
  }

  /** Splitting the lines by month, however months are drawn, loses nothing. */
  lemma {:induction false} ByMonthSums(lines: seq<VatLine>, monthOf: int -> int)
    ensures var months := ByMonth(lines, monthOf);
            && SumBy(months, MonthOutput()) == SumBy(lines, Output())
            && SumBy(months, MonthRefunded()) == SumBy(lines, Refunded())
            && SumBy(months, MonthOther()) == SumBy(lines, Other())
  {
    if lines != [] {
      var init, last := lines[..|lines| - 1], lines[|lines| - 1];
      ByMonthSums(init, monthOf);
      AddLineSums(ByMonth(init, monthOf), monthOf(last.occurredAt), last);
    }
  }

  function MonthKey(monthOf: int -> int): VatLine -> int {
    (l: VatLine) => monthOf(l.occurredAt)
  }

  /** A month's row, computed from that month's lines alone. */
  function MonthRow(lines: seq<VatLine>, monthOf: int -> int, month: int): VatMonth {
    VatMonth(month, SumBy(lines, Only(MonthKey(monthOf), month, Output())),
             SumBy(lines, Only(MonthKey(monthOf), month, Refunded())),
             SumBy(lines, Only(MonthKey(monthOf), month, Other())))
  }

  ghost predicate HasMonth(months: seq<VatMonth>, month: int) {
    exists i :: 0 <= i < |months| && months[i].month == month
  }

  /** No month twice, and every row is its month's. */
  ghost predicate RowsRight(months: seq<VatMonth>, lines: seq<VatLine>, monthOf: int -> int) {
    && (forall i, j :: 0 <= i < j < |months| ==> months[i].month != months[j].month)
    && (forall i :: 0 <= i < |months| ==> months[i] == MonthRow(lines, monthOf, months[i].month))
  }

  lemma MonthRowNext(lines: seq<VatLine>, l: VatLine, monthOf: int -> int, month: int)
    ensures var row := MonthRow(lines, monthOf, month);
            MonthRow(lines + [l], monthOf, month)
            == if monthOf(l.occurredAt) != month then row
               else VatMonth(month, row.output + Output()(l), row.refunded + Refunded()(l), row.other + Other()(l))
  {
    SumAppend(lines, l, Only(MonthKey(monthOf), month, Output()));
    SumAppend(lines, l, Only(MonthKey(monthOf), month, Refunded()));
    SumAppend(lines, l, Only(MonthKey(monthOf), month, Other()));
  }

  lemma {:induction false} AddLineRows(months: seq<VatMonth>, lines: seq<VatLine>, l: VatLine, monthOf: int -> int)
    requires RowsRight(months, lines, monthOf)
    requires var month := monthOf(l.occurredAt);
             HasMonth(months, month) || MonthRow(lines, monthOf, month) == VatMonth(month, 0, 0, 0)
    ensures var month := monthOf(l.occurredAt);
            && RowsRight(AddLine(months, month, l), lines + [l], monthOf)
            && forall k :: HasMonth(AddLine(months, month, l), k) <==> HasMonth(months, k) || k == month
  {
    var month := monthOf(l.occurredAt);
    var added := AddLine(months, month, l);
    if months == [] {
      MonthRowNext(lines, l, monthOf, month);
      assert added[0].month == month;
    } else {
      var init, m := months[..|months| - 1], months[|months| - 1];
      MonthRowNext(lines, l, monthOf, m.month);
      forall k ensures HasMonth(months, k) <==> HasMonth(init, k) || k == m.month {
        assert months[|init|].month == m.month && forall i :: 0 <= i < |init| ==> months[i] == init[i];
      }
      if m.month == month {
        forall i | 0 <= i < |init| ensures added[i] == MonthRow(lines + [l], monthOf, added[i].month) {
          assert added[i] == months[i];
          MonthRowNext(lines, l, monthOf, months[i].month);
        }
        assert added[|init|].month == month && forall i :: 0 <= i < |init| ==> added[i] == init[i];
      } else {
        AddLineRows(init, lines, l, monthOf);
        AppendRow(AddLine(init, month, l), m, lines + [l], monthOf);
      }
    }
  }

  lemma AppendRow(months: seq<VatMonth>, m: VatMonth, lines: seq<VatLine>, monthOf: int -> int)
    requires RowsRight(months, lines, monthOf) && !HasMonth(months, m.month) && m == MonthRow(lines, monthOf, m.month)
    ensures RowsRight(months + [m], lines, monthOf)
    ensures forall k :: HasMonth(months + [m], k) <==> HasMonth(months, k) || k == m.month
  {
    var longer := months + [m];
    assert longer[|months|] == m && forall i :: 0 <= i < |months| ==> longer[i] == months[i];
  }

  /** Each month that has lines gets one row, and the row is what that month's lines add up to. */
  lemma {:induction false} MonthsAreRight(lines: seq<VatLine>, monthOf: int -> int)
    ensures RowsRight(ByMonth(lines, monthOf), lines, monthOf)
    ensures forall k :: HasMonth(ByMonth(lines, monthOf), k) <==>
              exists i :: 0 <= i < |lines| && monthOf(lines[i].occurredAt) == k
  {
    if lines != [] {
      var init, last := lines[..|lines| - 1], lines[|lines| - 1];
      var month := monthOf(last.occurredAt);
      MonthsAreRight(init, monthOf);
      if !HasMonth(ByMonth(init, monthOf), month) {
        NoLinesNoRow(init, monthOf, month);
      }
      AddLineRows(ByMonth(init, monthOf), init, last, monthOf);
      assert lines == init + [last];
      assert forall i :: 0 <= i < |init| ==> lines[i] == init[i];
    }
  }

  lemma NoLinesNoRow(lines: seq<VatLine>, monthOf: int -> int, month: int)
    requires forall i :: 0 <= i < |lines| ==> monthOf(lines[i].occurredAt) != month
    ensures MonthRow(lines, monthOf, month) == VatMonth(month, 0, 0, 0)
  {
    SumZero(lines, Only(MonthKey(monthOf), month, Output()));
    SumZero(lines, Only(MonthKey(monthOf), month, Refunded()));
    SumZero(lines, Only(MonthKey(monthOf), month, Other()));
  }

  method VatByMonth(lines: seq<VatLine>, monthOf: int -> int) returns (r: VatReport)
    ensures r.months == ByMonth(lines, monthOf)
    ensures r.output == SumBy(lines, Output()) && r.refunded == SumBy(lines, Refunded())
    ensures r.other == SumBy(lines, Other()) && r.net == r.output - r.refunded + r.other
  {
    var months: seq<VatMonth> := [];
    for i := 0 to |lines|
      invariant months == ByMonth(lines[..i], monthOf)
    {
      assert lines[..i + 1][..i] == lines[..i];
      months := AddLine(months, monthOf(lines[i].occurredAt), lines[i]);
    }
    assert lines[..|lines|] == lines;
    var output, refunded, other, net := 0, 0, 0, 0;
    for i := 0 to |months|
      invariant output == SumBy(months[..i], MonthOutput())
      invariant refunded == SumBy(months[..i], MonthRefunded())
      invariant other == SumBy(months[..i], MonthOther())
      invariant net == output - refunded + other
    {
      SumStep(months, i, MonthOutput());
      SumStep(months, i, MonthRefunded());
      SumStep(months, i, MonthOther());
      output, refunded, other := output + months[i].output, refunded + months[i].refunded, other + months[i].other;
      net := net + (months[i].output - months[i].refunded + months[i].other);
    }
    assert months[..|months|] == months;
    ByMonthSums(lines, monthOf);
    r := VatReport(months, output, refunded, other, net);
  }

  // ---- Agreement with the sale facts ----

  function FromSource(sold: bool, returned: bool, start: int, end: int): Selection {
    (k: Key, at: int) =>
      && start <= at < end
      && (if k.source == ItemSoldSource then sold
          else if k.source == ItemReturnedSource then returned
          else !sold && !returned)
  }

  /** What a line adds to the debit side. */
  function VatDebit(): VatLine -> int {
    (l: VatLine) => l.debit - l.credit
  }

  lemma {:induction false} LinesOfNet(e: Entry, lines: seq<Line>)
    ensures SumBy(LinesOf(e, lines), VatDebit()) == SumBy(lines, NetDebit(VAT_PAYABLE))
    ensures forall v :: v in LinesOf(e, lines) ==> v.source == e.source
  {
    if lines != [] {
      var init, last := lines[..|lines| - 1], lines[|lines| - 1];
      LinesOfNet(e, init);
      SumAppend(LinesOf(e, init), VatLine(last.debit, last.credit, e.occurredAt, e.source), VatDebit());
    }
  }

  /** A figure of one entry's lines is what they add to the debit side, turned round, or nothing. */
  lemma FigureOfSource(vs: seq<VatLine>, f: VatLine -> int)
    ensures (forall v :: v in vs ==> f(v) == v.debit - v.credit) ==> SumBy(vs, f) == SumBy(vs, VatDebit())
    ensures (forall v :: v in vs ==> f(v) == v.credit - v.debit) ==> SumBy(vs, f) == -SumBy(vs, VatDebit())
    ensures (forall v :: v in vs ==> f(v) == 0) ==> SumBy(vs, f) == 0
  {
    if forall v :: v in vs ==> f(v) == v.debit - v.credit {
      SumSame(vs, f, VatDebit());
    }
    if forall v :: v in vs ==> f(v) == v.credit - v.debit {
      SumSame(vs, f, Negated(VatDebit()));
      SumNegated(vs, VatDebit());
    }
    if forall v :: v in vs ==> f(v) == 0 {
      SumZero(vs, f);
    }
  }

  lemma LinesOfSum(e: Entry, lines: seq<Line>)
    ensures var vs, net := LinesOf(e, lines), SumBy(lines, NetDebit(VAT_PAYABLE));
            && SumBy(vs, Output()) == (if e.source == ItemSoldSource then -net else 0)
            && SumBy(vs, Refunded()) == (if e.source == ItemReturnedSource then net else 0)
            && SumBy(vs, Other()) == if e.source != ItemSoldSource && e.source != ItemReturnedSource then -net else 0
  {
    var vs := LinesOf(e, lines);
    LinesOfNet(e, lines);
    FigureOfSource(vs, Output());
    FigureOfSource(vs, Refunded());
    FigureOfSource(vs, Other());
  }

  lemma {:induction false} LinesBetweenSum(entries: seq<Entry>, start: int, end: int)
    ensures var vs := LinesBetween(entries, start, end);
            && SumBy(vs, Output()) == -SumBy(entries, Selected(FromSource(true, false, start, end), VAT_PAYABLE))
            && SumBy(vs, Refunded()) == SumBy(entries, Selected(FromSource(false, true, start, end), VAT_PAYABLE))
            && SumBy(vs, Other()) == -SumBy(entries, Selected(FromSource(false, false, start, end), VAT_PAYABLE))
  {
    if entries != [] {
      var init, last := entries[..|entries| - 1], entries[|entries| - 1];
      LinesBetweenSum(init, start, end);
      LinesOfSum(last, last.lines);
      var vs, net, inside := LinesBetween(init, start, end), SumBy(last.lines, NetDebit(VAT_PAYABLE)),
                             start <= last.occurredAt < end;
      var sold, returned := FromSource(true, false, start, end), FromSource(false, true, start, end);
      assert sold(KeyOf(last), last.occurredAt) <==> inside && last.source == ItemSoldSource;
      assert returned(KeyOf(last), last.occurredAt) <==> inside && last.source == ItemReturnedSource;
      SumConcat(vs, LinesOf(last, last.lines), Output());
      SumConcat(vs, LinesOf(last, last.lines), Refunded());
      SumConcat(vs, LinesOf(last, last.lines), Other());
    }
  }

  function SaleTax(start: int, end: int): SaleFact -> int {
    (f: SaleFact) => if start <= f.occurredAt < end && f.returnId.None? then f.tax else 0
  }

  function ReturnTax(start: int, end: int): SaleFact -> int {
    (f: SaleFact) => if start <= f.occurredAt < end && f.returnId.Some? then f.tax else 0
  }

  /**
   After any run and over any period, output VAT is the VAT of the sale facts,
   refunded VAT is what the refund facts took back, and nothing else ever reaches
   the account.
   */
  lemma VatAgreesWithFacts(steps: seq<Step>, start: int, end: int)
    ensures var b, vs := Run(steps), LinesBetween(Run(steps).entries, start, end);
            && SumBy(vs, Output()) == SumBy(b.facts, SaleTax(start, end))
            && SumBy(vs, Refunded()) == -SumBy(b.facts, ReturnTax(start, end))
            && SumBy(vs, Other()) == 0
  {
    var b := Run(steps);
    var sold, returned := FromSource(true, false, start, end), FromSource(false, true, start, end);
    var other := FromSource(false, false, start, end);
    LinesBetweenSum(b.entries, start, end);
    RunKeepsInv(steps, sold);
    RunKeepsInv(steps, returned);
    RunKeepsInv(steps, other);
    SumSame(b.facts, SelectedFact(sold, FactTax()), SaleTax(start, end));
    SumSame(b.facts, SelectedFact(returned, FactTax()), ReturnTax(start, end));
    SumZero(b.facts, SelectedFact(other, FactTax()));
  }
}
