/** What every posting plan guarantees, whatever the event, the facts and the other services' answers. */
module PostingProofs {
  import opened Wrappers
  import opened Sums
  import opened Money
  import opened Chart
  import opened Journal
  import opened Postings
  import E = Events

  datatype Key = Key(source: EntrySource, ref: SourceRef)

  function KeyOf(e: Entry): Key {
    Key(e.source, e.sourceRef)
  }

  /** The document a fact was booked with. */
  function FactKey(f: SaleFact): Key {
    if f.returnId.None? then Key(ItemSoldSource, Document(f.transactionId))
    else Key(ItemReturnedSource, Document(f.returnId.value))
  }

  function BillKey(b: Bill): Key {
    Key(GoodsReceivedSource, Document(b.grnNumber))
  }

  /**
   Entry, bill and facts tell one story: charted accounts only, the payable is the
   bill, revenue, cost and VAT are the facts', and all carry one document.
   */
  ghost predicate TellsOneStory(e: Entry, bill: Option<Bill>, facts: seq<SaleFact>) {
    && (forall l :: l in e.lines ==> Charted(l.account))
    && e.source != BillPaymentSource
    && SumBy(e.lines, NetDebit(ACCOUNTS_PAYABLE)) == (if bill.Some? then -bill.value.amount else 0)
    && SumBy(e.lines, NetDebit(SALES)) + SumBy(e.lines, NetDebit(SALES_RETURNS)) == -SumBy(facts, FactRevenue())
    && SumBy(e.lines, NetDebit(COGS)) == SumBy(facts, FactCogs())
    && SumBy(e.lines, NetDebit(VAT_PAYABLE)) == -SumBy(facts, FactTax())
    && (bill.Some? <==> e.source == GoodsReceivedSource)
    && (bill.Some? ==> BillKey(bill.value) == KeyOf(e) && !bill.value.paid && bill.value.amount > 0)
    && (facts != [] <==> e.source == ItemSoldSource || e.source == ItemReturnedSource)
    && forall f :: f in facts ==>
                     && FactKey(f) == KeyOf(e)
                     && f.occurredAt == e.occurredAt && f.businessDate == f.occurredAt / DAY_MS
  }

  /** A well-formed entry with the bill and facts it stands for, or nothing at all. */
  ghost predicate SoundPlan(p: Plan) {
    match p.entry
    case None => p.bill.None? && p.facts == []
    case Some(e) => WellFormed(e) && TellsOneStory(e, p.bill, p.facts)
  }

  // ---- Sums over short and over uniform line lists ----

  lemma SumTwo<T>(a: T, b: T, f: T -> int)
    ensures SumBy([a, b], f) == f(a) + f(b)
  {
    assert [a, b] == ([] + [a]) + [b];
    SumAppend([], a, f);
    SumAppend([] + [a], b, f);
  }

  lemma SumFour<T>(a: T, b: T, c: T, d: T, f: T -> int)
    ensures SumBy([a, b, c, d], f) == f(a) + f(b) + f(c) + f(d)
  {
    assert [a, b, c, d] == [a, b] + [c, d];
    SumTwo(a, b, f);
    SumTwo(c, d, f);
    SumConcat([a, b], [c, d], f);
  }

  lemma SumFive<T>(a: T, b: T, c: T, d: T, e: T, f: T -> int)
    ensures SumBy([a, b, c, d, e], f) == f(a) + f(b) + f(c) + f(d) + f(e)
  {
    assert [a, b, c, d, e] == [a, b, c, d] + [e];
    SumFour(a, b, c, d, f);
    SumAppend([a, b, c, d], e, f);
  }

  lemma {:induction false} InventoryDebitsSum(values: seq<int>, f: Line -> int, sign: int)
    requires forall v :: f(Line(INVENTORY, v, 0)) == sign * v
    ensures SumBy(InventoryDebits(values), f) == sign * SumBy(values, Amount())
  {
    if values != [] {
      var init, last := values[..|values| - 1], values[|values| - 1];
      InventoryDebitsSum(init, f, sign);
      assert InventoryDebits(values) == InventoryDebits(init) + [Line(INVENTORY, last, 0)];
      SumAppend(InventoryDebits(init), Line(INVENTORY, last, 0), f);
      assert sign * (SumBy(init, Amount()) + last) == sign * SumBy(init, Amount()) + sign * last;
    }
  }

  function Cents(): E.Payment -> int {
    (p: E.Payment) => Round(p.amount)
  }

  lemma {:induction false} AddToSum(lines: seq<Line>, account: int, cents: int)
    ensures SumBy(AddTo(lines, account, cents), Debit()) == SumBy(lines, Debit()) + cents
  {
    if lines == [] {
      assert AddTo(lines, account, cents) == [] + [Line(account, cents, 0)];
    } else {
      var init, last := lines[..|lines| - 1], lines[|lines| - 1];
      if last.account == account {
        SumAppend(init, last.(debit := last.debit + cents), Debit());
      } else {
        AddToSum(init, account, cents);
        SumAppend(AddTo(init, account, cents), last, Debit());
      }
    }
  }

  predicate IsTaking(l: Line) {
    l.credit == 0 && (l.account == CASH || l.account == CARD_RECEIVABLE || l.account == GIFT_CARDS)
  }

  lemma {:induction false} AddToTakings(lines: seq<Line>, account: int, cents: int)
    requires IsTaking(Line(account, cents, 0)) && forall l :: l in lines ==> IsTaking(l)
    ensures forall l :: l in AddTo(lines, account, cents) ==> IsTaking(l)
    ensures cents >= 0 && (forall l :: l in lines ==> l.debit >= 0) ==>
              forall l :: l in AddTo(lines, account, cents) ==> l.debit >= 0
  {
    if lines != [] {
      var init, last := lines[..|lines| - 1], lines[|lines| - 1];
      assert IsTaking(last) && forall l :: l in init ==> l in lines;
      if last.account != account {
        AddToTakings(init, account, cents);
      }
    }
  }

  /** Grouping the takings by account loses no cent and touches no other account. */
  lemma {:induction false} TakingsAreComplete(payments: seq<E.Payment>)
    ensures forall l :: l in Takings(payments) ==> IsTaking(l)
    ensures SumBy(Takings(payments), Debit()) == SumBy(payments, Cents())
    ensures (forall p :: p in payments ==> p.amount >= 0.0) ==> forall l :: l in Takings(payments) ==> l.debit >= 0
  {
    if payments != [] {
      var init, last := payments[..|payments| - 1], payments[|payments| - 1];
      TakingsAreComplete(init);
      AddToTakings(Takings(init), PaymentAccount(last.via), Round(last.amount));
      AddToSum(Takings(init), PaymentAccount(last.via), Round(last.amount));
    }
  }

  // ---- Every plan is sound ----

  /** An accepted draft tells the story its lines told before zero lines were dropped. */
  lemma AcceptedTellsTheSame(draft: Entry, bill: Option<Bill>, facts: seq<SaleFact>)
    requires Balanced(draft).Ok? && TellsOneStory(draft, bill, facts)
    ensures SoundPlan(Plan(Some(Balanced(draft).value), bill, facts))
  {
    BalancedDraft(draft);
  }

  function ReceiptLines(values: seq<int>): seq<Line> {
    InventoryDebits(values) + [Line(ACCOUNTS_PAYABLE, 0, SumBy(values, Amount()))]
  }

  /** What a receipt moves on an account. */
  lemma ReceiptMovement(values: seq<int>, account: int)
    ensures SumBy(ReceiptLines(values), NetDebit(account)) ==
            if account == INVENTORY then SumBy(values, Amount())
            else if account == ACCOUNTS_PAYABLE then -SumBy(values, Amount()) else 0
  {
    SumAppend(InventoryDebits(values), Line(ACCOUNTS_PAYABLE, 0, SumBy(values, Amount())), NetDebit(account));
    InventoryDebitsSum(values, NetDebit(account), if account == INVENTORY then 1 else 0);
  }

  /** The payable is credited, so an accepted receipt's total is positive. */
  lemma ReceiptTotalIsPositive(draft: Entry, values: seq<int>)
    requires draft.lines == ReceiptLines(values) && Balanced(draft).Ok? && SumBy(values, Amount()) != 0
    ensures SumBy(values, Amount()) > 0
  {
    BalancedDraft(draft);
    assert ReceiptLines(values)[|values|] in draft.lines;
  }

  lemma ReceiptTellsOneStory(draft: Entry, values: seq<int>, bill: Bill)
    requires draft.lines == ReceiptLines(values) && bill.amount == SumBy(values, Amount()) > 0 && !bill.paid
    requires draft.source == GoodsReceivedSource && BillKey(bill) == KeyOf(draft)
    ensures TellsOneStory(draft, Some(bill), [])
  {
    ReceiptMovement(values, ACCOUNTS_PAYABLE);
    ReceiptMovement(values, SALES);
    ReceiptMovement(values, SALES_RETURNS);
    ReceiptMovement(values, COGS);
    ReceiptMovement(values, VAT_PAYABLE);
  }

  lemma GoodsReceivedIsSound(e: E.GoodsReceived, world: World)
    requires GoodsReceivedPlan(e, world).Ok?
    ensures SoundPlan(GoodsReceivedPlan(e, world).value)
  {
    var plan := GoodsReceivedPlan(e, world).value;
    if plan.entry.Some? {
      var values := ReceiptValues(e.lines, world.purchaseOrder(e.poNumber).value).value;
      var draft := Entry(e.occurredAt, GoodsReceivedSource, Document(e.grnNumber), ReceiptLines(values));
      ReceiptTotalIsPositive(draft, values);
      ReceiptTellsOneStory(draft, values, plan.bill.value);
      AcceptedTellsTheSame(draft, plan.bill, []);
    }
  }

  /** What a sale moves on the accounts the till does not touch. */
  lemma SaleMovement(takings: seq<Line>, revenue: int, tax: int, cogs: int, account: int)
    requires forall l :: l in takings ==> IsTaking(l)
    requires account != CASH && account != CARD_RECEIVABLE && account != GIFT_CARDS
    ensures SumBy(takings + [Line(SALES, 0, revenue), Line(VAT_PAYABLE, 0, tax), Line(COGS, cogs, 0),
                             Line(INVENTORY, 0, cogs)], NetDebit(account)) ==
            if account == SALES then -revenue else if account == VAT_PAYABLE then -tax
            else if account == COGS then cogs else if account == INVENTORY then -cogs else 0
  {
    var rest := [Line(SALES, 0, revenue), Line(VAT_PAYABLE, 0, tax), Line(COGS, cogs, 0), Line(INVENTORY, 0, cogs)];
    SumConcat(takings, rest, NetDebit(account));
    SumZero(takings, NetDebit(account));
    SumFour(rest[0], rest[1], rest[2], rest[3], NetDebit(account));
  }

  /** Money cannot come in for nothing. */
  lemma NoCreditsNoEntry(draft: Entry)
    requires forall l :: l in draft.lines ==> l.credit == 0
    ensures Balanced(draft).Err?
  {
    BalancedDraft(draft);
    SumZero(draft.lines, Credit());
    if forall l :: l in draft.lines ==> OneSided(l) {
      SumNonNegative(draft.lines, Debit());
      assert forall l :: l in draft.lines ==> Debit()(l) == l.debit;
    }
  }

  lemma SaleLinesCharted(e: E.ItemSold, facts: seq<SaleFact>)
    ensures forall l :: l in SaleDraft(e, facts).lines ==> Charted(l.account)
  {
    TakingsAreComplete(e.payments);
  }

  lemma AcceptedSaleHasFacts(e: E.ItemSold, facts: seq<SaleFact>)
    requires Balanced(SaleDraft(e, facts)).Ok?
    ensures facts != []
  {
    TakingsAreComplete(e.payments);
    if facts == [] {
      NoCreditsNoEntry(SaleDraft(e, facts));
    }
  }

  lemma SoldFactsShape(e: E.ItemSold, costs: seq<int>)
    requires |costs| == |e.lines|
    ensures forall f :: f in SoldFacts(e, costs) ==>
                          && FactKey(f) == Key(ItemSoldSource, Document(e.transactionId))
                          && f.occurredAt == e.occurredAt && f.businessDate == e.occurredAt / DAY_MS
  {
  }

  lemma SaleTellsOneStory(e: E.ItemSold, costs: seq<int>)
    requires |costs| == |e.lines| && SoldFacts(e, costs) != []
    ensures TellsOneStory(SaleDraft(e, SoldFacts(e, costs)), None, SoldFacts(e, costs))
  {
    var facts, takings := SoldFacts(e, costs), Takings(e.payments);
    SoldFactsShape(e, costs);
    SaleLinesCharted(e, facts);
    TakingsAreComplete(e.payments);
    var revenue, tax, cogs := SumBy(facts, FactRevenue()), SumBy(facts, FactTax()), SumBy(facts, FactCogs());
    SaleMovement(takings, revenue, tax, cogs, ACCOUNTS_PAYABLE);
    SaleMovement(takings, revenue, tax, cogs, SALES);
    SaleMovement(takings, revenue, tax, cogs, SALES_RETURNS);
    SaleMovement(takings, revenue, tax, cogs, COGS);
    SaleMovement(takings, revenue, tax, cogs, VAT_PAYABLE);
  }

  lemma ItemSoldIsSound(e: E.ItemSold, world: World)
    requires ItemSoldPlan(e, world).Ok?
    ensures SoundPlan(ItemSoldPlan(e, world).value)
  {
    var costs := UnitCosts(e.lines, world.unitCost).value;
    UnitCostsLength(e.lines, world.unitCost);
    var facts := SoldFacts(e, costs);
    AcceptedSaleHasFacts(e, facts);
    SaleTellsOneStory(e, costs);
    AcceptedTellsTheSame(SaleDraft(e, facts), None, facts);
  }

  lemma RefundMovement(e: E.ItemReturned, refunds: seq<SaleFact>, account: int)
    requires account != CASH
    ensures SumBy(RefundDraft(e, refunds).lines, NetDebit(account)) ==
            if account == SALES_RETURNS then -SumBy(refunds, FactRevenue())
            else if account == VAT_PAYABLE then -SumBy(refunds, FactTax())
            else if account == INVENTORY then -SumBy(refunds, FactCogs())
            else if account == COGS then SumBy(refunds, FactCogs()) else 0
  {
    var lines := RefundDraft(e, refunds).lines;
    SumFive(lines[0], lines[1], lines[2], lines[3], lines[4], NetDebit(account));
  }

  lemma {:induction false} RefundFactsShape(e: E.ItemReturned, lines: seq<E.ReturnedLine>, facts: seq<SaleFact>,
                                            world: World)
    ensures RefundFacts(e, lines, facts, world).Ok? ==>
              var r := RefundFacts(e, lines, facts, world).value;
              && |r| == |lines|
              && (forall f :: f in r ==>
                                && FactKey(f) == Key(ItemReturnedSource, Document(e.returnId))
                                && f.occurredAt == e.occurredAt && f.businessDate == e.occurredAt / DAY_MS)
              && SumBy(r, FactRevenue()) + SumBy(r, FactTax()) == -SumBy(lines, Refund())
  {
    if lines != [] {
      var init, last := lines[..|lines| - 1], lines[|lines| - 1];
      RefundFactsShape(e, init, facts, world);
      var r := RefundFacts(e, lines, facts, world);
      if r.Ok? {
        var r0 := RefundFacts(e, init, facts, world).value;
        assert r.value == r0 + [r.value[|r0|]];
        SumAppend(r0, r.value[|r0|], FactRevenue());
        SumAppend(r0, r.value[|r0|], FactTax());
      }
    }
  }

  lemma RefundTellsOneStory(e: E.ItemReturned, refunds: seq<SaleFact>)
    requires refunds != []
    requires forall f :: f in refunds ==>
               && FactKey(f) == Key(ItemReturnedSource, Document(e.returnId))
               && f.occurredAt == e.occurredAt && f.businessDate == e.occurredAt / DAY_MS
    ensures TellsOneStory(RefundDraft(e, refunds), None, refunds)
  {
    RefundMovement(e, refunds, ACCOUNTS_PAYABLE);
    RefundMovement(e, refunds, SALES);
    RefundMovement(e, refunds, SALES_RETURNS);
    RefundMovement(e, refunds, COGS);
    RefundMovement(e, refunds, VAT_PAYABLE);
  }

  lemma AcceptedRefundHasFacts(e: E.ItemReturned, facts: seq<SaleFact>, world: World)
    requires ItemReturnedPlan(e, facts, world).Ok?
    ensures ItemReturnedPlan(e, facts, world).value.facts != []
  {
    RefundFactsShape(e, e.lines, facts, world);
    if ItemReturnedPlan(e, facts, world).value.facts == [] {
      NoCreditsNoEntry(RefundDraft(e, []));
    }
  }

  lemma ItemReturnedIsSound(e: E.ItemReturned, facts: seq<SaleFact>, world: World)
    requires ItemReturnedPlan(e, facts, world).Ok?
    ensures SoundPlan(ItemReturnedPlan(e, facts, world).value)
  {
    var refunds := ItemReturnedPlan(e, facts, world).value.facts;
    RefundFactsShape(e, e.lines, facts, world);
    AcceptedRefundHasFacts(e, facts, world);
    RefundTellsOneStory(e, refunds);
    AcceptedTellsTheSame(RefundDraft(e, refunds), None, refunds);
  }

  /** The accounts that bills and sale facts answer for. */
  predicate Reported(account: int) {
    account in {ACCOUNTS_PAYABLE, SALES, SALES_RETURNS, COGS, VAT_PAYABLE}
  }

  lemma TwoLinesIsSound(at: int, source: EntrySource, ref: string, debit: int, credit: int, amount: int)
    requires Charted(debit) && Charted(credit)
    requires !Reported(debit) && !Reported(credit)
    requires source == DayClosedSource || source == StockAdjustmentSource
    requires amount > 0
    ensures var entry := Balanced(TwoLines(at, source, ref, debit, credit, amount));
            entry.Ok? && SoundPlan(Plan(Some(entry.value), None, []))
  {
    var draft := TwoLines(at, source, ref, debit, credit, amount);
    BalancedDraft(draft);
    assert draft.lines[0] in draft.lines;
    SumTwo(draft.lines[0], draft.lines[1], Debit());
    SumTwo(draft.lines[0], draft.lines[1], Credit());
    forall account {
      SumTwo(draft.lines[0], draft.lines[1], NetDebit(account));
    }
  }

  lemma DayClosedIsSound(e: E.DayClosed)
    ensures DayClosedPlan(e).Ok? && SoundPlan(DayClosedPlan(e).value)
  {
    var ref := e.storeId + "/" + e.businessDate;
    assert !Reported(CASH) && !Reported(CASH_OVER_SHORT);
    if e.discrepancy < 0 {
      TwoLinesIsSound(e.occurredAt, DayClosedSource, ref, CASH_OVER_SHORT, CASH, -e.discrepancy);
    } else if e.discrepancy > 0 {
      TwoLinesIsSound(e.occurredAt, DayClosedSource, ref, CASH, CASH_OVER_SHORT, e.discrepancy);
    }
  }

  /** What an entry of two lines moves on an account. */
  lemma TwoLinesMove(at: int, source: EntrySource, ref: string, debit: int, credit: int, amount: int, account: int)
    requires debit != credit && amount > 0
    ensures var entry := Balanced(TwoLines(at, source, ref, debit, credit, amount));
            entry.Ok? ==> SumBy(entry.value.lines, NetDebit(account))
                          == if account == debit then amount else if account == credit then -amount else 0
  {
    var draft := TwoLines(at, source, ref, debit, credit, amount);
    BalancedDraft(draft);
    SumTwo(draft.lines[0], draft.lines[1], NetDebit(account));
  }

  /**
   A day's close moves Cash by the discrepancy, Cash over and short by its
   negative and nothing else, and books nothing exactly when there is none.
   */
  lemma DiscrepancyIsBooked(e: E.DayClosed)
    ensures var plan := DayClosedPlan(e);
            && plan.Ok? && plan.value.bill.None? && plan.value.facts == []
            && (plan.value.entry.None? <==> e.discrepancy == 0)
            && (plan.value.entry.Some? ==>
                  forall account :: SumBy(plan.value.entry.value.lines, NetDebit(account))
                                    == if account == CASH then e.discrepancy
                                       else if account == CASH_OVER_SHORT then -e.discrepancy else 0)
  {
    var ref := e.storeId + "/" + e.businessDate;
    DayClosedIsSound(e);
    forall account | e.discrepancy != 0
      ensures SumBy(DayClosedPlan(e).value.entry.value.lines, NetDebit(account))
           == if account == CASH then e.discrepancy else if account == CASH_OVER_SHORT then -e.discrepancy else 0
    {
      if e.discrepancy < 0 {
        TwoLinesMove(e.occurredAt, DayClosedSource, ref, CASH_OVER_SHORT, CASH, -e.discrepancy, account);
      } else {
        TwoLinesMove(e.occurredAt, DayClosedSource, ref, CASH, CASH_OVER_SHORT, e.discrepancy, account);
      }
    }
  }

  lemma StockAdjustedIsSound(e: E.StockAdjusted)
    ensures StockAdjustedPlan(e).Ok? && SoundPlan(StockAdjustedPlan(e).value)
  {
    var ref, net := KindName(e.kind) + "/" + e.reference, SumBy(e.lines, AdjustedValue());
    if net < 0 {
      TwoLinesIsSound(e.occurredAt, StockAdjustmentSource, ref, INVENTORY_SHRINKAGE, INVENTORY, -net);
    } else if net > 0 {
      TwoLinesIsSound(e.occurredAt, StockAdjustmentSource, ref, INVENTORY, INVENTORY_SHRINKAGE, net);
    }
  }

  /**
   An adjustment moves Inventory by its net value, shrinkage by the negative and
   no other account, and books nothing exactly when the value is zero.
   */
  lemma AdjustmentIsBooked(e: E.StockAdjusted)
    ensures var plan, net := StockAdjustedPlan(e), SumBy(e.lines, AdjustedValue());
            && plan.Ok? && plan.value.bill.None? && plan.value.facts == []
            && (plan.value.entry.None? <==> net == 0)
            && (plan.value.entry.Some? ==>
                  forall account :: SumBy(plan.value.entry.value.lines, NetDebit(account))
                                    == if account == INVENTORY then net
                                       else if account == INVENTORY_SHRINKAGE then -net else 0)
  {
    var ref, net := KindName(e.kind) + "/" + e.reference, SumBy(e.lines, AdjustedValue());
    StockAdjustedIsSound(e);
    forall account | net != 0
      ensures SumBy(StockAdjustedPlan(e).value.entry.value.lines, NetDebit(account))
           == if account == INVENTORY then net else if account == INVENTORY_SHRINKAGE then -net else 0
    {
      if net < 0 {
        TwoLinesMove(e.occurredAt, StockAdjustmentSource, ref, INVENTORY_SHRINKAGE, INVENTORY, -net, account);
      } else {
        TwoLinesMove(e.occurredAt, StockAdjustmentSource, ref, INVENTORY, INVENTORY_SHRINKAGE, net, account);
      }
    }
  }

  lemma PlanIsSound(event: DomainEvent, facts: seq<SaleFact>, world: World)
    requires PlanFor(event, facts, world).Ok?
    ensures SoundPlan(PlanFor(event, facts, world).value)
  {
    match event
    case Received(receipt) => GoodsReceivedIsSound(receipt, world);
    case Sold(sale) => ItemSoldIsSound(sale, world);
    case Returned(refund) => ItemReturnedIsSound(refund, facts, world);
    case Closed(day) => DayClosedIsSound(day);
    case Adjusted(stock) => StockAdjustedIsSound(stock);
  }
}
