/** Which sales and refunds the books accept, and how a refund undoes a sale. */
module SalesAccounting {
  import opened Wrappers
  import opened Sums
  import opened Money
  import opened Chart
  import opened Journal
  import opened Postings
  import opened PostingProofs
  import E = Events

  function LineTotal(): E.SoldLine -> int {
    (l: E.SoldLine) => l.total
  }

  /** One-sided lines make an entry exactly when both sides add up to the same positive amount. */
  lemma OneSidedDraft(draft: Entry)
    requires forall l :: l in draft.lines ==> OneSided(l)
    ensures Balanced(draft).Ok? <==> SumBy(draft.lines, Debit()) == SumBy(draft.lines, Credit()) > 0
  {
    BalancedDraft(draft);
    SumNonNegative(draft.lines, Debit());
    SumNonNegative(draft.lines, Credit());
    assert forall l :: l in draft.lines ==> Debit()(l) == l.debit && Credit()(l) == l.credit;
    if forall l :: l in draft.lines ==> IsZero(l) {
      SumZero(draft.lines, Debit());
    }
  }

  // ---- Sales ----

  lemma {:induction false} SoldFactsGross(e: E.ItemSold, costs: seq<int>)
    requires |costs| == |e.lines|
    ensures SumBy(SoldFacts(e, costs), FactRevenue()) + SumBy(SoldFacts(e, costs), FactTax())
            == SumBy(e.lines, LineTotal())
    decreases |e.lines|
  {
    if e.lines != [] {
      var n := |e.lines| - 1;
      var init := e.(lines := e.lines[..n]);
      SoldFactsGross(init, costs[..n]);
      var last := SoldFact(e, e.lines[n], costs[n]);
      assert SoldFacts(e, costs) == SoldFacts(init, costs[..n]) + [last];
      SumAppend(SoldFacts(init, costs[..n]), last, FactRevenue());
      SumAppend(SoldFacts(init, costs[..n]), last, FactTax());
    }
  }

  lemma SaleDraftSums(e: E.ItemSold, facts: seq<SaleFact>)
    ensures var lines := SaleDraft(e, facts).lines;
            && SumBy(lines, Debit()) == SumBy(e.payments, Cents()) + SumBy(facts, FactCogs())
            && SumBy(lines, Credit()) ==
               SumBy(facts, FactRevenue()) + SumBy(facts, FactTax()) + SumBy(facts, FactCogs())
  {
    var takings := Takings(e.payments);
    var rest := SaleDraft(e, facts).lines[|takings|..];
    assert SaleDraft(e, facts).lines == takings + rest;
    assert rest == [Line(SALES, 0, SumBy(facts, FactRevenue())), Line(VAT_PAYABLE, 0, SumBy(facts, FactTax())),
                    Line(COGS, SumBy(facts, FactCogs()), 0), Line(INVENTORY, 0, SumBy(facts, FactCogs()))];
    TakingsAreComplete(e.payments);
    SumZero(takings, Credit());
    SumConcat(takings, rest, Debit());
    SumConcat(takings, rest, Credit());
    SumFour(rest[0], rest[1], rest[2], rest[3], Debit());
    SumFour(rest[0], rest[1], rest[2], rest[3], Credit());
  }

  ghost predicate SaneSale(e: E.ItemSold, costs: seq<int>) {
    && |costs| == |e.lines|
    && (forall p :: p in e.payments ==> p.amount >= 0.0)
    && (forall l :: l in e.lines ==> 0 <= l.tax <= l.total && l.quantity >= 0)
    && forall c :: c in costs ==> c >= 0
  }

  lemma SaneFacts(e: E.ItemSold, costs: seq<int>)
    requires SaneSale(e, costs)
    ensures var facts := SoldFacts(e, costs);
            SumBy(facts, FactRevenue()) >= 0 && SumBy(facts, FactTax()) >= 0 && SumBy(facts, FactCogs()) >= 0
  {
    var facts := SoldFacts(e, costs);
    forall f | f in facts ensures f.revenue >= 0 && f.tax >= 0 && f.cogs >= 0 {
      var i :| 0 <= i < |facts| && facts[i] == f;
      assert e.lines[i] in e.lines && costs[i] in costs;
      MulNonNegative(costs[i], e.lines[i].quantity);
    }
    SumNonNegative(facts, FactRevenue());
    SumNonNegative(facts, FactTax());
    SumNonNegative(facts, FactCogs());
  }

  /**
   A sale posts exactly when its payments, each rounded to the cent, add up to
   its line totals and some money or stock value moves: every rounding of a
   line's net revenue and VAT cancels out.
   */
  lemma SalePostsExactlyWhen(e: E.ItemSold, world: World)
    requires UnitCosts(e.lines, world.unitCost).Ok?
    requires SaneSale(e, UnitCosts(e.lines, world.unitCost).value)
    ensures var cogs := SumBy(SoldFacts(e, UnitCosts(e.lines, world.unitCost).value), FactCogs());
            ItemSoldPlan(e, world).Ok? <==>
            && SumBy(e.payments, Cents()) == SumBy(e.lines, LineTotal())
            && (SumBy(e.lines, LineTotal()) > 0 || cogs > 0)
  {
    var costs := UnitCosts(e.lines, world.unitCost).value;
    var facts, takings := SoldFacts(e, costs), Takings(e.payments);
    SaleDraftSums(e, facts);
    SoldFactsGross(e, costs);
    SaneFacts(e, costs);
    TakingsAreComplete(e.payments);
    OneSidedDraft(SaleDraft(e, facts));
  }

  // ---- Refunds ----

  ghost predicate SaneFact(f: SaleFact) {
    f.revenue >= 0 && f.tax >= 0 && f.unitCost >= 0
  }

  lemma RefundedTaxWithin(sold: Option<SaleFact>, refund: int)
    requires refund >= 0 && (sold.Some? ==> SaneFact(sold.value))
    ensures 0 <= RefundedTax(sold, refund) <= refund
  {
    if sold.Some? && sold.value.revenue + sold.value.tax > 0 {
      var gross := sold.value.revenue + sold.value.tax;
      MulNonNegative(refund, sold.value.tax);
      MulNonNegative(refund, sold.value.revenue);
      assert refund * gross == refund * sold.value.tax + refund * sold.value.revenue;
      RoundDivWithin(refund * sold.value.tax, gross, refund);
    }
  }

  lemma {:induction false} FindSoldIsFirst(facts: seq<SaleFact>, transactionId: string, sku: string)
    ensures var r := FindSold(facts, transactionId, sku);
            && (r.Some? ==> r.value in facts && r.value.transactionId == transactionId
                            && r.value.returnId == None && r.value.sku == sku)
            && (r.None? ==> forall f :: f in facts && f.transactionId == transactionId && f.returnId == None ==>
                                          f.sku != sku)
  {
    if facts != [] {
      FindSoldIsFirst(facts[..|facts| - 1], transactionId, sku);
    }
  }

  ghost predicate SaneRefund(e: E.ItemReturned, facts: seq<SaleFact>, world: World) {
    && (forall l :: l in e.lines ==> l.refund >= 0 && l.quantity >= 0)
    && (forall f :: f in facts && f.returnId == None ==> SaneFact(f))
    && forall sku :: world.unitCost(sku).Found? ==> world.unitCost(sku).value >= 0
  }

  lemma {:induction false} SaneRefundFacts(e: E.ItemReturned, lines: seq<E.ReturnedLine>, facts: seq<SaleFact>,
                                           world: World)
    requires SaneRefund(e, facts, world) && forall l :: l in lines ==> l in e.lines
    ensures RefundFacts(e, lines, facts, world).Ok? ==>
              forall f :: f in RefundFacts(e, lines, facts, world).value ==>
                            f.revenue <= 0 && f.tax <= 0 && f.cogs <= 0
  {
    if lines != [] {
      var init, last := lines[..|lines| - 1], lines[|lines| - 1];
      SaneRefundFacts(e, init, facts, world);
      var sold := FindSold(facts, e.originalTransactionId, last.sku);
      FindSoldIsFirst(facts, e.originalTransactionId, last.sku);
      RefundedTaxWithin(sold, last.refund);
      var r := RefundFacts(e, lines, facts, world);
      if r.Ok? {
        var cost := if sold.Some? then sold.value.unitCost else world.unitCost(last.sku).value;
        MulNonNegative(cost, last.quantity);
        assert r.value == RefundFacts(e, init, facts, world).value + [RefundFact(e, last, sold, cost)];
      }
    }
  }

  /** Every refund of whole cents posts unless it moves neither money nor stock value. */
  lemma RefundPostsExactlyWhen(e: E.ItemReturned, facts: seq<SaleFact>, world: World)
    requires SaneRefund(e, facts, world) && RefundFacts(e, e.lines, facts, world).Ok?
    ensures var refunds := RefundFacts(e, e.lines, facts, world).value;
            ItemReturnedPlan(e, facts, world).Ok? <==>
            SumBy(e.lines, Refund()) > 0 || SumBy(refunds, FactCogs()) < 0
  {
    var refunds := RefundFacts(e, e.lines, facts, world).value;
    var ls := RefundDraft(e, refunds).lines;
    RefundFactsShape(e, e.lines, facts, world);
    SaneRefundFacts(e, e.lines, facts, world);
    SumFive(ls[0], ls[1], ls[2], ls[3], ls[4], Debit());
    SumFive(ls[0], ls[1], ls[2], ls[3], ls[4], Credit());
    SumNonNegative(e.lines, Refund());
    NonPositive(refunds);
    OneSidedDraft(RefundDraft(e, refunds));
  }

  lemma NonPositive(refunds: seq<SaleFact>)
    requires forall f :: f in refunds ==> f.revenue <= 0 && f.tax <= 0 && f.cogs <= 0
    ensures SumBy(refunds, FactRevenue()) <= 0 && SumBy(refunds, FactTax()) <= 0 && SumBy(refunds, FactCogs()) <= 0
  {
    SumNegated(refunds, FactRevenue());
    SumNegated(refunds, FactTax());
    SumNegated(refunds, FactCogs());
    SumNonNegative(refunds, Negated(FactRevenue()));
    SumNonNegative(refunds, Negated(FactTax()));
    SumNonNegative(refunds, Negated(FactCogs()));
  }

  ghost predicate DistinctSkus(lines: seq<E.SoldLine>) {
    forall i, j :: 0 <= i < j < |lines| ==> lines[i].sku != lines[j].sku
  }

  ghost predicate NoSaleOf(facts: seq<SaleFact>, transactionId: string) {
    forall f :: f in facts ==> f.transactionId != transactionId || f.returnId != None
  }

  /** The sale's own facts are found among everything booked before and after it. */
  lemma SoldLineIsFound(e: E.ItemSold, costs: seq<int>, before: seq<SaleFact>, after: seq<SaleFact>, i: nat)
    requires |costs| == |e.lines| && i < |e.lines| && DistinctSkus(e.lines)
    requires NoSaleOf(before, e.transactionId) && NoSaleOf(after, e.transactionId)
    ensures FindSold(before + SoldFacts(e, costs) + after, e.transactionId, e.lines[i].sku)
            == Some(SoldFact(e, e.lines[i], costs[i]))
  {
    var facts, sku := before + SoldFacts(e, costs) + after, e.lines[i].sku;
    FindSoldIsFirst(facts, e.transactionId, sku);
    assert facts[|before| + i] == SoldFact(e, e.lines[i], costs[i]);
    var r := FindSold(facts, e.transactionId, sku);
    assert r.Some?;
    assert r.value in SoldFacts(e, costs);
    var j :| 0 <= j < |e.lines| && r.value == SoldFact(e, e.lines[j], costs[j]);
    assert e.lines[j].sku == sku;
  }

  /**
   Returning a whole line of a sale at its line total reverses its quantity,
   revenue, VAT and cost exactly, whatever else has been booked around it.
   */
  lemma WholeLineRefundCancels(e: E.ItemSold, costs: seq<int>, before: seq<SaleFact>, after: seq<SaleFact>, i: nat,
                               ret: E.ItemReturned, line: E.ReturnedLine)
    requires |costs| == |e.lines| && i < |e.lines| && DistinctSkus(e.lines)
    requires NoSaleOf(before, e.transactionId) && NoSaleOf(after, e.transactionId)
    requires 0 <= e.lines[i].tax <= e.lines[i].total
    requires line.sku == e.lines[i].sku && line.quantity == e.lines[i].quantity && line.refund == e.lines[i].total
    ensures var sale := SoldFact(e, e.lines[i], costs[i]);
            var sold := FindSold(before + SoldFacts(e, costs) + after, e.transactionId, line.sku);
            && sold == Some(sale)
            && var refund := RefundFact(ret, line, sold, sold.value.unitCost);
               && refund.quantity == -sale.quantity && refund.revenue == -sale.revenue
               && refund.tax == -sale.tax && refund.cogs == -sale.cogs
  {
    SoldLineIsFound(e, costs, before, after, i);
    var sale := SoldFact(e, e.lines[i], costs[i]);
    if sale.revenue + sale.tax > 0 {
      assert line.refund * sale.tax == sale.tax * (sale.revenue + sale.tax);
      RoundDivExact(sale.tax, sale.revenue + sale.tax);
    }
  }

  // ---- A SKU on several lines ----

  ghost predicate Matches(f: SaleFact, transactionId: string, sku: string) {
    f.transactionId == transactionId && f.returnId == None && f.sku == sku
  }

  lemma {:induction false} FindSoldAt(facts: seq<SaleFact>, transactionId: string, sku: string, k: nat)
    requires k < |facts| && Matches(facts[k], transactionId, sku)
    requires forall j :: 0 <= j < k ==> !Matches(facts[j], transactionId, sku)
    ensures FindSold(facts, transactionId, sku) == Some(facts[k])
  {
    var init := facts[..|facts| - 1];
    if k < |init| {
      FindSoldAt(init, transactionId, sku, k);
    } else {
      FindSoldIsFirst(init, transactionId, sku);
    }
  }

  /** Inventory gives one cost per SKU. */
  ghost predicate CostsBySku(lines: seq<E.SoldLine>, costs: seq<int>) {
    |costs| == |lines| && forall i, j :: 0 <= i < j < |lines| && lines[i].sku == lines[j].sku ==> costs[i] == costs[j]
  }

  lemma {:induction false} LookedUpBySku(lines: seq<E.SoldLine>, unitCost: string -> Lookup<int>)
    requires UnitCosts(lines, unitCost).Ok?
    ensures var costs := UnitCosts(lines, unitCost).value;
            && CostsBySku(lines, costs)
            && forall i :: 0 <= i < |lines| ==> unitCost(lines[i].sku) == Found(costs[i])
  {
    if lines != [] {
      LookedUpBySku(lines[..|lines| - 1], unitCost);
    }
  }

  /** The first line of a sale with the i-th line's SKU. */
  ghost predicate FirstWithSku(lines: seq<E.SoldLine>, f: nat, i: nat) {
    && f <= i < |lines| && lines[f].sku == lines[i].sku
    && forall k :: 0 <= k < f ==> lines[k].sku != lines[i].sku
  }

  lemma FirstLineIsFound(e: E.ItemSold, costs: seq<int>, before: seq<SaleFact>, after: seq<SaleFact>, f: nat, i: nat)
    requires |costs| == |e.lines| && FirstWithSku(e.lines, f, i)
    requires NoSaleOf(before, e.transactionId)
    ensures FindSold(before + SoldFacts(e, costs) + after, e.transactionId, e.lines[i].sku)
            == Some(SoldFact(e, e.lines[f], costs[f]))
  {
    var facts, k := before + SoldFacts(e, costs) + after, |before| + f;
    assert facts[k] == SoldFact(e, e.lines[f], costs[f]);
    forall j | 0 <= j < k ensures !Matches(facts[j], e.transactionId, e.lines[i].sku) {
      if j < |before| {
        assert facts[j] in before;
      } else {
        assert facts[j] == SoldFact(e, e.lines[j - |before|], costs[j - |before|]);
      }
    }
    FindSoldAt(facts, e.transactionId, e.lines[i].sku, k);
  }

  /** The facts of a refund of one line that was sold. */
  lemma OneRefund(ret: E.ItemReturned, line: E.ReturnedLine, facts: seq<SaleFact>, world: World, sold: SaleFact)
    requires FindSold(facts, ret.originalTransactionId, line.sku) == Some(sold)
    ensures RefundFacts(ret, [line], facts, world) == Ok([RefundFact(ret, line, Some(sold), sold.unitCost)])
  {
    var lines := [line];
    assert lines[..|lines| - 1] == [] && lines[|lines| - 1] == line;
    assert RefundFacts(ret, [], facts, world) == Ok([]);
    var refund := RefundFact(ret, line, Some(sold), sold.unitCost);
    assert RefundFacts(ret, lines, facts, world) == Ok([] + [refund]) && [] + [refund] == [refund];
  }

  ghost predicate Cancels(refund: SaleFact, sale: SaleFact) {
    && refund.quantity == -sale.quantity && refund.revenue == -sale.revenue
    && refund.tax == -sale.tax && refund.cogs == -sale.cogs
  }

  /** A line's whole refund, taken at the VAT share of another line, gives back the line's own VAT to the cent. */
  predicate SameShare(first: E.SoldLine, line: E.SoldLine) {
    if first.total > 0
    then 2 * (first.total * line.tax) - first.total <= 2 * (line.total * first.tax)
         < 2 * (first.total * line.tax) + first.total
    else line.tax == 0
  }

  /** A whole line refunded at the facts of any line of its SKU cancels exactly when that line's share fits. */
  lemma RefundAtShare(e: E.ItemSold, costs: seq<int>, f: nat, i: nat, ret: E.ItemReturned, line: E.ReturnedLine)
    requires CostsBySku(e.lines, costs) && f < |e.lines| && i < |e.lines| && e.lines[f].sku == e.lines[i].sku
    requires line.sku == e.lines[i].sku && line.quantity == e.lines[i].quantity && line.refund == e.lines[i].total
    ensures var refund := RefundFact(ret, line, Some(SoldFact(e, e.lines[f], costs[f])), costs[f]);
            Cancels(refund, SoldFact(e, e.lines[i], costs[i])) <==> SameShare(e.lines[f], e.lines[i])
  {
    var first, own := e.lines[f], e.lines[i];
    assert costs[f] == costs[i];
    if first.total > 0 {
      if 2 * (first.total * own.tax) - first.total <= 2 * (own.total * first.tax)
         < 2 * (first.total * own.tax) + first.total {
        RoundDivUnique(own.total * first.tax, first.total, own.tax);
      }
    }
  }

  /**
   With the facts in the order they were booked, refunding a whole line uses the
   first line of the SKU, and so cancels the line exactly when that line's VAT
   share rounds to the line's own VAT. With distinct SKUs that is always so.
   */
  lemma WholeLineRefundCancelsExactlyWhen(e: E.ItemSold, costs: seq<int>, before: seq<SaleFact>, after: seq<SaleFact>,
                                          f: nat, i: nat, ret: E.ItemReturned, line: E.ReturnedLine)
    requires CostsBySku(e.lines, costs) && FirstWithSku(e.lines, f, i)
    requires NoSaleOf(before, e.transactionId)
    requires line.sku == e.lines[i].sku && line.quantity == e.lines[i].quantity && line.refund == e.lines[i].total
    ensures var sold := FindSold(before + SoldFacts(e, costs) + after, e.transactionId, line.sku);
            && sold == Some(SoldFact(e, e.lines[f], costs[f]))
            && (Cancels(RefundFact(ret, line, sold, costs[f]), SoldFact(e, e.lines[i], costs[i])) <==>
                SameShare(e.lines[f], e.lines[i]))
    ensures f == i && 0 <= e.lines[i].tax <= e.lines[i].total ==> SameShare(e.lines[f], e.lines[i])
  {
    FirstLineIsFound(e, costs, before, after, f, i);
    RefundAtShare(e, costs, f, i, ret, line);
  }

  // ---- Facts in any order ----

  /** A sale's facts among others, in whatever order a query returns them. */
  ghost predicate InSomeOrder(facts: seq<SaleFact>, sale: seq<SaleFact>, others: seq<SaleFact>) {
    multiset(facts) == multiset(sale) + multiset(others)
  }

  /** The facts a refund of the line finds make it cancel the sale's i-th line. */
  ghost predicate CancelsAmong(facts: seq<SaleFact>, e: E.ItemSold, costs: seq<int>, i: nat, ret: E.ItemReturned,
                               line: E.ReturnedLine)
    requires |costs| == |e.lines| && i < |e.lines|
  {
    var sold := FindSold(facts, e.transactionId, line.sku);
    && sold.Some?
    && Cancels(RefundFact(ret, line, sold, sold.value.unitCost), SoldFact(e, e.lines[i], costs[i]))
  }

  /** Every line of the i-th line's SKU has its VAT share. */
  ghost predicate SkuSharesVat(lines: seq<E.SoldLine>, i: nat)
    requires i < |lines|
  {
    forall f: nat :: f < |lines| && lines[f].sku == lines[i].sku ==> SameShare(lines[f], lines[i])
  }

  /** Whatever the order, what is found for a sold SKU is the fact of one of its lines. */
  lemma SomeLineIsFound(e: E.ItemSold, costs: seq<int>, others: seq<SaleFact>, facts: seq<SaleFact>, i: nat)
    returns (f: nat)
    requires |costs| == |e.lines| && i < |e.lines| && NoSaleOf(others, e.transactionId)
    requires InSomeOrder(facts, SoldFacts(e, costs), others)
    ensures f < |e.lines| && e.lines[f].sku == e.lines[i].sku
    ensures FindSold(facts, e.transactionId, e.lines[i].sku) == Some(SoldFact(e, e.lines[f], costs[f]))
  {
    var sale, sku := SoldFacts(e, costs), e.lines[i].sku;
    FindSoldIsFirst(facts, e.transactionId, sku);
    assert sale[i] == SoldFact(e, e.lines[i], costs[i]);
    assert sale[i] in multiset(facts);
    var found := FindSold(facts, e.transactionId, sku).value;
    assert found in multiset(facts) && found !in others;
    assert found in sale;
    f :| 0 <= f < |e.lines| && found == sale[f];
  }

  /** Some order puts any given line of the sale first. */
  lemma AnyLineCanComeFirst(e: E.ItemSold, costs: seq<int>, others: seq<SaleFact>, f: nat)
    returns (facts: seq<SaleFact>)
    requires |costs| == |e.lines| && f < |e.lines|
    ensures InSomeOrder(facts, SoldFacts(e, costs), others)
    ensures FindSold(facts, e.transactionId, e.lines[f].sku) == Some(SoldFact(e, e.lines[f], costs[f]))
  {
    var sale := SoldFacts(e, costs);
    var rest := sale[..f] + sale[f + 1..] + others;
    facts := [sale[f]] + rest;
    assert sale == sale[..f] + [sale[f]] + sale[f + 1..];
    FindSoldAt(facts, e.transactionId, e.lines[f].sku, 0);
  }

  /**
   In whatever order the sale's facts come back, refunding a whole line cancels
   it: true if and only if every line of the SKU has the line's VAT share. With
   distinct SKUs that is always so.
   */
  lemma WholeLineRefundCancelsInEveryOrderExactlyWhen(e: E.ItemSold, costs: seq<int>, others: seq<SaleFact>, i: nat,
                                                      ret: E.ItemReturned, line: E.ReturnedLine)
    requires CostsBySku(e.lines, costs) && i < |e.lines| && NoSaleOf(others, e.transactionId)
    requires line.sku == e.lines[i].sku && line.quantity == e.lines[i].quantity && line.refund == e.lines[i].total
    ensures (forall facts :: InSomeOrder(facts, SoldFacts(e, costs), others) ==>
                               CancelsAmong(facts, e, costs, i, ret, line)) <==> SkuSharesVat(e.lines, i)
    ensures DistinctSkus(e.lines) && 0 <= e.lines[i].tax <= e.lines[i].total ==> SkuSharesVat(e.lines, i)
  {
    var sale := SoldFacts(e, costs);
    if SkuSharesVat(e.lines, i) {
      forall facts | InSomeOrder(facts, sale, others) ensures CancelsAmong(facts, e, costs, i, ret, line) {
        var f := SomeLineIsFound(e, costs, others, facts, i);
        RefundAtShare(e, costs, f, i, ret, line);
      }
    } else {
      var f: nat :| f < |e.lines| && e.lines[f].sku == e.lines[i].sku && !SameShare(e.lines[f], e.lines[i]);
      var facts := AnyLineCanComeFirst(e, costs, others, f);
      RefundAtShare(e, costs, f, i, ret, line);
      assert !CancelsAmong(facts, e, costs, i, ret, line);
    }
  }

  function TaxBack(sold: SaleFact): int -> int {
    (refund: int) => RefundedTax(Some(sold), refund)
  }

  /** Over n parts, the VAT given back is within n half-cents of the gross amount's VAT share of what was paid back. */
  ghost predicate WithinHalfCents(gross: int, tax: int, paid: int, back: int, n: nat) {
    -(n * gross) <= 2 * gross * back - 2 * tax * paid <= n * gross
  }

  /**
   However a line is refunded in parts, each part drifts by at most half a cent:
   over n parts the VAT given back is within n/2 cents of the line's VAT share
   of the sum refunded.
   */
  lemma {:induction false} PartialRefundsDrift(sold: SaleFact, refunds: seq<int>)
    requires sold.revenue + sold.tax > 0
    ensures WithinHalfCents(sold.revenue + sold.tax, sold.tax, SumBy(refunds, Amount()), SumBy(refunds, TaxBack(sold)),
                            |refunds|)
  {
    var gross, tax := sold.revenue + sold.tax, sold.tax;
    if refunds == [] {
      NothingDrifts(gross, tax);
    } else {
      var init, last := refunds[..|refunds| - 1], refunds[|refunds| - 1];
      PartialRefundsDrift(sold, init);
      var back, paid := SumBy(init, TaxBack(sold)), SumBy(init, Amount());
      DriftStep(gross, tax, back, RoundDiv(last * tax, gross), paid, last, |init|);
    }
  }

  lemma NothingDrifts(gross: int, tax: int)
    ensures WithinHalfCents(gross, tax, 0, 0, 0)
  {
  }

  lemma DriftStep(gross: int, tax: int, back: int, t: int, paid: int, last: int, n: nat)
    requires 2 * (gross * t) - gross <= 2 * (last * tax) < 2 * (gross * t) + gross
    requires WithinHalfCents(gross, tax, paid, back, n)
    ensures WithinHalfCents(gross, tax, paid + last, back + t, n + 1)
  {
    assert 2 * gross * (back + t) == 2 * gross * back + 2 * (gross * t);
    assert 2 * tax * (paid + last) == 2 * tax * paid + 2 * (last * tax);
    assert (n + 1) * gross == n * gross + gross;
  }
}
