/** A sale refunded in parts, over every run: how far the VAT given back drifts from the sale's share. */
module PartialRefunds {
  import opened Wrappers
  import opened Sums
  import opened Postings
  import opened PostingProofs
  import opened SalesAccounting
  import opened Books
  import opened History
  import opened Refunds
  import E = Events

  ghost predicate IsRefundOf(f: SaleFact, transactionId: string, sku: string) {
    f.transactionId == transactionId && f.returnId.Some? && f.sku == sku
  }

  /** What each refund of a sold SKU paid back, VAT included. */
  ghost function Parts(facts: seq<SaleFact>, transactionId: string, sku: string): seq<int> {
    if facts == [] then []
    else
      var init, last := Parts(facts[..|facts| - 1], transactionId, sku), facts[|facts| - 1];
      if IsRefundOf(last, transactionId, sku) then init + [-(last.revenue + last.tax)] else init
  }

  /** The VAT those refunds gave back. */
  ghost function VatBack(facts: seq<SaleFact>, transactionId: string, sku: string): int {
    if facts == [] then 0
    else
      var init, last := VatBack(facts[..|facts| - 1], transactionId, sku), facts[|facts| - 1];
      if IsRefundOf(last, transactionId, sku) then init - last.tax else init
  }

  /** A refund's VAT is the share of the sale fact found among everything booked before it. */
  ghost predicate RefundTakesShare(facts: seq<SaleFact>, q: nat)
    requires q < |facts|
  {
    var f := facts[q];
    f.returnId.Some? ==> f.tax == -RefundedTax(FindSold(facts[..q], f.transactionId, f.sku), -(f.revenue + f.tax))
  }

  ghost predicate RefundsTakeShares(facts: seq<SaleFact>) {
    forall q: nat :: q < |facts| ==> RefundTakesShare(facts, q)
  }

  /** Refunds are not sales: they do not change what is found. */
  lemma {:induction false} RefundsAreNotFound(facts: seq<SaleFact>, more: seq<SaleFact>, t: string, sku: string)
    requires forall f :: f in more ==> f.returnId.Some?
    ensures FindSold(facts + more, t, sku) == FindSold(facts, t, sku)
  {
    if more == [] {
      assert facts + more == facts;
    } else {
      var init := more[..|more| - 1];
      assert (facts + more)[..|facts + more| - 1] == facts + init;
      RefundsAreNotFound(facts, init, t, sku);
    }
  }

  /** Every fact of a refund's plan takes its share from the facts the plan was made with. */
  lemma {:induction false} PlannedShares(ret: E.ItemReturned, lines: seq<E.ReturnedLine>, facts: seq<SaleFact>,
                                         world: World)
    requires RefundFacts(ret, lines, facts, world).Ok?
    ensures forall f :: f in RefundFacts(ret, lines, facts, world).value ==>
              && f.returnId.Some?
              && f.tax == -RefundedTax(FindSold(facts, f.transactionId, f.sku), -(f.revenue + f.tax))
  {
    if lines != [] {
      PlannedShares(ret, lines[..|lines| - 1], facts, world);
    }
  }

  lemma NewShare(ret: E.ItemReturned, facts: seq<SaleFact>, more: seq<SaleFact>, world: World, k: nat)
    requires RefundFacts(ret, ret.lines, facts, world) == Ok(more) && k < |more|
    ensures RefundTakesShare(facts + more, |facts| + k)
  {
    PlannedShares(ret, ret.lines, facts, world);
    var f := more[k];
    assert f in more;
    assert (facts + more)[..|facts| + k] == facts + more[..k];
    RefundsAreNotFound(facts, more[..k], f.transactionId, f.sku);
  }

  /** Only a return plans refund facts. */
  lemma OnlyReturnsRefund(event: DomainEvent, facts: seq<SaleFact>, world: World, f: SaleFact)
    requires PlanFor(event, facts, world).Ok? && f in PlanFor(event, facts, world).value.facts && f.returnId.Some?
    ensures event.Returned? && RefundFacts(event.refund, event.refund.lines, facts, world)
                               == Ok(PlanFor(event, facts, world).value.facts)
  {
  }

  lemma MoreShares(facts: seq<SaleFact>, more: seq<SaleFact>)
    requires RefundsTakeShares(facts)
    requires forall k: nat :: k < |more| && more[k].returnId.Some? ==> RefundTakesShare(facts + more, |facts| + k)
    ensures RefundsTakeShares(facts + more)
  {
    forall q: nat | q < |facts + more| && (facts + more)[q].returnId.Some? ensures RefundTakesShare(facts + more, q) {
      if q < |facts| {
        assert (facts + more)[..q] == facts[..q] && RefundTakesShare(facts, q);
      } else {
        var k := q - |facts|;
        assert more[k].returnId.Some?;
      }
    }
  }

  lemma PlanKeepsShares(facts: seq<SaleFact>, more: seq<SaleFact>, event: DomainEvent, world: World)
    requires RefundsTakeShares(facts)
    requires PlanFor(event, facts, world).Ok? && PlanFor(event, facts, world).value.facts == more
    ensures RefundsTakeShares(facts + more)
  {
    forall k: nat | k < |more| && more[k].returnId.Some? ensures RefundTakesShare(facts + more, |facts| + k) {
      OnlyReturnsRefund(event, facts, world, more[k]);
      NewShare(event.refund, facts, more, world, k);
    }
    MoreShares(facts, more);
  }

  lemma BookingKeepsShares(b: Books, p: Plan)
    requires RefundsTakeShares(b.facts) && RefundsTakeShares(b.facts + p.facts) && SoundPlan(p)
    ensures RefundsTakeShares(Book(b, p).facts)
  {
    BookedFacts(b, p);
    assert b.facts + [] == b.facts;
  }

  lemma {:induction false} ReplayTakesShares(changes: seq<Change>)
    ensures RefundsTakeShares(MakeAll(EMPTY, changes).facts)
  {
    if changes != [] {
      var b, last := MakeAll(EMPTY, changes[..|changes| - 1]), changes[|changes| - 1];
      ReplayTakesShares(changes[..|changes| - 1]);
      if last.Booking? && PlanFor(last.event, b.facts, last.world).Ok? {
        var plan := PlanFor(last.event, b.facts, last.world).value;
        PlanIsSound(last.event, b.facts, last.world);
        PlanKeepsShares(b.facts, plan.facts, last.event, last.world);
        BookingKeepsShares(b, plan);
      }
    }
  }

  lemma RunTakesShares(steps: seq<Step>)
    ensures RefundsTakeShares(Run(steps).facts)
  {
    var changes := RunIsReplay(steps);
    ReplayTakesShares(changes);
    assert Run(steps).facts == MakeAll(EMPTY, changes).facts;
  }

  lemma TakesSharesPrefix(facts: seq<SaleFact>, n: nat)
    requires RefundsTakeShares(facts) && n <= |facts|
    ensures RefundsTakeShares(facts[..n])
  {
    forall k: nat | k < n ensures RefundTakesShare(facts[..n], k) {
      assert facts[..n][..k] == facts[..k] && RefundTakesShare(facts, k);
    }
  }

  /** Nothing is given back for a sale that is not booked yet: its VAT share is unknown. */
  lemma {:induction false} NothingBackBefore(facts: seq<SaleFact>, t: string, sku: string)
    requires RefundsTakeShares(facts) && NoSaleOf(facts, t)
    ensures VatBack(facts, t, sku) == 0
  {
    if facts != [] {
      var q := |facts| - 1;
      var init := facts[..q];
      TakesSharesPrefix(facts, q);
      NothingBackBefore(init, t, sku);
      FindSoldIsFirst(init, t, sku);
      assert RefundTakesShare(facts, q);
    }
  }

  ghost predicate TakesShareOf(f: SaleFact, sold: SaleFact) {
    f.tax == -RefundedTax(Some(sold), -(f.revenue + f.tax))
  }

  lemma FoundBehindTheSale(facts: seq<SaleFact>, e: E.ItemSold, costs: seq<int>, at: nat, f: nat, q: nat)
    requires StandsAt(facts, e, costs, at) && FirstWithSku(e.lines, f, f) && at + |e.lines| <= q <= |facts|
    ensures FindSold(facts[..q], e.transactionId, e.lines[f].sku) == Some(SoldFact(e, e.lines[f], costs[f]))
  {
    var end := at + |e.lines|;
    assert facts[..q] == facts[..at] + facts[at..end] + facts[end..q];
    FirstLineIsFound(e, costs, facts[..at], facts[end..q], f, f);
  }

  /** Behind a sale every refund of the SKU takes the share of the SKU's first line. */
  lemma ShareOfTheSale(facts: seq<SaleFact>, e: E.ItemSold, costs: seq<int>, at: nat, f: nat, q: nat)
    requires StandsAt(facts, e, costs, at) && RefundsTakeShares(facts) && FirstWithSku(e.lines, f, f)
    requires at + |e.lines| <= q < |facts| && IsRefundOf(facts[q], e.transactionId, e.lines[f].sku)
    ensures TakesShareOf(facts[q], SoldFact(e, e.lines[f], costs[f]))
  {
    FoundBehindTheSale(facts, e, costs, at, f, q);
    assert RefundTakesShare(facts, q);
  }

  lemma {:induction false} SharesAddUp(facts: seq<SaleFact>, t: string, sku: string, sold: SaleFact)
    requires forall f :: f in facts && IsRefundOf(f, t, sku) ==> TakesShareOf(f, sold)
    ensures VatBack(facts, t, sku) == SumBy(Parts(facts, t, sku), TaxBack(sold))
  {
    if facts != [] {
      var init, last := facts[..|facts| - 1], facts[|facts| - 1];
      SharesAddUp(init, t, sku, sold);
      if IsRefundOf(last, t, sku) {
        SumAppend(Parts(init, t, sku), -(last.revenue + last.tax), TaxBack(sold));
      }
    }
  }

  lemma DriftBehindTheSale(facts: seq<SaleFact>, e: E.ItemSold, costs: seq<int>, at: nat, f: nat)
    requires StandsAt(facts, e, costs, at) && RefundsTakeShares(facts)
    requires FirstWithSku(e.lines, f, f) && e.lines[f].total > 0
    ensures var since, t, line := facts[at + |e.lines|..], e.transactionId, e.lines[f];
            var parts, back := Parts(since, t, line.sku), VatBack(since, t, line.sku);
            WithinHalfCents(line.total, line.tax, SumBy(parts, Amount()), back, |parts|)
  {
    var end, t, sku := at + |e.lines|, e.transactionId, e.lines[f].sku;
    var sold, since := SoldFact(e, e.lines[f], costs[f]), facts[end..];
    forall x | x in since && IsRefundOf(x, t, sku) ensures TakesShareOf(x, sold) {
      var k :| 0 <= k < |since| && since[k] == x;
      ShareOfTheSale(facts, e, costs, at, f, end + k);
    }
    SharesAddUp(since, t, sku, sold);
    PartialRefundsDrift(sold, Parts(since, t, sku));
  }

  /**
   In every run, the refunds of a SKU of a booked sale give back its VAT share
   part by part: over n parts booked since the sale the VAT given back is within
   n half-cents of the share of everything refunded, and refunds booked before the
   sale give back none.
   */
  lemma PartialRefundsDriftInRuns(steps: seq<Step>, e: E.ItemSold, costs: seq<int>, at: nat, f: nat)
    requires BookedSale(Run(steps), e, costs, at) && FirstWithSku(e.lines, f, f) && e.lines[f].total > 0
    ensures var facts, t, line := Run(steps).facts, e.transactionId, e.lines[f];
            var since := facts[at + |e.lines|..];
            var parts, back := Parts(since, t, line.sku), VatBack(since, t, line.sku);
            && WithinHalfCents(line.total, line.tax, SumBy(parts, Amount()), back, |parts|)
            && VatBack(facts[..at], t, line.sku) == 0
  {
    var facts := Run(steps).facts;
    RunTakesShares(steps);
    DriftBehindTheSale(facts, e, costs, at, f);
    TakesSharesPrefix(facts, at);
    NothingBackBefore(facts[..at], e.transactionId, e.lines[f].sku);
  }
}
