/** Refunds of booked sales, over every run of the posting engine. */
module Refunds {
  import opened Wrappers
  import opened Journal
  import opened Postings
  import opened PostingProofs
  import opened SalesAccounting
  import opened Books
  import opened BooksProofs
  import E = Events

  function SaleKey(transactionId: string): Key {
    Key(ItemSoldSource, Document(transactionId))
  }

  /** The facts of one sale stand together at a position, and no other sale of its transaction is around. */
  ghost predicate StandsAt(facts: seq<SaleFact>, e: E.ItemSold, costs: seq<int>, at: nat) {
    && CostsBySku(e.lines, costs) && at + |e.lines| <= |facts|
    && facts[at..at + |e.lines|] == SoldFacts(e, costs)
    && NoSaleOf(facts[..at], e.transactionId) && NoSaleOf(facts[at + |e.lines|..], e.transactionId)
  }

  ghost predicate IsPosted(inbox: seq<InboxRow>, event: DomainEvent) {
    exists i :: 0 <= i < |inbox| && inbox[i].event == event && inbox[i].status == Posted
  }

  /** The facts of a posted sale, found where it was booked. */
  ghost predicate BookedSale(b: Books, e: E.ItemSold, costs: seq<int>, at: nat) {
    StandsAt(b.facts, e, costs, at) && IsPosted(b.inbox, Sold(e))
  }

  ghost predicate HasSale(b: Books, transactionId: string) {
    exists e: E.ItemSold, costs: seq<int>, at: nat ::
      e.transactionId == transactionId && BookedSale(b, e, costs, at)
  }

  /** Every booked sale is some posted event's, its facts in one piece. */
  ghost predicate SalesStand(b: Books) {
    forall t :: HasKey(b.entries, SaleKey(t)) ==> HasSale(b, t)
  }

  // ---- What one more plan does ----

  lemma NoSaleSlices(facts: seq<SaleFact>, more: seq<SaleFact>, t: string)
    requires NoSaleOf(facts, t) && NoSaleOf(more, t)
    ensures NoSaleOf(facts + more, t)
  {
  }

  lemma StillStands(facts: seq<SaleFact>, more: seq<SaleFact>, e: E.ItemSold, costs: seq<int>, at: nat)
    requires StandsAt(facts, e, costs, at) && NoSaleOf(more, e.transactionId)
    ensures StandsAt(facts + more, e, costs, at)
  {
    var end := at + |e.lines|;
    assert (facts + more)[..at] == facts[..at];
    assert (facts + more)[at..end] == facts[at..end];
    assert (facts + more)[end..] == facts[end..] + more;
    NoSaleSlices(facts[end..], more, e.transactionId);
  }

  lemma StillPosted(before: seq<InboxRow>, after: seq<InboxRow>, event: DomainEvent)
    requires IsPosted(before, event) && |before| <= |after|
    requires forall i :: 0 <= i < |before| && before[i].status == Posted ==> after[i] == before[i]
    ensures IsPosted(after, event)
  {
    var i :| 0 <= i < |before| && before[i].event == event && before[i].status == Posted;
    assert after[i] == before[i];
  }

  /** A sale stays as it was when facts of other documents are added and posted rows stay. */
  lemma SaleStays(b: Books, after: Books, more: seq<SaleFact>, t: string)
    requires HasSale(b, t) && after.facts == b.facts + more && NoSaleOf(more, t)
    requires |b.inbox| <= |after.inbox|
    requires forall i :: 0 <= i < |b.inbox| && b.inbox[i].status == Posted ==> after.inbox[i] == b.inbox[i]
    ensures HasSale(after, t)
  {
    var e: E.ItemSold, costs: seq<int>, at: nat :| e.transactionId == t && BookedSale(b, e, costs, at);
    StillStands(b.facts, more, e, costs, at);
    StillPosted(b.inbox, after.inbox, Sold(e));
    assert BookedSale(after, e, costs, at);
  }

  /** Facts of another document are no sale of this transaction. */
  lemma OtherFacts(facts: seq<SaleFact>, key: Key, t: string)
    requires (forall f :: f in facts ==> FactKey(f) == key) && key != SaleKey(t)
    ensures NoSaleOf(facts, t)
  {
  }

  lemma UnbookedHasNoSale(b: Books, t: string)
    requires FactsMatch(b) && !HasKey(b.entries, SaleKey(t))
    ensures NoSaleOf(b.facts, t)
  {
    forall f | f in b.facts ensures f.transactionId != t || f.returnId != None {
      var i :| 0 <= i < |b.facts| && b.facts[i] == f;
      assert HasKey(b.entries, FactKey(b.facts[i]));
    }
  }

  /** A sale that has just been booked stands at the end. */
  lemma NewSaleStands(b: Books, after: Books, e: E.ItemSold, costs: seq<int>)
    requires CostsBySku(e.lines, costs) && NoSaleOf(b.facts, e.transactionId)
    requires after.facts == b.facts + SoldFacts(e, costs) && IsPosted(after.inbox, Sold(e))
    ensures HasSale(after, e.transactionId)
  {
    var at := |b.facts|;
    assert after.facts[..at] == b.facts && after.facts[at + |e.lines|..] == [];
    assert after.facts[at..at + |e.lines|] == SoldFacts(e, costs);
    assert BookedSale(after, e, costs, at);
  }

  lemma SoldPlanFacts(e: E.ItemSold, facts: seq<SaleFact>, world: World)
    requires PlanFor(Sold(e), facts, world).Ok?
    ensures var costs := UnitCosts(e.lines, world.unitCost);
            && costs.Ok? && CostsBySku(e.lines, costs.value)
            && PlanFor(Sold(e), facts, world).value.facts == SoldFacts(e, costs.value)
            && PlanFor(Sold(e), facts, world).value.entry.Some?
  {
    LookedUpBySku(e.lines, world.unitCost);
  }

  lemma BookedFacts(b: Books, p: Plan)
    requires SoundPlan(p)
    ensures var known := p.entry.Some? && HasKey(b.entries, KeyOf(p.entry.value));
            Book(b, p).facts == b.facts + if known then [] else p.facts
  {
  }

  lemma PostingKeepsSales(b: Books, i: nat, p: Plan, facts: seq<SaleFact>, world: World)
    requires SalesStand(b) && FactsMatch(b) && i < |b.inbox| && b.inbox[i].status == Pending
    requires PlanFor(b.inbox[i].event, facts, world) == Ok(p)
    ensures SalesStand(Book(b, p).(inbox := b.inbox[i := b.inbox[i].(status := Posted)]))
  {
    var event, after := b.inbox[i].event, Book(b, p).(inbox := b.inbox[i := b.inbox[i].(status := Posted)]);
    PlanIsSound(event, facts, world);
    BookedFacts(b, p);
    if p.entry.Some? {
      PlanKey(event, facts, world);
    }
    forall t | HasKey(after.entries, SaleKey(t)) ensures HasSale(after, t) {
      if HasKey(b.entries, SaleKey(t)) {
        var more := after.facts[|b.facts|..];
        assert NoSaleOf(more, t) by {
          if p.entry.Some? && more != [] { OtherFacts(more, KeyOf(p.entry.value), t); }
        }
        SaleStays(b, after, more, t);
      } else {
        HasKeyAppend(b.entries, p.entry.value, SaleKey(t));
        UnbookedHasNoSale(b, t);
        var e := event.sale;
        SoldPlanFacts(e, facts, world);
        assert after.inbox[i].event == Sold(e) && after.inbox[i].status == Posted;
        NewSaleStands(b, after, e, UnitCosts(e.lines, world.unitCost).value);
      }
    }
  }

  lemma WaitingKeepsSales(b: Books, inbox: seq<InboxRow>)
    requires SalesStand(b) && |b.inbox| <= |inbox|
    requires forall i :: 0 <= i < |b.inbox| && b.inbox[i].status == Posted ==> inbox[i] == b.inbox[i]
    ensures SalesStand(b.(inbox := inbox))
  {
    var after := b.(inbox := inbox);
    forall t | HasKey(b.entries, SaleKey(t)) ensures HasSale(after, t) {
      assert b.facts + [] == b.facts;
      SaleStays(b, after, [], t);
    }
  }

  lemma ProcessKeepsSales(b: Books, eventId: string, a: Attempt)
    requires SalesStand(b) && FactsMatch(b)
    ensures SalesStand(Process(b, eventId, a))
  {
    var i := RowOf(b.inbox, eventId);
    if i < |b.inbox| && b.inbox[i].status == Pending {
      var plan := PlanFor(b.inbox[i].event, b.facts, a.world);
      if plan.Ok? && a.databaseUp {
        PostingKeepsSales(b, i, plan.value, b.facts, a.world);
      } else {
        WaitingKeepsSales(b, b.inbox[i := RowAfter(b.inbox[i], plan, a)]);
      }
    }
  }

  lemma {:induction false} ProcessAllKeepsSales(b: Books, eventIds: seq<string>, attempts: nat -> Attempt, w: Selection)
    requires SalesStand(b) && Inv(b, w)
    ensures SalesStand(ProcessAll(b, eventIds, attempts))
  {
    if eventIds != [] {
      var n := |eventIds| - 1;
      ProcessAllKeepsSales(b, eventIds[..n], attempts, w);
      ProcessAllKeepsInv(b, eventIds[..n], attempts, w);
      ProcessKeepsSales(ProcessAll(b, eventIds[..n], attempts), eventIds[n], attempts(n));
    }
  }

  lemma PayKeepsSales(b: Books, id: nat, paidAt: int)
    requires SalesStand(b)
    ensures SalesStand(Pay(b, id, paidAt))
  {
    var after := Pay(b, id, paidAt);
    forall t | HasKey(after.entries, SaleKey(t)) ensures HasSale(after, t) {
      if after != b {
        HasKeyAppend(b.entries, after.entries[|b.entries|], SaleKey(t));
      }
      assert b.facts + [] == b.facts;
      SaleStays(b, after, [], t);
    }
  }

  lemma ArriveKeepsSales(b: Books, eventId: string, event: DomainEvent, a: Attempt)
    requires SalesStand(b) && FactsMatch(b)
    ensures SalesStand(Deliver(b, eventId, event, a))
  {
    var stored := Store(b, eventId, event, a.now);
    WaitingKeepsSales(b, stored.inbox);
    ProcessKeepsSales(stored, eventId, a);
  }

  lemma RetryKeepsSales(b: Books, eventId: string, a: Attempt)
    requires SalesStand(b) && FactsMatch(b)
    ensures SalesStand(Retry(b, eventId, a))
  {
    var i := RowOf(b.inbox, eventId);
    if i < |b.inbox| && b.inbox[i].status != Posted {
      var queued := Requeue(b, i, a.now);
      WaitingKeepsSales(b, queued.inbox);
      ProcessKeepsSales(queued, eventId, a);
    }
  }

  lemma StepKeepsSales(b: Books, s: Step, w: Selection)
    requires SalesStand(b) && Inv(b, w)
    ensures SalesStand(Apply(b, s))
  {
    match s
    case Arrive(eventId, event, attempt) => ArriveKeepsSales(b, eventId, event, attempt);
    case SweepDue(now, attempts) => ProcessAllKeepsSales(b, Batch(b.inbox, now), attempts, w);
    case RetryEvent(eventId, attempt) => RetryKeepsSales(b, eventId, attempt);
    case PayBill(billId, paidAt) => PayKeepsSales(b, billId, paidAt);
  }

  /** In every run, a booked sale's facts are those of one posted event, in one piece and nowhere else. */
  lemma {:induction false} BookedSalesStand(steps: seq<Step>)
    ensures SalesStand(Run(steps))
  {
    if steps != [] {
      var n := |steps| - 1;
      BookedSalesStand(steps[..n]);
      RunKeepsInv(steps[..n], (k, at) => true);
      StepKeepsSales(Run(steps[..n]), steps[n], (k, at) => true);
    }
  }

  /**
   In every run, with facts returned in the order they were booked, refunding a
   whole line of a booked sale nets that line's facts to zero exactly when its VAT
   share at the first line of the SKU rounds to its own VAT; always when the SKU
   is on no earlier line.
   */
  lemma WholeLineRefundNetsToZeroExactlyWhen(b: Books, e: E.ItemSold, costs: seq<int>, at: nat, f: nat, i: nat,
                                             ret: E.ItemReturned, line: E.ReturnedLine, world: World)
    requires BookedSale(b, e, costs, at) && FirstWithSku(e.lines, f, i)
    requires ret.originalTransactionId == e.transactionId && ret.lines == [line]
    requires line.sku == e.lines[i].sku && line.quantity == e.lines[i].quantity && line.refund == e.lines[i].total
    ensures var refunds := RefundFacts(ret, ret.lines, b.facts, world);
            && refunds.Ok? && |refunds.value| == 1 && b.facts[at + i] == SoldFact(e, e.lines[i], costs[i])
            && (Cancels(refunds.value[0], b.facts[at + i]) <==> SameShare(e.lines[f], e.lines[i]))
    ensures f == i && 0 <= e.lines[i].tax <= e.lines[i].total ==> SameShare(e.lines[f], e.lines[i])
  {
    var before, after := b.facts[..at], b.facts[at + |e.lines|..];
    assert b.facts == before + SoldFacts(e, costs) + after;
    assert b.facts[at + i] == b.facts[at..at + |e.lines|][i];
    WholeLineRefundCancelsExactlyWhen(e, costs, before, after, f, i, ret, line);
    OneRefund(ret, line, b.facts, world, SoldFact(e, e.lines[f], costs[f]));
  }

  /** The books' facts, in whatever order a query returns them. */
  ghost predicate Reordered(facts: seq<SaleFact>, b: Books) {
    multiset(facts) == multiset(b.facts)
  }

  /** A one-line refund planned from these facts cancels the sale's fact. */
  ghost predicate NetsToZero(facts: seq<SaleFact>, ret: E.ItemReturned, world: World, sale: SaleFact) {
    var refunds := RefundFacts(ret, ret.lines, facts, world);
    refunds.Ok? && |refunds.value| == 1 && Cancels(refunds.value[0], sale)
  }

  lemma NetsAsFound(e: E.ItemSold, costs: seq<int>, others: seq<SaleFact>, facts: seq<SaleFact>, i: nat,
                    ret: E.ItemReturned, line: E.ReturnedLine, world: World)
    requires |costs| == |e.lines| && i < |e.lines| && NoSaleOf(others, e.transactionId)
    requires InSomeOrder(facts, SoldFacts(e, costs), others)
    requires ret.originalTransactionId == e.transactionId && ret.lines == [line] && line.sku == e.lines[i].sku
    ensures NetsToZero(facts, ret, world, SoldFact(e, e.lines[i], costs[i])) <==>
            CancelsAmong(facts, e, costs, i, ret, line)
  {
    var f := SomeLineIsFound(e, costs, others, facts, i);
    OneRefund(ret, line, facts, world, SoldFact(e, e.lines[f], costs[f]));
  }

  /**
   In every run, refunding a whole line of a booked sale nets that line's facts
   to zero in every order the facts may come back in: true if and only if every
   line of the SKU has the line's VAT share; always with distinct SKUs.
   */
  lemma WholeLineRefundNetsToZeroInEveryOrderExactlyWhen(b: Books, e: E.ItemSold, costs: seq<int>, at: nat, i: nat,
                                                         ret: E.ItemReturned, line: E.ReturnedLine, world: World)
    requires BookedSale(b, e, costs, at) && i < |e.lines|
    requires ret.originalTransactionId == e.transactionId && ret.lines == [line]
    requires line.sku == e.lines[i].sku && line.quantity == e.lines[i].quantity && line.refund == e.lines[i].total
    ensures (forall facts :: Reordered(facts, b) ==> NetsToZero(facts, ret, world, b.facts[at + i])) <==>
            SkuSharesVat(e.lines, i)
    ensures DistinctSkus(e.lines) && 0 <= e.lines[i].tax <= e.lines[i].total ==> SkuSharesVat(e.lines, i)
  {
    var end, sale := at + |e.lines|, SoldFacts(e, costs);
    var others := b.facts[..at] + b.facts[end..];
    assert b.facts == b.facts[..at] + sale + b.facts[end..];
    assert b.facts[at + i] == b.facts[at..end][i];
    forall facts
      ensures Reordered(facts, b) <==> InSomeOrder(facts, sale, others)
      ensures Reordered(facts, b) ==>
                (NetsToZero(facts, ret, world, b.facts[at + i]) <==> CancelsAmong(facts, e, costs, i, ret, line))
    {
      if Reordered(facts, b) {
        NetsAsFound(e, costs, others, facts, i, ret, line, world);
      }
    }
    WholeLineRefundCancelsInEveryOrderExactlyWhen(e, costs, others, i, ret, line);
  }
}
