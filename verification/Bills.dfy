/** Every supplier bill on its own, over every run: its receipt's entry and its payment's. */
module Bills {
  import opened Wrappers
  import opened Sums
  import opened Chart
  import opened Journal
  import opened Postings
  import opened PostingProofs
  import opened Books
  import opened BooksProofs
  import opened History
  import opened BookedAmounts
  import E = Events

  const PAYABLE := NetOn(ACCOUNTS_PAYABLE)

  /** Where an entry moves the payable account, it moves it by its own bill. */
  ghost predicate MovesItsBill(entry: Entry, bills: seq<Bill>) {
    && (forall i: nat :: i < |bills| && KeyOf(entry) == BillKey(bills[i]) ==> PAYABLE(entry) == -bills[i].amount)
    && (forall i: nat :: i < |bills| && KeyOf(entry) == PaymentKey(i) ==> PAYABLE(entry) == bills[i].amount)
    && (entry.source != GoodsReceivedSource && entry.source != BillPaymentSource ==> PAYABLE(entry) == 0)
  }

  ghost predicate EachMovesItsBill(b: Books) {
    forall e :: e in b.entries ==> MovesItsBill(e, b.bills)
  }

  lemma BookKeepsBills(b: Books, p: Plan)
    requires EachMovesItsBill(b) && BillsMatch(b) && SoundPlan(p)
    ensures EachMovesItsBill(Book(b, p))
  {
    if p.entry.Some? && !HasKey(b.entries, KeyOf(p.entry.value)) {
      var entry, after := p.entry.value, Book(b, p);
      forall e | e in after.entries ensures MovesItsBill(e, after.bills) {
        if e in b.entries {
          assert MovesItsBill(e, b.bills);
          var k :| 0 <= k < |b.entries| && b.entries[k] == e;
          assert KeyOf(b.entries[k]) != KeyOf(entry);
        }
      }
    }
  }

  lemma PayKeepsBills(b: Books, id: nat, paidAt: int)
    requires EachMovesItsBill(b) && LedgerInv(b)
    ensures EachMovesItsBill(Pay(b, id, paidAt))
  {
    if id < |b.bills| && !b.bills[id].paid {
      PaymentStep(b, id, paidAt);
      PaymentEntry(b, id, paidAt);
      var after := Pay(b, id, paidAt);
      forall e | e in after.entries ensures MovesItsBill(e, after.bills) {
        assert e in b.entries ==> MovesItsBill(e, b.bills);
      }
    }
  }

  lemma {:induction false} ReplayKeepsBills(changes: seq<Change>)
    ensures EachMovesItsBill(MakeAll(EMPTY, changes))
  {
    if changes != [] {
      var b, last := MakeAll(EMPTY, changes[..|changes| - 1]), changes[|changes| - 1];
      ReplayKeepsBills(changes[..|changes| - 1]);
      ReplayKeepsInv(changes[..|changes| - 1], (k, at) => true);
      match last
      case Booking(event, world) =>
        var plan := PlanFor(event, b.facts, world);
        if plan.Ok? {
          PlanIsSound(event, b.facts, world);
          BookKeepsBills(b, plan.value);
        }
      case Payment(billId, paidAt) => PayKeepsBills(b, billId, paidAt);
    }
  }

  /** An entry under a document, moving the payable account by an amount. */
  ghost predicate IsBooked(entries: seq<Entry>, key: Key, payable: int) {
    exists e :: e in entries && KeyOf(e) == key && PAYABLE(e) == payable
  }

  ghost predicate EachBillIsBooked(b: Books) {
    forall i: nat :: i < |b.bills| ==>
      && IsBooked(b.entries, BillKey(b.bills[i]), -b.bills[i].amount)
      && (b.bills[i].paid <==> IsBooked(b.entries, PaymentKey(i), b.bills[i].amount))
  }

  /** The document of some bill, received or paid. */
  ghost predicate IsOfSomeBill(entry: Entry, bills: seq<Bill>) {
    exists i: nat :: i < |bills| && (KeyOf(entry) == BillKey(bills[i]) || KeyOf(entry) == PaymentKey(i))
  }

  lemma EntryOf(b: Books, key: Key) returns (entry: Entry)
    requires EachMovesItsBill(b) && HasKey(b.entries, key)
    ensures entry in b.entries && KeyOf(entry) == key && MovesItsBill(entry, b.bills)
  {
    var k :| 0 <= k < |b.entries| && KeyOf(b.entries[k]) == key;
    entry := b.entries[k];
  }

  lemma BooksEachBill(b: Books)
    requires EachMovesItsBill(b) && BillsMatch(b)
    ensures EachBillIsBooked(b)
  {
    forall i: nat | i < |b.bills|
      ensures IsBooked(b.entries, BillKey(b.bills[i]), -b.bills[i].amount)
      ensures b.bills[i].paid <==> IsBooked(b.entries, PaymentKey(i), b.bills[i].amount)
    {
      var receipt := EntryOf(b, BillKey(b.bills[i]));
      if b.bills[i].paid {
        var payment := EntryOf(b, PaymentKey(i));
      }
    }
  }

  lemma MovesForABill(b: Books, entry: Entry)
    requires MovesItsBill(entry, b.bills) && BillsMatch(b) && entry in b.entries && PAYABLE(entry) != 0
    ensures IsOfSomeBill(entry, b.bills)
  {
    if entry.source == BillPaymentSource {
      assert KeyOf(entry) == PaymentKey(entry.sourceRef.id);
    } else {
      var i: nat :| i < |b.bills| && BillKey(b.bills[i]) == KeyOf(entry);
    }
  }

  /**
   In every run, each bill was credited to the payable account by exactly its
   amount under its own receipt, is paid if and only if exactly that amount was
   debited under its own payment, and nothing else moves the account.
   */
  lemma EveryBillIsBookedAlone(steps: seq<Step>)
    ensures var b := Run(steps);
            EachBillIsBooked(b) && forall e :: e in b.entries && PAYABLE(e) != 0 ==> IsOfSomeBill(e, b.bills)
  {
    var b := Run(steps);
    var changes := RunIsReplay(steps);
    ReplayKeepsBills(changes);
    RunKeepsInv(steps, (k, at) => true);
    assert EachMovesItsBill(b);
    BooksEachBill(b);
    forall e | e in b.entries && PAYABLE(e) != 0 ensures IsOfSomeBill(e, b.bills) {
      MovesForABill(b, e);
    }
  }

  // ---- Where the amounts come from ----

  /** The bill, paid since or not, is the one this receipt was planned with. */
  ghost predicate IsOfReceipt(bill: Bill, e: E.GoodsReceived, world: World) {
    && GoodsReceivedPlan(e, world).Ok?
    && GoodsReceivedPlan(e, world).value.bill == Some(bill.(paid := false))
  }

  ghost predicate HasReceipt(bill: Bill) {
    exists e: E.GoodsReceived, world: World :: IsOfReceipt(bill, e, world)
  }

  ghost predicate EachHasReceipt(bills: seq<Bill>) {
    forall bill :: bill in bills ==> HasReceipt(bill)
  }

  /** Only a receipt's plan comes with a bill. */
  lemma PlannedBill(event: DomainEvent, facts: seq<SaleFact>, world: World)
    requires PlanFor(event, facts, world).Ok? && PlanFor(event, facts, world).value.bill.Some?
    ensures HasReceipt(PlanFor(event, facts, world).value.bill.value)
  {
    var bill := PlanFor(event, facts, world).value.bill.value;
    assert event.Received?;
    assert bill == bill.(paid := false);
    assert IsOfReceipt(bill, event.receipt, world);
  }

  lemma BookKeepsReceiptsOf(b: Books, p: Plan)
    requires EachHasReceipt(b.bills) && (p.bill.Some? ==> HasReceipt(p.bill.value))
    ensures EachHasReceipt(Book(b, p).bills)
  {
  }

  lemma PayKeepsReceiptsOf(b: Books, id: nat, paidAt: int)
    requires EachHasReceipt(b.bills)
    ensures EachHasReceipt(Pay(b, id, paidAt).bills)
  {
    forall bill | bill in Pay(b, id, paidAt).bills ensures HasReceipt(bill) {
      if bill !in b.bills {
        var was := b.bills[id];
        assert was in b.bills && was.(paid := false) == bill.(paid := false);
        var e: E.GoodsReceived, world: World :| IsOfReceipt(was, e, world);
        assert IsOfReceipt(bill, e, world);
      }
    }
  }

  lemma {:induction false} ReplayKeepsReceiptsOf(changes: seq<Change>)
    ensures EachHasReceipt(MakeAll(EMPTY, changes).bills)
  {
    if changes != [] {
      var b, last := MakeAll(EMPTY, changes[..|changes| - 1]), changes[|changes| - 1];
      ReplayKeepsReceiptsOf(changes[..|changes| - 1]);
      match last
      case Booking(event, world) =>
        var plan := PlanFor(event, b.facts, world);
        if plan.Ok? {
          if plan.value.bill.Some? {
            PlannedBill(event, b.facts, world);
          }
          BookKeepsReceiptsOf(b, plan.value);
        }
      case Payment(billId, paidAt) => PayKeepsReceiptsOf(b, billId, paidAt);
    }
  }

  /**
   In every run, each bill is for some receipt: it owes that order's supplier,
   by the order's terms, what the undamaged goods are worth at the order's costs.
   */
  lemma EveryBillIsForItsGoods(steps: seq<Step>, i: nat) returns (e: E.GoodsReceived, world: World)
    requires i < |Run(steps).bills|
    ensures world.purchaseOrder(e.poNumber).Found?
    ensures forall cost :: CostsOfOrder(world.purchaseOrder(e.poNumber).value.lines, cost) ==>
              BillsWorth(Run(steps).bills[i].(paid := false), e, world.purchaseOrder(e.poNumber).value,
                         SumBy(e.lines, Worth(cost)))
  {
    var changes := RunIsReplay(steps);
    ReplayKeepsReceiptsOf(changes);
    var bill := Run(steps).bills[i];
    assert bill in MakeAll(EMPTY, changes).bills;
    e, world :| IsOfReceipt(bill, e, world);
    forall cost: string -> int | CostsOfOrder(world.purchaseOrder(e.poNumber).value.lines, cost)
      ensures BillsWorth(bill.(paid := false), e, world.purchaseOrder(e.poNumber).value, SumBy(e.lines, Worth(cost)))
    {
      ReceiptIsBookedAtOrderCost(e, world, cost);
    }
  }
}
