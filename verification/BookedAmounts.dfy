/** What the books make of an event, in the event's own figures: which account moves, and by how much. */
module BookedAmounts {
  import opened Wrappers
  import opened Sums
  import opened Money
  import opened Chart
  import opened Journal
  import opened Postings
  import opened PostingProofs
  import opened SalesAccounting
  import E = Events

  /** What an entry moves on an account. */
  function Moved(e: Entry, account: int): int {
    SumBy(e.lines, NetDebit(account))
  }

  // ---- Goods received ----

  /** The cost an order puts on a SKU: that of its first line there, so of every line if SKUs are distinct. */
  ghost predicate CostsOfOrder(lines: seq<PoLine>, cost: string -> int) {
    forall i :: 0 <= i < |lines| && (forall j :: 0 <= j < i ==> lines[j].sku != lines[i].sku) ==>
                  cost(lines[i].sku) == lines[i].unitCost
  }

  lemma DistinctLinesCost(lines: seq<PoLine>, cost: string -> int)
    requires forall i, j :: 0 <= i < j < |lines| ==> lines[i].sku != lines[j].sku
    ensures CostsOfOrder(lines, cost) <==> forall l :: l in lines ==> cost(l.sku) == l.unitCost
  {
    if forall l :: l in lines ==> cost(l.sku) == l.unitCost {
      forall i | 0 <= i < |lines| ensures cost(lines[i].sku) == lines[i].unitCost {
        assert lines[i] in lines;
      }
    }
  }

  /** What a received line is worth; damaged units and empty lines are worth nothing. */
  function Worth(cost: string -> int): E.ReceivedLine -> int {
    (l: E.ReceivedLine) =>
      match l.condition
      case Damaged => 0
      case Good => if l.received > 0 then l.received * cost(l.sku) else 0
  }

  lemma {:induction false} FindsCostOfOrder(lines: seq<PoLine>, cost: string -> int, sku: string)
    requires CostsOfOrder(lines, cost)
    ensures FindUnitCost(lines, sku).Some? ==> FindUnitCost(lines, sku).value == cost(sku)
  {
    FirstLineCosts(lines, cost, sku, 0);
  }

  lemma {:induction false} FirstLineCosts(lines: seq<PoLine>, cost: string -> int, sku: string, i: nat)
    requires CostsOfOrder(lines, cost) && i <= |lines| && forall j :: 0 <= j < i ==> lines[j].sku != sku
    ensures FindUnitCost(lines[i..], sku).Some? ==> FindUnitCost(lines[i..], sku).value == cost(sku)
    decreases |lines| - i
  {
    if i < |lines| {
      assert lines[i..][1..] == lines[i + 1..];
      if lines[i].sku != sku {
        FirstLineCosts(lines, cost, sku, i + 1);
      }
    }
  }

  lemma {:induction false} ValuesAreWorth(lines: seq<E.ReceivedLine>, po: PoRecord, cost: string -> int)
    requires CostsOfOrder(po.lines, cost) && ReceiptValues(lines, po).Ok?
    ensures SumBy(ReceiptValues(lines, po).value, Amount()) == SumBy(lines, Worth(cost))
  {
    if lines != [] {
      var init, last := lines[..|lines| - 1], lines[|lines| - 1];
      ValuesAreWorth(init, po, cost);
      FindsCostOfOrder(po.lines, cost, last.sku);
      var values := ReceiptValues(init, po).value;
      if Booked(last) {
        WorthOfBooked(last, cost);
        SumAppend(values, cost(last.sku) * last.received, Amount());
      }
    }
  }

  lemma WorthOfBooked(l: E.ReceivedLine, cost: string -> int)
    requires Booked(l)
    ensures Worth(cost)(l) == cost(l.sku) * l.received
  {
  }

  /** The bill a receipt leaves: the supplier's, for what the goods are worth, due at the order's terms. */
  predicate BillsWorth(bill: Bill, e: E.GoodsReceived, po: PoRecord, worth: int) {
    && bill.grnNumber == e.grnNumber && bill.supplierId == po.supplierId && bill.amount == worth && !bill.paid
    && bill.dueDate == e.occurredAt + po.paymentTermsDays * 24 * 60 * 60 * 1000
  }

  /**
   A receipt that posts takes into Inventory, and owes the supplier, the sum over
   its undamaged lines of quantity times what the order says a unit costs, and
   books nothing exactly when that is zero.
   */
  lemma ReceiptIsBookedAtOrderCost(e: E.GoodsReceived, world: World, cost: string -> int)
    requires GoodsReceivedPlan(e, world).Ok? && CostsOfOrder(world.purchaseOrder(e.poNumber).value.lines, cost)
    ensures var plan, worth := GoodsReceivedPlan(e, world).value, SumBy(e.lines, Worth(cost));
            && (plan.entry.None? <==> worth == 0) && (plan.bill.None? <==> worth == 0)
            && (plan.entry.Some? ==>
                  && plan.entry.value.occurredAt == e.occurredAt
                  && BillsWorth(plan.bill.value, e, world.purchaseOrder(e.poNumber).value, worth)
                  && forall account :: Moved(plan.entry.value, account) ==
                                       if account == INVENTORY then worth
                                       else if account == ACCOUNTS_PAYABLE then -worth else 0)
  {
    var po := world.purchaseOrder(e.poNumber).value;
    var values := ReceiptValues(e.lines, po).value;
    ValuesAreWorth(e.lines, po, cost);
    var draft := Entry(e.occurredAt, GoodsReceivedSource, Document(e.grnNumber), ReceiptLines(values));
    BalancedDraft(draft);
    forall account {
      ReceiptMovement(values, account);
    }
  }

  /** A line that is to be booked at less than nothing. */
  ghost predicate BelowZero(lines: seq<E.ReceivedLine>, cost: string -> int) {
    exists l :: l in lines && l.condition == E.Good && l.received > 0 && cost(l.sku) < 0
  }

  lemma PositiveProduct(a: int, b: int)
    requires b > 0
    ensures a * b >= 0 <==> a >= 0
  {
  }

  lemma BelowZeroStep(lines: seq<E.ReceivedLine>, last: E.ReceivedLine, cost: string -> int)
    ensures BelowZero(lines + [last], cost) <==>
            BelowZero(lines, cost) || (last.condition == E.Good && last.received > 0 && cost(last.sku) < 0)
  {
    assert forall l :: l in lines + [last] <==> l in lines || l == last;
  }

  ghost predicate HasNegative(values: seq<int>) {
    exists v :: v in values && v < 0
  }

  lemma HasNegativeStep(values: seq<int>, value: int)
    ensures HasNegative(values + [value]) <==> HasNegative(values) || value < 0
  {
    var longer := values + [value];
    assert longer[|values|] == value && value in longer;
    if HasNegative(values) {
      var v :| v in values && v < 0;
      assert v in longer;
    }
  }

  lemma {:induction false} ValuesBelowZero(lines: seq<E.ReceivedLine>, po: PoRecord, cost: string -> int)
    requires CostsOfOrder(po.lines, cost) && ReceiptValues(lines, po).Ok?
    ensures BelowZero(lines, cost) <==> HasNegative(ReceiptValues(lines, po).value)
  {
    if lines != [] {
      var init, last := lines[..|lines| - 1], lines[|lines| - 1];
      assert lines == init + [last];
      ValuesBelowZero(init, po, cost);
      FindsCostOfOrder(po.lines, cost, last.sku);
      BelowZeroStep(init, last, cost);
      if Booked(last) {
        var values, value := ReceiptValues(init, po).value, cost(last.sku) * last.received;
        PositiveProduct(cost(last.sku), last.received);
        HasNegativeStep(values, value);
        assert cost(last.sku) * last.received == value && ReceiptValues(lines, po).value == values + [value];
      }
    }
  }

  /** Once its lines are all priced, a receipt posts exactly when it is worth nothing or no line is worth less. */
  lemma ReceiptPostsExactlyWhen(e: E.GoodsReceived, world: World, cost: string -> int)
    requires world.purchaseOrder(e.poNumber).Found?
    requires var po := world.purchaseOrder(e.poNumber).value;
             po.currency == "KES" && ReceiptValues(e.lines, po).Ok? && CostsOfOrder(po.lines, cost)
    ensures GoodsReceivedPlan(e, world).Ok? <==> SumBy(e.lines, Worth(cost)) == 0 || !BelowZero(e.lines, cost)
  {
    var po := world.purchaseOrder(e.poNumber).value;
    var values := ReceiptValues(e.lines, po).value;
    ValuesAreWorth(e.lines, po, cost);
    ValuesBelowZero(e.lines, po, cost);
    if SumBy(values, Amount()) != 0 {
      ReceiptBalances(Entry(e.occurredAt, GoodsReceivedSource, Document(e.grnNumber), ReceiptLines(values)), values);
    }
  }

  lemma ReceiptBalances(draft: Entry, values: seq<int>)
    requires draft.lines == ReceiptLines(values) && SumBy(values, Amount()) != 0
    ensures Balanced(draft).Ok? <==> !HasNegative(values)
  {
    var debits, payable := InventoryDebits(values), Line(ACCOUNTS_PAYABLE, 0, SumBy(values, Amount()));
    BalancedDraft(draft);
    InventoryDebitsSum(values, Debit(), 1);
    SumAppend(debits, payable, Debit());
    InventoryDebitsSum(values, Credit(), 0);
    SumAppend(debits, payable, Credit());
    assert draft.lines[|values|] == payable;
    if !HasNegative(values) {
      SumNonNegative(values, Amount());
      forall l | l in draft.lines ensures OneSided(l) {
        var i :| 0 <= i < |draft.lines| && draft.lines[i] == l;
        if i < |values| {
          assert l == Line(INVENTORY, values[i], 0) && values[i] in values;
        }
      }
    } else {
      var v :| v in values && v < 0;
      var i :| 0 <= i < |values| && values[i] == v;
      assert draft.lines[i] == Line(INVENTORY, v, 0) && draft.lines[i] in draft.lines;
    }
  }

  // ---- Sales ----

  /** What was paid by one method, each payment rounded to the cent. */
  function PaidBy(via: E.PaymentMethod): E.Payment -> int {
    (p: E.Payment) => if p.via == via then Round(p.amount) else 0
  }

  /** A line's price without VAT. */
  function NetPrice(): E.SoldLine -> int {
    (l: E.SoldLine) => l.total - l.tax
  }

  function VatOf(): E.SoldLine -> int {
    (l: E.SoldLine) => l.tax
  }

  /** What a line's goods cost by Inventory's answer. */
  function CostOf(unitCost: string -> Lookup<int>): E.SoldLine -> int {
    (l: E.SoldLine) => match unitCost(l.sku)
      case Found(cost) => cost * l.quantity
      case _ => 0
  }

  lemma {:induction false} AddToMoves(lines: seq<Line>, account: int, cents: int, on: int)
    ensures SumBy(AddTo(lines, account, cents), NetDebit(on))
         == SumBy(lines, NetDebit(on)) + if account == on then cents else 0
  {
    if lines == [] {
      assert AddTo(lines, account, cents) == [] + [Line(account, cents, 0)];
      SumAppend([], Line(account, cents, 0), NetDebit(on));
    } else {
      var init, last := lines[..|lines| - 1], lines[|lines| - 1];
      if last.account == account {
        SumAppend(init, last.(debit := last.debit + cents), NetDebit(on));
      } else {
        AddToMoves(init, account, cents, on);
        SumAppend(AddTo(init, account, cents), last, NetDebit(on));
      }
    }
  }

  /** What the till's payments leave on an account. */
  function PaidInto(account: int): E.Payment -> int {
    (p: E.Payment) => match p.via
      case CashPayment => if account == CASH then Round(p.amount) else 0
      case CardPayment => if account == CARD_RECEIVABLE then Round(p.amount) else 0
      case GiftCardPayment => if account == GIFT_CARDS then Round(p.amount) else 0
  }

  lemma {:induction false} TakingsByAccount(payments: seq<E.Payment>, account: int)
    ensures SumBy(Takings(payments), NetDebit(account)) == SumBy(payments, PaidInto(account))
  {
    if payments != [] {
      var init, last := payments[..|payments| - 1], payments[|payments| - 1];
      TakingsByAccount(init, account);
      AddToMoves(Takings(init), PaymentAccount(last.via), Round(last.amount), account);
    }
  }

  /** Each method of payment has an account to itself, and no other account takes payments. */
  lemma OneAccountEach(payments: seq<E.Payment>, account: int)
    ensures SumBy(payments, PaidInto(account)) ==
            if account == CASH then SumBy(payments, PaidBy(E.CashPayment))
            else if account == CARD_RECEIVABLE then SumBy(payments, PaidBy(E.CardPayment))
            else if account == GIFT_CARDS then SumBy(payments, PaidBy(E.GiftCardPayment)) else 0
  {
    if account == CASH {
      SumSame(payments, PaidInto(account), PaidBy(E.CashPayment));
    } else if account == CARD_RECEIVABLE {
      SumSame(payments, PaidInto(account), PaidBy(E.CardPayment));
    } else if account == GIFT_CARDS {
      SumSame(payments, PaidInto(account), PaidBy(E.GiftCardPayment));
    } else {
      SumZero(payments, PaidInto(account));
    }
  }

  /** A sale's fact of a line: the line's own goods, price and VAT, and its cost by Inventory's answer. */
  predicate FactOfLine(f: SaleFact, e: E.ItemSold, l: E.SoldLine, unitCost: string -> Lookup<int>) {
    && f.transactionId == e.transactionId && f.returnId == None && f.storeId == e.storeId
    && f.occurredAt == e.occurredAt && f.sku == l.sku && f.quantity == l.quantity
    && f.revenue == NetPrice()(l) && f.tax == VatOf()(l)
    && f.cogs == CostOf(unitCost)(l) && unitCost(l.sku) == Found(f.unitCost)
  }

  ghost predicate FactsOfLines(facts: seq<SaleFact>, e: E.ItemSold, unitCost: string -> Lookup<int>) {
    |facts| == |e.lines| && forall i :: 0 <= i < |facts| ==> FactOfLine(facts[i], e, e.lines[i], unitCost)
  }

  lemma SaleFactsAreItsLines(e: E.ItemSold, world: World)
    requires ItemSoldPlan(e, world).Ok?
    ensures FactsOfLines(ItemSoldPlan(e, world).value.facts, e, world.unitCost)
  {
    LookedUpBySku(e.lines, world.unitCost);
  }

  lemma FactSums(facts: seq<SaleFact>, e: E.ItemSold, unitCost: string -> Lookup<int>)
    requires FactsOfLines(facts, e, unitCost)
    ensures SumBy(facts, FactRevenue()) == SumBy(e.lines, NetPrice())
    ensures SumBy(facts, FactTax()) == SumBy(e.lines, VatOf())
    ensures SumBy(facts, FactCogs()) == SumBy(e.lines, CostOf(unitCost))
  {
    SumPairwise(facts, e.lines, FactRevenue(), NetPrice());
    SumPairwise(facts, e.lines, FactTax(), VatOf());
    SumPairwise(facts, e.lines, FactCogs(), CostOf(unitCost));
  }

  /** What the lines after the takings move. */
  lemma SaleSides(takings: seq<Line>, revenue: int, tax: int, cogs: int, account: int)
    ensures SumBy(takings + [Line(SALES, 0, revenue), Line(VAT_PAYABLE, 0, tax), Line(COGS, cogs, 0),
                             Line(INVENTORY, 0, cogs)], NetDebit(account)) ==
            SumBy(takings, NetDebit(account)) +
            if account == SALES then -revenue else if account == VAT_PAYABLE then -tax
            else if account == COGS then cogs else if account == INVENTORY then -cogs else 0
  {
    var rest := [Line(SALES, 0, revenue), Line(VAT_PAYABLE, 0, tax), Line(COGS, cogs, 0), Line(INVENTORY, 0, cogs)];
    SumConcat(takings, rest, NetDebit(account));
    SumFour(rest[0], rest[1], rest[2], rest[3], NetDebit(account));
  }

  /** What a sale moves on each account of the chart. */
  function SaleMoves(e: E.ItemSold, unitCost: string -> Lookup<int>, account: int): int {
    if account == CASH then SumBy(e.payments, PaidBy(E.CashPayment))
    else if account == CARD_RECEIVABLE then SumBy(e.payments, PaidBy(E.CardPayment))
    else if account == GIFT_CARDS then SumBy(e.payments, PaidBy(E.GiftCardPayment))
    else if account == SALES then -SumBy(e.lines, NetPrice())
    else if account == VAT_PAYABLE then -SumBy(e.lines, VatOf())
    else if account == COGS then SumBy(e.lines, CostOf(unitCost))
    else if account == INVENTORY then -SumBy(e.lines, CostOf(unitCost))
    else 0
  }

  /**
   A sale that posts debits Cash, Card receivable and Gift cards with what was paid
   by exactly that method, credits Sales with its net prices and VAT payable with
   its VAT, and moves its goods from Inventory to cost at the costs Inventory
   answered; no other account moves.
   */
  lemma SaleIsBookedByMethod(e: E.ItemSold, world: World, account: int)
    requires ItemSoldPlan(e, world).Ok?
    ensures var plan := ItemSoldPlan(e, world).value;
            && plan.entry.Some? && plan.entry.value.occurredAt == e.occurredAt
            && Moved(plan.entry.value, account) == SaleMoves(e, world.unitCost, account)
  {
    var facts := ItemSoldPlan(e, world).value.facts;
    SaleFactsAreItsLines(e, world);
    FactSums(facts, e, world.unitCost);
    BalancedDraft(SaleDraft(e, facts));
    SaleSides(Takings(e.payments), SumBy(facts, FactRevenue()), SumBy(facts, FactTax()), SumBy(facts, FactCogs()),
              account);
    TakingsByAccount(e.payments, account);
    OneAccountEach(e.payments, account);
  }

  // ---- Refunds ----


  /**
   A refund's fact of a line: the goods and the money that went back, at the unit cost
   of the sale, or at Inventory's if no fact of the sale has the SKU.
   */
  ghost predicate FactOfRefund(f: SaleFact, e: E.ItemReturned, l: E.ReturnedLine, facts: seq<SaleFact>, world: World) {
    var sold := FindSold(facts, e.originalTransactionId, l.sku);
    && f.transactionId == e.originalTransactionId && f.returnId == Some(e.returnId) && f.storeId == e.storeId
    && f.occurredAt == e.occurredAt && f.sku == l.sku && f.quantity == -l.quantity
    && f.revenue + f.tax == -l.refund && f.cogs == -(f.unitCost * l.quantity)
    && Found(f.unitCost) == (if sold.Some? then Found(sold.value.unitCost) else world.unitCost(l.sku))
  }

  ghost predicate FactsOfRefunds(refunds: seq<SaleFact>, e: E.ItemReturned, lines: seq<E.ReturnedLine>,
                                 facts: seq<SaleFact>, world: World)
  {
    |refunds| == |lines| && forall i :: 0 <= i < |refunds| ==> FactOfRefund(refunds[i], e, lines[i], facts, world)
  }

  lemma {:induction false} RefundFactsAreTheLines(e: E.ItemReturned, lines: seq<E.ReturnedLine>, facts: seq<SaleFact>,
                                                  world: World)
    requires RefundFacts(e, lines, facts, world).Ok?
    ensures FactsOfRefunds(RefundFacts(e, lines, facts, world).value, e, lines, facts, world)
  {
    if lines != [] {
      RefundFactsAreTheLines(e, lines[..|lines| - 1], facts, world);
    }
  }

  lemma RefundSides(e: E.ItemReturned, refunds: seq<SaleFact>, account: int)
    ensures SumBy(RefundDraft(e, refunds).lines, NetDebit(account)) ==
            if account == CASH then -SumBy(e.lines, Refund())
            else if account == SALES_RETURNS then -SumBy(refunds, FactRevenue())
            else if account == VAT_PAYABLE then -SumBy(refunds, FactTax())
            else if account == INVENTORY then -SumBy(refunds, FactCogs())
            else if account == COGS then SumBy(refunds, FactCogs()) else 0
  {
    var lines := RefundDraft(e, refunds).lines;
    SumFive(lines[0], lines[1], lines[2], lines[3], lines[4], NetDebit(account));
  }

  /** What a refund moves on each account of the chart. */
  function RefundMoves(e: E.ItemReturned, refunds: seq<SaleFact>, account: int): int {
    var paid, vat, cost := SumBy(e.lines, Refund()), -SumBy(refunds, FactTax()), -SumBy(refunds, FactCogs());
    if account == CASH then -paid
    else if account == SALES_RETURNS then paid - vat
    else if account == VAT_PAYABLE then vat
    else if account == INVENTORY then cost
    else if account == COGS then -cost
    else 0
  }

  /**
   A refund that posts pays its lines' refunds out of Cash, takes the VAT its facts
   give back from VAT payable and the rest from Sales returns, and puts the cost of
   the goods back into Inventory; no other account moves.
   */
  lemma RefundIsPaidInCash(e: E.ItemReturned, facts: seq<SaleFact>, world: World, account: int)
    requires ItemReturnedPlan(e, facts, world).Ok?
    ensures var plan := ItemReturnedPlan(e, facts, world).value;
            && plan.entry.Some? && plan.entry.value.occurredAt == e.occurredAt
            && FactsOfRefunds(plan.facts, e, e.lines, facts, world)
            && Moved(plan.entry.value, account) == RefundMoves(e, plan.facts, account)
  {
    var refunds := ItemReturnedPlan(e, facts, world).value.facts;
    RefundFactsAreTheLines(e, e.lines, facts, world);
    RefundFactsShape(e, e.lines, facts, world);
    BalancedDraft(RefundDraft(e, refunds));
    RefundSides(e, refunds, account);
  }

  // ---- Documents ----

  /** Every entry is kept under the document that the event names. */
  lemma EntryNamesItsDocument(event: DomainEvent, facts: seq<SaleFact>, world: World)
    requires PlanFor(event, facts, world).Ok? && PlanFor(event, facts, world).value.entry.Some?
    ensures KeyOf(PlanFor(event, facts, world).value.entry.value) ==
            match event
            case Received(e) => Key(GoodsReceivedSource, Document(e.grnNumber))
            case Sold(e) => Key(ItemSoldSource, Document(e.transactionId))
            case Returned(e) => Key(ItemReturnedSource, Document(e.returnId))
            case Closed(e) => Key(DayClosedSource, Document(e.storeId + "/" + e.businessDate))
            case Adjusted(e) =>
              Key(StockAdjustmentSource,
                  Document((if e.kind == E.ManualAdjustment then "MANUAL/" else "STOCK_COUNT/") + e.reference))
            case Unrouted => Key(GoodsReceivedSource, Document(""))
  {
    match event
    case Adjusted(e) =>
      assert "MANUAL/" == "MANUAL" + "/" && "STOCK_COUNT/" == "STOCK_COUNT" + "/";
    case _ =>
  }
}
