/**
 From a domain event to entries, bills and facts. The functions say what the plan
 is; the methods build it in the loops the service runs.
 */
module Postings {
  import opened Wrappers
  import opened Sums
  import opened Money
  import opened Chart
  import opened Journal
  import E = Events

  const DEFAULT_CURRENCY := "KES"
  const DAY_MS := 86400000

  /** What another service answers when asked for a record. */
  datatype Lookup<+T> = Found(value: T) | Missing | Unreachable

  datatype PoLine = PoLine(sku: string, unitCost: int)

  datatype PoRecord = PoRecord(supplierId: string, currency: string, paymentTermsDays: int, lines: seq<PoLine>)

  /** The answers Procurement and Inventory give during one posting attempt. */
  datatype World = World(purchaseOrder: string -> Lookup<PoRecord>, unitCost: string -> Lookup<int>)

  datatype Bill = Bill(grnNumber: string, supplierId: string, amount: int, dueDate: int, paid: bool)

  datatype SaleFact = SaleFact(occurredAt: int, businessDate: int, storeId: string, transactionId: string,
                               returnId: Option<string>, sku: string, quantity: int, revenue: int, tax: int,
                               cogs: int, unitCost: int)

  datatype Plan = Plan(entry: Option<Entry>, bill: Option<Bill>, facts: seq<SaleFact>)

  datatype DomainEvent =
    | Received(receipt: E.GoodsReceived) | Sold(sale: E.ItemSold) | Returned(refund: E.ItemReturned)
    | Closed(day: E.DayClosed) | Adjusted(stock: E.StockAdjusted) | Unrouted

  const NOTHING := Plan(None, None, [])

  function LookupError<T>(l: Lookup<T>): PostingError {
    if l.Missing? then Permanent else Transient
  }

  function Amount(): int -> int {
    (v: int) => v
  }

  function FactRevenue(): SaleFact -> int {
    (f: SaleFact) => f.revenue
  }

  function FactTax(): SaleFact -> int {
    (f: SaleFact) => f.tax
  }

  function FactCogs(): SaleFact -> int {
    (f: SaleFact) => f.cogs
  }

  // ---- Goods received ----

  function FindUnitCost(lines: seq<PoLine>, sku: string): Option<int> {
    if lines == [] then None
    else if lines[0].sku == sku then Some(lines[0].unitCost)
    else FindUnitCost(lines[1..], sku)
  }

  predicate Booked(line: E.ReceivedLine) {
    line.condition != E.Damaged && line.received > 0
  }

  /** The values of the booked lines, or a permanent error if one is not on the order. */
  function ReceiptValues(lines: seq<E.ReceivedLine>, po: PoRecord): Result<seq<int>, PostingError> {
    if lines == [] then Ok([])
    else
      var init, last := ReceiptValues(lines[..|lines| - 1], po), lines[|lines| - 1];
      var cost := FindUnitCost(po.lines, last.sku);
      if init.Err? || !Booked(last) then init
      else if cost.None? then Err(Permanent)
      else Ok(init.value + [cost.value * last.received])
  }

  function InventoryDebits(values: seq<int>): seq<Line> {
    seq(|values|, i requires 0 <= i < |values| => Line(INVENTORY, values[i], 0))
  }

  ghost function GoodsReceivedPlan(e: E.GoodsReceived, world: World): Result<Plan, PostingError> {
    var po := world.purchaseOrder(e.poNumber);
    if !po.Found? then Err(LookupError(po))
    else if po.value.currency != DEFAULT_CURRENCY then Err(Permanent)
    else
      var values := ReceiptValues(e.lines, po.value);
      if values.Err? then Err(values.error)
      else
        var total := SumBy(values.value, Amount());
        var lines := InventoryDebits(values.value) + [Line(ACCOUNTS_PAYABLE, 0, total)];
        var entry := Balanced(Entry(e.occurredAt, GoodsReceivedSource, Document(e.grnNumber), lines));
        var bill := Bill(e.grnNumber, po.value.supplierId, total,
                         e.occurredAt + po.value.paymentTermsDays * DAY_MS, false);
        if total == 0 then Ok(NOTHING)
        else if entry.Err? then Err(entry.error)
        else Ok(Plan(Some(entry.value), Some(bill), []))
  }

  lemma ReceiptStep(lines: seq<E.ReceivedLine>, po: PoRecord, i: nat)
    requires i < |lines| && ReceiptValues(lines[..i], po).Ok?
    ensures var values, cost := ReceiptValues(lines[..i], po), FindUnitCost(po.lines, lines[i].sku);
            ReceiptValues(lines[..i + 1], po) ==
            if !Booked(lines[i]) then values
            else if cost.None? then Err(Permanent)
            else Ok(values.value + [cost.value * lines[i].received])
  {
    assert lines[..i + 1] == lines[..i] + [lines[i]];
  }

  /** The loop over the received lines: the value and the journal line of each one booked. */
  method ValueLines(received: seq<E.ReceivedLine>, po: PoRecord)
    returns (r: Result<(seq<int>, seq<Line>), PostingError>)
    ensures r.Ok? ==> ReceiptValues(received, po) == Ok(r.value.0) && r.value.1 == InventoryDebits(r.value.0)
    ensures r.Err? ==> ReceiptValues(received, po) == Err(r.error)
  {
    var values: seq<int>, lines: seq<Line> := [], [];
    for i := 0 to |received|
      invariant ReceiptValues(received[..i], po) == Ok(values)
      invariant lines == InventoryDebits(values)
    {
      var line := received[i];
      ReceiptStep(received, po, i);
      if line.condition == E.Damaged || line.received <= 0 {
        continue;
      }
      var cost := FindUnitCost(po.lines, line.sku);
      if cost.None? {
        ReceiptError(received, po, i + 1);
        return Err(Permanent);
      }
      var value := cost.value * line.received;
      values := values + [value];
      lines := lines + [Line(INVENTORY, value, 0)];
    }
    assert received[..|received|] == received;
    return Ok((values, lines));
  }

  method SumMoney(values: seq<int>) returns (total: int)
    ensures total == SumBy(values, Amount())
  {
    total := 0;
    for i := 0 to |values|
      invariant total == SumBy(values[..i], Amount())
    {
      SumStep(values, i, Amount());
      total := total + values[i];
    }
    assert values[..|values|] == values;
  }

  method PlanGoodsReceived(e: E.GoodsReceived, world: World) returns (r: Result<Plan, PostingError>)
    ensures r == GoodsReceivedPlan(e, world)
  {
    var po := world.purchaseOrder(e.poNumber);
    if !po.Found? {
      return Err(LookupError(po));
    }
    if po.value.currency != DEFAULT_CURRENCY {
      return Err(Permanent);
    }
    var booked := ValueLines(e.lines, po.value);
    if booked.Err? {
      return Err(booked.error);
    }
    var total := SumMoney(booked.value.0);
    if total == 0 {
      return Ok(NOTHING);
    }
    var entry := CheckBalanced(Entry(e.occurredAt, GoodsReceivedSource, Document(e.grnNumber),
                                     booked.value.1 + [Line(ACCOUNTS_PAYABLE, 0, total)]));
    if entry.Err? {
      return Err(entry.error);
    }
    return Ok(Plan(Some(entry.value),
                   Some(Bill(e.grnNumber, po.value.supplierId, total,
                             e.occurredAt + po.value.paymentTermsDays * DAY_MS, false)), []));
  }

  lemma {:induction false} ReceiptError(lines: seq<E.ReceivedLine>, po: PoRecord, i: nat)
    requires i <= |lines| && ReceiptValues(lines[..i], po).Err?
    ensures ReceiptValues(lines, po) == Err(Permanent)
  {
    if |lines| == i {
      assert lines[..i] == lines;
      ReceiptErrorIsPermanent(lines, po);
    } else {
      var init := lines[..|lines| - 1];
      assert init[..i] == lines[..i];
      ReceiptError(init, po, i);
    }
  }

  lemma {:induction false} ReceiptErrorIsPermanent(lines: seq<E.ReceivedLine>, po: PoRecord)
    ensures ReceiptValues(lines, po).Err? ==> ReceiptValues(lines, po) == Err(Permanent)
  {
    if lines != [] {
      ReceiptErrorIsPermanent(lines[..|lines| - 1], po);
    }
  }

  // ---- Sales ----

  function PaymentAccount(via: E.PaymentMethod): int {
    match via
    case CashPayment => CASH
    case CardPayment => CARD_RECEIVABLE
    case GiftCardPayment => GIFT_CARDS
  }

  /** Adds an amount to the account's line, opening one if the account has none yet. */
  function AddTo(lines: seq<Line>, account: int, cents: int): seq<Line> {
    if lines == [] then [Line(account, cents, 0)]
    else
      var init, last := lines[..|lines| - 1], lines[|lines| - 1];
      if last.account == account then init + [last.(debit := last.debit + cents)]
      else AddTo(init, account, cents) + [last]
  }

  /** Takings by account. */
  function Takings(payments: seq<E.Payment>): seq<Line> {
    if payments == [] then []
    else
      var last := payments[|payments| - 1];
      AddTo(Takings(payments[..|payments| - 1]), PaymentAccount(last.via), Round(last.amount))
  }

  /** Inventory's unit cost of every line, or the first lookup that fails. */
  function UnitCosts(lines: seq<E.SoldLine>, unitCost: string -> Lookup<int>): Result<seq<int>, PostingError> {
    if lines == [] then Ok([])
    else
      var init, last := UnitCosts(lines[..|lines| - 1], unitCost), unitCost(lines[|lines| - 1].sku);
      if init.Err? then init
      else if !last.Found? then Err(LookupError(last))
      else Ok(init.value + [last.value])
  }

  lemma {:induction false} UnitCostsLength(lines: seq<E.SoldLine>, unitCost: string -> Lookup<int>)
    ensures UnitCosts(lines, unitCost).Ok? ==> |UnitCosts(lines, unitCost).value| == |lines|
  {
    if lines != [] {
      UnitCostsLength(lines[..|lines| - 1], unitCost);
    }
  }

  function SoldFact(e: E.ItemSold, line: E.SoldLine, cost: int): SaleFact {
    SaleFact(e.occurredAt, e.occurredAt / DAY_MS, e.storeId, e.transactionId, None, line.sku, line.quantity,
             line.total - line.tax, line.tax, cost * line.quantity, cost)
  }

  function SoldFacts(e: E.ItemSold, costs: seq<int>): seq<SaleFact>
    requires |costs| == |e.lines|
  {
    seq(|e.lines|, i requires 0 <= i < |e.lines| => SoldFact(e, e.lines[i], costs[i]))
  }

  function SaleDraft(e: E.ItemSold, facts: seq<SaleFact>): Entry {
    Entry(e.occurredAt, ItemSoldSource, Document(e.transactionId),
          Takings(e.payments) +
          [Line(SALES, 0, SumBy(facts, FactRevenue())), Line(VAT_PAYABLE, 0, SumBy(facts, FactTax())),
           Line(COGS, SumBy(facts, FactCogs()), 0), Line(INVENTORY, 0, SumBy(facts, FactCogs()))])
  }

  ghost function ItemSoldPlan(e: E.ItemSold, world: World): Result<Plan, PostingError> {
    var costs := UnitCosts(e.lines, world.unitCost);
    UnitCostsLength(e.lines, world.unitCost);
    if costs.Err? then Err(costs.error)
    else
      var facts := SoldFacts(e, costs.value);
      var entry := Balanced(SaleDraft(e, facts));
      if entry.Err? then Err(entry.error) else Ok(Plan(Some(entry.value), None, facts))
  }

  method PlanItemSold(e: E.ItemSold, world: World) returns (r: Result<Plan, PostingError>)
    ensures r == ItemSoldPlan(e, world)
  {
    var costs := UnitCosts(e.lines, world.unitCost);
    if costs.Err? {
      return Err(costs.error);
    }
    UnitCostsLength(e.lines, world.unitCost);
    var facts := SoldFacts(e, costs.value);
    var takings: seq<Line> := [];
    for i := 0 to |e.payments|
      invariant takings == Takings(e.payments[..i])
    {
      assert e.payments[..i + 1] == e.payments[..i] + [e.payments[i]];
      takings := AddTo(takings, PaymentAccount(e.payments[i].via), Round(e.payments[i].amount));
    }
    assert e.payments[..|e.payments|] == e.payments;
    var revenue, tax, cogs := SumFacts(facts);
    var entry := CheckBalanced(Entry(e.occurredAt, ItemSoldSource, Document(e.transactionId), takings +
                                     [Line(SALES, 0, revenue), Line(VAT_PAYABLE, 0, tax),
                                      Line(COGS, cogs, 0), Line(INVENTORY, 0, cogs)]));
    if entry.Err? {
      return Err(entry.error);
    }
    return Ok(Plan(Some(entry.value), None, facts));
  }

  method SumFacts(facts: seq<SaleFact>) returns (revenue: int, tax: int, cogs: int)
    ensures revenue == SumBy(facts, FactRevenue()) && tax == SumBy(facts, FactTax()) && cogs == SumBy(facts, FactCogs())
  {
    revenue, tax, cogs := 0, 0, 0;
    for i := 0 to |facts|
      invariant revenue == SumBy(facts[..i], FactRevenue())
      invariant tax == SumBy(facts[..i], FactTax())
      invariant cogs == SumBy(facts[..i], FactCogs())
    {
      SumStep(facts, i, FactRevenue());
      SumStep(facts, i, FactTax());
      SumStep(facts, i, FactCogs());
      revenue, tax, cogs := revenue + facts[i].revenue, tax + facts[i].tax, cogs + facts[i].cogs;
    }
    assert facts[..|facts|] == facts;
  }

  // ---- Refunds ----

  /** The first sale fact of the transaction for the SKU; refunds are not sales. */
  function FindSold(facts: seq<SaleFact>, transactionId: string, sku: string): Option<SaleFact> {
    if facts == [] then None
    else
      var init, last := FindSold(facts[..|facts| - 1], transactionId, sku), facts[|facts| - 1];
      if init.Some? then init
      else if last.transactionId == transactionId && last.returnId == None && last.sku == sku then Some(last)
      else None
  }

  /** The part of a refund that reverses VAT: the original line's share of it. */
  function RefundedTax(sold: Option<SaleFact>, refund: int): int {
    if sold.Some? && sold.value.revenue + sold.value.tax > 0
    then RoundDiv(refund * sold.value.tax, sold.value.revenue + sold.value.tax)
    else 0
  }

  function RefundFact(e: E.ItemReturned, line: E.ReturnedLine, sold: Option<SaleFact>, cost: int): SaleFact {
    var tax := RefundedTax(sold, line.refund);
    SaleFact(e.occurredAt, e.occurredAt / DAY_MS, e.storeId, e.originalTransactionId, Some(e.returnId), line.sku,
             -line.quantity, -(line.refund - tax), -tax, -(cost * line.quantity), cost)
  }

  function RefundFacts(e: E.ItemReturned, lines: seq<E.ReturnedLine>, facts: seq<SaleFact>, world: World)
    : Result<seq<SaleFact>, PostingError>
  {
    if lines == [] then Ok([])
    else
      var init, last := RefundFacts(e, lines[..|lines| - 1], facts, world), lines[|lines| - 1];
      var sold := FindSold(facts, e.originalTransactionId, last.sku);
      var cost := if sold.Some? then Found(sold.value.unitCost) else world.unitCost(last.sku);
      if init.Err? then init
      else if !cost.Found? then Err(LookupError(cost))
      else Ok(init.value + [RefundFact(e, last, sold, cost.value)])
  }

  function Refund(): E.ReturnedLine -> int {
    (l: E.ReturnedLine) => l.refund
  }

  function RefundDraft(e: E.ItemReturned, refunds: seq<SaleFact>): Entry {
    Entry(e.occurredAt, ItemReturnedSource, Document(e.returnId),
          [Line(SALES_RETURNS, -SumBy(refunds, FactRevenue()), 0), Line(VAT_PAYABLE, -SumBy(refunds, FactTax()), 0),
           Line(CASH, 0, SumBy(e.lines, Refund())),
           Line(INVENTORY, -SumBy(refunds, FactCogs()), 0), Line(COGS, 0, -SumBy(refunds, FactCogs()))])
  }

  /** One more line: its fact joins the others unless a lookup failed before or fails now. */
  lemma RefundStep(e: E.ItemReturned, facts: seq<SaleFact>, world: World, i: nat)
    requires i < |e.lines| && RefundFacts(e, e.lines[..i], facts, world).Ok?
    ensures var line := e.lines[i];
            var sold := FindSold(facts, e.originalTransactionId, line.sku);
            var cost := if sold.Some? then Found(sold.value.unitCost) else world.unitCost(line.sku);
            RefundFacts(e, e.lines[..i + 1], facts, world) ==
            if !cost.Found? then Err(LookupError(cost))
            else Ok(RefundFacts(e, e.lines[..i], facts, world).value + [RefundFact(e, line, sold, cost.value)])
  {
    assert e.lines[..i + 1] == e.lines[..i] + [e.lines[i]];
  }

  ghost function ItemReturnedPlan(e: E.ItemReturned, facts: seq<SaleFact>, world: World): Result<Plan, PostingError> {
    var refunds := RefundFacts(e, e.lines, facts, world);
    if refunds.Err? then Err(refunds.error)
    else
      var entry := Balanced(RefundDraft(e, refunds.value));
      if entry.Err? then Err(entry.error) else Ok(Plan(Some(entry.value), None, refunds.value))
  }

  /** The loop over the returned lines: a fact for each, or the first lookup that fails. */
  method ReverseLines(e: E.ItemReturned, facts: seq<SaleFact>, world: World)
    returns (r: Result<seq<SaleFact>, PostingError>)
    ensures r == RefundFacts(e, e.lines, facts, world)
  {
    var refunds: seq<SaleFact> := [];
    for i := 0 to |e.lines|
      invariant RefundFacts(e, e.lines[..i], facts, world) == Ok(refunds)
    {
      var line := e.lines[i];
      RefundStep(e, facts, world, i);
      var sold := FindSold(facts, e.originalTransactionId, line.sku);
      var cost := if sold.Some? then Found(sold.value.unitCost) else world.unitCost(line.sku);
      if !cost.Found? {
        RefundError(e, facts, world, i + 1);
        return Err(LookupError(cost));
      }
      refunds := refunds + [RefundFact(e, line, sold, cost.value)];
    }
    assert e.lines[..|e.lines|] == e.lines;
    return Ok(refunds);
  }

  method SumRefunds(lines: seq<E.ReturnedLine>) returns (refund: int)
    ensures refund == SumBy(lines, Refund())
  {
    refund := 0;
    for i := 0 to |lines|
      invariant refund == SumBy(lines[..i], Refund())
    {
      SumStep(lines, i, Refund());
      refund := refund + lines[i].refund;
    }
    assert lines[..|lines|] == lines;
  }

  method PlanItemReturned(e: E.ItemReturned, facts: seq<SaleFact>, world: World)
    returns (r: Result<Plan, PostingError>)
    ensures r == ItemReturnedPlan(e, facts, world)
  {
    var refunds := ReverseLines(e, facts, world);
    if refunds.Err? {
      return Err(refunds.error);
    }
    var refund := SumRefunds(e.lines);
    var revenue, tax, cogs := SumFacts(refunds.value);
    var entry := CheckBalanced(Entry(e.occurredAt, ItemReturnedSource, Document(e.returnId),
                                     [Line(SALES_RETURNS, -revenue, 0), Line(VAT_PAYABLE, -tax, 0),
                                      Line(CASH, 0, refund),
                                      Line(INVENTORY, -cogs, 0), Line(COGS, 0, -cogs)]));
    if entry.Err? {
      return Err(entry.error);
    }
    return Ok(Plan(Some(entry.value), None, refunds.value));
  }

  /** A failed lookup ends the loop: later lines cannot change the error. */
  lemma {:induction false} RefundError(e: E.ItemReturned, facts: seq<SaleFact>, world: World, i: nat)
    requires i <= |e.lines| && RefundFacts(e, e.lines[..i], facts, world).Err?
    ensures RefundFacts(e, e.lines, facts, world) == RefundFacts(e, e.lines[..i], facts, world)
    decreases |e.lines| - i
  {
    if i == |e.lines| {
      assert e.lines[..i] == e.lines;
    } else {
      assert e.lines[..i + 1][..i] == e.lines[..i];
      RefundError(e, facts, world, i + 1);
    }
  }

  // ---- Day closes and stock adjustments ----

  function TwoLines(occurredAt: int, source: EntrySource, ref: string, debit: int, credit: int, amount: int): Entry {
    Entry(occurredAt, source, Document(ref), [Line(debit, amount, 0), Line(credit, 0, amount)])
  }

  /** The till's discrepancy between Cash and Cash over and short; none, no entry. */
  ghost function DayClosedPlan(e: E.DayClosed): Result<Plan, PostingError> {
    var ref := e.storeId + "/" + e.businessDate;
    var entry :=
      if e.discrepancy < 0
      then Balanced(TwoLines(e.occurredAt, DayClosedSource, ref, CASH_OVER_SHORT, CASH, -e.discrepancy))
      else Balanced(TwoLines(e.occurredAt, DayClosedSource, ref, CASH, CASH_OVER_SHORT, e.discrepancy));
    if e.discrepancy == 0 then Ok(NOTHING)
    else if entry.Err? then Err(entry.error)
    else Ok(Plan(Some(entry.value), None, []))
  }

  function AdjustedValue(): E.AdjustedLine -> int {
    (l: E.AdjustedLine) => l.delta * l.unitCost
  }

  function KindName(kind: E.AdjustmentKind): string {
    if kind == E.CountAdjustment then "STOCK_COUNT" else "MANUAL"
  }

  /** A net loss is shrinkage out of inventory, a net gain the reverse. */
  ghost function StockAdjustedPlan(e: E.StockAdjusted): Result<Plan, PostingError> {
    var net := SumBy(e.lines, AdjustedValue());
    var ref := KindName(e.kind) + "/" + e.reference;
    var entry :=
      if net < 0
      then Balanced(TwoLines(e.occurredAt, StockAdjustmentSource, ref, INVENTORY_SHRINKAGE, INVENTORY, -net))
      else Balanced(TwoLines(e.occurredAt, StockAdjustmentSource, ref, INVENTORY, INVENTORY_SHRINKAGE, net));
    if net == 0 then Ok(NOTHING)
    else if entry.Err? then Err(entry.error)
    else Ok(Plan(Some(entry.value), None, []))
  }

  method PlanDayClosed(e: E.DayClosed) returns (r: Result<Plan, PostingError>)
    ensures r == DayClosedPlan(e)
  {
    if e.discrepancy == 0 {
      return Ok(NOTHING);
    }
    var shortage := e.discrepancy < 0;
    var abs := if shortage then -e.discrepancy else e.discrepancy;
    var entry := CheckBalanced(Entry(e.occurredAt, DayClosedSource, Document(e.storeId + "/" + e.businessDate),
                                     if shortage
                                     then [Line(CASH_OVER_SHORT, abs, 0), Line(CASH, 0, abs)]
                                     else [Line(CASH, abs, 0), Line(CASH_OVER_SHORT, 0, abs)]));
    r := if entry.Err? then Err(entry.error) else Ok(Plan(Some(entry.value), None, []));
  }

  method PlanStockAdjusted(e: E.StockAdjusted) returns (r: Result<Plan, PostingError>)
    ensures r == StockAdjustedPlan(e)
  {
    var net := 0;
    for i := 0 to |e.lines|
      invariant net == SumBy(e.lines[..i], AdjustedValue())
    {
      SumStep(e.lines, i, AdjustedValue());
      net := net + e.lines[i].delta * e.lines[i].unitCost;
    }
    assert e.lines[..|e.lines|] == e.lines;
    if net == 0 {
      return Ok(NOTHING);
    }
    var loss := net < 0;
    var amount := if loss then -net else net;
    var entry := CheckBalanced(Entry(e.occurredAt, StockAdjustmentSource,
                                     Document(KindName(e.kind) + "/" + e.reference),
                                     if loss
                                     then [Line(INVENTORY_SHRINKAGE, amount, 0), Line(INVENTORY, 0, amount)]
                                     else [Line(INVENTORY, amount, 0), Line(INVENTORY_SHRINKAGE, 0, amount)]));
    r := if entry.Err? then Err(entry.error) else Ok(Plan(Some(entry.value), None, []));
  }

  // ---- Dispatch ----

  /** The plan of any stored event; an event without a posting rule needs a person. */
  ghost function PlanFor(event: DomainEvent, facts: seq<SaleFact>, world: World): Result<Plan, PostingError> {
    match event
    case Received(receipt) => GoodsReceivedPlan(receipt, world)
    case Sold(sale) => ItemSoldPlan(sale, world)
    case Returned(refund) => ItemReturnedPlan(refund, facts, world)
    case Closed(day) => DayClosedPlan(day)
    case Adjusted(stock) => StockAdjustedPlan(stock)
    case Unrouted => Err(Permanent)
  }

  method MakePlan(event: DomainEvent, facts: seq<SaleFact>, world: World) returns (r: Result<Plan, PostingError>)
    ensures r == PlanFor(event, facts, world)
  {
    match event
    case Received(receipt) => r := PlanGoodsReceived(receipt, world);
    case Sold(sale) => r := PlanItemSold(sale, world);
    case Returned(refund) => r := PlanItemReturned(refund, facts, world);
    case Closed(day) => r := PlanDayClosed(day);
    case Adjusted(stock) => r := PlanStockAdjusted(stock);
    case Unrouted => r := Err(Permanent);
  }
}
