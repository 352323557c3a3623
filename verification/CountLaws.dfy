/** What posting a stock count does to stock that kept moving, and what the books make of it. */
module CountLaws {
  import opened Sums
  import opened Stock
  import opened InventoryRuns
  import opened StockBounds
  import opened StockCounts
  import E = Events
  import J = Journal
  import P = Postings
  import PP = PostingProofs
  import SL = StockLaws
  import Chart

  // ---- One active count per location, one line per product ----

  ghost predicate OneActive(counts: seq<Count>) {
    forall i, j :: 0 <= i < j < |counts| && counts[i].location == counts[j].location ==>
                     !(counts[i].status in {Open, Submitted} && counts[j].status in {Open, Submitted})
  }

  ghost predicate OneLineEach(lines: seq<CountLine>) {
    forall i, j :: 0 <= i < j < |lines| ==> lines[i].sku != lines[j].sku
  }

  ghost predicate CountsInv(counts: seq<Count>) {
    OneActive(counts) && forall i :: 0 <= i < |counts| ==> OneLineEach(counts[i].lines)
  }

  lemma CreateKeepsCounts(inv: Inventory, r: Request, rows: seq<string>)
    requires CountsInv(inv.counts)
    ensures CountsInv(Create(inv, r, rows).counts)
  {
    if CreateOutcome(inv, r) == Done && Lists(rows, StockCounts.Covered(inv.stock, r)) {
      assert OneLineEach(ExpectedLines(inv.stock, r.location, rows));
    }
  }

  /** A count that stays where it is and does not become active again disturbs no other. */
  lemma SetCount(counts: seq<Count>, id: nat, c: Count)
    requires CountsInv(counts) && id < |counts| && c.location == counts[id].location && OneLineEach(c.lines)
    requires HoldsLocation(c) ==> HoldsLocation(counts[id])
    ensures CountsInv(counts[id := c])
  {
  }

  lemma RecordKeepsLines(inv: Inventory, id: nat, sku: string, counted: int)
    requires CountsInv(inv.counts) && RecordOutcome(inv, id, sku) == Done
    ensures OneLineEach(RecordCount(inv, id, sku, counted).counts[id].lines)
  {
  }

  lemma StepKeepsCounts(inv: Inventory, step: Step)
    requires CountsInv(inv.counts)
    ensures CountsInv(Apply(inv, step).counts)
  {
    var after := Apply(inv, step).counts;
    match step
    case CreateStep(r, rows) => CreateKeepsCounts(inv, r, rows);
    case RecordStep(id, sku, counted) =>
      if RecordOutcome(inv, id, sku) == Done {
        RecordKeepsLines(inv, id, sku, counted);
        SetCount(inv.counts, id, after[id]);
      }
    case SubmitStep(id, uncounted) =>
      if SubmitOutcome(inv, id, uncounted) == Done {
        SetCount(inv.counts, id, after[id]);
      }
    case PostStep(id) =>
      if PostOutcome(inv, id) == Done {
        SetCount(inv.counts, id, after[id]);
      }
    case CancelStep(id) =>
      if CancelOutcome(inv, id) == Done {
        SetCount(inv.counts, id, after[id]);
      }
    case _ =>
  }

  /** In every run at most one open or submitted count exists per location. */
  lemma {:induction false} OneActivePerLocation(steps: seq<Step>)
    ensures CountsInv(Run(steps).counts)
  {
    if steps != [] {
      var init := steps[..|steps| - 1];
      OneActivePerLocation(init);
      StepKeepsCounts(Run(init), steps[|steps| - 1]);
    }
  }

  // ---- Steps only extend the log and the counts ----

  /** The log grows; counts keep their location and their lines keep SKU, expected quantity and cost. */
  ghost predicate Later(inv: Inventory, inv': Inventory) {
    && inv.stock.log <= inv'.stock.log
    && |inv.counts| <= |inv'.counts|
    && forall i :: 0 <= i < |inv.counts| ==>
                     && inv'.counts[i].location == inv.counts[i].location
                     && |inv.counts[i].lines| <= |inv'.counts[i].lines|
                     && forall j :: 0 <= j < |inv.counts[i].lines| ==>
                                      SameLine(inv.counts[i].lines[j], inv'.counts[i].lines[j])
  }

  predicate SameLine(a: CountLine, b: CountLine) {
    a.sku == b.sku && a.expected == b.expected && a.unitCost == b.unitCost
  }

  lemma {:induction false} ReceiveGrows(s: Stock, e: E.GoodsReceived, lines: seq<E.ReceivedLine>)
    ensures s.log <= ReceiveLines(s, e, lines).log
  {
    if lines != [] {
      ReceiveGrows(s, e, lines[..|lines| - 1]);
    }
  }

  lemma {:induction false} ReturnGrows(s: Stock, lines: seq<E.ReturnedLine>, returnId: string)
    ensures s.log <= ReturnLines(s, lines, returnId).log
  {
    if lines != [] {
      ReturnGrows(s, lines[..|lines| - 1], returnId);
    }
  }

  lemma {:induction false} ConsumeGrows(s: Stock, lines: seq<E.SoldLine>, txn: string)
    ensures s.log <= ConsumeLines(s, lines, txn).log
  {
    if lines != [] {
      ConsumeGrows(s, lines[..|lines| - 1], txn);
    }
  }

  lemma {:induction false} PostGrows(s: Stock, location: string, lines: seq<CountLine>, id: nat)
    ensures PostLines(s, location, lines, id).Some? ==> s.log <= PostLines(s, location, lines, id).value.log
  {
    if lines != [] {
      PostGrows(s, location, lines[..|lines| - 1], id);
    }
  }

  lemma PostIsLater(inv: Inventory, id: nat)
    ensures Later(inv, Post(inv, id))
  {
    if PostOutcome(inv, id) == Done {
      PostGrows(inv.stock, inv.counts[id].location, inv.counts[id].lines, id);
    }
  }

  lemma StockIsLater(inv: Inventory, s: Stock)
    requires inv.stock.log <= s.log
    ensures Later(inv, inv.(stock := s))
  {
  }

  lemma StockLogGrows(inv: Inventory, step: Step)
    requires !step.PostStep?
    ensures inv.stock.log <= StockAfter(inv, step).log
  {
    match step
    case ReceiptStep(e) => ReceiveGrows(inv.stock, e, e.lines);
    case ReturnStep(e) => ReturnGrows(inv.stock, e.lines, e.returnId);
    case SoldStep(e) => ConsumeGrows(inv.stock, e.lines, e.transactionId);
    case _ =>
  }

  lemma RecordIsLater(inv: Inventory, id: nat, sku: string, counted: int)
    ensures Later(inv, RecordCount(inv, id, sku, counted))
  {
  }

  lemma StepIsLater(inv: Inventory, step: Step)
    ensures Later(inv, Apply(inv, step))
  {
    match step
    case CreateStep(_, _) =>
    case RecordStep(id, sku, counted) => RecordIsLater(inv, id, sku, counted);
    case SubmitStep(_, _) =>
    case PostStep(id) => PostIsLater(inv, id);
    case CancelStep(_) =>
    case _ =>
      StockLogGrows(inv, step);
      StockIsLater(inv, StockAfter(inv, step));
  }

  lemma LaterTransitive(a: Inventory, b: Inventory, c: Inventory)
    requires Later(a, b) && Later(b, c)
    ensures Later(a, c)
  {
  }

  lemma {:induction false} RunIsLater(inv: Inventory, steps: seq<Step>)
    ensures Later(inv, RunFrom(inv, steps))
  {
    if steps != [] {
      var init := steps[..|steps| - 1];
      RunIsLater(inv, init);
      StepIsLater(RunFrom(inv, init), steps[|steps| - 1]);
      LaterTransitive(inv, RunFrom(inv, init), RunFrom(inv, steps));
    }
  }

  lemma {:induction false} RunFromKeepsLevels(inv: Inventory, steps: seq<Step>)
    requires LevelsMatch(inv.stock)
    ensures LevelsMatch(RunFrom(inv, steps).stock)
  {
    if steps != [] {
      var init := steps[..|steps| - 1];
      RunFromKeepsLevels(inv, init);
      StepKeepsLevels(RunFrom(inv, init), steps[|steps| - 1]);
    }
  }

  lemma {:induction false} RunFromKeepsCounts(inv: Inventory, steps: seq<Step>)
    requires CountsInv(inv.counts)
    ensures CountsInv(RunFrom(inv, steps).counts)
  {
    if steps != [] {
      var init := steps[..|steps| - 1];
      RunFromKeepsCounts(inv, init);
      StepKeepsCounts(RunFrom(inv, init), steps[|steps| - 1]);
    }
  }

  // ---- Posting ----

  lemma {:induction false} OneLineDelta(lines: seq<CountLine>, j: nat)
    requires OneLineEach(lines) && j < |lines|
    ensures SumBy(lines, DeltaAt(lines[j].sku)) == Delta(lines[j])
  {
    var n := |lines| - 1;
    var init := lines[..n];
    if j == n {
      SumZero(init, DeltaAt(lines[j].sku));
    } else {
      assert init[j] == lines[j];
      OneLineDelta(init, j);
    }
  }

  /** Posting is refused, and changes nothing, exactly when a changed line would leave its slot below zero. */
  lemma {:induction false} PostLinesExactlyWhen(s: Stock, location: string, lines: seq<CountLine>, id: nat)
    requires OneLineEach(lines)
    ensures PostLines(s, location, lines, id).Some? <==>
            forall j :: 0 <= j < |lines| && Changed(lines[j]) ==>
                          OnHand(s, Slot(lines[j].sku, location)) + Delta(lines[j]) >= 0
  {
    if lines != [] {
      var n := |lines| - 1;
      var init, last := lines[..n], lines[n];
      PostLinesExactlyWhen(s, location, init, id);
      assert forall j :: 0 <= j < n ==> init[j] == lines[j];
      var posted := PostLines(s, location, init, id);
      if posted.Some? {
        PostEffect(s, location, init, id, Slot(last.sku, location));
        SumZero(init, DeltaAt(last.sku));
      }
    }
  }

  lemma PostSucceedsExactlyWhen(steps: seq<Step>, id: nat)
    requires id < |Run(steps).counts| && Run(steps).counts[id].status == Submitted
    ensures var inv := Run(steps);
            var c := inv.counts[id];
            && (PostOutcome(inv, id) == Done <==>
                forall j :: 0 <= j < |c.lines| && Changed(c.lines[j]) ==>
                              OnHand(inv.stock, Slot(c.lines[j].sku, c.location)) + Delta(c.lines[j]) >= 0)
            && (PostOutcome(inv, id) != Done ==> Post(inv, id) == inv)
  {
    OneActivePerLocation(steps);
    var inv := Run(steps);
    PostLinesExactlyWhen(inv.stock, inv.counts[id].location, inv.counts[id].lines, id);
  }

  /** The freezing step: it gave the count this line, which it did not have before. */
  ghost predicate Freezes(before: Inventory, after: Inventory, id: nat, j: nat) {
    && id < |after.counts| && j < |after.counts[id].lines|
    && (id >= |before.counts| || j >= |before.counts[id].lines|)
  }

  /** A line is frozen at its slot's stock on hand, and freezing moves no stock. */
  lemma FrozenAtOnHand(inv: Inventory, step: Step, id: nat, j: nat)
    requires Freezes(inv, Apply(inv, step), id, j)
    ensures var c := Apply(inv, step).counts[id];
            c.lines[j].expected == OnHand(inv.stock, Slot(c.lines[j].sku, c.location))
    ensures Apply(inv, step).stock == inv.stock
  {
    match step
    case CreateStep(r, rows) =>
    case RecordStep(count, sku, counted) =>
    case _ =>
  }

  /**
   Stock may move in any way between the step that freezes a line and the post.
   After the post the slot holds what was counted plus the net of every movement
   logged since the freeze.
   */
  lemma PostUnderMovement(before: seq<Step>, freeze: Step, during: seq<Step>, id: nat, j: nat)
    requires Freezes(Run(before), Apply(Run(before), freeze), id, j)
    requires var inv := RunFrom(Apply(Run(before), freeze), during);
             && PostOutcome(inv, id) == Done
             && j < |inv.counts[id].lines| && inv.counts[id].lines[j].counted.Some?
    ensures var frozen := Apply(Run(before), freeze);
            var inv := RunFrom(frozen, during);
            var c := inv.counts[id];
            var slot := Slot(c.lines[j].sku, c.location);
            && frozen.stock.log <= inv.stock.log
            && OnHand(Post(inv, id).stock, slot) ==
               c.lines[j].counted.value + SumBy(inv.stock.log[|frozen.stock.log|..], OnHandDelta(slot))
  {
    var frozen := Apply(Run(before), freeze);
    var inv := RunFrom(frozen, during);
    RunIsLater(frozen, during);
    LevelsAlwaysMatch(before);
    StepKeepsLevels(Run(before), freeze);
    RunFromKeepsLevels(frozen, during);
    OneActivePerLocation(before);
    StepKeepsCounts(Run(before), freeze);
    RunFromKeepsCounts(frozen, during);
    FrozenAtOnHand(Run(before), freeze, id, j);
    var c := inv.counts[id];
    var slot := Slot(c.lines[j].sku, c.location);
    assert SameLine(frozen.counts[id].lines[j], c.lines[j]);
    assert SlotMatches(frozen.stock, slot) && SlotMatches(inv.stock, slot);
    var n := |frozen.stock.log|;
    assert inv.stock.log == frozen.stock.log + inv.stock.log[n..];
    SumConcat(frozen.stock.log, inv.stock.log[n..], OnHandDelta(slot));
    PostEffect(inv.stock, c.location, c.lines, id, slot);
    OneLineDelta(c.lines, j);
  }

  // ---- Variances and adjustments are what Financials books ----

  lemma {:induction false} ChangesValue(lines: seq<CountLine>)
    ensures SumBy(Changes(lines), P.AdjustedValue()) == SumBy(lines, Variance())
  {
    if lines != [] {
      var init, last := lines[..|lines| - 1], lines[|lines| - 1];
      ChangesValue(init);
      SumAppend(Changes(init), E.AdjustedLine(last.sku, Delta(last), last.unitCost), P.AdjustedValue());
    }
  }

  /** Financials books an adjustment at this value: into Inventory, out of shrinkage, or nothing at zero. */
  ghost predicate BooksValue(e: E.StockAdjusted, value: int) {
    var plan := P.StockAdjustedPlan(e);
    && plan.Ok?
    && (plan.value.entry.None? <==> value == 0)
    && (plan.value.entry.Some? ==>
          && SumBy(plan.value.entry.value.lines, J.NetDebit(Chart.INVENTORY)) == value
          && SumBy(plan.value.entry.value.lines, J.NetDebit(Chart.INVENTORY_SHRINKAGE)) == -value)
  }

  lemma BooksItsValue(e: E.StockAdjusted)
    ensures BooksValue(e, SumBy(e.lines, P.AdjustedValue()))
  {
    PP.AdjustmentIsBooked(e);
  }

  /** A posted count's event is booked at the count's variance value. */
  lemma VarianceIsBooked(lines: seq<CountLine>, e: E.StockAdjusted)
    requires e.lines == Changes(lines)
    ensures BooksValue(e, SumBy(lines, Variance()))
  {
    ChangesValue(lines);
    BooksItsValue(e);
  }

  lemma OneLineValue(e: E.StockAdjusted, line: E.AdjustedLine)
    requires e.lines == [line]
    ensures SumBy(e.lines, P.AdjustedValue()) == line.delta * line.unitCost
  {
    assert e.lines == [] + [line];
    SumAppend([], line, P.AdjustedValue());
  }

  /**
   A manual adjustment moves what was asked for, publishes an event unless that
   is nothing, and the event is booked at the value of the units moved.
   */
  lemma ManualAdjustmentIsBooked(s: Stock, sku: string, location: string, delta: int, reason: string, at: int,
                                 transaction: string)
    requires sku in s.products
    ensures var event, slot := AdjustEvent(s, sku, location, delta, at, transaction), Slot(sku, location);
            && OnHand(Adjust(s, sku, location, delta, reason), slot) == OnHand(s, slot) + delta
            && (event.None? <==> delta == 0)
            && (event.Some? ==>
                  && event.value.kind == E.ManualAdjustment && event.value.reference == transaction
                  && event.value.occurredAt == at && event.value.location == location
                  && BooksValue(event.value, delta * s.products[sku].unitCost))
  {
    var event := AdjustEvent(s, sku, location, delta, at, transaction);
    SL.MoveOnHand(s, Movement(sku, location, Adjustment, delta, AdjustmentReason(reason)), Slot(sku, location));
    if event.Some? {
      OneLineValue(event.value, E.AdjustedLine(sku, delta, s.products[sku].unitCost));
      BooksItsValue(event.value);
    }
  }
}
