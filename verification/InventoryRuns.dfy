/** What holds of stock, reservations, the movement log and counts after every run. */
module InventoryRuns {
  import opened Sums
  import opened Stock
  import C = StockCounts
  import E = Events

  datatype Step =
    | SaveProduct(sku: string, product: Product)
    | AdjustStep(sku: string, location: string, delta: int, reason: string)
    | ReceiptStep(receipt: E.GoodsReceived)
    | TransferStep(transfer: E.StockTransferred)
    | ReturnStep(returned: E.ItemReturned)
    | ReserveStep(sku: string, location: string, quantity: int, txn: string)
    | ReleaseStep(id: nat)
    | SoldStep(sale: E.ItemSold)
    | CreateStep(request: C.Request, rows: seq<string>)
    | RecordStep(count: nat, sku: string, counted: int)
    | SubmitStep(count: nat, uncounted: C.Uncounted)
    | PostStep(count: nat)
    | CancelStep(count: nat)

  const EMPTY_INVENTORY := C.Inventory(EMPTY, [])

  /** The step's effect on stock alone. */
  function StockAfter(inv: C.Inventory, step: Step): Stock {
    var s := inv.stock;
    match step
    case SaveProduct(sku, product) => s.(products := s.products[sku := product])
    case AdjustStep(sku, location, delta, reason) => Adjust(s, sku, location, delta, reason)
    case ReceiptStep(e) => ReceiveLines(s, e, e.lines)
    case TransferStep(e) => Transfer(s, e)
    case ReturnStep(e) => ReturnLines(s, e.lines, e.returnId)
    case ReserveStep(sku, location, quantity, txn) => Reserve(s, sku, location, quantity, txn)
    case ReleaseStep(id) => Release(s, id)
    case SoldStep(e) => ConsumeLines(s, e.lines, e.transactionId)
    case PostStep(id) => C.Post(inv, id).stock
    case _ => s
  }

  ghost function Apply(inv: C.Inventory, step: Step): C.Inventory {
    match step
    case CreateStep(request, rows) => C.Create(inv, request, rows)
    case RecordStep(id, sku, counted) => C.RecordCount(inv, id, sku, counted)
    case SubmitStep(id, uncounted) => C.Submit(inv, id, uncounted)
    case PostStep(id) => C.Post(inv, id)
    case CancelStep(id) => C.Cancel(inv, id)
    case _ => inv.(stock := StockAfter(inv, step))
  }

  ghost function RunFrom(inv: C.Inventory, steps: seq<Step>): C.Inventory {
    if steps == [] then inv else Apply(RunFrom(inv, steps[..|steps| - 1]), steps[|steps| - 1])
  }

  ghost function Run(steps: seq<Step>): C.Inventory {
    RunFrom(EMPTY_INVENTORY, steps)
  }

  // ---- Levels agree with the log and the reservations ----

  predicate MovesStock(kind: MovementKind) {
    kind != Reserving && kind != Releasing
  }

  /** What a movement adds to a slot's stock on hand. */
  function OnHandDelta(slot: Slot): Movement -> int {
    (m: Movement) => if Slot(m.sku, m.location) == slot && MovesStock(m.kind) then m.delta else 0
  }

  function ActiveQuantity(slot: Slot): Reservation -> int {
    (r: Reservation) => if Slot(r.sku, r.location) == slot && r.status == Active then r.quantity else 0
  }

  ghost predicate SlotMatches(s: Stock, slot: Slot) {
    && OnHand(s, slot) == SumBy(s.log, OnHandDelta(slot))
    && Allocated(s, slot) == SumBy(s.reservations, ActiveQuantity(slot))
  }

  ghost predicate RowsExist(s: Stock) {
    && (forall r :: r in s.reservations ==> Slot(r.sku, r.location) in s.levels)
    && forall m :: m in s.log ==> Slot(m.sku, m.location) in s.levels
  }

  ghost predicate LevelsMatch(s: Stock) {
    RowsExist(s) && forall slot :: SlotMatches(s, slot)
  }

  lemma UpsertKeeps(s: Stock, slot: Slot)
    requires LevelsMatch(s)
    ensures LevelsMatch(Upsert(s, slot))
  {
    forall x ensures SlotMatches(Upsert(s, slot), x) {
      assert SlotMatches(s, x);
    }
  }

  lemma MoveKeeps(s: Stock, m: Movement)
    requires LevelsMatch(s) && MovesStock(m.kind)
    ensures LevelsMatch(Move(s, m))
  {
    forall x ensures SlotMatches(Move(s, m), x) {
      assert SlotMatches(s, x);
      SumAppend(s.log, m, OnHandDelta(x));
    }
  }

  lemma AdjustKeeps(s: Stock, sku: string, location: string, delta: int, reason: string)
    requires LevelsMatch(s)
    ensures LevelsMatch(Adjust(s, sku, location, delta, reason))
  {
    if sku in s.products {
      MoveKeeps(s, Movement(sku, location, Adjustment, delta, AdjustmentReason(reason)));
    }
  }

  lemma SameLevels(s: Stock, products: map<string, Product>)
    requires LevelsMatch(s)
    ensures LevelsMatch(s.(products := products))
  {
    forall x ensures SlotMatches(s.(products := products), x) {
      assert SlotMatches(s, x);
    }
  }

  lemma {:induction false} ReceiveKeeps(s: Stock, e: E.GoodsReceived, lines: seq<E.ReceivedLine>)
    requires LevelsMatch(s)
    ensures LevelsMatch(ReceiveLines(s, e, lines))
  {
    if lines != [] {
      var init, last := lines[..|lines| - 1], lines[|lines| - 1];
      ReceiveKeeps(s, e, init);
      var s1 := ReceiveLines(s, e, init);
      if Sellable(last) {
        SameLevels(s1, s1.products[last.sku := STUB]);
        var s2 := if last.sku in s1.products then s1 else s1.(products := s1.products[last.sku := STUB]);
        MoveKeeps(s2, Movement(last.sku, e.location, Receipt, last.received, Grn(e.grnNumber)));
      }
    }
  }

  lemma MoveTwiceKeeps(s: Stock, a: Movement, b: Movement)
    requires LevelsMatch(s) && MovesStock(a.kind) && MovesStock(b.kind)
    ensures LevelsMatch(Move(Move(s, a), b))
  {
    MoveKeeps(s, a);
    MoveKeeps(Move(s, a), b);
  }

  lemma TransferKeeps(s: Stock, e: E.StockTransferred)
    requires LevelsMatch(s)
    ensures LevelsMatch(Transfer(s, e))
  {
    var s1 := Upsert(s, Slot(e.sku, e.fromLocation));
    UpsertKeeps(s, Slot(e.sku, e.fromLocation));
    UpsertKeeps(s1, Slot(e.sku, e.toLocation));
    MoveTwiceKeeps(Upsert(s1, Slot(e.sku, e.toLocation)),
                   Movement(e.sku, e.fromLocation, TransferOut, -e.quantity, TransferNumber(e.transferNumber)),
                   Movement(e.sku, e.toLocation, TransferIn, e.quantity, TransferNumber(e.transferNumber)));
  }

  lemma {:induction false} ReturnKeeps(s: Stock, lines: seq<E.ReturnedLine>, returnId: string)
    requires LevelsMatch(s)
    ensures LevelsMatch(ReturnLines(s, lines, returnId))
  {
    if lines != [] {
      var init, last := lines[..|lines| - 1], lines[|lines| - 1];
      ReturnKeeps(s, init, returnId);
      MoveKeeps(ReturnLines(s, init, returnId),
                Movement(last.sku, last.location, Return, last.quantity, ReturnId(returnId)));
    }
  }

  /** Opening an active reservation on an existing row. */
  lemma OpenKeeps(s: Stock, r: Reservation, m: Movement)
    requires LevelsMatch(s) && r.status == Active && m.kind == Reserving
    requires Slot(m.sku, m.location) == Slot(r.sku, r.location) && Slot(r.sku, r.location) in s.levels
    ensures LevelsMatch(Record(Add(s, Slot(r.sku, r.location), 0, r.quantity)
                               .(reservations := s.reservations + [r]), m))
  {
    var s' := Record(Add(s, Slot(r.sku, r.location), 0, r.quantity).(reservations := s.reservations + [r]), m);
    forall x ensures SlotMatches(s', x) {
      assert SlotMatches(s, x);
      SumAppend(s.reservations, r, ActiveQuantity(x));
      SumAppend(s.log, m, OnHandDelta(x));
    }
  }

  lemma ReserveKeeps(s: Stock, sku: string, location: string, quantity: int, txn: string)
    requires LevelsMatch(s)
    ensures LevelsMatch(Reserve(s, sku, location, quantity, txn))
  {
    var slot := Slot(sku, location);
    UpsertKeeps(s, slot);
    OpenKeeps(Upsert(s, slot), Reservation(sku, location, quantity, Active),
              Movement(sku, location, Reserving, quantity, PosTransaction(txn)));
  }

  /** Ending an active reservation, with or without stock leaving. */
  lemma EndKeeps(s: Stock, id: nat, status: ReservationStatus, m: Movement, sold: int)
    requires LevelsMatch(s) && IsActive(s, id) && status != Active
    requires Slot(m.sku, m.location) == Slot(s.reservations[id].sku, s.reservations[id].location)
    requires if MovesStock(m.kind) then m.delta == -sold else sold == 0
    ensures LevelsMatch(Record(Add(SetStatus(s, id, status), Slot(m.sku, m.location), -sold,
                                   -s.reservations[id].quantity), m))
  {
    var r, slot := s.reservations[id], Slot(m.sku, m.location);
    assert r in s.reservations;
    var s' := Record(Add(SetStatus(s, id, status), slot, -sold, -r.quantity), m);
    forall x ensures SlotMatches(s', x) {
      assert SlotMatches(s, x);
      SumUpdate(s.reservations, id, r.(status := status), ActiveQuantity(x));
      SumAppend(s.log, m, OnHandDelta(x));
    }
    forall y | y in s'.reservations ensures Slot(y.sku, y.location) in s'.levels {
      assert y in s.reservations || y == r.(status := status);
    }
  }

  lemma ReleaseKeeps(s: Stock, id: nat)
    requires LevelsMatch(s)
    ensures LevelsMatch(Release(s, id))
  {
    if IsActive(s, id) {
      var r := s.reservations[id];
      EndKeeps(s, id, Released, Movement(r.sku, r.location, Releasing, -r.quantity, ReservationId(id)), 0);
    }
  }

  lemma ConsumeKeeps(s: Stock, id: nat, sold: int, txn: string)
    requires LevelsMatch(s)
    ensures LevelsMatch(Consume(s, id, sold, txn))
  {
    if IsActive(s, id) {
      var r := s.reservations[id];
      EndKeeps(s, id, Consumed, Movement(r.sku, r.location, Sale, -sold, PosTransaction(txn)), sold);
    }
  }

  lemma {:induction false} ConsumeLinesKeeps(s: Stock, lines: seq<E.SoldLine>, txn: string)
    requires LevelsMatch(s)
    ensures LevelsMatch(ConsumeLines(s, lines, txn))
  {
    if lines != [] {
      var init, last := lines[..|lines| - 1], lines[|lines| - 1];
      ConsumeLinesKeeps(s, init, txn);
      ConsumeKeeps(ConsumeLines(s, init, txn), last.reservation, last.quantity, txn);
    }
  }

  lemma {:induction false} PostKeeps(s: Stock, location: string, lines: seq<C.CountLine>, id: nat)
    requires LevelsMatch(s) && C.PostLines(s, location, lines, id).Some?
    ensures LevelsMatch(C.PostLines(s, location, lines, id).value)
  {
    if lines != [] {
      var init, last := lines[..|lines| - 1], lines[|lines| - 1];
      PostKeeps(s, location, init, id);
      if C.Changed(last) {
        MoveKeeps(C.PostLines(s, location, init, id).value,
                  Movement(last.sku, location, Adjustment, C.Delta(last), CountNumber(id)));
      }
    }
  }

  lemma PostStepKeeps(inv: C.Inventory, id: nat)
    requires LevelsMatch(inv.stock)
    ensures LevelsMatch(C.Post(inv, id).stock)
  {
    if C.PostOutcome(inv, id) == C.Done {
      PostKeeps(inv.stock, inv.counts[id].location, inv.counts[id].lines, id);
    }
  }

  lemma StepKeepsLevels(inv: C.Inventory, step: Step)
    requires LevelsMatch(inv.stock)
    ensures LevelsMatch(Apply(inv, step).stock)
  {
    var s := inv.stock;
    match step
    case SaveProduct(sku, product) => SameLevels(s, s.products[sku := product]);
    case AdjustStep(sku, location, delta, reason) => AdjustKeeps(s, sku, location, delta, reason);
    case ReceiptStep(e) => ReceiveKeeps(s, e, e.lines);
    case TransferStep(e) => TransferKeeps(s, e);
    case ReturnStep(e) => ReturnKeeps(s, e.lines, e.returnId);
    case ReserveStep(sku, location, quantity, txn) => ReserveKeeps(s, sku, location, quantity, txn);
    case ReleaseStep(id) => ReleaseKeeps(s, id);
    case SoldStep(e) => ConsumeLinesKeeps(s, e.lines, e.transactionId);
    case PostStep(id) => PostStepKeeps(inv, id);
    case _ =>
  }

  /**
   In every run, each product and location has on hand exactly what its logged
   movements add up to, and allocated exactly what its active reservations hold.
   */
  lemma {:induction false} LevelsAlwaysMatch(steps: seq<Step>)
    ensures LevelsMatch(Run(steps).stock)
  {
    if steps != [] {
      var init := steps[..|steps| - 1];
      LevelsAlwaysMatch(init);
      StepKeepsLevels(Run(init), steps[|steps| - 1]);
    }
  }
}
