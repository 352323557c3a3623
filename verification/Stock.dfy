/**
 Inventory's tables as one value, and every operation that changes them: levels
 per product and location, checkout reservations, and the log of movements.
 */
module Stock {
  import opened Wrappers
  import E = Events

  datatype MovementKind = Receipt | Sale | Return | Adjustment | Reserving | Releasing | TransferOut | TransferIn

  /** What caused a movement. */
  datatype Reference =
    | Grn(number: string) | PosTransaction(id: string) | AdjustmentReason(text: string) | ReservationId(index: nat)
    | TransferNumber(number: string) | ReturnId(id: string) | CountNumber(index: nat)

  datatype Movement = Movement(sku: string, location: string, kind: MovementKind, delta: int, ref: Reference)

  datatype ReservationStatus = Active | Released | Consumed

  datatype Reservation = Reservation(sku: string, location: string, quantity: int, status: ReservationStatus)

  datatype Level = Level(onHand: int, held: int)

  datatype Slot = Slot(sku: string, location: string)

  /** Unit cost in cents. */
  datatype Product = Product(unitCost: int, category: string)

  /** Created for a receipt of an unknown SKU; a person fills in the cost later. */
  const STUB := Product(0, "")

  /** Products are keyed by SKU. A reservation's id is its position. */
  datatype Stock = Stock(products: map<string, Product>, levels: map<Slot, Level>, reservations: seq<Reservation>,
                         log: seq<Movement>)

  datatype ReserveOutcome = Reserved(id: nat, availableAfter: int) | NotAvailable(available: int) | UnknownProduct

  const EMPTY := Stock(map[], map[], [], [])

  function OnHand(s: Stock, slot: Slot): int {
    if slot in s.levels then s.levels[slot].onHand else 0
  }

  function Allocated(s: Stock, slot: Slot): int {
    if slot in s.levels then s.levels[slot].held else 0
  }

  function Available(s: Stock, slot: Slot): int {
    OnHand(s, slot) - Allocated(s, slot)
  }

  // ---- Row updates ----

  /** Creates the level's row if there is none. */
  function Upsert(s: Stock, slot: Slot): Stock {
    if slot in s.levels then s else s.(levels := s.levels[slot := Level(0, 0)])
  }

  /** Adds to an existing row; without a row nothing is updated. */
  function Add(s: Stock, slot: Slot, onHand: int, held: int): Stock {
    if slot !in s.levels then s
    else s.(levels := s.levels[slot := Level(s.levels[slot].onHand + onHand, s.levels[slot].held + held)])
  }

  function Record(s: Stock, m: Movement): Stock {
    s.(log := s.log + [m])
  }

  /** A movement of stock on hand together with its log entry. */
  function Move(s: Stock, m: Movement): Stock {
    Record(Add(Upsert(s, Slot(m.sku, m.location)), Slot(m.sku, m.location), m.delta, 0), m)
  }

  function SetStatus(s: Stock, id: nat, status: ReservationStatus): Stock
    requires id < |s.reservations|
  {
    s.(reservations := s.reservations[id := s.reservations[id].(status := status)])
  }

  // ---- Operations ----

  function Adjust(s: Stock, sku: string, location: string, delta: int, reason: string): Stock {
    if sku !in s.products then s
    else Move(s, Movement(sku, location, Adjustment, delta, AdjustmentReason(reason)))
  }

  /** What a manual adjustment publishes; one of nothing publishes nothing. */
  function AdjustEvent(s: Stock, sku: string, location: string, delta: int, at: int, transaction: string)
    : Option<E.StockAdjusted>
  {
    if sku !in s.products || delta == 0 then None
    else Some(E.StockAdjusted(at, E.ManualAdjustment, transaction, location,
                              [E.AdjustedLine(sku, delta, s.products[sku].unitCost)]))
  }

  predicate Sellable(line: E.ReceivedLine) {
    line.condition == E.Good && line.received > 0
  }

  /** A receipt of an unknown SKU creates a stub product rather than losing the count. */
  function ReceiveLine(s: Stock, e: E.GoodsReceived, line: E.ReceivedLine): Stock {
    if !Sellable(line) then s
    else
      var s1 := if line.sku in s.products then s else s.(products := s.products[line.sku := STUB]);
      Move(s1, Movement(line.sku, e.location, Receipt, line.received, Grn(e.grnNumber)))
  }

  function ReceiveLines(s: Stock, e: E.GoodsReceived, lines: seq<E.ReceivedLine>): Stock {
    if lines == [] then s
    else ReceiveLine(ReceiveLines(s, e, lines[..|lines| - 1]), e, lines[|lines| - 1])
  }

  lemma ReceiveNext(s: Stock, e: E.GoodsReceived, i: nat)
    requires i < |e.lines|
    ensures ReceiveLines(s, e, e.lines[..i + 1]) == ReceiveLine(ReceiveLines(s, e, e.lines[..i]), e, e.lines[i])
  {
    assert e.lines[..i + 1] == e.lines[..i] + [e.lines[i]];
  }

  predicate HasTransfer(log: seq<Movement>, number: string) {
    exists i :: 0 <= i < |log| && log[i].ref == TransferNumber(number)
  }

  /** Stock that has physically moved is recorded even if the source falls short. */
  function Transfer(s: Stock, e: E.StockTransferred): Stock {
    if HasTransfer(s.log, e.transferNumber) || e.sku !in s.products then s
    else
      var ref := TransferNumber(e.transferNumber);
      var s1 := Upsert(Upsert(s, Slot(e.sku, e.fromLocation)), Slot(e.sku, e.toLocation));
      var s2 := Move(s1, Movement(e.sku, e.fromLocation, TransferOut, -e.quantity, ref));
      Move(s2, Movement(e.sku, e.toLocation, TransferIn, e.quantity, ref))
  }

  /** A transfer's two movements at once. */
  lemma TransferredStock(s: Stock, e: E.StockTransferred)
    requires !HasTransfer(s.log, e.transferNumber) && e.sku in s.products
    ensures var source, target := Slot(e.sku, e.fromLocation), Slot(e.sku, e.toLocation);
            var s1, ref := Upsert(Upsert(s, source), target), TransferNumber(e.transferNumber);
            var sent := s1.levels[source := s1.levels[source].(onHand := s1.levels[source].onHand - e.quantity)];
            var levels := sent[target := sent[target].(onHand := sent[target].onHand + e.quantity)];
            Transfer(s, e) == s1.(levels := levels,
                                  log := s1.log + [Movement(e.sku, e.fromLocation, TransferOut, -e.quantity, ref)]
                                         + [Movement(e.sku, e.toLocation, TransferIn, e.quantity, ref)])
  {
  }

  predicate HasReturn(log: seq<Movement>, returnId: string, slot: Slot) {
    exists i :: 0 <= i < |log| && log[i].ref == ReturnId(returnId) && Slot(log[i].sku, log[i].location) == slot
  }

  function ReturnItem(s: Stock, sku: string, location: string, quantity: int, returnId: string): Stock {
    if sku !in s.products || HasReturn(s.log, returnId, Slot(sku, location)) then s
    else Move(s, Movement(sku, location, Return, quantity, ReturnId(returnId)))
  }

  /** The consumer's loop over an ItemReturned event. */
  function ReturnLines(s: Stock, lines: seq<E.ReturnedLine>, returnId: string): Stock {
    if lines == [] then s
    else
      var last := lines[|lines| - 1];
      ReturnItem(ReturnLines(s, lines[..|lines| - 1], returnId), last.sku, last.location, last.quantity, returnId)
  }

  function Reserve(s: Stock, sku: string, location: string, quantity: int, txn: string): Stock {
    var slot := Slot(sku, location);
    if sku !in s.products then s
    else if Available(s, slot) < quantity then Upsert(s, slot)
    else
      var s1 := Add(Upsert(s, slot), slot, 0, quantity);
      Record(s1.(reservations := s.reservations + [Reservation(sku, location, quantity, Active)]),
             Movement(sku, location, Reserving, quantity, PosTransaction(txn)))
  }

  function ReserveResult(s: Stock, sku: string, location: string, quantity: int): ReserveOutcome {
    var available := Available(s, Slot(sku, location));
    if sku !in s.products then UnknownProduct
    else if available < quantity then NotAvailable(available)
    else Reserved(|s.reservations|, available - quantity)
  }

  predicate IsActive(s: Stock, id: nat) {
    id < |s.reservations| && s.reservations[id].status == Active
  }

  function Release(s: Stock, id: nat): Stock {
    if !IsActive(s, id) then s
    else
      var r := s.reservations[id];
      Record(Add(SetStatus(s, id, Released), Slot(r.sku, r.location), 0, -r.quantity),
             Movement(r.sku, r.location, Releasing, -r.quantity, ReservationId(id)))
  }

  function Consume(s: Stock, id: nat, sold: int, txn: string): Stock {
    if !IsActive(s, id) then s
    else
      var r := s.reservations[id];
      Record(Add(SetStatus(s, id, Consumed), Slot(r.sku, r.location), -sold, -r.quantity),
             Movement(r.sku, r.location, Sale, -sold, PosTransaction(txn)))
  }

  /** The consumer's loop over an ItemSold event. */
  function ConsumeLines(s: Stock, lines: seq<E.SoldLine>, txn: string): Stock {
    if lines == [] then s
    else
      var last := lines[|lines| - 1];
      Consume(ConsumeLines(s, lines[..|lines| - 1], txn), last.reservation, last.quantity, txn)
  }

  // ---- The service ----

  class StockService {
    var products: map<string, Product>
    var levels: map<Slot, Level>
    var reservations: seq<Reservation>
    var log: seq<Movement>

    function State(): Stock
      reads this
    {
      Stock(products, levels, reservations, log)
    }

    constructor ()
      ensures State() == EMPTY
    {
      products, levels, reservations, log := map[], map[], [], [];
    }

    method UpsertLevel(slot: Slot)
      modifies this`levels
      ensures State() == Upsert(old(State()), slot)
      ensures slot in levels
    {
      if slot !in levels {
        levels := levels[slot := Level(0, 0)];
      }
    }

    method RecordMovement(m: Movement)
      modifies this`log
      ensures State() == Record(old(State()), m)
    {
      log := log + [m];
    }

    method AdjustStock(sku: string, location: string, delta: int, reason: string, at: int, transaction: string)
      returns (found: bool, event: Option<E.StockAdjusted>)
      modifies this
      ensures State() == Adjust(old(State()), sku, location, delta, reason)
      ensures found <==> sku in old(products)
      ensures event == AdjustEvent(old(State()), sku, location, delta, at, transaction)
    {
      if sku !in products {
        return false, None;
      }
      var slot := Slot(sku, location);
      if slot in levels {
        levels := levels[slot := levels[slot].(onHand := levels[slot].onHand + delta)];
      } else {
        levels := levels[slot := Level(delta, 0)];
      }
      RecordMovement(Movement(sku, location, Adjustment, delta, AdjustmentReason(reason)));
      if delta == 0 {
        return true, None;
      }
      return true, Some(E.StockAdjusted(at, E.ManualAdjustment, transaction, location,
                                        [E.AdjustedLine(sku, delta, products[sku].unitCost)]));
    }

    /** One turn of the receipt loop. */
    method ReceiveOne(e: E.GoodsReceived, line: E.ReceivedLine)
      modifies this
      ensures State() == ReceiveLine(old(State()), e, line)
    {
      if line.condition != E.Good || line.received <= 0 {
        return;
      }
      if line.sku !in products {
        products := products[line.sku := STUB];
      }
      var slot := Slot(line.sku, e.location);
      UpsertLevel(slot);
      levels := levels[slot := levels[slot].(onHand := levels[slot].onHand + line.received)];
      RecordMovement(Movement(line.sku, e.location, Receipt, line.received, Grn(e.grnNumber)));
    }

    method ApplyGoodsReceived(e: E.GoodsReceived)
      modifies this
      ensures State() == ReceiveLines(old(State()), e, e.lines)
    {
      for i := 0 to |e.lines|
        invariant State() == ReceiveLines(old(State()), e, e.lines[..i])
      {
        ReceiveNext(old(State()), e, i);
        ReceiveOne(e, e.lines[i]);
      }
      assert e.lines[..|e.lines|] == e.lines;
    }

    method ApplyStockTransfer(e: E.StockTransferred)
      modifies this
      ensures State() == Transfer(old(State()), e)
    {
      if HasTransfer(log, e.transferNumber) {
        return;
      }
      if e.sku !in products {
        return;
      }
      var source, target := Slot(e.sku, e.fromLocation), Slot(e.sku, e.toLocation);
      UpsertLevel(source);
      UpsertLevel(target);
      TransferredStock(old(State()), e);
      levels := levels[source := levels[source].(onHand := levels[source].onHand - e.quantity)];
      levels := levels[target := levels[target].(onHand := levels[target].onHand + e.quantity)];
      var ref := TransferNumber(e.transferNumber);
      RecordMovement(Movement(e.sku, e.fromLocation, TransferOut, -e.quantity, ref));
      RecordMovement(Movement(e.sku, e.toLocation, TransferIn, e.quantity, ref));
    }

    method ApplyItemReturn(sku: string, location: string, quantity: int, returnId: string)
      modifies this
      ensures State() == ReturnItem(old(State()), sku, location, quantity, returnId)
    {
      var slot := Slot(sku, location);
      if sku !in products || HasReturn(log, returnId, slot) {
        return;
      }
      UpsertLevel(slot);
      levels := levels[slot := levels[slot].(onHand := levels[slot].onHand + quantity)];
      RecordMovement(Movement(sku, location, Return, quantity, ReturnId(returnId)));
    }

    method HandleItemReturned(e: E.ItemReturned)
      modifies this
      ensures State() == ReturnLines(old(State()), e.lines, e.returnId)
    {
      for i := 0 to |e.lines|
        invariant State() == ReturnLines(old(State()), e.lines[..i], e.returnId)
      {
        assert e.lines[..i + 1][..i] == e.lines[..i];
        ApplyItemReturn(e.lines[i].sku, e.lines[i].location, e.lines[i].quantity, e.returnId);
      }
      assert e.lines[..|e.lines|] == e.lines;
    }

    method ReserveStock(sku: string, location: string, quantity: int, txn: string) returns (r: ReserveOutcome)
      modifies this
      ensures State() == Reserve(old(State()), sku, location, quantity, txn)
      ensures r == ReserveResult(old(State()), sku, location, quantity)
    {
      if sku !in products {
        return UnknownProduct;
      }
      var slot := Slot(sku, location);
      UpsertLevel(slot);
      var available := levels[slot].onHand - levels[slot].held;
      if available < quantity {
        return NotAvailable(available);
      }
      var id := |reservations|;
      reservations := reservations + [Reservation(sku, location, quantity, Active)];
      levels := levels[slot := levels[slot].(held := levels[slot].held + quantity)];
      RecordMovement(Movement(sku, location, Reserving, quantity, PosTransaction(txn)));
      return Reserved(id, available - quantity);
    }

    method ReleaseReservation(id: nat) returns (released: bool)
      modifies this
      ensures State() == Release(old(State()), id)
      ensures released <==> IsActive(old(State()), id)
    {
      if id >= |reservations| || reservations[id].status != Active {
        return false;
      }
      var r := reservations[id];
      reservations := reservations[id := r.(status := Released)];
      var slot := Slot(r.sku, r.location);
      if slot in levels {
        levels := levels[slot := levels[slot].(held := levels[slot].held - r.quantity)];
      }
      RecordMovement(Movement(r.sku, r.location, Releasing, -r.quantity, ReservationId(id)));
      return true;
    }

    method ConsumeReservationForSale(id: nat, sold: int, txn: string)
      modifies this
      ensures State() == Consume(old(State()), id, sold, txn)
    {
      if id >= |reservations| || reservations[id].status != Active {
        return;
      }
      var r := reservations[id];
      reservations := reservations[id := r.(status := Consumed)];
      var slot := Slot(r.sku, r.location);
      if slot in levels {
        levels := levels[slot := Level(levels[slot].onHand - sold, levels[slot].held - r.quantity)];
      }
      RecordMovement(Movement(r.sku, r.location, Sale, -sold, PosTransaction(txn)));
    }

    method HandleItemSold(e: E.ItemSold)
      modifies this
      ensures State() == ConsumeLines(old(State()), e.lines, e.transactionId)
    {
      for i := 0 to |e.lines|
        invariant State() == ConsumeLines(old(State()), e.lines[..i], e.transactionId)
      {
        assert e.lines[..i + 1][..i] == e.lines[..i];
        ConsumeReservationForSale(e.lines[i].reservation, e.lines[i].quantity, e.transactionId);
      }
      assert e.lines[..|e.lines|] == e.lines;
    }
  }
}
