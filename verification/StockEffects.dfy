/** What each event and call changes in stock, told by the event and the figures before it. */
module StockEffects {
  import opened Sums
  import opened Stock
  import opened StockLaws
  import E = Events

  // ---- Receipts ----

  /** The sellable units a line brings to a slot: those in good condition. */
  function GoodUnits(location: string, slot: Slot): E.ReceivedLine -> int {
    (l: E.ReceivedLine) =>
      match l.condition
      case Damaged => 0
      case Good => if l.received > 0 && l.sku == slot.sku && location == slot.location then l.received else 0
  }

  /** Some line brings units of the SKU in good condition. */
  ghost predicate BringsGood(lines: seq<E.ReceivedLine>, sku: string) {
    exists l :: l in lines && l.condition == E.Good && l.received > 0 && l.sku == sku
  }

  lemma BringsGoodStep(lines: seq<E.ReceivedLine>, last: E.ReceivedLine, sku: string)
    ensures BringsGood(lines + [last], sku) <==>
            BringsGood(lines, sku) || (last.condition == E.Good && last.received > 0 && last.sku == sku)
  {
    assert forall l :: l in lines + [last] <==> l in lines || l == last;
  }

  lemma ReceiveLineEffect(s: Stock, e: E.GoodsReceived, l: E.ReceivedLine, slot: Slot)
    ensures var s' := ReceiveLine(s, e, l);
            && OnHand(s', slot) == OnHand(s, slot) + GoodUnits(e.location, slot)(l)
            && Allocated(s', slot) == Allocated(s, slot) && s'.reservations == s.reservations
  {
  }

  lemma ReceiveLineProducts(s: Stock, e: E.GoodsReceived, l: E.ReceivedLine, sku: string)
    ensures var s', brings := ReceiveLine(s, e, l), l.condition == E.Good && l.received > 0 && l.sku == sku;
            && (sku in s'.products <==> sku in s.products || brings)
            && (sku in s'.products ==> s'.products[sku] == if sku in s.products then s.products[sku] else STUB)
  {
  }

  /**
   A receipt raises each slot on hand by its units in good condition and leaves
   allocations alone; damaged units never become stock. A product nobody had
   entered is created, at no cost, and no other product changes.
   */
  lemma {:induction false} ReceiptAddsGoodUnits(s: Stock, e: E.GoodsReceived, lines: seq<E.ReceivedLine>, slot: Slot)
    ensures var s' := ReceiveLines(s, e, lines);
            && OnHand(s', slot) == OnHand(s, slot) + SumBy(lines, GoodUnits(e.location, slot))
            && Allocated(s', slot) == Allocated(s, slot) && s'.reservations == s.reservations
            && (slot.sku in s'.products <==> slot.sku in s.products || BringsGood(lines, slot.sku))
            && (slot.sku in s.products ==> s'.products[slot.sku] == s.products[slot.sku])
            && (slot.sku in s'.products && slot.sku !in s.products ==> s'.products[slot.sku].unitCost == 0)
  {
    if lines != [] {
      var init, last := lines[..|lines| - 1], lines[|lines| - 1];
      assert lines == init + [last];
      ReceiptAddsGoodUnits(s, e, init, slot);
      BringsGoodStep(init, last, slot.sku);
      ReceiveLineEffect(ReceiveLines(s, e, init), e, last, slot);
      ReceiveLineProducts(ReceiveLines(s, e, init), e, last, slot.sku);
    }
  }

  /** One movement for each line in good condition, in order. */
  function ReceiptLog(e: E.GoodsReceived, lines: seq<E.ReceivedLine>): seq<Movement> {
    if lines == [] then []
    else
      var init, last := ReceiptLog(e, lines[..|lines| - 1]), lines[|lines| - 1];
      match last.condition
      case Damaged => init
      case Good =>
        if last.received <= 0 then init
        else init + [Movement(last.sku, e.location, Receipt, last.received, Grn(e.grnNumber))]
  }

  /** A receipt logs what it brought under its note's number. */
  lemma {:induction false} ReceiptIsLogged(s: Stock, e: E.GoodsReceived, lines: seq<E.ReceivedLine>)
    ensures ReceiveLines(s, e, lines).log == s.log + ReceiptLog(e, lines)
  {
    if lines != [] {
      ReceiptIsLogged(s, e, lines[..|lines| - 1]);
    } else {
      assert s.log + [] == s.log;
    }
  }

  // ---- Transfers ----

  /** A movement in the log carries the transfer's number. */
  ghost predicate WasTransferred(log: seq<Movement>, number: string) {
    exists m :: m in log && m.ref == TransferNumber(number)
  }

  /**
   A transfer takes its quantity from the one location and adds it to the other,
   the first time its number is seen and if the product is known; otherwise it
   changes nothing.
   */
  lemma TransferMovesItsQuantity(s: Stock, e: E.StockTransferred, slot: Slot)
    ensures var s', applies := Transfer(s, e), !WasTransferred(s.log, e.transferNumber) && e.sku in s.products;
            && (!applies ==> s' == s)
            && (applies ==>
                  && WasTransferred(s'.log, e.transferNumber)
                  && Allocated(s', slot) == Allocated(s, slot) && s'.reservations == s.reservations
                  && OnHand(s', slot) == OnHand(s, slot)
                                         - (if slot == Slot(e.sku, e.fromLocation) then e.quantity else 0)
                                         + (if slot == Slot(e.sku, e.toLocation) then e.quantity else 0))
  {
    SeenInLog(s.log, e.transferNumber);
    if !WasTransferred(s.log, e.transferNumber) && e.sku in s.products {
      var out := Movement(e.sku, e.fromLocation, TransferOut, -e.quantity, TransferNumber(e.transferNumber));
      var into := Movement(e.sku, e.toLocation, TransferIn, e.quantity, TransferNumber(e.transferNumber));
      var s1 := Upsert(s, Slot(e.sku, e.fromLocation));
      var s2 := Upsert(s1, Slot(e.sku, e.toLocation));
      NewRowIsEmpty(s, Slot(e.sku, e.fromLocation), slot);
      NewRowIsEmpty(s1, Slot(e.sku, e.toLocation), slot);
      MovedTwice(s2, out, into, slot);
      assert Transfer(s, e) == Move(Move(s2, out), into);
    }
  }

  lemma NewRowIsEmpty(s: Stock, row: Slot, slot: Slot)
    ensures OnHand(Upsert(s, row), slot) == OnHand(s, slot) && Allocated(Upsert(s, row), slot) == Allocated(s, slot)
  {
  }

  lemma MovedTwice(s: Stock, a: Movement, b: Movement, slot: Slot)
    ensures var s' := Move(Move(s, a), b);
            && OnHand(s', slot) == OnHand(s, slot) + (if Slot(a.sku, a.location) == slot then a.delta else 0)
                                   + (if Slot(b.sku, b.location) == slot then b.delta else 0)
            && Allocated(s', slot) == Allocated(s, slot) && s'.reservations == s.reservations && b in s'.log
  {
    MoveOnHand(s, a, slot);
    MoveOnHand(Move(s, a), b, slot);
  }

  lemma SeenInLog(log: seq<Movement>, number: string)
    ensures HasTransfer(log, number) <==> WasTransferred(log, number)
  {
    if HasTransfer(log, number) {
      var i :| 0 <= i < |log| && log[i].ref == TransferNumber(number);
      assert log[i] in log;
    }
  }

  // ---- Reservations ----

  /**
   A reservation is granted exactly when the product is known and that much is on
   hand and not allocated. Granted, it allocates the quantity at its slot and says
   what is left; refused, it changes no figure and says what there is.
   */
  lemma ReservesWhatIsFree(s: Stock, sku: string, location: string, quantity: int, txn: string, slot: Slot)
    ensures var own, s', r := Slot(sku, location), Reserve(s, sku, location, quantity, txn),
                              ReserveResult(s, sku, location, quantity);
            var free := OnHand(s, own) - Allocated(s, own);
            && OnHand(s', slot) == OnHand(s, slot) && s'.products == s.products
            && (r == UnknownProduct <==> sku !in s.products)
            && (r.NotAvailable? <==> sku in s.products && free < quantity)
            && (r.Reserved? <==> sku in s.products && free >= quantity)
            && (!r.Reserved? ==> Allocated(s', slot) == Allocated(s, slot) && s'.reservations == s.reservations
                                 && s'.log == s.log)
            && (r.NotAvailable? ==> r.available == free)
            && (r.Reserved? ==>
                  && r.id == |s.reservations| && r.availableAfter == free - quantity
                  && s'.reservations == s.reservations + [Reservation(sku, location, quantity, Active)]
                  && s'.log == s.log + [Movement(sku, location, Reserving, quantity, PosTransaction(txn))]
                  && Allocated(s', slot) == Allocated(s, slot) + if slot == own then quantity else 0)
  {
  }

  /** The reservation's own slot. */
  function SlotOf(r: Reservation): Slot {
    Slot(r.sku, r.location)
  }

  /** A movement at a reservation's slot. */
  function MovementOf(r: Reservation, kind: MovementKind, delta: int, ref: Reference): Movement {
    Movement(r.sku, r.location, kind, delta, ref)
  }

  /** Releasing gives an active reservation's quantity back, once; anything else it leaves alone. */
  lemma ReleaseGivesBack(s: Stock, id: nat, slot: Slot)
    requires id < |s.reservations| ==> SlotOf(s.reservations[id]) in s.levels
    ensures var s' := Release(s, id);
            && (id >= |s.reservations| || s.reservations[id].status != Active ==> s' == s)
            && (id < |s.reservations| && s.reservations[id].status == Active ==>
                  && s'.reservations == s.reservations[id := s.reservations[id].(status := Released)]
                  && s'.log == s.log + [MovementOf(s.reservations[id], Releasing, -s.reservations[id].quantity,
                                                   ReservationId(id))]
                  && OnHand(s', slot) == OnHand(s, slot)
                  && Allocated(s', slot) ==
                     Allocated(s, slot) - if slot == SlotOf(s.reservations[id]) then s.reservations[id].quantity else 0)
  {
  }

  /**
   Selling consumes an active reservation, once: what was sold leaves on hand, and what
   was held is no longer allocated.
   */
  lemma SaleTakesReserved(s: Stock, id: nat, sold: int, txn: string, slot: Slot)
    requires id < |s.reservations| ==> SlotOf(s.reservations[id]) in s.levels
    ensures var s' := Consume(s, id, sold, txn);
            && (id >= |s.reservations| || s.reservations[id].status != Active ==> s' == s)
            && (id < |s.reservations| && s.reservations[id].status == Active ==>
                  && s'.reservations == s.reservations[id := s.reservations[id].(status := Consumed)]
                  && s'.log == s.log + [MovementOf(s.reservations[id], Sale, -sold, PosTransaction(txn))]
                  && OnHand(s', slot) == OnHand(s, slot) - (if slot == SlotOf(s.reservations[id]) then sold else 0)
                  && Allocated(s', slot) ==
                     Allocated(s, slot) - if slot == SlotOf(s.reservations[id]) then s.reservations[id].quantity else 0)
  {
  }

  // ---- Returns ----

  /** A return never touches products nobody has entered, nor allocations. */
  lemma {:induction false} ReturnSkipsUnknown(s: Stock, lines: seq<E.ReturnedLine>, returnId: string, slot: Slot)
    ensures var s' := ReturnLines(s, lines, returnId);
            && s'.products == s.products && s'.reservations == s.reservations
            && Allocated(s', slot) == Allocated(s, slot)
            && (slot.sku !in s.products ==> OnHand(s', slot) == OnHand(s, slot))
  {
    if lines != [] {
      ReturnSkipsUnknown(s, lines[..|lines| - 1], returnId, slot);
    }
  }
}
