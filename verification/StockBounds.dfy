/** When stock allocated to checkouts stays covered by stock on hand. */
module StockBounds {
  import opened Sums
  import opened Stock
  import opened InventoryRuns
  import C = StockCounts
  import E = Events

  /** Every allocation is covered by stock on hand, and no reservation is negative. */
  ghost predicate Covered(s: Stock) {
    && (forall slot :: 0 <= Allocated(s, slot) <= OnHand(s, slot))
    && forall r :: r in s.reservations ==> r.quantity >= 0
  }

  /** A movement keeps allocations covered exactly when what is left on hand still covers its slot's. */
  lemma MoveCoveredExactlyWhen(s: Stock, m: Movement)
    requires Covered(s)
    ensures var slot := Slot(m.sku, m.location);
            Covered(Move(s, m)) <==> OnHand(s, slot) + m.delta >= Allocated(s, slot)
  {
    var slot, s' := Slot(m.sku, m.location), Move(s, m);
    assert OnHand(s', slot) == OnHand(s, slot) + m.delta && Allocated(s', slot) == Allocated(s, slot);
    forall x | x != slot ensures OnHand(s', x) == OnHand(s, x) && Allocated(s', x) == Allocated(s, x) {
    }
    assert 0 <= Allocated(s, slot);
  }

  lemma ActiveIsAllocated(s: Stock, id: nat)
    requires Covered(s) && LevelsMatch(s) && IsActive(s, id)
    ensures var r := s.reservations[id];
            Slot(r.sku, r.location) in s.levels && 0 <= r.quantity <= Allocated(s, Slot(r.sku, r.location))
  {
    var r := s.reservations[id];
    var slot := Slot(r.sku, r.location);
    assert r in s.reservations && SlotMatches(s, slot);
    SumNonNegative(s.reservations, ActiveQuantity(slot));
    assert ActiveQuantity(slot)(r) == r.quantity;
  }

  lemma EndedLevels(s: Stock, id: nat, status: ReservationStatus, sold: int, m: Movement, slot: Slot)
    requires Covered(s) && LevelsMatch(s) && IsActive(s, id)
    requires var r := s.reservations[id]; slot == Slot(r.sku, r.location)
    ensures var q := s.reservations[id].quantity;
            var s' := Record(Add(SetStatus(s, id, status), slot, -sold, -q), m);
            Covered(s') <==> sold - q <= Available(s, slot)
  {
    var r := s.reservations[id];
    var s' := Record(Add(SetStatus(s, id, status), slot, -sold, -r.quantity), m);
    ActiveIsAllocated(s, id);
    assert OnHand(s', slot) == OnHand(s, slot) - sold && Allocated(s', slot) == Allocated(s, slot) - r.quantity;
    forall x | x != slot ensures OnHand(s', x) == OnHand(s, x) && Allocated(s', x) == Allocated(s, x) {
    }
    assert 0 <= Allocated(s, slot) <= OnHand(s, slot);
    forall y | y in s'.reservations ensures y.quantity >= 0 {
      assert y in s.reservations || y == r.(status := status);
    }
  }

  /** A sale keeps allocations covered exactly when its excess over the reservation was available. */
  lemma ConsumeCoveredExactlyWhen(s: Stock, id: nat, sold: int, txn: string)
    requires Covered(s) && LevelsMatch(s)
    ensures Covered(Consume(s, id, sold, txn)) <==>
            !IsActive(s, id) || sold - s.reservations[id].quantity
                                <= Available(s, Slot(s.reservations[id].sku, s.reservations[id].location))
  {
    if IsActive(s, id) {
      var r := s.reservations[id];
      EndedLevels(s, id, Consumed, sold, Movement(r.sku, r.location, Sale, -sold, PosTransaction(txn)),
                  Slot(r.sku, r.location));
    }
  }

  lemma ReleaseCovered(s: Stock, id: nat)
    requires Covered(s) && LevelsMatch(s)
    ensures Covered(Release(s, id))
  {
    if IsActive(s, id) {
      var r := s.reservations[id];
      var slot := Slot(r.sku, r.location);
      EndedLevels(s, id, Released, 0, Movement(r.sku, r.location, Releasing, -r.quantity, ReservationId(id)), slot);
      assert 0 <= Allocated(s, slot) <= OnHand(s, slot);
      ActiveIsAllocated(s, id);
    }
  }

  /** A reservation is only ever granted out of what is available. */
  lemma ReserveCoveredExactlyWhen(s: Stock, sku: string, location: string, quantity: int, txn: string)
    requires Covered(s)
    ensures Covered(Reserve(s, sku, location, quantity, txn)) <==> sku !in s.products || quantity >= 0
  {
    var slot, s' := Slot(sku, location), Reserve(s, sku, location, quantity, txn);
    assert 0 <= Allocated(s, slot) <= OnHand(s, slot);
    if sku in s.products && Available(s, slot) >= quantity {
      assert OnHand(s', slot) == OnHand(s, slot) && Allocated(s', slot) == Allocated(s, slot) + quantity;
      assert s'.reservations[|s.reservations|].quantity == quantity;
      assert s'.reservations[|s.reservations|] in s'.reservations;
    } else {
      assert OnHand(s', slot) == OnHand(s, slot) && Allocated(s', slot) == Allocated(s, slot);
    }
    forall x | x != slot ensures OnHand(s', x) == OnHand(s, x) && Allocated(s', x) == Allocated(s, x) {
    }
  }

  lemma {:induction false} ReceiveCovered(s: Stock, e: E.GoodsReceived, lines: seq<E.ReceivedLine>)
    requires Covered(s)
    ensures Covered(ReceiveLines(s, e, lines))
  {
    if lines != [] {
      var init, last := lines[..|lines| - 1], lines[|lines| - 1];
      ReceiveCovered(s, e, init);
      var s1 := ReceiveLines(s, e, init);
      if Sellable(last) {
        var s2 := if last.sku in s1.products then s1 else s1.(products := s1.products[last.sku := STUB]);
        SameTables(s1, s2);
        assert 0 <= Allocated(s2, Slot(last.sku, e.location)) <= OnHand(s2, Slot(last.sku, e.location));
        MoveCoveredExactlyWhen(s2, Movement(last.sku, e.location, Receipt, last.received, Grn(e.grnNumber)));
      }
    }
  }

  lemma SameTables(s: Stock, s': Stock)
    requires Covered(s) && s'.levels == s.levels && s'.reservations == s.reservations
    ensures Covered(s')
  {
    forall slot ensures 0 <= Allocated(s', slot) <= OnHand(s', slot) {
      assert 0 <= Allocated(s, slot) <= OnHand(s, slot);
    }
  }

  lemma {:induction false} ReturnCovered(s: Stock, lines: seq<E.ReturnedLine>, returnId: string)
    requires Covered(s) && forall l :: l in lines ==> l.quantity >= 0
    ensures Covered(ReturnLines(s, lines, returnId))
  {
    if lines != [] {
      var init, last := lines[..|lines| - 1], lines[|lines| - 1];
      ReturnCovered(s, init, returnId);
      var s1, slot := ReturnLines(s, init, returnId), Slot(last.sku, last.location);
      assert 0 <= Allocated(s1, slot) <= OnHand(s1, slot);
      MoveCoveredExactlyWhen(s1, Movement(last.sku, last.location, Return, last.quantity, ReturnId(returnId)));
    }
  }

  /** Each line sells no more than its reservation holds. */
  ghost predicate WithinReservations(s: Stock, lines: seq<E.SoldLine>) {
    forall l :: l in lines && l.reservation < |s.reservations| ==>
                  l.quantity <= s.reservations[l.reservation].quantity
  }

  lemma {:induction false} ConsumeLinesKeepQuantities(s: Stock, lines: seq<E.SoldLine>, txn: string)
    ensures var s' := ConsumeLines(s, lines, txn);
            |s'.reservations| == |s.reservations| &&
            forall i :: 0 <= i < |s.reservations| ==> s'.reservations[i].quantity == s.reservations[i].quantity
  {
    if lines != [] {
      ConsumeLinesKeepQuantities(s, lines[..|lines| - 1], txn);
    }
  }

  lemma {:induction false} SoldCovered(s: Stock, lines: seq<E.SoldLine>, txn: string)
    requires Covered(s) && LevelsMatch(s) && WithinReservations(s, lines)
    ensures Covered(ConsumeLines(s, lines, txn)) && LevelsMatch(ConsumeLines(s, lines, txn))
  {
    ConsumeLinesKeeps(s, lines, txn);
    if lines != [] {
      var init, last := lines[..|lines| - 1], lines[|lines| - 1];
      SoldCovered(s, init, txn);
      ConsumeLinesKeepQuantities(s, init, txn);
      var s1 := ConsumeLines(s, init, txn);
      if IsActive(s1, last.reservation) {
        var r := s1.reservations[last.reservation];
        assert 0 <= Allocated(s1, Slot(r.sku, r.location)) <= OnHand(s1, Slot(r.sku, r.location));
        assert last in lines;
      }
      ConsumeCoveredExactlyWhen(s1, last.reservation, last.quantity, txn);
    }
  }

  function DeltaAt(sku: string): C.CountLine -> int {
    (l: C.CountLine) => if l.sku == sku then C.Delta(l) else 0
  }

  /** Posting moves each counted slot by its lines' variances and nothing else. */
  lemma {:induction false} PostEffect(s: Stock, location: string, lines: seq<C.CountLine>, id: nat, slot: Slot)
    requires C.PostLines(s, location, lines, id).Some?
    ensures var s' := C.PostLines(s, location, lines, id).value;
            && OnHand(s', slot) ==
               OnHand(s, slot) + (if slot.location == location then SumBy(lines, DeltaAt(slot.sku)) else 0)
            && Allocated(s', slot) == Allocated(s, slot)
            && s'.products == s.products && s'.reservations == s.reservations
  {
    if lines != [] {
      PostEffect(s, location, lines[..|lines| - 1], id, slot);
    }
  }

  /** No counted variance takes more than is available. */
  ghost predicate PostLeavesEnough(s: Stock, c: C.Count) {
    forall sku :: SumBy(c.lines, DeltaAt(sku)) >= -Available(s, Slot(sku, c.location))
  }

  /** What each step must respect for allocations to stay covered. */
  ghost predicate Respects(inv: C.Inventory, step: Step) {
    var s := inv.stock;
    match step
    case AdjustStep(sku, location, delta, _) =>
      sku in s.products ==> delta >= -Available(s, Slot(sku, location))
    case TransferStep(e) => 0 <= e.quantity <= Available(s, Slot(e.sku, e.fromLocation))
    case ReturnStep(e) => forall l :: l in e.lines ==> l.quantity >= 0
    case ReserveStep(_, _, quantity, _) => quantity >= 0
    case SoldStep(e) => WithinReservations(s, e.lines)
    case PostStep(id) =>
      C.PostOutcome(inv, id) == C.Done ==> PostLeavesEnough(s, inv.counts[id])
    case _ => true
  }

  lemma TransferCovered(s: Stock, e: E.StockTransferred)
    requires Covered(s) && 0 <= e.quantity <= Available(s, Slot(e.sku, e.fromLocation))
    ensures Covered(Transfer(s, e))
  {
    if !HasTransfer(s.log, e.transferNumber) && e.sku in s.products {
      var source, target := Slot(e.sku, e.fromLocation), Slot(e.sku, e.toLocation);
      var s1 := Upsert(Upsert(s, source), target);
      forall x ensures OnHand(s1, x) == OnHand(s, x) && Allocated(s1, x) == Allocated(s, x) {
      }
      var out := Movement(e.sku, e.fromLocation, TransferOut, -e.quantity, TransferNumber(e.transferNumber));
      var into := Movement(e.sku, e.toLocation, TransferIn, e.quantity, TransferNumber(e.transferNumber));
      forall x ensures 0 <= Allocated(s1, x) <= OnHand(s1, x) {
        assert 0 <= Allocated(s, x) <= OnHand(s, x);
      }
      MoveCoveredExactlyWhen(s1, out);
      assert 0 <= Allocated(Move(s1, out), target) <= OnHand(Move(s1, out), target);
      MoveCoveredExactlyWhen(Move(s1, out), into);
    }
  }

  /** Posting a count keeps allocations covered exactly when no variance takes more than is available. */
  lemma PostCoveredExactlyWhen(inv: C.Inventory, id: nat)
    requires Covered(inv.stock) && C.PostOutcome(inv, id) == C.Done
    ensures Covered(C.Post(inv, id).stock) <==> PostLeavesEnough(inv.stock, inv.counts[id])
  {
    var s, c, s' := inv.stock, inv.counts[id], C.Post(inv, id).stock;
    PostEffect(s, c.location, c.lines, id, Slot("", ""));
    if Covered(s') {
      forall sku ensures SumBy(c.lines, DeltaAt(sku)) >= -Available(s, Slot(sku, c.location)) {
        PostEffect(s, c.location, c.lines, id, Slot(sku, c.location));
        assert Allocated(s', Slot(sku, c.location)) <= OnHand(s', Slot(sku, c.location));
      }
    }
    if PostLeavesEnough(s, c) {
      forall x ensures 0 <= Allocated(s', x) <= OnHand(s', x) {
        assert 0 <= Allocated(s, x) <= OnHand(s, x);
        PostEffect(s, c.location, c.lines, id, x);
        assert x == Slot(x.sku, x.location);
        assert SumBy(c.lines, DeltaAt(x.sku)) >= -Available(s, Slot(x.sku, c.location));
      }
    }
  }

  lemma StepCovered(inv: C.Inventory, step: Step)
    requires Covered(inv.stock) && LevelsMatch(inv.stock) && Respects(inv, step)
    ensures Covered(Apply(inv, step).stock)
  {
    var s := inv.stock;
    match step
    case SaveProduct(sku, product) => SameTables(s, s.(products := s.products[sku := product]));
    case AdjustStep(sku, location, delta, reason) =>
      MoveCoveredExactlyWhen(s, Movement(sku, location, Adjustment, delta, AdjustmentReason(reason)));
    case ReceiptStep(e) => ReceiveCovered(s, e, e.lines);
    case TransferStep(e) => TransferCovered(s, e);
    case ReturnStep(e) => ReturnCovered(s, e.lines, e.returnId);
    case ReserveStep(sku, location, quantity, txn) => ReserveCoveredExactlyWhen(s, sku, location, quantity, txn);
    case ReleaseStep(id) => ReleaseCovered(s, id);
    case SoldStep(e) => SoldCovered(s, e.lines, e.transactionId);
    case PostStep(id) =>
      if C.PostOutcome(inv, id) == C.Done {
        PostCoveredExactlyWhen(inv, id);
      }
    case _ =>
  }

  ghost predicate RunRespects(steps: seq<Step>) {
    forall i :: 0 <= i < |steps| ==> Respects(Run(steps[..i]), steps[i])
  }

  /** In every run of respectful steps, no location ever promises more than it holds. */
  lemma {:induction false} AllocationsStayCovered(steps: seq<Step>)
    requires RunRespects(steps)
    ensures Covered(Run(steps).stock)
  {
    if steps != [] {
      var n := |steps| - 1;
      var init := steps[..n];
      assert forall i :: 0 <= i < n ==> init[..i] == steps[..i] && init[i] == steps[i];
      AllocationsStayCovered(init);
      LevelsAlwaysMatch(init);
      assert Respects(Run(steps[..n]), steps[n]);
      StepCovered(Run(init), steps[n]);
    }
  }
}
