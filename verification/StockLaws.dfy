/** At-most-once movements, conservation of units, and what a return restores. */
module StockLaws {
  import opened Sums
  import opened Stock
  import opened InventoryRuns
  import C = StockCounts
  import E = Events

  // ---- Transfers and returns are applied at most once ----

  /** 1 on a movement of the kind with the reference. */
  function Logged(kind: MovementKind, ref: Reference): Movement -> int {
    (m: Movement) => if m.kind == kind && m.ref == ref then 1 else 0
  }

  function LoggedAt(ref: Reference, slot: Slot): Movement -> int {
    (m: Movement) => if m.ref == ref && Slot(m.sku, m.location) == slot then 1 else 0
  }

  function Units(sku: string, kind: MovementKind): Movement -> int {
    (m: Movement) => if m.sku == sku && m.kind == kind then m.delta else 0
  }

  predicate KindMatchesRef(m: Movement) {
    && (m.ref.TransferNumber? <==> m.kind == TransferOut || m.kind == TransferIn)
    && (m.ref.ReturnId? <==> m.kind == Return)
  }

  ghost predicate TransfersOnce(log: seq<Movement>) {
    forall n :: SumBy(log, Logged(TransferOut, TransferNumber(n))) == SumBy(log, Logged(TransferIn, TransferNumber(n)))
                <= 1
  }

  ghost predicate ReturnsOnce(log: seq<Movement>) {
    forall id, slot :: SumBy(log, LoggedAt(ReturnId(id), slot)) <= 1
  }

  /** What leaves one location on transfers arrives at others. */
  ghost predicate TransfersCancel(log: seq<Movement>) {
    forall sku :: SumBy(log, Units(sku, TransferOut)) + SumBy(log, Units(sku, TransferIn)) == 0
  }

  ghost predicate LogInv(log: seq<Movement>) {
    && (forall m :: m in log ==> KindMatchesRef(m))
    && TransfersOnce(log) && ReturnsOnce(log) && TransfersCancel(log)
  }

  /** How one more movement changes the figures of a transfer, a return and a product. */
  lemma FiguresAfter(log: seq<Movement>, m: Movement, n: string, slot: Slot)
    ensures SumBy(log + [m], Logged(TransferOut, TransferNumber(n))) ==
            SumBy(log, Logged(TransferOut, TransferNumber(n))) + Logged(TransferOut, TransferNumber(n))(m)
    ensures SumBy(log + [m], Logged(TransferIn, TransferNumber(n))) ==
            SumBy(log, Logged(TransferIn, TransferNumber(n))) + Logged(TransferIn, TransferNumber(n))(m)
    ensures SumBy(log + [m], LoggedAt(ReturnId(n), slot)) ==
            SumBy(log, LoggedAt(ReturnId(n), slot)) + LoggedAt(ReturnId(n), slot)(m)
    ensures SumBy(log + [m], Units(n, TransferOut)) == SumBy(log, Units(n, TransferOut)) + Units(n, TransferOut)(m)
    ensures SumBy(log + [m], Units(n, TransferIn)) == SumBy(log, Units(n, TransferIn)) + Units(n, TransferIn)(m)
  {
    SumAppend(log, m, Logged(TransferOut, TransferNumber(n)));
    SumAppend(log, m, Logged(TransferIn, TransferNumber(n)));
    SumAppend(log, m, LoggedAt(ReturnId(n), slot));
    SumAppend(log, m, Units(n, TransferOut));
    SumAppend(log, m, Units(n, TransferIn));
  }

  lemma PlainMovement(log: seq<Movement>, m: Movement)
    requires LogInv(log) && KindMatchesRef(m) && !m.ref.TransferNumber?
    requires m.ref.ReturnId? ==> !HasReturn(log, m.ref.id, Slot(m.sku, m.location))
    ensures LogInv(log + [m])
  {
    if m.ref.ReturnId? {
      SumZero(log, LoggedAt(m.ref, Slot(m.sku, m.location)));
    }
    forall n ensures SumBy(log + [m], Logged(TransferOut, TransferNumber(n))) ==
                     SumBy(log + [m], Logged(TransferIn, TransferNumber(n))) <= 1
    {
      FiguresAfter(log, m, n, Slot("", ""));
    }
    forall id, slot ensures SumBy(log + [m], LoggedAt(ReturnId(id), slot)) <= 1 {
      FiguresAfter(log, m, id, slot);
    }
    forall sku ensures SumBy(log + [m], Units(sku, TransferOut)) + SumBy(log + [m], Units(sku, TransferIn)) == 0 {
      FiguresAfter(log, m, sku, Slot("", ""));
    }
  }

  lemma TransferMovements(log: seq<Movement>, out: Movement, into: Movement)
    requires LogInv(log) && out.kind == TransferOut && into.kind == TransferIn
    requires out.ref == into.ref && out.ref.TransferNumber? && !HasTransfer(log, out.ref.number)
    requires out.sku == into.sku && out.delta == -into.delta
    ensures LogInv(log + [out] + [into])
  {
    var log1 := log + [out];
    var log2 := log1 + [into];
    SumZero(log, Logged(TransferOut, out.ref));
    forall n ensures SumBy(log2, Logged(TransferOut, TransferNumber(n))) ==
                     SumBy(log2, Logged(TransferIn, TransferNumber(n))) <= 1
    {
      FiguresAfter(log, out, n, Slot("", ""));
      FiguresAfter(log1, into, n, Slot("", ""));
    }
    forall id, slot ensures SumBy(log2, LoggedAt(ReturnId(id), slot)) <= 1 {
      FiguresAfter(log, out, id, slot);
      FiguresAfter(log1, into, id, slot);
    }
    forall sku ensures SumBy(log2, Units(sku, TransferOut)) + SumBy(log2, Units(sku, TransferIn)) == 0 {
      FiguresAfter(log, out, sku, Slot("", ""));
      FiguresAfter(log1, into, sku, Slot("", ""));
    }
  }

  lemma {:induction false} ReceiveLog(s: Stock, e: E.GoodsReceived, lines: seq<E.ReceivedLine>)
    requires LogInv(s.log)
    ensures LogInv(ReceiveLines(s, e, lines).log)
  {
    if lines != [] {
      var init, last := lines[..|lines| - 1], lines[|lines| - 1];
      ReceiveLog(s, e, init);
      if Sellable(last) {
        PlainMovement(ReceiveLines(s, e, init).log,
                      Movement(last.sku, e.location, Receipt, last.received, Grn(e.grnNumber)));
      }
    }
  }

  lemma {:induction false} ReturnLog(s: Stock, lines: seq<E.ReturnedLine>, returnId: string)
    requires LogInv(s.log)
    ensures LogInv(ReturnLines(s, lines, returnId).log)
  {
    if lines != [] {
      var init, last := lines[..|lines| - 1], lines[|lines| - 1];
      ReturnLog(s, init, returnId);
      var s1 := ReturnLines(s, init, returnId);
      if last.sku in s1.products && !HasReturn(s1.log, returnId, Slot(last.sku, last.location)) {
        PlainMovement(s1.log, Movement(last.sku, last.location, Return, last.quantity, ReturnId(returnId)));
      }
    }
  }

  lemma {:induction false} ConsumeLog(s: Stock, lines: seq<E.SoldLine>, txn: string)
    requires LogInv(s.log)
    ensures LogInv(ConsumeLines(s, lines, txn).log)
  {
    if lines != [] {
      var init, last := lines[..|lines| - 1], lines[|lines| - 1];
      ConsumeLog(s, init, txn);
      var s1 := ConsumeLines(s, init, txn);
      if IsActive(s1, last.reservation) {
        var r := s1.reservations[last.reservation];
        PlainMovement(s1.log, Movement(r.sku, r.location, Sale, -last.quantity, PosTransaction(txn)));
      }
    }
  }

  lemma {:induction false} PostLog(s: Stock, location: string, lines: seq<C.CountLine>, id: nat)
    requires LogInv(s.log) && C.PostLines(s, location, lines, id).Some?
    ensures LogInv(C.PostLines(s, location, lines, id).value.log)
  {
    if lines != [] {
      var init, last := lines[..|lines| - 1], lines[|lines| - 1];
      PostLog(s, location, init, id);
      if C.Changed(last) {
        PlainMovement(C.PostLines(s, location, init, id).value.log,
                      Movement(last.sku, location, Adjustment, C.Delta(last), CountNumber(id)));
      }
    }
  }

  lemma TransferLogs(s: Stock, e: E.StockTransferred)
    requires !HasTransfer(s.log, e.transferNumber) && e.sku in s.products
    ensures var ref := TransferNumber(e.transferNumber);
            Transfer(s, e).log == s.log + [Movement(e.sku, e.fromLocation, TransferOut, -e.quantity, ref)]
                                  + [Movement(e.sku, e.toLocation, TransferIn, e.quantity, ref)]
  {
  }

  lemma TransferLog(s: Stock, e: E.StockTransferred)
    requires LogInv(s.log)
    ensures LogInv(Transfer(s, e).log)
  {
    if !HasTransfer(s.log, e.transferNumber) && e.sku in s.products {
      var ref := TransferNumber(e.transferNumber);
      TransferLogs(s, e);
      TransferMovements(s.log, Movement(e.sku, e.fromLocation, TransferOut, -e.quantity, ref),
                        Movement(e.sku, e.toLocation, TransferIn, e.quantity, ref));
    }
  }

  lemma AdjustLog(s: Stock, sku: string, location: string, delta: int, reason: string)
    requires LogInv(s.log)
    ensures LogInv(Adjust(s, sku, location, delta, reason).log)
  {
    PlainMovement(s.log, Movement(sku, location, Adjustment, delta, AdjustmentReason(reason)));
  }

  lemma ReserveLog(s: Stock, sku: string, location: string, quantity: int, txn: string)
    requires LogInv(s.log)
    ensures LogInv(Reserve(s, sku, location, quantity, txn).log)
  {
    PlainMovement(s.log, Movement(sku, location, Reserving, quantity, PosTransaction(txn)));
  }

  lemma ReleaseLog(s: Stock, id: nat)
    requires LogInv(s.log)
    ensures LogInv(Release(s, id).log)
  {
    if IsActive(s, id) {
      var r := s.reservations[id];
      PlainMovement(s.log, Movement(r.sku, r.location, Releasing, -r.quantity, ReservationId(id)));
    }
  }

  lemma PostStepLog(inv: C.Inventory, id: nat)
    requires LogInv(inv.stock.log)
    ensures LogInv(C.Post(inv, id).stock.log)
  {
    if C.PostOutcome(inv, id) == C.Done {
      PostLog(inv.stock, inv.counts[id].location, inv.counts[id].lines, id);
    }
  }

  lemma StepKeepsLog(inv: C.Inventory, step: Step)
    requires LogInv(inv.stock.log)
    ensures LogInv(Apply(inv, step).stock.log)
  {
    var s := inv.stock;
    match step
    case AdjustStep(sku, location, delta, reason) => AdjustLog(s, sku, location, delta, reason);
    case ReceiptStep(e) => ReceiveLog(s, e, e.lines);
    case TransferStep(e) => TransferLog(s, e);
    case ReturnStep(e) => ReturnLog(s, e.lines, e.returnId);
    case ReserveStep(sku, location, quantity, txn) => ReserveLog(s, sku, location, quantity, txn);
    case ReleaseStep(id) => ReleaseLog(s, id);
    case SoldStep(e) => ConsumeLog(s, e.lines, e.transactionId);
    case PostStep(id) => PostStepLog(inv, id);
    case _ =>
  }

  /**
   However often and in whatever order events arrive, each transfer number moves
   stock out once and in once or not at all, and each return restores each
   product and location at most once.
   */
  lemma {:induction false} MovementsAtMostOnce(steps: seq<Step>)
    ensures LogInv(Run(steps).stock.log)
  {
    if steps != [] {
      var init := steps[..|steps| - 1];
      MovementsAtMostOnce(init);
      StepKeepsLog(Run(init), steps[|steps| - 1]);
    }
  }

  // ---- Units are conserved ----

  function LocationOf(): Movement -> string {
    (m: Movement) => m.location
  }

  /** What a movement adds to the product's stock on hand, wherever it is. */
  function ProductDelta(sku: string): Movement -> int {
    (m: Movement) => if m.sku == sku && MovesStock(m.kind) then m.delta else 0
  }

  function OnHandAt(s: Stock, sku: string): string -> int {
    (location: string) => OnHand(s, Slot(sku, location))
  }

  lemma {:induction false} DeltasByKind(log: seq<Movement>, sku: string)
    ensures SumBy(log, ProductDelta(sku)) ==
            SumBy(log, Units(sku, Receipt)) + SumBy(log, Units(sku, Return)) + SumBy(log, Units(sku, Adjustment))
            + SumBy(log, Units(sku, Sale)) + SumBy(log, Units(sku, TransferOut)) + SumBy(log, Units(sku, TransferIn))
  {
    if log != [] {
      DeltasByKind(log[..|log| - 1], sku);
    }
  }

  /**
   A product's total over all locations is its receipts, returns and adjustments
   less its sales; transfers contribute nothing.
   */
  lemma UnitsAreConserved(steps: seq<Step>, sku: string, locations: seq<string>)
    requires Distinct(locations)
    requires forall slot :: slot in Run(steps).stock.levels && slot.sku == sku ==> slot.location in locations
    ensures var s := Run(steps).stock;
            SumBy(locations, OnHandAt(s, sku)) ==
            SumBy(s.log, Units(sku, Receipt)) + SumBy(s.log, Units(sku, Return)) + SumBy(s.log, Units(sku, Adjustment))
            + SumBy(s.log, Units(sku, Sale))
  {
    var s := Run(steps).stock;
    LevelsAlwaysMatch(steps);
    MovementsAtMostOnce(steps);
    var own := OfProduct(s.log, sku);
    OfProductSum(s.log, sku, ProductDelta(sku));
    Partition(own, locations, LocationOf(), ProductDelta(sku));
    forall location | location in locations
      ensures OnHandAt(s, sku)(location) == GroupSum(own, LocationOf(), ProductDelta(sku))(location)
    {
      assert SlotMatches(s, Slot(sku, location));
      OfProductSum(s.log, sku, Only(LocationOf(), location, ProductDelta(sku)));
      SumSame(s.log, OnHandDelta(Slot(sku, location)), Only(LocationOf(), location, ProductDelta(sku)));
    }
    SumSame(locations, OnHandAt(s, sku), GroupSum(own, LocationOf(), ProductDelta(sku)));
    DeltasByKind(s.log, sku);
    assert SumBy(s.log, Units(sku, TransferOut)) + SumBy(s.log, Units(sku, TransferIn)) == 0;
  }

  function OfProduct(log: seq<Movement>, sku: string): (own: seq<Movement>)
    ensures forall m :: m in own ==> m in log && m.sku == sku
  {
    if log == [] then []
    else
      var init, last := OfProduct(log[..|log| - 1], sku), log[|log| - 1];
      if last.sku == sku then init + [last] else init
  }

  lemma {:induction false} OfProductSum(log: seq<Movement>, sku: string, f: Movement -> int)
    requires forall m: Movement :: m.sku != sku ==> f(m) == 0
    ensures SumBy(OfProduct(log, sku), f) == SumBy(log, f)
  {
    if log != [] {
      var init, last := log[..|log| - 1], log[|log| - 1];
      OfProductSum(init, sku, f);
      SumAppend(OfProduct(init, sku), last, f);
    }
  }

  // ---- What an ItemReturned event restores ----

  function ReturnedAt(slot: Slot): E.ReturnedLine -> int {
    (l: E.ReturnedLine) => if Slot(l.sku, l.location) == slot then l.quantity else 0
  }

  /** The quantity of the first line for the slot, or nothing. */
  function FirstReturned(lines: seq<E.ReturnedLine>, slot: Slot): int {
    if lines == [] then 0
    else if Slot(lines[0].sku, lines[0].location) == slot then lines[0].quantity
    else FirstReturned(lines[1..], slot)
  }

  ghost predicate Mentions(lines: seq<E.ReturnedLine>, slot: Slot) {
    exists i :: 0 <= i < |lines| && Slot(lines[i].sku, lines[i].location) == slot
  }

  lemma MentionsSnoc(lines: seq<E.ReturnedLine>, last: E.ReturnedLine, slot: Slot)
    ensures Mentions(lines + [last], slot) <==> Mentions(lines, slot) || Slot(last.sku, last.location) == slot
  {
    var all := lines + [last];
    assert all[|lines|] == last && forall i :: 0 <= i < |lines| ==> all[i] == lines[i];
  }

  lemma {:induction false} UnmentionedIsZero(lines: seq<E.ReturnedLine>, slot: Slot)
    requires !Mentions(lines, slot)
    ensures FirstReturned(lines, slot) == 0
  {
    if lines != [] {
      assert forall i :: 0 <= i < |lines[1..]| ==> lines[1..][i] == lines[i + 1];
      UnmentionedIsZero(lines[1..], slot);
    }
  }

  /** The same figure read from the last line backwards. */
  lemma {:induction false} FirstReturnedSnoc(lines: seq<E.ReturnedLine>, last: E.ReturnedLine, slot: Slot)
    ensures FirstReturned(lines + [last], slot) ==
            if Mentions(lines, slot) then FirstReturned(lines, slot)
            else if Slot(last.sku, last.location) == slot then last.quantity else 0
  {
    var all := lines + [last];
    if lines == [] {
      assert all[1..] == [];
    } else {
      assert all[1..] == lines[1..] + [last];
      FirstReturnedSnoc(lines[1..], last, slot);
      assert forall i :: 0 <= i < |lines[1..]| ==> lines[1..][i] == lines[i + 1];
      assert forall i :: 1 <= i < |lines| ==> lines[i] == lines[1..][i - 1];
    }
  }

  lemma MoveOnHand(s: Stock, m: Movement, slot: Slot)
    ensures OnHand(Move(s, m), slot) == OnHand(s, slot) + if Slot(m.sku, m.location) == slot then m.delta else 0
    ensures Allocated(Move(s, m), slot) == Allocated(s, slot)
  {
  }

  lemma HasReturnAppend(log: seq<Movement>, m: Movement, returnId: string, slot: Slot)
    ensures HasReturn(log + [m], returnId, slot) <==>
            HasReturn(log, returnId, slot) || (m.ref == ReturnId(returnId) && Slot(m.sku, m.location) == slot)
  {
    var longer := log + [m];
    if HasReturn(log, returnId, slot) {
      var i :| 0 <= i < |log| && log[i].ref == ReturnId(returnId) && Slot(log[i].sku, log[i].location) == slot;
      assert longer[i] == log[i];
    }
    assert longer[|log|] == m;
  }

  /**
   A return seen for the first time restores, at each known product and location,
   the quantity of its first line there and nothing for a second one.
   */
  lemma {:induction false} ReturnRestores(s: Stock, lines: seq<E.ReturnedLine>, returnId: string, slot: Slot)
    requires slot.sku in s.products && !HasReturn(s.log, returnId, slot)
    ensures var s' := ReturnLines(s, lines, returnId);
            && s'.products == s.products
            && OnHand(s', slot) == OnHand(s, slot) + FirstReturned(lines, slot)
            && Allocated(s', slot) == Allocated(s, slot)
            && (HasReturn(s'.log, returnId, slot) <==> Mentions(lines, slot))
  {
    if lines != [] {
      var init, last := lines[..|lines| - 1], lines[|lines| - 1];
      assert lines == init + [last];
      var s1 := ReturnLines(s, init, returnId);
      var m := Movement(last.sku, last.location, Return, last.quantity, ReturnId(returnId));
      ReturnRestores(s, init, returnId, slot);
      FirstReturnedSnoc(init, last, slot);
      MentionsSnoc(init, last, slot);
      if !Mentions(init, slot) {
        UnmentionedIsZero(init, slot);
      }
      MoveOnHand(s1, m, slot);
      HasReturnAppend(s1.log, m, returnId, slot);
    }
  }

  /** The slot appears on no two lines. */
  ghost predicate OneLineEach(lines: seq<E.ReturnedLine>, slot: Slot) {
    forall i, j :: 0 <= i < j < |lines| ==>
                     !(Slot(lines[i].sku, lines[i].location) == slot && Slot(lines[j].sku, lines[j].location) == slot)
  }

  lemma {:induction false} OneLineSums(lines: seq<E.ReturnedLine>, slot: Slot)
    requires forall l :: l in lines ==> l.quantity >= 1
    ensures FirstReturned(lines, slot) <= SumBy(lines, ReturnedAt(slot))
    ensures FirstReturned(lines, slot) == SumBy(lines, ReturnedAt(slot)) <==> OneLineEach(lines, slot)
  {
    if lines != [] {
      var rest := lines[1..];
      SumHead(lines, ReturnedAt(slot));
      OneLineSums(rest, slot);
      SumNonNegative(rest, ReturnedAt(slot));
      assert forall i :: 0 <= i < |rest| ==> rest[i] == lines[i + 1];
      if Slot(lines[0].sku, lines[0].location) == slot {
        if exists i :: 0 <= i < |rest| && Slot(rest[i].sku, rest[i].location) == slot {
          var i :| 0 <= i < |rest| && Slot(rest[i].sku, rest[i].location) == slot;
          assert rest[i] in rest && ReturnedAt(slot)(rest[i]) >= 1;
          assert !OneLineEach(lines, slot);
        } else {
          SumZero(rest, ReturnedAt(slot));
        }
      }
    }
  }

  /**
   A first delivery restores a product's whole returned quantity exactly when the
   return does not list that product and location twice.
   */
  lemma ReturnRestoresAllExactlyWhen(s: Stock, e: E.ItemReturned, slot: Slot)
    requires slot.sku in s.products && !HasReturn(s.log, e.returnId, slot)
    requires forall l :: l in e.lines ==> l.quantity >= 1
    ensures OnHand(ReturnLines(s, e.lines, e.returnId), slot) == OnHand(s, slot) + SumBy(e.lines, ReturnedAt(slot))
            <==> OneLineEach(e.lines, slot)
  {
    ReturnRestores(s, e.lines, e.returnId, slot);
    OneLineSums(e.lines, slot);
  }
}
