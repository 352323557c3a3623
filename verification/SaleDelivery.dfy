/**
 A sale's event may reach Inventory late: other tills, receipts, transfers and
 counts come in between, and the bus repeats it as often as it likes.
 */
module SaleDelivery {
  import opened Sums
  import opened Stock
  import opened InventoryRuns
  import opened Checkout
  import opened CheckoutSaga
  import C = StockCounts
  import E = Events

  /** Rows stay, and the reservations in the range are untouched. */
  ghost predicate Untouched(s: Stock, s': Stock, base: nat, n: nat) {
    && s.levels.Keys <= s'.levels.Keys && |s.reservations| <= |s'.reservations|
    && forall k :: base <= k < base + n && k < |s.reservations| ==> s'.reservations[k] == s.reservations[k]
  }

  /** The step neither releases nor sells a reservation in the range. */
  ghost predicate Spares(step: Step, base: nat, n: nat) {
    match step
    case ReleaseStep(id) => !(base <= id < base + n)
    case SoldStep(e) => forall l :: l in e.lines ==> !(base <= l.reservation < base + n)
    case _ => true
  }

  lemma UntouchedTransitive(a: Stock, b: Stock, c: Stock, base: nat, n: nat)
    requires Untouched(a, b, base, n) && Untouched(b, c, base, n)
    ensures Untouched(a, c, base, n)
  {
  }

  lemma {:induction false} ReceiptsSpare(s: Stock, e: E.GoodsReceived, lines: seq<E.ReceivedLine>)
    ensures s.levels.Keys <= ReceiveLines(s, e, lines).levels.Keys
    ensures ReceiveLines(s, e, lines).reservations == s.reservations
  {
    if lines != [] {
      ReceiptsSpare(s, e, lines[..|lines| - 1]);
    }
  }

  lemma {:induction false} ReturnsSpare(s: Stock, lines: seq<E.ReturnedLine>, returnId: string)
    ensures s.levels.Keys <= ReturnLines(s, lines, returnId).levels.Keys
    ensures ReturnLines(s, lines, returnId).reservations == s.reservations
  {
    if lines != [] {
      ReturnsSpare(s, lines[..|lines| - 1], returnId);
    }
  }

  lemma {:induction false} PostsSpare(s: Stock, location: string, lines: seq<C.CountLine>, id: nat)
    requires C.PostLines(s, location, lines, id).Some?
    ensures s.levels.Keys <= C.PostLines(s, location, lines, id).value.levels.Keys
    ensures C.PostLines(s, location, lines, id).value.reservations == s.reservations
  {
    if lines != [] {
      PostsSpare(s, location, lines[..|lines| - 1], id);
    }
  }

  lemma {:induction false} SalesSpare(s: Stock, lines: seq<E.SoldLine>, txn: string, base: nat, n: nat)
    requires forall l :: l in lines ==> !(base <= l.reservation < base + n)
    ensures Untouched(s, ConsumeLines(s, lines, txn), base, n)
  {
    if lines != [] {
      var init, last := lines[..|lines| - 1], lines[|lines| - 1];
      assert last in lines && forall l :: l in init ==> l in lines;
      SalesSpare(s, init, txn, base, n);
      UntouchedTransitive(s, ConsumeLines(s, init, txn), ConsumeLines(s, lines, txn), base, n);
    }
  }

  lemma PostStepSpares(inv: C.Inventory, id: nat, base: nat, n: nat)
    ensures Untouched(inv.stock, C.Post(inv, id).stock, base, n)
  {
    if C.PostOutcome(inv, id) == C.Done {
      PostsSpare(inv.stock, inv.counts[id].location, inv.counts[id].lines, id);
    }
  }

  lemma TransferSpares(s: Stock, e: E.StockTransferred)
    ensures s.levels.Keys <= Transfer(s, e).levels.Keys && Transfer(s, e).reservations == s.reservations
  {
  }

  lemma ReserveSpares(s: Stock, sku: string, location: string, quantity: int, txn: string, base: nat, n: nat)
    ensures Untouched(s, Reserve(s, sku, location, quantity, txn), base, n)
  {
  }

  lemma ReleaseSpares(s: Stock, id: nat, base: nat, n: nat)
    requires !(base <= id < base + n)
    ensures Untouched(s, Release(s, id), base, n)
  {
  }

  lemma StepSpares(inv: C.Inventory, step: Step, base: nat, n: nat)
    requires Spares(step, base, n)
    ensures Untouched(inv.stock, Apply(inv, step).stock, base, n)
  {
    match step
    case ReceiptStep(e) => ReceiptsSpare(inv.stock, e, e.lines);
    case TransferStep(e) => TransferSpares(inv.stock, e);
    case ReturnStep(e) => ReturnsSpare(inv.stock, e.lines, e.returnId);
    case ReserveStep(sku, location, quantity, txn) => ReserveSpares(inv.stock, sku, location, quantity, txn, base, n);
    case ReleaseStep(id) => ReleaseSpares(inv.stock, id, base, n);
    case SoldStep(e) => SalesSpare(inv.stock, e.lines, e.transactionId, base, n);
    case PostStep(id) => PostStepSpares(inv, id, base, n);
    case _ =>
  }

  lemma {:induction false} RunSpares(inv: C.Inventory, steps: seq<Step>, base: nat, n: nat)
    requires forall i :: 0 <= i < |steps| ==> Spares(steps[i], base, n)
    ensures Untouched(inv.stock, RunFrom(inv, steps).stock, base, n)
  {
    if steps != [] {
      var init, last := steps[..|steps| - 1], steps[|steps| - 1];
      RunSpares(inv, init, base, n);
      StepSpares(RunFrom(inv, init), last, base, n);
      UntouchedTransitive(inv.stock, RunFrom(inv, init).stock, RunFrom(inv, steps).stock, base, n);
    }
  }

  lemma StillHolds(s: Stock, s': Stock, location: string, lines: seq<E.SoldLine>, base: nat)
    requires Holds(s, location, lines, base) && Untouched(s, s', base, |lines|)
    ensures Holds(s', location, lines, base)
  {
  }

  lemma HeldSaleSells(inv: C.Inventory, location: string, e: E.ItemSold, base: nat, slot: Slot)
    requires Holds(inv.stock, location, e.lines, base)
    ensures var sold, taken := Apply(inv, SoldStep(e)), SumBy(e.lines, Taken(location, slot));
            && OnHand(sold.stock, slot) == OnHand(inv.stock, slot) - taken
            && Allocated(sold.stock, slot) == Allocated(inv.stock, slot) - taken
  {
    FirstDelivery(inv.stock, location, e.lines, e.transactionId, base, slot);
  }

  /** Delivering a held sale settles it: from then on it changes nothing, however the run goes on. */
  lemma HeldSaleSettles(inv: C.Inventory, location: string, e: E.ItemSold, base: nat, more: seq<Step>)
    requires Holds(inv.stock, location, e.lines, base)
    ensures var later := RunFrom(Apply(inv, SoldStep(e)), more).stock;
            ConsumeLines(later, e.lines, e.transactionId) == later
    ensures Apply(RunFrom(Apply(inv, SoldStep(e)), more), SoldStep(e)) == RunFrom(Apply(inv, SoldStep(e)), more)
  {
    var sold := Apply(inv, SoldStep(e));
    FirstDelivery(inv.stock, location, e.lines, e.transactionId, base, Slot("", ""));
    forall l | l in e.lines ensures !IsActive(sold.stock, l.reservation) && l.reservation < |sold.stock.reservations| {
      var i :| 0 <= i < |e.lines| && e.lines[i] == l;
    }
    LateRedelivery(sold, e, more);
  }

  /**
   However late an accepted sale is first delivered, and whatever happens in
   between that neither releases nor sells its own reservations, that delivery
   lowers on hand and allocated by exactly the cart, and every later one changes
   nothing.
   */
  lemma DelayedSaleSellsTheCart(s: Stock, cart: Cart, env: Environment, inv: C.Inventory, between: seq<Step>,
                                more: seq<Step>, slot: Slot)
    requires Outcome(s, cart, env).Ok? && inv.stock == AfterCheckout(s, cart, env)
    requires forall i :: 0 <= i < |between| ==> Spares(between[i], |s.reservations|, |cart.lines|)
    ensures var e, before := Outcome(s, cart, env).value.event, RunFrom(inv, between);
            var taken, sold := SumBy(cart.lines, CartQuantity(cart.location, slot)), Apply(before, SoldStep(e));
            && OnHand(sold.stock, slot) == OnHand(before.stock, slot) - taken
            && Allocated(sold.stock, slot) == Allocated(before.stock, slot) - taken
            && Apply(RunFrom(sold, more), SoldStep(e)) == RunFrom(sold, more)
  {
    var e, before, base := Outcome(s, cart, env).value.event, RunFrom(inv, between), |s.reservations|;
    AcceptedHoldsTheCart(s, cart, env, slot);
    RunSpares(inv, between, base, |cart.lines|);
    StillHolds(inv.stock, before.stock, cart.location, e.lines, base);
    HeldSaleSells(before, cart.location, e, base, slot);
    HeldSaleSettles(before, cart.location, e, base, more);
  }
}
