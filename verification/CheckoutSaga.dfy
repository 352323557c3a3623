/** What a checkout does to stock across services, and that what it sells can be booked. */
module CheckoutSaga {
  import opened Wrappers
  import opened Sums
  import opened Money
  import opened Pricing
  import opened Stock
  import opened InventoryRuns
  import opened StockBounds
  import opened Checkout
  import E = Events
  import C = StockCounts
  import P = Postings
  import PP = PostingProofs
  import SA = SalesAccounting

  /** What the lines take from a slot. */
  function Taken(location: string, slot: Slot): E.SoldLine -> int {
    (l: E.SoldLine) => if Slot(l.sku, location) == slot then l.quantity else 0
  }

  /** The lines' reservations sit at the end of the table, active, in order, on existing rows. */
  ghost predicate Holds(s: Stock, location: string, reserved: seq<E.SoldLine>, base: nat) {
    && base + |reserved| <= |s.reservations|
    && forall k :: 0 <= k < |reserved| ==>
                     && reserved[k].reservation == base + k
                     && s.reservations[base + k] == Reservation(reserved[k].sku, location, reserved[k].quantity, Active)
                     && Slot(reserved[k].sku, location) in s.levels
  }

  // ---- The reserve loop ----

  lemma ReserveEffect(s: Stock, sku: string, location: string, quantity: int, txn: string, slot: Slot)
    ensures var s' := Reserve(s, sku, location, quantity, txn);
            var granted := ReserveResult(s, sku, location, quantity).Reserved?;
            && OnHand(s', slot) == OnHand(s, slot)
            && Allocated(s', slot) ==
               Allocated(s, slot) + (if granted && Slot(sku, location) == slot then quantity else 0)
            && s'.products == s.products
            && s.levels.Keys <= s'.levels.Keys
            && s'.reservations == s.reservations +
                                  (if granted then [Reservation(sku, location, quantity, Active)] else [])
            && (granted ==> Slot(sku, location) in s'.levels)
  {
  }

  /** The line this call reserves although its reply is lost. */
  function LostLine(p: Progress, cart: Cart, line: CartLine, env: Environment): Option<CartLine> {
    if env.price(line.sku).Some? && env.calls(|p.reserved|) == ReplyLost
       && ReserveResult(p.stock, line.sku, cart.location, line.quantity).Reserved?
    then Some(line) else None
  }

  /** The line the loop leaves reserved without knowing; at most the one that failed. */
  function LostIn(s: Stock, cart: Cart, lines: seq<CartLine>, env: Environment): Option<CartLine> {
    if lines == [] then None
    else
      var init := lines[..|lines| - 1];
      var p := ReserveAll(s, cart, init, env);
      if p.failure.Some? then LostIn(s, cart, init, env) else LostLine(p, cart, lines[|lines| - 1], env)
  }

  function LostQuantity(lost: Option<CartLine>, location: string, slot: Slot): int {
    if lost.Some? && Slot(lost.value.sku, location) == slot then lost.value.quantity else 0
  }

  /** A reserved line joins the others at the end of the table. */
  lemma HoldsOneMore(s: Stock, s': Stock, location: string, reserved: seq<E.SoldLine>, line: E.SoldLine, base: nat)
    requires Holds(s, location, reserved, base) && |s.reservations| == base + |reserved|
    requires s.levels.Keys <= s'.levels.Keys && Slot(line.sku, location) in s'.levels
    requires s'.reservations == s.reservations + [Reservation(line.sku, location, line.quantity, Active)]
    requires line.reservation == |s.reservations|
    ensures Holds(s', location, reserved + [line], base)
  {
  }

  lemma StaysHeld(s: Stock, s': Stock, location: string, reserved: seq<E.SoldLine>, base: nat)
    requires Holds(s, location, reserved, base)
    requires s.levels.Keys <= s'.levels.Keys && s.reservations <= s'.reservations
    ensures Holds(s', location, reserved, base)
  {
  }

  lemma ReserveLineHolds(p: Progress, cart: Cart, line: CartLine, env: Environment, base: nat)
    requires p.failure.None? && Holds(p.stock, cart.location, p.reserved, base)
    requires |p.stock.reservations| == base + |p.reserved|
    ensures var p' := ReserveLine(p, cart, line, env);
            && Holds(p'.stock, cart.location, p'.reserved, base)
            && (p'.failure.None? ==> |p'.stock.reservations| == base + |p'.reserved|)
  {
    var p' := ReserveLine(p, cart, line, env);
    ReserveEffect(p.stock, line.sku, cart.location, line.quantity, cart.transactionId, Slot(line.sku, cart.location));
    if p'.failure.None? {
      HoldsOneMore(p.stock, p'.stock, cart.location, p.reserved, p'.reserved[|p.reserved|], base);
    } else {
      StaysHeld(p.stock, p'.stock, cart.location, p.reserved, base);
    }
  }

  lemma ReserveLineFigures(p: Progress, cart: Cart, line: CartLine, env: Environment, slot: Slot)
    requires p.failure.None?
    ensures var p' := ReserveLine(p, cart, line, env);
            && OnHand(p'.stock, slot) == OnHand(p.stock, slot)
            && Allocated(p'.stock, slot) - SumBy(p'.reserved, Taken(cart.location, slot)) ==
               Allocated(p.stock, slot) - SumBy(p.reserved, Taken(cart.location, slot))
               + LostQuantity(LostLine(p, cart, line, env), cart.location, slot)
            && (p'.failure.None? ==> LostLine(p, cart, line, env).None?)
  {
    var p' := ReserveLine(p, cart, line, env);
    ReserveEffect(p.stock, line.sku, cart.location, line.quantity, cart.transactionId, slot);
    if p'.failure.None? {
      SumAppend(p.reserved, p'.reserved[|p.reserved|], Taken(cart.location, slot));
    }
  }

  lemma {:induction false} ReserveAllEffect(s: Stock, cart: Cart, lines: seq<CartLine>, env: Environment, slot: Slot)
    ensures var p, lost := ReserveAll(s, cart, lines, env), LostIn(s, cart, lines, env);
            && OnHand(p.stock, slot) == OnHand(s, slot)
            && Allocated(p.stock, slot) == Allocated(s, slot) + SumBy(p.reserved, Taken(cart.location, slot))
                                           + LostQuantity(lost, cart.location, slot)
            && (p.failure.None? ==> lost.None? && |p.stock.reservations| == |s.reservations| + |p.reserved|)
            && Holds(p.stock, cart.location, p.reserved, |s.reservations|)
  {
    if lines != [] {
      var init, line := lines[..|lines| - 1], lines[|lines| - 1];
      ReserveAllEffect(s, cart, init, env, slot);
      var p := ReserveAll(s, cart, init, env);
      if p.failure.None? {
        ReserveLineHolds(p, cart, line, env, |s.reservations|);
        ReserveLineFigures(p, cart, line, env, slot);
      }
    }
  }

  lemma {:induction false} LostIsInCart(s: Stock, cart: Cart, lines: seq<CartLine>, env: Environment)
    ensures LostIn(s, cart, lines, env).Some? ==> LostIn(s, cart, lines, env).value in lines
  {
    if lines != [] {
      LostIsInCart(s, cart, lines[..|lines| - 1], env);
    }
  }

  /** A line joins what is reserved unless it fails. */
  lemma OneMoreReserved(p: Progress, cart: Cart, line: CartLine, env: Environment)
    requires p.failure.None?
    ensures var p' := ReserveLine(p, cart, line, env);
            if p'.failure.Some? then p'.reserved == p.reserved
            else
              exists last: E.SoldLine :: last.sku == line.sku && last.quantity == line.quantity
                                         && p'.reserved == p.reserved + [last]
  {
    var p' := ReserveLine(p, cart, line, env);
    if p'.failure.None? {
      assert p'.reserved == p.reserved + [p'.reserved[|p.reserved|]];
    }
  }

  /** What is reserved is the first lines of the cart; all of them unless a line failed. */
  lemma {:induction false} ReservedIsPrefix(s: Stock, cart: Cart, lines: seq<CartLine>, env: Environment)
    ensures var p := ReserveAll(s, cart, lines, env);
            && |p.reserved| <= |lines| && (p.failure.None? ==> |p.reserved| == |lines|)
            && forall k :: 0 <= k < |p.reserved| ==>
                             p.reserved[k].sku == lines[k].sku && p.reserved[k].quantity == lines[k].quantity
  {
    if lines != [] {
      var init, line := lines[..|lines| - 1], lines[|lines| - 1];
      ReservedIsPrefix(s, cart, init, env);
      var p := ReserveAll(s, cart, init, env);
      if p.failure.None? {
        OneMoreReserved(p, cart, line, env);
      }
    }
  }

  // ---- Compensation ----

  /** What the releases that fail leave allocated. */
  function Leaked(reserved: seq<E.SoldLine>, releases: nat -> bool, location: string, slot: Slot): int {
    if reserved == [] then 0
    else
      var n := |reserved| - 1;
      Leaked(reserved[..n], releases, location, slot) + if releases(n) then 0 else Taken(location, slot)(reserved[n])
  }

  lemma {:induction false} ReleaseAllEffect(s: Stock, location: string, reserved: seq<E.SoldLine>,
                                            releases: nat -> bool, base: nat, slot: Slot)
    requires Holds(s, location, reserved, base)
    ensures var s' := ReleaseAll(s, reserved, releases);
            && OnHand(s', slot) == OnHand(s, slot)
            && Allocated(s', slot) == Allocated(s, slot) - SumBy(reserved, Taken(location, slot))
                                      + Leaked(reserved, releases, location, slot)
            && s'.levels.Keys == s.levels.Keys && |s'.reservations| == |s.reservations|
            && forall k :: base + |reserved| <= k < |s.reservations| ==> s'.reservations[k] == s.reservations[k]
  {
    if reserved != [] {
      var n := |reserved| - 1;
      var init := reserved[..n];
      assert forall k :: 0 <= k < n ==> init[k] == reserved[k];
      ReleaseAllEffect(s, location, init, releases, base, slot);
      var s1 := ReleaseAll(s, init, releases);
      assert s1.reservations[base + n] == s.reservations[base + n];
    }
  }

  /**
   A refused checkout never changes what is on hand, and leaves allocated exactly
   what the releases that failed still hold and what a lost reply reserved.
   */
  lemma RefusedCheckoutCompensates(s: Stock, cart: Cart, env: Environment, slot: Slot)
    requires Outcome(s, cart, env).Err?
    ensures var s', reserved := AfterCheckout(s, cart, env), ReserveAll(s, cart, cart.lines, env).reserved;
            && OnHand(s', slot) == OnHand(s, slot)
            && Allocated(s', slot) == Allocated(s, slot) + Leaked(reserved, env.releases, cart.location, slot)
                                      + LostQuantity(LostIn(s, cart, cart.lines, env), cart.location, slot)
  {
    var p := ReserveAll(s, cart, cart.lines, env);
    ReserveAllEffect(s, cart, cart.lines, env, slot);
    ReservedIsPrefix(s, cart, cart.lines, env);
    ReleaseAllEffect(p.stock, cart.location, p.reserved, env.releases, |s.reservations|, slot);
  }

  lemma {:induction false} LeaksNothing(reserved: seq<E.SoldLine>, releases: nat -> bool, location: string, slot: Slot)
    requires forall k :: 0 <= k < |reserved| ==> releases(k)
    ensures Leaked(reserved, releases, location, slot) == 0
  {
    if reserved != [] {
      LeaksNothing(reserved[..|reserved| - 1], releases, location, slot);
    }
  }

  /** A failed release leaves its own slot short. */
  lemma {:induction false} LeaksSomewhere(reserved: seq<E.SoldLine>, releases: nat -> bool, location: string, k: nat)
    requires forall i :: 0 <= i < |reserved| ==> reserved[i].quantity >= 1
    requires k < |reserved| && !releases(k)
    ensures forall slot :: Leaked(reserved, releases, location, slot) >= 0
    ensures Leaked(reserved, releases, location, Slot(reserved[k].sku, location)) >= 1
  {
    var n := |reserved| - 1;
    var init := reserved[..n];
    LeaksNonNegative(init, releases, location);
    if k < n {
      LeaksSomewhere(init, releases, location, k);
    }
  }

  lemma {:induction false} LeaksNonNegative(reserved: seq<E.SoldLine>, releases: nat -> bool, location: string)
    requires forall i :: 0 <= i < |reserved| ==> reserved[i].quantity >= 1
    ensures forall slot :: Leaked(reserved, releases, location, slot) >= 0
  {
    if reserved != [] {
      LeaksNonNegative(reserved[..|reserved| - 1], releases, location);
    }
  }

  ghost predicate SameFigures(s: Stock, s': Stock) {
    forall slot :: OnHand(s', slot) == OnHand(s, slot) && Allocated(s', slot) == Allocated(s, slot)
  }

  /**
   A refused checkout leaves every figure as it was exactly when every release
   gets through and no reservation was made whose reply was lost.
   */
  lemma RefusedCheckoutRestoresExactlyWhen(s: Stock, cart: Cart, env: Environment)
    requires Outcome(s, cart, env).Err? && forall l :: l in cart.lines ==> l.quantity >= 1
    ensures SameFigures(s, AfterCheckout(s, cart, env)) <==>
            && LostIn(s, cart, cart.lines, env).None?
            && forall k :: 0 <= k < |ReserveAll(s, cart, cart.lines, env).reserved| ==> env.releases(k)
  {
    var s', reserved := AfterCheckout(s, cart, env), ReserveAll(s, cart, cart.lines, env).reserved;
    var lost := LostIn(s, cart, cart.lines, env);
    ReservedIsPrefix(s, cart, cart.lines, env);
    LostIsInCart(s, cart, cart.lines, env);
    assert forall k :: 0 <= k < |reserved| ==> cart.lines[k] in cart.lines;
    LeaksNonNegative(reserved, env.releases, cart.location);
    if k :| 0 <= k < |reserved| && !env.releases(k) {
      var own := Slot(reserved[k].sku, cart.location);
      LeaksSomewhere(reserved, env.releases, cart.location, k);
      RefusedCheckoutCompensates(s, cart, env, own);
      assert Allocated(s', own) != Allocated(s, own);
    } else if lost.Some? {
      var own := Slot(lost.value.sku, cart.location);
      RefusedCheckoutCompensates(s, cart, env, own);
      assert Allocated(s', own) != Allocated(s, own);
    } else {
      forall slot ensures OnHand(s', slot) == OnHand(s, slot) && Allocated(s', slot) == Allocated(s, slot) {
        RefusedCheckoutCompensates(s, cart, env, slot);
        LeaksNothing(reserved, env.releases, cart.location, slot);
      }
    }
  }

  // ---- Delivery of the sale ----

  /** Consuming one held line takes it from its slot and settles its reservation only. */
  lemma ConsumesHeld(s: Stock, location: string, line: E.SoldLine, txn: string, slot: Slot)
    requires line.reservation < |s.reservations| && Slot(line.sku, location) in s.levels
    requires s.reservations[line.reservation] == Reservation(line.sku, location, line.quantity, Active)
    ensures var s', k := Consume(s, line.reservation, line.quantity, txn), line.reservation;
            && OnHand(s', slot) == OnHand(s, slot) - Taken(location, slot)(line)
            && Allocated(s', slot) == Allocated(s, slot) - Taken(location, slot)(line)
            && s'.levels.Keys == s.levels.Keys
            && s'.reservations == s.reservations[k := s.reservations[k].(status := Consumed)]
  {
  }

  lemma {:induction false} FirstDelivery(s: Stock, location: string, lines: seq<E.SoldLine>, txn: string, base: nat,
                                         slot: Slot)
    requires Holds(s, location, lines, base)
    ensures var s' := ConsumeLines(s, lines, txn);
            && OnHand(s', slot) == OnHand(s, slot) - SumBy(lines, Taken(location, slot))
            && Allocated(s', slot) == Allocated(s, slot) - SumBy(lines, Taken(location, slot))
            && s'.levels.Keys == s.levels.Keys && |s'.reservations| == |s.reservations|
            && (forall k :: base <= k < base + |lines| ==> s'.reservations[k].status == Consumed)
            && forall k :: base + |lines| <= k < |s.reservations| ==> s'.reservations[k] == s.reservations[k]
  {
    if lines != [] {
      var n := |lines| - 1;
      var init := lines[..n];
      assert forall k :: 0 <= k < n ==> init[k] == lines[k];
      FirstDelivery(s, location, init, txn, base, slot);
      var s1 := ConsumeLines(s, init, txn);
      assert s1.reservations[base + n] == s.reservations[base + n];
      ConsumesHeld(s1, location, lines[n], txn, slot);
    }
  }

  ghost predicate Settled(s: Stock, lines: seq<E.SoldLine>) {
    forall l :: l in lines ==> !IsActive(s, l.reservation)
  }

  /** A sale whose reservations are all settled changes nothing when it is delivered again. */
  lemma {:induction false} Redelivery(s: Stock, lines: seq<E.SoldLine>, txn: string)
    requires Settled(s, lines)
    ensures ConsumeLines(s, lines, txn) == s
  {
    if lines != [] {
      assert lines[|lines| - 1] in lines && forall l :: l in lines[..|lines| - 1] ==> l in lines;
      Redelivery(s, lines[..|lines| - 1], txn);
    }
  }

  /** The event delivered k times in a row. */
  function Delivered(s: Stock, e: E.ItemSold, k: nat): Stock {
    if k == 0 then s else ConsumeLines(Delivered(s, e, k - 1), e.lines, e.transactionId)
  }

  lemma {:induction false} DeliveredSettles(s: Stock, location: string, e: E.ItemSold, base: nat, k: nat)
    requires Holds(s, location, e.lines, base) && k >= 1
    ensures Delivered(s, e, k) == ConsumeLines(s, e.lines, e.transactionId) && Settled(Delivered(s, e, k), e.lines)
  {
    if k == 1 {
      assert Delivered(s, e, 0) == s;
      FirstDelivery(s, location, e.lines, e.transactionId, base, Slot("", ""));
      var s' := ConsumeLines(s, e.lines, e.transactionId);
      forall l | l in e.lines ensures !IsActive(s', l.reservation) {
        var i :| 0 <= i < |e.lines| && e.lines[i] == l;
      }
    } else {
      DeliveredSettles(s, location, e, base, k - 1);
      Redelivery(Delivered(s, e, k - 1), e.lines, e.transactionId);
    }
  }

  function CartQuantity(location: string, slot: Slot): CartLine -> int {
    (l: CartLine) => if Slot(l.sku, location) == slot then l.quantity else 0
  }

  /** An accepted checkout holds the whole cart. */
  lemma AcceptedHoldsTheCart(s: Stock, cart: Cart, env: Environment, slot: Slot)
    requires Outcome(s, cart, env).Ok?
    ensures var s', e := AfterCheckout(s, cart, env), Outcome(s, cart, env).value.event;
            var quantity := SumBy(cart.lines, CartQuantity(cart.location, slot));
            && Holds(s', cart.location, e.lines, |s.reservations|) && |e.lines| == |cart.lines|
            && SumBy(e.lines, Taken(cart.location, slot)) == quantity
            && OnHand(s', slot) == OnHand(s, slot) && Allocated(s', slot) == Allocated(s, slot) + quantity
  {
    var e := Outcome(s, cart, env).value.event;
    ReserveAllEffect(s, cart, cart.lines, env, slot);
    ReservedIsPrefix(s, cart, cart.lines, env);
    SumPairwise(e.lines, cart.lines, Taken(cart.location, slot), CartQuantity(cart.location, slot));
  }

  /**
   An accepted checkout whose sale is delivered once or more lowers every slot on
   hand by exactly the cart's quantities and restores what was allocated, even
   when a SKU is on several lines.
   */
  lemma AcceptedCheckoutSellsTheCart(s: Stock, cart: Cart, env: Environment, k: nat, slot: Slot)
    requires Outcome(s, cart, env).Ok? && k >= 1
    ensures var s' := Delivered(AfterCheckout(s, cart, env), Outcome(s, cart, env).value.event, k);
            && OnHand(s', slot) == OnHand(s, slot) - SumBy(cart.lines, CartQuantity(cart.location, slot))
            && Allocated(s', slot) == Allocated(s, slot)
  {
    var held, e := AfterCheckout(s, cart, env), Outcome(s, cart, env).value.event;
    AcceptedHoldsTheCart(s, cart, env, slot);
    DeliveredSettles(held, cart.location, e, |s.reservations|, k);
    FirstDelivery(held, cart.location, e.lines, e.transactionId, |s.reservations|, slot);
  }

  // ---- Settled reservations stay settled, whatever happens next ----

  ghost predicate StaysSettled(s: Stock, s': Stock) {
    && |s.reservations| <= |s'.reservations|
    && forall k :: 0 <= k < |s.reservations| && s.reservations[k].status != Active ==>
                     s'.reservations[k] == s.reservations[k]
  }

  lemma {:induction false} ReceiptsStaySettled(s: Stock, e: E.GoodsReceived, lines: seq<E.ReceivedLine>)
    ensures ReceiveLines(s, e, lines).reservations == s.reservations
  {
    if lines != [] {
      ReceiptsStaySettled(s, e, lines[..|lines| - 1]);
    }
  }

  lemma {:induction false} ReturnsStaySettled(s: Stock, lines: seq<E.ReturnedLine>, returnId: string)
    ensures ReturnLines(s, lines, returnId).reservations == s.reservations
  {
    if lines != [] {
      ReturnsStaySettled(s, lines[..|lines| - 1], returnId);
    }
  }

  lemma {:induction false} SalesStaySettled(s: Stock, lines: seq<E.SoldLine>, txn: string)
    ensures StaysSettled(s, ConsumeLines(s, lines, txn))
  {
    if lines != [] {
      SalesStaySettled(s, lines[..|lines| - 1], txn);
    }
  }

  lemma PostStaysSettled(inv: C.Inventory, id: nat)
    ensures C.Post(inv, id).stock.reservations == inv.stock.reservations
  {
    if C.PostOutcome(inv, id) == C.Done {
      PostEffect(inv.stock, inv.counts[id].location, inv.counts[id].lines, id, Slot("", ""));
    }
  }

  lemma ReleaseStaysSettled(s: Stock, id: nat)
    ensures StaysSettled(s, Release(s, id))
  {
  }

  lemma StepStaysSettled(inv: C.Inventory, step: Step)
    ensures StaysSettled(inv.stock, Apply(inv, step).stock)
  {
    match step
    case ReceiptStep(e) => ReceiptsStaySettled(inv.stock, e, e.lines);
    case ReturnStep(e) => ReturnsStaySettled(inv.stock, e.lines, e.returnId);
    case SoldStep(e) => SalesStaySettled(inv.stock, e.lines, e.transactionId);
    case PostStep(id) => PostStaysSettled(inv, id);
    case ReleaseStep(id) => ReleaseStaysSettled(inv.stock, id);
    case ReserveStep(sku, location, quantity, txn) =>
      ReserveEffect(inv.stock, sku, location, quantity, txn, Slot(sku, location));
    case _ =>
  }

  /** A sale already settled can be redelivered after any further run without effect. */
  lemma {:induction false} LateRedelivery(inv: C.Inventory, e: E.ItemSold, steps: seq<Step>)
    requires Settled(inv.stock, e.lines)
    requires forall l :: l in e.lines ==> l.reservation < |inv.stock.reservations|
    ensures var later := RunFrom(inv, steps);
            && StaysSettled(inv.stock, later.stock)
            && ConsumeLines(later.stock, e.lines, e.transactionId) == later.stock
  {
    if steps != [] {
      var n := |steps| - 1;
      LateRedelivery(inv, e, steps[..n]);
      StepStaysSettled(RunFrom(inv, steps[..n]), steps[n]);
    }
    Redelivery(RunFrom(inv, steps).stock, e.lines, e.transactionId);
  }

  // ---- Every accepted sale can be booked ----

  ghost predicate SaneCart(cart: Cart, env: Environment) {
    && (forall l :: l in cart.lines ==> l.quantity >= 1)
    && (forall p :: p in cart.payments ==> p.amount >= 0.0)
    && forall sku :: env.price(sku).Some? ==> SanePrice(env.price(sku).value)
  }

  predicate SanePrice(p: PricedProduct) {
    && p.unitPrice >= 0 && p.taxRatePct >= 0
    && (p.discountPct.Some? ==> 0 <= p.discountPct.value <= 10000)
  }

  lemma {:induction false} ReservedLinesAreSane(s: Stock, cart: Cart, lines: seq<CartLine>, env: Environment)
    requires SaneCart(cart, env) && forall l :: l in lines ==> l in cart.lines
    ensures forall l :: l in ReserveAll(s, cart, lines, env).reserved ==>
                          && 0 <= l.tax <= l.total && l.quantity >= 1
                          && l.total == l.unitPrice * l.quantity - l.discount + l.tax
  {
    if lines != [] {
      var init, line := lines[..|lines| - 1], lines[|lines| - 1];
      ReservedLinesAreSane(s, cart, init, env);
      assert line in lines && forall l :: l in init ==> l in lines;
      if env.price(line.sku).Some? {
        var p := env.price(line.sku).value;
        LinePriceIsSound(p.unitPrice, line.quantity, p.discountPct, p.taxRatePct);
      }
    }
  }

  lemma {:induction false} TotalsReconcile(lines: seq<E.SoldLine>)
    requires forall l :: l in lines ==> l.total == l.unitPrice * l.quantity - l.discount + l.tax
    ensures SumBy(lines, LineTotal()) == SumBy(lines, Subtotal()) - SumBy(lines, Discount()) + SumBy(lines, LineTax())
  {
    if lines != [] {
      assert lines[|lines| - 1] in lines;
      TotalsReconcile(lines[..|lines| - 1]);
    }
  }

  /**
   An accepted sale, whatever its prices, promotions and taxes, becomes a balanced
   entry exactly when rounding its payments one by one gives the same total as
   rounding their sum, and some money or stock value moves. Its transaction's
   subtotal, discount, tax and total reconcile to the cent.
   */
  lemma AcceptedCheckoutPostsExactlyWhen(s: Stock, cart: Cart, env: Environment, world: P.World)
    requires SaneCart(cart, env) && Outcome(s, cart, env).Ok?
    requires var costs := P.UnitCosts(Outcome(s, cart, env).value.event.lines, world.unitCost);
             costs.Ok? && forall c :: c in costs.value ==> c >= 0
    ensures var e, t := Outcome(s, cart, env).value.event, Outcome(s, cart, env).value.transaction;
            var costs := P.UnitCosts(e.lines, world.unitCost).value;
            && |costs| == |e.lines|
            && t.total == t.subtotal - t.discount + t.tax
            && (P.ItemSoldPlan(e, world).Ok? <==>
                && SumBy(cart.payments, PP.Cents()) == Round(Tendered(cart.payments))
                && (t.total > 0 || SumBy(P.SoldFacts(e, costs), P.FactCogs()) > 0))
  {
    var e := Outcome(s, cart, env).value.event;
    P.UnitCostsLength(e.lines, world.unitCost);
    ReservedLinesAreSane(s, cart, cart.lines, env);
    TotalsReconcile(e.lines);
    SumSame(e.lines, LineTotal(), SA.LineTotal());
    SA.SalePostsExactlyWhen(e, world);
  }

  predicate WholeCents(payments: seq<E.Payment>) {
    forall i :: 0 <= i < |payments| ==> payments[i].amount.Floor as real == payments[i].amount
  }

  /** Payments in whole cents always meet the rounding condition. */
  lemma {:induction false} WholeCentsAgree(payments: seq<E.Payment>)
    requires WholeCents(payments)
    ensures SumBy(payments, PP.Cents()) as real == Tendered(payments)
    ensures SumBy(payments, PP.Cents()) == Round(Tendered(payments))
  {
    if payments != [] {
      var n := |payments| - 1;
      WholeCentsAgree(payments[..n]);
      var cents := payments[n].amount.Floor;
      RoundUnique(payments[n].amount, cents);
    }
    RoundUnique(Tendered(payments), SumBy(payments, PP.Cents()));
  }

  /** Two half-cent payments are accepted for a one-cent sale, yet each rounds up to a cent. */
  lemma HalfCentsDisagree()
    ensures var half := E.Payment(E.CashPayment, 0.5);
            && Round(Tendered([half, half])) == 1
            && SumBy([half, half], PP.Cents()) == 2
  {
    var half := E.Payment(E.CashPayment, 0.5);
    assert [half, half][..1] == [half] && [half][..0] == [];
    assert Tendered([half]) == 0.5;
    RoundUnique(0.5, 1);
    RoundUnique(1.0, 1);
    PP.SumTwo(half, half, PP.Cents());
  }
}
