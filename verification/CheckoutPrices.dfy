/** What an accepted checkout charges, told by the price list and the cart alone. */
module CheckoutPrices {
  import opened Wrappers
  import opened Sums
  import opened Money
  import opened Pricing
  import opened Stock
  import opened Checkout
  import E = Events

  /** Within half a cent of this many hundredths of a percent of an amount. */
  predicate IsShare(cents: int, amount: int, pct: int) {
    -5000 <= 10000 * cents - amount * pct <= 5000
  }

  /** A sold line charges its cart line at the listed price: promotion first, then tax on what is left. */
  predicate ChargesListed(sold: E.SoldLine, line: CartLine, listed: PricedProduct) {
    var subtotal := listed.unitPrice * line.quantity;
    && sold.sku == line.sku && sold.quantity == line.quantity && sold.unitPrice == listed.unitPrice
    && (match listed.discountPct
        case None => sold.discount == 0
        case Some(pct) => IsShare(sold.discount, subtotal, pct))
    && IsShare(sold.tax, subtotal - sold.discount, listed.taxRatePct)
    && sold.total == subtotal - sold.discount + sold.tax
  }

  lemma LineChargesListed(line: CartLine, listed: PricedProduct, reservation: nat)
    ensures ChargesListed(PricedLine(line, listed, reservation), line, listed)
  {
    var subtotal := listed.unitPrice * line.quantity;
    var sold := PricedLine(line, listed, reservation);
    if listed.discountPct.Some? {
      ShareIsNearest(subtotal, listed.discountPct.value);
    }
    ShareIsNearest(subtotal - sold.discount, listed.taxRatePct);
  }

  lemma ShareIsNearest(amount: int, pct: int)
    ensures IsShare(RoundDiv(amount * pct, 10000), amount, pct)
  {
  }

  ghost predicate ChargesCart(reserved: seq<E.SoldLine>, lines: seq<CartLine>, env: Environment)
    requires |reserved| <= |lines|
  {
    forall k :: 0 <= k < |reserved| ==>
                  env.price(lines[k].sku).Some? && ChargesListed(reserved[k], lines[k], env.price(lines[k].sku).value)
  }

  /**
   A line is reserved exactly when its price is listed, Inventory answers, knows the
   product and has that much on hand that is not allocated; otherwise the checkout
   is refused for the first of these that fails.
   */
  lemma ReservedLine(p: Progress, cart: Cart, line: CartLine, env: Environment)
    requires p.failure.None?
    ensures var p', slot := ReserveLine(p, cart, line, env), Slot(line.sku, cart.location);
            var call, free := env.calls(|p.reserved|), OnHand(p.stock, slot) - Allocated(p.stock, slot);
            var known := line.sku in p.stock.products;
            && (p'.failure == Some(UnknownPrice) <==> env.price(line.sku).None?)
            && (p'.failure == Some(Unavailable) <==>
                env.price(line.sku).Some? && call == Answered && known && free < line.quantity)
            && (p'.failure.None? <==> env.price(line.sku).Some? && call == Answered && known && free >= line.quantity)
            && (p'.failure.Some? ==> p'.failure.value != PaymentMismatch && p'.reserved == p.reserved)
            && (p'.failure.None? ==>
                  && |p'.reserved| == |p.reserved| + 1 && p.reserved <= p'.reserved
                  && ChargesListed(p'.reserved[|p.reserved|], line, env.price(line.sku).value))
  {
    if env.price(line.sku).Some? {
      LineChargesListed(line, env.price(line.sku).value, |p.stock.reservations|);
    }
  }

  lemma ChargesOneMore(p: Progress, cart: Cart, lines: seq<CartLine>, line: CartLine, env: Environment)
    requires p.failure.None? && |p.reserved| == |lines| && ChargesCart(p.reserved, lines, env)
    ensures var p' := ReserveLine(p, cart, line, env);
            && |p'.reserved| <= |lines| + 1 && (p'.failure.None? ==> |p'.reserved| == |lines| + 1)
            && ChargesCart(p'.reserved, lines + [line], env)
  {
    ReservedLine(p, cart, line, env);
    var reserved, all := ReserveLine(p, cart, line, env).reserved, lines + [line];
    forall k | 0 <= k < |reserved|
      ensures env.price(all[k].sku).Some? && ChargesListed(reserved[k], all[k], env.price(all[k].sku).value)
    {
      if k < |lines| {
        assert all[k] == lines[k] && reserved[k] == p.reserved[k];
      }
    }
  }

  lemma {:induction false} ReservedChargeListed(s: Stock, cart: Cart, lines: seq<CartLine>, env: Environment)
    ensures var p := ReserveAll(s, cart, lines, env);
            && |p.reserved| <= |lines| && (p.failure.None? ==> |p.reserved| == |lines|)
            && ChargesCart(p.reserved, lines, env)
  {
    if lines != [] {
      var init, line := lines[..|lines| - 1], lines[|lines| - 1];
      assert lines == init + [line];
      ReservedChargeListed(s, cart, init, env);
      var p := ReserveAll(s, cart, init, env);
      if p.failure.None? {
        ReservedLine(p, cart, line, env);
        ChargesOneMore(p, cart, init, line, env);
      }
    }
  }

  function PaidAmount(payments: seq<E.Payment>): real {
    if payments == [] then 0.0 else payments[0].amount + PaidAmount(payments[1..])
  }

  lemma {:induction false} PaidAppend(payments: seq<E.Payment>, last: E.Payment)
    ensures PaidAmount(payments + [last]) == PaidAmount(payments) + last.amount
  {
    if payments == [] {
      assert (payments + [last])[1..] == [];
    } else {
      assert (payments + [last])[1..] == payments[1..] + [last];
      PaidAppend(payments[1..], last);
    }
  }

  lemma {:induction false} TenderedIsPaid(payments: seq<E.Payment>)
    ensures Tendered(payments) == PaidAmount(payments)
  {
    if payments != [] {
      var init, last := payments[..|payments| - 1], payments[|payments| - 1];
      TenderedIsPaid(init);
      PaidAppend(init, last);
      assert payments == init + [last];
    }
  }

  lemma {:induction false} TotalsAgree(lines: seq<E.SoldLine>)
    requires forall l :: l in lines ==> l.total == l.unitPrice * l.quantity - l.discount + l.tax
    ensures SumBy(lines, LineTotal()) == SumBy(lines, Subtotal()) - SumBy(lines, Discount()) + SumBy(lines, LineTax())
  {
    if lines != [] {
      assert lines[|lines| - 1] in lines;
      TotalsAgree(lines[..|lines| - 1]);
    }
  }

  /**
   An accepted checkout sells the cart line by line at the listed prices: each
   discount is its promotion's percentage of the subtotal and each tax its rate
   of what is left, to the nearest cent. Its totals add up, and what was paid
   rounds to what is charged.
   */
  lemma AcceptedCheckoutChargesListedPrices(s: Stock, cart: Cart, env: Environment)
    requires Outcome(s, cart, env).Ok?
    ensures var sale := Outcome(s, cart, env).value;
            && |sale.event.lines| == |cart.lines| && ChargesCart(sale.event.lines, cart.lines, env)
            && sale.transaction.total
               == sale.transaction.subtotal - sale.transaction.discount + sale.transaction.tax
            && sale.transaction.total == SumBy(sale.event.lines, LineTotal())
            && sale.transaction.total as real - 0.5 <= PaidAmount(cart.payments)
               < sale.transaction.total as real + 0.5
            && sale.event.payments == cart.payments && sale.event.transactionId == cart.transactionId
            && sale.event.storeId == cart.storeId && sale.event.occurredAt == cart.occurredAt
  {
    var lines := Outcome(s, cart, env).value.event.lines;
    ReservedChargeListed(s, cart, cart.lines, env);
    forall l | l in lines ensures l.total == l.unitPrice * l.quantity - l.discount + l.tax {
      var k :| 0 <= k < |lines| && lines[k] == l;
      assert ChargesListed(lines[k], cart.lines[k], env.price(cart.lines[k].sku).value);
    }
    TotalsAgree(lines);
    TenderedIsPaid(cart.payments);
  }

  /** A checkout whose lines are all reserved is accepted exactly when the payments round to the charged total. */
  lemma AcceptedExactlyWhenPaid(s: Stock, cart: Cart, env: Environment)
    requires ReserveAll(s, cart, cart.lines, env).failure.None?
    ensures var charged := SumBy(ReserveAll(s, cart, cart.lines, env).reserved, LineTotal());
            Outcome(s, cart, env).Ok? <==>
            charged as real - 0.5 <= PaidAmount(cart.payments) < charged as real + 0.5
  {
    var charged := SumBy(ReserveAll(s, cart, cart.lines, env).reserved, LineTotal());
    TenderedIsPaid(cart.payments);
    if charged as real - 0.5 <= PaidAmount(cart.payments) < charged as real + 0.5 {
      RoundUnique(PaidAmount(cart.payments), charged);
    }
  }
}
