/** The POS checkout: reserve line by line, compensate on failure, check the payments, publish the sale. */
module Checkout {
  import opened Wrappers
  import opened Sums
  import opened Money
  import opened Pricing
  import opened Stock
  import E = Events

  datatype PricedProduct = PricedProduct(unitPrice: int, taxRatePct: int, discountPct: Option<int>)

  datatype CartLine = CartLine(sku: string, quantity: int)

  datatype Cart = Cart(transactionId: string, storeId: string, location: string, occurredAt: int,
                       lines: seq<CartLine>, payments: seq<E.Payment>)

  /** How a reserve call goes: answered, served with its reply lost, or never served. */
  datatype Call = Answered | ReplyLost | Unserved

  /** What the checkout meets: the price list, how reserve call k goes, whether release k gets through. */
  datatype Environment = Environment(price: string -> Option<PricedProduct>, calls: nat -> Call,
                                     releases: nat -> bool)

  datatype Refusal = UnknownPrice | InventoryUnreachable | Unavailable | PaymentMismatch

  datatype Transaction = Transaction(subtotal: int, discount: int, tax: int, total: int)

  datatype Completed = Completed(transaction: Transaction, event: E.ItemSold)

  /** The state of the reserve loop. */
  datatype Progress = Progress(stock: Stock, reserved: seq<E.SoldLine>, failure: Option<Refusal>)

  function Subtotal(): E.SoldLine -> int {
    (l: E.SoldLine) => l.unitPrice * l.quantity
  }

  function Discount(): E.SoldLine -> int {
    (l: E.SoldLine) => l.discount
  }

  function LineTax(): E.SoldLine -> int {
    (l: E.SoldLine) => l.tax
  }

  function LineTotal(): E.SoldLine -> int {
    (l: E.SoldLine) => l.total
  }

  function PricedLine(line: CartLine, p: PricedProduct, reservation: nat): E.SoldLine {
    var pricing := ComputeLinePrice(p.unitPrice, line.quantity, p.discountPct, p.taxRatePct);
    E.SoldLine(line.sku, line.quantity, p.unitPrice, pricing.discount, pricing.tax, pricing.total, reservation)
  }

  function ReserveLine(p: Progress, cart: Cart, line: CartLine, env: Environment): Progress {
    var price, s := env.price(line.sku), p.stock;
    if price.None? then p.(failure := Some(UnknownPrice))
    else if env.calls(|p.reserved|) == Unserved then p.(failure := Some(InventoryUnreachable))
    else
      var s' := Reserve(s, line.sku, cart.location, line.quantity, cart.transactionId);
      if env.calls(|p.reserved|) == ReplyLost then Progress(s', p.reserved, Some(InventoryUnreachable))
      else match ReserveResult(s, line.sku, cart.location, line.quantity)
      case Reserved(id, _) => Progress(s', p.reserved + [PricedLine(line, price.value, id)], None)
      case NotAvailable(_) => Progress(s', p.reserved, Some(Unavailable))
      case UnknownProduct => Progress(s', p.reserved, Some(InventoryUnreachable))
  }

  /** Reserves the lines in order, stopping at the first failure. */
  function ReserveAll(s: Stock, cart: Cart, lines: seq<CartLine>, env: Environment): Progress {
    if lines == [] then Progress(s, [], None)
    else
      var p := ReserveAll(s, cart, lines[..|lines| - 1], env);
      if p.failure.Some? then p else ReserveLine(p, cart, lines[|lines| - 1], env)
  }

  lemma ReserveNext(s: Stock, cart: Cart, env: Environment, i: nat)
    requires i < |cart.lines| && ReserveAll(s, cart, cart.lines[..i], env).failure.None?
    ensures ReserveAll(s, cart, cart.lines[..i + 1], env)
            == ReserveLine(ReserveAll(s, cart, cart.lines[..i], env), cart, cart.lines[i], env)
  {
    assert cart.lines[..i + 1] == cart.lines[..i] + [cart.lines[i]];
  }

  /** Gives back what was reserved; a release that fails is left behind. */
  function ReleaseAll(s: Stock, reserved: seq<E.SoldLine>, releases: nat -> bool): Stock {
    if reserved == [] then s
    else
      var n := |reserved| - 1;
      var s1 := ReleaseAll(s, reserved[..n], releases);
      if releases(n) then Release(s1, reserved[n].reservation) else s1
  }

  function Tendered(payments: seq<E.Payment>): real {
    if payments == [] then 0.0 else Tendered(payments[..|payments| - 1]) + payments[|payments| - 1].amount
  }

  function SaleOf(cart: Cart, reserved: seq<E.SoldLine>): Completed {
    Completed(Transaction(SumBy(reserved, Subtotal()), SumBy(reserved, Discount()), SumBy(reserved, LineTax()),
                     SumBy(reserved, LineTotal())),
         E.ItemSold(cart.occurredAt, cart.transactionId, cart.storeId, reserved, cart.payments))
  }

  function Outcome(s: Stock, cart: Cart, env: Environment): Result<Completed, Refusal> {
    var p := ReserveAll(s, cart, cart.lines, env);
    if p.failure.Some? then Err(p.failure.value)
    else if Round(Tendered(cart.payments)) != SumBy(p.reserved, LineTotal()) then Err(PaymentMismatch)
    else Ok(SaleOf(cart, p.reserved))
  }

  function AfterCheckout(s: Stock, cart: Cart, env: Environment): Stock {
    var p := ReserveAll(s, cart, cart.lines, env);
    if Outcome(s, cart, env).Ok? then p.stock else ReleaseAll(p.stock, p.reserved, env.releases)
  }

  class CheckoutService {
    const inventory: StockService

    constructor (inventory: StockService)
      ensures this.inventory == inventory
    {
      this.inventory := inventory;
    }

    method ReleaseReserved(reserved: seq<E.SoldLine>, releases: nat -> bool)
      modifies inventory
      ensures inventory.State() == ReleaseAll(old(inventory.State()), reserved, releases)
    {
      for k := 0 to |reserved|
        invariant inventory.State() == ReleaseAll(old(inventory.State()), reserved[..k], releases)
      {
        assert reserved[..k + 1][..k] == reserved[..k];
        if releases(k) {
          var _ := inventory.ReleaseReservation(reserved[k].reservation);
        }
      }
      assert reserved[..|reserved|] == reserved;
    }

    /** The reserve loop. */
    method ReserveLines(cart: Cart, env: Environment) returns (reserved: seq<E.SoldLine>, failure: Option<Refusal>)
      modifies inventory
      ensures ReserveAll(old(inventory.State()), cart, cart.lines, env) ==
              Progress(inventory.State(), reserved, failure)
    {
      reserved, failure := [], None;
      var i := 0;
      while i < |cart.lines| && failure.None?
        invariant i <= |cart.lines|
        invariant ReserveAll(old(inventory.State()), cart, cart.lines[..i], env) ==
                  Progress(inventory.State(), reserved, failure)
      {
        var line := cart.lines[i];
        ReserveNext(old(inventory.State()), cart, env, i);
        var price := env.price(line.sku);
        if price.None? {
          failure := Some(UnknownPrice);
        } else if env.calls(|reserved|) == Unserved {
          failure := Some(InventoryUnreachable);
        } else {
          var reservation := inventory.ReserveStock(line.sku, cart.location, line.quantity, cart.transactionId);
          if env.calls(|reserved|) == ReplyLost {
            failure := Some(InventoryUnreachable);
          } else {
            match reservation {
              case Reserved(id, _) =>
                reserved := reserved + [PricedLine(line, price.value, id)];
              case NotAvailable(_) =>
                failure := Some(Unavailable);
              case UnknownProduct =>
                failure := Some(InventoryUnreachable);
            }
          }
        }
        i := i + 1;
      }
      FailureStops(old(inventory.State()), cart, cart.lines, env, i);
      assert failure.None? ==> cart.lines[..i] == cart.lines;
    }

    method Checkout(cart: Cart, env: Environment) returns (r: Result<Completed, Refusal>)
      modifies inventory
      ensures inventory.State() == AfterCheckout(old(inventory.State()), cart, env)
      ensures r == Outcome(old(inventory.State()), cart, env)
    {
      var reserved, failure := ReserveLines(cart, env);
      if failure.Some? {
        ReleaseReserved(reserved, env.releases);
        return Err(failure.value);
      }
      var totals := Totals(reserved);
      var tendered := SumTendered(cart.payments);
      if Round(tendered) != totals.total {
        ReleaseReserved(reserved, env.releases);
        return Err(PaymentMismatch);
      }
      return Ok(Completed(totals, E.ItemSold(cart.occurredAt, cart.transactionId, cart.storeId, reserved,
                                             cart.payments)));
    }
  }

  method Totals(reserved: seq<E.SoldLine>) returns (t: Transaction)
    ensures t == Transaction(SumBy(reserved, Subtotal()), SumBy(reserved, Discount()), SumBy(reserved, LineTax()),
                             SumBy(reserved, LineTotal()))
  {
    var subtotal, discount, tax, total := 0, 0, 0, 0;
    for k := 0 to |reserved|
      invariant subtotal == SumBy(reserved[..k], Subtotal()) && discount == SumBy(reserved[..k], Discount())
      invariant tax == SumBy(reserved[..k], LineTax()) && total == SumBy(reserved[..k], LineTotal())
    {
      SumStep(reserved, k, Subtotal());
      SumStep(reserved, k, Discount());
      SumStep(reserved, k, LineTax());
      SumStep(reserved, k, LineTotal());
      subtotal, discount := subtotal + reserved[k].unitPrice * reserved[k].quantity, discount + reserved[k].discount;
      tax, total := tax + reserved[k].tax, total + reserved[k].total;
    }
    assert reserved[..|reserved|] == reserved;
    t := Transaction(subtotal, discount, tax, total);
  }

  method SumTendered(payments: seq<E.Payment>) returns (tendered: real)
    ensures tendered == Tendered(payments)
  {
    tendered := 0.0;
    for k := 0 to |payments|
      invariant tendered == Tendered(payments[..k])
    {
      assert payments[..k + 1][..k] == payments[..k];
      tendered := tendered + payments[k].amount;
    }
    assert payments[..|payments|] == payments;
  }

  /** After a failure the remaining lines are never asked for. */
  lemma {:induction false} FailureStops(s: Stock, cart: Cart, lines: seq<CartLine>, env: Environment, i: nat)
    requires i <= |lines|
    ensures ReserveAll(s, cart, lines[..i], env).failure.Some? ==>
              ReserveAll(s, cart, lines, env) == ReserveAll(s, cart, lines[..i], env)
    decreases |lines| - i
  {
    if i == |lines| {
      assert lines[..i] == lines;
    } else {
      assert lines[..i + 1][..i] == lines[..i];
      FailureStops(s, cart, lines, env, i + 1);
    }
  }
}
