/**
 Runs that show where the system falls short of what one would expect of it.
 Each is a run of service calls from empty tables; the exact condition under
 which the expectation holds is the lemma named with it.
 */
module Witnesses {
  import opened Wrappers
  import opened Sums
  import opened Money
  import opened Stock
  import opened InventoryRuns
  import opened StockBounds
  import C = StockCounts
  import CS = CheckoutSaga
  import E = Events
  import K = Checkout
  import P = Postings
  import PP = PostingProofs
  import SA = SalesAccounting
  import SL = StockLaws

  const SLOT := Slot("A", "L")

  lemma RunSnoc(steps: seq<Step>, step: Step)
    ensures Run(steps + [step]) == Apply(Run(steps), step)
  {
    assert (steps + [step])[..|steps|] == steps;
  }

  /** A product with some stock on hand. */
  function Stocked(onHand: int): seq<Step> {
    [SaveProduct("A", Product(0, ""))] + [AdjustStep("A", "L", onHand, "")]
  }

  lemma StockedRun(onHand: int)
    ensures Run(Stocked(onHand)) ==
            C.Inventory(Stock(map["A" := Product(0, "")], map[SLOT := Level(onHand, 0)], [],
                              [Movement("A", "L", Adjustment, onHand, AdjustmentReason(""))]), [])
  {
    assert [SaveProduct("A", Product(0, ""))] == [] + [SaveProduct("A", Product(0, ""))];
    RunSnoc([], SaveProduct("A", Product(0, "")));
    RunSnoc([SaveProduct("A", Product(0, ""))], AdjustStep("A", "L", onHand, ""));
  }

  // ---- Posting a count ----

  const BLANK := C.CountLine("A", 5, None, 0)
  const FOUND := C.CountLine("A", 5, Some(3), 0)
  const REQUEST := C.Request("L", false, ["A"], "")

  /** A count of five finds three and is submitted; then all five are reserved. */
  function CountThenReserve(): seq<Step> {
    Stocked(5) + [CreateStep(REQUEST, ["A"])] + [RecordStep(0, "A", 3)] + [SubmitStep(0, C.Reject)]
    + [ReserveStep("A", "L", 5, "T")]
  }

  lemma Creates(inv: C.Inventory)
    requires inv == Run(Stocked(5))
    ensures Apply(inv, CreateStep(REQUEST, ["A"])) == inv.(counts := [C.Count("L", C.Open, [BLANK])])
  {
    StockedRun(5);
    assert C.Covered(inv.stock, REQUEST) == {"A"} by {
      assert "A" in inv.stock.products && "A" in REQUEST.skus;
    }
    assert C.CreateOutcome(inv, REQUEST) == C.Done && C.Lists(["A"], {"A"});
    assert C.ExpectedLines(inv.stock, "L", ["A"]) == [BLANK];
  }

  lemma Records(inv: C.Inventory)
    requires inv.counts == [C.Count("L", C.Open, [BLANK])]
    ensures Apply(inv, RecordStep(0, "A", 3)) == inv.(counts := [C.Count("L", C.Open, [FOUND])])
  {
    assert C.LineOf([BLANK], "A") == 0 && [BLANK][0 := FOUND] == [FOUND];
    assert inv.counts[0 := C.Count("L", C.Open, [FOUND])] == [C.Count("L", C.Open, [FOUND])];
  }

  lemma Submits(inv: C.Inventory)
    requires inv.counts == [C.Count("L", C.Open, [FOUND])]
    ensures Apply(inv, SubmitStep(0, C.Reject)) == inv.(counts := [C.Count("L", C.Submitted, [FOUND])])
  {
    assert C.AllCounted([FOUND]) && !C.NoneCounted([FOUND]) by { assert [FOUND][0] == FOUND; }
    assert inv.counts[0 := C.Count("L", C.Submitted, [FOUND])] == [C.Count("L", C.Submitted, [FOUND])];
  }

  lemma CountedRun()
    ensures var inv := Run(CountThenReserve());
            && inv.counts == [C.Count("L", C.Submitted, [FOUND])]
            && inv.stock.products == map["A" := Product(0, "")]
            && inv.stock.levels == map[SLOT := Level(5, 5)]
            && inv.stock.reservations == [Reservation("A", "L", 5, Active)]
  {
    var made := Stocked(5) + [CreateStep(REQUEST, ["A"])];
    var recorded := made + [RecordStep(0, "A", 3)];
    var submitted := recorded + [SubmitStep(0, C.Reject)];
    RunSnoc(Stocked(5), CreateStep(REQUEST, ["A"]));
    Creates(Run(Stocked(5)));
    RunSnoc(made, RecordStep(0, "A", 3));
    Records(Run(made));
    RunSnoc(recorded, SubmitStep(0, C.Reject));
    Submits(Run(recorded));
    RunSnoc(submitted, ReserveStep("A", "L", 5, "T"));
    StockedRun(5);
  }

  /** Posting checks only that stock does not go negative, so it can undercut an allocation. */
  lemma PostingCanUndercutAllocations()
    ensures Covered(Run(CountThenReserve()).stock)
    ensures C.PostOutcome(Run(CountThenReserve()), 0) == C.Done
    ensures !Covered(Run(CountThenReserve() + [PostStep(0)]).stock)
  {
    CountedRun();
    var inv := Run(CountThenReserve());
    assert [FOUND][..0] == [];
    var posted := C.PostLines(inv.stock, "L", [FOUND], 0);
    assert C.PostLines(inv.stock, "L", [], 0) == Some(inv.stock);
    assert posted == Some(Move(inv.stock, Movement("A", "L", Adjustment, -2, CountNumber(0))));
    assert OnHand(posted.value, SLOT) == 3 && Allocated(posted.value, SLOT) == 5;
    RunSnoc(CountThenReserve(), PostStep(0));
  }

  // ---- A checkout and its postings ----

  /** One product at one price and tax rate, and nothing that fails. */
  function OnePrice(cents: int, taxRatePct: int): K.Environment {
    K.Environment((sku: string) => Some(K.PricedProduct(cents, taxRatePct, None)), (k: nat) => K.Answered,
                  (k: nat) => true)
  }

  /** Stock costs nothing and no purchase order is asked for. */
  function FreeGoods(): P.World {
    P.World((n: string) => P.Missing, (sku: string) => P.Found(0))
  }

  function SoldLineOf(quantity: int, cents: int, taxRatePct: int, reservation: nat): E.SoldLine {
    K.PricedLine(K.CartLine("A", quantity), K.PricedProduct(cents, taxRatePct, None), reservation)
  }

  /** Reserving one more line of the product when enough is left. */
  lemma ReservesOne(p: K.Progress, cart: K.Cart, quantity: int, cents: int, taxRatePct: int)
    requires p.failure.None? && cart.location == "L" && "A" in p.stock.products
    requires 0 <= quantity <= Available(p.stock, SLOT)
    ensures var next := K.ReserveLine(p, cart, K.CartLine("A", quantity), OnePrice(cents, taxRatePct));
            && next.failure.None?
            && next.reserved == p.reserved + [SoldLineOf(quantity, cents, taxRatePct, |p.stock.reservations|)]
            && next.stock.products == p.stock.products
            && |next.stock.reservations| == |p.stock.reservations| + 1
            && Available(next.stock, SLOT) == Available(p.stock, SLOT) - quantity
  {
  }

  lemma ReservesFirst(s: Stock, cart: K.Cart, quantity: int, cents: int, taxRatePct: int)
    requires cart.location == "L" && "A" in s.products && s.reservations == []
    requires 0 <= quantity <= Available(s, SLOT)
    ensures var p := K.ReserveAll(s, cart, [K.CartLine("A", quantity)], OnePrice(cents, taxRatePct));
            && p.failure.None? && p.reserved == [SoldLineOf(quantity, cents, taxRatePct, 0)]
            && p.stock.products == s.products && |p.stock.reservations| == 1
            && Available(p.stock, SLOT) == Available(s, SLOT) - quantity
  {
    var line, env := K.CartLine("A", quantity), OnePrice(cents, taxRatePct);
    assert [line][..0] == [] && K.ReserveAll(s, cart, [], env) == K.Progress(s, [], None);
    ReservesOne(K.Progress(s, [], None), cart, quantity, cents, taxRatePct);
  }

  // ---- Half cents ----

  const HALF := E.Payment(E.CashPayment, 0.5)

  function HalfCentCart(): K.Cart {
    K.Cart("T", "S", "L", 0, [K.CartLine("A", 1)], [HALF, HALF])
  }

  function HalfCentSale(): E.ItemSold {
    E.ItemSold(0, "T", "S", [E.SoldLine("A", 1, 1, 0, 0, 1, 0)], [HALF, HALF])
  }

  lemma HalfCentPrice()
    ensures SoldLineOf(1, 1, 0, 0) == HalfCentSale().lines[0]
  {
    RoundDivUnique(0, 10000, 0);
  }

  lemma HalfCentsAccepted()
    ensures var sold := K.Outcome(Run(Stocked(1)).stock, HalfCentCart(), OnePrice(1, 0));
            sold.Ok? && sold.value.event == HalfCentSale()
  {
    StockedRun(1);
    var s, cart, env := Run(Stocked(1)).stock, HalfCentCart(), OnePrice(1, 0);
    ReservesFirst(s, cart, 1, 1, 0);
    HalfCentPrice();
    var line := SoldLineOf(1, 1, 0, 0);
    assert [line] == [] + [line];
    SumAppend([], line, K.LineTotal());
    CS.HalfCentsDisagree();
  }

  function NoCosts(n: nat): seq<int> {
    seq(n, i => 0)
  }

  lemma {:induction false} FreeCosts(lines: seq<E.SoldLine>)
    ensures P.UnitCosts(lines, FreeGoods().unitCost) == Ok(NoCosts(|lines|))
  {
    var lookup := FreeGoods().unitCost;
    if lines == [] {
      assert NoCosts(0) == [];
    } else {
      FreeCosts(lines[..|lines| - 1]);
      assert lookup(lines[|lines| - 1].sku) == P.Found(0);
      assert NoCosts(|lines|) == NoCosts(|lines| - 1) + [0];
    }
  }

  lemma HalfCentsNotBooked()
    ensures P.ItemSoldPlan(HalfCentSale(), FreeGoods()).Err?
  {
    var e := HalfCentSale();
    FreeCosts(e.lines);
    assert e.lines == [] + [e.lines[0]];
    SumAppend([], e.lines[0], SA.LineTotal());
    CS.HalfCentsDisagree();
    SA.SalePostsExactlyWhen(e, FreeGoods());
  }

  /** Two half-cent payments settle a one-cent sale at the till, and the books refuse the sale. */
  lemma HalfCentsAreAcceptedButNotBooked()
    ensures var sold := K.Outcome(Run(Stocked(1)).stock, HalfCentCart(), OnePrice(1, 0));
            sold.Ok? && P.ItemSoldPlan(sold.value.event, FreeGoods()).Err?
  {
    HalfCentsAccepted();
    HalfCentsNotBooked();
  }

  // ---- A SKU on two lines ----

  /** One unit, then two, of a product at three cents and 16% tax. */
  function TwoLineCart(): K.Cart {
    K.Cart("T", "S", "L", 0, [K.CartLine("A", 1), K.CartLine("A", 2)], [E.Payment(E.CashPayment, 10.0)])
  }

  /** The second line, returned whole. */
  function SecondLineBack(): E.ItemReturned {
    E.ItemReturned(1, "R", "T", "S", [E.ReturnedLine("A", 2, "L", 7)])
  }

  lemma TwoLinePrices()
    ensures SoldLineOf(1, 3, 1600, 0) == E.SoldLine("A", 1, 3, 0, 0, 3, 0)
    ensures SoldLineOf(2, 3, 1600, 1) == E.SoldLine("A", 2, 3, 0, 1, 7, 1)
  {
    RoundDivUnique(4800, 10000, 0);
    RoundDivUnique(9600, 10000, 1);
  }

  function TwoLineEvent(): E.ItemSold {
    E.ItemSold(0, "T", "S", [E.SoldLine("A", 1, 3, 0, 0, 3, 0), E.SoldLine("A", 2, 3, 0, 1, 7, 1)],
               TwoLineCart().payments)
  }

  function TwoLineFacts(): seq<P.SaleFact> {
    P.SoldFacts(TwoLineEvent(), [0, 0])
  }

  lemma TwoLineSale()
    ensures var sold := K.Outcome(Run(Stocked(3)).stock, TwoLineCart(), OnePrice(3, 1600));
            sold.Ok? && sold.value.event == TwoLineEvent()
  {
    StockedRun(3);
    TwoLinePrices();
    var s, cart, env := Run(Stocked(3)).stock, TwoLineCart(), OnePrice(3, 1600);
    ReservesFirst(s, cart, 1, 3, 1600);
    var first := K.ReserveAll(s, cart, [K.CartLine("A", 1)], env);
    ReservesOne(first, cart, 2, 3, 1600);
    assert cart.lines[..1] == [K.CartLine("A", 1)];
    var a, b := SoldLineOf(1, 3, 1600, 0), SoldLineOf(2, 3, 1600, 1);
    assert K.ReserveAll(s, cart, cart.lines, env).reserved == [a] + [b] == [a, b];
    PP.SumTwo(a, b, K.LineTotal());
    var ten := E.Payment(E.CashPayment, 10.0);
    assert [ten][..0] == [] && K.Tendered([ten]) == 10.0;
    RoundUnique(10.0, 10);
  }

  lemma TwoLineSalePosts()
    ensures var sale := P.ItemSoldPlan(TwoLineEvent(), FreeGoods());
            sale.Ok? && sale.value.facts == TwoLineFacts()
  {
    var e, ten := TwoLineEvent(), E.Payment(E.CashPayment, 10.0);
    FreeCosts(e.lines);
    assert NoCosts(2) == [0, 0];
    PP.SumTwo(e.lines[0], e.lines[1], SA.LineTotal());
    RoundUnique(10.0, 10);
    assert [ten] == [] + [ten];
    SumAppend([], ten, PP.Cents());
    SA.SalePostsExactlyWhen(e, FreeGoods());
  }

  lemma SecondLineFound()
    ensures P.FindSold(TwoLineFacts(), "T", "A") == Some(TwoLineFacts()[0])
  {
    var e := TwoLineEvent();
    SA.FirstLineIsFound(e, [0, 0], [], [], 0, 1);
    assert [] + P.SoldFacts(e, [0, 0]) + [] == TwoLineFacts();
  }

  /** A line refunded at the share of a line sold without VAT gives none back, and the refund posts. */
  lemma NoVatGivenBack(ret: E.ItemReturned, line: E.ReturnedLine, facts: seq<P.SaleFact>, world: P.World,
                       first: P.SaleFact)
    requires ret.lines == [line] && P.FindSold(facts, ret.originalTransactionId, line.sku) == Some(first)
    requires first.tax == 0 && line.refund > 0 && SA.SaneRefund(ret, facts, world)
    ensures var refund := P.ItemReturnedPlan(ret, facts, world);
            refund.Ok? && |refund.value.facts| == 1 && refund.value.facts[0].tax == 0
  {
    SA.OneRefund(ret, line, facts, world, first);
    if first.revenue > 0 {
      RoundDivUnique(0, first.revenue, 0);
    }
    assert [line] == [] + [line];
    SumAppend([], line, P.Refund());
    SA.RefundPostsExactlyWhen(ret, facts, world);
  }

  lemma SecondLineRefund()
    ensures var refund := P.ItemReturnedPlan(SecondLineBack(), TwoLineFacts(), FreeGoods());
            refund.Ok? && |refund.value.facts| == 1 && refund.value.facts[0].tax == 0
  {
    SecondLineFound();
    NoVatGivenBack(SecondLineBack(), SecondLineBack().lines[0], TwoLineFacts(), FreeGoods(), TwoLineFacts()[0]);
  }

  /**
   The sale and the refund both post, yet refunding the second line whole gives
   back none of the cent of VAT it was sold with.
   */
  lemma RepeatedSkuRefundDrifts()
    ensures var sold := K.Outcome(Run(Stocked(3)).stock, TwoLineCart(), OnePrice(3, 1600));
            && sold.Ok?
            && var sale := P.ItemSoldPlan(sold.value.event, FreeGoods());
               && sale.Ok? && sale.value.facts == TwoLineFacts()
    ensures var refund := P.ItemReturnedPlan(SecondLineBack(), TwoLineFacts(), FreeGoods());
            && refund.Ok? && |refund.value.facts| == 1
            && refund.value.facts[0].tax == 0 && TwoLineFacts()[1].tax == 1
            && !SA.Cancels(refund.value.facts[0], TwoLineFacts()[1])
  {
    TwoLineSale();
    TwoLineSalePosts();
    SecondLineRefund();
  }

  // ---- A return with a product on two lines ----

  /** One unit and two of the same product come back to the same place. */
  function BothLinesBack(): E.ItemReturned {
    E.ItemReturned(1, "R", "T", "S", [E.ReturnedLine("A", 1, "L", 3), E.ReturnedLine("A", 2, "L", 7)])
  }

  /** Three units come back and one is restored: the second line counts as a repeat of the first. */
  lemma RepeatedSkuReturnRestoresTheFirstLine()
    ensures var before, after := Run(Stocked(3)).stock, Run(Stocked(3) + [ReturnStep(BothLinesBack())]).stock;
            && SumBy(BothLinesBack().lines, SL.ReturnedAt(SLOT)) == 3
            && OnHand(before, SLOT) == 3 && OnHand(after, SLOT) == 4
  {
    var lines := BothLinesBack().lines;
    StockedRun(3);
    RunSnoc(Stocked(3), ReturnStep(BothLinesBack()));
    SL.ReturnRestores(Run(Stocked(3)).stock, lines, "R", SLOT);
    PP.SumTwo(lines[0], lines[1], SL.ReturnedAt(SLOT));
  }

  // ---- A lost reply ----

  /** Inventory serves the reserve call, and its reply does not arrive; every release would get through. */
  function ReplyIsLost(): K.Environment {
    OnePrice(1, 0).(calls := (k: nat) => K.ReplyLost)
  }

  /** The checkout is refused and has nothing to release, yet a unit stays allocated. */
  lemma LostReplyLeaks()
    ensures var s := Run(Stocked(1)).stock;
            var s' := K.AfterCheckout(s, HalfCentCart(), ReplyIsLost());
            && K.Outcome(s, HalfCentCart(), ReplyIsLost()) == Err(K.InventoryUnreachable)
            && Allocated(s, SLOT) == 0 && Allocated(s', SLOT) == 1
  {
    StockedRun(1);
    var s, cart, env := Run(Stocked(1)).stock, HalfCentCart(), ReplyIsLost();
    assert cart.lines[..0] == [] && K.ReserveAll(s, cart, [], env) == K.Progress(s, [], None);
    var p := K.ReserveAll(s, cart, cart.lines, env);
    assert p == K.ReserveLine(K.Progress(s, [], None), cart, K.CartLine("A", 1), env);
    assert p.failure == Some(K.InventoryUnreachable) && p.reserved == [];
    assert K.ReleaseAll(p.stock, [], env.releases) == p.stock;
    CS.ReserveEffect(s, "A", "L", 1, "T", SLOT);
  }
}
