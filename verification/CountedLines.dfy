/** What counters record and what submitting makes of lines nobody counted, up to the stock after posting. */
module CountedLines {
  import opened Wrappers
  import opened Sums
  import opened Stock
  import opened InventoryRuns
  import opened StockCounts
  import opened CountLaws
  import E = Events

  /** The same letter, in whatever case. */
  predicate SameLetter(a: char, b: char) {
    || a == b
    || ('A' <= a <= 'Z' && b as int == a as int + 32) || ('A' <= b <= 'Z' && a as int == b as int + 32)
  }

  /** Categories match letter by letter, whatever the case. */
  lemma CategoriesIgnoreCase(a: string, b: string)
    ensures SameText(a, b) <==> |a| == |b| && forall i :: 0 <= i < |a| ==> SameLetter(a[i], b[i])
  {
    forall x: char, y: char ensures Lower(x) == Lower(y) <==> SameLetter(x, y) {
      LowerIsLetter(x, y);
    }
  }

  lemma LowerIsLetter(x: char, y: char)
    ensures Lower(x) == Lower(y) <==> SameLetter(x, y)
  {
    assert Lower(x) == Lower(y) <==> Lower(x) as int == Lower(y) as int;
  }

  /** What a request asks to be counted. */
  ghost predicate Asks(s: Stock, r: Request, sku: string) {
    && sku in s.products
    && if r.full then Slot(sku, r.location) in s.levels
       else if r.skus != [] then sku in r.skus
       else SameText(s.products[sku].category, r.category)
  }

  /**
   A count is created exactly when the request is for everything or for a choice but
   not both, no count is open or submitted at the location, every listed product
   exists and some product is asked for.
   */
  lemma CreateSucceedsExactlyWhen(inv: Inventory, r: Request)
    ensures CreateOutcome(inv, r) == Done <==>
            && (r.full <==> r.skus == [] && r.category == "")
            && (forall c :: c in inv.counts && c.location == r.location ==> c.status in {Posted, Cancelled})
            && (forall sku :: sku in r.skus ==> sku in inv.stock.products)
            && exists sku :: Asks(inv.stock, r, sku)
    ensures CreateOutcome(inv, r) == Conflict ==>
              exists c :: c in inv.counts && c.location == r.location && c.status in {Open, Submitted}
  {
    forall sku ensures sku in StockCounts.Covered(inv.stock, r) <==> Asks(inv.stock, r, sku) {
      CoversWhatIsAsked(inv.stock, r, sku);
    }
    ActiveCounts(inv.counts, r.location);
    assert (forall sku :: sku in r.skus ==> sku in inv.stock.products) <==>
           forall i :: 0 <= i < |r.skus| ==> r.skus[i] in inv.stock.products;
    assert StockCounts.Covered(inv.stock, r) == {} <==> !exists sku :: sku in StockCounts.Covered(inv.stock, r);
  }

  lemma ActiveCounts(counts: seq<Count>, location: string)
    ensures HasActive(counts, location) <==>
            exists c :: c in counts && c.location == location && c.status in {Open, Submitted}
  {
    if HasActive(counts, location) {
      var i :| 0 <= i < |counts| && counts[i].location == location && HoldsLocation(counts[i]);
      assert counts[i] in counts;
    }
  }

  /**
   A count that is created freezes one uncounted line for each product asked for:
   everything with stock at the location, the products listed, or a category.
   */
  lemma CreatedCountListsWhatIsAsked(inv: Inventory, r: Request, rows: seq<string>)
    requires CreateOutcome(inv, r) == Done && Lists(rows, StockCounts.Covered(inv.stock, r))
    ensures var inv', id := Create(inv, r, rows), |inv.counts|;
            && inv'.stock == inv.stock && |inv'.counts| == id + 1 && inv'.counts[..id] == inv.counts
            && inv'.counts[id].location == r.location && inv'.counts[id].status == Open
            && (forall sku :: Asks(inv.stock, r, sku) <==> exists l :: l in inv'.counts[id].lines && l.sku == sku)
            && OneLineEach(inv'.counts[id].lines)
            && forall l :: l in inv'.counts[id].lines ==> l.counted.None? && l.sku in inv.stock.products
                                                          && l.unitCost == inv.stock.products[l.sku].unitCost
  {
    var lines := Create(inv, r, rows).counts[|inv.counts|].lines;
    forall sku ensures sku in StockCounts.Covered(inv.stock, r) <==> Asks(inv.stock, r, sku) {
      CoversWhatIsAsked(inv.stock, r, sku);
    }
    forall l | l in lines
      ensures l.counted.None? && l.sku in inv.stock.products && l.unitCost == inv.stock.products[l.sku].unitCost
    {
      var i :| 0 <= i < |lines| && lines[i] == l;
      assert rows[i] in rows;
    }
    forall sku ensures sku in rows <==> exists l :: l in lines && l.sku == sku {
      if sku in rows {
        var i :| 0 <= i < |rows| && rows[i] == sku;
        assert lines[i] in lines;
      }
    }
  }

  lemma CoversWhatIsAsked(s: Stock, r: Request, sku: string)
    ensures sku in StockCounts.Covered(s, r) <==> Asks(s, r, sku)
  {
    if r.full {
      assert Slot(sku, r.location).sku == sku;
    }
  }

  /** Recording a quantity puts it on the product's own line and leaves every other line as it is. */
  lemma RecordedQuantityStands(inv: Inventory, id: nat, sku: string, counted: int)
    requires RecordOutcome(inv, id, sku) == Done && OneLineEach(inv.counts[id].lines)
    ensures var before, after := inv.counts[id].lines, RecordCount(inv, id, sku, counted).counts[id].lines;
            && RecordCount(inv, id, sku, counted).stock == inv.stock
            && (exists l :: l in after && l.sku == sku && l.counted == Some(counted))
            && (forall l :: l in after && l.sku == sku ==> l.counted == Some(counted))
            && (forall l :: l in after && l.sku != sku ==> l in before)
            && (forall l :: l in before && l.sku != sku ==> l in after)
            && (forall l :: l in before && l.sku == sku ==> l.(counted := Some(counted)) in after)
            && ((forall l :: l in before ==> l.sku != sku) ==>
                  |after| == |before| + 1
                  && after[|before|].expected == OnHand(inv.stock, Slot(sku, inv.counts[id].location)))
  {
    var before, after := inv.counts[id].lines, RecordCount(inv, id, sku, counted).counts[id].lines;
    var i := LineOf(before, sku);
    forall l | l in before && l.sku != sku ensures l in after {
      var k :| 0 <= k < |before| && before[k] == l;
      assert after[k] == l;
    }
    if i < |before| {
      assert after[i] in after && after[i] == before[i].(counted := Some(counted)) && before[i] in before;
    } else {
      assert after[|before|] in after && after[|before|].sku == sku;
      assert forall l :: l in after <==> l in before || l == after[|before|];
    }
  }

  /**
   Submitting is refused unless someone counted or everything left is to be zero, and
   with Reject unless everything is counted.
   */
  lemma SubmitSucceedsExactlyWhen(inv: Inventory, id: nat, uncounted: Uncounted)
    requires id < |inv.counts|
    ensures var c, o := inv.counts[id], SubmitOutcome(inv, id, uncounted);
            && (o == Conflict <==> c.status != Open)
            && (o == Done <==>
                && c.status == Open
                && match uncounted
                   case Zero => true
                   case Skip => exists l :: l in c.lines && l.counted.Some?
                   case Reject => c.lines != [] && forall l :: l in c.lines ==> l.counted.Some?)
            && (o != Done ==> Submit(inv, id, uncounted) == inv)
  {
    var lines := inv.counts[id].lines;
    if lines != [] {
      assert lines[0] in lines;
    }
    assert AllCounted(lines) <==> forall l :: l in lines ==> l.counted.Some? by {
      if !AllCounted(lines) {
        var i :| 0 <= i < |lines| && lines[i].counted.None?;
        assert lines[i] in lines;
      }
    }
    assert NoneCounted(lines) <==> forall l :: l in lines ==> l.counted.None? by {
      if NoneCounted(lines) {
        forall l | l in lines ensures l.counted.None? {
          var i :| 0 <= i < |lines| && lines[i] == l;
        }
      } else {
        var i :| 0 <= i < |lines| && lines[i].counted.Some?;
        assert lines[i] in lines;
      }
    }
  }

  /**
   Submitting with Zero finds the lines nobody counted empty; with Skip or Reject
   it changes no line. Lines somebody counted always stay as they are.
   */
  lemma SubmitRecordsUncounted(inv: Inventory, id: nat, uncounted: Uncounted)
    requires SubmitOutcome(inv, id, uncounted) == Done
    ensures var inv' := Submit(inv, id, uncounted);
            var before, after := inv.counts[id], inv'.counts[id];
            && inv'.stock == inv.stock && after.status == Submitted && |after.lines| == |before.lines|
            && forall j :: 0 <= j < |before.lines| ==>
                 after.lines[j] == if before.lines[j].counted.None? && uncounted == Zero
                                   then CountLine(before.lines[j].sku, before.lines[j].expected, Some(0),
                                                  before.lines[j].unitCost)
                                   else before.lines[j]
  {
  }

  // ---- A submitted count's lines are final ----

  /** The count is submitted or beyond, and its lines are these. */
  ghost predicate Settled(inv: Inventory, id: nat, lines: seq<CountLine>) {
    id < |inv.counts| && inv.counts[id].status != Open && inv.counts[id].lines == lines
  }

  lemma StepKeepsSettled(inv: Inventory, step: Step, id: nat, lines: seq<CountLine>)
    requires Settled(inv, id, lines)
    ensures Settled(Apply(inv, step), id, lines)
  {
    match step
    case CreateStep(_, _) =>
    case RecordStep(_, _, _) =>
    case SubmitStep(_, _) =>
    case PostStep(_) =>
    case CancelStep(_) =>
    case _ =>
  }

  lemma {:induction false} RunKeepsSettled(inv: Inventory, steps: seq<Step>, id: nat, lines: seq<CountLine>)
    requires Settled(inv, id, lines)
    ensures Settled(RunFrom(inv, steps), id, lines)
  {
    if steps != [] {
      var n := |steps| - 1;
      RunKeepsSettled(inv, steps[..n], id, lines);
      StepKeepsSettled(RunFrom(inv, steps[..n]), steps[n], id, lines);
    }
  }

  lemma {:induction false} RunFromConcat(inv: Inventory, first: seq<Step>, second: seq<Step>)
    ensures RunFrom(inv, first + second) == RunFrom(RunFrom(inv, first), second)
  {
    if second == [] {
      assert first + second == first;
    } else {
      var n := |second| - 1;
      assert (first + second)[..|first + second| - 1] == first + second[..n];
      RunFromConcat(inv, first, second[..n]);
    }
  }

  /** A line that nobody had counted when its count was submitted with Zero. */
  ghost predicate LeftUncounted(inv: Inventory, id: nat, j: nat) {
    && SubmitOutcome(inv, id, Zero) == Done && j < |inv.counts[id].lines|
    && inv.counts[id].lines[j].counted.None?
  }

  /** A posted count keeps its lines and is closed: it can be neither posted again nor cancelled. */
  lemma PostedOnce(inv: Inventory, id: nat)
    requires PostOutcome(inv, id) == Done
    ensures var inv' := Post(inv, id);
            && |inv'.counts| == |inv.counts| && inv'.counts[id] == inv.counts[id].(status := Posted)
            && PostOutcome(inv', id) == Conflict && CancelOutcome(inv', id) == Conflict
  {
  }

  /** An open or submitted count can be cancelled, which moves no stock; no other can. */
  lemma CancelledExactlyWhen(inv: Inventory, id: nat)
    requires id < |inv.counts|
    ensures var inv' := Cancel(inv, id);
            && inv'.stock == inv.stock
            && if inv.counts[id].status in {Open, Submitted}
               then inv'.counts == inv.counts[id := inv.counts[id].(status := Cancelled)]
               else inv' == inv && CancelOutcome(inv, id) == Conflict
  {
  }

  /** After the submit, and whatever follows, the line counts as found empty. */
  lemma ZeroedForGood(inv: Inventory, id: nat, j: nat, more: seq<Step>)
    requires LeftUncounted(inv, id, j)
    ensures var inv' := RunFrom(Apply(inv, SubmitStep(id, Zero)), more);
            && id < |inv'.counts| && |inv'.counts[id].lines| == |inv.counts[id].lines|
            && inv'.counts[id].lines[j].counted == Some(0)
            && inv'.counts[id].lines[j].sku == inv.counts[id].lines[j].sku
  {
    var submitted := Apply(inv, SubmitStep(id, Zero));
    SubmitRecordsUncounted(inv, id, Zero);
    RunKeepsSettled(submitted, more, id, submitted.counts[id].lines);
  }

  lemma SubmittedOnTheWay(inv: Inventory, first: seq<Step>, id: nat, more: seq<Step>)
    ensures RunFrom(inv, first + [SubmitStep(id, Zero)] + more)
            == RunFrom(Apply(RunFrom(inv, first), SubmitStep(id, Zero)), more)
  {
    var steps := first + [SubmitStep(id, Zero)];
    assert steps[..|steps| - 1] == first;
    RunFromConcat(inv, steps, more);
  }

  /**
   In every run, stock may move in any way before and after the submit. When a
   count submitted with Zero is posted, the slot of a line nobody had counted is
   left with exactly what moved since the line was frozen: everything the books
   had expected there is taken off.
   */
  lemma UncountedLineIsEmptied(before: seq<Step>, freeze: Step, first: seq<Step>, more: seq<Step>, id: nat, j: nat)
    requires Freezes(Run(before), Apply(Run(before), freeze), id, j)
    requires LeftUncounted(RunFrom(Apply(Run(before), freeze), first), id, j)
    requires PostOutcome(RunFrom(Apply(Run(before), freeze), first + [SubmitStep(id, Zero)] + more), id) == Done
    ensures var frozen := Apply(Run(before), freeze);
            var inv := RunFrom(frozen, first + [SubmitStep(id, Zero)] + more);
            var slot := Slot(frozen.counts[id].lines[j].sku, frozen.counts[id].location);
            && frozen.stock.log <= inv.stock.log
            && OnHand(Post(inv, id).stock, slot) == SumBy(inv.stock.log[|frozen.stock.log|..], OnHandDelta(slot))
  {
    var frozen := Apply(Run(before), freeze);
    var during := first + [SubmitStep(id, Zero)] + more;
    SubmittedOnTheWay(frozen, first, id, more);
    ZeroedForGood(RunFrom(frozen, first), id, j, more);
    RunIsLater(frozen, during);
    assert SameLine(frozen.counts[id].lines[j], RunFrom(frozen, during).counts[id].lines[j]);
    PostUnderMovement(before, freeze, during, id, j);
  }

  // ---- What is published and totalled ----

  /** The published changes are exactly the lines found different from what was expected, as found less expected. */
  lemma {:induction false} ChangesAreVariances(lines: seq<CountLine>)
    ensures forall a :: a in Changes(lines) <==>
                          exists l :: l in lines && l.counted.Some? && l.counted.value != l.expected
                                      && a == E.AdjustedLine(l.sku, l.counted.value - l.expected, l.unitCost)
  {
    if lines != [] {
      var init, last := lines[..|lines| - 1], lines[|lines| - 1];
      ChangesAreVariances(init);
      assert lines == init + [last];
    }
  }

  function Found(): CountLine -> int {
    (l: CountLine) => if l.counted.Some? then l.counted.value else 0
  }

  function Missed(): CountLine -> int {
    (l: CountLine) => if l.counted.Some? then l.expected else 0
  }

  /** Units over less units short are what was found less what was expected of the counted lines. */
  lemma {:induction false} OverLessShort(lines: seq<CountLine>)
    ensures SumBy(lines, Over()) >= 0 && SumBy(lines, Short()) >= 0
    ensures SumBy(lines, Over()) - SumBy(lines, Short()) == SumBy(lines, Found()) - SumBy(lines, Missed())
    ensures (forall l :: l in lines && l.counted.Some? ==> l.counted.value >= l.expected) ==> SumBy(lines, Short()) == 0
    ensures (forall l :: l in lines && l.counted.Some? ==> l.counted.value <= l.expected) ==> SumBy(lines, Over()) == 0
  {
    if lines != [] {
      OverLessShort(lines[..|lines| - 1]);
      assert lines[|lines| - 1] in lines;
    }
  }
}
