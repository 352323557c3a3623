/**
 Stock counts: a count freezes each product's expected quantity, counters record
 what they find, and posting applies every variance to the stock of the moment.
 */
module StockCounts {
  import opened Wrappers
  import opened Sums
  import opened Stock
  import E = Events

  datatype CountStatus = Open | Submitted | Posted | Cancelled

  datatype CountLine = CountLine(sku: string, expected: int, counted: Option<int>, unitCost: int)

  /** A count's id and number are its position. */
  datatype Count = Count(location: string, status: CountStatus, lines: seq<CountLine>)

  datatype Inventory = Inventory(stock: Stock, counts: seq<Count>)

  datatype Request = Request(location: string, full: bool, skus: seq<string>, category: string)

  datatype Uncounted = Reject | Skip | Zero

  datatype Outcome = Done | BadRequest | Conflict | NotFound

  predicate HoldsLocation(c: Count) {
    c.status == Open || c.status == Submitted
  }

  // ---- Creating a count ----

  function Lower(c: char): char {
    if 'A' <= c <= 'Z' then (c as int + 32) as char else c
  }

  predicate SameText(a: string, b: string) {
    |a| == |b| && forall i :: 0 <= i < |a| ==> Lower(a[i]) == Lower(b[i])
  }

  /** The products a request covers. */
  function Covered(s: Stock, r: Request): set<string> {
    if r.full then set slot | slot in s.levels && slot.location == r.location && slot.sku in s.products :: slot.sku
    else if r.skus != [] then set sku | sku in s.products && sku in r.skus
    else set sku | sku in s.products && SameText(s.products[sku].category, r.category)
  }

  /** The rows of a query: its products, each once, in whatever order the database returns them. */
  ghost predicate Lists(rows: seq<string>, products: set<string>) {
    Distinct(rows) && forall sku :: sku in rows <==> sku in products
  }

  predicate HasActive(counts: seq<Count>, location: string) {
    exists i :: 0 <= i < |counts| && counts[i].location == location && HoldsLocation(counts[i])
  }

  function CreateOutcome(inv: Inventory, r: Request): Outcome {
    if r.full && (r.skus != [] || r.category != "") then BadRequest
    else if !r.full && r.skus == [] && r.category == "" then BadRequest
    else if HasActive(inv.counts, r.location) then Conflict
    else if exists i :: 0 <= i < |r.skus| && r.skus[i] !in inv.stock.products then NotFound
    else if Covered(inv.stock, r) == {} then BadRequest
    else Done
  }

  function ExpectedLine(s: Stock, location: string, sku: string): CountLine
    requires sku in s.products
  {
    CountLine(sku, OnHand(s, Slot(sku, location)), None, s.products[sku].unitCost)
  }

  function ExpectedLines(s: Stock, location: string, rows: seq<string>): seq<CountLine>
    requires forall sku :: sku in rows ==> sku in s.products
  {
    seq(|rows|, i requires 0 <= i < |rows| => ExpectedLine(s, location, rows[i]))
  }

  ghost function Create(inv: Inventory, r: Request, rows: seq<string>): Inventory {
    if CreateOutcome(inv, r) != Done || !Lists(rows, Covered(inv.stock, r)) then inv
    else inv.(counts := inv.counts + [Count(r.location, Open, ExpectedLines(inv.stock, r.location, rows))])
  }

  // ---- Counting, submitting, posting, cancelling ----

  /** The position of a SKU's line, or the number of lines. */
  function LineOf(lines: seq<CountLine>, sku: string): (i: nat)
    ensures i <= |lines| && (i < |lines| ==> lines[i].sku == sku)
    ensures forall j :: 0 <= j < i ==> lines[j].sku != sku
  {
    if lines == [] then 0
    else if lines[0].sku == sku then 0
    else 1 + LineOf(lines[1..], sku)
  }

  function RecordOutcome(inv: Inventory, id: nat, sku: string): Outcome {
    if id >= |inv.counts| then NotFound
    else if inv.counts[id].status != Open then Conflict
    else if LineOf(inv.counts[id].lines, sku) == |inv.counts[id].lines| && sku !in inv.stock.products then NotFound
    else Done
  }

  function RecordCount(inv: Inventory, id: nat, sku: string, counted: int): Inventory {
    if RecordOutcome(inv, id, sku) != Done then inv
    else
      var c := inv.counts[id];
      var i := LineOf(c.lines, sku);
      var lines := if i < |c.lines| then c.lines[i := c.lines[i].(counted := Some(counted))]
                   else c.lines + [ExpectedLine(inv.stock, c.location, sku).(counted := Some(counted))];
      inv.(counts := inv.counts[id := c.(lines := lines)])
  }

  /** Lines nobody counted, recorded as found empty. */
  function Zeroed(lines: seq<CountLine>): seq<CountLine> {
    seq(|lines|, i requires 0 <= i < |lines| =>
      if lines[i].counted.None? then lines[i].(counted := Some(0)) else lines[i])
  }

  predicate AllCounted(lines: seq<CountLine>) {
    forall i :: 0 <= i < |lines| ==> lines[i].counted.Some?
  }

  predicate NoneCounted(lines: seq<CountLine>) {
    forall i :: 0 <= i < |lines| ==> lines[i].counted.None?
  }

  function SubmitOutcome(inv: Inventory, id: nat, uncounted: Uncounted): Outcome {
    if id >= |inv.counts| then NotFound
    else if inv.counts[id].status != Open then Conflict
    else if !AllCounted(inv.counts[id].lines) && uncounted == Reject then BadRequest
    else if NoneCounted(inv.counts[id].lines) && uncounted != Zero then BadRequest
    else Done
  }

  function Submit(inv: Inventory, id: nat, uncounted: Uncounted): Inventory {
    if SubmitOutcome(inv, id, uncounted) != Done then inv
    else
      var c := inv.counts[id];
      var lines := if uncounted == Zero then Zeroed(c.lines) else c.lines;
      inv.(counts := inv.counts[id := c.(status := Submitted, lines := lines)])
  }

  predicate Changed(line: CountLine) {
    line.counted.Some? && line.counted.value != line.expected
  }

  function Delta(line: CountLine): int {
    if line.counted.Some? then line.counted.value - line.expected else 0
  }

  /** Applies the lines' variances in order; none of them if one leaves its level below zero. */
  function PostLines(s: Stock, location: string, lines: seq<CountLine>, id: nat): Option<Stock> {
    if lines == [] then Some(s)
    else
      var init, last := PostLines(s, location, lines[..|lines| - 1], id), lines[|lines| - 1];
      if init.None? || !Changed(last) then init
      else
        var moved := Move(init.value, Movement(last.sku, location, Adjustment, Delta(last), CountNumber(id)));
        if OnHand(moved, Slot(last.sku, location)) < 0 then None else Some(moved)
  }

  function PostOutcome(inv: Inventory, id: nat): Outcome {
    if id >= |inv.counts| then NotFound
    else if inv.counts[id].status != Submitted then Conflict
    else if PostLines(inv.stock, inv.counts[id].location, inv.counts[id].lines, id).None? then Conflict
    else Done
  }

  function Post(inv: Inventory, id: nat): Inventory {
    if PostOutcome(inv, id) != Done then inv
    else
      var c := inv.counts[id];
      Inventory(PostLines(inv.stock, c.location, c.lines, id).value, inv.counts[id := c.(status := Posted)])
  }

  function Changes(lines: seq<CountLine>): seq<E.AdjustedLine> {
    if lines == [] then []
    else
      var init, last := Changes(lines[..|lines| - 1]), lines[|lines| - 1];
      if Changed(last) then init + [E.AdjustedLine(last.sku, Delta(last), last.unitCost)] else init
  }

  function CancelOutcome(inv: Inventory, id: nat): Outcome {
    if id >= |inv.counts| then NotFound
    else if !HoldsLocation(inv.counts[id]) then Conflict
    else Done
  }

  function Cancel(inv: Inventory, id: nat): Inventory {
    if CancelOutcome(inv, id) != Done then inv
    else inv.(counts := inv.counts[id := inv.counts[id].(status := Cancelled)])
  }

  // ---- Variance totals ----

  datatype Summary = Summary(lineCount: nat, counted: int, withVariance: int, unitsOver: int, unitsShort: int,
                             varianceValue: int)

  function IsCounted(): CountLine -> int {
    (l: CountLine) => if l.counted.Some? then 1 else 0
  }

  function HasVariance(): CountLine -> int {
    (l: CountLine) => if Changed(l) then 1 else 0
  }

  function Over(): CountLine -> int {
    (l: CountLine) => if Delta(l) > 0 then Delta(l) else 0
  }

  function Short(): CountLine -> int {
    (l: CountLine) => if Delta(l) < 0 then -Delta(l) else 0
  }

  function Variance(): CountLine -> int {
    (l: CountLine) => Delta(l) * l.unitCost
  }

  method Summarize(lines: seq<CountLine>) returns (r: Summary)
    ensures r.unitsOver == SumBy(lines, Over()) && r.unitsShort == SumBy(lines, Short())
    ensures r.varianceValue == SumBy(lines, Variance())
    ensures r.lineCount == |lines| && r.counted == SumBy(lines, IsCounted())
    ensures r.withVariance == SumBy(lines, HasVariance())
  {
    var counted, changed, over, short, value := 0, 0, 0, 0, 0;
    for i := 0 to |lines|
      invariant counted == SumBy(lines[..i], IsCounted())
      invariant over == SumBy(lines[..i], Over()) && short == SumBy(lines[..i], Short())
      invariant value == SumBy(lines[..i], Variance())
    {
      var line := lines[i];
      SumStep(lines, i, IsCounted());
      SumStep(lines, i, Over());
      SumStep(lines, i, Short());
      SumStep(lines, i, Variance());
      if line.counted.None? {
        continue;
      }
      counted := counted + 1;
      var delta := line.counted.value - line.expected;
      if delta > 0 {
        over := over + delta;
      }
      if delta < 0 {
        short := short - delta;
      }
      value := value + delta * line.unitCost;
    }
    for i := 0 to |lines|
      invariant changed == SumBy(lines[..i], HasVariance())
    {
      SumStep(lines, i, HasVariance());
      if lines[i].counted.Some? && lines[i].counted.value != lines[i].expected {
        changed := changed + 1;
      }
    }
    assert lines[..|lines|] == lines;
    r := Summary(|lines|, counted, changed, over, short, value);
  }

  // ---- The service ----

  class StockCountsService {
    const stock: StockService
    var counts: seq<Count>

    function State(): Inventory
      reads this, stock
    {
      Inventory(stock.State(), counts)
    }

    constructor (stock: StockService)
      ensures this.stock == stock && State() == Inventory(stock.State(), [])
    {
      this.stock, counts := stock, [];
    }

    method CreateCount(r: Request, rows: seq<string>) returns (o: Outcome)
      requires Lists(rows, Covered(stock.State(), r))
      modifies this
      ensures State() == Create(old(State()), r, rows)
      ensures o == CreateOutcome(old(State()), r)
    {
      if r.full && (r.skus != [] || r.category != "") {
        return BadRequest;
      }
      if !r.full && r.skus == [] && r.category == "" {
        return BadRequest;
      }
      if HasActive(counts, r.location) {
        return Conflict;
      }
      if exists i :: 0 <= i < |r.skus| && r.skus[i] !in stock.products {
        return NotFound;
      }
      if rows == [] {
        return BadRequest;
      }
      assert rows[0] in Covered(stock.State(), r);
      var lines: seq<CountLine> := [];
      for k := 0 to |rows|
        invariant forall sku :: sku in rows ==> sku in stock.products
        invariant lines == ExpectedLines(stock.State(), r.location, rows[..k])
      {
        var slot := Slot(rows[k], r.location);
        var onHand := if slot in stock.levels then stock.levels[slot].onHand else 0;
        assert rows[k] in rows;
        lines := lines + [CountLine(rows[k], onHand, None, stock.products[rows[k]].unitCost)];
      }
      assert rows[..|rows|] == rows;
      counts := counts + [Count(r.location, Open, lines)];
      return Done;
    }

    method RecordCounted(id: nat, sku: string, counted: int) returns (o: Outcome)
      modifies this
      ensures State() == RecordCount(old(State()), id, sku, counted)
      ensures o == RecordOutcome(old(State()), id, sku)
    {
      if id >= |counts| {
        return NotFound;
      }
      var c := counts[id];
      if c.status != Open {
        return Conflict;
      }
      var i := LineOf(c.lines, sku);
      if i < |c.lines| {
        counts := counts[id := c.(lines := c.lines[i := c.lines[i].(counted := Some(counted))])];
      } else {
        if sku !in stock.products {
          return NotFound;
        }
        var slot := Slot(sku, c.location);
        var onHand := if slot in stock.levels then stock.levels[slot].onHand else 0;
        var line := CountLine(sku, onHand, Some(counted), stock.products[sku].unitCost);
        counts := counts[id := c.(lines := c.lines + [line])];
      }
      return Done;
    }

    method SubmitCount(id: nat, uncounted: Uncounted) returns (o: Outcome)
      modifies this
      ensures State() == Submit(old(State()), id, uncounted)
      ensures o == SubmitOutcome(old(State()), id, uncounted)
    {
      if id >= |counts| {
        return NotFound;
      }
      var c := counts[id];
      if c.status != Open {
        return Conflict;
      }
      if !AllCounted(c.lines) && uncounted == Reject {
        return BadRequest;
      }
      if NoneCounted(c.lines) && uncounted != Zero {
        return BadRequest;
      }
      var lines := if uncounted == Zero && !AllCounted(c.lines) then Zeroed(c.lines) else c.lines;
      assert AllCounted(c.lines) ==> Zeroed(c.lines) == c.lines;
      counts := counts[id := c.(status := Submitted, lines := lines)];
      return Done;
    }

    /** One transaction over levels, log and count; a refused line rolls everything back. */
    method PostCount(id: nat) returns (o: Outcome, changes: seq<E.AdjustedLine>)
      modifies this, stock
      ensures State() == Post(old(State()), id)
      ensures o == PostOutcome(old(State()), id)
      ensures o == Done ==> changes == Changes(old(counts)[id].lines)
      ensures o != Done ==> changes == []
    {
      if id >= |counts| {
        return NotFound, [];
      }
      var c := counts[id];
      if c.status != Submitted {
        return Conflict, [];
      }
      changes := [];
      var levels, log := stock.levels, stock.log;
      for i := 0 to |c.lines|
        invariant stock.State() == old(stock.State())
        invariant PostLines(stock.State(), c.location, c.lines[..i], id) ==
                  Some(stock.State().(levels := levels, log := log))
        invariant changes == Changes(c.lines[..i])
      {
        var line := c.lines[i];
        assert c.lines[..i + 1] == c.lines[..i] + [line];
        if line.counted.None? || line.counted.value == line.expected {
          continue;
        }
        var delta := line.counted.value - line.expected;
        var slot := Slot(line.sku, c.location);
        var level := if slot in levels then Level(levels[slot].onHand + delta, levels[slot].held) else Level(delta, 0);
        if level.onHand < 0 {
          RefusedLine(stock.State(), c.location, c.lines, id, i + 1);
          return Conflict, [];
        }
        assert levels[slot := Level(0, 0)][slot := level] == levels[slot := level];
        levels := levels[slot := level];
        log := log + [Movement(line.sku, c.location, Adjustment, delta, CountNumber(id))];
        changes := changes + [E.AdjustedLine(line.sku, delta, line.unitCost)];
      }
      assert c.lines[..|c.lines|] == c.lines;
      stock.levels, stock.log := levels, log;
      counts := counts[id := c.(status := Posted)];
      o := Done;
    }

    method CancelCount(id: nat) returns (o: Outcome)
      modifies this
      ensures State() == Cancel(old(State()), id)
      ensures o == CancelOutcome(old(State()), id)
    {
      if id >= |counts| {
        return NotFound;
      }
      if !HoldsLocation(counts[id]) {
        return Conflict;
      }
      counts := counts[id := counts[id].(status := Cancelled)];
      return Done;
    }
  }

  /** Once a line is refused the whole posting is. */
  lemma {:induction false} RefusedLine(s: Stock, location: string, lines: seq<CountLine>, id: nat, i: nat)
    requires i <= |lines| && PostLines(s, location, lines[..i], id).None?
    ensures PostLines(s, location, lines, id).None?
    decreases |lines| - i
  {
    if i == |lines| {
      assert lines[..i] == lines;
    } else {
      assert lines[..i + 1][..i] == lines[..i];
      RefusedLine(s, location, lines, id, i + 1);
    }
  }
}
