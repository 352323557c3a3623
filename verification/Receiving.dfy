/** Receiving's tables and operations: expected deliveries, goods received notes, scans. */
module Receiving {
  import opened Wrappers
  import opened Sums
  import opened Events

  datatype OrderLine = OrderLine(sku: string, ordered: int)

  /** An open purchase order as Procurement describes it. */
  datatype OpenOrder = OpenOrder(poNumber: string, lines: seq<OrderLine>)

  datatype DeliveryStatus = Expected | PartiallyReceived | FullyReceived

  datatype DeliveryLine = DeliveryLine(sku: string, ordered: int, received: int)

  datatype Delivery = Delivery(status: DeliveryStatus, lines: seq<DeliveryLine>)

  datatype Note = Note(number: string, poNumber: string, location: string, finalized: bool, lines: seq<ReceivedLine>)

  datatype Dock = Dock(deliveries: map<string, Delivery>, notes: seq<Note>)

  datatype Scan = Scan(sku: string, quantity: int, condition: Condition)

  datatype DockError = NotFound | NotDraft | NothingScanned | AlreadyReceived | NotUnique

  const NO_DELIVERIES := Dock(map[], [])

  // ---- Discrepancies ----

  function Arrived(sku: string): ReceivedLine -> int {
    (l: ReceivedLine) => if l.sku == sku then l.received else 0
  }

  /** A GOOD line compares everything that arrived of its SKU with what was ordered. */
  function DiscrepancyFor(line: ReceivedLine, lines: seq<ReceivedLine>): Discrepancy {
    if line.condition == Damaged then (if line.received > 0 then Damage else NoDiscrepancy)
    else
      var arrived := SumBy(lines, Arrived(line.sku));
      if arrived < line.ordered then Shortage
      else if arrived > line.ordered then Overage
      else NoDiscrepancy
  }

  function Flagged(lines: seq<ReceivedLine>): seq<ReceivedLine> {
    seq(|lines|, i requires 0 <= i < |lines| => lines[i].(discrepancy := DiscrepancyFor(lines[i], lines)))
  }

  // ---- Expected deliveries ----

  predicate UniqueSkus(lines: seq<OrderLine>) {
    forall i, j :: 0 <= i < j < |lines| ==> lines[i].sku != lines[j].sku
  }

  function NewDelivery(lines: seq<OrderLine>): Delivery {
    Delivery(Expected, seq(|lines|, i requires 0 <= i < |lines| => DeliveryLine(lines[i].sku, lines[i].ordered, 0)))
  }

  /** Keeps the existing delivery, or seeds one; the table refuses a repeated SKU. */
  function RecordDelivery(d: Dock, po: OpenOrder): Result<Dock, DockError> {
    if po.poNumber in d.deliveries then Ok(d)
    else if !UniqueSkus(po.lines) then Err(NotUnique)
    else Ok(d.(deliveries := d.deliveries[po.poNumber := NewDelivery(po.lines)]))
  }

  // ---- Goods received notes ----

  function Outstanding(lines: seq<DeliveryLine>): seq<ReceivedLine> {
    if lines == [] then []
    else
      var init, last := Outstanding(lines[..|lines| - 1]), lines[|lines| - 1];
      if last.ordered - last.received > 0
      then init + [ReceivedLine(last.sku, last.ordered - last.received, 0, Good, NoDiscrepancy)]
      else init
  }

  /** A note asks for what is still missing of each line, and for nothing of a line that is complete. */
  lemma {:induction false} AsksForWhatIsMissing(lines: seq<DeliveryLine>)
    ensures forall l :: l in Outstanding(lines) <==>
                          exists d :: d in lines && d.received < d.ordered
                                      && l == ReceivedLine(d.sku, d.ordered - d.received, 0, Good, NoDiscrepancy)
  {
    if lines != [] {
      var init, last := lines[..|lines| - 1], lines[|lines| - 1];
      AsksForWhatIsMissing(init);
      assert lines == init + [last];
    }
  }

  predicate HasNote(notes: seq<Note>, number: string) {
    exists i :: 0 <= i < |notes| && notes[i].number == number
  }

  /** Opening a note seeds the delivery first, and keeps it even when the note is refused. */
  function CreateNote(d: Dock, po: OpenOrder, location: string, number: string): Dock {
    var recorded := RecordDelivery(d, po);
    if recorded.Err? then d
    else
      var d1 := recorded.value;
      var lines := Outstanding(d1.deliveries[po.poNumber].lines);
      if lines == [] || HasNote(d1.notes, number) then d1
      else d1.(notes := d1.notes + [Note(number, po.poNumber, location, false, lines)])
  }

  function CreateError(d: Dock, po: OpenOrder, number: string): Option<DockError> {
    var recorded := RecordDelivery(d, po);
    if recorded.Err? then Some(recorded.error)
    else if Outstanding(recorded.value.deliveries[po.poNumber].lines) == [] then Some(AlreadyReceived)
    else if HasNote(d.notes, number) then Some(NotUnique)
    else None
  }

  /**
   A note is opened exactly when the order names each SKU once or is known already,
   something of it is missing and no note has the number. It is a draft at the
   location asked for, with a line for everything missing.
   */
  lemma NoteOpenedExactlyWhen(d: Dock, po: OpenOrder, location: string, number: string)
    ensures var d', known := CreateNote(d, po, location, number), po.poNumber in d.deliveries;
            var distinct := forall i, j :: 0 <= i < j < |po.lines| ==> po.lines[i].sku != po.lines[j].sku;
            var expected := if known then d.deliveries[po.poNumber].lines else NewDelivery(po.lines).lines;
            && (CreateError(d, po, number).None? <==>
                && (known || distinct) && (exists l :: l in expected && l.received < l.ordered)
                && forall n :: n in d.notes ==> n.number != number)
            && (CreateError(d, po, number).Some? ==> d'.notes == d.notes)
            && (CreateError(d, po, number).None? ==>
                  d'.notes == d.notes + [Note(number, po.poNumber, location, false, Outstanding(expected))])
  {
    var known := po.poNumber in d.deliveries;
    var expected := if known then d.deliveries[po.poNumber].lines else NewDelivery(po.lines).lines;
    AsksForWhatIsMissing(expected);
    SomethingIsMissing(expected);
    if HasNote(d.notes, number) {
      var i :| 0 <= i < |d.notes| && d.notes[i].number == number;
      assert d.notes[i] in d.notes;
    }
  }

  lemma SomethingIsMissing(lines: seq<DeliveryLine>)
    ensures Outstanding(lines) != [] <==> exists l :: l in lines && l.received < l.ordered
  {
    AsksForWhatIsMissing(lines);
    if Outstanding(lines) != [] {
      assert Outstanding(lines)[0] in Outstanding(lines);
    }
    if l :| l in lines && l.received < l.ordered {
      assert ReceivedLine(l.sku, l.ordered - l.received, 0, Good, NoDiscrepancy) in Outstanding(lines);
    }
  }

  /** The position of the line for a SKU in a condition, or the number of lines. */
  function LineOf(lines: seq<ReceivedLine>, sku: string, condition: Condition): (i: nat)
    ensures i <= |lines| && (i < |lines| ==> lines[i].sku == sku && lines[i].condition == condition)
    ensures forall j :: 0 <= j < i ==> lines[j].sku != sku || lines[j].condition != condition
  {
    if lines == [] then 0
    else if lines[0].sku == sku && lines[0].condition == condition then 0
    else 1 + LineOf(lines[1..], sku, condition)
  }

  /** Adds the scan to its line, opening one that ordered nothing if there is none. */
  function AddScan(lines: seq<ReceivedLine>, s: Scan): seq<ReceivedLine> {
    var i := LineOf(lines, s.sku, s.condition);
    if i < |lines| then lines[i := lines[i].(received := lines[i].received + s.quantity)]
    else lines + [ReceivedLine(s.sku, 0, s.quantity, s.condition, NoDiscrepancy)]
  }

  /** Recomputes the flags of one SKU's lines only. */
  function FlagSku(lines: seq<ReceivedLine>, sku: string): seq<ReceivedLine> {
    seq(|lines|, i requires 0 <= i < |lines| =>
      if lines[i].sku == sku then lines[i].(discrepancy := DiscrepancyFor(lines[i], lines)) else lines[i])
  }

  function ScanLine(lines: seq<ReceivedLine>, s: Scan): seq<ReceivedLine> {
    FlagSku(AddScan(lines, s), s.sku)
  }

  function RecordScan(d: Dock, id: nat, s: Scan): Dock {
    if id >= |d.notes| || d.notes[id].finalized then d
    else d.(notes := d.notes[id := d.notes[id].(lines := ScanLine(d.notes[id].lines, s))])
  }

  predicate AnyScanned(lines: seq<ReceivedLine>) {
    exists i :: 0 <= i < |lines| && lines[i].received > 0
  }

  predicate CanFinalize(d: Dock, id: nat) {
    && id < |d.notes| && !d.notes[id].finalized && AnyScanned(d.notes[id].lines)
    && d.notes[id].poNumber in d.deliveries
  }

  function Received(lines: seq<DeliveryLine>, arrived: seq<ReceivedLine>): seq<DeliveryLine> {
    seq(|lines|, i requires 0 <= i < |lines| =>
      lines[i].(received := lines[i].received + SumBy(arrived, Arrived(lines[i].sku))))
  }

  predicate Full(lines: seq<DeliveryLine>) {
    forall i :: 0 <= i < |lines| ==> lines[i].received >= lines[i].ordered
  }

  lemma FullAppend(lines: seq<DeliveryLine>, line: DeliveryLine)
    ensures Full(lines + [line]) <==> Full(lines) && line.received >= line.ordered
  {
    var longer := lines + [line];
    assert longer[|lines|] == line && forall i :: 0 <= i < |lines| ==> longer[i] == lines[i];
  }

  function FinalizeError(d: Dock, id: nat): Option<DockError> {
    if id >= |d.notes| then Some(NotFound)
    else if d.notes[id].finalized then Some(NotDraft)
    else if !AnyScanned(d.notes[id].lines) then Some(NothingScanned)
    else if d.notes[id].poNumber !in d.deliveries then Some(NotFound)
    else None
  }

  function Finalize(d: Dock, id: nat): Dock {
    if !CanFinalize(d, id) then d
    else
      var note := d.notes[id];
      var lines := Received(d.deliveries[note.poNumber].lines, note.lines);
      var status := if Full(lines) then FullyReceived else PartiallyReceived;
      Dock(d.deliveries[note.poNumber := Delivery(status, lines)],
           d.notes[id := note.(finalized := true, lines := Flagged(note.lines))])
  }

  /** What arrived on a note of one SKU, in whatever condition. */
  function ArrivedOf(lines: seq<ReceivedLine>, sku: string): int {
    SumBy(lines, Arrived(sku))
  }

  /**
   A note is finalized exactly when it is a draft on which something was counted.
   Its delivery then has received that much more of each SKU, and is complete
   exactly when nothing ordered is missing.
   */
  lemma FinalizedExactlyWhen(d: Dock, id: nat)
    requires id < |d.notes| && d.notes[id].poNumber in d.deliveries
    ensures var note, d' := d.notes[id], Finalize(d, id);
            var n := note.poNumber;
            && (CanFinalize(d, id) <==> !note.finalized && exists l :: l in note.lines && l.received > 0)
            && (!CanFinalize(d, id) ==> d' == d)
            && (CanFinalize(d, id) ==>
                  var before, after := d.deliveries[n], d'.deliveries[n];
                  && d'.notes[id].finalized && |after.lines| == |before.lines|
                  && (forall i :: 0 <= i < |before.lines| ==>
                        var line := before.lines[i];
                        after.lines[i] == DeliveryLine(line.sku, line.ordered,
                                                       line.received + ArrivedOf(note.lines, line.sku)))
                  && after.status == if exists l :: l in after.lines && l.received < l.ordered
                                     then PartiallyReceived else FullyReceived)
  {
    var note := d.notes[id];
    assert AnyScanned(note.lines) <==> exists l :: l in note.lines && l.received > 0 by {
      if AnyScanned(note.lines) {
        var i :| 0 <= i < |note.lines| && note.lines[i].received > 0;
        assert note.lines[i] in note.lines;
      }
    }
    var lines := Received(d.deliveries[note.poNumber].lines, note.lines);
    assert Full(lines) <==> !exists l :: l in lines && l.received < l.ordered by {
      if !Full(lines) {
        var i :| 0 <= i < |lines| && lines[i].received < lines[i].ordered;
        assert lines[i] in lines;
      }
    }
  }

  /** The event a finalized note publishes. */
  function ReceiptOf(d: Dock, id: nat, at: int): GoodsReceived
    requires id < |d.notes|
  {
    var note := d.notes[id];
    GoodsReceived(at, note.number, note.poNumber, note.location, Flagged(note.lines))
  }

  /** The receipt tells of the note: its number, order, location and lines, of which only the flags may differ. */
  lemma ReceiptTellsTheNote(d: Dock, id: nat, at: int)
    requires id < |d.notes|
    ensures var note, e := d.notes[id], ReceiptOf(d, id, at);
            && e.occurredAt == at && e.grnNumber == note.number && e.poNumber == note.poNumber
            && e.location == note.location && |e.lines| == |note.lines|
            && forall i :: 0 <= i < |e.lines| ==>
                 e.lines[i].(discrepancy := NoDiscrepancy) == note.lines[i].(discrepancy := NoDiscrepancy)
  {
  }

  // ---- The service ----

  /** Adds up the lines' quantities by SKU. */
  method ArrivedBySku(lines: seq<ReceivedLine>) returns (arrived: map<string, int>)
    ensures forall sku :: (if sku in arrived then arrived[sku] else 0) == SumBy(lines, Arrived(sku))
  {
    arrived := map[];
    for i := 0 to |lines|
      invariant forall sku :: (if sku in arrived then arrived[sku] else 0) == SumBy(lines[..i], Arrived(sku))
    {
      var line := lines[i];
      forall sku ensures SumBy(lines[..i + 1], Arrived(sku)) == SumBy(lines[..i], Arrived(sku)) + Arrived(sku)(line) {
        SumStep(lines, i, Arrived(sku));
      }
      arrived := arrived[line.sku := (if line.sku in arrived then arrived[line.sku] else 0) + line.received];
    }
    assert lines[..|lines|] == lines;
  }

  class ReceivingService {
    var deliveries: map<string, Delivery>
    var notes: seq<Note>

    function State(): Dock
      reads this
    {
      Dock(deliveries, notes)
    }

    constructor ()
      ensures State() == NO_DELIVERIES
    {
      deliveries, notes := map[], [];
    }

    method Record(po: OpenOrder) returns (ok: bool)
      modifies this
      ensures ok <==> RecordDelivery(old(State()), po).Ok?
      ensures State() == if ok then RecordDelivery(old(State()), po).value else old(State())
    {
      if po.poNumber in deliveries {
        return true;
      }
      if !UniqueSkus(po.lines) {
        return false;
      }
      deliveries := deliveries[po.poNumber := NewDelivery(po.lines)];
      return true;
    }

    method OpenNote(po: OpenOrder, location: string, number: string) returns (error: Option<DockError>)
      modifies this
      ensures State() == CreateNote(old(State()), po, location, number)
      ensures error == CreateError(old(State()), po, number)
    {
      var ok := Record(po);
      if !ok {
        return Some(NotUnique);
      }
      var expected := deliveries[po.poNumber].lines;
      var lines: seq<ReceivedLine> := [];
      for i := 0 to |expected|
        invariant lines == Outstanding(expected[..i])
      {
        var line := expected[i];
        assert expected[..i + 1] == expected[..i] + [line];
        if line.ordered - line.received > 0 {
          lines := lines + [ReceivedLine(line.sku, line.ordered - line.received, 0, Good, NoDiscrepancy)];
        }
      }
      assert expected[..|expected|] == expected;
      if lines == [] {
        return Some(AlreadyReceived);
      }
      if HasNote(notes, number) {
        return Some(NotUnique);
      }
      notes := notes + [Note(number, po.poNumber, location, false, lines)];
      return None;
    }

    method ScanItem(id: nat, s: Scan) returns (error: Option<DockError>)
      modifies this
      ensures State() == RecordScan(old(State()), id, s)
      ensures error == if id >= |old(notes)| then Some(NotFound)
                       else if old(notes)[id].finalized then Some(NotDraft) else None
    {
      if id >= |notes| {
        return Some(NotFound);
      }
      if notes[id].finalized {
        return Some(NotDraft);
      }
      var lines := notes[id].lines;
      var i := LineOf(lines, s.sku, s.condition);
      if i < |lines| {
        lines := lines[i := lines[i].(received := lines[i].received + s.quantity)];
      } else {
        lines := lines + [ReceivedLine(s.sku, 0, s.quantity, s.condition, NoDiscrepancy)];
      }
      var flagged := lines;
      for k := 0 to |lines|
        invariant |flagged| == |lines| && flagged[..k] == FlagSku(lines, s.sku)[..k] && flagged[k..] == lines[k..]
      {
        if lines[k].sku == s.sku {
          flagged := flagged[k := lines[k].(discrepancy := DiscrepancyFor(lines[k], lines))];
        }
      }
      assert flagged == FlagSku(lines, s.sku);
      notes := notes[id := notes[id].(lines := flagged)];
      return None;
    }

    method FinalizeNote(id: nat, at: int) returns (r: Result<GoodsReceived, DockError>)
      modifies this
      ensures State() == Finalize(old(State()), id)
      ensures r.Ok? <==> CanFinalize(old(State()), id)
      ensures r.Ok? ==> r.value == ReceiptOf(old(State()), id, at)
      ensures r.Err? ==> FinalizeError(old(State()), id) == Some(r.error)
    {
      if id >= |notes| {
        return Err(NotFound);
      }
      if notes[id].finalized {
        return Err(NotDraft);
      }
      if !AnyScanned(notes[id].lines) {
        return Err(NothingScanned);
      }
      var note := notes[id];
      if note.poNumber !in deliveries {
        return Err(NotFound);
      }
      var arrived := ArrivedBySku(note.lines);
      var expected := deliveries[note.poNumber].lines;
      var lines: seq<DeliveryLine>, full := [], true;
      for i := 0 to |expected|
        invariant lines == Received(expected, note.lines)[..i]
        invariant full <==> Full(lines)
        invariant State() == old(State())
      {
        var more := if expected[i].sku in arrived then arrived[expected[i].sku] else 0;
        var line := expected[i].(received := expected[i].received + more);
        FullAppend(lines, line);
        full := full && line.received >= line.ordered;
        lines := lines + [line];
      }
      assert lines == Received(expected, note.lines);
      deliveries := deliveries[note.poNumber := Delivery(if full then FullyReceived else PartiallyReceived, lines)];
      var finalized := Flagged(note.lines);
      notes := notes[id := note.(finalized := true, lines := finalized)];
      return Ok(GoodsReceived(at, note.number, note.poNumber, note.location, finalized));
    }
  }
}
