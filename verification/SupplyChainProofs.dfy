/** Every step of the supply chain keeps the invariant. */
module SupplyChainProofs {
  import opened Sums
  import opened Events
  import opened SupplyChain
  import P = Procurement
  import R = Receiving
  import Discrepancies

  // ---- Figures over receipts ----

  lemma NothingArrived(receipts: seq<GoodsReceived>, processed: set<string>, n: string, sku: string)
    requires !AnyReceipt(receipts, n)
    ensures SumBy(receipts, ArrivedFor(n, sku)) == 0
    ensures SumBy(receipts, CountedFor(processed, n, sku)) == 0
  {
    forall r | r in receipts ensures r.poNumber != n {
      var k :| 0 <= k < |receipts| && receipts[k] == r;
    }
    SumZero(receipts, ArrivedFor(n, sku));
    SumZero(receipts, CountedFor(processed, n, sku));
  }

  lemma SumSingle<T>(xs: seq<T>, k: nat, f: T -> int)
    requires k < |xs| && forall i :: 0 <= i < |xs| && i != k ==> f(xs[i]) == 0
    ensures SumBy(xs, f) == f(xs[k])
  {
    assert xs == xs[..k] + [xs[k]] + xs[k + 1..];
    SumConcat(xs[..k] + [xs[k]], xs[k + 1..], f);
    SumAppend(xs[..k], xs[k], f);
    SumZero(xs[..k], f);
    SumZero(xs[k + 1..], f);
  }

  /** Applying one more receipt adds what it brought, for its order only. */
  lemma CountOneMore(receipts: seq<GoodsReceived>, k: nat, processed: set<string>, n: string, sku: string)
    requires k < |receipts| && receipts[k].grnNumber !in processed
    requires OneEach(receipts)
    ensures SumBy(receipts, CountedFor(processed + {receipts[k].grnNumber}, n, sku))
         == SumBy(receipts, CountedFor(processed, n, sku)) + ArrivedFor(n, sku)(receipts[k])
  {
    var g := receipts[k].grnNumber;
    var only := (r: GoodsReceived) => if r.grnNumber == g then ArrivedFor(n, sku)(r) else 0;
    SumPlus(receipts, CountedFor(processed, n, sku), only, CountedFor(processed + {g}, n, sku));
    SumSingle(receipts, k, only);
  }

  lemma ArrivedIsNonNegative(lines: seq<ReceivedLine>, sku: string)
    requires NonNegative(lines)
    ensures SumBy(lines, R.Arrived(sku)) >= 0
  {
    forall l | l in lines ensures R.Arrived(sku)(l) >= 0 {
      var i :| 0 <= i < |lines| && lines[i] == l;
    }
    SumNonNegative(lines, R.Arrived(sku));
  }

  // ---- Paperwork ----

  lemma SameGoodsDescribeAlike(n: string, a: seq<P.PoLine>, b: seq<P.PoLine>)
    requires SameGoods(a, b)
    ensures P.Described(n, a) == P.Described(n, b)
    ensures forall d :: Matches(d, a) <==> Matches(d, b)
  {
    assert P.Described(n, a).lines == P.Described(n, b).lines;
  }

  /** Whatever moves orders forward disturbs neither deliveries nor approvals. */
  lemma ForwardKeepsOthers(o: P.Orders, after: P.Orders, s: System)
    requires DeliveriesOrdered(o, s.dock.deliveries) && ApprovalsSound(o, s.approvals) && Forward(o, after)
    ensures DeliveriesOrdered(after, s.dock.deliveries) && ApprovalsSound(after, s.approvals)
  {
    forall n | n in s.dock.deliveries
      ensures Approved(after, n) && Matches(s.dock.deliveries[n].lines, after.pos[n].lines)
    {
      SameGoodsDescribeAlike(n, o.pos[n].lines, after.pos[n].lines);
    }
    forall k | 0 <= k < |s.approvals|
      ensures var n := s.approvals[k].poNumber;
              Approved(after, n) && s.approvals[k] == P.Described(n, after.pos[n].lines)
    {
      var n := s.approvals[k].poNumber;
      SameGoodsDescribeAlike(n, o.pos[n].lines, after.pos[n].lines);
    }
  }

  lemma NewOrderIsSound(o: P.Orders, receipts: seq<GoodsReceived>, n: string, wanted: seq<P.Want>,
                        offer: map<string, int>)
    requires n !in o.pos && P.Orderable(wanted, offer) && !AnyReceipt(receipts, n)
    ensures OrderSound(P.Create(o, n, wanted, offer), receipts, n)
  {
    var po := P.Create(o, n, wanted, offer).pos[n];
    assert po.lines[0].received < po.lines[0].ordered;
    forall i | 0 <= i < |po.lines|
      ensures po.lines[i].received == SumBy(receipts, CountedFor(o.processed, n, po.lines[i].sku))
    {
      NothingArrived(receipts, o.processed, n, po.lines[i].sku);
    }
  }

  lemma CreateKeepsOrders(o: P.Orders, receipts: seq<GoodsReceived>, number: string, wanted: seq<P.Want>,
                          offer: map<string, int>)
    requires OrdersSound(o, receipts) && (number in o.pos || !AnyReceipt(receipts, number))
    ensures OrdersSound(P.Create(o, number, wanted, offer), receipts)
  {
    var after := P.Create(o, number, wanted, offer);
    if after != o {
      NewOrderIsSound(o, receipts, number, wanted, offer);
      forall n | n in o.pos ensures OrderSound(after, receipts, n) {
        assert OrderSound(o, receipts, n);
      }
    }
  }

  lemma SubmitKeepsOrders(o: P.Orders, receipts: seq<GoodsReceived>, number: string)
    requires OrdersSound(o, receipts)
    ensures OrdersSound(P.Submit(o, number), receipts)
  {
    forall n | n in o.pos ensures OrderSound(P.Submit(o, number), receipts, n) {
      assert OrderSound(o, receipts, n);
    }
  }

  lemma MarkSentKeepsOrders(o: P.Orders, receipts: seq<GoodsReceived>, number: string)
    requires OrdersSound(o, receipts)
    ensures OrdersSound(P.MarkSent(o, number), receipts)
  {
    forall n | n in o.pos ensures OrderSound(P.MarkSent(o, number), receipts, n) {
      assert OrderSound(o, receipts, n);
    }
  }

  lemma ApproveKeepsOrders(o: P.Orders, receipts: seq<GoodsReceived>, number: string, role: P.Role)
    requires OrdersSound(o, receipts)
    ensures OrdersSound(P.Approve(o, number, role), receipts)
  {
    forall n | n in o.pos ensures OrderSound(P.Approve(o, number, role), receipts, n) {
      assert OrderSound(o, receipts, n);
    }
  }

  lemma ReceiptsAreOfOrders(s: System)
    requires DeliveriesOrdered(s.orders, s.dock.deliveries) && ReceiptsSound(s.dock, s.receipts)
    ensures forall n :: n in s.orders.pos || !AnyReceipt(s.receipts, n)
  {
  }

  lemma AddApproval(o: P.Orders, approvals: seq<R.OpenOrder>, n: string)
    requires ApprovalsSound(o, approvals) && Approved(o, n)
    ensures ApprovalsSound(o, approvals + [P.Described(n, o.pos[n].lines)])
  {
  }

  lemma CreateKeepsInv(s: System, number: string, wanted: seq<P.Want>, offer: map<string, int>)
    requires Inv(s)
    ensures Inv(Apply(s, Create(number, wanted, offer)))
  {
    var after := P.Create(s.orders, number, wanted, offer);
    PaperMovesForward(s.orders, Create(number, wanted, offer));
    ForwardKeepsOthers(s.orders, after, s);
    ReceiptsAreOfOrders(s);
    CreateKeepsOrders(s.orders, s.receipts, number, wanted, offer);
  }

  lemma SubmitKeepsInv(s: System, number: string)
    requires Inv(s)
    ensures Inv(Apply(s, Submit(number)))
  {
    PaperMovesForward(s.orders, Submit(number));
    ForwardKeepsOthers(s.orders, P.Submit(s.orders, number), s);
    SubmitKeepsOrders(s.orders, s.receipts, number);
  }

  lemma MarkSentKeepsInv(s: System, number: string)
    requires Inv(s)
    ensures Inv(Apply(s, MarkSent(number)))
  {
    PaperMovesForward(s.orders, MarkSent(number));
    ForwardKeepsOthers(s.orders, P.MarkSent(s.orders, number), s);
    MarkSentKeepsOrders(s.orders, s.receipts, number);
  }

  lemma OrdersOnlyKeepsInv(s: System, orders: P.Orders, approvals: seq<R.OpenOrder>)
    requires Inv(s) && orders.processed == s.orders.processed
    requires OrdersSound(orders, s.receipts) && DeliveriesOrdered(orders, s.dock.deliveries)
    requires ApprovalsSound(orders, approvals)
    ensures Inv(s.(orders := orders, approvals := approvals))
  {
  }

  lemma ApproveKeepsPaper(s: System, number: string, role: P.Role)
    requires OrdersSound(s.orders, s.receipts) && DeliveriesOrdered(s.orders, s.dock.deliveries)
    requires ApprovalsSound(s.orders, s.approvals) && P.CanApprove(s.orders, number, role)
    ensures var after := P.Approve(s.orders, number, role);
            && OrdersSound(after, s.receipts) && DeliveriesOrdered(after, s.dock.deliveries)
            && ApprovalsSound(after, s.approvals + [P.Described(number, s.orders.pos[number].lines)])
  {
    var after := P.Approve(s.orders, number, role);
    PaperMovesForward(s.orders, Approve(number, role));
    ForwardKeepsOthers(s.orders, after, s);
    ApproveKeepsOrders(s.orders, s.receipts, number, role);
    AddApproval(after, s.approvals, number);
  }

  lemma ApproveKeepsInv(s: System, number: string, role: P.Role)
    requires Inv(s)
    ensures Inv(Apply(s, Approve(number, role)))
  {
    if P.CanApprove(s.orders, number, role) {
      ApproveKeepsPaper(s, number, role);
      OrdersOnlyKeepsInv(s, P.Approve(s.orders, number, role),
                         s.approvals + [P.Described(number, s.orders.pos[number].lines)]);
    }
  }

  // ---- Applying a receipt ----

  lemma ReceivedKeepsPaperwork(o: P.Orders, po: P.Po, arrived: seq<ReceivedLine>)
    requires PaperworkSound(o, po) && P.Rank(po.status) >= 2
    ensures var lines := P.Received(po.lines, arrived);
            PaperworkSound(o, po.(status := P.NextStatus(po.status, lines), lines := lines))
  {
    var lines := P.Received(po.lines, arrived);
    SumPairwise(po.lines, lines, P.LineCost, P.LineCost);
    assert lines != [];
  }

  lemma FullStaysFull(lines: seq<P.PoLine>, arrived: seq<ReceivedLine>)
    requires P.Full(lines) && NonNegative(arrived)
    ensures P.Full(P.Received(lines, arrived))
  {
    forall i | 0 <= i < |lines| ensures P.Received(lines, arrived)[i].received >= lines[i].ordered {
      ArrivedIsNonNegative(arrived, lines[i].sku);
    }
  }

  lemma AppliedOrderIsSound(o: P.Orders, receipts: seq<GoodsReceived>, k: nat)
    requires k < |receipts| && OneEach(receipts) && NonNegative(receipts[k].lines)
    requires receipts[k].grnNumber !in o.processed && Approved(o, receipts[k].poNumber)
    requires OrderSound(o, receipts, receipts[k].poNumber)
    ensures OrderSound(P.ApplyGoodsReceived(o, receipts[k]), receipts, receipts[k].poNumber)
  {
    var e := receipts[k];
    var n := e.poNumber;
    var after, po := P.ApplyGoodsReceived(o, e), o.pos[n];
    ReceivedKeepsPaperwork(o, po, e.lines);
    if po.status == P.Closed {
      FullStaysFull(po.lines, e.lines);
    }
    forall i | 0 <= i < |po.lines|
      ensures after.pos[n].lines[i].received
           == SumBy(receipts, CountedFor(o.processed + {e.grnNumber}, n, po.lines[i].sku))
    {
      CountOneMore(receipts, k, o.processed, n, po.lines[i].sku);
    }
    assert receipts[k].poNumber == n && e.grnNumber in after.processed;
  }

  lemma OtherOrderStaysSound(o: P.Orders, receipts: seq<GoodsReceived>, k: nat, n: string)
    requires k < |receipts| && OneEach(receipts)
    requires receipts[k].grnNumber !in o.processed && receipts[k].poNumber in o.pos
    requires n in o.pos && n != receipts[k].poNumber && OrderSound(o, receipts, n)
    ensures OrderSound(P.ApplyGoodsReceived(o, receipts[k]), receipts, n)
  {
    var after, po := P.ApplyGoodsReceived(o, receipts[k]), o.pos[n];
    assert AnyCounted(receipts, after.processed, n) <==> AnyCounted(receipts, o.processed, n);
    forall i | 0 <= i < |po.lines|
      ensures po.lines[i].received == SumBy(receipts, CountedFor(after.processed, n, po.lines[i].sku))
    {
      CountOneMore(receipts, k, o.processed, n, po.lines[i].sku);
    }
  }

  lemma ReceiptKeepsOrders(o: P.Orders, receipts: seq<GoodsReceived>, k: nat)
    requires k < |receipts| && OneEach(receipts) && NonNegative(receipts[k].lines)
    requires Approved(o, receipts[k].poNumber) && OrdersSound(o, receipts)
    ensures OrdersSound(P.ApplyGoodsReceived(o, receipts[k]), receipts)
  {
    if receipts[k].grnNumber !in o.processed {
      var after := P.ApplyGoodsReceived(o, receipts[k]);
      forall n | n in after.pos ensures OrderSound(after, receipts, n) {
        if n == receipts[k].poNumber {
          AppliedOrderIsSound(o, receipts, k);
        } else {
          OtherOrderStaysSound(o, receipts, k, n);
        }
      }
    }
  }

  lemma ProcessedStaysPublished(o: P.Orders, receipts: seq<GoodsReceived>, k: nat)
    requires k < |receipts| && ProcessedSound(o.processed, receipts)
    ensures ProcessedSound(P.ApplyGoodsReceived(o, receipts[k]).processed, receipts)
  {
    assert Published(receipts, receipts[k].grnNumber);
  }

  lemma DeliverReceiptKeepsInv(s: System, k: nat)
    requires Inv(s)
    ensures Inv(DeliverOne(s, k))
  {
    if k < |s.receipts| {
      var after := P.ApplyGoodsReceived(s.orders, s.receipts[k]);
      assert Forward(s.orders, after) by { ReceiptMovesForward(s.orders, s.receipts[k]); }
      ForwardKeepsOthers(s.orders, after, s);
      ReceiptKeepsOrders(s.orders, s.receipts, k);
      ProcessedStaysPublished(s.orders, s.receipts, k);
    }
  }

  // ---- Recording a delivery and opening a note ----

  lemma NewDeliveryIsSound(lines: seq<P.PoLine>, receipts: seq<GoodsReceived>, n: string)
    requires lines != [] && lines[0].ordered >= 1 && !AnyReceipt(receipts, n)
    ensures var d := R.NewDelivery(P.Described(n, lines).lines);
            DeliverySound(d, receipts, n) && Matches(d.lines, lines)
  {
    var d := R.NewDelivery(P.Described(n, lines).lines);
    assert d.lines[0].received < d.lines[0].ordered;
    forall i | 0 <= i < |d.lines| ensures SumBy(receipts, ArrivedFor(n, d.lines[i].sku)) == 0 {
      NothingArrived(receipts, {}, n, d.lines[i].sku);
    }
  }

  lemma AddDelivery(o: P.Orders, d: R.Dock, receipts: seq<GoodsReceived>, n: string)
    requires OrdersSound(o, receipts) && Approved(o, n) && n !in d.deliveries && !AnyReceipt(receipts, n)
    requires DeliveriesSound(d.deliveries, receipts) && DeliveriesOrdered(o, d.deliveries)
    ensures var deliveries := d.deliveries[n := R.NewDelivery(P.Described(n, o.pos[n].lines).lines)];
            DeliveriesSound(deliveries, receipts) && DeliveriesOrdered(o, deliveries)
  {
    assert OrderSound(o, receipts, n);
    NewDeliveryIsSound(o.pos[n].lines, receipts, n);
  }

  lemma RecordKeepsDock(d: R.Dock, receipts: seq<GoodsReceived>, n: string, delivery: R.Delivery)
    requires NotesSound(d) && ReceiptsSound(d, receipts)
    ensures NotesSound(d.(deliveries := d.deliveries[n := delivery]))
    ensures ReceiptsSound(d.(deliveries := d.deliveries[n := delivery]), receipts)
    ensures n !in d.deliveries ==> !AnyReceipt(receipts, n)
  {
  }

  lemma RecordKeepsInv(s: System, po: R.OpenOrder)
    requires Inv(s) && Approved(s.orders, po.poNumber)
    requires po == P.Described(po.poNumber, s.orders.pos[po.poNumber].lines)
    requires R.RecordDelivery(s.dock, po).Ok?
    ensures Inv(s.(dock := R.RecordDelivery(s.dock, po).value))
  {
    var n := po.poNumber;
    if n !in s.dock.deliveries {
      RecordKeepsDock(s.dock, s.receipts, n, R.NewDelivery(po.lines));
      AddDelivery(s.orders, s.dock, s.receipts, n);
    }
  }

  lemma {:induction false} OutstandingIsUnscanned(lines: seq<R.DeliveryLine>)
    ensures forall i :: 0 <= i < |R.Outstanding(lines)| ==> R.Outstanding(lines)[i].received == 0
  {
    if lines != [] {
      OutstandingIsUnscanned(lines[..|lines| - 1]);
    }
  }

  lemma AddNote(d: R.Dock, receipts: seq<GoodsReceived>, note: R.Note)
    requires NotesSound(d) && ReceiptsSound(d, receipts)
    requires note.poNumber in d.deliveries && NonNegative(note.lines) && !R.HasNote(d.notes, note.number)
    ensures NotesSound(d.(notes := d.notes + [note])) && ReceiptsSound(d.(notes := d.notes + [note]), receipts)
  {
    var notes := d.notes + [note];
    forall g | FromNote(d.notes, g) ensures FromNote(notes, g) {
      var i :| 0 <= i < |d.notes| && d.notes[i].finalized && d.notes[i].number == g;
      assert notes[i] == d.notes[i];
    }
  }

  /** Opening a note on a recorded delivery changes nothing but the notes. */
  lemma CreateNoteKeepsDock(d: R.Dock, receipts: seq<GoodsReceived>, po: R.OpenOrder, location: string, note: string)
    requires NotesSound(d) && ReceiptsSound(d, receipts) && po.poNumber in d.deliveries
    ensures var after := R.CreateNote(d, po, location, note);
            after.deliveries == d.deliveries && NotesSound(after) && ReceiptsSound(after, receipts)
  {
    var lines := R.Outstanding(d.deliveries[po.poNumber].lines);
    OutstandingIsUnscanned(d.deliveries[po.poNumber].lines);
    if lines != [] && !R.HasNote(d.notes, note) {
      AddNote(d, receipts, R.Note(note, po.poNumber, location, false, lines));
    }
  }

  lemma NotesOnlyKeepsInv(s: System, dock: R.Dock)
    requires Inv(s) && dock.deliveries == s.dock.deliveries
    requires NotesSound(dock) && ReceiptsSound(dock, s.receipts)
    ensures Inv(s.(dock := dock))
  {
  }

  lemma RecordedFirst(d: R.Dock, po: R.OpenOrder, location: string, note: string)
    requires R.RecordDelivery(d, po).Ok?
    ensures po.poNumber in R.RecordDelivery(d, po).value.deliveries
    ensures R.CreateNote(d, po, location, note) == R.CreateNote(R.RecordDelivery(d, po).value, po, location, note)
  {
  }

  lemma CreateNoteKeepsInv(s: System, po: R.OpenOrder, location: string, note: string)
    requires Inv(s) && po.poNumber in s.dock.deliveries
    ensures Inv(s.(dock := R.CreateNote(s.dock, po, location, note)))
  {
    CreateNoteKeepsDock(s.dock, s.receipts, po, location, note);
    NotesOnlyKeepsInv(s, R.CreateNote(s.dock, po, location, note));
  }

  lemma OpenKeepsInv(s: System, po: R.OpenOrder, location: string, note: string)
    requires Inv(s) && Approved(s.orders, po.poNumber)
    requires po == P.Described(po.poNumber, s.orders.pos[po.poNumber].lines)
    ensures Inv(s.(dock := R.CreateNote(s.dock, po, location, note)))
  {
    if R.RecordDelivery(s.dock, po).Ok? {
      RecordKeepsInv(s, po);
      RecordedFirst(s.dock, po, location, note);
      CreateNoteKeepsInv(s.(dock := R.RecordDelivery(s.dock, po).value), po, location, note);
    }
  }

  lemma FoundIsApproved(o: P.Orders, number: string)
    requires P.FindOpen(o, number).Some?
    ensures var po := P.FindOpen(o, number).value;
            po.poNumber == number && Approved(o, number) && po == P.Described(number, o.pos[number].lines)
  {
  }

  /** What opening a note comes to. */
  lemma OpenedNote(s: System, poNumber: string, location: string, note: string)
    ensures var po := P.FindOpen(s.orders, poNumber);
            Apply(s, OpenNote(poNumber, location, note)) ==
            if po.Some? then s.(dock := R.CreateNote(s.dock, po.value, location, note)) else s
  {
  }

  lemma OpenNoteKeepsInv(s: System, poNumber: string, location: string, note: string)
    requires Inv(s)
    ensures Inv(Apply(s, OpenNote(poNumber, location, note)))
  {
    var po := P.FindOpen(s.orders, poNumber);
    OpenedNote(s, poNumber, location, note);
    if po.Some? {
      FoundIsApproved(s.orders, poNumber);
      OpenKeepsInv(s, po.value, location, note);
    }
  }

  // ---- Scanning ----

  lemma ScanStaysNonNegative(lines: seq<ReceivedLine>, scan: R.Scan)
    requires NonNegative(lines) && scan.quantity >= 1
    ensures NonNegative(R.ScanLine(lines, scan))
  {
  }

  lemma SetNote(d: R.Dock, receipts: seq<GoodsReceived>, id: nat, note: R.Note)
    requires NotesSound(d) && ReceiptsSound(d, receipts) && id < |d.notes|
    requires note.number == d.notes[id].number && note.poNumber == d.notes[id].poNumber && NonNegative(note.lines)
    requires d.notes[id].finalized ==> note.finalized
    ensures NotesSound(d.(notes := d.notes[id := note]))
    ensures ReceiptsSound(d.(notes := d.notes[id := note]), receipts)
  {
    var notes := d.notes[id := note];
    forall g | FromNote(d.notes, g) ensures FromNote(notes, g) {
      var i :| 0 <= i < |d.notes| && d.notes[i].finalized && d.notes[i].number == g;
      assert notes[i].finalized && notes[i].number == g;
    }
  }

  lemma ScanKeepsDock(d: R.Dock, receipts: seq<GoodsReceived>, id: nat, scan: R.Scan)
    requires NotesSound(d) && ReceiptsSound(d, receipts) && scan.quantity >= 1
    ensures var after := R.RecordScan(d, id, scan);
            after.deliveries == d.deliveries && NotesSound(after) && ReceiptsSound(after, receipts)
  {
    if id < |d.notes| && !d.notes[id].finalized {
      var note := d.notes[id];
      ScanStaysNonNegative(note.lines, scan);
      SetNote(d, receipts, id, note.(lines := R.ScanLine(note.lines, scan)));
    }
  }

  lemma ScanKeepsInv(s: System, id: nat, scan: R.Scan)
    requires Inv(s)
    ensures Inv(Apply(s, ScanItem(id, scan)))
  {
    if scan.quantity >= 1 {
      ScanKeepsDock(s.dock, s.receipts, id, scan);
      NotesOnlyKeepsInv(s, R.RecordScan(s.dock, id, scan));
    }
  }

  // ---- Finalizing ----

  lemma FlagsKeepArrivals(lines: seq<ReceivedLine>, sku: string)
    ensures SumBy(R.Flagged(lines), R.Arrived(sku)) == SumBy(lines, R.Arrived(sku))
  {
    Discrepancies.SameArrivals(R.Flagged(lines), lines, sku);
  }

  /** A receipt nobody has applied changes no order. */
  lemma NewReceiptKeepsOrders(o: P.Orders, receipts: seq<GoodsReceived>, r: GoodsReceived)
    requires OrdersSound(o, receipts) && r.grnNumber !in o.processed
    ensures OrdersSound(o, receipts + [r])
  {
    forall n | n in o.pos ensures OrderSound(o, receipts + [r], n) {
      assert OrderSound(o, receipts, n);
      AnyCountedAppend(receipts, r, o.processed, n);
      forall i | 0 <= i < |o.pos[n].lines|
        ensures var f := CountedFor(o.processed, n, o.pos[n].lines[i].sku);
                SumBy(receipts + [r], f) == SumBy(receipts, f)
      {
        SumAppend(receipts, r, CountedFor(o.processed, n, o.pos[n].lines[i].sku));
      }
    }
  }

  lemma AnyCountedAppend(receipts: seq<GoodsReceived>, r: GoodsReceived, processed: set<string>, n: string)
    requires r.grnNumber !in processed
    ensures AnyCounted(receipts + [r], processed, n) <==> AnyCounted(receipts, processed, n)
  {
    var all := receipts + [r];
    assert forall k :: 0 <= k < |receipts| ==> all[k] == receipts[k];
  }

  lemma AnyReceiptAppend(receipts: seq<GoodsReceived>, r: GoodsReceived, n: string)
    ensures AnyReceipt(receipts + [r], n) <==> AnyReceipt(receipts, n) || r.poNumber == n
  {
    var all := receipts + [r];
    assert all[|receipts|] == r && forall k :: 0 <= k < |receipts| ==> all[k] == receipts[k];
  }

  lemma OtherDeliveryStaysSound(d: R.Delivery, receipts: seq<GoodsReceived>, r: GoodsReceived, n: string)
    requires DeliverySound(d, receipts, n) && r.poNumber != n
    ensures DeliverySound(d, receipts + [r], n)
  {
    AnyReceiptAppend(receipts, r, n);
    forall i | 0 <= i < |d.lines|
      ensures var f := ArrivedFor(n, d.lines[i].sku); SumBy(receipts + [r], f) == SumBy(receipts, f)
    {
      SumAppend(receipts, r, ArrivedFor(n, d.lines[i].sku));
    }
  }

  lemma ReceivedDeliveryIsSound(d: R.Delivery, receipts: seq<GoodsReceived>, r: GoodsReceived, lines: seq<ReceivedLine>)
    requires DeliverySound(d, receipts, r.poNumber) && r.lines == R.Flagged(lines)
    ensures var received := R.Received(d.lines, lines);
            var status := if R.Full(received) then R.FullyReceived else R.PartiallyReceived;
            DeliverySound(R.Delivery(status, received), receipts + [r], r.poNumber)
  {
    AnyReceiptAppend(receipts, r, r.poNumber);
    var received := R.Received(d.lines, lines);
    forall i | 0 <= i < |received|
      ensures received[i].received == SumBy(receipts + [r], ArrivedFor(r.poNumber, received[i].sku))
    {
      SumAppend(receipts, r, ArrivedFor(r.poNumber, received[i].sku));
      FlagsKeepArrivals(lines, received[i].sku);
    }
  }

  lemma AddReceipt(d: R.Dock, receipts: seq<GoodsReceived>, r: GoodsReceived)
    requires ReceiptsSound(d, receipts) && !Published(receipts, r.grnNumber)
    requires r.poNumber in d.deliveries && NonNegative(r.lines) && FromNote(d.notes, r.grnNumber)
    ensures ReceiptsSound(d, receipts + [r])
  {
  }

  /** A draft note's number has not been published. */
  lemma DraftIsUnpublished(d: R.Dock, receipts: seq<GoodsReceived>, id: nat)
    requires NotesSound(d) && ReceiptsSound(d, receipts) && id < |d.notes| && !d.notes[id].finalized
    ensures !Published(receipts, d.notes[id].number)
  {
  }

  lemma PublishedAppend(processed: set<string>, receipts: seq<GoodsReceived>, r: GoodsReceived)
    requires ProcessedSound(processed, receipts)
    ensures ProcessedSound(processed, receipts + [r])
  {
    forall g | g in processed ensures Published(receipts + [r], g) {
      var k :| 0 <= k < |receipts| && receipts[k].grnNumber == g;
      assert (receipts + [r])[k].grnNumber == g;
    }
  }

  lemma FinalizeKeepsDock(d: R.Dock, receipts: seq<GoodsReceived>, id: nat, at: int)
    requires NotesSound(d) && ReceiptsSound(d, receipts) && R.CanFinalize(d, id)
    ensures var after := R.Finalize(d, id);
            NotesSound(after) && ReceiptsSound(after, receipts + [R.ReceiptOf(d, id, at)])
  {
    var note := d.notes[id];
    var flagged := note.(finalized := true, lines := R.Flagged(note.lines));
    SetNote(d, receipts, id, flagged);
    DraftIsUnpublished(d, receipts, id);
    var after := R.Finalize(d, id);
    assert after.notes[id].finalized && after.notes[id].number == note.number;
    AddReceipt(after, receipts, R.ReceiptOf(d, id, at));
  }

  lemma FinalizeKeepsOrdered(o: P.Orders, d: R.Dock, id: nat)
    requires DeliveriesOrdered(o, d.deliveries) && R.CanFinalize(d, id)
    ensures DeliveriesOrdered(o, R.Finalize(d, id).deliveries)
  {
  }

  lemma FinalizeKeepsDeliveries(d: R.Dock, receipts: seq<GoodsReceived>, id: nat, at: int)
    requires DeliveriesSound(d.deliveries, receipts) && R.CanFinalize(d, id)
    ensures DeliveriesSound(R.Finalize(d, id).deliveries, receipts + [R.ReceiptOf(d, id, at)])
  {
    var after, r := R.Finalize(d, id), R.ReceiptOf(d, id, at);
    forall n | n in after.deliveries ensures DeliverySound(after.deliveries[n], receipts + [r], n) {
      if n == r.poNumber {
        ReceivedDeliveryIsSound(d.deliveries[n], receipts, r, d.notes[id].lines);
      } else {
        OtherDeliveryStaysSound(d.deliveries[n], receipts, r, n);
      }
    }
  }

  lemma FinalizeKeepsInv(s: System, id: nat, at: int)
    requires Inv(s)
    ensures Inv(Apply(s, FinalizeNote(id, at)))
  {
    if R.CanFinalize(s.dock, id) {
      var r := R.ReceiptOf(s.dock, id, at);
      DraftIsUnpublished(s.dock, s.receipts, id);
      assert r.grnNumber !in s.orders.processed;
      NewReceiptKeepsOrders(s.orders, s.receipts, r);
      PublishedAppend(s.orders.processed, s.receipts, r);
      FinalizeKeepsDock(s.dock, s.receipts, id, at);
      FinalizeKeepsDeliveries(s.dock, s.receipts, id, at);
      FinalizeKeepsOrdered(s.orders, s.dock, id);
    }
  }

  // ---- Every step, every run ----

  lemma ApprovalIsKnown(o: P.Orders, approvals: seq<R.OpenOrder>, k: nat)
    requires ApprovalsSound(o, approvals) && k < |approvals|
    ensures var n := approvals[k].poNumber;
            Approved(o, n) && approvals[k] == P.Described(n, o.pos[n].lines)
  {
  }

  lemma RecordedApprovalKeepsInv(s: System, k: nat)
    requires Inv(s) && k < |s.approvals| && R.RecordDelivery(s.dock, s.approvals[k]).Ok?
    ensures Inv(s.(dock := R.RecordDelivery(s.dock, s.approvals[k]).value))
  {
    ApprovalIsKnown(s.orders, s.approvals, k);
    RecordKeepsInv(s, s.approvals[k]);
  }

  /** What delivering an approval comes to. */
  lemma DeliveredApproval(s: System, k: nat)
    ensures Apply(s, DeliverApproval(k)) ==
            if k < |s.approvals| && R.RecordDelivery(s.dock, s.approvals[k]).Ok?
            then s.(dock := R.RecordDelivery(s.dock, s.approvals[k]).value) else s
  {
  }

  lemma DeliverApprovalKeepsInv(s: System, k: nat)
    requires Inv(s)
    ensures Inv(Apply(s, DeliverApproval(k)))
  {
    DeliveredApproval(s, k);
    if k < |s.approvals| && R.RecordDelivery(s.dock, s.approvals[k]).Ok? {
      RecordedApprovalKeepsInv(s, k);
    }
  }

  lemma StepKeepsInv(s: System, step: Step)
    requires Inv(s)
    ensures Inv(Apply(s, step))
  {
    match step
    case DeliverApproval(k) => DeliverApprovalKeepsInv(s, k);
    case OpenNote(poNumber, location, note) => OpenNoteKeepsInv(s, poNumber, location, note);
    case ScanItem(id, scan) => ScanKeepsInv(s, id, scan);
    case FinalizeNote(id, at) => FinalizeKeepsInv(s, id, at);
    case DeliverReceipt(k) => DeliverReceiptKeepsInv(s, k);
    case Create(number, wanted, offer) => CreateKeepsInv(s, number, wanted, offer);
    case Submit(number) => SubmitKeepsInv(s, number);
    case Approve(number, role) => ApproveKeepsInv(s, number, role);
    case MarkSent(number) => MarkSentKeepsInv(s, number);
  }

  /** Every run, from empty tables, keeps the invariant. */
  lemma {:induction false} RunKeepsInv(threshold: int, steps: seq<Step>)
    ensures Inv(Run(threshold, steps))
  {
    if steps != [] {
      var n := |steps| - 1;
      RunKeepsInv(threshold, steps[..n]);
      StepKeepsInv(Run(threshold, steps[..n]), steps[n]);
    }
  }
}
