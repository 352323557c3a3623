/**
 Procurement and Receiving each keep a running total of the same deliveries.
 The only link is the bus, which may deliver an approval or a receipt late,
 in any order and more than once.
 */
module SupplyChain {
  import opened Sums
  import opened Events
  import P = Procurement
  import R = Receiving

  /** Both services' tables and everything published so far. */
  datatype System = System(orders: P.Orders, dock: R.Dock, approvals: seq<R.OpenOrder>, receipts: seq<GoodsReceived>)

  datatype Step =
    | Create(number: string, wanted: seq<P.Want>, offer: map<string, int>)
    | Submit(number: string)
    | Approve(number: string, role: P.Role)
    | MarkSent(number: string)
    | DeliverApproval(k: nat)
    | OpenNote(poNumber: string, location: string, note: string)
    | ScanItem(id: nat, scan: R.Scan)
    | FinalizeNote(id: nat, at: int)
    | DeliverReceipt(k: nat)

  function Start(threshold: int): System {
    System(P.Orders(threshold, map[], {}), R.NO_DELIVERIES, [], [])
  }

  function Apply(s: System, step: Step): System {
    match step
    case Create(number, wanted, offer) => s.(orders := P.Create(s.orders, number, wanted, offer))
    case Submit(number) => s.(orders := P.Submit(s.orders, number))
    case Approve(number, role) =>
      if !P.CanApprove(s.orders, number, role) then s
      else s.(orders := P.Approve(s.orders, number, role),
              approvals := s.approvals + [P.Described(number, s.orders.pos[number].lines)])
    case MarkSent(number) => s.(orders := P.MarkSent(s.orders, number))
    case DeliverApproval(k) =>
      if k >= |s.approvals| then s
      else
        var recorded := R.RecordDelivery(s.dock, s.approvals[k]);
        if recorded.Ok? then s.(dock := recorded.value) else s
    case OpenNote(poNumber, location, note) =>
      var po := P.FindOpen(s.orders, poNumber);
      if po.None? then s else s.(dock := R.CreateNote(s.dock, po.value, location, note))
    case ScanItem(id, scan) => if scan.quantity < 1 then s else s.(dock := R.RecordScan(s.dock, id, scan))
    case FinalizeNote(id, at) =>
      if !R.CanFinalize(s.dock, id) then s
      else s.(dock := R.Finalize(s.dock, id), receipts := s.receipts + [R.ReceiptOf(s.dock, id, at)])
    case DeliverReceipt(k) => DeliverOne(s, k)
  }

  function DeliverOne(s: System, k: nat): System {
    if k >= |s.receipts| then s else s.(orders := P.ApplyGoodsReceived(s.orders, s.receipts[k]))
  }

  function RunFrom(s: System, steps: seq<Step>): System {
    if steps == [] then s else Apply(RunFrom(s, steps[..|steps| - 1]), steps[|steps| - 1])
  }

  function Run(threshold: int, steps: seq<Step>): System {
    RunFrom(Start(threshold), steps)
  }

  // ---- What is always true ----

  /** What a receipt brought for a SKU of an order. */
  function ArrivedFor(n: string, sku: string): GoodsReceived -> int {
    (r: GoodsReceived) => if r.poNumber == n then SumBy(r.lines, R.Arrived(sku)) else 0
  }

  /** The same, for the receipts Procurement has applied. */
  function CountedFor(processed: set<string>, n: string, sku: string): GoodsReceived -> int {
    (r: GoodsReceived) => if r.grnNumber in processed then ArrivedFor(n, sku)(r) else 0
  }

  ghost predicate AnyReceipt(receipts: seq<GoodsReceived>, n: string) {
    exists k :: 0 <= k < |receipts| && receipts[k].poNumber == n
  }

  ghost predicate AnyCounted(receipts: seq<GoodsReceived>, processed: set<string>, n: string) {
    exists k :: 0 <= k < |receipts| && receipts[k].poNumber == n && receipts[k].grnNumber in processed
  }

  ghost predicate NonNegative(lines: seq<ReceivedLine>) {
    forall i :: 0 <= i < |lines| ==> lines[i].received >= 0
  }

  /** Same goods at the same cost; only what arrived may differ. */
  ghost predicate SameGoods(a: seq<P.PoLine>, b: seq<P.PoLine>) {
    |a| == |b| && forall i :: 0 <= i < |a| ==> b[i] == a[i].(received := b[i].received)
  }

  ghost predicate Matches(delivery: seq<R.DeliveryLine>, order: seq<P.PoLine>) {
    |delivery| == |order|
    && forall i :: 0 <= i < |order| ==> delivery[i].sku == order[i].sku && delivery[i].ordered == order[i].ordered
  }

  ghost predicate Approved(o: P.Orders, n: string) {
    n in o.pos && P.Rank(o.pos[n].status) >= 2
  }

  /** A priced order that nobody but an owner passed at or over the threshold. */
  ghost predicate PaperworkSound(o: P.Orders, po: P.Po) {
    && po.lines != [] && (forall i :: 0 <= i < |po.lines| ==> po.lines[i].ordered >= 1)
    && po.total == SumBy(po.lines, P.LineCost)
    && (P.Rank(po.status) >= 2 ==>
          && po.approver.Some? && (po.approver.value == P.Owner || po.approver.value == P.Manager)
          && (po.total >= o.threshold ==> po.approver.value == P.Owner))
  }

  ghost predicate OrderSound(o: P.Orders, receipts: seq<GoodsReceived>, n: string)
    requires n in o.pos
  {
    var po := o.pos[n];
    && PaperworkSound(o, po)
    && (po.status == P.Closed <==> P.Full(po.lines))
    && (P.Rank(po.status) >= 4 <==> AnyCounted(receipts, o.processed, n))
    && (forall i :: 0 <= i < |po.lines| ==>
          po.lines[i].received == SumBy(receipts, CountedFor(o.processed, n, po.lines[i].sku)))
  }

  ghost predicate DeliverySound(d: R.Delivery, receipts: seq<GoodsReceived>, n: string) {
    && (d.status == R.FullyReceived <==> R.Full(d.lines))
    && (d.status == R.Expected <==> !AnyReceipt(receipts, n))
    && forall i :: 0 <= i < |d.lines| ==> d.lines[i].received == SumBy(receipts, ArrivedFor(n, d.lines[i].sku))
  }

  ghost predicate OrdersSound(o: P.Orders, receipts: seq<GoodsReceived>) {
    forall n :: n in o.pos ==> OrderSound(o, receipts, n)
  }

  ghost predicate DeliveriesSound(deliveries: map<string, R.Delivery>, receipts: seq<GoodsReceived>) {
    forall n :: n in deliveries ==> DeliverySound(deliveries[n], receipts, n)
  }

  /** Every delivery is of an approved order, line for line. */
  ghost predicate DeliveriesOrdered(o: P.Orders, deliveries: map<string, R.Delivery>) {
    forall n :: n in deliveries ==> Approved(o, n) && Matches(deliveries[n].lines, o.pos[n].lines)
  }

  ghost predicate ApprovalsSound(o: P.Orders, approvals: seq<R.OpenOrder>) {
    forall k :: 0 <= k < |approvals| ==>
      var n := approvals[k].poNumber;
      Approved(o, n) && approvals[k] == P.Described(n, o.pos[n].lines)
  }

  ghost predicate NotesSound(d: R.Dock) {
    && (forall i, j :: 0 <= i < j < |d.notes| ==> d.notes[i].number != d.notes[j].number)
    && (forall i :: 0 <= i < |d.notes| ==> d.notes[i].poNumber in d.deliveries && NonNegative(d.notes[i].lines))
  }

  ghost predicate FromNote(notes: seq<R.Note>, number: string) {
    exists i :: 0 <= i < |notes| && notes[i].finalized && notes[i].number == number
  }

  /** One receipt per note. */
  ghost predicate OneEach(receipts: seq<GoodsReceived>) {
    forall i, j :: 0 <= i < j < |receipts| ==> receipts[i].grnNumber != receipts[j].grnNumber
  }

  /** Every receipt is of a finalized note, for a delivery Receiving knows. */
  ghost predicate ReceiptsSound(d: R.Dock, receipts: seq<GoodsReceived>) {
    && OneEach(receipts)
    && forall k :: 0 <= k < |receipts| ==>
         && receipts[k].poNumber in d.deliveries && NonNegative(receipts[k].lines)
         && FromNote(d.notes, receipts[k].grnNumber)
  }

  ghost predicate Published(receipts: seq<GoodsReceived>, number: string) {
    exists k :: 0 <= k < |receipts| && receipts[k].grnNumber == number
  }

  ghost predicate ProcessedSound(processed: set<string>, receipts: seq<GoodsReceived>) {
    forall g :: g in processed ==> Published(receipts, g)
  }

  ghost predicate Inv(s: System) {
    && OrdersSound(s.orders, s.receipts) && DeliveriesSound(s.dock.deliveries, s.receipts)
    && DeliveriesOrdered(s.orders, s.dock.deliveries) && ApprovalsSound(s.orders, s.approvals)
    && NotesSound(s.dock) && ReceiptsSound(s.dock, s.receipts) && ProcessedSound(s.orders.processed, s.receipts)
  }

  // ---- Orders only move forward ----

  ghost predicate Forward(a: P.Orders, b: P.Orders) {
    forall n :: n in a.pos ==>
      && n in b.pos && P.Rank(a.pos[n].status) <= P.Rank(b.pos[n].status) && SameGoods(a.pos[n].lines, b.pos[n].lines)
  }

  lemma ReceiptMovesForward(o: P.Orders, e: GoodsReceived)
    ensures Forward(o, P.ApplyGoodsReceived(o, e))
  {
  }

  lemma PaperMovesForward(o: P.Orders, step: Step)
    requires step.Create? || step.Submit? || step.Approve? || step.MarkSent?
    ensures Forward(o, match step
                       case Create(n, wanted, offer) => P.Create(o, n, wanted, offer)
                       case Submit(n) => P.Submit(o, n)
                       case Approve(n, role) => P.Approve(o, n, role)
                       case MarkSent(n) => P.MarkSent(o, n)
                       case _ => o)
  {
  }

  /** No step removes an order, changes its goods, or moves its status back. */
  lemma StatusNeverMovesBack(s: System, step: Step)
    ensures Forward(s.orders, Apply(s, step).orders)
  {
    match step
    case DeliverReceipt(k) =>
      if k < |s.receipts| {
        ReceiptMovesForward(s.orders, s.receipts[k]);
      }
    case Create(_, _, _) => PaperMovesForward(s.orders, step);
    case Submit(_) => PaperMovesForward(s.orders, step);
    case Approve(_, _) => PaperMovesForward(s.orders, step);
    case MarkSent(_) => PaperMovesForward(s.orders, step);
    case _ =>
  }

  /** However far a run has got, what follows only moves orders forward. */
  lemma {:induction false} RunsMoveForward(s: System, steps: seq<Step>)
    ensures Forward(s.orders, RunFrom(s, steps).orders)
  {
    if steps != [] {
      var n := |steps| - 1;
      RunsMoveForward(s, steps[..n]);
      StatusNeverMovesBack(RunFrom(s, steps[..n]), steps[n]);
    }
  }
}
