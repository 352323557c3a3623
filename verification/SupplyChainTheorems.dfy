/** What the invariant means for the two services' totals. */
module SupplyChainTheorems {
  import opened Sums
  import opened Events
  import opened SupplyChain
  import opened SupplyChainProofs
  import P = Procurement
  import R = Receiving

  /** Line for line the same totals, and the statuses that go with them. */
  ghost predicate Agree(d: R.Delivery, po: P.Po) {
    && Matches(d.lines, po.lines)
    && (forall i :: 0 <= i < |d.lines| ==> d.lines[i].received == po.lines[i].received)
    && (po.status == P.Closed <==> d.status == R.FullyReceived)
    && (po.status == P.PartiallyReceived <==> d.status == R.PartiallyReceived)
  }

  /** Procurement may lag behind but is never ahead. */
  ghost predicate Behind(po: P.Po, d: R.Delivery) {
    && Matches(d.lines, po.lines)
    && (forall i :: 0 <= i < |d.lines| ==> po.lines[i].received <= d.lines[i].received)
    && (po.status == P.Closed ==> d.status == R.FullyReceived)
    && (d.status == R.Expected ==> P.Rank(po.status) <= P.Rank(P.Sent))
  }

  ghost predicate AllProcessed(receipts: seq<GoodsReceived>, processed: set<string>) {
    forall k :: 0 <= k < |receipts| ==> receipts[k].grnNumber in processed
  }

  lemma SoundPairAgrees(o: P.Orders, receipts: seq<GoodsReceived>, d: R.Delivery, n: string)
    requires n in o.pos && OrderSound(o, receipts, n) && DeliverySound(d, receipts, n)
    requires Matches(d.lines, o.pos[n].lines) && AllProcessed(receipts, o.processed)
    ensures Agree(d, o.pos[n])
  {
    forall i | 0 <= i < |d.lines| ensures d.lines[i].received == o.pos[n].lines[i].received {
      SumSame(receipts, ArrivedFor(n, d.lines[i].sku), CountedFor(o.processed, n, d.lines[i].sku));
    }
    assert AnyCounted(receipts, o.processed, n) <==> AnyReceipt(receipts, n);
  }

  lemma AllAgree(s: System)
    requires OrdersSound(s.orders, s.receipts) && DeliveriesSound(s.dock.deliveries, s.receipts)
    requires DeliveriesOrdered(s.orders, s.dock.deliveries) && AllProcessed(s.receipts, s.orders.processed)
    ensures forall n :: n in s.dock.deliveries ==> n in s.orders.pos && Agree(s.dock.deliveries[n], s.orders.pos[n])
  {
    forall n | n in s.dock.deliveries ensures n in s.orders.pos && Agree(s.dock.deliveries[n], s.orders.pos[n]) {
      SoundPairAgrees(s.orders, s.receipts, s.dock.deliveries[n], n);
    }
  }

  // ---- Delivering receipts ----

  function DeliverAll(s: System, ks: seq<nat>): System {
    if ks == [] then s else DeliverOne(DeliverAll(s, ks[..|ks| - 1]), ks[|ks| - 1])
  }

  lemma {:induction false} DeliveringProcesses(s: System, ks: seq<nat>)
    requires Inv(s)
    ensures var after := DeliverAll(s, ks);
            && Inv(after) && after.dock == s.dock && after.receipts == s.receipts
            && forall k :: k in ks && k < |s.receipts| ==> s.receipts[k].grnNumber in after.orders.processed
  {
    if ks != [] {
      var init, last := ks[..|ks| - 1], ks[|ks| - 1];
      DeliveringProcesses(s, init);
      var before := DeliverAll(s, init);
      DeliverReceiptKeepsInv(before, last);
      if last < |s.receipts| {
        KnownReceiptIsProcessed(before, last);
      }
      assert forall k :: k in ks ==> k in init || k == last;
    }
  }

  lemma KnownReceiptIsProcessed(s: System, k: nat)
    requires DeliveriesOrdered(s.orders, s.dock.deliveries) && k < |s.receipts|
    requires s.receipts[k].poNumber in s.dock.deliveries
    ensures s.receipts[k].grnNumber in DeliverOne(s, k).orders.processed
    ensures s.orders.processed <= DeliverOne(s, k).orders.processed
  {
  }

  /**
   Once every receipt has reached Procurement at least once, in any order and
   with any repeats, the two services hold the same totals for every delivery.
   */
  lemma TotalsConverge(threshold: int, steps: seq<Step>, ks: seq<nat>)
    requires forall k :: 0 <= k < |Run(threshold, steps).receipts| ==> k in ks
    ensures var s := DeliverAll(Run(threshold, steps), ks);
            && s.dock == Run(threshold, steps).dock
            && forall n :: n in s.dock.deliveries ==> n in s.orders.pos && Agree(s.dock.deliveries[n], s.orders.pos[n])
  {
    RunKeepsInv(threshold, steps);
    DeliveringProcesses(Run(threshold, steps), ks);
    AllAgree(DeliverAll(Run(threshold, steps), ks));
  }

  // ---- Before that ----

  lemma CountedIsAtMostArrived(d: R.Dock, receipts: seq<GoodsReceived>, processed: set<string>, n: string, sku: string)
    requires ReceiptsSound(d, receipts)
    ensures SumBy(receipts, CountedFor(processed, n, sku)) <= SumBy(receipts, ArrivedFor(n, sku))
  {
    forall r | r in receipts ensures CountedFor(processed, n, sku)(r) <= ArrivedFor(n, sku)(r) {
      var k :| 0 <= k < |receipts| && receipts[k] == r;
      ArrivedIsNonNegative(r.lines, sku);
    }
    SumLeq(receipts, CountedFor(processed, n, sku), ArrivedFor(n, sku));
  }

  lemma OrderIsBehind(o: P.Orders, receipts: seq<GoodsReceived>, d: R.Delivery, n: string)
    requires n in o.pos && OrderSound(o, receipts, n) && DeliverySound(d, receipts, n)
    requires Matches(d.lines, o.pos[n].lines)
    requires forall sku :: SumBy(receipts, CountedFor(o.processed, n, sku)) <= SumBy(receipts, ArrivedFor(n, sku))
    ensures Behind(o.pos[n], d)
  {
    var po := o.pos[n];
    assert forall i :: 0 <= i < |d.lines| ==> po.lines[i].received <= d.lines[i].received;
    if po.status == P.Closed {
      assert P.Full(po.lines) && R.Full(d.lines);
    }
    assert AnyCounted(receipts, o.processed, n) ==> AnyReceipt(receipts, n);
  }

  lemma OneBehind(o: P.Orders, d: R.Dock, receipts: seq<GoodsReceived>, n: string)
    requires n in d.deliveries && n in o.pos && OrderSound(o, receipts, n)
    requires DeliverySound(d.deliveries[n], receipts, n) && Matches(d.deliveries[n].lines, o.pos[n].lines)
    requires ReceiptsSound(d, receipts)
    ensures Behind(o.pos[n], d.deliveries[n])
  {
    forall sku ensures SumBy(receipts, CountedFor(o.processed, n, sku)) <= SumBy(receipts, ArrivedFor(n, sku)) {
      CountedIsAtMostArrived(d, receipts, o.processed, n, sku);
    }
    OrderIsBehind(o, receipts, d.deliveries[n], n);
  }

  lemma AllBehind(s: System)
    requires OrdersSound(s.orders, s.receipts) && DeliveriesSound(s.dock.deliveries, s.receipts)
    requires DeliveriesOrdered(s.orders, s.dock.deliveries) && ReceiptsSound(s.dock, s.receipts)
    ensures forall n :: n in s.dock.deliveries ==> n in s.orders.pos && Behind(s.orders.pos[n], s.dock.deliveries[n])
  {
    forall n | n in s.dock.deliveries ensures n in s.orders.pos && Behind(s.orders.pos[n], s.dock.deliveries[n]) {
      OneBehind(s.orders, s.dock, s.receipts, n);
    }
  }

  /** At every moment of every run Procurement's totals and statuses are never ahead of Receiving's. */
  lemma ProcurementNeverAhead(threshold: int, steps: seq<Step>)
    ensures var s := Run(threshold, steps);
            forall n :: n in s.dock.deliveries ==> n in s.orders.pos && Behind(s.orders.pos[n], s.dock.deliveries[n])
  {
    RunKeepsInv(threshold, steps);
    AllBehind(Run(threshold, steps));
  }

  /** Nothing arrives against an order that was not approved by someone who may approve it. */
  lemma NothingArrivesUnapproved(threshold: int, steps: seq<Step>, n: string)
    requires n in Run(threshold, steps).orders.pos
    ensures var s := Run(threshold, steps);
            var po := s.orders.pos[n];
            && po.total == SumBy(po.lines, P.LineCost)
            && ((exists i :: 0 <= i < |po.lines| && po.lines[i].received != 0) || n in s.dock.deliveries ==>
                  && po.approver.Some? && (po.approver.value == P.Owner || po.approver.value == P.Manager)
                  && (po.total >= threshold ==> po.approver.value == P.Owner))
  {
    var s := Run(threshold, steps);
    RunKeepsInv(threshold, steps);
    ThresholdIsFixed(threshold, steps);
    assert OrderSound(s.orders, s.receipts, n);
    if n !in s.dock.deliveries {
      assert !AnyReceipt(s.receipts, n);
      forall i | 0 <= i < |s.orders.pos[n].lines| ensures s.orders.pos[n].lines[i].received == 0 {
        NothingArrived(s.receipts, s.orders.processed, n, s.orders.pos[n].lines[i].sku);
      }
    }
  }

  lemma {:induction false} ThresholdIsFixed(threshold: int, steps: seq<Step>)
    ensures Run(threshold, steps).orders.threshold == threshold
  {
    if steps != [] {
      ThresholdIsFixed(threshold, steps[..|steps| - 1]);
    }
  }

  // ---- A repeated SKU ----

  ghost predicate DistinctSkus(lines: seq<R.DeliveryLine>) {
    forall i, j :: 0 <= i < j < |lines| ==> lines[i].sku != lines[j].sku
  }

  ghost predicate DeliveriesDistinct(d: R.Dock) {
    forall n :: n in d.deliveries ==> DistinctSkus(d.deliveries[n].lines)
  }

  lemma StepKeepsDistinct(s: System, step: Step)
    requires DeliveriesDistinct(s.dock)
    ensures DeliveriesDistinct(Apply(s, step).dock)
  {
  }

  lemma {:induction false} RunKeepsDistinct(threshold: int, steps: seq<Step>)
    ensures DeliveriesDistinct(Run(threshold, steps).dock)
  {
    if steps != [] {
      RunKeepsDistinct(threshold, steps[..|steps| - 1]);
      StepKeepsDistinct(Run(threshold, steps[..|steps| - 1]), steps[|steps| - 1]);
    }
  }

  lemma RepeatedSkuHasNoDelivery(o: P.Orders, d: R.Dock, n: string, i: nat, j: nat)
    requires DeliveriesOrdered(o, d.deliveries) && DeliveriesDistinct(d) && n in o.pos
    requires i < j < |o.pos[n].lines| && o.pos[n].lines[i].sku == o.pos[n].lines[j].sku
    ensures n !in d.deliveries
  {
  }

  /**
   Procurement accepts an order that names a SKU on two lines, but Receiving
   keeps one line per SKU: such an order can be approved and sent, and nothing
   can ever be received against it.
   */
  lemma RepeatedSkuOrderNeverArrives(threshold: int, steps: seq<Step>, n: string, i: nat, j: nat)
    requires n in Run(threshold, steps).orders.pos
    requires i < j < |Run(threshold, steps).orders.pos[n].lines|
    requires Run(threshold, steps).orders.pos[n].lines[i].sku == Run(threshold, steps).orders.pos[n].lines[j].sku
    ensures var s := Run(threshold, steps);
            && n !in s.dock.deliveries && P.Rank(s.orders.pos[n].status) <= P.Rank(P.Sent)
            && !AnyReceipt(s.receipts, n)
  {
    var s := Run(threshold, steps);
    RunKeepsInv(threshold, steps);
    RunKeepsDistinct(threshold, steps);
    RepeatedSkuHasNoDelivery(s.orders, s.dock, n, i, j);
    NoDeliveryNoReceipt(s, n);
  }

  lemma NoDeliveryNoReceipt(s: System, n: string)
    requires OrdersSound(s.orders, s.receipts) && ReceiptsSound(s.dock, s.receipts)
    requires n in s.orders.pos && n !in s.dock.deliveries
    ensures !AnyReceipt(s.receipts, n) && P.Rank(s.orders.pos[n].status) <= P.Rank(P.Sent)
  {
    assert OrderSound(s.orders, s.receipts, n);
  }

  lemma RecordedExactlyWhen(o: P.Orders, d: R.Dock, po: R.OpenOrder)
    requires DeliveriesOrdered(o, d.deliveries) && DeliveriesDistinct(d)
    requires Approved(o, po.poNumber) && po == P.Described(po.poNumber, o.pos[po.poNumber].lines)
    ensures po.poNumber in d.deliveries ==> R.UniqueSkus(po.lines)
    ensures R.RecordDelivery(d, po).Ok? <==> R.UniqueSkus(po.lines)
  {
    if po.poNumber in d.deliveries {
      var delivery := d.deliveries[po.poNumber];
      assert forall i :: 0 <= i < |po.lines| ==> po.lines[i].sku == delivery.lines[i].sku;
    }
  }

  /** After any run, delivering an approval makes Receiving expect the order exactly when its SKUs are distinct. */
  lemma ApprovalIsExpectedExactlyWhen(threshold: int, steps: seq<Step>, k: nat)
    requires k < |Run(threshold, steps).approvals|
    ensures var s := Run(threshold, steps);
            var po := s.approvals[k];
            po.poNumber in Apply(s, DeliverApproval(k)).dock.deliveries <==> R.UniqueSkus(po.lines)
  {
    RunKeepsInv(threshold, steps);
    RunKeepsDistinct(threshold, steps);
    var s := Run(threshold, steps);
    RecordedExactlyWhen(s.orders, s.dock, s.approvals[k]);
  }

  // ---- Such an order exists ----

  const TWICE := [P.Want("A", 1), P.Want("A", 2)]

  /** An order with one SKU on two lines, approved by the owner and sent. */
  function SendTwice(): seq<Step> {
    [Create("P", TWICE, map["A" := 1])] + [Submit("P")] + [Approve("P", P.Owner)] + [MarkSent("P")]
  }

  lemma RunSnoc(threshold: int, steps: seq<Step>, step: Step)
    ensures Run(threshold, steps + [step]) == Apply(Run(threshold, steps), step)
  {
    assert (steps + [step])[..|steps|] == steps;
  }

  lemma OrderIsPriced(o: P.Orders)
    requires "P" !in o.pos
    ensures var after := P.Create(o, "P", TWICE, map["A" := 1]);
            && "P" in after.pos && after.pos["P"].status == P.Draft
            && after.pos["P"].lines == [P.PoLine("A", 1, 0, 1), P.PoLine("A", 2, 0, 1)]
  {
    assert P.Orderable(TWICE, map["A" := 1]);
  }

  /** It can be sent, and by RepeatedSkuOrderNeverArrives nothing is ever received against it. */
  lemma RepeatedSkuOrderCanBeSent(threshold: int)
    ensures var s := Run(threshold, SendTwice());
            && "P" in s.orders.pos && s.orders.pos["P"].status == P.Sent
            && |s.orders.pos["P"].lines| == 2
            && s.orders.pos["P"].lines[0].sku == s.orders.pos["P"].lines[1].sku
            && |s.approvals| == 1 && s.approvals[0].poNumber == "P"
  {
    var created := [Create("P", TWICE, map["A" := 1])];
    assert created == [] + created;
    RunSnoc(threshold, [], created[0]);
    OrderIsPriced(Start(threshold).orders);
    RunSnoc(threshold, created, Submit("P"));
    RunSnoc(threshold, created + [Submit("P")], Approve("P", P.Owner));
    RunSnoc(threshold, created + [Submit("P")] + [Approve("P", P.Owner)], MarkSent("P"));
  }

  // ---- Receipts delivered along the way ----

  /** A run in which every receipt has already been processed leaves the two services in agreement. */
  lemma ProcessedRunsAgree(threshold: int, steps: seq<Step>)
    requires var s := Run(threshold, steps); AllProcessed(s.receipts, s.orders.processed)
    ensures var s := Run(threshold, steps);
            forall n :: n in s.dock.deliveries ==> n in s.orders.pos && Agree(s.dock.deliveries[n], s.orders.pos[n])
  {
    RunKeepsInv(threshold, steps);
    AllAgree(Run(threshold, steps));
  }

  lemma SoundReceiptIsProcessed(s: System, k: nat)
    requires DeliveriesOrdered(s.orders, s.dock.deliveries) && ReceiptsSound(s.dock, s.receipts) && k < |s.receipts|
    ensures s.receipts[k].grnNumber in DeliverOne(s, k).orders.processed
  {
    KnownReceiptIsProcessed(s, k);
  }

  /** Delivering a receipt at any point of a run gets it processed. */
  lemma DeliveryProcesses(threshold: int, steps: seq<Step>, k: nat)
    requires k < |Run(threshold, steps).receipts|
    ensures Run(threshold, steps).receipts[k].grnNumber in DeliverOne(Run(threshold, steps), k).orders.processed
  {
    RunKeepsInv(threshold, steps);
    SoundReceiptIsProcessed(Run(threshold, steps), k);
  }

  /** And what is processed stays processed, however the run goes on. */
  lemma {:induction false} StaysProcessed(s: System, more: seq<Step>)
    ensures s.orders.processed <= RunFrom(s, more).orders.processed && s.receipts <= RunFrom(s, more).receipts
  {
    if more != [] {
      StaysProcessed(s, more[..|more| - 1]);
      ProcessedOnlyGrows(RunFrom(s, more[..|more| - 1]), more[|more| - 1]);
    }
  }

  lemma ProcessedOnlyGrows(s: System, step: Step)
    ensures s.orders.processed <= Apply(s, step).orders.processed && s.receipts <= Apply(s, step).receipts
  {
  }

  // ---- Notes and orders over runs ----

  lemma StepKeepsFinalized(s: System, step: Step, id: nat)
    requires id < |s.dock.notes| && s.dock.notes[id].finalized
    ensures var d := Apply(s, step).dock;
            id < |d.notes| && d.notes[id] == s.dock.notes[id]
  {
    match step
    case DeliverApproval(k) =>
    case OpenNote(_, _, _) =>
    case ScanItem(_, _) =>
    case FinalizeNote(_, _) =>
    case _ =>
  }

  /** A finalized note is frozen: nothing that follows changes it. */
  lemma {:induction false} FinalizedNotesStay(s: System, steps: seq<Step>, id: nat)
    requires id < |s.dock.notes| && s.dock.notes[id].finalized
    ensures var d := RunFrom(s, steps).dock;
            id < |d.notes| && d.notes[id] == s.dock.notes[id]
  {
    if steps != [] {
      var n := |steps| - 1;
      FinalizedNotesStay(s, steps[..n], id);
      StepKeepsFinalized(RunFrom(s, steps[..n]), steps[n], id);
    }
  }

  function OrderedAtCost(): P.PoLine -> int {
    (l: P.PoLine) => l.ordered * l.unitCost
  }

  /** In every run an order's total is what its lines order at their costs, whatever has arrived. */
  lemma TotalIsWhatIsOrdered(threshold: int, steps: seq<Step>, n: string)
    requires n in Run(threshold, steps).orders.pos
    ensures var po := Run(threshold, steps).orders.pos[n];
            po.total == SumBy(po.lines, OrderedAtCost())
  {
    NothingArrivesUnapproved(threshold, steps, n);
    var po := Run(threshold, steps).orders.pos[n];
    SumSame(po.lines, P.LineCost, OrderedAtCost());
  }
}
