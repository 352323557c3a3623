/** Procurement's purchase orders: pricing, approval, and the running totals of what arrived. */
module Procurement {
  import opened Wrappers
  import opened Sums
  import opened Events
  import Receiving

  datatype PoStatus = Draft | PendingApproval | Approved | Sent | PartiallyReceived | Closed

  datatype Role = Owner | Manager | Buyer | Accountant | Cashier | WarehouseStaff

  datatype PoLine = PoLine(sku: string, ordered: int, received: int, unitCost: int)

  /** The approver is kept as the role they signed in with. */
  datatype Po = Po(status: PoStatus, total: int, approver: Option<Role>, lines: seq<PoLine>)

  /** Purchase orders by number, and the goods received notes already applied. */
  datatype Orders = Orders(threshold: int, pos: map<string, Po>, processed: set<string>)

  datatype Want = Want(sku: string, quantity: int)

  datatype OrderError = BadRequest | NotFound | Forbidden | Duplicate

  function Rank(status: PoStatus): nat {
    match status
    case Draft => 0
    case PendingApproval => 1
    case Approved => 2
    case Sent => 3
    case PartiallyReceived => 4
    case Closed => 5
  }

  predicate Accepts(status: PoStatus) {
    status == Approved || status == Sent || status == PartiallyReceived
  }

  // ---- Creating ----

  /** What a request must look like, and every SKU must be on the supplier's offer. */
  predicate Orderable(wanted: seq<Want>, offer: map<string, int>) {
    wanted != [] && forall i :: 0 <= i < |wanted| ==> wanted[i].quantity >= 1 && wanted[i].sku in offer
  }

  function Priced(wanted: seq<Want>, offer: map<string, int>): seq<PoLine>
    requires Orderable(wanted, offer)
  {
    seq(|wanted|, i requires 0 <= i < |wanted| => PoLine(wanted[i].sku, wanted[i].quantity, 0, offer[wanted[i].sku]))
  }

  function LineCost(l: PoLine): int {
    l.unitCost * l.ordered
  }

  function Create(o: Orders, number: string, wanted: seq<Want>, offer: map<string, int>): Orders {
    if !Orderable(wanted, offer) || number in o.pos then o
    else
      var lines := Priced(wanted, offer);
      o.(pos := o.pos[number := Po(Draft, SumBy(lines, LineCost), None, lines)])
  }

  /** What a wanted quantity costs at the supplier's offer. */
  function Price(offer: map<string, int>): Want -> int {
    (w: Want) => if w.sku in offer then w.quantity * offer[w.sku] else 0
  }

  /**
   A new order is a draft of exactly what was wanted at the prices on offer, and
   its total is what that costs. An order is refused when nothing is wanted, a
   quantity is below one or a SKU is not on offer.
   */
  lemma OrderIsPricedByOffer(o: Orders, number: string, wanted: seq<Want>, offer: map<string, int>)
    requires number !in o.pos
    ensures var after := Create(o, number, wanted, offer);
            && (number !in after.pos <==>
                wanted == [] || exists w :: w in wanted && (w.quantity < 1 || w.sku !in offer))
            && (number in after.pos ==>
                  var po := after.pos[number];
                  && po.status == Draft && po.approver == None && |po.lines| == |wanted|
                  && po.total == SumBy(wanted, Price(offer))
                  && forall i :: 0 <= i < |wanted| ==>
                       && wanted[i].sku in offer
                       && po.lines[i] == PoLine(wanted[i].sku, wanted[i].quantity, 0, offer[wanted[i].sku]))
            && forall n :: n != number ==> (n in after.pos <==> n in o.pos) && (n in o.pos ==> after.pos[n] == o.pos[n])
  {
    if Orderable(wanted, offer) {
      SumPairwise(Priced(wanted, offer), wanted, LineCost, Price(offer));
      forall w | w in wanted ensures w.quantity >= 1 && w.sku in offer {
        var i :| 0 <= i < |wanted| && wanted[i] == w;
      }
    } else if wanted != [] {
      var i :| 0 <= i < |wanted| && (wanted[i].quantity < 1 || wanted[i].sku !in offer);
      assert wanted[i] in wanted;
    }
  }

  // ---- Approving ----

  function SetStatus(o: Orders, number: string, status: PoStatus): Orders
    requires number in o.pos
  {
    o.(pos := o.pos[number := o.pos[number].(status := status)])
  }

  function Submit(o: Orders, number: string): Orders {
    if number in o.pos && o.pos[number].status == Draft then SetStatus(o, number, PendingApproval) else o
  }

  predicate MayApprove(o: Orders, po: Po, role: Role) {
    (role == Owner || role == Manager) && (po.total >= o.threshold ==> role == Owner)
  }

  predicate CanApprove(o: Orders, number: string, role: Role) {
    number in o.pos && o.pos[number].status == PendingApproval && MayApprove(o, o.pos[number], role)
  }

  function Approve(o: Orders, number: string, role: Role): Orders {
    if !CanApprove(o, number, role) then o
    else o.(pos := o.pos[number := o.pos[number].(status := Approved, approver := Some(role))])
  }

  /** An order awaiting approval is approved by an owner, or by a manager below the threshold, and by nobody else. */
  lemma ApprovedExactlyWhen(o: Orders, number: string, role: Role)
    requires number in o.pos && o.pos[number].status == PendingApproval
    ensures var po, po' := o.pos[number], Approve(o, number, role).pos[number];
            if role == Owner || (role == Manager && po.total < o.threshold)
            then po' == po.(status := Approved, approver := Some(role)) else po' == po
  {
  }

  function MarkSent(o: Orders, number: string): Orders {
    if number in o.pos && o.pos[number].status == Approved then SetStatus(o, number, Sent) else o
  }

  function Described(number: string, lines: seq<PoLine>): Receiving.OpenOrder {
    Receiving.OpenOrder(number, seq(|lines|, i requires 0 <= i < |lines| =>
      Receiving.OrderLine(lines[i].sku, lines[i].ordered)))
  }

  function FindOpen(o: Orders, number: string): Option<Receiving.OpenOrder> {
    if number in o.pos && Accepts(o.pos[number].status) then Some(Described(number, o.pos[number].lines)) else None
  }

  /** Receiving may open a note against an order that is approved, sent or partly received. */
  lemma OpenExactlyWhen(o: Orders, number: string)
    ensures FindOpen(o, number).Some? <==>
            number in o.pos && o.pos[number].status in {Approved, Sent, PartiallyReceived}
    ensures FindOpen(o, number).Some? ==>
              var open, lines := FindOpen(o, number).value, o.pos[number].lines;
              && open.poNumber == number && |open.lines| == |lines|
              && forall i :: 0 <= i < |lines| ==> open.lines[i] == Receiving.OrderLine(lines[i].sku, lines[i].ordered)
  {
  }

  // ---- Receiving ----

  function Received(lines: seq<PoLine>, arrived: seq<ReceivedLine>): seq<PoLine> {
    seq(|lines|, i requires 0 <= i < |lines| =>
      lines[i].(received := lines[i].received + SumBy(arrived, Receiving.Arrived(lines[i].sku))))
  }

  predicate Full(lines: seq<PoLine>) {
    forall i :: 0 <= i < |lines| ==> lines[i].received >= lines[i].ordered
  }

  function NextStatus(status: PoStatus, lines: seq<PoLine>): PoStatus {
    if status == Closed || Full(lines) then Closed else PartiallyReceived
  }

  /** Once per goods received note; a note for an order we do not know is skipped. */
  function ApplyGoodsReceived(o: Orders, e: GoodsReceived): Orders {
    if e.poNumber !in o.pos || e.grnNumber in o.processed then o
    else
      var po := o.pos[e.poNumber];
      var lines := Received(po.lines, e.lines);
      o.(pos := o.pos[e.poNumber := po.(status := NextStatus(po.status, lines), lines := lines)],
         processed := o.processed + {e.grnNumber})
  }

  // ---- The service ----

  lemma FullAppend(lines: seq<PoLine>, line: PoLine)
    ensures Full(lines + [line]) <==> Full(lines) && line.received >= line.ordered
  {
    var longer := lines + [line];
    assert longer[|lines|] == line && forall i :: 0 <= i < |lines| ==> longer[i] == lines[i];
  }

  class PurchaseOrdersService {
    const approvalThreshold: int
    var pos: map<string, Po>
    var processed: set<string>

    function State(): Orders
      reads this
    {
      Orders(approvalThreshold, pos, processed)
    }

    constructor (threshold: int)
      ensures State() == Orders(threshold, map[], {})
    {
      approvalThreshold, pos, processed := threshold, map[], {};
    }

    method CreateOrder(number: string, wanted: seq<Want>, offer: map<string, int>)
      returns (error: Option<OrderError>)
      modifies this
      ensures State() == Create(old(State()), number, wanted, offer)
      ensures error.None? <==> Orderable(wanted, offer) && number !in old(pos)
    {
      if wanted == [] {
        return Some(BadRequest);
      }
      var lines: seq<PoLine>, total := [], 0;
      for i := 0 to |wanted|
        invariant |lines| == i && total == SumBy(lines, LineCost)
        invariant State() == old(State())
        invariant forall j :: 0 <= j < i ==>
                                && wanted[j].quantity >= 1 && wanted[j].sku in offer
                                && lines[j] == PoLine(wanted[j].sku, wanted[j].quantity, 0, offer[wanted[j].sku])
      {
        if wanted[i].quantity < 1 || wanted[i].sku !in offer {
          return Some(BadRequest);
        }
        var line := PoLine(wanted[i].sku, wanted[i].quantity, 0, offer[wanted[i].sku]);
        SumAppend(lines, line, LineCost);
        total := total + line.unitCost * line.ordered;
        lines := lines + [line];
      }
      assert lines == Priced(wanted, offer);
      if number in pos {
        return Some(Duplicate);
      }
      pos := pos[number := Po(Draft, total, None, lines)];
      return None;
    }

    method SubmitOrder(number: string) returns (error: Option<OrderError>)
      modifies this
      ensures State() == Submit(old(State()), number)
      ensures error.None? <==> number in old(pos) && old(pos)[number].status == Draft
    {
      if number !in pos {
        return Some(NotFound);
      }
      if pos[number].status != Draft {
        return Some(BadRequest);
      }
      pos := pos[number := pos[number].(status := PendingApproval)];
      return None;
    }

    /** The approved order is what the PurchaseOrderApproved event carries. */
    method ApproveOrder(number: string, role: Role) returns (result: Result<Receiving.OpenOrder, OrderError>)
      modifies this
      ensures State() == Approve(old(State()), number, role)
      ensures result.Ok? <==> CanApprove(old(State()), number, role)
      ensures result.Ok? ==> FindOpen(State(), number) == Some(result.value)
    {
      if number !in pos {
        return Err(NotFound);
      }
      var po := pos[number];
      if po.status != PendingApproval {
        return Err(BadRequest);
      }
      if role != Owner && role != Manager {
        return Err(Forbidden);
      }
      if po.total >= approvalThreshold && role != Owner {
        return Err(Forbidden);
      }
      pos := pos[number := po.(status := Approved, approver := Some(role))];
      return Ok(Described(number, po.lines));
    }

    method MarkOrderSent(number: string) returns (error: Option<OrderError>)
      modifies this
      ensures State() == MarkSent(old(State()), number)
      ensures error.None? <==> number in old(pos) && old(pos)[number].status == Approved
    {
      if number !in pos {
        return Some(NotFound);
      }
      if pos[number].status != Approved {
        return Some(BadRequest);
      }
      pos := pos[number := pos[number].(status := Sent)];
      return None;
    }

    method OnGoodsReceived(e: GoodsReceived)
      modifies this
      ensures State() == ApplyGoodsReceived(old(State()), e)
    {
      if e.poNumber !in pos {
        return;
      }
      var po := pos[e.poNumber];
      var arrived := Receiving.ArrivedBySku(e.lines);
      var lines: seq<PoLine>, full := [], true;
      for i := 0 to |po.lines|
        invariant lines == Received(po.lines, e.lines)[..i]
        invariant full <==> Full(lines)
        invariant State() == old(State())
      {
        var more := if po.lines[i].sku in arrived then arrived[po.lines[i].sku] else 0;
        var line := po.lines[i].(received := po.lines[i].received + more);
        FullAppend(lines, line);
        full := full && line.received >= line.ordered;
        lines := lines + [line];
      }
      assert lines == Received(po.lines, e.lines);
      var next := if po.status == Closed then Closed else if full then Closed else PartiallyReceived;
      if e.grnNumber in processed {
        return;
      }
      processed := processed + {e.grnNumber};
      pos := pos[e.poNumber := po.(status := next, lines := lines)];
    }
  }
}
