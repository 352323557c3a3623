/**
 What becomes of a posting attempt, told by the event and the answers it meets:
 which failures mend themselves and are retried, and which wait for a person.
 */
module Attempts {
  import opened Wrappers
  import opened Journal
  import opened Postings
  import opened PostingProofs
  import opened SalesAccounting
  import opened Books
  import opened BooksProofs
  import B = Books
  import E = Events

  // ---- What an event asks of other services ----

  /** The line says goods came in that can be sold. */
  predicate IsBookable(line: E.ReceivedLine) {
    line.condition != E.Damaged && line.received > 0
  }

  ghost predicate OnOrder(po: PoRecord, sku: string) {
    exists l :: l in po.lines && l.sku == sku
  }

  /** Every line to be booked is on an order in the ledger's own currency. */
  ghost predicate OrderCovers(po: PoRecord, lines: seq<E.ReceivedLine>) {
    po.currency == "KES" && forall l :: l in lines && IsBookable(l) ==> OnOrder(po, l.sku)
  }

  /** Inventory's answer is asked for a returned line only if no fact of the sale has its SKU. */
  ghost predicate NeedsCost(facts: seq<SaleFact>, transactionId: string, sku: string) {
    forall f :: f in facts ==> !Matches(f, transactionId, sku)
  }

  /** What a sale asks for its i-th line. */
  function SaleAnswer(e: E.ItemSold, world: World, i: nat): Lookup<int>
    requires i < |e.lines|
  {
    world.unitCost(e.lines[i].sku)
  }

  /** What a return asks for its i-th line; a line with a sale fact has its answer there. */
  ghost function ReturnAnswer(e: E.ItemReturned, facts: seq<SaleFact>, world: World, i: nat): Lookup<int>
    requires i < |e.lines|
  {
    if NeedsCost(facts, e.originalTransactionId, e.lines[i].sku) then world.unitCost(e.lines[i].sku) else Found(0)
  }

  ghost predicate SaleStopsAt(e: E.ItemSold, world: World, i: nat)
    requires i < |e.lines|
  {
    !SaleAnswer(e, world, i).Found? && forall j :: 0 <= j < i ==> SaleAnswer(e, world, j).Found?
  }

  ghost predicate ReturnStopsAt(e: E.ItemReturned, facts: seq<SaleFact>, world: World, i: nat)
    requires i < |e.lines|
  {
    !ReturnAnswer(e, facts, world, i).Found? && forall j :: 0 <= j < i ==> ReturnAnswer(e, facts, world, j).Found?
  }

  /** The service the attempt has to ask does not answer. */
  ghost predicate Unanswered(event: DomainEvent, facts: seq<SaleFact>, world: World) {
    match event
    case Received(e) => world.purchaseOrder(e.poNumber).Unreachable?
    case Sold(e) => exists i: nat :: i < |e.lines| && SaleStopsAt(e, world, i) && SaleAnswer(e, world, i).Unreachable?
    case Returned(e) => exists i: nat :: i < |e.lines| && ReturnStopsAt(e, facts, world, i)
                                         && ReturnAnswer(e, facts, world, i).Unreachable?
    case _ => false
  }

  /** An answer came, and with it the event can never be posted. */
  ghost predicate Hopeless(event: DomainEvent, facts: seq<SaleFact>, world: World) {
    match event
    case Received(e) =>
      var po := world.purchaseOrder(e.poNumber);
      po.Missing? || (po.Found? && !OrderCovers(po.value, e.lines))
    case Sold(e) => exists i: nat :: i < |e.lines| && SaleStopsAt(e, world, i) && SaleAnswer(e, world, i).Missing?
    case Returned(e) => exists i: nat :: i < |e.lines| && ReturnStopsAt(e, facts, world, i)
                                         && ReturnAnswer(e, facts, world, i).Missing?
    case Unrouted => true
    case _ => false
  }

  /** Every answer came and nothing rules the event out, yet it makes no entry that balances. */
  ghost predicate Refused(event: DomainEvent, facts: seq<SaleFact>, world: World) {
    !Unanswered(event, facts, world) && !Hopeless(event, facts, world) && PlanFor(event, facts, world).Err?
  }

  // ---- Plans by the answers they meet ----

  lemma {:induction false} FindUnitCostFinds(lines: seq<PoLine>, sku: string)
    ensures FindUnitCost(lines, sku).Some? <==> exists l :: l in lines && l.sku == sku
  {
    if lines != [] {
      FindUnitCostFinds(lines[1..], sku);
      assert lines == [lines[0]] + lines[1..];
    }
  }

  lemma {:induction false} ValuesExactlyWhen(lines: seq<E.ReceivedLine>, po: PoRecord)
    ensures ReceiptValues(lines, po).Ok? <==> forall l :: l in lines && IsBookable(l) ==> OnOrder(po, l.sku)
  {
    if lines != [] {
      var init, last := lines[..|lines| - 1], lines[|lines| - 1];
      assert lines == init + [last];
      ValuesExactlyWhen(init, po);
      FindUnitCostFinds(po.lines, last.sku);
    }
  }

  lemma ReceiptOutcome(e: E.GoodsReceived, world: World)
    ensures var plan, po := GoodsReceivedPlan(e, world), world.purchaseOrder(e.poNumber);
            && (po.Unreachable? ==> plan == Err(Transient))
            && (po.Missing? || (po.Found? && !OrderCovers(po.value, e.lines)) ==> plan == Err(Permanent))
            && (po.Found? && OrderCovers(po.value, e.lines) ==> plan.Ok? || plan == Err(Unbalanced))
  {
    var po := world.purchaseOrder(e.poNumber);
    if po.Found? {
      ValuesExactlyWhen(e.lines, po.value);
      ReceiptErrorIsPermanent(e.lines, po.value);
    }
  }

  /** The costs of a sale's lines are the answers; the first that is no answer decides. */
  lemma {:induction false} CostsOutcome(e: E.ItemSold, n: nat, world: World)
    requires n <= |e.lines|
    ensures var costs := UnitCosts(e.lines[..n], world.unitCost);
            && (costs.Ok? <==> forall i: nat :: i < n ==> SaleAnswer(e, world, i).Found?)
            && forall i: nat :: i < n && SaleStopsAt(e, world, i) ==>
                 costs == Err(if SaleAnswer(e, world, i).Missing? then Permanent else Transient)
  {
    if n > 0 {
      CostsOutcome(e, n - 1, world);
      assert e.lines[..n][..n - 1] == e.lines[..n - 1];
      assert SaleAnswer(e, world, n - 1) == world.unitCost(e.lines[..n][n - 1].sku);
    }
  }

  lemma {:induction false} FirstStop(found: seq<bool>) returns (i: nat)
    requires exists k :: 0 <= k < |found| && !found[k]
    ensures i < |found| && !found[i] && forall j :: 0 <= j < i ==> found[j]
  {
    if !found[0] {
      i := 0;
    } else {
      var k :| 0 <= k < |found| && !found[k];
      assert !found[1..][k - 1];
      var r := FirstStop(found[1..]);
      assert forall j :: 0 < j <= r ==> found[j] == found[1..][j - 1];
      i := r + 1;
    }
  }

  /** Either every answer came, or there is a first line at which the sale stops. */
  lemma SaleStops(e: E.ItemSold, world: World) returns (i: nat)
    requires exists k: nat :: k < |e.lines| && !SaleAnswer(e, world, k).Found?
    ensures i < |e.lines| && SaleStopsAt(e, world, i)
  {
    var found := seq(|e.lines|, k requires 0 <= k < |e.lines| => SaleAnswer(e, world, k).Found?);
    var k: nat :| k < |e.lines| && !SaleAnswer(e, world, k).Found?;
    assert !found[k];
    i := FirstStop(found);
    forall j | 0 <= j < i ensures SaleAnswer(e, world, j).Found? {
      assert found[j];
    }
    assert !found[i];
  }

  lemma SaleOutcome(e: E.ItemSold, facts: seq<SaleFact>, world: World)
    ensures var plan := ItemSoldPlan(e, world);
            && (Unanswered(Sold(e), facts, world) ==> plan == Err(Transient))
            && (Hopeless(Sold(e), facts, world) ==> plan == Err(Permanent))
            && (!Unanswered(Sold(e), facts, world) && !Hopeless(Sold(e), facts, world) ==>
                  plan.Ok? || plan == Err(Unbalanced))
  {
    CostsOutcome(e, |e.lines|, world);
    assert e.lines[..|e.lines|] == e.lines;
    if exists k: nat :: k < |e.lines| && !SaleAnswer(e, world, k).Found? {
      var i := SaleStops(e, world);
    }
  }

  lemma FactOrCost(facts: seq<SaleFact>, transactionId: string, sku: string)
    ensures FindSold(facts, transactionId, sku).None? <==> NeedsCost(facts, transactionId, sku)
  {
    FindSoldIsFirst(facts, transactionId, sku);
  }

  /** One more returned line: it adds a fact, or stops the refund if nothing stopped it before. */
  lemma OneMoreRefund(e: E.ItemReturned, n: nat, facts: seq<SaleFact>, world: World)
    requires n < |e.lines|
    ensures var before, answer := RefundFacts(e, e.lines[..n], facts, world), ReturnAnswer(e, facts, world, n);
            var after := RefundFacts(e, e.lines[..n + 1], facts, world);
            && (before.Err? ==> after == before)
            && (before.Ok? && answer.Found? ==> after.Ok?)
            && (before.Ok? && !answer.Found? ==> after == Err(if answer.Missing? then Permanent else Transient))
  {
    var lines := e.lines[..n + 1];
    assert lines[..n] == e.lines[..n] && lines[n] == e.lines[n];
    FactOrCost(facts, e.originalTransactionId, e.lines[n].sku);
  }

  lemma {:induction false} RefundsOutcome(e: E.ItemReturned, n: nat, facts: seq<SaleFact>, world: World)
    requires n <= |e.lines|
    ensures var refunds := RefundFacts(e, e.lines[..n], facts, world);
            && (refunds.Ok? <==> forall i: nat :: i < n ==> ReturnAnswer(e, facts, world, i).Found?)
            && forall i: nat :: i < n && ReturnStopsAt(e, facts, world, i) ==>
                 refunds == Err(if ReturnAnswer(e, facts, world, i).Missing? then Permanent else Transient)
  {
    if n > 0 {
      RefundsOutcome(e, n - 1, facts, world);
      OneMoreRefund(e, n - 1, facts, world);
    }
  }

  lemma ReturnStops(e: E.ItemReturned, facts: seq<SaleFact>, world: World) returns (i: nat)
    requires exists k: nat :: k < |e.lines| && !ReturnAnswer(e, facts, world, k).Found?
    ensures i < |e.lines| && ReturnStopsAt(e, facts, world, i)
  {
    var found := seq(|e.lines|, k requires 0 <= k < |e.lines| => ReturnAnswer(e, facts, world, k).Found?);
    var k: nat :| k < |e.lines| && !ReturnAnswer(e, facts, world, k).Found?;
    assert !found[k];
    i := FirstStop(found);
    forall j | 0 <= j < i ensures ReturnAnswer(e, facts, world, j).Found? {
      assert found[j];
    }
    assert !found[i];
  }

  lemma ReturnOutcome(e: E.ItemReturned, facts: seq<SaleFact>, world: World)
    ensures var plan := ItemReturnedPlan(e, facts, world);
            && (Unanswered(Returned(e), facts, world) ==> plan == Err(Transient))
            && (Hopeless(Returned(e), facts, world) ==> plan == Err(Permanent))
            && (!Unanswered(Returned(e), facts, world) && !Hopeless(Returned(e), facts, world) ==>
                  plan.Ok? || plan == Err(Unbalanced))
  {
    RefundsOutcome(e, |e.lines|, facts, world);
    assert e.lines[..|e.lines|] == e.lines;
    if exists k: nat :: k < |e.lines| && !ReturnAnswer(e, facts, world, k).Found? {
      var i := ReturnStops(e, facts, world);
    }
  }

  /** The three ways a plan fails exclude one another, and only an unanswered call is worth retrying. */
  lemma PlanOutcome(event: DomainEvent, facts: seq<SaleFact>, world: World)
    ensures var plan := PlanFor(event, facts, world);
            && (Unanswered(event, facts, world) <==> plan == Err(Transient))
            && (Hopeless(event, facts, world) <==> plan == Err(Permanent))
            && (Refused(event, facts, world) <==> plan == Err(Unbalanced))
  {
    match event
    case Received(e) => ReceiptOutcome(e, world);
    case Sold(e) => SaleOutcome(e, facts, world);
    case Returned(e) => ReturnOutcome(e, facts, world);
    case Closed(e) => DayClosedIsSound(e);
    case Adjusted(e) => StockAdjustedIsSound(e);
    case Unrouted =>
  }

  // ---- One attempt ----

  /** The entries, bills and facts of two states are the same. */
  predicate SameTables(b: Books, b': Books) {
    b'.entries == b.entries && b'.bills == b.bills && b'.facts == b.facts
  }

  /** A row as it is after failing once more, and when it is due again. */
  predicate RetriedLater(row: InboxRow, row': InboxRow, now: int) {
    && row'.status == Pending && row'.attempts == row.attempts + 1
    && row'.nextAttempt == now + BackoffMs(row.attempts + 1)
    && row'.eventId == row.eventId && row'.event == row.event
  }

  predicate LeftToAPerson(row: InboxRow, row': InboxRow) {
    row' == row.(status := NeedsAttention, attempts := row.attempts + 1)
  }

  /**
   A pending event whose service does not answer, or that only the database
   keeps from being booked, is tried again after the backoff; one that can
   never be posted as it stands is left to a person; every other one is posted.
   A failed attempt books nothing.
   */
  lemma AttemptSettles(b: Books, eventId: string, a: Attempt)
    requires RowOf(b.inbox, eventId) < |b.inbox| && b.inbox[RowOf(b.inbox, eventId)].status == Pending
    ensures var i := RowOf(b.inbox, eventId);
            var row, b', r := b.inbox[i], Process(b, eventId, a), B.Result(b, eventId, a);
            var waits, hopeless := Unanswered(row.event, b.facts, a.world), Hopeless(row.event, b.facts, a.world);
            var refused := Refused(row.event, b.facts, a.world);
            && |b'.inbox| == |b.inbox| && (forall j :: 0 <= j < |b.inbox| && j != i ==> b'.inbox[j] == b.inbox[j])
            && (waits || (!hopeless && !refused && !a.databaseUp) <==> r == RetryLater)
            && (r == RetryLater ==> RetriedLater(row, b'.inbox[i], a.now) && SameTables(b, b'))
            && (hopeless || refused <==> r == FlaggedForAttention)
            && (r == FlaggedForAttention ==> LeftToAPerson(row, b'.inbox[i]) && SameTables(b, b'))
            && (!waits && !hopeless && !refused && a.databaseUp <==> r == PostedNow)
            && (r == PostedNow ==> b'.inbox[i] == row.(status := Posted))
  {
    var row := b.inbox[RowOf(b.inbox, eventId)];
    PlanOutcome(row.event, b.facts, a.world);
  }

  /**
   A person's retry refuses unknown and posted events and changes nothing then; any
   other event is put back in the queue, due at once with its attempts kept, and
   attempted like any pending one.
   */
  lemma RetryTriesNow(b: Books, eventId: string, a: Attempt)
    ensures var known, i := (exists j :: 0 <= j < |b.inbox| && b.inbox[j].eventId == eventId), RowOf(b.inbox, eventId);
            && (B.RetryResult(b, eventId, a) == NoSuchEvent <==> !known)
            && (B.RetryResult(b, eventId, a) == AlreadyPosted <==> known && b.inbox[i].status == Posted)
            && (!known || b.inbox[i].status == Posted ==> Retry(b, eventId, a) == b)
            && (known && b.inbox[i].status != Posted ==>
                  var row := InboxRow(eventId, b.inbox[i].event, Pending, b.inbox[i].attempts, a.now);
                  var queued := b.(inbox := b.inbox[i := row]);
                  && Retry(b, eventId, a) == Process(queued, eventId, a)
                  && B.RetryResult(b, eventId, a) == B.Result(queued, eventId, a))
  {
  }

  // ---- Flagged events wait for a person ----

  /** The row is as it was. */
  predicate RowStays(b: Books, b': Books, i: nat) {
    i < |b.inbox| <= |b'.inbox| && b'.inbox[i] == b.inbox[i]
  }

  lemma ProcessLeavesFlagged(b: Books, eventId: string, a: Attempt, i: nat)
    requires i < |b.inbox| && b.inbox[i].status == NeedsAttention
    ensures RowStays(b, Process(b, eventId, a), i)
  {
  }

  lemma {:induction false} SweepLeavesFlagged(b: Books, eventIds: seq<string>, attempts: nat -> Attempt, i: nat)
    requires i < |b.inbox| && b.inbox[i].status == NeedsAttention
    ensures RowStays(b, ProcessAll(b, eventIds, attempts), i)
  {
    if eventIds != [] {
      var n := |eventIds| - 1;
      SweepLeavesFlagged(b, eventIds[..n], attempts, i);
      ProcessLeavesFlagged(ProcessAll(b, eventIds[..n], attempts), eventIds[n], attempts(n), i);
    }
  }

  lemma RetryLeavesOthers(b: Books, eventId: string, a: Attempt, i: nat)
    requires i < |b.inbox| && b.inbox[i].status == NeedsAttention && b.inbox[i].eventId != eventId
    ensures RowStays(b, Retry(b, eventId, a), i)
  {
    var j := RowOf(b.inbox, eventId);
    if j < |b.inbox| && b.inbox[j].status != Posted {
      ProcessLeavesFlagged(Requeue(b, j, a.now), eventId, a, i);
    }
  }

  lemma StepLeavesFlagged(b: Books, s: Step, i: nat)
    requires i < |b.inbox| && b.inbox[i].status == NeedsAttention
    requires s.RetryEvent? ==> s.eventId != b.inbox[i].eventId
    ensures RowStays(b, Apply(b, s), i)
  {
    match s
    case Arrive(eventId, event, attempt) =>
      ProcessLeavesFlagged(Store(b, eventId, event, attempt.now), eventId, attempt, i);
    case SweepDue(now, attempts) => SweepLeavesFlagged(b, Batch(b.inbox, now), attempts, i);
    case RetryEvent(eventId, attempt) => RetryLeavesOthers(b, eventId, attempt, i);
    case PayBill(billId, paidAt) =>
  }

  /** Nobody retries the event. */
  ghost predicate NoRetryOf(steps: seq<Step>, eventId: string) {
    forall k :: 0 <= k < |steps| && steps[k].RetryEvent? ==> steps[k].eventId != eventId
  }

  lemma StaysThroughStep(b: Books, b1: Books, s: Step, b2: Books, i: nat)
    requires RowStays(b, b1, i) && b.inbox[i].status == NeedsAttention && b2 == Apply(b1, s)
    requires s.RetryEvent? ==> s.eventId != b.inbox[i].eventId
    ensures RowStays(b, b2, i)
  {
    StepLeavesFlagged(b1, s, i);
  }

  lemma LastOfMore(steps: seq<Step>, more: seq<Step>)
    requires more != []
    ensures var all, n := steps + more, |more| - 1;
            all != [] && all[..|all| - 1] == steps + more[..n] && all[|all| - 1] == more[n]
  {
  }

  lemma RunLast(all: seq<Step>, init: seq<Step>, last: Step)
    requires all != [] && all[..|all| - 1] == init && all[|all| - 1] == last
    ensures Run(all) == Apply(Run(init), last)
  {
  }

  /** However a run goes on, an event left to a person stays so until somebody retries it. */
  lemma {:induction false} FlaggedWaitsForRetry(steps: seq<Step>, more: seq<Step>, i: nat)
    requires i < |Run(steps).inbox| && Run(steps).inbox[i].status == NeedsAttention
    requires NoRetryOf(more, Run(steps).inbox[i].eventId)
    ensures RowStays(Run(steps), Run(steps + more), i)
  {
    if more == [] {
      assert steps + more == steps;
    } else {
      var n := |more| - 1;
      FlaggedWaitsForRetry(steps, more[..n], i);
      LastOfMore(steps, more);
      RunLast(steps + more, steps + more[..n], more[n]);
      StaysThroughStep(Run(steps), Run(steps + more[..n]), more[n], Run(steps + more), i);
    }
  }

  // ---- When an event is due ----

  /** Due are exactly the pending rows whose time has come. */
  lemma {:induction false} DueExactlyWhen(inbox: seq<InboxRow>, now: int, eventId: string)
    ensures eventId in Due(inbox, now) <==>
            exists i :: 0 <= i < |inbox| && inbox[i].eventId == eventId
                        && inbox[i].status == Pending && inbox[i].nextAttempt <= now
  {
    if inbox != [] {
      var rest := inbox[1..];
      DueExactlyWhen(rest, now, eventId);
      assert forall i :: 0 <= i < |rest| ==> rest[i] == inbox[i + 1];
      if i :| 0 < i < |inbox| && inbox[i].eventId == eventId && inbox[i].status == Pending
              && inbox[i].nextAttempt <= now {
        assert rest[i - 1] == inbox[i];
      }
    }
  }

  /** Rows received first are due first. */
  lemma {:induction false} DueInOrder(first: seq<InboxRow>, second: seq<InboxRow>, now: int)
    ensures Due(first + second, now) == Due(first, now) + Due(second, now)
  {
    if first == [] {
      assert first + second == second;
    } else {
      assert (first + second)[1..] == first[1..] + second;
      DueInOrder(first[1..], second, now);
    }
  }

  /** The first retry comes after 15 seconds, each later one after twice as long, up to an hour. */
  lemma BackoffDoubles(attempts: int)
    requires attempts >= 1
    ensures BackoffMs(1) == 15000
    ensures BackoffMs(attempts + 1) == if 2 * BackoffMs(attempts) < 3600000 then 2 * BackoffMs(attempts) else 3600000
  {
    assert Power2(0) == 1 && Power2(attempts) == 2 * Power2(attempts - 1);
  }

  /** An event not yet known is stored as pending with no attempt made; a known one is left alone. */
  lemma FirstReceipt(b: Books, eventId: string, event: DomainEvent, now: int)
    ensures var b' := Store(b, eventId, event, now);
            && SameTables(b, b') && b.inbox <= b'.inbox
            && ((exists i :: 0 <= i < |b.inbox| && b.inbox[i].eventId == eventId) ==> b' == b)
            && (!(exists i :: 0 <= i < |b.inbox| && b.inbox[i].eventId == eventId) ==>
                  && |b'.inbox| == |b.inbox| + 1
                  && b'.inbox[|b.inbox|] == InboxRow(eventId, event, Pending, 0, now))
  {
  }
}
