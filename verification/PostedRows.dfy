/**
 What the inbox and the journal say of each other. Whether a receipt moves money
 depends on the purchase order Procurement answers with, so the statements are
 relative to the answers given during the run.
 */
module PostedRows {
  import opened Wrappers
  import opened Sums
  import opened Journal
  import E = Events
  import opened Postings
  import opened PostingProofs
  import opened Books
  import opened BooksProofs

  /** The purchase orders Procurement may answer with for a number. */
  type Answers = (string, PoRecord) -> bool

  /** A number's order never changes: its costs are frozen. */
  function Frozen(orders: string -> PoRecord): Answers {
    (n: string, po: PoRecord) => po == orders(n)
  }

  ghost predicate WorldWithin(world: World, answers: Answers) {
    forall n :: world.purchaseOrder(n).Found? ==> answers(n, world.purchaseOrder(n).value)
  }

  ghost predicate StepWithin(s: Step, answers: Answers) {
    match s
    case Arrive(_, _, attempt) => WorldWithin(attempt.world, answers)
    case SweepDue(_, attempts) => forall k: nat :: WorldWithin(attempts(k).world, answers)
    case RetryEvent(_, attempt) => WorldWithin(attempt.world, answers)
    case PayBill(_, _) => true
  }

  ghost predicate RunWithin(steps: seq<Step>, answers: Answers) {
    forall i :: 0 <= i < |steps| ==> StepWithin(steps[i], answers)
  }

  /** What the order makes of the receipt, where it covers every booked line. */
  function ReceiptTotal(lines: seq<E.ReceivedLine>, po: PoRecord): Option<int> {
    var values := ReceiptValues(lines, po);
    if values.Err? then None else Some(SumBy(values.value, Amount()))
  }

  /** The event moves money under one of the answers. */
  ghost predicate Moves(event: DomainEvent, answers: Answers) {
    match event
    case Received(r) => exists po :: answers(r.poNumber, po) && ReceiptTotal(r.lines, po).Some? &&
                                     ReceiptTotal(r.lines, po) != Some(0)
    case Closed(day) => day.discrepancy != 0
    case Adjusted(stock) => SumBy(stock.lines, AdjustedValue()) != 0
    case Unrouted => false
    case _ => true
  }

  /** The event moves no money under one of the answers. */
  ghost predicate Idle(event: DomainEvent, answers: Answers) {
    match event
    case Received(r) => exists po :: answers(r.poNumber, po) && ReceiptTotal(r.lines, po) == Some(0)
    case Closed(day) => day.discrepancy == 0
    case Adjusted(stock) => SumBy(stock.lines, AdjustedValue()) == 0
    case _ => false
  }

  /** Some posted event moves money under the document. */
  ghost predicate PostedFor(inbox: seq<InboxRow>, key: Key, answers: Answers) {
    exists i :: 0 <= i < |inbox| && inbox[i].status == Posted && DocumentOf(inbox[i].event) == key
                && Moves(inbox[i].event, answers)
  }

  ghost predicate RowsBooked(b: Books, answers: Answers) {
    forall i :: 0 <= i < |b.inbox| && b.inbox[i].status == Posted ==>
                  HasKey(b.entries, DocumentOf(b.inbox[i].event)) || Idle(b.inbox[i].event, answers)
  }

  ghost predicate EntriesAsked(b: Books, answers: Answers) {
    forall e :: e in b.entries && e.source != BillPaymentSource ==> PostedFor(b.inbox, KeyOf(e), answers)
  }

  /** Every posted event is booked or idle, and every entry but a payment was asked for by a posted event. */
  ghost predicate Accounted(b: Books, answers: Answers) {
    RowsBooked(b, answers) && EntriesAsked(b, answers)
  }

  // ---- One attempt ----

  lemma PlanMoves(event: DomainEvent, facts: seq<SaleFact>, world: World, answers: Answers)
    requires PlanFor(event, facts, world).Ok? && WorldWithin(world, answers)
    ensures if PlanFor(event, facts, world).value.entry.Some? then Moves(event, answers) else Idle(event, answers)
  {
    match event
    case Received(r) =>
      var po := world.purchaseOrder(r.poNumber).value;
      assert answers(r.poNumber, po) && ReceiptTotal(r.lines, po).Some?;
    case _ =>
  }

  /** A row that becomes posted keeps what the others vouched for. */
  lemma StillPosted(before: seq<InboxRow>, after: seq<InboxRow>, key: Key, answers: Answers)
    requires PostedFor(before, key, answers) && |before| <= |after|
    requires forall i :: 0 <= i < |before| && before[i].status == Posted ==> after[i] == before[i]
    ensures PostedFor(after, key, answers)
  {
    var i :| 0 <= i < |before| && before[i].status == Posted && DocumentOf(before[i].event) == key
             && Moves(before[i].event, answers);
    assert after[i] == before[i];
  }

  lemma PostingAccounts(b: Books, i: nat, p: Plan, answers: Answers)
    requires Accounted(b, answers) && i < |b.inbox| && b.inbox[i].status == Pending
    requires p.entry.Some? ==> KeyOf(p.entry.value) == DocumentOf(b.inbox[i].event) && Moves(b.inbox[i].event, answers)
    requires p.entry.None? ==> Idle(b.inbox[i].event, answers)
    ensures Accounted(Book(b, p).(inbox := b.inbox[i := b.inbox[i].(status := Posted)]), answers)
  {
    var inbox := b.inbox[i := b.inbox[i].(status := Posted)];
    var after := Book(b, p).(inbox := inbox);
    BookHasDocument(b, p);
    assert RowsBooked(after, answers);
    forall e | e in after.entries && e.source != BillPaymentSource ensures PostedFor(inbox, KeyOf(e), answers) {
      if e in b.entries {
        StillPosted(b.inbox, inbox, KeyOf(e), answers);
      } else {
        assert inbox[i].status == Posted && e == p.entry.value;
      }
    }
  }

  /** Rows that were not posted may change in any way that does not post them. */
  lemma WaitingAccounts(b: Books, inbox: seq<InboxRow>, answers: Answers)
    requires Accounted(b, answers) && |b.inbox| <= |inbox|
    requires forall i :: 0 <= i < |b.inbox| && b.inbox[i].status == Posted ==> inbox[i] == b.inbox[i]
    requires forall i :: 0 <= i < |inbox| && inbox[i].status == Posted ==> i < |b.inbox| && b.inbox[i] == inbox[i]
    ensures Accounted(b.(inbox := inbox), answers)
  {
    forall e | e in b.entries && e.source != BillPaymentSource ensures PostedFor(inbox, KeyOf(e), answers) {
      StillPosted(b.inbox, inbox, KeyOf(e), answers);
    }
  }

  lemma ProcessAccounts(b: Books, eventId: string, a: Attempt, answers: Answers)
    requires Accounted(b, answers) && WorldWithin(a.world, answers)
    ensures Accounted(Process(b, eventId, a), answers)
  {
    var i := RowOf(b.inbox, eventId);
    if i < |b.inbox| && b.inbox[i].status == Pending {
      var plan := PlanFor(b.inbox[i].event, b.facts, a.world);
      if plan.Ok? && a.databaseUp {
        if plan.value.entry.Some? {
          PlanKey(b.inbox[i].event, b.facts, a.world);
        }
        PlanMoves(b.inbox[i].event, b.facts, a.world, answers);
        PostingAccounts(b, i, plan.value, answers);
      } else {
        WaitingAccounts(b, b.inbox[i := RowAfter(b.inbox[i], plan, a)], answers);
      }
    }
  }

  lemma {:induction false} ProcessAllAccounts(b: Books, eventIds: seq<string>, attempts: nat -> Attempt,
                                              answers: Answers)
    requires Accounted(b, answers) && forall k: nat :: WorldWithin(attempts(k).world, answers)
    ensures Accounted(ProcessAll(b, eventIds, attempts), answers)
  {
    if eventIds != [] {
      var n := |eventIds| - 1;
      ProcessAllAccounts(b, eventIds[..n], attempts, answers);
      ProcessAccounts(ProcessAll(b, eventIds[..n], attempts), eventIds[n], attempts(n), answers);
    }
  }

  lemma PayAccounts(b: Books, id: nat, paidAt: int, answers: Answers)
    requires Accounted(b, answers)
    ensures Accounted(Pay(b, id, paidAt), answers)
  {
    var after := Pay(b, id, paidAt);
    assert after.inbox == b.inbox;
    forall key ensures HasKey(b.entries, key) ==> HasKey(after.entries, key) {
      if after != b {
        HasKeyAppend(b.entries, after.entries[|b.entries|], key);
      }
    }
    assert forall e :: e in after.entries && e.source != BillPaymentSource ==> e in b.entries;
  }

  // ---- Every run ----

  lemma StepAccounts(b: Books, s: Step, answers: Answers)
    requires Accounted(b, answers) && StepWithin(s, answers)
    ensures Accounted(Apply(b, s), answers)
  {
    match s
    case Arrive(eventId, event, attempt) =>
      var stored := Store(b, eventId, event, attempt.now);
      WaitingAccounts(b, stored.inbox, answers);
      ProcessAccounts(stored, eventId, attempt, answers);
    case SweepDue(now, attempts) => ProcessAllAccounts(b, Batch(b.inbox, now), attempts, answers);
    case RetryEvent(eventId, attempt) =>
      var i := RowOf(b.inbox, eventId);
      if i < |b.inbox| && b.inbox[i].status != Posted {
        var queued := Requeue(b, i, attempt.now);
        WaitingAccounts(b, queued.inbox, answers);
        ProcessAccounts(queued, eventId, attempt, answers);
      }
    case PayBill(billId, paidAt) => PayAccounts(b, billId, paidAt, answers);
  }

  /**
   In every run, a posted event's document is booked or one of the answers makes
   it move nothing, and every entry but a payment belongs to a posted event that
   one of the answers makes move something.
   */
  lemma {:induction false} RunAccounts(steps: seq<Step>, answers: Answers)
    requires RunWithin(steps, answers)
    ensures Accounted(Run(steps), answers)
  {
    if steps != [] {
      var n := |steps| - 1;
      RunAccounts(steps[..n], answers);
      StepAccounts(Run(steps[..n]), steps[n], answers);
    }
  }

  lemma FrozenMovesOrIdles(event: DomainEvent, orders: string -> PoRecord)
    requires Moves(event, Frozen(orders))
    ensures !Idle(event, Frozen(orders))
  {
  }

  /**
   With every purchase order's costs frozen, a document is booked exactly when a
   posted event moves money under it: nothing posted is missing from the books,
   and nothing is booked that no posted event asked for.
   */
  lemma BookedExactlyWhenPosted(steps: seq<Step>, orders: string -> PoRecord, key: Key)
    requires RunWithin(steps, Frozen(orders)) && key.source != BillPaymentSource
    ensures HasKey(Run(steps).entries, key) <==> PostedFor(Run(steps).inbox, key, Frozen(orders))
  {
    var b, answers := Run(steps), Frozen(orders);
    RunAccounts(steps, answers);
    if HasKey(b.entries, key) {
      var i :| 0 <= i < |b.entries| && KeyOf(b.entries[i]) == key;
      assert b.entries[i] in b.entries;
    }
    if PostedFor(b.inbox, key, answers) {
      var i :| 0 <= i < |b.inbox| && b.inbox[i].status == Posted && DocumentOf(b.inbox[i].event) == key
               && Moves(b.inbox[i].event, answers);
      FrozenMovesOrIdles(b.inbox[i].event, orders);
    }
  }
}
