/**
 Financials' tables as one value, and every step that changes them: an event
 arriving, a posting attempt, a sweep, a manual retry, a bill payment.
 */
module Books {
  import opened Wrappers
  import opened Chart
  import opened Journal
  import opened Postings
  import opened PostingProofs

  const BATCH := 25
  const FIRST_RETRY_MS := 15000
  const MAX_BACKOFF_MS := 3600000

  datatype Status = Pending | Posted | NeedsAttention

  datatype InboxRow = InboxRow(eventId: string, event: DomainEvent, status: Status, attempts: nat, nextAttempt: int)

  datatype Books = Books(entries: seq<Entry>, bills: seq<Bill>, facts: seq<SaleFact>, inbox: seq<InboxRow>)

  /** What one posting attempt meets: the other services' answers, the database, the clock. */
  datatype Attempt = Attempt(world: World, databaseUp: bool, now: int)

  datatype ProcessResult = PostedNow | RetryLater | FlaggedForAttention | Skipped | AlreadyPosted | NoSuchEvent

  datatype PayResult = Paid | NoSuchBill | AlreadyPaid | Refused

  const EMPTY := Books([], [], [], [])

  function Power2(n: nat): nat {
    if n == 0 then 1 else 2 * Power2(n - 1)
  }

  function BackoffMs(attempts: int): int {
    var delay := FIRST_RETRY_MS * Power2(if attempts > 1 then attempts - 1 else 0);
    if delay < MAX_BACKOFF_MS then delay else MAX_BACKOFF_MS
  }

  predicate HasKey(entries: seq<Entry>, key: Key) {
    exists i :: 0 <= i < |entries| && KeyOf(entries[i]) == key
  }

  /** The position of an event's row, or the table's length. */
  function RowOf(inbox: seq<InboxRow>, eventId: string): (i: nat)
    ensures i <= |inbox|
    ensures i < |inbox| ==> inbox[i].eventId == eventId
    ensures forall j :: 0 <= j < i ==> inbox[j].eventId != eventId
  {
    if inbox == [] then 0
    else if inbox[0].eventId == eventId then 0
    else 1 + RowOf(inbox[1..], eventId)
  }

  /** Commits a plan's entry, bill and facts, unless its document is already booked. */
  function Book(b: Books, p: Plan): Books {
    if p.entry.Some? && HasKey(b.entries, KeyOf(p.entry.value)) then b
    else b.(entries := b.entries + (if p.entry.Some? then [p.entry.value] else []),
            bills := b.bills + (if p.bill.Some? then [p.bill.value] else []),
            facts := b.facts + p.facts)
  }

  function Store(b: Books, eventId: string, event: DomainEvent, now: int): Books {
    if RowOf(b.inbox, eventId) < |b.inbox| then b
    else b.(inbox := b.inbox + [InboxRow(eventId, event, Pending, 0, now)])
  }

  /** What an attempt makes of a pending row. */
  ghost function RowAfter(row: InboxRow, plan: Result<Plan, PostingError>, a: Attempt): InboxRow {
    if plan.Ok? && a.databaseUp then row.(status := Posted)
    else if plan.Err? && !plan.error.Transient? then row.(status := NeedsAttention, attempts := row.attempts + 1)
    else row.(attempts := row.attempts + 1, nextAttempt := a.now + BackoffMs(row.attempts + 1))
  }

  ghost function Process(b: Books, eventId: string, a: Attempt): Books {
    var i := RowOf(b.inbox, eventId);
    if i == |b.inbox| || b.inbox[i].status != Pending then b
    else
      var plan := PlanFor(b.inbox[i].event, b.facts, a.world);
      var booked := if plan.Ok? && a.databaseUp then Book(b, plan.value) else b;
      booked.(inbox := b.inbox[i := RowAfter(b.inbox[i], plan, a)])
  }

  ghost function Result(b: Books, eventId: string, a: Attempt): ProcessResult {
    var i := RowOf(b.inbox, eventId);
    if i == |b.inbox| || b.inbox[i].status != Pending then Skipped
    else
      var plan := PlanFor(b.inbox[i].event, b.facts, a.world);
      if plan.Ok? && a.databaseUp then PostedNow
      else if plan.Err? && !plan.error.Transient? then FlaggedForAttention
      else RetryLater
  }

  ghost function Deliver(b: Books, eventId: string, event: DomainEvent, a: Attempt): Books {
    Process(Store(b, eventId, event, a.now), eventId, a)
  }

  /** Puts a row back in the queue, due now. */
  function Requeue(b: Books, i: nat, now: int): Books
    requires i < |b.inbox|
  {
    b.(inbox := b.inbox[i := b.inbox[i].(status := Pending, nextAttempt := now)])
  }

  ghost function Retry(b: Books, eventId: string, a: Attempt): Books {
    var i := RowOf(b.inbox, eventId);
    if i == |b.inbox| || b.inbox[i].status == Posted then b
    else Process(Requeue(b, i, a.now), eventId, a)
  }

  ghost function RetryResult(b: Books, eventId: string, a: Attempt): ProcessResult {
    var i := RowOf(b.inbox, eventId);
    if i == |b.inbox| then NoSuchEvent
    else if b.inbox[i].status == Posted then AlreadyPosted
    else Result(Requeue(b, i, a.now), eventId, a)
  }

  predicate IsDue(row: InboxRow, now: int) {
    row.status == Pending && row.nextAttempt <= now
  }

  /** The due events, first received first. */
  function Due(inbox: seq<InboxRow>, now: int): seq<string> {
    if inbox == [] then []
    else if IsDue(inbox[0], now) then [inbox[0].eventId] + Due(inbox[1..], now)
    else Due(inbox[1..], now)
  }

  function Batch(inbox: seq<InboxRow>, now: int): seq<string> {
    var due := Due(inbox, now);
    if |due| <= BATCH then due else due[..BATCH]
  }

  /** Processes the events one after another; attempt k meets attempts(k). */
  ghost function ProcessAll(b: Books, eventIds: seq<string>, attempts: nat -> Attempt): Books {
    if eventIds == [] then b
    else
      var n := |eventIds| - 1;
      Process(ProcessAll(b, eventIds[..n], attempts), eventIds[n], attempts(n))
  }

  ghost function Sweep(b: Books, now: int, attempts: nat -> Attempt): Books {
    ProcessAll(b, Batch(b.inbox, now), attempts)
  }

  function PaymentDraft(b: Books, id: nat, paidAt: int): Entry
    requires id < |b.bills|
  {
    Entry(paidAt, BillPaymentSource, BillRef(id),
          [Line(ACCOUNTS_PAYABLE, b.bills[id].amount, 0), Line(BANK, 0, b.bills[id].amount)])
  }

  /** Flips an open bill to paid together with its payment entry. */
  ghost function Pay(b: Books, id: nat, paidAt: int): Books {
    if id >= |b.bills| || b.bills[id].paid then b
    else
      var entry := Balanced(PaymentDraft(b, id, paidAt));
      if entry.Err? || HasKey(b.entries, KeyOf(entry.value)) then b
      else b.(bills := b.bills[id := b.bills[id].(paid := true)], entries := b.entries + [entry.value])
  }

  datatype Step =
    | Arrive(eventId: string, event: DomainEvent, attempt: Attempt)
    | SweepDue(now: int, attempts: nat -> Attempt)
    | RetryEvent(eventId: string, attempt: Attempt)
    | PayBill(billId: nat, paidAt: int)

  ghost function Apply(b: Books, s: Step): Books {
    match s
    case Arrive(eventId, event, attempt) => Deliver(b, eventId, event, attempt)
    case SweepDue(now, attempts) => Sweep(b, now, attempts)
    case RetryEvent(eventId, attempt) => Retry(b, eventId, attempt)
    case PayBill(billId, paidAt) => Pay(b, billId, paidAt)
  }

  /** The books after a run of steps from empty tables. */
  ghost function Run(steps: seq<Step>): Books {
    if steps == [] then EMPTY else Apply(Run(steps[..|steps| - 1]), steps[|steps| - 1])
  }
}
