/** The promises of the posting engine, over every run of arrivals, sweeps, retries and payments. */
module BooksTheorems {
  import opened Sums
  import opened Chart
  import opened Journal
  import opened Postings
  import opened PostingProofs
  import opened Books
  import opened BooksProofs

  /**
   Whatever mix of delivery, redelivery, failure, sweep and retry occurs, a
   source document has at most one entry; bills exist for exactly the booked
   receipts, facts for exactly the booked sales and refunds, and payment entries
   for exactly the paid bills. PostedRows says which documents are booked.
   */
  lemma ExactlyOnce(steps: seq<Step>)
    ensures var b := Run(steps);
            && KeysUnique(b.entries) && EntriesSound(b.entries)
            && (forall key: Key :: key.source == GoodsReceivedSource ==>
                                     (HasBill(b.bills, key) <==> HasKey(b.entries, key)))
            && (forall key: Key :: key.source == ItemSoldSource || key.source == ItemReturnedSource ==>
                                (HasFact(b.facts, key) <==> HasKey(b.entries, key)))
            && forall i: nat :: i < |b.bills| ==> (b.bills[i].paid <==> HasKey(b.entries, PaymentKey(i)))
  {
    RunKeepsInv(steps, (k, at) => true);
    var b := Run(steps);
    forall key | HasKey(b.entries, key) ensures exists e :: e in b.entries && KeyOf(e) == key {
      var i :| 0 <= i < |b.entries| && KeyOf(b.entries[i]) == key;
      assert b.entries[i] in b.entries;
    }
  }

  // ---- Nothing booked is ever unbooked ----

  /** Rows keep their event; a posted row stays posted; entries, bills and facts only grow. */
  ghost predicate Later(b: Books, b': Books) {
    && b.entries <= b'.entries && b.facts <= b'.facts
    && |b.bills| <= |b'.bills|
    && (forall i :: 0 <= i < |b.bills| ==> b'.bills[i] == b.bills[i] || b'.bills[i] == b.bills[i].(paid := true))
    && |b.inbox| <= |b'.inbox|
    && forall i :: 0 <= i < |b.inbox| ==>
                     && b'.inbox[i].eventId == b.inbox[i].eventId && b'.inbox[i].event == b.inbox[i].event
                     && (b.inbox[i].status == Posted ==> b'.inbox[i] == b.inbox[i])
                     && b.inbox[i].attempts <= b'.inbox[i].attempts
  }

  lemma ProcessIsLater(b: Books, eventId: string, a: Attempt)
    ensures Later(b, Process(b, eventId, a))
  {
  }

  lemma LaterTransitive(b: Books, b1: Books, b2: Books)
    requires Later(b, b1) && Later(b1, b2)
    ensures Later(b, b2)
  {
  }

  lemma {:induction false} ProcessAllIsLater(b: Books, eventIds: seq<string>, attempts: nat -> Attempt)
    ensures Later(b, ProcessAll(b, eventIds, attempts))
  {
    if eventIds != [] {
      var n := |eventIds| - 1;
      var b1 := ProcessAll(b, eventIds[..n], attempts);
      ProcessAllIsLater(b, eventIds[..n], attempts);
      ProcessIsLater(b1, eventIds[n], attempts(n));
      LaterTransitive(b, b1, Process(b1, eventIds[n], attempts(n)));
    }
  }

  lemma ArriveIsLater(b: Books, eventId: string, event: DomainEvent, a: Attempt)
    ensures Later(b, Deliver(b, eventId, event, a))
  {
    var b1 := Store(b, eventId, event, a.now);
    ProcessIsLater(b1, eventId, a);
    LaterTransitive(b, b1, Process(b1, eventId, a));
  }

  lemma RetryIsLater(b: Books, eventId: string, a: Attempt)
    ensures Later(b, Retry(b, eventId, a))
  {
    var i := RowOf(b.inbox, eventId);
    if i < |b.inbox| && b.inbox[i].status != Posted {
      var b1 := Requeue(b, i, a.now);
      ProcessIsLater(b1, eventId, a);
      LaterTransitive(b, b1, Process(b1, eventId, a));
    }
  }

  lemma StepIsLater(b: Books, s: Step)
    ensures Later(b, Apply(b, s))
  {
    match s
    case Arrive(eventId, event, a) => ArriveIsLater(b, eventId, event, a);
    case SweepDue(now, attempts) => ProcessAllIsLater(b, Batch(b.inbox, now), attempts);
    case RetryEvent(eventId, a) => RetryIsLater(b, eventId, a);
    case PayBill(_, _) =>
  }

  /** A run only ever adds to the books, and never leaves POSTED or unpays a bill. */
  lemma {:induction false} RunsOnlyAdd(steps: seq<Step>, more: seq<Step>)
    ensures Later(Run(steps), Run(steps + more))
  {
    if more == [] {
      assert steps + more == steps;
    } else {
      var n := |more| - 1;
      assert (steps + more)[..|steps + more| - 1] == steps + more[..n];
      RunsOnlyAdd(steps, more[..n]);
      StepIsLater(Run(steps + more[..n]), more[n]);
      LaterTransitive(Run(steps), Run(steps + more[..n]), Run(steps + more));
    }
  }

  /**
   Once a document is booked, no delivery of any event for it, under any event
   id and with any payload, changes an entry, a bill or a fact.
   */
  lemma RedeliveryBooksNothing(b: Books, eventId: string, event: DomainEvent, a: Attempt)
    requires HasKey(b.entries, DocumentOf(event))
    requires RowOf(b.inbox, eventId) < |b.inbox| ==> b.inbox[RowOf(b.inbox, eventId)].event == event
    ensures var b' := Deliver(b, eventId, event, a);
            b'.entries == b.entries && b'.bills == b.bills && b'.facts == b.facts
  {
    var b1 := Store(b, eventId, event, a.now);
    var i := RowOf(b1.inbox, eventId);
    if i < |b1.inbox| && b1.inbox[i].status == Pending {
      assert b1.inbox[i].event == event;
      var plan := PlanFor(event, b1.facts, a.world);
      if plan.Ok? && a.databaseUp {
        if plan.value.entry.Some? {
          PlanKey(event, b1.facts, a.world);
        }
        PlanIsSound(event, b1.facts, a.world);
        assert Book(b1, plan.value).entries == b.entries;
        assert Book(b1, plan.value).facts == b.facts;
      }
    }
  }

  // ---- Accounts payable ----

  /** The net credit on the payable account is what the open bills add up to. */
  lemma PayableControlAccount(steps: seq<Step>)
    ensures -SumBy(Run(steps).entries, NetOn(ACCOUNTS_PAYABLE)) == SumBy(Run(steps).bills, OpenAmount())
  {
    RunKeepsInv(steps, (k, at) => true);
  }

  // ---- The retry sweep ----

  lemma {:induction false} Power2Grows(m: nat, n: nat)
    requires m <= n
    ensures 1 <= Power2(m) <= Power2(n)
    decreases n
  {
    if n > 0 {
      Power2Grows(if m == n then m - 1 else m, n - 1);
    }
  }

  /** Backoff never shrinks with more attempts and stays between 15 seconds and an hour. */
  lemma BackoffBounds(fewer: int, more: int)
    requires fewer <= more
    ensures FIRST_RETRY_MS <= BackoffMs(fewer) <= BackoffMs(more) <= MAX_BACKOFF_MS
    ensures fewer <= 1 ==> BackoffMs(fewer) == FIRST_RETRY_MS
  {
    Power2Grows(if fewer > 1 then fewer - 1 else 0, if more > 1 then more - 1 else 0);
    Power2Grows(0, if fewer > 1 then fewer - 1 else 0);
  }

  /** Settling the first due row removes it from the due list and nothing else. */
  lemma {:induction false} SettleFirstDue(inbox: seq<InboxRow>, now: int, row: InboxRow)
    requires UniqueIds(inbox) && Due(inbox, now) != [] && !IsDue(row, now)
    ensures var i := RowOf(inbox, Due(inbox, now)[0]);
            i < |inbox| && IsDue(inbox[i], now) && Due(inbox[i := row], now) == Due(inbox, now)[1..]
  {
    var rest := inbox[1..];
    if IsDue(inbox[0], now) {
      assert inbox[0 := row][1..] == rest;
    } else {
      SettleFirstDue(rest, now, row);
      var i := RowOf(rest, Due(inbox, now)[0]);
      assert inbox[1 + i] == rest[i];
      assert inbox[1 + i := row][1..] == rest[i := row];
      assert RowOf(inbox, Due(inbox, now)[0]) == 1 + i;
    }
  }

  /** Whatever the outcome, processing a due event settles it past the sweep's instant. */
  lemma ProcessSettlesFirst(b: Books, now: int, a: Attempt)
    requires UniqueIds(b.inbox) && Due(b.inbox, now) != [] && a.now >= now
    ensures var b' := Process(b, Due(b.inbox, now)[0], a);
            UniqueIds(b'.inbox) && Due(b'.inbox, now) == Due(b.inbox, now)[1..]
  {
    var i := RowOf(b.inbox, Due(b.inbox, now)[0]);
    SettleFirstDue(b.inbox, now, InboxRow("", Unrouted, Posted, 0, now));
    var row := RowAfter(b.inbox[i], PlanFor(b.inbox[i].event, b.facts, a.world), a);
    BackoffBounds(b.inbox[i].attempts + 1, b.inbox[i].attempts + 1);
    SettleFirstDue(b.inbox, now, row);
  }

  lemma {:induction false} ProcessAllSettles(b: Books, now: int, n: nat, attempts: nat -> Attempt)
    requires UniqueIds(b.inbox) && n <= |Due(b.inbox, now)|
    requires forall k :: attempts(k).now >= now
    ensures var b' := ProcessAll(b, Due(b.inbox, now)[..n], attempts);
            UniqueIds(b'.inbox) && Due(b'.inbox, now) == Due(b.inbox, now)[n..]
  {
    if n > 0 {
      var due := Due(b.inbox, now);
      ProcessAllSettles(b, now, n - 1, attempts);
      assert due[..n][..n - 1] == due[..n - 1];
      ProcessSettlesFirst(ProcessAll(b, due[..n - 1], attempts), now, attempts(n - 1));
    }
  }

  /** The list without its first n elements, or nothing. */
  function Without(due: seq<string>, n: nat): seq<string> {
    if n <= |due| then due[n..] else []
  }

  lemma WithoutBatch(due: seq<string>, n: nat)
    ensures Without(Without(due, n), BATCH) == Without(due, n + BATCH)
  {
  }

  /** One sweep removes the first 25 due events, whatever comes of each. */
  lemma SweepSettles(b: Books, now: int, attempts: nat -> Attempt)
    requires UniqueIds(b.inbox) && forall k :: attempts(k).now >= now
    ensures UniqueIds(Sweep(b, now, attempts).inbox)
    ensures Due(Sweep(b, now, attempts).inbox, now) == Without(Due(b.inbox, now), 25)
  {
    var due := Due(b.inbox, now);
    var n := if |due| <= BATCH then |due| else BATCH;
    assert Batch(b.inbox, now) == due[..n];
    ProcessAllSettles(b, now, n, attempts);
  }

  /** The state after k sweeps for one instant; sweep j's attempts are attempts(j). */
  ghost function Sweeps(b: Books, now: int, k: nat, attempts: nat -> nat -> Attempt): Books {
    if k == 0 then b else Sweep(Sweeps(b, now, k - 1, attempts), now, attempts(k - 1))
  }

  /** The first n due events are settled; the others are still due, in order. */
  ghost predicate Settled(b: Books, now: int, due: seq<string>, n: nat) {
    UniqueIds(b.inbox) && Due(b.inbox, now) == Without(due, n)
  }

  /** No attempt of the sweep runs before its instant. */
  ghost predicate Punctual(attempts: nat -> Attempt, now: int) {
    forall k :: attempts(k).now >= now
  }

  lemma SweepOnce(b: Books, now: int, attempts: nat -> Attempt, due: seq<string>, n: nat)
    requires Punctual(attempts, now) && Settled(b, now, due, n)
    ensures Settled(Sweep(b, now, attempts), now, due, n + BATCH)
  {
    SweepSettles(b, now, attempts);
    WithoutBatch(due, n);
  }

  lemma NothingSettled(b: Books, now: int)
    requires UniqueIds(b.inbox)
    ensures Settled(b, now, Due(b.inbox, now), 0)
  {
  }

  lemma OneMoreSweep(b: Books, now: int, k: nat, attempts: nat -> nat -> Attempt, due: seq<string>, n: nat)
    requires Punctual(attempts(k), now) && Settled(Sweeps(b, now, k, attempts), now, due, n)
    ensures Settled(Sweeps(b, now, k + 1, attempts), now, due, n + BATCH)
  {
    SweepOnce(Sweeps(b, now, k, attempts), now, attempts(k), due, n);
  }

  /** How many events k full sweeps take. */
  function Batches(k: nat): nat {
    if k == 0 then 0 else Batches(k - 1) + BATCH
  }

  lemma {:induction false} BatchesAre(k: nat)
    ensures Batches(k) == 25 * k
  {
    if k > 0 {
      BatchesAre(k - 1);
    }
  }

  lemma {:induction false} SweepsTakeBatches(b: Books, now: int, k: nat, attempts: nat -> nat -> Attempt)
    requires UniqueIds(b.inbox) && forall j :: Punctual(attempts(j), now)
    ensures Settled(Sweeps(b, now, k, attempts), now, Due(b.inbox, now), Batches(k))
  {
    if k == 0 {
      NothingSettled(b, now);
    } else {
      SweepsTakeBatches(b, now, k - 1, attempts);
      OneMoreSweep(b, now, k - 1, attempts, Due(b.inbox, now), Batches(k - 1));
    }
  }

  /**
   With no new arrivals, k sweeps for an instant clear exactly the first 25 k
   due events, in order of receipt: n due events are gone after ceil(n / 25)
   sweeps and not before.
   */
  lemma SweepsDrain(b: Books, now: int, k: nat, attempts: nat -> nat -> Attempt)
    requires UniqueIds(b.inbox) && forall j :: Punctual(attempts(j), now)
    ensures Settled(Sweeps(b, now, k, attempts), now, Due(b.inbox, now), 25 * k)
  {
    SweepsTakeBatches(b, now, k, attempts);
    BatchesAre(k);
  }
}
