/** A run's ledger is the replay of its bookings and payments, one after another. */
module History {
  import opened Postings
  import opened PostingProofs
  import opened Books
  import opened BooksProofs

  datatype Change = Booking(event: DomainEvent, world: World) | Payment(billId: nat, paidAt: int)

  ghost function Make(b: Books, c: Change): Books {
    match c
    case Booking(event, world) =>
      var plan := PlanFor(event, b.facts, world);
      if plan.Ok? then Book(b, plan.value) else b
    case Payment(billId, paidAt) => Pay(b, billId, paidAt)
  }

  ghost function MakeAll(b: Books, changes: seq<Change>): Books {
    if changes == [] then b else Make(MakeAll(b, changes[..|changes| - 1]), changes[|changes| - 1])
  }

  /** Entries, bills and facts without the inbox. */
  function Ledger(b: Books): Books {
    b.(inbox := [])
  }

  lemma {:induction false} MakeAllConcat(b: Books, first: seq<Change>, second: seq<Change>)
    ensures MakeAll(b, first + second) == MakeAll(MakeAll(b, first), second)
  {
    if second == [] {
      assert first + second == first;
    } else {
      var n := |second| - 1;
      assert (first + second)[..|first + second| - 1] == first + second[..n];
      MakeAllConcat(b, first, second[..n]);
    }
  }

  lemma MakeOne(b: Books, c: Change)
    ensures MakeAll(b, [c]) == Make(b, c)
  {
    assert [c][..0] == [];
  }

  lemma ProcessChanges(b: Books, eventId: string, a: Attempt) returns (changes: seq<Change>)
    ensures MakeAll(Ledger(b), changes) == Ledger(Process(b, eventId, a))
  {
    changes := [];
    var i := RowOf(b.inbox, eventId);
    if i < |b.inbox| && b.inbox[i].status == Pending {
      var event := b.inbox[i].event;
      if PlanFor(event, b.facts, a.world).Ok? && a.databaseUp {
        changes := [Booking(event, a.world)];
        MakeOne(Ledger(b), changes[0]);
      }
    }
  }

  lemma {:induction false} SweepChanges(b: Books, eventIds: seq<string>, attempts: nat -> Attempt)
    returns (changes: seq<Change>)
    ensures MakeAll(Ledger(b), changes) == Ledger(ProcessAll(b, eventIds, attempts))
  {
    changes := [];
    if eventIds != [] {
      var n := |eventIds| - 1;
      var first := SweepChanges(b, eventIds[..n], attempts);
      var second := ProcessChanges(ProcessAll(b, eventIds[..n], attempts), eventIds[n], attempts(n));
      MakeAllConcat(Ledger(b), first, second);
      changes := first + second;
    }
  }

  lemma StepChanges(b: Books, s: Step) returns (changes: seq<Change>)
    ensures MakeAll(Ledger(b), changes) == Ledger(Apply(b, s))
  {
    match s
    case Arrive(eventId, event, attempt) =>
      changes := ProcessChanges(Store(b, eventId, event, attempt.now), eventId, attempt);
    case SweepDue(now, attempts) => changes := SweepChanges(b, Batch(b.inbox, now), attempts);
    case RetryEvent(eventId, attempt) =>
      changes := [];
      var i := RowOf(b.inbox, eventId);
      if i < |b.inbox| && b.inbox[i].status != Posted {
        changes := ProcessChanges(Requeue(b, i, attempt.now), eventId, attempt);
      }
    case PayBill(billId, paidAt) =>
      changes := [Payment(billId, paidAt)];
      MakeOne(Ledger(b), changes[0]);
  }

  /** Whatever arrives, is swept, retried or paid, the ledger is what its bookings and payments make of empty tables. */
  lemma {:induction false} RunIsReplay(steps: seq<Step>) returns (changes: seq<Change>)
    ensures MakeAll(EMPTY, changes) == Ledger(Run(steps))
  {
    changes := [];
    if steps != [] {
      var n := |steps| - 1;
      var first := RunIsReplay(steps[..n]);
      var second := StepChanges(Run(steps[..n]), steps[n]);
      MakeAllConcat(EMPTY, first, second);
      changes := first + second;
    }
  }

  lemma MakeKeepsInv(b: Books, c: Change, w: Selection)
    requires Inv(b, w)
    ensures Inv(Make(b, c), w)
  {
    match c
    case Booking(event, world) =>
      var plan := PlanFor(event, b.facts, world);
      if plan.Ok? {
        PlanIsSound(event, b.facts, world);
        BookKeepsLedger(b, plan.value, w);
      }
    case Payment(billId, paidAt) => PayKeepsInv(b, billId, paidAt, w);
  }

  lemma {:induction false} ReplayKeepsInv(changes: seq<Change>, w: Selection)
    ensures Inv(MakeAll(EMPTY, changes), w)
  {
    if changes != [] {
      ReplayKeepsInv(changes[..|changes| - 1], w);
      MakeKeepsInv(MakeAll(EMPTY, changes[..|changes| - 1]), changes[|changes| - 1], w);
    }
  }
}
