/** Financials' repositories and inbox processor over its tables, each method proved to take the step it models. */
module FinancialsService {
  import opened Chart
  import opened Journal
  import opened Postings
  import opened PostingProofs
  import B = Books
  import opened BooksProofs

  class Database {
    var entries: seq<Entry>
    var bills: seq<Bill>
    var facts: seq<SaleFact>
    var inbox: seq<B.InboxRow>

    function Tables(): B.Books
      reads this
    {
      B.Books(entries, bills, facts, inbox)
    }

    constructor ()
      ensures Tables() == B.EMPTY
    {
      entries, bills, facts, inbox := [], [], [], [];
    }

    // ---- Inbox repository ----

    method FindById(eventId: string) returns (i: nat)
      ensures i == B.RowOf(inbox, eventId)
    {
      i := 0;
      while i < |inbox|
        invariant i <= |inbox|
        invariant B.RowOf(inbox, eventId) == i + B.RowOf(inbox[i..], eventId)
      {
        if inbox[i].eventId == eventId {
          return;
        }
        assert inbox[i..][1..] == inbox[i + 1..];
        i := i + 1;
      }
    }

    /** A redelivery of a stored event id is a no-op. */
    method Store(eventId: string, event: DomainEvent, now: int)
      modifies this
      ensures Tables() == B.Store(old(Tables()), eventId, event, now)
    {
      var i := FindById(eventId);
      if i == |inbox| {
        inbox := inbox + [B.InboxRow(eventId, event, B.Pending, 0, now)];
      }
    }

    /** Scans in order of receipt until enough due events are found. */
    method FindDue(now: int, take: nat) returns (due: seq<string>)
      ensures var all := B.Due(inbox, now);
              due == if |all| <= take then all else all[..take]
    {
      due := [];
      var i := 0;
      while i < |inbox| && |due| < take
        invariant i <= |inbox| && |due| <= take
        invariant B.Due(inbox, now) == due + B.Due(inbox[i..], now)
      {
        assert inbox[i..][1..] == inbox[i + 1..];
        if inbox[i].status == B.Pending && inbox[i].nextAttempt <= now {
          due := due + [inbox[i].eventId];
        }
        i := i + 1;
      }
    }

    method ScheduleRetry(i: nat, attempts: nat, nextAttempt: int)
      requires i < |inbox|
      modifies this
      ensures Tables() == old(Tables()).(inbox := old(inbox)[i := old(inbox)[i].(attempts := attempts,
                                                                                 nextAttempt := nextAttempt)])
    {
      inbox := inbox[i := inbox[i].(attempts := attempts, nextAttempt := nextAttempt)];
    }

    method MarkNeedsAttention(i: nat, attempts: nat)
      requires i < |inbox|
      modifies this
      ensures Tables() == old(Tables()).(inbox := old(inbox)[i := old(inbox)[i].(status := B.NeedsAttention,
                                                                                 attempts := attempts)])
    {
      inbox := inbox[i := inbox[i].(status := B.NeedsAttention, attempts := attempts)];
    }

    method Requeue(i: nat, now: int)
      requires i < |inbox|
      modifies this
      ensures Tables() == B.Requeue(old(Tables()), i, now)
    {
      inbox := inbox[i := inbox[i].(status := B.Pending, nextAttempt := now)];
    }

    // ---- Ledger and payables repositories ----

    /** One transaction: entry, bill and facts unless already booked, and the row marked posted. */
    method Commit(plan: Plan, i: nat) returns (duplicate: bool)
      requires i < |inbox|
      modifies this
      ensures Tables() == B.Book(old(Tables()), plan).(inbox := old(inbox)[i := old(inbox)[i].(status := B.Posted)])
      ensures duplicate <==> plan.entry.Some? && B.HasKey(old(entries), KeyOf(plan.entry.value))
    {
      duplicate := false;
      if plan.entry.Some? {
        if B.HasKey(entries, KeyOf(plan.entry.value)) {
          duplicate := true;
        } else {
          entries := entries + [plan.entry.value];
        }
      }
      if !duplicate {
        if plan.bill.Some? {
          bills := bills + [plan.bill.value];
        }
        if |plan.facts| > 0 {
          facts := facts + plan.facts;
        }
      }
      inbox := inbox[i := inbox[i].(status := B.Posted)];
    }

    /** One transaction: the guarded status flip and the payment entry. */
    method PayBill(id: nat, entry: Entry) returns (paid: bool)
      modifies this
      ensures paid <==> id < |old(bills)| && !old(bills)[id].paid && !B.HasKey(old(entries), KeyOf(entry))
      ensures Tables() == if !paid then old(Tables())
                          else old(Tables()).(bills := old(bills)[id := old(bills)[id].(paid := true)],
                                              entries := old(entries) + [entry])
    {
      if id >= |bills| || bills[id].paid {
        return false;
      }
      if B.HasKey(entries, KeyOf(entry)) {
        return false;
      }
      bills := bills[id := bills[id].(paid := true)];
      entries := entries + [entry];
      return true;
    }

    /** Books the payment of an open bill and refuses any other. */
    method Pay(id: nat, paidAt: int) returns (r: B.PayResult)
      modifies this
      ensures Tables() == B.Pay(old(Tables()), id, paidAt)
      ensures r == B.Paid ==> id < |bills| && bills[id].paid && !old(bills)[id].paid
      ensures LedgerInv(old(Tables())) ==>
                (r == B.NoSuchBill <==> id >= |old(bills)|) &&
                (r == B.AlreadyPaid <==> id < |old(bills)| && old(bills)[id].paid) && r != B.Refused
    {
      if id >= |bills| {
        return B.NoSuchBill;
      }
      if bills[id].paid {
        return B.AlreadyPaid;
      }
      var amount := bills[id].amount;
      var entry := CheckBalanced(Entry(paidAt, BillPaymentSource, BillRef(id),
                                       [Line(ACCOUNTS_PAYABLE, amount, 0), Line(BANK, 0, amount)]));
      if LedgerInv(Tables()) {
        PaymentEntry(Tables(), id, paidAt);
      }
      if entry.Err? {
        return B.Refused;
      }
      var paid := PayBill(id, entry.value);
      return if paid then B.Paid else B.Refused;
    }
  }

  lemma OneMoreProcessed(b: B.Books, eventIds: seq<string>, attempts: nat -> B.Attempt, k: nat)
    requires k < |eventIds|
    ensures B.ProcessAll(b, eventIds[..k + 1], attempts)
            == B.Process(B.ProcessAll(b, eventIds[..k], attempts), eventIds[k], attempts(k))
  {
    assert eventIds[..k + 1][..k] == eventIds[..k];
  }

  class InboxProcessor {
    const db: Database
    var sweeping: bool

    constructor (db: Database)
      ensures this.db == db && !sweeping
    {
      this.db, sweeping := db, false;
    }

    method Process(eventId: string, a: B.Attempt) returns (r: B.ProcessResult)
      modifies db
      ensures db.Tables() == B.Process(old(db.Tables()), eventId, a)
      ensures r == B.Result(old(db.Tables()), eventId, a)
    {
      var i := db.FindById(eventId);
      if i == |db.inbox| || db.inbox[i].status != B.Pending {
        return B.Skipped;
      }
      var attempts := db.inbox[i].attempts + 1;
      var plan := MakePlan(db.inbox[i].event, db.facts, a.world);
      if plan.Ok? && a.databaseUp {
        var _ := db.Commit(plan.value, i);
        return B.PostedNow;
      }
      if plan.Err? && (plan.error == Permanent || plan.error == Unbalanced) {
        db.MarkNeedsAttention(i, attempts);
        return B.FlaggedForAttention;
      }
      db.ScheduleRetry(i, attempts, a.now + B.BackoffMs(attempts));
      return B.RetryLater;
    }

    /** The consumer's handler: store, then try to post at once. */
    method Handle(eventId: string, event: DomainEvent, a: B.Attempt)
      modifies db
      ensures db.Tables() == B.Deliver(old(db.Tables()), eventId, event, a)
    {
      db.Store(eventId, event, a.now);
      var _ := Process(eventId, a);
    }

    /** A person's retry: requeue anything not posted, then process it. */
    method Retry(eventId: string, a: B.Attempt) returns (r: B.ProcessResult)
      modifies db
      ensures db.Tables() == B.Retry(old(db.Tables()), eventId, a)
      ensures r == B.RetryResult(old(db.Tables()), eventId, a)
    {
      var i := db.FindById(eventId);
      if i == |db.inbox| {
        return B.NoSuchEvent;
      }
      if db.inbox[i].status == B.Posted {
        return B.AlreadyPosted;
      }
      db.Requeue(i, a.now);
      r := Process(eventId, a);
    }

    /** A sweep that finds another one running leaves everything to it. */
    method Sweep(now: int, attempts: nat -> B.Attempt)
      modifies this, db
      ensures db.Tables() == if old(sweeping) then old(db.Tables()) else B.Sweep(old(db.Tables()), now, attempts)
      ensures sweeping == old(sweeping)
    {
      if sweeping {
        return;
      }
      sweeping := true;
      var due := db.FindDue(now, B.BATCH);
      for k := 0 to |due|
        invariant sweeping
        invariant db.Tables() == B.ProcessAll(old(db.Tables()), due[..k], attempts)
      {
        OneMoreProcessed(old(db.Tables()), due, attempts, k);
        var _ := Process(due[k], attempts(k));
      }
      assert due[..|due|] == due;
      sweeping := false;
    }
  }
}
