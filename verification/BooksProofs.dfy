/** What holds of the books after every run of steps. */
module BooksProofs {
  import opened Wrappers
  import opened Sums
  import opened Chart
  import opened Journal
  import opened Postings
  import opened PostingProofs
  import opened Books

  // ---- The invariant ----

  ghost predicate KeysUnique(entries: seq<Entry>) {
    forall i, j :: 0 <= i < j < |entries| ==> KeyOf(entries[i]) != KeyOf(entries[j])
  }

  ghost predicate EntriesSound(entries: seq<Entry>) {
    forall e :: e in entries ==> WellFormed(e) && forall l :: l in e.lines ==> Charted(l.account)
  }

  ghost predicate HasBill(bills: seq<Bill>, key: Key) {
    exists i :: 0 <= i < |bills| && BillKey(bills[i]) == key
  }

  ghost predicate HasFact(facts: seq<SaleFact>, key: Key) {
    exists i :: 0 <= i < |facts| && FactKey(facts[i]) == key
  }

  function PaymentKey(id: nat): Key {
    Key(BillPaymentSource, BillRef(id))
  }

  /** One bill for every goods-received entry. */
  ghost predicate ReceiptsMatch(b: Books) {
    && (forall i, j :: 0 <= i < j < |b.bills| ==> b.bills[i].grnNumber != b.bills[j].grnNumber)
    && (forall i :: 0 <= i < |b.bills| ==> b.bills[i].amount > 0 && HasKey(b.entries, BillKey(b.bills[i])))
    && (forall e :: e in b.entries && e.source == GoodsReceivedSource ==> HasBill(b.bills, KeyOf(e)))
  }

  /** One payment entry for every paid bill. */
  ghost predicate PaymentsMatch(b: Books) {
    && (forall i: nat :: i < |b.bills| ==> (b.bills[i].paid <==> HasKey(b.entries, PaymentKey(i))))
    && (forall e :: e in b.entries && e.source == BillPaymentSource ==>
                      e.sourceRef.BillRef? && e.sourceRef.id < |b.bills|)
  }

  ghost predicate BillsMatch(b: Books) {
    ReceiptsMatch(b) && PaymentsMatch(b)
  }

  /** Sale facts exist for exactly the booked sales and refunds. */
  ghost predicate FactsMatch(b: Books) {
    && (forall i :: 0 <= i < |b.facts| ==>
                      && HasKey(b.entries, FactKey(b.facts[i]))
                      && b.facts[i].businessDate == b.facts[i].occurredAt / DAY_MS)
    && (forall e :: e in b.entries && (e.source == ItemSoldSource || e.source == ItemReturnedSource) ==>
                      HasFact(b.facts, KeyOf(e)))
  }

  function NetOn(account: int): Entry -> int {
    (e: Entry) => SumBy(e.lines, NetDebit(account))
  }

  function OpenAmount(): Bill -> int {
    (bill: Bill) => if bill.paid then 0 else bill.amount
  }

  ghost predicate PayableIsOpenBills(b: Books) {
    -SumBy(b.entries, NetOn(ACCOUNTS_PAYABLE)) == SumBy(b.bills, OpenAmount())
  }

  /** Any choice of documents and dates: one period, one document, everything. */
  type Selection = (Key, int) -> bool

  function Selected(w: Selection, account: int): Entry -> int {
    (e: Entry) => if w(KeyOf(e), e.occurredAt) then SumBy(e.lines, NetDebit(account)) else 0
  }

  function SelectedFact(w: Selection, f: SaleFact -> int): SaleFact -> int {
    (fact: SaleFact) => if w(FactKey(fact), fact.occurredAt) then f(fact) else 0
  }

  /** Over the selection, the journal and the facts report the same revenue, cost and VAT. */
  ghost predicate FactsAgree(b: Books, w: Selection) {
    && SumBy(b.entries, Selected(w, SALES)) + SumBy(b.entries, Selected(w, SALES_RETURNS))
       == -SumBy(b.facts, SelectedFact(w, FactRevenue()))
    && SumBy(b.entries, Selected(w, COGS)) == SumBy(b.facts, SelectedFact(w, FactCogs()))
    && SumBy(b.entries, Selected(w, VAT_PAYABLE)) == -SumBy(b.facts, SelectedFact(w, FactTax()))
  }

  /** The document an event is booked under. */
  function DocumentOf(event: DomainEvent): Key {
    match event
    case Received(receipt) => Key(GoodsReceivedSource, Document(receipt.grnNumber))
    case Sold(sale) => Key(ItemSoldSource, Document(sale.transactionId))
    case Returned(refund) => Key(ItemReturnedSource, Document(refund.returnId))
    case Closed(day) => Key(DayClosedSource, Document(day.storeId + "/" + day.businessDate))
    case Adjusted(stock) => Key(StockAdjustmentSource, Document(KindName(stock.kind) + "/" + stock.reference))
    case Unrouted => Key(DayClosedSource, Document(""))
  }

  /** One row per event id. */
  ghost predicate UniqueIds(inbox: seq<InboxRow>) {
    forall i, j :: 0 <= i < j < |inbox| ==> inbox[i].eventId != inbox[j].eventId
  }

  ghost predicate LedgerInv(b: Books) {
    KeysUnique(b.entries) && EntriesSound(b.entries) && BillsMatch(b) && FactsMatch(b) && PayableIsOpenBills(b)
  }

  /** The figures are checked for one selection at a time; the run theorem quantifies over it. */
  ghost predicate Inv(b: Books, w: Selection) {
    LedgerInv(b) && FactsAgree(b, w) && UniqueIds(b.inbox)
  }

  // ---- Booking a plan ----

  lemma HasKeyAppend(entries: seq<Entry>, e: Entry, key: Key)
    ensures HasKey(entries + [e], key) <==> HasKey(entries, key) || KeyOf(e) == key
  {
    var longer := entries + [e];
    if HasKey(entries, key) {
      var i :| 0 <= i < |entries| && KeyOf(entries[i]) == key;
      assert longer[i] == entries[i];
    }
    assert longer[|entries|] == e;
  }

  lemma {:induction false} NewFactsSum(facts: seq<SaleFact>, w: Selection, f: SaleFact -> int, key: Key, at: int)
    requires forall fact :: fact in facts ==> FactKey(fact) == key && fact.occurredAt == at
    ensures SumBy(facts, SelectedFact(w, f)) == if w(key, at) then SumBy(facts, f) else 0
  {
    if w(key, at) {
      SumSame(facts, SelectedFact(w, f), f);
    } else {
      SumZero(facts, SelectedFact(w, f));
    }
  }

  lemma EntryFigure(entries: seq<Entry>, e: Entry, w: Selection, account: int)
    ensures SumBy(entries + [e], Selected(w, account))
         == SumBy(entries, Selected(w, account))
            + if w(KeyOf(e), e.occurredAt) then SumBy(e.lines, NetDebit(account)) else 0
  {
    SumAppend(entries, e, Selected(w, account));
  }

  lemma FactFigure(facts: seq<SaleFact>, more: seq<SaleFact>, e: Entry, w: Selection, f: SaleFact -> int)
    requires forall fact :: fact in more ==> FactKey(fact) == KeyOf(e) && fact.occurredAt == e.occurredAt
    ensures SumBy(facts + more, SelectedFact(w, f))
         == SumBy(facts, SelectedFact(w, f)) + if w(KeyOf(e), e.occurredAt) then SumBy(more, f) else 0
  {
    SumConcat(facts, more, SelectedFact(w, f));
    NewFactsSum(more, w, f, KeyOf(e), e.occurredAt);
  }

  lemma RevenueStaysAgreed(entries: seq<Entry>, e: Entry, facts: seq<SaleFact>, more: seq<SaleFact>, w: Selection)
    requires SumBy(entries, Selected(w, SALES)) + SumBy(entries, Selected(w, SALES_RETURNS))
             == -SumBy(facts, SelectedFact(w, FactRevenue()))
    requires SumBy(e.lines, NetDebit(SALES)) + SumBy(e.lines, NetDebit(SALES_RETURNS)) == -SumBy(more, FactRevenue())
    requires forall f :: f in more ==> FactKey(f) == KeyOf(e) && f.occurredAt == e.occurredAt
    ensures SumBy(entries + [e], Selected(w, SALES)) + SumBy(entries + [e], Selected(w, SALES_RETURNS))
            == -SumBy(facts + more, SelectedFact(w, FactRevenue()))
  {
    EntryFigure(entries, e, w, SALES);
    EntryFigure(entries, e, w, SALES_RETURNS);
    FactFigure(facts, more, e, w, FactRevenue());
  }

  lemma CostStaysAgreed(entries: seq<Entry>, e: Entry, facts: seq<SaleFact>, more: seq<SaleFact>, w: Selection)
    requires SumBy(entries, Selected(w, COGS)) == SumBy(facts, SelectedFact(w, FactCogs()))
    requires SumBy(e.lines, NetDebit(COGS)) == SumBy(more, FactCogs())
    requires forall f :: f in more ==> FactKey(f) == KeyOf(e) && f.occurredAt == e.occurredAt
    ensures SumBy(entries + [e], Selected(w, COGS)) == SumBy(facts + more, SelectedFact(w, FactCogs()))
  {
    EntryFigure(entries, e, w, COGS);
    FactFigure(facts, more, e, w, FactCogs());
  }

  lemma VatStaysAgreed(entries: seq<Entry>, e: Entry, facts: seq<SaleFact>, more: seq<SaleFact>, w: Selection)
    requires SumBy(entries, Selected(w, VAT_PAYABLE)) == -SumBy(facts, SelectedFact(w, FactTax()))
    requires SumBy(e.lines, NetDebit(VAT_PAYABLE)) == -SumBy(more, FactTax())
    requires forall f :: f in more ==> FactKey(f) == KeyOf(e) && f.occurredAt == e.occurredAt
    ensures SumBy(entries + [e], Selected(w, VAT_PAYABLE)) == -SumBy(facts + more, SelectedFact(w, FactTax()))
  {
    EntryFigure(entries, e, w, VAT_PAYABLE);
    FactFigure(facts, more, e, w, FactTax());
  }

  lemma BookKeepsAgreement(b: Books, p: Plan, w: Selection)
    requires FactsAgree(b, w) && SoundPlan(p)
    ensures FactsAgree(Book(b, p), w)
  {
    if p.entry.Some? && !HasKey(b.entries, KeyOf(p.entry.value)) {
      RevenueStaysAgreed(b.entries, p.entry.value, b.facts, p.facts, w);
      CostStaysAgreed(b.entries, p.entry.value, b.facts, p.facts, w);
      VatStaysAgreed(b.entries, p.entry.value, b.facts, p.facts, w);
    } else {
      assert Book(b, p) == b;
    }
  }

  lemma BookKeepsPayable(b: Books, p: Plan)
    requires PayableIsOpenBills(b) && SoundPlan(p)
    ensures PayableIsOpenBills(Book(b, p))
  {
    if p.entry.Some? && !HasKey(b.entries, KeyOf(p.entry.value)) {
      SumAppend(b.entries, p.entry.value, NetOn(ACCOUNTS_PAYABLE));
      if p.bill.Some? {
        SumAppend(b.bills, p.bill.value, OpenAmount());
      } else {
        assert Book(b, p).bills == b.bills;
      }
    } else {
      assert Book(b, p) == b;
    }
  }

  lemma BookKeepsEntries(b: Books, p: Plan)
    requires KeysUnique(b.entries) && EntriesSound(b.entries) && SoundPlan(p)
    ensures KeysUnique(Book(b, p).entries) && EntriesSound(Book(b, p).entries)
  {
    if p.entry.Some? && !HasKey(b.entries, KeyOf(p.entry.value)) {
      var entries := Book(b, p).entries;
      forall i, j | 0 <= i < j < |entries| ensures KeyOf(entries[i]) != KeyOf(entries[j]) {
        if j == |b.entries| {
          assert entries[i] == b.entries[i];
        }
      }
    }
  }

  lemma StillHasBill(bills: seq<Bill>, more: seq<Bill>, key: Key)
    requires HasBill(bills, key)
    ensures HasBill(bills + more, key)
  {
    var i :| 0 <= i < |bills| && BillKey(bills[i]) == key;
    assert (bills + more)[i] == bills[i];
  }

  lemma NewBill(bills: seq<Bill>, bill: Bill)
    ensures HasBill(bills + [bill], BillKey(bill))
  {
    assert (bills + [bill])[|bills|] == bill;
  }

  lemma BookKeepsReceipts(b: Books, p: Plan)
    requires ReceiptsMatch(b) && SoundPlan(p)
    ensures ReceiptsMatch(Book(b, p))
  {
    if p.entry.Some? && !HasKey(b.entries, KeyOf(p.entry.value)) {
      var e, b' := p.entry.value, Book(b, p);
      var more := if p.bill.Some? then [p.bill.value] else [];
      forall key ensures HasKey(b'.entries, key) <==> HasKey(b.entries, key) || KeyOf(e) == key {
        HasKeyAppend(b.entries, e, key);
      }
      assert forall i :: 0 <= i < |b.bills| ==> b'.bills[i] == b.bills[i] && BillKey(b.bills[i]) != KeyOf(e);
      forall x | x in b'.entries && x.source == GoodsReceivedSource ensures HasBill(b.bills + more, KeyOf(x)) {
        if x in b.entries {
          StillHasBill(b.bills, more, KeyOf(x));
        } else {
          NewBill(b.bills, p.bill.value);
        }
      }
    } else {
      assert Book(b, p) == b;
    }
  }

  lemma BookKeepsPayments(b: Books, p: Plan)
    requires PaymentsMatch(b) && SoundPlan(p)
    ensures PaymentsMatch(Book(b, p))
  {
    if p.entry.Some? && !HasKey(b.entries, KeyOf(p.entry.value)) {
      var e, b' := p.entry.value, Book(b, p);
      forall key ensures HasKey(b'.entries, key) <==> HasKey(b.entries, key) || KeyOf(e) == key {
        HasKeyAppend(b.entries, e, key);
      }
      var next := |b.bills|;
      if HasKey(b.entries, PaymentKey(next)) {
        var i :| 0 <= i < |b.entries| && KeyOf(b.entries[i]) == PaymentKey(next);
        assert b.entries[i] in b.entries;
      }
    } else {
      assert Book(b, p) == b;
    }
  }

  lemma BookKeepsFacts(b: Books, p: Plan)
    requires FactsMatch(b) && SoundPlan(p)
    ensures FactsMatch(Book(b, p))
  {
    if p.entry.Some? && !HasKey(b.entries, KeyOf(p.entry.value)) {
      var e, b' := p.entry.value, Book(b, p);
      forall key ensures HasKey(b'.entries, key) <==> HasKey(b.entries, key) || KeyOf(e) == key {
        HasKeyAppend(b.entries, e, key);
      }
      forall i | 0 <= i < |b'.facts|
        ensures HasKey(b'.entries, FactKey(b'.facts[i])) && b'.facts[i].businessDate == b'.facts[i].occurredAt / DAY_MS
      {
        if i >= |b.facts| {
          assert b'.facts[i] in p.facts;
        }
      }
      forall x | x in b'.entries && (x.source == ItemSoldSource || x.source == ItemReturnedSource)
        ensures HasFact(b'.facts, KeyOf(x))
      {
        if x in b.entries {
          var i :| 0 <= i < |b.facts| && FactKey(b.facts[i]) == KeyOf(x);
          assert b'.facts[i] == b.facts[i];
        } else {
          assert b'.facts[|b.facts|] == p.facts[0] && p.facts[0] in p.facts;
        }
      }
    } else {
      assert Book(b, p) == b;
    }
  }

  lemma BookKeepsLedger(b: Books, p: Plan, w: Selection)
    requires LedgerInv(b) && FactsAgree(b, w) && SoundPlan(p)
    ensures LedgerInv(Book(b, p)) && FactsAgree(Book(b, p), w)
  {
    BookKeepsPayable(b, p);
    BookKeepsAgreement(b, p, w);
    BookKeepsEntries(b, p);
    BookKeepsReceipts(b, p);
    BookKeepsPayments(b, p);
    BookKeepsFacts(b, p);
  }

  // ---- Attempts, sweeps and retries ----

  lemma PlanKey(event: DomainEvent, facts: seq<SaleFact>, world: World)
    requires PlanFor(event, facts, world).Ok? && PlanFor(event, facts, world).value.entry.Some?
    ensures KeyOf(PlanFor(event, facts, world).value.entry.value) == DocumentOf(event)
  {
  }

  lemma BookHasDocument(b: Books, p: Plan)
    ensures p.entry.Some? ==> HasKey(Book(b, p).entries, KeyOf(p.entry.value))
    ensures forall key :: HasKey(b.entries, key) ==> HasKey(Book(b, p).entries, key)
  {
    if p.entry.Some? {
      forall key {
        HasKeyAppend(b.entries, p.entry.value, key);
      }
    } else {
      assert Book(b, p).entries == b.entries;
    }
  }

  lemma ProcessKeepsLedger(b: Books, eventId: string, a: Attempt, w: Selection)
    requires LedgerInv(b) && FactsAgree(b, w)
    ensures LedgerInv(Process(b, eventId, a)) && FactsAgree(Process(b, eventId, a), w)
  {
    var i := RowOf(b.inbox, eventId);
    if i < |b.inbox| && b.inbox[i].status == Pending {
      var plan := PlanFor(b.inbox[i].event, b.facts, a.world);
      if plan.Ok? && a.databaseUp {
        PlanIsSound(b.inbox[i].event, b.facts, a.world);
        BookKeepsLedger(b, plan.value, w);
        SameLedger(Book(b, plan.value), Process(b, eventId, a), w);
      } else {
        SameLedger(b, Process(b, eventId, a), w);
      }
    }
  }

  lemma ProcessKeepsInv(b: Books, eventId: string, a: Attempt, w: Selection)
    requires Inv(b, w)
    ensures Inv(Process(b, eventId, a), w)
  {
    ProcessKeepsLedger(b, eventId, a, w);
  }

  /** The ledger's invariants do not read the inbox. */
  lemma SameLedger(b: Books, b': Books, w: Selection)
    requires b' == b.(inbox := b'.inbox)
    requires LedgerInv(b) && FactsAgree(b, w)
    ensures LedgerInv(b') && FactsAgree(b', w)
  {
  }

  lemma StoreKeepsInv(b: Books, eventId: string, event: DomainEvent, now: int, w: Selection)
    requires Inv(b, w)
    ensures Inv(Store(b, eventId, event, now), w)
  {
    SameLedger(b, Store(b, eventId, event, now), w);
  }

  lemma RequeueKeepsInv(b: Books, i: nat, now: int, w: Selection)
    requires i < |b.inbox| && Inv(b, w)
    ensures Inv(Requeue(b, i, now), w)
  {
    SameLedger(b, Requeue(b, i, now), w);
  }

  lemma {:induction false} ProcessAllKeepsInv(b: Books, eventIds: seq<string>, attempts: nat -> Attempt, w: Selection)
    requires Inv(b, w)
    ensures Inv(ProcessAll(b, eventIds, attempts), w)
  {
    if eventIds != [] {
      var n := |eventIds| - 1;
      ProcessAllKeepsInv(b, eventIds[..n], attempts, w);
      ProcessKeepsInv(ProcessAll(b, eventIds[..n], attempts), eventIds[n], attempts(n), w);
    }
  }

  // ---- Payments ----

  lemma NonZeroPair(a: Line, b: Line)
    requires !IsZero(a) && !IsZero(b)
    ensures NonZero([a, b]) == [a, b]
  {
    assert [a, b][..1] == [a] && [a][..0] == [];
    assert NonZero([a]) == [a];
  }

  lemma PaymentEntry(b: Books, id: nat, paidAt: int)
    requires id < |b.bills| && b.bills[id].amount > 0
    ensures var draft := PaymentDraft(b, id, paidAt);
            && Balanced(draft) == Ok(draft)
            && (forall l :: l in draft.lines ==> Charted(l.account))
            && forall account ::
                 SumBy(draft.lines, NetDebit(account)) ==
                 if account == ACCOUNTS_PAYABLE then b.bills[id].amount
                 else if account == BANK then -b.bills[id].amount else 0
  {
    var draft := PaymentDraft(b, id, paidAt);
    BalancedDraft(draft);
    assert draft.lines[0] in draft.lines;
    SumTwo(draft.lines[0], draft.lines[1], Debit());
    SumTwo(draft.lines[0], draft.lines[1], Credit());
    forall account {
      SumTwo(draft.lines[0], draft.lines[1], NetDebit(account));
    }
    NonZeroPair(draft.lines[0], draft.lines[1]);
  }

  /** What a payment leaves: one more entry, one bill flipped. */
  lemma PaymentStep(b: Books, id: nat, paidAt: int)
    requires LedgerInv(b) && id < |b.bills| && !b.bills[id].paid
    ensures var entry := PaymentDraft(b, id, paidAt);
            && Pay(b, id, paidAt) == b.(entries := b.entries + [entry],
                                        bills := b.bills[id := b.bills[id].(paid := true)])
            && EntriesSound([entry]) && KeyOf(entry) == PaymentKey(id) && !HasKey(b.entries, PaymentKey(id))
  {
    PaymentEntry(b, id, paidAt);
  }

  lemma PayKeepsPayable(b: Books, id: nat, paidAt: int)
    requires LedgerInv(b)
    ensures PayableIsOpenBills(Pay(b, id, paidAt))
  {
    if id < |b.bills| && !b.bills[id].paid {
      PaymentStep(b, id, paidAt);
      PaymentEntry(b, id, paidAt);
      SumAppend(b.entries, PaymentDraft(b, id, paidAt), NetOn(ACCOUNTS_PAYABLE));
      SumUpdate(b.bills, id, b.bills[id].(paid := true), OpenAmount());
    }
  }

  /** A payment moves no revenue, cost or VAT. */
  lemma PaymentKeepsAgreement(b: Books, b': Books, entry: Entry, w: Selection)
    requires FactsAgree(b, w) && b'.entries == b.entries + [entry] && b'.facts == b.facts
    requires SumBy(entry.lines, NetDebit(SALES)) == SumBy(entry.lines, NetDebit(SALES_RETURNS)) == 0
    requires SumBy(entry.lines, NetDebit(COGS)) == SumBy(entry.lines, NetDebit(VAT_PAYABLE)) == 0
    ensures FactsAgree(b', w)
  {
    EntryFigure(b.entries, entry, w, SALES);
    EntryFigure(b.entries, entry, w, SALES_RETURNS);
    EntryFigure(b.entries, entry, w, COGS);
    EntryFigure(b.entries, entry, w, VAT_PAYABLE);
  }

  lemma PayKeepsAgreement(b: Books, id: nat, paidAt: int, w: Selection)
    requires LedgerInv(b) && FactsAgree(b, w)
    ensures FactsAgree(Pay(b, id, paidAt), w)
  {
    if id < |b.bills| && !b.bills[id].paid {
      PaymentStep(b, id, paidAt);
      PaymentEntry(b, id, paidAt);
      PaymentKeepsAgreement(b, Pay(b, id, paidAt), PaymentDraft(b, id, paidAt), w);
    }
  }

  lemma PayKeepsEntries(b: Books, id: nat, paidAt: int)
    requires LedgerInv(b)
    ensures KeysUnique(Pay(b, id, paidAt).entries) && EntriesSound(Pay(b, id, paidAt).entries)
    ensures forall key :: HasKey(b.entries, key) ==> HasKey(Pay(b, id, paidAt).entries, key)
  {
    if id < |b.bills| && !b.bills[id].paid {
      var entry := PaymentDraft(b, id, paidAt);
      PaymentStep(b, id, paidAt);
      assert entry in [entry];
      forall key {
        HasKeyAppend(b.entries, entry, key);
      }
    }
  }

  lemma FlipKeepsReceipts(b: Books, b': Books, id: nat, entry: Entry)
    requires ReceiptsMatch(b) && id < |b.bills| && entry.source == BillPaymentSource
    requires b'.entries == b.entries + [entry] && b'.bills == b.bills[id := b.bills[id].(paid := true)]
    ensures ReceiptsMatch(b')
  {
    assert forall i :: 0 <= i < |b.bills| ==> BillKey(b'.bills[i]) == BillKey(b.bills[i]);
    forall i | 0 <= i < |b'.bills| ensures b'.bills[i].amount > 0 && HasKey(b'.entries, BillKey(b'.bills[i])) {
      HasKeyAppend(b.entries, entry, BillKey(b.bills[i]));
    }
    forall x | x in b'.entries && x.source == GoodsReceivedSource ensures HasBill(b'.bills, KeyOf(x)) {
      var i :| 0 <= i < |b.bills| && BillKey(b.bills[i]) == KeyOf(x);
      assert BillKey(b'.bills[i]) == KeyOf(x);
    }
  }

  lemma PayKeepsReceipts(b: Books, id: nat, paidAt: int)
    requires LedgerInv(b)
    ensures ReceiptsMatch(Pay(b, id, paidAt))
  {
    if id < |b.bills| && !b.bills[id].paid {
      PaymentStep(b, id, paidAt);
      FlipKeepsReceipts(b, Pay(b, id, paidAt), id, PaymentDraft(b, id, paidAt));
    }
  }

  lemma PayKeepsPayments(b: Books, id: nat, paidAt: int)
    requires LedgerInv(b)
    ensures PaymentsMatch(Pay(b, id, paidAt))
  {
    if id < |b.bills| && !b.bills[id].paid {
      PaymentStep(b, id, paidAt);
      forall key {
        HasKeyAppend(b.entries, PaymentDraft(b, id, paidAt), key);
      }
    }
  }

  lemma PayKeepsFacts(b: Books, id: nat, paidAt: int)
    requires LedgerInv(b)
    ensures FactsMatch(Pay(b, id, paidAt))
  {
    PayKeepsEntries(b, id, paidAt);
    if id < |b.bills| && !b.bills[id].paid {
      PaymentStep(b, id, paidAt);
    }
  }

  lemma PayKeepsInv(b: Books, id: nat, paidAt: int, w: Selection)
    requires Inv(b, w)
    ensures Inv(Pay(b, id, paidAt), w)
  {
    PayKeepsPayable(b, id, paidAt);
    PayKeepsAgreement(b, id, paidAt, w);
    PayKeepsEntries(b, id, paidAt);
    PayKeepsPayments(b, id, paidAt);
    PayKeepsReceipts(b, id, paidAt);
    PayKeepsFacts(b, id, paidAt);
  }

  // ---- Every run ----

  lemma ArriveKeepsInv(b: Books, eventId: string, event: DomainEvent, attempt: Attempt, w: Selection)
    requires Inv(b, w)
    ensures Inv(Apply(b, Arrive(eventId, event, attempt)), w)
  {
    StoreKeepsInv(b, eventId, event, attempt.now, w);
    ProcessKeepsInv(Store(b, eventId, event, attempt.now), eventId, attempt, w);
  }

  lemma RetryKeepsInv(b: Books, eventId: string, attempt: Attempt, w: Selection)
    requires Inv(b, w)
    ensures Inv(Apply(b, RetryEvent(eventId, attempt)), w)
  {
    var i := RowOf(b.inbox, eventId);
    if i < |b.inbox| && b.inbox[i].status != Posted {
      RequeueKeepsInv(b, i, attempt.now, w);
      ProcessKeepsInv(Requeue(b, i, attempt.now), eventId, attempt, w);
    }
  }

  lemma StepKeepsInv(b: Books, s: Step, w: Selection)
    requires Inv(b, w)
    ensures Inv(Apply(b, s), w)
  {
    match s
    case Arrive(eventId, event, attempt) => ArriveKeepsInv(b, eventId, event, attempt, w);
    case SweepDue(now, attempts) => ProcessAllKeepsInv(b, Batch(b.inbox, now), attempts, w);
    case RetryEvent(eventId, attempt) => RetryKeepsInv(b, eventId, attempt, w);
    case PayBill(billId, paidAt) => PayKeepsInv(b, billId, paidAt, w);
  }

  lemma {:induction false} RunKeepsInv(steps: seq<Step>, w: Selection)
    ensures Inv(Run(steps), w)
  {
    if steps != [] {
      RunKeepsInv(steps[..|steps| - 1], w);
      StepKeepsInv(Run(steps[..|steps| - 1]), steps[|steps| - 1], w);
    }
  }
}
