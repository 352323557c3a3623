/** Accounts-payable aging: open bills by supplier and by how overdue they are. */
module Payables {
  import opened Sums
  import opened Chart
  import opened Postings
  import opened Books
  import opened BooksProofs
  import opened BooksTheorems

  datatype Bucket = Current | Days30 | Days60 | Days90 | Over90

  datatype SupplierRow = SupplierRow(buckets: map<Bucket, int>, total: int)

  datatype AgingReport = AgingReport(suppliers: map<string, SupplierRow>, totals: map<Bucket, int>, outstanding: int)

  const BUCKETS: seq<Bucket> := [Current, Days30, Days60, Days90, Over90]
  const NO_AMOUNTS: map<Bucket, int> := map[Current := 0, Days30 := 0, Days60 := 0, Days90 := 0, Over90 := 0]

  /** Calendar days a bill is past due; zero or less is not yet due. */
  function DaysOverdue(dueDate: int, asOf: int): int {
    asOf / DAY_MS - dueDate / DAY_MS
  }

  function AgingBucket(days: int): Bucket {
    if days <= 0 then Current
    else if days <= 30 then Days30
    else if days <= 60 then Days60
    else if days <= 90 then Days90
    else Over90
  }

  /** Days overdue are the calendar days from the due date's to the report's. */
  lemma OverdueCountsDays(dueDate: int, asOf: int, dueDay: int, day: int)
    requires dueDay * DAY_MS <= dueDate < (dueDay + 1) * DAY_MS && day * DAY_MS <= asOf < (day + 1) * DAY_MS
    ensures DaysOverdue(dueDate, asOf) == day - dueDay
  {
  }

  function SupplierOf(): Bill -> string {
    (bill: Bill) => bill.supplierId
  }

  function BucketOf(asOf: int): Bill -> Bucket {
    (bill: Bill) => AgingBucket(DaysOverdue(bill.dueDate, asOf))
  }

  /** What a supplier is owed in a bucket. */
  function Owed(bills: seq<Bill>, supplier: string, bucket: Bucket, asOf: int): int {
    SumBy(bills, Only(SupplierOf(), supplier, Only(BucketOf(asOf), bucket, OpenAmount())))
  }

  ghost predicate Listed(r: AgingReport, bills: seq<Bill>) {
    forall s :: s in r.suppliers <==> exists bill :: bill in bills && !bill.paid && bill.supplierId == s
  }

  ghost predicate RowRight(row: SupplierRow, bills: seq<Bill>, supplier: string, asOf: int) {
    && row.total == SumBy(bills, Only(SupplierOf(), supplier, OpenAmount()))
    && forall k :: k in row.buckets && row.buckets[k] == Owed(bills, supplier, k, asOf)
  }

  ghost predicate TotalsRight(totals: map<Bucket, int>, bills: seq<Bill>, asOf: int) {
    forall k :: k in totals && totals[k] == SumBy(bills, Only(BucketOf(asOf), k, OpenAmount()))
  }

  /** Every figure of the report, for the bills it was made from. */
  ghost predicate Ages(r: AgingReport, bills: seq<Bill>, asOf: int) {
    && Listed(r, bills)
    && (forall s :: s in r.suppliers ==> RowRight(r.suppliers[s], bills, s, asOf))
    && TotalsRight(r.totals, bills, asOf)
  }

  function Credited(row: SupplierRow, bill: Bill, asOf: int): SupplierRow
    requires BucketOf(asOf)(bill) in row.buckets
  {
    var k := BucketOf(asOf)(bill);
    SupplierRow(row.buckets[k := row.buckets[k] + bill.amount], row.total + bill.amount)
  }

  /** A bill moves its own supplier's row if it is open, and no other row. */
  lemma RowStep(row: SupplierRow, bills: seq<Bill>, bill: Bill, s: string, asOf: int)
    requires RowRight(row, bills, s, asOf)
    ensures bill.paid || bill.supplierId != s ==> RowRight(row, bills + [bill], s, asOf)
    ensures !bill.paid && bill.supplierId == s ==> RowRight(Credited(row, bill, asOf), bills + [bill], s, asOf)
  {
    SumAppend(bills, bill, Only(SupplierOf(), s, OpenAmount()));
    forall k {
      SumAppend(bills, bill, Only(SupplierOf(), s, Only(BucketOf(asOf), k, OpenAmount())));
    }
  }

  lemma TotalsStep(totals: map<Bucket, int>, bills: seq<Bill>, bill: Bill, asOf: int)
    requires TotalsRight(totals, bills, asOf)
    ensures bill.paid ==> TotalsRight(totals, bills + [bill], asOf)
    ensures var k := BucketOf(asOf)(bill);
            !bill.paid ==> TotalsRight(totals[k := totals[k] + bill.amount], bills + [bill], asOf)
  {
    forall k {
      SumAppend(bills, bill, Only(BucketOf(asOf), k, OpenAmount()));
    }
  }

  lemma NoAmount(k: Bucket)
    ensures k in NO_AMOUNTS && NO_AMOUNTS[k] == 0
  {
    match k
    case Current | Days30 | Days60 | Days90 | Over90 =>
  }

  lemma NewRow(bills: seq<Bill>, s: string, asOf: int)
    requires forall b :: b in bills && b.supplierId == s ==> b.paid
    ensures RowRight(SupplierRow(NO_AMOUNTS, 0), bills, s, asOf)
  {
    SumZero(bills, Only(SupplierOf(), s, OpenAmount()));
    forall k: Bucket ensures k in NO_AMOUNTS && NO_AMOUNTS[k] == Owed(bills, s, k, asOf) {
      NoAmount(k);
      SumZero(bills, Only(SupplierOf(), s, Only(BucketOf(asOf), k, OpenAmount())));
    }
  }

  lemma ListedStep(r: AgingReport, bills: seq<Bill>, bill: Bill, r': AgingReport)
    requires Listed(r, bills)
    requires r'.suppliers.Keys == if bill.paid then r.suppliers.Keys else r.suppliers.Keys + {bill.supplierId}
    ensures Listed(r', bills + [bill])
  {
    var bs := bills + [bill];
    assert forall b :: b in bs <==> b in bills || b == bill;
    forall s ensures s in r'.suppliers <==> exists b :: b in bs && !b.paid && b.supplierId == s {
      if s in r.suppliers {
        var b :| b in bills && !b.paid && b.supplierId == s;
        assert b in bs;
      } else if s in r'.suppliers {
        assert bill in bs;
      }
    }
  }

  function RowFor(suppliers: map<string, SupplierRow>, s: string): SupplierRow {
    if s in suppliers then suppliers[s] else SupplierRow(NO_AMOUNTS, 0)
  }

  /** The report with one more bill counted. */
  function Counted(r: AgingReport, bill: Bill, asOf: int): AgingReport {
    var k, row := BucketOf(asOf)(bill), RowFor(r.suppliers, bill.supplierId);
    if bill.paid || k !in row.buckets || k !in r.totals then r
    else AgingReport(r.suppliers[bill.supplierId := Credited(row, bill, asOf)],
                     r.totals[k := r.totals[k] + bill.amount], 0)
  }

  function CountAll(bills: seq<Bill>, asOf: int): AgingReport {
    if bills == [] then AgingReport(map[], NO_AMOUNTS, 0)
    else Counted(CountAll(bills[..|bills| - 1], asOf), bills[|bills| - 1], asOf)
  }

  lemma RowForRight(r: AgingReport, bills: seq<Bill>, s: string, asOf: int)
    requires Ages(r, bills, asOf)
    ensures RowRight(RowFor(r.suppliers, s), bills, s, asOf)
  {
    if s !in r.suppliers {
      NewRow(bills, s, asOf);
    }
  }

  lemma CountBillRow(r: AgingReport, bills: seq<Bill>, bill: Bill, s: string, asOf: int)
    requires Ages(r, bills, asOf) && s in Counted(r, bill, asOf).suppliers
    ensures RowRight(Counted(r, bill, asOf).suppliers[s], bills + [bill], s, asOf)
  {
    RowForRight(r, bills, s, asOf);
    RowStep(RowFor(r.suppliers, s), bills, bill, s, asOf);
  }

  /** The bucket a bill falls into is in its supplier's row and in the totals. */
  lemma BucketIsThere(r: AgingReport, bills: seq<Bill>, bill: Bill, asOf: int)
    requires Ages(r, bills, asOf)
    ensures BucketOf(asOf)(bill) in RowFor(r.suppliers, bill.supplierId).buckets && BucketOf(asOf)(bill) in r.totals
  {
    RowForRight(r, bills, bill.supplierId, asOf);
  }

  lemma CountBillTotals(r: AgingReport, bills: seq<Bill>, bill: Bill, asOf: int)
    requires Ages(r, bills, asOf)
    ensures TotalsRight(Counted(r, bill, asOf).totals, bills + [bill], asOf)
    ensures Listed(Counted(r, bill, asOf), bills + [bill])
  {
    BucketIsThere(r, bills, bill, asOf);
    TotalsStep(r.totals, bills, bill, asOf);
    ListedStep(r, bills, bill, Counted(r, bill, asOf));
  }

  lemma CountBill(r: AgingReport, bills: seq<Bill>, bill: Bill, asOf: int)
    requires Ages(r, bills, asOf)
    ensures Ages(Counted(r, bill, asOf), bills + [bill], asOf)
  {
    CountBillTotals(r, bills, bill, asOf);
    forall s | s in Counted(r, bill, asOf).suppliers
      ensures RowRight(Counted(r, bill, asOf).suppliers[s], bills + [bill], s, asOf)
    {
      CountBillRow(r, bills, bill, s, asOf);
    }
  }

  lemma {:induction false} CountAllAges(bills: seq<Bill>, asOf: int)
    ensures Ages(CountAll(bills, asOf), bills, asOf)
  {
    if bills == [] {
      forall k: Bucket {
        NoAmount(k);
      }
    } else {
      var init, last := bills[..|bills| - 1], bills[|bills| - 1];
      assert bills == init + [last];
      CountAllAges(init, asOf);
      CountBill(CountAll(init, asOf), init, last, asOf);
    }
  }

  /** The bucket the loop adds to is always there. */
  lemma BucketsPresent(bills: seq<Bill>, bill: Bill, asOf: int)
    ensures var r, k := CountAll(bills, asOf), BucketOf(asOf)(bill);
            k in RowFor(r.suppliers, bill.supplierId).buckets && k in r.totals
  {
    CountAllAges(bills, asOf);
    BucketIsThere(CountAll(bills, asOf), bills, bill, asOf);
  }

  lemma AgingFigures(bills: seq<Bill>, asOf: int)
    ensures var r := CountAll(bills, asOf);
            && Ages(r, bills, asOf)
            && (forall k :: k in r.totals)
            && r.totals[Current] + r.totals[Days30] + r.totals[Days60] + r.totals[Days90] + r.totals[Over90]
               == SumBy(bills, OpenAmount())
  {
    CountAllAges(bills, asOf);
    BucketsAddUp(CountAll(bills, asOf).totals, bills, asOf);
  }

  method Aging(bills: seq<Bill>, asOf: int) returns (r: AgingReport)
    ensures Ages(r, bills, asOf) && r.outstanding == SumBy(bills, OpenAmount())
  {
    var suppliers: map<string, SupplierRow>, totals := map[], NO_AMOUNTS;
    for i := 0 to |bills|
      invariant AgingReport(suppliers, totals, 0) == CountAll(bills[..i], asOf)
    {
      var bill := bills[i];
      assert bills[..i + 1][..i] == bills[..i];
      BucketsPresent(bills[..i], bill, asOf);
      if !bill.paid {
        var bucket := AgingBucket(DaysOverdue(bill.dueDate, asOf));
        var row := if bill.supplierId in suppliers then suppliers[bill.supplierId] else SupplierRow(NO_AMOUNTS, 0);
        row := SupplierRow(row.buckets[bucket := row.buckets[bucket] + bill.amount], row.total + bill.amount);
        totals := totals[bucket := totals[bucket] + bill.amount];
        suppliers := suppliers[bill.supplierId := row];
      }
    }
    assert bills[..|bills|] == bills;
    AgingFigures(bills, asOf);
    r := AgingReport(suppliers, totals,
                     totals[Current] + totals[Days30] + totals[Days60] + totals[Days90] + totals[Over90]);
  }

  lemma BucketsAddUp(totals: map<Bucket, int>, bills: seq<Bill>, asOf: int)
    requires TotalsRight(totals, bills, asOf)
    ensures totals[Current] + totals[Days30] + totals[Days60] + totals[Days90] + totals[Over90]
            == SumBy(bills, OpenAmount())
  {
    Partition(bills, BUCKETS, BucketOf(asOf), OpenAmount());
    SumBuckets(GroupSum(bills, BucketOf(asOf), OpenAmount()));
  }

  /** What is open of the bills at least so many calendar days overdue. */
  function OverdueFrom(asOf: int, days: int): Bill -> int {
    (bill: Bill) => if !bill.paid && bill.dueDate / DAY_MS + days <= asOf / DAY_MS then bill.amount else 0
  }

  /** A bucket holds what is overdue from its first day on less what is overdue from the next one's. */
  lemma BucketIsBetween(bills: seq<Bill>, asOf: int, bucket: Bucket, from: Bill -> int, next: Bill -> int)
    requires forall bill: Bill :: bill in bills ==>
               from(bill) == Only(BucketOf(asOf), bucket, OpenAmount())(bill) + next(bill)
    ensures SumBy(bills, Only(BucketOf(asOf), bucket, OpenAmount())) == SumBy(bills, from) - SumBy(bills, next)
  {
    SumPlus(bills, Only(BucketOf(asOf), bucket, OpenAmount()), next, from);
  }

  /** The buckets are: not yet overdue, 1 to 30 days, 31 to 60, 61 to 90, and more. */
  lemma BucketsAreDayRanges(totals: map<Bucket, int>, bills: seq<Bill>, asOf: int)
    requires TotalsRight(totals, bills, asOf)
    ensures totals[Current] == SumBy(bills, OpenAmount()) - SumBy(bills, OverdueFrom(asOf, 1))
    ensures totals[Days30] == SumBy(bills, OverdueFrom(asOf, 1)) - SumBy(bills, OverdueFrom(asOf, 31))
    ensures totals[Days60] == SumBy(bills, OverdueFrom(asOf, 31)) - SumBy(bills, OverdueFrom(asOf, 61))
    ensures totals[Days90] == SumBy(bills, OverdueFrom(asOf, 61)) - SumBy(bills, OverdueFrom(asOf, 91))
    ensures totals[Over90] == SumBy(bills, OverdueFrom(asOf, 91))
  {
    BucketIsBetween(bills, asOf, Current, OpenAmount(), OverdueFrom(asOf, 1));
    BucketIsBetween(bills, asOf, Days30, OverdueFrom(asOf, 1), OverdueFrom(asOf, 31));
    BucketIsBetween(bills, asOf, Days60, OverdueFrom(asOf, 31), OverdueFrom(asOf, 61));
    BucketIsBetween(bills, asOf, Days90, OverdueFrom(asOf, 61), OverdueFrom(asOf, 91));
    SumSame(bills, Only(BucketOf(asOf), Over90, OpenAmount()), OverdueFrom(asOf, 91));
  }

  lemma SumBuckets(f: Bucket -> int)
    ensures SumBy(BUCKETS, f) == f(Current) + f(Days30) + f(Days60) + f(Days90) + f(Over90)
  {
    SumHead(BUCKETS, f);
    SumHead(BUCKETS[1..], f);
    SumHead(BUCKETS[2..], f);
    SumHead(BUCKETS[3..], f);
    SumHead(BUCKETS[4..], f);
  }

  function TotalOf(r: AgingReport): string -> int {
    s => if s in r.suppliers then r.suppliers[s].total else 0
  }

  /**
   The report agrees with the books: in every reachable state its outstanding
   total, the sum over its suppliers and the sum over its buckets are all the
   net credit on the payable account.
   */
  lemma AgingAgreesWithLedger(steps: seq<Step>, asOf: int, r: AgingReport, suppliers: seq<string>)
    requires Ages(r, Run(steps).bills, asOf) && r.outstanding == SumBy(Run(steps).bills, OpenAmount())
    requires Distinct(suppliers) && forall s :: s in suppliers <==> s in r.suppliers
    ensures var payable := -SumBy(Run(steps).entries, NetOn(ACCOUNTS_PAYABLE));
            && payable == r.outstanding
            && payable == SumBy(suppliers, TotalOf(r))
            && payable == r.totals[Current] + r.totals[Days30] + r.totals[Days60] + r.totals[Days90]
                          + r.totals[Over90]
  {
    var bills := Run(steps).bills;
    PayableControlAccount(steps);
    BucketsAddUp(r.totals, bills, asOf);
    SuppliersAddUp(bills, suppliers, r, asOf);
  }

  lemma SuppliersAddUp(bills: seq<Bill>, suppliers: seq<string>, r: AgingReport, asOf: int)
    requires Ages(r, bills, asOf)
    requires Distinct(suppliers) && forall s :: s in suppliers <==> s in r.suppliers
    ensures SumBy(suppliers, TotalOf(r)) == SumBy(bills, OpenAmount())
  {
    var open := OpenBills(bills);
    OpenBillsAreOpen(bills);
    Partition(open, suppliers, SupplierOf(), OpenAmount());
    forall s | s in suppliers ensures TotalOf(r)(s) == GroupSum(open, SupplierOf(), OpenAmount())(s) {
      OpenBillsSum(bills, Only(SupplierOf(), s, OpenAmount()));
    }
    SumSame(suppliers, TotalOf(r), GroupSum(open, SupplierOf(), OpenAmount()));
    OpenBillsSum(bills, OpenAmount());
  }

  function OpenBills(bills: seq<Bill>): seq<Bill> {
    if bills == [] then []
    else
      var init, last := OpenBills(bills[..|bills| - 1]), bills[|bills| - 1];
      if last.paid then init else init + [last]
  }

  lemma {:induction false} OpenBillsAreOpen(bills: seq<Bill>)
    ensures forall b :: b in OpenBills(bills) <==> b in bills && !b.paid
  {
    if bills != [] {
      OpenBillsAreOpen(bills[..|bills| - 1]);
    }
  }

  lemma {:induction false} OpenBillsSum(bills: seq<Bill>, f: Bill -> int)
    requires forall b: Bill :: b.paid ==> f(b) == 0
    ensures SumBy(OpenBills(bills), f) == SumBy(bills, f)
  {
    if bills != [] {
      var init, last := bills[..|bills| - 1], bills[|bills| - 1];
      OpenBillsSum(init, f);
      SumAppend(OpenBills(init), last, f);
    }
  }
}
