/** The profitability report: sales and refunds rolled up by product, store or day. */
module Reports {
  import opened Wrappers
  import opened Sums
  import opened Money
  import opened Chart
  import opened Postings
  import opened PostingProofs
  import opened Books
  import opened BooksProofs

  const MAX_DAYS := 366

  datatype Grouping = ByProduct | ByStore | ByDay

  datatype GroupKey = Product(sku: string) | Store(id: string) | Day(day: int) | WholeBusiness

  datatype Group = Group(key: GroupKey, quantity: int, revenue: int, cogs: int)

  /** Margin in tenths of a percent of revenue; none without revenue. */
  datatype ProfitRow = ProfitRow(key: GroupKey, quantity: int, revenue: int, cogs: int, grossProfit: int,
                                 margin: Option<int>)

  datatype ProfitReport = ProfitReport(rows: seq<ProfitRow>, total: ProfitRow)

  datatype ReportError = BadRange

  function KeyBy(grouping: Grouping): SaleFact -> GroupKey {
    (f: SaleFact) => match grouping
      case ByProduct => Product(f.sku)
      case ByStore => Store(f.storeId)
      case ByDay => Day(f.businessDate)
  }

  function Quantity(): SaleFact -> int {
    (f: SaleFact) => f.quantity
  }

  // ---- Rolling up ----

  function AddFact(groups: seq<Group>, k: GroupKey, f: SaleFact): seq<Group> {
    if groups == [] then [Group(k, f.quantity, f.revenue, f.cogs)]
    else
      var init, g := groups[..|groups| - 1], groups[|groups| - 1];
      if g.key == k then init + [Group(k, g.quantity + f.quantity, g.revenue + f.revenue, g.cogs + f.cogs)]
      else AddFact(init, k, f) + [g]
  }

  function RollUp(facts: seq<SaleFact>, grouping: Grouping): seq<Group> {
    if facts == [] then []
    else
      var last := facts[|facts| - 1];
      AddFact(RollUp(facts[..|facts| - 1], grouping), KeyBy(grouping)(last), last)
  }

  /** The figures of one group. */
  function GroupOf(facts: seq<SaleFact>, grouping: Grouping, k: GroupKey): Group {
    Group(k, SumBy(facts, Only(KeyBy(grouping), k, Quantity())), SumBy(facts, Only(KeyBy(grouping), k, FactRevenue())),
          SumBy(facts, Only(KeyBy(grouping), k, FactCogs())))
  }

  function KeysOf(groups: seq<Group>): seq<GroupKey> {
    seq(|groups|, i requires 0 <= i < |groups| => groups[i].key)
  }

  ghost predicate RollsUp(groups: seq<Group>, facts: seq<SaleFact>, grouping: Grouping) {
    && Distinct(KeysOf(groups))
    && (forall g :: g in groups ==> g == GroupOf(facts, grouping, g.key))
    && (forall k :: k in KeysOf(groups) <==> exists f :: f in facts && KeyBy(grouping)(f) == k)
  }

  /** Adding a fact touches the group of its key, or opens it, and no other. */
  lemma {:induction false} AddFactShape(groups: seq<Group>, k: GroupKey, f: SaleFact)
    requires Distinct(KeysOf(groups))
    ensures var groups' := AddFact(groups, k, f);
            && Distinct(KeysOf(groups'))
            && (forall x :: x in KeysOf(groups') <==> x in KeysOf(groups) || x == k)
            && (forall g :: g in groups' && g.key != k ==> g in groups)
            && (k !in KeysOf(groups) ==> forall g :: g in groups' && g.key == k ==>
                                                       g == Group(k, f.quantity, f.revenue, f.cogs))
            && (forall g :: g in groups && g.key == k ==>
                              forall g' :: g' in groups' && g'.key == k ==>
                                g' == Group(k, g.quantity + f.quantity, g.revenue + f.revenue, g.cogs + f.cogs))
  {
    if groups != [] {
      var init, g := groups[..|groups| - 1], groups[|groups| - 1];
      assert groups == init + [g] && KeysOf(groups) == KeysOf(init) + [g.key];
      DistinctAppend(KeysOf(init), g.key);
      InKeys(init);
      if g.key == k {
        assert KeysOf(AddFact(groups, k, f)) == KeysOf(groups);
      } else {
        AddFactShape(init, k, f);
        assert KeysOf(AddFact(groups, k, f)) == KeysOf(AddFact(init, k, f)) + [g.key];
        DistinctAppend(KeysOf(AddFact(init, k, f)), g.key);
      }
    } else {
      assert KeysOf(AddFact(groups, k, f)) == [k];
    }
  }

  lemma InKeys(groups: seq<Group>)
    ensures forall g :: g in groups ==> g.key in KeysOf(groups)
    ensures forall k :: k in KeysOf(groups) ==> exists g :: g in groups && g.key == k
  {
    forall g | g in groups ensures g.key in KeysOf(groups) {
      var i :| 0 <= i < |groups| && groups[i] == g;
      assert KeysOf(groups)[i] == g.key;
    }
    forall k | k in KeysOf(groups) ensures exists g :: g in groups && g.key == k {
      var i :| 0 <= i < |groups| && KeysOf(groups)[i] == k;
      assert groups[i] in groups;
    }
  }

  lemma GroupStep(facts: seq<SaleFact>, f: SaleFact, grouping: Grouping, k: GroupKey)
    ensures var g, own := GroupOf(facts, grouping, k), KeyBy(grouping)(f) == k;
            GroupOf(facts + [f], grouping, k) ==
            if own then Group(k, g.quantity + f.quantity, g.revenue + f.revenue, g.cogs + f.cogs) else g
    ensures (forall x :: x in facts ==> KeyBy(grouping)(x) != k) ==> GroupOf(facts, grouping, k) == Group(k, 0, 0, 0)
  {
    SumAppend(facts, f, Only(KeyBy(grouping), k, Quantity()));
    SumAppend(facts, f, Only(KeyBy(grouping), k, FactRevenue()));
    SumAppend(facts, f, Only(KeyBy(grouping), k, FactCogs()));
    if forall x :: x in facts ==> KeyBy(grouping)(x) != k {
      SumZero(facts, Only(KeyBy(grouping), k, Quantity()));
      SumZero(facts, Only(KeyBy(grouping), k, FactRevenue()));
      SumZero(facts, Only(KeyBy(grouping), k, FactCogs()));
    }
  }

  lemma AddedGroup(groups: seq<Group>, facts: seq<SaleFact>, f: SaleFact, grouping: Grouping, g: Group)
    requires RollsUp(groups, facts, grouping) && g in AddFact(groups, KeyBy(grouping)(f), f)
    ensures g == GroupOf(facts + [f], grouping, g.key)
  {
    var k := KeyBy(grouping)(f);
    AddFactShape(groups, k, f);
    InKeys(groups);
    GroupStep(facts, f, grouping, g.key);
    if g.key == k && k in KeysOf(groups) {
      var was :| was in groups && was.key == k;
    } else if g.key == k {
      assert forall x :: x in facts ==> KeyBy(grouping)(x) != k;
    }
  }

  lemma AddedKey(groups: seq<Group>, facts: seq<SaleFact>, f: SaleFact, grouping: Grouping, x: GroupKey)
    requires RollsUp(groups, facts, grouping)
    ensures x in KeysOf(AddFact(groups, KeyBy(grouping)(f), f)) <==>
            exists h :: h in facts + [f] && KeyBy(grouping)(h) == x
  {
    AddFactShape(groups, KeyBy(grouping)(f), f);
    if x == KeyBy(grouping)(f) {
      assert f in facts + [f];
    } else if x in KeysOf(groups) {
      var h :| h in facts && KeyBy(grouping)(h) == x;
      assert h in facts + [f];
    }
  }

  lemma OneMoreFact(groups: seq<Group>, facts: seq<SaleFact>, f: SaleFact, grouping: Grouping, after: seq<Group>,
                    all: seq<SaleFact>)
    requires RollsUp(groups, facts, grouping)
    requires after == AddFact(groups, KeyBy(grouping)(f), f) && all == facts + [f]
    ensures RollsUp(after, all, grouping)
  {
    AddFactShape(groups, KeyBy(grouping)(f), f);
    forall g | g in after ensures g == GroupOf(all, grouping, g.key) {
      AddedGroup(groups, facts, f, grouping, g);
    }
    forall x ensures x in KeysOf(after) <==> exists h :: h in all && KeyBy(grouping)(h) == x {
      AddedKey(groups, facts, f, grouping, x);
    }
  }

  lemma {:induction false} RollUpRollsUp(facts: seq<SaleFact>, grouping: Grouping)
    ensures RollsUp(RollUp(facts, grouping), facts, grouping)
  {
    if facts != [] {
      var init, f := facts[..|facts| - 1], facts[|facts| - 1];
      RollUpRollsUp(init, grouping);
      assert facts == init + [f];
      OneMoreFact(RollUp(init, grouping), init, f, grouping, RollUp(facts, grouping), facts);
    }
  }

  method ComputeRollUp(facts: seq<SaleFact>, grouping: Grouping) returns (groups: seq<Group>)
    ensures groups == RollUp(facts, grouping)
    ensures RollsUp(groups, facts, grouping)
  {
    groups := [];
    for i := 0 to |facts|
      invariant groups == RollUp(facts[..i], grouping)
    {
      assert facts[..i + 1][..i] == facts[..i];
      groups := AddFact(groups, KeyBy(grouping)(facts[i]), facts[i]);
    }
    assert facts[..|facts|] == facts;
    RollUpRollsUp(facts, grouping);
  }

  // ---- Profitability ----

  function RowOfGroup(g: Group): ProfitRow {
    var gp := g.revenue - g.cogs;
    ProfitRow(g.key, g.quantity, g.revenue, g.cogs, gp,
              if g.revenue == 0 then None
              else if g.revenue > 0 then Some(RoundDiv(gp * 1000, g.revenue))
              else Some(RoundDiv(-gp * 1000, -g.revenue)))
  }

  /**
   Gross profit is revenue less cost, and the margin is gross profit over revenue
   in tenths of a percent, rounded to the nearest, unless there is no revenue.
   */
  lemma RowIsRight(g: Group)
    ensures var row := RowOfGroup(g);
            && row.key == g.key && row.quantity == g.quantity && row.revenue == g.revenue && row.cogs == g.cogs
            && row.grossProfit + row.cogs == row.revenue
            && (row.margin.None? <==> row.revenue == 0)
            && (row.margin.Some? ==> row.margin.value == Round((row.grossProfit * 1000) as real / row.revenue as real))
  {
    var gp := g.revenue - g.cogs;
    if g.revenue > 0 {
      RoundDivIsRound(gp * 1000, g.revenue);
    } else if g.revenue < 0 {
      RoundDivIsRound(-gp * 1000, -g.revenue);
      SameQuotient((gp * 1000) as real, g.revenue as real);
      assert (-gp * 1000) as real == -((gp * 1000) as real) && (-g.revenue) as real == -(g.revenue as real);
    }
  }

  lemma SameQuotient(n: real, d: real)
    requires d < 0.0
    ensures -n / -d == n / d
  {
  }

  /** The report's days, or an error if it would cover none or more than 366. */
  function Range(firstDay: int, lastDay: int): Result<seq<int>, ReportError> {
    if lastDay < firstDay || lastDay - firstDay + 1 > MAX_DAYS then Err(BadRange)
    else Ok(seq(lastDay - firstDay + 1, i requires 0 <= i => firstDay + i))
  }

  method ComputeRange(firstDay: int, lastDay: int) returns (r: Result<seq<int>, ReportError>)
    ensures r == Range(firstDay, lastDay)
    ensures r.Ok? <==> firstDay <= lastDay < firstDay + 366
    ensures r.Ok? ==> |r.value| == lastDay - firstDay + 1
    ensures r.Ok? ==> forall i :: 0 <= i < |r.value| ==> r.value[i] == firstDay + i
  {
    if firstDay * DAY_MS >= (lastDay + 1) * DAY_MS {
      return Err(BadRange);
    }
    var days: seq<int>, d := [], firstDay;
    while d * DAY_MS < (lastDay + 1) * DAY_MS
      invariant firstDay <= d <= lastDay + 1 && d - firstDay <= MAX_DAYS
      invariant days == seq(d - firstDay, i requires 0 <= i => firstDay + i)
      decreases lastDay + 1 - d
    {
      days := days + [d];
      if |days| > MAX_DAYS {
        return Err(BadRange);
      }
      d := d + 1;
    }
    return Ok(days);
  }

  function FactsBetween(facts: seq<SaleFact>, start: int, end: int): seq<SaleFact> {
    if facts == [] then []
    else
      var init, last := FactsBetween(facts[..|facts| - 1], start, end), facts[|facts| - 1];
      if start <= last.occurredAt < end then init + [last] else init
  }

  lemma {:induction false} FactsBetweenIsFilter(facts: seq<SaleFact>, start: int, end: int)
    ensures forall f :: f in FactsBetween(facts, start, end) <==> f in facts && start <= f.occurredAt < end
  {
    if facts != [] {
      FactsBetweenIsFilter(facts[..|facts| - 1], start, end);
      assert facts == facts[..|facts| - 1] + [facts[|facts| - 1]];
    }
  }

  /** The group with the key, or an empty one. */
  function FindGroup(groups: seq<Group>, k: GroupKey): Group {
    if groups == [] then Group(k, 0, 0, 0)
    else if groups[0].key == k then groups[0]
    else FindGroup(groups[1..], k)
  }

  lemma {:induction false} FindGroupFinds(groups: seq<Group>, k: GroupKey)
    ensures if k in KeysOf(groups) then FindGroup(groups, k) in groups && FindGroup(groups, k).key == k
            else FindGroup(groups, k) == Group(k, 0, 0, 0)
  {
    if groups != [] {
      assert KeysOf(groups) == [groups[0].key] + KeysOf(groups[1..]);
      FindGroupFinds(groups[1..], k);
    }
  }

  function RowRevenue(): ProfitRow -> int {
    (r: ProfitRow) => r.revenue
  }

  function RowCogs(): ProfitRow -> int {
    (r: ProfitRow) => r.cogs
  }

  function RowKeys(rows: seq<ProfitRow>): seq<GroupKey> {
    seq(|rows|, i requires 0 <= i < |rows| => rows[i].key)
  }

  /**
   A daily report has one row for every day of the period, in order; the others
   have one row for every product or store with a fact. Every row shows its own
   facts' figures and the total shows all of them.
   */
  ghost predicate Profits(r: ProfitReport, facts: seq<SaleFact>, firstDay: int, lastDay: int, grouping: Grouping)
    requires Range(firstDay, lastDay).Ok?
  {
    var days := Range(firstDay, lastDay).value;
    && (forall row :: row in r.rows ==> row == RowOfGroup(GroupOf(facts, grouping, row.key)))
    && Distinct(RowKeys(r.rows))
    && (forall f :: f in facts ==> KeyBy(grouping)(f) in RowKeys(r.rows))
    && (grouping == ByDay ==> RowKeys(r.rows) == seq(|days|, i requires 0 <= i < |days| => Day(days[i])))
    && (grouping != ByDay ==> forall k :: k in RowKeys(r.rows) ==> exists f :: f in facts && KeyBy(grouping)(f) == k)
    && r.total == RowOfGroup(Group(WholeBusiness, SumBy(facts, Quantity()), SumBy(facts, FactRevenue()),
                                   SumBy(facts, FactCogs())))
  }

  method Totals(facts: seq<SaleFact>) returns (quantity: int, revenue: int, cogs: int)
    ensures quantity == SumBy(facts, Quantity())
    ensures revenue == SumBy(facts, FactRevenue()) && cogs == SumBy(facts, FactCogs())
  {
    quantity, revenue, cogs := 0, 0, 0;
    for i := 0 to |facts|
      invariant quantity == SumBy(facts[..i], Quantity())
      invariant revenue == SumBy(facts[..i], FactRevenue()) && cogs == SumBy(facts[..i], FactCogs())
    {
      SumStep(facts, i, Quantity());
      SumStep(facts, i, FactRevenue());
      SumStep(facts, i, FactCogs());
      quantity, revenue, cogs := quantity + facts[i].quantity, revenue + facts[i].revenue, cogs + facts[i].cogs;
    }
    assert facts[..|facts|] == facts;
  }

  method Profitability(all: seq<SaleFact>, firstDay: int, lastDay: int, grouping: Grouping)
    returns (r: Result<ProfitReport, ReportError>)
    requires forall f :: f in all ==> f.businessDate == f.occurredAt / DAY_MS
    ensures r.Ok? <==> Range(firstDay, lastDay).Ok?
    ensures r.Ok? ==> Profits(r.value, FactsBetween(all, firstDay * DAY_MS, (lastDay + 1) * DAY_MS),
                              firstDay, lastDay, grouping)
  {
    var days := ComputeRange(firstDay, lastDay);
    if days.Err? {
      return Err(BadRange);
    }
    var facts := FactsBetween(all, firstDay * DAY_MS, (lastDay + 1) * DAY_MS);
    FactsBetweenIsFilter(all, firstDay * DAY_MS, (lastDay + 1) * DAY_MS);
    var groups := ComputeRollUp(facts, grouping);
    var rows: seq<ProfitRow>;
    if grouping == ByDay {
      rows := seq(|days.value|, i requires 0 <= i < |days.value| => RowOfGroup(FindGroup(groups, Day(days.value[i]))));
      DayRows(facts, firstDay, lastDay, groups, rows);
    } else {
      rows := seq(|groups|, i requires 0 <= i < |groups| => RowOfGroup(groups[i]));
      GroupRows(facts, grouping, groups, rows);
    }
    var quantity, revenue, cogs := Totals(facts);
    return Ok(ProfitReport(rows, RowOfGroup(Group(WholeBusiness, quantity, revenue, cogs))));
  }

  lemma GroupRows(facts: seq<SaleFact>, grouping: Grouping, groups: seq<Group>, rows: seq<ProfitRow>)
    requires RollsUp(groups, facts, grouping)
    requires rows == seq(|groups|, i requires 0 <= i < |groups| => RowOfGroup(groups[i]))
    ensures RowKeys(rows) == KeysOf(groups)
    ensures forall row :: row in rows ==> row == RowOfGroup(GroupOf(facts, grouping, row.key))
    ensures forall f :: f in facts ==> KeyBy(grouping)(f) in RowKeys(rows)
  {
    forall row | row in rows ensures row == RowOfGroup(GroupOf(facts, grouping, row.key)) {
      var i :| 0 <= i < |rows| && rows[i] == row;
      assert groups[i] in groups;
    }
    assert RowKeys(rows) == KeysOf(groups);
  }

  /** A day's row, whether or not something was sold on it. */
  lemma DayRow(facts: seq<SaleFact>, groups: seq<Group>, k: GroupKey)
    requires RollsUp(groups, facts, ByDay)
    ensures FindGroup(groups, k) == GroupOf(facts, ByDay, k)
  {
    FindGroupFinds(groups, k);
    if k !in KeysOf(groups) {
      SumZero(facts, Only(KeyBy(ByDay), k, Quantity()));
      SumZero(facts, Only(KeyBy(ByDay), k, FactRevenue()));
      SumZero(facts, Only(KeyBy(ByDay), k, FactCogs()));
    }
  }

  lemma DayRows(facts: seq<SaleFact>, firstDay: int, lastDay: int, groups: seq<Group>, rows: seq<ProfitRow>)
    requires RollsUp(groups, facts, ByDay) && Range(firstDay, lastDay).Ok?
    requires var days := Range(firstDay, lastDay).value;
             rows == seq(|days|, i requires 0 <= i < |days| => RowOfGroup(FindGroup(groups, Day(days[i]))))
    requires forall f :: f in facts ==> firstDay <= f.businessDate <= lastDay
    ensures var days := Range(firstDay, lastDay).value;
            RowKeys(rows) == seq(|days|, i requires 0 <= i < |days| => Day(days[i]))
    ensures Distinct(RowKeys(rows))
    ensures forall row :: row in rows ==> row == RowOfGroup(GroupOf(facts, ByDay, row.key))
    ensures forall f :: f in facts ==> KeyBy(ByDay)(f) in RowKeys(rows)
  {
    var days := Range(firstDay, lastDay).value;
    forall i | 0 <= i < |days| ensures rows[i] == RowOfGroup(GroupOf(facts, ByDay, Day(days[i]))) {
      DayRow(facts, groups, Day(days[i]));
    }
    forall f | f in facts ensures KeyBy(ByDay)(f) in RowKeys(rows) {
      assert RowKeys(rows)[f.businessDate - firstDay] == Day(f.businessDate);
    }
  }

  function SkuOf(): SaleFact -> string {
    (f: SaleFact) => f.sku
  }

  function StoreOf(): SaleFact -> string {
    (f: SaleFact) => f.storeId
  }

  function DayOf(): SaleFact -> int {
    (f: SaleFact) => f.occurredAt / DAY_MS
  }

  /** A row's figures are those of the facts whose key is this. */
  ghost predicate SumsUp<K>(row: ProfitRow, facts: seq<SaleFact>, key: SaleFact -> K, k: K) {
    && row.quantity == SumBy(facts, Only(key, k, Quantity()))
    && row.revenue == SumBy(facts, Only(key, k, FactRevenue()))
    && row.cogs == SumBy(facts, Only(key, k, FactCogs()))
  }

  lemma SameKeySums<K>(facts: seq<SaleFact>, grouping: Grouping, own: GroupKey, key: SaleFact -> K, k: K)
    requires forall f :: f in facts ==> (KeyBy(grouping)(f) == own <==> key(f) == k)
    ensures SumsUp(RowOfGroup(GroupOf(facts, grouping, own)), facts, key, k)
  {
    SumSame(facts, Only(KeyBy(grouping), own, Quantity()), Only(key, k, Quantity()));
    SumSame(facts, Only(KeyBy(grouping), own, FactRevenue()), Only(key, k, FactRevenue()));
    SumSame(facts, Only(KeyBy(grouping), own, FactCogs()), Only(key, k, FactCogs()));
  }

  lemma ProductSums(facts: seq<SaleFact>, sku: string)
    ensures SumsUp(RowOfGroup(GroupOf(facts, ByProduct, Product(sku))), facts, SkuOf(), sku)
  {
    SameKeySums(facts, ByProduct, Product(sku), SkuOf(), sku);
  }

  lemma StoreSums(facts: seq<SaleFact>, id: string)
    ensures SumsUp(RowOfGroup(GroupOf(facts, ByStore, Store(id))), facts, StoreOf(), id)
  {
    SameKeySums(facts, ByStore, Store(id), StoreOf(), id);
  }

  lemma DaySums(facts: seq<SaleFact>, day: int)
    requires forall f :: f in facts ==> f.businessDate == f.occurredAt / DAY_MS
    ensures SumsUp(RowOfGroup(GroupOf(facts, ByDay, Day(day))), facts, DayOf(), day)
  {
    SameKeySums(facts, ByDay, Day(day), DayOf(), day);
  }

  /** The keys of a grouping are of its own kind. */
  lemma KeyFitsGrouping(keys: seq<GroupKey>, facts: seq<SaleFact>, firstDay: int, lastDay: int, grouping: Grouping,
                        k: GroupKey)
    requires k in keys && Range(firstDay, lastDay).Ok?
    requires var days := Range(firstDay, lastDay).value;
             grouping == ByDay ==> keys == seq(|days|, i requires 0 <= i < |days| => Day(days[i]))
    requires grouping != ByDay ==> exists f :: f in facts && KeyBy(grouping)(f) == k
    ensures match grouping
            case ByProduct => k.Product?
            case ByStore => k.Store?
            case ByDay => k.Day? && firstDay <= k.day <= lastDay
  {
  }

  lemma RowIsListed(rows: seq<ProfitRow>, row: ProfitRow)
    requires row in rows
    ensures row.key in RowKeys(rows)
  {
    var i :| 0 <= i < |rows| && rows[i] == row;
    assert RowKeys(rows)[i] == row.key;
  }

  lemma ReportedRow(r: ProfitReport, facts: seq<SaleFact>, firstDay: int, lastDay: int, grouping: Grouping,
                    row: ProfitRow)
    requires Range(firstDay, lastDay).Ok? && Profits(r, facts, firstDay, lastDay, grouping) && row in r.rows
    ensures row == RowOfGroup(GroupOf(facts, grouping, row.key))
    ensures match grouping
            case ByProduct => row.key.Product?
            case ByStore => row.key.Store?
            case ByDay => row.key.Day? && firstDay <= row.key.day <= lastDay
  {
    RowIsListed(r.rows, row);
    KeyFitsGrouping(RowKeys(r.rows), facts, firstDay, lastDay, grouping, row.key);
  }

  /** A row sums the facts of its own product, store or calendar day. */
  ghost predicate ShowsItsOwn(row: ProfitRow, facts: seq<SaleFact>, firstDay: int, lastDay: int, grouping: Grouping) {
    match grouping
    case ByProduct => row.key.Product? && SumsUp(row, facts, SkuOf(), row.key.sku)
    case ByStore => row.key.Store? && SumsUp(row, facts, StoreOf(), row.key.id)
    case ByDay => row.key.Day? && firstDay <= row.key.day <= lastDay && SumsUp(row, facts, DayOf(), row.key.day)
  }

  lemma OwnFactsShown(row: ProfitRow, facts: seq<SaleFact>, firstDay: int, lastDay: int, grouping: Grouping)
    requires row == RowOfGroup(GroupOf(facts, grouping, row.key))
    requires match grouping
             case ByProduct => row.key.Product?
             case ByStore => row.key.Store?
             case ByDay => row.key.Day? && firstDay <= row.key.day <= lastDay
    requires forall f :: f in facts ==> f.businessDate == f.occurredAt / DAY_MS
    ensures ShowsItsOwn(row, facts, firstDay, lastDay, grouping)
  {
    match grouping
    case ByProduct => ProductSums(facts, row.key.sku);
    case ByStore => StoreSums(facts, row.key.id);
    case ByDay => DaySums(facts, row.key.day);
  }

  /** However the report is grouped, every row sums the facts of its own product, store or calendar day. */
  lemma RowsShowTheirOwn(r: ProfitReport, facts: seq<SaleFact>, firstDay: int, lastDay: int, grouping: Grouping,
                         row: ProfitRow)
    requires Range(firstDay, lastDay).Ok? && Profits(r, facts, firstDay, lastDay, grouping) && row in r.rows
    requires forall f :: f in facts ==> f.businessDate == f.occurredAt / DAY_MS
    ensures ShowsItsOwn(row, facts, firstDay, lastDay, grouping)
  {
    ReportedRow(r, facts, firstDay, lastDay, grouping, row);
    OwnFactsShown(row, facts, firstDay, lastDay, grouping);
  }

  /** The rows of a report, however grouped, add up to its total. */
  lemma RowsAddUp(r: ProfitReport, facts: seq<SaleFact>, firstDay: int, lastDay: int, grouping: Grouping)
    requires Range(firstDay, lastDay).Ok? && Profits(r, facts, firstDay, lastDay, grouping)
    ensures SumBy(r.rows, RowRevenue()) == r.total.revenue && SumBy(r.rows, RowCogs()) == r.total.cogs
  {
    var keys := RowKeys(r.rows);
    forall i | 0 <= i < |keys| ensures r.rows[i] == RowOfGroup(GroupOf(facts, grouping, keys[i])) {
      assert r.rows[i] in r.rows;
    }
    Partition(facts, keys, KeyBy(grouping), FactRevenue());
    Partition(facts, keys, KeyBy(grouping), FactCogs());
    SumPairwise(r.rows, keys, RowRevenue(), GroupSum(facts, KeyBy(grouping), FactRevenue()));
    SumPairwise(r.rows, keys, RowCogs(), GroupSum(facts, KeyBy(grouping), FactCogs()));
  }

  // ---- Agreement with the journal ----

  function InPeriod(start: int, end: int): Selection {
    (k: Key, at: int) => start <= at < end
  }

  lemma {:induction false} FactsBetweenSum(facts: seq<SaleFact>, start: int, end: int, f: SaleFact -> int)
    ensures SumBy(FactsBetween(facts, start, end), f) == SumBy(facts, SelectedFact(InPeriod(start, end), f))
  {
    if facts != [] {
      var init, last := facts[..|facts| - 1], facts[|facts| - 1];
      FactsBetweenSum(init, start, end, f);
      assert SelectedFact(InPeriod(start, end), f)(last) == if start <= last.occurredAt < end then f(last) else 0;
      SumAppend(FactsBetween(init, start, end), last, f);
    }
  }

  /**
   After any run, over any period and any grouping, the profitability report's
   revenue is what the journal credited to sales less what it debited to
   returns, its cost is the net of the cost account, and its rows add up.
   */
  lemma ProfitAgreesWithJournal(steps: seq<Step>, r: ProfitReport, firstDay: int, lastDay: int, grouping: Grouping)
    requires Range(firstDay, lastDay).Ok?
    requires Profits(r, FactsBetween(Run(steps).facts, firstDay * DAY_MS, (lastDay + 1) * DAY_MS),
                     firstDay, lastDay, grouping)
    ensures var entries, w := Run(steps).entries, InPeriod(firstDay * DAY_MS, (lastDay + 1) * DAY_MS);
            && r.total.revenue == -SumBy(entries, Selected(w, SALES)) - SumBy(entries, Selected(w, SALES_RETURNS))
            && r.total.cogs == SumBy(entries, Selected(w, COGS))
            && SumBy(r.rows, RowRevenue()) == r.total.revenue && SumBy(r.rows, RowCogs()) == r.total.cogs
  {
    var start, end := firstDay * DAY_MS, (lastDay + 1) * DAY_MS;
    RunKeepsInv(steps, InPeriod(start, end));
    FactsBetweenSum(Run(steps).facts, start, end, FactRevenue());
    FactsBetweenSum(Run(steps).facts, start, end, FactCogs());
    RowsAddUp(r, FactsBetween(Run(steps).facts, start, end), firstDay, lastDay, grouping);
  }
}
