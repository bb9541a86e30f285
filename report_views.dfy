/** The views of reports/views.py put together from the pipelines of
    ReportAggregates, TrendSeries and TopProducts: the dashboard, the three
    report pages, the three trend endpoints, the guard and row selection of
    the three exports, and the three create views that save a row for the
    requester and then run the report rules. The clock is the parameter
    `now`; "today" is its day. */
module ReportViews {
  import opened Common
  import opened Records
  import opened ReportAggregates
  import opened TrendSeries
  import opened TopProducts
  import opened Notifications
  import opened ReportRules

  /** Which of the three report tables a view works on. */
  datatype Kind = ConsumptionKind | ExpenseKind | WastageKind

  predicate OfKind(r: Record, k: Kind)
  {
    match k
    case ConsumptionKind => r.Consumption?
    case ExpenseKind => r.Expense?
    case WastageKind => r.Wastage?
  }

  /** A table holds rows of its own model only. */
  predicate TableOf(rs: seq<Record>, k: Kind)
  {
    forall i :: 0 <= i < |rs| ==> OfKind(rs[i], k)
  }

  /** The window of a table holds rows of the table's model, so the
      window of the consumption or wastage table references products. */
  lemma WindowKeepsKind(rs: seq<Record>, k: Kind, user: UserId, today: Day)
    requires TableOf(rs, k)
    ensures TableOf(Window(rs, user, today), k)
    ensures k != ExpenseKind ==> ProductRows(Window(rs, user, today))
  {
    var w := Window(rs, user, today);
    forall i | 0 <= i < |w| ensures OfKind(w[i], k) {
      var j :| 0 <= j < |rs| && rs[j] == w[i];
    }
  }

  // ---- trend series as handed out -------------------------------------------

  /** The series a report page or a trends endpoint hands out: the queried
      points with each month replaced by its label. */
  function LabelledSeries(w: seq<Record>): seq<Trend>
  {
    Map(AsQueried(Trends(w)), Labelled)
  }

  /** `*_trends_api`: the requester's window, its month series, and the
      loop that relabels each point in place. */
  method TrendsApi(rs: seq<Record>, user: UserId, now: Instant) returns (series: seq<Trend>)
    ensures series == LabelledSeries(Window(rs, user, DayOf(now)))
  {
    var points := AsQueried(Trends(Window(rs, user, DayOf(now))));
    var a := new Trend[|points|](i requires 0 <= i < |points| => points[i]);
    LabelMonths(a);
    series := a[..];
    forall i | 0 <= i < |points|
      ensures series[i] == Map(points, Labelled)[i]
    {
      MapIndex(points, Labelled, i);
    }
  }

  /** The handed-out series has one point per month in which the window
      has rows, strictly ascending by month, each carrying its month's
      label and sum, and the sums add up to the window total. */
  lemma LabelledSeriesFacts(w: seq<Record>)
    ensures var s := Trends(w); var out := LabelledSeries(w);
      StrictlyAscending(s) && Months(s) == RowMonths(w) && SeriesTotal(s) == Total(w)
      && |out| == |s|
      && forall i :: 0 <= i < |s| ==> out[i] == Trend(MonthValue.Text(Calendar.MonthLabel(s[i].month)), s[i].total)
  {
    var s := Trends(w);
    TrendsAscending(w);
    TrendsMonths(w);
    TrendsTotal(w);
    MapAt(AsQueried(s), Labelled);
  }

  // ---- report pages ----------------------------------------------------------

  /** The context of `expense_report`, `consumption_report` and
      `wastage_report`: the window newest first, its sum and average, the
      number of rows (expense report only) or of distinct products (the
      other two), and the labelled month series. */
  datatype ReportContext = ReportContext(
    rows: seq<Record>,
    total: Hundredths,
    average: real,
    trips: Option<nat>,
    products: Option<nat>,
    trends: seq<Trend>)

  function ReportOf(k: Kind, rs: seq<Record>, user: UserId, today: Day): ReportContext
    requires TableOf(rs, k)
  {
    var w := Window(rs, user, today);
    WindowKeepsKind(rs, k, user, today);
    ReportContext(
      NewestFirst(w), Total(w), Average(w),
      if k == ExpenseKind then Some(|w|) else None,
      if k == ExpenseKind then None else Some(DistinctProducts(w)),
      LabelledSeries(w))
  }

  method Report(k: Kind, rs: seq<Record>, user: UserId, now: Instant) returns (ctx: ReportContext)
    requires TableOf(rs, k)
    ensures ctx == ReportOf(k, rs, user, DayOf(now))
  {
    var w := Window(rs, user, DayOf(now));
    WindowKeepsKind(rs, k, user, DayOf(now));
    var series := TrendsApi(rs, user, now);
    var trips: Option<nat> := None;
    var products: Option<nat> := None;
    if k == ExpenseKind {
      trips := Some(|w|);
    } else {
      products := Some(DistinctProducts(w));
    }
    ctx := ReportContext(NewestFirst(w), Total(w), Average(w), trips, products, series);
  }

  /** A report lists exactly the requester's rows dated on or after
      today - 30, each as often as the table holds it, newest first. */
  lemma ReportRows(k: Kind, rs: seq<Record>, user: UserId, today: Day)
    requires TableOf(rs, k)
    ensures var c := ReportOf(k, rs, user, today);
      (forall i :: 0 <= i < |c.rows| ==> c.rows[i] in rs && c.rows[i].owner == user && c.rows[i].date >= today - WindowDays)
      && (forall i :: 0 <= i < |rs| && rs[i].owner == user && rs[i].date >= today - WindowDays ==> rs[i] in c.rows)
      && (forall x :: multiset(c.rows)[x] == if InWindow(x, user, today) then multiset(rs)[x] else 0)
      && (forall i, j :: 0 <= i < j < |c.rows| ==> c.rows[i].date >= c.rows[j].date)
  {
    var w := Window(rs, user, today);
    var c := ReportOf(k, rs, user, today);
    forall i | 0 <= i < |c.rows| ensures c.rows[i] in w {
      PermutationIn(w, c.rows, c.rows[i]);
    }
    forall i | 0 <= i < |rs| && rs[i].owner == user && rs[i].date >= today - WindowDays
      ensures rs[i] in c.rows
    {
      PermutationIn(c.rows, w, rs[i]);
    }
  }

  /** The total and the average are the sum and the mean of the listed
      rows, so both are 0 when nothing is listed. */
  lemma ReportTotals(k: Kind, rs: seq<Record>, user: UserId, today: Day)
    requires TableOf(rs, k)
    ensures var c := ReportOf(k, rs, user, today);
      c.total == Total(c.rows) && c.average == Average(c.rows)
      && (|c.rows| == 0 ==> c.total == 0 && c.average == 0.0)
  {
    NewestFirstTotal(Window(rs, user, today));
  }

  /** The expense report's trip count is the row count; the other reports'
      product count is the number of distinct products, at most the row
      count and zero only when there are no rows. */
  lemma ReportCounts(k: Kind, rs: seq<Record>, user: UserId, today: Day)
    requires TableOf(rs, k)
    ensures var c := ReportOf(k, rs, user, today);
      (c.trips.Some? <==> k == ExpenseKind)
      && (c.trips.Some? ==> c.trips.value == |c.rows|)
      && (c.products.Some? <==> k != ExpenseKind)
      && (c.products.Some? ==> c.products.value <= |c.rows| && (c.products.value == 0 <==> |c.rows| == 0)
                               && c.products.value == |ProductIds(Window(rs, user, today))|)
  {
    NewestFirstTotal(Window(rs, user, today));
  }

  /** The report's series has a point for each month of the listed rows,
      in ascending month order, and the points add up to the total. */
  lemma ReportSeries(k: Kind, rs: seq<Record>, user: UserId, today: Day)
    requires TableOf(rs, k)
    ensures var c := ReportOf(k, rs, user, today); var s := Trends(Window(rs, user, today));
      c.trends == LabelledSeries(Window(rs, user, today))
      && StrictlyAscending(s) && Months(s) == RowMonths(Window(rs, user, today))
      && SeriesTotal(s) == c.total && |c.trends| == |s|
  {
    LabelledSeriesFacts(Window(rs, user, today));
  }

  // ---- dashboard -------------------------------------------------------------

  /** The report tables, and the products app's consumption log that the
      trend rule reads. */
  datatype ReportTables = ReportTables(
    consumptions: seq<Record>, expenses: seq<Record>, wastages: seq<Record>, usage: seq<UsageEntry>)

  predicate WellTyped(t: ReportTables)
  {
    TableOf(t.consumptions, ConsumptionKind) && TableOf(t.expenses, ExpenseKind) && TableOf(t.wastages, WastageKind)
  }

  /** The tables `generate_report_notifications` reads. */
  function RuleTables(t: ReportTables): Tables
  {
    Tables(t.expenses, t.wastages, t.usage)
  }

  /** A `*_stats` entry: the window's row count and sum. */
  datatype Stats = Stats(count: nat, total: Hundredths)

  datatype Dashboard = Dashboard(
    consumption: Stats,
    topProducts: seq<ProductStat>,
    expenses: Stats,
    wastage: Stats,
    expenseTrends: seq<Trend>)

  /** The dashboard's figures; its expense series keeps the truncated
      months, as this view does not relabel them. */
  function DashboardOf(t: ReportTables, user: UserId, today: Day): Dashboard
    requires WellTyped(t)
  {
    var cw := Window(t.consumptions, user, today);
    var ew := Window(t.expenses, user, today);
    var ww := Window(t.wastages, user, today);
    WindowKeepsKind(t.consumptions, ConsumptionKind, user, today);
    Dashboard(Stats(|cw|, Total(cw)), Top(cw), Stats(|ew|, Total(ew)), Stats(|ww|, Total(ww)), AsQueried(Trends(ew)))
  }

  /** The dashboard's top products are at most five, in non-increasing
      order of summed quantity, each with its name's summed quantity and
      row count in the consumption window; its sums are 0 for empty
      windows; its expense series is ascending and adds up to the expense
      total. */
  lemma DashboardFacts(t: ReportTables, user: UserId, today: Day)
    requires WellTyped(t)
    ensures var d := DashboardOf(t, user, today); var cw := Window(t.consumptions, user, today);
      var s := Trends(Window(t.expenses, user, today));
      |d.topProducts| <= TopCount
      && Ordering.NonIncreasing(d.topProducts, (g: ProductStat) => g.totalQuantity)
      && (forall i :: 0 <= i < |d.topProducts| ==>
            d.topProducts[i].totalQuantity == NameTotal(cw, d.topProducts[i].name)
            && d.topProducts[i].count == NameCount(cw, d.topProducts[i].name))
      && (d.consumption.count == 0 ==> d.consumption.total == 0)
      && (d.expenses.count == 0 ==> d.expenses.total == 0)
      && (d.wastage.count == 0 ==> d.wastage.total == 0)
      && d.expenseTrends == AsQueried(s) && StrictlyAscending(s) && SeriesTotal(s) == d.expenses.total
  {
    var cw := Window(t.consumptions, user, today);
    WindowKeepsKind(t.consumptions, ConsumptionKind, user, today);
    TopProductsShape(cw);
    TrendsAscending(Window(t.expenses, user, today));
    TrendsTotal(Window(t.expenses, user, today));
  }

  // ---- exports ---------------------------------------------------------------

  /** `<date>__range=[now - 30 days, now]`: the requester's rows dated
      from today - 30 through today, both ends included. */
  predicate InRange(r: Record, user: UserId, today: Day)
  {
    r.owner == user && today - WindowDays <= r.date <= today
  }

  function RangeRows(rs: seq<Record>, user: UserId, today: Day): (w: seq<Record>)
    ensures forall i :: 0 <= i < |w| ==> w[i] in rs && InRange(w[i], user, today)
    ensures forall i :: 0 <= i < |rs| && InRange(rs[i], user, today) ==> rs[i] in w
    ensures forall x :: multiset(w)[x] == if InRange(x, user, today) then multiset(rs)[x] else 0
  {
    FilterMembers(rs, r => InRange(r, user, today));
    forall x ensures multiset(Filter(rs, r => InRange(r, user, today)))[x]
                     == if InRange(x, user, today) then multiset(rs)[x] else 0
    {
      FilterCount(rs, r => InRange(r, user, today), x);
    }
    Filter(rs, r => InRange(r, user, today))
  }

  /** What an export view builds for its writer: the rows newest first,
      and the headline figure, which is the sum of the amounts for expenses
      and the row count for the other two, with the average. Whether those
      reach the response body is `ExportBodyAsWritten` below. */
  datatype ExportResponse =
    | BadFormat
    | Exported(csv: bool, rows: seq<Record>, headline: int, average: real)

  function ExportOf(k: Kind, format: string, rs: seq<Record>, user: UserId, today: Day): ExportResponse
  {
    if format != "csv" && format != "pdf" then BadFormat
    else
      var w := RangeRows(rs, user, today);
      Exported(format == "csv", NewestFirst(w), if k == ExpenseKind then Total(w) else |w|, Average(w))
  }

  /** Status 400 exactly for a format other than "csv" and "pdf". */
  lemma ExportGuard(k: Kind, format: string, rs: seq<Record>, user: UserId, today: Day)
    ensures ExportOf(k, format, rs, user, today) == BadFormat <==> format != "csv" && format != "pdf"
    ensures ExportOf(k, format, rs, user, today).Exported? ==>
      (ExportOf(k, format, rs, user, today).csv <==> format == "csv")
  {
  }

  /** An export covers exactly the requester's rows dated today - 30
      through today, each as often as the table holds it, newest first. */
  lemma ExportRows(k: Kind, format: string, rs: seq<Record>, user: UserId, today: Day)
    requires format == "csv" || format == "pdf"
    ensures var e := ExportOf(k, format, rs, user, today);
      e.Exported?
      && (forall i :: 0 <= i < |e.rows| ==> e.rows[i] in rs && InRange(e.rows[i], user, today))
      && (forall i :: 0 <= i < |rs| && InRange(rs[i], user, today) ==> rs[i] in e.rows)
      && (forall x :: multiset(e.rows)[x] == if InRange(x, user, today) then multiset(rs)[x] else 0)
      && (forall i, j :: 0 <= i < j < |e.rows| ==> e.rows[i].date >= e.rows[j].date)
  {
    var w := RangeRows(rs, user, today);
    var e := ExportOf(k, format, rs, user, today);
    forall i | 0 <= i < |e.rows| ensures e.rows[i] in w {
      PermutationIn(w, e.rows, e.rows[i]);
    }
    forall i | 0 <= i < |rs| && InRange(rs[i], user, today)
      ensures rs[i] in e.rows
    {
      PermutationIn(e.rows, w, rs[i]);
    }
  }

  /** The export's selection is the matching report's window without the
      rows dated after today. */
  lemma ExportWithinReport(rs: seq<Record>, user: UserId, today: Day)
    ensures forall r :: r in RangeRows(rs, user, today) <==> r in Window(rs, user, today) && r.date <= today
  {
    var w, e := Window(rs, user, today), RangeRows(rs, user, today);
    forall r | r in e ensures r in w && r.date <= today {
      var i :| 0 <= i < |e| && e[i] == r;
      var j :| 0 <= j < |rs| && rs[j] == r;
    }
    forall r | r in w && r.date <= today ensures r in e {
      var i :| 0 <= i < |w| && w[i] == r;
      var j :| 0 <= j < |rs| && rs[j] == r;
    }
  }

  /** The rows an export response actually carries. The CSV branch passes
      the queryset as the `model` parameter of reports/export.py's
      `export_to_csv(model, queryset, filename)`, so none of its three
      model branches matches and the body is empty; the PDF branch calls
      the three-parameter `export_to_pdf` with two arguments, which raises
      TypeError. A bad format writes no rows either. */
  function ExportBodyAsWritten(e: ExportResponse): Outcome<seq<Record>>
  {
    if e.Exported? && !e.csv then Raised("TypeError") else Returned([])
  }

  /** As written, a PDF export always raises, and a CSV export carries the
      rows the view selected only when there are none. */
  lemma ExportAsWrittenLosesRows(k: Kind, format: string, rs: seq<Record>, user: UserId, today: Day)
    ensures var e := ExportOf(k, format, rs, user, today);
      (ExportBodyAsWritten(e).Raised? <==> format == "pdf")
      && (format == "csv" ==>
            (ExportBodyAsWritten(e) == Returned(e.rows)
             <==> forall i :: 0 <= i < |rs| ==> !InRange(rs[i], user, today)))
  {
    if format == "csv" {
      var w := RangeRows(rs, user, today);
      var e := ExportOf(k, format, rs, user, today);
      assert |e.rows| == |w| by {
        assert |multiset(e.rows)| == |multiset(w)|;
      }
      FilterEmpty(rs, r => InRange(r, user, today));
    }
  }

  /** One expense of user 1 dated today: the intended CSV export holds it,
      the CSV written holds nothing. */
  lemma ExportAsWrittenExample()
    ensures var e := ExportOf(ExpenseKind, "csv", [Expense(1, 1, 500, 100)], 1, 100);
      e.rows == [Expense(1, 1, 500, 100)] && ExportBodyAsWritten(e) == Returned([])
  {
    var rs := [Expense(1, 1, 500, 100)];
    var w := RangeRows(rs, 1, 100);
    assert InRange(rs[0], 1, 100) && rs[0] in w;
    var e := ExportOf(ExpenseKind, "csv", rs, 1, 100);
    assert |e.rows| == 1 by {
      assert |multiset(e.rows)| == |multiset(w)|;
    }
    PermutationIn(e.rows, w, rs[0]);
  }

  // ---- the tables as objects -------------------------------------------------

  /** The table a row of the given model is saved to gets the row
      appended. */
  function WithRow(t: ReportTables, r: Record): ReportTables
  {
    match r
    case Consumption(_, _, _, _, _, _) => t.(consumptions := t.consumptions + [r])
    case Expense(_, _, _, _) => t.(expenses := t.expenses + [r])
    case Wastage(_, _, _, _, _, _, _) => t.(wastages := t.wastages + [r])
  }

  /** `form.instance.user = request.user`. */
  function AssignedTo(r: Record, user: UserId): Record
  {
    r.(owner := user)
  }

  function TableFor(t: ReportTables, r: Record): seq<Record>
  {
    match r
    case Consumption(_, _, _, _, _, _) => t.consumptions
    case Expense(_, _, _, _) => t.expenses
    case Wastage(_, _, _, _, _, _, _) => t.wastages
  }

  /** Appending a row of another user leaves a user's window as it was. */
  lemma WindowAppendOther(rs: seq<Record>, r: Record, user: UserId, today: Day)
    requires r.owner != user
    ensures Window(rs + [r], user, today) == Window(rs, user, today)
  {
    var keep := (x: Record) => InWindow(x, user, today);
    FilterAppend(rs, [r], keep);
    assert [r][1..] == [];
  }

  /** A row saved by a create view belongs to the requester: it is appended
      to the table of its model, keeps the form's date and amount, and
      shows in the requester's reports whenever it is dated in the window.
      The tables keep to their models. */
  lemma CreatedRowOwned(t: ReportTables, form: Record, requester: UserId, today: Day)
    ensures var r := AssignedTo(form, requester); var u := WithRow(t, r);
      TableFor(u, r) == TableFor(t, r) + [r] && u.usage == t.usage
      && r.owner == requester && r.date == form.date && r.Measure() == form.Measure()
      && (r.date >= today - WindowDays ==> r in Window(TableFor(u, r), requester, today))
    ensures WellTyped(t) ==> WellTyped(WithRow(t, AssignedTo(form, requester)))
  {
    var r := AssignedTo(form, requester);
    var rs := TableFor(WithRow(t, r), r);
    assert rs[|rs| - 1] == r;
  }

  /** Saving a row for the requester changes no other user's report of
      any table. */
  lemma CreatedRowHidden(t: ReportTables, form: Record, requester: UserId, other: UserId, today: Day)
    requires other != requester
    ensures var u := WithRow(t, AssignedTo(form, requester));
      Window(u.consumptions, other, today) == Window(t.consumptions, other, today)
      && Window(u.expenses, other, today) == Window(t.expenses, other, today)
      && Window(u.wastages, other, today) == Window(t.wastages, other, today)
  {
    var r := AssignedTo(form, requester);
    WindowAppendOther(TableFor(t, r), r, other, today);
  }

  /** A consumption row saved through the reports app does not reach the
      tables the report rules read: the trend rule reads the products
      app's own consumption log. */
  lemma ConsumptionCreateKeepsRuleInputs(t: ReportTables, form: Record, requester: UserId)
    requires form.Consumption?
    ensures RuleTables(WithRow(t, AssignedTo(form, requester))) == RuleTables(t)
  {
  }

  /** `DashboardView` as written: the report rules run before any figure
      is computed, so when they raise the page is a server error. */
  function DashboardAsWritten(t: ReportTables, requester: UserId, now: Instant): Outcome<Dashboard>
    requires WellTyped(t)
  {
    if ReportRunAsWritten(RuleTables(t), requester, now).raised then Raised("TypeError")
    else Returned(DashboardOf(t, requester, DayOf(now)))
  }

  /** As written, the dashboard fails exactly when the requester's
      products-app consumption from now - 30 days to now - 15 days sums to
      a non-zero quantity, and so does every create view, after its row is
      saved: the saved row never changes whether the rules raise. */
  lemma ViewsAsWrittenRaise(t: ReportTables, form: Record, requester: UserId, now: Instant)
    requires WellTyped(t)
    ensures DashboardAsWritten(t, requester, now).Raised? <==> FirstHalf(t.usage, requester, now) != 0
    ensures ReportRunAsWritten(RuleTables(WithRow(t, AssignedTo(form, requester))), requester, now).raised
      <==> FirstHalf(t.usage, requester, now) != 0
  {
    ReportRunAsWrittenRaises(RuleTables(t), requester, now);
    CreatedRowOwned(t, form, requester, DayOf(now));
    ReportRunAsWrittenRaises(RuleTables(WithRow(t, AssignedTo(form, requester))), requester, now);
  }

  class ReportDatabase {
    var consumptions: seq<Record>
    var expenses: seq<Record>
    var wastages: seq<Record>
    var usage: seq<UsageEntry>

    function State(): ReportTables
      reads this
    {
      ReportTables(consumptions, expenses, wastages, usage)
    }

    constructor(t: ReportTables)
      ensures State() == t
    {
      consumptions, expenses, wastages, usage := t.consumptions, t.expenses, t.wastages, t.usage;
    }

    /** The create views: on a valid form the row is given the requester as
        owner and saved to its table, and then the report rules run for the
        requester; an invalid form saves nothing and runs nothing. */
    method CreateRecord(notes: NotificationStore, form: Record, formValid: bool, requester: UserId, now: Instant)
      returns (saved: bool)
      modifies this, notes
      ensures saved == formValid
      ensures State() == if formValid then WithRow(old(State()), AssignedTo(form, requester)) else old(State())
      ensures notes.notifications == old(notes.notifications)
        + (if formValid then ReportBatch(RuleTables(State()), requester, now) else [])
    {
      if !formValid {
        return false;
      }
      var r := form;
      r := r.(owner := requester);
      match r {
        case Consumption(_, _, _, _, _, _) => consumptions := consumptions + [r];
        case Expense(_, _, _, _) => expenses := expenses + [r];
        case Wastage(_, _, _, _, _, _, _) => wastages := wastages + [r];
      }
      GenerateReportNotifications(notes, Tables(expenses, wastages, usage), requester, now);
      saved := true;
    }

    /** `DashboardView.get_context_data`: run the report rules for the
        requester, then compute the figures. */
    method DashboardView(notes: NotificationStore, requester: UserId, now: Instant) returns (ctx: Dashboard)
      requires WellTyped(State())
      modifies notes
      ensures notes.notifications == old(notes.notifications) + ReportBatch(RuleTables(State()), requester, now)
      ensures ctx == DashboardOf(State(), requester, DayOf(now))
    {
      GenerateReportNotifications(notes, Tables(expenses, wastages, usage), requester, now);
      ctx := DashboardOf(State(), requester, DayOf(now));
    }
  }
}
