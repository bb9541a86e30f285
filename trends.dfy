/** The month trend series of reports/views.py: `annotate(month=
    TruncMonth(<date>)).values('month').annotate(total=Sum(<field>))
    .order_by('month')` over a report window, and the loop that rewrites
    each point's month as "%Y-%m-%d" text before it is serialised. */
module TrendSeries {
  import opened Common
  import opened Records
  import opened Calendar
  import opened ReportAggregates

  /** One point of the series: a month index and that month's sum. */
  datatype TrendPoint = TrendPoint(month: int, total: Hundredths)

  predicate StrictlyAscending(s: seq<TrendPoint>)
  {
    forall i, j :: 0 <= i < j < |s| ==> s[i].month < s[j].month
  }

  /** Every point lies strictly after month `m`. */
  predicate AllAfter(s: seq<TrendPoint>, m: int)
  {
    forall k :: 0 <= k < |s| ==> m < s[k].month
  }

  function Months(s: seq<TrendPoint>): set<int>
  {
    if s == [] then {} else {s[0].month} + Months(s[1..])
  }

  /** The months in which some row is dated. */
  function RowMonths(rs: seq<Record>): set<int>
  {
    if rs == [] then {} else {MonthIndex(rs[0].date)} + RowMonths(rs[1..])
  }

  /** The total a series shows for month `m` (0 when the month is absent). */
  function SeriesAt(s: seq<TrendPoint>, m: int): Hundredths
  {
    if s == [] then 0 else (if s[0].month == m then s[0].total else 0) + SeriesAt(s[1..], m)
  }

  function SeriesTotal(s: seq<TrendPoint>): Hundredths
  {
    if s == [] then 0 else s[0].total + SeriesTotal(s[1..])
  }

  /** Independent reference: the sum of the rows dated in month `m`. */
  function MonthTotal(rs: seq<Record>, m: int): Hundredths
  {
    if rs == [] then 0
    else (if MonthIndex(rs[0].date) == m then rs[0].Measure() else 0) + MonthTotal(rs[1..], m)
  }

  /** Adds one row's value to its month's point, inserting a new point in
      month order when the month has none yet. */
  function AddToSeries(s: seq<TrendPoint>, month: int, v: Hundredths): seq<TrendPoint>
  {
    if s == [] then [TrendPoint(month, v)]
    else if s[0].month == month then [TrendPoint(month, s[0].total + v)] + s[1..]
    else if month < s[0].month then [TrendPoint(month, v)] + s
    else [s[0]] + AddToSeries(s[1..], month, v)
  }

  /** The series of a window: the rows folded into their months. */
  function Trends(w: seq<Record>): seq<TrendPoint>
  {
    if w == [] then [] else AddToSeries(Trends(w[1..]), MonthIndex(w[0].date), w[0].Measure())
  }

  // ---- one insertion ---------------------------------------------------------

  lemma {:induction false} AddToSeriesMonths(s: seq<TrendPoint>, month: int, v: Hundredths)
    ensures Months(AddToSeries(s, month, v)) == Months(s) + {month}
  {
    if s != [] && s[0].month != month && month > s[0].month {
      AddToSeriesMonths(s[1..], month, v);
    }
  }

  lemma {:induction false} AddToSeriesAfter(s: seq<TrendPoint>, month: int, v: Hundredths, m: int)
    requires AllAfter(s, m) && m < month
    ensures AllAfter(AddToSeries(s, month, v), m)
  {
    if s != [] && s[0].month != month && month > s[0].month {
      assert AllAfter(s[1..], m) by {
        forall k | 0 <= k < |s[1..]| ensures m < s[1..][k].month {
          assert s[1..][k] == s[k + 1];
        }
      }
      AddToSeriesAfter(s[1..], month, v, m);
    }
  }

  lemma ConsAscending(p: TrendPoint, s: seq<TrendPoint>)
    requires StrictlyAscending(s) && AllAfter(s, p.month)
    ensures StrictlyAscending([p] + s)
  {
    var r := [p] + s;
    forall i, j | 0 <= i < j < |r| ensures r[i].month < r[j].month {
      assert r[j] == s[j - 1];
      if i > 0 { assert r[i] == s[i - 1]; }
    }
  }

  lemma AscendingTail(s: seq<TrendPoint>)
    requires s != [] && StrictlyAscending(s)
    ensures StrictlyAscending(s[1..]) && AllAfter(s[1..], s[0].month)
  {
    forall k | 0 <= k < |s[1..]| ensures s[0].month < s[1..][k].month {
      assert s[1..][k] == s[k + 1];
    }
  }

  lemma {:induction false} AddToSeriesAscending(s: seq<TrendPoint>, month: int, v: Hundredths)
    requires StrictlyAscending(s)
    ensures StrictlyAscending(AddToSeries(s, month, v))
  {
    if s != [] {
      AscendingTail(s);
      if s[0].month == month {
        ConsAscending(TrendPoint(month, s[0].total + v), s[1..]);
      } else if month < s[0].month {
        forall k | 0 <= k < |s| ensures month < s[k].month {
          if k > 0 { assert s[0].month < s[k].month; }
        }
        ConsAscending(TrendPoint(month, v), s);
      } else {
        AddToSeriesAscending(s[1..], month, v);
        AddToSeriesAfter(s[1..], month, v, s[0].month);
        ConsAscending(s[0], AddToSeries(s[1..], month, v));
      }
    }
  }

  lemma {:induction false} AddToSeriesAt(s: seq<TrendPoint>, month: int, v: Hundredths, m: int)
    ensures SeriesAt(AddToSeries(s, month, v), m) == SeriesAt(s, m) + (if m == month then v else 0)
  {
    if s != [] {
      var r := AddToSeries(s, month, v);
      if s[0].month == month {
        assert r[1..] == s[1..];
      } else if month < s[0].month {
        assert r[1..] == s;
      } else {
        AddToSeriesAt(s[1..], month, v, m);
        assert r[1..] == AddToSeries(s[1..], month, v);
      }
    }
  }

  lemma {:induction false} AddToSeriesTotal(s: seq<TrendPoint>, month: int, v: Hundredths)
    ensures SeriesTotal(AddToSeries(s, month, v)) == SeriesTotal(s) + v
  {
    if s != [] {
      var r := AddToSeries(s, month, v);
      if s[0].month == month {
        assert r[1..] == s[1..];
      } else if month < s[0].month {
        assert r[1..] == s;
      } else {
        AddToSeriesTotal(s[1..], month, v);
        assert r[1..] == AddToSeries(s[1..], month, v);
      }
    }
  }

  // ---- the whole series ------------------------------------------------------

  /** The points come in strictly ascending month order, so no month
      appears twice. */
  lemma {:induction false} TrendsAscending(w: seq<Record>)
    ensures StrictlyAscending(Trends(w))
  {
    if w != [] {
      TrendsAscending(w[1..]);
      AddToSeriesAscending(Trends(w[1..]), MonthIndex(w[0].date), w[0].Measure());
    }
  }

  /** There is a point for exactly the months in which the window has rows. */
  lemma {:induction false} TrendsMonths(w: seq<Record>)
    ensures Months(Trends(w)) == RowMonths(w)
  {
    if w != [] {
      TrendsMonths(w[1..]);
      AddToSeriesMonths(Trends(w[1..]), MonthIndex(w[0].date), w[0].Measure());
    }
  }

  /** Each month's point carries the sum of that month's rows. */
  lemma {:induction false} TrendsAt(w: seq<Record>, m: int)
    ensures SeriesAt(Trends(w), m) == MonthTotal(w, m)
  {
    if w != [] {
      TrendsAt(w[1..], m);
      AddToSeriesAt(Trends(w[1..]), MonthIndex(w[0].date), w[0].Measure(), m);
    }
  }

  /** The points together add up to the window total. */
  lemma {:induction false} TrendsTotal(w: seq<Record>)
    ensures SeriesTotal(Trends(w)) == Total(w)
  {
    if w != [] {
      TrendsTotal(w[1..]);
      AddToSeriesTotal(Trends(w[1..]), MonthIndex(w[0].date), w[0].Measure());
    }
  }

  /** In a series without repeated months, the point of month `s[i].month`
      is the only one counted by SeriesAt. */
  lemma {:induction false} SeriesAtPoint(s: seq<TrendPoint>, i: nat)
    requires StrictlyAscending(s) && i < |s|
    ensures SeriesAt(s, s[i].month) == s[i].total
  {
    AscendingTail(s);
    if i == 0 {
      SeriesAtAbsent(s[1..], s[0].month);
    } else {
      assert s[1..][i - 1] == s[i];
      SeriesAtPoint(s[1..], i - 1);
      assert s[0].month < s[i].month;
    }
  }

  lemma {:induction false} SeriesAtAbsent(s: seq<TrendPoint>, m: int)
    requires AllAfter(s, m)
    ensures SeriesAt(s, m) == 0
  {
    if s != [] {
      assert AllAfter(s[1..], m) by {
        forall k | 0 <= k < |s[1..]| ensures m < s[1..][k].month {
          assert s[1..][k] == s[k + 1];
        }
      }
      SeriesAtAbsent(s[1..], m);
    }
  }

  /** Every point of the series carries the sum of its month's rows. */
  lemma TrendPointTotal(w: seq<Record>, i: nat)
    requires i < |Trends(w)|
    ensures Trends(w)[i].total == MonthTotal(w, Trends(w)[i].month)
  {
    TrendsAscending(w);
    SeriesAtPoint(Trends(w), i);
    TrendsAt(w, Trends(w)[i].month);
  }

  // ---- labelling the months --------------------------------------------------

  /** The `month` value of a point: the truncated date, or the text that
      replaces it. */
  datatype MonthValue = Truncated(index: int) | Text(text: string)

  datatype Trend = Trend(month: MonthValue, total: Hundredths)

  /** The series as the query yields it, before labelling. */
  function AsQueried(s: seq<TrendPoint>): (r: seq<Trend>)
    ensures |r| == |s|
    ensures forall i :: 0 <= i < |s| ==> r[i] == Trend(Truncated(s[i].month), s[i].total)
  {
    if s == [] then [] else [Trend(Truncated(s[0].month), s[0].total)] + AsQueried(s[1..])
  }

  function Labelled(t: Trend): Trend
  {
    match t.month
    case Truncated(m) => Trend(Text(MonthLabel(m)), t.total)
    case Text(_) => t
  }

  /** `for trend in trends: trend['month'] = trend['month'].strftime(
      '%Y-%m-%d')`: each point's month is replaced by its label and its
      total is kept. */
  method LabelMonths(a: array<Trend>)
    modifies a
    ensures forall i :: 0 <= i < a.Length ==> a[i] == Labelled(old(a[i]))
  {
    var i := 0;
    while i < a.Length
      invariant 0 <= i <= a.Length
      invariant forall k :: 0 <= k < i ==> a[k] == Labelled(old(a[k]))
      invariant forall k :: i <= k < a.Length ==> a[k] == old(a[k])
    {
      a[i] := Labelled(a[i]);
      i := i + 1;
    }
  }

  /** After labelling, a point of a series of months in years 0000-9999
      carries a label that reads back as its month. */
  lemma LabelsReadBack(s: seq<TrendPoint>, i: nat)
    requires i < |s| && 0 <= s[i].month < 12 * 10000
    ensures Labelled(AsQueried(s)[i]) == Trend(Text(MonthLabel(s[i].month)), s[i].total)
    ensures ParseMonthLabel(MonthLabel(s[i].month)) == Some(s[i].month)
  {
    MonthLabelRoundTrip(s[i].month);
  }

  /** The label of a point differs from the label of every point of
      another month, so the labelled series keeps one label per month. */
  lemma LabelDiffersFromOtherMonths(s: seq<TrendPoint>, i: nat)
    requires i < |s| && 0 <= s[i].month < 12 * 10000
    ensures forall j :: 0 <= j < |s| && 0 <= s[j].month < 12 * 10000 && s[j].month != s[i].month ==>
                         MonthLabel(s[j].month) != MonthLabel(s[i].month)
  {
    forall j | 0 <= j < |s| && 0 <= s[j].month < 12 * 10000 && s[j].month != s[i].month
      ensures MonthLabel(s[j].month) != MonthLabel(s[i].month)
    {
      MonthLabelsDistinct(s[j].month, s[i].month);
    }
  }
}
