/** The read-only report pipelines of reports/views.py over one table: the
    trailing 30-day window of the requester's rows, its newest-first
    listing, count, sum, average and number of distinct products. */
module ReportAggregates {
  import opened Common
  import opened Records
  import opened Ordering

  /** Length of the trailing report window, in days. */
  const WindowDays := 30

  // ---- window ----------------------------------------------------------------

  /** `filter(user=user, <date>__gte=now - timedelta(days=30))`: the
      DateField is compared with the date of the cut-off, and the window
      has no upper bound. */
  predicate InWindow(r: Record, user: UserId, today: Day)
  {
    r.owner == user && r.date >= today - WindowDays
  }

  /** The rows a report sees: exactly the requester's rows dated on or
      after today - 30, in table order, each as often as the table holds
      it. */
  function Window(rs: seq<Record>, user: UserId, today: Day): (w: seq<Record>)
    ensures forall i :: 0 <= i < |w| ==> w[i] in rs && w[i].owner == user && w[i].date >= today - WindowDays
    ensures forall i :: 0 <= i < |rs| && rs[i].owner == user && rs[i].date >= today - WindowDays ==> rs[i] in w
    ensures forall x :: multiset(w)[x] == if InWindow(x, user, today) then multiset(rs)[x] else 0
  {
    FilterMembers(rs, r => InWindow(r, user, today));
    forall x ensures multiset(Filter(rs, r => InWindow(r, user, today)))[x]
                     == if InWindow(x, user, today) then multiset(rs)[x] else 0
    {
      FilterCount(rs, r => InWindow(r, user, today), x);
    }
    Filter(rs, r => InWindow(r, user, today))
  }

  /** `order_by('-<date>')`: the same rows, newest first. */
  function NewestFirst(w: seq<Record>): (r: seq<Record>)
    ensures multiset(r) == multiset(w)
    ensures forall i, j :: 0 <= i < j < |r| ==> r[i].date >= r[j].date
  {
    SortDesc(w, (x: Record) => x.date)
  }

  // ---- sum, count, average ---------------------------------------------------

  /** `aggregate(Sum(<field>))['total'] or 0`: the sum of the summed
      field over the rows, 0 for no rows. */
  function Total(rs: seq<Record>): Hundredths
  {
    if rs == [] then 0 else rs[0].Measure() + Total(rs[1..])
  }

  lemma {:induction false} TotalAppend(a: seq<Record>, b: seq<Record>)
    ensures Total(a + b) == Total(a) + Total(b)
  {
    if a == [] {
      assert a + b == b;
    } else {
      assert (a + b)[1..] == a[1..] + b;
      TotalAppend(a[1..], b);
    }
  }

  /** The sum does not depend on the order of the rows, so the newest-first
      listing and the unordered window have the same total. */
  lemma {:induction false} TotalPermutation(a: seq<Record>, b: seq<Record>)
    requires multiset(a) == multiset(b)
    ensures Total(a) == Total(b)
  {
    if a == [] {
      assert |b| == |multiset(b)| == 0;
    } else {
      assert a[0] in multiset(b);
      var k :| 0 <= k < |b| && b[k] == a[0];
      var rest := b[..k] + b[k + 1..];
      assert multiset(a[1..]) == multiset(rest) by {
        MultisetRemove(b, k);
        assert a == [a[0]] + a[1..];
        assert multiset(a[1..]) == multiset(a) - multiset{a[0]};
      }
      TotalPermutation(a[1..], rest);
      TotalRemove(b, k);
    }
  }

  /** Taking row `k` out of a sequence takes its value out of the sum. */
  lemma TotalRemove(b: seq<Record>, k: nat)
    requires k < |b|
    ensures Total(b) == b[k].Measure() + Total(b[..k] + b[k + 1..])
  {
    assert b == b[..k] + [b[k]] + b[k + 1..];
    TotalAppend(b[..k] + [b[k]], b[k + 1..]);
    TotalAppend(b[..k], [b[k]]);
    TotalAppend(b[..k], b[k + 1..]);
  }

  lemma NewestFirstTotal(w: seq<Record>)
    ensures Total(NewestFirst(w)) == Total(w) && |NewestFirst(w)| == |w|
  {
    TotalPermutation(NewestFirst(w), w);
    assert |multiset(NewestFirst(w))| == |multiset(w)|;
  }

  /** `aggregate(Avg(<field>))['avg'] or 0`: zero for no rows, otherwise
      the exact mean, so that the mean times the count is the total. */
  function Average(rs: seq<Record>): (avg: real)
    ensures |rs| == 0 ==> avg == 0.0
    ensures |rs| > 0 ==> avg * (|rs| as real) == Total(rs) as real
  {
    if |rs| == 0 then 0.0 else Total(rs) as real / |rs| as real
  }

  /** Every row's summed field lies in [lo, hi]. */
  predicate MeasuresWithin(rs: seq<Record>, lo: int, hi: int)
  {
    forall i :: 0 <= i < |rs| ==> lo <= rs[i].Measure() <= hi
  }

  lemma {:induction false} TotalBounds(rs: seq<Record>, lo: int, hi: int)
    requires MeasuresWithin(rs, lo, hi)
    ensures lo * |rs| <= Total(rs) <= hi * |rs|
  {
    if rs != [] {
      assert MeasuresWithin(rs[1..], lo, hi) by {
        forall i | 0 <= i < |rs[1..]| ensures lo <= rs[1..][i].Measure() <= hi {
          assert rs[1..][i] == rs[i + 1];
        }
      }
      TotalBounds(rs[1..], lo, hi);
      assert lo <= rs[0].Measure() <= hi;
      ScaleStep(lo, |rs|);
      ScaleStep(hi, |rs|);
    }
  }

  lemma ScaleStep(c: int, n: nat)
    requires n > 0
    ensures c * n == c + c * (n - 1)
  {
  }

  lemma {:induction false} CastProduct(c: int, n: nat)
    ensures (c * n) as real == c as real * n as real
  {
    if n > 0 {
      ScaleStep(c, n);
      CastProduct(c, n - 1);
    }
  }

  /** The average lies between the smallest and the largest value. */
  lemma AverageBounds(rs: seq<Record>, lo: int, hi: int)
    requires |rs| > 0 && MeasuresWithin(rs, lo, hi)
    ensures lo as real <= Average(rs) <= hi as real
  {
    TotalBounds(rs, lo, hi);
    MeanBetween(Average(rs), |rs|, lo, hi, Total(rs));
  }

  /** A mean of `n` values with sum `t` lies between any bounds of the values. */
  lemma MeanBetween(avg: real, n: nat, lo: int, hi: int, t: int)
    requires n > 0 && avg * n as real == t as real && lo * n <= t <= hi * n
    ensures lo as real <= avg <= hi as real
  {
    CastProduct(lo, n);
    CastProduct(hi, n);
    RealMeanBetween(avg, n as real, lo as real, hi as real, t as real);
  }

  lemma RealMeanBetween(avg: real, n: real, lo: real, hi: real, t: real)
    requires n > 0.0 && avg * n == t && lo * n <= t <= hi * n
    ensures lo <= avg <= hi
  {
  }

  // ---- distinct products -----------------------------------------------------

  /** Rows that reference a product (consumption and wastage rows). */
  predicate ProductRows(rs: seq<Record>)
  {
    forall i :: 0 <= i < |rs| ==> !rs[i].Expense?
  }

  /** `values('product').distinct()`. */
  function ProductIds(rs: seq<Record>): set<ProductId>
  {
    if rs == [] then {}
    else (if rs[0].Expense? then {} else {rs[0].product}) + ProductIds(rs[1..])
  }

  lemma {:induction false} ProductIdsMembers(rs: seq<Record>, p: ProductId)
    ensures p in ProductIds(rs) <==> exists i :: 0 <= i < |rs| && !rs[i].Expense? && rs[i].product == p
  {
    if rs != [] {
      ProductIdsMembers(rs[1..], p);
      if exists i :: 0 <= i < |rs| && !rs[i].Expense? && rs[i].product == p {
        var i :| 0 <= i < |rs| && !rs[i].Expense? && rs[i].product == p;
        if i > 0 { assert rs[1..][i - 1] == rs[i]; }
      }
      if exists i :: 0 <= i < |rs[1..]| && !rs[1..][i].Expense? && rs[1..][i].product == p {
        var i :| 0 <= i < |rs[1..]| && !rs[1..][i].Expense? && rs[1..][i].product == p;
        assert rs[i + 1] == rs[1..][i];
      }
    }
  }

  lemma {:induction false} ProductIdsBound(rs: seq<Record>)
    ensures |ProductIds(rs)| <= |rs|
    ensures ProductRows(rs) && |rs| > 0 ==> |ProductIds(rs)| > 0
  {
    if rs != [] {
      ProductIdsBound(rs[1..]);
      var head: set<ProductId> := if rs[0].Expense? then {} else {rs[0].product};
      assert |head + ProductIds(rs[1..])| <= |head| + |ProductIds(rs[1..])|;
      if ProductRows(rs) {
        assert rs[0].product in ProductIds(rs);
      }
    }
  }

  /** `values('product').distinct().count()`: never more than the number
      of rows, and positive exactly when there is a row. */
  function DistinctProducts(rs: seq<Record>): (n: nat)
    requires ProductRows(rs)
    ensures n <= |rs|
    ensures n == 0 <==> |rs| == 0
  {
    ProductIdsBound(rs);
    |ProductIds(rs)|
  }
}
