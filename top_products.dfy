/** The dashboard's top products: `values('product__name').annotate(
    total_quantity=Sum('quantity'), count=Count('id'))
    .order_by('-total_quantity')[:5]` over the consumption window. */
module TopProducts {
  import opened Common
  import opened Records
  import opened Ordering
  import opened ReportAggregates

  /** One grouped row: a product name, its summed quantity and row count. */
  datatype ProductStat = ProductStat(name: string, totalQuantity: Hundredths, count: nat)

  const TopCount := 5

  predicate DistinctNames(gs: seq<ProductStat>)
  {
    forall i, j :: 0 <= i < j < |gs| ==> gs[i].name != gs[j].name
  }

  predicate NameAbsent(gs: seq<ProductStat>, n: string)
  {
    forall k :: 0 <= k < |gs| ==> gs[k].name != n
  }

  function Names(gs: seq<ProductStat>): set<string>
  {
    if gs == [] then {} else {gs[0].name} + Names(gs[1..])
  }

  /** The product names the rows reference. */
  function RowNames(rs: seq<Record>): set<string>
    requires ProductRows(rs)
  {
    if rs == [] then {} else {rs[0].productName} + RowNames(rs[1..])
  }

  /** Independent references: the summed quantity and the number of the
      rows of product `n`. */
  function NameTotal(rs: seq<Record>, n: string): Hundredths
    requires ProductRows(rs)
  {
    if rs == [] then 0
    else (if rs[0].productName == n then rs[0].quantity else 0) + NameTotal(rs[1..], n)
  }

  function NameCount(rs: seq<Record>, n: string): nat
    requires ProductRows(rs)
  {
    if rs == [] then 0
    else (if rs[0].productName == n then 1 else 0) + NameCount(rs[1..], n)
  }

  /** What the grouped rows say about name `n`: its summed quantity and
      count over all the stats with that name. */
  function GroupTotal(gs: seq<ProductStat>, n: string): Hundredths
  {
    if gs == [] then 0 else (if gs[0].name == n then gs[0].totalQuantity else 0) + GroupTotal(gs[1..], n)
  }

  function GroupCount(gs: seq<ProductStat>, n: string): nat
  {
    if gs == [] then 0 else (if gs[0].name == n then gs[0].count else 0) + GroupCount(gs[1..], n)
  }

  /** Adds one row to its name's stat, or appends a stat for a new name. */
  function AddToGroups(gs: seq<ProductStat>, name: string, q: Hundredths): seq<ProductStat>
  {
    if gs == [] then [ProductStat(name, q, 1)]
    else if gs[0].name == name then [ProductStat(name, gs[0].totalQuantity + q, gs[0].count + 1)] + gs[1..]
    else [gs[0]] + AddToGroups(gs[1..], name, q)
  }

  /** The grouped rows of a window. */
  function Group(rs: seq<Record>): seq<ProductStat>
    requires ProductRows(rs)
  {
    if rs == [] then [] else AddToGroups(Group(rs[1..]), rs[0].productName, rs[0].quantity)
  }

  /** The five largest stats by summed quantity. */
  function Top(rs: seq<Record>): seq<ProductStat>
    requires ProductRows(rs)
  {
    Take(SortDesc(Group(rs), (g: ProductStat) => g.totalQuantity), TopCount)
  }

  lemma ProductRowsTail(rs: seq<Record>)
    requires rs != [] && ProductRows(rs)
    ensures ProductRows(rs[1..]) && !rs[0].Expense?
  {
    assert forall i :: 0 <= i < |rs[1..]| ==> rs[1..][i] == rs[i + 1];
  }

  // ---- one insertion ---------------------------------------------------------

  lemma {:induction false} AddToGroupsNames(gs: seq<ProductStat>, name: string, q: Hundredths)
    ensures Names(AddToGroups(gs, name, q)) == Names(gs) + {name}
  {
    if gs != [] && gs[0].name != name {
      AddToGroupsNames(gs[1..], name, q);
    }
  }

  lemma {:induction false} AddToGroupsAbsent(gs: seq<ProductStat>, name: string, q: Hundredths, n: string)
    requires NameAbsent(gs, n) && n != name
    ensures NameAbsent(AddToGroups(gs, name, q), n)
  {
    if gs != [] && gs[0].name != name {
      assert NameAbsent(gs[1..], n) by {
        forall k | 0 <= k < |gs[1..]| ensures gs[1..][k].name != n {
          assert gs[1..][k] == gs[k + 1];
        }
      }
      AddToGroupsAbsent(gs[1..], name, q, n);
    }
  }

  lemma DistinctTail(gs: seq<ProductStat>)
    requires gs != [] && DistinctNames(gs)
    ensures DistinctNames(gs[1..]) && NameAbsent(gs[1..], gs[0].name)
  {
    forall k | 0 <= k < |gs[1..]| ensures gs[1..][k].name != gs[0].name {
      assert gs[1..][k] == gs[k + 1];
    }
  }

  lemma ConsDistinct(g: ProductStat, gs: seq<ProductStat>)
    requires DistinctNames(gs) && NameAbsent(gs, g.name)
    ensures DistinctNames([g] + gs)
  {
    var r := [g] + gs;
    forall i, j | 0 <= i < j < |r| ensures r[i].name != r[j].name {
      assert r[j] == gs[j - 1];
      if i > 0 { assert r[i] == gs[i - 1]; }
    }
  }

  lemma {:induction false} AddToGroupsDistinct(gs: seq<ProductStat>, name: string, q: Hundredths)
    requires DistinctNames(gs)
    ensures DistinctNames(AddToGroups(gs, name, q))
  {
    if gs != [] {
      DistinctTail(gs);
      if gs[0].name == name {
        ConsDistinct(ProductStat(name, gs[0].totalQuantity + q, gs[0].count + 1), gs[1..]);
      } else {
        AddToGroupsDistinct(gs[1..], name, q);
        AddToGroupsAbsent(gs[1..], name, q, gs[0].name);
        ConsDistinct(gs[0], AddToGroups(gs[1..], name, q));
      }
    }
  }

  lemma {:induction false} AddToGroupsAt(gs: seq<ProductStat>, name: string, q: Hundredths, n: string)
    ensures GroupTotal(AddToGroups(gs, name, q), n) == GroupTotal(gs, n) + (if n == name then q else 0)
    ensures GroupCount(AddToGroups(gs, name, q), n) == GroupCount(gs, n) + (if n == name then 1 else 0)
  {
    if gs != [] {
      var r := AddToGroups(gs, name, q);
      if gs[0].name == name {
        assert r[1..] == gs[1..];
      } else {
        AddToGroupsAt(gs[1..], name, q, n);
        assert r[1..] == AddToGroups(gs[1..], name, q);
      }
    }
  }

  // ---- the grouped rows ------------------------------------------------------

  /** One stat per product name. */
  lemma {:induction false} GroupDistinct(rs: seq<Record>)
    requires ProductRows(rs)
    ensures DistinctNames(Group(rs))
  {
    if rs != [] {
      ProductRowsTail(rs);
      GroupDistinct(rs[1..]);
      AddToGroupsDistinct(Group(rs[1..]), rs[0].productName, rs[0].quantity);
    }
  }

  /** A stat for exactly the names the rows reference. */
  lemma {:induction false} GroupNames(rs: seq<Record>)
    requires ProductRows(rs)
    ensures Names(Group(rs)) == RowNames(rs)
  {
    if rs != [] {
      ProductRowsTail(rs);
      GroupNames(rs[1..]);
      AddToGroupsNames(Group(rs[1..]), rs[0].productName, rs[0].quantity);
    }
  }

  /** The stats of name `n` carry the sum and count of its rows. */
  lemma {:induction false} GroupAt(rs: seq<Record>, n: string)
    requires ProductRows(rs)
    ensures GroupTotal(Group(rs), n) == NameTotal(rs, n)
    ensures GroupCount(Group(rs), n) == NameCount(rs, n)
  {
    if rs != [] {
      ProductRowsTail(rs);
      GroupAt(rs[1..], n);
      AddToGroupsAt(Group(rs[1..]), rs[0].productName, rs[0].quantity, n);
    }
  }

  lemma {:induction false} AbsentAt(gs: seq<ProductStat>, n: string)
    requires NameAbsent(gs, n)
    ensures GroupTotal(gs, n) == 0 && GroupCount(gs, n) == 0
  {
    if gs != [] {
      assert NameAbsent(gs[1..], n) by {
        forall k | 0 <= k < |gs[1..]| ensures gs[1..][k].name != n {
          assert gs[1..][k] == gs[k + 1];
        }
      }
      AbsentAt(gs[1..], n);
    }
  }

  /** With distinct names, the stat at position `i` is the whole of its
      name's entry. */
  lemma {:induction false} StatAt(gs: seq<ProductStat>, i: nat)
    requires DistinctNames(gs) && i < |gs|
    ensures GroupTotal(gs, gs[i].name) == gs[i].totalQuantity
    ensures GroupCount(gs, gs[i].name) == gs[i].count
  {
    DistinctTail(gs);
    if i == 0 {
      AbsentAt(gs[1..], gs[0].name);
    } else {
      assert gs[1..][i - 1] == gs[i];
      StatAt(gs[1..], i - 1);
      assert gs[0].name != gs[i].name;
    }
  }

  /** Every grouped stat carries its name's summed quantity and row count. */
  lemma GroupStat(rs: seq<Record>, g: ProductStat)
    requires ProductRows(rs) && g in Group(rs)
    ensures g.totalQuantity == NameTotal(rs, g.name) && g.count == NameCount(rs, g.name)
  {
    GroupDistinct(rs);
    var i :| 0 <= i < |Group(rs)| && Group(rs)[i] == g;
    StatAt(Group(rs), i);
    GroupAt(rs, g.name);
  }

  // ---- the top five ----------------------------------------------------------

  /** `top_products` has at most five entries, in non-increasing order of
      summed quantity, each a distinct product name of the window with
      that name's summed quantity and row count; it holds all the names
      when there are at most five. */
  lemma TopProductsShape(rs: seq<Record>)
    requires ProductRows(rs)
    ensures |Top(rs)| == if |Group(rs)| < TopCount then |Group(rs)| else TopCount
    ensures NonIncreasing(Top(rs), (g: ProductStat) => g.totalQuantity)
    ensures forall i :: 0 <= i < |Top(rs)| ==> Top(rs)[i].name in RowNames(rs)
    ensures forall i :: 0 <= i < |Top(rs)| ==>
      Top(rs)[i].totalQuantity == NameTotal(rs, Top(rs)[i].name)
      && Top(rs)[i].count == NameCount(rs, Top(rs)[i].name)
  {
    var key := (g: ProductStat) => g.totalQuantity;
    var sorted := SortDesc(Group(rs), key);
    var top := Top(rs);
    assert top == sorted[..|top|];
    GroupNames(rs);
    forall i | 0 <= i < |top|
      ensures top[i].name in RowNames(rs)
      ensures top[i].totalQuantity == NameTotal(rs, top[i].name) && top[i].count == NameCount(rs, top[i].name)
    {
      assert top[i] == sorted[i];
      assert sorted[i] in multiset(Group(rs));
      GroupStat(rs, top[i]);
      NamesMember(Group(rs), top[i]);
    }
    assert NonIncreasing(top, key) by {
      forall i, j | 0 <= i < j < |top| ensures key(top[i]) >= key(top[j]) {
        assert top[i] == sorted[i] && top[j] == sorted[j];
      }
    }
  }

  /** The entries of `top_products` name distinct products, and when
      there are at most five names every one of them is listed. */
  lemma TopProductsNames(rs: seq<Record>)
    requires ProductRows(rs)
    ensures DistinctNames(Top(rs))
    ensures |Group(rs)| <= TopCount ==> Names(Top(rs)) == RowNames(rs)
  {
    var sorted := SortDesc(Group(rs), (g: ProductStat) => g.totalQuantity);
    var top := Top(rs);
    GroupDistinct(rs);
    DistinctPermutation(Group(rs), sorted);
    assert top == sorted[..|top|];
    assert DistinctNames(top) by {
      forall i, j | 0 <= i < j < |top| ensures top[i].name != top[j].name {
        assert top[i] == sorted[i] && top[j] == sorted[j];
      }
    }
    if |Group(rs)| <= TopCount {
      assert top == sorted;
      GroupNames(rs);
      forall n | n in Names(top) ensures n in Names(Group(rs)) {
        var g := NamesWitness(top, n);
        PermutationIn(Group(rs), top, g);
        NamesMember(Group(rs), g);
      }
      forall n | n in Names(Group(rs)) ensures n in Names(top) {
        var g := NamesWitness(Group(rs), n);
        PermutationIn(top, Group(rs), g);
        NamesMember(top, g);
      }
    }
  }

  /** A stat of each listed name. */
  lemma {:induction false} NamesWitness(gs: seq<ProductStat>, n: string) returns (g: ProductStat)
    requires n in Names(gs)
    ensures g in gs && g.name == n
  {
    if gs[0].name == n {
      g := gs[0];
    } else {
      g := NamesWitness(gs[1..], n);
    }
  }

  /** Reordering keeps the names distinct. */
  lemma DistinctPermutation(a: seq<ProductStat>, b: seq<ProductStat>)
    requires DistinctNames(a) && multiset(a) == multiset(b)
    ensures DistinctNames(b)
  {
    forall i, j | 0 <= i < j < |b| ensures b[i].name != b[j].name {
      DistinctPair(a, b, i, j);
    }
  }

  lemma DistinctPair(a: seq<ProductStat>, b: seq<ProductStat>, i: nat, j: nat)
    requires DistinctNames(a) && multiset(a) == multiset(b) && i < j < |b|
    ensures b[i].name != b[j].name
  {
    if b[i].name == b[j].name {
      PermutationIn(a, b, b[i]);
      PermutationIn(a, b, b[j]);
      var p :| 0 <= p < |a| && a[p] == b[i];
      var q :| 0 <= q < |a| && a[q] == b[j];
      assert p == q;
      OccursTwice(b, i, j);
      OccursOnce(a, p);
      assert false;
    }
  }

  lemma OccursTwice(b: seq<ProductStat>, i: nat, j: nat)
    requires i < j < |b| && b[i] == b[j]
    ensures multiset(b)[b[i]] >= 2
  {
    var x := b[i];
    assert b == b[..i] + [x] + b[i + 1..j] + [x] + b[j + 1..];
  }

  lemma OccursOnce(a: seq<ProductStat>, p: nat)
    requires DistinctNames(a) && p < |a|
    ensures multiset(a)[a[p]] == 1
  {
    var x := a[p];
    assert a == a[..p] + [x] + a[p + 1..];
    assert x !in a[..p] by {
      forall k | 0 <= k < p ensures a[..p][k] != x {
        assert a[..p][k] == a[k];
      }
    }
    var tail := a[p + 1..];
    assert x !in tail by {
      forall k | 0 <= k < |tail| ensures tail[k] != x {
        assert tail[k] == a[p + 1 + k];
      }
    }
  }

  lemma {:induction false} NamesMember(gs: seq<ProductStat>, g: ProductStat)
    requires g in gs
    ensures g.name in Names(gs)
  {
    if gs[0] != g {
      assert g in gs[1..];
      NamesMember(gs[1..], g);
    }
  }

  /** A product left out of the top five has a summed quantity no larger
      than any product in it. */
  lemma TopProductsDominate(rs: seq<Record>, g: ProductStat, i: nat)
    requires ProductRows(rs)
    requires g in Group(rs) && g !in Top(rs) && i < |Top(rs)|
    ensures g.totalQuantity <= Top(rs)[i].totalQuantity
  {
    var key := (g: ProductStat) => g.totalQuantity;
    var sorted := SortDesc(Group(rs), key);
    var top := Top(rs);
    assert g in multiset(sorted);
    var j :| 0 <= j < |sorted| && sorted[j] == g;
    assert top == sorted[..|top|];
    assert j >= |top|;
    assert top[i] == sorted[i];
    assert key(sorted[i]) >= key(sorted[j]);
  }
}
