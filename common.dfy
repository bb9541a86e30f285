/** Shared vocabulary of the model: identifiers, the encodings of dates and
    two-place decimals, order-preserving filtering, and the decimal text
    forms that notification messages print. */
module Common {

  datatype Option<+T> = None | Some(value: T)

  /** What a Python call does: return a value, or raise an exception of the
      named class. */
  datatype Outcome<+T> = Returned(value: T) | Raised(exception: string)

  /** Primary key of a user account. */
  type UserId = nat
  /** Primary key of a product. */
  type ProductId = nat
  /** A calendar date as a day number; day 0 is 1970-01-01. */
  type Day = int
  /** A DecimalField(decimal_places=2) value, counted in hundredths. */
  type Hundredths = int
  /** A DateTimeField value, in seconds since 1970-01-01T00:00:00 UTC. */
  type Instant = int

  const SecondsPerDay := 86400

  /** The calendar date of an instant (`.date()`, in UTC). */
  function DayOf(t: Instant): (d: Day)
    ensures d * SecondsPerDay <= t < (d + 1) * SecondsPerDay
  {
    t / SecondsPerDay
  }

  /** The elements of `s` that `keep` accepts, in their original order
      (what a queryset `.filter(...)` yields). */
  function Filter<T>(s: seq<T>, keep: T -> bool): (r: seq<T>)
    ensures |r| <= |s|
  {
    if s == [] then []
    else (if keep(s[0]) then [s[0]] else []) + Filter(s[1..], keep)
  }

  /** Exactly the accepted elements are kept. */
  lemma {:induction false} FilterMembers<T>(s: seq<T>, keep: T -> bool)
    ensures forall i :: 0 <= i < |Filter(s, keep)| ==> Filter(s, keep)[i] in s && keep(Filter(s, keep)[i])
    ensures forall i :: 0 <= i < |s| && keep(s[i]) ==> s[i] in Filter(s, keep)
  {
    if s != [] {
      FilterMembers(s[1..], keep);
      var r, t := Filter(s, keep), Filter(s[1..], keep);
      var h := if keep(s[0]) then [s[0]] else [];
      assert r == h + t;
      forall i | 0 <= i < |r| ensures r[i] in s && keep(r[i]) {
        if i >= |h| {
          assert r[i] == t[i - |h|];
          assert t[i - |h|] in s[1..];
        }
      }
      forall i | 0 <= i < |s| && keep(s[i]) ensures s[i] in r {
        if i > 0 {
          assert s[i] == s[1..][i - 1];
          assert s[i] in t;
        }
      }
    }
  }

  /** Each accepted value is kept as often as it occurs, and no other
      value is kept. */
  lemma {:induction false} FilterCount<T>(s: seq<T>, keep: T -> bool, x: T)
    ensures multiset(Filter(s, keep))[x] == if keep(x) then multiset(s)[x] else 0
  {
    if s != [] {
      FilterCount(s[1..], keep, x);
      assert s == [s[0]] + s[1..];
    }
  }

  /** Nothing is kept exactly when no element is accepted. */
  lemma FilterEmpty<T>(s: seq<T>, keep: T -> bool)
    ensures Filter(s, keep) == [] <==> forall i :: 0 <= i < |s| ==> !keep(s[i])
  {
    FilterMembers(s, keep);
    var r := Filter(s, keep);
    if r != [] {
      assert r[0] in s && keep(r[0]);
      var j :| 0 <= j < |s| && s[j] == r[0];
      assert keep(s[j]);
    }
  }

  lemma {:induction false} FilterAppend<T>(a: seq<T>, b: seq<T>, keep: T -> bool)
    ensures Filter(a + b, keep) == Filter(a, keep) + Filter(b, keep)
  {
    if a == [] {
      assert a + b == b;
    } else {
      var h := if keep(a[0]) then [a[0]] else [];
      assert (a + b)[0] == a[0] && (a + b)[1..] == a[1..] + b;
      assert Filter(a + b, keep) == h + Filter(a[1..] + b, keep);
      FilterAppend(a[1..], b, keep);
      assert Filter(a, keep) == h + Filter(a[1..], keep);
    }
  }

  /** Taking element `k` out of a sequence takes one copy of it out of the
      multiset. */
  lemma MultisetRemove<T>(b: seq<T>, k: nat)
    requires k < |b|
    ensures multiset(b[..k] + b[k + 1..]) == multiset(b) - multiset{b[k]}
  {
    assert b == b[..k] + [b[k]] + b[k + 1..];
  }

  lemma FilterRemove<T>(b: seq<T>, k: nat, keep: T -> bool)
    requires k < |b|
    ensures |Filter(b, keep)| == (if keep(b[k]) then 1 else 0) + |Filter(b[..k] + b[k + 1..], keep)|
  {
    assert b == b[..k] + [b[k]] + b[k + 1..];
    FilterAppend(b[..k] + [b[k]], b[k + 1..], keep);
    FilterAppend(b[..k], [b[k]], keep);
    FilterAppend(b[..k], b[k + 1..], keep);
    assert [b[k]][1..] == [];
  }

  /** Two permutations of one another have equally many accepted
      elements. */
  lemma {:induction false} FilterPermutation<T>(a: seq<T>, b: seq<T>, keep: T -> bool)
    requires multiset(a) == multiset(b)
    ensures |Filter(a, keep)| == |Filter(b, keep)|
  {
    if a == [] {
      assert |b| == |multiset(b)| == 0;
    } else {
      assert a[0] in multiset(b);
      var k :| 0 <= k < |b| && b[k] == a[0];
      var rest := b[..k] + b[k + 1..];
      assert multiset(a[1..]) == multiset(rest) by {
        MultisetRemove(b, k);
        assert a == [a[0]] + a[1..];
        assert multiset(a[1..]) == multiset(a) - multiset{a[0]};
      }
      FilterPermutation(a[1..], rest, keep);
      FilterRemove(b, k, keep);
    }
  }

  /** A sequence in which every element is accepted is its own filter. */
  lemma {:induction false} FilterKeepsAll<T>(s: seq<T>, keep: T -> bool)
    requires forall i :: 0 <= i < |s| ==> keep(s[i])
    ensures Filter(s, keep) == s
  {
    if s != [] {
      FilterKeepsAll(s[1..], keep);
      assert s == [s[0]] + s[1..];
    }
  }

  /** An element of a sequence is an element of any permutation of it. */
  lemma PermutationIn<T>(a: seq<T>, b: seq<T>, x: T)
    requires multiset(a) == multiset(b) && x in b
    ensures x in a
  {
    assert x in multiset(b);
  }

  /** Regrouping appends, for a table that grows batch by batch. */
  lemma AppendThree<T>(s0: seq<T>, a: seq<T>, b: seq<T>, c: seq<T>)
    ensures s0 + a + b + c == s0 + (a + b + c)
  {
  }

  lemma AppendFour<T>(s0: seq<T>, a: seq<T>, b: seq<T>, c: seq<T>, d: seq<T>)
    ensures s0 + a + b + c + d == s0 + (a + b + c + d)
  {
  }

  /** `f` applied to every element, in order. */
  function Map<A, B>(s: seq<A>, f: A -> B): (r: seq<B>)
    ensures |r| == |s|
  {
    if s == [] then [] else [f(s[0])] + Map(s[1..], f)
  }

  lemma {:induction false} MapAt<A, B>(s: seq<A>, f: A -> B)
    ensures |Map(s, f)| == |s|
    ensures forall i :: 0 <= i < |s| ==> Map(s, f)[i] == f(s[i])
  {
    if s != [] {
      MapAt(s[1..], f);
    }
  }

  lemma MapIndex<A, B>(s: seq<A>, f: A -> B, i: nat)
    requires i < |s|
    ensures |Map(s, f)| == |s| && Map(s, f)[i] == f(s[i])
  {
    MapAt(s, f);
  }

  /** Mapping two permutations of one another gives two permutations of
      one another. */
  lemma {:induction false} MapPermutation<A, B>(a: seq<A>, b: seq<A>, f: A -> B)
    requires multiset(a) == multiset(b)
    ensures multiset(Map(a, f)) == multiset(Map(b, f))
  {
    if a == [] {
      assert |b| == |multiset(b)| == 0;
    } else {
      assert a[0] in multiset(b);
      var k :| 0 <= k < |b| && b[k] == a[0];
      var rest := b[..k] + b[k + 1..];
      assert multiset(a[1..]) == multiset(rest) by {
        MultisetRemove(b, k);
        assert a == [a[0]] + a[1..];
        assert multiset(a[1..]) == multiset(a) - multiset{a[0]};
      }
      MapPermutation(a[1..], rest, f);
      MapRemove(b, k, f);
      assert multiset(Map(a, f)) == multiset{f(a[0])} + multiset(Map(a[1..], f)) by {
        assert Map(a, f) == [f(a[0])] + Map(a[1..], f);
      }
      PutBack(f(a[0]), multiset(Map(b, f)), multiset(Map(rest, f)));
    }
  }

  lemma PutBack<T>(x: T, m: multiset<T>, r: multiset<T>)
    requires x in m && r == m - multiset{x}
    ensures multiset{x} + r == m
  {
  }

  lemma {:induction false} MapAppend<A, B>(a: seq<A>, b: seq<A>, f: A -> B)
    ensures Map(a + b, f) == Map(a, f) + Map(b, f)
  {
    if a == [] {
      assert a + b == b;
    } else {
      assert (a + b)[1..] == a[1..] + b;
      MapAppend(a[1..], b, f);
    }
  }

  lemma MapRemove<A, B>(b: seq<A>, k: nat, f: A -> B)
    requires k < |b|
    ensures f(b[k]) in multiset(Map(b, f))
    ensures multiset(Map(b[..k] + b[k + 1..], f)) == multiset(Map(b, f)) - multiset{f(b[k])}
  {
    MapSplit(b, k, f);
    MapAppend(b[..k], b[k + 1..], f);
    MultisetMiddle(Map(b[..k], f), f(b[k]), Map(b[k + 1..], f));
  }

  lemma {:induction false} MapSplit<A, B>(b: seq<A>, k: nat, f: A -> B)
    requires k < |b|
    ensures Map(b, f) == Map(b[..k], f) + ([f(b[k])] + Map(b[k + 1..], f))
  {
    if k == 0 {
      assert b[..0] == [] && b[1..] == b[k + 1..];
    } else {
      var t := b[1..];
      MapSplit(t, k - 1, f);
      assert t[..k - 1] == b[..k][1..] && t[k - 1] == b[k] && t[k..] == b[k + 1..];
    }
  }

  lemma MultisetMiddle<T>(x: seq<T>, v: T, y: seq<T>)
    ensures v in multiset(x + ([v] + y))
    ensures multiset(x + y) == multiset(x + ([v] + y)) - multiset{v}
  {
    assert multiset(x + ([v] + y)) == multiset(x) + multiset{v} + multiset(y);
  }

  // ---- decimal text -------------------------------------------------------

  predicate IsDigit(c: char) { '0' <= c <= '9' }

  predicate AllDigits(s: string) { forall i :: 0 <= i < |s| ==> IsDigit(s[i]) }

  function DigitChar(d: nat): (c: char)
    requires d < 10
    ensures IsDigit(c) && (c as int) - ('0' as int) == d
  {
    ('0' as int + d) as char
  }

  /** `str(n)` for a non-negative integer: its decimal digits without
      leading zeros. */
  function NatStr(n: nat): (s: string)
    ensures 1 <= |s|
    ensures AllDigits(s)
  {
    if n < 10 then [DigitChar(n)] else NatStr(n / 10) + [DigitChar(n % 10)]
  }

  /** `str(i)` for any integer. */
  function IntStr(i: int): string
  {
    if i < 0 then "-" + NatStr(-i) else NatStr(i)
  }

  function DigitValue(c: char): nat
    requires IsDigit(c)
  {
    (c as int) - ('0' as int)
  }

  /** The value of a string of decimal digits (leading zeros allowed). */
  function ParseNat(s: string): nat
    requires AllDigits(s)
  {
    if s == [] then 0
    else
      assert IsDigit(s[|s| - 1]);
      ParseNat(s[..|s| - 1]) * 10 + DigitValue(s[|s| - 1])
  }

  lemma {:induction false} ParseNatStr(n: nat)
    ensures ParseNat(NatStr(n)) == n
  {
    if n >= 10 {
      var s := NatStr(n);
      assert s[..|s| - 1] == NatStr(n / 10);
      ParseNatStr(n / 10);
    }
  }

  /** Different numbers print differently: a message that shows a number
      determines that number. */
  lemma NatStrInjective(m: nat, n: nat)
    requires NatStr(m) == NatStr(n)
    ensures m == n
  {
    ParseNatStr(m);
    ParseNatStr(n);
  }

  function Zeros(k: nat): (z: string)
    ensures |z| == k && forall i :: 0 <= i < k ==> z[i] == '0'
  {
    if k == 0 then [] else Zeros(k - 1) + ['0']
  }

  /** `s` padded on the left with zeros to at least `width` characters
      (the `%Y`, `%m`, `%d` and `:02d` conversions). */
  function PadLeft(s: string, width: nat): (r: string)
    ensures |r| == if |s| < width then width else |s|
    ensures r[|r| - |s|..] == s
  {
    if |s| < width then Zeros(width - |s|) + s else s
  }

  function Pow10(k: nat): nat
  {
    if k == 0 then 1 else 10 * Pow10(k - 1)
  }

  lemma {:induction false} ParseNatAppend(a: string, b: string)
    requires AllDigits(a) && AllDigits(b)
    ensures AllDigits(a + b)
    ensures ParseNat(a + b) == ParseNat(a) * Pow10(|b|) + ParseNat(b)
  {
    if b == [] {
      assert a + b == a;
    } else {
      var ab, b' := a + b, b[..|b| - 1];
      assert ab[..|ab| - 1] == a + b';
      assert ab[|ab| - 1] == b[|b| - 1];
      var d := DigitValue(b[|b| - 1]);
      ParseNatAppend(a, b');
      assert ParseNat(ab) == ParseNat(a + b') * 10 + d;
      assert ParseNat(b) == ParseNat(b') * 10 + d;
      ShiftDigit(ParseNat(a), ParseNat(b'), Pow10(|b'|), d);
    }
  }

  lemma ShiftDigit(pa: int, pb: int, p: int, d: int)
    ensures (pa * p + pb) * 10 + d == pa * (10 * p) + (pb * 10 + d)
  {
  }

  lemma {:induction false} ParseZeros(k: nat)
    ensures ParseNat(Zeros(k)) == 0
  {
    if k > 0 {
      assert Zeros(k)[..k - 1] == Zeros(k - 1);
      ParseZeros(k - 1);
    }
  }

  lemma LeadingZeros(k: nat, s: string)
    requires AllDigits(s)
    ensures AllDigits(Zeros(k) + s)
    ensures ParseNat(Zeros(k) + s) == ParseNat(s)
  {
    var z := Zeros(k);
    assert AllDigits(z);
    ParseNatAppend(z, s);
    ParseZeros(k);
    assert ParseNat(z) * Pow10(|s|) == 0;
  }

  /** Zero padding does not change the value a digit string denotes. */
  lemma ParsePadded(n: nat, width: nat)
    ensures AllDigits(PadLeft(NatStr(n), width))
    ensures ParseNat(PadLeft(NatStr(n), width)) == n
  {
    var s := NatStr(n);
    var p := PadLeft(s, width);
    assert ParseNat(s) == n by {
      ParseNatStr(n);
    }
    if |s| < width {
      assert AllDigits(p) && ParseNat(p) == ParseNat(s) by {
        assert p == Zeros(width - |s|) + s;
        LeadingZeros(width - |s|, s);
      }
    } else {
      assert p == s;
    }
  }

  lemma {:induction false} NatStrLength(n: nat, k: nat)
    requires 1 <= k && n < Pow10(k)
    ensures |NatStr(n)| <= k
  {
    if n >= 10 {
      assert n / 10 < Pow10(k - 1);
      NatStrLength(n / 10, k - 1);
    }
  }

  /** `str(d)` (equivalently `f"{d:.2f}"`) for a two-place Decimal `d`
      held as hundredths: sign, integer part, a dot, two fraction digits. */
  function DecimalStr(h: Hundredths): string
  {
    var a := if h < 0 then -h else h;
    (if h < 0 then "-" else "") + NatStr(a / 100) + "." + PadLeft(NatStr(a % 100), 2)
  }
}
