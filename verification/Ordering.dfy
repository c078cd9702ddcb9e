/** ORDER BY over a unique key: the one sorted listing of a finite set, and subsequences of listings. */
module Ordering {

  ghost predicate StrictOrder<T(!new)>(less: (T, T) -> bool) {
    && (forall a: T :: !less(a, a))
    && (forall a: T, b: T, c: T :: less(a, b) && less(b, c) ==> less(a, c))
    && (forall a: T, b: T :: a != b ==> less(a, b) || less(b, a))
  }

  lemma {:induction false} LeastExists<T(!new)>(s: set<T>, less: (T, T) -> bool)
    requires s != {} && StrictOrder(less)
    ensures exists x :: x in s && forall y | y in s && y != x :: less(x, y)
    decreases |s|
  {
    var a :| a in s;
    var rest := s - {a};
    if rest == {} {
      assert forall y | y in s :: y == a || y in rest;
    } else {
      LeastExists(rest, less);
      var b :| b in rest && forall y | y in rest && y != b :: less(b, y);
      var x := if less(a, b) then a else b;
      forall y | y in s && y != x ensures less(x, y) {
        assert y == a || y in rest;
      }
    }
  }

  /** The elements of a set in order. */
  function Sorted<T(!new, ==)>(s: set<T>, less: (T, T) -> bool): (r: seq<T>)
    requires StrictOrder(less)
    ensures |r| == |s|
    ensures forall x :: x in r <==> x in s
    decreases |s|
  {
    if s == {} then []
    else
      LeastExists(s, less);
      var x :| x in s && forall y | y in s && y != x :: less(x, y);
      [x] + Sorted(s - {x}, less)
  }

  lemma {:induction false} SortedHead<T(!new)>(s: set<T>, less: (T, T) -> bool)
    requires StrictOrder(less) && s != {}
    ensures var r := Sorted(s, less);
            && r[0] in s
            && (forall y | y in s && y != r[0] :: less(r[0], y))
            && r[1..] == Sorted(s - {r[0]}, less)
  {
  }

  /** The elements that come after x in the order. */
  function After<T(!new, ==)>(s: set<T>, less: (T, T) -> bool, x: T): set<T> {
    set y | y in s && less(x, y)
  }

  /** What follows the k-th element is the listing of everything after it in the order. */
  lemma {:induction false} SortedTail<T(!new)>(s: set<T>, less: (T, T) -> bool, k: nat)
    requires StrictOrder(less) && k < |s|
    ensures var r := Sorted(s, less);
            r[k + 1..] == Sorted(After(s, less, r[k]), less)
    decreases |s|
  {
    SortedHead(s, less);
    var r := Sorted(s, less);
    var rest := s - {r[0]};
    if k == 0 {
      AfterLeast(s, less, r[0], r[0]);
    } else {
      SortedTail(rest, less, k - 1);
      var q := Sorted(rest, less);
      assert r[1..] == q;
      TailAt(r, k);
      assert q[k - 1] == r[k] && q[k..] == r[k + 1..];
      assert r[k] in q && r[k] in rest;
      AfterLeast(s, less, r[0], r[k]);
      assert After(s, less, r[k]) == After(rest, less, r[k]);
    }
  }

  lemma TailAt<T>(r: seq<T>, k: nat)
    requires 1 <= k < |r|
    ensures r[1..][k - 1] == r[k] && r[1..][k..] == r[k + 1..] && r[k] in r[1..]
  {
  }

  lemma AfterLeast<T(!new)>(s: set<T>, less: (T, T) -> bool, least: T, x: T)
    requires StrictOrder(less) && least in s && x in s && forall y | y in s && y != least :: less(least, y)
    ensures After(s, less, least) == s - {least}
    ensures x != least ==> After(s, less, x) == After(s - {least}, less, x)
  {
  }

  /** A listing ascends strictly. */
  lemma SortedAscends<T(!new)>(s: set<T>, less: (T, T) -> bool, i: nat, j: nat)
    requires StrictOrder(less) && i < j < |s|
    ensures less(Sorted(s, less)[i], Sorted(s, less)[j])
  {
    SortedTail(s, less, i);
    var r := Sorted(s, less);
    assert r[j] == r[i + 1..][j - i - 1];
    assert r[j] in Sorted(After(s, less, r[i]), less);
  }

  // ------------------------------------------------------------ subsequences

  /** `a` can be had from `b` by leaving elements out. */
  predicate Sub<T(==)>(a: seq<T>, b: seq<T>)
    decreases |b|
  {
    a == [] || (b != [] && ((a[0] == b[0] && Sub(a[1..], b[1..])) || Sub(a, b[1..])))
  }

  /** Putting something in front of both, or of the larger only, keeps a subsequence. */
  lemma {:induction false} SubPrepend<T>(p: seq<T>, a: seq<T>, b: seq<T>)
    requires Sub(a, b)
    ensures Sub(p + a, p + b) && Sub(a, p + b)
    decreases |p|
  {
    if p == [] {
      assert p + a == a && p + b == b;
    } else {
      SubPrepend(p[1..], a, b);
      assert (p + a)[1..] == p[1..] + a && (p + b)[1..] == p[1..] + b;
    }
  }

  /** When the least elements of a set and a superset differ, the larger set's is not in the smaller. */
  lemma LeastOutside<T(!new)>(s: set<T>, t: set<T>, less: (T, T) -> bool, x: T, y: T)
    requires StrictOrder(less) && s <= t && x in s && y in t && x != y
    requires forall z | z in s && z != x :: less(x, z)
    requires forall z | z in t && z != y :: less(y, z)
    ensures y !in s
  {
    assert less(y, x);
    assert !less(x, y);
  }

  /** A smaller set lists as a subsequence of a larger one. */
  lemma {:induction false} SortedSub<T(!new)>(s: set<T>, t: set<T>, less: (T, T) -> bool)
    requires StrictOrder(less) && s <= t
    ensures Sub(Sorted(s, less), Sorted(t, less))
    decreases |t|
  {
    if s != {} {
      SortedHead(s, less);
      SortedHead(t, less);
      var x, y := Sorted(s, less)[0], Sorted(t, less)[0];
      if x == y {
        SortedSub(s - {x}, t - {y}, less);
      } else {
        LeastOutside(s, t, less, x, y);
        SortedSub(s, t - {y}, less);
      }
    }
  }
}
