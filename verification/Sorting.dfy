/** Sorting by an integer key. The tracer sorts calls by index and logs by ordinal with an unstable
    library sort; because keys are distinct in every trace it builds, the result does not depend on
    the algorithm (`SortIsUnique`), so one insertion sort stands for all of them. */
module Sorting {

  ghost predicate Ordered<T>(key: T -> int, s: seq<T>) {
    forall i, j :: 0 <= i < j < |s| ==> key(s[i]) <= key(s[j])
  }

  ghost predicate StrictlyOrdered<T>(key: T -> int, s: seq<T>) {
    forall i, j :: 0 <= i < j < |s| ==> key(s[i]) < key(s[j])
  }

  function Insert<T>(key: T -> int, x: T, s: seq<T>): seq<T> {
    if |s| == 0 || key(s[|s| - 1]) <= key(x) then s + [x]
    else Insert(key, x, s[..|s| - 1]) + [s[|s| - 1]]
  }

  function Sort<T>(key: T -> int, s: seq<T>): seq<T> {
    if |s| == 0 then [] else Insert(key, s[|s| - 1], Sort(key, s[..|s| - 1]))
  }

  lemma {:induction false} InsertKeepsElements<T>(key: T -> int, x: T, s: seq<T>)
    ensures multiset(Insert(key, x, s)) == multiset(s) + multiset{x}
  {
    if |s| > 0 && key(s[|s| - 1]) > key(x) {
      var front, last := s[..|s| - 1], s[|s| - 1];
      assert s == front + [last];
      InsertKeepsElements(key, x, front);
    }
  }

  lemma ElementsOf<T>(r: seq<T>, s: seq<T>, x: T)
    requires multiset(r) == multiset(s) + multiset{x}
    ensures forall i :: 0 <= i < |r| ==> r[i] in s || r[i] == x
  {
    forall i | 0 <= i < |r| ensures r[i] in s || r[i] == x {
      assert r[i] in multiset(r);
    }
  }

  lemma {:induction false} InsertKeepsOrder<T>(key: T -> int, x: T, s: seq<T>)
    requires Ordered(key, s)
    ensures Ordered(key, Insert(key, x, s))
    ensures multiset(Insert(key, x, s)) == multiset(s) + multiset{x}
  {
    InsertKeepsElements(key, x, s);
    if |s| > 0 && key(s[|s| - 1]) > key(x) {
      var front, last := s[..|s| - 1], s[|s| - 1];
      InsertKeepsOrder(key, x, front);
      ElementsOf(Insert(key, x, front), front, x);
    }
  }

  lemma {:induction false} SortOrders<T>(key: T -> int, s: seq<T>)
    ensures Ordered(key, Sort(key, s))
    ensures multiset(Sort(key, s)) == multiset(s)
    ensures |Sort(key, s)| == |s|
  {
    if |s| > 0 {
      var front, last := s[..|s| - 1], s[|s| - 1];
      assert s == front + [last];
      SortOrders(key, front);
      InsertKeepsOrder(key, last, Sort(key, front));
    }
    SameBagSameLength(Sort(key, s), s);
  }

  lemma SameBagSameLength<T>(a: seq<T>, b: seq<T>)
    requires multiset(a) == multiset(b)
    ensures |a| == |b|
  {
    assert |multiset(a)| == |a| && |multiset(b)| == |b|;
  }

  lemma LastAgrees<T>(key: T -> int, a: seq<T>, b: seq<T>)
    requires multiset(a) == multiset(b) && |a| == |b| > 0
    requires Ordered(key, a) && StrictlyOrdered(key, b)
    ensures a[|a| - 1] == b[|b| - 1]
  {
    var n := |a| - 1;
    assert a[n] in multiset(b) && b[n] in multiset(a);
    var i :| 0 <= i < |b| && b[i] == a[n];
    var j :| 0 <= j < |a| && a[j] == b[n];
    assert key(a[j]) <= key(a[n]);
    assert i == n || key(b[i]) < key(b[n]);
  }

  lemma BagOfFront<T>(a: seq<T>)
    requires |a| > 0
    ensures multiset(a[..|a| - 1]) == multiset(a) - multiset{a[|a| - 1]}
  {
    assert a == a[..|a| - 1] + [a[|a| - 1]];
  }

  /** Last elements agree, and the rest are two such arrangements again. */
  lemma FrontsAgree<T>(key: T -> int, a: seq<T>, b: seq<T>)
    requires multiset(a) == multiset(b) && |a| == |b| > 0
    requires Ordered(key, a) && StrictlyOrdered(key, b)
    ensures a[|a| - 1] == b[|b| - 1]
    ensures multiset(a[..|a| - 1]) == multiset(b[..|b| - 1])
    ensures Ordered(key, a[..|a| - 1]) && StrictlyOrdered(key, b[..|b| - 1])
  {
    LastAgrees(key, a, b);
    BagOfFront(a);
    BagOfFront(b);
  }

  lemma SameFrontAndLast<T>(a: seq<T>, b: seq<T>)
    requires |a| == |b| > 0 && a[..|a| - 1] == b[..|b| - 1] && a[|a| - 1] == b[|b| - 1]
    ensures a == b
  {
    assert a == a[..|a| - 1] + [a[|a| - 1]] && b == b[..|b| - 1] + [b[|b| - 1]];
  }

  /** Two arrangements of the same elements, one ordered and one strictly ordered, coincide. */
  lemma {:induction false} OrderIsUnique<T>(key: T -> int, a: seq<T>, b: seq<T>)
    requires multiset(a) == multiset(b)
    requires Ordered(key, a) && StrictlyOrdered(key, b)
    ensures a == b
  {
    hide Ordered, StrictlyOrdered;
    SameBagSameLength(a, b);
    if |a| > 0 {
      FrontsAgree(key, a, b);
      OrderIsUnique(key, a[..|a| - 1], b[..|b| - 1]);
      SameFrontAndLast(a, b);
    }
  }

  /** Any sort by a key that tells all elements apart returns the one strictly ordered arrangement. */
  lemma SortIsUnique<T>(key: T -> int, s: seq<T>, sorted: seq<T>)
    requires multiset(s) == multiset(sorted) && StrictlyOrdered(key, sorted)
    ensures Sort(key, s) == sorted
  {
    SortOrders(key, s);
    OrderIsUnique(key, Sort(key, s), sorted);
  }

  /** Applying `g` to every element. */
  function MapSeq<T, U>(g: T -> U, s: seq<T>): (r: seq<U>)
    ensures |r| == |s|
    ensures forall i :: 0 <= i < |s| ==> r[i] == g(s[i])
  {
    seq(|s|, i requires 0 <= i < |s| => g(s[i]))
  }

  ghost predicate SameOrder<T, U>(key: T -> int, g: T -> U, key': U -> int, x: T, y: T) {
    (key(x) <= key(y)) == (key'(g(x)) <= key'(g(y)))
  }

  lemma {:induction false} InsertCommutes<T, U>(key: T -> int, g: T -> U, key': U -> int, x: T, s: seq<T>)
    requires forall y :: y in s ==> SameOrder(key, g, key', y, x)
    ensures MapSeq(g, Insert(key, x, s)) == Insert(key', g(x), MapSeq(g, s))
  {
    if |s| == 0 {
    } else {
      var last := s[|s| - 1];
      assert last in s && SameOrder(key, g, key', last, x);
      assert MapSeq(g, s)[..|s| - 1] == MapSeq(g, s[..|s| - 1]);
      if key(last) > key(x) {
        InsertCommutes(key, g, key', x, s[..|s| - 1]);
      }
    }
  }

  /** Sorting commutes with a relabelling that keeps the relative order of keys. */
  lemma {:induction false} SortCommutes<T, U>(key: T -> int, g: T -> U, key': U -> int, s: seq<T>)
    requires forall x, y :: x in s && y in s ==> SameOrder(key, g, key', x, y)
    ensures MapSeq(g, Sort(key, s)) == Sort(key', MapSeq(g, s))
  {
    if |s| > 0 {
      var front, last := s[..|s| - 1], s[|s| - 1];
      assert MapSeq(g, s)[..|s| - 1] == MapSeq(g, front);
      forall x, y | x in front && y in front ensures SameOrder(key, g, key', x, y) {
        assert x in s && y in s;
      }
      SortCommutes(key, g, key', front);
      SortOrders(key, front);
      forall y | y in Sort(key, front) ensures SameOrder(key, g, key', y, last) {
        assert y in multiset(Sort(key, front));
        assert y in s && last in s;
      }
      InsertCommutes(key, g, key', last, Sort(key, front));
    }
  }
}
