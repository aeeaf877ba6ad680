/** `Array.prototype.sort((a, b) => key(b) - key(a))`: a stable sort into descending key order,
    written as insertion sort (each element goes after every earlier one whose key is at least its own). */
module Sorting {
  import opened Seqs

  ghost predicate SortedDesc<T>(s: seq<T>, key: T -> real)
  {
    forall i, j :: 0 <= i < j < |s| ==> key(s[i]) >= key(s[j])
  }

  /** Inserts `x` into a descending sequence, after every element whose key is at least `key(x)`. */
  function Insert<T>(x: T, s: seq<T>, key: T -> real): seq<T>
  {
    if s == [] then [x]
    else if key(s[0]) >= key(x) then [s[0]] + Insert(x, s[1..], key)
    else [x] + s
  }

  lemma {:induction false} InsertMultiset<T>(x: T, s: seq<T>, key: T -> real)
    ensures multiset(Insert(x, s, key)) == multiset(s) + multiset{x}
  {
    if s != [] {
      assert s == [s[0]] + s[1..];
      if key(s[0]) >= key(x) {
        InsertMultiset(x, s[1..], key);
      }
    }
  }

  /** Inserting an element no greater than a bound into elements no greater than it keeps the bound. */
  lemma {:induction false} InsertBounded<T>(x: T, s: seq<T>, key: T -> real, bound: real)
    requires key(x) <= bound
    requires forall i :: 0 <= i < |s| ==> key(s[i]) <= bound
    ensures forall i :: 0 <= i < |Insert(x, s, key)| ==> key(Insert(x, s, key)[i]) <= bound
  {
    if s != [] && key(s[0]) >= key(x) {
      InsertBounded(x, s[1..], key, bound);
    }
  }

  lemma {:induction false} InsertSorted<T>(x: T, s: seq<T>, key: T -> real)
    requires SortedDesc(s, key)
    ensures SortedDesc(Insert(x, s, key), key)
  {
    if s != [] && key(s[0]) >= key(x) {
      var t := Insert(x, s[1..], key);
      InsertSorted(x, s[1..], key);
      InsertBounded(x, s[1..], key, key(s[0]));
      var r := [s[0]] + t;
      forall i, j | 0 <= i < j < |r|
        ensures key(r[i]) >= key(r[j])
      {
        assert r[j] == t[j - 1];
        if i > 0 {
          assert r[i] == t[i - 1];
        }
      }
    }
  }

  /** Sorts `s` into descending key order. */
  function SortDesc<T>(s: seq<T>, key: T -> real): (r: seq<T>)
    ensures SortedDesc(r, key)
    ensures multiset(r) == multiset(s)
    ensures |r| == |s|
  {
    if s == [] then []
    else
      var init := s[..|s| - 1];
      assert s == init + [s[|s| - 1]];
      var r := Insert(s[|s| - 1], SortDesc(init, key), key);
      InsertSorted(s[|s| - 1], SortDesc(init, key), key);
      InsertMultiset(s[|s| - 1], SortDesc(init, key), key);
      assert |r| == |multiset(r)|;
      r
  }

  /** Keeps the elements whose key is exactly `v`. */
  function KeyIs<T>(key: T -> real, v: real): T -> bool
  {
    (x: T) => key(x) == v
  }

  /** Inserting `x` puts it after every element already there with the same key. */
  lemma {:induction false} InsertStable<T>(x: T, s: seq<T>, key: T -> real, v: real)
    requires SortedDesc(s, key)
    ensures Filter(Insert(x, s, key), KeyIs(key, v))
         == Filter(s, KeyIs(key, v)) + (if key(x) == v then [x] else [])
  {
    if s == [] {
      FilterCons(x, [], KeyIs(key, v));
    } else if key(s[0]) >= key(x) {
      SortedTail(s, key);
      InsertStable(x, s[1..], key, v);
      InsertStableStep(x, s, key, v);
    } else {
      FilterCons(x, s, KeyIs(key, v));
      if key(x) == v {
        NoneAboveHead(s, key, v);
      }
    }
  }

  /** The inductive step of `InsertStable`: `x` goes past the head `s[0]`. */
  lemma InsertStableStep<T>(x: T, s: seq<T>, key: T -> real, v: real)
    requires s != [] && key(s[0]) >= key(x)
    requires Filter(Insert(x, s[1..], key), KeyIs(key, v))
          == Filter(s[1..], KeyIs(key, v)) + (if key(x) == v then [x] else [])
    ensures Filter(Insert(x, s, key), KeyIs(key, v))
         == Filter(s, KeyIs(key, v)) + (if key(x) == v then [x] else [])
  {
    var p := KeyIs(key, v);
    var t := Insert(x, s[1..], key);
    assert Insert(x, s, key) == [s[0]] + t;
    FilterCons(s[0], t, p);
    FilterCons(s[0], s[1..], p);
    assert [s[0]] + s[1..] == s;
    var head := if p(s[0]) then [s[0]] else [];
    AppendAssoc(head, Filter(s[1..], p), if key(x) == v then [x] else []);
  }

  lemma SortedTail<T>(s: seq<T>, key: T -> real)
    requires s != [] && SortedDesc(s, key)
    ensures SortedDesc(s[1..], key)
  {
    forall i, j | 0 <= i < j < |s[1..]|
      ensures key(s[1..][i]) >= key(s[1..][j])
    {
      assert s[1..][i] == s[i + 1] && s[1..][j] == s[j + 1];
    }
  }

  /** In a descending sequence whose head is below `v`, no element has key `v`. */
  lemma NoneAboveHead<T>(s: seq<T>, key: T -> real, v: real)
    requires SortedDesc(s, key)
    requires s != [] && key(s[0]) < v
    ensures Filter(s, KeyIs(key, v)) == []
  {
  }

  /** The sort is stable: for every key value, the elements carrying it come out in the order
      they went in. */
  lemma {:induction false} SortDescStable<T>(s: seq<T>, key: T -> real, v: real)
    ensures Filter(SortDesc(s, key), KeyIs(key, v)) == Filter(s, KeyIs(key, v))
  {
    if s != [] {
      var init, last := s[..|s| - 1], s[|s| - 1];
      assert s == init + [last];
      var sorted := SortDesc(init, key);
      assert SortDesc(s, key) == Insert(last, sorted, key);
      SortDescStable(init, key, v);
      InsertStable(last, sorted, key, v);
      FilterAppend(init, [last], KeyIs(key, v));
      assert [last][1..] == [];
    }
  }

  /** Every element of a sorted sequence is an element of the input, and conversely. */
  lemma SortDescMembers<T>(s: seq<T>, key: T -> real, x: T)
    ensures x in SortDesc(s, key) <==> x in s
  {
    var r := SortDesc(s, key);
    assert x in r <==> x in multiset(r);
    assert x in s <==> x in multiset(s);
  }

  /** The head of the sorted sequence carries the greatest key. */
  lemma {:induction false} SortDescHeadIsMax<T>(s: seq<T>, key: T -> real)
    requires s != []
    ensures |SortDesc(s, key)| > 0
    ensures forall x :: x in s ==> key(x) <= key(SortDesc(s, key)[0])
  {
    var r := SortDesc(s, key);
    forall x | x in s
      ensures key(x) <= key(r[0])
    {
      SortDescMembers(s, key, x);
      var i :| 0 <= i < |r| && r[i] == x;
      assert i == 0 || key(r[0]) >= key(r[i]);
    }
  }

  /** `sort(...).slice(0, n)`: exactly `min(n, |s|)` elements, in descending key order, drawn from
      the input with no element more often than there (all of it when it has at most `n`); an
      element left out has a key no greater than any kept. */
  lemma TopN<T>(s: seq<T>, key: T -> real, n: nat)
    ensures var r := Take(SortDesc(s, key), n);
      && |r| == (if |s| < n then |s| else n) && SortedDesc(r, key)
      && (forall i :: 0 <= i < |r| ==> r[i] in s)
      && multiset(r) <= multiset(s)
      && (|s| <= n ==> multiset(r) == multiset(s))
      && (forall x :: x in s && x !in r ==> forall i :: 0 <= i < |r| ==> key(x) <= key(r[i]))
  {
    var q := SortDesc(s, key);
    TakeMultiset(q, n);
    TakeSorted(q, key, n);
    TopNDrawn(s, key, n);
    TopNBest(s, key, n);
  }

  lemma TakeSorted<T>(q: seq<T>, key: T -> real, n: nat)
    requires SortedDesc(q, key)
    ensures SortedDesc(Take(q, n), key)
  {
    var r := Take(q, n);
    forall i, j | 0 <= i < j < |r|
      ensures key(r[i]) >= key(r[j])
    {
      assert r[i] == q[i] && r[j] == q[j];
    }
  }

  lemma TopNDrawn<T>(s: seq<T>, key: T -> real, n: nat)
    ensures var r := Take(SortDesc(s, key), n); forall i :: 0 <= i < |r| ==> r[i] in s
  {
    var q := SortDesc(s, key);
    var r := Take(q, n);
    forall i | 0 <= i < |r|
      ensures r[i] in s
    {
      assert r[i] == q[i];
      SortDescMembers(s, key, q[i]);
    }
  }

  lemma TopNBest<T>(s: seq<T>, key: T -> real, n: nat)
    ensures var r := Take(SortDesc(s, key), n);
      forall x :: x in s && x !in r ==> forall i :: 0 <= i < |r| ==> key(x) <= key(r[i])
  {
    var q := SortDesc(s, key);
    var r := Take(q, n);
    forall x | x in s && x !in r
      ensures forall i :: 0 <= i < |r| ==> key(x) <= key(r[i])
    {
      SortDescMembers(s, key, x);
      var k :| 0 <= k < |q| && q[k] == x;
      assert k >= |r|;
      forall i | 0 <= i < |r|
        ensures key(x) <= key(r[i])
      {
        assert r[i] == q[i];
      }
    }
  }
}
