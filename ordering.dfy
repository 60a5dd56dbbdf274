/** The row order of sort_values and sort_index on one numeric key: missing
    values (NaN) go last whichever the direction. */
module Ordering {
  import opened JsonValues

  /** Where key a may stand before key b: a missing key only before another
      missing key, a present key before any missing one, and present keys by
      value in the requested direction. */
  predicate Precedes(a: Option<real>, b: Option<real>, descending: bool)
  {
    if a.None? then b.None?
    else if b.None? then true
    else if descending then a.value >= b.value
    else a.value <= b.value
  }

  lemma PrecedesTotal(a: Option<real>, b: Option<real>, descending: bool)
    ensures Precedes(a, b, descending) || Precedes(b, a, descending)
  {
  }

  lemma PrecedesTransitive(a: Option<real>, b: Option<real>, c: Option<real>, descending: bool)
    requires Precedes(a, b, descending) && Precedes(b, c, descending)
    ensures Precedes(a, c, descending)
  {
  }

  /** The rows are in key order. */
  ghost predicate SortedBy<T>(xs: seq<T>, key: T -> Option<real>, descending: bool)
  {
    forall i, j :: 0 <= i < j < |xs| ==> Precedes(key(xs[i]), key(xs[j]), descending)
  }

  /** Places x before the first row it may precede. */
  function Insert<T>(x: T, xs: seq<T>, key: T -> Option<real>, descending: bool): (r: seq<T>)
    ensures multiset(r) == multiset(xs) + multiset{x}
    ensures |r| == |xs| + 1
  {
    if xs == [] then [x]
    else if Precedes(key(x), key(xs[0]), descending) then [x] + xs
    else
      assert xs == [xs[0]] + xs[1..];
      [xs[0]] + Insert(x, xs[1..], key, descending)
  }

  /** A row placed before sorted rows that it may precede, each of them,
      gives sorted rows. */
  lemma ConsSorted<T>(h: T, xs: seq<T>, key: T -> Option<real>, descending: bool)
    requires SortedBy(xs, key, descending)
    requires forall j :: 0 <= j < |xs| ==> Precedes(key(h), key(xs[j]), descending)
    ensures SortedBy([h] + xs, key, descending)
  {
    var r := [h] + xs;
    forall i, j | 0 <= i < j < |r|
      ensures Precedes(key(r[i]), key(r[j]), descending)
    {
      assert r[j] == xs[j - 1];
      if i > 0 {
        assert r[i] == xs[i - 1];
      }
    }
  }

  lemma SortedTail<T>(xs: seq<T>, key: T -> Option<real>, descending: bool)
    requires xs != [] && SortedBy(xs, key, descending)
    ensures SortedBy(xs[1..], key, descending)
    ensures forall j :: 0 <= j < |xs[1..]| ==> Precedes(key(xs[0]), key(xs[1..][j]), descending)
  {
    forall i, j | 0 <= i < j < |xs[1..]|
      ensures Precedes(key(xs[1..][i]), key(xs[1..][j]), descending)
    {
      assert xs[1..][i] == xs[i + 1] && xs[1..][j] == xs[j + 1];
    }
    forall j | 0 <= j < |xs[1..]|
      ensures Precedes(key(xs[0]), key(xs[1..][j]), descending)
    {
      assert xs[1..][j] == xs[j + 1];
    }
  }

  /** Every row of the inserted rows is x or one of the rows. */
  lemma InsertMembers<T>(x: T, xs: seq<T>, key: T -> Option<real>, descending: bool, j: nat)
    requires j < |Insert(x, xs, key, descending)|
    ensures Insert(x, xs, key, descending)[j] == x || Insert(x, xs, key, descending)[j] in xs
  {
    var r := Insert(x, xs, key, descending);
    assert r[j] in multiset(r);
    assert r[j] in multiset(xs) || r[j] == x;
  }

  /** Inserting into sorted rows keeps them sorted. */
  lemma {:induction false} InsertSorted<T>(x: T, xs: seq<T>, key: T -> Option<real>, descending: bool)
    requires SortedBy(xs, key, descending)
    ensures SortedBy(Insert(x, xs, key, descending), key, descending)
  {
    if xs == [] {
    } else if Precedes(key(x), key(xs[0]), descending) {
      forall j | 0 <= j < |xs|
        ensures Precedes(key(x), key(xs[j]), descending)
      {
        if j > 0 {
          PrecedesTransitive(key(x), key(xs[0]), key(xs[j]), descending);
        }
      }
      ConsSorted(x, xs, key, descending);
    } else {
      var tail := xs[1..];
      SortedTail(xs, key, descending);
      InsertSorted(x, tail, key, descending);
      PrecedesTotal(key(x), key(xs[0]), descending);
      var rest := Insert(x, tail, key, descending);
      forall j | 0 <= j < |rest|
        ensures Precedes(key(xs[0]), key(rest[j]), descending)
      {
        InsertMembers(x, tail, key, descending, j);
        if rest[j] != x {
          var k :| 0 <= k < |tail| && tail[k] == rest[j];
        }
      }
      ConsSorted(xs[0], rest, key, descending);
    }
  }

  /** The rows sorted by key. Rows with equal keys keep their relative
      order, which is one of the orders the library's unstable sort may
      give. */
  function SortBy<T>(xs: seq<T>, key: T -> Option<real>, descending: bool): seq<T>
  {
    if xs == [] then []
    else Insert(xs[0], SortBy(xs[1..], key, descending), key, descending)
  }

  /** The sorted rows are in key order and are a permutation of the input. */
  lemma {:induction false} SortByCorrect<T>(xs: seq<T>, key: T -> Option<real>, descending: bool)
    ensures SortedBy(SortBy(xs, key, descending), key, descending)
    ensures multiset(SortBy(xs, key, descending)) == multiset(xs)
    ensures |SortBy(xs, key, descending)| == |xs|
  {
    SortByOrdered(xs, key, descending);
    SortByPermutes(xs, key, descending);
    assert |SortBy(xs, key, descending)| == |multiset(SortBy(xs, key, descending))|;
  }

  /** Sorting puts the rows in key order. */
  lemma {:induction false} SortByOrdered<T>(xs: seq<T>, key: T -> Option<real>, descending: bool)
    ensures SortedBy(SortBy(xs, key, descending), key, descending)
  {
    if xs != [] {
      SortByOrdered(xs[1..], key, descending);
      InsertSorted(xs[0], SortBy(xs[1..], key, descending), key, descending);
    }
  }

  /** Sorting neither adds nor loses a row. */
  lemma {:induction false} SortByPermutes<T>(xs: seq<T>, key: T -> Option<real>, descending: bool)
    ensures multiset(SortBy(xs, key, descending)) == multiset(xs)
  {
    if xs != [] {
      SortByPermutes(xs[1..], key, descending);
      assert xs == [xs[0]] + xs[1..];
    }
  }

  /** Rows already in key order are left as they are. */
  lemma {:induction false} SortBySorted<T>(xs: seq<T>, key: T -> Option<real>, descending: bool)
    requires SortedBy(xs, key, descending)
    ensures SortBy(xs, key, descending) == xs
  {
    if xs != [] {
      SortedTail(xs, key, descending);
      SortBySorted(xs[1..], key, descending);
      if |xs| > 1 {
        assert Precedes(key(xs[0]), key(xs[1]), descending);
      }
      assert xs == [xs[0]] + xs[1..];
    }
  }
}
