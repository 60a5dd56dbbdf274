/** Reconstruction of a list from a map keyed "1", "2", ...: the loop of the
    prices and events setters, which reads keys in order and stops at the first
    key that is absent or holds a falsy value. */
module Sparse {
  import opened JsonValues
  import opened DecimalKeys

  /** The scan goes on past position i: key str(i) holds a truthy value. */
  predicate Continues(m: map<string, Json>, i: nat)
  {
    Key(i) in m && Truthy(m[Key(i)])
  }

  /** The value at index j of vals is the one the scan reads at position i + j. */
  predicate ReadAt(m: map<string, Json>, vals: seq<Json>, i: nat, j: nat)
    requires j < |vals|
  {
    Continues(m, i + j) && vals[j] == m[Key(i + j)]
  }

  /** vals is what the scan collects: the values at "1" .. str(|vals|), all
      truthy, and the scan stops at str(|vals| + 1). */
  predicate IsSparsePrefix(m: map<string, Json>, vals: seq<Json>)
  {
    && (forall j :: 0 <= j < |vals| ==> ReadAt(m, vals, 1, j))
    && !Continues(m, |vals| + 1)
  }

  /** Reference definition: the values from position i up to the first gap. */
  function SparseFrom(m: map<string, Json>, i: nat): seq<Json>
    requires i >= 1
    decreases MaxIndex(m.Keys) + 1 - i
  {
    if Continues(m, i) then
      KeyWithinBound(m.Keys, i);
      [m[Key(i)]] + SparseFrom(m, i + 1)
    else
      []
  }

  /** The scan stops at the first position past what it collects. */
  lemma {:induction false} SparseFromStops(m: map<string, Json>, i: nat)
    requires i >= 1
    ensures !Continues(m, i + |SparseFrom(m, i)|)
    decreases MaxIndex(m.Keys) + 1 - i
  {
    if Continues(m, i) {
      KeyWithinBound(m.Keys, i);
      SparseFromStops(m, i + 1);
      assert |SparseFrom(m, i)| == 1 + |SparseFrom(m, i + 1)|;
    }
  }

  /** The value at index j of what the scan collects from position i is the
      one it reads at position i + j. */
  lemma {:induction false} SparseFromReads(m: map<string, Json>, i: nat, j: nat)
    requires i >= 1
    requires j < |SparseFrom(m, i)|
    ensures ReadAt(m, SparseFrom(m, i), i, j)
    decreases j
  {
    assert Continues(m, i);
    KeyWithinBound(m.Keys, i);
    var vals := SparseFrom(m, i);
    var rest := SparseFrom(m, i + 1);
    assert vals == [m[Key(i)]] + rest;
    if j == 0 {
      assert vals[0] == m[Key(i)];
    } else {
      SparseFromReads(m, i + 1, j - 1);
      assert vals[j] == rest[j - 1];
      assert (i + 1) + (j - 1) == i + j;
    }
  }

  /** From position i the scan collects the values at str(i), str(i + 1), ...
      and stops at the first position that does not continue. */
  lemma SparseFromSpec(m: map<string, Json>, i: nat)
    requires i >= 1
    ensures forall j :: 0 <= j < |SparseFrom(m, i)| ==> ReadAt(m, SparseFrom(m, i), i, j)
    ensures !Continues(m, i + |SparseFrom(m, i)|)
  {
    SparseFromStops(m, i);
    forall j | 0 <= j < |SparseFrom(m, i)|
      ensures ReadAt(m, SparseFrom(m, i), i, j)
    {
      SparseFromReads(m, i, j);
    }
  }

  /** The list the prices setter stores for the map m. */
  function SparseValues(m: map<string, Json>): seq<Json>
  {
    SparseFrom(m, 1)
  }

  /** The setter's result is exactly the contiguous prefix "1" .. "k". */
  lemma SparseValuesIsPrefix(m: map<string, Json>)
    ensures IsSparsePrefix(m, SparseValues(m))
  {
    SparseFromSpec(m, 1);
  }

  /** There is only one such prefix, so the contract pins the result down. */
  lemma {:induction false} SparsePrefixUnique(m: map<string, Json>, vals: seq<Json>)
    requires IsSparsePrefix(m, vals)
    ensures vals == SparseValues(m)
  {
    var r := SparseValues(m);
    SparseValuesIsPrefix(m);
    assert IsSparsePrefix(m, r);
    assert |vals| < |r| ==> ReadAt(m, r, 1, |vals|);
    assert |r| < |vals| ==> ReadAt(m, vals, 1, |r|);
    forall j | 0 <= j < |vals|
      ensures vals[j] == r[j]
    {
      assert ReadAt(m, vals, 1, j) && ReadAt(m, r, 1, j);
    }
  }

  /** Every stored value is truthy: a price of 0 (or None, "", {}) ends the
      series exactly as a missing key does. */
  lemma SparseValuesTruthy(m: map<string, Json>, j: nat)
    requires j < |SparseValues(m)|
    ensures Truthy(SparseValues(m)[j])
  {
    SparseValuesIsPrefix(m);
    assert ReadAt(m, SparseValues(m), 1, j);
  }

  /** Keys past the first gap are never read: two maps that agree on
      "1" .. str(k + 1), where k is the length of the first map's series,
      give the same series. */
  lemma {:induction false} SparseValuesIgnoresTail(m: map<string, Json>, m': map<string, Json>)
    requires forall k :: 1 <= k <= |SparseValues(m)| + 1 ==>
      (Key(k) in m <==> Key(k) in m') && (Key(k) in m ==> m[Key(k)] == m'[Key(k)])
    ensures SparseValues(m') == SparseValues(m)
  {
    var vals := SparseValues(m);
    SparseValuesIsPrefix(m);
    forall j | 0 <= j < |vals|
      ensures ReadAt(m', vals, 1, j)
    {
      assert ReadAt(m, vals, 1, j);
    }
    assert !Continues(m', |vals| + 1);
    SparsePrefixUnique(m', vals);
  }

  /** The prices setter loop: i counts up from 1, ret collects prices.get(str(i))
      while it is truthy. */
  method CollectValues(m: map<string, Json>) returns (ret: seq<Json>)
    ensures ret == SparseValues(m)
  {
    ret := [];
    var i := 1;
    while true
      invariant i == |ret| + 1
      invariant SparseValues(m) == ret + SparseFrom(m, i)
      decreases MaxIndex(m.Keys) + 1 - i
    {
      var price := Get(m, Key(i));
      if !Truthy(price) {
        break;
      }
      KeyWithinBound(m.Keys, i);
      ret := ret + [price];
      i := i + 1;
    }
  }

  /** Reference definition of the events setter from position i: each truthy
      entry is turned into a record by build(i, entry); the first failure is
      raised and ends the scan. */
  function SparseRecordsFrom<R>(m: map<string, Json>, build: (nat, Json) -> Result<R>, i: nat): (r: Result<seq<R>>)
    requires i >= 1
    decreases MaxIndex(m.Keys) + 1 - i
  {
    if !Continues(m, i) then Ok([])
    else
      match build(i, m[Key(i)])
      case Err(e) => Err(e)
      case Ok(x) =>
        KeyWithinBound(m.Keys, i);
        match SparseRecordsFrom(m, build, i + 1)
        case Err(e) => Err(e)
        case Ok(xs) => Ok([x] + xs)
  }

  /** What the events setter stores, or the exception it raises. */
  function SparseRecords<R>(m: map<string, Json>, build: (nat, Json) -> Result<R>): Result<seq<R>>
  {
    SparseRecordsFrom(m, build, 1)
  }

  /** Records already built, followed by what the rest of the scan gives. */
  function Prepend<R>(done: seq<R>, rest: Result<seq<R>>): Result<seq<R>>
  {
    match rest
    case Ok(xs) => Ok(done + xs)
    case Err(e) => Err(e)
  }

  lemma PrependNil<R>(rest: Result<seq<R>>)
    ensures Prepend([], rest) == rest
  {
    if rest.Ok? {
      assert [] + rest.value == rest.value;
    }
  }

  lemma PrependStep<R>(done: seq<R>, x: R, rest: Result<seq<R>>)
    ensures Prepend(done, Prepend([x], rest)) == Prepend(done + [x], rest)
  {
    if rest.Ok? {
      assert done + ([x] + rest.value) == (done + [x]) + rest.value;
    }
  }

  /** On success there is one record per value the scan collects. */
  lemma {:induction false} SparseRecordsFromLength<R>(m: map<string, Json>, build: (nat, Json) -> Result<R>, i: nat)
    requires i >= 1
    requires SparseRecordsFrom(m, build, i).Ok?
    ensures |SparseRecordsFrom(m, build, i).value| == |SparseFrom(m, i)|
    decreases MaxIndex(m.Keys) + 1 - i
  {
    if Continues(m, i) {
      KeyWithinBound(m.Keys, i);
      SparseRecordsFromLength(m, build, i + 1);
    }
  }

  /** On success the record at index j is built from the value at index j,
      with position i + j. */
  lemma {:induction false} SparseRecordsFromAt<R>(m: map<string, Json>, build: (nat, Json) -> Result<R>, i: nat, j: nat)
    requires i >= 1
    requires SparseRecordsFrom(m, build, i).Ok?
    requires j < |SparseFrom(m, i)|
    ensures j < |SparseRecordsFrom(m, build, i).value|
    ensures build(i + j, SparseFrom(m, i)[j]) == Ok(SparseRecordsFrom(m, build, i).value[j])
    decreases j
  {
    SparseRecordsFromLength(m, build, i);
    assert Continues(m, i);
    KeyWithinBound(m.Keys, i);
    var all := SparseRecordsFrom(m, build, i).value;
    var vals := SparseFrom(m, i);
    var x := build(i, m[Key(i)]);
    var rest := SparseRecordsFrom(m, build, i + 1);
    assert x.Ok? && rest.Ok? && all == [x.value] + rest.value;
    assert vals == [m[Key(i)]] + SparseFrom(m, i + 1);
    if j == 0 {
      assert vals[0] == m[Key(i)] && all[0] == x.value;
    } else {
      SparseRecordsFromAt(m, build, i + 1, j - 1);
      assert vals[j] == SparseFrom(m, i + 1)[j - 1];
      assert all[j] == rest.value[j - 1];
    }
  }

  /** On success the records line up one for one with the sparse values:
      the record at index j is built from the value at key str(j + 1), with
      position j + 1. */
  lemma SparseRecordsAligned<R>(m: map<string, Json>, build: (nat, Json) -> Result<R>)
    requires SparseRecords(m, build).Ok?
    ensures |SparseRecords(m, build).value| == |SparseValues(m)|
    ensures forall j :: 0 <= j < |SparseValues(m)| ==>
      build(j + 1, SparseValues(m)[j]) == Ok(SparseRecords(m, build).value[j])
  {
    SparseRecordsFromLength(m, build, 1);
    forall j | 0 <= j < |SparseValues(m)|
      ensures build(j + 1, SparseValues(m)[j]) == Ok(SparseRecords(m, build).value[j])
    {
      SparseRecordsFromAt(m, build, 1, j);
    }
  }

  /** A failure is the failure of build on one of the entries the scan
      reaches, under that entry's own position. */
  lemma {:induction false} SparseRecordsFromFailure<R>(m: map<string, Json>, build: (nat, Json) -> Result<R>, i: nat)
    requires i >= 1
    requires SparseRecordsFrom(m, build, i).Err?
    ensures exists k :: i <= k < i + |SparseFrom(m, i)| && Continues(m, k) && build(k, m[Key(k)]) == Err(SparseRecordsFrom(m, build, i).error)
    decreases MaxIndex(m.Keys) + 1 - i
  {
    assert Continues(m, i);
    if build(i, m[Key(i)]).Ok? {
      KeyWithinBound(m.Keys, i);
      SparseRecordsFromFailure(m, build, i + 1);
    }
  }

  lemma SparseRecordsFailure<R>(m: map<string, Json>, build: (nat, Json) -> Result<R>)
    requires SparseRecords(m, build).Err?
    ensures exists k :: 1 <= k <= |SparseValues(m)| && Continues(m, k) && build(k, m[Key(k)]) == Err(SparseRecords(m, build).error)
  {
    SparseRecordsFromFailure(m, build, 1);
  }

  /** The events setter loop: i counts up from 1, each truthy entry is built
      into a record with event number i and appended; a failing build raises. */
  method CollectRecords<R>(m: map<string, Json>, build: (nat, Json) -> Result<R>) returns (r: Result<seq<R>>)
    ensures r == SparseRecords(m, build)
  {
    var ret: seq<R> := [];
    var i := 1;
    PrependNil(SparseRecords(m, build));
    while true
      invariant i >= 1
      invariant SparseRecords(m, build) == Prepend(ret, SparseRecordsFrom(m, build, i))
      decreases MaxIndex(m.Keys) + 1 - i
    {
      var entry := Get(m, Key(i));
      if !Truthy(entry) {
        break;
      }
      var x := build(i, entry);
      if x.Err? {
        return Err(x.error);
      }
      KeyWithinBound(m.Keys, i);
      PrependStep(ret, x.value, SparseRecordsFrom(m, build, i + 1));
      ret := ret + [x.value];
      i := i + 1;
    }
    assert ret + [] == ret;
    r := Ok(ret);
  }
}
