/**
  Python's stable descending sort, `sorted(xs, key=key, reverse=True)`: equal keys keep their order.
*/
module Sorting {
  import opened Options

  function Insert<T>(x: T, sorted: seq<T>, key: T -> real): (out: seq<T>)
    ensures multiset(out) == multiset(sorted) + multiset{x}
  {
    if sorted == [] || key(x) >= key(sorted[0]) then [x] + sorted
    else
      assert sorted == [sorted[0]] + sorted[1..];
      [sorted[0]] + Insert(x, sorted[1..], key)
  }

  function SortDescending<T>(xs: seq<T>, key: T -> real): (out: seq<T>)
    ensures multiset(out) == multiset(xs)
  {
    if xs == [] then []
    else
      assert xs == [xs[0]] + xs[1..];
      Insert(xs[0], SortDescending(xs[1..], key), key)
  }

  ghost predicate Descending<T(!new)>(xs: seq<T>, key: T -> real) {
    forall i, j :: 0 <= i < j < |xs| ==> key(xs[i]) >= key(xs[j])
  }

  lemma {:induction false} InsertKeepsOrder<T(!new)>(x: T, sorted: seq<T>, key: T -> real)
    requires Descending(sorted, key)
    ensures Descending(Insert(x, sorted, key), key)
  {
    if sorted != [] && key(x) < key(sorted[0]) {
      var rest := Insert(x, sorted[1..], key);
      InsertKeepsOrder(x, sorted[1..], key);
      forall j | 0 <= j < |rest|
        ensures key(sorted[0]) >= key(rest[j])
      {
        assert rest[j] in multiset(rest);
        assert rest[j] == x || rest[j] in sorted[1..];
      }
    }
  }

  lemma {:induction false} SortIsDescending<T(!new)>(xs: seq<T>, key: T -> real)
    ensures Descending(SortDescending(xs, key), key)
  {
    if xs == [] {
    } else {
      SortIsDescending(xs[1..], key);
      InsertKeepsOrder(xs[0], SortDescending(xs[1..], key), key);
    }
  }

  /** A list that is already in order is left alone. */
  lemma {:induction false} SortedIsFixed<T(!new)>(xs: seq<T>, key: T -> real)
    requires Descending(xs, key)
    ensures SortDescending(xs, key) == xs
  {
    if xs == [] {
    } else {
      SortedIsFixed(xs[1..], key);
      assert |xs| > 1 ==> key(xs[0]) >= key(xs[1]);
    }
  }

  /** The first element that passes a test. */
  function FirstThat<T>(xs: seq<T>, test: T -> bool): (r: Option<T>)
    ensures r == None <==> forall i :: 0 <= i < |xs| ==> !test(xs[i])
  {
    if xs == [] then None
    else if test(xs[0]) then Some(xs[0])
    else FirstThat(xs[1..], test)
  }

  /** The element with the greatest key among those that pass a test, the earliest one if several are greatest. */
  ghost predicate IsBest<T>(xs: seq<T>, key: T -> real, test: T -> bool, k: nat) {
    && k < |xs| && test(xs[k])
    && (forall i :: 0 <= i < |xs| && test(xs[i]) ==> key(xs[i]) <= key(xs[k]))
    && (forall i :: 0 <= i < k && test(xs[i]) ==> key(xs[i]) < key(xs[k]))
  }

  lemma {:induction false} FirstOfInsert<T(!new)>(x: T, sorted: seq<T>, key: T -> real, test: T -> bool)
    requires Descending(sorted, key)
    ensures FirstThat(Insert(x, sorted, key), test) ==
      var first := FirstThat(sorted, test);
      if test(x) && (first == None || key(x) >= key(first.value)) then Some(x) else first
  {
    if sorted == [] {
    } else {
      if key(x) < key(sorted[0]) {
        FirstOfInsert(x, sorted[1..], key, test);
      }
      FirstIsAt(sorted, test);
    }
  }

  lemma {:induction false} FirstIsAt<T(!new)>(xs: seq<T>, test: T -> bool)
    ensures FirstThat(xs, test).Some? ==>
      exists k :: 0 <= k < |xs| && xs[k] == FirstThat(xs, test).value && test(xs[k])
               && forall i :: 0 <= i < k ==> !test(xs[i])
  {
    if xs != [] && !test(xs[0]) {
      FirstIsAt(xs[1..], test);
      if FirstThat(xs, test).Some? {
        var k :| 0 <= k < |xs| - 1 && xs[1..][k] == FirstThat(xs, test).value && test(xs[1..][k])
          && forall i :: 0 <= i < k ==> !test(xs[1..][i]);
        assert xs[k + 1] == xs[1..][k];
        forall i | 0 <= i < k + 1
          ensures !test(xs[i])
        {
          if i > 0 {
            assert xs[i] == xs[1..][i - 1];
          }
        }
      }
    }
  }

  ghost predicate NonePasses<T>(xs: seq<T>, test: T -> bool) {
    forall i :: 0 <= i < |xs| ==> !test(xs[i])
  }

  /** Where the best element is, without sorting anything. */
  function BestIndex<T>(xs: seq<T>, key: T -> real, test: T -> bool): (r: Option<nat>)
    ensures r.Some? ==> r.value < |xs|
  {
    if xs == [] then None
    else
      var r := BestIndex(xs[1..], key, test);
      if test(xs[0]) && (r == None || key(xs[0]) >= key(xs[1..][r.value])) then Some(0)
      else if r.Some? then Some(r.value + 1)
      else None
  }

  lemma {:induction false} BestIndexIsBest<T>(xs: seq<T>, key: T -> real, test: T -> bool)
    ensures match BestIndex(xs, key, test)
      case Some(k) => IsBest(xs, key, test, k)
      case None => NonePasses(xs, test)
  {
    if xs == [] {
    } else {
      var rest := xs[1..];
      BestIndexIsBest(rest, key, test);
      forall i | 0 < i < |xs|
        ensures test(xs[i]) ==>
          (BestIndex(rest, key, test).Some? && key(xs[i]) <= key(rest[BestIndex(rest, key, test).value]))
      {
        assert xs[i] == rest[i - 1];
      }
    }
  }

  /** Scanning the sorted copy finds the best element of the original list. */
  lemma {:induction false} FirstOfSortedIsBest<T(!new)>(xs: seq<T>, key: T -> real, test: T -> bool)
    ensures FirstThat(SortDescending(xs, key), test) ==
      var best := BestIndex(xs, key, test);
      if best == None then None else Some(xs[best.value])
  {
    if xs == [] {
    } else {
      SortIsDescending(xs[1..], key);
      FirstOfSortedIsBest(xs[1..], key, test);
      FirstOfInsert(xs[0], SortDescending(xs[1..], key), key, test);
    }
  }
}
