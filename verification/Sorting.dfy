/** `ORDER BY` and `list.sort`: insertion sort for a total order, with the facts
    that pin its answer down. */
module Sorting {

  ghost predicate TotalOrder<T(!new)>(le: (T, T) -> bool) {
    && (forall x, y :: le(x, y) || le(y, x))
    && (forall x, y, z :: le(x, y) && le(y, z) ==> le(x, z))
    && (forall x, y :: le(x, y) && le(y, x) ==> x == y)
  }

  ghost predicate Sorted<T>(xs: seq<T>, le: (T, T) -> bool) {
    forall i, j :: 0 <= i < j < |xs| ==> le(xs[i], xs[j])
  }

  function Insert<T>(x: T, xs: seq<T>, le: (T, T) -> bool): seq<T> {
    if xs == [] || le(x, xs[0]) then [x] + xs else [xs[0]] + Insert(x, xs[1..], le)
  }

  function Sort<T>(xs: seq<T>, le: (T, T) -> bool): seq<T> {
    if xs == [] then [] else Insert(xs[0], Sort(xs[1..], le), le)
  }

  lemma {:induction false} InsertKeeps<T(!new)>(x: T, xs: seq<T>, le: (T, T) -> bool)
    requires TotalOrder(le) && Sorted(xs, le)
    ensures Sorted(Insert(x, xs, le), le)
    ensures multiset(Insert(x, xs, le)) == multiset{x} + multiset(xs)
  {
    if xs == [] {
    } else if le(x, xs[0]) {
      var r := [x] + xs;
      forall i, j | 0 <= i < j < |r| ensures le(r[i], r[j]) {
        if i == 0 { assert le(x, xs[0]) && (j == 1 || le(xs[0], xs[j - 1])); }
      }
    } else {
      var rest := Insert(x, xs[1..], le);
      InsertKeeps(x, xs[1..], le);
      var r := [xs[0]] + rest;
      assert xs == [xs[0]] + xs[1..];
      forall i, j | 0 <= i < j < |r| ensures le(r[i], r[j]) {
        if i == 0 {
          assert r[j] in multiset(rest);
          if r[j] != x {
            assert r[j] in xs[1..];
          }
        }
      }
    }
  }

  lemma {:induction false} SortSorts<T(!new)>(xs: seq<T>, le: (T, T) -> bool)
    requires TotalOrder(le)
    ensures Sorted(Sort(xs, le), le)
    ensures multiset(Sort(xs, le)) == multiset(xs)
    ensures |Sort(xs, le)| == |xs|
  {
    if xs != [] {
      SortSorts(xs[1..], le);
      InsertKeeps(xs[0], Sort(xs[1..], le), le);
      assert xs == [xs[0]] + xs[1..];
      assert |multiset(Sort(xs, le))| == |multiset(xs)|;
    }
  }

  ghost predicate Distinct<T>(xs: seq<T>) {
    forall i, j :: 0 <= i < j < |xs| ==> xs[i] != xs[j]
  }

  lemma {:induction false} InsertElements<T>(x: T, xs: seq<T>, le: (T, T) -> bool)
    ensures forall y :: y in Insert(x, xs, le) <==> y == x || y in xs
    ensures Distinct(xs) && x !in xs ==> Distinct(Insert(x, xs, le))
  {
    if xs != [] {
      assert xs == [xs[0]] + xs[1..];
      InsertElements(x, xs[1..], le);
      assert xs[0] in xs;
      var rest := Insert(x, xs[1..], le);
      if Distinct(xs) && x !in xs && !le(x, xs[0]) {
        assert xs[0] !in xs[1..];
        assert xs[0] !in rest;
      }
    }
  }

  lemma {:induction false} SortElements<T>(xs: seq<T>, le: (T, T) -> bool)
    ensures forall y :: y in Sort(xs, le) <==> y in xs
    ensures Distinct(xs) ==> Distinct(Sort(xs, le))
  {
    if xs != [] {
      assert xs == [xs[0]] + xs[1..];
      SortElements(xs[1..], le);
      InsertElements(xs[0], Sort(xs[1..], le), le);
    }
  }
}
