/** What `INSERT ... ON DUPLICATE KEY UPDATE id = id` leaves of a table when rows are
    inserted one after the other. */
module KeyedInserts {
  import opened Keeping

  ghost predicate Ascends(picks: seq<nat>, lo: nat, hi: nat) {
    Rising(picks) && forall k :: 0 <= k < |picks| ==> lo <= picks[k] < hi
  }

  /** Row j clashes with no stored row and with none of the rows that are stored before it. */
  ghost predicate New<T>(t: seq<T>, rows: seq<T>, clash: (T, T) -> bool, picks: seq<nat>, j: nat)
    requires j < |rows|
  {
    && (forall i :: 0 <= i < |t| ==> !clash(t[i], rows[j]))
    && (forall i: nat :: i in picks && i < j ==> !clash(rows[i], rows[j]))
  }

  ghost predicate Picked<T>(t: seq<T>, rows: seq<T>, clash: (T, T) -> bool, lo: nat, u: seq<T>, picks: seq<nat>) {
    && Ascends(picks, lo, |rows|)
    && (forall j: nat :: lo <= j < |rows| ==> (j in picks <==> New(t, rows, clash, picks, j)))
    && u == t + seq(|picks|, k requires 0 <= k < |picks| => rows[picks[k]])
  }

  /** The stored rows are as they were, and after them stand, in their order, those of the rows whose unique key was
      still free. */
  ghost predicate Added<T(!new)>(t: seq<T>, rows: seq<T>, clash: (T, T) -> bool, u: seq<T>) {
    AddedFrom(t, rows, clash, 0, u)
  }

  /** The same for the rows from position lo on. */
  ghost predicate AddedFrom<T(!new)>(t: seq<T>, rows: seq<T>, clash: (T, T) -> bool, lo: nat, u: seq<T>) {
    exists picks :: Picked(t, rows, clash, lo, u, picks)
  }

  lemma PickSkips<T>(t: seq<T>, rows: seq<T>, clash: (T, T) -> bool, lo: nat, u: seq<T>, picks: seq<nat>)
    requires lo < |rows| && exists i :: 0 <= i < |t| && clash(t[i], rows[lo])
    requires Picked(t, rows, clash, lo + 1, u, picks)
    ensures Picked(t, rows, clash, lo, u, picks)
  {
    assert !New(t, rows, clash, picks, lo);
  }

  lemma NewAfter<T>(t: seq<T>, rows: seq<T>, clash: (T, T) -> bool, lo: nat, picks: seq<nat>, j: nat)
    requires lo < j < |rows| && Ascends(picks, lo + 1, |rows|)
    ensures New(t + [rows[lo]], rows, clash, picks, j) <==> New(t, rows, clash, [lo] + picks, j)
  {
    assert (t + [rows[lo]])[|t|] == rows[lo] && lo in [lo] + picks;
    if New(t + [rows[lo]], rows, clash, picks, j) {
      forall i | 0 <= i < |t| ensures !clash(t[i], rows[j]) { assert (t + [rows[lo]])[i] == t[i]; }
    }
  }

  lemma PickTakes<T>(t: seq<T>, rows: seq<T>, clash: (T, T) -> bool, lo: nat, u: seq<T>, picks: seq<nat>)
    requires lo < |rows| && forall i :: 0 <= i < |t| ==> !clash(t[i], rows[lo])
    requires Picked(t + [rows[lo]], rows, clash, lo + 1, u, picks)
    ensures Picked(t, rows, clash, lo, u, [lo] + picks)
  {
    var all := [lo] + picks;
    forall j: nat | lo <= j < |rows| ensures j in all <==> New(t, rows, clash, all, j) {
      if j > lo {
        NewAfter(t, rows, clash, lo, picks, j);
        assert j in all <==> j in picks;
      }
    }
    assert seq(|all|, k requires 0 <= k < |all| => rows[all[k]]) ==
           [rows[lo]] + seq(|picks|, k requires 0 <= k < |picks| => rows[picks[k]]);
  }

  lemma AddsNone<T(!new)>(t: seq<T>, rows: seq<T>, clash: (T, T) -> bool, lo: nat)
    requires lo >= |rows|
    ensures AddedFrom(t, rows, clash, lo, t)
  {
    assert Picked(t, rows, clash, lo, t, []);
  }

  /** One row is inserted, and then the rest. */
  lemma AddsOne<T(!new)>(t: seq<T>, rows: seq<T>, clash: (T, T) -> bool, lo: nat, t1: seq<T>, u: seq<T>)
    requires lo < |rows| && AddedFrom(t1, rows, clash, lo + 1, u)
    requires t1 == if exists i :: 0 <= i < |t| && clash(t[i], rows[lo]) then t else t + [rows[lo]]
    ensures AddedFrom(t, rows, clash, lo, u)
  {
    var picks :| Picked(t1, rows, clash, lo + 1, u, picks);
    if exists i :: 0 <= i < |t| && clash(t[i], rows[lo]) {
      PickSkips(t, rows, clash, lo, u, picks);
    } else {
      PickTakes(t, rows, clash, lo, u, picks);
    }
  }

  /** What is added is determined. */
  lemma {:induction false} AddedOnce<T>(t: seq<T>, rows: seq<T>, clash: (T, T) -> bool, p: seq<nat>, q: seq<nat>,
                                        j: nat)
    requires j <= |rows|
    requires forall i: nat :: i < |rows| ==> (i in p <==> New(t, rows, clash, p, i))
    requires forall i: nat :: i < |rows| ==> (i in q <==> New(t, rows, clash, q, i))
    ensures forall i: nat :: i < j ==> (i in p <==> i in q)
  {
    if j > 0 {
      AddedOnce(t, rows, clash, p, q, j - 1);
      assert New(t, rows, clash, p, j - 1) <==> New(t, rows, clash, q, j - 1);
    }
  }

  lemma AddedDetermined<T(!new)>(t: seq<T>, rows: seq<T>, clash: (T, T) -> bool, u: seq<T>, v: seq<T>)
    requires Added(t, rows, clash, u) && Added(t, rows, clash, v)
    ensures u == v
  {
    var p :| Picked(t, rows, clash, 0, u, p);
    var q :| Picked(t, rows, clash, 0, v, q);
    AddedOnce(t, rows, clash, p, q, |rows|);
    RisingDetermined(p, q);
  }
}
