/** What a list comprehension with a condition leaves of a list. */
module Keeping {

  ghost predicate Rising(picks: seq<nat>) {
    forall a, b :: 0 <= a < b < |picks| ==> picks[a] < picks[b]
  }

  ghost predicate Taken<T>(items: seq<T>, kept: seq<T>, picks: seq<nat>) {
    |picks| == |kept| && forall k :: 0 <= k < |picks| ==> picks[k] < |items| && kept[k] == items[picks[k]]
  }

  ghost predicate Passes<T>(items: seq<T>, keep: T -> bool, j: nat) {
    j < |items| && keep(items[j])
  }

  ghost predicate KeptAt<T>(items: seq<T>, keep: T -> bool, kept: seq<T>, picks: seq<nat>) {
    Rising(picks) && Taken(items, kept, picks) && forall j: nat :: j in picks <==> Passes(items, keep, j)
  }

  /** kept are exactly the items that pass the test, each place of the list once and in order. */
  ghost predicate Kept<T(!new)>(items: seq<T>, keep: T -> bool, kept: seq<T>) {
    exists picks: seq<nat> :: KeptAt(items, keep, kept, picks)
  }

  /** Positions in a longer list, with or without its new first place. */
  ghost function Moved(picks: seq<nat>, first: bool): seq<nat> {
    if first then seq(|picks| + 1, k requires 0 <= k <= |picks| => if k == 0 then 0 else picks[k - 1] + 1)
    else seq(|picks|, k requires 0 <= k < |picks| => picks[k] + 1)
  }

  lemma MovedHas(picks: seq<nat>, first: bool, j: nat)
    ensures j in Moved(picks, first) <==> if j == 0 then first else j - 1 in picks
  {
    var moved, d := Moved(picks, first), if first then 1 else 0;
    if j > 0 && j - 1 in picks {
      var k :| 0 <= k < |picks| && picks[k] == j - 1;
      assert moved[k + d] == j;
    }
    if j == 0 && first { assert moved[0] == 0; }
    if j > 0 && j in moved {
      var k :| 0 <= k < |moved| && moved[k] == j;
      assert picks[k - d] in picks;
    }
  }

  lemma MovedTaken<T>(items: seq<T>, rest: seq<T>, later: seq<nat>, first: bool)
    requires items != [] && Taken(items[1..], rest, later)
    ensures Taken(items, if first then [items[0]] + rest else rest, Moved(later, first))
  {
  }

  lemma NothingKept<T(!new)>(keep: T -> bool)
    ensures Kept([], keep, [])
  {
    assert KeptAt([], keep, [], []);
  }

  /** One more item in front. */
  lemma KeptInFront<T(!new)>(items: seq<T>, keep: T -> bool, rest: seq<T>)
    requires items != [] && Kept(items[1..], keep, rest)
    ensures Kept(items, keep, if keep(items[0]) then [items[0]] + rest else rest)
  {
    var later: seq<nat> :| KeptAt(items[1..], keep, rest, later);
    var first := keep(items[0]);
    MovedTaken(items, rest, later, first);
    forall j: nat ensures j in Moved(later, first) <==> Passes(items, keep, j) {
      MovedHas(later, first, j);
      if j > 0 { assert Passes(items, keep, j) <==> Passes(items[1..], keep, j - 1); }
    }
    assert KeptAt(items, keep, if first then [items[0]] + rest else rest, Moved(later, first));
  }

  /** What is kept is determined. */
  lemma KeptDetermined<T(!new)>(items: seq<T>, keep: T -> bool, a: seq<T>, b: seq<T>)
    requires Kept(items, keep, a) && Kept(items, keep, b)
    ensures a == b
  {
    var p: seq<nat> :| KeptAt(items, keep, a, p);
    var q: seq<nat> :| KeptAt(items, keep, b, q);
    RisingDetermined(p, q);
  }

  lemma {:induction false} RisingDetermined(p: seq<nat>, q: seq<nat>)
    requires Rising(p) && Rising(q) && forall i: nat :: i in p <==> i in q
    ensures p == q
  {
    assert p == [] || p[0] in p;
    assert q == [] || q[0] in q;
    if p != [] {
      assert p[0] in q && q[0] in p;
      forall i: nat ensures i in p[1..] <==> i in q[1..] {
        assert i in p <==> i == p[0] || i in p[1..];
        assert i in q <==> i == q[0] || i in q[1..];
      }
      RisingDetermined(p[1..], q[1..]);
    }
  }
}
