/** Vocabulary shared by the models: optional values, error results and the
    lease columns that every durable queue table carries. */
module Base {

  datatype Option<+T> = None | Some(value: T)

  datatype Result<+T> = Ok(value: T) | Err(error: string)

  /** The `locked_by` and `lease_expires_at` columns of a queue row. */
  datatype Lock = Lock(lockedBy: Option<string>, expires: Option<int>)

  const UNLOCKED := Lock(None, None)

  /** `locked_by IS NULL OR lease_expires_at IS NULL OR lease_expires_at < NOW(6)` */
  predicate Free(lock: Lock, now: int) {
    lock.lockedBy.None? || lock.expires.None? || lock.expires.value < now
  }

  function Grant(worker: string, until: int): Lock {
    Lock(Some(worker), Some(until))
  }

  /** `lease_expires_at IS NOT NULL AND lease_expires_at < NOW(6)` */
  predicate Expired(lock: Lock, now: int) {
    lock.expires.Some? && lock.expires.value < now
  }

  /** A finite run: the steps of all workers in the order in which they take effect. */
  datatype Script<S> = Stop | Then(step: S, rest: Script<S>)

  function Chain<S>(first: Script<S>, second: Script<S>): Script<S> {
    match first
    case Stop => second
    case Then(s, rest) => Then(s, Chain(rest, second))
  }

  /** Decimal rendering of a row id, as `CONCAT` and f-strings produce it. */
  function Decimal(n: nat): (s: string)
    ensures s != ""
    ensures forall k :: 0 <= k < |s| ==> '0' <= s[k] <= '9'
  {
    if n < 10 then ['0' + n as char] else Decimal(n / 10) + ['0' + (n % 10) as char]
  }

  /** The number that decimal digits stand for. */
  ghost function NumberOf(digits: string): int {
    if digits == "" then 0 else 10 * NumberOf(digits[..|digits| - 1]) + (digits[|digits| - 1] as int - '0' as int)
  }

  lemma {:induction false} DecimalIsNumber(n: nat)
    ensures NumberOf(Decimal(n)) == n && (Decimal(n)[0] == '0' ==> n == 0)
  {
    var s := Decimal(n);
    if n >= 10 {
      DecimalIsNumber(n / 10);
      assert s[..|s| - 1] == Decimal(n / 10);
    }
  }

  lemma {:induction false} DecimalInjective(a: nat, b: nat)
    requires Decimal(a) == Decimal(b)
    ensures a == b
  {
    var s, t := Decimal(a), Decimal(b);
    assert s[|s| - 1] == '0' + (a % 10) as char;
    assert t[|t| - 1] == '0' + (b % 10) as char;
    assert a < 10 <==> |s| == 1;
    assert b < 10 <==> |t| == 1;
    if a >= 10 {
      assert Decimal(a / 10) == s[..|s| - 1] == t[..|t| - 1] == Decimal(b / 10);
      DecimalInjective(a / 10, b / 10);
    }
  }
}

/** `SELECT id ... WHERE p(id) ORDER BY id LIMIT n`, for tables whose rows are
    numbered in insertion order. */
module Selection {

  /** How far the answer reaches: to the end of the table unless LIMIT cut it. */
  function Reach(ids: seq<nat>, lo: nat, hi: nat, limit: nat): nat {
    if |ids| < limit then hi else if ids == [] then lo else ids[|ids| - 1] + 1
  }

  ghost predicate Ascending(ids: seq<nat>) {
    forall a, b :: 0 <= a < b < |ids| ==> ids[a] < ids[b]
  }

  /** ids is the answer of the query: the first `limit` numbers of [lo, hi) that satisfy p, ascending. */
  ghost predicate IsFirst(ids: seq<nat>, p: nat -> bool, lo: nat, hi: nat, limit: nat) {
    && |ids| <= limit && (lo < hi || ids == [])
    && Ascending(ids)
    && (forall k :: 0 <= k < |ids| ==> lo <= ids[k] < hi && p(ids[k]))
    && (forall i: nat :: lo <= i < Reach(ids, lo, hi, limit) && p(i) ==> i in ids)
  }

  function First(p: nat -> bool, lo: nat, hi: nat, limit: nat): (ids: seq<nat>)
    decreases hi - lo
  {
    if lo >= hi || limit == 0 then []
    else if p(lo) then [lo] + First(p, lo + 1, hi, limit - 1)
    else First(p, lo + 1, hi, limit)
  }

  /** Putting a fitting number in front of an answer for the rest. */
  lemma FirstTakes(rest: seq<nat>, p: nat -> bool, lo: nat, hi: nat, limit: nat)
    requires lo < hi && limit > 0 && p(lo) && IsFirst(rest, p, lo + 1, hi, limit - 1)
    ensures IsFirst([lo] + rest, p, lo, hi, limit)
  {
    var ids := [lo] + rest;
    forall i: nat | lo <= i < Reach(ids, lo, hi, limit) && p(i) ensures i in ids {
      if i != lo { assert i in rest; }
    }
  }

  lemma {:induction false} FirstIsFirst(p: nat -> bool, lo: nat, hi: nat, limit: nat)
    ensures IsFirst(First(p, lo, hi, limit), p, lo, hi, limit)
    decreases hi - lo
  {
    if lo >= hi || limit == 0 {
    } else if p(lo) {
      FirstIsFirst(p, lo + 1, hi, limit - 1);
      FirstTakes(First(p, lo + 1, hi, limit - 1), p, lo, hi, limit);
    } else {
      FirstIsFirst(p, lo + 1, hi, limit);
    }
  }

  /** Distinct numbers below n are at most n many. */
  lemma {:induction false} AscendingFits(ids: seq<nat>, n: nat)
    requires Ascending(ids) && forall k :: 0 <= k < |ids| ==> ids[k] < n
    ensures |ids| <= n
    ensures ids != [] ==> ids[|ids| - 1] + 1 >= |ids|
  {
    if ids != [] {
      AscendingFits(ids[..|ids| - 1], ids[|ids| - 1]);
    }
  }

  /** The answer depends on the test only through its truth values. */
  lemma {:induction false} SameAnswer(p: nat -> bool, q: nat -> bool, lo: nat, hi: nat, limit: nat)
    requires forall i: nat :: lo <= i < hi ==> p(i) == q(i)
    ensures First(p, lo, hi, limit) == First(q, lo, hi, limit)
    decreases hi - lo
  {
    if lo < hi && limit > 0 {
      SameAnswer(p, q, lo + 1, hi, if p(lo) then limit - 1 else limit);
    }
  }

  lemma FirstStartsAt(ids: seq<nat>, p: nat -> bool, lo: nat, hi: nat, limit: nat)
    requires IsFirst(ids, p, lo, hi, limit) && lo < hi && limit > 0
    ensures p(lo) ==> ids != [] && ids[0] == lo && IsFirst(ids[1..], p, lo + 1, hi, limit - 1)
    ensures !p(lo) ==> IsFirst(ids, p, lo + 1, hi, limit)
  {
    assert ids != [] ==> lo <= ids[0] < hi && p(ids[0]);
    if p(lo) {
      assert lo < Reach(ids, lo, hi, limit);
      var k :| 0 <= k < |ids| && ids[k] == lo;
      assert k == 0;
      var rest := ids[1..];
      forall i: nat | lo + 1 <= i < Reach(rest, lo + 1, hi, limit - 1) && p(i) ensures i in rest {
        assert i in ids;
      }
    }
  }

  /** The specification determines the answer. */
  lemma {:induction false} FirstUnique(ids: seq<nat>, p: nat -> bool, lo: nat, hi: nat, limit: nat)
    requires IsFirst(ids, p, lo, hi, limit)
    ensures ids == First(p, lo, hi, limit)
    decreases hi - lo
  {
    if lo >= hi || limit == 0 {
    } else {
      FirstStartsAt(ids, p, lo, hi, limit);
      if p(lo) {
        FirstUnique(ids[1..], p, lo + 1, hi, limit - 1);
        assert ids == [lo] + ids[1..];
      } else {
        FirstUnique(ids, p, lo + 1, hi, limit);
      }
    }
  }
}
