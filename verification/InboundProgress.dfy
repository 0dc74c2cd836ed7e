/** Progress of the inbound queue: once every lease has run out, a lease serves the
    oldest chat heads, and rounds of lease-and-process drain any backlog. */
module InboundProgress {
  import opened Base
  import opened Selection
  import opened InboundQueue
  import opened InboundRuns

  /** Every waiting event is free: the clock is past all lease expiries. */
  ghost predicate AllFree(t: Table, now: int) {
    forall i: nat :: Waiting(t, i) ==> Free(t[i].lock, now)
  }

  function HeadTest(t: Table): nat -> bool {
    (i: nat) => IsHead(t, i)
  }

  function Heads(t: Table, limit: nat): seq<nat> {
    First(HeadTest(t), 0, |t|, limit)
  }

  function Backlog(t: Table): set<nat> {
    set i: nat | 0 <= i < |t| && Waiting(t, i)
  }

  /** The oldest waiting event is the head of its chat. */
  lemma OldestIsHead(t: Table, i: nat)
    requires Waiting(t, i) && forall j: nat :: j < i ==> !Waiting(t, j)
    ensures IsHead(t, i)
  {
  }

  lemma {:induction false} SomeHead(t: Table, n: nat)
    requires n < |t| && Waiting(t, n)
    ensures exists i: nat :: i <= n && IsHead(t, i) && forall j: nat :: j < i ==> !Waiting(t, j)
    decreases n
  {
    if j: nat :| j < n && Waiting(t, j) {
      SomeHead(t, j);
    } else {
      OldestIsHead(t, n);
    }
  }

  lemma GrantIsHeads(t: Table, now: int, limit: nat)
    requires AllFree(t, now)
    ensures LeaseIds(t, now, limit) == Heads(t, limit)
  {
    forall i: nat ensures Offers(t, now)(i) == HeadTest(t)(i) { }
    SameAnswer(Offers(t, now), HeadTest(t), 0, |t|, limit);
  }

  /** With no lease outstanding, the grant is exactly the first `limit` chat heads, oldest first. */
  lemma LeaseServesFirstHeads(t: Table, now: int, limit: nat)
    requires AllFree(t, now)
    ensures LeaseIds(t, now, limit) == Heads(t, limit)
    ensures IsFirst(Heads(t, limit), HeadTest(t), 0, |t|, limit) && ServesChats(t, now, limit, Heads(t, limit))
    ensures forall oldest: nat ::
              limit >= 1 && Waiting(t, oldest) && (forall j: nat :: j < oldest ==> !Waiting(t, j)) ==>
              LeaseIds(t, now, limit) != [] && LeaseIds(t, now, limit)[0] == oldest
  {
    GrantIsHeads(t, now, limit);
    LeaseServesChats(t, now, limit);
    FirstIsFirst(HeadTest(t), 0, |t|, limit);
    var ids := LeaseIds(t, now, limit);
    forall oldest: nat | limit >= 1 && Waiting(t, oldest) && (forall j: nat :: j < oldest ==> !Waiting(t, j))
      ensures ids != [] && ids[0] == oldest
    {
      OldestIsHead(t, oldest);
      assert HeadTest(t)(oldest);
      if ids != [] { assert HeadTest(t)(ids[0]); }
    }
  }

  // ---- Draining -------------------------------------------------------------------

  function FinishSteps(worker: string, ids: seq<nat>): Script<Step> {
    if ids == [] then Stop else Then(Finish(worker, ids[0]), FinishSteps(worker, ids[1..]))
  }

  /** Wait until every lease has run out, lease, and complete what was granted. */
  function Round(w: World, worker: string, limit: nat, seconds: int, pause: nat): Script<Step> {
    Then(Tick(pause), Then(Lease(worker, limit, seconds), FinishSteps(worker, Heads(w.table, limit))))
  }

  lemma {:induction false} FinishesAll(w: World, worker: string, ids: seq<nat>)
    requires forall k :: 0 <= k < |ids| ==> (worker, ids[k]) in w.holders
    ensures LegalRun(w, FinishSteps(worker, ids))
    ensures Backlog(Run(w, FinishSteps(worker, ids)).table) == Backlog(w.table) - set i | i in ids
    decreases |ids|
  {
    if ids != [] {
      var v := Do(w, Finish(worker, ids[0]));
      FinishesAll(v, worker, ids[1..]);
      assert Backlog(v.table) == Backlog(w.table) - {ids[0]};
      assert ids == [ids[0]] + ids[1..];
    }
  }

  lemma LeaseHandsOut(v: World, worker: string, limit: nat, seconds: int)
    ensures var u := Do(v, Lease(worker, limit, seconds)); var ids := LeaseIds(v.table, v.now, limit);
            Backlog(u.table) == Backlog(v.table) && forall k :: 0 <= k < |ids| ==> (worker, ids[k]) in u.holders
  {
    var u := Do(v, Lease(worker, limit, seconds));
    var ids := LeaseIds(v.table, v.now, limit);
    forall i ensures i in Backlog(u.table) <==> i in Backlog(v.table) { }
    forall k | 0 <= k < |ids| ensures (worker, ids[k]) in u.holders { assert ids[k] in ids; }
  }

  function Leased(w: World, worker: string, limit: nat, seconds: int, pause: nat): World {
    Do(Do(w, Tick(pause)), Lease(worker, limit, seconds))
  }

  lemma RoundUnfolds(w: World, worker: string, limit: nat, seconds: int, pause: nat)
    ensures var u := Leased(w, worker, limit, seconds, pause);
            var finish := FinishSteps(worker, Heads(w.table, limit));
            && (LegalRun(u, finish) ==> LegalRun(w, Round(w, worker, limit, seconds, pause)))
            && Run(w, Round(w, worker, limit, seconds, pause)) == Run(u, finish)
  {
    var v := Do(w, Tick(pause));
    var finish := FinishSteps(worker, Heads(w.table, limit));
    assert Run(v, Then(Lease(worker, limit, seconds), finish)) == Run(Leased(w, worker, limit, seconds, pause), finish);
    assert LegalRun(v, Then(Lease(worker, limit, seconds), finish)) ==
             LegalRun(Leased(w, worker, limit, seconds, pause), finish);
  }

  /** After the pause the lease hands out the heads and completes nothing. */
  lemma HeadsHandedOut(w: World, worker: string, limit: nat, seconds: int, pause: nat)
    requires AllFree(w.table, w.now + pause)
    ensures var u := Leased(w, worker, limit, seconds, pause);
            var ids := Heads(w.table, limit);
            Backlog(u.table) == Backlog(w.table) && forall k :: 0 <= k < |ids| ==> (worker, ids[k]) in u.holders
  {
    GrantIsHeads(w.table, w.now + pause, limit);
    assert LeaseIds(Do(w, Tick(pause)).table, Do(w, Tick(pause)).now, limit) == Heads(w.table, limit);
    LeaseHandsOut(Do(w, Tick(pause)), worker, limit, seconds);
  }

  /** A round is a legal run that removes exactly the heads it was granted: at least one while any event waits. */
  lemma RoundServesHeads(w: World, worker: string, limit: nat, seconds: int, pause: nat)
    requires AllFree(w.table, w.now + pause)
    ensures LegalRun(w, Round(w, worker, limit, seconds, pause))
    ensures Backlog(Run(w, Round(w, worker, limit, seconds, pause)).table)
            == Backlog(w.table) - set i | i in Heads(w.table, limit)
    ensures limit >= 1 && Backlog(w.table) != {} ==>
              Heads(w.table, limit) != [] && Heads(w.table, limit)[0] in Backlog(w.table)
  {
    HeadsHandedOut(w, worker, limit, seconds, pause);
    FinishesAll(Leased(w, worker, limit, seconds, pause), worker, Heads(w.table, limit));
    RoundUnfolds(w, worker, limit, seconds, pause);
    if limit >= 1 && Backlog(w.table) != {} {
      SomeHeadServed(w.table, limit);
    }
  }

  lemma SomeHeadServed(t: Table, limit: nat)
    requires limit >= 1 && Backlog(t) != {}
    ensures Heads(t, limit) != [] && Heads(t, limit)[0] in Backlog(t)
  {
    var n :| n in Backlog(t);
    SomeHead(t, n);
    var i: nat :| i <= n && IsHead(t, i);
    FirstIsFirst(HeadTest(t), 0, |t|, limit);
    assert HeadTest(t)(i);
    assert HeadTest(t)(Heads(t, limit)[0]);
  }

  /** A pause long enough for every lease to run out. */
  function PauseFor(t: Table, now: int): nat {
    if t == [] then 0
    else
      var rest := PauseFor(t[1..], now);
      var own := if t[0].lock.expires.Some? then t[0].lock.expires.value + 1 - now else rest;
      if own > rest then own else rest
  }

  lemma {:induction false} PauseOutlastsLeases(t: Table, now: int)
    ensures forall i :: 0 <= i < |t| ==> Free(t[i].lock, now + PauseFor(t, now))
  {
    if t != [] {
      PauseOutlastsLeases(t[1..], now);
      forall i | 0 <= i < |t| ensures Free(t[i].lock, now + PauseFor(t, now)) {
        if i > 0 { assert t[i] == t[1..][i - 1]; }
      }
    }
  }

  /** n rounds, each starting when the leases of the previous ones are over. */
  function Rounds(w: World, worker: string, limit: nat, seconds: int, n: nat): Script<Step>
    decreases n
  {
    if n == 0 then Stop
    else
      var round := NextRound(w, worker, limit, seconds);
      Chain(round, Rounds(Run(w, round), worker, limit, seconds, n - 1))
  }

  lemma {:induction false} RunChains(w: World, first: Script<Step>, second: Script<Step>)
    requires LegalRun(w, first) && LegalRun(Run(w, first), second)
    ensures LegalRun(w, Chain(first, second)) && Run(w, Chain(first, second)) == Run(Run(w, first), second)
    decreases first
  {
    if first.Then? {
      RunChains(Do(w, first.step), first.rest, second);
    }
  }

  function NextRound(w: World, worker: string, limit: nat, seconds: int): Script<Step> {
    Round(w, worker, limit, seconds, PauseFor(w.table, w.now))
  }

  /** The number of waiting events is a termination measure of the consumer. */
  lemma RoundShrinksBacklog(w: World, worker: string, limit: nat, seconds: int)
    requires limit >= 1
    ensures LegalRun(w, NextRound(w, worker, limit, seconds))
    ensures var left := Backlog(Run(w, NextRound(w, worker, limit, seconds)).table);
            left <= Backlog(w.table) && (Backlog(w.table) != {} ==> |left| < |Backlog(w.table)|)
  {
    PauseOutlastsLeases(w.table, w.now);
    RoundServesHeads(w, worker, limit, seconds, PauseFor(w.table, w.now));
    if Backlog(w.table) != {} {
      var head := Heads(w.table, limit)[0];
      assert head in Heads(w.table, limit);
      Shrinks(Backlog(Run(w, NextRound(w, worker, limit, seconds)).table), Backlog(w.table), head);
    }
  }

  /** From any world, as many rounds as there are waiting events empty the queue. */
  lemma {:induction false} RoundsDrainBacklog(w: World, worker: string, limit: nat, seconds: int, n: nat)
    requires limit >= 1 && n >= |Backlog(w.table)|
    ensures LegalRun(w, Rounds(w, worker, limit, seconds, n))
    ensures Backlog(Run(w, Rounds(w, worker, limit, seconds, n)).table) == {}
    decreases n
  {
    if n > 0 {
      var round := NextRound(w, worker, limit, seconds);
      RoundShrinksBacklog(w, worker, limit, seconds);
      RoundsDrainBacklog(Run(w, round), worker, limit, seconds, n - 1);
      RunChains(w, round, Rounds(Run(w, round), worker, limit, seconds, n - 1));
    }
  }

  lemma Shrinks(a: set<nat>, b: set<nat>, x: nat)
    requires a <= b && x in b && x !in a
    ensures |a| < |b|
  {
    Fits(a, b - {x});
  }

  lemma {:induction false} Fits(a: set<nat>, b: set<nat>)
    requires a <= b
    ensures |a| <= |b|
  {
    if x :| x in a {
      Fits(a - {x}, b - {x});
    }
  }
}
