/** Every interleaving of webhook inserts, leases, extensions, releases, recoveries
    and completions by any number of gateway workers.  A worker may act at any time
    on any event it was ever granted, however stale that grant has become. */
module InboundRuns {
  import opened Base
  import opened Selection
  import opened InboundQueue

  /** The table, the clock, and what the run remembers: the ids ever leased, who was
      granted what, until when each worker believes it holds an event, and the order
      in which events were first completed. */
  datatype World = World(
    table: Table, now: int,
    leased: set<nat>, holders: set<(string, nat)>, beliefs: map<(string, nat), int>, done: seq<nat>)

  datatype Step =
    | Ingest(chat: Option<string>, dedupKey: string, ignored: bool)
    | Lease(worker: string, limit: nat, seconds: int)
    | Extend(worker: string, id: nat, seconds: int)
    | Release(worker: string, id: nat)
    | Finish(worker: string, id: nat)
    | Recover
    | Tick(elapsed: nat)

  predicate Legal(w: World, s: Step) {
    match s
    case Extend(worker, i, _) => (worker, i) in w.holders
    case Release(worker, i) => (worker, i) in w.holders
    case Finish(worker, i) => (worker, i) in w.holders
    case _ => true
  }

  function Handed(worker: string, ids: seq<nat>): set<(string, nat)> {
    set i | i in ids :: (worker, i)
  }

  function Do(w: World, s: Step): World {
    match s
    case Ingest(chat, key, ignored) =>
      w.(table := Inserted(w.table, Event(chat, key, ignored, false, UNLOCKED)))
    case Lease(worker, limit, seconds) =>
      var ids := LeaseIds(w.table, w.now, limit);
      w.(table := Stamped(w.table, ids, Grant(worker, w.now + seconds)),
         leased := w.leased + (set i | i in ids),
         holders := w.holders + Handed(worker, ids),
         beliefs := w.beliefs + (map p | p in Handed(worker, ids) :: w.now + seconds))
    case Extend(worker, i, seconds) =>
      var held := i < |w.table| && w.table[i].lock.lockedBy == Some(worker) && !w.table[i].processed;
      w.(table := Extended(w.table, w.now, i, worker, seconds),
         beliefs := if held then w.beliefs[(worker, i) := w.now + seconds] else w.beliefs)
    case Release(worker, i) =>
      w.(table := Released(w.table, i), beliefs := w.beliefs - {(worker, i)})
    case Finish(worker, i) =>
      w.(table := Processed(w.table, i), beliefs := w.beliefs - {(worker, i)},
         done := if Waiting(w.table, i) then w.done + [i] else w.done)
    case Recover => w.(table := Recovered(w.table, w.now))
    case Tick(elapsed) => w.(now := w.now + elapsed)
  }

  predicate LegalRun(w: World, steps: Script<Step>)
    decreases steps
  {
    match steps
    case Stop => true
    case Then(s, rest) => Legal(w, s) && LegalRun(Do(w, s), rest)
  }

  function Run(w: World, steps: Script<Step>): World
    decreases steps
  {
    match steps
    case Stop => w
    case Then(s, rest) => Run(Do(w, s), rest)
  }

  function Start(now: int): World {
    World([], now, {}, {}, map[], [])
  }

  // ---- Invariants that hold with no discipline at all ---------------------------

  /** No event that was ever leased has an earlier waiting event of its chat. */
  ghost predicate NoOvertaking(w: World) {
    forall i :: i in w.leased ==>
      i < |w.table| && !w.table[i].ignored &&
      forall j :: 0 <= j < i ==> !(Waiting(w.table, j) && SameChat(w.table, j, i))
  }

  ghost predicate GrantsRecorded(w: World) {
    && (forall p :: p in w.holders ==> p.1 in w.leased)
    && (forall p :: p in w.beliefs ==> p in w.holders)
    && (forall i :: 0 <= i < |w.table| && w.table[i].lock.lockedBy.Some? ==>
          (w.table[i].lock.lockedBy.value, i) in w.holders)
  }

  /** Events of one chat were first completed in id order. */
  ghost predicate CompletedInOrder(w: World) {
    && (forall k :: 0 <= k < |w.done| ==> w.done[k] in w.leased && !Waiting(w.table, w.done[k]))
    && (forall a, b :: 0 <= a < b < |w.done| && SameChat(w.table, w.done[a], w.done[b]) ==> w.done[a] < w.done[b])
  }

  ghost predicate Fifo(w: World) {
    NoOvertaking(w) && GrantsRecorded(w) && CompletedInOrder(w)
  }

  /** Rows are only appended, never change chat, and never become waiting again. */
  ghost predicate Evolves(t: Table, u: Table) {
    && |t| <= |u|
    && (forall i :: 0 <= i < |t| ==>
          u[i].chat == t[i].chat && u[i].ignored == t[i].ignored && (t[i].processed ==> u[i].processed))
  }

  lemma StepEvolves(w: World, s: Step)
    ensures Evolves(w.table, Do(w, s).table)
  {
  }

  lemma EvolvesFacts(t: Table, u: Table)
    requires Evolves(t, u)
    ensures forall i: nat, j: nat :: i < |t| && j < |t| ==> (SameChat(u, i, j) <==> SameChat(t, i, j))
    ensures forall i: nat :: i < |t| && Waiting(u, i) ==> Waiting(t, i)
  {
    forall i: nat | i < |t| ensures ChatKey(u, i) == ChatKey(t, i) { }
  }

  lemma StepKeepsNoOvertaking(w: World, s: Step)
    requires NoOvertaking(w)
    ensures NoOvertaking(Do(w, s))
  {
    var v := Do(w, s);
    StepEvolves(w, s);
    EvolvesFacts(w.table, v.table);
    if s.Lease? {
      FirstIsFirst(Offers(w.table, w.now), 0, |w.table|, s.limit);
      var ids := LeaseIds(w.table, w.now, s.limit);
      forall i | i in v.leased
        ensures i < |v.table| && !v.table[i].ignored
        ensures forall j :: 0 <= j < i ==> !(Waiting(v.table, j) && SameChat(v.table, j, i))
      {
        if i !in w.leased {
          assert i in ids && Offers(w.table, w.now)(i);
          assert IsHead(w.table, i);
        }
      }
    }
  }

  lemma StepKeepsGrants(w: World, s: Step)
    requires Legal(w, s) && GrantsRecorded(w)
    ensures GrantsRecorded(Do(w, s))
  {
    var v := Do(w, s);
    if s.Lease? {
      var ids := LeaseIds(w.table, w.now, s.limit);
      forall i | 0 <= i < |v.table| && v.table[i].lock.lockedBy.Some?
        ensures (v.table[i].lock.lockedBy.value, i) in v.holders
      {
        if i in ids { assert (s.worker, i) in v.holders; }
      }
    }
  }

  lemma StepKeepsOrder(w: World, s: Step)
    requires Legal(w, s) && Fifo(w)
    ensures CompletedInOrder(Do(w, s))
  {
    var v := Do(w, s);
    StepEvolves(w, s);
    EvolvesFacts(w.table, v.table);
    forall k | 0 <= k < |v.done| ensures v.done[k] in v.leased && !Waiting(v.table, v.done[k]) {
      if k < |w.done| { assert w.done[k] in w.leased && w.done[k] < |w.table|; }
    }
    forall a, b | 0 <= a < b < |v.done| && SameChat(v.table, v.done[a], v.done[b])
      ensures v.done[a] < v.done[b]
    {
      assert w.done[a] in w.leased && w.done[a] < |w.table|;
      if b < |w.done| {
        assert w.done[b] in w.leased;
      } else {
        // The event completed now was waiting, so nothing of its chat leased before can be later.
        assert v.done[b] == s.id && Waiting(w.table, s.id) && SameChat(w.table, s.id, w.done[a]);
      }
    }
  }

  lemma {:induction false} RunKeepsFifo(w: World, steps: Script<Step>)
    requires Fifo(w) && LegalRun(w, steps)
    ensures Fifo(Run(w, steps))
    decreases steps
  {
    if steps.Then? {
      StepKeepsNoOvertaking(w, steps.step);
      StepKeepsGrants(w, steps.step);
      StepKeepsOrder(w, steps.step);
      RunKeepsFifo(Do(w, steps.step), steps.rest);
    }
  }

  predicate WaitingTogether(w: World, i: nat, j: nat) {
    Waiting(w.table, i) && Waiting(w.table, j) && SameChat(w.table, i, j)
  }

  predicate Locked(w: World, i: nat) {
    i < |w.table| && w.table[i].lock.lockedBy.Some?
  }

  /** In every run from an empty table, even when leases expire and stale workers still report. */
  lemma ChatFifo(now: int, steps: Script<Step>)
    requires LegalRun(Start(now), steps)
    ensures var w := Run(Start(now), steps);
            && NoOvertaking(w)
            && CompletedInOrder(w)
            && (forall i, j | WaitingTogether(w, i, j) && i in w.leased && j in w.leased :: i == j)
            && (forall i, j | WaitingTogether(w, i, j) && Locked(w, i) && Locked(w, j) :: i == j)
  {
    RunKeepsFifo(Start(now), steps);
    var w := Run(Start(now), steps);
    forall i, j | WaitingTogether(w, i, j) && Locked(w, i) && Locked(w, j)
      ensures i == j
    {
      assert i in w.leased && j in w.leased;
    }
  }

  // ---- Exclusive leases need one discipline ----------------------------------------

  /** The worker still believes it holds this waiting event. */
  predicate Live(w: World, worker: string, i: nat) {
    (worker, i) in w.beliefs && w.beliefs[(worker, i)] >= w.now && Waiting(w.table, i)
  }

  /** The row agrees with every live belief. */
  ghost predicate Agreement(w: World) {
    forall worker, i: nat :: Live(w, worker, i) ==> w.table[i].lock == Grant(worker, w.beliefs[(worker, i)])
  }

  /** A release is reported only while the worker's own lease is live. */
  predicate Disciplined(w: World, s: Step) {
    s.Release? ==> Live(w, s.worker, s.id)
  }

  predicate DisciplinedRun(w: World, steps: Script<Step>)
    decreases steps
  {
    match steps
    case Stop => true
    case Then(s, rest) => Legal(w, s) && Disciplined(w, s) && DisciplinedRun(Do(w, s), rest)
  }

  /** An undisciplined release keeps agreement exactly when nobody else's lease on the event is live. */
  lemma ReleaseSafeIff(w: World, worker: string, i: nat)
    requires Agreement(w) && i < |w.table|
    ensures Agreement(Do(w, Release(worker, i))) <==> forall other :: other != worker ==> !Live(w, other, i)
  {
    var v := Do(w, Release(worker, i));
    forall other, j: nat ensures Live(v, other, j) <==> Live(w, other, j) && (other, j) != (worker, i) { }
    if other :| other != worker && Live(w, other, i) {
      assert Live(v, other, i);
    }
  }

  lemma StepKeepsAgreement(w: World, s: Step)
    requires Agreement(w) && GrantsRecorded(w) && Fifo(w) && Legal(w, s) && Disciplined(w, s)
    ensures Agreement(Do(w, s))
  {
    var v := Do(w, s);
    if s.Release? {
      assert w.table[s.id].lock == Grant(s.worker, w.beliefs[(s.worker, s.id)]);
      ReleaseSafeIff(w, s.worker, s.id);
    } else {
      forall worker, i: nat | Live(v, worker, i)
        ensures v.table[i].lock == Grant(worker, v.beliefs[(worker, i)])
      {
        LiveStepAgrees(w, s, worker, i);
      }
    }
  }

  lemma LiveStepAgrees(w: World, s: Step, worker: string, i: nat)
    requires Agreement(w) && Fifo(w) && Legal(w, s) && !s.Release? && Live(Do(w, s), worker, i)
    ensures Do(w, s).table[i].lock == Grant(worker, Do(w, s).beliefs[(worker, i)])
  {
    if s.Lease? {
      LiveLeaseAgrees(w, s, worker, i);
    } else if (worker, i) in w.beliefs {
      assert (worker, i) in w.holders && i in w.leased && i < |w.table|;
    }
  }

  lemma LiveLeaseAgrees(w: World, s: Step, worker: string, i: nat)
    requires Agreement(w) && s.Lease? && Live(Do(w, s), worker, i)
    ensures Do(w, s).table[i].lock == Grant(worker, Do(w, s).beliefs[(worker, i)])
  {
    var ids := LeaseIds(w.table, w.now, s.limit);
    if i in ids {
      FirstIsFirst(Offers(w.table, w.now), 0, |w.table|, s.limit);
      assert Offers(w.table, w.now)(i);
    } else {
      assert (worker, i) !in Handed(s.worker, ids);
      assert Live(w, worker, i);
    }
  }

  lemma {:induction false} RunKeepsAgreement(w: World, steps: Script<Step>)
    requires Agreement(w) && Fifo(w) && DisciplinedRun(w, steps)
    ensures Agreement(Run(w, steps)) && Fifo(Run(w, steps))
    decreases steps
  {
    if steps.Then? {
      StepKeepsNoOvertaking(w, steps.step);
      StepKeepsGrants(w, steps.step);
      StepKeepsOrder(w, steps.step);
      StepKeepsAgreement(w, steps.step);
      RunKeepsAgreement(Do(w, steps.step), steps.rest);
    }
  }

  /** One worker per chat: live beliefs on waiting events of one chat are one belief. */
  lemma ChatExclusive(now: int, steps: Script<Step>, a: string, i: nat, b: string, j: nat)
    requires DisciplinedRun(Start(now), steps)
    requires var w := Run(Start(now), steps); Live(w, a, i) && Live(w, b, j) && SameChat(w.table, i, j)
    ensures a == b && i == j
  {
    RunKeepsAgreement(Start(now), steps);
    var w := Run(Start(now), steps);
    assert (a, i) in w.holders && (b, j) in w.holders;
    assert i in w.leased && j in w.leased;
  }

  /** What `_process_one_row` does when processing fails after its lease ran out: it releases an event
      that another worker holds, and a third worker is granted it as well. */
  lemma StaleReleaseSharesAnEvent(w: World, stale: string, holder: string, third: string, i: nat, seconds: nat)
    requires IsHead(w.table, i) && Live(w, holder, i) && (stale, i) in w.holders && stale != holder && third != holder
    ensures var steps := Then(Release(stale, i), Then(Lease(third, |w.table|, seconds), Stop));
            LegalRun(w, steps) && Live(Run(w, steps), holder, i) && Live(Run(w, steps), third, i)
  {
    var v := Do(w, Release(stale, i));
    var u := Do(v, Lease(third, |w.table|, seconds));
    ReleasedIsOffered(w, stale, i);
    var ids := LeaseIds(v.table, v.now, |w.table|);
    assert (third, i) in Handed(third, ids) && (holder, i) !in Handed(third, ids);
    assert Live(u, holder, i) && Live(u, third, i);
    assert Run(v, Then(Lease(third, |w.table|, seconds), Stop)) == u;
  }

  lemma ReleasedStaysHead(w: World, worker: string, i: nat)
    requires IsHead(w.table, i)
    ensures var v := Do(w, Release(worker, i)); Leasable(v.table, v.now, i) && |v.table| == |w.table|
  {
    var v := Do(w, Release(worker, i));
    EvolvesFacts(w.table, v.table);
  }

  lemma ReleasedIsOffered(w: World, worker: string, i: nat)
    requires IsHead(w.table, i)
    ensures var v := Do(w, Release(worker, i)); i in LeaseIds(v.table, v.now, |w.table|)
  {
    var v := Do(w, Release(worker, i));
    ReleasedStaysHead(w, worker, i);
    AllOffered(v.table, v.now, i);
  }

  /** A limit as large as the table grants every leasable event. */
  lemma AllOffered(t: Table, now: int, i: nat)
    requires Leasable(t, now, i)
    ensures i in LeaseIds(t, now, |t|)
  {
    FirstIsFirst(Offers(t, now), 0, |t|, |t|);
    AscendingFits(LeaseIds(t, now, |t|), |t|);
    assert Offers(t, now)(i);
  }

  /** Such a world is reached by a disciplined run of four steps. */
  lemma StaleReleaseReachable()
    ensures var w := Run(Start(0),
                         Then(Ingest(Some("chat"), "key", false),
                              Then(Lease("A", 1, 1), Then(Tick(2), Then(Lease("B", 1, 10), Stop)))));
            IsHead(w.table, 0) && Live(w, "B", 0) && ("A", 0) in w.holders
  {
    var w1 := Do(Start(0), Ingest(Some("chat"), "key", false));
    assert w1.table == [Event(Some("chat"), "key", false, false, UNLOCKED)];
    OnlyEventLeased(w1, "A", 1);
    var w3 := Do(Do(w1, Lease("A", 1, 1)), Tick(2));
    OnlyEventLeased(w3, "B", 10);
    assert Run(w3, Then(Lease("B", 1, 10), Stop)) == Do(w3, Lease("B", 1, 10));
  }

  lemma OnlyEventLeased(w: World, worker: string, seconds: int)
    requires |w.table| == 1 && Waiting(w.table, 0) && Free(w.table[0].lock, w.now)
    ensures var v := Do(w, Lease(worker, 1, seconds));
            && v.now == w.now && v.table == [w.table[0].(lock := Grant(worker, w.now + seconds))]
            && v.holders == w.holders + {(worker, 0)}
            && v.beliefs == w.beliefs[(worker, 0) := w.now + seconds]
  {
    assert Offers(w.table, w.now)(0);
    assert LeaseIds(w.table, w.now, 1) == [0];
    assert Handed(worker, [0]) == {(worker, 0)};
  }

  // ---- What a step leaves, in columns ------------------------------------------------------------------

  /** Row i, if there is one, becomes `row`, and no other row changes. */
  ghost predicate Rewritten(t: Table, i: nat, row: Event, u: Table) {
    |u| == |t| && (i < |t| ==> u[i] == row) && forall j :: 0 <= j < |t| && j != i ==> u[j] == t[j]
  }

  ghost function RowAt(t: Table, i: nat): Event {
    if i < |t| then t[i] else Event(None, "", false, false, Lock(None, None))
  }

  /** What each step does to the table and the clock; what the run remembers aside. */
  ghost predicate Leaves(w: World, s: Step, v: World) {
    var t, u := w.table, v.table;
    && v.now == (if s.Tick? then w.now + s.elapsed else w.now)
    && match s
       case Ingest(chat, key, ignored) =>
         u == t + if (forall i :: 0 <= i < |t| ==> t[i].dedupKey != key)
                  then [Event(chat, key, ignored, false, Lock(None, None))] else []
       case Lease(worker, limit, seconds) => u == Stamped(t, LeaseIds(t, w.now, limit), Grant(worker, w.now + seconds))
       case Extend(worker, i, seconds) =>
         Rewritten(t, i, if RowAt(t, i).lock.lockedBy == Some(worker) && !RowAt(t, i).processed
                         then RowAt(t, i).(lock := Lock(Some(worker), Some(w.now + seconds))) else RowAt(t, i), u)
       case Release(_, i) => Rewritten(t, i, RowAt(t, i).(lock := Lock(None, None)), u)
       case Finish(_, i) => Rewritten(t, i, RowAt(t, i).(processed := true, lock := Lock(None, None)), u)
       case Recover => Recovers(t, w.now, u)
       case Tick(_) => u == t
  }

  ghost predicate Recovers(t: Table, now: int, u: Table) {
    && |u| == |t|
    && forall i :: 0 <= i < |t| ==>
         u[i] == if !t[i].processed && !t[i].ignored && t[i].lock.expires.Some? && t[i].lock.expires.value < now
                 then t[i].(lock := Lock(None, None)) else t[i]
  }

  lemma RowLeaves(w: World, s: Step)
    requires s.Ingest? || s.Extend? || s.Release? || s.Finish?
    ensures Leaves(w, s, Do(w, s))
  {
  }

  lemma SweepLeaves(w: World, s: Step)
    requires s.Recover? || s.Tick?
    ensures Leaves(w, s, Do(w, s))
  {
  }

  lemma LeaseLeaves(w: World, s: Step)
    requires s.Lease?
    ensures Leaves(w, s, Do(w, s))
  {
  }

  /** Every step, in every column of the table; what a lease grants is said by LeaseServesChats. */
  lemma StepLeaves(w: World, s: Step)
    ensures Leaves(w, s, Do(w, s))
  {
    if s.Lease? {
      LeaseLeaves(w, s);
    } else if s.Recover? || s.Tick? {
      SweepLeaves(w, s);
    } else {
      RowLeaves(w, s);
    }
  }
}
