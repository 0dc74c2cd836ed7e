/** Every interleaving of enqueues, group leases and sender reports. */
module OutboundRuns {
  import opened Base
  import opened Selection
  import opened Sorting
  import opened OutboundQueue
  import opened OutboundRepository

  datatype World = World(table: Table, now: int)

  datatype Step =
    | Enqueue(conversation: Option<string>, dedupKey: string, status: Status, blockIndex: Option<int>)
    | Lease(worker: string, limit: nat, most: nat, seconds: int, delay: int)
    | Extend(worker: string, id: nat, seconds: int)
    | Retry(worker: string, id: nat, base: int, cap: int)
    | Close(id: nat, status: Status)
    | Release(id: nat)
    | Takeover(taken: string)
    | Recover
    | Tick(elapsed: nat)

  function Granted(w: World, limit: nat, most: nat, delay: int): seq<nat> {
    Flat(GroupsOf(w.table, w.now, delay, LeaderKeys(w.table, w.now, delay, limit), 0, most))
  }

  function Do(w: World, s: Step): World {
    match s
    case Enqueue(c, key, status, block) =>
      w.(table := Inserted(w.table, Message(c, key, status, block, w.now, 0, UNLOCKED)))
    case Lease(worker, limit, most, seconds, delay) =>
      w.(table := Stamped(w.table, Granted(w, limit, most, delay), Grant(worker, w.now + seconds)))
    case Extend(worker, i, seconds) => w.(table := Extended(w.table, w.now, i, worker, seconds))
    case Retry(_, i, base, cap) => w.(table := BackedOff(w.table, w.now, i, Retryable, base, cap))
    case Close(i, status) => w.(table := Closing(w.table, i, status))
    case Release(i) => w.(table := Released(w.table, i))
    case Takeover(c) => w.(table := Cancelled(w.table, c))
    case Recover => w.(table := Recovered(w.table, w.now))
    case Tick(elapsed) => w.(now := w.now + elapsed)
  }

  function Run(w: World, steps: Script<Step>): World
    decreases steps
  {
    match steps
    case Stop => w
    case Then(s, rest) => Run(Do(w, s), rest)
  }

  /** The live-locked active rows of a conversation belong to one worker. */
  ghost predicate Exclusive(w: World) {
    forall i: nat, j: nat ::
      LiveLocked(w.table, w.now, i) && LiveLocked(w.table, w.now, j) && SameConversation(w.table, i, j) ==>
        w.table[i].lock.lockedBy == w.table[j].lock.lockedBy
  }

  predicate HeldBy(w: World, worker: string, i: nat) {
    LiveLocked(w.table, w.now, i) && w.table[i].lock.lockedBy == Some(worker)
  }

  /** Extensions and retryable failures are reported while the worker's own lease is live. */
  predicate Disciplined(w: World, s: Step) {
    match s
    case Extend(worker, i, _) => HeldBy(w, worker, i)
    case Retry(worker, i, base, cap) => HeldBy(w, worker, i)
    case _ => true
  }

  predicate DisciplinedRun(w: World, steps: Script<Step>)
    decreases steps
  {
    match steps
    case Stop => true
    case Then(s, rest) => Disciplined(w, s) && DisciplinedRun(Do(w, s), rest)
  }

  // ---- What one lease grants ------------------------------------------------------------

  lemma {:induction false} FlatOfGroups(t: Table, now: int, delay: int, keys: seq<string>, k: nat, most: nat, i: nat)
    requires i in Flat(GroupsOf(t, now, delay, keys, k, most))
    ensures exists m :: k <= m < |keys| && i in Group(t, now, delay, keys[m], most)
    decreases |keys| - k
  {
    if k < |keys| {
      var ids := Group(t, now, delay, keys[k], most);
      var rest := GroupsOf(t, now, delay, keys, k + 1, most);
      if ids != [] { assert ([ids] + rest)[1..] == rest; }
      if i !in ids {
        FlatOfGroups(t, now, delay, keys, k + 1, most, i);
      }
    }
  }

  /** No overtaking: every granted row is available, and no row of its conversation is leased or backing off. */
  lemma GrantedRows(w: World, limit: nat, most: nat, delay: int, i: nat)
    requires i in Granted(w, limit, most, delay)
    ensures Available(w.table, w.now, delay, i)
    ensures forall j: nat :: SameConversation(w.table, i, j) ==> !LiveLocked(w.table, w.now, j)
  {
    var keys := LeaderKeys(w.table, w.now, delay, limit);
    FlatOfGroups(w.table, w.now, delay, keys, 0, most, i);
    var m :| 0 <= m < |keys| && i in Group(w.table, w.now, delay, keys[m], most);
    GroupIsGroup(w.table, w.now, delay, keys[m], most);
    LeadersDistinct(w.table, w.now, delay, limit);
    var lead := LeaderIds(w.table, w.now, delay, limit)[m];
    assert Leads(w.table, w.now, delay, lead) && SameConversation(w.table, lead, i);
    forall j: nat | SameConversation(w.table, i, j) ensures !LiveLocked(w.table, w.now, j) {
      assert SameConversation(w.table, j, lead);
    }
  }

  // ---- Exclusivity over runs ---------------------------------------------------------------

  predicate SameKeys(t: Table, u: Table) {
    |t| <= |u| && forall i :: 0 <= i < |t| ==> u[i].conversation == t[i].conversation
  }

  lemma StepKeepsKeys(w: World, s: Step)
    ensures SameKeys(w.table, Do(w, s).table)
    ensures forall i: nat, j: nat :: i < |w.table| && j < |w.table| ==>
              (SameConversation(Do(w, s).table, i, j) <==> SameConversation(w.table, i, j))
  {
    var u := Do(w, s).table;
    forall i: nat | i < |w.table| ensures Key(u, i) == Key(w.table, i) { }
  }

  /** Apart from a lease, a step locks nothing new: a disciplined one keeps every live lock's owner. */
  lemma StepKeepsOwners(w: World, s: Step, i: nat)
    requires Disciplined(w, s) && !s.Lease? && LiveLocked(Do(w, s).table, Do(w, s).now, i)
    ensures LiveLocked(w.table, w.now, i) && Do(w, s).table[i].lock.lockedBy == w.table[i].lock.lockedBy
  {
  }

  /** A conversation that is granted any row had no live lock, so all its live locks are the new ones. */
  lemma LeaseExcludes(w: World, s: Step, i: nat, j: nat)
    requires s.Lease? && SameConversation(w.table, i, j) && i in Granted(w, s.limit, s.most, s.delay)
    ensures LiveLocked(Do(w, s).table, w.now, j) ==> j in Granted(w, s.limit, s.most, s.delay)
  {
    GrantedRows(w, s.limit, s.most, s.delay, i);
  }

  lemma LeaseKeepsPair(w: World, s: Step, i: nat, j: nat)
    requires Exclusive(w) && s.Lease? && SameConversation(w.table, i, j)
    requires LiveLocked(Do(w, s).table, w.now, i) && LiveLocked(Do(w, s).table, w.now, j)
    ensures Do(w, s).table[i].lock.lockedBy == Do(w, s).table[j].lock.lockedBy
  {
    var granted := Granted(w, s.limit, s.most, s.delay);
    if i in granted {
      LeaseExcludes(w, s, i, j);
    } else if j in granted {
      LeaseExcludes(w, s, j, i);
    } else {
      assert LiveLocked(w.table, w.now, i) && LiveLocked(w.table, w.now, j);
    }
  }

  lemma StepKeepsExclusive(w: World, s: Step)
    requires Exclusive(w) && Disciplined(w, s)
    ensures Exclusive(Do(w, s))
  {
    var v := Do(w, s);
    forall i: nat, j: nat | LiveLocked(v.table, v.now, i) && LiveLocked(v.table, v.now, j)
      && SameConversation(v.table, i, j)
      ensures v.table[i].lock.lockedBy == v.table[j].lock.lockedBy
    {
      StepKeepsPair(w, s, i, j);
    }
  }

  lemma StepKeepsPair(w: World, s: Step, i: nat, j: nat)
    requires Exclusive(w) && Disciplined(w, s)
    requires var v := Do(w, s);
             LiveLocked(v.table, v.now, i) && LiveLocked(v.table, v.now, j) && SameConversation(v.table, i, j)
    ensures Do(w, s).table[i].lock.lockedBy == Do(w, s).table[j].lock.lockedBy
  {
    StepKeepsKeys(w, s);
    if s.Lease? {
      LeaseKeepsPair(w, s, i, j);
    } else {
      StepKeepsOwners(w, s, i);
      StepKeepsOwners(w, s, j);
      assert SameConversation(w.table, i, j);
    }
  }

  lemma {:induction false} RunKeepsExclusive(w: World, steps: Script<Step>)
    requires Exclusive(w) && DisciplinedRun(w, steps)
    ensures Exclusive(Run(w, steps))
    decreases steps
  {
    if steps.Then? {
      StepKeepsExclusive(w, steps.step);
      RunKeepsExclusive(Do(w, steps.step), steps.rest);
    }
  }

  /** From an empty table, every disciplined run keeps conversations exclusive. */
  lemma ConversationsExclusive(now: int, steps: Script<Step>)
    requires DisciplinedRun(World([], now), steps)
    ensures Exclusive(Run(World([], now), steps))
  {
    RunKeepsExclusive(World([], now), steps);
  }

  // ---- A held conversation stays held -----------------------------------------------------------

  /** Steps that do not report on the conversation of row i. */
  predicate Elsewhere(w: World, i: nat, s: Step) {
    match s
    case Extend(_, j, _) => !SameConversation(w.table, i, j)
    case Retry(_, j, _, _) => !SameConversation(w.table, i, j)
    case Close(j, _) => !SameConversation(w.table, i, j)
    case Release(j) => !SameConversation(w.table, i, j)
    case Takeover(c) => i < |w.table| && w.table[i].conversation != Some(c)
    case _ => true
  }

  predicate ElsewhereRun(w: World, i: nat, steps: Script<Step>)
    decreases steps
  {
    match steps
    case Stop => true
    case Then(s, rest) => Elsewhere(w, i, s) && ElsewhereRun(Do(w, s), i, rest)
  }

  predicate Grants(w: World, s: Step, j: nat) {
    s.Lease? && j in Granted(w, s.limit, s.most, s.delay)
  }

  /** No lease of the run grants row j. */
  predicate NeverGranted(w: World, steps: Script<Step>, j: nat)
    decreases steps
  {
    match steps
    case Stop => true
    case Then(s, rest) => !Grants(w, s, j) && NeverGranted(Do(w, s), rest, j)
  }

  /** j's lock is the old one, or was cleared after it ran out. */
  predicate LockKept(w: World, v: World, j: nat) {
    j < |w.table| <= |v.table| && (v.table[j].lock == w.table[j].lock || v.table[j].lock == UNLOCKED)
  }

  lemma HeldStep(w: World, s: Step, i: nat, until: int)
    requires LiveLocked(w.table, until, i) && w.now <= until && Elsewhere(w, i, s)
    ensures Do(w, s).now <= until ==> Do(w, s).table[i] == w.table[i]
    ensures forall j: nat :: SameConversation(w.table, i, j) ==> LockKept(w, Do(w, s), j) && !Grants(w, s, j)
  {
    if s.Lease? {
      var granted := Granted(w, s.limit, s.most, s.delay);
      forall j: nat | SameConversation(w.table, i, j) ensures LockKept(w, Do(w, s), j) && j !in granted {
        if j in granted {
          GrantedRows(w, s.limit, s.most, s.delay, j);
          assert SameConversation(w.table, j, i);
        }
      }
    }
  }

  /** While one row of a conversation is leased or backing off, no row of it is granted to anyone,
      however many leases, recoveries and clock ticks happen before that lock runs out. */
  lemma {:induction false} HeldUntilExpiry(w: World, steps: Script<Step>, i: nat, until: int, j: nat)
    requires LiveLocked(w.table, until, i) && ElsewhereRun(w, i, steps) && Run(w, steps).now <= until
    requires SameConversation(w.table, i, j)
    ensures i < |Run(w, steps).table| && Run(w, steps).table[i] == w.table[i]
    ensures NeverGranted(w, steps, j) && LockKept(w, Run(w, steps), j)
    decreases steps
  {
    ClockAdvances(w, steps);
    if steps.Then? {
      var v := Do(w, steps.step);
      ClockAdvances(v, steps.rest);
      HeldStep(w, steps.step, i, until);
      StepKeepsKeys(w, steps.step);
      HeldUntilExpiry(v, steps.rest, i, until, j);
    }
  }

  lemma {:induction false} ClockAdvances(w: World, steps: Script<Step>)
    ensures w.now <= Run(w, steps).now
    decreases steps
  {
    if steps.Then? {
      ClockAdvances(Do(w, steps.step), steps.rest);
    }
  }

  // ---- Exactly when an unguarded report is safe ----------------------------------------------

  /** Nobody else live-locks a row of row i's conversation. */
  ghost predicate SoleHolder(w: World, holder: string, i: nat) {
    forall j: nat :: j != i && LiveLocked(w.table, w.now, j) && SameConversation(w.table, i, j) ==>
      w.table[j].lock.lockedBy == Some(holder)
  }

  /** extend_lease checks locked_by but not expiry: it is safe exactly while no other worker has the conversation. */
  lemma ExtendSafeIff(w: World, worker: string, i: nat, seconds: nat)
    requires Exclusive(w) && Active(w.table, i) && w.table[i].lock.lockedBy == Some(worker)
    ensures Exclusive(Do(w, Extend(worker, i, seconds))) <==> SoleHolder(w, worker, i)
  {
    RelockSafeIff(w, Do(w, Extend(worker, i, seconds)), worker, i);
  }

  /** A retryable failure keeps the row's recorded owner, or locks it for `retry-backoff`. */
  lemma RetrySafeIff(w: World, worker: string, i: nat, base: int, cap: int)
    requires Exclusive(w) && i < |w.table| && base > 0 && cap > 0
    ensures Exclusive(Do(w, Retry(worker, i, base, cap))) <==> SoleHolder(w, BackoffHolder(w.table[i].lock), i)
  {
    BackoffBounds(w.table[i].retryCount + 1, base, cap);
    RelockSafeIff(w, Do(w, Retry(worker, i, base, cap)), BackoffHolder(w.table[i].lock), i);
  }

  lemma RelockSafeIff(w: World, v: World, holder: string, i: nat)
    requires Exclusive(w) && i < |w.table| == |v.table| && v.now == w.now
    requires forall j :: 0 <= j < |w.table| && j != i ==> v.table[j] == w.table[j]
    requires v.table[i].conversation == w.table[i].conversation
    requires LiveLocked(v.table, v.now, i) && v.table[i].lock.lockedBy == Some(holder)
    ensures Exclusive(v) <==> SoleHolder(w, holder, i)
  {
    forall j: nat | j < |w.table| ensures Key(v.table, j) == Key(w.table, j) { }
    forall j: nat, k: nat ensures SameConversation(v.table, j, k) <==> SameConversation(w.table, j, k) { }
    forall j: nat | j != i ensures LiveLocked(v.table, v.now, j) <==> LiveLocked(w.table, w.now, j) { }
    if SoleHolder(w, holder, i) {
      forall j: nat, k: nat | LiveLocked(v.table, v.now, j) && LiveLocked(v.table, v.now, k)
        && SameConversation(v.table, j, k)
        ensures v.table[j].lock.lockedBy == v.table[k].lock.lockedBy
      {
        if j == i { assert SameConversation(w.table, i, k); }
        if k == i { assert SameConversation(w.table, i, j); }
      }
    } else {
      var j: nat :| j != i && LiveLocked(w.table, w.now, j) && SameConversation(w.table, i, j)
                    && w.table[j].lock.lockedBy != Some(holder);
      assert LiveLocked(v.table, v.now, j) && SameConversation(v.table, i, j);
    }
  }

  function Fresh(key: string): Message {
    Message(Some("c"), key, Pending, None, 0, 0, UNLOCKED)
  }

  /** A disciplined run in which A outlives its lease on two rows and B, taking one row at a time, leases the
      first: A's next, late extension of the second row would break exclusivity. */
  lemma StaleExtensionReachable()
    ensures var steps :=
              Then(Enqueue(Some("c"), "k0", Pending, None), Then(Enqueue(Some("c"), "k1", Pending, None), Outliving()));
            DisciplinedRun(World([], 0), steps) && StaleExtension(Run(World([], 0), steps))
  {
    var w1 := World([Fresh("k0")], 0);
    assert Do(World([], 0), Enqueue(Some("c"), "k0", Pending, None)) == w1;
    var w2 := World([Fresh("k0"), Fresh("k1")], 0);
    assert Do(w1, Enqueue(Some("c"), "k1", Pending, None)) == w2;
    OutlivedLease(w2);
  }

  /** In such a world neither a late extension nor a late retryable failure keeps the conversation exclusive. */
  lemma StaleReportsBreak(w: World, seconds: nat, base: int, cap: int)
    requires Exclusive(w) && StaleExtension(w) && base > 0 && cap > 0
    ensures !Exclusive(Do(w, Extend("A", 1, seconds))) && !Exclusive(Do(w, Retry("A", 1, base, cap)))
  {
    ExtendSafeIff(w, "A", 1, seconds);
    RetrySafeIff(w, "A", 1, base, cap);
  }

  function Outliving(): Script<Step> {
    Then(Lease("A", 1, 2, 1, 0), Then(Tick(2), Then(Lease("B", 1, 1, 10, 0), Stop)))
  }

  ghost predicate StaleExtension(w: World) {
    Active(w.table, 1) && w.table[1].lock.lockedBy == Some("A") && !SoleHolder(w, "A", 1)
  }

  lemma OutlivedLease(w: World)
    requires w == World([Fresh("k0"), Fresh("k1")], 0)
    ensures DisciplinedRun(w, Outliving()) && StaleExtension(Run(w, Outliving()))
  {
    var w3 := World([Fresh("k0").(lock := Grant("A", 1)), Fresh("k1").(lock := Grant("A", 1))], 0);
    var w4 := w3.(now := 2);
    var w5 := World([Fresh("k0").(lock := Grant("B", 12)), Fresh("k1").(lock := Grant("A", 1))], 2);
    LeasesBoth(w, w3);
    LeasesFirst(w4, w5);
    ThreeSteps(w, Lease("A", 1, 2, 1, 0), w3, Tick(2), w4, Lease("B", 1, 1, 10, 0), w5);
    assert LiveLocked(w5.table, w5.now, 0) && SameConversation(w5.table, 1, 0);
  }

  lemma ThreeSteps(w: World, a: Step, wa: World, b: Step, wb: World, c: Step, wc: World)
    requires Disciplined(w, a) && Do(w, a) == wa && Disciplined(wa, b) && Do(wa, b) == wb && Disciplined(wb, c)
             && Do(wb, c) == wc
    ensures DisciplinedRun(w, Then(a, Then(b, Then(c, Stop)))) && Run(w, Then(a, Then(b, Then(c, Stop)))) == wc
  {
    assert Run(wb, Then(c, Stop)) == wc && DisciplinedRun(wb, Then(c, Stop));
  }

  lemma LeasesBoth(w: World, v: World)
    requires w == World([Fresh("k0"), Fresh("k1")], 0)
    requires v == World([Fresh("k0").(lock := Grant("A", 1)), Fresh("k1").(lock := Grant("A", 1))], 0)
    ensures Do(w, Lease("A", 1, 2, 1, 0)) == v
  {
    PairGranted(w, 2);
    assert [0, 1][..2] == [0, 1];
  }

  lemma LeasesFirst(w: World, v: World)
    requires w == World([Fresh("k0").(lock := Grant("A", 1)), Fresh("k1").(lock := Grant("A", 1))], 2)
    requires v == World([Fresh("k0").(lock := Grant("B", 12)), Fresh("k1").(lock := Grant("A", 1))], 2)
    ensures Do(w, Lease("B", 1, 1, 10, 0)) == v
  {
    PairGranted(w, 1);
    assert [0, 1][..1] == [0];
  }

  lemma PairGranted(w: World, most: nat)
    requires |w.table| == 2 && 1 <= most <= 2
    requires forall i :: 0 <= i < 2 ==>
               Available(w.table, w.now, 0, i) && w.table[i].conversation == Some("c") && w.table[i].blockIndex == None
    ensures Granted(w, 1, most, 0) == [0, 1][..most]
  {
    assert LeadTest(w.table, w.now, 0)(0);
    assert LeaderIds(w.table, w.now, 0, 1) == [0];
    var keys := LeaderKeys(w.table, w.now, 0, 1);
    assert keys == ["c"];
    var test := MemberTest(w.table, w.now, 0, "c");
    assert test(0) && test(1);
    assert First(test, 2, 2, 0) == [];
    assert First(test, 1, 2, 1) == [1];
    assert First(test, 0, 2, 2) == [0, 1];
    assert Ranks(w.table) == [NO_BLOCK, NO_BLOCK];
    assert Sort<nat>([1], BlockOrder(Ranks(w.table))) == [1];
    assert Sort<nat>([0, 1], BlockOrder(Ranks(w.table))) == [0, 1];
    var g := Group(w.table, w.now, 0, "c", most);
    assert GroupsOf(w.table, w.now, 0, keys, 1, most) == [];
    assert GroupsOf(w.table, w.now, 0, keys, 0, most) == [g];
    assert Flat([g]) == g;
  }

  // ---- What a step leaves, in columns ------------------------------------------------------------------

  /** Row i, if there is one, becomes `row`, and no other row changes. */
  ghost predicate Rewritten(t: Table, i: nat, row: Message, u: Table) {
    |u| == |t| && (i < |t| ==> u[i] == row) && forall j :: 0 <= j < |t| && j != i ==> u[j] == t[j]
  }

  ghost function RowAt(t: Table, i: nat): Message {
    if i < |t| then t[i] else Message(None, "", Pending, None, 0, 0, Lock(None, None))
  }

  ghost predicate Leaves(w: World, s: Step, v: World) {
    var t, u := w.table, v.table;
    && v.now == (if s.Tick? then w.now + s.elapsed else w.now)
    && match s
       case Enqueue(c, key, status, block) =>
         u == t + if (forall i :: 0 <= i < |t| ==> t[i].dedupKey != key)
                  then [Message(c, key, status, block, w.now, 0, Lock(None, None))] else []
       case Lease(worker, limit, most, seconds, delay) =>
         u == Stamped(t, Granted(w, limit, most, delay), Grant(worker, w.now + seconds))
       case Extend(worker, i, seconds) =>
         Rewritten(t, i, if Unsent(RowAt(t, i)) && RowAt(t, i).lock.lockedBy == Some(worker)
                         then RowAt(t, i).(lock := Lock(Some(worker), Some(w.now + seconds))) else RowAt(t, i), u)
       case Retry(_, i, base, cap) => Rewritten(t, i, Retried(RowAt(t, i), Retryable, w.now, base, cap), u)
       case Close(i, status) => Rewritten(t, i, RowAt(t, i).(status := status, lock := Lock(None, None)), u)
       case Release(i) => Rewritten(t, i, RowAt(t, i).(lock := Lock(None, None)), u)
       case Takeover(c) => Skips(t, c, u)
       case Recover => Recovers(t, w.now, u)
       case Tick(_) => u == t
  }

  ghost predicate Skips(t: Table, conversation: string, u: Table) {
    && |u| == |t|
    && forall i :: 0 <= i < |t| ==>
         u[i] == if Unsent(t[i]) && t[i].conversation == Some(conversation)
                 then t[i].(status := Closed("SKIPPED_HUMAN_ACTIVE"), lock := Lock(None, None)) else t[i]
  }

  ghost predicate Recovers(t: Table, now: int, u: Table) {
    && |u| == |t|
    && forall i :: 0 <= i < |t| ==>
         u[i] == if Unsent(t[i]) && t[i].lock.expires.Some? && t[i].lock.expires.value < now
                 then t[i].(lock := Lock(None, None)) else t[i]
  }

  lemma RetryLeaves(w: World, s: Step)
    requires s.Retry?
    ensures Leaves(w, s, Do(w, s))
  {
    if s.id < |w.table| { BackoffDoubles(w.table[s.id].retryCount, s.base, s.cap); }
  }

  lemma RowLeaves(w: World, s: Step)
    requires s.Enqueue? || s.Extend? || s.Close? || s.Release?
    ensures Leaves(w, s, Do(w, s))
  {
  }

  lemma SweepLeaves(w: World, s: Step)
    requires s.Takeover? || s.Recover? || s.Tick?
    ensures Leaves(w, s, Do(w, s))
  {
  }

  lemma LeaseLeaves(w: World, worker: string, limit: nat, most: nat, seconds: int, delay: int)
    ensures Do(w, Lease(worker, limit, most, seconds, delay)) ==
            w.(table := Stamped(w.table, Granted(w, limit, most, delay), Grant(worker, w.now + seconds)))
  {
  }

  /** Every step, in every column; what a lease grants is said of the repository's LeasePendingGroups. */
  lemma StepLeaves(w: World, s: Step)
    ensures Leaves(w, s, Do(w, s))
  {
    if s.Lease? {
      LeaseLeaves(w, s.worker, s.limit, s.most, s.seconds, s.delay);
    } else if s.Retry? {
      RetryLeaves(w, s);
    } else if s.Takeover? || s.Recover? || s.Tick? {
      SweepLeaves(w, s);
    } else {
      RowLeaves(w, s);
    }
  }
}
