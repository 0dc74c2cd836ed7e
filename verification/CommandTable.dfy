/** The `external_commands` table: leases by creation time, retries counted in the
    row, and status marks that look at nothing but the id.  The statements of
    `external_command_results` are the same apart from the payload. */
module CommandTable {
  import opened Base
  import opened Selection
  import opened Sorting
  import Json

  /** Closed stands for SENT, PROCESSED, DRY_RUN_DONE and every FAILED_* and SKIPPED_* status. */
  datatype Status = Pending | Retryable | Closed(name: string)

  const FAILED := Closed("FAILED")
  const SENT := Closed("SENT")
  const SKIPPED := Closed("SKIPPED_HUMAN_ACTIVE")

  datatype Command = Command(
    conversation: string, thread: string, kind: string, dedupKey: string, payload: Json.Value,
    status: Status, retryCount: nat, created: int, lock: Lock)

  type Table = seq<Command>

  predicate Open(c: Command) {
    !c.status.Closed?
  }

  predicate Leasable(t: Table, now: int, i: nat) {
    i < |t| && Open(t[i]) && Free(t[i].lock, now)
  }

  function LeaseTest(t: Table, now: int): nat -> bool {
    (i: nat) => Leasable(t, now, i)
  }

  function CreationTimes(t: Table): seq<int> {
    seq(|t|, i requires 0 <= i < |t| => t[i].created)
  }

  /** ORDER BY created_at; rows of the same instant are taken in id order. */
  function CreationOrder(times: seq<int>): (nat, nat) -> bool {
    (i: nat, j: nat) =>
      var a := if i < |times| then times[i] else 0;
      var b := if j < |times| then times[j] else 0;
      a < b || (a == b && i <= j)
  }

  function LeaseIds(t: Table, now: int, limit: nat): seq<nat> {
    var sorted := Sort(First(LeaseTest(t, now), 0, |t|, |t|), CreationOrder(CreationTimes(t)));
    if |sorted| <= limit then sorted else sorted[..limit]
  }

  // ---- Statements ------------------------------------------------------------------------

  function Inserted(t: Table, c: Command): Table {
    if exists i :: 0 <= i < |t| && t[i].dedupKey == c.dedupKey then t else t + [c]
  }

  function Stamped(t: Table, ids: seq<nat>, lock: Lock): (r: Table)
    ensures |r| == |t|
  {
    seq(|t|, i requires 0 <= i < |t| => if i in ids then t[i].(lock := lock) else t[i])
  }

  function Marked(t: Table, i: nat, status: Status): Table {
    if i < |t| then t[i := t[i].(status := status, lock := UNLOCKED)] else t
  }

  function Released(t: Table, i: nat): Table {
    if i < |t| then t[i := t[i].(lock := UNLOCKED)] else t
  }

  /** SET retry_count = retry_count + 1, status = CASE WHEN retry_count + 1 >= max ...: assignments run left to
      right, so the CASE sees the incremented count. */
  function Failed(c: Command, maxRetries: int): Command {
    var n := c.retryCount + 1;
    c.(retryCount := n, status := if n + 1 >= maxRetries then FAILED else Retryable, lock := UNLOCKED)
  }

  function ProcessingFailed(t: Table, i: nat, maxRetries: int): Table {
    if i < |t| then t[i := Failed(t[i], maxRetries)] else t
  }

  function PayloadMerged(t: Table, i: nat, patch: Json.Value): Table {
    if i < |t| then t[i := t[i].(payload := Json.MergePatch(t[i].payload, patch))] else t
  }

  function Recovered(t: Table, now: int): (r: Table)
    ensures |r| == |t|
  {
    seq(|t|, i requires 0 <= i < |t| => if Open(t[i]) && Expired(t[i].lock, now) then t[i].(lock := UNLOCKED) else t[i])
  }

  /** mark_human_active: close every open row of the conversation. */
  function Cancelled(t: Table, conversation: string): (r: Table)
    ensures |r| == |t|
  {
    seq(|t|, i requires 0 <= i < |t| =>
      if Open(t[i]) && t[i].conversation == conversation then t[i].(status := SKIPPED, lock := UNLOCKED) else t[i])
  }

  // ---- The lease query ---------------------------------------------------------------------

  /** The first `limit` leasable rows in creation order. */
  ghost predicate IsBatch(ids: seq<nat>, t: Table, now: int, limit: nat) {
    && |ids| <= limit && Distinct(ids)
    && Sorted(ids, CreationOrder(CreationTimes(t)))
    && (forall k :: 0 <= k < |ids| ==> Leasable(t, now, ids[k]))
    && (forall i: nat :: Leasable(t, now, i) && i !in ids ==>
          |ids| == limit && forall k :: 0 <= k < |ids| ==> CreationOrder(CreationTimes(t))(ids[k], i))
  }

  lemma LeasableFound(t: Table, now: int)
    ensures var ids := First(LeaseTest(t, now), 0, |t|, |t|);
            && Distinct(ids)
            && (forall k :: 0 <= k < |ids| ==> Leasable(t, now, ids[k]))
            && (forall i: nat :: Leasable(t, now, i) ==> i in ids)
  {
    var test := LeaseTest(t, now);
    var ids := First(test, 0, |t|, |t|);
    FirstIsFirst(test, 0, |t|, |t|);
    AscendingFits(ids, |t|);
    forall k | 0 <= k < |ids| ensures Leasable(t, now, ids[k]) { assert test(ids[k]); }
    forall i: nat | Leasable(t, now, i) ensures i in ids { assert test(i); }
  }

  lemma LeasableSorted(t: Table, now: int)
    ensures var sorted := Sort(First(LeaseTest(t, now), 0, |t|, |t|), CreationOrder(CreationTimes(t)));
            && Distinct(sorted) && Sorted(sorted, CreationOrder(CreationTimes(t)))
            && (forall k :: 0 <= k < |sorted| ==> Leasable(t, now, sorted[k]))
            && (forall i: nat :: Leasable(t, now, i) ==> i in sorted)
  {
    var le := CreationOrder(CreationTimes(t));
    var ids := First(LeaseTest(t, now), 0, |t|, |t|);
    LeasableFound(t, now);
    SortSorts(ids, le);
    SortElements(ids, le);
    var sorted := Sort(ids, le);
    forall k | 0 <= k < |sorted| ensures Leasable(t, now, sorted[k]) { assert sorted[k] in ids; }
  }

  lemma LeaseIsBatch(t: Table, now: int, limit: nat)
    ensures IsBatch(LeaseIds(t, now, limit), t, now, limit)
  {
    LeasableSorted(t, now);
    var le := CreationOrder(CreationTimes(t));
    var sorted := Sort(First(LeaseTest(t, now), 0, |t|, |t|), le);
    var ids := LeaseIds(t, now, limit);
    forall i: nat | Leasable(t, now, i) && i !in ids
      ensures |ids| == limit && forall k :: 0 <= k < |ids| ==> le(ids[k], i)
    {
      assert i in sorted;
      var n :| 0 <= n < |sorted| && sorted[n] == i;
      assert n >= |ids|;
    }
  }

  /** i was created before j, or at the same time with the lower id. */
  ghost predicate Older(t: Table, i: nat, j: nat)
    requires i < |t| && j < |t|
  {
    t[i].created < t[j].created || (t[i].created == t[j].created && i < j)
  }

  /** Open, and no worker's lease on it is still running. */
  ghost predicate Grantable(t: Table, now: int, i: nat) {
    && i < |t| && (t[i].status == Pending || t[i].status == Retryable)
    && (t[i].lock.lockedBy == None || t[i].lock.expires == None || t[i].lock.expires.value < now)
  }

  /** ids are the first `limit` grantable commands, the oldest first. */
  ghost predicate TakesOldest(t: Table, now: int, limit: nat, ids: seq<nat>) {
    && |ids| <= limit && (forall k :: 0 <= k < |ids| ==> Grantable(t, now, ids[k]))
    && (forall a, b :: 0 <= a < b < |ids| ==> Older(t, ids[a], ids[b]))
    && (forall i: nat :: Grantable(t, now, i) && i !in ids ==>
          |ids| == limit && forall k :: 0 <= k < |ids| ==> Older(t, ids[k], i))
  }

  lemma LeaseTakesOldest(t: Table, now: int, limit: nat)
    ensures TakesOldest(t, now, limit, LeaseIds(t, now, limit))
  {
    LeaseIsBatch(t, now, limit);
    var ids, le := LeaseIds(t, now, limit), CreationOrder(CreationTimes(t));
    forall i: nat, j: nat | i < |t| && j < |t| && i != j && le(i, j) ensures Older(t, i, j) { }
    forall i: nat ensures Grantable(t, now, i) <==> Leasable(t, now, i) { }
    forall a, b | 0 <= a < b < |ids| ensures Older(t, ids[a], ids[b]) {
      assert le(ids[a], ids[b]) && Leasable(t, now, ids[a]) && Leasable(t, now, ids[b]);
    }
  }

  class ExternalCommandRepository {
    var commands: Table

    constructor ()
      ensures commands == []
    {
      commands := [];
    }

    method InsertIdempotent(c: Command) returns (inserted: bool)
      modifies this
      ensures commands == Inserted(old(commands), c)
      ensures inserted <==> forall i :: 0 <= i < |old(commands)| ==> old(commands)[i].dedupKey != c.dedupKey
      ensures commands == old(commands) + if inserted then [c] else []
    {
      inserted := !exists i :: 0 <= i < |commands| && commands[i].dedupKey == c.dedupKey;
      if inserted {
        commands := commands + [c];
      }
    }

    method LeasePending(limit: nat, worker: string, seconds: int, now: int) returns (ids: seq<nat>)
      modifies this
      ensures ids == LeaseIds(old(commands), now, limit) && IsBatch(ids, old(commands), now, limit)
      ensures TakesOldest(old(commands), now, limit, ids)
      ensures |commands| == |old(commands)|
      ensures forall i :: 0 <= i < |commands| ==>
                commands[i] == if i in ids then old(commands)[i].(lock := Lock(Some(worker), Some(now + seconds)))
                               else old(commands)[i]
    {
      LeaseIsBatch(commands, now, limit);
      LeaseTakesOldest(commands, now, limit);
      ids := LeaseIds(commands, now, limit);
      if ids != [] {
        commands := Stamped(commands, ids, Grant(worker, now + seconds));
      }
    }

    method LeasePendingById(i: nat, worker: string, seconds: int, now: int) returns (leased: bool)
      modifies this
      ensures leased <==> Grantable(old(commands), now, i)
      ensures commands == if leased
                          then old(commands)[i := old(commands)[i].(lock := Lock(Some(worker), Some(now + seconds)))]
                          else old(commands)
      ensures commands == if leased then Stamped(old(commands), [i], Grant(worker, now + seconds)) else old(commands)
      ensures leased && seconds >= 0 ==> !Leasable(commands, now + seconds, i)
    {
      leased := Leasable(commands, now, i);
      if leased {
        commands := Stamped(commands, [i], Grant(worker, now + seconds));
      }
    }

    method MarkStatus(i: nat, status: Status)
      modifies this
      ensures commands == Marked(old(commands), i, status)
      ensures status.Closed? ==> forall now :: !Leasable(commands, now, i)
      ensures commands == if i < |old(commands)|
                          then old(commands)[i := old(commands)[i].(status := status, lock := Lock(None, None))]
                          else old(commands)
    {
      if i < |commands| {
        commands := commands[i := commands[i].(status := status, lock := UNLOCKED)];
      }
    }

    method MarkProcessingFailed(i: nat, maxRetries: int)
      modifies this
      ensures commands == ProcessingFailed(old(commands), i, maxRetries)
      ensures i < |commands| ==>
                && commands[i].retryCount == old(commands)[i].retryCount + 1
                && commands[i].lock == UNLOCKED
                && (commands[i].status == FAILED <==> old(commands)[i].retryCount + 2 >= maxRetries)
                && (commands[i].status != FAILED ==> commands[i].status == Retryable)
                && commands == old(commands)[i := old(commands)[i].(retryCount := commands[i].retryCount,
                     status := commands[i].status, lock := Lock(None, None))]
    {
      if i < |commands| {
        var c := commands[i];
        var n := c.retryCount + 1;
        var status := if n + 1 >= maxRetries then FAILED else Retryable;
        commands := commands[i := c.(retryCount := n, status := status, lock := UNLOCKED)];
      }
    }

    method MergePayloadJson(i: nat, patch: Json.Value)
      modifies this
      ensures commands == PayloadMerged(old(commands), i, patch)
      ensures forall j :: 0 <= j < |commands| ==>
                commands[j].status == old(commands)[j].status && commands[j].lock == old(commands)[j].lock
      ensures commands == if i < |old(commands)|
                          then old(commands)[i := old(commands)[i].(payload := commands[i].payload)] else old(commands)
      ensures i < |commands| ==> Json.Merged(old(commands)[i].payload, patch, commands[i].payload)
    {
      if i < |commands| {
        Json.MergePatchMerges(commands[i].payload, patch);
        commands := commands[i := commands[i].(payload := Json.MergePatch(commands[i].payload, patch))];
      }
    }

    method ReleaseLease(i: nat)
      modifies this
      ensures commands == Released(old(commands), i)
      ensures forall now :: i < |commands| && Open(commands[i]) ==> Leasable(commands, now, i)
      ensures commands == if i < |old(commands)| then old(commands)[i := old(commands)[i].(lock := Lock(None, None))]
                          else old(commands)
    {
      if i < |commands| {
        commands := commands[i := commands[i].(lock := UNLOCKED)];
      }
    }

    method RecoverExpiredLeases(now: int)
      modifies this
      ensures commands == Recovered(old(commands), now)
      ensures forall i: nat :: Leasable(commands, now, i) <==> Leasable(old(commands), now, i)
      ensures |commands| == |old(commands)|
      ensures forall i :: 0 <= i < |commands| ==>
                var row := old(commands)[i];
                commands[i] == if !row.status.Closed? && row.lock.expires.Some? && row.lock.expires.value < now
                               then row.(lock := Lock(None, None)) else row
    {
      commands := Recovered(commands, now);
    }
  }

  // ---- Bounded retries over runs ---------------------------------------------------------------

  /** What any worker, however stale, may do to the table, with one retry bound for all. */
  datatype Step =
    | Insert(command: Command)
    | Lease(id: nat, worker: string, seconds: int)
    | Fail(id: nat)
    | Close(id: nat, name: string)
    | Release(id: nat)
    | Merge(id: nat, patch: Json.Value)
    | Takeover(conversation: string)
    | Recover
    | Tick(elapsed: nat)

  datatype World = World(table: Table, now: int)

  predicate Legal(w: World, s: Step) {
    match s
    case Insert(c) => c.status == Pending && c.retryCount == 0
    case Lease(i, _, _) => Leasable(w.table, w.now, i)
    case _ => true
  }

  function Do(w: World, s: Step, maxRetries: int): World {
    match s
    case Insert(c) => w.(table := Inserted(w.table, c))
    case Lease(i, worker, seconds) => w.(table := Stamped(w.table, [i], Grant(worker, w.now + seconds)))
    case Fail(i) => w.(table := ProcessingFailed(w.table, i, maxRetries))
    case Close(i, name) => w.(table := Marked(w.table, i, Closed(name)))
    case Release(i) => w.(table := Released(w.table, i))
    case Merge(i, patch) => w.(table := PayloadMerged(w.table, i, patch))
    case Takeover(c) => w.(table := Cancelled(w.table, c))
    case Recover => w.(table := Recovered(w.table, w.now))
    case Tick(elapsed) => w.(now := w.now + elapsed)
  }

  predicate LegalRun(w: World, steps: Script<Step>, maxRetries: int)
    decreases steps
  {
    match steps
    case Stop => true
    case Then(s, rest) => Legal(w, s) && LegalRun(Do(w, s, maxRetries), rest, maxRetries)
  }

  function Run(w: World, steps: Script<Step>, maxRetries: int): World
    decreases steps
  {
    match steps
    case Stop => w
    case Then(s, rest) => Run(Do(w, s, maxRetries), rest, maxRetries)
  }

  /** How many failures of row i a run records. */
  function Failures(steps: Script<Step>, i: nat): nat {
    match steps
    case Stop => 0
    case Then(s, rest) => (if s == Fail(i) then 1 else 0) + Failures(rest, i)
  }

  /** max(1, max_retries - 1) */
  function RetryBudget(maxRetries: int): nat {
    if maxRetries <= 2 then 1 else maxRetries - 1
  }

  ghost predicate WithinBudget(t: Table, maxRetries: int) {
    forall i :: 0 <= i < |t| && Open(t[i]) ==> t[i].retryCount < RetryBudget(maxRetries)
  }

  lemma StepWithinBudget(w: World, s: Step, maxRetries: int)
    requires Legal(w, s) && WithinBudget(w.table, maxRetries)
    ensures WithinBudget(Do(w, s, maxRetries).table, maxRetries)
  {
  }

  lemma StepCountsFailures(w: World, s: Step, maxRetries: int, i: nat)
    requires i < |w.table|
    ensures i < |Do(w, s, maxRetries).table|
    ensures Do(w, s, maxRetries).table[i].retryCount == w.table[i].retryCount + (if s == Fail(i) then 1 else 0)
  {
  }

  /** The retry column counts the recorded failures exactly, and an open row has some left. */
  lemma {:induction false} RetriesCounted(w: World, steps: Script<Step>, maxRetries: int, i: nat)
    requires i < |w.table| && WithinBudget(w.table, maxRetries) && LegalRun(w, steps, maxRetries)
    ensures var v := Run(w, steps, maxRetries);
            && i < |v.table| && WithinBudget(v.table, maxRetries)
            && v.table[i].retryCount == w.table[i].retryCount + Failures(steps, i)
    decreases steps
  {
    if steps.Then? {
      StepWithinBudget(w, steps.step, maxRetries);
      StepCountsFailures(w, steps.step, maxRetries, i);
      RetriesCounted(Do(w, steps.step, maxRetries), steps.rest, maxRetries, i);
    }
  }

  /** After max(1, max_retries - 1) recorded failures a command is never leased again, whatever stale workers do. */
  lemma RetriesBounded(w: World, steps: Script<Step>, maxRetries: int, i: nat, later: int)
    requires i < |w.table| && w.table[i].retryCount == 0 && WithinBudget(w.table, maxRetries)
    requires LegalRun(w, steps, maxRetries)
    ensures Failures(steps, i) >= RetryBudget(maxRetries) ==> !Leasable(Run(w, steps, maxRetries).table, later, i)
  {
    RetriesCounted(w, steps, maxRetries, i);
  }

  /** The failure that exhausts the budget, and no earlier one, writes FAILED. */
  lemma FailureExhaustsBudgetIff(w: World, steps: Script<Step>, maxRetries: int, i: nat)
    requires i < |w.table| && w.table[i].retryCount == 0 && WithinBudget(w.table, maxRetries)
    requires LegalRun(w, steps, maxRetries)
    ensures var v := Do(Run(w, steps, maxRetries), Fail(i), maxRetries);
            i < |v.table| && (v.table[i].status == FAILED <==> Failures(steps, i) + 1 >= RetryBudget(maxRetries))
  {
    RetriesCounted(w, steps, maxRetries, i);
  }

  // ---- What a step leaves, in columns ------------------------------------------------------------------

  /** Row i, if there is one, becomes `row`, and no other row changes. */
  ghost predicate Rewritten(t: Table, i: nat, row: Command, u: Table) {
    |u| == |t| && (i < |t| ==> u[i] == row) && forall j :: 0 <= j < |t| && j != i ==> u[j] == t[j]
  }

  ghost function RowAt(t: Table, i: nat): Command {
    if i < |t| then t[i] else Command("", "", "", "", Json.Null, Pending, 0, 0, Lock(None, None))
  }

  /** A failed command: counted, unlocked, and FAILED when one more failure would reach the bound. */
  ghost predicate Counted(row: Command, maxRetries: int, after: Command) {
    && after == row.(status := after.status, retryCount := row.retryCount + 1, lock := Lock(None, None))
    && after.status == if row.retryCount + 2 >= maxRetries then Closed("FAILED") else Retryable
  }

  ghost predicate Leaves(w: World, s: Step, maxRetries: int, v: World) {
    var t, u := w.table, v.table;
    && v.now == (if s.Tick? then w.now + s.elapsed else w.now)
    && match s
       case Insert(c) => u == t + if (forall i :: 0 <= i < |t| ==> t[i].dedupKey != c.dedupKey) then [c] else []
       case Lease(i, worker, seconds) =>
         Rewritten(t, i, RowAt(t, i).(lock := Lock(Some(worker), Some(w.now + seconds))), u)
       case Fail(i) => Rewritten(t, i, RowAt(u, i), u) && (i < |t| ==> Counted(t[i], maxRetries, u[i]))
                       && forall j :: 0 <= j < |t| && j != i ==> u[j] == t[j]
       case Close(i, name) => Rewritten(t, i, RowAt(t, i).(status := Closed(name), lock := Lock(None, None)), u)
       case Release(i) => Rewritten(t, i, RowAt(t, i).(lock := Lock(None, None)), u)
       case Merge(i, patch) =>
         && Rewritten(t, i, RowAt(t, i).(payload := RowAt(u, i).payload), u)
         && (i < |t| ==> Json.Merged(t[i].payload, patch, RowAt(u, i).payload))
       case Takeover(c) => Skips(t, c, u)
       case Recover => Recovers(t, w.now, u)
       case Tick(_) => u == t
  }

  /** Every open command of the conversation is skipped, and no other row changes. */
  ghost predicate Skips(t: Table, conversation: string, u: Table) {
    && |u| == |t|
    && forall i :: 0 <= i < |t| ==>
         u[i] == if t[i].status in {Pending, Retryable} && t[i].conversation == conversation
                 then t[i].(status := Closed("SKIPPED_HUMAN_ACTIVE"), lock := Lock(None, None)) else t[i]
  }

  /** Locks of open commands that have run out are cleared, and nothing else changes. */
  ghost predicate Recovers(t: Table, now: int, u: Table) {
    && |u| == |t|
    && forall i :: 0 <= i < |t| ==>
         u[i] == if t[i].status in {Pending, Retryable} && t[i].lock.expires.Some? && t[i].lock.expires.value < now
                 then t[i].(lock := Lock(None, None)) else t[i]
  }

  lemma StepLeaves(w: World, s: Step, maxRetries: int)
    ensures Leaves(w, s, maxRetries, Do(w, s, maxRetries))
  {
    if s.Merge? && s.id < |w.table| { Json.MergePatchMerges(w.table[s.id].payload, s.patch); }
  }
}
