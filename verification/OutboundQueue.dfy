/** The `outbound_messages` table: group leases per conversation, retry backoff kept
    in the lease columns, and unguarded status marks.  A row's position is its id. */
module OutboundQueue {
  import opened Base
  import opened Selection
  import opened Sorting

  /** Closed stands for every FAILED_* and SKIPPED_* status. */
  datatype Status = Pending | Retryable | Sent | Closed(reason: string)

  datatype Message = Message(
    conversation: Option<string>, dedupKey: string, status: Status, blockIndex: Option<int>,
    created: int, retryCount: nat, lock: Lock)

  type Table = seq<Message>

  const NO_BLOCK := 2147483647

  const SKIPPED := Closed("SKIPPED_HUMAN_ACTIVE")

  predicate Open(m: Message) {
    m.status.Pending? || m.status.Retryable?
  }

  /** COALESCE(conversation_id, CONCAT('outbound:', id)) */
  function Key(t: Table, i: nat): string
    requires i < |t|
  {
    match t[i].conversation
    case Some(c) => c
    case None => "outbound:" + Decimal(i)
  }

  predicate Active(t: Table, i: nat) {
    i < |t| && Open(t[i])
  }

  predicate SameConversation(t: Table, i: nat, j: nat) {
    i < |t| && j < |t| && Key(t, i) == Key(t, j)
  }

  predicate LiveLocked(t: Table, now: int, i: nat) {
    Active(t, i) && !Free(t[i].lock, now)
  }

  /** PENDING rows wait out the initial delay. */
  predicate Due(t: Table, now: int, delay: int, i: nat) {
    Active(t, i) && (t[i].status != Pending || t[i].created <= now - delay)
  }

  predicate Available(t: Table, now: int, delay: int, i: nat) {
    Due(t, now, delay, i) && Free(t[i].lock, now)
  }

  /** The oldest active row of a conversation none of whose active rows is leased or backing off. */
  predicate Leads(t: Table, now: int, delay: int, i: nat) {
    && Available(t, now, delay, i)
    && (forall j :: 0 <= j < i ==> !(Active(t, j) && SameConversation(t, j, i)))
    && (forall j :: 0 <= j < |t| ==> !(LiveLocked(t, now, j) && SameConversation(t, j, i)))
  }

  function LeadTest(t: Table, now: int, delay: int): nat -> bool {
    (i: nat) => Leads(t, now, delay, i)
  }

  function LeaderIds(t: Table, now: int, delay: int, limit: nat): seq<nat> {
    First(LeadTest(t, now, delay), 0, |t|, limit)
  }

  function MemberTest(t: Table, now: int, delay: int, key: string): nat -> bool {
    (i: nat) => Available(t, now, delay, i) && Key(t, i) == key
  }

  function Ranks(t: Table): seq<int> {
    seq(|t|, i requires 0 <= i < |t| => match t[i].blockIndex case Some(b) => b case None => NO_BLOCK)
  }

  /** ORDER BY COALESCE(block_index, 2147483647), id */
  function BlockOrder(ranks: seq<int>): (nat, nat) -> bool {
    (i: nat, j: nat) =>
      var a := if i < |ranks| then ranks[i] else NO_BLOCK;
      var b := if j < |ranks| then ranks[j] else NO_BLOCK;
      a < b || (a == b && i <= j)
  }

  /** The rows of one conversation that a worker is granted together. */
  function Group(t: Table, now: int, delay: int, key: string, most: nat): seq<nat> {
    var sorted := Sort(First(MemberTest(t, now, delay, key), 0, |t|, |t|), BlockOrder(Ranks(t)));
    if |sorted| <= most then sorted else sorted[..most]
  }

  function Stamped(t: Table, ids: seq<nat>, lock: Lock): (r: Table)
    ensures |r| == |t|
  {
    seq(|t|, i requires 0 <= i < |t| => if i in ids then t[i].(lock := lock) else t[i])
  }

  /** Conversations k, k+1, ... one after the other, as the loop of the transaction does. */
  function LeasedGroups(t: Table, now: int, delay: int, keys: seq<string>, k: nat, most: nat, lock: Lock)
    : (Table, seq<seq<nat>>)
    decreases |keys| - k
  {
    if k >= |keys| then (t, [])
    else
      var ids := Group(t, now, delay, keys[k], most);
      if ids == [] then LeasedGroups(t, now, delay, keys, k + 1, most, lock)
      else
        var rest := LeasedGroups(Stamped(t, ids, lock), now, delay, keys, k + 1, most, lock);
        (rest.0, [ids] + rest.1)
  }

  function LeaderKeys(t: Table, now: int, delay: int, limit: nat): seq<string> {
    var ids := LeaderIds(t, now, delay, limit);
    seq(|ids|, k requires 0 <= k < |ids| => if ids[k] < |t| then Key(t, ids[k]) else "")
  }

  function Inserted(t: Table, m: Message): Table {
    if exists i :: 0 <= i < |t| && t[i].dedupKey == m.dedupKey then t else t + [m]
  }

  function Extended(t: Table, now: int, i: nat, worker: string, seconds: int): Table {
    if Active(t, i) && t[i].lock.lockedBy == Some(worker)
    then t[i := t[i].(lock := Grant(worker, now + seconds))]
    else t
  }

  function Released(t: Table, i: nat): Table {
    if i < |t| then t[i := t[i].(lock := UNLOCKED)] else t
  }

  function Recovered(t: Table, now: int): (r: Table)
    ensures |r| == |t|
  {
    seq(|t|, i requires 0 <= i < |t| => if Open(t[i]) && Expired(t[i].lock, now) then t[i].(lock := UNLOCKED) else t[i])
  }

  function Closing(t: Table, i: nat, status: Status): Table {
    if i < |t| then t[i := t[i].(status := status, lock := UNLOCKED)] else t
  }

  function Pow2(n: nat): nat {
    if n == 0 then 1 else 2 * Pow2(n - 1)
  }

  function Min(a: int, b: int): int {
    if a <= b then a else b
  }

  /** LEAST(max, base * POW(2, LEAST(retry_count, 3))) */
  function Backoff(retryCount: nat, base: int, cap: int): int {
    Min(cap, base * Pow2(if retryCount <= 3 then retryCount else 3))
  }

  function BackoffHolder(lock: Lock): string {
    match lock.lockedBy
    case Some(worker) => worker
    case None => "retry-backoff"
  }

  /** Assignments run left to right, so the delay uses the incremented retry_count. */
  function BackedOff(t: Table, now: int, i: nat, status: Status, base: int, cap: int): Table {
    if i >= |t| then t
    else
      var n := t[i].retryCount + 1;
      t[i := t[i].(status := status, retryCount := n,
                   lock := Grant(BackoffHolder(t[i].lock), now + Backoff(n, base, cap)))]
  }

  /** mark_human_active: close every active row of the conversation. */
  function Cancelled(t: Table, conversation: string): (r: Table)
    ensures |r| == |t|
  {
    seq(|t|, i requires 0 <= i < |t| =>
      if Open(t[i]) && t[i].conversation == Some(conversation)
      then t[i].(status := SKIPPED, lock := UNLOCKED) else t[i])
  }

  // ---- What a group is ---------------------------------------------------------------

  lemma BlockOrderTotal(ranks: seq<int>)
    ensures TotalOrder(BlockOrder(ranks))
  {
  }

  /** The first `most` available rows of the conversation in (block_index, id) order. */
  ghost predicate IsGroup(g: seq<nat>, t: Table, now: int, delay: int, key: string, most: nat) {
    && |g| <= most
    && Sorted(g, BlockOrder(Ranks(t)))
    && (forall a, b :: 0 <= a < b < |g| ==> g[a] != g[b])
    && (forall k :: 0 <= k < |g| ==> Available(t, now, delay, g[k]) && Key(t, g[k]) == key)
    && (forall i: nat :: Available(t, now, delay, i) && Key(t, i) == key && i !in g ==>
          |g| == most && forall k :: 0 <= k < |g| ==> BlockOrder(Ranks(t))(g[k], i))
  }

  lemma MembersFound(t: Table, now: int, delay: int, key: string)
    ensures var ids := First(MemberTest(t, now, delay, key), 0, |t|, |t|);
            && Distinct(ids)
            && (forall k :: 0 <= k < |ids| ==> Available(t, now, delay, ids[k]) && Key(t, ids[k]) == key)
            && (forall i: nat :: Available(t, now, delay, i) && Key(t, i) == key ==> i in ids)
  {
    var test := MemberTest(t, now, delay, key);
    var ids := First(test, 0, |t|, |t|);
    FirstIsFirst(test, 0, |t|, |t|);
    AscendingFits(ids, |t|);
    forall k | 0 <= k < |ids| ensures Available(t, now, delay, ids[k]) && Key(t, ids[k]) == key {
      assert test(ids[k]);
    }
    forall i: nat | Available(t, now, delay, i) && Key(t, i) == key ensures i in ids {
      assert test(i);
    }
  }

  lemma MembersSorted(t: Table, now: int, delay: int, key: string)
    ensures var sorted := Sort(First(MemberTest(t, now, delay, key), 0, |t|, |t|), BlockOrder(Ranks(t)));
            && Distinct(sorted) && Sorted(sorted, BlockOrder(Ranks(t)))
            && (forall k :: 0 <= k < |sorted| ==> Available(t, now, delay, sorted[k]) && Key(t, sorted[k]) == key)
            && (forall i: nat :: Available(t, now, delay, i) && Key(t, i) == key ==> i in sorted)
  {
    var le := BlockOrder(Ranks(t));
    var ids := First(MemberTest(t, now, delay, key), 0, |t|, |t|);
    BlockOrderTotal(Ranks(t));
    MembersFound(t, now, delay, key);
    SortSorts(ids, le);
    SortElements(ids, le);
    var sorted := Sort(ids, le);
    forall k | 0 <= k < |sorted| ensures Available(t, now, delay, sorted[k]) && Key(t, sorted[k]) == key {
      assert sorted[k] in ids;
    }
  }

  lemma GroupSorted(t: Table, now: int, delay: int, key: string, most: nat)
    ensures var g := Group(t, now, delay, key, most);
            && |g| <= most && Sorted(g, BlockOrder(Ranks(t))) && (forall a, b :: 0 <= a < b < |g| ==> g[a] != g[b])
            && (forall k :: 0 <= k < |g| ==> Available(t, now, delay, g[k]) && Key(t, g[k]) == key)
  {
    MembersSorted(t, now, delay, key);
  }

  lemma GroupIsGroup(t: Table, now: int, delay: int, key: string, most: nat)
    ensures IsGroup(Group(t, now, delay, key, most), t, now, delay, key, most)
  {
    MembersSorted(t, now, delay, key);
    GroupSorted(t, now, delay, key, most);
    var le := BlockOrder(Ranks(t));
    var sorted := Sort(First(MemberTest(t, now, delay, key), 0, |t|, |t|), le);
    var g := Group(t, now, delay, key, most);
    forall i: nat | Available(t, now, delay, i) && Key(t, i) == key && i !in g
      ensures |g| == most && forall k :: 0 <= k < |g| ==> le(g[k], i)
    {
      assert i in sorted;
      var n :| 0 <= n < |sorted| && sorted[n] == i;
      assert n >= |g|;
    }
  }

  // ---- The same in columns -----------------------------------------------------------

  /** Two rows of one conversation.  A row without a conversation is one of its own, unless another row's conversation
      happens to spell the name that COALESCE makes for it. */
  ghost predicate OneConversation(t: Table, i: nat, j: nat)
    requires i < |t| && j < |t|
  {
    || i == j
    || (t[i].conversation.Some? && t[j].conversation.Some? && t[i].conversation.value == t[j].conversation.value)
    || (t[i].conversation.None? && t[j].conversation == Some("outbound:" + Decimal(i)))
    || (t[j].conversation.None? && t[i].conversation == Some("outbound:" + Decimal(j)))
  }

  ghost predicate Unsent(m: Message) {
    m.status == Pending || m.status == Retryable
  }

  /** Leased, or backing off. */
  ghost predicate Held(m: Message, now: int) {
    Unsent(m) && m.lock.lockedBy.Some? && m.lock.expires.Some? && now <= m.lock.expires.value
  }

  /** Neither held nor younger than the initial delay, which is for PENDING rows. */
  ghost predicate Sendable(t: Table, now: int, delay: int, i: nat) {
    i < |t| && Unsent(t[i]) && !Held(t[i], now) && (t[i].status == Pending ==> t[i].created + delay <= now)
  }

  /** The oldest unsent row of a conversation that holds none of its rows. */
  ghost predicate Eligible(t: Table, now: int, delay: int, i: nat) {
    && Sendable(t, now, delay, i)
    && (forall j: nat :: j < i && OneConversation(t, j, i) ==> !Unsent(t[j]))
    && (forall j: nat :: j < |t| && OneConversation(t, j, i) ==> !Held(t[j], now))
  }

  /** Row i is sent before row j: the smaller block index goes first, a row without one counts as the largest index
      that the column can hold, and equal ones go in id order. */
  ghost predicate SentBefore(t: Table, i: nat, j: nat)
    requires i < |t| && j < |t|
  {
    match (t[i].blockIndex, t[j].blockIndex)
    case (Some(a), Some(b)) => a < b || (a == b && i < j)
    case (Some(a), None) => a < 2147483647 || (a == 2147483647 && i < j)
    case (None, Some(b)) => 2147483647 < b || (2147483647 == b && i < j)
    case (None, None) => i < j
  }

  /** The first `most` sendable rows of the conversation of row `lead`, in sending order. */
  ghost predicate SendsBlocks(t: Table, now: int, delay: int, lead: nat, most: nat, g: seq<nat>)
    requires lead < |t|
  {
    && |g| <= most
    && (forall k :: 0 <= k < |g| ==> Sendable(t, now, delay, g[k]) && OneConversation(t, g[k], lead))
    && (forall a, b :: 0 <= a < b < |g| ==> SentBefore(t, g[a], g[b]))
    && (forall i: nat :: Sendable(t, now, delay, i) && OneConversation(t, i, lead) && i !in g ==>
          |g| == most && forall k :: 0 <= k < |g| ==> SentBefore(t, g[k], i))
  }

  lemma SameConversationIff(t: Table, i: nat, j: nat)
    requires i < |t| && j < |t|
    ensures SameConversation(t, i, j) <==> OneConversation(t, i, j)
  {
    if t[i].conversation.None? && t[j].conversation.None? && SameConversation(t, i, j) {
      assert Key(t, i)[|"outbound:"|..] == Decimal(i) && Key(t, j)[|"outbound:"|..] == Decimal(j);
      DecimalInjective(i, j);
    }
  }

  lemma AvailableIff(t: Table, now: int, delay: int, i: nat)
    ensures Available(t, now, delay, i) <==> Sendable(t, now, delay, i)
    ensures LiveLocked(t, now, i) <==> i < |t| && Held(t[i], now)
  {
  }

  lemma LeadsIff(t: Table, now: int, delay: int, i: nat)
    ensures Leads(t, now, delay, i) <==> Eligible(t, now, delay, i)
  {
    AvailableIff(t, now, delay, i);
    if i < |t| {
      forall j: nat | j < |t| ensures SameConversation(t, j, i) <==> OneConversation(t, j, i) {
        SameConversationIff(t, j, i);
      }
      forall j: nat | j < |t| ensures LiveLocked(t, now, j) <==> Held(t[j], now) { AvailableIff(t, now, delay, j); }
    }
  }

  lemma BlockOrderIff(t: Table, i: nat, j: nat)
    requires i < |t| && j < |t| && i != j
    ensures BlockOrder(Ranks(t))(i, j) <==> SentBefore(t, i, j)
  {
  }

  lemma GroupSendsBlocks(t: Table, now: int, delay: int, lead: nat, most: nat)
    requires lead < |t|
    ensures SendsBlocks(t, now, delay, lead, most, Group(t, now, delay, Key(t, lead), most))
  {
    var g := Group(t, now, delay, Key(t, lead), most);
    GroupIsGroup(t, now, delay, Key(t, lead), most);
    forall i: nat
      ensures Available(t, now, delay, i) && Key(t, i) == Key(t, lead) <==>
              Sendable(t, now, delay, i) && OneConversation(t, i, lead)
    {
      AvailableIff(t, now, delay, i);
      if i < |t| { SameConversationIff(t, i, lead); }
    }
    forall k | 0 <= k < |g| ensures Sendable(t, now, delay, g[k]) && OneConversation(t, g[k], lead) {
      assert Available(t, now, delay, g[k]) && Key(t, g[k]) == Key(t, lead);
    }
    forall a, b | 0 <= a < b < |g| ensures SentBefore(t, g[a], g[b]) { BlockOrderIff(t, g[a], g[b]); }
    forall i: nat | Sendable(t, now, delay, i) && OneConversation(t, i, lead) && i !in g
      ensures |g| == most && forall k :: 0 <= k < |g| ==> SentBefore(t, g[k], i)
    {
      assert Available(t, now, delay, i) && Key(t, i) == Key(t, lead);
      forall k | 0 <= k < |g| ensures SentBefore(t, g[k], i) { BlockOrderIff(t, g[k], i); }
    }
  }
}
