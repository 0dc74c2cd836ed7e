/** The repository over the outbound table.  Each method is one statement or one
    transaction; NOW(6) and the environment's delays are parameters. */
module OutboundRepository {
  import opened Base
  import opened Selection
  import opened Sorting
  import opened OutboundQueue

  /** The groups granted to conversations k, k+1, ..., each taken from the table as it was before the transaction. */
  function GroupsOf(t: Table, now: int, delay: int, keys: seq<string>, k: nat, most: nat): seq<seq<nat>>
    decreases |keys| - k
  {
    if k >= |keys| then []
    else
      var ids := Group(t, now, delay, keys[k], most);
      var rest := GroupsOf(t, now, delay, keys, k + 1, most);
      if ids == [] then rest else [ids] + rest
  }

  function Flat(groups: seq<seq<nat>>): seq<nat> {
    if groups == [] then [] else groups[0] + Flat(groups[1..])
  }

  /** Leasing one conversation does not change what another will be granted. */
  lemma StampFrame(t: Table, ids: seq<nat>, lock: Lock, now: int, delay: int, key: string, most: nat)
    requires forall k :: 0 <= k < |ids| ==> ids[k] < |t| && Key(t, ids[k]) != key
    ensures Group(Stamped(t, ids, lock), now, delay, key, most) == Group(t, now, delay, key, most)
  {
    var u := Stamped(t, ids, lock);
    assert Ranks(u) == Ranks(t);
    forall i: nat ensures MemberTest(u, now, delay, key)(i) == MemberTest(t, now, delay, key)(i) {
      if i < |t| { assert Key(u, i) == Key(t, i); }
    }
    SameAnswer(MemberTest(u, now, delay, key), MemberTest(t, now, delay, key), 0, |t|, |t|);
  }

  lemma {:induction false} StampFrameAll(t: Table, ids: seq<nat>, lock: Lock, now: int, delay: int, keys: seq<string>,
                                         k: nat, most: nat)
    requires forall n, m :: 0 <= n < |ids| && k <= m < |keys| ==> ids[n] < |t| && Key(t, ids[n]) != keys[m]
    ensures GroupsOf(Stamped(t, ids, lock), now, delay, keys, k, most) == GroupsOf(t, now, delay, keys, k, most)
    decreases |keys| - k
  {
    if k < |keys| {
      StampFrame(t, ids, lock, now, delay, keys[k], most);
      StampFrameAll(t, ids, lock, now, delay, keys, k + 1, most);
    }
  }

  /** Leasing one by one grants the same groups as reading the table once. */
  lemma {:induction false} LeasedGroupsSpec(t: Table, now: int, delay: int, keys: seq<string>, k: nat, most: nat,
                                            lock: Lock)
    requires Distinct(keys)
    ensures LeasedGroups(t, now, delay, keys, k, most, lock).1 == GroupsOf(t, now, delay, keys, k, most)
    ensures LeasedGroups(t, now, delay, keys, k, most, lock).0 ==
              Stamped(t, Flat(GroupsOf(t, now, delay, keys, k, most)), lock)
    decreases |keys| - k
  {
    if k < |keys| {
      var ids := Group(t, now, delay, keys[k], most);
      if ids == [] {
        LeasedGroupsSpec(t, now, delay, keys, k + 1, most, lock);
      } else {
        LeasedGroupsSpec(Stamped(t, ids, lock), now, delay, keys, k + 1, most, lock);
        GroupIsGroup(t, now, delay, keys[k], most);
        StampFrameAll(t, ids, lock, now, delay, keys, k + 1, most);
        var rest := GroupsOf(t, now, delay, keys, k + 1, most);
        StampTwice(t, ids, Flat(rest), lock);
        assert ([ids] + rest)[1..] == rest;
      }
    } else {
      assert Stamped(t, [], lock) == t;
    }
  }

  ghost function Joined(groups: seq<seq<nat>>, rest: (Table, seq<seq<nat>>)): (Table, seq<seq<nat>>) {
    (rest.0, groups + rest.1)
  }

  lemma JoinFacts(groups: seq<seq<nat>>, ids: seq<nat>, rest: (Table, seq<seq<nat>>))
    ensures Joined([], rest) == rest
    ensures Joined(groups, (rest.0, [ids] + rest.1)) == Joined(groups + [ids], rest)
    ensures Joined(groups, (rest.0, [])) == (rest.0, groups)
  {
    assert [] + rest.1 == rest.1;
    assert groups + ([ids] + rest.1) == (groups + [ids]) + rest.1;
    assert groups + [] == groups;
  }

  lemma StampTwice(t: Table, a: seq<nat>, b: seq<nat>, lock: Lock)
    ensures Stamped(Stamped(t, a, lock), b, lock) == Stamped(t, a + b, lock)
  {
  }

  /** No conversation is granted twice in one transaction. */
  lemma LeadersDistinct(t: Table, now: int, delay: int, limit: nat)
    ensures var ids := LeaderIds(t, now, delay, limit);
            forall k :: 0 <= k < |ids| ==>
              Leads(t, now, delay, ids[k]) && LeaderKeys(t, now, delay, limit)[k] == Key(t, ids[k])
    ensures Distinct(LeaderKeys(t, now, delay, limit))
  {
    FirstIsFirst(LeadTest(t, now, delay), 0, |t|, limit);
    var ids := LeaderIds(t, now, delay, limit);
    forall k | 0 <= k < |ids| ensures Leads(t, now, delay, ids[k]) {
      assert LeadTest(t, now, delay)(ids[k]);
    }
  }

  /** leads are the first `limit` eligible rows, oldest first. */
  ghost predicate LeadsGranted(t: Table, now: int, delay: int, limit: nat, leads: seq<nat>) {
    && |leads| <= limit && (forall a, b :: 0 <= a < b < |leads| ==> leads[a] < leads[b])
    && (forall k :: 0 <= k < |leads| ==> Eligible(t, now, delay, leads[k]))
    && (forall i: nat :: Eligible(t, now, delay, i) && i !in leads ==>
          |leads| == limit && forall k :: 0 <= k < |leads| ==> leads[k] < i)
  }

  /** In columns: one group for each of the first `limit` conversations that may send, the longest waiting first. */
  ghost predicate SendsGroups(t: Table, now: int, delay: int, limit: nat, most: nat, groups: seq<seq<nat>>) {
    exists leads ::
      && LeadsGranted(t, now, delay, limit, leads) && |groups| == (if most == 0 then 0 else |leads|)
      && forall k :: 0 <= k < |groups| ==> SendsBlocks(t, now, delay, leads[k], most, groups[k])
  }

  lemma LeadersFirst(t: Table, now: int, delay: int, limit: nat, i: nat)
    requires Eligible(t, now, delay, i) && i !in LeaderIds(t, now, delay, limit)
    ensures var ids := LeaderIds(t, now, delay, limit); |ids| == limit && forall k :: 0 <= k < |ids| ==> ids[k] < i
  {
    FirstIsFirst(LeadTest(t, now, delay), 0, |t|, limit);
    LeadsIff(t, now, delay, i);
    assert LeadTest(t, now, delay)(i) && i >= Reach(LeaderIds(t, now, delay, limit), 0, |t|, limit);
  }

  lemma LeaderIdsGranted(t: Table, now: int, delay: int, limit: nat)
    ensures LeadsGranted(t, now, delay, limit, LeaderIds(t, now, delay, limit))
  {
    var ids, test := LeaderIds(t, now, delay, limit), LeadTest(t, now, delay);
    FirstIsFirst(test, 0, |t|, limit);
    forall k | 0 <= k < |ids| ensures Eligible(t, now, delay, ids[k]) {
      assert test(ids[k]);
      LeadsIff(t, now, delay, ids[k]);
    }
    forall i: nat | Eligible(t, now, delay, i) && i !in ids
      ensures |ids| == limit && forall k :: 0 <= k < |ids| ==> ids[k] < i
    {
      LeadersFirst(t, now, delay, limit, i);
    }
  }

  /** The group of each conversation. */
  ghost function EachGroup(t: Table, now: int, delay: int, keys: seq<string>, k: nat, most: nat): seq<seq<nat>>
    requires k <= |keys|
  {
    seq(|keys| - k, m requires 0 <= m < |keys| - k => Group(t, now, delay, keys[k + m], most))
  }

  lemma EachGroupNext(t: Table, now: int, delay: int, keys: seq<string>, k: nat, most: nat)
    requires k < |keys|
    ensures EachGroup(t, now, delay, keys, k, most) ==
            [Group(t, now, delay, keys[k], most)] + EachGroup(t, now, delay, keys, k + 1, most)
  {
  }

  /** Only a group size of zero leaves a conversation without a group. */
  lemma {:induction false} GroupsFollowKeys(t: Table, now: int, delay: int, keys: seq<string>, k: nat, most: nat)
    requires k <= |keys| && forall m :: k <= m < |keys| ==> Group(t, now, delay, keys[m], most) != []
    ensures GroupsOf(t, now, delay, keys, k, most) == EachGroup(t, now, delay, keys, k, most)
    decreases |keys| - k
  {
    if k < |keys| {
      GroupsFollowKeys(t, now, delay, keys, k + 1, most);
      EachGroupNext(t, now, delay, keys, k, most);
    }
  }

  lemma {:induction false} NoGroupsOfNone(t: Table, now: int, delay: int, keys: seq<string>, k: nat)
    ensures GroupsOf(t, now, delay, keys, k, 0) == []
    decreases |keys| - k
  {
    if k < |keys| { NoGroupsOfNone(t, now, delay, keys, k + 1); }
  }

  lemma LeaseSendsGroups(t: Table, now: int, delay: int, limit: nat, most: nat)
    ensures SendsGroups(t, now, delay, limit, most, GroupsOf(t, now, delay, LeaderKeys(t, now, delay, limit), 0, most))
  {
    var leads, keys := LeaderIds(t, now, delay, limit), LeaderKeys(t, now, delay, limit);
    var groups := GroupsOf(t, now, delay, keys, 0, most);
    LeaderIdsGranted(t, now, delay, limit);
    LeadersDistinct(t, now, delay, limit);
    if most == 0 {
      NoGroupsOfNone(t, now, delay, keys, 0);
    } else {
      forall m | 0 <= m < |keys|
        ensures SendsBlocks(t, now, delay, leads[m], most, Group(t, now, delay, keys[m], most))
        ensures Group(t, now, delay, keys[m], most) != []
      {
        LeadsIff(t, now, delay, leads[m]);
        GroupSendsBlocks(t, now, delay, leads[m], most);
      }
      GroupsFollowKeys(t, now, delay, keys, 0, most);
    }
  }

  class OutboundMessageRepository {
    var messages: Table

    constructor ()
      ensures messages == []
    {
      messages := [];
    }

    method InsertIdempotent(conversation: Option<string>, dedupKey: string, status: Status, blockIndex: Option<int>,
                            now: int)
      returns (inserted: bool)
      modifies this
      ensures messages == Inserted(old(messages), Message(conversation, dedupKey, status, blockIndex, now, 0, UNLOCKED))
      ensures inserted <==> forall i :: 0 <= i < |old(messages)| ==> old(messages)[i].dedupKey != dedupKey
      ensures messages ==
                old(messages)
                + if inserted
                  then [Message(conversation, dedupKey, status, blockIndex, now, 0, Lock(None, None))] else []
    {
      inserted := !exists i :: 0 <= i < |messages| && messages[i].dedupKey == dedupKey;
      if inserted {
        messages := messages + [Message(conversation, dedupKey, status, blockIndex, now, 0, UNLOCKED)];
      }
    }

    /** Grants up to `limit` conversations, oldest first, and in each the first `most` rows in block order. */
    method LeasePendingGroups(limit: nat, worker: string, seconds: int, most: nat, now: int, delay: int)
      returns (groups: seq<seq<nat>>)
      modifies this
      ensures groups == GroupsOf(old(messages), now, delay, LeaderKeys(old(messages), now, delay, limit), 0, most)
      ensures SendsGroups(old(messages), now, delay, limit, most, groups) && |messages| == |old(messages)|
      ensures forall i :: 0 <= i < |messages| ==>
                messages[i] ==
                  if i in Flat(groups) then old(messages)[i].(lock := Lock(Some(worker), Some(now + seconds)))
                               else old(messages)[i]
    {
      LeadersDistinct(messages, now, delay, limit);
      LeaseSendsGroups(messages, now, delay, limit, most);
      var keys := LeaderKeys(messages, now, delay, limit);
      LeasedGroupsSpec(messages, now, delay, keys, 0, most, Grant(worker, now + seconds));
      groups := LeaseConversations(keys, most, Grant(worker, now + seconds), now, delay);
    }

    /** The loop of the transaction: one conversation after the other. */
    method LeaseConversations(keys: seq<string>, most: nat, lock: Lock, now: int, delay: int)
      returns (groups: seq<seq<nat>>)
      modifies this
      ensures (messages, groups) == LeasedGroups(old(messages), now, delay, keys, 0, most, lock)
    {
      groups := [];
      ghost var final := LeasedGroups(messages, now, delay, keys, 0, most, lock);
      JoinFacts([], [], final);
      for k := 0 to |keys|
        invariant final == Joined(groups, LeasedGroups(messages, now, delay, keys, k, most, lock))
      {
        var ids := Group(messages, now, delay, keys[k], most);
        if ids != [] {
          messages := Stamped(messages, ids, lock);
          JoinFacts(groups, ids, LeasedGroups(messages, now, delay, keys, k + 1, most, lock));
          groups := groups + [ids];
        }
      }
      JoinFacts(groups, [], (messages, []));
    }

    method MarkSent(i: nat)
      modifies this
      ensures messages == Closing(old(messages), i, Sent)
      ensures !Active(messages, i)
      ensures messages == if i < |old(messages)|
                          then old(messages)[i := old(messages)[i].(status := Sent, lock := Lock(None, None))]
                          else old(messages)
    {
      if i < |messages| {
        messages := messages[i := messages[i].(status := Sent, lock := UNLOCKED)];
      }
    }

    /** A retryable failure backs off inside the row's own lease columns, whatever status it writes; others close it. */
    method MarkFailed(i: nat, status: Status, retryable: bool, now: int, base: int, cap: int)
      requires base > 0 && cap > 0
      modifies this
      ensures messages ==
                if retryable then BackedOff(old(messages), now, i, status, base, cap)
                else Closing(old(messages), i, status)
      ensures i < |messages| ==> messages[i].status == status
      ensures i < |messages| && retryable ==>
                && messages[i].retryCount == old(messages)[i].retryCount + 1 && !Free(messages[i].lock, now)
                && (LiveLocked(messages, now, i) <==> status.Pending? || status.Retryable?)
      ensures i < |messages| && !retryable ==> Free(messages[i].lock, now)
      ensures messages == if i >= |old(messages)| then old(messages)
                          else if retryable then old(messages)[i := Retried(old(messages)[i], status, now, base, cap)]
                          else old(messages)[i := old(messages)[i].(status := status, lock := Lock(None, None))]
    {
      if i < |messages| {
        if retryable {
          var n := messages[i].retryCount + 1;
          BackoffBounds(n, base, cap);
          BackoffDoubles(messages[i].retryCount, base, cap);
          var holder := match messages[i].lock.lockedBy case Some(w) => w case None => "retry-backoff";
          messages := messages[i := messages[i].(status := status, retryCount := n,
                                                 lock := Grant(holder, now + Backoff(n, base, cap)))];
        } else {
          messages := messages[i := messages[i].(status := status, lock := UNLOCKED)];
        }
      }
    }

    method ExtendLease(i: nat, worker: string, seconds: int, now: int) returns (rowcount: nat)
      modifies this
      ensures messages == Extended(old(messages), now, i, worker, seconds)
      ensures rowcount == 1 <==>
                && i < |old(messages)| && (old(messages)[i].status.Pending? || old(messages)[i].status.Retryable?)
                && old(messages)[i].lock.lockedBy == Some(worker)
      ensures rowcount == 1 && seconds >= 0 ==> LiveLocked(messages, now + seconds, i)
      ensures rowcount == 1 ==>
                messages == old(messages)[i := old(messages)[i].(lock := Lock(Some(worker), Some(now + seconds)))]
      ensures rowcount != 1 ==> rowcount == 0 && messages == old(messages)
    {
      if i < |messages| && Open(messages[i]) && messages[i].lock.lockedBy == Some(worker) {
        messages := messages[i := messages[i].(lock := Grant(worker, now + seconds))];
        rowcount := 1;
      } else {
        rowcount := 0;
      }
    }

    method ReleaseLease(i: nat)
      modifies this
      ensures messages == Released(old(messages), i)
      ensures forall now :: !LiveLocked(messages, now, i)
      ensures messages == if i < |old(messages)| then old(messages)[i := old(messages)[i].(lock := Lock(None, None))]
                          else old(messages)
    {
      if i < |messages| {
        messages := messages[i := messages[i].(lock := UNLOCKED)];
      }
    }

    method RecoverExpiredLeases(now: int)
      modifies this
      ensures messages == Recovered(old(messages), now)
      ensures forall i: nat :: LiveLocked(messages, now, i) <==> LiveLocked(old(messages), now, i)
      ensures |messages| == |old(messages)|
      ensures forall i :: 0 <= i < |messages| ==>
                var row := old(messages)[i];
                messages[i] == if Unsent(row) && row.lock.expires.Some? && row.lock.expires.value < now
                               then row.(lock := Lock(None, None)) else row
    {
      messages := Recovered(messages, now);
    }
  }

  // ---- Backoff ---------------------------------------------------------------------------

  /** A retried row in columns: the first three failures double the base delay, later ones wait as long as the third,
      and the recorded worker keeps the lock, or a stand-in if there is none. */
  ghost function Retried(m: Message, status: Status, now: int, base: int, cap: int): Message {
    var n := m.retryCount;
    var delay := if n == 0 then 2 * base else if n == 1 then 4 * base else 8 * base;
    m.(status := status, retryCount := n + 1,
       lock := Lock(Some(if m.lock.lockedBy.Some? then m.lock.lockedBy.value else "retry-backoff"),
                    Some(now + if delay < cap then delay else cap)))
  }

  lemma BackoffDoubles(n: nat, base: int, cap: int)
    ensures Backoff(n + 1, base, cap) ==
            Min(cap, (if n == 0 then 2 * base else if n == 1 then 4 * base else 8 * base))
  {
    assert Pow2(1) == 2 && Pow2(2) == 4 && Pow2(3) == 8;
  }

  lemma {:induction false} Pow2Monotone(a: nat, b: nat)
    requires a <= b
    ensures 1 <= Pow2(a) <= Pow2(b)
    decreases b
  {
    if a < b {
      Pow2Monotone(a, b - 1);
    } else if a > 0 {
      Pow2Monotone(a - 1, b - 1);
    }
  }

  lemma BackoffBounds(retryCount: nat, base: int, cap: int)
    requires base > 0 && cap > 0
    ensures Min(base, cap) <= Backoff(retryCount, base, cap) <= cap
    ensures Backoff(retryCount, base, cap) > 0
    ensures retryCount >= 1 ==> Backoff(retryCount, base, cap) >= Min(2 * base, cap)
  {
    var n := if retryCount <= 3 then retryCount else 3;
    Pow2Monotone(0, n);
    ScaleUp(base, 1, Pow2(n));
    if n >= 1 {
      Pow2Monotone(1, n);
      ScaleUp(base, 2, Pow2(n));
    }
  }

  /** Delays never shrink as the retry count grows. */
  lemma BackoffMonotone(a: nat, b: nat, base: int, cap: int)
    requires a <= b && base > 0 && cap > 0
    ensures Backoff(a, base, cap) <= Backoff(b, base, cap)
  {
    var m := if a <= 3 then a else 3;
    var n := if b <= 3 then b else 3;
    Pow2Monotone(m, n);
    ScaleUp(base, Pow2(m), Pow2(n));
  }

  lemma ScaleUp(base: int, x: int, y: int)
    requires base > 0 && x <= y
    ensures base * x <= base * y
  {
  }
}
