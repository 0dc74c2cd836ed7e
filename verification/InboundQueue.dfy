/** The `inbound_events` table as a work queue: a per-chat head-of-line lease,
    unguarded release and completion, and runs in which workers stall, crash and
    report late.  A row's position stands for its auto-increment id. */
module InboundQueue {
  import opened Base
  import opened Selection

  datatype Event = Event(chat: Option<string>, dedupKey: string, ignored: bool, processed: bool, lock: Lock)

  type Table = seq<Event>

  /** COALESCE(chat_id, CONCAT('inbound:', id)) */
  function ChatKey(t: Table, i: nat): string
    requires i < |t|
  {
    match t[i].chat
    case Some(chat) => chat
    case None => "inbound:" + Decimal(i)
  }

  predicate Waiting(t: Table, i: nat) {
    i < |t| && !t[i].processed && !t[i].ignored
  }

  predicate SameChat(t: Table, i: nat, j: nat) {
    i < |t| && j < |t| && ChatKey(t, i) == ChatKey(t, j)
  }

  /** A waiting event with no earlier waiting event of its chat. */
  predicate IsHead(t: Table, i: nat) {
    Waiting(t, i) && forall j :: 0 <= j < i ==> !(Waiting(t, j) && SameChat(t, j, i))
  }

  predicate Leasable(t: Table, now: int, i: nat) {
    IsHead(t, i) && Free(t[i].lock, now)
  }

  function Offers(t: Table, now: int): nat -> bool {
    (i: nat) => Leasable(t, now, i)
  }

  /** The rows that `lease_unprocessed` selects. */
  function LeaseIds(t: Table, now: int, limit: nat): seq<nat> {
    First(Offers(t, now), 0, |t|, limit)
  }

  // ---- The same in columns ---------------------------------------------------

  /** Two rows of one chat.  A row without a chat id is a chat of its own, unless another row's chat id happens to spell
      the name that COALESCE makes for it. */
  ghost predicate OneChat(t: Table, i: nat, j: nat)
    requires i < |t| && j < |t|
  {
    || i == j
    || (t[i].chat.Some? && t[j].chat.Some? && t[i].chat.value == t[j].chat.value)
    || (t[i].chat.None? && t[j].chat == Some("inbound:" + Decimal(i)))
    || (t[j].chat.None? && t[i].chat == Some("inbound:" + Decimal(j)))
  }

  /** The lowest id among the events of its chat that are neither processed nor ignored. */
  ghost predicate Oldest(t: Table, i: nat) {
    && i < |t| && !t[i].processed && !t[i].ignored
    && forall j: nat :: j < i && OneChat(t, j, i) ==> t[j].processed || t[j].ignored
  }

  /** No worker's lease on the row is still running. */
  ghost predicate Unleased(t: Table, now: int, i: nat)
    requires i < |t|
  {
    t[i].lock.lockedBy == None || t[i].lock.expires == None || t[i].lock.expires.value < now
  }

  /** ids are the first `limit` oldest events of their chats that nobody has leased. */
  ghost predicate ServesChats(t: Table, now: int, limit: nat, ids: seq<nat>) {
    && |ids| <= limit && (forall a, b :: 0 <= a < b < |ids| ==> ids[a] < ids[b])
    && (forall k :: 0 <= k < |ids| ==> Oldest(t, ids[k]) && Unleased(t, now, ids[k]))
    && (forall i: nat :: Oldest(t, i) && Unleased(t, now, i) && i !in ids ==>
          |ids| == limit && forall k :: 0 <= k < |ids| ==> ids[k] < i)
  }

  lemma SameChatIff(t: Table, i: nat, j: nat)
    requires i < |t| && j < |t|
    ensures SameChat(t, i, j) <==> OneChat(t, i, j)
  {
    if t[i].chat.None? && t[j].chat.None? && SameChat(t, i, j) {
      assert ChatKey(t, i)[|"inbound:"|..] == Decimal(i) && ChatKey(t, j)[|"inbound:"|..] == Decimal(j);
      DecimalInjective(i, j);
    }
  }

  lemma LeasableIff(t: Table, now: int, i: nat)
    ensures IsHead(t, i) <==> Oldest(t, i)
    ensures Leasable(t, now, i) <==> Oldest(t, i) && Unleased(t, now, i)
  {
    if i < |t| {
      forall j: nat | j < i ensures SameChat(t, j, i) <==> OneChat(t, j, i) { SameChatIff(t, j, i); }
    }
  }

  /** The query grants the oldest free event of every chat, oldest chats first, as far as the limit goes. */
  lemma LeaseServesChats(t: Table, now: int, limit: nat)
    ensures ServesChats(t, now, limit, LeaseIds(t, now, limit))
  {
    var ids := LeaseIds(t, now, limit);
    FirstIsFirst(Offers(t, now), 0, |t|, limit);
    forall i: nat ensures Offers(t, now)(i) <==> Oldest(t, i) && Unleased(t, now, i) { LeasableIff(t, now, i); }
    forall k | 0 <= k < |ids| ensures Oldest(t, ids[k]) && Unleased(t, now, ids[k]) { assert Offers(t, now)(ids[k]); }
    forall i: nat | Oldest(t, i) && Unleased(t, now, i) && i !in ids
      ensures |ids| == limit && forall k :: 0 <= k < |ids| ==> ids[k] < i
    {
      assert Offers(t, now)(i) && i >= Reach(ids, 0, |t|, limit);
    }
  }

  /** A chat with an event to process has exactly one event to offer, and it is not later than that event. */
  lemma {:induction false} OneOfferPerChat(t: Table, i: nat)
    requires i < |t| && !t[i].processed && !t[i].ignored
    ensures exists h: nat :: h <= i && Oldest(t, h) && OneChat(t, h, i)
    ensures forall g: nat, h: nat :: Oldest(t, g) && Oldest(t, h) && OneChat(t, g, i) && OneChat(t, h, i) ==> g == h
    decreases i
  {
    if j: nat :| j < i && OneChat(t, j, i) && !t[j].processed && !t[j].ignored {
      OneOfferPerChat(t, j);
      var h: nat :| h <= j && Oldest(t, h) && OneChat(t, h, j);
      OneChatTransitive(t, h, j, i);
    } else {
      assert Oldest(t, i);
    }
    forall g: nat, h: nat | Oldest(t, g) && Oldest(t, h) && OneChat(t, g, i) && OneChat(t, h, i) ensures g == h {
      OneChatTransitive(t, g, i, h);
      OneChatTransitive(t, h, i, g);
    }
  }

  lemma OneChatTransitive(t: Table, i: nat, j: nat, k: nat)
    requires i < |t| && j < |t| && k < |t| && OneChat(t, i, j) && (OneChat(t, j, k) || OneChat(t, k, j))
    ensures OneChat(t, i, k)
  {
    SameChatIff(t, i, j);
    SameChatIff(t, j, k);
    SameChatIff(t, k, j);
    SameChatIff(t, i, k);
  }

  /** A large enough limit serves every chat whose oldest event is free. */
  lemma LeaseServesEveryChat(t: Table, now: int, limit: nat, h: nat)
    requires |t| <= limit && Oldest(t, h)
    ensures h in LeaseIds(t, now, limit) <==> Unleased(t, now, h)
  {
    LeaseServesChats(t, now, limit);
    var ids := LeaseIds(t, now, limit);
    if Unleased(t, now, h) && h !in ids { AscendingFits(ids, h); }
  }

  /** What happens to other chats never decides whether an event is offered. */
  lemma OtherChatsIrrelevant(t: Table, u: Table, now: int, i: nat)
    requires i < |t| && i < |u| && t[i] == u[i]
    requires forall j: nat :: j < i && (OneChat(t, j, i) || OneChat(u, j, i)) ==> t[j] == u[j]
    ensures Leasable(t, now, i) <==> Leasable(u, now, i)
  {
    LeasableIff(t, now, i);
    LeasableIff(u, now, i);
    forall j: nat | j < i && OneChat(t, j, i) ensures OneChat(u, j, i) { }
    forall j: nat | j < i && OneChat(u, j, i) ensures OneChat(t, j, i) { }
  }

  // ---- Statements ------------------------------------------------------------

  /** INSERT ... ON DUPLICATE KEY UPDATE id = id */
  function Inserted(t: Table, e: Event): Table {
    if exists i :: 0 <= i < |t| && t[i].dedupKey == e.dedupKey then t else t + [e]
  }

  function Stamped(t: Table, ids: seq<nat>, lock: Lock): (r: Table)
    ensures |r| == |t|
  {
    seq(|t|, i requires 0 <= i < |t| => if i in ids then t[i].(lock := lock) else t[i])
  }

  function Extended(t: Table, now: int, i: nat, worker: string, seconds: int): Table {
    if i < |t| && t[i].lock.lockedBy == Some(worker) && !t[i].processed
    then t[i := t[i].(lock := Grant(worker, now + seconds))]
    else t
  }

  function Released(t: Table, i: nat): Table {
    if i < |t| then t[i := t[i].(lock := UNLOCKED)] else t
  }

  function Recovered(t: Table, now: int): (r: Table)
    ensures |r| == |t|
  {
    seq(|t|, i requires 0 <= i < |t| =>
      if Waiting(t, i) && Expired(t[i].lock, now) then t[i].(lock := UNLOCKED) else t[i])
  }

  function Processed(t: Table, i: nat): Table {
    if i < |t| then t[i := t[i].(processed := true, lock := UNLOCKED)] else t
  }

  /** The repository.  Each method is one statement or one transaction; NOW(6) is a parameter. */
  class InboundEventRepository {
    var events: Table

    constructor ()
      ensures events == []
    {
      events := [];
    }

    method Insert(chat: Option<string>, dedupKey: string, ignored: bool) returns (inserted: bool)
      modifies this
      ensures events == Inserted(old(events), Event(chat, dedupKey, ignored, false, UNLOCKED))
      ensures inserted <==> forall i :: 0 <= i < |old(events)| ==> old(events)[i].dedupKey != dedupKey
      ensures events == old(events) + if inserted then [Event(chat, dedupKey, ignored, false, Lock(None, None))] else []
    {
      inserted := !exists i :: 0 <= i < |events| && events[i].dedupKey == dedupKey;
      if inserted {
        events := events + [Event(chat, dedupKey, ignored, false, UNLOCKED)];
      }
    }

    /** Grants the oldest free chat heads, at most one per chat, in id order. */
    method LeaseUnprocessed(limit: nat, worker: string, seconds: int, now: int) returns (ids: seq<nat>)
      modifies this
      ensures ids == LeaseIds(old(events), now, limit)
      ensures events == Stamped(old(events), ids, Grant(worker, now + seconds))
      ensures IsFirst(ids, Offers(old(events), now), 0, |old(events)|, limit)
      ensures ServesChats(old(events), now, limit, ids) && |events| == |old(events)|
      ensures forall a, b :: 0 <= a < b < |ids| ==> !SameChat(old(events), ids[a], ids[b])
      ensures forall i :: 0 <= i < |events| ==>
                events[i] == if i in ids then old(events)[i].(lock := Lock(Some(worker), Some(now + seconds)))
                             else old(events)[i]
    {
      FirstIsFirst(Offers(events, now), 0, |events|, limit);
      ids := LeaseIds(events, now, limit);
      LeasedChatsDistinct(events, now, limit);
      LeaseServesChats(events, now, limit);
      if ids == [] {
        assert Stamped(events, ids, Grant(worker, now + seconds)) == events;
        return;
      }
      events := Stamped(events, ids, Grant(worker, now + seconds));
    }

    method ExtendLease(i: nat, worker: string, seconds: int, now: int) returns (rowcount: nat)
      modifies this
      ensures events == Extended(old(events), now, i, worker, seconds)
      ensures rowcount == 1 <==>
                i < |old(events)| && old(events)[i].lock.lockedBy == Some(worker) && !old(events)[i].processed
      ensures rowcount == 1 ==> forall t :: now <= t <= now + seconds ==> !Free(events[i].lock, t)
      ensures rowcount == 1 ==>
                events == old(events)[i := old(events)[i].(lock := Lock(Some(worker), Some(now + seconds)))]
      ensures rowcount != 1 ==> rowcount == 0 && events == old(events)
    {
      if i < |events| && events[i].lock.lockedBy == Some(worker) && !events[i].processed {
        events := events[i := events[i].(lock := Grant(worker, now + seconds))];
        rowcount := 1;
      } else {
        rowcount := 0;
      }
    }

    method ReleaseLease(i: nat, now: int)
      modifies this
      ensures events == Released(old(events), i)
      ensures i < |events| ==> Free(events[i].lock, now)
      ensures events == if i < |old(events)| then old(events)[i := old(events)[i].(lock := Lock(None, None))]
                        else old(events)
    {
      if i < |events| {
        events := events[i := events[i].(lock := UNLOCKED)];
      }
    }

    method RecoverExpiredLeases(now: int)
      modifies this
      ensures events == Recovered(old(events), now)
      ensures forall i: nat :: Leasable(events, now, i) <==> Leasable(old(events), now, i)
      ensures |events| == |old(events)|
      ensures forall i :: 0 <= i < |events| ==>
                var row := old(events)[i];
                events[i] == if !row.processed && !row.ignored && row.lock.expires.Some? && row.lock.expires.value < now
                             then row.(lock := Lock(None, None)) else row
    {
      RecoveryKeepsOffers(events, now);
      events := Recovered(events, now);
    }

    method MarkProcessed(i: nat)
      modifies this
      ensures events == Processed(old(events), i)
      ensures !Waiting(events, i)
      ensures events == if i < |old(events)|
                        then old(events)[i := old(events)[i].(processed := true, lock := Lock(None, None))]
                        else old(events)
    {
      if i < |events| {
        events := events[i := events[i].(processed := true, lock := UNLOCKED)];
      }
    }
  }

  /** The lease query has one answer: whatever serves the chats in this way is the grant. */
  lemma LeaseDetermined(t: Table, now: int, limit: nat, ids: seq<nat>)
    requires ServesChats(t, now, limit, ids)
    ensures ids == LeaseIds(t, now, limit)
  {
    var offers := Offers(t, now);
    forall i: nat ensures offers(i) <==> Oldest(t, i) && Unleased(t, now, i) { LeasableIff(t, now, i); }
    forall i: nat | offers(i) && i !in ids ensures i >= Reach(ids, 0, |t|, limit) {
      if ids != [] { assert ids[|ids| - 1] < i; }
    }
    FirstUnique(ids, offers, 0, |t|, limit);
  }

  lemma LeasedChatsDistinct(t: Table, now: int, limit: nat)
    ensures var ids := LeaseIds(t, now, limit);
            forall a, b :: 0 <= a < b < |ids| ==> !SameChat(t, ids[a], ids[b])
  {
    FirstIsFirst(Offers(t, now), 0, |t|, limit);
  }

  /** Clearing expired locks is invisible to the lease query. */
  lemma RecoveryKeepsOffers(t: Table, now: int)
    ensures forall i: nat :: Leasable(Recovered(t, now), now, i) <==> Leasable(t, now, i)
  {
    var r := Recovered(t, now);
    forall i: nat ensures Waiting(r, i) <==> Waiting(t, i) { }
    forall i: nat, j: nat ensures SameChat(r, i, j) <==> SameChat(t, i, j) { }
    forall i: nat ensures IsHead(r, i) <==> IsHead(t, i) { }
  }
}
