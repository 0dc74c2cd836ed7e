/** The `telegram_case_followups` table and the locked transactions that reserve,
    send and settle a follow-up.  A row's position is its id. */
module FollowupTable {
  import opened Base
  import opened KeyedInserts

  datatype Status = Reserved | Sending | Delivered | Uncertain | Canceled

  datatype Followup = Followup(
    caseId: nat, thread: string, conversation: string, command: nat, number: nat, status: Status,
    messageId: Option<int>)

  /** The case row's status, the LiveChat route that staff replies go to, and the Telegram chat of its card. */
  datatype Case = Case(status: string, conversation: string, thread: string, chat: string, topic: Option<int>)

  /** A Telegram message that belongs to a case; (chat, messageId) is unique. */
  datatype CaseMessage = CaseMessage(caseId: nat, chat: string, topic: Option<int>, messageId: int, kind: string)

  datatype Reservation = Reservation(id: nat, duplicate: bool)

  type Table = seq<Followup>

  /** The follow-up that a thread of a case already has. */
  function Find(t: Table, caseId: nat, thread: string): (r: Option<nat>)
    ensures r.Some? ==> r.value < |t| && t[r.value].caseId == caseId && t[r.value].thread == thread
    ensures r.None? ==> forall i :: 0 <= i < |t| ==> !(t[i].caseId == caseId && t[i].thread == thread)
  {
    if t == [] then None
    else
      var last := t[|t| - 1];
      var earlier := Find(t[..|t| - 1], caseId, thread);
      if earlier.Some? then earlier
      else if last.caseId == caseId && last.thread == thread then Some(|t| - 1)
      else None
  }

  /** COALESCE(MAX(follow_up_number), 1) over the case's rows. */
  function TopNumber(t: Table, caseId: nat): nat {
    if t == [] then 1
    else
      var last := t[|t| - 1];
      var top := TopNumber(t[..|t| - 1], caseId);
      if last.caseId == caseId && last.number > top then last.number else top
  }

  /** How many rows the case has. */
  function CaseCount(t: Table, caseId: nat): nat {
    if t == [] then 0
    else CaseCount(t[..|t| - 1], caseId) + (if t[|t| - 1].caseId == caseId then 1 else 0)
  }

  function ReservedRow(t: Table, command: nat, caseId: nat, conversation: string, thread: string): Followup {
    Followup(caseId, thread, conversation, command, TopNumber(t, caseId) + 1, Reserved, None)
  }

  function Settled(t: Table, i: nat, status: Status): Table {
    if i < |t| then t[i := t[i].(status := status)] else t
  }

  function SentRow(t: Table, i: nat, messageId: int): Table {
    if i < |t| then t[i := t[i].(status := Delivered, messageId := Some(messageId))] else t
  }

  /** The case's current route after a follow-up of some case starts sending. */
  function Rerouted(c: Case, id: nat, row: Followup): Case {
    if id == row.caseId then c.(conversation := row.conversation, thread := row.thread) else c
  }

  /** uk_telegram_case_followups_command: a command has at most one row. */
  predicate CommandUsed(t: Table, command: nat) {
    exists i :: 0 <= i < |t| && t[i].command == command
  }

  ghost predicate OneRowPerCommand(t: Table) {
    forall i, j :: 0 <= i < j < |t| ==> t[i].command != t[j].command
  }

  predicate Listed(t: seq<CaseMessage>, chat: string, messageId: int) {
    exists i :: 0 <= i < |t| && t[i].chat == chat && t[i].messageId == messageId
  }

  /** INSERT ... ON DUPLICATE KEY UPDATE id = id */
  function Noted(t: seq<CaseMessage>, m: CaseMessage): seq<CaseMessage> {
    if Listed(t, m.chat, m.messageId) then t else t + [m]
  }

  /** The follow-up's attachments, one after the other. */
  function AttachmentsNoted(t: seq<CaseMessage>, caseId: nat, c: Case, ids: seq<int>, k: nat): seq<CaseMessage>
    decreases |ids| - k
  {
    if k >= |ids| then t
    else
      var note := CaseMessage(caseId, c.chat, c.topic, ids[k], "follow_up_attachment");
      AttachmentsNoted(Noted(t, note), caseId, c, ids, k + 1)
  }

  /** The rows of a reply and its attachments. */
  ghost function MessageRows(caseId: nat, c: Case, messageId: int, attachments: seq<int>): seq<CaseMessage> {
    [CaseMessage(caseId, c.chat, c.topic, messageId, "follow_up")]
    + seq(|attachments|, k requires 0 <= k < |attachments| =>
        CaseMessage(caseId, c.chat, c.topic, attachments[k], "follow_up_attachment"))
  }

  const SAME_MESSAGE: (CaseMessage, CaseMessage) -> bool :=
    (a: CaseMessage, b: CaseMessage) => a.chat == b.chat && a.messageId == b.messageId

  lemma {:induction false} AttachmentPicks(t: seq<CaseMessage>, caseId: nat, c: Case, messageId: int, ids: seq<int>,
                                           k: nat)
    ensures AddedFrom(t, MessageRows(caseId, c, messageId, ids), SAME_MESSAGE, k + 1,
                      AttachmentsNoted(t, caseId, c, ids, k))
    decreases |ids| - k
  {
    var u, rows := AttachmentsNoted(t, caseId, c, ids, k), MessageRows(caseId, c, messageId, ids);
    if k >= |ids| {
      AddsNone(t, rows, SAME_MESSAGE, k + 1);
    } else {
      var t1 := Noted(t, rows[k + 1]);
      AttachmentPicks(t1, caseId, c, messageId, ids, k + 1);
      AddsOne(t, rows, SAME_MESSAGE, k + 1, t1, u);
    }
  }

  /** Listing a reply and its attachments stores each message that the chat does not have yet, in this order. */
  lemma MessagesNoted(t: seq<CaseMessage>, caseId: nat, c: Case, messageId: int, ids: seq<int>)
    ensures var rows := MessageRows(caseId, c, messageId, ids);
            Added(t, rows, SAME_MESSAGE, AttachmentsNoted(Noted(t, rows[0]), caseId, c, ids, 0))
  {
    var rows := MessageRows(caseId, c, messageId, ids);
    var t1 := Noted(t, rows[0]);
    var u := AttachmentsNoted(t1, caseId, c, ids, 0);
    AttachmentPicks(t1, caseId, c, messageId, ids, 0);
    AddsOne(t, rows, SAME_MESSAGE, 0, t1, u);
  }

  lemma {:induction false} AttachmentsListed(t: seq<CaseMessage>, caseId: nat, c: Case, ids: seq<int>, k: nat)
    ensures var u := AttachmentsNoted(t, caseId, c, ids, k);
            t <= u && forall j :: k <= j < |ids| ==> Listed(u, c.chat, ids[j])
    decreases |ids| - k
  {
    if k < |ids| {
      var m := CaseMessage(caseId, c.chat, c.topic, ids[k], "follow_up_attachment");
      var t1 := Noted(t, m);
      AttachmentsListed(t1, caseId, c, ids, k + 1);
      NotedListed(t, m, AttachmentsNoted(t1, caseId, c, ids, k + 1));
    }
  }

  lemma NotedListed(t: seq<CaseMessage>, m: CaseMessage, u: seq<CaseMessage>)
    requires Noted(t, m) <= u
    ensures t <= u && Listed(u, m.chat, m.messageId)
  {
    var t1 := Noted(t, m);
    var i :| 0 <= i < |t1| && t1[i].chat == m.chat && t1[i].messageId == m.messageId;
    assert u[i] == t1[i];
  }

  /** uk_case_thread: a case has one row per source thread. */
  ghost predicate OneRowPerThread(t: Table) {
    forall i, j :: 0 <= i < j < |t| ==> !(t[i].caseId == t[j].caseId && t[i].thread == t[j].thread)
  }

  /** Each row's number is two more than the number of earlier rows of its case: the root card is number one. */
  ghost predicate Consecutive(t: Table) {
    forall i :: 0 <= i < |t| ==> t[i].number == CaseCount(t[..i], t[i].caseId) + 2
  }

  lemma {:induction false} TopIsCount(t: Table, caseId: nat)
    requires Consecutive(t)
    ensures TopNumber(t, caseId) == CaseCount(t, caseId) + 1
  {
    if t != [] {
      var n := |t| - 1;
      var init := t[..n];
      forall i | 0 <= i < n ensures init[i].number == CaseCount(init[..i], init[i].caseId) + 2 {
        assert init[..i] == t[..i];
      }
      TopIsCount(init, caseId);
      assert t[n].number == CaseCount(t[..n], t[n].caseId) + 2;
    }
  }

  /** Numbering depends on nothing that later statements change. */
  lemma {:induction false} CountFrame(t: Table, u: Table, caseId: nat)
    requires |t| == |u| && forall i :: 0 <= i < |t| ==> t[i].caseId == u[i].caseId
    ensures CaseCount(t, caseId) == CaseCount(u, caseId)
  {
    if t != [] {
      CountFrame(t[..|t| - 1], u[..|u| - 1], caseId);
    }
  }

  lemma ConsecutiveFrame(t: Table, u: Table)
    requires |t| == |u| && forall i :: 0 <= i < |t| ==> t[i].caseId == u[i].caseId && t[i].number == u[i].number
    requires Consecutive(t)
    ensures Consecutive(u)
  {
    forall i | 0 <= i < |u| ensures u[i].number == CaseCount(u[..i], u[i].caseId) + 2 {
      CountFrame(t[..i], u[..i], u[i].caseId);
    }
  }

  /** Reserving for a new thread keeps the numbers consecutive and the threads unique. */
  lemma ReserveKeepsNumbers(t: Table, row: Followup)
    requires Consecutive(t) && row.number == TopNumber(t, row.caseId) + 1
    ensures Consecutive(t + [row])
  {
    TopIsCount(t, row.caseId);
    var u := t + [row];
    forall i | 0 <= i < |u| ensures u[i].number == CaseCount(u[..i], u[i].caseId) + 2 {
      assert u[..i] == if i < |t| then t[..i] else t;
    }
  }

  class TelegramCaseRepository {
    var cases: map<nat, Case>
    var followups: Table
    var caseMessages: seq<CaseMessage>

    ghost predicate Valid()
      reads this
    {
      OneRowPerThread(followups) && OneRowPerCommand(followups) && Consecutive(followups)
    }

    constructor (cases: map<nat, Case>)
      ensures Valid() && this.cases == cases && followups == [] && caseMessages == []
    {
      this.cases := cases;
      followups := [];
      caseMessages := [];
    }

    /** Under the case's row lock: the existing row of this thread, or a new one with the next number. */
    method ReserveFollowup(command: nat, caseId: nat, conversation: string, thread: string)
      returns (r: Result<Reservation>)
      requires Valid()
      modifies this`followups
      ensures Valid()
      ensures r.Err? <==> thread == "" || caseId !in cases
                          || (Find(old(followups), caseId, thread).None? && CommandUsed(old(followups), command))
      ensures r.Err? <==>
                || thread == "" || caseId !in cases
                || ((forall i :: 0 <= i < |old(followups)| ==>
                       old(followups)[i].caseId != caseId || old(followups)[i].thread != thread)
                    && exists i :: 0 <= i < |old(followups)| && old(followups)[i].command == command)
      ensures r.Err? || (r.Ok? && r.value.duplicate) ==> followups == old(followups)
      ensures r.Ok? ==> r.value.id < |followups|
                        && followups[r.value.id].caseId == caseId && followups[r.value.id].thread == thread
      ensures r.Ok? ==> (r.value.duplicate <==> Find(old(followups), caseId, thread).Some?)
      ensures r.Ok? && !r.value.duplicate ==>
                && r.value.id == |old(followups)|
                && followups == old(followups) + [ReservedRow(old(followups), command, caseId, conversation, thread)]
                && followups[r.value.id] ==
                     Followup(caseId, thread, conversation, command, CaseCount(old(followups), caseId) + 2,
                              Reserved, None)
    {
      if thread == "" {
        return Err("source_thread_id is required");
      }
      if caseId !in cases {
        return Err("telegram case not found");
      }
      var existing := Find(followups, caseId, thread);
      if existing.Some? {
        return Ok(Reservation(existing.value, true));
      }
      if CommandUsed(followups, command) {
        return Err("Duplicate entry for key uk_telegram_case_followups_command");
      }
      var row := Followup(caseId, thread, conversation, command, TopNumber(followups, caseId) + 1, Reserved, None);
      TopIsCount(followups, caseId);
      ReserveKeepsNumbers(followups, row);
      followups := followups + [row];
      r := Ok(Reservation(|followups| - 1, false));
    }

    /** Marks the row and points the case's route at the thread that asked. */
    method MarkFollowupSending(i: nat) returns (r: Result<()>)
      requires Valid()
      modifies this
      ensures Valid()
      ensures r.Ok? <==> i < |old(followups)|
      ensures r.Err? ==> followups == old(followups) && cases == old(cases)
      ensures r.Ok? ==>
                && followups == Settled(old(followups), i, Sending) && followups[i].status == Sending
                && cases.Keys == old(cases).Keys
                && (forall c :: c in cases ==> cases[c] == Rerouted(old(cases)[c], c, followups[i]))
      ensures r.Ok? ==>
                var row := old(followups)[i];
                && followups == old(followups)[i := row.(status := Sending)]
                && (forall c :: c in cases && c != row.caseId ==> cases[c] == old(cases)[c])
                && (row.caseId in cases ==>
                      cases[row.caseId] ==
                        old(cases)[row.caseId].(conversation := row.conversation, thread := row.thread))
    {
      if i >= |followups| {
        return Err("telegram follow-up not found");
      }
      var row := followups[i];
      ghost var before := followups;
      followups := followups[i := row.(status := Sending)];
      ConsecutiveFrame(before, followups);
      if row.caseId in cases {
        cases := cases[row.caseId := cases[row.caseId].(conversation := row.conversation, thread := row.thread)];
      }
      r := Ok(());
    }

    /** Marks the row sent and lists the message and its attachments under the case, all or nothing. */
    method RecordFollowupSent(i: nat, messageId: int, attachments: seq<int>) returns (r: Result<()>)
      requires Valid()
      modifies this`followups, this`caseMessages
      ensures Valid()
      ensures r.Ok? <==> i < |old(followups)| && old(followups)[i].caseId in cases
      ensures followups == if r.Ok? then SentRow(old(followups), i, messageId) else old(followups)
      ensures r.Err? ==> caseMessages == old(caseMessages)
      ensures r.Ok? ==>
                var row := old(followups)[i];
                && followups == old(followups)[i := row.(status := Delivered, messageId := Some(messageId))]
                && Added(old(caseMessages), MessageRows(row.caseId, cases[row.caseId], messageId, attachments),
                         SAME_MESSAGE, caseMessages)
      ensures r.Ok? ==>
                var c := cases[followups[i].caseId];
                && followups[i].status == Delivered && followups[i].messageId == Some(messageId)
                && old(caseMessages) <= caseMessages && Listed(caseMessages, c.chat, messageId)
                && (forall k :: 0 <= k < |attachments| ==> Listed(caseMessages, c.chat, attachments[k]))
                && var reply := CaseMessage(followups[i].caseId, c.chat, c.topic, messageId, "follow_up");
                   caseMessages == AttachmentsNoted(Noted(old(caseMessages), reply), reply.caseId, c, attachments, 0)
    {
      if i >= |followups| || followups[i].caseId !in cases {
        return Err("telegram follow-up not found");
      }
      ghost var before := followups;
      followups := followups[i := followups[i].(status := Delivered, messageId := Some(messageId))];
      ConsecutiveFrame(before, followups);
      MessagesNoted(caseMessages, followups[i].caseId, cases[followups[i].caseId], messageId, attachments);
      NoteMessages(followups[i].caseId, messageId, attachments);
      r := Ok(());
    }

    method NoteMessages(caseId: nat, messageId: int, attachments: seq<int>)
      requires caseId in cases
      modifies this`caseMessages
      ensures var c := cases[caseId];
              && old(caseMessages) <= caseMessages && Listed(caseMessages, c.chat, messageId)
              && (forall k :: 0 <= k < |attachments| ==> Listed(caseMessages, c.chat, attachments[k]))
              && caseMessages == AttachmentsNoted(Noted(old(caseMessages),
                   CaseMessage(caseId, c.chat, c.topic, messageId, "follow_up")), caseId, c, attachments, 0)
    {
      var c := cases[caseId];
      var card := CaseMessage(caseId, c.chat, c.topic, messageId, "follow_up");
      ghost var before := caseMessages;
      caseMessages := Noted(caseMessages, card);
      ghost var target := AttachmentsNoted(caseMessages, caseId, c, attachments, 0);
      AttachmentsListed(caseMessages, caseId, c, attachments, 0);
      NotedListed(before, card, target);
      for k := 0 to |attachments|
        invariant AttachmentsNoted(caseMessages, caseId, c, attachments, k) == target
      {
        caseMessages :=
          Noted(caseMessages, CaseMessage(caseId, c.chat, c.topic, attachments[k], "follow_up_attachment"));
      }
    }

    /** mark_followup_retryable, mark_followup_delivery_uncertain and cancel_followup differ in the status written. */
    method SettleFollowup(i: nat, status: Status)
      requires Valid()
      requires status == Reserved || status == Uncertain || status == Canceled
      modifies this`followups
      ensures Valid()
      ensures followups == Settled(old(followups), i, status)
      ensures i < |old(followups)| ==> followups == old(followups)[i := old(followups)[i].(status := status)]
      ensures i >= |old(followups)| ==> followups == old(followups)
      ensures forall j :: 0 <= j < |followups| ==>
                followups[j].number == old(followups)[j].number && (j != i ==> followups[j] == old(followups)[j])
    {
      if i < |followups| {
        ghost var before := followups;
        followups := followups[i := followups[i].(status := status)];
        ConsecutiveFrame(before, followups);
      }
    }
  }
}
