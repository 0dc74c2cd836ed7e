/** What the two transactions leave in every table, column by column and without
    reference to how they compute it. */
module Outcomes {
  import opened Base
  import opened Conversations
  import opened Gateway
  import opened KeyedInserts
  import opened Redelivery
  import CommandTable
  import InboundQueue
  import OutboundQueue

  // ---- Rows that are inserted ------------------------------------------------------------------------

  const SAME_OUTBOUND: (OutboundQueue.Message, OutboundQueue.Message) -> bool :=
    (a: OutboundQueue.Message, b: OutboundQueue.Message) => a.dedupKey == b.dedupKey

  const SAME_COMMAND: (CommandTable.Command, CommandTable.Command) -> bool :=
    (a: CommandTable.Command, b: CommandTable.Command) => a.dedupKey == b.dedupKey

  /** The unique keys of two messages clash; a NULL column makes a key clash with nothing. */
  const SAME_MESSAGE: (ChatMessage, ChatMessage) -> bool :=
    (a: ChatMessage, b: ChatMessage) =>
      var sameVoice := a.role == b.role && a.kind == b.kind;
      || (a.inboundEvent.Some? && b.inboundEvent.Some? && a.inboundEvent.value == b.inboundEvent.value && sameVoice)
      || (a.outbound.Some? && b.outbound.Some? && a.outbound.value == b.outbound.value)
      || (a.result.Some? && b.result.Some? && a.result.value == b.result.value && sameVoice)

  /** The requests as rows: the conversation is the only column that changes. */
  function OutboundOf(requests: seq<OutboundQueue.Message>, id: string): seq<OutboundQueue.Message> {
    seq(|requests|, k requires 0 <= k < |requests| => requests[k].(conversation := Some(id)))
  }

  function CommandsOf(requests: seq<CommandTable.Command>, id: string): seq<CommandTable.Command> {
    seq(|requests|, k requires 0 <= k < |requests| => requests[k].(conversation := id))
  }

  function MessagesOf(requests: seq<ChatMessage>, id: string): seq<ChatMessage> {
    seq(|requests|, k requires 0 <= k < |requests| => requests[k].(conversation := id))
  }

  lemma {:induction false} OutboundPicks(t: OutboundQueue.Table, requests: seq<OutboundQueue.Message>, id: string,
                                         lo: nat)
    ensures AddedFrom(t, OutboundOf(requests, id), SAME_OUTBOUND, lo, OutboundInserted(t, requests, id, lo))
    decreases |requests| - lo
  {
    var u, rows := OutboundInserted(t, requests, id, lo), OutboundOf(requests, id);
    if lo >= |requests| {
      AddsNone(t, rows, SAME_OUTBOUND, lo);
    } else {
      var t1 := OutboundQueue.Inserted(t, rows[lo]);
      OutboundPicks(t1, requests, id, lo + 1);
      AddsOne(t, rows, SAME_OUTBOUND, lo, t1, u);
    }
  }

  lemma {:induction false} CommandPicks(t: CommandTable.Table, requests: seq<CommandTable.Command>, id: string, lo: nat)
    ensures AddedFrom(t, CommandsOf(requests, id), SAME_COMMAND, lo, CommandsInserted(t, requests, id, lo))
    decreases |requests| - lo
  {
    var u, rows := CommandsInserted(t, requests, id, lo), CommandsOf(requests, id);
    if lo >= |requests| {
      AddsNone(t, rows, SAME_COMMAND, lo);
    } else {
      var t1 := CommandTable.Inserted(t, rows[lo]);
      CommandPicks(t1, requests, id, lo + 1);
      AddsOne(t, rows, SAME_COMMAND, lo, t1, u);
    }
  }

  lemma CollideIsClash(a: ChatMessage, b: ChatMessage)
    ensures Collide(a, b) <==> SAME_MESSAGE(a, b)
  {
  }

  lemma {:induction false} MessagePicks(t: Messages, requests: seq<ChatMessage>, id: string, lo: nat)
    ensures AddedFrom(t, MessagesOf(requests, id), SAME_MESSAGE, lo, MessagesInserted(t, requests, id, lo))
    decreases |requests| - lo
  {
    var u, rows := MessagesInserted(t, requests, id, lo), MessagesOf(requests, id);
    if lo >= |requests| {
      AddsNone(t, rows, SAME_MESSAGE, lo);
    } else {
      var t1 := MessageInserted(t, rows[lo]);
      MessagePicks(t1, requests, id, lo + 1);
      forall i | 0 <= i < |t| ensures Collide(t[i], rows[lo]) <==> SAME_MESSAGE(t[i], rows[lo]) {
        CollideIsClash(t[i], rows[lo]);
      }
      AddsOne(t, rows, SAME_MESSAGE, lo, t1, u);
    }
  }

  // ---- Rows that are updated --------------------------------------------------------------------------

  /** A command or event row that is done: its status set and its lock cleared, and no other row touched. */
  ghost predicate Finished(t: InboundQueue.Table, i: nat, u: InboundQueue.Table) {
    && |u| == |t| && (forall j :: 0 <= j < |t| && j != i ==> u[j] == t[j])
    && (i < |t| ==> u[i] == t[i].(processed := true, lock := Lock(None, None)))
  }

  ghost predicate Settled(t: CommandTable.Table, i: nat, u: CommandTable.Table) {
    && |u| == |t| && (forall j :: 0 <= j < |t| && j != i ==> u[j] == t[j])
    && (i < |t| ==> u[i] == t[i].(status := CommandTable.Closed("PROCESSED"), lock := Lock(None, None)))
  }

  /** The case that the graph names gets the graph's status; no case is created and no other changed. */
  ghost predicate CasesLeft(t: map<nat, string>, g: Option<GraphState>, u: map<nat, string>) {
    && u.Keys == t.Keys
    && forall c :: c in t ==>
         u[c] == if g.Some? && g.value.caseUpdate.Some? && g.value.caseUpdate.value.0 == c
                 then g.value.caseUpdate.value.1 else t[c]
  }

  // ---- The outcome of the event transaction ------------------------------------------------------------

  /** What a transaction inserts under a conversation. */
  ghost predicate Inserts(db: Db, id: string, messages: seq<ChatMessage>, outbound: seq<OutboundQueue.Message>,
                          commands: seq<CommandTable.Command>, after: Db)
  {
    && Added(db.messages, MessagesOf(messages, id), SAME_MESSAGE, after.messages)
    && Added(db.outbound, OutboundOf(outbound, id), SAME_OUTBOUND, after.outbound)
    && Added(db.commands, CommandsOf(commands, id), SAME_COMMAND, after.commands)
  }

  ghost predicate EventLeaves(db: Db, call: EventCall, now: int, after: Db, skipped: bool) {
    var chat := if call.chat == "" then "unknown" else call.chat;
    var id := IdForChat(chat, call.thread);
    var customer := if call.customer.Some? then [call.customer.value] else [];
    && (skipped <==> IsHanded(Before(db.conversations, id, chat, now)))
    && ConversationLeft(db.conversations, id, chat, call.thread, if skipped then None else call.graph, now,
                        after.conversations)
    && CasesLeft(db.cases, if skipped then None else call.graph, after.cases)
    && (skipped ==> Inserts(db, id, customer, [], [], after))
    && (!skipped ==> Inserts(db, id, customer + call.assistant, call.outbound, call.commands, after))
    && Finished(db.inbound, call.event, after.inbound) && after.results == db.results
  }

  lemma EnsuredLeft(t: Table, id: string, chat: string, thread: Option<string>, now: int)
    ensures ConversationLeft(t, id, chat, thread, None, now, Ensured(t, id, chat, thread, now))
    ensures Handed(StatusOf(t, id)) <==> IsHanded(Before(t, id, chat, now))
  {
    RowOfIs(t, id);
  }

  lemma WrittenLeft(t: Table, id: string, chat: string, thread: Option<string>, g: GraphState, now: int)
    requires !Handed(StatusOf(t, id))
    ensures ConversationLeft(t, id, chat, thread, Some(g), now,
                             WorkflowUpdated(Ensured(t, id, chat, thread, now), id, g, now).0)
  {
    var u := Ensured(t, id, chat, thread, now);
    EnsuredLands(t, id, chat, thread, now);
    RowOfIs(t, id);
    assert Find(u, id) == Some(RowOf(t, id));
  }

  lemma InsertsAll(db: Db, id: string, messages: seq<ChatMessage>, outbound: seq<OutboundQueue.Message>,
                   commands: seq<CommandTable.Command>, after: Db)
    requires after.messages == MessagesInserted(db.messages, messages, id, 0)
    requires after.outbound == OutboundInserted(db.outbound, outbound, id, 0)
    requires after.commands == CommandsInserted(db.commands, commands, id, 0)
    ensures Inserts(db, id, messages, outbound, commands, after)
  {
    MessagePicks(db.messages, messages, id, 0);
    OutboundPicks(db.outbound, outbound, id, 0);
    CommandPicks(db.commands, commands, id, 0);
  }

  lemma SuspendedInserts(db: Db, call: EventCall, now: int)
    requires Handed(StatusOf(db.conversations, EventId(call)))
    ensures var after := ProcessEvent(db, call, now).0;
            && ProcessEvent(db, call, now).1 && after.results == db.results
            && Finished(db.inbound, call.event, after.inbound)
            && Inserts(db, EventId(call), Customer(call.customer), [], [], after)
  {
    EventShape(db, call, now);
    InsertsAll(db, EventId(call), Customer(call.customer), [], [], ProcessEvent(db, call, now).0);
  }

  lemma InboundFinished(t: InboundQueue.Table, i: nat)
    ensures Finished(t, i, InboundQueue.Processed(t, i))
  {
  }

  lemma AppliedInserts(db: Db, call: EventCall, now: int)
    requires !Handed(StatusOf(db.conversations, EventId(call)))
    ensures Inserts(db, EventId(call), Customer(call.customer) + call.assistant, call.outbound, call.commands,
                    ProcessEvent(db, call, now).0)
  {
    var after, messages := ProcessEvent(db, call, now).0, Customer(call.customer) + call.assistant;
    EventLeft(db, call, now);
    InsertsAll(db, EventId(call), messages, call.outbound, call.commands, after);
  }

  lemma AppliedFinishes(db: Db, call: EventCall, now: int)
    requires !Handed(StatusOf(db.conversations, EventId(call)))
    ensures !ProcessEvent(db, call, now).1
    ensures Finished(db.inbound, call.event, ProcessEvent(db, call, now).0.inbound)
  {
    EventLeft(db, call, now);
    InboundFinished(db.inbound, call.event);
  }

  lemma ResultsKept(db: Db, call: EventCall, now: int)
    ensures ProcessEvent(db, call, now).0.results == db.results
  {
    EventShape(db, call, now);
  }

  lemma SuspendedConversation(db: Db, call: EventCall, now: int)
    requires Handed(StatusOf(db.conversations, EventId(call)))
    ensures var after, id := ProcessEvent(db, call, now).0, EventId(call);
            && ConversationLeft(db.conversations, id, ChatOf(call.chat), call.thread, None, now, after.conversations)
            && CasesLeft(db.cases, None, after.cases)
  {
    EventConversations(db, call, now);
    EnsuredLeft(db.conversations, EventId(call), ChatOf(call.chat), call.thread, now);
  }

  lemma AppliedConversation(db: Db, call: EventCall, now: int)
    requires !Handed(StatusOf(db.conversations, EventId(call)))
    ensures var after, id := ProcessEvent(db, call, now).0, EventId(call);
            ConversationLeft(db.conversations, id, ChatOf(call.chat), call.thread, call.graph, now,
                             after.conversations)
  {
    var id, chat := EventId(call), ChatOf(call.chat);
    EventConversations(db, call, now);
    if call.graph.Some? {
      WrittenLeft(db.conversations, id, chat, call.thread, call.graph.value, now);
    } else {
      EnsuredLeft(db.conversations, id, chat, call.thread, now);
    }
  }

  lemma AppliedCases(db: Db, call: EventCall, now: int)
    requires !Handed(StatusOf(db.conversations, EventId(call)))
    ensures CasesLeft(db.cases, call.graph, ProcessEvent(db, call, now).0.cases)
  {
    EventConversations(db, call, now);
  }

  ghost predicate IsSkipped(db: Db, call: EventCall, now: int) {
    var chat := if call.chat == "" then "unknown" else call.chat;
    IsHanded(Before(db.conversations, IdForChat(chat, call.thread), chat, now))
  }

  /** The event transaction, in every column of every table. */
  lemma EventOutcome(db: Db, call: EventCall, now: int)
    ensures EventLeaves(db, call, now, ProcessEvent(db, call, now).0, ProcessEvent(db, call, now).1)
  {
    if Handed(StatusOf(db.conversations, EventId(call))) {
      SuspendedInserts(db, call, now);
      SuspendedConversation(db, call, now);
    } else {
      AppliedInserts(db, call, now);
      AppliedConversation(db, call, now);
      AppliedCases(db, call, now);
      AppliedFinishes(db, call, now);
      ResultsKept(db, call, now);
    }
    EnsuredLeft(db.conversations, EventId(call), ChatOf(call.chat), call.thread, now);
  }

  // ---- The outcome of the result transaction -----------------------------------------------------------

  /** What a result writes: the graph's state, with its slots laid over those that the transaction reads and without
      the keys that it deletes; a graph without slots clears them. */
  ghost predicate Merges(base: Slots, g: GraphState, h: GraphState) {
    && h == g.(slots := h.slots) && (g.slots.None? ==> h.slots == None)
    && (g.slots.Some? ==>
          && h.slots.Some?
          && forall key ::
               && (key in h.slots.value <==> key !in g.deleteKeys && (key in g.slots.value || key in base))
               && (key in h.slots.value ==>
                     h.slots.value[key] == if key in g.slots.value then g.slots.value[key] else base[key]))
  }

  /** seen is what the transaction reads of its conversation, once the row is there and bound to the thread. */
  ghost predicate Reads(db: Db, call: ResultCall, now: int, t: Table, seen: Conversation) {
    var id := IdForChat(call.chat, call.thread);
    && ConversationLeft(db.conversations, id, call.chat, call.thread, None, now, t)
    && RowOf(db.conversations, id) < |t|
    && Shown(t, RowOf(db.conversations, id), call.chat, call.thread, seen)
  }

  ghost predicate ResultLeaves(db: Db, call: ResultCall, now: int, t: Table, seen: Conversation, h: GraphState,
                               after: Db, skipped: bool)
  {
    var id := IdForChat(call.chat, call.thread);
    var summary := if call.summary.Some? then [call.summary.value] else [];
    && (skipped <==> IsHanded(Before(db.conversations, id, call.chat, now)))
    && Reads(db, call, now, t, seen) && Merges(SlotsOf(seen), call.graph, h)
    && ConversationLeft(db.conversations, id, call.chat, call.thread, if skipped then None else Some(h), now,
                        after.conversations)
    && CasesLeft(db.cases, if skipped then None else Some(call.graph), after.cases)
    && (skipped ==> Inserts(db, id, [], [], [], after))
    && (!skipped ==> Inserts(db, id, summary, call.outbound, call.commands, after))
    && Settled(db.results, call.result, after.results) && after.inbound == db.inbound
  }

  lemma ResultReads(db: Db, call: ResultCall, now: int)
    ensures Reads(db, call, now, ResultRow(db, call, now).conversations, ResultView(db, call, now))
  {
    var id, t := ResultId(call), ResultRow(db, call, now).conversations;
    EnsuredLeft(db.conversations, id, call.chat, call.thread, now);
    EnsuredLands(db.conversations, id, call.chat, call.thread, now);
    RowOfIs(db.conversations, id);
    assert Find(t, id) == Some(RowOf(db.conversations, id));
    ViewShown(t, Find(t, id).value, call.chat, call.thread);
  }

  lemma ResultInserts(db: Db, call: ResultCall, now: int)
    ensures var after, id := ProcessResult(db, call, now).0, ResultId(call);
            && (if Handed(StatusOf(db.conversations, id)) then Inserts(db, id, [], [], [], after)
                else Inserts(db, id, Customer(call.summary), call.outbound, call.commands, after))
            && Settled(db.results, call.result, after.results) && after.inbound == db.inbound
            && ProcessResult(db, call, now).1 == Handed(StatusOf(db.conversations, id))
  {
    var after := ProcessResult(db, call, now).0;
    ResultShape(db, call, now);
    if Handed(StatusOf(db.conversations, ResultId(call))) {
      InsertsAll(db, ResultId(call), [], [], [], after);
    } else {
      InsertsAll(db, ResultId(call), Customer(call.summary), call.outbound, call.commands, after);
    }
  }

  lemma ResultConversationLeft(db: Db, call: ResultCall, now: int)
    ensures var after, id := ProcessResult(db, call, now).0, ResultId(call);
            var graph := if IsHanded(Before(db.conversations, id, call.chat, now)) then None
                         else Some(ResultGraph(ResultView(db, call, now), call.graph));
            && (Handed(StatusOf(db.conversations, id)) <==> IsHanded(Before(db.conversations, id, call.chat, now)))
            && ConversationLeft(db.conversations, id, call.chat, call.thread, graph, now, after.conversations)
  {
    var id := ResultId(call);
    ResultConversations(db, call, now);
    EnsuredLeft(db.conversations, id, call.chat, call.thread, now);
    if !Handed(StatusOf(db.conversations, id)) {
      WrittenLeft(db.conversations, id, call.chat, call.thread,
                  ResultGraph(ResultView(db, call, now), call.graph), now);
    }
  }

  lemma ResultCasesLeft(db: Db, call: ResultCall, now: int)
    ensures var handed := Handed(StatusOf(db.conversations, ResultId(call)));
            CasesLeft(db.cases, if handed then None else Some(call.graph), ProcessResult(db, call, now).0.cases)
    ensures Merges(SlotsOf(ResultView(db, call, now)), call.graph, ResultGraph(ResultView(db, call, now), call.graph))
  {
    ResultShape(db, call, now);
  }

  ghost predicate ResultLeft(db: Db, call: ResultCall, now: int, after: Db) {
    exists t, seen, h, skipped :: ResultLeaves(db, call, now, t, seen, h, after, skipped)
  }

  /** The result transaction, in every column of every table. */
  lemma ResultOutcome(db: Db, call: ResultCall, now: int)
    ensures exists t, seen, h ::
              ResultLeaves(db, call, now, t, seen, h, ProcessResult(db, call, now).0, ProcessResult(db, call, now).1)
    ensures ResultLeft(db, call, now, ProcessResult(db, call, now).0)
  {
    var t, seen := ResultRow(db, call, now).conversations, ResultView(db, call, now);
    var h := ResultGraph(seen, call.graph);
    ResultReads(db, call, now);
    ResultInserts(db, call, now);
    ResultConversationLeft(db, call, now);
    ResultCasesLeft(db, call, now);
    assert ResultLeaves(db, call, now, t, seen, h, ProcessResult(db, call, now).0, ProcessResult(db, call, now).1);
  }
}
