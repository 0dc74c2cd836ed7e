/** The two transactions that apply a graph run to the database: one for a customer
    event, one for the result of an external command.  Both may be redelivered. */
module Gateway {
  import opened Base
  import opened Conversations
  import CommandTable
  import InboundQueue
  import OutboundQueue

  /** A row of `conversation_messages` with the columns of its three unique keys. */
  datatype ChatMessage = ChatMessage(
    conversation: string, inboundEvent: Option<nat>, outbound: Option<nat>, result: Option<nat>,
    role: string, kind: string, text: string)

  type Messages = seq<ChatMessage>

  /** Two rows violate a unique key; NULL never equals NULL. */
  predicate Collide(a: ChatMessage, b: ChatMessage) {
    || (a.inboundEvent.Some? && a.inboundEvent == b.inboundEvent && a.role == b.role && a.kind == b.kind)
    || (a.outbound.Some? && a.outbound == b.outbound)
    || (a.result.Some? && a.result == b.result && a.role == b.role && a.kind == b.kind)
  }

  predicate Keyed(m: ChatMessage) {
    m.inboundEvent.Some? || m.outbound.Some? || m.result.Some?
  }

  predicate Recorded(t: Messages, m: ChatMessage) {
    exists i :: 0 <= i < |t| && Collide(t[i], m)
  }

  /** INSERT ... ON DUPLICATE KEY UPDATE id = id */
  function MessageInserted(t: Messages, m: ChatMessage): Messages {
    if Recorded(t, m) then t else t + [m]
  }

  datatype Db = Db(
    conversations: Table, messages: Messages, outbound: OutboundQueue.Table, commands: CommandTable.Table,
    results: CommandTable.Table, inbound: InboundQueue.Table, cases: map<nat, string>)

  function WithConversation(m: ChatMessage, id: string): ChatMessage {
    m.(conversation := id)
  }

  function MessagesInserted(t: Messages, requests: seq<ChatMessage>, id: string, k: nat): Messages
    decreases |requests| - k
  {
    if k >= |requests| then t
    else MessagesInserted(MessageInserted(t, WithConversation(requests[k], id)), requests, id, k + 1)
  }

  function OutboundInserted(t: OutboundQueue.Table, requests: seq<OutboundQueue.Message>, id: string, k: nat)
    : OutboundQueue.Table
    decreases |requests| - k
  {
    if k >= |requests| then t
    else OutboundInserted(OutboundQueue.Inserted(t, requests[k].(conversation := Some(id))), requests, id, k + 1)
  }

  function CommandsInserted(t: CommandTable.Table, requests: seq<CommandTable.Command>, id: string, k: nat)
    : CommandTable.Table
    decreases |requests| - k
  {
    if k >= |requests| then t
    else CommandsInserted(CommandTable.Inserted(t, requests[k].(conversation := id)), requests, id, k + 1)
  }

  function CaseUpdated(cases: map<nat, string>, g: GraphState): map<nat, string> {
    if g.caseUpdate.Some? && g.caseUpdate.value.0 in cases
    then cases[g.caseUpdate.value.0 := g.caseUpdate.value.1]
    else cases
  }

  function Customer(m: Option<ChatMessage>): seq<ChatMessage> {
    if m.Some? then [m.value] else []
  }

  const PROCESSED := CommandTable.Closed("PROCESSED")

  // ---- The event transaction ---------------------------------------------------------------------

  datatype EventCall = EventCall(
    event: nat, chat: string, thread: Option<string>, customer: Option<ChatMessage>, graph: Option<GraphState>,
    assistant: seq<ChatMessage>, outbound: seq<OutboundQueue.Message>, commands: seq<CommandTable.Command>)

  /** A suspended conversation: the customer's words are recorded and the event is done. */
  function Suspended(db: Db, call: EventCall, id: string): Db {
    db.(messages := MessagesInserted(db.messages, Customer(call.customer), id, 0),
        inbound := InboundQueue.Processed(db.inbound, call.event))
  }

  function EventId(call: EventCall): string {
    IdForChat(ChatOf(call.chat), call.thread)
  }

  function EventRow(db: Db, call: EventCall, now: int): (r: Db) {
    db.(conversations := Ensured(db.conversations, EventId(call), ChatOf(call.chat), call.thread, now))
  }

  function EventApplied(db: Db, call: EventCall, id: string): Db {
    db.(messages := MessagesInserted(db.messages, Customer(call.customer) + call.assistant, id, 0),
        outbound := OutboundInserted(db.outbound, call.outbound, id, 0),
        commands := CommandsInserted(db.commands, call.commands, id, 0),
        inbound := InboundQueue.Processed(db.inbound, call.event))
  }

  /** process_event_transactionally: the new tables, and whether automation was skipped for a human. */
  function ProcessEvent(db: Db, call: EventCall, now: int): (Db, bool) {
    var id := EventId(call);
    var d := EventRow(db, call, now);
    var i := Find(d.conversations, id).value;
    if Handed(View(d.conversations, i, ChatOf(call.chat), call.thread).status) then (Suspended(d, call, id), true)
    else if call.graph.None? then (EventApplied(d, call, id), false)
    else
      var g := call.graph.value;
      var written := WorkflowUpdated(d.conversations, id, g, now);
      var e := d.(cases := CaseUpdated(d.cases, g), conversations := written.0);
      if !written.1 then (Suspended(e, call, id), true) else (EventApplied(e, call, id), false)
  }

  // ---- The result transaction ----------------------------------------------------------------------

  datatype ResultCall = ResultCall(
    result: nat, chat: string, thread: Option<string>, graph: GraphState, summary: Option<ChatMessage>,
    outbound: seq<OutboundQueue.Message>, commands: seq<CommandTable.Command>)

  function ResultId(call: ResultCall): string {
    IdForChat(call.chat, call.thread)
  }

  function ResultRow(db: Db, call: ResultCall, now: int): Db {
    db.(conversations := Ensured(db.conversations, ResultId(call), call.chat, call.thread, now))
  }

  function Consumed(db: Db, call: ResultCall): Db {
    db.(results := CommandTable.Marked(db.results, call.result, PROCESSED))
  }

  /** The conversation's slots, overlaid with the graph's, without the keys it deletes. */
  function MergedSlots(base: Slots, g: GraphState): Slots {
    (base + (if g.slots.Some? then g.slots.value else map[])) - g.deleteKeys
  }

  function ResultGraph(view: Conversation, g: GraphState): GraphState {
    if g.slots.Some? then g.(slots := Some(MergedSlots(SlotsOf(view), g))) else g
  }

  function ResultApplied(db: Db, call: ResultCall, id: string): Db {
    Consumed(
      db.(messages := MessagesInserted(db.messages, Customer(call.summary), id, 0),
          outbound := OutboundInserted(db.outbound, call.outbound, id, 0),
          commands := CommandsInserted(db.commands, call.commands, id, 0)),
      call)
  }

  /** process_result_transactionally. */
  function ProcessResult(db: Db, call: ResultCall, now: int): (Db, bool) {
    var id := ResultId(call);
    var d := ResultRow(db, call, now);
    var view := View(d.conversations, Find(d.conversations, id).value, call.chat, call.thread);
    if Handed(view.status) then (Consumed(d, call), true)
    else
      var g := ResultGraph(view, call.graph);
      var written := WorkflowUpdated(d.conversations, id, g, now);
      var e := d.(cases := CaseUpdated(d.cases, g), conversations := written.0);
      if !written.1 then (Consumed(e, call), true) else (ResultApplied(e, call, id), false)
  }

  // ---- The transactions as the code runs them --------------------------------------------------------

  class GatewayTransactions {
    var db: Db

    constructor (db: Db)
      ensures this.db == db
    {
      this.db := db;
    }

    method InsertMessages(requests: seq<ChatMessage>, id: string)
      modifies this
      ensures db == old(db).(messages := MessagesInserted(old(db).messages, requests, id, 0))
    {
      ghost var target := MessagesInserted(db.messages, requests, id, 0);
      for k := 0 to |requests|
        invariant db == old(db).(messages := db.messages)
        invariant MessagesInserted(db.messages, requests, id, k) == target
      {
        db := db.(messages := MessageInserted(db.messages, WithConversation(requests[k], id)));
      }
    }

    method InsertOutbound(requests: seq<OutboundQueue.Message>, id: string)
      modifies this
      ensures db == old(db).(outbound := OutboundInserted(old(db).outbound, requests, id, 0))
    {
      ghost var target := OutboundInserted(db.outbound, requests, id, 0);
      for k := 0 to |requests|
        invariant db == old(db).(outbound := db.outbound)
        invariant OutboundInserted(db.outbound, requests, id, k) == target
      {
        db := db.(outbound := OutboundQueue.Inserted(db.outbound, requests[k].(conversation := Some(id))));
      }
    }

    method InsertCommands(requests: seq<CommandTable.Command>, id: string)
      modifies this
      ensures db == old(db).(commands := CommandsInserted(old(db).commands, requests, id, 0))
    {
      ghost var target := CommandsInserted(db.commands, requests, id, 0);
      for k := 0 to |requests|
        invariant db == old(db).(commands := db.commands)
        invariant CommandsInserted(db.commands, requests, id, k) == target
      {
        db := db.(commands := CommandTable.Inserted(db.commands, requests[k].(conversation := id)));
      }
    }

    /** One transaction per customer event; skipped says that a human has the conversation. */
    method ProcessEventTransactionally(call: EventCall, now: int) returns (skipped: bool)
      modifies this
      ensures (db, skipped) == ProcessEvent(old(db), call, now)
    {
      var id := EventId(call);
      db := EventRow(db, call, now);
      var i := Find(db.conversations, id).value;
      var view := View(db.conversations, i, ChatOf(call.chat), call.thread);
      if Handed(view.status) {
        InsertMessages(Customer(call.customer), id);
        db := db.(inbound := InboundQueue.Processed(db.inbound, call.event));
        return true;
      }
      if call.graph.Some? {
        var g := call.graph.value;
        var written := WorkflowUpdated(db.conversations, id, g, now);
        db := db.(cases := CaseUpdated(db.cases, g), conversations := written.0);
        if !written.1 {
          InsertMessages(Customer(call.customer), id);
          db := db.(inbound := InboundQueue.Processed(db.inbound, call.event));
          return true;
        }
      }
      InsertMessages(Customer(call.customer) + call.assistant, id);
      InsertOutbound(call.outbound, id);
      InsertCommands(call.commands, id);
      db := db.(inbound := InboundQueue.Processed(db.inbound, call.event));
      skipped := false;
    }

    /** One transaction per result of an external command. */
    method ProcessResultTransactionally(call: ResultCall, now: int) returns (skipped: bool)
      modifies this
      ensures (db, skipped) == ProcessResult(old(db), call, now)
    {
      var id := ResultId(call);
      db := ResultRow(db, call, now);
      var view := View(db.conversations, Find(db.conversations, id).value, call.chat, call.thread);
      if Handed(view.status) {
        db := db.(results := CommandTable.Marked(db.results, call.result, PROCESSED));
        return true;
      }
      var g := call.graph;
      if g.slots.Some? {
        g := g.(slots := Some(MergedSlots(SlotsOf(view), g)));
      }
      var written := WorkflowUpdated(db.conversations, id, g, now);
      db := db.(cases := CaseUpdated(db.cases, g), conversations := written.0);
      if !written.1 {
        db := db.(results := CommandTable.Marked(db.results, call.result, PROCESSED));
        return true;
      }
      InsertMessages(Customer(call.summary), id);
      InsertOutbound(call.outbound, id);
      InsertCommands(call.commands, id);
      db := db.(results := CommandTable.Marked(db.results, call.result, PROCESSED));
      skipped := false;
    }
  }
}
