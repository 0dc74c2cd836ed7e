/** Redelivering an event or a result: when a second run of its transaction changes
    nothing, exactly, and what a rerun may do after other statements ran in between. */
module Redelivery {
  import opened Base
  import opened Conversations
  import opened Gateway
  import CommandTable
  import InboundQueue
  import OutboundQueue

  // ---- Idempotent inserts --------------------------------------------------------------------------

  lemma RecordedGrows(t: Messages, u: Messages, m: ChatMessage)
    requires t <= u && Recorded(t, m)
    ensures Recorded(u, m)
  {
    var i :| 0 <= i < |t| && Collide(t[i], m);
    assert u[i] == t[i];
  }

  lemma OwnInsertRecords(t: Messages, m: ChatMessage)
    ensures t <= MessageInserted(t, m)
    ensures Keyed(m) <==> Recorded(MessageInserted(t, m), m)
  {
    if !Recorded(t, m) { assert MessageInserted(t, m)[|t|] == m; }
  }

  /** Inserting only appends, and leaves every keyed request recorded. */
  lemma {:induction false} MessagesLand(t: Messages, requests: seq<ChatMessage>, id: string, k: nat, j: nat)
    requires k <= j < |requests| && Keyed(requests[j])
    ensures Recorded(MessagesInserted(t, requests, id, k), WithConversation(requests[j], id))
    decreases |requests| - k
  {
    var m := WithConversation(requests[k], id);
    OwnInsertRecords(t, m);
    MessagesAppend(MessageInserted(t, m), requests, id, k + 1);
    if j == k {
      RecordedGrows(MessageInserted(t, m), MessagesInserted(t, requests, id, k), m);
    } else {
      MessagesLand(MessageInserted(t, m), requests, id, k + 1, j);
    }
  }

  lemma {:induction false} MessagesAppend(t: Messages, requests: seq<ChatMessage>, id: string, k: nat)
    ensures t <= MessagesInserted(t, requests, id, k)
    decreases |requests| - k
  {
    if k < |requests| {
      MessagesAppend(MessageInserted(t, WithConversation(requests[k], id)), requests, id, k + 1);
    }
  }

  /** A second insert of the same requests changes nothing exactly when they are all recorded. */
  lemma {:induction false} MessagesSettledIff(t: Messages, requests: seq<ChatMessage>, id: string, k: nat)
    ensures MessagesInserted(t, requests, id, k) == t <==>
            forall j :: k <= j < |requests| ==> Recorded(t, WithConversation(requests[j], id))
    decreases |requests| - k
  {
    if k < |requests| {
      var m := WithConversation(requests[k], id);
      if Recorded(t, m) {
        MessagesSettledIff(t, requests, id, k + 1);
      } else {
        MessagesAppend(t + [m], requests, id, k + 1);
        assert |MessagesInserted(t, requests, id, k)| > |t|;
      }
    }
  }

  lemma UnkeyedNeverRecorded(t: Messages, m: ChatMessage)
    requires !Keyed(m)
    ensures !Recorded(t, m)
  {
  }

  ghost predicate AllKeyed(requests: seq<ChatMessage>) {
    forall j :: 0 <= j < |requests| ==> Keyed(requests[j])
  }

  /** Replaying some of the messages on a table that grew changes nothing exactly when each has a key. */
  lemma MessagesReplayIff(t: Messages, requests: seq<ChatMessage>, replay: seq<ChatMessage>, id: string,
                          later: Messages)
    requires replay <= requests && MessagesInserted(t, requests, id, 0) <= later
    ensures MessagesInserted(later, replay, id, 0) == later <==> AllKeyed(replay)
  {
    MessagesSettledIff(later, replay, id, 0);
    forall j | 0 <= j < |replay|
      ensures Keyed(replay[j]) <==> Recorded(later, WithConversation(replay[j], id))
    {
      var m := WithConversation(replay[j], id);
      if Keyed(replay[j]) {
        MessagesLand(t, requests, id, 0, j);
        RecordedGrows(MessagesInserted(t, requests, id, 0), later, m);
      } else {
        UnkeyedNeverRecorded(later, m);
      }
    }
  }

  ghost predicate OutboundGrew(t: OutboundQueue.Table, u: OutboundQueue.Table) {
    |t| <= |u| && forall i :: 0 <= i < |t| ==> t[i].dedupKey == u[i].dedupKey
  }

  ghost predicate OutboundHas(t: OutboundQueue.Table, key: string) {
    exists i :: 0 <= i < |t| && t[i].dedupKey == key
  }

  lemma OutboundHasGrows(t: OutboundQueue.Table, u: OutboundQueue.Table, key: string)
    requires OutboundGrew(t, u) && OutboundHas(t, key)
    ensures OutboundHas(u, key)
  {
    var i :| 0 <= i < |t| && t[i].dedupKey == key;
    assert u[i].dedupKey == key;
  }

  lemma OutboundGrewOn(t: OutboundQueue.Table, u: OutboundQueue.Table, v: OutboundQueue.Table)
    requires OutboundGrew(t, u) && OutboundGrew(u, v)
    ensures OutboundGrew(t, v)
  {
  }

  lemma OwnOutboundLands(t: OutboundQueue.Table, m: OutboundQueue.Message)
    ensures OutboundGrew(t, OutboundQueue.Inserted(t, m)) && OutboundHas(OutboundQueue.Inserted(t, m), m.dedupKey)
  {
    var u := OutboundQueue.Inserted(t, m);
    if u != t { assert u[|t|].dedupKey == m.dedupKey; }
  }

  lemma {:induction false} OutboundLands(t: OutboundQueue.Table, requests: seq<OutboundQueue.Message>, id: string,
                                         k: nat)
    ensures var u := OutboundInserted(t, requests, id, k);
            OutboundGrew(t, u) && forall j :: k <= j < |requests| ==> OutboundHas(u, requests[j].dedupKey)
    decreases |requests| - k
  {
    if k < |requests| {
      var m := requests[k].(conversation := Some(id));
      var t1 := OutboundQueue.Inserted(t, m);
      OwnOutboundLands(t, m);
      OutboundLands(t1, requests, id, k + 1);
      OutboundGrewOn(t, t1, OutboundInserted(t1, requests, id, k + 1));
      OutboundHasGrows(t1, OutboundInserted(t1, requests, id, k + 1), m.dedupKey);
    }
  }

  lemma {:induction false} OutboundSettled(t: OutboundQueue.Table, requests: seq<OutboundQueue.Message>, id: string,
                                           k: nat)
    requires forall j :: k <= j < |requests| ==> OutboundHas(t, requests[j].dedupKey)
    ensures OutboundInserted(t, requests, id, k) == t
    decreases |requests| - k
  {
    if k < |requests| {
      assert OutboundHas(t, requests[k].dedupKey);
      OutboundSettled(t, requests, id, k + 1);
    }
  }

  lemma OutboundReplay(t: OutboundQueue.Table, requests: seq<OutboundQueue.Message>, id: string,
                       later: OutboundQueue.Table)
    requires OutboundGrew(OutboundInserted(t, requests, id, 0), later)
    ensures OutboundInserted(later, requests, id, 0) == later
  {
    OutboundLands(t, requests, id, 0);
    forall j | 0 <= j < |requests| ensures OutboundHas(later, requests[j].dedupKey) {
      OutboundHasGrows(OutboundInserted(t, requests, id, 0), later, requests[j].dedupKey);
    }
    OutboundSettled(later, requests, id, 0);
  }

  ghost predicate CommandsGrew(t: CommandTable.Table, u: CommandTable.Table) {
    |t| <= |u| && forall i :: 0 <= i < |t| ==> t[i].dedupKey == u[i].dedupKey
  }

  ghost predicate CommandsHave(t: CommandTable.Table, key: string) {
    exists i :: 0 <= i < |t| && t[i].dedupKey == key
  }

  lemma CommandsHaveGrows(t: CommandTable.Table, u: CommandTable.Table, key: string)
    requires CommandsGrew(t, u) && CommandsHave(t, key)
    ensures CommandsHave(u, key)
  {
    var i :| 0 <= i < |t| && t[i].dedupKey == key;
    assert u[i].dedupKey == key;
  }

  lemma CommandsGrewOn(t: CommandTable.Table, u: CommandTable.Table, v: CommandTable.Table)
    requires CommandsGrew(t, u) && CommandsGrew(u, v)
    ensures CommandsGrew(t, v)
  {
  }

  lemma OwnCommandLands(t: CommandTable.Table, c: CommandTable.Command)
    ensures CommandsGrew(t, CommandTable.Inserted(t, c)) && CommandsHave(CommandTable.Inserted(t, c), c.dedupKey)
  {
    var u := CommandTable.Inserted(t, c);
    if u != t { assert u[|t|].dedupKey == c.dedupKey; }
  }

  lemma {:induction false} CommandsLand(t: CommandTable.Table, requests: seq<CommandTable.Command>, id: string, k: nat)
    ensures var u := CommandsInserted(t, requests, id, k);
            CommandsGrew(t, u) && forall j :: k <= j < |requests| ==> CommandsHave(u, requests[j].dedupKey)
    decreases |requests| - k
  {
    if k < |requests| {
      var c := requests[k].(conversation := id);
      var t1 := CommandTable.Inserted(t, c);
      OwnCommandLands(t, c);
      CommandsLand(t1, requests, id, k + 1);
      CommandsGrewOn(t, t1, CommandsInserted(t1, requests, id, k + 1));
      CommandsHaveGrows(t1, CommandsInserted(t1, requests, id, k + 1), c.dedupKey);
    }
  }

  lemma {:induction false} CommandsSettled(t: CommandTable.Table, requests: seq<CommandTable.Command>, id: string,
                                           k: nat)
    requires forall j :: k <= j < |requests| ==> CommandsHave(t, requests[j].dedupKey)
    ensures CommandsInserted(t, requests, id, k) == t
    decreases |requests| - k
  {
    if k < |requests| {
      assert CommandsHave(t, requests[k].dedupKey);
      CommandsSettled(t, requests, id, k + 1);
    }
  }

  lemma CommandsReplay(t: CommandTable.Table, requests: seq<CommandTable.Command>, id: string,
                       later: CommandTable.Table)
    requires CommandsGrew(CommandsInserted(t, requests, id, 0), later)
    ensures CommandsInserted(later, requests, id, 0) == later
  {
    CommandsLand(t, requests, id, 0);
    forall j | 0 <= j < |requests| ensures CommandsHave(later, requests[j].dedupKey) {
      CommandsHaveGrows(CommandsInserted(t, requests, id, 0), later, requests[j].dedupKey);
    }
    CommandsSettled(later, requests, id, 0);
  }

  // ---- Conversations after a run -------------------------------------------------------------------

  function StatusOf(t: Table, id: string): string {
    var found := Find(t, id);
    if found.Some? then t[found.value].status else AI_ACTIVE
  }

  /** Row i is the conversation's, already bound to this thread. */
  predicate Landed(t: Table, id: string, thread: Option<string>) {
    var found := Find(t, id);
    found.Some? && t[found.value].thread == thread
  }

  lemma EnsuredLands(t: Table, id: string, chat: string, thread: Option<string>, now: int)
    ensures Landed(Ensured(t, id, chat, thread, now), id, thread)
    ensures StatusOf(Ensured(t, id, chat, thread, now), id) == StatusOf(t, id)
  {
    var u := Ensured(t, id, chat, thread, now);
    if Find(t, id).None? {
      assert u[|t|].id == id;
      assert Find(u, id) == Some(|t|);
    }
  }

  lemma LandedStable(t: Table, id: string, chat: string, thread: Option<string>, now: int)
    requires Landed(t, id, thread)
    ensures Ensured(t, id, chat, thread, now) == t
  {
    var i := Find(t, id).value;
    assert t[i].(thread := thread) == t[i];
    assert t[i := t[i]] == t;
  }

  lemma WorkflowLands(t: Table, id: string, thread: Option<string>, g: GraphState, now: int)
    requires Landed(t, id, thread)
    ensures var u := WorkflowUpdated(t, id, g, now).0;
            Landed(u, id, thread) && Find(u, id) == Find(t, id) && |u| == |t|
            && (forall j :: 0 <= j < |t| && j != Find(t, id).value ==> u[j] == t[j])
  {
    FindUnmoved(t, WorkflowUpdated(t, id, g, now).0, id);
  }

  /** Writing the same state again changes nothing, not even the update time. */
  lemma WorkflowTwice(t: Table, id: string, g: GraphState, now: int, later: int)
    requires Find(t, id).Some? && Admits(t[Find(t, id).value], g.status)
    ensures var u := WorkflowUpdated(t, id, g, now).0;
            WorkflowUpdated(u, id, g, later) == (u, true)
  {
    var u := WorkflowUpdated(t, id, g, now).0;
    FindUnmoved(t, u, id);
    var i := Find(t, id).value;
    assert u[i := u[i]] == u;
  }

  lemma ProcessedTwice(t: InboundQueue.Table, i: nat)
    ensures InboundQueue.Processed(InboundQueue.Processed(t, i), i) == InboundQueue.Processed(t, i)
  {
  }

  // ---- Events -----------------------------------------------------------------------------------------

  function EventWritten(d: Db, call: EventCall, now: int): Db {
    if call.graph.None? then d
    else
      var g := call.graph.value;
      d.(cases := CaseUpdated(d.cases, g), conversations := WorkflowUpdated(d.conversations, EventId(call), g, now).0)
  }

  /** What the status check of a transaction sees after INSERT ... ON DUPLICATE KEY UPDATE. */
  lemma CheckSees(t: Table, id: string, chat: string, thread: Option<string>, now: int)
    ensures var u := Ensured(t, id, chat, thread, now);
            && Landed(u, id, thread)
            && (Handed(View(u, Find(u, id).value, chat, thread).status) <==> Handed(StatusOf(t, id)))
  {
    EnsuredLands(t, id, chat, thread, now);
    var u := Ensured(t, id, chat, thread, now);
    ViewKeepsHandoff(u, Find(u, id).value, chat, thread);
  }

  lemma AutomatedAdmits(t: Table, id: string, chat: string, thread: Option<string>, g: GraphState, now: int)
    requires !Handed(StatusOf(t, id))
    ensures WorkflowUpdated(Ensured(t, id, chat, thread, now), id, g, now).1
  {
    EnsuredLands(t, id, chat, thread, now);
  }

  /** The refusal of update_workflow_state never happens here: the status check before it already decided. */
  lemma EventShape(db: Db, call: EventCall, now: int)
    ensures var d := EventRow(db, call, now);
            ProcessEvent(db, call, now) ==
              if Handed(StatusOf(db.conversations, EventId(call))) then (Suspended(d, call, EventId(call)), true)
              else (EventApplied(EventWritten(d, call, now), call, EventId(call)), false)
    ensures Landed(EventRow(db, call, now).conversations, EventId(call), call.thread)
  {
    CheckSees(db.conversations, EventId(call), ChatOf(call.chat), call.thread, now);
    if !Handed(StatusOf(db.conversations, EventId(call))) && call.graph.Some? {
      AutomatedAdmits(db.conversations, EventId(call), ChatOf(call.chat), call.thread, call.graph.value, now);
    }
  }

  predicate GraphHandsOver(graph: Option<GraphState>) {
    graph.Some? && graph.value.status.Some? && Handed(graph.value.status.value)
  }

  /** Once the transaction has run, the conversation belongs to a human. */
  predicate EventHandsOver(db: Db, call: EventCall) {
    Handed(StatusOf(db.conversations, EventId(call))) || GraphHandsOver(call.graph)
  }

  /** The messages that a second run inserts again. */
  function Replayed(db: Db, call: EventCall): seq<ChatMessage> {
    if EventHandsOver(db, call) then Customer(call.customer) else Customer(call.customer) + call.assistant
  }

  lemma StatusAfterWrite(t: Table, id: string, g: GraphState, now: int)
    requires Find(t, id).Some? && Admits(t[Find(t, id).value], g.status)
    ensures StatusOf(WorkflowUpdated(t, id, g, now).0, id) == if g.status.Some? then g.status.value else StatusOf(t, id)
  {
    FindUnmoved(t, WorkflowUpdated(t, id, g, now).0, id);
  }

  lemma EventAfter(db: Db, call: EventCall, now: int)
    ensures var once := ProcessEvent(db, call, now).0;
            && Landed(once.conversations, EventId(call), call.thread)
            && (Handed(StatusOf(once.conversations, EventId(call))) <==> EventHandsOver(db, call))
  {
    var id := EventId(call);
    EventShape(db, call, now);
    EnsuredLands(db.conversations, id, ChatOf(call.chat), call.thread, now);
    if !Handed(StatusOf(db.conversations, id)) && call.graph.Some? {
      WorkflowLands(EventRow(db, call, now).conversations, id, call.thread, call.graph.value, now);
      StatusAfterWrite(EventRow(db, call, now).conversations, id, call.graph.value, now);
    }
  }

  lemma EventConversations(db: Db, call: EventCall, now: int)
    ensures var once := ProcessEvent(db, call, now).0;
            var d := EventRow(db, call, now);
            && StatusOf(d.conversations, EventId(call)) == StatusOf(db.conversations, EventId(call))
            && once.conversations ==
                 (if Handed(StatusOf(db.conversations, EventId(call))) then d
                  else EventWritten(d, call, now)).conversations
            && once.cases ==
                 (if Handed(StatusOf(db.conversations, EventId(call))) then d
                  else EventWritten(d, call, now)).cases
  {
    EventShape(db, call, now);
    EnsuredLands(db.conversations, EventId(call), ChatOf(call.chat), call.thread, now);
  }

  lemma EventWrittenTwice(db: Db, call: EventCall, now: int, later: int)
    requires !EventHandsOver(db, call)
    ensures var once := ProcessEvent(db, call, now).0;
            EventWritten(once, call, later) == once
  {
    EventConversations(db, call, now);
    if call.graph.Some? {
      WorkflowTwice(EventRow(db, call, now).conversations, EventId(call), call.graph.value, now, later);
    }
  }

  lemma EventRowStable(db: Db, call: EventCall, now: int)
    requires Landed(db.conversations, EventId(call), call.thread)
    ensures EventRow(db, call, now) == db
  {
    LandedStable(db.conversations, EventId(call), ChatOf(call.chat), call.thread, now);
  }

  lemma SuspendedReplayIff(db: Db, call: EventCall, requests: seq<ChatMessage>, t: Messages)
    requires Customer(call.customer) <= requests && MessagesInserted(t, requests, EventId(call), 0) <= db.messages
    requires InboundQueue.Processed(db.inbound, call.event) == db.inbound
    ensures Suspended(db, call, EventId(call)) == db <==> AllKeyed(Customer(call.customer))
  {
    MessagesReplayIff(t, requests, Customer(call.customer), EventId(call), db.messages);
  }

  /** A second delivery of an event leaves every table as it is exactly when each message it replays carries one of
      the unique keys; assistant messages replay only while the conversation is automated. */
  lemma EventTwiceIff(db: Db, call: EventCall, now: int, later: int)
    ensures var once := ProcessEvent(db, call, now).0;
            ProcessEvent(once, call, later).0 == once <==> AllKeyed(Replayed(db, call))
  {
    var id := EventId(call);
    var once := ProcessEvent(db, call, now).0;
    EventShape(db, call, now);
    EventAfter(db, call, now);
    EventShape(once, call, later);
    EventRowStable(once, call, later);
    ProcessedTwice(db.inbound, call.event);
    var requests := Customer(call.customer) + call.assistant;
    if Handed(StatusOf(db.conversations, id)) {
      SuspendedReplayIff(once, call, Customer(call.customer), db.messages);
    } else if EventHandsOver(db, call) {
      SuspendedReplayIff(once, call, requests, db.messages);
    } else {
      EventWrittenTwice(db, call, now, later);
      MessagesReplayIff(db.messages, requests, requests, id, once.messages);
      OutboundReplay(db.outbound, call.outbound, id, once.outbound);
      CommandsReplay(db.commands, call.commands, id, once.commands);
    }
  }

  // ---- What an applied transaction leaves behind --------------------------------------------------------

  /** The columns of the conversation after a graph state was written; None keeps status and handoff_state. */
  predicate Holds(before: Conversation, after: Conversation, g: GraphState) {
    && after.id == before.id && after.chat == before.chat && after.thread == before.thread
    && after.workflow == g.workflow && after.stage == g.stage
    && (g.status.Some? ==> Some(after.status) == g.status) && (g.status.None? ==> after.status == before.status)
    && (g.slots.Some? ==> after.slots == g.slots) && (g.slots.None? ==> after.slots == Some(map[]))
    && (g.handoff.Some? ==> after.handoff == g.handoff) && (g.handoff.None? ==> after.handoff == before.handoff)
  }

  lemma WriteHolds(t: Table, id: string, g: GraphState, now: int)
    requires Find(t, id).Some? && Admits(t[Find(t, id).value], g.status)
    ensures var i := Find(t, id).value;
            var u := WorkflowUpdated(t, id, g, now).0;
            |u| == |t| && Holds(t[i], u[i], g) && forall j :: 0 <= j < |t| && j != i ==> u[j] == t[j]
  {
  }

  lemma EventLeft(db: Db, call: EventCall, now: int)
    requires !Handed(StatusOf(db.conversations, EventId(call)))
    ensures var after := ProcessEvent(db, call, now).0;
            && !ProcessEvent(db, call, now).1
            && after.messages ==
                 MessagesInserted(db.messages, Customer(call.customer) + call.assistant, EventId(call), 0)
            && after.outbound == OutboundInserted(db.outbound, call.outbound, EventId(call), 0)
            && after.commands == CommandsInserted(db.commands, call.commands, EventId(call), 0)
            && after.inbound == InboundQueue.Processed(db.inbound, call.event)
  {
    EventShape(db, call, now);
  }

  /** An automated event leaves all its rows and a processed event behind. */
  lemma EventEffects(db: Db, call: EventCall, now: int)
    requires !Handed(StatusOf(db.conversations, EventId(call)))
    ensures var after := ProcessEvent(db, call, now).0;
            var requests := Customer(call.customer) + call.assistant;
            && !ProcessEvent(db, call, now).1
            && (call.event < |db.inbound| ==> |after.inbound| == |db.inbound| && after.inbound[call.event].processed)
            && (forall j :: 0 <= j < |requests| && Keyed(requests[j]) ==>
                  Recorded(after.messages, WithConversation(requests[j], EventId(call))))
            && (forall j :: 0 <= j < |call.outbound| ==> OutboundHas(after.outbound, call.outbound[j].dedupKey))
            && (forall j :: 0 <= j < |call.commands| ==> CommandsHave(after.commands, call.commands[j].dedupKey))
  {
    EventLeft(db, call, now);
    AllLand(db, Customer(call.customer) + call.assistant, call.outbound, call.commands, EventId(call));
  }

  /** Every keyed message, every outbound message and every command of a transaction is stored afterwards. */
  lemma AllLand(db: Db, messages: seq<ChatMessage>, outbound: seq<OutboundQueue.Message>,
                commands: seq<CommandTable.Command>, id: string)
    ensures forall j :: 0 <= j < |messages| && Keyed(messages[j]) ==>
              Recorded(MessagesInserted(db.messages, messages, id, 0), WithConversation(messages[j], id))
    ensures forall j :: 0 <= j < |outbound| ==>
              OutboundHas(OutboundInserted(db.outbound, outbound, id, 0), outbound[j].dedupKey)
    ensures forall j :: 0 <= j < |commands| ==>
              CommandsHave(CommandsInserted(db.commands, commands, id, 0), commands[j].dedupKey)
  {
    forall j | 0 <= j < |messages| && Keyed(messages[j])
      ensures Recorded(MessagesInserted(db.messages, messages, id, 0), WithConversation(messages[j], id))
    {
      MessagesLand(db.messages, messages, id, 0, j);
    }
    OutboundLands(db.outbound, outbound, id, 0);
    CommandsLand(db.commands, commands, id, 0);
  }

  /** And the conversation has the graph's state. */
  lemma EventState(db: Db, call: EventCall, now: int)
    requires !Handed(StatusOf(db.conversations, EventId(call))) && call.graph.Some?
    ensures var t := EventRow(db, call, now).conversations;
            var i := Find(t, EventId(call)).value;
            var after := ProcessEvent(db, call, now).0;
            |after.conversations| == |t| && Holds(t[i], after.conversations[i], call.graph.value)
  {
    EventConversations(db, call, now);
    WriteHolds(EventRow(db, call, now).conversations, EventId(call), call.graph.value, now);
  }

  // ---- Results ----------------------------------------------------------------------------------------

  function ResultView(db: Db, call: ResultCall, now: int): Conversation {
    var d := ResultRow(db, call, now);
    View(d.conversations, Find(d.conversations, ResultId(call)).value, call.chat, call.thread)
  }

  function ResultWritten(d: Db, call: ResultCall, g: GraphState, now: int): Db {
    d.(cases := CaseUpdated(d.cases, g), conversations := WorkflowUpdated(d.conversations, ResultId(call), g, now).0)
  }

  lemma ResultShape(db: Db, call: ResultCall, now: int)
    ensures var d := ResultRow(db, call, now);
            var g := ResultGraph(ResultView(db, call, now), call.graph);
            ProcessResult(db, call, now) ==
              if Handed(StatusOf(db.conversations, ResultId(call))) then (Consumed(d, call), true)
              else (ResultApplied(ResultWritten(d, call, g, now), call, ResultId(call)), false)
    ensures Landed(ResultRow(db, call, now).conversations, ResultId(call), call.thread)
  {
    CheckSees(db.conversations, ResultId(call), call.chat, call.thread, now);
    if !Handed(StatusOf(db.conversations, ResultId(call))) {
      var g := ResultGraph(ResultView(db, call, now), call.graph);
      AutomatedAdmits(db.conversations, ResultId(call), call.chat, call.thread, g, now);
    }
  }

  predicate ResultHandsOver(db: Db, call: ResultCall) {
    Handed(StatusOf(db.conversations, ResultId(call))) || GraphHandsOver(Some(call.graph))
  }

  /** The graph asks for an automated conversation without workflow and stage, its slots and deletions leave nothing of
      the slots the transaction reads, and the chat has another thread to go on with, of whose slots they leave some. */
  predicate ResurrectsIn(t: Table, id: string, chat: string, thread: Option<string>, graph: GraphState)
    requires Find(t, id).Some?
  {
    var i := Find(t, id).value;
    var previous := if HasThread(thread) then Previous(t, chat, id) else None;
    && graph.slots.Some? && previous.Some? && Continuable(t[previous.value])
    && (if graph.status.Some? then graph.status.value else t[i].status) == AI_ACTIVE
    && Blank(graph.workflow) && Blank(graph.stage)
    && MergedSlots(SlotsOf(View(t, i, chat, thread)), graph) == map[]
    && MergedSlots(InheritedSlots(t[previous.value]), graph) != map[]
  }

  predicate Resurrects(db: Db, call: ResultCall, now: int) {
    ResurrectsIn(ResultRow(db, call, now).conversations, ResultId(call), call.chat, call.thread, call.graph)
  }

  /** Merging twice is merging once, deleted keys included. */
  lemma MergedTwice(base: Slots, g: GraphState)
    ensures MergedSlots(MergedSlots(base, g), g) == MergedSlots(base, g)
  {
  }

  /** The update of one row leaves the chat's latest other thread the same. */
  lemma {:induction false} PreviousFrame(t: Table, u: Table, chat: string, id: string)
    requires |t| == |u| && forall j :: 0 <= j < |t| ==> t[j].id == u[j].id && (t[j].id != id ==> t[j] == u[j])
    requires forall j :: 0 <= j < |t| ==> t[j].chat == u[j].chat
    ensures Previous(t, chat, id) == Previous(u, chat, id)
  {
    if t != [] {
      PreviousFrame(t[..|t| - 1], u[..|u| - 1], chat, id);
    }
  }

  /** The table after the write, and the slots that the second run would write over it. */
  lemma SlotsReplay(t: Table, id: string, chat: string, thread: Option<string>, g: GraphState, now: int)
    requires Landed(t, id, thread) && g.slots.Some?
    requires !Handed(t[Find(t, id).value].status)
    ensures var i := Find(t, id).value;
            var h := ResultGraph(View(t, i, chat, thread), g);
            var u := WorkflowUpdated(t, id, h, now).0;
            var previous := if HasThread(thread) then Previous(t, chat, id) else None;
            var again := ResultGraph(View(u, i, chat, thread), g);
            again == if previous.Some? && Continuable(t[previous.value]) && Fresh(Written(t[i], h))
                     then g.(slots := Some(MergedSlots(InheritedSlots(t[previous.value]), g)))
                     else h
  {
    var i := Find(t, id).value;
    var h := ResultGraph(View(t, i, chat, thread), g);
    var u := WorkflowUpdated(t, id, h, now).0;
    WorkflowLands(t, id, thread, h, now);
    UpdatedRow(t, id, h, now);
    forall j | 0 <= j < |t| ensures t[j].id == u[j].id && t[j].chat == u[j].chat {}
    PreviousFrame(t, u, chat, id);
    MergedTwice(SlotsOf(View(t, i, chat, thread)), g);
  }

  lemma UpdatedRow(t: Table, id: string, g: GraphState, now: int)
    requires Find(t, id).Some? && Admits(t[Find(t, id).value], g.status)
    ensures var i := Find(t, id).value;
            var u := WorkflowUpdated(t, id, g, now).0;
            |u| == |t| && u[i].(touched := 0) == Written(t[i], g).(touched := 0)
  {
  }

  /** Writing other slots over the same state changes the table exactly when the slots differ. */
  lemma RewriteIff(t: Table, id: string, g: GraphState, again: GraphState, now: int, later: int)
    requires Find(t, id).Some? && !Handed(t[Find(t, id).value].status) && !GraphHandsOver(Some(g))
    requires g.slots.Some? && again.slots.Some? && again == g.(slots := again.slots)
    ensures var u := WorkflowUpdated(t, id, g, now).0;
            WorkflowUpdated(u, id, again, later).0 == u <==> again == g
  {
    var i := Find(t, id).value;
    var u := WorkflowUpdated(t, id, g, now).0;
    FindUnmoved(t, u, id);
    UpdatedRow(t, id, g, now);
    UpdatedRow(u, id, again, later);
    if again == g {
      WorkflowTwice(t, id, g, now, later);
    } else {
      var v := WorkflowUpdated(u, id, again, later).0;
      assert v[i].(touched := 0).slots == again.slots != g.slots == u[i].(touched := 0).slots;
    }
  }

  lemma ResultConversations(db: Db, call: ResultCall, now: int)
    ensures var once := ProcessResult(db, call, now).0;
            var t := ResultRow(db, call, now).conversations;
            var h := ResultGraph(ResultView(db, call, now), call.graph);
            && Landed(t, ResultId(call), call.thread)
            && StatusOf(t, ResultId(call)) == StatusOf(db.conversations, ResultId(call))
            && once.conversations ==
                 if Handed(StatusOf(db.conversations, ResultId(call))) then t
                 else WorkflowUpdated(t, ResultId(call), h, now).0
  {
    ResultShape(db, call, now);
    EnsuredLands(db.conversations, ResultId(call), call.chat, call.thread, now);
  }

  lemma ResultAfter(db: Db, call: ResultCall, now: int)
    ensures var once := ProcessResult(db, call, now).0;
            && Landed(once.conversations, ResultId(call), call.thread)
            && (Handed(StatusOf(once.conversations, ResultId(call))) <==> ResultHandsOver(db, call))
  {
    ResultConversations(db, call, now);
    if !Handed(StatusOf(db.conversations, ResultId(call))) {
      var t := ResultRow(db, call, now).conversations;
      var h := ResultGraph(ResultView(db, call, now), call.graph);
      WorkflowLands(t, ResultId(call), call.thread, h, now);
      StatusAfterWrite(t, ResultId(call), h, now);
    }
  }

  lemma WriteTwiceIff(t: Table, id: string, chat: string, thread: Option<string>, graph: GraphState, now: int,
                      later: int)
    requires Landed(t, id, thread) && !Handed(StatusOf(t, id)) && !GraphHandsOver(Some(graph))
    ensures var i := Find(t, id).value;
            var h := ResultGraph(View(t, i, chat, thread), graph);
            var u := WorkflowUpdated(t, id, h, now).0;
            && |u| == |t|
            && (WorkflowUpdated(u, id, ResultGraph(View(u, i, chat, thread), graph), later).0 == u <==>
                !ResurrectsIn(t, id, chat, thread, graph))
  {
    var i := Find(t, id).value;
    var h := ResultGraph(View(t, i, chat, thread), graph);
    if graph.slots.Some? {
      SlotsReplay(t, id, chat, thread, graph, now);
      RewriteIff(t, id, h, ResultGraph(View(WorkflowUpdated(t, id, h, now).0, i, chat, thread), graph), now, later);
      if Fresh(Written(t[i], h)) { FreshWritesNothing(t[i], h); }
    } else {
      WorkflowTwice(t, id, h, now, later);
    }
  }

  lemma FreshWritesNothing(row: Conversation, g: GraphState)
    requires g.slots.Some? && Fresh(Written(row, g))
    ensures g.slots.value == map[]
  {
  }

  /** The conversation rows survive a second result run unless it resurrects another thread's slots. */
  lemma ResultWrittenTwiceIff(db: Db, call: ResultCall, now: int, later: int)
    requires !ResultHandsOver(db, call)
    ensures var once := ProcessResult(db, call, now).0;
            var again := ResultGraph(ResultView(once, call, later), call.graph);
            && ResultRow(once, call, later) == once
            && (WorkflowUpdated(once.conversations, ResultId(call), again, later).0 == once.conversations <==>
                !Resurrects(db, call, now))
  {
    var id := ResultId(call);
    var t := ResultRow(db, call, now).conversations;
    var once := ProcessResult(db, call, now).0;
    ResultConversations(db, call, now);
    ResultAfter(db, call, now);
    LandedStable(once.conversations, id, call.chat, call.thread, later);
    WorkflowLands(t, id, call.thread, ResultGraph(ResultView(db, call, now), call.graph), now);
    WriteTwiceIff(t, id, call.chat, call.thread, call.graph, now, later);
  }

  lemma ConsumedTwice(t: CommandTable.Table, i: nat)
    ensures CommandTable.Marked(CommandTable.Marked(t, i, PROCESSED), i, PROCESSED) ==
              CommandTable.Marked(t, i, PROCESSED)
  {
  }

  lemma ResultConsumed(db: Db, call: ResultCall, now: int)
    ensures var once := ProcessResult(db, call, now).0; Consumed(once, call) == once
  {
    ResultShape(db, call, now);
    ConsumedTwice(db.results, call.result);
  }

  lemma HandedResultTwice(db: Db, call: ResultCall, now: int, later: int)
    requires ResultHandsOver(db, call)
    ensures var once := ProcessResult(db, call, now).0; ProcessResult(once, call, later).0 == once
  {
    var once := ProcessResult(db, call, now).0;
    ResultConsumed(db, call, now);
    ResultAfter(db, call, now);
    ResultShape(once, call, later);
    LandedStable(once.conversations, ResultId(call), call.chat, call.thread, later);
  }

  lemma ReplayedTables(once: Db, e: Db, call: ResultCall, id: string)
    requires e == once.(conversations := e.conversations) && Consumed(once, call) == once
    requires OutboundInserted(once.outbound, call.outbound, id, 0) == once.outbound
    requires CommandsInserted(once.commands, call.commands, id, 0) == once.commands
    ensures ResultApplied(e, call, id) == once <==>
            e.conversations == once.conversations
            && MessagesInserted(once.messages, Customer(call.summary), id, 0) == once.messages
  {
  }

  lemma ResultLeft(db: Db, call: ResultCall, now: int)
    requires !ResultHandsOver(db, call)
    ensures var once := ProcessResult(db, call, now).0;
            && once.messages == MessagesInserted(db.messages, Customer(call.summary), ResultId(call), 0)
            && once.outbound == OutboundInserted(db.outbound, call.outbound, ResultId(call), 0)
            && once.commands == CommandsInserted(db.commands, call.commands, ResultId(call), 0)
            && Consumed(once, call) == once && CaseUpdated(once.cases, call.graph) == once.cases
  {
    ResultShape(db, call, now);
  }

  /** Overlaid slots win over the conversation's, and deleted keys are gone. */
  lemma MergedSlotsAre(base: Slots, g: GraphState, key: string)
    requires g.slots.Some?
    ensures var merged := MergedSlots(base, g);
            && (key in merged <==> (key in base || key in g.slots.value) && key !in g.deleteKeys)
            && (key in merged ==> merged[key] == if key in g.slots.value then g.slots.value[key] else base[key])
  {
  }

  lemma ResultTables(db: Db, call: ResultCall, now: int)
    requires !Handed(StatusOf(db.conversations, ResultId(call)))
    ensures var after := ProcessResult(db, call, now).0;
            && !ProcessResult(db, call, now).1
            && after.messages == MessagesInserted(db.messages, Customer(call.summary), ResultId(call), 0)
            && after.outbound == OutboundInserted(db.outbound, call.outbound, ResultId(call), 0)
            && after.commands == CommandsInserted(db.commands, call.commands, ResultId(call), 0)
            && after.results == CommandTable.Marked(db.results, call.result, PROCESSED)
  {
    ResultShape(db, call, now);
  }

  /** A result for an automated conversation leaves its rows and a processed result behind. */
  lemma ResultEffects(db: Db, call: ResultCall, now: int)
    requires !Handed(StatusOf(db.conversations, ResultId(call)))
    ensures var after := ProcessResult(db, call, now).0;
            && !ProcessResult(db, call, now).1
            && (call.result < |db.results| ==>
                  |after.results| == |db.results| && after.results[call.result].status == PROCESSED)
            && (call.summary.Some? && Keyed(call.summary.value) ==>
                  Recorded(after.messages, WithConversation(call.summary.value, ResultId(call))))
            && (forall j :: 0 <= j < |call.outbound| ==> OutboundHas(after.outbound, call.outbound[j].dedupKey))
            && (forall j :: 0 <= j < |call.commands| ==> CommandsHave(after.commands, call.commands[j].dedupKey))
  {
    ResultTables(db, call, now);
    AllLand(db, Customer(call.summary), call.outbound, call.commands, ResultId(call));
    if call.summary.Some? { assert Customer(call.summary)[0] == call.summary.value; }
  }

  /** And the conversation has the graph's state, with the merged slots. */
  lemma ResultState(db: Db, call: ResultCall, now: int)
    requires !Handed(StatusOf(db.conversations, ResultId(call)))
    ensures var t := ResultRow(db, call, now).conversations;
            var i := Find(t, ResultId(call)).value;
            var after := ProcessResult(db, call, now).0;
            |after.conversations| == |t|
            && Holds(t[i], after.conversations[i], ResultGraph(ResultView(db, call, now), call.graph))
  {
    ResultConversations(db, call, now);
    WriteHolds(ResultRow(db, call, now).conversations, ResultId(call),
               ResultGraph(ResultView(db, call, now), call.graph), now);
  }

  /** A second delivery of a result leaves every table as it is exactly when the conversation has gone to a human,
      or the summary carries a unique key and no other thread's slots are resurrected. */
  lemma ResultTwiceIff(db: Db, call: ResultCall, now: int, later: int)
    ensures var once := ProcessResult(db, call, now).0;
            ProcessResult(once, call, later).0 == once <==>
              ResultHandsOver(db, call) || (AllKeyed(Customer(call.summary)) && !Resurrects(db, call, now))
  {
    if ResultHandsOver(db, call) {
      HandedResultTwice(db, call, now, later);
    } else {
      AutomatedResultTwiceIff(db, call, now, later);
    }
  }

  lemma AutomatedResultTwiceIff(db: Db, call: ResultCall, now: int, later: int)
    requires !ResultHandsOver(db, call)
    ensures var once := ProcessResult(db, call, now).0;
            ProcessResult(once, call, later).0 == once <==>
              AllKeyed(Customer(call.summary)) && !Resurrects(db, call, now)
  {
    var id := ResultId(call);
    var once := ProcessResult(db, call, now).0;
    var again := ResultGraph(ResultView(once, call, later), call.graph);
    ResultLeft(db, call, now);
    ResultAfter(db, call, now);
    ResultWrittenTwiceIff(db, call, now, later);
    ResultShape(once, call, later);
    MessagesReplayIff(db.messages, Customer(call.summary), Customer(call.summary), id, once.messages);
    OutboundReplay(db.outbound, call.outbound, id, once.outbound);
    CommandsReplay(db.commands, call.commands, id, once.commands);
    ReplayedTables(once, ResultWritten(once, call, again, later), call, id);
  }

  /** Thread 2 finishes its work while thread 1 of the same chat still collects slots. */
  function TwoThreads(id: string): Table {
    [Conversation("other", "k", Some("1"), AI_ACTIVE, None, Some("collecting_slots"), None, None, 0),
     Conversation(id, "k", Some("2"), AI_ACTIVE, Some("w"), None, None, None, 0)]
  }

  function ClearingCall(): ResultCall {
    ResultCall(0, "k", Some("2"), GraphState(Some(AI_ACTIVE), None, None, Some(map[]), {}, None, None), None, [], [])
  }

  lemma ClearingResurrects(id: string)
    requires id != "other"
    ensures var t := TwoThreads(id);
            && Landed(t, id, Some("2")) && !Handed(StatusOf(t, id))
            && ResurrectsIn(t, id, "k", Some("2"), ClearingCall().graph)
  {
    var t := TwoThreads(id);
    assert Find(t, id) == Some(1);
    FirstIsPrevious(t, id);
    assert CONTINUATION in MergedSlots(InheritedSlots(t[0]), ClearingCall().graph);
    assert View(t, 1, "k", Some("2")) == t[1];
    assert ResultGraph(t[1], ClearingCall().graph) == ClearingCall().graph;
  }

  /** A result that clears the finished workflow; delivered twice, it moves thread 1's slots into thread 2. */
  lemma ResurrectionHappens(now: int, later: int)
    ensures var call := ClearingCall();
            var db := Db(TwoThreads(ResultId(call)), [], [], [], [], [], map[]);
            var once := ProcessResult(db, call, now).0;
            ProcessResult(once, call, later).0 != once
  {
    var id := ResultId(ClearingCall());
    assert id[0] == 'l' && "other"[0] == 'o';
    ClearingResurrects(id);
    LandedStable(TwoThreads(id), id, "k", Some("2"), now);
    ResultTwiceIff(Db(TwoThreads(id), [], [], [], [], [], map[]), ClearingCall(), now, later);
  }

  lemma FirstIsPrevious(t: Table, id: string)
    requires |t| == 2 && t[0].chat == "k" && t[0].id != id && t[1].id == id
    ensures Previous(t, "k", id) == Some(0)
  {
    assert Previous(t, "k", id).Some?;
  }
}
