/** Customer events, command results, agent replies, the handoff worker and the idle
    timer on one database, in any order: what a human's takeover puts an end to, and
    the one writer that can undo it. */
module GatewayRuns {
  import opened Base
  import opened Conversations
  import opened Gateway
  import opened Redelivery
  import CommandTable
  import IdleTimer
  import InboundQueue
  import Json
  import Outcomes
  import OutboundQueue
  import OutboundRuns

  /** Statements that run between two transactions.  GetOrCreate is the upsert with which consumers load a conversation
      before the transaction that processes it.  An agent's reply is ingested by five statements of their own:
      EnsureThread, Activate and the three cancellations.  The idle timer fetches a candidate and writes it later. */
  datatype Step =
    | Event(event: EventCall)
    | Result(result: ResultCall)
    | RecordFailure(id: string, failure: Json.Value)
    | GetOrCreate(id: string, chat: string, thread: Option<string>)
    | EnsureThread(id: string, chat: string, thread: Option<string>)
    | Activate(id: string, slots: Slots, handoff: Json.Value)
    | CancelOutbound(id: string)
    | CancelCommands(id: string)
    | CancelResults(id: string)
    | Transferred(id: string)
    | FetchIdle(id: string)
    | IdleSlots(id: string, slots: Slots)
    | IdleClose(id: string, slots: Slots)
    | IdleHandoff(id: string, ownThread: string, key: string, reason: string, notes: Slots)
    | UpdateCases(cases: map<nat, string>)
    | UpdateQueues(outbound: OutboundQueue.Table, commands: CommandTable.Table, results: CommandTable.Table,
                   inbound: InboundQueue.Table)
    | AppendMessage(message: ChatMessage)
    | Tick(elapsed: nat)

  /** idle: the conversations that the idle timer has fetched as candidates. */
  datatype World = World(db: Db, now: int, idle: set<string>)

  function LatestRole(t: Messages, id: string): Option<string> {
    if t == [] then None
    else if t[|t| - 1].conversation == id then Some(t[|t| - 1].role)
    else LatestRole(t[..|t| - 1], id)
  }

  predicate NoOpenWork(db: Db, id: string) {
    && (forall i :: 0 <= i < |db.commands| ==>
          !(CommandTable.Open(db.commands[i]) && db.commands[i].conversation == id))
    && (forall i :: 0 <= i < |db.results| ==> !(CommandTable.Open(db.results[i]) && db.results[i].conversation == id))
    && (forall i :: 0 <= i < |db.outbound| ==>
          !(OutboundQueue.Open(db.outbound[i]) && db.outbound[i].conversation == Some(id)))
  }

  /** What fetch_candidates selects: automated conversations whose latest message is the assistant's. */
  predicate IdleCandidate(db: Db, id: string) {
    var found := Find(db.conversations, id);
    && found.Some? && IdleTimer.MayRequest(db.conversations[found.value])
    && LatestRole(db.messages, id) == Some("assistant")
    && (db.conversations[found.value].status == IdleTimer.WAITING_EXTERNAL ==> NoOpenWork(db, id))
  }

  /** What leases, senders and workers do to the queues: they update columns of rows that keep their dedup key and
      conversation.  The inbound and result tables may change in any way. */
  ghost predicate Legal(w: World, s: Step) {
    && (s.FetchIdle? ==> IdleCandidate(w.db, s.id))
    && (s.IdleSlots? || s.IdleClose? || s.IdleHandoff? ==> s.id in w.idle)
    && (s.UpdateQueues? ==>
      && |s.outbound| == |w.db.outbound| && |s.commands| == |w.db.commands|
      && (forall i :: 0 <= i < |s.outbound| ==>
            s.outbound[i].dedupKey == w.db.outbound[i].dedupKey
            && s.outbound[i].conversation == w.db.outbound[i].conversation)
      && (forall i :: 0 <= i < |s.commands| ==>
            s.commands[i].dedupKey == w.db.commands[i].dedupKey
            && s.commands[i].conversation == w.db.commands[i].conversation))
  }

  /** The UPDATE that the handoff worker runs after LiveChat's transfer. */
  const TRANSFERRED :=
    GraphState(Some(HUMAN_ACTIVE), Some("human_handoff"), Some("transferred"), Some(map[]), {}, None, None)

  /** request_ai_failure_handoff: the guarded update and, if it was made, the command. */
  function AfterIdleHandoff(db: Db, id: string, thread: string, key: string, reason: string, notes: Slots,
                            now: int): Db {
    var written := IdleTimer.HandoffRequested(db.conversations, id, notes, now);
    if !written.1 then db
    else db.(conversations := written.0,
             commands := CommandTable.Inserted(db.commands, IdleTimer.HandoffCommand(id, thread, key, reason, now)))
  }

  function Do(w: World, s: Step): World {
    var db := w.db;
    match s
    case Event(call) => w.(db := ProcessEvent(db, call, w.now).0)
    case Result(call) => w.(db := ProcessResult(db, call, w.now).0)
    case RecordFailure(id, failure) =>
      w.(db := db.(conversations := FailureRecorded(db.conversations, id, failure, w.now).0))
    case GetOrCreate(id, chat, thread) =>
      w.(db := db.(conversations := Ensured(db.conversations, id, chat, thread, w.now)))
    case EnsureThread(id, chat, thread) =>
      w.(db := db.(conversations := ThreadEnsured(db.conversations, id, chat, thread, w.now)))
    case Activate(id, slots, handoff) =>
      w.(db := db.(conversations := HumanActivated(db.conversations, id, slots, handoff, w.now)))
    case CancelOutbound(id) => w.(db := db.(outbound := OutboundQueue.Cancelled(db.outbound, id)))
    case CancelCommands(id) => w.(db := db.(commands := CommandTable.Cancelled(db.commands, id)))
    case CancelResults(id) => w.(db := db.(results := CommandTable.Cancelled(db.results, id)))
    case Transferred(id) => w.(db := db.(conversations := WorkflowUpdated(db.conversations, id, TRANSFERRED, w.now).0))
    case FetchIdle(id) => w.(idle := w.idle + {id})
    case IdleSlots(id, slots) =>
      w.(db := db.(conversations := IdleTimer.SlotsWritten(db.conversations, id, slots, w.now)))
    case IdleClose(id, slots) => w.(db := db.(conversations := IdleTimer.Closed(db.conversations, id, slots, w.now)))
    case IdleHandoff(id, thread, key, reason, notes) =>
      w.(db := AfterIdleHandoff(db, id, thread, key, reason, notes, w.now))
    case UpdateCases(cases) => w.(db := db.(cases := cases))
    case UpdateQueues(o, c, r, i) => w.(db := db.(outbound := o, commands := c, results := r, inbound := i))
    case AppendMessage(m) => w.(db := db.(messages := MessageInserted(db.messages, m)))
    case Tick(elapsed) => w.(now := w.now + elapsed)
  }

  ghost predicate LegalRun(w: World, steps: Script<Step>)
    decreases steps
  {
    match steps
    case Stop => true
    case Then(s, rest) => Legal(w, s) && LegalRun(Do(w, s), rest)
  }

  function Run(w: World, steps: Script<Step>): World
    decreases steps
  {
    match steps
    case Stop => w
    case Then(s, rest) => Run(Do(w, s), rest)
  }

  function Status(w: World, id: string): string {
    StatusOf(w.db.conversations, id)
  }

  // ---- Handed conversations stay handed ------------------------------------------------------------------

  /** Rows never leave the table, and neither HUMAN_ACTIVE nor the handoff states are left. */
  predicate Guarded(before: string, after: string) {
    && (before == HUMAN_ACTIVE ==> after == HUMAN_ACTIVE)
    && (Handed(before) ==> Handed(after))
  }

  lemma OtherIdsKept(t: Table, u: Table, i: nat, id: string)
    requires i < |t| && |u| == |t| && t[i].id != id && u[i].id == t[i].id
    requires forall j :: 0 <= j < |t| && j != i ==> u[j] == t[j]
    ensures StatusOf(u, id) == StatusOf(t, id)
  {
    FindUnmoved(t, u, id);
  }

  lemma EnsureGuards(t: Table, own: string, chat: string, thread: Option<string>, now: int, id: string)
    ensures StatusOf(Ensured(t, own, chat, thread, now), id) == StatusOf(t, id)
  {
    var u := Ensured(t, own, chat, thread, now);
    if own == id {
      EnsuredLands(t, own, chat, thread, now);
    } else if Find(t, own).Some? {
      OtherIdsKept(t, u, Find(t, own).value, id);
    } else {
      AppendedStatus(t, u[|t|], id);
    }
  }

  lemma AppendedStatus(t: Table, row: Conversation, id: string)
    requires row.id != id
    ensures StatusOf(t + [row], id) == StatusOf(t, id)
  {
    var u := t + [row];
    var a, b := Find(t, id), Find(u, id);
    if a.Some? {
      assert u[a.value].id == id;
      assert b.Some? && b.value <= a.value;
    }
  }

  lemma RewriteGuards(t: Table, u: Table, own: string, id: string)
    requires Find(t, own).Some? && |u| == |t|
    requires var i := Find(t, own).value;
             && u[i].id == own && Guarded(t[i].status, u[i].status)
             && forall j :: 0 <= j < |t| && j != i ==> u[j] == t[j]
    ensures Guarded(StatusOf(t, id), StatusOf(u, id))
  {
    if own == id {
      FindUnmoved(t, u, id);
    } else {
      OtherIdsKept(t, u, Find(t, own).value, id);
    }
  }

  lemma WorkflowGuards(t: Table, own: string, g: GraphState, now: int, id: string)
    requires Find(t, own).Some? && (!Handed(StatusOf(t, own)) || g.status == Some(HUMAN_ACTIVE))
    ensures Guarded(StatusOf(t, id), StatusOf(WorkflowUpdated(t, own, g, now).0, id))
  {
    RewriteGuards(t, WorkflowUpdated(t, own, g, now).0, own, id);
  }

  lemma EventGuards(db: Db, call: EventCall, now: int, id: string)
    ensures Guarded(StatusOf(db.conversations, id), StatusOf(ProcessEvent(db, call, now).0.conversations, id))
  {
    var d := EventRow(db, call, now);
    EventShape(db, call, now);
    EnsureGuards(db.conversations, EventId(call), ChatOf(call.chat), call.thread, now, id);
    EnsureGuards(db.conversations, EventId(call), ChatOf(call.chat), call.thread, now, EventId(call));
    if !Handed(StatusOf(db.conversations, EventId(call))) && call.graph.Some? {
      WorkflowGuards(d.conversations, EventId(call), call.graph.value, now, id);
    }
  }

  lemma ResultGuards(db: Db, call: ResultCall, now: int, id: string)
    ensures Guarded(StatusOf(db.conversations, id), StatusOf(ProcessResult(db, call, now).0.conversations, id))
  {
    var t := ResultRow(db, call, now).conversations;
    ResultConversations(db, call, now);
    EnsureGuards(db.conversations, ResultId(call), call.chat, call.thread, now, id);
    if !Handed(StatusOf(db.conversations, ResultId(call))) {
      WorkflowGuards(t, ResultId(call), ResultGraph(ResultView(db, call, now), call.graph), now, id);
    }
  }

  lemma UpdateGuards(w: World, s: Step, id: string)
    requires s.RecordFailure? || s.Activate? || s.Transferred?
    ensures Guarded(Status(w, id), Status(Do(w, s), id))
  {
    var t := w.db.conversations;
    var u := Do(w, s).db.conversations;
    if Find(t, s.id).Some? {
      if s.Transferred? { WorkflowGuards(t, s.id, TRANSFERRED, w.now, id); } else { RewriteGuards(t, u, s.id, id); }
    }
  }

  lemma IdleGuards(w: World, s: Step, id: string)
    requires s.IdleSlots? || s.IdleHandoff? || (s.IdleClose? && s.id != id)
    ensures Guarded(Status(w, id), Status(Do(w, s), id))
  {
    var t := w.db.conversations;
    if Find(t, s.id).Some? {
      if s.IdleClose? {
        OtherIdsKept(t, Do(w, s).db.conversations, Find(t, s.id).value, id);
      } else {
        RewriteGuards(t, Do(w, s).db.conversations, s.id, id);
      }
    }
  }

  /** mark_closed of the idle timer for this conversation. */
  predicate Closes(s: Step, id: string) {
    s.IdleClose? && s.id == id
  }

  lemma StepGuards(w: World, s: Step, id: string)
    requires !Closes(s, id)
    ensures Guarded(Status(w, id), Status(Do(w, s), id))
  {
    if s.Event? {
      EventGuards(w.db, s.event, w.now, id);
    } else if s.Result? {
      ResultGuards(w.db, s.result, w.now, id);
    } else if s.GetOrCreate? {
      EnsureGuards(w.db.conversations, s.id, s.chat, s.thread, w.now, id);
    } else if s.EnsureThread? {
      var t := w.db.conversations;
      EnsureGuards(t, s.id, s.chat, KeptThread(t, s.id, s.thread), w.now, id);
    } else if s.RecordFailure? || s.Activate? || s.Transferred? {
      UpdateGuards(w, s, id);
    } else if s.IdleSlots? || s.IdleHandoff? || s.IdleClose? {
      IdleGuards(w, s, id);
    }
  }

  lemma CloseLeaves(w: World, s: Step, id: string)
    requires Closes(s, id) && Handed(Status(w, id))
    ensures Status(Do(w, s), id) == IdleTimer.CLOSED
  {
    FindUnmoved(w.db.conversations, Do(w, s).db.conversations, id);
  }

  /** A handed status is left by exactly one writer: the idle timer's unguarded mark_closed. */
  lemma HandoffLeftIff(w: World, s: Step, id: string)
    requires Handed(Status(w, id))
    ensures !Handed(Status(Do(w, s), id)) <==> Closes(s, id)
    ensures Status(w, id) == HUMAN_ACTIVE ==> (Status(Do(w, s), id) != HUMAN_ACTIVE <==> Closes(s, id))
  {
    if Closes(s, id) { CloseLeaves(w, s, id); } else { StepGuards(w, s, id); }
  }

  predicate NeverClosed(steps: Script<Step>, id: string) {
    match steps
    case Stop => true
    case Then(s, rest) => !Closes(s, id) && NeverClosed(rest, id)
  }

  /** Unless the idle timer closes it, HUMAN_ACTIVE is absorbing, and the two handoff states are never left, under
      every interleaving. */
  lemma {:induction false} HandoffAbsorbing(w: World, steps: Script<Step>, id: string)
    requires NeverClosed(steps, id)
    ensures Guarded(Status(w, id), Status(Run(w, steps), id))
    decreases steps
  {
    if steps.Then? {
      StepGuards(w, steps.step, id);
      HandoffAbsorbing(Do(w, steps.step), steps.rest, id);
    }
  }

  predicate AlwaysHanded(w: World, steps: Script<Step>, id: string)
    decreases steps
  {
    Handed(Status(w, id)) && (steps.Then? ==> AlwaysHanded(Do(w, steps.step), steps.rest, id))
  }

  /** A handed conversation is handed throughout a run exactly when the idle timer never closes it. */
  lemma {:induction false} AlwaysHandedIff(w: World, steps: Script<Step>, id: string)
    requires Handed(Status(w, id))
    ensures AlwaysHanded(w, steps, id) <==> NeverClosed(steps, id)
    decreases steps
  {
    if steps.Then? {
      var v := Do(w, steps.step);
      HandoffLeftIff(w, steps.step, id);
      if Handed(Status(v, id)) { AlwaysHandedIff(v, steps.rest, id); }
    }
  }

  // ---- What the two transactions still do for a handed conversation --------------------------------------

  /** Whatever happened since the takeover: a customer event is processed and its words recorded, and nothing else. */
  lemma EventAfterTakeover(w: World, steps: Script<Step>, call: EventCall)
    requires Handed(Status(w, EventId(call))) && NeverClosed(steps, EventId(call))
    ensures var v := Run(w, steps).db;
            var after := Do(Run(w, steps), Event(call)).db;
            && ProcessEvent(v, call, Run(w, steps).now).1
            && after.outbound == v.outbound && after.commands == v.commands && after.results == v.results
            && after.cases == v.cases
            && (call.event < |v.inbound| ==> after.inbound[call.event].processed)
            && (call.customer.Some? && Keyed(call.customer.value) ==>
                  Recorded(after.messages, WithConversation(call.customer.value, EventId(call))))
            && (call.customer.Some? && !Keyed(call.customer.value) ==>
                  after.messages == v.messages + [WithConversation(call.customer.value, EventId(call))])
  {
    HandoffAbsorbing(w, steps, EventId(call));
    var v := Run(w, steps);
    EventShape(v.db, call, v.now);
    if call.customer.Some? {
      var m := WithConversation(call.customer.value, EventId(call));
      OwnInsertRecords(v.db.messages, m);
      if !Keyed(m) { UnkeyedNeverRecorded(v.db.messages, m); }
      OneMessage(v.db.messages, call.customer.value, EventId(call));
    }
  }

  lemma OneMessage(t: Messages, m: ChatMessage, id: string)
    ensures MessagesInserted(t, [m], id, 0) == MessageInserted(t, WithConversation(m, id))
  {
    assert MessagesInserted(MessageInserted(t, WithConversation(m, id)), [m], id, 1) ==
             MessageInserted(t, WithConversation(m, id));
  }

  /** A late result is marked PROCESSED and has no other effect. */
  lemma ResultAfterTakeover(w: World, steps: Script<Step>, call: ResultCall)
    requires Handed(Status(w, ResultId(call))) && NeverClosed(steps, ResultId(call))
    ensures var v := Run(w, steps).db;
            var after := Do(Run(w, steps), Result(call)).db;
            && ProcessResult(v, call, Run(w, steps).now).1
            && after == v.(conversations := after.conversations,
                           results := CommandTable.Marked(v.results, call.result, PROCESSED))
            && StatusOf(after.conversations, ResultId(call)) == StatusOf(v.conversations, ResultId(call))
  {
    HandoffAbsorbing(w, steps, ResultId(call));
    var v := Run(w, steps);
    ResultConversations(v.db, call, v.now);
    ResultShape(v.db, call, v.now);
  }

  // ---- No new rows for a handed conversation ----------------------------------------------------------------

  ghost predicate NoNewRows(a: Db, b: Db, id: string) {
    && |a.outbound| <= |b.outbound| && |a.commands| <= |b.commands|
    && (forall i :: |a.outbound| <= i < |b.outbound| ==> b.outbound[i].conversation != Some(id))
    && (forall i :: |a.commands| <= i < |b.commands| ==> b.commands[i].conversation != id)
  }

  /** Rows that exist keep their key and conversation. */
  ghost predicate RowsKept(a: Db, b: Db) {
    && |a.outbound| <= |b.outbound| && |a.commands| <= |b.commands| && a.messages <= b.messages
    && (forall i :: 0 <= i < |a.outbound| ==>
          a.outbound[i].dedupKey == b.outbound[i].dedupKey && a.outbound[i].conversation == b.outbound[i].conversation)
    && (forall i :: 0 <= i < |a.commands| ==>
          a.commands[i].dedupKey == b.commands[i].dedupKey && a.commands[i].conversation == b.commands[i].conversation)
  }

  lemma {:induction false} OutboundRowsOf(t: OutboundQueue.Table, requests: seq<OutboundQueue.Message>, id: string,
                                          k: nat)
    ensures var u := OutboundInserted(t, requests, id, k);
            t <= u && forall i :: |t| <= i < |u| ==> u[i].conversation == Some(id)
    decreases |requests| - k
  {
    if k < |requests| {
      OutboundRowsOf(OutboundQueue.Inserted(t, requests[k].(conversation := Some(id))), requests, id, k + 1);
    }
  }

  lemma {:induction false} CommandRowsOf(t: CommandTable.Table, requests: seq<CommandTable.Command>, id: string, k: nat)
    ensures var u := CommandsInserted(t, requests, id, k);
            t <= u && forall i :: |t| <= i < |u| ==> u[i].conversation == id
    decreases |requests| - k
  {
    if k < |requests| {
      CommandRowsOf(CommandTable.Inserted(t, requests[k].(conversation := id)), requests, id, k + 1);
    }
  }

  lemma EventRows(db: Db, call: EventCall, now: int, id: string)
    ensures var after := ProcessEvent(db, call, now).0;
            RowsKept(db, after) && (Handed(StatusOf(db.conversations, id)) ==> NoNewRows(db, after, id))
  {
    AppliedLeft(db, call, now);
    OutboundRowsOf(db.outbound, call.outbound, EventId(call), 0);
    CommandRowsOf(db.commands, call.commands, EventId(call), 0);
    MessagesAppend(db.messages, Customer(call.customer), EventId(call), 0);
    MessagesAppend(db.messages, Customer(call.customer) + call.assistant, EventId(call), 0);
  }

  lemma ResultRows(db: Db, call: ResultCall, now: int, id: string)
    ensures var after := ProcessResult(db, call, now).0;
            RowsKept(db, after) && (Handed(StatusOf(db.conversations, id)) ==> NoNewRows(db, after, id))
  {
    ResultShape(db, call, now);
    OutboundRowsOf(db.outbound, call.outbound, ResultId(call), 0);
    CommandRowsOf(db.commands, call.commands, ResultId(call), 0);
    MessagesAppend(db.messages, Customer(call.summary), ResultId(call), 0);
  }

  lemma IdleHandoffRows(db: Db, own: string, thread: string, key: string, reason: string, notes: Slots, now: int,
                        id: string)
    ensures var after := AfterIdleHandoff(db, own, thread, key, reason, notes, now);
            RowsKept(db, after) && (Handed(StatusOf(db.conversations, id)) ==> NoNewRows(db, after, id))
  {
  }

  lemma StepRows(w: World, s: Step, id: string)
    requires Legal(w, s)
    ensures var v := Do(w, s);
            RowsKept(w.db, v.db) && (Handed(Status(w, id)) ==> NoNewRows(w.db, v.db, id))
  {
    if s.Event? {
      EventRows(w.db, s.event, w.now, id);
    } else if s.Result? {
      ResultRows(w.db, s.result, w.now, id);
    } else if s.IdleHandoff? {
      IdleHandoffRows(w.db, s.id, s.ownThread, s.key, s.reason, s.notes, w.now, id);
    }
  }

  lemma RowsTransitive(a: Db, b: Db, c: Db, id: string)
    requires RowsKept(a, b) && RowsKept(b, c)
    ensures RowsKept(a, c)
    ensures NoNewRows(a, b, id) && NoNewRows(b, c, id) ==> NoNewRows(a, c, id)
  {
  }

  /** Rows are never lost or re-keyed, and nothing inserts an outbound message or a command for a handed conversation
      that the idle timer never closes. */
  lemma {:induction false} NoRowsAfterTakeover(w: World, steps: Script<Step>, id: string)
    requires LegalRun(w, steps)
    ensures var v := Run(w, steps);
            RowsKept(w.db, v.db) && (Handed(Status(w, id)) && NeverClosed(steps, id) ==> NoNewRows(w.db, v.db, id))
    decreases steps
  {
    if steps.Then? {
      var v := Do(w, steps.step);
      StepRows(w, steps.step, id);
      if !Closes(steps.step, id) { StepGuards(w, steps.step, id); }
      NoRowsAfterTakeover(v, steps.rest, id);
      RowsTransitive(w.db, v.db, Run(v, steps.rest).db, id);
    }
  }

  // ---- Redelivery after other work --------------------------------------------------------------------------

  lemma KeptGrew(a: Db, b: Db)
    requires RowsKept(a, b)
    ensures OutboundGrew(a.outbound, b.outbound) && CommandsGrew(a.commands, b.commands)
  {
  }

  lemma AppliedLeft(db: Db, call: EventCall, now: int)
    ensures var after := ProcessEvent(db, call, now).0;
            if Handed(StatusOf(db.conversations, EventId(call)))
            then after.messages == MessagesInserted(db.messages, Customer(call.customer), EventId(call), 0)
            else && after.messages ==
                      MessagesInserted(db.messages, Customer(call.customer) + call.assistant, EventId(call), 0)
                 && after.outbound == OutboundInserted(db.outbound, call.outbound, EventId(call), 0)
                 && after.commands == CommandsInserted(db.commands, call.commands, EventId(call), 0)
    ensures Handed(StatusOf(db.conversations, EventId(call))) ==>
            && ProcessEvent(db, call, now).0.outbound == db.outbound
            && ProcessEvent(db, call, now).0.commands == db.commands
  {
    EventShape(db, call, now);
  }

  /** A run on tables that grew since a run that applied the event. */
  lemma SecondRun(db: Db, call: EventCall, now: int, v: Db, later: int)
    requires !Handed(StatusOf(db.conversations, EventId(call)))
    requires RowsKept(ProcessEvent(db, call, now).0, v)
    ensures var after := ProcessEvent(v, call, later).0;
            && after.outbound == v.outbound && after.commands == v.commands
            && (AllKeyed(Customer(call.customer) + call.assistant) ==> after.messages == v.messages)
  {
    var id := EventId(call);
    var requests := Customer(call.customer) + call.assistant;
    AppliedLeft(db, call, now);
    AppliedLeft(v, call, later);
    KeptGrew(ProcessEvent(db, call, now).0, v);
    OutboundReplay(db.outbound, call.outbound, id, v.outbound);
    CommandsReplay(db.commands, call.commands, id, v.commands);
    MessagesReplayIff(db.messages, requests, requests, id, v.messages);
    MessagesReplayIff(db.messages, requests, Customer(call.customer), id, v.messages);
    if AllKeyed(requests) { PrefixKeyed(Customer(call.customer), call.assistant); }
  }

  /** An event that is delivered again after any other steps changes no outbound message and no command, neither by
      adding rows nor by resetting a status, and repeats no message that has a key; unless it found the conversation
      handed over the first time and the idle timer has closed it since. */
  lemma EventRerunHarmless(w: World, steps: Script<Step>, call: EventCall)
    requires LegalRun(Do(w, Event(call)), steps)
    requires Handed(Status(w, EventId(call))) ==> Handed(Status(Run(Do(w, Event(call)), steps), EventId(call)))
    ensures var v := Run(Do(w, Event(call)), steps).db;
            var after := Do(Run(Do(w, Event(call)), steps), Event(call)).db;
            && after.outbound == v.outbound && after.commands == v.commands
            && (AllKeyed(Customer(call.customer) + call.assistant) ==> after.messages == v.messages)
  {
    var id := EventId(call);
    var first := Do(w, Event(call));
    var v := Run(first, steps);
    NoRowsAfterTakeover(first, steps, id);
    if Handed(Status(w, id)) {
      AppliedLeft(w.db, call, w.now);
      AppliedLeft(v.db, call, v.now);
      MessagesReplayIff(w.db.messages, Customer(call.customer), Customer(call.customer), id, v.db.messages);
      if AllKeyed(Customer(call.customer) + call.assistant) { PrefixKeyed(Customer(call.customer), call.assistant); }
    } else {
      SecondRun(w.db, call, w.now, v.db, v.now);
    }
  }

  /** Every key that the requests ask for is stored. */
  ghost predicate Stored(db: Db, outbound: seq<OutboundQueue.Message>, commands: seq<CommandTable.Command>) {
    && (forall j :: 0 <= j < |outbound| ==> OutboundHas(db.outbound, outbound[j].dedupKey))
    && (forall j :: 0 <= j < |commands| ==> CommandsHave(db.commands, commands[j].dedupKey))
  }

  /** For any delivery of an event: it leaves the outbound messages and commands alone exactly when a human has the
      conversation, or every requested key is already stored. */
  lemma DeliveryAddsNothingIff(db: Db, call: EventCall, now: int)
    ensures var after := ProcessEvent(db, call, now).0;
            (after.outbound == db.outbound && after.commands == db.commands) <==>
              Handed(StatusOf(db.conversations, EventId(call))) || Stored(db, call.outbound, call.commands)
  {
    AppliedLeft(db, call, now);
    OutboundSettledIff(db.outbound, call.outbound, EventId(call));
    CommandsSettledIff(db.commands, call.commands, EventId(call));
  }

  /** The same for any delivery of a result. */
  lemma ResultAddsNothingIff(db: Db, call: ResultCall, now: int)
    ensures var after := ProcessResult(db, call, now).0;
            (after.outbound == db.outbound && after.commands == db.commands) <==>
              Handed(StatusOf(db.conversations, ResultId(call))) || Stored(db, call.outbound, call.commands)
  {
    ResultAppliedLeft(db, call, now);
    OutboundSettledIff(db.outbound, call.outbound, ResultId(call));
    CommandsSettledIff(db.commands, call.commands, ResultId(call));
  }

  ghost predicate AddsNothing(w: World, s: Step) {
    Do(w, s).db.outbound == w.db.outbound && Do(w, s).db.commands == w.db.commands
  }

  lemma EventAddsNothing(w: World, call: EventCall)
    ensures AddsNothing(w, Event(call)) <==>
              Handed(Status(w, EventId(call))) || Stored(w.db, call.outbound, call.commands)
  {
    DeliveryAddsNothingIff(w.db, call, w.now);
  }

  lemma ResultAddsNothing(w: World, call: ResultCall)
    ensures AddsNothing(w, Result(call)) <==>
              Handed(Status(w, ResultId(call))) || Stored(w.db, call.outbound, call.commands)
  {
    ResultAddsNothingIff(w.db, call, w.now);
  }

  /** Exactly: a rerun of an event adds nothing unless its first delivery found the conversation handed over, it is
      automated by now, and some key is missing. */
  lemma EventRerunIff(w: World, steps: Script<Step>, call: EventCall)
    requires LegalRun(Do(w, Event(call)), steps)
    ensures var v := Run(Do(w, Event(call)), steps);
            AddsNothing(v, Event(call)) <==>
              || !Handed(Status(w, EventId(call))) || Handed(Status(v, EventId(call)))
              || Stored(v.db, call.outbound, call.commands)
  {
    EventAddsNothing(Run(Do(w, Event(call)), steps), call);
    if !Handed(Status(w, EventId(call))) { EventRerunHarmless(w, steps, call); }
  }

  /** The same for a result. */
  lemma ResultRerunIff(w: World, steps: Script<Step>, call: ResultCall)
    requires LegalRun(Do(w, Result(call)), steps)
    ensures var v := Run(Do(w, Result(call)), steps);
            AddsNothing(v, Result(call)) <==>
              || !Handed(Status(w, ResultId(call))) || Handed(Status(v, ResultId(call)))
              || Stored(v.db, call.outbound, call.commands)
  {
    ResultAddsNothing(Run(Do(w, Result(call)), steps), call);
    if !Handed(Status(w, ResultId(call))) { ResultRerunHarmless(w, steps, call); }
  }

  lemma OutboundSettledIff(t: OutboundQueue.Table, requests: seq<OutboundQueue.Message>, id: string)
    ensures OutboundInserted(t, requests, id, 0) == t <==>
            forall j :: 0 <= j < |requests| ==> OutboundHas(t, requests[j].dedupKey)
  {
    OutboundLands(t, requests, id, 0);
    if forall j :: 0 <= j < |requests| ==> OutboundHas(t, requests[j].dedupKey) { OutboundSettled(t, requests, id, 0); }
  }

  lemma CommandsSettledIff(t: CommandTable.Table, requests: seq<CommandTable.Command>, id: string)
    ensures CommandsInserted(t, requests, id, 0) == t <==>
            forall j :: 0 <= j < |requests| ==> CommandsHave(t, requests[j].dedupKey)
  {
    CommandsLand(t, requests, id, 0);
    if forall j :: 0 <= j < |requests| ==> CommandsHave(t, requests[j].dedupKey) {
      CommandsSettled(t, requests, id, 0);
    }
  }

  lemma PrefixKeyed(a: seq<ChatMessage>, b: seq<ChatMessage>)
    requires AllKeyed(a + b)
    ensures AllKeyed(a)
  {
    forall j | 0 <= j < |a| ensures Keyed(a[j]) { assert (a + b)[j] == a[j]; }
  }

  lemma ResultAppliedLeft(db: Db, call: ResultCall, now: int)
    ensures var after := ProcessResult(db, call, now).0;
            if Handed(StatusOf(db.conversations, ResultId(call)))
            then after.messages == db.messages && after.outbound == db.outbound && after.commands == db.commands
            else && after.messages == MessagesInserted(db.messages, Customer(call.summary), ResultId(call), 0)
                 && after.outbound == OutboundInserted(db.outbound, call.outbound, ResultId(call), 0)
                 && after.commands == CommandsInserted(db.commands, call.commands, ResultId(call), 0)
  {
    ResultShape(db, call, now);
  }

  lemma SecondResultRun(db: Db, call: ResultCall, now: int, v: Db, later: int)
    requires !Handed(StatusOf(db.conversations, ResultId(call)))
    requires RowsKept(ProcessResult(db, call, now).0, v)
    ensures var after := ProcessResult(v, call, later).0;
            && after.outbound == v.outbound && after.commands == v.commands
            && (AllKeyed(Customer(call.summary)) ==> after.messages == v.messages)
  {
    var id := ResultId(call);
    ResultAppliedLeft(db, call, now);
    ResultAppliedLeft(v, call, later);
    KeptGrew(ProcessResult(db, call, now).0, v);
    OutboundReplay(db.outbound, call.outbound, id, v.outbound);
    CommandsReplay(db.commands, call.commands, id, v.commands);
    MessagesReplayIff(db.messages, Customer(call.summary), Customer(call.summary), id, v.messages);
  }

  /** The same for a result. */
  lemma ResultRerunHarmless(w: World, steps: Script<Step>, call: ResultCall)
    requires LegalRun(Do(w, Result(call)), steps)
    requires Handed(Status(w, ResultId(call))) ==> Handed(Status(Run(Do(w, Result(call)), steps), ResultId(call)))
    ensures var v := Run(Do(w, Result(call)), steps).db;
            var after := Do(Run(Do(w, Result(call)), steps), Result(call)).db;
            && after.outbound == v.outbound && after.commands == v.commands
            && (AllKeyed(Customer(call.summary)) ==> after.messages == v.messages)
  {
    var first := Do(w, Result(call));
    var v := Run(first, steps);
    NoRowsAfterTakeover(first, steps, ResultId(call));
    if Handed(Status(w, ResultId(call))) {
      ResultAppliedLeft(v.db, call, v.now);
    } else {
      SecondResultRun(w.db, call, w.now, v.db, v.now);
    }
  }

  // ---- What any delivery rewrites ----------------------------------------------------------------------------

  /** The columns that a suspended transaction leaves alone. */
  predicate SameState(a: Conversation, b: Conversation) {
    && a.id == b.id && a.chat == b.chat && a.status == b.status && a.workflow == b.workflow && a.stage == b.stage
    && a.slots == b.slots && a.handoff == b.handoff
  }

  lemma EnsuredOthers(t: Table, id: string, chat: string, thread: Option<string>, now: int)
    ensures var u := Ensured(t, id, chat, thread, now);
            && |t| <= |u|
            && (forall j :: 0 <= j < |t| && t[j].id != id ==> u[j] == t[j])
            && (Find(t, id).Some? ==> |u| == |t| && SameState(t[Find(t, id).value], u[Find(t, id).value]))
  {
  }

  lemma WorkflowOthers(t: Table, id: string, g: GraphState, now: int)
    ensures var u := WorkflowUpdated(t, id, g, now).0;
            |u| == |t| && forall j :: 0 <= j < |t| && t[j].id != id ==> u[j] == t[j]
  {
  }

  /** Besides outbound messages, commands and messages a delivery of an event marks the event processed and touches its
      own conversation only: the thread, and for an automated one the graph's state and its case's status. */
  lemma EventRewrites(db: Db, call: EventCall, now: int)
    ensures var after := ProcessEvent(db, call, now).0;
            var handed := Handed(StatusOf(db.conversations, EventId(call)));
            && after.results == db.results && after.inbound == InboundQueue.Processed(db.inbound, call.event)
            && after.cases == (if handed || call.graph.None? then db.cases else CaseUpdated(db.cases, call.graph.value))
            && |db.conversations| <= |after.conversations|
            && (forall j :: 0 <= j < |db.conversations| && db.conversations[j].id != EventId(call) ==>
                  after.conversations[j] == db.conversations[j])
            && (handed || call.graph.None? ==> after.conversations == EventRow(db, call, now).conversations)
  {
    EventShape(db, call, now);
    EnsuredOthers(db.conversations, EventId(call), ChatOf(call.chat), call.thread, now);
    if call.graph.Some? { WorkflowOthers(EventRow(db, call, now).conversations, EventId(call), call.graph.value, now); }
  }

  /** A delivery of a result marks the result PROCESSED, and the rest likewise. */
  lemma ResultRewrites(db: Db, call: ResultCall, now: int)
    ensures var after := ProcessResult(db, call, now).0;
            var handed := Handed(StatusOf(db.conversations, ResultId(call)));
            && after.inbound == db.inbound && after.results == CommandTable.Marked(db.results, call.result, PROCESSED)
            && after.cases == (if handed then db.cases else CaseUpdated(db.cases, call.graph))
            && |db.conversations| <= |after.conversations|
            && (forall j :: 0 <= j < |db.conversations| && db.conversations[j].id != ResultId(call) ==>
                  after.conversations[j] == db.conversations[j])
            && (handed ==> after.conversations == ResultRow(db, call, now).conversations)
  {
    ResultShape(db, call, now);
    EnsuredOthers(db.conversations, ResultId(call), call.chat, call.thread, now);
    WorkflowOthers(ResultRow(db, call, now).conversations, ResultId(call),
                   ResultGraph(ResultView(db, call, now), call.graph), now);
  }

  // ---- A run that undoes a takeover --------------------------------------------------------------------------

  function IdleRow(id: string, status: string, stage: Option<string>, slots: Option<Slots>,
                   handoff: Option<Json.Value>): Conversation {
    Conversation(id, "k", None, status, None, stage, slots, handoff, 0)
  }

  function Greeting(id: string): ChatMessage {
    ChatMessage(id, None, None, None, "assistant", "text", "hello")
  }

  function IdleWorld(rows: Table, messages: Messages, idle: set<string>): World {
    World(Db(rows, messages, [], [], [], [], map[]), 0, idle)
  }

  /** The timer fetches its candidate, an agent answers, and the timer closes. */
  function Overlap(id: string): Script<Step> {
    Then(EnsureThread(id, "k", None), Then(AppendMessage(Greeting(id)), Then(FetchIdle(id),
      Then(Activate(id, map[], Json.Object(map[])), Then(IdleClose(id, map[]), Stop)))))
  }

  lemma OverlapFetches(id: string)
    ensures var w := IdleWorld([], [], {});
            var v := IdleWorld([IdleRow(id, AI_ACTIVE, None, None, None)], [Greeting(id)], {id});
            Do(Do(Do(w, EnsureThread(id, "k", None)), AppendMessage(Greeting(id))), FetchIdle(id)) == v
            && Legal(Do(Do(w, EnsureThread(id, "k", None)), AppendMessage(Greeting(id))), FetchIdle(id))
  {
    var row := IdleRow(id, AI_ACTIVE, None, None, None);
    var w1 := IdleWorld([row], [], {});
    assert Do(IdleWorld([], [], {}), EnsureThread(id, "k", None)) == w1;
    assert Do(w1, AppendMessage(Greeting(id))) == IdleWorld([row], [Greeting(id)], {});
    assert Find([row], id) == Some(0);
  }

  lemma OverlapCloses(id: string)
    ensures var w := IdleWorld([IdleRow(id, AI_ACTIVE, None, None, None)], [Greeting(id)], {id});
            var v := Do(w, Activate(id, map[], Json.Object(map[])));
            && Status(v, id) == HUMAN_ACTIVE && v.idle == {id}
            && Status(Do(v, IdleClose(id, map[])), id) == IdleTimer.CLOSED
  {
    var w := IdleWorld([IdleRow(id, AI_ACTIVE, None, None, None)], [Greeting(id)], {id});
    assert Find(w.db.conversations, id) == Some(0);
    var v := Do(w, Activate(id, map[], Json.Object(map[])));
    assert v.db.conversations ==
             [IdleRow(id, HUMAN_ACTIVE, Some("human_active"), Some(map[]), Some(Json.Object(map[])))];
    assert Find(v.db.conversations, id) == Some(0);
    CloseLeaves(v, IdleClose(id, map[]), id);
  }

  lemma RunThen(w: World, s: Step, rest: Script<Step>)
    ensures Run(w, Then(s, rest)) == Run(Do(w, s), rest)
    ensures LegalRun(w, Then(s, rest)) <==> Legal(w, s) && LegalRun(Do(w, s), rest)
  {
  }

  lemma OverlapEnds(id: string)
    ensures var v := IdleWorld([IdleRow(id, AI_ACTIVE, None, None, None)], [Greeting(id)], {id});
            var tail := Overlap(id).rest.rest.rest;
            LegalRun(v, tail) && Status(Run(v, tail), id) == IdleTimer.CLOSED
  {
    var v := IdleWorld([IdleRow(id, AI_ACTIVE, None, None, None)], [Greeting(id)], {id});
    var activate, close := Activate(id, map[], Json.Object(map[])), IdleClose(id, map[]);
    OverlapCloses(id);
    RunThen(Do(v, activate), close, Stop);
    RunThen(v, activate, Then(close, Stop));
  }

  lemma OverlapRuns(id: string)
    ensures var w := IdleWorld([], [], {});
            LegalRun(w, Overlap(id)) && Status(Run(w, Overlap(id)), id) == IdleTimer.CLOSED
  {
    var w := IdleWorld([], [], {});
    var s0, s1, s2 := EnsureThread(id, "k", None), AppendMessage(Greeting(id)), FetchIdle(id);
    var tail := Overlap(id).rest.rest.rest;
    OverlapFetches(id);
    OverlapEnds(id);
    RunThen(Do(Do(w, s0), s1), s2, tail);
    RunThen(Do(w, s0), s1, Then(s2, tail));
    RunThen(w, s0, Then(s1, Then(s2, tail)));
  }

  /** From an empty database: a conversation that a human has taken over is closed by the idle timer, and the next
      event for it is automated again. */
  lemma TakeoverUndone(id: string, call: EventCall)
    requires EventId(call) == id
    ensures var w := IdleWorld([], [], {});
            && LegalRun(w, Overlap(id)) && Status(Run(w, Overlap(id)), id) == IdleTimer.CLOSED
            && !ProcessEvent(Run(w, Overlap(id)).db, call, 0).1
            && forall j :: 0 <= j < |call.outbound| ==>
                 OutboundHas(ProcessEvent(Run(w, Overlap(id)).db, call, 0).0.outbound, call.outbound[j].dedupKey)
  {
    OverlapRuns(id);
    EventEffects(Run(IdleWorld([], [], {}), Overlap(id)).db, call, 0);
  }

  lemma Thrice(w: World, s0: Step, s1: Step, s2: Step)
    ensures var steps := Then(s0, Then(s1, Then(s2, Stop)));
            && Run(w, steps) == Do(Do(Do(w, s0), s1), s2)
            && (LegalRun(w, steps) <==> Legal(w, s0) && Legal(Do(w, s0), s1) && Legal(Do(Do(w, s0), s1), s2))
  {
    var w1 := Do(w, s0);
    var w2 := Do(w1, s1);
    RunThen(w2, s2, Stop);
    RunThen(w1, s1, Then(s2, Stop));
    RunThen(w, s0, Then(s1, Then(s2, Stop)));
  }

  lemma EventStores(w: World, call: EventCall)
    requires !Handed(Status(w, EventId(call)))
    ensures Stored(Do(w, Event(call)).db, call.outbound, call.commands)
  {
    EventEffects(w.db, call, w.now);
  }

  lemma ResultStores(w: World, call: ResultCall)
    requires !Handed(Status(w, ResultId(call)))
    ensures Stored(Do(w, Result(call)).db, call.outbound, call.commands)
  {
    ResultEffects(w.db, call, w.now);
  }

  /** A step that keeps the takeover, and then the close. */
  lemma ClosedAfter(w: World, s: Step, id: string, slots: Slots)
    requires Handed(Status(w, id)) && !Closes(s, id)
    ensures !Handed(Status(Do(Do(w, s), IdleClose(id, slots)), id))
  {
    StepGuards(w, s, id);
    CloseLeaves(Do(w, s), IdleClose(id, slots), id);
  }

  lemma FetchedStays(w: World, s: Step)
    requires s.Event? || s.Result?
    ensures Do(w, s).idle == w.idle
  {
  }

  /** Three steps of which the second is the idle timer's, for a candidate that it has fetched. */
  lemma CloseBetween(w: World, s: Step, id: string, slots: Slots)
    requires (s.Event? || s.Result?) && id in w.idle
    ensures var steps := Then(s, Then(IdleClose(id, slots), Then(s, Stop)));
            LegalRun(w, steps) && Run(w, steps) == Do(Do(Do(w, s), IdleClose(id, slots)), s)
  {
    FetchedStays(w, s);
    Thrice(w, s, IdleClose(id, slots), s);
  }

  /** An event that was suspended and is delivered again after the idle timer's close stores all its rows after all. */
  lemma CloseLetsEventIn(w: World, call: EventCall, slots: Slots)
    requires Handed(Status(w, EventId(call))) && EventId(call) in w.idle
    ensures var steps := Then(Event(call), Then(IdleClose(EventId(call), slots), Then(Event(call), Stop)));
            LegalRun(w, steps) && AddsNothing(w, Event(call)) && Stored(Run(w, steps).db, call.outbound, call.commands)
  {
    var close := IdleClose(EventId(call), slots);
    EventAddsNothing(w, call);
    ClosedAfter(w, Event(call), EventId(call), slots);
    EventStores(Do(Do(w, Event(call)), close), call);
    CloseBetween(w, Event(call), EventId(call), slots);
  }

  /** So does a result. */
  lemma CloseLetsResultIn(w: World, call: ResultCall, slots: Slots)
    requires Handed(Status(w, ResultId(call))) && ResultId(call) in w.idle
    ensures var steps := Then(Result(call), Then(IdleClose(ResultId(call), slots), Then(Result(call), Stop)));
            LegalRun(w, steps) && AddsNothing(w, Result(call)) && Stored(Run(w, steps).db, call.outbound, call.commands)
  {
    var close := IdleClose(ResultId(call), slots);
    ResultAddsNothing(w, call);
    ClosedAfter(w, Result(call), ResultId(call), slots);
    ResultStores(Do(Do(w, Result(call)), close), call);
    CloseBetween(w, Result(call), ResultId(call), slots);
  }

  // ---- What a step leaves, in columns --------------------------------------------------------------------

  /** The latest message of the conversation is the assistant's. */
  ghost predicate AssistantSpokeLast(t: Messages, id: string) {
    exists k :: 0 <= k < |t| && t[k].conversation == id && t[k].role == "assistant"
                && forall j :: k < j < |t| ==> t[j].conversation != id
  }

  /** No command, result or outbound message of the conversation is still to be worked on. */
  ghost predicate Settled(db: Db, id: string) {
    && (forall k :: 0 <= k < |db.commands| && db.commands[k].conversation == id ==> db.commands[k].status.Closed?)
    && (forall k :: 0 <= k < |db.results| && db.results[k].conversation == id ==> db.results[k].status.Closed?)
    && (forall k :: 0 <= k < |db.outbound| && db.outbound[k].conversation == Some(id) ==>
          db.outbound[k].status != OutboundQueue.Pending && db.outbound[k].status != OutboundQueue.Retryable)
  }

  ghost predicate LeftToIdle(db: Db, id: string) {
    var i := RowOf(db.conversations, id);
    && i < |db.conversations| && db.conversations[i].status in {"AI_ACTIVE", "WAITING_EXTERNAL"}
    && db.conversations[i].workflow != Some("human_handoff") && AssistantSpokeLast(db.messages, id)
    && (db.conversations[i].status == "WAITING_EXTERNAL" ==> Settled(db, id))
  }

  lemma {:induction false} LatestRoleIs(t: Messages, id: string)
    ensures LatestRole(t, id) == Some("assistant") <==> AssistantSpokeLast(t, id)
  {
    if t != [] {
      var n := |t| - 1;
      LatestRoleIs(t[..n], id);
      if t[n].conversation != id {
        if AssistantSpokeLast(t[..n], id) {
          var k :| 0 <= k < n && t[..n][k].conversation == id && t[..n][k].role == "assistant"
                   && forall j :: k < j < n ==> t[..n][j].conversation != id;
          assert t[k].conversation == id;
        }
        if AssistantSpokeLast(t, id) {
          var k :| 0 <= k < |t| && t[k].conversation == id && t[k].role == "assistant"
                   && forall j :: k < j < |t| ==> t[j].conversation != id;
          assert t[..n][k].conversation == id;
        }
      } else {
        assert t[n].role == "assistant" ==> AssistantSpokeLast(t, id);
      }
    }
  }

  /** What the idle timer fetches. */
  lemma CandidateIff(db: Db, id: string)
    ensures IdleCandidate(db, id) <==> LeftToIdle(db, id)
  {
    RowOfIs(db.conversations, id);
    LatestRoleIs(db.messages, id);
  }

  ghost predicate Rewrites(t: Table, id: string, row: Conversation, now: int, u: Table) {
    IdleTimer.Rewritten(t, RowOf(t, id), row, now, u)
  }

  /** The conversation's row, if there is one. */
  ghost function OwnRow(w: World, id: string): Conversation {
    Before(w.db.conversations, id, "", w.now)
  }

  /** The tables that a step leaves alone. */
  ghost predicate Confined(w: World, s: Step, v: World) {
    var d, e := w.db, v.db;
    && v.now == (if s.Tick? then w.now + s.elapsed else w.now)
    && v.idle == (if s.FetchIdle? then w.idle + {s.id} else w.idle)
    && (s.Event? || s.Result? || s.RecordFailure? || s.GetOrCreate? || s.EnsureThread? || s.Activate? || s.Transferred?
        || s.IdleSlots? || s.IdleClose? || s.IdleHandoff? || e.conversations == d.conversations)
    && (s.Event? || s.Result? || s.AppendMessage? || e.messages == d.messages)
    && (s.Event? || s.Result? || s.CancelOutbound? || s.UpdateQueues? || e.outbound == d.outbound)
    && (s.Event? || s.Result? || s.CancelCommands? || s.IdleHandoff? || s.UpdateQueues? || e.commands == d.commands)
    && (s.Result? || s.CancelResults? || s.UpdateQueues? || e.results == d.results)
    && (s.Event? || s.UpdateQueues? || e.inbound == d.inbound)
    && (s.Event? || s.Result? || s.UpdateCases? || e.cases == d.cases)
  }

  /** What a step writes to the conversations. */
  ghost predicate WritesConversation(w: World, s: Step, v: World) {
    var t, u := w.db.conversations, v.db.conversations;
    match s
    case RecordFailure(id, failure) =>
      var row := OwnRow(w, id);
      var notes := if row.handoff.Some? then Json.Fields(row.handoff.value) else map[];
      if row.status == "HUMAN_ACTIVE" then u == t
      else Rewrites(t, id, row.(status := "HANDOFF_REQUESTED", workflow := Some("human_handoff"),
        stage := Some("handoff_requested"),
        handoff := Some(Json.Object(notes["failure" := failure]))),
        w.now, u)
    case GetOrCreate(id, chat, thread) => ConversationLeft(t, id, chat, thread, None, w.now, u)
    case EnsureThread(id, chat, thread) =>
      ConversationLeft(t, id, chat, if thread.Some? then thread else Before(t, id, chat, w.now).thread, None, w.now, u)
    case Activate(id, slots, handoff) =>
      Rewrites(t, id, OwnRow(w, id).(status := "HUMAN_ACTIVE", stage := Some("human_active"), slots := Some(slots),
        handoff := Some(handoff)), w.now, u)
    case Transferred(id) =>
      Rewrites(t, id, OwnRow(w, id).(status := "HUMAN_ACTIVE", workflow := Some("human_handoff"),
        stage := Some("transferred"), slots := Some(map[])), w.now, u)
    case IdleSlots(id, slots) => Rewrites(t, id, OwnRow(w, id).(slots := Some(slots)), w.now, u)
    case IdleClose(id, slots) => Rewrites(t, id, OwnRow(w, id).(status := "CLOSED", slots := Some(slots)), w.now, u)
    case _ => true
  }

  /** The idle timer's request for a human, with its command unless one of that key is stored. */
  ghost predicate Requests(w: World, id: string, thread: string, key: string, reason: string, notes: Slots, v: World) {
    var row, t, c := OwnRow(w, id), w.db.conversations, w.db.commands;
    var automated := row.status in {"AI_ACTIVE", "WAITING_EXTERNAL"} && row.workflow != Some("human_handoff");
    if RowOf(t, id) < |t| && automated then
      && Rewrites(t, id, row.(status := "HANDOFF_REQUESTED", workflow := Some("human_handoff"),
           stage := Some("handoff_requested"),
           slots := Some((if row.slots.Some? then row.slots.value else map[]) + notes)), w.now, v.db.conversations)
      && v.db.commands == c + if (forall k :: 0 <= k < |c| ==> c[k].dedupKey != key)
                              then [IdleTimer.Asks(id, thread, key, reason, w.now)] else []
    else v == w
  }

  ghost predicate Leaves(w: World, s: Step, v: World) {
    && Confined(w, s, v) && WritesConversation(w, s, v)
    && match s
       case Event(call) => Outcomes.EventLeaves(w.db, call, w.now, v.db, Outcomes.IsSkipped(w.db, call, w.now))
       case Result(call) => Outcomes.ResultLeft(w.db, call, w.now, v.db)
       case CancelOutbound(id) => OutboundRuns.Skips(w.db.outbound, id, v.db.outbound)
       case CancelCommands(id) => CommandTable.Skips(w.db.commands, id, v.db.commands)
       case CancelResults(id) => CommandTable.Skips(w.db.results, id, v.db.results)
       case IdleHandoff(id, thread, key, reason, notes) => Requests(w, id, thread, key, reason, notes, v)
       case UpdateCases(cases) => v.db.cases == cases
       case UpdateQueues(o, c, r, i) =>
         v.db.outbound == o && v.db.commands == c && v.db.results == r && v.db.inbound == i
       case AppendMessage(m) =>
         v.db.messages == w.db.messages
           + if (forall k :: 0 <= k < |w.db.messages| ==> !Outcomes.SAME_MESSAGE(w.db.messages[k], m)) then [m] else []
       case _ => true
  }

  lemma StepConfined(w: World, s: Step)
    ensures Confined(w, s, Do(w, s))
  {
    if s.Event? { EventShape(w.db, s.event, w.now); }
    if s.Result? { ResultShape(w.db, s.result, w.now); }
  }

  lemma ConversationWritten(w: World, s: Step)
    requires s.RecordFailure? || s.Activate? || s.Transferred? || s.IdleSlots? || s.IdleClose?
    ensures WritesConversation(w, s, Do(w, s))
  {
    RowOfIs(w.db.conversations, s.id);
  }

  lemma ThreadWritten(w: World, s: Step)
    requires s.GetOrCreate? || s.EnsureThread?
    ensures WritesConversation(w, s, Do(w, s))
  {
    RowOfIs(w.db.conversations, s.id);
    Outcomes.EnsuredLeft(w.db.conversations, s.id, s.chat,
                         if s.GetOrCreate? then s.thread else KeptThread(w.db.conversations, s.id, s.thread), w.now);
  }

  lemma MessageLeaves(w: World, s: Step)
    requires s.AppendMessage?
    ensures Leaves(w, s, Do(w, s))
  {
    forall k | 0 <= k < |w.db.messages|
      ensures Collide(w.db.messages[k], s.message) <==> Outcomes.SAME_MESSAGE(w.db.messages[k], s.message)
    {
      Outcomes.CollideIsClash(w.db.messages[k], s.message);
    }
  }

  lemma RequestRefused(w: World, id: string, thread: string, key: string, reason: string, notes: Slots)
    requires !IdleTimer.HandoffRequested(w.db.conversations, id, notes, w.now).1
    ensures Requests(w, id, thread, key, reason, notes, Do(w, IdleHandoff(id, thread, key, reason, notes)))
  {
    RowOfIs(w.db.conversations, id);
  }

  lemma RequestMade(w: World, id: string, thread: string, key: string, reason: string, notes: Slots)
    requires IdleTimer.HandoffRequested(w.db.conversations, id, notes, w.now).1
    ensures Requests(w, id, thread, key, reason, notes, Do(w, IdleHandoff(id, thread, key, reason, notes)))
  {
    RowOfIs(w.db.conversations, id);
  }

  lemma RequestLeaves(w: World, id: string, thread: string, key: string, reason: string, notes: Slots)
    ensures Requests(w, id, thread, key, reason, notes, Do(w, IdleHandoff(id, thread, key, reason, notes)))
  {
    if IdleTimer.HandoffRequested(w.db.conversations, id, notes, w.now).1 {
      RequestMade(w, id, thread, key, reason, notes);
    } else {
      RequestRefused(w, id, thread, key, reason, notes);
    }
  }

  /** Every step, in every column of every table. */
  lemma StepLeaves(w: World, s: Step)
    ensures Leaves(w, s, Do(w, s))
  {
    StepConfined(w, s);
    if s.Event? {
      Outcomes.EventOutcome(w.db, s.event, w.now);
    } else if s.Result? {
      Outcomes.ResultOutcome(w.db, s.result, w.now);
    } else if s.GetOrCreate? || s.EnsureThread? {
      ThreadWritten(w, s);
    } else if s.AppendMessage? {
      MessageLeaves(w, s);
    } else if s.IdleHandoff? {
      RequestLeaves(w, s.id, s.ownThread, s.key, s.reason, s.notes);
    } else if s.RecordFailure? || s.Activate? || s.Transferred? || s.IdleSlots? || s.IdleClose? {
      ConversationWritten(w, s);
    }
  }
}
