/** The `conversation_states` table: one row per chat thread, a status guard that
    protects human handoffs, and a view that lets a fresh thread go on with the
    unfinished work of the chat's previous thread. */
module Conversations {
  import opened Base
  import opened Text
  import Json

  type Slots = map<string, Json.Value>

  /** touched is updated_at, which MySQL moves only when an UPDATE changes the row. */
  datatype Conversation = Conversation(
    id: string, chat: string, thread: Option<string>, status: string, workflow: Option<string>, stage: Option<string>,
    slots: Option<Slots>, handoff: Option<Json.Value>, touched: int)

  /** Rows in the order of their auto-increment ids. */
  type Table = seq<Conversation>

  const AI_ACTIVE := "AI_ACTIVE"
  const HANDOFF_REQUESTED := "HANDOFF_REQUESTED"
  const HUMAN_ACTIVE := "HUMAN_ACTIVE"

  predicate Handed(status: string) {
    status == HANDOFF_REQUESTED || status == HUMAN_ACTIVE
  }

  function ChatOf(chat: string): string {
    if chat == "" then "unknown" else chat
  }

  /** conversation_id_for_chat */
  function IdForChat(chat: string, thread: Option<string>): string {
    var suffix := if thread.Some? then Strip(thread.value) else "";
    if suffix != "" then "livechat:" + ChatOf(chat) + ":" + suffix else "livechat:" + ChatOf(chat)
  }

  function Find(t: Table, id: string): (r: Option<nat>)
    ensures r.Some? ==> r.value < |t| && t[r.value].id == id && forall j :: 0 <= j < r.value ==> t[j].id != id
    ensures r.None? ==> forall j :: 0 <= j < |t| ==> t[j].id != id
  {
    if t == [] then None
    else
      var earlier := Find(t[..|t| - 1], id);
      if earlier.Some? then earlier
      else if t[|t| - 1].id == id then Some(|t| - 1)
      else None
  }

  /** An UPDATE that changes nothing leaves updated_at alone. */
  function Touched(row: Conversation, changed: Conversation, now: int): Conversation {
    if changed.(touched := row.touched) == row then row else changed.(touched := now)
  }

  /** INSERT ... ON DUPLICATE KEY UPDATE current_thread_id = thread */
  function Ensured(t: Table, id: string, chat: string, thread: Option<string>, now: int): (r: Table)
    ensures Find(r, id).Some? && |t| <= |r|
    ensures Find(t, id).Some? ==> Find(r, id) == Find(t, id)
  {
    var found := Find(t, id);
    if found.None? then
      var r := t + [Conversation(id, chat, thread, AI_ACTIVE, None, None, None, None, now)];
      assert r[|t|].id == id;
      r
    else
      var i := found.value;
      var r := t[i := Touched(t[i], t[i].(thread := thread), now)];
      FindUnmoved(t, r, id);
      r
  }

  /** Statements that keep the ids keep every row where it is. */
  lemma FindUnmoved(t: Table, u: Table, id: string)
    requires |t| == |u| && forall i :: 0 <= i < |t| ==> t[i].id == u[i].id
    ensures Find(t, id) == Find(u, id)
  {
    var a, b := Find(t, id), Find(u, id);
    if a.Some? && b.Some? {
      assert !(a.value < b.value) && !(b.value < a.value);
    }
  }

  /** COALESCE(VALUES(current_thread_id), current_thread_id) */
  function KeptThread(t: Table, id: string, thread: Option<string>): Option<string> {
    var found := Find(t, id);
    if thread.None? && found.Some? then t[found.value].thread else thread
  }

  /** The INSERT of mark_human_active, which keeps the thread when the event has none. */
  function ThreadEnsured(t: Table, id: string, chat: string, thread: Option<string>, now: int): (r: Table)
    ensures Find(r, id).Some? && |t| <= |r|
  {
    Ensured(t, id, chat, KeptThread(t, id, thread), now)
  }

  // ---- Continuing the previous thread ------------------------------------------------------------

  /** The chat's other conversation that was updated last; ties go to the younger row. */
  function Previous(t: Table, chat: string, id: string): (r: Option<nat>)
    ensures r.Some? ==> r.value < |t| && t[r.value].chat == chat && t[r.value].id != id
    ensures r.Some? ==> forall j :: 0 <= j < |t| && t[j].chat == chat && t[j].id != id ==>
                          t[j].touched < t[r.value].touched || (t[j].touched == t[r.value].touched && j <= r.value)
    ensures r.None? ==> forall j :: 0 <= j < |t| ==> !(t[j].chat == chat && t[j].id != id)
  {
    if t == [] then None
    else
      var last := t[|t| - 1];
      var earlier := Previous(t[..|t| - 1], chat, id);
      if last.chat != chat || last.id == id then earlier
      else if earlier.Some? && t[earlier.value].touched > last.touched then earlier
      else Some(|t| - 1)
  }

  predicate Blank(text: Option<string>) {
    text.None? || text.value == ""
  }

  function SlotsOf(row: Conversation): Slots {
    if row.slots.Some? then row.slots.value else map[]
  }

  predicate Fresh(row: Conversation) {
    row.status == AI_ACTIVE && Blank(row.workflow) && Blank(row.stage) && SlotsOf(row) == map[]
  }

  /** `slots.get("telegram_case_resolved_at")` is truthy. */
  predicate Truthy(v: Json.Value) {
    match v
    case Null => false
    case Bool(flag) => flag
    case Number(number) => number != 0.0
    case Text(text) => text != ""
    case List(items) => items != []
    case Object(fields) => fields != map[]
  }

  predicate Continuable(row: Conversation) {
    var stage := if row.stage.Some? then row.stage.value else "";
    && row.status != "CLOSED" && !Handed(row.status)
    && stage != "completed"
    && !("telegram_case_resolved_at" in SlotsOf(row) && Truthy(SlotsOf(row)["telegram_case_resolved_at"]))
    && (row.status == "WAITING_EXTERNAL" || stage == "collecting_slots" || stage == "waiting_backend" ||
        stage == "backend_querying" || stage == "lookup_pending_reply")
  }

  const CONTINUATION := "previous_thread_continuation"

  function OptionalText(text: Option<string>): Json.Value {
    if text.Some? then Json.Text(text.value) else Json.Null
  }

  function InheritedSlots(previous: Conversation): Slots {
    SlotsOf(previous)[CONTINUATION := Json.Object(map[
      "conversation_id" := Json.Text(previous.id), "thread_id" := OptionalText(previous.thread),
      "active_workflow" := OptionalText(previous.workflow), "workflow_stage" := OptionalText(previous.stage),
      "status" := Json.Text(previous.status)])]
  }

  predicate HasThread(thread: Option<string>) {
    thread.Some? && thread.value != ""
  }

  /** _inherit_unfinished_thread_state: in memory only. */
  function Inherited(current: Conversation, previous: Conversation): Conversation {
    if Fresh(current) && Continuable(previous)
    then current.(status := if previous.status != "" then previous.status else current.status,
                  workflow := previous.workflow, stage := previous.stage, slots := Some(InheritedSlots(previous)))
    else current
  }

  /** The conversation as get_or_create returns it. */
  function View(t: Table, i: nat, chat: string, thread: Option<string>): Conversation
    requires i < |t|
  {
    var previous := if HasThread(thread) then Previous(t, chat, t[i].id) else None;
    if previous.Some? then Inherited(t[i], t[previous.value]) else t[i]
  }

  // ---- The view, in columns ----------------------------------------------------------------------

  ghost predicate Empty(text: Option<string>) {
    text == None || text == Some("")
  }

  /** A new automated thread: nothing was begun in it. */
  ghost predicate Untouched(row: Conversation) {
    && row.status == "AI_ACTIVE" && Empty(row.workflow) && Empty(row.stage)
    && (row.slots == None || row.slots == Some(map[]))
  }

  /** Work was begun, is neither done nor closed nor with a human, and waits for a customer or a backend. */
  ghost predicate Unfinished(row: Conversation) {
    && row.status !in {"CLOSED", "HUMAN_ACTIVE", "HANDOFF_REQUESTED"} && row.stage != Some("completed")
    && (row.slots.Some? && "telegram_case_resolved_at" in row.slots.value ==>
          row.slots.value["telegram_case_resolved_at"] in
            {Json.Null, Json.Bool(false), Json.Number(0.0), Json.Text(""), Json.List([]), Json.Object(map[])})
    && (row.status == "WAITING_EXTERNAL"
        || (row.stage.Some? && row.stage.value in
              {"collecting_slots", "waiting_backend", "backend_querying", "lookup_pending_reply"}))
  }

  /** The chat's other conversation that was updated last; of several, the youngest row. */
  ghost predicate LastOther(t: Table, chat: string, id: string, p: nat) {
    && p < |t| && t[p].chat == chat && t[p].id != id
    && forall j: nat :: j < |t| && t[j].chat == chat && t[j].id != id && j != p ==>
         t[j].touched < t[p].touched || (t[j].touched == t[p].touched && j < p)
  }

  /** own goes on with the work of the previous thread, whose columns it notes in its slots. */
  ghost predicate GoesOn(own: Conversation, previous: Conversation, view: Conversation) {
    && view == own.(status := view.status, workflow := previous.workflow, stage := previous.stage, slots := view.slots)
    && view.status == (if previous.status == "" then own.status else previous.status)
    && view.slots.Some? && "previous_thread_continuation" in view.slots.value
    && (forall key :: key != "previous_thread_continuation" ==>
          Entry(view.slots.value, key) == Entry(if previous.slots.Some? then previous.slots.value else map[], key))
    && var note := view.slots.value["previous_thread_continuation"];
       && Json.Field(note, "conversation_id") == Some(Json.Text(previous.id))
       && Json.Field(note, "thread_id") == Some(TextOrNull(previous.thread))
       && Json.Field(note, "active_workflow") == Some(TextOrNull(previous.workflow))
       && Json.Field(note, "workflow_stage") == Some(TextOrNull(previous.stage))
       && Json.Field(note, "status") == Some(Json.Text(previous.status))
  }

  ghost function Entry(slots: Slots, key: string): Option<Json.Value> {
    if key in slots then Some(slots[key]) else None
  }

  ghost function TextOrNull(text: Option<string>): Json.Value {
    match text
    case Some(value) => Json.Text(value)
    case None => Json.Null
  }

  /** What get_or_create shows of row i: a new thread goes on with the unfinished work of the chat's last one. */
  ghost predicate Shown(t: Table, i: nat, chat: string, thread: Option<string>, view: Conversation)
    requires i < |t|
  {
    if p: nat :| LastOther(t, chat, t[i].id, p) && !Empty(thread) && Untouched(t[i]) && Unfinished(t[p])
    then GoesOn(t[i], t[p], view) else view == t[i]
  }

  lemma FreshIff(row: Conversation)
    ensures Fresh(row) <==> Untouched(row)
    ensures Continuable(row) <==> Unfinished(row)
  {
  }

  lemma InheritedGoesOn(own: Conversation, previous: Conversation)
    requires Untouched(own) && Unfinished(previous)
    ensures GoesOn(own, previous, Inherited(own, previous))
  {
  }

  lemma LastOtherIs(t: Table, chat: string, id: string, p: nat)
    ensures LastOther(t, chat, id, p) <==> Previous(t, chat, id) == Some(p)
  {
  }

  lemma ViewShown(t: Table, i: nat, chat: string, thread: Option<string>)
    requires i < |t|
    ensures Shown(t, i, chat, thread, View(t, i, chat, thread))
  {
    var previous := Previous(t, chat, t[i].id);
    forall p: nat ensures LastOther(t, chat, t[i].id, p) <==> previous == Some(p) { LastOtherIs(t, chat, t[i].id, p); }
    FreshIff(t[i]);
    if previous.Some? {
      FreshIff(t[previous.value]);
      if Fresh(t[i]) && Continuable(t[previous.value]) { InheritedGoesOn(t[i], t[previous.value]); }
    }
  }

  /** Inheriting never makes a conversation look handed over, or hides that it is. */
  lemma ViewKeepsHandoff(t: Table, i: nat, chat: string, thread: Option<string>)
    requires i < |t|
    ensures Handed(View(t, i, chat, thread).status) <==> Handed(t[i].status)
  {
  }

  // ---- The status guard ---------------------------------------------------------------------------

  /** The columns that a graph run wants to write; status and handoff_state keep their value when None. */
  datatype GraphState = GraphState(
    status: Option<string>, workflow: Option<string>, stage: Option<string>, slots: Option<Slots>,
    deleteKeys: set<string>, handoff: Option<Json.Value>, caseUpdate: Option<(nat, string)>)

  /** `status NOT IN (handoff states) OR new status IN (handoff states)`, with SQL's NULL for a missing new status. */
  predicate Admits(row: Conversation, status: Option<string>) {
    !Handed(row.status) || (status.Some? && Handed(status.value))
  }

  function Written(row: Conversation, g: GraphState): Conversation {
    row.(status := if g.status.Some? then g.status.value else row.status,
         workflow := g.workflow, stage := g.stage,
         slots := Some(if g.slots.Some? then g.slots.value else map[]),
         handoff := if g.handoff.Some? then g.handoff else row.handoff)
  }

  /** update_workflow_state_on_connection: the table and whether the state was applied. */
  function WorkflowUpdated(t: Table, id: string, g: GraphState, now: int): (Table, bool) {
    var found := Find(t, id);
    if found.None? then (t, false)
    else
      var i := found.value;
      if Admits(t[i], g.status) then (t[i := Touched(t[i], Written(t[i], g), now)], true) else (t, false)
  }

  function HandoffOf(row: Conversation): Slots {
    if row.handoff.Some? then Json.Fields(row.handoff.value) else map[]
  }

  function FailureRecorded(t: Table, id: string, failure: Json.Value, now: int): (Table, bool) {
    var found := Find(t, id);
    if found.None? || t[found.value].status == HUMAN_ACTIVE then (t, false)
    else
      var row := t[found.value];
      var handoff := HandoffOf(row)["failure" := failure];
      (t[found.value := Touched(row, row.(status := HANDOFF_REQUESTED, workflow := Some("human_handoff"),
         stage := Some("handoff_requested"), handoff := Some(Json.Object(handoff))), now)], true)
  }

  /** The UPDATE of mark_human_active, with the slot memory and handoff state that the worker read before. */
  function HumanActivated(t: Table, id: string, slots: Slots, handoff: Json.Value, now: int): Table {
    var found := Find(t, id);
    if found.None? then t
    else
      var row := t[found.value];
      t[found.value := Touched(row, row.(status := HUMAN_ACTIVE, stage := Some("human_active"), slots := Some(slots),
        handoff := Some(handoff)), now)]
  }

  /** The guard alone lets a conversation that a human has taken over go back to HANDOFF_REQUESTED. */
  lemma GuardIsNotAbsorbing(now: int)
    ensures var row := Conversation("c", "chat", None, HUMAN_ACTIVE, None, None, None, None, 0);
            var g := GraphState(Some(HANDOFF_REQUESTED), None, None, None, {}, None, None);
            var v := WorkflowUpdated([row], "c", g, now);
            v.1 && v.0[0].status == HANDOFF_REQUESTED
  {
    var row := Conversation("c", "chat", None, HUMAN_ACTIVE, None, None, None, None, 0);
    assert Find([row], "c") == Some(0);
  }

  /** Exactly: an update of a HUMAN_ACTIVE row leaves it HUMAN_ACTIVE unless it writes HANDOFF_REQUESTED. */
  lemma GuardKeepsHumanIff(t: Table, id: string, g: GraphState, now: int)
    requires Find(t, id).Some? && t[Find(t, id).value].status == HUMAN_ACTIVE
    ensures var i := Find(t, id).value;
            var u := WorkflowUpdated(t, id, g, now).0;
            |u| == |t| && (u[i].status == HUMAN_ACTIVE <==> g.status != Some(HANDOFF_REQUESTED))
  {
    var i := Find(t, id).value;
    if Admits(t[i], g.status) {
      assert WorkflowUpdated(t, id, g, now).0[i].status == Written(t[i], g).status;
    }
  }

  // ---- What a write leaves of a row, in columns ---------------------------------------------------

  ghost predicate IsHanded(row: Conversation) {
    row.status == "HANDOFF_REQUESTED" || row.status == "HUMAN_ACTIVE"
  }

  /** The conversation's row. */
  ghost predicate IsRow(t: Table, id: string, i: nat) {
    i < |t| && t[i].id == id && forall j :: 0 <= j < i ==> t[j].id != id
  }

  /** The position of a conversation's row, existing or to be created. */
  ghost function RowOf(t: Table, id: string): nat {
    if i: nat :| IsRow(t, id, i) then i else |t|
  }

  /** The conversation's row before a statement, or the row that it creates. */
  ghost function Before(t: Table, id: string, chat: string, now: int): Conversation {
    if RowOf(t, id) < |t| then t[RowOf(t, id)]
    else Conversation(id, chat, None, "AI_ACTIVE", None, None, None, None, now)
  }

  /** updated_at moves exactly if any other column does. */
  ghost predicate Stamped(before: Conversation, after: Conversation, now: int) {
    after.touched == if after.(touched := before.touched) == before then before.touched else now
  }

  /** The thread is the caller's; a graph state sets workflow, stage and slots, and the status and handoff_state that it
      names. */
  ghost predicate RowLeft(before: Conversation, thread: Option<string>, g: Option<GraphState>, now: int,
                          after: Conversation)
  {
    && after.id == before.id && after.chat == before.chat && after.thread == thread && Stamped(before, after, now)
    && (g.None? ==> after == before.(thread := thread, touched := after.touched))
    && (g.Some? ==>
          && after.workflow == g.value.workflow && after.stage == g.value.stage
          && after.slots == Some(if g.value.slots.Some? then g.value.slots.value else map[])
          && after.status == (if g.value.status.Some? then g.value.status.value else before.status)
          && after.handoff == (if g.value.handoff.Some? then g.value.handoff else before.handoff))
  }

  /** The row of one conversation is there and written, and no other row is touched. */
  ghost predicate ConversationLeft(t: Table, id: string, chat: string, thread: Option<string>, g: Option<GraphState>,
                                   now: int, u: Table)
  {
    var i := RowOf(t, id);
    && |u| == (if i < |t| then |t| else |t| + 1) && (forall j :: 0 <= j < |t| && j != i ==> u[j] == t[j])
    && RowLeft(Before(t, id, chat, now), thread, g, now, u[i])
  }

  /** A field of the handoff state, if there is one. */
  ghost function NoteOf(handoff: Option<Json.Value>, key: string): Option<Json.Value> {
    if handoff.Some? then Json.Field(handoff.value, key) else None
  }

  lemma RowOfIs(t: Table, id: string)
    ensures RowOf(t, id) == if Find(t, id).Some? then Find(t, id).value else |t|
  {
    if Find(t, id).Some? {
      var i := Find(t, id).value;
      assert IsRow(t, id, i);
    }
  }

  /** A human takes over: the row, existing or new, keeps its slots and gets the detection into its handoff_state. */
  ghost predicate TakenOver(t: Table, id: string, chat: string, thread: Option<string>, detected: Slots, now: int,
                            u: Table)
  {
    var i, row := RowOf(t, id), Before(t, id, chat, now);
    && |u| == (if i < |t| then |t| else |t| + 1) && (forall j :: 0 <= j < |t| && j != i ==> u[j] == t[j])
    && u[i].handoff.Some? && Stamped(row, u[i], now)
    && u[i] == row.(thread := if thread.Some? then thread else row.thread, status := "HUMAN_ACTIVE",
         stage := Some("human_active"), slots := Some(if row.slots.Some? then row.slots.value else map[]),
         handoff := u[i].handoff, touched := u[i].touched)
    && forall key :: Json.Field(u[i].handoff.value, key) ==
         if key in detected then Some(detected[key]) else NoteOf(row.handoff, key)
  }

  lemma HumanTakesOver(t: Table, id: string, chat: string, thread: Option<string>, detected: Slots, now: int)
    ensures var t1 := ThreadEnsured(t, id, chat, thread, now);
            var row := t1[Find(t1, id).value];
            TakenOver(t, id, chat, thread, detected, now,
                      HumanActivated(t1, id, SlotsOf(row), Json.Object(HandoffOf(row) + detected), now))
  {
    var t1 := ThreadEnsured(t, id, chat, thread, now);
    RowOfIs(t, id);
    assert Find(t1, id) == Some(RowOf(t, id));
    var row := t1[Find(t1, id).value];
    HandoffOverlaid(row.handoff, detected);
  }

  lemma HandoffOverlaid(handoff: Option<Json.Value>, detected: Slots)
    ensures forall key ::
              Json.Field(Json.Object((if handoff.Some? then Json.Fields(handoff.value) else map[]) + detected), key) ==
              if key in detected then Some(detected[key]) else NoteOf(handoff, key)
  {
  }

  class ConversationRepository {
    var rows: Table

    constructor ()
      ensures rows == []
    {
      rows := [];
    }

    /** INSERT ... ON DUPLICATE KEY UPDATE current_thread_id, which never touches a status or a slot. */
    method EnsureRow(id: string, chat: string, thread: Option<string>, now: int)
      modifies this
      ensures rows == Ensured(old(rows), id, chat, thread, now) && Find(rows, id).Some?
      ensures forall i :: 0 <= i < |old(rows)| ==>
                rows[i].status == old(rows)[i].status && rows[i].slots == old(rows)[i].slots
      ensures ConversationLeft(old(rows), id, chat, thread, None, now, rows)
    {
      RowOfIs(rows, id);
      var found := Find(rows, id);
      if found.None? {
        rows := rows + [Conversation(id, chat, thread, AI_ACTIVE, None, None, None, None, now)];
      } else {
        rows := rows[found.value := Touched(rows[found.value], rows[found.value].(thread := thread), now)];
      }
    }

    /** Creates or rebinds the row, and returns it with the unfinished work of the chat's previous thread. */
    method GetOrCreate(chat: string, thread: Option<string>, now: int) returns (view: Conversation)
      modifies this
      ensures rows == Ensured(old(rows), IdForChat(chat, thread), chat, thread, now)
      ensures var i := Find(rows, IdForChat(chat, thread)).value;
              view == View(rows, i, chat, thread) && (Handed(view.status) <==> Handed(rows[i].status))
      ensures ConversationLeft(old(rows), IdForChat(chat, thread), chat, thread, None, now, rows)
      ensures Shown(rows, RowOf(old(rows), IdForChat(chat, thread)), chat, thread, view)
    {
      RowOfIs(rows, IdForChat(chat, thread));
      var id := IdForChat(chat, thread);
      EnsureRow(id, chat, thread, now);
      var i := Find(rows, id).value;
      ViewKeepsHandoff(rows, i, chat, thread);
      ViewShown(rows, i, chat, thread);
      var previous := if HasThread(thread) then Previous(rows, chat, id) else None;
      view := if previous.Some? then Inherited(rows[i], rows[previous.value]) else rows[i];
    }

    method UpdateWorkflowState(id: string, g: GraphState, now: int) returns (applied: bool)
      modifies this
      ensures (rows, applied) == WorkflowUpdated(old(rows), id, g, now)
      ensures !applied ==> rows == old(rows)
      ensures applied ==> |rows| == |old(rows)| && forall i :: 0 <= i < |rows| ==>
                Handed(old(rows)[i].status) ==> Handed(rows[i].status)
      ensures applied <==>
                var i := RowOf(old(rows), id);
                && i < |old(rows)|
                && (IsHanded(old(rows)[i]) ==> g.status in {Some("HANDOFF_REQUESTED"), Some("HUMAN_ACTIVE")})
      ensures applied ==>
                ConversationLeft(old(rows), id, "", old(rows)[RowOf(old(rows), id)].thread, Some(g), now, rows)
    {
      RowOfIs(rows, id);
      var found := Find(rows, id);
      applied := found.Some? && Admits(rows[found.value], g.status);
      if applied {
        rows := rows[found.value := Touched(rows[found.value], Written(rows[found.value], g), now)];
      }
    }

    /** Records why a handoff failed, unless a human already has the conversation. */
    method RecordHandoffFailure(id: string, failure: Json.Value, now: int) returns (recorded: bool)
      modifies this
      ensures (rows, recorded) == FailureRecorded(old(rows), id, failure, now)
      ensures !recorded ==> rows == old(rows)
      ensures recorded <==> Find(old(rows), id).Some? && old(rows)[Find(old(rows), id).value].status != HUMAN_ACTIVE
      ensures |rows| == |old(rows)| && forall i :: 0 <= i < |rows| && old(rows)[i].status == HUMAN_ACTIVE ==>
                rows[i] == old(rows)[i]
      ensures recorded ==>
                var i := Find(old(rows), id).value;
                && rows[i].status == HANDOFF_REQUESTED && rows[i].stage == Some("handoff_requested")
                && rows[i].workflow == Some("human_handoff") && rows[i].slots == old(rows)[i].slots
                && rows[i].handoff.Some? && Json.Field(rows[i].handoff.value, "failure") == Some(failure)
      ensures recorded ==>
                var i, row := RowOf(old(rows), id), Before(old(rows), id, "", now);
                && i < |rows| && Stamped(row, rows[i], now)
                && (forall j :: 0 <= j < |rows| && j != i ==> rows[j] == old(rows)[j])
                && rows[i] == row.(status := "HANDOFF_REQUESTED", workflow := Some("human_handoff"),
                     stage := Some("handoff_requested"), handoff := rows[i].handoff, touched := rows[i].touched)
                && forall key :: key != "failure" ==> Json.Field(rows[i].handoff.value, key) == NoteOf(row.handoff, key)
    {
      RowOfIs(rows, id);
      var found := Find(rows, id);
      if found.None? || rows[found.value].status == HUMAN_ACTIVE {
        return false;
      }
      var row := rows[found.value];
      var handoff := HandoffOf(row)["failure" := failure];
      rows := rows[found.value := Touched(row, row.(status := HANDOFF_REQUESTED, workflow := Some("human_handoff"),
                stage := Some("handoff_requested"), handoff := Some(Json.Object(handoff))), now)];
      recorded := true;
    }

    /** mark_human_active when nothing runs between its statements: the INSERT, the read and the UPDATE. */
    method MarkHumanActive(chat: string, thread: Option<string>, detected: Slots, now: int)
      modifies this
      ensures var id := IdForChat(chat, thread);
              var t := ThreadEnsured(old(rows), id, ChatOf(chat), thread, now);
              var row := t[Find(t, id).value];
              && rows == HumanActivated(t, id, SlotsOf(row), Json.Object(HandoffOf(row) + detected), now)
              && |rows| == |t| && rows[Find(t, id).value].status == HUMAN_ACTIVE
              && rows[Find(t, id).value].slots == Some(SlotsOf(row))
      ensures var name := if chat == "" then "unknown" else chat;
              TakenOver(old(rows), IdForChat(chat, thread), name, thread, detected, now, rows)
    {
      HumanTakesOver(rows, IdForChat(chat, thread), ChatOf(chat), thread, detected, now);
      var id := IdForChat(chat, thread);
      var kept := KeptThread(rows, id, thread);
      EnsureRow(id, ChatOf(chat), kept, now);
      var i := Find(rows, id).value;
      var row := rows[i];
      var active := row.(status := HUMAN_ACTIVE, stage := Some("human_active"), slots := Some(SlotsOf(row)),
                         handoff := Some(Json.Object(HandoffOf(row) + detected)));
      rows := rows[i := Touched(row, active, now)];
    }
  }
}
