/** The idle timer of LiveChat conversations: three writes of `conversation_states`, of
    which only the handoff request looks at the status that it overwrites. */
module IdleTimer {
  import opened Base
  import opened Conversations
  import CommandTable
  import Json

  const CLOSED := "CLOSED"
  const WAITING_EXTERNAL := "WAITING_EXTERNAL"

  /** UPDATE conversation_states SET slot_memory = slots */
  function SlotsWritten(t: Table, id: string, slots: Slots, now: int): Table {
    var found := Find(t, id);
    if found.None? then t else t[found.value := Touched(t[found.value], t[found.value].(slots := Some(slots)), now)]
  }

  /** UPDATE conversation_states SET status = 'CLOSED', slot_memory = slots */
  function Closed(t: Table, id: string, slots: Slots, now: int): Table {
    var found := Find(t, id);
    if found.None? then t
    else t[found.value := Touched(t[found.value], t[found.value].(status := CLOSED, slots := Some(slots)), now)]
  }

  /** The statuses from which a failed AI reply may ask for a human. */
  predicate MayRequest(row: Conversation) {
    (row.status == AI_ACTIVE || row.status == WAITING_EXTERNAL) && row.workflow != Some("human_handoff")
  }

  /** The UPDATE of request_ai_failure_handoff, under the row lock; notes are added to the slots it has just read. */
  function HandoffRequested(t: Table, id: string, notes: Slots, now: int): (Table, bool) {
    var found := Find(t, id);
    if found.None? || !MayRequest(t[found.value]) then (t, false)
    else
      var row := t[found.value];
      (t[found.value := Touched(row, row.(status := HANDOFF_REQUESTED, workflow := Some("human_handoff"),
         stage := Some("handoff_requested"), slots := Some(SlotsOf(row) + notes)), now)], true)
  }

  /** The command that asks for the transfer, with a direct notice in place of an acknowledgement. */
  function HandoffCommand(id: string, thread: string, key: string, reason: string, now: int): CommandTable.Command {
    CommandTable.Command(id, thread, "human_handoff.requested", key, Json.Object(map[
      "reason" := Json.Text("ai_service_failure"), "source" := Json.Text("livechat_idle_timer"),
      "failure_reason" := Json.Text(reason), "operation" := Json.Text("livechat_idle_ai_failure_handoff"),
      "handoff_ack_mode" := Json.Text("direct_notice")]), CommandTable.Pending, 0, now, UNLOCKED)
  }

  /** The command's columns. */
  ghost function Asks(id: string, thread: string, key: string, reason: string, now: int): CommandTable.Command {
    CommandTable.Command(id, thread, "human_handoff.requested", key,
      Json.Object(map["reason" := Json.Text("ai_service_failure"), "source" := Json.Text("livechat_idle_timer"),
        "failure_reason" := Json.Text(reason), "operation" := Json.Text("livechat_idle_ai_failure_handoff"),
        "handoff_ack_mode" := Json.Text("direct_notice")]),
      CommandTable.Pending, 0, now, Lock(None, None))
  }

  /** One row is rewritten to the given columns, updated_at moves if that changes any, and no other row is touched. */
  ghost predicate Rewritten(t: Table, i: nat, row: Conversation, now: int, u: Table) {
    && |u| == |t| && (forall j :: 0 <= j < |t| && j != i ==> u[j] == t[j])
    && (i < |t| ==> u[i] == row.(touched := u[i].touched) && Stamped(t[i], u[i], now))
  }

  class LiveChatIdleTimerRepository {
    var rows: Table
    var commands: CommandTable.Table

    constructor (rows: Table, commands: CommandTable.Table)
      ensures this.rows == rows && this.commands == commands
    {
      this.rows, this.commands := rows, commands;
    }

    method UpdateSlotMemory(id: string, slots: Slots, now: int)
      modifies this`rows
      ensures rows == SlotsWritten(old(rows), id, slots, now)
      ensures |rows| == |old(rows)| && forall i :: 0 <= i < |rows| ==> rows[i].status == old(rows)[i].status
      ensures Rewritten(old(rows), RowOf(old(rows), id),
                        Before(old(rows), id, "", now).(slots := Some(slots)), now, rows)
    {
      RowOfIs(rows, id);
      var found := Find(rows, id);
      if found.Some? {
        rows := rows[found.value := Touched(rows[found.value], rows[found.value].(slots := Some(slots)), now)];
      }
    }

    /** Closes the conversation whatever its status is by now, a human's included. */
    method MarkClosed(id: string, slots: Slots, now: int)
      modifies this`rows
      ensures rows == Closed(old(rows), id, slots, now) && |rows| == |old(rows)|
      ensures Find(old(rows), id).Some? ==>
                var i := Find(old(rows), id).value;
                && rows[i].status == CLOSED && !Handed(rows[i].status) && rows[i].slots == Some(slots)
                && forall j :: 0 <= j < |rows| && j != i ==> rows[j] == old(rows)[j]
      ensures Rewritten(old(rows), RowOf(old(rows), id),
                        Before(old(rows), id, "", now).(status := "CLOSED", slots := Some(slots)), now, rows)
    {
      RowOfIs(rows, id);
      var found := Find(rows, id);
      if found.Some? {
        var row := rows[found.value];
        rows := rows[found.value := Touched(row, row.(status := CLOSED, slots := Some(slots)), now)];
      }
    }

    /** Asks for a human exactly while the conversation is still automated; one command at most, whatever is retried. */
    method RequestAiFailureHandoff(id: string, thread: string, key: string, reason: string, notes: Slots, now: int)
      returns (requested: bool)
      modifies this
      ensures (rows, requested) == HandoffRequested(old(rows), id, notes, now)
      ensures requested <==> Find(old(rows), id).Some? && MayRequest(old(rows)[Find(old(rows), id).value])
      ensures commands ==
                if requested then CommandTable.Inserted(old(commands), HandoffCommand(id, thread, key, reason, now))
                else old(commands)
      ensures !requested ==> rows == old(rows)
      ensures requested ==>
                var i := Find(old(rows), id).value;
                && rows[i].status == HANDOFF_REQUESTED && rows[i].slots == Some(SlotsOf(old(rows)[i]) + notes)
                && exists k :: 0 <= k < |commands| && commands[k].dedupKey == key
      ensures var i, row := RowOf(old(rows), id), Before(old(rows), id, "", now);
              var base := if row.slots.Some? then row.slots.value else map[];
              && (requested <==> i < |old(rows)| && row.status in {"AI_ACTIVE", "WAITING_EXTERNAL"}
                                 && row.workflow != Some("human_handoff"))
              && (requested ==>
                    && Rewritten(old(rows), i, row.(status := "HANDOFF_REQUESTED", workflow := Some("human_handoff"),
                         stage := Some("handoff_requested"), slots := Some(base + notes)), now, rows)
                    && ((exists k :: 0 <= k < |old(commands)| && old(commands)[k].dedupKey == key) ==>
                          commands == old(commands))
                    && ((forall k :: 0 <= k < |old(commands)| ==> old(commands)[k].dedupKey != key) ==>
                          commands == old(commands) + [Asks(id, thread, key, reason, now)]))
    {
      RowOfIs(rows, id);
      var found := Find(rows, id);
      if found.None? || !MayRequest(rows[found.value]) {
        return false;
      }
      var row := rows[found.value];
      rows := rows[found.value := Touched(row, row.(status := HANDOFF_REQUESTED, workflow := Some("human_handoff"),
                stage := Some("handoff_requested"), slots := Some(SlotsOf(row) + notes)), now)];
      var command := HandoffCommand(id, thread, key, reason, now);
      ghost var before := commands;
      if !exists k :: 0 <= k < |commands| && commands[k].dedupKey == key {
        commands := commands + [command];
        assert commands[|before|].dedupKey == key;
      }
      requested := true;
    }
  }
}
