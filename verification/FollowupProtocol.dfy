/** The at-most-once protocol that sends a customer follow-up to Telegram: reserve,
    mark sending, send, record.  Several workers run it for commands that may be
    leased again at any time, crash anywhere and lose their answers. */
module FollowupProtocol {
  import opened Base
  import opened FollowupTable
  import CommandTable
  import Json

  const REMIND := "telegram.remind_case"

  /** What the Telegram call did: 429 means not delivered, any other error leaves it open. */
  datatype Answer = Accepted | TooManyRequests | Broken(delivered: bool)

  /** How the command row is left: a closing status, or one more recorded failure. */
  datatype Mark = Close(name: string) | Retry

  datatype Phase =
    | Leased
    | Chosen(row: nat)
    | Marked(row: nat)
    | Answered(row: nat, answer: Answer)
    | Finishing(mark: Mark)
    | Over

  /** One worker working on one grant of a command, with the command fields it copied at the grant. */
  datatype Attempt = Attempt(command: nat, conversation: string, caseId: Option<nat>, thread: string, phase: Phase)

  /** deliveries: the Telegram messages that arrived, by case and source thread.
      holder: for each command, the attempt that was granted it last. */
  datatype World = World(
    commands: CommandTable.Table, followups: Table, attempts: seq<Attempt>, holder: map<nat, nat>,
    deliveries: multiset<(nat, string)>, now: int)

  datatype Step =
    | Lease(command: nat, worker: string, seconds: int)
    | Skip(attempt: nat, name: string)
    | Reserve(attempt: nat)
    | Cancel(attempt: nat)
    | MarkSending(attempt: nat)
    | Send(attempt: nat, answer: Answer)
    | Record(attempt: nat)
    | RecordFails(attempt: nat)
    | Finish(attempt: nat)
    | Throw(attempt: nat)
    | Crash(attempt: nat)
    | Other(step: CommandTable.Step)

  function CaseOf(payload: Json.Value): Option<nat> {
    var field := Json.Field(payload, "telegram_case_id");
    if field.Some? && field.value.Number? && field.value.number >= 0.0 then Some(field.value.number.Floor) else None
  }

  predicate Active(w: World, a: nat) {
    a < |w.attempts| && !w.attempts[a].phase.Over?
  }

  predicate Legal(w: World, s: Step) {
    match s
    case Lease(c, _, _) => CommandTable.Leasable(w.commands, w.now, c) && w.commands[c].kind == REMIND
    case Skip(a, _) => Active(w, a) && w.attempts[a].phase.Leased?
    case Reserve(a) =>
      Active(w, a) && w.attempts[a].phase.Leased? && w.attempts[a].caseId.Some? && w.attempts[a].thread != ""
    case Cancel(a) => Active(w, a) && w.attempts[a].phase.Chosen?
    case MarkSending(a) => Active(w, a) && w.attempts[a].phase.Chosen?
    case Send(a, _) => Active(w, a) && w.attempts[a].phase.Marked?
    case Record(a) => Active(w, a) && w.attempts[a].phase.Answered?
    case RecordFails(a) => Active(w, a) && w.attempts[a].phase.Answered? && w.attempts[a].phase.answer.Accepted?
    case Finish(a) => Active(w, a) && w.attempts[a].phase.Finishing?
    case Throw(a) => Active(w, a) && !w.attempts[a].phase.Marked?
    case Crash(a) => Active(w, a)
    case Other(step) => !step.Lease? && CommandTable.Legal(CommandTable.World(w.commands, w.now), step)
  }

  function Moved(w: World, a: nat, phase: Phase): World
    requires a < |w.attempts|
  {
    w.(attempts := w.attempts[a := w.attempts[a].(phase := phase)])
  }

  function Granted(w: World, c: nat, worker: string, seconds: int): World
    requires c < |w.commands|
  {
    var row := w.commands[c];
    w.(commands := CommandTable.Stamped(w.commands, [c], Grant(worker, w.now + seconds)),
       attempts := w.attempts + [Attempt(c, row.conversation, CaseOf(row.payload), row.thread, Leased)],
       holder := w.holder[c := |w.attempts|])
  }

  predicate Taken(row: Followup, command: nat) {
    row.status == Delivered || row.status == Uncertain || row.status == Sending || row.command != command
  }

  /** reserve_followup, and the two duplicate checks the worker makes on its answer; a second row for the command
      violates a unique key, and the exception counts as a failure. */
  function AfterReserve(w: World, a: nat): World
    requires a < |w.attempts| && w.attempts[a].caseId.Some?
  {
    var me := w.attempts[a];
    var found := Find(w.followups, me.caseId.value, me.thread);
    if found.None? && CommandUsed(w.followups, me.command) then Moved(w, a, Finishing(Retry))
    else if found.None? then
      var row := ReservedRow(w.followups, me.command, me.caseId.value, me.conversation, me.thread);
      Moved(w, a, Chosen(|w.followups|)).(followups := w.followups + [row])
    else if Taken(w.followups[found.value], me.command) then Moved(w, a, Finishing(Close("SENT")))
    else Moved(w, a, Chosen(found.value))
  }

  function Pair(t: Table, i: nat): (nat, string)
    requires i < |t|
  {
    (t[i].caseId, t[i].thread)
  }

  function AfterSend(w: World, a: nat, answer: Answer): World
    requires a < |w.attempts| && w.attempts[a].phase.Marked?
  {
    var row := w.attempts[a].phase.row;
    var v := Moved(w, a, Answered(row, answer));
    if row < |w.followups| && (answer.Accepted? || (answer.Broken? && answer.delivered))
    then v.(deliveries := w.deliveries[Pair(w.followups, row) := w.deliveries[Pair(w.followups, row)] + 1])
    else v
  }

  /** record_followup_sent, or the handler of a failed call. */
  function AfterRecord(w: World, a: nat): World
    requires a < |w.attempts| && w.attempts[a].phase.Answered?
  {
    var row := w.attempts[a].phase.row;
    match w.attempts[a].phase.answer
    case Accepted => Moved(w, a, Finishing(Close("SENT"))).(followups := Settled(w.followups, row, Delivered))
    case TooManyRequests => Moved(w, a, Finishing(Retry)).(followups := Settled(w.followups, row, Reserved))
    case Broken(_) => AfterUncertain(w, a)
  }

  function AfterUncertain(w: World, a: nat): World
    requires a < |w.attempts| && w.attempts[a].phase.Answered?
  {
    Moved(w, a, Finishing(Close("FAILED_DELIVERY_UNCERTAIN"))).(
      followups := Settled(w.followups, w.attempts[a].phase.row, Uncertain))
  }

  function AfterFinish(w: World, a: nat, maxRetries: int): World
    requires a < |w.attempts| && w.attempts[a].phase.Finishing?
  {
    var c := w.attempts[a].command;
    Moved(w, a, Over).(commands :=
      match w.attempts[a].phase.mark
      case Close(name) => CommandTable.Marked(w.commands, c, CommandTable.Closed(name))
      case Retry => CommandTable.ProcessingFailed(w.commands, c, maxRetries))
  }

  function Do(w: World, s: Step, maxRetries: int): World
    requires Legal(w, s)
  {
    match s
    case Lease(c, worker, seconds) => Granted(w, c, worker, seconds)
    case Skip(a, name) => Moved(w, a, Finishing(Close(name)))
    case Reserve(a) => AfterReserve(w, a)
    case Cancel(a) =>
      Moved(w, a, Finishing(Close("SENT"))).(followups := Settled(w.followups, w.attempts[a].phase.row, Canceled))
    case MarkSending(a) =>
      Moved(w, a, Marked(w.attempts[a].phase.row)).(followups := Settled(w.followups, w.attempts[a].phase.row, Sending))
    case Send(a, answer) => AfterSend(w, a, answer)
    case Record(a) => AfterRecord(w, a)
    case RecordFails(a) => AfterUncertain(w, a)
    case Finish(a) => AfterFinish(w, a, maxRetries)
    case Throw(a) => Moved(w, a, Finishing(Retry))
    case Crash(a) => Moved(w, a, Over)
    case Other(step) =>
      var v := CommandTable.Do(CommandTable.World(w.commands, w.now), step, maxRetries);
      w.(commands := v.table, now := v.now)
  }

  /** The command has not been granted to a later attempt. */
  predicate Holds(w: World, a: nat) {
    a < |w.attempts| && w.attempts[a].command in w.holder && w.holder[w.attempts[a].command] == a
  }

  predicate LegalRun(w: World, steps: Script<Step>, maxRetries: int)
    decreases steps
  {
    match steps
    case Stop => true
    case Then(s, rest) => Legal(w, s) && LegalRun(Do(w, s, maxRetries), rest, maxRetries)
  }

  function Run(w: World, steps: Script<Step>, maxRetries: int): World
    requires LegalRun(w, steps, maxRetries)
    decreases steps
  {
    match steps
    case Stop => w
    case Then(s, rest) => Run(Do(w, s, maxRetries), rest, maxRetries)
  }

  function Start(commands: CommandTable.Table, now: int): World {
    World(commands, [], [], map[], multiset{}, now)
  }

  // ---- The invariant ---------------------------------------------------------------------------

  predicate HasRow(p: Phase) {
    p.Chosen? || p.Marked? || p.Answered?
  }

  /** Between marking the row and settling it. */
  predicate Flying(p: Phase) {
    p.Marked? || p.Answered?
  }

  predicate Undelivered(p: Phase) {
    p.Marked? || (p.Answered? && (p.answer.TooManyRequests? || p.answer == Broken(false)))
  }

  predicate Untried(row: Followup) {
    row.status == Reserved || row.status == Canceled
  }

  /** A row in flight is marked sending, and its message is counted exactly when it arrived. */
  predicate AttemptSound(w: World, a: nat) {
    a < |w.attempts| && HasRow(w.attempts[a].phase) ==>
      var p := w.attempts[a].phase;
      && p.row < |w.followups| && w.followups[p.row].command == w.attempts[a].command
      && (Flying(p) ==> w.followups[p.row].status == Sending)
      && (Flying(p) ==> w.deliveries[Pair(w.followups, p.row)] == if Undelivered(p) then 0 else 1)
  }

  predicate FlyingOn(w: World, a: nat, r: nat) {
    a < |w.attempts| && Flying(w.attempts[a].phase) && w.attempts[a].phase.row == r
  }

  predicate Apart(w: World, a: nat, b: nat) {
    a != b && a < |w.attempts| && b < |w.attempts| && Flying(w.attempts[a].phase) && Flying(w.attempts[b].phase) ==>
      w.attempts[a].phase.row != w.attempts[b].phase.row
  }

  predicate RowSound(w: World, i: nat) {
    i < |w.followups| ==>
      && w.deliveries[Pair(w.followups, i)] <= 1
      && (Untried(w.followups[i]) ==> w.deliveries[Pair(w.followups, i)] == 0)
      && (w.followups[i].status == Delivered ==> w.deliveries[Pair(w.followups, i)] == 1)
  }

  ghost predicate Known(t: Table, pair: (nat, string)) {
    exists i :: 0 <= i < |t| && Pair(t, i) == pair
  }

  /** Every row has at most one sender, and the deliveries belong to the rows. */
  ghost predicate Safe(w: World) {
    && OneRowPerThread(w.followups)
    && (forall a: nat :: AttemptSound(w, a))
    && (forall a: nat, b: nat :: Apart(w, a, b))
    && (forall i: nat :: RowSound(w, i))
    && (forall p :: p in w.deliveries ==> Known(w.followups, p))
  }

  // ---- When writing a chosen row is harmless -------------------------------------------------------

  /** Its message has not arrived and nobody is sending it. */
  ghost predicate Harmless(w: World, r: nat) {
    r < |w.followups| ==> w.deliveries[Pair(w.followups, r)] == 0 && forall b: nat :: !FlyingOn(w, b, r)
  }

  /** What a worker may rely on when it cancels its row or marks it sending: exactly that this is harmless, or a check
      of the row's status, or that its command was not granted again. */
  datatype Rule = Exactly | RowCheck | LeaseCheck

  ghost predicate Keeps(rule: Rule, w: World, s: Step)
    requires Legal(w, s)
  {
    s.Cancel? || s.MarkSending? ==>
      var r := w.attempts[s.attempt].phase.row;
      match rule
      case Exactly => Harmless(w, r)
      case RowCheck => r < |w.followups| && Untried(w.followups[r])
      case LeaseCheck => Holds(w, s.attempt)
  }

  ghost predicate KeepingRun(rule: Rule, w: World, steps: Script<Step>, maxRetries: int)
    decreases steps
  {
    match steps
    case Stop => true
    case Then(s, rest) => Legal(w, s) && Keeps(rule, w, s) && KeepingRun(rule, Do(w, s, maxRetries), rest, maxRetries)
  }

  lemma {:induction false} KeepingIsLegal(rule: Rule, w: World, steps: Script<Step>, maxRetries: int)
    requires KeepingRun(rule, w, steps, maxRetries)
    ensures LegalRun(w, steps, maxRetries)
    decreases steps
  {
    if steps.Then? {
      KeepingIsLegal(rule, Do(w, steps.step, maxRetries), steps.rest, maxRetries);
    }
  }

  /** A row that was never tried can be written. */
  lemma UntriedIsHarmless(w: World, r: nat)
    requires Safe(w) && r < |w.followups| && Untried(w.followups[r])
    ensures Harmless(w, r)
  {
    assert RowSound(w, r);
    forall b: nat ensures !FlyingOn(w, b, r) { assert AttemptSound(w, b); }
  }

  // ---- Every step keeps it -----------------------------------------------------------------------

  /** Steps after which the attempt has no row left, and the rows stay as they are. */
  lemma LeavingKeepsSafe(w: World, v: World, a: nat, phase: Phase)
    requires Safe(w) && a < |w.attempts| && !HasRow(phase)
    requires v.attempts == w.attempts[a := w.attempts[a].(phase := phase)]
    requires v.followups == w.followups && v.holder == w.holder && v.deliveries == w.deliveries
    ensures Safe(v)
  {
    forall b: nat ensures AttemptSound(v, b) { assert AttemptSound(w, b); }
    forall b: nat, c: nat ensures Apart(v, b, c) { assert Apart(w, b, c); }
    forall i: nat ensures RowSound(v, i) { assert RowSound(w, i); }
  }

  lemma GrantKeepsSafe(w: World, v: World, grantee: Attempt)
    requires Safe(w) && grantee.phase.Leased?
    requires v.attempts == w.attempts + [grantee] && v.holder == w.holder[grantee.command := |w.attempts|]
    requires v.followups == w.followups && v.deliveries == w.deliveries
    ensures Safe(v)
  {
    forall b: nat ensures AttemptSound(v, b) { assert AttemptSound(w, b); }
    forall b: nat, c: nat ensures Apart(v, b, c) { assert Apart(w, b, c); }
    forall i: nat ensures RowSound(v, i) { assert RowSound(w, i); }
  }

  lemma ChoosingKeepsSafe(w: World, a: nat, r: nat)
    requires Safe(w) && a < |w.attempts| && w.attempts[a].phase.Leased? && r < |w.followups|
    requires w.followups[r].command == w.attempts[a].command && Untried(w.followups[r])
    ensures Safe(Moved(w, a, Chosen(r)))
  {
    var v := Moved(w, a, Chosen(r));
    forall b: nat ensures AttemptSound(v, b) { assert AttemptSound(w, b); }
    forall b: nat, c: nat ensures Apart(v, b, c) { assert Apart(w, b, c); }
    forall i: nat ensures RowSound(v, i) { assert RowSound(w, i); }
  }

  lemma AppendFrame(t: Table, row: Followup)
    requires OneRowPerThread(t) && !Known(t, (row.caseId, row.thread))
    ensures OneRowPerThread(t + [row])
    ensures forall i :: 0 <= i < |t| ==> (t + [row])[i] == t[i]
    ensures forall p :: Known(t, p) ==> Known(t + [row], p)
  {
    var u := t + [row];
    forall i, j | 0 <= i < j < |u| ensures !(u[i].caseId == u[j].caseId && u[i].thread == u[j].thread) {
      assert Pair(t, i) != (row.caseId, row.thread);
    }
    forall p | Known(t, p) ensures Known(u, p) {
      var i :| 0 <= i < |t| && Pair(t, i) == p;
      assert Pair(u, i) == p;
    }
  }

  lemma AppendKeepsSafe(w: World, row: Followup)
    requires Safe(w) && row.status == Reserved && !Known(w.followups, (row.caseId, row.thread))
    ensures Safe(w.(followups := w.followups + [row]))
  {
    var v := w.(followups := w.followups + [row]);
    AppendFrame(w.followups, row);
    assert (row.caseId, row.thread) !in w.deliveries;
    forall b: nat ensures AttemptSound(v, b) { assert AttemptSound(w, b); }
    forall b: nat, c: nat ensures Apart(v, b, c) { assert Apart(w, b, c); }
    forall i: nat ensures RowSound(v, i) { assert RowSound(w, i); }
  }

  lemma ReserveKeepsSafe(w: World, a: nat)
    requires Safe(w) && Legal(w, Reserve(a))
    ensures Safe(AfterReserve(w, a))
  {
    var me := w.attempts[a];
    var found := Find(w.followups, me.caseId.value, me.thread);
    if found.None? && CommandUsed(w.followups, me.command) {
      LeavingKeepsSafe(w, AfterReserve(w, a), a, Finishing(Retry));
    } else if found.None? {
      var row := ReservedRow(w.followups, me.command, me.caseId.value, me.conversation, me.thread);
      AppendKeepsSafe(w, row);
      ChoosingKeepsSafe(w.(followups := w.followups + [row]), a, |w.followups|);
    } else if Taken(w.followups[found.value], me.command) {
      LeavingKeepsSafe(w, AfterReserve(w, a), a, Finishing(Close("SENT")));
    } else {
      ChoosingKeepsSafe(w, a, found.value);
    }
  }

  lemma SettleFrame(t: Table, r: nat, status: Status)
    requires OneRowPerThread(t) && r < |t|
    ensures var u := Settled(t, r, status);
            && OneRowPerThread(u) && |u| == |t|
            && (forall i :: 0 <= i < |t| ==> Pair(u, i) == Pair(t, i) && u[i].command == t[i].command)
            && (forall p :: Known(t, p) ==> Known(u, p))
  {
    var u := Settled(t, r, status);
    forall p | Known(t, p) ensures Known(u, p) {
      var i :| 0 <= i < |t| && Pair(t, i) == p;
      assert Pair(u, i) == p;
    }
  }

  lemma MarkSendingKeepsSafe(w: World, a: nat)
    requires Safe(w) && Legal(w, MarkSending(a)) && Harmless(w, w.attempts[a].phase.row)
    ensures Safe(Do(w, MarkSending(a), 0))
  {
    assert AttemptSound(w, a);
    var r := w.attempts[a].phase.row;
    var v := Do(w, MarkSending(a), 0);
    SettleFrame(w.followups, r, Sending);
    forall b: nat ensures AttemptSound(v, b) { assert AttemptSound(w, b) && !FlyingOn(w, b, r); }
    forall b: nat, c: nat ensures Apart(v, b, c) { assert Apart(w, b, c) && !FlyingOn(w, b, r) && !FlyingOn(w, c, r); }
    forall i: nat ensures RowSound(v, i) { assert RowSound(w, i); }
  }

  /** Settling a row that is in flight here, or cancelling one that is harmless to write. */
  lemma SettlingKeepsSafe(w: World, a: nat, status: Status, phase: Phase)
    requires Safe(w) && a < |w.attempts| && HasRow(w.attempts[a].phase) && !HasRow(phase)
    requires if status == Canceled then Harmless(w, w.attempts[a].phase.row) else Flying(w.attempts[a].phase)
    requires status != Sending && (status == Reserved ==> Undelivered(w.attempts[a].phase))
    requires status == Delivered ==> w.attempts[a].phase == Answered(w.attempts[a].phase.row, Accepted)
    ensures Safe(Moved(w, a, phase).(followups := Settled(w.followups, w.attempts[a].phase.row, status)))
  {
    assert AttemptSound(w, a);
    var r := w.attempts[a].phase.row;
    var v := Moved(w, a, phase).(followups := Settled(w.followups, r, status));
    SettleFrame(w.followups, r, status);
    forall b: nat ensures AttemptSound(v, b) {
      assert AttemptSound(w, b) && Apart(w, a, b);
      if status == Canceled { assert !FlyingOn(w, b, r); }
    }
    forall b: nat, c: nat ensures Apart(v, b, c) { assert Apart(w, b, c); }
    forall i: nat ensures RowSound(v, i) { assert RowSound(w, i); }
  }

  lemma RowsApart(t: Table, i: nat, j: nat)
    requires OneRowPerThread(t) && i < |t| && j < |t| && Pair(t, i) == Pair(t, j)
    ensures i == j
  {
  }

  lemma DeliveryKeepsRows(w: World, a: nat, v: World)
    requires Safe(w) && a < |w.attempts| && w.attempts[a].phase.Marked? && w.attempts[a].phase.row < |w.followups|
    requires v.followups == w.followups
    requires var p := Pair(w.followups, w.attempts[a].phase.row);
             v.deliveries == w.deliveries || v.deliveries == w.deliveries[p := 1]
    ensures forall i: nat :: RowSound(v, i)
    ensures forall p :: p in v.deliveries ==> Known(v.followups, p)
  {
    assert AttemptSound(w, a);
    var r := w.attempts[a].phase.row;
    forall i: nat ensures RowSound(v, i) {
      assert RowSound(w, i);
      if i < |w.followups| && Pair(w.followups, i) == Pair(w.followups, r) { RowsApart(w.followups, i, r); }
    }
    forall p | p in v.deliveries ensures Known(v.followups, p) {
      if p != Pair(w.followups, r) { assert p in w.deliveries; }
    }
  }

  lemma SendKeepsSafe(w: World, a: nat, answer: Answer)
    requires Safe(w) && Legal(w, Send(a, answer))
    ensures Safe(AfterSend(w, a, answer))
  {
    assert AttemptSound(w, a);
    var r := w.attempts[a].phase.row;
    var v := AfterSend(w, a, answer);
    DeliveryKeepsRows(w, a, v);
    forall b: nat ensures AttemptSound(v, b) {
      assert AttemptSound(w, b) && Apart(w, a, b);
      if b != a && b < |v.attempts| && Undelivered(v.attempts[b].phase)
        && Pair(w.followups, w.attempts[b].phase.row) == Pair(w.followups, r)
      {
        RowsApart(w.followups, w.attempts[b].phase.row, r);
      }
    }
    forall b: nat, c: nat ensures Apart(v, b, c) { assert Apart(w, b, c); }
  }

  lemma RecordKeepsSafe(w: World, a: nat)
    requires Safe(w) && Legal(w, Record(a))
    ensures Safe(AfterRecord(w, a))
  {
    var answer := w.attempts[a].phase.answer;
    if answer.Accepted? {
      SettlingKeepsSafe(w, a, Delivered, Finishing(Close("SENT")));
    } else if answer.TooManyRequests? {
      SettlingKeepsSafe(w, a, Reserved, Finishing(Retry));
    } else {
      SettlingKeepsSafe(w, a, Uncertain, Finishing(Close("FAILED_DELIVERY_UNCERTAIN")));
    }
  }

  lemma StepKeepsSafe(w: World, s: Step, maxRetries: int)
    requires Safe(w) && Legal(w, s) && Keeps(Exactly, w, s)
    ensures Safe(Do(w, s, maxRetries))
  {
    match s
    case Lease(c, worker, seconds) =>
      var v := Granted(w, c, worker, seconds);
      GrantKeepsSafe(w, v, v.attempts[|w.attempts|]);
    case Reserve(a) => ReserveKeepsSafe(w, a);
    case Cancel(a) => SettlingKeepsSafe(w, a, Canceled, Finishing(Close("SENT")));
    case MarkSending(a) => MarkSendingKeepsSafe(w, a);
    case Send(a, answer) => SendKeepsSafe(w, a, answer);
    case Record(a) => RecordKeepsSafe(w, a);
    case RecordFails(a) => SettlingKeepsSafe(w, a, Uncertain, Finishing(Close("FAILED_DELIVERY_UNCERTAIN")));
    case _ => OtherStepKeepsSafe(w, s, maxRetries);
  }

  lemma OtherStepKeepsSafe(w: World, s: Step, maxRetries: int)
    requires Safe(w) && Legal(w, s) && (s.Skip? || s.Finish? || s.Throw? || s.Crash? || s.Other?)
    ensures Safe(Do(w, s, maxRetries))
  {
    var v := Do(w, s, maxRetries);
    if s.Other? {
      forall b: nat ensures AttemptSound(v, b) { assert AttemptSound(w, b); }
      forall b: nat, c: nat ensures Apart(v, b, c) { assert Apart(w, b, c); }
      forall i: nat ensures RowSound(v, i) { assert RowSound(w, i); }
    } else {
      LeavingKeepsSafe(w, v, s.attempt, v.attempts[s.attempt].phase);
    }
  }

  // ---- Main results --------------------------------------------------------------------------------

  /** mark_followup_sending keeps every row down to one sender and one message exactly when its row is harmless.  Where
      it is not, two messages can follow (StaleSenderSendsAgain, BothSendersDeliver, LateRetrySendsTwice), unless all
      that is left of the other sender is an answer that was lost together with its message. */
  lemma MarkSafeIff(w: World, a: nat, maxRetries: int)
    requires Safe(w) && Legal(w, MarkSending(a))
    ensures Safe(Do(w, MarkSending(a), maxRetries)) <==> Harmless(w, w.attempts[a].phase.row)
  {
    assert AttemptSound(w, a);
    var r := w.attempts[a].phase.row;
    var v := Do(w, MarkSending(a), maxRetries);
    if Harmless(w, r) {
      MarkSendingKeepsSafe(w, a);
    } else if Safe(v) {
      assert AttemptSound(v, a);
      forall b: nat ensures !FlyingOn(w, b, r) { assert Apart(v, a, b); }
    }
  }

  /** So does cancel_followup, which makes the row eligible again. */
  lemma CancelSafeIff(w: World, a: nat, maxRetries: int)
    requires Safe(w) && Legal(w, Cancel(a))
    ensures Safe(Do(w, Cancel(a), maxRetries)) <==> Harmless(w, w.attempts[a].phase.row)
  {
    assert AttemptSound(w, a);
    var r := w.attempts[a].phase.row;
    var v := Do(w, Cancel(a), maxRetries);
    if Harmless(w, r) {
      SettlingKeepsSafe(w, a, Canceled, Finishing(Close("SENT")));
    } else if Safe(v) {
      assert RowSound(v, r);
      forall b: nat ensures !FlyingOn(w, b, r) { assert AttemptSound(v, b); }
    }
  }

  lemma StepSafeIff(w: World, s: Step, maxRetries: int)
    requires Safe(w) && Legal(w, s)
    ensures Safe(Do(w, s, maxRetries)) <==> Keeps(Exactly, w, s)
  {
    if s.MarkSending? {
      MarkSafeIff(w, s.attempt, maxRetries);
    } else if s.Cancel? {
      CancelSafeIff(w, s.attempt, maxRetries);
    } else {
      StepKeepsSafe(w, s, maxRetries);
    }
  }

  ghost predicate AlwaysSafe(w: World, steps: Script<Step>, maxRetries: int)
    requires LegalRun(w, steps, maxRetries)
    decreases steps
  {
    Safe(w) && (steps.Then? ==> AlwaysSafe(Do(w, steps.step, maxRetries), steps.rest, maxRetries))
  }

  /** A run is safe throughout exactly when each row was harmless at the moment it was marked or cancelled. */
  lemma {:induction false} RunSafeIff(w: World, steps: Script<Step>, maxRetries: int)
    requires Safe(w) && LegalRun(w, steps, maxRetries)
    ensures AlwaysSafe(w, steps, maxRetries) <==> KeepingRun(Exactly, w, steps, maxRetries)
    decreases steps
  {
    if steps.Then? {
      var v := Do(w, steps.step, maxRetries);
      StepSafeIff(w, steps.step, maxRetries);
      if Safe(v) { RunSafeIff(v, steps.rest, maxRetries); }
    }
  }

  lemma {:induction false} RunKeepsSafe(w: World, steps: Script<Step>, maxRetries: int)
    requires Safe(w) && KeepingRun(Exactly, w, steps, maxRetries) && LegalRun(w, steps, maxRetries)
    ensures Safe(Run(w, steps, maxRetries))
    decreases steps
  {
    if steps.Then? {
      StepKeepsSafe(w, steps.step, maxRetries);
      RunKeepsSafe(Do(w, steps.step, maxRetries), steps.rest, maxRetries);
    }
  }

  /** At most one message per case and thread has arrived, and a row that says so has its message. */
  ghost predicate OneMessageEach(w: World) {
    && (forall p :: w.deliveries[p] <= 1)
    && (forall i :: 0 <= i < |w.followups| && w.followups[i].status == Delivered ==>
          w.deliveries[Pair(w.followups, i)] == 1)
  }

  lemma SafeCounts(w: World)
    requires Safe(w)
    ensures OneMessageEach(w)
  {
    forall p ensures w.deliveries[p] <= 1 {
      if p in w.deliveries {
        var i :| 0 <= i < |w.followups| && Pair(w.followups, i) == p;
        assert RowSound(w, i);
      }
    }
    forall i | 0 <= i < |w.followups| && w.followups[i].status == Delivered
      ensures w.deliveries[Pair(w.followups, i)] == 1
    {
      assert RowSound(w, i);
    }
  }

  /** Whatever crashes, retries and repeated leases happen, at most one message per case and thread arrives, if only
      harmless rows are marked and cancelled. */
  lemma AtMostOnce(commands: CommandTable.Table, now: int, steps: Script<Step>, maxRetries: int)
    requires LegalRun(Start(commands, now), steps, maxRetries)
             && KeepingRun(Exactly, Start(commands, now), steps, maxRetries)
    ensures OneMessageEach(Run(Start(commands, now), steps, maxRetries))
  {
    RunKeepsSafe(Start(commands, now), steps, maxRetries);
    SafeCounts(Run(Start(commands, now), steps, maxRetries));
  }

  /** Checking the row's status is enough. */
  lemma {:induction false} RowCheckSuffices(w: World, steps: Script<Step>, maxRetries: int)
    requires Safe(w) && KeepingRun(RowCheck, w, steps, maxRetries)
    ensures KeepingRun(Exactly, w, steps, maxRetries)
    decreases steps
  {
    if steps.Then? {
      var s := steps.step;
      if s.Cancel? || s.MarkSending? { UntriedIsHarmless(w, w.attempts[s.attempt].phase.row); }
      StepKeepsSafe(w, s, maxRetries);
      RowCheckSuffices(Do(w, s, maxRetries), steps.rest, maxRetries);
    }
  }

  /** What the holder of a command chose is still there to be sent. */
  predicate HeldFresh(w: World, a: nat) {
    a < |w.attempts| && w.attempts[a].phase.Chosen? && Holds(w, a) ==>
      w.attempts[a].phase.row < |w.followups| && Untried(w.followups[w.attempts[a].phase.row])
  }

  lemma ChoiceIsFresh(w: World, a: nat)
    requires Safe(w) && Legal(w, Reserve(a))
    ensures HeldFresh(AfterReserve(w, a), a)
  {
  }

  /** The row that a writes is not one that another holder chose. */
  lemma WrittenElsewhere(w: World, a: nat, b: nat)
    requires Safe(w) && HeldFresh(w, b) && a != b && a < |w.attempts| && b < |w.attempts| && HasRow(w.attempts[a].phase)
    requires Flying(w.attempts[a].phase) || Holds(w, a)
    requires w.attempts[b].phase.Chosen? && Holds(w, b)
    ensures w.attempts[a].phase.row != w.attempts[b].phase.row
  {
    assert AttemptSound(w, a) && AttemptSound(w, b);
  }

  predicate WritesRow(s: Step) {
    s.Cancel? || s.MarkSending? || s.Record? || s.RecordFails?
  }

  lemma WritingKeepsHeldFresh(w: World, s: Step, maxRetries: int, b: nat)
    requires Safe(w) && HeldFresh(w, b) && Legal(w, s) && Keeps(LeaseCheck, w, s) && WritesRow(s)
    ensures HeldFresh(Do(w, s, maxRetries), b)
  {
    if s.attempt != b && b < |w.attempts| && w.attempts[b].phase.Chosen? && Holds(w, b) {
      WrittenElsewhere(w, s.attempt, b);
    }
  }

  lemma OtherStepKeepsHeldFresh(w: World, s: Step, maxRetries: int, b: nat)
    requires HeldFresh(w, b) && Legal(w, s) && !WritesRow(s) && !s.Reserve?
    ensures HeldFresh(Do(w, s, maxRetries), b)
  {
  }

  lemma StepKeepsHeldFresh(w: World, s: Step, maxRetries: int, b: nat)
    requires Safe(w) && HeldFresh(w, b) && Legal(w, s) && Keeps(LeaseCheck, w, s)
    ensures HeldFresh(Do(w, s, maxRetries), b)
  {
    if WritesRow(s) {
      WritingKeepsHeldFresh(w, s, maxRetries, b);
    } else if !s.Reserve? {
      OtherStepKeepsHeldFresh(w, s, maxRetries, b);
    } else if b == s.attempt {
      ChoiceIsFresh(w, b);
    }
  }

  /** Holding the command is enough: it implies the row check. */
  lemma {:induction false} LeaseCheckSuffices(w: World, steps: Script<Step>, maxRetries: int)
    requires Safe(w) && (forall a: nat :: HeldFresh(w, a)) && KeepingRun(LeaseCheck, w, steps, maxRetries)
    ensures KeepingRun(RowCheck, w, steps, maxRetries)
    decreases steps
  {
    if steps.Then? {
      var s := steps.step;
      var v := Do(w, s, maxRetries);
      if s.Cancel? || s.MarkSending? {
        assert HeldFresh(w, s.attempt);
        UntriedIsHarmless(w, w.attempts[s.attempt].phase.row);
      }
      StepKeepsSafe(w, s, maxRetries);
      forall b: nat ensures HeldFresh(v, b) { StepKeepsHeldFresh(w, s, maxRetries, b); }
      LeaseCheckSuffices(v, steps.rest, maxRetries);
    }
  }

  /** A check of the row's status before it is marked or cancelled, which the statements lack, would be enough. */
  lemma AtMostOnceWithRowCheck(commands: CommandTable.Table, now: int, steps: Script<Step>, maxRetries: int)
    requires LegalRun(Start(commands, now), steps, maxRetries)
             && KeepingRun(RowCheck, Start(commands, now), steps, maxRetries)
    ensures OneMessageEach(Run(Start(commands, now), steps, maxRetries))
  {
    RowCheckSuffices(Start(commands, now), steps, maxRetries);
    AtMostOnce(commands, now, steps, maxRetries);
  }

  /** So is a lease that is held from the reservation until then. */
  lemma AtMostOnceWhileHeld(commands: CommandTable.Table, now: int, steps: Script<Step>, maxRetries: int)
    requires LegalRun(Start(commands, now), steps, maxRetries)
             && KeepingRun(LeaseCheck, Start(commands, now), steps, maxRetries)
    ensures OneMessageEach(Run(Start(commands, now), steps, maxRetries))
  {
    LeaseCheckSuffices(Start(commands, now), steps, maxRetries);
    AtMostOnceWithRowCheck(commands, now, steps, maxRetries);
  }

  // ---- Rows that are never sent again --------------------------------------------------------------

  /** Sent, uncertain, or left in sending by a worker that is gone. */
  ghost predicate Final(w: World, r: nat) {
    r < |w.followups| && !Untried(w.followups[r]) && forall a: nat :: !FlyingOn(w, a, r)
  }

  /** No worker marks or cancels row r now. */
  predicate Spares(w: World, s: Step, r: nat)
    requires Legal(w, s)
  {
    s.Cancel? || s.MarkSending? ==> w.attempts[s.attempt].phase.row != r
  }

  lemma RowUntouched(w: World, s: Step, maxRetries: int, r: nat)
    requires Safe(w) && Legal(w, s) && Spares(w, s, r) && Final(w, r) && !s.Send?
    ensures var v := Do(w, s, maxRetries);
            r < |v.followups| && v.followups[r] == w.followups[r] && v.deliveries == w.deliveries
  {
    if s.Record? || s.RecordFails? {
      assert AttemptSound(w, s.attempt) && !FlyingOn(w, s.attempt, r);
    }
  }

  lemma SentElsewhere(w: World, a: nat, answer: Answer, r: nat)
    requires Safe(w) && Legal(w, Send(a, answer)) && Final(w, r)
    ensures var v := AfterSend(w, a, answer);
            v.followups == w.followups && v.deliveries[Pair(v.followups, r)] == w.deliveries[Pair(w.followups, r)]
  {
    assert AttemptSound(w, a) && !FlyingOn(w, a, r);
    var mine := w.attempts[a].phase.row;
    if Pair(w.followups, mine) == Pair(w.followups, r) { RowsApart(w.followups, mine, r); }
  }

  lemma StillNotFlying(w: World, s: Step, maxRetries: int, r: nat, a: nat)
    requires Legal(w, s) && Spares(w, s, r) && Final(w, r)
    ensures !FlyingOn(Do(w, s, maxRetries), a, r)
  {
    assert !FlyingOn(w, a, r);
    if !s.MarkSending? { NoTakeOff(w, s, maxRetries, r, a); }
  }

  /** Only marking a row puts it in flight. */
  lemma NoTakeOff(w: World, s: Step, maxRetries: int, r: nat, a: nat)
    requires Legal(w, s) && !s.MarkSending? && !FlyingOn(w, a, r)
    ensures !FlyingOn(Do(w, s, maxRetries), a, r)
  {
  }

  lemma StepKeepsFinal(w: World, s: Step, maxRetries: int, r: nat)
    requires Safe(w) && Legal(w, s) && Spares(w, s, r) && Final(w, r)
    ensures var v := Do(w, s, maxRetries);
            && Final(v, r) && v.followups[r] == w.followups[r]
            && v.deliveries[Pair(v.followups, r)] == w.deliveries[Pair(w.followups, r)]
  {
    forall a: nat ensures !FlyingOn(Do(w, s, maxRetries), a, r) { StillNotFlying(w, s, maxRetries, r, a); }
    if s.Send? { SentElsewhere(w, s.attempt, s.answer, r); } else { RowUntouched(w, s, maxRetries, r); }
  }

  /** A final row is opened again exactly by a stale worker that marks or cancels it. */
  lemma FinalLeftIff(w: World, s: Step, maxRetries: int, r: nat)
    requires Safe(w) && Legal(w, s) && Final(w, r)
    ensures Final(Do(w, s, maxRetries), r) <==> Spares(w, s, r)
  {
    if Spares(w, s, r) {
      StepKeepsFinal(w, s, maxRetries, r);
    } else if s.MarkSending? {
      assert FlyingOn(Do(w, s, maxRetries), s.attempt, r);
    }
  }

  /** A row left in `sending` is never sent again, and a settled one never reopens. */
  lemma {:induction false} FinalRowsNeverResent(w: World, steps: Script<Step>, maxRetries: int, r: nat)
    requires Safe(w) && Final(w, r)
    requires KeepingRun(RowCheck, w, steps, maxRetries) && LegalRun(w, steps, maxRetries)
    ensures var v := Run(w, steps, maxRetries);
            && r < |v.followups| && v.followups[r] == w.followups[r]
            && v.deliveries[Pair(v.followups, r)] == w.deliveries[Pair(w.followups, r)]
    decreases steps
  {
    if steps.Then? {
      var s := steps.step;
      if s.Cancel? || s.MarkSending? { UntriedIsHarmless(w, w.attempts[s.attempt].phase.row); }
      StepKeepsSafe(w, s, maxRetries);
      StepKeepsFinal(w, steps.step, maxRetries, r);
      FinalRowsNeverResent(Do(w, steps.step, maxRetries), steps.rest, maxRetries, r);
    }
  }

  // ---- Numbering -----------------------------------------------------------------------------------

  predicate SameIdentity(r: Followup, s: Followup) {
    r.caseId == s.caseId && r.thread == s.thread && r.command == s.command && r.number == s.number
  }

  /** Rows are only appended, and statements never touch what identifies them. */
  ghost predicate Grows(t: Table, u: Table) {
    |t| <= |u| && forall i :: 0 <= i < |t| ==> SameIdentity(t[i], u[i])
  }

  ghost predicate Numbered(t: Table) {
    OneRowPerThread(t) && OneRowPerCommand(t) && Consecutive(t)
  }

  lemma SettledGrows(t: Table, r: nat, status: Status)
    ensures Grows(t, Settled(t, r, status)) && |Settled(t, r, status)| == |t|
  {
  }

  lemma SameIdentities(t: Table, u: Table)
    requires Numbered(t) && Grows(t, u) && |u| == |t|
    ensures Numbered(u)
  {
    forall i | 0 <= i < |t| ensures SameIdentity(t[i], u[i]) { }
    ConsecutiveFrame(t, u);
  }

  lemma SettledStaysNumbered(t: Table, r: nat, status: Status)
    requires Numbered(t)
    ensures Numbered(Settled(t, r, status)) && Grows(t, Settled(t, r, status))
  {
    SettledGrows(t, r, status);
    SameIdentities(t, Settled(t, r, status));
  }

  lemma ReserveStaysNumbered(w: World, a: nat)
    requires Numbered(w.followups) && Legal(w, Reserve(a))
    ensures Numbered(AfterReserve(w, a).followups) && Grows(w.followups, AfterReserve(w, a).followups)
  {
    var me := w.attempts[a];
    if Find(w.followups, me.caseId.value, me.thread).None? && !CommandUsed(w.followups, me.command) {
      var row := ReservedRow(w.followups, me.command, me.caseId.value, me.conversation, me.thread);
      ReserveKeepsNumbers(w.followups, row);
    }
  }

  lemma StepStaysNumbered(w: World, s: Step, maxRetries: int)
    requires Numbered(w.followups) && Legal(w, s)
    ensures Numbered(Do(w, s, maxRetries).followups) && Grows(w.followups, Do(w, s, maxRetries).followups)
  {
    if s.Reserve? {
      ReserveStaysNumbered(w, s.attempt);
    } else if s.Cancel? {
      SettledStaysNumbered(w.followups, w.attempts[s.attempt].phase.row, Canceled);
    } else if s.MarkSending? {
      SettledStaysNumbered(w.followups, w.attempts[s.attempt].phase.row, Sending);
    } else if s.RecordFails? {
      SettledStaysNumbered(w.followups, w.attempts[s.attempt].phase.row, Uncertain);
    } else if s.Record? {
      var p := w.attempts[s.attempt].phase;
      SettledStaysNumbered(w.followups, p.row,
        if p.answer.Accepted? then Delivered else if p.answer.TooManyRequests? then Reserved else Uncertain);
    }
  }

  /** Over any interleaving, disciplined or not, a case's threads are numbered 2, 3, 4, ... in the order of
      their reservations, one row each and one per command, and no later step changes a number. */
  lemma {:induction false} FollowupNumbering(w: World, steps: Script<Step>, maxRetries: int)
    requires Numbered(w.followups) && LegalRun(w, steps, maxRetries)
    ensures var v := Run(w, steps, maxRetries); Numbered(v.followups) && Grows(w.followups, v.followups)
    decreases steps
  {
    if steps.Then? {
      StepStaysNumbered(w, steps.step, maxRetries);
      var v := Do(w, steps.step, maxRetries);
      FollowupNumbering(v, steps.rest, maxRetries);
      GrowsTransitive(w.followups, v.followups, Run(v, steps.rest, maxRetries).followups);
    }
  }

  lemma GrowsTransitive(t: Table, u: Table, v: Table)
    requires Grows(t, u) && Grows(u, v)
    ensures Grows(t, v)
  {
    forall i | 0 <= i < |t| ensures SameIdentity(t[i], v[i]) { assert SameIdentity(t[i], u[i]); }
  }

  // ---- What happens otherwise ----------------------------------------------------------------------

  /** A worker that outlived its lease marks and sends a row that another worker has delivered. */
  lemma StaleSenderSendsAgain(w: World, a: nat, maxRetries: int)
    requires a < |w.attempts| && w.attempts[a].phase.Chosen? && w.attempts[a].phase.row < |w.followups|
    ensures var steps := Then(MarkSending(a), Then(Send(a, Accepted), Stop));
            var p := Pair(w.followups, w.attempts[a].phase.row);
            && LegalRun(w, steps, maxRetries)
            && Run(w, steps, maxRetries).deliveries[p] == w.deliveries[p] + 1
  {
    var v := Do(w, MarkSending(a), maxRetries);
    assert Legal(v, Send(a, Accepted));
    var u := Do(v, Send(a, Accepted), maxRetries);
    assert Run(v, Then(Send(a, Accepted), Stop), maxRetries) == u;
  }

  /** A worker that marks a row while another one is sending it sends it as well. */
  lemma BothSendersDeliver(w: World, a: nat, b: nat, maxRetries: int)
    requires a < |w.attempts| && b < |w.attempts| && w.attempts[a].phase.Chosen? && w.attempts[b].phase.Marked?
    requires w.attempts[a].phase.row == w.attempts[b].phase.row < |w.followups|
    ensures var steps := Then(MarkSending(a), Then(Send(a, Accepted), Then(Send(b, Accepted), Stop)));
            var p := Pair(w.followups, w.attempts[a].phase.row);
            && LegalRun(w, steps, maxRetries)
            && Run(w, steps, maxRetries).deliveries[p] == w.deliveries[p] + 2
  {
    var v := Do(w, MarkSending(a), maxRetries);
    var u := Do(v, Send(a, Accepted), maxRetries);
    assert Legal(v, Send(a, Accepted)) && Legal(u, Send(b, Accepted));
    assert LegalRun(u, Then(Send(b, Accepted), Stop), maxRetries);
    assert LegalRun(v, Then(Send(a, Accepted), Then(Send(b, Accepted), Stop)), maxRetries);
    assert Run(u, Then(Send(b, Accepted), Stop), maxRetries) == Do(u, Send(b, Accepted), maxRetries);
    assert Run(v, Then(Send(a, Accepted), Then(Send(b, Accepted), Stop)), maxRetries) ==
             Do(u, Send(b, Accepted), maxRetries);
  }

  /** The row r belongs to the command, which a worker that reads it again will find. */
  predicate Reserves(w: World, c: nat, r: nat) {
    && c < |w.commands| && w.commands[c].kind == REMIND && r < |w.followups|
    && w.followups[r].command == c && CaseOf(w.commands[c].payload) == Some(w.followups[r].caseId)
    && w.commands[c].thread == w.followups[r].thread != ""
    && Find(w.followups, w.followups[r].caseId, w.followups[r].thread) == Some(r)
  }

  function LateRetry(a: nat, b: nat): Script<Step> {
    Then(MarkSending(a), Then(Send(a, Accepted), Then(Record(b), Then(Finish(b), Stop))))
  }

  /** A worker marks and sends a row while another one still has to record a 429: that record makes the row eligible
      again although its message has arrived. */
  lemma LateRetryReopens(w: World, a: nat, b: nat, maxRetries: int)
    requires a < |w.attempts| && b < |w.attempts| && w.attempts[a].phase.Chosen? && w.attempts[b].phase.Answered?
    requires w.attempts[b].phase.answer.TooManyRequests? && w.attempts[a].phase.row == w.attempts[b].phase.row
    requires Reserves(w, w.attempts[b].command, w.attempts[a].phase.row)
    requires w.commands[w.attempts[b].command].retryCount + 2 < maxRetries
    ensures LegalRun(w, LateRetry(a, b), maxRetries)
    ensures var v := Run(w, LateRetry(a, b), maxRetries);
            var c, r := w.attempts[b].command, w.attempts[a].phase.row;
            && Reserves(v, c, r) && CommandTable.Leasable(v.commands, v.now, c) && v.followups[r].status == Reserved
            && Pair(v.followups, r) == Pair(w.followups, r)
            && v.deliveries[Pair(v.followups, r)] == w.deliveries[Pair(w.followups, r)] + 1
  {
    var r := w.attempts[a].phase.row;
    var w1 := Do(w, MarkSending(a), maxRetries);
    FindFrame(w.followups, w1.followups, w.followups[r].caseId, w.followups[r].thread);
    var w2 := Do(w1, Send(a, Accepted), maxRetries);
    var w3 := Do(w2, Record(b), maxRetries);
    FindFrame(w1.followups, w3.followups, w.followups[r].caseId, w.followups[r].thread);
    FourSteps(w, MarkSending(a), Send(a, Accepted), Record(b), Finish(b), maxRetries);
  }

  /** Settling a row moves none. */
  lemma {:induction false} FindFrame(t: Table, u: Table, caseId: nat, thread: string)
    requires |t| == |u| && forall i :: 0 <= i < |t| ==> t[i].caseId == u[i].caseId && t[i].thread == u[i].thread
    ensures Find(t, caseId, thread) == Find(u, caseId, thread)
  {
    if t != [] {
      FindFrame(t[..|t| - 1], u[..|u| - 1], caseId, thread);
    }
  }

  function NextGrant(w: World, c: nat, worker: string, seconds: int): Script<Step> {
    Then(Lease(c, worker, seconds),
         Then(Reserve(|w.attempts|), Then(MarkSending(|w.attempts|), Then(Send(|w.attempts|, Accepted), Stop))))
  }

  /** The next grant of the command delivers a row that is reserved. */
  lemma ReservedIsSent(w: World, c: nat, r: nat, worker: string, seconds: int, maxRetries: int)
    requires Reserves(w, c, r) && CommandTable.Leasable(w.commands, w.now, c) && w.followups[r].status == Reserved
    ensures LegalRun(w, NextGrant(w, c, worker, seconds), maxRetries)
    ensures var v := Run(w, NextGrant(w, c, worker, seconds), maxRetries);
            v.deliveries[Pair(w.followups, r)] == w.deliveries[Pair(w.followups, r)] + 1
  {
    var n := |w.attempts|;
    var w1 := Do(w, Lease(c, worker, seconds), maxRetries);
    assert w1.attempts[n] ==
             Attempt(c, w.commands[c].conversation, Some(w.followups[r].caseId), w.commands[c].thread, Leased);
    var w2 := Do(w1, Reserve(n), maxRetries);
    assert w2 == Moved(w1, n, Chosen(r));
    FourSteps(w, Lease(c, worker, seconds), Reserve(n), MarkSending(n), Send(n, Accepted), maxRetries);
  }

  /** So two messages arrive here as well, the second one by an ordinary retry. */
  lemma LateRetrySendsTwice(w: World, a: nat, b: nat, worker: string, seconds: int, maxRetries: int)
    requires a < |w.attempts| && b < |w.attempts| && w.attempts[a].phase.Chosen? && w.attempts[b].phase.Answered?
    requires w.attempts[b].phase.answer.TooManyRequests? && w.attempts[a].phase.row == w.attempts[b].phase.row
    requires Reserves(w, w.attempts[b].command, w.attempts[a].phase.row)
    requires w.commands[w.attempts[b].command].retryCount + 2 < maxRetries
    ensures var p := Pair(w.followups, w.attempts[a].phase.row);
            exists steps ::
              LegalRun(w, steps, maxRetries) && Run(w, steps, maxRetries).deliveries[p] == w.deliveries[p] + 2
  {
    LateRetryReopens(w, a, b, maxRetries);
    var v := Run(w, LateRetry(a, b), maxRetries);
    var c := w.attempts[b].command;
    ReservedIsSent(v, c, w.attempts[a].phase.row, worker, seconds, maxRetries);
    RunChains(w, LateRetry(a, b), NextGrant(v, c, worker, seconds), maxRetries);
  }

  function ReminderRow(lock: Lock): CommandTable.Command {
    CommandTable.Command("c", "t", REMIND, "key", Json.Object(map["telegram_case_id" := Json.Number(1.0)]),
                         CommandTable.Pending, 0, 0, lock)
  }

  function ReminderAttempt(phase: Phase): Attempt {
    Attempt(0, "c", Some(1), "t", phase)
  }

  function ReminderFollowup(status: Status): Followup {
    Followup(1, "t", "c", 0, 2, status, None)
  }

  function Overlap(worker: string, until: int, row: Status, first: Phase, second: Phase,
                   arrived: multiset<(nat, string)>): World {
    World([ReminderRow(Grant(worker, until))], [ReminderFollowup(row)],
          [ReminderAttempt(first), ReminderAttempt(second)],
          map[0 := 1], arrived, 2)
  }

  /** The first worker reserves, its lease runs out, and a second worker is granted the command. */
  lemma OverlapBegins(maxRetries: int)
    ensures var w := Start([ReminderRow(UNLOCKED)], 0);
            var steps :=
              Then(Lease(0, "A", 1),
                   Then(Reserve(0), Then(Other(CommandTable.Tick(2)), Then(Lease(0, "B", 10), Stop))));
            LegalRun(w, steps, maxRetries)
            && Run(w, steps, maxRetries) == Overlap("B", 12, Reserved, Chosen(0), Leased, multiset{})
  {
    var w0 := Start([ReminderRow(UNLOCKED)], 0);
    var w1 := World([ReminderRow(Grant("A", 1))], [], [ReminderAttempt(Leased)], map[0 := 0], multiset{}, 0);
    var w2 := w1.(followups := [ReminderFollowup(Reserved)], attempts := [ReminderAttempt(Chosen(0))]);
    var w3 := w2.(now := 2);
    assert CaseOf(ReminderRow(UNLOCKED).payload) == Some(1);
    assert Do(w0, Lease(0, "A", 1), maxRetries) == w1;
    assert Do(w1, Reserve(0), maxRetries) == w2;
    assert Do(w2, Other(CommandTable.Tick(2)), maxRetries) == w3;
    SecondGrant(w3, maxRetries);
  }

  lemma SecondGrant(w: World, maxRetries: int)
    requires w == World([ReminderRow(Grant("A", 1))], [ReminderFollowup(Reserved)], [ReminderAttempt(Chosen(0))],
                        map[0 := 0], multiset{}, 2)
    ensures Legal(w, Lease(0, "B", 10))
    ensures Do(w, Lease(0, "B", 10), maxRetries) == Overlap("B", 12, Reserved, Chosen(0), Leased, multiset{})
  {
    assert CaseOf(w.commands[0].payload) == Some(1);
  }

  lemma SecondWorkerMarks(maxRetries: int)
    ensures var w := Overlap("B", 12, Reserved, Chosen(0), Leased, multiset{});
            && Legal(w, Reserve(1)) && Legal(Do(w, Reserve(1), maxRetries), MarkSending(1))
            && Do(Do(w, Reserve(1), maxRetries), MarkSending(1), maxRetries) ==
                 Overlap("B", 12, Sending, Chosen(0), Marked(0), multiset{})
  {
    var w := Overlap("B", 12, Reserved, Chosen(0), Leased, multiset{});
    assert Find(w.followups, 1, "t") == Some(0);
    assert Do(w, Reserve(1), maxRetries) == Overlap("B", 12, Reserved, Chosen(0), Chosen(0), multiset{});
  }

  lemma SecondWorkerSends(maxRetries: int)
    ensures var w := Overlap("B", 12, Sending, Chosen(0), Marked(0), multiset{});
            && Legal(w, Send(1, Accepted)) && Legal(Do(w, Send(1, Accepted), maxRetries), Record(1))
            && Do(Do(w, Send(1, Accepted), maxRetries), Record(1), maxRetries) ==
                 Overlap("B", 12, Delivered, Chosen(0), Finishing(Close("SENT")), multiset{(1, "t")})
  {
    var w := Overlap("B", 12, Sending, Chosen(0), Marked(0), multiset{});
    assert Do(w, Send(1, Accepted), maxRetries) ==
             Overlap("B", 12, Sending, Chosen(0), Answered(0, Accepted), multiset{(1, "t")});
  }

  /** The second worker delivers while the first still believes in its choice. */
  lemma OverlapDelivers(maxRetries: int)
    ensures var w := Overlap("B", 12, Reserved, Chosen(0), Leased, multiset{});
            var steps := Then(Reserve(1), Then(MarkSending(1), Then(Send(1, Accepted), Then(Record(1), Stop))));
            LegalRun(w, steps, maxRetries)
            && Run(w, steps, maxRetries) ==
                 Overlap("B", 12, Delivered, Chosen(0), Finishing(Close("SENT")), multiset{(1, "t")})
  {
    var w := Overlap("B", 12, Reserved, Chosen(0), Leased, multiset{});
    SecondWorkerMarks(maxRetries);
    SecondWorkerSends(maxRetries);
    FourSteps(w, Reserve(1), MarkSending(1), Send(1, Accepted), Record(1), maxRetries);
  }

  lemma FourSteps(w: World, s0: Step, s1: Step, s2: Step, s3: Step, maxRetries: int)
    requires Legal(w, s0) && Legal(Do(w, s0, maxRetries), s1)
    requires Legal(Do(Do(w, s0, maxRetries), s1, maxRetries), s2)
    requires Legal(Do(Do(Do(w, s0, maxRetries), s1, maxRetries), s2, maxRetries), s3)
    ensures var steps := Then(s0, Then(s1, Then(s2, Then(s3, Stop))));
            LegalRun(w, steps, maxRetries)
            && Run(w, steps, maxRetries) ==
                 Do(Do(Do(Do(w, s0, maxRetries), s1, maxRetries), s2, maxRetries), s3, maxRetries)
  {
    var w1 := Do(w, s0, maxRetries);
    var w2 := Do(w1, s1, maxRetries);
    var w3 := Do(w2, s2, maxRetries);
    var tail := Then(s2, Then(s3, Stop));
    assert LegalRun(w2, tail, maxRetries);
    assert Run(w2, tail, maxRetries) == Run(w3, Then(s3, Stop), maxRetries) == Do(w3, s3, maxRetries);
  }

  lemma {:induction false} RunChains(w: World, first: Script<Step>, second: Script<Step>, maxRetries: int)
    requires LegalRun(w, first, maxRetries) && LegalRun(Run(w, first, maxRetries), second, maxRetries)
    ensures LegalRun(w, Chain(first, second), maxRetries)
    ensures Run(w, Chain(first, second), maxRetries) == Run(Run(w, first, maxRetries), second, maxRetries)
    decreases first
  {
    if first.Then? {
      RunChains(Do(w, first.step, maxRetries), first.rest, second, maxRetries);
    }
  }

  /** With none of the checks two messages arrive, starting from one fresh command. */
  lemma OverlapSendsTwice(maxRetries: int)
    ensures exists steps :: LegalRun(Start([ReminderRow(UNLOCKED)], 0), steps, maxRetries)
                            && Run(Start([ReminderRow(UNLOCKED)], 0), steps, maxRetries).deliveries[(1, "t")] == 2
  {
    var begin :=
      Then(Lease(0, "A", 1), Then(Reserve(0), Then(Other(CommandTable.Tick(2)), Then(Lease(0, "B", 10), Stop))));
    var deliver := Then(Reserve(1), Then(MarkSending(1), Then(Send(1, Accepted), Then(Record(1), Stop))));
    var again := Then(MarkSending(0), Then(Send(0, Accepted), Stop));
    var w := Start([ReminderRow(UNLOCKED)], 0);
    OverlapBegins(maxRetries);
    OverlapDelivers(maxRetries);
    StaleSenderSendsAgain(Run(Run(w, begin, maxRetries), deliver, maxRetries), 0, maxRetries);
    RunChains(Run(w, begin, maxRetries), deliver, again, maxRetries);
    RunChains(w, begin, Chain(deliver, again), maxRetries);
  }

  // ---- What a step leaves, in columns ------------------------------------------------------------------

  /** The attempt is in its next phase, the others where they were, and nothing else of the world changed but what
      `v` is said to share with u. */
  ghost predicate MovesTo(w: World, a: nat, phase: Phase, v: World) {
    && a < |w.attempts| && |v.attempts| == |w.attempts| && v.attempts[a] == w.attempts[a].(phase := phase)
    && forall b :: 0 <= b < |w.attempts| && b != a ==> v.attempts[b] == w.attempts[b]
  }

  ghost predicate Settles(t: Table, i: nat, status: Status, u: Table) {
    && |u| == |t| && (i < |t| ==> u[i] == t[i].(status := status))
    && forall j :: 0 <= j < |t| && j != i ==> u[j] == t[j]
  }

  /** The row that a thread of a case has. */
  ghost predicate HasThread(t: Table, caseId: nat, thread: string, i: nat) {
    i < |t| && t[i].caseId == caseId && t[i].thread == thread && forall j :: 0 <= j < i ==>
      t[j].caseId != caseId || t[j].thread != thread
  }

  /** The case that a payload names by a number, fractions dropped. */
  ghost predicate Identifies(payload: Json.Value, caseId: Option<nat>) {
    var field := Json.Field(payload, "telegram_case_id");
    && (caseId.Some? ==>
          && field.Some? && field.value.Number?
          && caseId.value as real <= field.value.number < caseId.value as real + 1.0)
    && (caseId.None? ==> field.None? || !field.value.Number? || field.value.number < 0.0)
  }

  /** What a worker makes of the row that it gets: a row of another command, and one that was tried, are left alone. */
  ghost predicate Chooses(w: World, a: nat, v: World)
    requires a < |w.attempts| && w.attempts[a].caseId.Some?
  {
    var me, t := w.attempts[a], w.followups;
    var caseId := me.caseId.value;
    if i: nat :| HasThread(t, caseId, me.thread, i) then
      && v.followups == t
      && MovesTo(w, a, if t[i].command == me.command && (t[i].status == Reserved || t[i].status == Canceled)
                       then Chosen(i) else Finishing(Close("SENT")), v)
    else if exists i :: 0 <= i < |t| && t[i].command == me.command then
      v.followups == t && MovesTo(w, a, Finishing(Retry), v)
    else
      && MovesTo(w, a, Chosen(|t|), v)
      && v.followups ==
           t + [Followup(caseId, me.thread, me.conversation, me.command, TopNumber(t, caseId) + 1, Reserved,
                                      None)]
  }

  /** What the worker does with the answer to its call. */
  ghost predicate Concludes(w: World, a: nat, answer: Answer, v: World)
    requires a < |w.attempts| && w.attempts[a].phase.Answered?
  {
    var r, t, u := w.attempts[a].phase.row, w.followups, v.followups;
    match answer
    case Accepted => MovesTo(w, a, Finishing(Close("SENT")), v) && Settles(t, r, Delivered, u)
    case TooManyRequests => MovesTo(w, a, Finishing(Retry), v) && Settles(t, r, Reserved, u)
    case Broken(_) => MovesTo(w, a, Finishing(Close("FAILED_DELIVERY_UNCERTAIN")), v) && Settles(t, r, Uncertain, u)
  }

  ghost predicate Leaves(w: World, s: Step, maxRetries: int, v: World)
    requires Legal(w, s)
  {
    && (s.Lease? || s.Finish? || s.Other? || v.commands == w.commands) && (s.Other? || v.now == w.now)
    && (s.Lease? || v.holder == w.holder) && (s.Send? || v.deliveries == w.deliveries)
    && (s.Reserve? || s.Cancel? || s.MarkSending? || s.Record? || s.RecordFails? || v.followups == w.followups)
    && match s
       case Lease(c, worker, seconds) =>
         var row := w.commands[c];
         && CommandTable.Rewritten(w.commands, c, row.(lock := Lock(Some(worker), Some(w.now + seconds))), v.commands)
         && v.attempts == w.attempts + [Attempt(c, row.conversation, CaseOf(row.payload), row.thread, Leased)]
         && Identifies(row.payload, CaseOf(row.payload))
         && v.holder == w.holder[c := |w.attempts|]
       case Skip(a, name) => MovesTo(w, a, Finishing(Close(name)), v)
       case Reserve(a) => Chooses(w, a, v)
       case Cancel(a) =>
         MovesTo(w, a, Finishing(Close("SENT")), v)
           && Settles(w.followups, w.attempts[a].phase.row, Canceled, v.followups)
       case MarkSending(a) =>
         var r := w.attempts[a].phase.row;
         MovesTo(w, a, Marked(r), v) && Settles(w.followups, r, Sending, v.followups)
       case Send(a, answer) =>
         var r := w.attempts[a].phase.row;
         && MovesTo(w, a, Answered(r, answer), v)
         && (r < |w.followups| ==>
               v.deliveries == w.deliveries + if answer == Accepted || answer == Broken(true)
                                              then multiset{(w.followups[r].caseId, w.followups[r].thread)}
                                              else multiset{})
       case Record(a) => Concludes(w, a, w.attempts[a].phase.answer, v)
       case RecordFails(a) => Concludes(w, a, Broken(true), v)
       case Finish(a) =>
         var c := w.attempts[a].command;
         && MovesTo(w, a, Over, v)
         && (c < |w.commands| ==>
               match w.attempts[a].phase.mark
               case Close(name) =>
                 CommandTable.Rewritten(w.commands, c, w.commands[c].(status := CommandTable.Closed(name),
                                                                     lock := Lock(None, None)), v.commands)
               case Retry => c < |v.commands| && CommandTable.Rewritten(w.commands, c, v.commands[c], v.commands)
                             && CommandTable.Counted(w.commands[c], maxRetries, v.commands[c]))
       case Throw(a) => MovesTo(w, a, Finishing(Retry), v)
       case Crash(a) => MovesTo(w, a, Over, v)
       case Other(step) =>
         && v.attempts == w.attempts
         && CommandTable.World(v.commands, v.now) ==
              CommandTable.Do(CommandTable.World(w.commands, w.now), step, maxRetries)
  }

  lemma HasThreadIs(t: Table, caseId: nat, thread: string, i: nat)
    ensures HasThread(t, caseId, thread, i) ==> Find(t, caseId, thread).Some?
    ensures Find(t, caseId, thread) == Some(i) <==> HasThread(t, caseId, thread, i)
  {
    FirstOfThread(t, caseId, thread);
  }

  lemma {:induction false} FirstOfThread(t: Table, caseId: nat, thread: string)
    ensures var i := Find(t, caseId, thread); i.Some? ==> HasThread(t, caseId, thread, i.value)
  {
    if t != [] { FirstOfThread(t[..|t| - 1], caseId, thread); }
  }

  lemma ReserveLeaves(w: World, a: nat)
    requires Legal(w, Reserve(a))
    ensures Chooses(w, a, AfterReserve(w, a))
  {
    var me := w.attempts[a];
    forall i: nat ensures HasThread(w.followups, me.caseId.value, me.thread, i) <==>
                          Find(w.followups, me.caseId.value, me.thread) == Some(i)
    {
      HasThreadIs(w.followups, me.caseId.value, me.thread, i);
    }
    var found := Find(w.followups, me.caseId.value, me.thread);
    if found.Some? { assert HasThread(w.followups, me.caseId.value, me.thread, found.value); }
  }

  lemma LeaseLeaves(w: World, s: Step, maxRetries: int)
    requires s.Lease? && Legal(w, s)
    ensures Leaves(w, s, maxRetries, Do(w, s, maxRetries))
  {
  }

  lemma SendLeaves(w: World, s: Step, maxRetries: int)
    requires s.Send? && Legal(w, s)
    ensures Leaves(w, s, maxRetries, Do(w, s, maxRetries))
  {
  }

  lemma RecordLeaves(w: World, s: Step, maxRetries: int)
    requires (s.Record? || s.RecordFails?) && Legal(w, s)
    ensures Leaves(w, s, maxRetries, Do(w, s, maxRetries))
  {
  }

  lemma FinishLeaves(w: World, s: Step, maxRetries: int)
    requires s.Finish? && Legal(w, s)
    ensures Leaves(w, s, maxRetries, Do(w, s, maxRetries))
  {
  }

  lemma MoveLeaves(w: World, s: Step, maxRetries: int)
    requires (s.Skip? || s.Cancel? || s.MarkSending? || s.Throw? || s.Crash? || s.Other?) && Legal(w, s)
    ensures Leaves(w, s, maxRetries, Do(w, s, maxRetries))
  {
  }

  /** Every step of a worker, in every column. */
  lemma StepLeaves(w: World, s: Step, maxRetries: int)
    requires Legal(w, s)
    ensures Leaves(w, s, maxRetries, Do(w, s, maxRetries))
  {
    if s.Lease? {
      LeaseLeaves(w, s, maxRetries);
    } else if s.Reserve? {
      ReserveLeaves(w, s.attempt);
    } else if s.Send? {
      SendLeaves(w, s, maxRetries);
    } else if s.Record? || s.RecordFails? {
      RecordLeaves(w, s, maxRetries);
    } else if s.Finish? {
      FinishLeaves(w, s, maxRetries);
    } else {
      MoveLeaves(w, s, maxRetries);
    }
  }
}
