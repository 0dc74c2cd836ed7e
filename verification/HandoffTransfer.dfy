/** The worker procedure that transfers a chat to a human group: wait for the
    acknowledgement, record each stage in the command's payload, transfer, hand the
    conversation over.  Several workers may run it for one command. */
module HandoffTransfer {
  import opened Base
  import CommandTable
  import Json

  const HANDOFF := "human_handoff.requested"
  const STAGE := "human_handoff_stage"
  const ATTEMPTED := "transfer_attempted"
  const SUCCEEDED := "transfer_succeeded"
  const UPDATED := "conversation_state_updated"
  const EMITTED := "result_emitted"

  type Flags = map<string, Json.Value>

  /** The acknowledgement message of a command: SENT, still to be sent, or neither. */
  datatype Ack = Sent | Waiting | Unsendable

  datatype Mark = Close(name: string) | Retry | Release

  /** Where a worker is; each name says what it has done. */
  datatype Phase =
    | Leased
    | Checked
    | Cleared
    | Attempted
    | Transferred
    | SuccessRecorded
    | Switched
    | SwitchRecorded
    | ResultWritten
    | Finishing(mark: Mark)
    | Over

  datatype Attempt = Attempt(command: nat, direct: bool, stage: Flags, emit: bool, phase: Phase)

  /** human: conversations in HUMAN_ACTIVE, which the idle timer may reopen.  The last five fields record history:
      commands whose acknowledgement was SENT at some time, the transfer calls by attempt with their outcome, and the
      commands that were transferred, switched to HUMAN_ACTIVE and given a result row. */
  datatype World = World(
    commands: CommandTable.Table, acks: map<nat, Ack>, attempts: seq<Attempt>, human: set<string>, now: int,
    ackSeen: set<nat>, calls: map<nat, bool>, transferred: set<nat>, switched: set<nat>, results: set<nat>)

  /** Whether the worker was given an outbound repository to look acknowledgements up in. */
  datatype Config = Config(checksAcks: bool, maxRetries: int)

  datatype Step =
    | Lease(command: nat, worker: string, seconds: int, emit: bool)
    | Check(attempt: nat)
    | Block(attempt: nat, name: string)
    | LookUpAck(attempt: nat)
    | RecordAttempt(attempt: nat)
    | Transfer(attempt: nat, ok: bool, otherwise: Mark)
    | RecordSuccess(attempt: nat)
    | Switch(attempt: nat)
    | RecordSwitch(attempt: nat)
    | WriteResult(attempt: nat)
    | RecordEmitted(attempt: nat)
    | Finish(attempt: nat)
    | Throw(attempt: nat)
    | Crash(attempt: nat)
    | SetAck(command: nat, ack: Ack)
    | Takeover(conversation: string)
    | Reopen(conversation: string)
    | Other(step: CommandTable.Step)

  function StageOf(payload: Json.Value): Flags {
    var stage := Json.Field(payload, STAGE);
    if stage.Some? then Json.Fields(stage.value) else map[]
  }

  predicate Direct(payload: Json.Value) {
    Json.Field(payload, "handoff_ack_mode") == Some(Json.Text("direct_notice"))
  }

  predicate On(stage: Flags, name: string) {
    name in stage && stage[name] == Json.Bool(true)
  }

  predicate At(w: World, a: nat, phase: Phase) {
    a < |w.attempts| && w.attempts[a].phase == phase && w.attempts[a].command < |w.commands|
  }

  predicate Completing(p: Phase) {
    p.Transferred? || p.SuccessRecorded? || p.Switched? || p.SwitchRecorded? || p.ResultWritten?
  }

  predicate Legal(w: World, s: Step) {
    match s
    case Lease(c, _, _, _) => CommandTable.Leasable(w.commands, w.now, c) && w.commands[c].kind == HANDOFF
    case Check(a) => At(w, a, Leased)
    case Block(a, _) => At(w, a, Checked)
    case LookUpAck(a) => At(w, a, Checked)
    case RecordAttempt(a) => At(w, a, Cleared)
    case Transfer(a, _, otherwise) => At(w, a, Attempted) && !otherwise.Release?
    case RecordSuccess(a) => At(w, a, Transferred)
    case Switch(a) => At(w, a, SuccessRecorded)
    case RecordSwitch(a) => At(w, a, Switched)
    case WriteResult(a) => At(w, a, SwitchRecorded) && w.attempts[a].emit
    case RecordEmitted(a) => At(w, a, ResultWritten) || (At(w, a, SwitchRecorded) && !w.attempts[a].emit)
    case Finish(a) => a < |w.attempts| && w.attempts[a].phase.Finishing?
    case Throw(a) => a < |w.attempts| && !w.attempts[a].phase.Over?
    case Crash(a) => a < |w.attempts|
    case SetAck(_, _) => true
    case Takeover(_) => true
    case Reopen(_) => true
    case Other(step) =>
      && !step.Lease? && !step.Merge?
      && (step.Insert? ==> Json.Field(step.command.payload, STAGE).None?)
      && CommandTable.Legal(CommandTable.World(w.commands, w.now), step)
  }

  function Moved(w: World, a: nat, phase: Phase): World
    requires a < |w.attempts|
  {
    w.(attempts := w.attempts[a := w.attempts[a].(phase := phase)])
  }

  function StagePatch(stage: Flags): Json.Value {
    Json.Object(map[STAGE := Json.Object(stage)])
  }

  /** handoff_stage[name] = value, and merge_payload_json with the whole local dict. */
  function Recorded(w: World, a: nat, name: string, value: bool, phase: Phase): World
    requires a < |w.attempts|
  {
    var stage := w.attempts[a].stage[name := Json.Bool(value)];
    w.(attempts := w.attempts[a := w.attempts[a].(stage := stage, phase := phase)],
       commands := CommandTable.PayloadMerged(w.commands, w.attempts[a].command, StagePatch(stage)))
  }

  /** The phase after the acknowledgement was looked up. */
  function AckVerdict(w: World, a: nat, config: Config): Phase
    requires a < |w.attempts|
  {
    var c := w.attempts[a].command;
    if !config.checksAcks || w.attempts[a].direct || (c in w.acks && w.acks[c] == Sent) then Cleared
    else if c in w.acks && w.acks[c] == Waiting then Finishing(Release)
    else Finishing(Close("FAILED_DEPENDENCY"))
  }

  function Granted(w: World, c: nat, worker: string, seconds: int, emit: bool): World
    requires c < |w.commands|
  {
    var payload := w.commands[c].payload;
    w.(commands := CommandTable.Stamped(w.commands, [c], Grant(worker, w.now + seconds)),
       attempts := w.attempts + [Attempt(c, Direct(payload), StageOf(payload), emit, Leased)])
  }

  /** An exception: the completing statements have their own handler, the rest is retried. */
  function Thrown(p: Phase): Phase {
    Finishing(if Completing(p) then Close("FAILED_AFTER_EXTERNAL_SUCCESS") else Retry)
  }

  function AfterFinish(w: World, a: nat, maxRetries: int): World
    requires a < |w.attempts| && w.attempts[a].phase.Finishing?
  {
    var c := w.attempts[a].command;
    Moved(w, a, Over).(commands :=
      match w.attempts[a].phase.mark
      case Close(name) => CommandTable.Marked(w.commands, c, CommandTable.Closed(name))
      case Retry => CommandTable.ProcessingFailed(w.commands, c, maxRetries)
      case Release => CommandTable.Released(w.commands, c))
  }

  function AfterTransfer(w: World, a: nat, ok: bool, otherwise: Mark): World
    requires a < |w.attempts|
  {
    var v := Moved(w, a, if ok then Transferred else Finishing(otherwise));
    v.(calls := w.calls[a := ok], transferred := if ok then w.transferred + {w.attempts[a].command} else w.transferred)
  }

  function Do(w: World, s: Step, config: Config): World
    requires Legal(w, s)
  {
    match s
    case Lease(c, worker, seconds, emit) => Granted(w, c, worker, seconds, emit)
    case Check(a) =>
      Moved(w, a, if w.commands[w.attempts[a].command].conversation in w.human
                  then Finishing(Close("SKIPPED_HUMAN_ACTIVE")) else Checked)
    case Block(a, name) => Moved(w, a, Finishing(Close(name)))
    case LookUpAck(a) => Moved(w, a, AckVerdict(w, a, config))
    case RecordAttempt(a) =>
      if On(w.attempts[a].stage, SUCCEEDED) then Moved(w, a, Finishing(Close("FAILED_AFTER_EXTERNAL_SUCCESS")))
      else Recorded(w, a, ATTEMPTED, true, Attempted)
    case Transfer(a, ok, otherwise) => AfterTransfer(w, a, ok, otherwise)
    case RecordSuccess(a) => Recorded(w, a, SUCCEEDED, true, SuccessRecorded)
    case Switch(a) =>
      var c := w.attempts[a].command;
      Moved(w, a, Switched).(human := w.human + {w.commands[c].conversation}, switched := w.switched + {c})
    case RecordSwitch(a) => Recorded(w, a, UPDATED, true, SwitchRecorded)
    case WriteResult(a) => Moved(w, a, ResultWritten).(results := w.results + {w.attempts[a].command})
    case RecordEmitted(a) => Recorded(w, a, EMITTED, w.attempts[a].emit, Finishing(Close("SENT")))
    case Finish(a) => AfterFinish(w, a, config.maxRetries)
    case Throw(a) => Moved(w, a, Thrown(w.attempts[a].phase))
    case Crash(a) => Moved(w, a, Over)
    case SetAck(c, ack) => w.(acks := w.acks[c := ack], ackSeen := if ack == Sent then w.ackSeen + {c} else w.ackSeen)
    case Takeover(conversation) => w.(human := w.human + {conversation})
    case Reopen(conversation) => w.(human := w.human - {conversation})
    case Other(step) =>
      var v := CommandTable.Do(CommandTable.World(w.commands, w.now), step, config.maxRetries);
      w.(commands := v.table, now := v.now)
  }

  predicate LegalRun(w: World, steps: Script<Step>, config: Config)
    decreases steps
  {
    match steps
    case Stop => true
    case Then(s, rest) => Legal(w, s) && LegalRun(Do(w, s, config), rest, config)
  }

  function Run(w: World, steps: Script<Step>, config: Config): World
    requires LegalRun(w, steps, config)
    decreases steps
  {
    match steps
    case Stop => w
    case Then(s, rest) => Run(Do(w, s, config), rest, config)
  }

  function Start(now: int): World {
    World([], map[], [], {}, now, {}, map[], {}, {}, {})
  }

  // ---- Stage flags --------------------------------------------------------------------------------

  predicate Plain(stage: Flags) {
    forall name :: name in stage ==> stage[name].Bool?
  }

  /** Merging a dict of flags into the payload adds it to the recorded stage and leaves every other field alone. */
  lemma MergedStage(payload: Json.Value, stage: Flags)
    requires Plain(stage)
    ensures StageOf(Json.MergePatch(payload, StagePatch(stage))) == StageOf(payload) + stage
    ensures Direct(Json.MergePatch(payload, StagePatch(stage))) == Direct(payload)
  {
    Json.PatchField(payload, STAGE, Json.Object(stage), STAGE);
    Json.PatchField(payload, STAGE, Json.Object(stage), "handoff_ack_mode");
    var before := if STAGE in Json.Fields(payload) then Json.Fields(payload)[STAGE] else Json.Null;
    var merged := Json.MergePatch(before, Json.Object(stage));
    assert merged.fields == Json.Fields(before) + stage;
  }

  /** The flags that are only ever written true, and the facts behind them. */
  predicate Truthful(w: World, c: nat, stage: Flags) {
    && Plain(stage)
    && (ATTEMPTED in stage ==> On(stage, ATTEMPTED))
    && (SUCCEEDED in stage ==> On(stage, SUCCEEDED) && c in w.transferred)
    && (UPDATED in stage ==> On(stage, UPDATED) && c in w.switched)
    && (On(stage, EMITTED) ==> c in w.results)
    && (EMITTED in stage ==> SUCCEEDED in stage)
  }

  predicate CommandSound(w: World, c: nat) {
    c < |w.commands| ==> Truthful(w, c, StageOf(w.commands[c].payload))
  }

  predicate AckCleared(w: World, a: nat, config: Config)
    requires a < |w.attempts|
  {
    !config.checksAcks || w.attempts[a].direct || w.attempts[a].command in w.ackSeen
  }

  predicate AttemptSound(w: World, a: nat, config: Config) {
    a < |w.attempts| ==>
      var me := w.attempts[a];
      var c := me.command;
      && c < |w.commands| && me.direct == Direct(w.commands[c].payload)
      && Truthful(w, c, me.stage)
      && (me.phase.Cleared? || me.phase.Attempted? || Completing(me.phase) ==> AckCleared(w, a, config))
      && (me.phase.Attempted? || Completing(me.phase) ==> On(StageOf(w.commands[c].payload), ATTEMPTED))
      && (Completing(me.phase) ==> c in w.transferred)
      && (me.phase.Attempted? || Completing(me.phase) ==> EMITTED !in me.stage)
      && (Completing(me.phase) && !me.phase.Transferred? ==> On(me.stage, SUCCEEDED))
      && (me.phase.Switched? || me.phase.SwitchRecorded? || me.phase.ResultWritten? ==> c in w.switched)
      && (me.phase.ResultWritten? ==> c in w.results)
  }

  predicate Before(p: Phase) {
    p.Leased? || p.Checked? || p.Cleared? || p.Attempted?
  }

  /** A transfer call was cleared, its intention was on record first, and its worker makes no other. */
  predicate CallSound(w: World, a: nat, config: Config) {
    a in w.calls ==>
      && a < |w.attempts| && !Before(w.attempts[a].phase) && AckCleared(w, a, config)
      && w.attempts[a].command < |w.commands|
      && On(StageOf(w.commands[w.attempts[a].command].payload), ATTEMPTED)
      && (w.calls[a] ==> w.attempts[a].command in w.transferred)
  }

  ghost predicate Sound(w: World, config: Config) {
    && (forall c: nat :: CommandSound(w, c))
    && (forall a: nat :: AttemptSound(w, a, config))
    && (forall a: nat :: CallSound(w, a, config))
    && (forall c :: c in w.acks && w.acks[c] == Sent ==> c in w.ackSeen)
  }

  // ---- Nothing recorded is lost ---------------------------------------------------------------------

  predicate CommandGrows(w: World, v: World, c: nat) {
    c < |w.commands| && c < |v.commands| ==>
      var before, after := StageOf(w.commands[c].payload), StageOf(v.commands[c].payload);
      && Direct(w.commands[c].payload) == Direct(v.commands[c].payload)
      && (On(before, ATTEMPTED) ==> On(after, ATTEMPTED))
      && (On(before, SUCCEEDED) ==> On(after, SUCCEEDED))
      && (On(before, UPDATED) ==> On(after, UPDATED))
  }

  ghost predicate Grows(w: World, v: World) {
    && |w.commands| <= |v.commands|
    && (forall c: nat :: CommandGrows(w, v, c))
    && w.ackSeen <= v.ackSeen && w.transferred <= v.transferred && w.switched <= v.switched && w.results <= v.results
  }

  /** Merging only true flags, or the emitted flag, takes none of the other flags back. */
  lemma MergeGrows(w: World, v: World, c: nat, stage: Flags, name: string, value: bool)
    requires c < |w.commands| && c < |v.commands| && Plain(stage)
    requires (ATTEMPTED in stage ==> On(stage, ATTEMPTED)) && (SUCCEEDED in stage ==> On(stage, SUCCEEDED))
    requires (UPDATED in stage ==> On(stage, UPDATED)) && (value || name == EMITTED)
    requires v.commands[c].payload ==
               Json.MergePatch(w.commands[c].payload, StagePatch(stage[name := Json.Bool(value)]))
    ensures CommandGrows(w, v, c)
  {
    MergedStage(w.commands[c].payload, stage[name := Json.Bool(value)]);
  }

  lemma RecordGrows(w: World, a: nat, name: string, value: bool, phase: Phase, config: Config)
    requires Sound(w, config) && a < |w.attempts| && (value || name == EMITTED)
    ensures Grows(w, Recorded(w, a, name, value, phase))
  {
    assert AttemptSound(w, a, config);
    var v := Recorded(w, a, name, value, phase);
    MergeGrows(w, v, w.attempts[a].command, w.attempts[a].stage, name, value);
    forall d: nat ensures CommandGrows(w, v, d) {}
  }

  predicate Records(s: Step) {
    s.RecordAttempt? || s.RecordSuccess? || s.RecordSwitch? || s.RecordEmitted?
  }

  /** Only the recording steps touch a payload. */
  lemma PayloadKept(w: World, s: Step, config: Config, c: nat)
    requires Legal(w, s) && !Records(s)
    ensures |w.commands| <= |Do(w, s, config).commands|
    ensures c < |w.commands| ==> Do(w, s, config).commands[c].payload == w.commands[c].payload
  {
  }

  lemma StepGrows(w: World, s: Step, config: Config)
    requires Sound(w, config) && Legal(w, s)
    ensures Grows(w, Do(w, s, config))
  {
    if s.RecordAttempt? {
      RecordGrows(w, s.attempt, ATTEMPTED, true, Attempted, config);
      forall c: nat ensures CommandGrows(w, w, c) {}
    } else if s.RecordSuccess? {
      RecordGrows(w, s.attempt, SUCCEEDED, true, SuccessRecorded, config);
    } else if s.RecordSwitch? {
      RecordGrows(w, s.attempt, UPDATED, true, SwitchRecorded, config);
    } else if s.RecordEmitted? {
      RecordGrows(w, s.attempt, EMITTED, w.attempts[s.attempt].emit, Finishing(Close("SENT")), config);
    } else {
      PayloadKept(w, s, config, 0);
      forall c: nat ensures CommandGrows(w, Do(w, s, config), c) { PayloadKept(w, s, config, c); }
    }
  }

  // ---- The invariant ----------------------------------------------------------------------------------

  lemma OthersStaySound(w: World, v: World, b: nat, config: Config)
    requires AttemptSound(w, b, config) && CallSound(w, b, config) && Grows(w, v)
    requires b < |w.attempts| ==> b < |v.attempts| && v.attempts[b] == w.attempts[b] && (b in v.calls <==> b in w.calls)
    requires b in w.calls ==> v.calls[b] == w.calls[b]
    requires b >= |w.attempts| ==> b !in v.calls
    ensures b < |w.attempts| ==> AttemptSound(v, b, config)
    ensures CallSound(v, b, config)
  {
    if b < |w.attempts| {
      assert CommandGrows(w, v, w.attempts[b].command);
    }
  }

  /** The flag about to be recorded is true of the command. */
  predicate Warranted(w: World, a: nat, name: string, value: bool)
    requires a < |w.attempts|
  {
    var c := w.attempts[a].command;
    && (name == ATTEMPTED || name == SUCCEEDED || name == UPDATED || name == EMITTED) && (value || name == EMITTED)
    && (name == SUCCEEDED ==> c in w.transferred)
    && (name == UPDATED ==> c in w.switched)
    && (name == EMITTED ==> SUCCEEDED in w.attempts[a].stage && (value ==> c in w.results))
  }

  lemma RecordedFacts(w: World, a: nat, name: string, value: bool, phase: Phase, config: Config)
    requires Sound(w, config) && a < |w.attempts| && Warranted(w, a, name, value)
    ensures var v := Recorded(w, a, name, value, phase);
            var c := w.attempts[a].command;
            && c < |v.commands| && Direct(v.commands[c].payload) == Direct(w.commands[c].payload)
            && Truthful(v, c, v.attempts[a].stage)
            && StageOf(v.commands[c].payload) == StageOf(w.commands[c].payload) + v.attempts[a].stage
  {
    var v := Recorded(w, a, name, value, phase);
    assert AttemptSound(w, a, config);
    MergedStage(w.commands[w.attempts[a].command].payload, v.attempts[a].stage);
  }

  lemma RecordedCommands(w: World, a: nat, name: string, value: bool, phase: Phase, config: Config, d: nat)
    requires Sound(w, config) && a < |w.attempts| && Warranted(w, a, name, value)
    ensures CommandSound(Recorded(w, a, name, value, phase), d)
  {
    assert CommandSound(w, d);
    RecordedFacts(w, a, name, value, phase, config);
  }

  lemma RecordedSound(w: World, a: nat, name: string, value: bool, phase: Phase, config: Config)
    requires Sound(w, config) && a < |w.attempts| && Warranted(w, a, name, value)
    requires var v := Recorded(w, a, name, value, phase);
             AttemptSound(v, a, config) && CallSound(v, a, config)
    ensures Sound(Recorded(w, a, name, value, phase), config)
  {
    var v := Recorded(w, a, name, value, phase);
    RecordGrows(w, a, name, value, phase, config);
    forall d: nat ensures CommandSound(v, d) { RecordedCommands(w, a, name, value, phase, config, d); }
    forall b: nat ensures AttemptSound(v, b, config) && CallSound(v, b, config) {
      assert AttemptSound(w, b, config) && CallSound(w, b, config);
      if b != a { OthersStaySound(w, v, b, config); }
    }
  }

  lemma RecordAttemptSound(w: World, a: nat, config: Config)
    requires Sound(w, config) && Legal(w, RecordAttempt(a)) && !On(w.attempts[a].stage, SUCCEEDED)
    ensures Sound(Do(w, RecordAttempt(a), config), config)
  {
    assert AttemptSound(w, a, config) && CallSound(w, a, config);
    RecordedFacts(w, a, ATTEMPTED, true, Attempted, config);
    RecordedSound(w, a, ATTEMPTED, true, Attempted, config);
  }

  lemma RecordSuccessSound(w: World, a: nat, config: Config)
    requires Sound(w, config) && Legal(w, RecordSuccess(a))
    ensures Sound(Do(w, RecordSuccess(a), config), config)
  {
    assert AttemptSound(w, a, config) && CallSound(w, a, config);
    RecordedFacts(w, a, SUCCEEDED, true, SuccessRecorded, config);
    RecordedSound(w, a, SUCCEEDED, true, SuccessRecorded, config);
  }

  lemma RecordSwitchSound(w: World, a: nat, config: Config)
    requires Sound(w, config) && Legal(w, RecordSwitch(a))
    ensures Sound(Do(w, RecordSwitch(a), config), config)
  {
    assert AttemptSound(w, a, config) && CallSound(w, a, config);
    RecordedFacts(w, a, UPDATED, true, SwitchRecorded, config);
    RecordedSound(w, a, UPDATED, true, SwitchRecorded, config);
  }

  lemma EmittedWarranted(w: World, a: nat, config: Config)
    requires AttemptSound(w, a, config) && Legal(w, RecordEmitted(a))
    ensures Warranted(w, a, EMITTED, w.attempts[a].emit)
  {
  }

  lemma EmittedAttemptSound(w: World, a: nat, config: Config)
    requires Sound(w, config) && Legal(w, RecordEmitted(a))
    ensures var v := Do(w, RecordEmitted(a), config); AttemptSound(v, a, config) && CallSound(v, a, config)
  {
    assert AttemptSound(w, a, config) && CallSound(w, a, config);
    EmittedWarranted(w, a, config);
    RecordedFacts(w, a, EMITTED, w.attempts[a].emit, Finishing(Close("SENT")), config);
  }

  lemma RecordEmittedSound(w: World, a: nat, config: Config)
    requires Sound(w, config) && Legal(w, RecordEmitted(a))
    ensures Sound(Do(w, RecordEmitted(a), config), config)
  {
    EmittedAttemptSound(w, a, config);
    assert AttemptSound(w, a, config);
    EmittedWarranted(w, a, config);
    RecordedSound(w, a, EMITTED, w.attempts[a].emit, Finishing(Close("SENT")), config);
  }

  lemma PayloadsKeptSound(w: World, s: Step, config: Config, c: nat)
    requires Sound(w, config) && Legal(w, s) && !Records(s) && Grows(w, Do(w, s, config))
    ensures CommandSound(Do(w, s, config), c)
  {
    assert CommandSound(w, c);
    PayloadKept(w, s, config, c);
    if s.Other? && c >= |w.commands| { NewCommandSound(w, s, config, c); }
  }

  lemma NewCommandSound(w: World, s: Step, config: Config, c: nat)
    requires Legal(w, s) && s.Other? && c >= |w.commands|
    ensures CommandSound(Do(w, s, config), c)
  {
  }

  lemma StoppedSound(w: World, v: World, x: nat, phase: Phase, config: Config, a: nat)
    requires AttemptSound(w, a, config) && CallSound(w, a, config) && Grows(w, v)
    requires x < |w.attempts| && (phase.Finishing? || phase.Over?)
    requires v.attempts == w.attempts[x := w.attempts[x].(phase := phase)] && v.calls == w.calls
    ensures AttemptSound(v, a, config) && CallSound(v, a, config)
  {
    if a < |w.attempts| { assert CommandGrows(w, v, w.attempts[a].command); }
  }

  lemma StopsSound(w: World, s: Step, config: Config, a: nat)
    requires Sound(w, config) && Legal(w, s) && Grows(w, Do(w, s, config))
    requires s.Block? || s.Finish? || s.Throw? || s.Crash?
    ensures AttemptSound(Do(w, s, config), a, config) && CallSound(Do(w, s, config), a, config)
  {
    assert AttemptSound(w, a, config) && CallSound(w, a, config);
    StoppedSound(w, Do(w, s, config), s.attempt, Do(w, s, config).attempts[s.attempt].phase, config, a);
  }

  lemma CheckSound(w: World, a: nat, config: Config)
    requires AttemptSound(w, a, config) && CallSound(w, a, config) && Legal(w, Check(a))
    ensures AttemptSound(Do(w, Check(a), config), a, config) && CallSound(Do(w, Check(a), config), a, config)
  {
  }

  /** A worker is cleared only in a world whose acknowledgement is SENT, or where none is needed. */
  lemma LookUpSound(w: World, a: nat, config: Config)
    requires Sound(w, config) && Legal(w, LookUpAck(a))
    ensures AttemptSound(Do(w, LookUpAck(a), config), a, config) && CallSound(Do(w, LookUpAck(a), config), a, config)
  {
    assert AttemptSound(w, a, config) && CallSound(w, a, config);
  }

  lemma TransferSound(w: World, s: Step, config: Config)
    requires s.Transfer? && Legal(w, s) && AttemptSound(w, s.attempt, config) && CallSound(w, s.attempt, config)
    ensures AttemptSound(Do(w, s, config), s.attempt, config) && CallSound(Do(w, s, config), s.attempt, config)
  {
  }

  lemma HandOverSound(w: World, s: Step, config: Config)
    requires (s.Switch? || s.WriteResult?) && Legal(w, s)
    requires AttemptSound(w, s.attempt, config) && CallSound(w, s.attempt, config)
    ensures AttemptSound(Do(w, s, config), s.attempt, config) && CallSound(Do(w, s, config), s.attempt, config)
  {
  }

  lemma MovesSound(w: World, s: Step, config: Config, a: nat)
    requires Sound(w, config) && Legal(w, s) && Grows(w, Do(w, s, config))
    requires s.Check? || s.LookUpAck? || s.Transfer? || s.Switch? || s.WriteResult?
    ensures AttemptSound(Do(w, s, config), a, config) && CallSound(Do(w, s, config), a, config)
  {
    assert AttemptSound(w, a, config) && CallSound(w, a, config);
    if a != s.attempt {
      OthersStaySound(w, Do(w, s, config), a, config);
    } else if s.Check? {
      CheckSound(w, a, config);
    } else if s.LookUpAck? {
      LookUpSound(w, a, config);
    } else if s.Transfer? {
      TransferSound(w, s, config);
    } else {
      HandOverSound(w, s, config);
    }
  }

  lemma LeaseSound(w: World, s: Step, config: Config, a: nat)
    requires Sound(w, config) && Legal(w, s) && Grows(w, Do(w, s, config)) && s.Lease?
    ensures AttemptSound(Do(w, s, config), a, config) && CallSound(Do(w, s, config), a, config)
  {
    assert AttemptSound(w, a, config) && CallSound(w, a, config) && CommandSound(w, s.command);
    OthersStaySound(w, Do(w, s, config), a, config);
  }

  lemma EnvironmentSound(w: World, s: Step, config: Config, a: nat)
    requires Sound(w, config) && Legal(w, s) && Grows(w, Do(w, s, config))
             && (s.SetAck? || s.Takeover? || s.Reopen? || s.Other?)
    ensures AttemptSound(Do(w, s, config), a, config) && CallSound(Do(w, s, config), a, config)
  {
    assert AttemptSound(w, a, config) && CallSound(w, a, config);
    OthersStaySound(w, Do(w, s, config), a, config);
  }

  lemma StepSound(w: World, s: Step, config: Config)
    requires Sound(w, config) && Legal(w, s)
    ensures Sound(Do(w, s, config), config)
  {
    var v := Do(w, s, config);
    if s.RecordAttempt? && !On(w.attempts[s.attempt].stage, SUCCEEDED) {
      RecordAttemptSound(w, s.attempt, config);
    } else if s.RecordSuccess? {
      RecordSuccessSound(w, s.attempt, config);
    } else if s.RecordSwitch? {
      RecordSwitchSound(w, s.attempt, config);
    } else if s.RecordEmitted? {
      RecordEmittedSound(w, s.attempt, config);
    } else if s.RecordAttempt? {
      GivesUpSound(w, s.attempt, config);
    } else {
      StepGrows(w, s, config);
      forall c: nat ensures CommandSound(v, c) { PayloadsKeptSound(w, s, config, c); }
      forall a: nat ensures AttemptSound(v, a, config) && CallSound(v, a, config) {
        if s.Lease? { LeaseSound(w, s, config, a); }
        else if s.SetAck? || s.Takeover? || s.Reopen? || s.Other? { EnvironmentSound(w, s, config, a); }
        else if s.Block? || s.Finish? || s.Throw? || s.Crash? { StopsSound(w, s, config, a); }
        else { MovesSound(w, s, config, a); }
      }
    }
  }

  lemma GivesUpSound(w: World, a: nat, config: Config)
    requires Sound(w, config) && a < |w.attempts| && w.attempts[a].phase.Cleared?
    ensures Sound(Moved(w, a, Finishing(Close("FAILED_AFTER_EXTERNAL_SUCCESS"))), config)
  {
    var v := Moved(w, a, Finishing(Close("FAILED_AFTER_EXTERNAL_SUCCESS")));
    forall c: nat ensures CommandSound(v, c) { assert CommandSound(w, c); }
    forall b: nat ensures AttemptSound(v, b, config) && CallSound(v, b, config) {
      assert AttemptSound(w, b, config) && CallSound(w, b, config);
    }
  }

  lemma {:induction false} RunSound(w: World, steps: Script<Step>, config: Config)
    requires Sound(w, config) && LegalRun(w, steps, config)
    ensures Sound(Run(w, steps, config), config) && Grows(w, Run(w, steps, config))
    decreases steps
  {
    if steps.Then? {
      var v := Do(w, steps.step, config);
      StepSound(w, steps.step, config);
      StepGrows(w, steps.step, config);
      RunSound(v, steps.rest, config);
      GrowsTransitive(w, v, Run(v, steps.rest, config));
    } else {
      forall c: nat ensures CommandGrows(w, w, c) {}
    }
  }

  lemma GrowsTransitive(u: World, v: World, w: World)
    requires Grows(u, v) && Grows(v, w)
    ensures Grows(u, w)
  {
    forall c: nat ensures CommandGrows(u, w, c) { assert CommandGrows(u, v, c) && CommandGrows(v, w, c); }
  }

  // ---- Main results ----------------------------------------------------------------------------------

  lemma StartSound(now: int, config: Config)
    ensures Sound(Start(now), config)
  {
  }

  /** A worker calls LiveChat's transfer only after the acknowledgement of its command was SENT, unless the command
      asks for a direct notice, and only after the intention was recorded in the payload. */
  lemma TransferAfterAck(now: int, steps: Script<Step>, config: Config, a: nat)
    requires LegalRun(Start(now), steps, config) && a in Run(Start(now), steps, config).calls
    ensures var w := Run(Start(now), steps, config);
            && a < |w.attempts| && w.attempts[a].command < |w.commands|
            && var payload := w.commands[w.attempts[a].command].payload;
            && (config.checksAcks && !Direct(payload) ==> w.attempts[a].command in w.ackSeen)
            && On(StageOf(payload), ATTEMPTED)
  {
    StartSound(now, config);
    RunSound(Start(now), steps, config);
    var w := Run(Start(now), steps, config);
    assert AttemptSound(w, a, config) && CallSound(w, a, config);
  }

  /** Once recorded, the three transfer stages stay recorded, whatever stale workers merge. */
  lemma StagesMonotone(now: int, steps: Script<Step>, later: Script<Step>, config: Config, c: nat, name: string)
    requires LegalRun(Start(now), steps, config) && LegalRun(Run(Start(now), steps, config), later, config)
    requires name == ATTEMPTED || name == SUCCEEDED || name == UPDATED
    requires var w := Run(Start(now), steps, config); c < |w.commands| && On(StageOf(w.commands[c].payload), name)
    ensures var v := Run(Run(Start(now), steps, config), later, config);
            c < |v.commands| && On(StageOf(v.commands[c].payload), name)
  {
    StartSound(now, config);
    RunSound(Start(now), steps, config);
    var w := Run(Start(now), steps, config);
    RunSound(w, later, config);
    assert CommandGrows(w, Run(w, later, config), c);
  }

  /** Every recorded stage happened: success means a transfer call succeeded, and so on. */
  lemma StagesTruthful(now: int, steps: Script<Step>, config: Config, c: nat)
    requires LegalRun(Start(now), steps, config) && c < |Run(Start(now), steps, config).commands|
    ensures var w := Run(Start(now), steps, config);
            var stage := StageOf(w.commands[c].payload);
            && (SUCCEEDED in stage ==> c in w.transferred)
            && (UPDATED in stage ==> c in w.switched)
            && (On(stage, EMITTED) ==> c in w.results)
  {
    StartSound(now, config);
    RunSound(Start(now), steps, config);
    assert CommandSound(Run(Start(now), steps, config), c);
  }

  // ---- No second transfer after success is on record ---------------------------------------------------

  /** Attempts numbered from `first` on were granted after the command's success was recorded. */
  predicate Barred(w: World, c: nat, first: nat, a: nat) {
    first <= a < |w.attempts| && w.attempts[a].command == c ==>
      && On(w.attempts[a].stage, SUCCEEDED) && a !in w.calls
      && !w.attempts[a].phase.Attempted? && !Completing(w.attempts[a].phase)
  }

  /** Attempted is reached only without success in the worker's own copy. */
  lemma AttemptHistory(w: World, s: Step, config: Config, a: nat)
    requires Legal(w, s) && a < |w.attempts| && Do(w, s, config).attempts[a].phase.Attempted?
    ensures w.attempts[a].phase.Attempted? || !On(w.attempts[a].stage, SUCCEEDED)
  {
  }

  predicate Continues(s: Step) {
    s.Transfer? || s.RecordSuccess? || s.Switch? || s.RecordSwitch? || s.WriteResult?
  }

  /** Completion is reached only from Attempted. */
  lemma CompletionHistory(w: World, s: Step, config: Config, a: nat)
    requires Legal(w, s) && a < |w.attempts| && Completing(Do(w, s, config).attempts[a].phase)
    ensures w.attempts[a].phase.Attempted? || Completing(w.attempts[a].phase)
  {
    if !Continues(s) { CompletionElsewhere(w, s, config, a); }
  }

  predicate ByOther(s: Step, a: nat) {
    s.Lease? || s.SetAck? || s.Takeover? || s.Reopen? || s.Other? || s.attempt != a
  }

  /** A step of another worker or of the environment leaves an attempt alone. */
  lemma Bystander(w: World, s: Step, config: Config, a: nat)
    requires Legal(w, s) && a < |w.attempts| && ByOther(s, a)
    ensures a < |Do(w, s, config).attempts| && Do(w, s, config).attempts[a] == w.attempts[a]
  {
  }

  lemma CompletionElsewhere(w: World, s: Step, config: Config, a: nat)
    requires Legal(w, s) && a < |w.attempts| && !Continues(s)
    ensures Completing(Do(w, s, config).attempts[a].phase) ==> Completing(w.attempts[a].phase)
  {
    if ByOther(s, a) { Bystander(w, s, config, a); } else { OwnStepStopsShort(w, s, config, a); }
  }

  lemma OwnStepStopsShort(w: World, s: Step, config: Config, a: nat)
    requires Legal(w, s) && a < |w.attempts| && !Continues(s) && !ByOther(s, a)
    ensures !Completing(Do(w, s, config).attempts[a].phase)
  {
  }

  /** A call is made from Attempted. */
  lemma CallHistory(w: World, s: Step, config: Config, a: nat)
    requires Legal(w, s) && a in Do(w, s, config).calls && a !in w.calls
    ensures a < |w.attempts| && w.attempts[a].phase.Attempted?
  {
  }

  lemma AttemptKeeps(w: World, s: Step, config: Config, a: nat)
    requires Legal(w, s) && a < |w.attempts|
    ensures a < |Do(w, s, config).attempts| && Do(w, s, config).attempts[a].command == w.attempts[a].command
    ensures On(w.attempts[a].stage, SUCCEEDED) ==> On(Do(w, s, config).attempts[a].stage, SUCCEEDED)
  {
  }

  lemma GranteeBarred(w: World, s: Step, config: Config, c: nat, first: nat, a: nat)
    requires Sound(w, config) && Legal(w, s) && a >= |w.attempts|
    requires c < |w.commands| && On(StageOf(w.commands[c].payload), SUCCEEDED)
    ensures Barred(Do(w, s, config), c, first, a)
  {
    assert CallSound(w, a, config);
    if s.Lease? {} else { assert |Do(w, s, config).attempts| == |w.attempts|; }
  }

  lemma StepStaysBarred(w: World, s: Step, config: Config, c: nat, first: nat, a: nat)
    requires Sound(w, config) && Legal(w, s) && Barred(w, c, first, a)
    requires c < |w.commands| && On(StageOf(w.commands[c].payload), SUCCEEDED)
    ensures Barred(Do(w, s, config), c, first, a)
  {
    if a >= |w.attempts| {
      GranteeBarred(w, s, config, c, first, a);
    } else {
      AttemptKeeps(w, s, config, a);
      if Do(w, s, config).attempts[a].phase.Attempted? { AttemptHistory(w, s, config, a); }
      if Completing(Do(w, s, config).attempts[a].phase) { CompletionHistory(w, s, config, a); }
      if a in Do(w, s, config).calls && a !in w.calls { CallHistory(w, s, config, a); }
    }
  }

  lemma {:induction false} NoTransferAfterSuccess(w: World, steps: Script<Step>, config: Config, c: nat, first: nat,
                                                  a: nat)
    requires Sound(w, config) && LegalRun(w, steps, config) && Barred(w, c, first, a)
    requires c < |w.commands| && On(StageOf(w.commands[c].payload), SUCCEEDED)
    ensures Barred(Run(w, steps, config), c, first, a)
    decreases steps
  {
    if steps.Then? {
      var v := Do(w, steps.step, config);
      StepSound(w, steps.step, config);
      StepGrows(w, steps.step, config);
      assert CommandGrows(w, v, c);
      StepStaysBarred(w, steps.step, config, c, first, a);
      NoTransferAfterSuccess(v, steps.rest, config, c, first, a);
    }
  }

  /** No attempt granted after `transfer_succeeded` is on record ever calls transfer. */
  lemma SuccessEndsTransfers(now: int, steps: Script<Step>, later: Script<Step>, config: Config, c: nat, a: nat)
    requires LegalRun(Start(now), steps, config) && LegalRun(Run(Start(now), steps, config), later, config)
    requires var w := Run(Start(now), steps, config);
             c < |w.commands| && On(StageOf(w.commands[c].payload), SUCCEEDED) && a >= |w.attempts|
    ensures var v := Run(Run(Start(now), steps, config), later, config);
            a < |v.attempts| && v.attempts[a].command == c ==> a !in v.calls
  {
    StartSound(now, config);
    RunSound(Start(now), steps, config);
    var w := Run(Start(now), steps, config);
    NoTransferAfterSuccess(w, later, config, c, |w.attempts|, a);
  }

  // ---- The result_emitted flag ---------------------------------------------------------------------------

  predicate Emitted(w: World, c: nat) {
    c < |w.commands| && On(StageOf(w.commands[c].payload), EMITTED)
  }

  lemma MergeKeepsEmitted(w: World, a: nat, name: string, phase: Phase, config: Config, c: nat)
    requires Sound(w, config) && a < |w.attempts| && Warranted(w, a, name, true)
    requires EMITTED !in w.attempts[a].stage && name != EMITTED
    ensures Emitted(w, c) ==> Emitted(Recorded(w, a, name, true, phase), c)
  {
    RecordedFacts(w, a, name, true, phase, config);
  }

  lemma RecordEmittedWrites(w: World, a: nat, config: Config, c: nat)
    requires Sound(w, config) && Legal(w, RecordEmitted(a))
    ensures var v := Do(w, RecordEmitted(a), config);
            Emitted(v, c) <==> if c == w.attempts[a].command then w.attempts[a].emit else Emitted(w, c)
  {
    assert AttemptSound(w, a, config);
    RecordedFacts(w, a, EMITTED, w.attempts[a].emit, Finishing(Close("SENT")), config);
  }

  /** The flag that says a result was emitted can be lost, in exactly one way: a worker that does not emit
      results finishes a transfer of the same command. */
  lemma EmittedKeptIff(w: World, s: Step, config: Config, c: nat)
    requires Sound(w, config) && Legal(w, s) && Emitted(w, c)
    ensures Emitted(Do(w, s, config), c) <==>
            !(s.RecordEmitted? && w.attempts[s.attempt].command == c && !w.attempts[s.attempt].emit)
  {
    if s.RecordEmitted? {
      RecordEmittedWrites(w, s.attempt, config, c);
    } else if !Records(s) {
      PayloadKept(w, s, config, c);
    } else {
      assert AttemptSound(w, s.attempt, config);
      if s.RecordAttempt? && !On(w.attempts[s.attempt].stage, SUCCEEDED) {
        MergeKeepsEmitted(w, s.attempt, ATTEMPTED, Attempted, config, c);
      } else if s.RecordSuccess? {
        MergeKeepsEmitted(w, s.attempt, SUCCEEDED, SuccessRecorded, config, c);
      } else if s.RecordSwitch? {
        MergeKeepsEmitted(w, s.attempt, UPDATED, SwitchRecorded, config, c);
      }
    }
  }

  /** Only attempt a moved, to the given phase. */
  predicate Advanced(w: World, v: World, a: nat, phase: Phase) {
    && a < |w.attempts| && |v.attempts| == |w.attempts| && |v.commands| == |w.commands|
    && At(v, a, phase) && v.attempts[a].command == w.attempts[a].command && v.attempts[a].emit == w.attempts[a].emit
    && forall b :: 0 <= b < |w.attempts| && b != a ==> v.attempts[b] == w.attempts[b]
  }

  /** What a worker does from the cleared acknowledgement to its last stage record. */
  function Completion(a: nat, emit: bool): Script<Step> {
    var emitting := Then(RecordEmitted(a), Stop);
    Then(RecordAttempt(a), Then(Transfer(a, true, Retry), Then(RecordSuccess(a), Then(Switch(a), Then(RecordSwitch(a),
      if emit then Then(WriteResult(a), emitting) else emitting)))))
  }

  /** The run ends the attempt with its own word on whether a result was emitted. */
  predicate Ends(w: World, a: nat, steps: Script<Step>, config: Config) {
    && LegalRun(w, steps, config)
    && Advanced(w, Run(w, steps, config), a, Finishing(Close("SENT")))
    && (Emitted(Run(w, steps, config), w.attempts[a].command) <==> w.attempts[a].emit)
  }

  lemma EndsFromNext(w: World, s: Step, a: nat, phase: Phase, rest: Script<Step>, config: Config)
    requires Sound(w, config) && Legal(w, s) && Advanced(w, Do(w, s, config), a, phase)
    requires Ends(Do(w, s, config), a, rest, config)
    ensures Ends(w, a, Then(s, rest), config)
  {
    assert Run(w, Then(s, rest), config) == Run(Do(w, s, config), rest, config);
  }

  lemma EndsWithEmitted(w: World, a: nat, config: Config)
    requires Sound(w, config) && Legal(w, RecordEmitted(a))
    ensures Ends(w, a, Then(RecordEmitted(a), Stop), config)
  {
    RecordEmittedWrites(w, a, config, w.attempts[a].command);
    assert Run(w, Then(RecordEmitted(a), Stop), config) == Do(w, RecordEmitted(a), config);
  }

  lemma LastStageEmitting(w: World, a: nat, config: Config)
    requires Sound(w, config) && At(w, a, SwitchRecorded) && w.attempts[a].emit
    ensures Ends(w, a, Then(WriteResult(a), Then(RecordEmitted(a), Stop)), config)
  {
    StepSound(w, WriteResult(a), config);
    EndsWithEmitted(Do(w, WriteResult(a), config), a, config);
    EndsFromNext(w, WriteResult(a), a, ResultWritten, Then(RecordEmitted(a), Stop), config);
  }

  lemma LastStage(w: World, a: nat, config: Config)
    requires Sound(w, config) && At(w, a, SwitchRecorded)
    ensures Ends(w, a, Completion(a, w.attempts[a].emit).rest.rest.rest.rest.rest, config)
  {
    if w.attempts[a].emit { LastStageEmitting(w, a, config); } else { EndsWithEmitted(w, a, config); }
  }

  lemma FromSwitched(w: World, a: nat, config: Config)
    requires Sound(w, config) && At(w, a, Switched)
    ensures Ends(w, a, Completion(a, w.attempts[a].emit).rest.rest.rest.rest, config)
  {
    StepSound(w, RecordSwitch(a), config);
    LastStage(Do(w, RecordSwitch(a), config), a, config);
    EndsFromNext(w, RecordSwitch(a), a, SwitchRecorded,
                 Completion(a, w.attempts[a].emit).rest.rest.rest.rest.rest, config);
  }

  lemma FromSuccess(w: World, a: nat, config: Config)
    requires Sound(w, config) && At(w, a, SuccessRecorded)
    ensures Ends(w, a, Completion(a, w.attempts[a].emit).rest.rest.rest, config)
  {
    StepSound(w, Switch(a), config);
    FromSwitched(Do(w, Switch(a), config), a, config);
    EndsFromNext(w, Switch(a), a, Switched, Completion(a, w.attempts[a].emit).rest.rest.rest.rest, config);
  }

  lemma FromTransferred(w: World, a: nat, config: Config)
    requires Sound(w, config) && At(w, a, Transferred)
    ensures Ends(w, a, Completion(a, w.attempts[a].emit).rest.rest, config)
  {
    StepSound(w, RecordSuccess(a), config);
    FromSuccess(Do(w, RecordSuccess(a), config), a, config);
    EndsFromNext(w, RecordSuccess(a), a, SuccessRecorded, Completion(a, w.attempts[a].emit).rest.rest.rest, config);
  }

  lemma FromAttempted(w: World, a: nat, config: Config)
    requires Sound(w, config) && At(w, a, Attempted)
    ensures Ends(w, a, Completion(a, w.attempts[a].emit).rest, config)
  {
    var transfer := Transfer(a, true, Retry);
    StepSound(w, transfer, config);
    FromTransferred(Do(w, transfer, config), a, config);
    EndsFromNext(w, transfer, a, Transferred, Completion(a, w.attempts[a].emit).rest.rest, config);
  }

  lemma Completes(w: World, a: nat, config: Config)
    requires Sound(w, config) && At(w, a, Cleared) && !On(w.attempts[a].stage, SUCCEEDED)
    ensures Ends(w, a, Completion(a, w.attempts[a].emit), config)
  {
    StepSound(w, RecordAttempt(a), config);
    FromAttempted(Do(w, RecordAttempt(a), config), a, config);
    EndsFromNext(w, RecordAttempt(a), a, Attempted, Completion(a, w.attempts[a].emit).rest, config);
  }

  function Request(lock: Lock): CommandTable.Command {
    CommandTable.Command("c", "t", HANDOFF, "key", Json.Object(map["handoff_ack_mode" := Json.Text("direct_notice")]),
                         CommandTable.Pending, 0, 0, lock)
  }

  function Clearing(worker: string, until: int, now: int, attempts: seq<Attempt>): World {
    Start(now).(commands := [Request(Grant(worker, until))], attempts := attempts)
  }

  function ClearedAttempt(emit: bool): Attempt {
    Attempt(0, true, map[], emit, Cleared)
  }

  function Clearance(a: nat, worker: string, seconds: int, emit: bool): Script<Step> {
    Then(Lease(0, worker, seconds, emit), Then(Check(a), Then(LookUpAck(a), Stop)))
  }

  /** The start check and the look-up both pass. */
  lemma ChecksPass(w: World, a: nat, config: Config)
    requires At(w, a, Leased) && w.attempts[a].direct && w.human == {}
    ensures var steps := Then(Check(a), Then(LookUpAck(a), Stop));
            LegalRun(w, steps, config) && Run(w, steps, config) == Moved(w, a, Cleared)
  {
    var v := Do(w, Check(a), config);
    var u := Do(v, LookUpAck(a), config);
    assert u.attempts == Moved(w, a, Cleared).attempts;
    assert Run(v, Then(LookUpAck(a), Stop), config) == u == Moved(w, a, Cleared);
  }

  lemma OneCleared(lock: Lock, attempts: seq<Attempt>, worker: string, seconds: int, emit: bool, now: int,
                   config: Config)
    requires Free(lock, now)
    ensures var w := Start(now).(commands := [Request(lock)], attempts := attempts);
            var steps := Clearance(|attempts|, worker, seconds, emit);
            && LegalRun(w, steps, config)
            && Run(w, steps, config) == Clearing(worker, now + seconds, now, attempts + [ClearedAttempt(emit)])
  {
    var w := Start(now).(commands := [Request(lock)], attempts := attempts);
    var a := |attempts|;
    assert StageOf(Request(lock).payload) == map[] && Direct(Request(lock).payload);
    var v := Clearing(worker, now + seconds, now, attempts + [ClearedAttempt(emit).(phase := Leased)]);
    assert Do(w, Lease(0, worker, seconds, emit), config) == v;
    ChecksPass(v, a, config);
    assert Moved(v, a, Cleared).attempts == attempts + [ClearedAttempt(emit)];
  }

  lemma {:induction false} RunChains(w: World, first: Script<Step>, second: Script<Step>, config: Config)
    requires LegalRun(w, first, config) && LegalRun(Run(w, first, config), second, config)
    ensures LegalRun(w, Chain(first, second), config)
    ensures Run(w, Chain(first, second), config) == Run(Run(w, first, config), second, config)
    decreases first
  {
    if first.Then? {
      RunChains(Do(w, first.step, config), first.rest, second, config);
    }
  }

  lemma SecondCleared(config: Config)
    ensures var w := Clearing("A", 1, 0, [ClearedAttempt(true)]);
            var steps := Then(Other(CommandTable.Tick(2)), Clearance(1, "B", 10, false));
            && LegalRun(w, steps, config)
            && Run(w, steps, config) == Clearing("B", 12, 2, [ClearedAttempt(true), ClearedAttempt(false)])
  {
    OneCleared(Grant("A", 1), [ClearedAttempt(true)], "B", 10, false, 2, config);
    assert [ClearedAttempt(true)] + [ClearedAttempt(false)] == [ClearedAttempt(true), ClearedAttempt(false)];
    assert Do(Clearing("A", 1, 0, [ClearedAttempt(true)]), Other(CommandTable.Tick(2)), config) ==
           Clearing("A", 1, 2, [ClearedAttempt(true)]);
  }

  function BothClearing(): Script<Step> {
    Then(Other(CommandTable.Insert(Request(UNLOCKED))),
      Chain(Clearance(0, "A", 1, true), Then(Other(CommandTable.Tick(2)), Clearance(1, "B", 10, false))))
  }

  lemma BothClearedAfterInsert(config: Config)
    ensures var w := Start(0).(commands := [Request(UNLOCKED)]);
            && LegalRun(w, BothClearing().rest, config)
            && Run(w, BothClearing().rest, config) ==
                 Clearing("B", 12, 2, [ClearedAttempt(true), ClearedAttempt(false)])
  {
    var w := Start(0).(commands := [Request(UNLOCKED)]);
    assert w == Start(0).(commands := [Request(UNLOCKED)], attempts := []);
    OneCleared(UNLOCKED, [], "A", 1, true, 0, config);
    assert [] + [ClearedAttempt(true)] == [ClearedAttempt(true)];
    SecondCleared(config);
    RunChains(w, Clearance(0, "A", 1, true), Then(Other(CommandTable.Tick(2)), Clearance(1, "B", 10, false)), config);
  }

  /** Two workers clear one command one after the other's lease. */
  lemma BothCleared(config: Config)
    ensures LegalRun(Start(0), BothClearing(), config)
    ensures Run(Start(0), BothClearing(), config) ==
            Clearing("B", 12, 2, [ClearedAttempt(true), ClearedAttempt(false)])
  {
    BothClearedAfterInsert(config);
    assert Do(Start(0), BothClearing().step, config) == Start(0).(commands := [Request(UNLOCKED)]);
  }

  /** The worker that emits completes first, the other one after it. */
  lemma SecondLosesFlag(w: World, config: Config)
    requires Sound(w, config) && w == Clearing("B", 12, 2, [ClearedAttempt(true), ClearedAttempt(false)])
    ensures var first, second := Completion(0, true), Completion(1, false);
            && LegalRun(w, first, config) && Emitted(Run(w, first, config), 0)
            && LegalRun(Run(w, first, config), second, config)
            && 0 < |Run(Run(w, first, config), second, config).commands|
            && !Emitted(Run(Run(w, first, config), second, config), 0)
  {
    Completes(w, 0, config);
    var v := Run(w, Completion(0, true), config);
    RunSound(w, Completion(0, true), config);
    assert v.attempts[1] == ClearedAttempt(false);
    Completes(v, 1, config);
  }

  /** A run in which the flag is recorded and then lost. */
  lemma EmittedFlagCanBeLost(config: Config)
    ensures exists steps, more ::
              && LegalRun(Start(0), steps, config) && Emitted(Run(Start(0), steps, config), 0)
              && LegalRun(Run(Start(0), steps, config), more, config)
              && 0 < |Run(Run(Start(0), steps, config), more, config).commands|
              && !Emitted(Run(Run(Start(0), steps, config), more, config), 0)
  {
    BothCleared(config);
    StartSound(0, config);
    RunSound(Start(0), BothClearing(), config);
    SecondLosesFlag(Run(Start(0), BothClearing(), config), config);
    RunChains(Start(0), BothClearing(), Completion(0, true), config);
    assert LegalRun(Start(0), Chain(BothClearing(), Completion(0, true)), config);
  }

  // ---- What a step leaves, in columns --------------------------------------------------------------------

  /** The attempt gets its next phase and stage, and the others are as they were. */
  ghost predicate MovesTo(w: World, a: nat, stage: Flags, phase: Phase, v: World) {
    && a < |w.attempts| && |v.attempts| == |w.attempts|
    && v.attempts[a] == w.attempts[a].(stage := stage, phase := phase)
    && forall b :: 0 <= b < |w.attempts| && b != a ==> v.attempts[b] == w.attempts[b]
  }

  ghost predicate Steps(w: World, a: nat, phase: Phase, v: World) {
    a < |w.attempts| && MovesTo(w, a, w.attempts[a].stage, phase, v)
  }

  /** The flag is set in the worker's own stage, and the whole stage is merged into the payload of its command. */
  ghost predicate Notes(w: World, a: nat, name: string, value: bool, phase: Phase, v: World)
    requires a < |w.attempts| && w.attempts[a].command < |w.commands|
  {
    var c, stage := w.attempts[a].command, w.attempts[a].stage[name := Json.Bool(value)];
    && MovesTo(w, a, stage, phase, v) && |v.commands| == |w.commands|
    && v.commands[c] == w.commands[c].(payload := v.commands[c].payload)
    && Json.Merged(w.commands[c].payload, Json.Object(map["human_handoff_stage" := Json.Object(stage)]),
                   v.commands[c].payload)
    && forall d :: 0 <= d < |w.commands| && d != c ==> v.commands[d] == w.commands[d]
  }

  /** Which facts a step may change. */
  ghost predicate Confined(w: World, s: Step, v: World) {
    && (s.Transfer? || (v.calls == w.calls && v.transferred == w.transferred))
    && (s.Switch? || v.switched == w.switched) && (s.WriteResult? || v.results == w.results)
    && (s.Switch? || s.Takeover? || s.Reopen? || v.human == w.human)
    && (s.SetAck? || (v.acks == w.acks && v.ackSeen == w.ackSeen))
    && (s.Other? || v.now == w.now)
    && (s.Lease? || s.RecordAttempt? || s.RecordSuccess? || s.RecordSwitch? || s.RecordEmitted? || s.Finish? || s.Other?
        || v.commands == w.commands)
  }

  /** The acknowledgement lets the worker on, makes it come back later, or ends the command. */
  ghost predicate Heeds(w: World, a: nat, config: Config, phase: Phase)
    requires a < |w.attempts|
  {
    var c := w.attempts[a].command;
    var needed := config.checksAcks && !w.attempts[a].direct;
    var ack := if c in w.acks then w.acks[c] else Unsendable;
    && (phase == Cleared <==> needed ==> ack == Sent)
    && (phase == Finishing(Release) <==> needed && ack == Waiting)
    && (phase == Finishing(Close("FAILED_DEPENDENCY")) <==> needed && ack == Unsendable)
  }

  ghost predicate Marks(w: World, a: nat, maxRetries: int, v: World)
    requires a < |w.attempts| && w.attempts[a].phase.Finishing?
  {
    var c := w.attempts[a].command;
    c < |w.commands| ==>
      && c < |v.commands| && CommandTable.Rewritten(w.commands, c, v.commands[c], v.commands)
      && match w.attempts[a].phase.mark
         case Close(name) =>
           v.commands[c] == w.commands[c].(status := CommandTable.Closed(name), lock := Lock(None, None))
         case Retry => CommandTable.Counted(w.commands[c], maxRetries, v.commands[c])
         case Release => v.commands[c] == w.commands[c].(lock := Lock(None, None))
  }

  ghost predicate WorkerLeaves(w: World, s: Step, config: Config, v: World)
    requires Legal(w, s)
  {
    match s
    case Lease(c, worker, seconds, emit) =>
      var row := w.commands[c];
      var stage := Json.Field(row.payload, "human_handoff_stage");
      && CommandTable.Rewritten(w.commands, c, row.(lock := Lock(Some(worker), Some(w.now + seconds))), v.commands)
      && v.attempts == w.attempts + [Attempt(c,
           Json.Field(row.payload, "handoff_ack_mode") == Some(Json.Text("direct_notice")),
           if stage.Some? && stage.value.Object? then stage.value.fields else map[], emit, Leased)]
    case Check(a) =>
      Steps(w, a, if w.commands[w.attempts[a].command].conversation in w.human
                  then Finishing(Close("SKIPPED_HUMAN_ACTIVE")) else Checked, v)
    case Block(a, name) => Steps(w, a, Finishing(Close(name)), v)
    case LookUpAck(a) =>
      a < |v.attempts| && Steps(w, a, v.attempts[a].phase, v) && Heeds(w, a, config, v.attempts[a].phase)
    case RecordAttempt(a) =>
      if "transfer_succeeded" in w.attempts[a].stage && w.attempts[a].stage["transfer_succeeded"] == Json.Bool(true)
      then Steps(w, a, Finishing(Close("FAILED_AFTER_EXTERNAL_SUCCESS")), v) && v.commands == w.commands
      else Notes(w, a, "transfer_attempted", true, Attempted, v)
    case Transfer(a, ok, otherwise) =>
      && Steps(w, a, if ok then Transferred else Finishing(otherwise), v) && v.calls == w.calls[a := ok]
      && v.transferred == w.transferred + if ok then {w.attempts[a].command} else {}
    case RecordSuccess(a) => Notes(w, a, "transfer_succeeded", true, SuccessRecorded, v)
    case Switch(a) =>
      var c := w.attempts[a].command;
      && Steps(w, a, Switched, v) && v.human == w.human + {w.commands[c].conversation} && v.switched == w.switched + {c}
    case RecordSwitch(a) => Notes(w, a, "conversation_state_updated", true, SwitchRecorded, v)
    case WriteResult(a) => Steps(w, a, ResultWritten, v) && v.results == w.results + {w.attempts[a].command}
    case RecordEmitted(a) => Notes(w, a, "result_emitted", w.attempts[a].emit, Finishing(Close("SENT")), v)
    case Finish(a) => Steps(w, a, Over, v) && Marks(w, a, config.maxRetries, v)
    case Throw(a) =>
      Steps(w, a, match w.attempts[a].phase
        case Leased => Finishing(Retry)
        case Checked => Finishing(Retry)
        case Cleared => Finishing(Retry)
        case Attempted => Finishing(Retry)
        case Finishing(_) => Finishing(Retry)
        case _ => Finishing(Close("FAILED_AFTER_EXTERNAL_SUCCESS")), v)
    case Crash(a) => Steps(w, a, Over, v)
    case SetAck(c, ack) =>
      v.attempts == w.attempts && v.acks == w.acks[c := ack] && v.ackSeen == w.ackSeen + if ack == Sent then {c} else {}
    case Takeover(conversation) => v.attempts == w.attempts && v.human == w.human + {conversation}
    case Reopen(conversation) => v.attempts == w.attempts && v.human == w.human - {conversation}
    case Other(step) =>
      && v.attempts == w.attempts
      && CommandTable.World(v.commands, v.now) ==
           CommandTable.Do(CommandTable.World(w.commands, w.now), step, config.maxRetries)
  }

  lemma NoteLeaves(w: World, a: nat, name: string, value: bool, phase: Phase)
    requires a < |w.attempts| && w.attempts[a].command < |w.commands|
    ensures Notes(w, a, name, value, phase, Recorded(w, a, name, value, phase))
  {
    var c, stage := w.attempts[a].command, w.attempts[a].stage[name := Json.Bool(value)];
    Json.MergePatchMerges(w.commands[c].payload, StagePatch(stage));
  }

  lemma StepConfined(w: World, s: Step, config: Config)
    requires Legal(w, s)
    ensures Confined(w, s, Do(w, s, config))
  {
  }

  lemma LeaseLeaves(w: World, s: Step, config: Config)
    requires s.Lease? && Legal(w, s)
    ensures WorkerLeaves(w, s, config, Do(w, s, config))
  {
  }

  lemma NotesLeave(w: World, s: Step, config: Config)
    requires (s.RecordAttempt? || s.RecordSuccess? || s.RecordSwitch? || s.RecordEmitted?) && Legal(w, s)
    ensures WorkerLeaves(w, s, config, Do(w, s, config))
  {
    if s.RecordAttempt? && !On(w.attempts[s.attempt].stage, SUCCEEDED) {
      NoteLeaves(w, s.attempt, ATTEMPTED, true, Attempted);
    } else if s.RecordSuccess? {
      NoteLeaves(w, s.attempt, SUCCEEDED, true, SuccessRecorded);
    } else if s.RecordSwitch? {
      NoteLeaves(w, s.attempt, UPDATED, true, SwitchRecorded);
    } else if s.RecordEmitted? {
      NoteLeaves(w, s.attempt, EMITTED, w.attempts[s.attempt].emit, Finishing(Close("SENT")));
    }
  }

  lemma FinishLeaves(w: World, s: Step, config: Config)
    requires s.Finish? && Legal(w, s)
    ensures WorkerLeaves(w, s, config, Do(w, s, config))
  {
  }

  lemma ActionLeaves(w: World, s: Step, config: Config)
    requires (s.Check? || s.Block? || s.LookUpAck? || s.Transfer? || s.Switch? || s.WriteResult?) && Legal(w, s)
    ensures WorkerLeaves(w, s, config, Do(w, s, config))
  {
  }

  lemma EndLeaves(w: World, s: Step, config: Config)
    requires (s.Throw? || s.Crash? || s.SetAck? || s.Takeover? || s.Reopen? || s.Other?) && Legal(w, s)
    ensures WorkerLeaves(w, s, config, Do(w, s, config))
  {
  }

  /** Every step of a worker, in every column. */
  lemma StepLeaves(w: World, s: Step, config: Config)
    requires Legal(w, s)
    ensures WorkerLeaves(w, s, config, Do(w, s, config)) && Confined(w, s, Do(w, s, config))
  {
    StepConfined(w, s, config);
    if s.Lease? {
      LeaseLeaves(w, s, config);
    } else if s.RecordAttempt? || s.RecordSuccess? || s.RecordSwitch? || s.RecordEmitted? {
      NotesLeave(w, s, config);
    } else if s.Finish? {
      FinishLeaves(w, s, config);
    } else if s.Throw? || s.Crash? || s.SetAck? || s.Takeover? || s.Reopen? || s.Other? {
      EndLeaves(w, s, config);
    } else {
      ActionLeaves(w, s, config);
    }
  }
}
