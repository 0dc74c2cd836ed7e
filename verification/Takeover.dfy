/** External-command workers beside the gateway: after a human has taken a
    conversation over, whoever checks it before calling out does not call. */
module Takeover {
  import opened Base
  import opened Conversations
  import CommandTable
  import GatewayRuns

  datatype Mark = Close(name: string) | Fail

  datatype Phase = Leased | Cleared | Finishing(mark: Mark) | Over

  /** A worker working on one grant of a command, with the conversation it read at the grant. */
  datatype Attempt = Attempt(command: nat, conversation: string, phase: Phase)

  /** calls: the attempts that called an external system, in order. */
  datatype World = World(gateway: GatewayRuns.World, attempts: seq<Attempt>, calls: seq<nat>)

  datatype Step =
    | Other(step: GatewayRuns.Step)
    | Lease(command: nat, worker: string, seconds: int)
    | Check(attempt: nat)
    | Call(attempt: nat)
    | Conclude(attempt: nat, mark: Mark)
    | Finish(attempt: nat, maxRetries: int)
    | Crash(attempt: nat)

  function Commands(w: World): CommandTable.Table {
    w.gateway.db.commands
  }

  ghost predicate Legal(w: World, s: Step) {
    match s
    case Other(step) => GatewayRuns.Legal(w.gateway, step)
    case Lease(c, _, _) => CommandTable.Leasable(Commands(w), w.gateway.now, c)
    case Check(a) => a < |w.attempts| && w.attempts[a].phase.Leased?
    case Call(a) => a < |w.attempts| && w.attempts[a].phase.Cleared?
    case Conclude(a, _) => a < |w.attempts| && w.attempts[a].phase.Cleared?
    case Finish(a, _) => a < |w.attempts| && w.attempts[a].phase.Finishing?
    case Crash(a) => a < |w.attempts|
  }

  function Moved(w: World, a: nat, phase: Phase): World
    requires a < |w.attempts|
  {
    w.(attempts := w.attempts[a := w.attempts[a].(phase := phase)])
  }

  function WithCommands(w: World, t: CommandTable.Table): World {
    w.(gateway := w.gateway.(db := w.gateway.db.(commands := t)))
  }

  /** _command_blocked_by_human_active: a command without a conversation is never blocked. */
  predicate Blocked(w: World, conversation: string) {
    conversation != "" && GatewayRuns.Status(w.gateway, conversation) == HUMAN_ACTIVE
  }

  function Do(w: World, s: Step): World
    requires Legal(w, s)
  {
    match s
    case Other(step) => w.(gateway := GatewayRuns.Do(w.gateway, step))
    case Lease(c, worker, seconds) =>
      WithCommands(w, CommandTable.Stamped(Commands(w), [c], Grant(worker, w.gateway.now + seconds))).(
        attempts := w.attempts + [Attempt(c, Commands(w)[c].conversation, Leased)])
    case Check(a) =>
      Moved(w, a, if Blocked(w, w.attempts[a].conversation) then Finishing(Close("SKIPPED_HUMAN_ACTIVE")) else Cleared)
    case Call(a) => w.(calls := w.calls + [a])
    case Conclude(a, mark) => Moved(w, a, Finishing(mark))
    case Finish(a, maxRetries) =>
      var c := w.attempts[a].command;
      Moved(WithCommands(w, match w.attempts[a].phase.mark
        case Close(name) => CommandTable.Marked(Commands(w), c, CommandTable.Closed(name))
        case Fail => CommandTable.ProcessingFailed(Commands(w), c, maxRetries)), a, Over)
    case Crash(a) => Moved(w, a, Over)
  }

  ghost predicate LegalRun(w: World, steps: Script<Step>)
    decreases steps
  {
    match steps
    case Stop => true
    case Then(s, rest) => Legal(w, s) && LegalRun(Do(w, s), rest)
  }

  ghost function Run(w: World, steps: Script<Step>): World
    requires LegalRun(w, steps)
    decreases steps
  {
    match steps
    case Stop => w
    case Then(s, rest) => Run(Do(w, s), rest)
  }

  /** Attempts on the conversation had passed their check before `cleared` was drawn up, or are not cleared now. */
  predicate Quiet(w: World, conversation: string, cleared: set<nat>, a: nat) {
    a < |w.attempts| && w.attempts[a].conversation == conversation && w.attempts[a].phase.Cleared? ==> a in cleared
  }

  /** The idle timer closes this conversation. */
  predicate Closes(s: Step, conversation: string) {
    s.Other? && GatewayRuns.Closes(s.step, conversation)
  }

  predicate NeverClosed(steps: Script<Step>, conversation: string) {
    match steps
    case Stop => true
    case Then(s, rest) => !Closes(s, conversation) && NeverClosed(rest, conversation)
  }

  /** Workers are let through again by exactly one writer: the idle timer's unguarded mark_closed. */
  lemma BlockLiftedIff(w: World, s: Step, conversation: string)
    requires Legal(w, s) && Blocked(w, conversation)
    ensures !Blocked(Do(w, s), conversation) <==> Closes(s, conversation)
  {
    if s.Other? { GatewayRuns.HandoffLeftIff(w.gateway, s.step, conversation); }
  }

  lemma StepStaysQuiet(w: World, s: Step, conversation: string, cleared: set<nat>, a: nat)
    requires Legal(w, s) && Blocked(w, conversation) && Quiet(w, conversation, cleared, a)
    ensures Quiet(Do(w, s), conversation, cleared, a)
  {
  }

  /** A call in the list from position n on comes from an attempt that had passed its check. */
  ghost predicate CallsFrom(w: World, conversation: string, cleared: set<nat>, n: nat) {
    forall k ::
      n <= k < |w.calls| && w.calls[k] < |w.attempts| && w.attempts[w.calls[k]].conversation == conversation ==>
      w.calls[k] in cleared
  }

  lemma StepKeepsCalls(w: World, s: Step, conversation: string, cleared: set<nat>, n: nat)
    requires Legal(w, s) && (forall a: nat :: Quiet(w, conversation, cleared, a))
             && CallsFrom(w, conversation, cleared, n)
    requires forall k :: 0 <= k < |w.calls| ==> w.calls[k] < |w.attempts|
    ensures CallsFrom(Do(w, s), conversation, cleared, n)
    ensures forall k :: 0 <= k < |Do(w, s).calls| ==> Do(w, s).calls[k] < |Do(w, s).attempts|
  {
    if s.Call? { assert Quiet(w, conversation, cleared, s.attempt); }
  }

  lemma {:induction false} RunStaysQuiet(w: World, steps: Script<Step>, conversation: string, cleared: set<nat>, n: nat)
    requires LegalRun(w, steps) && Blocked(w, conversation) && NeverClosed(steps, conversation)
    requires (forall a: nat :: Quiet(w, conversation, cleared, a)) && CallsFrom(w, conversation, cleared, n)
    requires forall k :: 0 <= k < |w.calls| ==> w.calls[k] < |w.attempts|
    ensures CallsFrom(Run(w, steps), conversation, cleared, n)
    decreases steps
  {
    if steps.Then? {
      var v := Do(w, steps.step);
      BlockLiftedIff(w, steps.step, conversation);
      forall a: nat ensures Quiet(v, conversation, cleared, a) {
        StepStaysQuiet(w, steps.step, conversation, cleared, a);
      }
      StepKeepsCalls(w, steps.step, conversation, cleared, n);
      RunStaysQuiet(v, steps.rest, conversation, cleared, n);
    }
  }

  /** From the takeover on, and until the idle timer closes the conversation, an external call for it comes only from an
      attempt that had already passed its check by then: attempts that check later, and all later ones, make none. */
  lemma QuiescenceAfterTakeover(w: World, steps: Script<Step>, conversation: string, k: nat)
    requires LegalRun(w, steps) && Blocked(w, conversation) && NeverClosed(steps, conversation)
    requires forall j :: 0 <= j < |w.calls| ==> w.calls[j] < |w.attempts|
    requires var v := Run(w, steps);
             |w.calls| <= k < |v.calls| && v.calls[k] < |v.attempts|
               && v.attempts[v.calls[k]].conversation == conversation
    ensures var a := Run(w, steps).calls[k];
            a < |w.attempts| && w.attempts[a].conversation == conversation && w.attempts[a].phase.Cleared?
  {
    var cleared :=
      set a | 0 <= a < |w.attempts| && w.attempts[a].conversation == conversation && w.attempts[a].phase.Cleared?
        :: a as nat;
    RunStaysQuiet(w, steps, conversation, cleared, |w.calls|);
  }

  /** The failure mark of a worker in flight puts a row that the takeover skipped back to RETRYABLE; at its next grant
      the row is skipped again and no call is made. */
  lemma ReopenedRowSkippedAgain(w: World, a: nat, worker: string, seconds: int, maxRetries: int)
    requires a < |w.attempts| && w.attempts[a].phase == Finishing(Fail) && Blocked(w, w.attempts[a].conversation)
    requires var c := w.attempts[a].command;
             && c < |Commands(w)| && Commands(w)[c].status == CommandTable.SKIPPED
             && Commands(w)[c].conversation == w.attempts[a].conversation
             && Commands(w)[c].retryCount + 2 < maxRetries
    ensures var c := w.attempts[a].command;
            var b := |w.attempts|;
            var reopened := Do(w, Finish(a, maxRetries));
            && Commands(reopened)[c].status == CommandTable.Retryable
            && Legal(reopened, Lease(c, worker, seconds))
            && var steps := Then(Lease(c, worker, seconds), Then(Check(b), Then(Finish(b, maxRetries), Stop)));
            && LegalRun(reopened, steps)
            && Run(reopened, steps).calls == w.calls
            && c < |Commands(Run(reopened, steps))| && Commands(Run(reopened, steps))[c].status == CommandTable.SKIPPED
  {
    var c := w.attempts[a].command;
    var b := |w.attempts|;
    var reopened := Do(w, Finish(a, maxRetries));
    var granted := Do(reopened, Lease(c, worker, seconds));
    SkippedAtCheck(granted, b, maxRetries);
  }

  lemma SkippedAtCheck(w: World, b: nat, maxRetries: int)
    requires b < |w.attempts| && w.attempts[b].phase.Leased? && Blocked(w, w.attempts[b].conversation)
    requires w.attempts[b].command < |Commands(w)|
    ensures var steps := Then(Check(b), Then(Finish(b, maxRetries), Stop));
            && LegalRun(w, steps)
            && Run(w, steps).calls == w.calls
            && |Commands(Run(w, steps))| == |Commands(w)|
            && Commands(Run(w, steps))[w.attempts[b].command].status == CommandTable.SKIPPED
  {
    var v := Do(w, Check(b));
    var u := Do(v, Finish(b, maxRetries));
    assert Run(v, Then(Finish(b, maxRetries), Stop)) == u;
  }

  // ---- What a step leaves, in columns --------------------------------------------------------------------

  ghost predicate MovesTo(w: World, a: nat, phase: Phase, v: World) {
    && a < |w.attempts| && |v.attempts| == |w.attempts| && v.attempts[a] == w.attempts[a].(phase := phase)
    && forall b :: 0 <= b < |w.attempts| && b != a ==> v.attempts[b] == w.attempts[b]
  }

  /** Only the command table of the gateway's world is written. */
  ghost predicate OnlyCommands(w: World, v: World) {
    v.gateway == w.gateway.(db := w.gateway.db.(commands := v.gateway.db.commands))
  }

  ghost predicate Marks(w: World, a: nat, maxRetries: int, v: World)
    requires a < |w.attempts| && w.attempts[a].phase.Finishing?
  {
    var c, t, u := w.attempts[a].command, w.gateway.db.commands, v.gateway.db.commands;
    c < |t| ==>
      && c < |u| && CommandTable.Rewritten(t, c, u[c], u)
      && match w.attempts[a].phase.mark
         case Close(name) => u[c] == t[c].(status := CommandTable.Closed(name), lock := Lock(None, None))
         case Fail => CommandTable.Counted(t[c], maxRetries, u[c])
  }

  ghost predicate Leaves(w: World, s: Step, v: World)
    requires Legal(w, s)
  {
    && (s.Call? || v.calls == w.calls)
    && match s
       case Other(step) => v == w.(gateway := GatewayRuns.Do(w.gateway, step))
       case Lease(c, worker, seconds) =>
         var row := w.gateway.db.commands[c];
         && OnlyCommands(w, v) && v.attempts == w.attempts + [Attempt(c, row.conversation, Leased)]
         && CommandTable.Rewritten(w.gateway.db.commands, c,
              row.(lock := Lock(Some(worker), Some(w.gateway.now + seconds))), v.gateway.db.commands)
       case Check(a) =>
         var id := w.attempts[a].conversation;
         && v.gateway == w.gateway
         && MovesTo(w, a, if id != "" && GatewayRuns.Status(w.gateway, id) == "HUMAN_ACTIVE"
                          then Finishing(Close("SKIPPED_HUMAN_ACTIVE")) else Cleared, v)
       case Call(a) => v == w.(calls := w.calls + [a])
       case Conclude(a, mark) => v.gateway == w.gateway && MovesTo(w, a, Finishing(mark), v)
       case Finish(a, maxRetries) => MovesTo(w, a, Over, v) && OnlyCommands(w, v) && Marks(w, a, maxRetries, v)
       case Crash(a) => v.gateway == w.gateway && MovesTo(w, a, Over, v)
  }

  /** Every step of a worker, in every column. */
  lemma StepLeaves(w: World, s: Step)
    requires Legal(w, s)
    ensures Leaves(w, s, Do(w, s))
  {
  }
}
