/** The keys that keep an outbound message from being stored twice: one per FAQ answer
    block, and one per action for everything else. */
module DedupKeys {
  import opened Base
  import opened Conversations
  import opened Text
  import Gateway
  import OutboundQueue
  import Redelivery

  predicate ColonFree(s: string) {
    forall k :: 0 <= k < |s| ==> s[k] != ':'
  }

  lemma FirstColon(a: string, x: string)
    requires ColonFree(a)
    ensures var s := a + ":" + x; s[|a|] == ':' && forall k :: 0 <= k < |a| ==> s[k] != ':'
  {
  }

  lemma SamePrefix(a: string, x: string, b: string, y: string)
    requires a + x == b + y && |a| == |b|
    ensures a == b && x == y
  {
    assert (a + x)[..|a|] == a && (b + y)[..|b|] == b;
    assert (a + x)[|a|..] == x && (b + y)[|b|..] == y;
  }

  /** Cutting two equal texts at their first colons. */
  lemma CutAtColon(a: string, x: string, b: string, y: string)
    requires ColonFree(a) && ColonFree(b) && a + ":" + x == b + ":" + y
    ensures a == b && x == y
  {
    FirstColon(a, x);
    FirstColon(b, y);
    assert |a| == |b|;
    SamePrefix(a + ":", x, b + ":", y);
    SamePrefix(a, ":", b, ":");
  }

  lemma NoColonInside(a: string, b: string, y: string)
    requires ColonFree(a)
    ensures a != b + ":" + y
  {
    assert (b + ":" + y)[|b|] == ':';
  }

  /** What a key is made of after the conversation. */
  datatype Tail =
    | FaqBlock(event: nat, index: nat, kind: string, identity: string)
    | Action(source: Option<nat>, action: string)

  predicate TailFits(t: Tail) {
    match t
    case FaqBlock(_, _, kind, _) => ColonFree(kind)
    case Action(_, action) => ColonFree(action)
  }

  function EventText(event: Option<nat>): string {
    if event.Some? then Decimal(event.value) else ""
  }

  function AfterEvent(t: Tail): string {
    match t
    case FaqBlock(_, index, kind, identity) => "faq_block" + ":" + (Decimal(index) + ":" + (kind + ":" + identity))
    case Action(_, action) => action
  }

  /** `{event}:faq_block:{index}:{kind}:{identity}` or `{event}:{action}` */
  function TailText(t: Tail): string {
    (if t.FaqBlock? then Decimal(t.event) else EventText(t.source)) + ":" + AfterEvent(t)
  }

  lemma DecimalColonFree(n: nat)
    ensures ColonFree(Decimal(n)) && Decimal(n) != "faq_block"
  {
    assert "faq_block"[0] == 'f';
  }

  lemma FaqTailsInjective(a: Tail, b: Tail)
    requires a.FaqBlock? && b.FaqBlock? && TailFits(a) && TailFits(b) && AfterEvent(a) == AfterEvent(b)
    ensures a.index == b.index && a.kind == b.kind && a.identity == b.identity
  {
    DecimalColonFree(a.index);
    DecimalColonFree(b.index);
    CutAtColon("faq_block", Decimal(a.index) + ":" + (a.kind + ":" + a.identity),
               "faq_block", Decimal(b.index) + ":" + (b.kind + ":" + b.identity));
    CutAtColon(Decimal(a.index), a.kind + ":" + a.identity, Decimal(b.index), b.kind + ":" + b.identity);
    CutAtColon(a.kind, a.identity, b.kind, b.identity);
    DecimalInjective(a.index, b.index);
  }

  lemma FaqNeverAction(a: Tail, b: Tail)
    requires a.FaqBlock? && b.Action? && TailFits(b)
    ensures AfterEvent(a) != AfterEvent(b)
  {
    NoColonInside(b.action, "faq_block", Decimal(a.index) + ":" + (a.kind + ":" + a.identity));
  }

  lemma EventsInjective(a: Option<nat>, b: Option<nat>)
    requires EventText(a) == EventText(b)
    ensures a == b
  {
    if a.Some? && b.Some? { DecimalInjective(a.value, b.value); }
  }

  function EventOf(t: Tail): Option<nat> {
    if t.FaqBlock? then Some(t.event) else t.source
  }

  lemma EventColonFree(event: Option<nat>)
    ensures ColonFree(EventText(event))
  {
    if event.Some? { DecimalColonFree(event.value); }
  }

  /** Within one tenant and conversation a key determines the event, the block and the kind: blocks of different
      events or positions never share a key, and no block has an action's key. */
  lemma TailsInjective(a: Tail, b: Tail)
    requires TailFits(a) && TailFits(b) && TailText(a) == TailText(b)
    ensures a == b
  {
    EventColonFree(EventOf(a));
    EventColonFree(EventOf(b));
    CutAtColon(EventText(EventOf(a)), AfterEvent(a), EventText(EventOf(b)), AfterEvent(b));
    EventsInjective(EventOf(a), EventOf(b));
    if a.FaqBlock? && b.FaqBlock? {
      FaqTailsInjective(a, b);
    } else if a.FaqBlock? {
      FaqNeverAction(a, b);
    } else if b.FaqBlock? {
      FaqNeverAction(b, a);
    }
  }

  /** `_dedup_key` and `_outbound_dedup_key` */
  function Key(tenant: string, conversation: string, t: Tail): string {
    tenant + ":" + (conversation + ":" + TailText(t))
  }

  /** The parts of a key with colons between them. */
  ghost function Joined(parts: seq<string>): string {
    if parts == [] then "" else if |parts| == 1 then parts[0] else parts[0] + ":" + Joined(parts[1..])
  }

  lemma JoinedStep(part: string, rest: seq<string>)
    requires rest != []
    ensures Joined([part] + rest) == part + ":" + Joined(rest)
  {
    assert ([part] + rest)[1..] == rest;
  }

  /** What a key spells; a missing event is an empty part. */
  lemma KeySpells(tenant: string, conversation: string, t: Tail)
    ensures t.FaqBlock? ==>
              Key(tenant, conversation, t) ==
              Joined([tenant]
                     + ([conversation]
                        + ([Decimal(t.event)] + (["faq_block"] + ([Decimal(t.index)] + ([t.kind] + [t.identity]))))))
    ensures t.Action? ==>
              Key(tenant, conversation, t) ==
              Joined([tenant]
                     + ([conversation] + ([if t.source.Some? then Decimal(t.source.value) else ""] + [t.action])))
  {
    var event := if t.FaqBlock? then Decimal(t.event) else if t.source.Some? then Decimal(t.source.value) else "";
    var rest := if t.FaqBlock? then ["faq_block"] + ([Decimal(t.index)] + ([t.kind] + [t.identity])) else [t.action];
    if t.FaqBlock? {
      JoinedStep(t.kind, [t.identity]);
      JoinedStep(Decimal(t.index), [t.kind] + [t.identity]);
      JoinedStep("faq_block", [Decimal(t.index)] + ([t.kind] + [t.identity]));
    }
    assert Joined(rest) == AfterEvent(t);
    JoinedStep(event, rest);
    JoinedStep(conversation, [event] + rest);
    JoinedStep(tenant, [conversation] + ([event] + rest));
  }

  /** The same for whole keys of one tenant and conversation, whatever characters those contain. */
  lemma KeysInjective(tenant: string, conversation: string, a: Tail, b: Tail)
    requires TailFits(a) && TailFits(b) && Key(tenant, conversation, a) == Key(tenant, conversation, b)
    ensures a == b
  {
    SamePrefix(tenant + ":", conversation + ":" + TailText(a), tenant + ":", conversation + ":" + TailText(b));
    SamePrefix(conversation + ":", TailText(a), conversation + ":", TailText(b));
    TailsInjective(a, b);
  }

  // ---- Across conversations --------------------------------------------------------------------------

  /** A chat and its thread, if the thread is named. */
  datatype Place = Place(chat: string, thread: Option<string>)

  predicate PlaceFits(p: Place) {
    && p.chat != "" && ColonFree(p.chat)
    && (p.thread.Some? ==>
          p.thread.value != "" && ColonFree(p.thread.value) && Strip(p.thread.value) == p.thread.value)
  }

  function PlaceTail(p: Place, t: Tail): string {
    p.chat + ":" + (if p.thread.Some? then p.thread.value + ":" + TailText(t) else TailText(t))
  }

  lemma KeyOfPlace(tenant: string, p: Place, t: Tail)
    requires PlaceFits(p)
    ensures Key(tenant, IdForChat(p.chat, p.thread), t) == tenant + ":" + ("livechat" + ":" + PlaceTail(p, t))
  {
    var tail := TailText(t);
    if p.thread.Some? {
      var place := p.chat + ":" + p.thread.value;
      IdIsPlace(p, place);
      Regroup(place, tail);
      Regroup4(p.chat, p.thread.value, tail);
    } else {
      IdIsPlace(p, p.chat);
      Regroup(p.chat, tail);
    }
  }

  lemma IdIsPlace(p: Place, place: string)
    requires PlaceFits(p) && place == if p.thread.Some? then p.chat + ":" + p.thread.value else p.chat
    ensures IdForChat(p.chat, p.thread) == "livechat:" + place
  {
    IdUnfolds(p.chat, p.thread);
  }

  lemma Regroup(place: string, tail: string)
    ensures ("livechat:" + place) + (":" + tail) == "livechat" + ":" + (place + ":" + tail)
    ensures ("livechat:" + place) + ":" + tail == ("livechat:" + place) + (":" + tail)
  {
  }

  lemma Regroup4(chat: string, thread: string, tail: string)
    ensures (chat + ":" + thread) + ":" + tail == chat + ":" + (thread + ":" + tail)
  {
  }

  /** A thread's key is never the key of the chat without a thread: where the one has the event, the other has the
      word after it. */
  lemma ThreadedDiffers(thread: string, a: Tail, b: Tail)
    requires ColonFree(thread) && TailFits(a) && TailFits(b)
    ensures thread + ":" + TailText(a) != TailText(b)
  {
    if thread + ":" + TailText(a) == TailText(b) {
      EventColonFree(EventOf(b));
      CutAtColon(thread, TailText(a), EventText(EventOf(b)), AfterEvent(b));
      WordAfterEvent(a, b);
    }
  }

  lemma WordAfterEvent(a: Tail, b: Tail)
    requires TailFits(a) && TailFits(b)
    ensures TailText(a) != AfterEvent(b)
  {
    if b.Action? {
      NoColonInside(b.action, EventText(EventOf(a)), AfterEvent(a));
    } else if TailText(a) == AfterEvent(b) {
      EventColonFree(EventOf(a));
      CutAtColon(EventText(EventOf(a)), AfterEvent(a), "faq_block",
                 Decimal(b.index) + ":" + (b.kind + ":" + b.identity));
      NotFaqBlock(EventOf(a));
    }
  }

  lemma NotFaqBlock(event: Option<nat>)
    ensures EventText(event) != "faq_block"
  {
    if event.Some? { DecimalColonFree(event.value); }
  }

  /** With colon-free tenants, chats and threads a key determines everything it was made of. */
  lemma PlacesInjective(s: string, p: Place, a: Tail, t: string, q: Place, b: Tail)
    requires ColonFree(s) && ColonFree(t) && PlaceFits(p) && PlaceFits(q) && TailFits(a) && TailFits(b)
    requires Key(s, IdForChat(p.chat, p.thread), a) == Key(t, IdForChat(q.chat, q.thread), b)
    ensures s == t && p == q && a == b
  {
    KeyOfPlace(s, p, a);
    KeyOfPlace(t, q, b);
    CutAtColon(s, "livechat" + ":" + PlaceTail(p, a), t, "livechat" + ":" + PlaceTail(q, b));
    CutAtColon("livechat", PlaceTail(p, a), "livechat", PlaceTail(q, b));
    PlaceTailsInjective(p, a, q, b);
  }

  lemma PlaceTailsInjective(p: Place, a: Tail, q: Place, b: Tail)
    requires PlaceFits(p) && PlaceFits(q) && TailFits(a) && TailFits(b) && PlaceTail(p, a) == PlaceTail(q, b)
    ensures p == q && a == b
  {
    var x := if p.thread.Some? then p.thread.value + ":" + TailText(a) else TailText(a);
    var y := if q.thread.Some? then q.thread.value + ":" + TailText(b) else TailText(b);
    CutAtColon(p.chat, x, q.chat, y);
    if p.thread.Some? && q.thread.Some? {
      CutAtColon(p.thread.value, TailText(a), q.thread.value, TailText(b));
      TailsInjective(a, b);
    } else if p.thread.Some? {
      ThreadedDiffers(p.thread.value, a, b);
    } else if q.thread.Some? {
      ThreadedDiffers(q.thread.value, b, a);
    } else {
      TailsInjective(a, b);
    }
  }

  lemma IdUnfolds(chat: string, thread: Option<string>)
    ensures ChatOf(chat) == if chat == "" then "unknown" else chat
    ensures IdForChat(chat, thread) ==
            "livechat:" + (if thread.Some? && Strip(thread.value) != "" then ChatOf(chat) + ":" + Strip(thread.value)
                           else ChatOf(chat))
  {
    if thread.Some? && Strip(thread.value) != "" {
      assert IdForChat(chat, thread) == "livechat:" + (ChatOf(chat) + ":" + Strip(thread.value));
    }
  }

  /** A chat whose id contains a colon shares its conversation with the thread after the colon of the chat before it. */
  lemma ColonsCollide(chat: string, thread: string)
    requires chat != "" && Strip(thread) == thread != ""
    ensures IdForChat(chat, Some(thread)) == IdForChat(chat + ":" + thread, None)
  {
    IdUnfolds(chat, Some(thread));
    IdUnfolds(chat + ":" + thread, None);
  }

  /** The chat id splits at k into a chat and a trimmed thread. */
  predicate SplitsAt(chat: string, k: nat) {
    0 < k < |chat| && chat[k] == ':' && Strip(chat[k + 1..]) == chat[k + 1..] != ""
  }

  /** Some thread of some chat has the same conversation id. */
  ghost predicate SharesId(chat: string) {
    exists other, thread :: Strip(thread) != "" && IdForChat(other, Some(thread)) == IdForChat(chat, None)
  }

  /** Exactly the chats that split at a colon share their conversation with another chat's thread. */
  lemma SharesIdIff(chat: string)
    requires chat != ""
    ensures SharesId(chat) <==> exists k: nat :: SplitsAt(chat, k)
  {
    if SharesId(chat) {
      var other, thread :| Strip(thread) != "" && IdForChat(other, Some(thread)) == IdForChat(chat, None);
      SharedSplits(chat, other, thread);
    }
    if k: nat :| SplitsAt(chat, k) {
      var other, thread := chat[..k], chat[k + 1..];
      assert chat == other + ":" + thread;
      ColonsCollide(other, thread);
    }
  }

  lemma SharedSplits(chat: string, other: string, thread: string)
    requires chat != "" && Strip(thread) != "" && IdForChat(other, Some(thread)) == IdForChat(chat, None)
    ensures SplitsAt(chat, |ChatOf(other)|)
  {
    var suffix := ChatOf(other) + ":" + Strip(thread);
    IdUnfolds(other, Some(thread));
    IdUnfolds(chat, None);
    SamePrefix("livechat:", suffix, "livechat:", chat);
    StripTwice(thread);
    assert suffix[|ChatOf(other)| + 1..] == Strip(thread);
  }

  // ---- FAQ plans -------------------------------------------------------------------------------------

  datatype Block = TextBlock(text: string) | ImageBlock(assetKey: string) | ButtonsBlock(menuKey: string)

  function KindOf(block: Block): string {
    match block
    case TextBlock(_) => "text"
    case ImageBlock(_) => "image"
    case ButtonsBlock(_) => "buttons"
  }

  /** _message_plan: texts are identified by a hash, which is a parameter. */
  function Identity(block: Block, hash: string -> string): string {
    match block
    case TextBlock(text) => hash(text)
    case ImageBlock(key) => key
    case ButtonsBlock(key) => key
  }

  /** Where a plan's rows go. */
  datatype Target = Target(tenant: string, conversation: string, event: nat, created: int)

  function BlockTail(target: Target, blocks: seq<Block>, i: nat, hash: string -> string): Tail
    requires i < |blocks|
  {
    FaqBlock(target.event, i, KindOf(blocks[i]), Identity(blocks[i], hash))
  }

  function PlanRow(target: Target, blocks: seq<Block>, i: nat, hash: string -> string): OutboundQueue.Message
    requires i < |blocks|
  {
    OutboundQueue.Message(Some(target.conversation),
                          Key(target.tenant, target.conversation, BlockTail(target, blocks, i, hash)),
                          OutboundQueue.Pending, Some(i), target.created, 0, UNLOCKED)
  }

  /** The key of a block, part by part. */
  ghost function BlockKey(target: Target, i: nat, block: Block, hash: string -> string): string {
    var what := match block
      case TextBlock(text) => ["text"] + [hash(text)]
      case ImageBlock(key) => ["image"] + [key]
      case ButtonsBlock(key) => ["buttons"] + [key];
    Joined([target.tenant]
           + ([target.conversation] + ([Decimal(target.event)] + (["faq_block"] + ([Decimal(i)] + what)))))
  }

  /** The rows of the first k blocks. */
  ghost predicate PlanRows(target: Target, blocks: seq<Block>, hash: string -> string,
                           rows: seq<OutboundQueue.Message>, k: nat) {
    k <= |blocks| && |rows| == k && forall i :: 0 <= i < k ==> rows[i] == PlanRow(target, blocks, i, hash)
  }

  lemma PlanRowsNext(target: Target, blocks: seq<Block>, hash: string -> string, rows: seq<OutboundQueue.Message>,
                     k: nat)
    requires k < |blocks| && PlanRows(target, blocks, hash, rows, k)
    ensures PlanRows(target, blocks, hash, rows + [PlanRow(target, blocks, k, hash)], k + 1)
  {
  }

  /** faq_plan_to_outbound_rows */
  method PlanToRows(target: Target, blocks: seq<Block>, hash: string -> string)
    returns (rows: seq<OutboundQueue.Message>)
    ensures PlanRows(target, blocks, hash, rows, |blocks|) && |rows| == |blocks|
    ensures forall i :: 0 <= i < |blocks| ==>
              rows[i] == OutboundQueue.Message(Some(target.conversation), BlockKey(target, i, blocks[i], hash),
                OutboundQueue.Pending, Some(i), target.created, 0, Lock(None, None))
    ensures forall i, j :: 0 <= i < j < |rows| ==> rows[i].dedupKey != rows[j].dedupKey
  {
    rows := [];
    for k := 0 to |blocks|
      invariant PlanRows(target, blocks, hash, rows, k)
    {
      PlanRowsNext(target, blocks, hash, rows, k);
      rows := rows + [PlanRow(target, blocks, k, hash)];
    }
    RowsDiffer(target, blocks, hash, rows);
    forall i | 0 <= i < |blocks|
      ensures PlanRow(target, blocks, i, hash).dedupKey == BlockKey(target, i, blocks[i], hash)
    {
      KeySpells(target.tenant, target.conversation, BlockTail(target, blocks, i, hash));
    }
  }

  lemma BlockTailFits(target: Target, blocks: seq<Block>, i: nat, hash: string -> string)
    requires i < |blocks|
    ensures TailFits(BlockTail(target, blocks, i, hash))
  {
  }

  /** Blocks of different events or positions have different keys. */
  lemma BlocksDiffer(a: Target, blocks: seq<Block>, i: nat, b: Target, others: seq<Block>, j: nat,
                     hash: string -> string)
    requires i < |blocks| && j < |others| && a.tenant == b.tenant && a.conversation == b.conversation
    requires a.event != b.event || i != j
    ensures PlanRow(a, blocks, i, hash).dedupKey != PlanRow(b, others, j, hash).dedupKey
  {
    var x, y := BlockTail(a, blocks, i, hash), BlockTail(b, others, j, hash);
    BlockTailFits(a, blocks, i, hash);
    BlockTailFits(b, others, j, hash);
    if PlanRow(a, blocks, i, hash).dedupKey == PlanRow(b, others, j, hash).dedupKey {
      KeysInjective(a.tenant, a.conversation, x, y);
    }
  }

  lemma RowsDiffer(target: Target, blocks: seq<Block>, hash: string -> string, rows: seq<OutboundQueue.Message>)
    requires PlanRows(target, blocks, hash, rows, |blocks|)
    ensures forall i, j :: 0 <= i < j < |rows| ==> rows[i].dedupKey != rows[j].dedupKey
  {
    forall i, j | 0 <= i < j < |rows| ensures rows[i].dedupKey != rows[j].dedupKey {
      BlocksDiffer(target, blocks, i, target, blocks, j, hash);
    }
  }

  /** No block has the key that an action of the conversation gets by default. */
  lemma BlockIsNoAction(target: Target, blocks: seq<Block>, i: nat, source: Option<nat>, action: string,
                        hash: string -> string)
    requires i < |blocks| && ColonFree(action)
    ensures PlanRow(target, blocks, i, hash).dedupKey != Key(target.tenant, target.conversation, Action(source, action))
  {
    BlockTailFits(target, blocks, i, hash);
    if PlanRow(target, blocks, i, hash).dedupKey == Key(target.tenant, target.conversation, Action(source, action)) {
      KeysInjective(target.tenant, target.conversation, BlockTail(target, blocks, i, hash), Action(source, action));
    }
  }

  lemma {:induction false} NewRowsStored(t: OutboundQueue.Table, rows: seq<OutboundQueue.Message>, id: string, k: nat)
    requires k <= |rows|
    requires forall i, j :: k <= i < j < |rows| ==> rows[i].dedupKey != rows[j].dedupKey
    requires forall i, j :: 0 <= i < |t| && k <= j < |rows| ==> t[i].dedupKey != rows[j].dedupKey
    ensures |Gateway.OutboundInserted(t, rows, id, k)| == |t| + (|rows| - k)
    decreases |rows| - k
  {
    if k < |rows| {
      NewRowsStored(OutboundQueue.Inserted(t, rows[k].(conversation := Some(id))), rows, id, k + 1);
    }
  }

  /** A plan of n blocks stores n rows the first time, and none when the event is delivered again to any table that
      grew from there. */
  lemma PlanStoredOnce(t: OutboundQueue.Table, target: Target, blocks: seq<Block>, hash: string -> string,
                       rows: seq<OutboundQueue.Message>, later: OutboundQueue.Table)
    requires PlanRows(target, blocks, hash, rows, |blocks|)
    requires forall i, j :: 0 <= i < |t| && 0 <= j < |rows| ==> t[i].dedupKey != rows[j].dedupKey
    requires Redelivery.OutboundGrew(Gateway.OutboundInserted(t, rows, target.conversation, 0), later)
    ensures |Gateway.OutboundInserted(t, rows, target.conversation, 0)| == |t| + |blocks|
    ensures Gateway.OutboundInserted(later, rows, target.conversation, 0) == later
  {
    RowsDiffer(target, blocks, hash, rows);
    NewRowsStored(t, rows, target.conversation, 0);
    Redelivery.OutboundReplay(t, rows, target.conversation, later);
  }
}
