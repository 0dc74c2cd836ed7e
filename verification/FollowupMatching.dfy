/** Which open money case a customer's new message is about, and what kind of
    follow-up the worker will later send for it. */
module FollowupMatching {
  import opened Base

  datatype Status =
    | AwaitingReview | UnderReview | WaitingCustomer | CompletedByStaff | CompletionDisputed
    | CompletedConfirmedByCustomer | TerminalOther | Other(text: string)

  /** A legacy row says "created" or nothing; what staff did since is in its slot memory: a long wait, or a resolution
      text that is classified as completed or not. */
  datatype Stored = Legacy(longWait: bool, resolvedAsCompleted: Option<bool>) | Current(status: Status)

  datatype Case = Case(id: nat, stored: Stored, root: Option<int>, columns: map<string, string>,
                       slots: map<string, string>)

  /** What the patterns find in a text: a complaint, a confirmation, and the identifiers it names. */
  datatype Text = Text(complains: bool, confirms: bool, names: set<string>)

  datatype Kind = PendingFollowUp | CompletionDispute | CustomerConfirmedResolved

  datatype Resolution = NoCase | Ambiguous | Matched(matched: Case, status: Status, kind: Kind)

  /** normalize_legacy_case_status */
  function StatusOf(c: Case): Status {
    match c.stored
    case Current(status) => status
    case Legacy(longWait, resolved) =>
      if longWait then UnderReview
      else if resolved.Some? then (if resolved.value then CompletedByStaff else UnderReview)
      else AwaitingReview
  }

  const TRANSACTION_KEYS :=
    ["order_id", "order_no", "transaction_id", "transaction_ref", "reference", "withdrawal_id", "deposit_id"]

  predicate Mentioned(source: map<string, string>, key: string, text: Text) {
    key in source && source[key] != "" && source[key] in text.names
  }

  /** Some transaction value of the case occurs in the text. */
  predicate NamesTransaction(c: Case, text: Text) {
    exists k :: 0 <= k < |TRANSACTION_KEYS| &&
      (Mentioned(c.columns, TRANSACTION_KEYS[k], text) || Mentioned(c.slots, TRANSACTION_KEYS[k], text))
  }

  predicate IsConfirmation(text: Text) {
    text.confirms && !text.complains
  }

  predicate Eligible(c: Case, text: Text) {
    && StatusOf(c) != CompletedConfirmedByCustomer && StatusOf(c) != TerminalOther
    && (StatusOf(c) == WaitingCustomer ==> IsConfirmation(text))
  }

  predicate SharesRoot(c: Case, inherited: Option<int>) {
    inherited.Some? && c.root == inherited
  }

  function Filter(cases: seq<Case>, keep: Case -> bool): seq<Case> {
    if cases == [] then []
    else
      var earlier := Filter(cases[..|cases| - 1], keep);
      if keep(cases[|cases| - 1]) then earlier + [cases[|cases| - 1]] else earlier
  }

  function MatchedAs(c: Case, text: Text): Resolution {
    Matched(c, StatusOf(c),
      if IsConfirmation(text) then CustomerConfirmedResolved
      else if StatusOf(c) == CompletedByStaff then CompletionDispute
      else PendingFollowUp)
  }

  function EligibleFor(text: Text): Case -> bool {
    (c: Case) => Eligible(c, text)
  }

  function NamedIn(text: Text): Case -> bool {
    (c: Case) => Eligible(c, text) && NamesTransaction(c, text)
  }

  function Rooted(text: Text, inherited: Option<int>): Case -> bool {
    (c: Case) => Eligible(c, text) && SharesRoot(c, inherited)
  }

  function Resolved(candidates: seq<Case>, text: Text, inherited: Option<int>): Resolution {
    var eligible := Filter(candidates, EligibleFor(text));
    var named := Filter(candidates, NamedIn(text));
    var rooted := Filter(candidates, Rooted(text, inherited));
    if (!text.complains && !text.confirms) || eligible == [] then NoCase
    else if |named| == 1 then MatchedAs(named[0], text)
    else if |named| > 1 then Ambiguous
    else if |rooted| == 1 then MatchedAs(rooted[0], text)
    else if |eligible| == 1 then MatchedAs(eligible[0], text)
    else Ambiguous
  }

  /** _transaction_values, asked of the text. */
  method FindTransaction(c: Case, text: Text) returns (found: bool)
    ensures found == NamesTransaction(c, text)
  {
    var values := [];
    for s := 0 to 2
      invariant forall v :: v in values <==>
        exists k :: 0 <= k < |TRANSACTION_KEYS| && ValueFrom(c, s, TRANSACTION_KEYS[k], v)
    {
      values := AppendValues(values, c, s);
    }
    found := exists v :: v in values && v in text.names;
    NamesTransactionIff(c, text, values);
  }

  /** v is a non-empty value that one of the first s sources has under this key. */
  predicate ValueFrom(c: Case, s: nat, key: string, v: string) {
    v != "" && ((s > 0 && key in c.columns && c.columns[key] == v) || (s > 1 && key in c.slots && c.slots[key] == v))
  }

  method AppendValues(before: seq<string>, c: Case, s: nat) returns (values: seq<string>)
    requires s < 2
    ensures forall v :: v in values <==>
              || v in before
              || exists k :: 0 <= k < |TRANSACTION_KEYS|
                   && ValueIn(if s == 0 then c.columns else c.slots, TRANSACTION_KEYS[k], v)
  {
    var source := if s == 0 then c.columns else c.slots;
    values := before;
    for k := 0 to |TRANSACTION_KEYS|
      invariant forall v :: v in values <==>
                  v in before || exists j :: 0 <= j < k && ValueIn(source, TRANSACTION_KEYS[j], v)
    {
      var key := TRANSACTION_KEYS[k];
      if key in source && source[key] != "" {
        values := values + [source[key]];
      }
    }
  }

  predicate ValueIn(source: map<string, string>, key: string, v: string) {
    v != "" && key in source && source[key] == v
  }

  lemma NamesTransactionIff(c: Case, text: Text, values: seq<string>)
    requires forall v :: v in values <==>
               exists k :: 0 <= k < |TRANSACTION_KEYS| && ValueFrom(c, 2, TRANSACTION_KEYS[k], v)
    ensures NamesTransaction(c, text) <==> exists v :: v in values && v in text.names
  {
    if k :| 0 <= k < |TRANSACTION_KEYS|
            && (Mentioned(c.columns, TRANSACTION_KEYS[k], text) || Mentioned(c.slots, TRANSACTION_KEYS[k], text)) {
      var key := TRANSACTION_KEYS[k];
      var v := if Mentioned(c.columns, key, text) then c.columns[key] else c.slots[key];
      assert ValueFrom(c, 2, key, v);
      assert v in values;
    }
  }

  /** resolve_money_case_followup */
  method ResolveFollowup(candidates: seq<Case>, text: Text, inherited: Option<int>) returns (r: Resolution)
    ensures r == Resolved(candidates, text, inherited)
  {
    if !text.complains && !text.confirms {
      return NoCase;
    }
    var eligible, named, rooted := [], [], [];
    for k := 0 to |candidates|
      invariant eligible == Filter(candidates[..k], EligibleFor(text))
      invariant named == Filter(candidates[..k], NamedIn(text))
      invariant rooted == Filter(candidates[..k], Rooted(text, inherited))
    {
      var c := candidates[k];
      assert candidates[..k + 1][..k] == candidates[..k];
      var status := StatusOf(c);
      if status == CompletedConfirmedByCustomer || status == TerminalOther {
        continue;
      }
      if !IsConfirmation(text) && status == WaitingCustomer {
        continue;
      }
      eligible := eligible + [c];
      var names := FindTransaction(c, text);
      if names {
        named := named + [c];
      }
      if inherited.Some? && c.root == inherited {
        rooted := rooted + [c];
      }
    }
    assert candidates[..|candidates|] == candidates;
    if eligible == [] {
      return NoCase;
    }
    if |named| == 1 {
      return MatchedAs(named[0], text);
    }
    if |named| > 1 {
      return Ambiguous;
    }
    if |rooted| == 1 {
      return MatchedAs(rooted[0], text);
    }
    r := if |eligible| == 1 then MatchedAs(eligible[0], text) else Ambiguous;
  }

  // ---- Order does not matter --------------------------------------------------------------------------

  lemma {:induction false} FilterCounts(cases: seq<Case>, keep: Case -> bool)
    ensures forall c :: multiset(Filter(cases, keep))[c] == if keep(c) then multiset(cases)[c] else 0
  {
    if cases != [] {
      var init, last := cases[..|cases| - 1], cases[|cases| - 1];
      FilterCounts(init, keep);
      assert cases == init + [last];
    }
  }

  lemma SameElements(x: seq<Case>, y: seq<Case>)
    requires multiset(x) == multiset(y)
    ensures |x| == |y|
    ensures |x| == 1 ==> x == y
  {
    assert |multiset(x)| == |x| && |multiset(y)| == |y|;
    if |x| == 1 {
      assert x[0] in multiset(y);
    }
  }

  /** Rearranging the candidates rearranges what a filter keeps; a single survivor stays the same. */
  lemma FilterPermutes(a: seq<Case>, b: seq<Case>, keep: Case -> bool)
    requires multiset(a) == multiset(b)
    ensures |Filter(a, keep)| == |Filter(b, keep)|
    ensures |Filter(a, keep)| == 1 ==> Filter(a, keep) == Filter(b, keep)
  {
    FilterCounts(a, keep);
    FilterCounts(b, keep);
    var x, y := multiset(Filter(a, keep)), multiset(Filter(b, keep));
    forall c ensures x[c] == y[c] {}
    assert x == y;
    SameElements(Filter(a, keep), Filter(b, keep));
  }

  /** Permuting the candidates never changes the resolution. */
  lemma OrderIndependent(a: seq<Case>, b: seq<Case>, text: Text, inherited: Option<int>)
    requires multiset(a) == multiset(b)
    ensures Resolved(a, text, inherited) == Resolved(b, text, inherited)
  {
    FilterPermutes(a, b, EligibleFor(text));
    FilterPermutes(a, b, NamedIn(text));
    FilterPermutes(a, b, Rooted(text, inherited));
  }

  // ---- What a match means -----------------------------------------------------------------------------

  /** c is the one candidate, counted once, that passes the test. */
  ghost predicate Sole(candidates: seq<Case>, keep: Case -> bool, c: Case) {
    keep(c) && multiset(candidates)[c] == 1 && forall d :: d in candidates && keep(d) ==> d == c
  }

  lemma SoleIff(candidates: seq<Case>, keep: Case -> bool, c: Case)
    ensures Filter(candidates, keep) == [c] <==> Sole(candidates, keep, c)
  {
    FilterCounts(candidates, keep);
    var kept := Filter(candidates, keep);
    if kept == [c] {
      forall d | d in candidates && keep(d) ensures d == c {
        assert multiset(kept)[d] == multiset(candidates)[d] > 0;
        assert d in kept;
      }
      assert multiset(kept)[c] == 1;
      assert c in kept;
      assert keep(c);
    }
    if Sole(candidates, keep, c) {
      assert forall d :: d != c ==> !keep(d) || multiset(candidates)[d] == 0;
      forall d ensures multiset(kept)[d] == multiset{c}[d] {}
      assert multiset(kept) == multiset{c};
      assert |kept| == |multiset(kept)| == 1;
      assert kept[0] in multiset(kept);
    }
  }

  ghost predicate NoneKept(candidates: seq<Case>, keep: Case -> bool) {
    forall d :: d in candidates ==> !keep(d)
  }

  lemma NoneIff(candidates: seq<Case>, keep: Case -> bool)
    ensures Filter(candidates, keep) == [] <==> NoneKept(candidates, keep)
  {
    FilterCounts(candidates, keep);
    var kept := Filter(candidates, keep);
    if kept != [] {
      assert multiset(kept)[kept[0]] > 0;
      assert kept[0] in candidates;
    } else {
      forall d | d in candidates ensures !keep(d) { assert multiset(kept)[d] == 0 && multiset(candidates)[d] > 0; }
    }
  }

  // ---- The candidates, in columns ---------------------------------------------------------------------

  /** What staff have made of the case; a legacy row is completed only by a resolution that says so and no long wait. */
  ghost predicate Stands(c: Case, status: Status) {
    match c.stored
    case Current(s) => status == s
    case Legacy(longWait, resolved) =>
      || (status == CompletedByStaff && !longWait && resolved == Some(true))
      || (status == UnderReview && (longWait || resolved == Some(false)))
      || (status == AwaitingReview && !longWait && resolved == None)
  }

  /** Neither confirmed nor closed otherwise, and waiting for the customer only if the customer confirms. */
  ghost predicate Answerable(c: Case, text: Text) {
    forall status :: Stands(c, status) ==>
      && status != CompletedConfirmedByCustomer && status != TerminalOther
      && (status == WaitingCustomer ==> text.confirms && !text.complains)
  }

  /** The text names a non-empty transaction value of the case. */
  ghost predicate Named(c: Case, text: Text) {
    exists key ::
      && key in {"order_id", "order_no", "transaction_id", "transaction_ref", "reference", "withdrawal_id",
                 "deposit_id"}
      && (Names(c.columns, key, text) || Names(c.slots, key, text))
  }

  ghost predicate Names(source: map<string, string>, key: string, text: Text) {
    key in source && source[key] != "" && source[key] in text.names
  }

  ghost function AnswerableFor(text: Text): Case -> bool {
    (c: Case) => Answerable(c, text)
  }

  ghost function NamedFor(text: Text): Case -> bool {
    (c: Case) => Answerable(c, text) && Named(c, text)
  }

  ghost function OnCard(text: Text, inherited: Option<int>): Case -> bool {
    (c: Case) => Answerable(c, text) && c.root.Some? && inherited.Some? && c.root.value == inherited.value
  }

  /** A confirmation, a dispute of what staff completed, or a reminder. */
  ghost predicate MeantAs(c: Case, text: Text, kind: Kind) {
    match kind
    case CustomerConfirmedResolved => text.confirms && !text.complains
    case CompletionDispute => (text.complains || !text.confirms) && Stands(c, CompletedByStaff)
    case PendingFollowUp => (text.complains || !text.confirms) && !Stands(c, CompletedByStaff)
  }

  lemma StatusStands(c: Case, status: Status)
    ensures Stands(c, status) <==> status == StatusOf(c)
  {
  }

  lemma EligibleIff(c: Case, text: Text)
    ensures Eligible(c, text) <==> Answerable(c, text)
  {
    forall status ensures Stands(c, status) <==> status == StatusOf(c) { StatusStands(c, status); }
    assert Stands(c, StatusOf(c));
  }

  lemma NamedIff(c: Case, text: Text)
    ensures NamesTransaction(c, text) <==> Named(c, text)
  {
    if k :| 0 <= k < |TRANSACTION_KEYS|
            && (Mentioned(c.columns, TRANSACTION_KEYS[k], text) || Mentioned(c.slots, TRANSACTION_KEYS[k], text)) {
      assert Names(c.columns, TRANSACTION_KEYS[k], text) || Names(c.slots, TRANSACTION_KEYS[k], text);
    }
    if Named(c, text) {
      var key :| key in {"order_id", "order_no", "transaction_id", "transaction_ref", "reference", "withdrawal_id",
                         "deposit_id"} && (Names(c.columns, key, text) || Names(c.slots, key, text));
      assert key in TRANSACTION_KEYS;
      var k :| 0 <= k < |TRANSACTION_KEYS| && TRANSACTION_KEYS[k] == key;
      assert Mentioned(c.columns, TRANSACTION_KEYS[k], text) || Mentioned(c.slots, TRANSACTION_KEYS[k], text);
    }
  }

  lemma TestsAgree(text: Text, inherited: Option<int>, c: Case)
    ensures EligibleFor(text)(c) == AnswerableFor(text)(c) && NamedIn(text)(c) == NamedFor(text)(c)
    ensures Rooted(text, inherited)(c) == OnCard(text, inherited)(c)
  {
    EligibleIff(c, text);
    NamedIff(c, text);
  }

  lemma MatchedMeans(c: Case, text: Text)
    ensures var r := MatchedAs(c, text); r.Matched? && r.matched == c && Stands(c, r.status) && MeantAs(c, text, r.kind)
  {
    StatusStands(c, StatusOf(c));
    StatusStands(c, CompletedByStaff);
  }

  /** In columns: a case is matched exactly when it is the only answerable one that the text names, or none is named and
      it is the only one of the inherited card, or that does not decide and it is the only answerable one; with its own
      status and the kind that the text means. */
  lemma MatchInColumns(candidates: seq<Case>, text: Text, inherited: Option<int>, c: Case)
    ensures var r := Resolved(candidates, text, inherited);
            (r.Matched? && r.matched == c) <==>
              && (text.complains || text.confirms)
              && (|| Sole(candidates, NamedFor(text), c)
                  || (NoneKept(candidates, NamedFor(text)) && Sole(candidates, OnCard(text, inherited), c))
                  || (NoneKept(candidates, NamedFor(text))
                      && (forall d :: !Sole(candidates, OnCard(text, inherited), d))
                      && Sole(candidates, AnswerableFor(text), c)))
    ensures var r := Resolved(candidates, text, inherited);
            r.Matched? ==> Stands(r.matched, r.status) && MeantAs(r.matched, text, r.kind)
    ensures Resolved(candidates, text, inherited) == NoCase <==>
            (!text.complains && !text.confirms) || NoneKept(candidates, AnswerableFor(text))
  {
    forall d ensures EligibleFor(text)(d) == AnswerableFor(text)(d) && NamedIn(text)(d) == NamedFor(text)(d)
      ensures Rooted(text, inherited)(d) == OnCard(text, inherited)(d)
    {
      TestsAgree(text, inherited, d);
    }
    forall d ensures Sole(candidates, Rooted(text, inherited), d) <==> Sole(candidates, OnCard(text, inherited), d) { }
    var r := Resolved(candidates, text, inherited);
    NoCaseIff(candidates, text, inherited);
    if text.complains || text.confirms { MatchIff(candidates, text, inherited, c); }
    MatchedMeans(c, text);
    if r.Matched? { MatchedMeans(r.matched, text); }
  }

  /** A case is matched exactly when it is the only eligible one the text names, or none is named and it is the only
      one of the inherited card, or that does not decide and it is the only eligible one. */
  lemma MatchIff(candidates: seq<Case>, text: Text, inherited: Option<int>, c: Case)
    requires text.complains || text.confirms
    ensures Resolved(candidates, text, inherited) == MatchedAs(c, text) <==>
            || Sole(candidates, NamedIn(text), c)
            || (NoneKept(candidates, NamedIn(text)) && Sole(candidates, Rooted(text, inherited), c))
            || (NoneKept(candidates, NamedIn(text)) && (forall d :: !Sole(candidates, Rooted(text, inherited), d))
                && Sole(candidates, EligibleFor(text), c))
  {
    var named := Filter(candidates, NamedIn(text));
    var rooted := Filter(candidates, Rooted(text, inherited));
    var eligible := Filter(candidates, EligibleFor(text));
    SoleIff(candidates, NamedIn(text), c);
    SoleIff(candidates, Rooted(text, inherited), c);
    SoleIff(candidates, EligibleFor(text), c);
    NoneIff(candidates, NamedIn(text));
    NoneIff(candidates, EligibleFor(text));
    forall d ensures Sole(candidates, Rooted(text, inherited), d) <==> rooted == [d] {
      SoleIff(candidates, Rooted(text, inherited), d);
    }
    if |rooted| == 1 { assert rooted == [rooted[0]]; }
    if |named| == 1 { assert named == [named[0]]; }
    if |eligible| == 1 { assert eligible == [eligible[0]]; }
  }

  /** No case is found exactly when the text is neither complaint nor confirmation, or no candidate is eligible. */
  lemma NoCaseIff(candidates: seq<Case>, text: Text, inherited: Option<int>)
    ensures Resolved(candidates, text, inherited) == NoCase <==>
            (!text.complains && !text.confirms) || NoneKept(candidates, EligibleFor(text))
  {
    NoneIff(candidates, EligibleFor(text));
  }

  // ---- The worker's kind ------------------------------------------------------------------------------

  /** effective_follow_up_kind; None cancels the follow-up. */
  function EffectiveKind(status: Status, text: Text): Option<Kind> {
    if status == CompletedConfirmedByCustomer || status == TerminalOther || status == WaitingCustomer then None
    else if status == CompletedByStaff || status == CompletionDisputed then
      if text.complains then Some(CompletionDispute) else None
    else Some(PendingFollowUp)
  }

  /** For the same text and an unchanged status the worker cancels what was matched exactly for a confirmation on a
      case that waits for the customer or counts as completed; a complaint is never cancelled. */
  lemma WorkerCancelsIff(candidates: seq<Case>, text: Text, inherited: Option<int>, c: Case)
    requires Resolved(candidates, text, inherited) == MatchedAs(c, text)
    ensures EffectiveKind(StatusOf(c), text).None? <==>
            && IsConfirmation(text)
            && (StatusOf(c) == WaitingCustomer || StatusOf(c) == CompletedByStaff || StatusOf(c) == CompletionDisputed)
  {
    if text.complains || text.confirms {
      MatchIff(candidates, text, inherited, c);
      assert Eligible(c, text);
    }
  }

  /** The kinds of matcher and worker differ exactly for cases whose completion is already disputed. */
  lemma KindsAgreeIff(candidates: seq<Case>, text: Text, inherited: Option<int>, c: Case)
    requires Resolved(candidates, text, inherited) == MatchedAs(c, text) && !IsConfirmation(text)
    ensures EffectiveKind(StatusOf(c), text) == Some(MatchedAs(c, text).kind) <==> StatusOf(c) != CompletionDisputed
  {
    if text.complains || text.confirms {
      MatchIff(candidates, text, inherited, c);
      assert Eligible(c, text);
    }
  }

  lemma AloneMatches(c: Case, text: Text, inherited: Option<int>)
    requires (text.complains || text.confirms) && Eligible(c, text)
    ensures Resolved([c], text, inherited) == MatchedAs(c, text)
  {
    assert [c][..0] == [];
    assert Filter([c], NamedIn(text)) == if NamesTransaction(c, text) then [c] else [];
    assert Filter([c], Rooted(text, inherited)) == if SharesRoot(c, inherited) then [c] else [];
    assert Filter([c], EligibleFor(text)) == [c];
  }

  /** Every complaint about a single case whose completion is disputed is matched as one kind and sent as another. */
  lemma DisputeSentAsOther(c: Case, text: Text, inherited: Option<int>)
    requires text.complains && StatusOf(c) == CompletionDisputed
    ensures Resolved([c], text, inherited) == Matched(c, CompletionDisputed, PendingFollowUp)
    ensures EffectiveKind(StatusOf(c), text) == Some(CompletionDispute)
  {
    AloneMatches(c, text, inherited);
  }

  /** Every confirmation for a single case that waits or counts as completed is matched and then cancelled. */
  lemma ConfirmationCancelled(c: Case, text: Text, inherited: Option<int>)
    requires IsConfirmation(text)
    requires StatusOf(c) == WaitingCustomer || StatusOf(c) == CompletedByStaff || StatusOf(c) == CompletionDisputed
    ensures Resolved([c], text, inherited) == Matched(c, StatusOf(c), CustomerConfirmedResolved)
    ensures EffectiveKind(StatusOf(c), text) == None
  {
    AloneMatches(c, text, inherited);
  }
}
