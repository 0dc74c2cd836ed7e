/** The validator of router decisions.  The live path runs it twice: the model provider
    validates the model's answer, and the graph node validates the provider's. */
module RouterGuard {
  import opened Base
  import opened Keeping
  import opened Text

  /** The words the validator knows; any other text is Unknown. */
  datatype Word =
    | Blank
    // routes and their aliases
    | Faq | Sop | HumanHandoff | EmotionCare | FinalReply
    | Clarification | ContextualReply | Unsupported | Final | FinalSpaceReply | Human | HumanSpaceHandoff
    // canonical FAQ intents and their aliases
    | DepositHowto | WithdrawalHowto | ForgotPasswordHowto | ScreenshotUploadHowto
    | DepositInquiry | Deposit | DepositGuide | RechargeHowto | Recharge
    | WithdrawalInquiry | Withdrawal | Withdraw | WithdrawGuide
    | PasswordReset | ResetPassword | ForgotPassword
    // workflows
    | DepositMissing | WithdrawalMissing | WithdrawalBlockedOrRollover | PendingReplyLookup
    // escalations
    | AccountAccessIssue | AccountProfileOrWalletChange | ScreenshotUploadFailed | WalletIdentityRisk
    | AccountVerificationIssue | PromoRefundUnsupported | GameTechnicalIssue | AbuseOrFraudRisk
    | TutorialFailedAftercare | ActiveWorkflowConflictWithData | MenuStuckRepeated | WaitingBackendRepeatDispute
    | ExplicitHumanRequest | ServiceFrustration | AbusiveOrEmotional | BackendFactLike
    // replies
    | UnsupportedConcreteIssue | ClarificationNeeded | Acknowledgement | ContextualFollowup
    | ConversationMemoryLookup | CasualChat | ConversationMemory | PreviousMessageLookup
    // relations to the active workflow
    | CurrentWorkflowSupplement | CurrentWorkflowResolution | IndependentFaq | NewWorkflowRequest | HumanEscalation
    | Unclear | NoRelation
    | Unknown(text: string)

  /** How a text differs from its word: not at all, by white space around it, or also by capitals and hyphens. */
  datatype Form = Exact | Padded | Styled

  /** A text that names something: the word that folding makes of it, and what folding removes. */
  datatype Name = Name(word: Word, form: Form)

  /** str.strip() */
  function Trimmed(n: Name): Name {
    if n.form.Padded? then n.(form := Exact) else n
  }

  /** `_optional_str` */
  function OptionalName(n: Option<Name>): Option<Name> {
    if n.Some? && n.value.word != Blank then Some(Trimmed(n.value)) else None
  }

  function OptionalStr(s: Option<string>): Option<string> {
    if s.Some? && Strip(s.value) != "" then Some(Strip(s.value)) else None
  }

  predicate Exactly(n: Option<Name>, w: Word) {
    n == Some(Name(w, Exact))
  }

  predicate IsRoute(w: Word) {
    w.Faq? || w.Sop? || w.HumanHandoff? || w.EmotionCare? || w.FinalReply?
  }

  predicate IsFaqIntent(w: Word) {
    w.DepositHowto? || w.WithdrawalHowto? || w.ForgotPasswordHowto? || w.ScreenshotUploadHowto?
  }

  predicate IsSopIntent(w: Word) {
    w.DepositMissing? || w.WithdrawalMissing? || w.WithdrawalBlockedOrRollover? || w.PendingReplyLookup?
  }

  predicate IsEscalation(w: Word) {
    || w.AccountAccessIssue? || w.AccountProfileOrWalletChange? || w.ScreenshotUploadFailed? || w.WalletIdentityRisk?
    || w.AccountVerificationIssue? || w.PromoRefundUnsupported? || w.GameTechnicalIssue? || w.AbuseOrFraudRisk?
    || w.TutorialFailedAftercare? || w.ActiveWorkflowConflictWithData? || w.MenuStuckRepeated?
    || w.WaitingBackendRepeatDispute? || w.ExplicitHumanRequest? || w.ServiceFrustration? || w.AbusiveOrEmotional?
    || w.BackendFactLike?
  }

  predicate IsReply(w: Word) {
    || w.UnsupportedConcreteIssue? || w.ClarificationNeeded? || w.Acknowledgement? || w.ContextualFollowup?
    || w.ConversationMemoryLookup? || w.CasualChat?
  }

  predicate IsIntent(w: Word) {
    IsFaqIntent(w) || IsSopIntent(w) || IsEscalation(w) || IsReply(w)
  }

  predicate IsRelation(w: Word) {
    || w.CurrentWorkflowSupplement? || w.CurrentWorkflowResolution? || w.IndependentFaq? || w.NewWorkflowRequest?
    || w.HumanEscalation? || w.Acknowledgement? || w.ContextualFollowup? || w.Unclear?
  }

  /** get_sop_definition finds one; pending_reply_lookup has none. */
  predicate HasSop(n: Name) {
    n.form.Exact? && (n.word.DepositMissing? || n.word.WithdrawalMissing? || n.word.WithdrawalBlockedOrRollover?)
  }

  // ---- Normalisation --------------------------------------------------------------------------------

  function NormalizeRoute(w: Word): Word {
    if w.Clarification? || w.ContextualReply? || w.CasualChat? || w.Unsupported? then FinalReply
    else if w.Final? || w.FinalSpaceReply? then FinalReply
    else if w.Human? || w.HumanSpaceHandoff? then HumanHandoff
    else w
  }

  function NormalizeIntent(w: Word): Word {
    if w.DepositInquiry? || w.Deposit? || w.DepositGuide? || w.RechargeHowto? || w.Recharge? then DepositHowto
    else if w.WithdrawalInquiry? || w.Withdrawal? || w.Withdraw? || w.WithdrawGuide? then WithdrawalHowto
    else if w.PasswordReset? || w.ResetPassword? || w.ForgotPassword? then ForgotPasswordHowto
    else w
  }

  /** An unknown intent is accepted only where a fallback is safe. */
  function DecisionIntent(w: Word, route: Word, requiresHuman: bool): Result<Word> {
    var n := NormalizeIntent(w);
    if IsIntent(n) then Ok(n)
    else if route == HumanHandoff && requiresHuman then Ok(ExplicitHumanRequest)
    else if route == FinalReply && (n.Clarification? || n.Unsupported?) then Ok(ClarificationNeeded)
    else if route == FinalReply && n.ContextualReply? then Ok(ContextualFollowup)
    else if route == FinalReply && (n.ConversationMemory? || n.PreviousMessageLookup?) then Ok(ConversationMemoryLookup)
    else if route == FinalReply then Ok(ClarificationNeeded)
    else Err("Unsupported llm intent")
  }

  function Clamp(confidence: real): real {
    if confidence < 0.0 then 0.0 else if confidence > 1.0 then 1.0 else confidence
  }

  /** `_string_list`: items that are not blank, as they are. */
  function StringList(items: seq<string>): seq<string> {
    if items == [] then []
    else if Strip(items[0]) != "" then [items[0]] + StringList(items[1..])
    else StringList(items[1..])
  }

  // ---- The validator ----------------------------------------------------------------------------------

  /** What is known about the conversation; conflicts says that the texts name another business object than the
      active workflow's. */
  datatype Payload = Payload(activeWorkflow: Option<Name>, conflicts: bool)

  /** The model's answer; a missing field is None. */
  datatype Raw = Raw(
    intent: Option<Name>, route: Option<Name>, confidence: Option<real>, sopName: Option<Name>,
    faqQuery: Option<string>, riskLevel: Option<string>, requiresHuman: Option<bool>, requiresBackend: Option<bool>,
    missingSlots: seq<string>, workflowRelation: Option<Name>, preserveActiveWorkflow: Option<bool>,
    reason: Option<string>)

  datatype Decision = Decision(
    intent: Word, route: Word, confidence: real, sopName: Option<Name>, faqQuery: Option<string>,
    riskLevel: Option<string>, requiresHuman: bool, requiresBackend: bool, missingSlots: seq<string>,
    workflowRelation: Option<Word>, preserveActiveWorkflow: bool, reason: string)

  function Spelled(w: Word): Option<Name> {
    Some(Name(w, Exact))
  }

  /** The validated dict, read again as an answer. */
  function AsRaw(d: Decision): Raw {
    Raw(Spelled(d.intent), Spelled(d.route), Some(d.confidence), d.sopName, d.faqQuery, d.riskLevel,
        Some(d.requiresHuman), Some(d.requiresBackend), d.missingSlots,
        if d.workflowRelation.Some? then Spelled(d.workflowRelation.value) else None,
        Some(d.preserveActiveWorkflow), Some(d.reason))
  }

  function WorkflowRelation(p: Payload, value: Option<Name>): Result<Option<Word>> {
    var relation := OptionalName(value);
    if OptionalName(p.activeWorkflow).Some? then
      if relation.None? then Err("workflow_relation is required")
      else if !relation.value.form.Exact? || !IsRelation(relation.value.word) then Err("Unsupported workflow_relation")
      else Ok(Some(relation.value.word))
    else if relation.None? then Ok(None)
    else Ok(Some(NoRelation))
  }

  function SopName(route: Word, intent: Word, value: Option<Name>): Option<Name> {
    var name := OptionalName(value);
    if route != Sop then name
    else if name.Some? && HasSop(name.value) then name
    else if IsSopIntent(intent) && HasSop(Name(intent, Exact)) then Spelled(intent)
    else name
  }

  function RequiresBackend(route: Word, intent: Word, relation: Option<Word>, value: bool): bool {
    value || (route == Sop && IsSopIntent(intent) && relation != Some(CurrentWorkflowResolution))
  }

  predicate RouteContract(d: Decision) {
    && (d.route == Faq ==> IsFaqIntent(d.intent) && d.faqQuery.Some? && !d.requiresBackend && !d.requiresHuman
                           && d.missingSlots == [] && d.sopName.None?)
    && (d.route == Sop ==>
          && (d.sopName.Some? ==> HasSop(d.sopName.value))
          && (IsSopIntent(d.intent) && !d.requiresBackend ==>
                d.workflowRelation == Some(CurrentWorkflowSupplement)
                  || d.workflowRelation == Some(CurrentWorkflowResolution)))
    && (d.route == HumanHandoff ==> d.requiresHuman)
    && (d.route == FinalReply ==> IsReply(d.intent))
  }

  /** A supplement to, or the resolution of, the active workflow is about that workflow. */
  predicate SameWorkflow(p: Payload, d: Decision) {
    && d.route == Sop && !p.conflicts
    && Exactly(OptionalName(p.activeWorkflow), d.intent)
    && (d.sopName.Some? ==> d.sopName == OptionalName(p.activeWorkflow))
  }

  /** What each relation to the active workflow demands of the rest of the decision. */
  predicate RelationAgrees(p: Payload, d: Decision, relation: Word) {
    if relation == CurrentWorkflowSupplement then SameWorkflow(p, d)
    else if relation == CurrentWorkflowResolution then SameWorkflow(p, d) && !d.preserveActiveWorkflow
    else if relation == IndependentFaq then d.route == Faq && d.preserveActiveWorkflow
    else if relation == NewWorkflowRequest then
      d.route == FinalReply && d.intent == ClarificationNeeded && d.preserveActiveWorkflow
    else if relation == HumanEscalation then d.route == HumanHandoff
    else if relation == Acknowledgement then
      d.route == FinalReply && d.intent == Acknowledgement && d.preserveActiveWorkflow
    else if relation == ContextualFollowup then
      d.route == FinalReply && d.intent == ContextualFollowup && d.preserveActiveWorkflow
    else relation == Unclear ==> d.route == FinalReply && d.preserveActiveWorkflow
  }

  predicate RelationContract(p: Payload, d: Decision) {
    OptionalName(p.activeWorkflow).Some? && d.workflowRelation.Some? ==> RelationAgrees(p, d, d.workflowRelation.value)
  }

  /** `payload.get("active_workflow")` is truthy for any text but "", even a blank one. */
  predicate DropsWorkflow(p: Payload, route: Word, relation: Option<Word>, preserve: bool) {
    && p.activeWorkflow.Some? && p.activeWorkflow.value != Name(Blank, Exact)
    && route != HumanHandoff && relation != Some(CurrentWorkflowResolution) && !preserve
  }

  /** Route, requires_human and intent, which the other fields depend on. */
  datatype Heading = Heading(route: Word, human: bool, intent: Word)

  function HeadingOf(raw: Raw): Result<Heading> {
    if OptionalName(raw.route).None? || !IsRoute(NormalizeRoute(raw.route.value.word)) then Err("Unsupported llm route")
    else if OptionalName(raw.intent).None? then Err("Missing required field")
    else
      var route := NormalizeRoute(raw.route.value.word);
      var human := route == HumanHandoff || raw.requiresHuman == Some(true);
      var intent := DecisionIntent(raw.intent.value.word, route, human);
      if intent.Err? then Err(intent.error)
      else if route == Faq && !IsFaqIntent(intent.value) then Err("FAQ route requires a canonical FAQ intent")
      else Ok(Heading(route, human, intent.value))
  }

  /** The decision as it stands before the contract check. */
  function Normalized(p: Payload, raw: Raw): Result<Decision> {
    var heading := HeadingOf(raw);
    if heading.Err? then Err(heading.error)
    else
      var Heading(route, human, intent) := heading.value;
      var relation := WorkflowRelation(p, raw.workflowRelation);
      var preserve := raw.preserveActiveWorkflow != Some(false);
      if relation.Err? then Err(relation.error)
      else if DropsWorkflow(p, route, relation.value, preserve) then Err("Active workflow must be preserved")
      else if OptionalStr(raw.reason).None? then Err("Missing required field")
      else Ok(Decision(
        intent, route, if raw.confidence.Some? then Clamp(raw.confidence.value) else 0.0,
        SopName(route, intent, raw.sopName), OptionalStr(raw.faqQuery), OptionalStr(raw.riskLevel), human,
        RequiresBackend(route, intent, relation.value, raw.requiresBackend == Some(true)),
        StringList(raw.missingSlots), relation.value, preserve, OptionalStr(raw.reason).value))
  }

  /** validate_intent_classification_output */
  function Validate(p: Payload, raw: Raw): Result<Decision> {
    var d := Normalized(p, raw);
    if d.Err? then d
    else if !RouteContract(d.value) || !RelationContract(p, d.value) then Err("contract violated")
    else d
  }

  // ---- Main results -----------------------------------------------------------------------------------

  lemma OptionalFixed(value: Option<string>)
    ensures OptionalStr(OptionalStr(value)) == OptionalStr(value)
  {
    if value.Some? { StripTwice(value.value); }
  }

  lemma {:induction false} StringListFixed(items: seq<string>)
    ensures StringList(StringList(items)) == StringList(items)
  {
    if items != [] {
      StringListFixed(items[1..]);
      if Strip(items[0]) != "" { assert StringList(items)[1..] == StringList(items[1..]); }
    }
  }

  lemma RouteFixed(w: Word)
    ensures NormalizeRoute(NormalizeRoute(w)) == NormalizeRoute(w)
  {
  }

  lemma IntentsStay(w: Word)
    requires IsIntent(w)
    ensures NormalizeIntent(w) == w && w != Blank
  {
    if IsEscalation(w) { EscalationsStay(w); } else { OtherIntentsStay(w); }
  }

  lemma EscalationsStay(w: Word)
    requires IsEscalation(w)
    ensures NormalizeIntent(w) == w && w != Blank
  {
  }

  lemma OtherIntentsStay(w: Word)
    requires IsFaqIntent(w) || IsSopIntent(w) || IsReply(w)
    ensures NormalizeIntent(w) == w && w != Blank
  {
  }

  lemma DecisionIntentKnown(w: Word, route: Word, human: bool)
    requires DecisionIntent(w, route, human).Ok?
    ensures IsIntent(DecisionIntent(w, route, human).value)
  {
  }

  lemma IntentFixed(w: Word, route: Word, human: bool)
    requires DecisionIntent(w, route, human).Ok?
    ensures var v := DecisionIntent(w, route, human).value;
            IsIntent(v) && v != Blank && DecisionIntent(v, route, human) == Ok(v)
  {
    DecisionIntentKnown(w, route, human);
    IntentsStay(DecisionIntent(w, route, human).value);
  }

  lemma RelationFixed(p: Payload, value: Option<Name>)
    requires WorkflowRelation(p, value).Ok?
    ensures var r := WorkflowRelation(p, value).value;
            WorkflowRelation(p, if r.Some? then Spelled(r.value) else None) == Ok(r)
  {
  }

  lemma SopNameFixed(route: Word, intent: Word, value: Option<Name>)
    ensures SopName(route, intent, SopName(route, intent, value)) == SopName(route, intent, value)
  {
  }

  /** What a second run reads from the fields of a decision. */
  predicate ReadBack(p: Payload, d: Decision) {
    && HeadingOf(AsRaw(d)) == Ok(Heading(d.route, d.requiresHuman, d.intent))
    && WorkflowRelation(p, AsRaw(d).workflowRelation) == Ok(d.workflowRelation)
    && SopName(d.route, d.intent, d.sopName) == d.sopName
    && OptionalStr(d.faqQuery) == d.faqQuery && OptionalStr(d.riskLevel) == d.riskLevel
    && OptionalStr(Some(d.reason)) == Some(d.reason) && StringList(d.missingSlots) == d.missingSlots
    && Clamp(d.confidence) == d.confidence
    && RequiresBackend(d.route, d.intent, d.workflowRelation, d.requiresBackend) == d.requiresBackend
    && !DropsWorkflow(p, d.route, d.workflowRelation, d.preserveActiveWorkflow)
  }

  lemma RereadSame(p: Payload, d: Decision)
    requires ReadBack(p, d)
    ensures Normalized(p, AsRaw(d)) == Ok(d)
  {
  }

  lemma HeadingFixed(raw: Raw, again: Raw)
    requires HeadingOf(raw).Ok?
    requires var h := HeadingOf(raw).value;
             again.route == Spelled(h.route) && again.intent == Spelled(h.intent)
               && again.requiresHuman == Some(h.human)
    ensures HeadingOf(again) == HeadingOf(raw)
  {
    var h := HeadingOf(raw).value;
    RouteFixed(raw.route.value.word);
    IntentFixed(raw.intent.value.word, h.route, h.human);
  }

  lemma NormalizedReadsBack(p: Payload, raw: Raw)
    requires Normalized(p, raw).Ok?
    ensures ReadBack(p, Normalized(p, raw).value)
  {
    var d := Normalized(p, raw).value;
    HeadingFixed(raw, AsRaw(d));
    RelationFixed(p, raw.workflowRelation);
    SopNameFixed(d.route, d.intent, raw.sopName);
    OptionalFixed(raw.faqQuery);
    OptionalFixed(raw.riskLevel);
    OptionalFixed(raw.reason);
    StringListFixed(raw.missingSlots);
  }

  /** A decision that was accepted once is accepted unchanged when it is validated again with the same payload. */
  lemma ValidateIsProjection(p: Payload, raw: Raw)
    requires Validate(p, raw).Ok?
    ensures Validate(p, AsRaw(Validate(p, raw).value)) == Validate(p, raw)
  {
    NormalizedReadsBack(p, raw);
    RereadSame(p, Validate(p, raw).value);
  }

  /** Accepted decisions let go of an active workflow only for a human, or to resolve that same workflow. */
  lemma WorkflowDroppedOnlyIf(p: Payload, raw: Raw)
    requires Validate(p, raw).Ok? && OptionalName(p.activeWorkflow).Some?
             && !Validate(p, raw).value.preserveActiveWorkflow
    ensures var d := Validate(p, raw).value;
            || (d.route == HumanHandoff && d.requiresHuman)
            || (d.workflowRelation == Some(CurrentWorkflowResolution) && d.route == Sop
                && Exactly(OptionalName(p.activeWorkflow), d.intent) && !p.conflicts)
  {
  }

  lemma ActiveRelation(p: Payload, raw: Raw)
    requires Normalized(p, raw).Ok? && OptionalName(p.activeWorkflow).Some?
    ensures var d := Normalized(p, raw).value; d.workflowRelation.Some? && IsRelation(d.workflowRelation.value)
  {
  }

  lemma RelationsRoute(p: Payload, d: Decision, relation: Word)
    requires IsRelation(relation) && RelationAgrees(p, d, relation)
    ensures d.route == Faq ==> d.preserveActiveWorkflow && relation == IndependentFaq
    ensures d.route == Sop ==> SameWorkflow(p, d)
  {
  }

  /** While a workflow is active, a question from the knowledge base never ends it or asks the backend, and a
      workflow route is only ever taken for that same workflow. */
  lemma ActiveWorkflowRoutes(p: Payload, raw: Raw)
    requires Validate(p, raw).Ok? && OptionalName(p.activeWorkflow).Some?
    ensures var d := Validate(p, raw).value;
            && (d.route == Faq ==>
                  d.preserveActiveWorkflow && !d.requiresBackend && d.workflowRelation == Some(IndependentFaq))
            && (d.route == Sop ==> Exactly(OptionalName(p.activeWorkflow), d.intent) && !p.conflicts)
  {
    ActiveRelation(p, raw);
    var d := Normalized(p, raw).value;
    RelationsRoute(p, d, d.workflowRelation.value);
  }

  // ---- What is accepted, without reference to how it is decided ----------------------------------------

  /** A text that is there and not blank. */
  ghost predicate Given(n: Option<Name>) {
    n.Some? && n.value.word != Blank
  }

  /** A text that is the word itself, white space around it aside. */
  ghost predicate Spells(n: Option<Name>, w: Word) {
    n == Some(Name(w, Exact)) || n == Some(Name(w, Padded))
  }

  /** What each text that names a route stands for. */
  ghost function RouteNamed(w: Word): Option<Word> {
    match w
    case Faq => Some(Faq)
    case Sop => Some(Sop)
    case EmotionCare => Some(EmotionCare)
    case HumanHandoff => Some(HumanHandoff)
    case Human => Some(HumanHandoff)
    case HumanSpaceHandoff => Some(HumanHandoff)
    case FinalReply => Some(FinalReply)
    case Final => Some(FinalReply)
    case FinalSpaceReply => Some(FinalReply)
    case Clarification => Some(FinalReply)
    case ContextualReply => Some(FinalReply)
    case CasualChat => Some(FinalReply)
    case Unsupported => Some(FinalReply)
    case _ => None
  }

  /** The question of the knowledge base that a text stands for. */
  ghost function QuestionNamed(w: Word): Option<Word> {
    match w
    case DepositHowto => Some(DepositHowto)
    case DepositInquiry => Some(DepositHowto)
    case Deposit => Some(DepositHowto)
    case DepositGuide => Some(DepositHowto)
    case RechargeHowto => Some(DepositHowto)
    case Recharge => Some(DepositHowto)
    case WithdrawalHowto => Some(WithdrawalHowto)
    case WithdrawalInquiry => Some(WithdrawalHowto)
    case Withdrawal => Some(WithdrawalHowto)
    case Withdraw => Some(WithdrawalHowto)
    case WithdrawGuide => Some(WithdrawalHowto)
    case ForgotPasswordHowto => Some(ForgotPasswordHowto)
    case PasswordReset => Some(ForgotPasswordHowto)
    case ResetPassword => Some(ForgotPasswordHowto)
    case ForgotPassword => Some(ForgotPasswordHowto)
    case ScreenshotUploadHowto => Some(ScreenshotUploadHowto)
    case _ => None
  }

  datatype Class = Question | Workflow | Escalation | Reply | NoIntent

  /** What kind of intent a word is; only Workflow(pending_reply_lookup) has no definition. */
  ghost function ClassOf(w: Word): Class {
    match w
    case DepositHowto => Question
    case WithdrawalHowto => Question
    case ForgotPasswordHowto => Question
    case ScreenshotUploadHowto => Question
    case DepositMissing => Workflow
    case WithdrawalMissing => Workflow
    case WithdrawalBlockedOrRollover => Workflow
    case PendingReplyLookup => Workflow
    case AccountAccessIssue => Escalation
    case AccountProfileOrWalletChange => Escalation
    case ScreenshotUploadFailed => Escalation
    case WalletIdentityRisk => Escalation
    case AccountVerificationIssue => Escalation
    case PromoRefundUnsupported => Escalation
    case GameTechnicalIssue => Escalation
    case AbuseOrFraudRisk => Escalation
    case TutorialFailedAftercare => Escalation
    case ActiveWorkflowConflictWithData => Escalation
    case MenuStuckRepeated => Escalation
    case WaitingBackendRepeatDispute => Escalation
    case ExplicitHumanRequest => Escalation
    case ServiceFrustration => Escalation
    case AbusiveOrEmotional => Escalation
    case BackendFactLike => Escalation
    case UnsupportedConcreteIssue => Reply
    case ClarificationNeeded => Reply
    case Acknowledgement => Reply
    case ContextualFollowup => Reply
    case ConversationMemoryLookup => Reply
    case CasualChat => Reply
    case _ => NoIntent
  }

  ghost predicate Defined(w: Word) {
    ClassOf(w) == Workflow && w != PendingReplyLookup
  }

  ghost predicate Relates(w: Word) {
    match w
    case CurrentWorkflowSupplement => true
    case CurrentWorkflowResolution => true
    case IndependentFaq => true
    case NewWorkflowRequest => true
    case HumanEscalation => true
    case Acknowledgement => true
    case ContextualFollowup => true
    case Unclear => true
    case _ => false
  }

  /** A known intent or the alias of one stands for it; anything else is only good for a human or a final reply. */
  ghost predicate MeansIntent(w: Word, route: Word, intent: Word) {
    if QuestionNamed(w).Some? then intent == QuestionNamed(w).value
    else if ClassOf(w) != NoIntent then intent == w
    else
      || (route == HumanHandoff && intent == ExplicitHumanRequest)
      || (route == FinalReply && intent == match w
            case ContextualReply => ContextualFollowup
            case ConversationMemory => ConversationMemoryLookup
            case PreviousMessageLookup => ConversationMemoryLookup
            case _ => ClarificationNeeded)
  }

  ghost predicate Heads(raw: Raw, h: Heading) {
    && Given(raw.route) && RouteNamed(raw.route.value.word) == Some(h.route)
    && (h.human <==> h.route == HumanHandoff || raw.requiresHuman == Some(true))
    && Given(raw.intent) && MeansIntent(raw.intent.value.word, h.route, h.intent)
    && (h.route == Faq ==> ClassOf(h.intent) == Question)
  }

  /** Beside an active workflow one of the known relations is required; without one a relation counts for nothing. */
  ghost predicate Related(p: Payload, value: Option<Name>, relation: Option<Word>) {
    if Given(p.activeWorkflow) then relation.Some? && Relates(relation.value) && Spells(value, relation.value)
    else relation == if Given(value) then Some(NoRelation) else None
  }

  ghost predicate Plain(n: Option<Name>, trimmed: Option<Name>) {
    if !Given(n) then trimmed == None
    else trimmed == Some(Name(n.value.word, if n.value.form == Styled then Styled else Exact))
  }

  /** A workflow's route names a workflow that has a definition, if the text or the intent does. */
  ghost predicate NamesSop(route: Word, intent: Word, value: Option<Name>, sop: Option<Name>) {
    var named := exists w :: Defined(w) && Spells(value, w);
    if route == Sop && Defined(intent) && !named then sop == Some(Name(intent, Exact))
    else Plain(value, sop)
  }

  ghost predicate Stripped(value: Option<string>, s: Option<string>) {
    s == if value.Some? && Strip(value.value) != "" then Some(Strip(value.value)) else None
  }

  ghost const NOT_BLANK: string -> bool := (item: string) => Strip(item) != ""

  ghost predicate Clamped(value: Option<real>, confidence: real) {
    && 0.0 <= confidence <= 1.0 && (value.None? ==> confidence == 0.0)
    && (value.Some? && confidence > value.value ==> confidence == 0.0)
    && (value.Some? && confidence < value.value ==> confidence == 1.0)
  }

  /** What a decision for each route must be. */
  ghost predicate FitsRoute(d: Decision) {
    match d.route
    case Faq =>
      && ClassOf(d.intent) == Question && d.faqQuery.Some? && d.sopName.None? && d.missingSlots == []
      && !d.requiresBackend && !d.requiresHuman
    case Sop =>
      && (d.sopName.Some? ==> d.sopName.value.form == Exact && Defined(d.sopName.value.word))
      && (ClassOf(d.intent) == Workflow ==>
            d.requiresBackend || d.workflowRelation == Some(CurrentWorkflowSupplement)
            || d.workflowRelation == Some(CurrentWorkflowResolution))
    case HumanHandoff => d.requiresHuman
    case FinalReply => ClassOf(d.intent) == Reply
    case _ => true
  }

  /** What a decision beside an active workflow must be. */
  ghost predicate FitsWorkflow(p: Payload, d: Decision) {
    Given(p.activeWorkflow) && d.workflowRelation.Some? ==> FitsRelation(p, d, d.workflowRelation.value)
  }

  ghost predicate FitsRelation(p: Payload, d: Decision, relation: Word) {
    match relation
    case CurrentWorkflowSupplement => OnActiveWorkflow(p, d)
    case CurrentWorkflowResolution => OnActiveWorkflow(p, d) && !d.preserveActiveWorkflow
    case IndependentFaq => d.route == Faq && d.preserveActiveWorkflow
    case NewWorkflowRequest => d.route == FinalReply && d.intent == ClarificationNeeded && d.preserveActiveWorkflow
    case HumanEscalation => d.route == HumanHandoff
    case Acknowledgement => d.route == FinalReply && d.intent == Acknowledgement && d.preserveActiveWorkflow
    case ContextualFollowup => d.route == FinalReply && d.intent == ContextualFollowup && d.preserveActiveWorkflow
    case Unclear => d.route == FinalReply && d.preserveActiveWorkflow
    case _ => true
  }

  ghost predicate OnActiveWorkflow(p: Payload, d: Decision) {
    && d.route == Sop && Spells(p.activeWorkflow, d.intent) && !p.conflicts
    && (d.sopName.Some? ==> Plain(p.activeWorkflow, d.sopName))
  }

  /** The decision that an answer is read as: each field, and what all of them together must fit. */
  ghost predicate Accepts(p: Payload, raw: Raw, d: Decision) {
    && Heads(raw, Heading(d.route, d.requiresHuman, d.intent)) && Related(p, raw.workflowRelation, d.workflowRelation)
    && (d.preserveActiveWorkflow <==> raw.preserveActiveWorkflow != Some(false))
    && (d.preserveActiveWorkflow || p.activeWorkflow == None || p.activeWorkflow == Some(Name(Blank, Exact))
        || d.route == HumanHandoff || d.workflowRelation == Some(CurrentWorkflowResolution))
    && Stripped(raw.reason, Some(d.reason)) && Clamped(raw.confidence, d.confidence)
    && NamesSop(d.route, d.intent, raw.sopName, d.sopName)
    && Stripped(raw.faqQuery, d.faqQuery) && Stripped(raw.riskLevel, d.riskLevel)
    && (d.requiresBackend <==>
          || raw.requiresBackend == Some(true)
          || (d.route == Sop && ClassOf(d.intent) == Workflow
              && d.workflowRelation != Some(CurrentWorkflowResolution)))
    && Kept(raw.missingSlots, NOT_BLANK, d.missingSlots) && FitsRoute(d) && FitsWorkflow(p, d)
  }

  lemma GivenIff(n: Option<Name>, w: Word)
    ensures Given(n) <==> OptionalName(n).Some?
    ensures w != Blank ==> (Spells(n, w) <==> Exactly(OptionalName(n), w))
    ensures Plain(n, OptionalName(n))
  {
  }

  lemma QuestionsAre(w: Word)
    ensures QuestionNamed(w).Some? <==> IsFaqIntent(NormalizeIntent(w))
    ensures NormalizeIntent(w) == if QuestionNamed(w).Some? then QuestionNamed(w).value else w
  {
  }

  lemma FaqClass(w: Word)
    ensures IsFaqIntent(w) <==> ClassOf(w) == Question
  {
  }

  lemma SopClass(w: Word)
    ensures IsSopIntent(w) <==> ClassOf(w) == Workflow
    ensures HasSop(Name(w, Exact)) <==> Defined(w)
  {
  }

  lemma EscalationClass(w: Word)
    ensures IsEscalation(w) <==> ClassOf(w) == Escalation
  {
  }

  lemma ReplyClass(w: Word)
    ensures IsReply(w) <==> ClassOf(w) == Reply
  {
  }

  lemma RelationsAre(w: Word)
    ensures IsRelation(w) <==> Relates(w)
  {
  }

  lemma RouteIs(w: Word)
    ensures RouteNamed(w) == if IsRoute(NormalizeRoute(w)) then Some(NormalizeRoute(w)) else None
  {
  }

  lemma IntentClass(w: Word)
    ensures IsIntent(w) <==> ClassOf(w) != NoIntent
  {
    FaqClass(w);
    SopClass(w);
    EscalationClass(w);
    ReplyClass(w);
  }

  lemma IntentIs(w: Word, route: Word, human: bool, intent: Word)
    requires route == HumanHandoff ==> human
    ensures DecisionIntent(w, route, human) == Ok(intent) <==> MeansIntent(w, route, intent)
  {
    QuestionsAre(w);
    IntentClass(w);
    IntentClass(NormalizeIntent(w));
  }

  lemma HeadingIs(raw: Raw, h: Heading)
    ensures HeadingOf(raw) == Ok(h) <==> Heads(raw, h)
  {
    GivenIff(raw.route, Blank);
    GivenIff(raw.intent, Blank);
    if raw.route.Some? && raw.intent.Some? {
      var route := NormalizeRoute(raw.route.value.word);
      var human := route == HumanHandoff || raw.requiresHuman == Some(true);
      RouteIs(raw.route.value.word);
      IntentIs(raw.intent.value.word, route, human, h.intent);
      FaqClass(h.intent);
    }
  }

  lemma RelationIs(p: Payload, value: Option<Name>, relation: Option<Word>)
    ensures WorkflowRelation(p, value) == Ok(relation) <==> Related(p, value, relation)
  {
    GivenIff(p.activeWorkflow, Blank);
    GivenIff(value, Blank);
    if value.Some? {
      RelationsAre(value.value.word);
      GivenIff(value, value.value.word);
    }
    if relation.Some? {
      RelationsAre(relation.value);
      GivenIff(value, relation.value);
    }
  }

  /** A definition is named by a text that spells its word. */
  lemma SopSpelled(value: Option<Name>)
    ensures (exists w :: Defined(w) && Spells(value, w)) <==>
            OptionalName(value).Some? && HasSop(OptionalName(value).value)
  {
    if value.Some? {
      SopClass(value.value.word);
      GivenIff(value, value.value.word);
      if OptionalName(value).Some? && HasSop(OptionalName(value).value) {
        assert Defined(value.value.word) && Spells(value, value.value.word);
      }
    }
  }

  lemma SopNameIs(route: Word, intent: Word, value: Option<Name>, sop: Option<Name>)
    ensures SopName(route, intent, value) == sop <==> NamesSop(route, intent, value, sop)
  {
    GivenIff(value, Blank);
    SopClass(intent);
    SopSpelled(value);
  }

  lemma {:induction false} StringListKeeps(items: seq<string>)
    ensures Kept(items, NOT_BLANK, StringList(items))
  {
    if items == [] {
      NothingKept(NOT_BLANK);
    } else {
      StringListKeeps(items[1..]);
      KeptInFront(items, NOT_BLANK, StringList(items[1..]));
    }
  }

  lemma RouteContractIs(d: Decision)
    ensures RouteContract(d) <==> FitsRoute(d)
  {
    FaqClass(d.intent);
    SopClass(d.intent);
    ReplyClass(d.intent);
    if d.sopName.Some? { SopClass(d.sopName.value.word); }
  }

  lemma SameWorkflowIs(p: Payload, d: Decision)
    requires Given(p.activeWorkflow)
    ensures SameWorkflow(p, d) <==> OnActiveWorkflow(p, d)
  {
    GivenIff(p.activeWorkflow, d.intent);
  }

  lemma RelationContractIs(p: Payload, d: Decision, relation: Word)
    requires Given(p.activeWorkflow)
    ensures RelationAgrees(p, d, relation) <==> FitsRelation(p, d, relation)
  {
    SameWorkflowIs(p, d);
  }

  lemma ContractIs(p: Payload, d: Decision)
    ensures RouteContract(d) && RelationContract(p, d) <==> FitsRoute(d) && FitsWorkflow(p, d)
  {
    RouteContractIs(d);
    GivenIff(p.activeWorkflow, Blank);
    if Given(p.activeWorkflow) && d.workflowRelation.Some? { RelationContractIs(p, d, d.workflowRelation.value); }
  }

  /** The fields of an accepted decision, the contracts aside. */
  ghost predicate ReadAs(p: Payload, raw: Raw, d: Decision) {
    && HeadingOf(raw) == Ok(Heading(d.route, d.requiresHuman, d.intent))
    && WorkflowRelation(p, raw.workflowRelation) == Ok(d.workflowRelation)
    && d.preserveActiveWorkflow == (raw.preserveActiveWorkflow != Some(false))
    && !DropsWorkflow(p, d.route, d.workflowRelation, d.preserveActiveWorkflow)
    && OptionalStr(raw.reason) == Some(d.reason)
    && d.confidence == (if raw.confidence.Some? then Clamp(raw.confidence.value) else 0.0)
    && SopName(d.route, d.intent, raw.sopName) == d.sopName
    && OptionalStr(raw.faqQuery) == d.faqQuery && OptionalStr(raw.riskLevel) == d.riskLevel
    && d.requiresBackend == RequiresBackend(d.route, d.intent, d.workflowRelation, raw.requiresBackend == Some(true))
    && StringList(raw.missingSlots) == d.missingSlots
  }

  lemma NormalizedIs(p: Payload, raw: Raw, d: Decision)
    ensures Normalized(p, raw) == Ok(d) <==> ReadAs(p, raw, d)
  {
  }

  lemma KeptOnce(items: seq<string>, a: seq<string>, b: seq<string>)
    requires Kept(items, NOT_BLANK, a) && Kept(items, NOT_BLANK, b)
    ensures a == b
  {
    KeptDetermined(items, NOT_BLANK, a, b);
  }

  lemma ScalarsAre(raw: Raw, d: Decision)
    ensures Stripped(raw.reason, Some(d.reason)) <==> OptionalStr(raw.reason) == Some(d.reason)
    ensures Stripped(raw.faqQuery, d.faqQuery) <==> OptionalStr(raw.faqQuery) == d.faqQuery
    ensures Stripped(raw.riskLevel, d.riskLevel) <==> OptionalStr(raw.riskLevel) == d.riskLevel
    ensures Clamped(raw.confidence, d.confidence) <==>
            d.confidence == if raw.confidence.Some? then Clamp(raw.confidence.value) else 0.0
  {
  }

  lemma FlagsAre(p: Payload, raw: Raw, d: Decision)
    ensures !DropsWorkflow(p, d.route, d.workflowRelation, d.preserveActiveWorkflow) <==>
            || d.preserveActiveWorkflow || p.activeWorkflow == None || p.activeWorkflow == Some(Name(Blank, Exact))
            || d.route == HumanHandoff || d.workflowRelation == Some(CurrentWorkflowResolution)
    ensures RequiresBackend(d.route, d.intent, d.workflowRelation, raw.requiresBackend == Some(true)) <==>
            || raw.requiresBackend == Some(true)
            || (d.route == Sop && ClassOf(d.intent) == Workflow
                && d.workflowRelation != Some(CurrentWorkflowResolution))
  {
    SopClass(d.intent);
  }

  lemma SlotsAre(items: seq<string>, kept: seq<string>)
    ensures StringList(items) == kept <==> Kept(items, NOT_BLANK, kept)
  {
    StringListKeeps(items);
    if Kept(items, NOT_BLANK, kept) { KeptOnce(items, StringList(items), kept); }
  }

  /** Exactly the acceptable answers are accepted, each as the one decision that it is read as. */
  lemma ValidateIff(p: Payload, raw: Raw, d: Decision)
    ensures Validate(p, raw) == Ok(d) <==> Accepts(p, raw, d)
  {
    NormalizedIs(p, raw, d);
    HeadingIs(raw, Heading(d.route, d.requiresHuman, d.intent));
    RelationIs(p, raw.workflowRelation, d.workflowRelation);
    ScalarsAre(raw, d);
    FlagsAre(p, raw, d);
    SopNameIs(d.route, d.intent, raw.sopName, d.sopName);
    SlotsAre(raw.missingSlots, d.missingSlots);
    ContractIs(p, d);
  }
}
