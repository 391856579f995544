/** What a Forge session remembers, and what each of its methods does to it, as functions on values. */
module ForgeState {
  import opened Text
  import opened Stages
  import opened Evidence
  import opened Candidates

  datatype Phase = RetrievalPhase | UnderstandingPhase

  function PhaseStage(phase: Phase): Stage {
    if phase.RetrievalPhase? then DeepRetrieval else KnowledgeUnderstanding
  }

  datatype DeepIdentity = DeepIdentity(attemptId: string, sourceRoundId: string, phase: Phase)

  datatype BuildIdentity = BuildIdentity(attemptId: string, sourceRoundId: string)

  /** Snapshots are compared by reference; a reference is a number here. */
  datatype GrillRound = GrillRound(isFirstRoundOfSnapshot: bool, roundId: string, request: string, snapshot: nat)

  datatype WaitKind =
    | DeepDecision | GrillConfirmation | GrillCheckpoint | RelevanceClarification | DeepDiscoveryFallback
    | ContextAmbiguity | AdrAmbiguity

  datatype WaitUserQuestion = WaitUserQuestion(
    kind: WaitKind, roundId: string, decisionId: string, evidenceIds: seq<string>, options: seq<string>,
    question: string, recommendation: string)

  /** `waitUserDecisionKey`: the JSON of a list of three strings, which determines the three. */
  datatype DecisionKey = DecisionKey(roundId: string, kind: WaitKind, decisionId: string)

  datatype HumanDecision = HumanDecision(question: string, answer: string, evidenceIds: seq<string>)

  datatype UiStage = At(stage: Stage) | AnswerRejected | ConfirmRejected

  datatype RepairCause = RecoveryRequired | UserRejectedRecommendation

  datatype UiState = UiState(stage: UiStage, waitUser: Option<WaitUserQuestion>, repair: Option<RepairCause>)

  /** Where the workflow is: the orchestrator's stage, if there is one, and what the user is shown. */
  datatype Flow = Flow(orchestrator: Option<Stage>, ui: UiState)

  /** The four counters that issue identities. */
  datatype Counters = Counters(round: nat, deep: nat, context: nat, adr: nat)

  datatype DeepWork = DeepWork(
    attempt: Option<DeepIdentity>, retryPhase: Option<Phase>, resumablePhase: Option<Phase>, needsDiscovery: nat)

  /** The chain of artefacts: the evidence package, then the glossary, then the decision records. */
  datatype Build = Build(
    package: Option<EvidencePackage>,
    contextAttempt: Option<BuildIdentity>, contextCandidate: Option<ContextCandidate>,
    adrAttempt: Option<BuildIdentity>, adrCandidate: Option<AdrCandidate>)

  /** The search budget of one round. The map from reservation keys to positive counts is a multiset of keys. */
  datatype Budget = Budget(roundId: Option<string>, count: nat, reservations: multiset<DeepIdentity>)

  datatype Answers = Answers(
    keys: set<DecisionKey>, decisions: map<string, HumanDecision>, accepted: nat, checkpointPending: bool)

  datatype State = State(
    round: Option<GrillRound>,
    flow: Flow,
    next: Counters,
    deep: DeepWork,
    build: Build,
    budget: Budget,
    answers: Answers,
    omissionRecorded: bool)

  const NO_FLOW := Flow(None, UiState(At(Receive), None, None))
  const NO_DEEP := DeepWork(None, None, None, 0)
  const NO_BUILD := Build(None, None, None, None, None)
  const NO_BUDGET := Budget(None, 0, multiset{})
  const NO_ANSWERS := Answers({}, map[], 0, false)
  const INITIAL := State(None, NO_FLOW, Counters(1, 1, 1, 1), NO_DEEP, NO_BUILD, NO_BUDGET, NO_ANSWERS, false)

  const SEARCH_LIMIT := 8
  const ANSWER_CHECKPOINT := 8

  function RoundId(n: nat): string { "grill-" + Decimal(n) }

  function DeepAttemptId(n: nat): string { "deep-" + Decimal(n) }

  function ContextAttemptId(n: nat): string { "context-" + Decimal(n) }

  function AdrAttemptId(n: nat): string { "adr-" + Decimal(n) }

  function KeyOf(w: WaitUserQuestion): DecisionKey { DecisionKey(w.roundId, w.kind, w.decisionId) }

  datatype Reply =
    | Done | Accepted | Ambiguous | Stale | Invalid | Threw
    | Reserved | Limit | Released | Committed | Round(round: GrillRound) | NoRound | Recorded(first: bool)

  datatype Outcome = Outcome(state: State, reply: Reply)

  datatype DeepResult =
    | CompletedRetrieval(evidenceIds: seq<string>)
    | CompletedUnderstanding(package: EvidencePackage)
    | NeedsDecision(decisionId: string, question: string, options: seq<string>, recommendation: string,
                    evidenceIds: seq<string>)
    | NeedsDiscovery(fetchedEvidenceIds: seq<string>)

  datatype ContextCompletion = CompletedContext(candidate: ContextCandidate) | AmbiguousContext(ambiguity: Ambiguity)

  datatype DocumentsCommitted = DocumentsCommitted(baseHash: string) | NotCommitted

  predicate IsSha256(hash: string) {
    |hash| == 64 && forall c | c in hash :: '0' <= c <= '9' || 'a' <= c <= 'f'
  }

  // ----- Stage moves -----

  predicate AtStage(f: Flow, stage: Stage) { f.orchestrator == Some(stage) }

  /** The stage of the orchestrator, which is created at `initial` when there is none or it has not left RECEIVE. */
  function StartedAt(current: Option<Stage>, initial: Stage): Stage {
    if current.None? || current.value == Receive then initial else current.value
  }

  function Ensured(current: Option<Stage>): Stage {
    if current.Some? then current.value else Receive
  }

  /** A move from `from` to `to` is possible: it is legal, or there is nothing to move. */
  predicate CanReach(from: Stage, to: Stage) { from == to || Legal(from, to) }

  /** An attempted move that throws may have created the orchestrator; nothing else changes. */
  function Stuck(s: State, from: Stage): Outcome {
    Outcome(s.(flow := s.flow.(orchestrator := Some(from))), Threw)
  }

  /** Arriving at a stage; any pending question is dropped. */
  function Arrive(f: Flow, to: Stage): Flow {
    Flow(Some(to), f.ui.(stage := At(to), waitUser := None))
  }

  /** Arriving at a stage without touching the pending question. */
  function Pass(f: Flow, to: Stage): Flow {
    Flow(Some(to), f.ui.(stage := At(to)))
  }

  function Asking(f: Flow, question: WaitUserQuestion): Flow {
    Flow(Some(WaitUser), f.ui.(stage := At(WaitUser), waitUser := Some(question)))
  }

  function BeginGrill(s: State): Outcome {
    var from := StartedAt(s.flow.orchestrator, Grill);
    if CanReach(from, Grill) then Outcome(s.(flow := Pass(s.flow, Grill)), Done) else Stuck(s, from)
  }

  function BeginIntent(s: State): Outcome {
    var from := Ensured(s.flow.orchestrator);
    if CanReach(from, IntentUnderstanding) then Outcome(s.(flow := Pass(s.flow, IntentUnderstanding)), Done)
    else Stuck(s, from)
  }

  function BeginLightDiscovery(s: State): Outcome {
    var from := Ensured(s.flow.orchestrator);
    if CanReach(from, LightDiscovery) then Outcome(s.(flow := Pass(s.flow, LightDiscovery)), Done)
    else Stuck(s, from)
  }

  // ----- Deep attempts -----

  /** A new attempt in the current round; open reservations and remembered phases are dropped. */
  function IssueDeepAttempt(s: State, round: GrillRound, phase: Phase): State {
    s.(flow := Arrive(s.flow, PhaseStage(phase)),
       deep := s.deep.(attempt := Some(DeepIdentity(DeepAttemptId(s.next.deep), round.roundId, phase)),
                       retryPhase := None, resumablePhase := None),
       next := s.next.(deep := s.next.deep + 1),
       budget := s.budget.(reservations := multiset{}))
  }

  function BeginDeepKnowledge(s: State, phase: Phase): Outcome {
    var from := StartedAt(s.flow.orchestrator, PhaseStage(phase));
    if s.round.None? then Outcome(s, Threw)
    else if !CanReach(from, PhaseStage(phase)) then Stuck(s, from)
    else Outcome(IssueDeepAttempt(s, s.round.value, phase), Done)
  }

  function PhaseToResume(s: State): Phase {
    if s.deep.attempt.Some? then s.deep.attempt.value.phase
    else if s.deep.retryPhase.Some? then s.deep.retryPhase.value
    else if s.flow.ui.stage == At(KnowledgeUnderstanding) then UnderstandingPhase
    else RetrievalPhase
  }

  function CancelDeepKnowledge(s: State): Outcome {
    var phase := PhaseToResume(s);
    Outcome(
      s.(flow := Arrive(s.flow, PhaseStage(phase)),
         deep := DeepWork(None, None, Some(phase), 0),
         build := s.build.(package := None)),
      Done)
  }

  function RetryDeepKnowledge(s: State): Outcome {
    var phase := if s.deep.retryPhase.Some? then s.deep.retryPhase else s.deep.resumablePhase;
    if s.round.None? || phase.None? then Outcome(s, Done)
    else Outcome(IssueDeepAttempt(s, s.round.value, phase.value), Done)
  }

  predicate IsLive(s: State, identity: DeepIdentity) { s.deep.attempt == Some(identity) }

  function CompleteDeepKnowledge(s: State, identity: DeepIdentity): Outcome {
    var from := StartedAt(s.flow.orchestrator, KnowledgeUnderstanding);
    if !IsLive(s, identity) then Outcome(s, Stale)
    else if !CanReach(from, KnowledgeUnderstanding) then Stuck(s, from)
    else
      Outcome(
        s.(flow := Arrive(s.flow, KnowledgeUnderstanding),
           deep := s.deep.(attempt := Some(identity.(phase := UnderstandingPhase)))),
        Accepted)
  }

  const AGREE := "\U{540C}\U{610F}"
  const CONFIRM := "\U{78BA}\U{8A8D}"
  const CANCEL := "\U{53D6}\U{6D88}"
  const FALLBACK_QUESTION := "continue with the evidence at hand?"
  const CHECKPOINT_QUESTION := "eight confirmations given, choose the next step"

  function FallbackQuestion(identity: DeepIdentity, fetched: seq<string>): WaitUserQuestion {
    WaitUserQuestion(DeepDiscoveryFallback, identity.sourceRoundId, identity.attemptId + "-deep-discovery-fallback",
                     fetched, [CONFIRM, CANCEL], FALLBACK_QUESTION, CONFIRM)
  }

  function DecisionQuestion(identity: DeepIdentity, result: DeepResult): WaitUserQuestion
    requires result.NeedsDecision?
  {
    WaitUserQuestion(DeepDecision, identity.attemptId, result.decisionId, result.evidenceIds, result.options,
                     result.question, result.recommendation)
  }

  function NeedDecision(s: State, identity: DeepIdentity, result: DeepResult): Outcome
    requires result.NeedsDecision?
  {
    var from := Ensured(s.flow.orchestrator);
    if !IsLive(s, identity) then Outcome(s, Stale)
    else if !Legal(from, WaitUser) then Stuck(s, from)
    else
      Outcome(
        s.(flow := Asking(s.flow, DecisionQuestion(identity, result)),
           deep := s.deep.(retryPhase := Some(identity.phase), attempt := None)),
        Accepted)
  }

  /** The second time evidence is missing the user is asked; the request is counted even if the move then fails. */
  function NeedDiscovery(s: State, identity: DeepIdentity, fetched: seq<string>): Outcome {
    var from := Ensured(s.flow.orchestrator);
    var counted := s.(deep := s.deep.(needsDiscovery := s.deep.needsDiscovery + 1));
    var ask := 2 <= counted.deep.needsDiscovery;
    if !IsLive(s, identity) then Outcome(s, Stale)
    else if !Legal(from, if ask then WaitUser else LightDiscovery) then Stuck(counted, from)
    else
      Outcome(
        counted.(flow := if ask then Asking(s.flow, FallbackQuestion(identity, fetched)) else Arrive(s.flow, LightDiscovery),
                 deep := counted.deep.(attempt := None)),
        Accepted)
  }

  function AcceptPackage(s: State, identity: DeepIdentity, package: EvidencePackage): Outcome {
    var from := Ensured(s.flow.orchestrator);
    if !Legal(from, ContextBuild) then Stuck(s, from)
    else
      Outcome(
        s.(flow := Arrive(s.flow, ContextBuild),
           deep := s.deep.(attempt := None),
           build := s.build.(package := Some(package),
                             contextAttempt := Some(BuildIdentity(ContextAttemptId(s.next.context), identity.sourceRoundId))),
           next := s.next.(context := s.next.context + 1)),
        Accepted)
  }

  function CompleteUnderstanding(s: State, identity: DeepIdentity, result: DeepResult): Outcome {
    if !IsLive(s, identity) then Outcome(s, Stale)
    else if !result.CompletedUnderstanding? || !Evidence.Accepted(result.package) then Outcome(s, Invalid)
    else AcceptPackage(s, identity, result.package)
  }

  function HandleDeepResult(s: State, identity: DeepIdentity, result: DeepResult): Outcome {
    if result.NeedsDecision? then NeedDecision(s, identity, result)
    else if result.NeedsDiscovery? then NeedDiscovery(s, identity, result.fetchedEvidenceIds)
    else if identity.phase.UnderstandingPhase? then CompleteUnderstanding(s, identity, result)
    else if result.CompletedRetrieval? then CompleteDeepKnowledge(s, identity)
    else Outcome(s, Invalid)
  }

  // ----- Building the context and the decision records -----

  function AmbiguityQuestion(kind: WaitKind, identity: BuildIdentity, a: Ambiguity): WaitUserQuestion {
    WaitUserQuestion(kind, identity.sourceRoundId, a.decisionId, a.evidenceIds, a.options, a.question, a.recommendation)
  }

  function AskAboutContext(s: State, identity: BuildIdentity, a: Ambiguity): State {
    s.(flow := Asking(s.flow, AmbiguityQuestion(ContextAmbiguity, identity, a)),
       build := s.build.(contextAttempt := None))
  }

  function AcceptContext(s: State, identity: BuildIdentity, candidate: ContextCandidate): State {
    s.(flow := Arrive(s.flow, AdrBuild),
       build := Build(s.build.package, None, Some(candidate),
                      Some(BuildIdentity(AdrAttemptId(s.next.adr), identity.sourceRoundId)), None),
       next := s.next.(adr := s.next.adr + 1))
  }

  function CompleteContextBuild(s: State, identity: BuildIdentity, completion: ContextCompletion): Outcome {
    if s.build.contextAttempt != Some(identity) then Outcome(s, Stale)
    else if !AtStage(s.flow, ContextBuild) || s.build.package.None? then Outcome(s, Invalid)
    else
      var known := s.build.package.value.evidenceIds;
      match completion
      case AmbiguousContext(a) =>
        if !AmbiguitySound(a, known) then Outcome(s, Invalid)
        else
          Outcome(AskAboutContext(s, identity, a), Ambiguous)
      case CompletedContext(candidate) =>
        if !GlossarySound(candidate, known) then Outcome(s, Invalid)
        else Outcome(AcceptContext(s, identity, candidate), Accepted)
  }

  predicate AdrBuildOpen(s: State, identity: BuildIdentity) {
    s.build.adrAttempt == Some(identity) && AtStage(s.flow, AdrBuild) && s.build.package.Some?
  }

  function PrepareAdrBuild(s: State, identity: BuildIdentity, candidate: AdrCandidate): Outcome {
    if s.build.adrAttempt != Some(identity) then Outcome(s, Stale)
    else if !AdrBuildOpen(s, identity) || !AdrSound(candidate, s.build.package.value.evidenceIds) then
      Outcome(s, Invalid)
    else Outcome(s.(build := s.build.(adrCandidate := Some(candidate))), Accepted)
  }

  function AskAboutAdr(s: State, identity: BuildIdentity, a: Ambiguity): State {
    s.(flow := Asking(s.flow, AmbiguityQuestion(AdrAmbiguity, identity, a)),
       build := s.build.(adrAttempt := None, adrCandidate := None))
  }

  function RequireAdrDecision(s: State, identity: BuildIdentity, a: Ambiguity): Outcome {
    if s.build.adrAttempt != Some(identity) then Outcome(s, Stale)
    else if !AdrBuildOpen(s, identity) || !AmbiguitySound(a, s.build.package.value.evidenceIds) then
      Outcome(s, Invalid)
    else Outcome(AskAboutAdr(s, identity, a), Ambiguous)
  }

  function FinalizeAdrBuild(s: State, identity: BuildIdentity, commit: DocumentsCommitted): Outcome {
    if s.build.adrAttempt != Some(identity) then Outcome(s, Stale)
    else if !AtStage(s.flow, AdrBuild) || s.build.adrCandidate.None?
            || commit.NotCommitted? || !IsSha256(commit.baseHash) then Outcome(s, Invalid)
    else Outcome(s.(flow := Arrive(s.flow, ToSpec), build := s.build.(adrAttempt := None)), Accepted)
  }

  // ----- Questions and answers -----

  predicate PayloadMalformed(payload: WaitUserQuestion) {
    Blank(payload.decisionId) || Blank(payload.roundId)
  }

  function AskUser(s: State, payload: WaitUserQuestion): Outcome {
    var from := StartedAt(s.flow.orchestrator, Grill);
    if KeyOf(payload) in s.answers.keys || payload.decisionId in s.answers.decisions then Outcome(s, Done)
    else if s.round.None? || payload.roundId != s.round.value.roundId then Outcome(s, Threw)
    else if !Legal(from, WaitUser) then Stuck(s, from)
    else Outcome(s.(flow := Flow(Some(WaitUser), UiState(At(WaitUser), Some(payload), None))), Done)
  }

  function RequireWaitUser(s: State, payload: WaitUserQuestion): Outcome {
    if PayloadMalformed(payload) then Outcome(s, Threw) else AskUser(s, payload)
  }

  function CheckpointQuestion(round: GrillRound, evidenceIds: seq<string>): WaitUserQuestion {
    WaitUserQuestion(GrillCheckpoint, round.roundId, "grill-checkpoint-" + round.roundId, evidenceIds,
                     ["continue_one", "converge", "cancel"], CHECKPOINT_QUESTION, "continue_one")
  }

  /** An answer that is not looked at: blank, for another round, not one of the expected words, or given before. */
  predicate AnswerIgnored(s: State, w: WaitUserQuestion, answer: string) {
    || Trim(answer) == ""
    || ((w.kind.GrillConfirmation? || w.kind.GrillCheckpoint?)
        && (s.round.None? || w.roundId != s.round.value.roundId))
    || (w.kind.DeepDiscoveryFallback? && Trim(answer) !in [AGREE, CONFIRM])
    || (w.kind.GrillCheckpoint? && Trim(answer) !in ["continue_one", "converge"])
    || (!w.kind.GrillCheckpoint? && KeyOf(w) in s.answers.keys)
  }

  /** The answer to `w` is remembered, whatever happens next. */
  function Remember(a: Answers, w: WaitUserQuestion, answer: string): Answers {
    a.(keys := a.keys + {KeyOf(w)},
       decisions := if w.decisionId in a.decisions then a.decisions
                    else a.decisions[w.decisionId := HumanDecision(w.question, answer, w.evidenceIds)])
  }

  /** From USER_CONFIRMED on to `next`. */
  function AnsweredTo(s: State, next: Stage): Outcome {
    if Legal(UserConfirmed, next) then Outcome(s.(flow := Arrive(s.flow, next)), Done)
    else Stuck(s, UserConfirmed)
  }

  function AnswerGrill(s: State, w: WaitUserQuestion): Outcome {
    var counted := s.(answers := s.answers.(accepted := s.answers.accepted + 1));
    if counted.answers.accepted != ANSWER_CHECKPOINT && !s.answers.checkpointPending then AnsweredTo(counted, Grill)
    else if s.round.None? then Stuck(counted, UserConfirmed)
    else
      Outcome(
        counted.(flow := Asking(s.flow, CheckpointQuestion(s.round.value, w.evidenceIds)),
                 answers := counted.answers.(checkpointPending := false)),
        Done)
  }

  function AnswerCheckpoint(s: State, answer: string): Outcome {
    BeginGrill(s.(flow := Flow(Some(UserConfirmed), s.flow.ui.(waitUser := None)),
                  answers := s.answers.(checkpointPending := Trim(answer) == "continue_one")))
  }

  function AnswerContext(s: State, w: WaitUserQuestion): Outcome {
    AnsweredTo(
      s.(build := s.build.(contextAttempt := Some(BuildIdentity(ContextAttemptId(s.next.context), w.roundId))),
         next := s.next.(context := s.next.context + 1)),
      ContextBuild)
  }

  function AnswerAdr(s: State, w: WaitUserQuestion): Outcome {
    AnsweredTo(
      s.(build := s.build.(adrAttempt := Some(BuildIdentity(AdrAttemptId(s.next.adr), w.roundId))),
         next := s.next.(adr := s.next.adr + 1)),
      AdrBuild)
  }

  /** Where a remembered answer leads. */
  function Answered(s: State, w: WaitUserQuestion): Outcome {
    if w.kind.GrillConfirmation? then AnswerGrill(s, w)
    else if w.kind.ContextAmbiguity? then AnswerContext(s, w)
    else if w.kind.AdrAmbiguity? then AnswerAdr(s, w)
    else if w.kind.DeepDiscoveryFallback? || w.kind.RelevanceClarification? then
      Outcome(s.(flow := Arrive(s.flow, UserConfirmed)), Done)
    else AnsweredTo(s, Grill)
  }

  function AnswerQuestion(s: State, w: WaitUserQuestion, answer: string): Outcome {
    if w.kind.GrillCheckpoint? then AnswerCheckpoint(s, answer)
    else
      Answered(s.(answers := Remember(s.answers, w, answer)), w)
  }

  function RecordAnswer(s: State, answer: string): Outcome {
    if !AtStage(s.flow, WaitUser) then
      Outcome(s.(flow := s.flow.(ui := s.flow.ui.(stage := AnswerRejected))), Done)
    else if s.flow.ui.waitUser.None? then Outcome(s, Threw)
    else if AnswerIgnored(s, s.flow.ui.waitUser.value, answer) then Outcome(s, Done)
    else AnswerQuestion(s, s.flow.ui.waitUser.value, answer)
  }

  function Confirm(s: State): Outcome {
    if AtStage(s.flow, WaitUser) then Outcome(s.(flow := Arrive(s.flow, UserConfirmed)), Done)
    else Outcome(s.(flow := s.flow.(ui := s.flow.ui.(stage := ConfirmRejected))), Done)
  }

  function Reject(s: State): Outcome {
    Outcome(
      s.(flow := Flow(if AtStage(s.flow, WaitUser) then Some(Grill) else s.flow.orchestrator,
                      UiState(At(Grill), None, Some(UserRejectedRecommendation)))),
      Done)
  }

  // ----- Rounds -----

  function StartGrillRound(s: State, request: string, snapshot: nat): Outcome {
    var isFirst := s.round.None? || s.round.value.snapshot != snapshot;
    var round := GrillRound(isFirst, RoundId(s.next.round), request, snapshot);
    Outcome(
      s.(round := Some(round),
         next := s.next.(round := s.next.round + 1),
         deep := s.deep.(attempt := None),
         build := if isFirst then NO_BUILD else s.build,
         budget := s.budget.(roundId := None, count := 0),
         answers := if isFirst then Answers(s.answers.keys, map[], 0, false) else s.answers,
         omissionRecorded := false),
      Round(round))
  }

  function RetryGrillRound(s: State): Outcome {
    if s.round.None? || s.flow.ui.repair != Some(RecoveryRequired) then Outcome(s, NoRound)
    else
      Outcome(s.(flow := s.flow.(ui := s.flow.ui.(stage := At(Grill), repair := None)), omissionRecorded := false),
              Round(s.round.value))
  }

  function RecordCompletionOmission(s: State): Outcome {
    if s.omissionRecorded then Outcome(s, Recorded(false))
    else
      Outcome(s.(flow := s.flow.(ui := s.flow.ui.(stage := At(Grill), repair := Some(RecoveryRequired))),
                 omissionRecorded := true),
              Recorded(true))
  }

  /** Everything is forgotten but the counters that issue identities. */
  function Reset(s: State): Outcome {
    Outcome(INITIAL.(next := s.next), Done)
  }

  // ----- The search budget -----

  predicate MaySearch(s: State, identity: DeepIdentity) {
    IsLive(s, identity) && s.round.Some? && s.round.value.roundId == identity.sourceRoundId
  }

  /** The budget of the identity's round: a fresh one unless it is the one in use. */
  function BudgetFor(b: Budget, identity: DeepIdentity): Budget {
    if b.roundId == Some(identity.sourceRoundId) then b else Budget(Some(identity.sourceRoundId), 0, multiset{})
  }

  function ReserveDeepSearchBudget(s: State, identity: DeepIdentity): Outcome {
    var b := BudgetFor(s.budget, identity);
    if !MaySearch(s, identity) then Outcome(s, Stale)
    else if identity !in b.reservations && SEARCH_LIMIT <= b.count + |b.reservations| then
      Outcome(s.(budget := b), Limit)
    else Outcome(s.(budget := b.(reservations := b.reservations + multiset{identity})), Reserved)
  }

  function CommitDeepSearchBudget(s: State, identity: DeepIdentity): Outcome {
    if !MaySearch(s, identity) then Outcome(s, Stale)
    else if identity !in s.budget.reservations then Outcome(s, Committed)
    else
      Outcome(s.(budget := s.budget.(reservations := s.budget.reservations - multiset{identity},
                                     count := s.budget.count + 1)), Committed)
  }

  function ReleaseDeepSearchBudget(s: State, identity: DeepIdentity): Outcome {
    if !MaySearch(s, identity) then Outcome(s, Stale)
    else Outcome(s.(budget := s.budget.(reservations := s.budget.reservations - multiset{identity})), Released)
  }

  function ConsumeDeepSearchBudget(s: State, identity: DeepIdentity): Outcome {
    var reserved := ReserveDeepSearchBudget(s, identity);
    if reserved.reply != Reserved then reserved else CommitDeepSearchBudget(reserved.state, identity)
  }

  /** The bracket of the search tool: reserve, then release if the search fails or brings back too much, else commit. */
  function DeepSearch(s: State, identity: DeepIdentity, fits: bool): Outcome {
    var reserved := ReserveDeepSearchBudget(s, identity);
    if reserved.reply != Reserved then reserved
    else if fits then CommitDeepSearchBudget(reserved.state, identity)
    else ReleaseDeepSearchBudget(reserved.state, identity)
  }

  // ----- Any method, and any run -----

  datatype TalkOp =
    | OpBeginGrill | OpBeginIntent | OpBeginLightDiscovery
    | OpRequireWaitUser(payload: WaitUserQuestion) | OpRecordAnswer(answer: string) | OpConfirm | OpReject
    | OpStartGrillRound(request: string, snapshot: nat) | OpRetryGrillRound | OpRecordCompletionOmission | OpReset

  datatype DeepOp =
    | OpBeginDeepKnowledge(phase: Phase) | OpCancelDeepKnowledge | OpRetryDeepKnowledge
    | OpCompleteDeepKnowledge(identity: DeepIdentity)
    | OpHandleDeepResult(identity: DeepIdentity, result: DeepResult)

  datatype BuildOp =
    | OpCompleteContextBuild(identity: BuildIdentity, completion: ContextCompletion)
    | OpPrepareAdrBuild(identity: BuildIdentity, candidate: AdrCandidate)
    | OpRequireAdrDecision(identity: BuildIdentity, ambiguity: Ambiguity)
    | OpFinalizeAdrBuild(identity: BuildIdentity, commit: DocumentsCommitted)

  datatype SearchOp =
    | OpReserve(identity: DeepIdentity) | OpCommit(identity: DeepIdentity) | OpRelease(identity: DeepIdentity)
    | OpConsume(identity: DeepIdentity) | OpDeepSearch(identity: DeepIdentity, fits: bool)

  datatype Op = Talk(talk: TalkOp) | Deep(deep: DeepOp) | Make(build: BuildOp) | Search(search: SearchOp)

  function ApplyTalk(s: State, op: TalkOp): Outcome {
    match op
    case OpBeginGrill => BeginGrill(s)
    case OpBeginIntent => BeginIntent(s)
    case OpBeginLightDiscovery => BeginLightDiscovery(s)
    case OpRequireWaitUser(payload) => RequireWaitUser(s, payload)
    case OpRecordAnswer(answer) => RecordAnswer(s, answer)
    case OpConfirm => Confirm(s)
    case OpReject => Reject(s)
    case OpStartGrillRound(request, snapshot) => StartGrillRound(s, request, snapshot)
    case OpRetryGrillRound => RetryGrillRound(s)
    case OpRecordCompletionOmission => RecordCompletionOmission(s)
    case OpReset => Reset(s)
  }

  function ApplyDeep(s: State, op: DeepOp): Outcome {
    match op
    case OpBeginDeepKnowledge(phase) => BeginDeepKnowledge(s, phase)
    case OpCancelDeepKnowledge => CancelDeepKnowledge(s)
    case OpRetryDeepKnowledge => RetryDeepKnowledge(s)
    case OpCompleteDeepKnowledge(identity) => CompleteDeepKnowledge(s, identity)
    case OpHandleDeepResult(identity, result) => HandleDeepResult(s, identity, result)
  }

  function ApplyBuild(s: State, op: BuildOp): Outcome {
    match op
    case OpCompleteContextBuild(identity, completion) => CompleteContextBuild(s, identity, completion)
    case OpPrepareAdrBuild(identity, candidate) => PrepareAdrBuild(s, identity, candidate)
    case OpRequireAdrDecision(identity, ambiguity) => RequireAdrDecision(s, identity, ambiguity)
    case OpFinalizeAdrBuild(identity, commit) => FinalizeAdrBuild(s, identity, commit)
  }

  function ApplySearch(s: State, op: SearchOp): Outcome {
    match op
    case OpReserve(identity) => ReserveDeepSearchBudget(s, identity)
    case OpCommit(identity) => CommitDeepSearchBudget(s, identity)
    case OpRelease(identity) => ReleaseDeepSearchBudget(s, identity)
    case OpConsume(identity) => ConsumeDeepSearchBudget(s, identity)
    case OpDeepSearch(identity, fits) => DeepSearch(s, identity, fits)
  }

  function Apply(s: State, op: Op): Outcome {
    match op
    case Talk(talk) => ApplyTalk(s, talk)
    case Deep(deep) => ApplyDeep(s, deep)
    case Make(build) => ApplyBuild(s, build)
    case Search(search) => ApplySearch(s, search)
  }

  /** The state after any sequence of calls, whatever each of them replied. */
  function Run(ops: seq<Op>): State {
    if ops == [] then INITIAL else Apply(Run(ops[..|ops| - 1]), ops[|ops| - 1]).state
  }
}
