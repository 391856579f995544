/** What every run of a Forge session keeps. */
module ForgeSafety {
  import opened Text
  import opened Stages
  import opened Evidence
  import opened Candidates
  import opened ForgeState

  function Last(ops: seq<Op>): Op
    requires ops != []
  {
    ops[|ops| - 1]
  }

  function Before(ops: seq<Op>): (before: seq<Op>)
    requires ops != []
    ensures |before| < |ops|
  {
    ops[..|ops| - 1]
  }

  // ----- The workflow waits exactly when a question is pending -----

  predicate WaitsWithQuestion(f: Flow) {
    AtStage(f, WaitUser) <==> f.ui.waitUser.Some?
  }

  lemma AnswerKeepsWaiting(s: State, w: WaitUserQuestion, answer: string)
    requires w.kind.GrillConfirmation? ==> s.round.Some?
    ensures WaitsWithQuestion(AnswerQuestion(s, w, answer).state.flow)
    ensures AnswerQuestion(s, w, answer).reply == Done
  {
  }

  lemma {:induction false} RecordAnswerKeepsWaiting(s: State, answer: string)
    requires WaitsWithQuestion(s.flow)
    ensures WaitsWithQuestion(RecordAnswer(s, answer).state.flow)
    ensures RecordAnswer(s, answer).reply == Done
  {
    if AtStage(s.flow, WaitUser) && !AnswerIgnored(s, s.flow.ui.waitUser.value, answer) {
      AnswerKeepsWaiting(s, s.flow.ui.waitUser.value, answer);
    }
  }

  lemma AskUserKeepsWaiting(s: State, payload: WaitUserQuestion)
    requires WaitsWithQuestion(s.flow)
    ensures WaitsWithQuestion(AskUser(s, payload).state.flow)
  {
  }

  lemma HandleDeepResultKeepsWaiting(s: State, identity: DeepIdentity, result: DeepResult)
    requires WaitsWithQuestion(s.flow)
    ensures WaitsWithQuestion(HandleDeepResult(s, identity, result).state.flow)
  {
    if result.NeedsDecision? || result.NeedsDiscovery? {
      AskingForHelpKeepsWaiting(s, identity, result);
    } else if identity.phase.UnderstandingPhase? {
      CompleteUnderstandingKeepsWaiting(s, identity, result);
    }
  }

  lemma AskingForHelpKeepsWaiting(s: State, identity: DeepIdentity, result: DeepResult)
    requires WaitsWithQuestion(s.flow)
    ensures result.NeedsDecision? ==> WaitsWithQuestion(NeedDecision(s, identity, result).state.flow)
    ensures result.NeedsDiscovery? ==> WaitsWithQuestion(NeedDiscovery(s, identity, result.fetchedEvidenceIds).state.flow)
  {
  }

  lemma AcceptPackageKeepsWaiting(s: State, identity: DeepIdentity, p: EvidencePackage)
    requires WaitsWithQuestion(s.flow)
    ensures WaitsWithQuestion(AcceptPackage(s, identity, p).state.flow)
  {
  }

  lemma CompleteUnderstandingKeepsWaiting(s: State, identity: DeepIdentity, result: DeepResult)
    requires WaitsWithQuestion(s.flow)
    ensures WaitsWithQuestion(CompleteUnderstanding(s, identity, result).state.flow)
  {
    if result.CompletedUnderstanding? {
      AcceptPackageKeepsWaiting(s, identity, result.package);
    }
  }

  lemma {:induction false} TalkKeepsWaiting(s: State, op: TalkOp)
    requires WaitsWithQuestion(s.flow)
    ensures WaitsWithQuestion(ApplyTalk(s, op).state.flow)
  {
    match op
    case OpRecordAnswer(answer) => RecordAnswerKeepsWaiting(s, answer);
    case OpRequireWaitUser(payload) => AskUserKeepsWaiting(s, payload);
    case _ =>
  }

  lemma {:induction false} DeepKeepsWaiting(s: State, op: DeepOp)
    requires WaitsWithQuestion(s.flow)
    ensures WaitsWithQuestion(ApplyDeep(s, op).state.flow)
  {
    match op
    case OpHandleDeepResult(identity, result) => HandleDeepResultKeepsWaiting(s, identity, result);
    case _ =>
  }

  lemma {:induction false} StepKeepsWaiting(s: State, op: Op)
    requires WaitsWithQuestion(s.flow)
    ensures WaitsWithQuestion(Apply(s, op).state.flow)
  {
    match op
    case Talk(talk) => TalkKeepsWaiting(s, talk);
    case Deep(deep) => DeepKeepsWaiting(s, deep);
    case _ =>
  }

  lemma {:induction false} RunWaitsWithQuestion(ops: seq<Op>)
    ensures WaitsWithQuestion(Run(ops).flow)
  {
    if ops != [] {
      RunWaitsWithQuestion(Before(ops));
      StepKeepsWaiting(Run(Before(ops)), Last(ops));
    }
  }

  /** In every run the workflow waits exactly when a question is stored, and an answer never throws: neither of the
      two internal checks fires and no illegal move is attempted. */
  lemma {:induction false} AnswersNeverThrow(ops: seq<Op>, answer: string)
    ensures AtStage(Run(ops).flow, WaitUser) <==> Run(ops).flow.ui.waitUser.Some?
    ensures RecordAnswer(Run(ops), answer).reply == Done
  {
    RunWaitsWithQuestion(ops);
    RecordAnswerKeepsWaiting(Run(ops), answer);
  }

  // ----- TO_SPEC is reached only with a sound, committed set of decisions -----

  predicate PackageSound(b: Build) {
    b.package.Some? ==> Evidence.Accepted(b.package.value)
  }

  /** The candidate at hand, if there is one, validates against the package at hand. */
  predicate Fits(b: Build) {
    b.adrCandidate.Some? ==> b.package.Some? && AdrSound(b.adrCandidate.value, b.package.value.evidenceIds)
  }

  /** The decision records are being built, or will be once the pending question is answered. */
  predicate Exposed(f: Flow) {
    AtStage(f, AdrBuild) || (f.ui.waitUser.Some? && f.ui.waitUser.value.kind.AdrAmbiguity?)
  }

  predicate CandidateSound(f: Flow, b: Build) { Exposed(f) ==> Fits(b) }

  /** The user is shown TO_SPEC only when the workflow is there. */
  predicate ShownStage(f: Flow) {
    f.ui.stage == At(ToSpec) ==> AtStage(f, ToSpec)
  }

  predicate ChainSound(s: State) {
    PackageSound(s.build) && CandidateSound(s.flow, s.build)
  }

  /** A caller's question is put: it is not answered yet, it is for this round, and the stage lets it be asked. */
  predicate WillBeAsked(s: State, payload: WaitUserQuestion) {
    && KeyOf(payload) !in s.answers.keys && payload.decisionId !in s.answers.decisions
    && s.round.Some? && payload.roundId == s.round.value.roundId
    && Legal(StartedAt(s.flow.orchestrator, Grill), WaitUser)
  }

  /** The question is one about an ADR ambiguity, and it is really put. */
  predicate PutsAdrQuestion(s: State, payload: WaitUserQuestion) {
    payload.kind.AdrAmbiguity? && !PayloadMalformed(payload) && WillBeAsked(s, payload)
  }

  /** A caller puts no question about an ADR ambiguity over a candidate that does not fit the package at hand. The runtime
      raises that question itself; its callers ask to confirm a Grill answer or to clarify the relevance of the sources. */
  predicate AskedProperly(s: State, op: Op) {
    op.Talk? && op.talk.OpRequireWaitUser? && PutsAdrQuestion(s, op.talk.payload) ==> Fits(s.build)
  }

  predicate ProperRun(ops: seq<Op>) {
    ops == [] || (ProperRun(Before(ops)) && AskedProperly(Run(Before(ops)), Last(ops)))
  }

  /** Runs whose callers ask only the two questions they do ask are proper. */
  lemma {:induction false} CallersAskProperly(ops: seq<Op>)
    requires forall op | op in ops :: op.Talk? && op.talk.OpRequireWaitUser? ==>
               op.talk.payload.kind.GrillConfirmation? || op.talk.payload.kind.RelevanceClarification?
    ensures ProperRun(ops)
  {
    if ops != [] {
      CallersAskProperly(Before(ops));
    }
  }

  /** A step that brings no new artefact into play. */
  predicate Harmless(s: State, t: State) {
    && (t.build.package.Some? ==> t.build.package == s.build.package)
    && (Exposed(t.flow) && t.build.adrCandidate.Some? ==>
          Exposed(s.flow) && t.build.adrCandidate == s.build.adrCandidate && t.build.package == s.build.package)
  }

  /** A step that does not take the workflow, or the user, to TO_SPEC. */
  predicate OffSpec(s: State, t: State) {
    && (AtStage(t.flow, ToSpec) ==> AtStage(s.flow, ToSpec))
    && (ShownStage(s.flow) ==> ShownStage(t.flow))
  }

  lemma HarmlessKeepsChain(s: State, t: State)
    requires Harmless(s, t)
    ensures ChainSound(s) ==> ChainSound(t)
  {
  }

  lemma AnswerIsHarmless(s: State, w: WaitUserQuestion, answer: string)
    requires AtStage(s.flow, WaitUser) && s.flow.ui.waitUser == Some(w)
    ensures Harmless(s, AnswerQuestion(s, w, answer).state) && OffSpec(s, AnswerQuestion(s, w, answer).state)
  {
  }

  lemma {:induction false} RecordAnswerIsHarmless(s: State, answer: string)
    ensures Harmless(s, RecordAnswer(s, answer).state) && OffSpec(s, RecordAnswer(s, answer).state)
  {
    if AtStage(s.flow, WaitUser) && s.flow.ui.waitUser.Some? {
      AnswerIsHarmless(s, s.flow.ui.waitUser.value, answer);
    }
  }

  /** A caller's question brings nothing into play, unless it is one about an ADR ambiguity that is really put. */
  lemma AskingIsHarmless(s: State, payload: WaitUserQuestion)
    ensures OffSpec(s, RequireWaitUser(s, payload).state)
    ensures RequireWaitUser(s, payload).state.build == s.build
    ensures !PutsAdrQuestion(s, payload) ==> Harmless(s, RequireWaitUser(s, payload).state)
  {
    if !PayloadMalformed(payload) {
      PuttingIsHarmless(s, payload);
    }
  }

  lemma PuttingIsHarmless(s: State, payload: WaitUserQuestion)
    ensures OffSpec(s, AskUser(s, payload).state)
    ensures AskUser(s, payload).state.build == s.build
    ensures !(payload.kind.AdrAmbiguity? && WillBeAsked(s, payload)) ==> Harmless(s, AskUser(s, payload).state)
  {
  }

  lemma {:induction false} TalkIsHarmless(s: State, op: TalkOp)
    ensures OffSpec(s, ApplyTalk(s, op).state)
    ensures (op.OpRequireWaitUser? && PutsAdrQuestion(s, op.payload)) || Harmless(s, ApplyTalk(s, op).state)
  {
    match op
    case OpRequireWaitUser(payload) => AskingIsHarmless(s, payload);
    case OpRecordAnswer(answer) => RecordAnswerIsHarmless(s, answer);
    case _ =>
  }

  lemma QuestionKeepsChain(s: State, op: TalkOp)
    requires ChainSound(s) && op.OpRequireWaitUser? && PutsAdrQuestion(s, op.payload) && Fits(s.build)
    ensures ChainSound(ApplyTalk(s, op).state)
  {
    AskingIsHarmless(s, op.payload);
  }

  lemma OtherTalkKeepsChain(s: State, op: TalkOp)
    requires ChainSound(s) && (op.OpRequireWaitUser? ==> !PutsAdrQuestion(s, op.payload))
    ensures ChainSound(ApplyTalk(s, op).state)
  {
    TalkIsHarmless(s, op);
    HarmlessKeepsChain(s, ApplyTalk(s, op).state);
  }

  lemma {:induction false} TalkKeepsChain(s: State, op: TalkOp)
    requires ChainSound(s) && AskedProperly(s, Talk(op))
    ensures ChainSound(ApplyTalk(s, op).state)
  {
    if op.OpRequireWaitUser? && PutsAdrQuestion(s, op.payload) {
      QuestionKeepsChain(s, op);
    } else {
      OtherTalkKeepsChain(s, op);
    }
  }

  /** The package is put in play where no decision records are being built. */
  lemma AcceptPackageBringsOnlyIt(s: State, identity: DeepIdentity, p: EvidencePackage)
    ensures
      var t := AcceptPackage(s, identity, p).state;
      && (t.build.package == Some(p) || t.build.package == s.build.package)
      && (Exposed(t.flow) ==> Exposed(s.flow) && t.build == s.build)
      && OffSpec(s, t)
  {
  }

  lemma CompleteUnderstandingKeepsChain(s: State, identity: DeepIdentity, result: DeepResult)
    ensures OffSpec(s, CompleteUnderstanding(s, identity, result).state)
    ensures ChainSound(s) ==> ChainSound(CompleteUnderstanding(s, identity, result).state)
  {
    if result.CompletedUnderstanding? {
      AcceptPackageBringsOnlyIt(s, identity, result.package);
    }
  }

  lemma AskingForHelpIsHarmless(s: State, identity: DeepIdentity, result: DeepResult)
    ensures result.NeedsDecision? ==>
              Harmless(s, NeedDecision(s, identity, result).state) && OffSpec(s, NeedDecision(s, identity, result).state)
    ensures result.NeedsDiscovery? ==>
              var t := NeedDiscovery(s, identity, result.fetchedEvidenceIds).state; Harmless(s, t) && OffSpec(s, t)
  {
  }

  lemma CompleteDeepKnowledgeIsHarmless(s: State, identity: DeepIdentity)
    ensures Harmless(s, CompleteDeepKnowledge(s, identity).state) && OffSpec(s, CompleteDeepKnowledge(s, identity).state)
  {
  }

  lemma {:induction false} HandleDeepResultKeepsChain(s: State, identity: DeepIdentity, result: DeepResult)
    ensures OffSpec(s, HandleDeepResult(s, identity, result).state)
    ensures ChainSound(s) ==> ChainSound(HandleDeepResult(s, identity, result).state)
  {
    var t := HandleDeepResult(s, identity, result).state;
    if result.NeedsDecision? || result.NeedsDiscovery? {
      AskingForHelpIsHarmless(s, identity, result);
      HarmlessKeepsChain(s, t);
    } else if identity.phase.UnderstandingPhase? {
      CompleteUnderstandingKeepsChain(s, identity, result);
    } else {
      CompleteDeepKnowledgeIsHarmless(s, identity);
      HarmlessKeepsChain(s, CompleteDeepKnowledge(s, identity).state);
    }
  }

  lemma {:induction false} DeepKeepsChain(s: State, op: DeepOp)
    ensures OffSpec(s, ApplyDeep(s, op).state)
    ensures ChainSound(s) ==> ChainSound(ApplyDeep(s, op).state)
  {
    match op
    case OpHandleDeepResult(identity, result) => HandleDeepResultKeepsChain(s, identity, result);
    case OpCompleteDeepKnowledge(identity) =>
      CompleteDeepKnowledgeIsHarmless(s, identity);
      HarmlessKeepsChain(s, CompleteDeepKnowledge(s, identity).state);
    case _ =>
      RestartIsHarmless(s, op);
      HarmlessKeepsChain(s, ApplyDeep(s, op).state);
  }

  lemma RestartIsHarmless(s: State, op: DeepOp)
    requires op.OpBeginDeepKnowledge? || op.OpCancelDeepKnowledge? || op.OpRetryDeepKnowledge?
    ensures Harmless(s, ApplyDeep(s, op).state) && OffSpec(s, ApplyDeep(s, op).state)
  {
  }

  lemma BuildKeepsChain(s: State, op: BuildOp)
    requires ChainSound(s) && WaitsWithQuestion(s.flow)
    ensures ChainSound(ApplyBuild(s, op).state)
  {
    match op
    case OpCompleteContextBuild(identity, completion) => CompleteContextBuildKeepsChain(s, identity, completion);
    case OpPrepareAdrBuild(identity, candidate) => PrepareKeepsChain(s, identity, candidate);
    case OpRequireAdrDecision(identity, ambiguity) =>
    case OpFinalizeAdrBuild(identity, commit) =>
  }

  lemma PrepareKeepsChain(s: State, identity: BuildIdentity, candidate: AdrCandidate)
    requires ChainSound(s) && WaitsWithQuestion(s.flow)
    ensures ChainSound(PrepareAdrBuild(s, identity, candidate).state)
  {
  }

  lemma CompleteContextBuildKeepsChain(s: State, identity: BuildIdentity, completion: ContextCompletion)
    requires ChainSound(s)
    ensures ChainSound(CompleteContextBuild(s, identity, completion).state)
  {
  }

  /** Finalizing is accepted, and with it TO_SPEC is entered. */
  predicate Finalizes(s: State, op: Op) {
    && op.Make? && op.build.OpFinalizeAdrBuild?
    && FinalizeAdrBuild(s, op.build.identity, op.build.commit).reply == Accepted
  }

  lemma BuildOffSpec(s: State, op: BuildOp)
    ensures Finalizes(s, Make(op)) || OffSpec(s, ApplyBuild(s, op).state)
    ensures ShownStage(s.flow) ==> ShownStage(ApplyBuild(s, op).state.flow)
  {
  }

  predicate OnlyBudgetDiffers(s: State, t: State) { t == s.(budget := t.budget) }

  lemma BudgetCallsKeepAllElse(s: State, identity: DeepIdentity)
    ensures OnlyBudgetDiffers(s, ReserveDeepSearchBudget(s, identity).state)
    ensures OnlyBudgetDiffers(s, CommitDeepSearchBudget(s, identity).state)
    ensures OnlyBudgetDiffers(s, ReleaseDeepSearchBudget(s, identity).state)
  {
  }

  lemma SearchKeepsAllElse(s: State, op: SearchOp)
    ensures OnlyBudgetDiffers(s, ApplySearch(s, op).state)
  {
    BudgetCallsKeepAllElse(s, op.identity);
    BudgetCallsKeepAllElse(ReserveDeepSearchBudget(s, op.identity).state, op.identity);
  }

  lemma {:induction false} StepKeepsChain(s: State, op: Op)
    requires ChainSound(s) && WaitsWithQuestion(s.flow) && AskedProperly(s, op)
    ensures ChainSound(Apply(s, op).state)
  {
    match op
    case Talk(talk) => TalkKeepsChain(s, talk);
    case Deep(deep) => DeepKeepsChain(s, deep);
    case Make(build) => BuildKeepsChain(s, build);
    case Search(search) => SearchKeepsAllElse(s, search);
  }

  lemma {:induction false} StepOffSpec(s: State, op: Op)
    ensures Finalizes(s, op) || OffSpec(s, Apply(s, op).state)
    ensures ShownStage(s.flow) ==> ShownStage(Apply(s, op).state.flow)
  {
    match op
    case Talk(talk) => TalkIsHarmless(s, talk);
    case Deep(deep) => DeepKeepsChain(s, deep);
    case Make(build) => BuildOffSpec(s, build);
    case Search(search) => SearchKeepsAllElse(s, search);
  }

  lemma {:induction false} RunChainSound(ops: seq<Op>)
    requires ProperRun(ops)
    ensures ChainSound(Run(ops))
  {
    if ops != [] {
      RunChainSound(Before(ops));
      RunWaitsWithQuestion(Before(ops));
      StepKeepsChain(Run(Before(ops)), Last(ops));
    }
  }

  /** The evidence package is acceptable, and the decision records validate against it. */
  predicate ReadyForSpec(b: Build) { b.package.Some? && Evidence.Accepted(b.package.value) && b.adrCandidate.Some? && Fits(b) }

  /** Every decision record cites something, and nothing but evidence in the package. */
  predicate CitesEvidence(b: Build)
    requires b.package.Some? && b.adrCandidate.Some?
  {
    forall r | r in b.adrCandidate.value.records ::
      r.citations != [] && forall id | id in r.citations :: exists e :: e in b.package.value.evidence && e.evidenceId == id
  }

  lemma {:induction false} ReadyCitesEvidence(b: Build)
    requires ReadyForSpec(b)
    ensures CitesEvidence(b)
  {
    var p := b.package.value;
    forall r, id | r in b.adrCandidate.value.records && id in r.citations
      ensures exists e :: e in p.evidence && e.evidenceId == id
    {
      assert RecordSound(r, p.evidenceIds);
      var k :| 0 <= k < |p.evidenceIds| && p.evidenceIds[k] == id;
      assert p.evidence[k] in p.evidence;
    }
  }

  predicate EntersSpec(s: State, op: Op) { !AtStage(s.flow, ToSpec) && AtStage(Apply(s, op).state.flow, ToSpec) }

  /** TO_SPEC is entered only by `finalizeAdrBuild`, on a committed bundle and a prepared candidate. In a proper run the
      package is then an accepted one, the records validate against it, and they cite nothing but its evidence. */
  lemma {:induction false} ToSpecOnlyThroughFinalize(ops: seq<Op>, op: Op)
    requires EntersSpec(Run(ops), op)
    ensures op.Make? && op.build.OpFinalizeAdrBuild?
    ensures op.build.commit.DocumentsCommitted? && IsSha256(op.build.commit.baseHash)
    ensures Run(ops).build.adrCandidate.Some?
    ensures ProperRun(ops) ==> ReadyForSpec(Run(ops).build) && CitesEvidence(Run(ops).build)
  {
    var s := Run(ops);
    StepOffSpec(s, op);
    if ProperRun(ops) {
      RunChainSound(ops);
      ReadyCitesEvidence(s.build);
    }
  }

  /** The user is shown TO_SPEC only when the workflow is there, in every run. */
  lemma {:induction false} ShownAtSpec(ops: seq<Op>)
    ensures Run(ops).flow.ui.stage == At(ToSpec) ==> AtStage(Run(ops).flow, ToSpec)
  {
    if ops != [] {
      ShownAtSpec(Before(ops));
      StepOffSpec(Run(Before(ops)), Last(ops));
    }
  }

  lemma RunMore(ops: seq<Op>, op: Op)
    ensures Run(ops + [op]) == Apply(Run(ops), op).state
  {
    assert (ops + [op])[..|ops|] == ops;
  }
}
