/** The way from a request to the specification: in each stage the call that belongs there succeeds and leads on. */
module ForgeWay {
  import opened Text
  import opened Stages
  import opened Evidence
  import opened Candidates
  import opened ForgeState
  import opened ForgeSafety
  import opened ForgeIdentity
  import opened ForgeAnswers

  // ----- One stage after the other -----

  /** A new session takes up a request. */
  lemma IntentComesFirst(s: State)
    requires s.flow.orchestrator.None? && s.flow.ui.waitUser.None?
    ensures BeginIntent(s).reply == Done && Rests(BeginIntent(s).state, IntentUnderstanding)
    ensures BeginIntent(s).state == s.(flow := BeginIntent(s).state.flow)
  {
  }

  lemma DiscoveryFollows(s: State)
    requires Rests(s, IntentUnderstanding) || Rests(s, DeepRetrieval) || Rests(s, KnowledgeUnderstanding)
    ensures BeginLightDiscovery(s).reply == Done && Rests(BeginLightDiscovery(s).state, LightDiscovery)
    ensures BeginLightDiscovery(s).state == s.(flow := BeginLightDiscovery(s).state.flow)
  {
  }

  lemma GrillFollows(s: State)
    requires Rests(s, LightDiscovery)
    ensures BeginGrill(s).reply == Done && Rests(BeginGrill(s).state, Grill)
    ensures BeginGrill(s).state == s.(flow := BeginGrill(s).state.flow)
  {
  }

  /** A question of the current round that was not answered yet is put. */
  lemma QuestionIsPut(s: State, w: WaitUserQuestion)
    requires Rests(s, Grill) && OfThisRound(s, w) && Trim(w.decisionId) != "" && Trim(w.roundId) != ""
    requires KeyOf(w) !in s.answers.keys && w.decisionId !in s.answers.decisions
    ensures RequireWaitUser(s, w).reply == Done && Waits(RequireWaitUser(s, w).state, w)
    ensures RequireWaitUser(s, w).state == s.(flow := RequireWaitUser(s, w).state.flow)
  {
    WellFormed(w);
    Puts(s, w);
  }

  lemma WellFormed(w: WaitUserQuestion)
    requires Trim(w.decisionId) != "" && Trim(w.roundId) != ""
    ensures !PayloadMalformed(w)
  {
  }

  lemma Puts(s: State, w: WaitUserQuestion)
    requires Rests(s, Grill) && OfThisRound(s, w)
    requires KeyOf(w) !in s.answers.keys && w.decisionId !in s.answers.decisions
    ensures AskUser(s, w).reply == Done && Waits(AskUser(s, w).state, w)
    ensures AskUser(s, w).state == s.(flow := AskUser(s, w).state.flow)
  {
  }

  /** Deep work begins in either phase once a round is confirmed, and in retrieval from GRILL. */
  lemma DeepWorkBegins(s: State, phase: Phase)
    requires s.round.Some? && (AtStage(s.flow, UserConfirmed) || (AtStage(s.flow, Grill) && phase.RetrievalPhase?))
    ensures BeginDeepKnowledge(s, phase).reply == Done && Works(BeginDeepKnowledge(s, phase).state, phase)
    ensures BeginDeepKnowledge(s, phase).state.build == s.build
  {
  }

  /** Retrieval hands over to understanding, in the same attempt. */
  lemma UnderstandingFollows(s: State, evidenceIds: seq<string>)
    requires Works(s, RetrievalPhase)
    ensures
      var t := HandleDeepResult(s, s.deep.attempt.value, CompletedRetrieval(evidenceIds));
      && t.reply == Accepted && Works(t.state, UnderstandingPhase) && t.state.build == s.build
      && t.state.deep.attempt.value.attemptId == s.deep.attempt.value.attemptId
  {
  }

  /** An acceptable package opens the context build. */
  lemma {:induction false} ContextFollows(s: State, p: EvidencePackage)
    requires Works(s, UnderstandingPhase) && Evidence.Accepted(p)
    ensures
      var t := HandleDeepResult(s, s.deep.attempt.value, CompletedUnderstanding(p));
      && t.reply == Accepted && Rests(t.state, ContextBuild) && t.state.deep.attempt.None?
      && t.state.build.package == Some(p) && t.state.build.contextAttempt.Some?
  {
    PackageIsTaken(s, p);
    TakenOpensContext(s, p);
  }

  lemma PackageIsTaken(s: State, p: EvidencePackage)
    requires Works(s, UnderstandingPhase) && Evidence.Accepted(p)
    ensures HandleDeepResult(s, s.deep.attempt.value, CompletedUnderstanding(p)) == AcceptPackage(s, s.deep.attempt.value, p)
  {
  }

  lemma TakenOpensContext(s: State, p: EvidencePackage)
    requires Works(s, UnderstandingPhase)
    ensures
      var t := AcceptPackage(s, s.deep.attempt.value, p);
      && t.reply == Accepted && Rests(t.state, ContextBuild) && t.state.deep.attempt.None?
      && t.state.build.package == Some(p) && t.state.build.contextAttempt.Some?
  {
  }

  /** A package that is not acceptable changes nothing. */
  lemma {:induction false} PackageIsRefused(s: State, identity: DeepIdentity, p: EvidencePackage)
    requires identity.phase.UnderstandingPhase? && !Evidence.Accepted(p)
    ensures HandleDeepResult(s, identity, CompletedUnderstanding(p)).state == s
  {
  }

  /** A sound glossary opens the build of the decision records. */
  lemma AdrFollows(s: State, glossary: ContextCandidate)
    requires Rests(s, ContextBuild) && s.build.package.Some? && s.build.contextAttempt.Some?
    requires GlossarySound(glossary, s.build.package.value.evidenceIds)
    ensures
      var t := CompleteContextBuild(s, s.build.contextAttempt.value, CompletedContext(glossary));
      && t.reply == Accepted && Rests(t.state, AdrBuild) && t.state.build.package == s.build.package
      && t.state.build.contextCandidate == Some(glossary)
      && t.state.build.adrAttempt.Some? && t.state.build.contextAttempt.None? && t.state.build.adrCandidate.None?
  {
  }

  // ----- All the way -----

  lemma Begin(request: string, snapshot: nat) returns (ops: seq<Op>)
    ensures Rests(Run(ops), Grill) && Run(ops).round.Some? && Run(ops).answers == NO_ANSWERS
    ensures Run(ops).round.value.request == request && Run(ops).round.value.roundId == RoundId(1)
  {
    ops := [];
    RunMore(ops, Talk(OpStartGrillRound(request, snapshot)));
    ops := ops + [Talk(OpStartGrillRound(request, snapshot))];
    IntentComesFirst(Run(ops));
    RunMore(ops, Talk(OpBeginIntent));
    ops := ops + [Talk(OpBeginIntent)];
    DiscoveryFollows(Run(ops));
    RunMore(ops, Talk(OpBeginLightDiscovery));
    ops := ops + [Talk(OpBeginLightDiscovery)];
    GrillFollows(Run(ops));
    RunMore(ops, Talk(OpBeginGrill));
    ops := ops + [Talk(OpBeginGrill)];
  }

  /** What the user is asked to confirm. */
  function Confirmation(decisionId: string, question: string): WaitUserQuestion {
    WaitUserQuestion(GrillConfirmation, RoundId(1), decisionId, [], [], question, "")
  }

  lemma RoundIsNamed()
    ensures Trim(RoundId(1)) != ""
  {
    assert RoundId(1)[0] == 'g';
    NotBlank(RoundId(1));
  }

  /** The user confirms, and deep work begins. */
  lemma Confirm(ops: seq<Op>, decisionId: string, question: string, answer: string) returns (more: seq<Op>)
    requires Rests(Run(ops), Grill) && Run(ops).round.Some? && Run(ops).answers == NO_ANSWERS
    requires Run(ops).round.value.roundId == RoundId(1) && Trim(decisionId) != "" && Trim(answer) != ""
    ensures Works(Run(more), RetrievalPhase)
    ensures decisionId in Run(more).answers.decisions
    ensures Run(more).answers.decisions[decisionId] == HumanDecision(question, answer, [])
  {
    var w := Confirmation(decisionId, question);
    RoundIsNamed();
    QuestionIsPut(Run(ops), w);
    AppliesQuestion(ops, w);
    var asked := ops + [Talk(OpRequireWaitUser(w))];
    AnswerLeadsTo(Run(asked), w, answer);
    AnswerIsRemembered(Run(asked), w, answer);
    AnswerKeepsRound(Run(asked), answer);
    AppliesAnswer(asked, answer);
    var answered := asked + [Talk(OpRecordAnswer(answer))];
    DeepWorkBegins(Run(answered), RetrievalPhase);
    AppliesDeepWork(answered);
    more := answered + [Deep(OpBeginDeepKnowledge(RetrievalPhase))];
  }

  lemma AnswerKeepsRound(s: State, answer: string)
    ensures RecordAnswer(s, answer).state.round == s.round
  {
    RecordAnswerSame(s, answer);
  }

  lemma AppliesQuestion(ops: seq<Op>, w: WaitUserQuestion)
    ensures Run(ops + [Talk(OpRequireWaitUser(w))]) == RequireWaitUser(Run(ops), w).state
  {
    RunMore(ops, Talk(OpRequireWaitUser(w)));
  }

  lemma AppliesDeepWork(ops: seq<Op>)
    ensures Run(ops + [Deep(OpBeginDeepKnowledge(RetrievalPhase))]) == BeginDeepKnowledge(Run(ops), RetrievalPhase).state
    ensures BeginDeepKnowledge(Run(ops), RetrievalPhase).state.answers == Run(ops).answers
  {
    RunMore(ops, Deep(OpBeginDeepKnowledge(RetrievalPhase)));
  }

  lemma AppliesResult(ops: seq<Op>, identity: DeepIdentity, result: DeepResult)
    ensures Run(ops + [Deep(OpHandleDeepResult(identity, result))]) == HandleDeepResult(Run(ops), identity, result).state
  {
    RunMore(ops, Deep(OpHandleDeepResult(identity, result)));
  }

  lemma AppliesBuild(ops: seq<Op>, op: BuildOp)
    ensures Run(ops + [Make(op)]) == ApplyBuild(Run(ops), op).state
  {
    RunMore(ops, Make(op));
  }

  lemma Research(ops: seq<Op>, evidenceIds: seq<string>, p: EvidencePackage) returns (more: seq<Op>)
    requires Works(Run(ops), RetrievalPhase) && Evidence.Accepted(p)
    ensures Rests(Run(more), ContextBuild) && Run(more).build.package == Some(p) && Run(more).build.contextAttempt.Some?
  {
    var identity := Run(ops).deep.attempt.value;
    UnderstandingFollows(Run(ops), evidenceIds);
    AppliesResult(ops, identity, CompletedRetrieval(evidenceIds));
    var retrieved := ops + [Deep(OpHandleDeepResult(identity, CompletedRetrieval(evidenceIds)))];
    var understanding := Run(retrieved).deep.attempt.value;
    ContextFollows(Run(retrieved), p);
    AppliesResult(retrieved, understanding, CompletedUnderstanding(p));
    more := retrieved + [Deep(OpHandleDeepResult(understanding, CompletedUnderstanding(p)))];
  }

  lemma WriteContext(ops: seq<Op>, glossary: ContextCandidate) returns (more: seq<Op>)
    requires Rests(Run(ops), ContextBuild) && Run(ops).build.package.Some? && Run(ops).build.contextAttempt.Some?
    requires GlossarySound(glossary, Run(ops).build.package.value.evidenceIds)
    ensures Rests(Run(more), AdrBuild) && Run(more).build.package == Run(ops).build.package
    ensures Run(more).build.adrAttempt.Some? && Run(more).build.contextCandidate == Some(glossary)
  {
    var context := OpCompleteContextBuild(Run(ops).build.contextAttempt.value, CompletedContext(glossary));
    AdrFollows(Run(ops), glossary);
    AppliesBuild(ops, context);
    more := ops + [Make(context)];
  }

  lemma WriteRecords(ops: seq<Op>, candidate: AdrCandidate, hash: string) returns (more: seq<Op>)
    requires Rests(Run(ops), AdrBuild) && Run(ops).build.package.Some? && Run(ops).build.adrAttempt.Some?
    requires AdrSound(candidate, Run(ops).build.package.value.evidenceIds) && IsSha256(hash)
    ensures AtStage(Run(more).flow, ToSpec) && Run(more).build.package == Run(ops).build.package
    ensures Run(more).build.adrCandidate == Some(candidate)
    ensures Run(more).build.contextCandidate == Run(ops).build.contextCandidate
  {
    var identity := Run(ops).build.adrAttempt.value;
    AdrFinishes(Run(ops), candidate, hash);
    AdrKeeps(Run(ops), identity, candidate, hash);
    more := AppliesRecords(ops, identity, candidate, hash);
  }

  lemma AppliesRecords(ops: seq<Op>, identity: BuildIdentity, candidate: AdrCandidate, hash: string) returns (more: seq<Op>)
    ensures Run(more)
            == FinalizeAdrBuild(PrepareAdrBuild(Run(ops), identity, candidate).state, identity, DocumentsCommitted(hash)).state
  {
    var prepare, finalize := OpPrepareAdrBuild(identity, candidate), OpFinalizeAdrBuild(identity, DocumentsCommitted(hash));
    AppliesBuild(ops, prepare);
    AppliesBuild(ops + [Make(prepare)], finalize);
    more := ops + [Make(prepare)] + [Make(finalize)];
  }

  lemma AdrKeeps(s: State, identity: BuildIdentity, candidate: AdrCandidate, hash: string)
    ensures
      var prepared := PrepareAdrBuild(s, identity, candidate);
      var done := FinalizeAdrBuild(prepared.state, identity, DocumentsCommitted(hash));
      && (prepared.reply == Accepted ==> done.state.build.adrCandidate == Some(candidate))
      && done.state.build.package == s.build.package && done.state.build.contextCandidate == s.build.contextCandidate
  {
  }

  /** From the request through every stage to TO_SPEC: whatever the user confirms, whatever acceptable package is found,
      and whatever sound glossary and records are written, there is a run that brings them there. */
  lemma {:induction false} AllTheWay(request: string, snapshot: nat, decisionId: string, question: string, answer: string,
                                     evidenceIds: seq<string>, p: EvidencePackage, glossary: ContextCandidate,
                                     candidate: AdrCandidate, hash: string)
    returns (ops: seq<Op>)
    requires Trim(decisionId) != "" && Trim(answer) != "" && IsSha256(hash)
    requires Evidence.Accepted(p) && GlossarySound(glossary, p.evidenceIds) && AdrSound(candidate, p.evidenceIds)
    ensures AtStage(Run(ops).flow, ToSpec) && Run(ops).build.package == Some(p)
    ensures Run(ops).build.contextCandidate == Some(glossary) && Run(ops).build.adrCandidate == Some(candidate)
  {
    ops := Begin(request, snapshot);
    ops := Confirm(ops, decisionId, question, answer);
    ops := Research(ops, evidenceIds, p);
    ops := WriteContext(ops, glossary);
    ops := WriteRecords(ops, candidate, hash);
  }
}
