/** Where answers lead: what each question asks for is what the session goes on with. */
module ForgeAnswers {
  import opened Text
  import opened Stages
  import opened Evidence
  import opened Candidates
  import opened ForgeState
  import opened ForgeSafety
  import opened ForgeIdentity

  // ----- One answer -----

  predicate Waits(s: State, w: WaitUserQuestion) {
    AtStage(s.flow, WaitUser) && s.flow.ui.waitUser == Some(w)
  }

  predicate OfThisRound(s: State, w: WaitUserQuestion) { s.round.Some? && w.roundId == s.round.value.roundId }

  /** The answers a question listens to: not blank, and for some kinds one of a few words or of the current round only;
      a question other than a checkpoint is answered once. */
  predicate Listens(s: State, w: WaitUserQuestion, answer: string) {
    && Trim(answer) != ""
    && match w.kind
       case GrillCheckpoint => OfThisRound(s, w) && (Trim(answer) == "continue_one" || Trim(answer) == "converge")
       case GrillConfirmation => OfThisRound(s, w) && KeyOf(w) !in s.answers.keys
       case DeepDiscoveryFallback => (Trim(answer) == AGREE || Trim(answer) == CONFIRM) && KeyOf(w) !in s.answers.keys
       case _ => KeyOf(w) !in s.answers.keys
  }

  /** Any other answer changes nothing. */
  lemma UnheardChangesNothing(s: State, w: WaitUserQuestion, answer: string)
    requires Waits(s, w)
    ensures !Listens(s, w, answer) ==> RecordAnswer(s, answer).state == s
  {
    UnheardIsIgnored(s, w, answer);
    IgnoredKeeps(s, w, answer);
  }

  lemma IgnoredKeeps(s: State, w: WaitUserQuestion, answer: string)
    requires Waits(s, w)
    ensures AnswerIgnored(s, w, answer) ==> RecordAnswer(s, answer).state == s
  {
  }

  lemma UnheardIsIgnored(s: State, w: WaitUserQuestion, answer: string)
    ensures !Listens(s, w, answer) ==> AnswerIgnored(s, w, answer)
  {
  }

  /** A checkpoint question is put after the eighth confirmation, and after one more if the user has asked to continue. */
  predicate ChecksPoint(s: State, w: WaitUserQuestion) {
    w.kind.GrillConfirmation? && (s.answers.accepted == 7 || s.answers.checkpointPending)
  }

  function LeadsTo(kind: WaitKind): Stage {
    match kind
    case ContextAmbiguity => ContextBuild
    case AdrAmbiguity => AdrBuild
    case RelevanceClarification => UserConfirmed
    case DeepDiscoveryFallback => UserConfirmed
    case DeepDecision => Grill
    case GrillConfirmation => Grill
    case GrillCheckpoint => Grill
  }

  /** The workflow waits at the checkpoint of the current round, which may be continued or ended. */
  predicate AtCheckpoint(s: State) {
    && AtStage(s.flow, WaitUser) && s.flow.ui.waitUser.Some? && s.flow.ui.waitUser.value.kind.GrillCheckpoint?
    && OfThisRound(s, s.flow.ui.waitUser.value)
    && "continue_one" in s.flow.ui.waitUser.value.options && "converge" in s.flow.ui.waitUser.value.options
  }

  predicate Rests(s: State, stage: Stage) { AtStage(s.flow, stage) && s.flow.ui.waitUser.None? && s.flow.ui.stage == At(stage) }

  /** A question is gone once an answer is heard, and the workflow goes where its kind says. */
  lemma {:induction false} AnswerLeadsTo(s: State, w: WaitUserQuestion, answer: string)
    requires Waits(s, w) && Listens(s, w, answer)
    ensures
      var t := RecordAnswer(s, answer).state;
      if ChecksPoint(s, w) then AtCheckpoint(t) else Rests(t, LeadsTo(w.kind))
  {
    Heard(s, w, answer);
    HeardLeadsTo(s, w, answer);
  }

  lemma Heard(s: State, w: WaitUserQuestion, answer: string)
    requires Waits(s, w) && Listens(s, w, answer)
    ensures RecordAnswer(s, answer) == AnswerQuestion(s, w, answer)
  {
  }

  lemma HeardLeadsTo(s: State, w: WaitUserQuestion, answer: string)
    requires Waits(s, w) && (w.kind.GrillConfirmation? || w.kind.GrillCheckpoint? ==> OfThisRound(s, w))
    ensures
      var t := AnswerQuestion(s, w, answer).state;
      if ChecksPoint(s, w) then AtCheckpoint(t) else Rests(t, LeadsTo(w.kind))
  {
  }

  /** What an answer was is remembered under its decision, unless the decision was made before; a checkpoint is none. */
  lemma {:induction false} AnswerIsRemembered(s: State, w: WaitUserQuestion, answer: string)
    requires Waits(s, w) && Listens(s, w, answer) && !w.kind.GrillCheckpoint?
    ensures
      var t := RecordAnswer(s, answer).state;
      && !Listens(t, w, answer) && w.decisionId in t.answers.decisions
      && (w.decisionId !in s.answers.decisions ==>
            t.answers.decisions[w.decisionId] == HumanDecision(w.question, answer, w.evidenceIds))
      && (forall d | d in s.answers.decisions :: d in t.answers.decisions && t.answers.decisions[d] == s.answers.decisions[d])
  {
    Heard(s, w, answer);
    QuestionIsRemembered(s, w, answer);
  }

  lemma QuestionIsRemembered(s: State, w: WaitUserQuestion, answer: string)
    requires !w.kind.GrillCheckpoint?
    ensures
      var t := AnswerQuestion(s, w, answer).state;
      && t.answers.keys == s.answers.keys + {KeyOf(w)}
      && t.answers.decisions == Remember(s.answers, w, answer).decisions
  {
  }

  // ----- Questions and what follows their answers -----

  /** An ambiguity in the context is answered, and the context is completed: the new attempt's glossary is accepted. */
  lemma {:induction false} ContextIsCompleted(s: State, identity: BuildIdentity, a: Ambiguity, answer: string,
                                              glossary: ContextCandidate)
    requires CompleteContextBuild(s, identity, AmbiguousContext(a)).reply == Ambiguous
    requires Trim(answer) != "" && DecisionKey(identity.sourceRoundId, ContextAmbiguity, a.decisionId) !in s.answers.keys
    requires s.build.package.Some? && GlossarySound(glossary, s.build.package.value.evidenceIds)
    ensures
      var t := RecordAnswer(CompleteContextBuild(s, identity, AmbiguousContext(a)).state, answer).state;
      && t.build.contextAttempt.Some?
      && CompleteContextBuild(t, t.build.contextAttempt.value, CompletedContext(glossary)).reply == Accepted
      && AtStage(CompleteContextBuild(t, t.build.contextAttempt.value, CompletedContext(glossary)).state.flow, AdrBuild)
  {
    var asked := CompleteContextBuild(s, identity, AmbiguousContext(a)).state;
    ContextIsAsked(s, identity, a);
    var w := asked.flow.ui.waitUser.value;
    Heard(asked, w, answer);
    ContextGoesOn(asked, w, answer, glossary);
  }

  lemma ContextIsAsked(s: State, identity: BuildIdentity, a: Ambiguity)
    requires CompleteContextBuild(s, identity, AmbiguousContext(a)).reply == Ambiguous
    ensures
      var t := CompleteContextBuild(s, identity, AmbiguousContext(a)).state;
      && t.flow.ui.waitUser.Some? && Waits(t, t.flow.ui.waitUser.value) && t.flow.ui.waitUser.value.kind.ContextAmbiguity?
      && KeyOf(t.flow.ui.waitUser.value) == DecisionKey(identity.sourceRoundId, ContextAmbiguity, a.decisionId)
      && t.answers == s.answers && t.build.package == s.build.package
  {
  }

  lemma ContextGoesOn(s: State, w: WaitUserQuestion, answer: string, glossary: ContextCandidate)
    requires Waits(s, w) && w.kind.ContextAmbiguity?
    requires s.build.package.Some? && GlossarySound(glossary, s.build.package.value.evidenceIds)
    ensures
      var t := AnswerQuestion(s, w, answer).state;
      && t.build.contextAttempt.Some?
      && CompleteContextBuild(t, t.build.contextAttempt.value, CompletedContext(glossary)).reply == Accepted
      && AtStage(CompleteContextBuild(t, t.build.contextAttempt.value, CompletedContext(glossary)).state.flow, AdrBuild)
  {
  }

  /** An ambiguity in the decision records is answered, and the records are prepared and finalized. */
  lemma {:induction false} RecordsAreCompleted(s: State, identity: BuildIdentity, a: Ambiguity, answer: string,
                                               candidate: AdrCandidate, hash: string)
    requires RequireAdrDecision(s, identity, a).reply == Ambiguous && IsSha256(hash)
    requires Trim(answer) != "" && DecisionKey(identity.sourceRoundId, AdrAmbiguity, a.decisionId) !in s.answers.keys
    requires s.build.package.Some? && AdrSound(candidate, s.build.package.value.evidenceIds)
    ensures
      var t := RecordAnswer(RequireAdrDecision(s, identity, a).state, answer).state;
      t.build.adrAttempt.Some? &&
      var prepared := PrepareAdrBuild(t, t.build.adrAttempt.value, candidate);
      prepared.reply == Accepted &&
      var done := FinalizeAdrBuild(prepared.state, t.build.adrAttempt.value, DocumentsCommitted(hash));
      done.reply == Accepted && AtStage(done.state.flow, ToSpec)
  {
    var asked := RequireAdrDecision(s, identity, a).state;
    AdrIsAsked(s, identity, a);
    var w := asked.flow.ui.waitUser.value;
    Heard(asked, w, answer);
    AdrGoesOn(asked, w, answer, candidate, hash);
  }

  lemma AdrIsAsked(s: State, identity: BuildIdentity, a: Ambiguity)
    requires RequireAdrDecision(s, identity, a).reply == Ambiguous
    ensures
      var t := RequireAdrDecision(s, identity, a).state;
      && t.flow.ui.waitUser.Some? && Waits(t, t.flow.ui.waitUser.value) && t.flow.ui.waitUser.value.kind.AdrAmbiguity?
      && KeyOf(t.flow.ui.waitUser.value) == DecisionKey(identity.sourceRoundId, AdrAmbiguity, a.decisionId)
      && t.answers == s.answers && t.build.package == s.build.package
  {
  }

  lemma AdrGoesOn(s: State, w: WaitUserQuestion, answer: string, candidate: AdrCandidate, hash: string)
    requires Waits(s, w) && w.kind.AdrAmbiguity? && IsSha256(hash)
    requires s.build.package.Some? && AdrSound(candidate, s.build.package.value.evidenceIds)
    ensures
      var t := AnswerQuestion(s, w, answer).state;
      t.build.adrAttempt.Some? &&
      var prepared := PrepareAdrBuild(t, t.build.adrAttempt.value, candidate);
      prepared.reply == Accepted &&
      var done := FinalizeAdrBuild(prepared.state, t.build.adrAttempt.value, DocumentsCommitted(hash));
      done.reply == Accepted && AtStage(done.state.flow, ToSpec)
  {
    AdrReopens(s, w, answer);
    AdrFinishes(AnswerQuestion(s, w, answer).state, candidate, hash);
  }

  lemma AdrReopens(s: State, w: WaitUserQuestion, answer: string)
    requires Waits(s, w) && w.kind.AdrAmbiguity?
    ensures
      var t := AnswerQuestion(s, w, answer).state;
      AtStage(t.flow, AdrBuild) && t.build.adrAttempt.Some? && t.build.package == s.build.package
  {
  }

  lemma AdrFinishes(s: State, candidate: AdrCandidate, hash: string)
    requires AtStage(s.flow, AdrBuild) && s.build.adrAttempt.Some? && IsSha256(hash)
    requires s.build.package.Some? && AdrSound(candidate, s.build.package.value.evidenceIds)
    ensures
      var prepared := PrepareAdrBuild(s, s.build.adrAttempt.value, candidate);
      prepared.reply == Accepted &&
      var done := FinalizeAdrBuild(prepared.state, s.build.adrAttempt.value, DocumentsCommitted(hash));
      done.reply == Accepted && AtStage(done.state.flow, ToSpec)
  {
  }

  /** A deep attempt works in its phase: it is live, in the current round, and the workflow is there. */
  predicate Works(s: State, phase: Phase) {
    && s.deep.attempt.Some? && s.deep.attempt.value.phase == phase
    && s.round.Some? && s.deep.attempt.value.sourceRoundId == s.round.value.roundId
    && Rests(s, PhaseStage(phase))
  }

  /** A decision is needed in the middle of deep work: once it is made, a retry goes on in the same phase. */
  lemma {:induction false} DeepWorkGoesOn(s: State, identity: DeepIdentity, result: DeepResult, answer: string)
    requires result.NeedsDecision? && HandleDeepResult(s, identity, result).reply == Accepted && s.round.Some?
    requires Trim(answer) != "" && DecisionKey(identity.attemptId, DeepDecision, result.decisionId) !in s.answers.keys
    ensures
      var t := RecordAnswer(HandleDeepResult(s, identity, result).state, answer).state;
      AtStage(t.flow, Grill) && Works(RetryDeepKnowledge(t).state, identity.phase)
  {
    var asked := NeedDecision(s, identity, result).state;
    DecisionIsAsked(s, identity, result);
    var w := asked.flow.ui.waitUser.value;
    Heard(asked, w, answer);
    DecisionIsMade(asked, w, answer, identity.phase);
    RetriesPhase(AnswerQuestion(asked, w, answer).state, identity.phase);
  }

  lemma DecisionIsAsked(s: State, identity: DeepIdentity, result: DeepResult)
    requires result.NeedsDecision? && HandleDeepResult(s, identity, result).reply == Accepted
    ensures
      var t := NeedDecision(s, identity, result).state;
      && HandleDeepResult(s, identity, result).state == t
      && t.flow.ui.waitUser.Some? && Waits(t, t.flow.ui.waitUser.value) && t.flow.ui.waitUser.value.kind.DeepDecision?
      && KeyOf(t.flow.ui.waitUser.value) == DecisionKey(identity.attemptId, DeepDecision, result.decisionId)
      && t.answers == s.answers && t.round == s.round && t.deep.retryPhase == Some(identity.phase)
  {
  }

  lemma DecisionIsMade(s: State, w: WaitUserQuestion, answer: string, phase: Phase)
    requires Waits(s, w) && w.kind.DeepDecision? && s.deep.retryPhase == Some(phase)
    ensures
      var t := AnswerQuestion(s, w, answer).state;
      AtStage(t.flow, Grill) && t.round == s.round && t.deep.retryPhase == Some(phase)
  {
  }

  lemma RetriesPhase(s: State, phase: Phase)
    requires s.round.Some? && s.deep.retryPhase == Some(phase)
    ensures Works(RetryDeepKnowledge(s).state, phase)
  {
  }

  /** The user agrees to go on with the evidence at hand: understanding may begin. */
  lemma {:induction false} FallbackGoesOn(s: State, w: WaitUserQuestion, answer: string)
    requires Waits(s, w) && w.kind.DeepDiscoveryFallback? && Listens(s, w, answer) && s.round.Some?
    ensures
      var t := BeginDeepKnowledge(RecordAnswer(s, answer).state, UnderstandingPhase);
      t.reply == Done && Works(t.state, UnderstandingPhase)
  {
    Heard(s, w, answer);
    HeardLeadsTo(s, w, answer);
    BeginsFromConfirmed(AnswerQuestion(s, w, answer).state);
  }

  lemma BeginsFromConfirmed(s: State)
    requires Rests(s, UserConfirmed) && s.round.Some?
    ensures
      var t := BeginDeepKnowledge(s, UnderstandingPhase);
      t.reply == Done && Works(t.state, UnderstandingPhase)
  {
  }

  /** The user names the relevant sources: discovery may begin. */
  lemma {:induction false} ClarificationGoesOn(s: State, w: WaitUserQuestion, answer: string)
    requires Waits(s, w) && w.kind.RelevanceClarification? && KeyOf(w) !in s.answers.keys && Trim(answer) != ""
    ensures
      var t := BeginLightDiscovery(RecordAnswer(s, answer).state);
      t.reply == Done && Rests(t.state, LightDiscovery)
  {
    Heard(s, w, answer);
    HeardLeadsTo(s, w, answer);
    DiscoversFromConfirmed(AnswerQuestion(s, w, answer).state);
  }

  lemma DiscoversFromConfirmed(s: State)
    requires Rests(s, UserConfirmed)
    ensures BeginLightDiscovery(s).reply == Done && Rests(BeginLightDiscovery(s).state, LightDiscovery)
  {
  }

  // ----- The checkpoint, over whole runs -----

  /** The call is an answer that is heard by a question of that kind. */
  predicate IsHeardBy(s: State, op: Op, kind: WaitKind) {
    && op.Talk? && op.talk.OpRecordAnswer? && AtStage(s.flow, WaitUser) && s.flow.ui.waitUser.Some?
    && s.flow.ui.waitUser.value.kind == kind && Listens(s, s.flow.ui.waitUser.value, op.talk.answer)
  }

  /** The call forgets what was confirmed: a reset, or a round on another snapshot. */
  predicate StartsOver(s: State, op: Op) {
    op.Talk? && (op.talk.OpReset?
                 || (op.talk.OpStartGrillRound? && (s.round.None? || s.round.value.snapshot != op.talk.snapshot)))
  }

  /** How many confirmations were given since the last start. */
  function Confirmations(ops: seq<Op>): nat {
    if ops == [] || StartsOver(Run(Before(ops)), Last(ops)) then 0
    else Confirmations(Before(ops)) + if IsHeardBy(Run(Before(ops)), Last(ops), GrillConfirmation) then 1 else 0
  }

  /** The last checkpoint was answered with one more, and nothing was confirmed since. */
  predicate OneMoreAsked(ops: seq<Op>) {
    && ops != [] && !StartsOver(Run(Before(ops)), Last(ops))
    && !IsHeardBy(Run(Before(ops)), Last(ops), GrillConfirmation)
    && if IsHeardBy(Run(Before(ops)), Last(ops), GrillCheckpoint) then Trim(Last(ops).talk.answer) == "continue_one"
       else OneMoreAsked(Before(ops))
  }

  predicate SameCounts(a: Answers, b: Answers) { a.accepted == b.accepted && a.checkpointPending == b.checkpointPending }

  lemma GrillCounts(s: State, w: WaitUserQuestion)
    requires s.round.Some?
    ensures AnswerGrill(s, w).state.answers.accepted == s.answers.accepted + 1
    ensures !AnswerGrill(s, w).state.answers.checkpointPending
  {
  }

  lemma CheckpointCounts(s: State, answer: string)
    ensures AnswerCheckpoint(s, answer).state.answers.accepted == s.answers.accepted
    ensures AnswerCheckpoint(s, answer).state.answers.checkpointPending <==> Trim(answer) == "continue_one"
  {
  }

  lemma PlainCounts(s: State, w: WaitUserQuestion)
    requires !w.kind.GrillConfirmation? && !w.kind.GrillCheckpoint?
    ensures SameCounts(Answered(s, w).state.answers, s.answers)
  {
  }

  lemma {:induction false} AnswerCounts(s: State, w: WaitUserQuestion, answer: string)
    requires w.kind.GrillConfirmation? ==> s.round.Some?
    ensures
      var a := AnswerQuestion(s, w, answer).state.answers;
      && a.accepted == s.answers.accepted + (if w.kind.GrillConfirmation? then 1 else 0)
      && (a.checkpointPending <==>
            if w.kind.GrillConfirmation? then false
            else if w.kind.GrillCheckpoint? then Trim(answer) == "continue_one" else s.answers.checkpointPending)
  {
    var remembered := s.(answers := Remember(s.answers, w, answer));
    if w.kind.GrillCheckpoint? {
      CheckpointCounts(s, answer);
    } else if w.kind.GrillConfirmation? {
      GrillCounts(remembered, w);
    } else {
      PlainCounts(remembered, w);
    }
  }

  lemma {:induction false} TalkCounts(s: State, op: TalkOp)
    requires WaitsWithQuestion(s.flow) && !StartsOver(s, Talk(op))
    ensures
      var a := ApplyTalk(s, op).state.answers;
      && a.accepted == s.answers.accepted + (if IsHeardBy(s, Talk(op), GrillConfirmation) then 1 else 0)
      && (a.checkpointPending <==>
            if IsHeardBy(s, Talk(op), GrillConfirmation) then false
            else if IsHeardBy(s, Talk(op), GrillCheckpoint) then Trim(op.answer) == "continue_one"
            else s.answers.checkpointPending)
  {
    if op.OpRecordAnswer? && AtStage(s.flow, WaitUser) {
      var w := s.flow.ui.waitUser.value;
      if Listens(s, w, op.answer) {
        Heard(s, w, op.answer);
        AnswerCounts(s, w, op.answer);
      } else {
        UnheardChangesNothing(s, w, op.answer);
      }
    } else {
      OtherTalkCounts(s, op);
    }
  }

  lemma OtherTalkCounts(s: State, op: TalkOp)
    requires !StartsOver(s, Talk(op)) && (op.OpRecordAnswer? ==> !AtStage(s.flow, WaitUser))
    ensures SameCounts(ApplyTalk(s, op).state.answers, s.answers)
  {
  }

  lemma CompletionCounts(s: State, identity: DeepIdentity, result: DeepResult)
    ensures CompleteUnderstanding(s, identity, result).state.answers == s.answers
    ensures CompleteDeepKnowledge(s, identity).state.answers == s.answers
  {
  }

  lemma HelpCounts(s: State, identity: DeepIdentity, result: DeepResult)
    ensures HandleDeepResult(s, identity, result).state.answers == s.answers
  {
    CompletionCounts(s, identity, result);
  }

  lemma {:induction false} DeepCounts(s: State, op: DeepOp)
    ensures ApplyDeep(s, op).state.answers == s.answers
  {
    if op.OpHandleDeepResult? {
      HelpCounts(s, op.identity, op.result);
    }
  }

  lemma BuildCounts(s: State, op: BuildOp)
    ensures ApplyBuild(s, op).state.answers == s.answers
  {
  }

  lemma {:induction false} RunCounts(ops: seq<Op>)
    ensures Run(ops).answers.accepted == Confirmations(ops) && (Run(ops).answers.checkpointPending <==> OneMoreAsked(ops))
  {
    if ops != [] {
      var s := Run(Before(ops));
      RunCounts(Before(ops));
      RunWaitsWithQuestion(Before(ops));
      if StartsOver(s, Last(ops)) {
        StartCounts(s, Last(ops).talk);
      } else {
        match Last(ops)
        case Talk(talk) => TalkCounts(s, talk);
        case Deep(deep) => DeepCounts(s, deep);
        case Make(build) => BuildCounts(s, build);
        case Search(search) => SearchKeepsAllElse(s, search);
      }
    }
  }

  lemma StartCounts(s: State, op: TalkOp)
    requires StartsOver(s, Talk(op))
    ensures ApplyTalk(s, op).state.answers.accepted == 0 && !ApplyTalk(s, op).state.answers.checkpointPending
  {
  }

  lemma ConfirmationLeadsTo(s: State, answer: string)
    requires IsHeardBy(s, Talk(OpRecordAnswer(answer)), GrillConfirmation)
    ensures
      var t := RecordAnswer(s, answer).state;
      if s.answers.accepted == 7 || s.answers.checkpointPending then AtCheckpoint(t) else Rests(t, Grill)
  {
    AnswerLeadsTo(s, s.flow.ui.waitUser.value, answer);
  }

  lemma AppliesAnswer(ops: seq<Op>, answer: string)
    ensures Run(ops + [Talk(OpRecordAnswer(answer))]) == RecordAnswer(Run(ops), answer).state
  {
    RunMore(ops, Talk(OpRecordAnswer(answer)));
  }

  /** In every run, a confirmation leads to the checkpoint exactly if it is the eighth since the last start, or the first
      after a checkpoint that was answered with one more; any other leads back to GRILL. */
  lemma {:induction false} CheckpointAtTheEighth(ops: seq<Op>, answer: string)
    requires IsHeardBy(Run(ops), Talk(OpRecordAnswer(answer)), GrillConfirmation)
    ensures
      var t := Run(ops + [Talk(OpRecordAnswer(answer))]);
      if Confirmations(ops) + 1 == 8 || OneMoreAsked(ops) then AtCheckpoint(t) else Rests(t, Grill)
  {
    RunCounts(ops);
    AppliesAnswer(ops, answer);
    ConfirmationLeadsTo(Run(ops), answer);
  }

  // ----- Missing evidence, over whole runs -----

  /** The live attempt reports that evidence is missing. */
  predicate ReportsMissing(s: State, op: Op) {
    && op.Deep? && op.deep.OpHandleDeepResult? && op.deep.result.NeedsDiscovery?
    && s.deep.attempt == Some(op.deep.identity)
  }

  /** How often evidence was reported missing since the deep work was last cancelled, or everything reset. */
  function MissingReports(ops: seq<Op>): nat {
    if ops == [] then 0
    else if (Last(ops).Deep? && Last(ops).deep.OpCancelDeepKnowledge?) || (Last(ops).Talk? && Last(ops).talk.OpReset?) then 0
    else MissingReports(Before(ops)) + if ReportsMissing(Run(Before(ops)), Last(ops)) then 1 else 0
  }

  lemma AnswerKeepsReports(s: State, answer: string)
    ensures RecordAnswer(s, answer).state.deep == s.deep
  {
    RecordAnswerSame(s, answer);
  }

  lemma {:induction false} TalkKeepsReports(s: State, op: TalkOp)
    requires !op.OpReset?
    ensures ApplyTalk(s, op).state.deep.needsDiscovery == s.deep.needsDiscovery
  {
    match op
    case OpRecordAnswer(answer) => AnswerKeepsReports(s, answer);
    case OpRequireWaitUser(payload) => RequireWaitUserSame(s, payload);
    case _ =>
  }

  lemma CompletionKeepsReports(s: State, identity: DeepIdentity, result: DeepResult)
    ensures CompleteUnderstanding(s, identity, result).state.deep.needsDiscovery == s.deep.needsDiscovery
    ensures CompleteDeepKnowledge(s, identity).state.deep.needsDiscovery == s.deep.needsDiscovery
  {
  }

  lemma HandleReports(s: State, identity: DeepIdentity, result: DeepResult)
    ensures HandleDeepResult(s, identity, result).state.deep.needsDiscovery ==
              s.deep.needsDiscovery + if result.NeedsDiscovery? && s.deep.attempt == Some(identity) then 1 else 0
  {
    CompletionKeepsReports(s, identity, result);
  }

  lemma {:induction false} DeepKeepsReports(s: State, op: DeepOp)
    requires !op.OpCancelDeepKnowledge?
    ensures ApplyDeep(s, op).state.deep.needsDiscovery ==
              s.deep.needsDiscovery + if ReportsMissing(s, Deep(op)) then 1 else 0
  {
    match op
    case OpHandleDeepResult(identity, result) => HandleReports(s, identity, result);
    case OpCompleteDeepKnowledge(identity) => CompletionKeepsReports(s, identity, CompletedRetrieval([]));
    case _ =>
  }

  lemma BuildKeepsReports(s: State, op: BuildOp)
    ensures ApplyBuild(s, op).state.deep == s.deep
  {
  }

  lemma {:induction false} RunReports(ops: seq<Op>)
    ensures Run(ops).deep.needsDiscovery == MissingReports(ops)
  {
    if ops != [] {
      var s := Run(Before(ops));
      RunReports(Before(ops));
      match Last(ops)
      case Talk(talk) => if !talk.OpReset? { TalkKeepsReports(s, talk); }
      case Deep(deep) => if !deep.OpCancelDeepKnowledge? { DeepKeepsReports(s, deep); }
      case Make(build) => BuildKeepsReports(s, build);
      case Search(search) => SearchKeepsAllElse(s, search);
    }
  }

  /** In every run, the first time the deep work reports missing evidence the workflow goes back to discovery, and from
      the second time on it asks the user whether to go on with what there is. */
  lemma {:induction false} SecondReportAsks(ops: seq<Op>, identity: DeepIdentity, fetched: seq<string>)
    requires Run(ops).deep.attempt == Some(identity)
    requires AtStage(Run(ops).flow, DeepRetrieval) || AtStage(Run(ops).flow, KnowledgeUnderstanding)
    ensures
      var t := Run(ops + [Deep(OpHandleDeepResult(identity, NeedsDiscovery(fetched)))]);
      t.deep.attempt.None? &&
      if MissingReports(ops) == 0 then Rests(t, LightDiscovery)
      else AtStage(t.flow, WaitUser) && t.flow.ui.waitUser.Some? && t.flow.ui.waitUser.value.kind.DeepDiscoveryFallback?
           && t.flow.ui.waitUser.value.evidenceIds == fetched
  {
    RunReports(ops);
    AppliesReport(ops, identity, fetched);
    ReportLeadsTo(Run(ops), identity, fetched);
  }

  lemma AppliesReport(ops: seq<Op>, identity: DeepIdentity, fetched: seq<string>)
    ensures Run(ops + [Deep(OpHandleDeepResult(identity, NeedsDiscovery(fetched)))]) == NeedDiscovery(Run(ops), identity, fetched).state
  {
    RunMore(ops, Deep(OpHandleDeepResult(identity, NeedsDiscovery(fetched))));
  }

  lemma ReportLeadsTo(s: State, identity: DeepIdentity, fetched: seq<string>)
    requires s.deep.attempt == Some(identity)
    requires AtStage(s.flow, DeepRetrieval) || AtStage(s.flow, KnowledgeUnderstanding)
    ensures
      var t := NeedDiscovery(s, identity, fetched).state;
      t.deep.attempt.None? &&
      if s.deep.needsDiscovery == 0 then Rests(t, LightDiscovery)
      else AtStage(t.flow, WaitUser) && t.flow.ui.waitUser.Some? && t.flow.ui.waitUser.value.kind.DeepDiscoveryFallback?
           && t.flow.ui.waitUser.value.evidenceIds == fetched
  {
  }

  // ----- Interruptions -----

  /** Deep work that is cancelled is taken up again in the phase it was in. */
  lemma CancelThenRetry(s: State)
    requires s.deep.attempt.Some? && s.round.Some?
    ensures
      var cancelled := CancelDeepKnowledge(s).state;
      && cancelled.deep.attempt.None? && cancelled.build.package.None?
      && Works(RetryDeepKnowledge(cancelled).state, s.deep.attempt.value.phase)
  {
    CancelRemembers(s);
    ResumesPhase(CancelDeepKnowledge(s).state, s.deep.attempt.value.phase);
  }

  lemma CancelRemembers(s: State)
    requires s.deep.attempt.Some? && s.round.Some?
    ensures
      var t := CancelDeepKnowledge(s).state;
      && t.round == s.round && t.deep.retryPhase.None? && t.deep.resumablePhase == Some(s.deep.attempt.value.phase)
      && t.deep.attempt.None? && t.build.package.None?
  {
  }

  lemma ResumesPhase(s: State, phase: Phase)
    requires s.round.Some? && s.deep.retryPhase.None? && s.deep.resumablePhase == Some(phase)
    ensures Works(RetryDeepKnowledge(s).state, phase)
  {
  }

  /** A round that was left unfinished is given back once; the next omission is noticed again. */
  lemma OmissionThenRetry(s: State)
    requires s.round.Some? && !s.omissionRecorded
    ensures
      var noticed := RecordCompletionOmission(s);
      var again := RetryGrillRound(noticed.state);
      && noticed.reply == Recorded(true) && RecordCompletionOmission(noticed.state) == Outcome(noticed.state, Recorded(false))
      && again.reply == Round(s.round.value) && RetryGrillRound(again.state).reply == NoRound
      && RecordCompletionOmission(again.state).reply == Recorded(true)
  {
  }

  /** A pending question may be confirmed as it stands, and deep work may begin in either phase; or turned down, and the
      round goes on; neither counts as an answer. */
  lemma ConfirmOrReject(s: State, w: WaitUserQuestion, phase: Phase)
    requires Waits(s, w) && s.round.Some?
    ensures
      var confirmed, rejected := Confirm(s).state, Reject(s).state;
      && Rests(confirmed, UserConfirmed) && Works(BeginDeepKnowledge(confirmed, phase).state, phase)
      && Rests(rejected, Grill) && rejected.flow.ui.repair == Some(UserRejectedRecommendation)
      && confirmed.answers == s.answers && rejected.answers == s.answers
      && confirmed.build == s.build && rejected.build == s.build
  {
    assert Rests(Confirm(s).state, UserConfirmed);
  }

  /** A finalization that is refused changes nothing, and the same attempt may be finalized later. */
  lemma FinalizeAgain(s: State, identity: BuildIdentity, commit: DocumentsCommitted, hash: string)
    requires AtStage(s.flow, AdrBuild) && s.build.adrAttempt == Some(identity) && s.build.adrCandidate.Some?
    requires IsSha256(hash)
    ensures FinalizeAdrBuild(s, identity, commit).reply == Accepted <==>
              commit.DocumentsCommitted? && IsSha256(commit.baseHash)
    ensures FinalizeAdrBuild(s, identity, commit).reply != Accepted ==>
              && FinalizeAdrBuild(s, identity, commit).state == s
              && FinalizeAdrBuild(s, identity, DocumentsCommitted(hash)).reply == Accepted
  {
  }

  /** The snapshot of the last round that was started, unless everything was reset since. */
  function LastSnapshot(ops: seq<Op>): Option<nat> {
    if ops == [] then None
    else if Last(ops).Talk? && Last(ops).talk.OpReset? then None
    else if Last(ops).Talk? && Last(ops).talk.OpStartGrillRound? then Some(Last(ops).talk.snapshot)
    else LastSnapshot(Before(ops))
  }

  lemma {:induction false} StepKeepsRound(s: State, op: Op)
    requires !(op.Talk? && (op.talk.OpReset? || op.talk.OpStartGrillRound?))
    ensures Apply(s, op).state.round == s.round
  {
    match op
    case Talk(talk) =>
      if talk.OpRecordAnswer? {
        RecordAnswerSame(s, talk.answer);
      } else if talk.OpRequireWaitUser? {
        RequireWaitUserSame(s, talk.payload);
      }
    case Deep(deep) => DeepKeepsRound(s, deep);
    case Make(build) =>
    case Search(search) => SearchKeepsAllElse(s, search);
  }

  lemma DeepKeepsRound(s: State, op: DeepOp)
    ensures ApplyDeep(s, op).state.round == s.round
  {
    if op.OpHandleDeepResult? {
      HandleKeepsRound(s, op.identity, op.result);
    }
  }

  lemma HandleKeepsRound(s: State, identity: DeepIdentity, result: DeepResult)
    ensures HandleDeepResult(s, identity, result).state.round == s.round
  {
    CompleteUnderstandingEnds(s, identity, result);
  }

  lemma {:induction false} RunSnapshot(ops: seq<Op>)
    ensures LastSnapshot(ops) == if Run(ops).round.Some? then Some(Run(ops).round.value.snapshot) else None
  {
    if ops != [] {
      RunSnapshot(Before(ops));
      if !(Last(ops).Talk? && (Last(ops).talk.OpReset? || Last(ops).talk.OpStartGrillRound?)) {
        StepKeepsRound(Run(Before(ops)), Last(ops));
      }
    }
  }

  /** In every run, a round on the snapshot of the last one keeps what was built and decided; on any other it starts from
      nothing, but for the keys of what was answered. */
  lemma {:induction false} SameSnapshotKeeps(ops: seq<Op>, request: string, snapshot: nat)
    ensures
      var s, t := Run(ops), Run(ops + [Talk(OpStartGrillRound(request, snapshot))]);
      && t.round.Some? && t.round.value.snapshot == snapshot && t.round.value.request == request
      && t.deep.attempt.None? && t.answers.keys == s.answers.keys
      && (t.round.value.isFirstRoundOfSnapshot <==> LastSnapshot(ops) != Some(snapshot))
      && if LastSnapshot(ops) == Some(snapshot) then t.build == s.build && t.answers == s.answers
         else t.build == NO_BUILD && t.answers.decisions == map[] && t.answers.accepted == 0
  {
    RunSnapshot(ops);
    RunMore(ops, Talk(OpStartGrillRound(request, snapshot)));
  }
}
