/** Identities: which round and attempt a session works for, and which results it still listens to. */
module ForgeIdentity {
  import opened Text
  import opened Stages
  import opened ForgeState
  import opened ForgeSafety

  /** `id` was issued by the deep counter before it reached `below`. */
  predicate DeepIssued(id: string, below: nat) {
    exists n: nat :: n < below && id == DeepAttemptId(n)
  }

  predicate RoundIssued(id: string, below: nat) {
    exists n: nat :: n < below && id == RoundId(n)
  }

  lemma DeepIdsDiffer(m: nat, n: nat)
    requires m != n
    ensures DeepAttemptId(m) != DeepAttemptId(n)
  {
    if DeepAttemptId(m) == DeepAttemptId(n) {
      assert Decimal(m) == DeepAttemptId(m)[5..] && Decimal(n) == DeepAttemptId(n)[5..];
      DecimalInjective(m, n);
    }
  }

  lemma RoundIdsDiffer(m: nat, n: nat)
    requires m != n
    ensures RoundId(m) != RoundId(n)
  {
    if RoundId(m) == RoundId(n) {
      assert Decimal(m) == RoundId(m)[6..] && Decimal(n) == RoundId(n)[6..];
      DecimalInjective(m, n);
    }
  }

  lemma NextDeepIsNew(id: string, n: nat)
    requires DeepIssued(id, n)
    ensures id != DeepAttemptId(n)
  {
    var m: nat :| m < n && id == DeepAttemptId(m);
    DeepIdsDiffer(m, n);
  }

  lemma NextRoundIsNew(id: string, n: nat)
    requires RoundIssued(id, n)
    ensures id != RoundId(n)
  {
    var m: nat :| m < n && id == RoundId(m);
    RoundIdsDiffer(m, n);
  }

  // ----- How a step may change the round and the attempt -----

  /** None of the four counters falls. */
  predicate CountersGrow(m: Counters, n: Counters) {
    m.round <= n.round && m.deep <= n.deep && m.context <= n.context && m.adr <= n.adr
  }

  predicate RoundStep(s: State, t: State) {
    && CountersGrow(s.next, t.next)
    && (t.round.Some? ==>
          || t.round == s.round
          || (t.round.value.roundId == RoundId(s.next.round) && t.next.round == s.next.round + 1))
  }

  /** The attempt goes on, at most moving from retrieval to understanding. */
  predicate SameAttempt(a: DeepIdentity, b: DeepIdentity) {
    && a.attemptId == b.attemptId && a.sourceRoundId == b.sourceRoundId
    && (a.phase == b.phase || (a.phase.RetrievalPhase? && b.phase.UnderstandingPhase?))
  }

  predicate NewAttempt(s: State, t: State)
    requires t.deep.attempt.Some?
  {
    && t.deep.attempt.value.attemptId == DeepAttemptId(s.next.deep) && t.next.deep == s.next.deep + 1
    && t.round.Some? && t.deep.attempt.value.sourceRoundId == t.round.value.roundId
  }

  predicate AttemptStep(s: State, t: State) {
    && s.next.deep <= t.next.deep
    && (t.deep.attempt.Some? ==>
          || (s.deep.attempt.Some? && t.round == s.round && SameAttempt(s.deep.attempt.value, t.deep.attempt.value))
          || NewAttempt(s, t))
  }

  /** Neither the round, nor the deep work, nor their counters and budget are touched. */
  predicate SameWork(s: State, t: State) {
    && t.budget == s.budget && t.round == s.round && t.deep == s.deep
    && t.next.round == s.next.round && t.next.deep == s.next.deep && CountersGrow(s.next, t.next)
  }

  lemma SameWorkSteps(s: State, t: State)
    requires SameWork(s, t)
    ensures RoundStep(s, t) && AttemptStep(s, t)
  {
  }

  lemma AnsweredToSame(s: State, next: Stage)
    ensures SameWork(s, AnsweredTo(s, next).state)
  {
  }

  lemma AnswerGrillSame(s: State, w: WaitUserQuestion)
    ensures SameWork(s, AnswerGrill(s, w).state)
  {
  }

  lemma AnswerCheckpointSame(s: State, answer: string)
    ensures SameWork(s, AnswerCheckpoint(s, answer).state)
  {
  }

  lemma AnswerBuildSame(s: State, w: WaitUserQuestion)
    ensures SameWork(s, AnswerContext(s, w).state) && SameWork(s, AnswerAdr(s, w).state)
  {
  }

  lemma AnswerQuestionSame(s: State, w: WaitUserQuestion, answer: string)
    ensures SameWork(s, AnswerQuestion(s, w, answer).state)
  {
    if w.kind.GrillCheckpoint? {
      AnswerCheckpointSame(s, answer);
    } else {
      var c := s.(answers := Remember(s.answers, w, answer));
      AnswerGrillSame(c, w);
      AnswerBuildSame(c, w);
      AnsweredToSame(c, Grill);
    }
  }

  lemma {:induction false} RecordAnswerSame(s: State, answer: string)
    ensures SameWork(s, RecordAnswer(s, answer).state)
  {
    if AtStage(s.flow, WaitUser) && s.flow.ui.waitUser.Some? {
      AnswerQuestionSame(s, s.flow.ui.waitUser.value, answer);
    }
  }

  lemma AskUserSame(s: State, payload: WaitUserQuestion)
    ensures SameWork(s, AskUser(s, payload).state)
  {
  }

  lemma RequireWaitUserSame(s: State, payload: WaitUserQuestion)
    ensures SameWork(s, RequireWaitUser(s, payload).state)
  {
    if !PayloadMalformed(payload) {
      AskUserSame(s, payload);
    }
  }

  lemma CompleteDeepKnowledgeSteps(s: State, identity: DeepIdentity)
    ensures RoundStep(s, CompleteDeepKnowledge(s, identity).state)
    ensures AttemptStep(s, CompleteDeepKnowledge(s, identity).state)
  {
  }

  /** The round and the budget stay, and the attempt is kept or given up. */
  predicate WorkEnds(s: State, t: State) {
    && t.budget == s.budget && t.round == s.round
    && t.next.round == s.next.round && t.next.deep == s.next.deep && CountersGrow(s.next, t.next)
    && (t.deep.attempt == s.deep.attempt || t.deep.attempt.None?)
  }

  lemma WorkEndsSteps(s: State, t: State)
    requires WorkEnds(s, t)
    ensures RoundStep(s, t) && AttemptStep(s, t)
  {
  }

  lemma CompleteUnderstandingEnds(s: State, identity: DeepIdentity, result: DeepResult)
    ensures WorkEnds(s, CompleteUnderstanding(s, identity, result).state)
  {
  }

  lemma AskingEnds(s: State, identity: DeepIdentity, result: DeepResult)
    ensures result.NeedsDecision? ==> WorkEnds(s, NeedDecision(s, identity, result).state)
    ensures result.NeedsDiscovery? ==> WorkEnds(s, NeedDiscovery(s, identity, result.fetchedEvidenceIds).state)
  {
  }

  lemma HandleDeepResultSteps(s: State, identity: DeepIdentity, result: DeepResult)
    ensures RoundStep(s, HandleDeepResult(s, identity, result).state)
    ensures AttemptStep(s, HandleDeepResult(s, identity, result).state)
  {
    if result.NeedsDecision? || result.NeedsDiscovery? {
      AskingEnds(s, identity, result);
      WorkEndsSteps(s, HandleDeepResult(s, identity, result).state);
    } else if identity.phase.UnderstandingPhase? {
      CompleteUnderstandingEnds(s, identity, result);
      WorkEndsSteps(s, CompleteUnderstanding(s, identity, result).state);
    } else {
      CompleteDeepKnowledgeSteps(s, identity);
    }
  }

  lemma {:induction false} TalkSteps(s: State, op: TalkOp)
    ensures RoundStep(s, ApplyTalk(s, op).state) && AttemptStep(s, ApplyTalk(s, op).state)
  {
    match op
    case OpRecordAnswer(answer) =>
      RecordAnswerSame(s, answer);
      SameWorkSteps(s, RecordAnswer(s, answer).state);
    case OpRequireWaitUser(payload) =>
      RequireWaitUserSame(s, payload);
      SameWorkSteps(s, RequireWaitUser(s, payload).state);
    case _ =>
  }

  lemma {:induction false} DeepSteps(s: State, op: DeepOp)
    ensures RoundStep(s, ApplyDeep(s, op).state) && AttemptStep(s, ApplyDeep(s, op).state)
  {
    match op
    case OpHandleDeepResult(identity, result) => HandleDeepResultSteps(s, identity, result);
    case _ =>
  }

  lemma BuildSteps(s: State, op: BuildOp)
    ensures RoundStep(s, ApplyBuild(s, op).state) && AttemptStep(s, ApplyBuild(s, op).state)
  {
  }

  lemma {:induction false} StepSteps(s: State, op: Op)
    ensures RoundStep(s, Apply(s, op).state) && AttemptStep(s, Apply(s, op).state)
  {
    match op
    case Talk(talk) => TalkSteps(s, talk);
    case Deep(deep) => DeepSteps(s, deep);
    case Make(build) => BuildSteps(s, build);
    case Search(search) => SearchKeepsAllElse(s, search);
  }

  // ----- What every run keeps -----

  /** The live attempt belongs to the current round, and both carry identities that were really issued. */
  predicate IdentitiesSound(s: State) {
    && (s.round.Some? ==> RoundIssued(s.round.value.roundId, s.next.round))
    && (s.deep.attempt.Some? ==>
          && s.round.Some? && s.deep.attempt.value.sourceRoundId == s.round.value.roundId
          && DeepIssued(s.deep.attempt.value.attemptId, s.next.deep))
  }

  lemma IssuedStays(id: string, m: nat, n: nat)
    requires m <= n
    ensures DeepIssued(id, m) ==> DeepIssued(id, n)
    ensures RoundIssued(id, m) ==> RoundIssued(id, n)
  {
    if DeepIssued(id, m) {
      var k: nat :| k < m && id == DeepAttemptId(k);
      assert k < n;
    }
    if RoundIssued(id, m) {
      var k: nat :| k < m && id == RoundId(k);
      assert k < n;
    }
  }

  lemma StepsKeepIdentities(s: State, t: State)
    requires IdentitiesSound(s) && RoundStep(s, t) && AttemptStep(s, t)
    ensures IdentitiesSound(t)
  {
    if t.round.Some? && t.round == s.round {
      IssuedStays(t.round.value.roundId, s.next.round, t.next.round);
    }
    if t.deep.attempt.Some? && s.deep.attempt.Some? {
      IssuedStays(s.deep.attempt.value.attemptId, s.next.deep, t.next.deep);
    }
  }

  lemma {:induction false} RunIdentitiesSound(ops: seq<Op>)
    ensures IdentitiesSound(Run(ops))
  {
    if ops != [] {
      RunIdentitiesSound(Before(ops));
      StepSteps(Run(Before(ops)), Last(ops));
      StepsKeepIdentities(Run(Before(ops)), Run(ops));
    }
  }

  /** In every run a live deep attempt belongs to the current Grill round. */
  lemma {:induction false} LiveAttemptBelongsToRound(ops: seq<Op>)
    requires Run(ops).deep.attempt.Some?
    ensures Run(ops).round.Some?
    ensures Run(ops).deep.attempt.value.sourceRoundId == Run(ops).round.value.roundId
  {
    RunIdentitiesSound(ops);
  }

  /** The counters that issue identities never fall, whatever happens, resets included. */
  lemma {:induction false} CountersNeverFall(ops: seq<Op>, more: seq<Op>)
    requires ops <= more
    ensures CountersGrow(Run(ops).next, Run(more).next)
    decreases |more|
  {
    if ops == more {
    } else {
      assert ops <= Before(more);
      CountersNeverFall(ops, Before(more));
      StepSteps(Run(Before(more)), Last(more));
    }
  }

  /** The attempt that is live after the call was not live before it. */
  predicate IssuesAttempt(s: State, t: State) {
    t.deep.attempt.Some? && (s.deep.attempt.None? || s.deep.attempt.value.attemptId != t.deep.attempt.value.attemptId)
  }

  /** An attempt id is never issued twice, not even after a reset: the id of a new attempt differs from that of every
      attempt that was live at any earlier moment of the run. */
  lemma {:induction false} AttemptIdsNeverReissued(ops: seq<Op>, more: seq<Op>, op: Op)
    requires ops <= more && Run(ops).deep.attempt.Some?
    requires IssuesAttempt(Run(more), Apply(Run(more), op).state)
    ensures Apply(Run(more), op).state.deep.attempt.value.attemptId != Run(ops).deep.attempt.value.attemptId
  {
    StepSteps(Run(more), op);
    NewIdIsNew(ops, more);
  }

  lemma {:induction false} NewIdIsNew(ops: seq<Op>, more: seq<Op>)
    requires ops <= more && Run(ops).deep.attempt.Some?
    ensures Run(ops).deep.attempt.value.attemptId != DeepAttemptId(Run(more).next.deep)
  {
    RunIdentitiesSound(ops);
    CountersNeverFall(ops, more);
    IssuedStays(Run(ops).deep.attempt.value.attemptId, Run(ops).next.deep, Run(more).next.deep);
    NextDeepIsNew(Run(ops).deep.attempt.value.attemptId, Run(more).next.deep);
  }

  // ----- A result is accepted once -----

  /** `identity` was issued, is not live, and can never be live again. */
  predicate Spent(s: State, identity: DeepIdentity) {
    && DeepIssued(identity.attemptId, s.next.deep)
    && (s.deep.attempt.Some? && s.deep.attempt.value.attemptId == identity.attemptId ==>
          s.deep.attempt.value.phase.UnderstandingPhase? && identity.phase.RetrievalPhase?)
  }

  lemma StepsKeepSpent(s: State, t: State, identity: DeepIdentity)
    requires Spent(s, identity) && AttemptStep(s, t)
    ensures Spent(t, identity)
  {
    IssuedStays(identity.attemptId, s.next.deep, t.next.deep);
    NextDeepIsNew(identity.attemptId, s.next.deep);
  }

  lemma {:induction false} SpentForGood(ops: seq<Op>, more: seq<Op>, identity: DeepIdentity)
    requires ops <= more && Spent(Run(ops), identity)
    ensures Spent(Run(more), identity)
    decreases |more|
  {
    if ops == more {
    } else {
      assert ops <= Before(more);
      SpentForGood(ops, Before(more), identity);
      StepSteps(Run(Before(more)), Last(more));
      StepsKeepSpent(Run(Before(more)), Run(more), identity);
    }
  }

  lemma AcceptedIsSpent(s: State, identity: DeepIdentity, result: DeepResult)
    requires IdentitiesSound(s) && HandleDeepResult(s, identity, result).reply == Accepted
    ensures Spent(HandleDeepResult(s, identity, result).state, identity)
  {
  }

  /** A result for any identity but the live one is answered "stale" or "invalid" and changes nothing at all. */
  lemma OthersChangeNothing(s: State, identity: DeepIdentity, result: DeepResult)
    requires !IsLive(s, identity)
    ensures HandleDeepResult(s, identity, result).state == s
    ensures HandleDeepResult(s, identity, result).reply in {Stale, Invalid}
  {
  }

  /** Once a result has been accepted for an identity, no later result for it is accepted, or changes anything,
      whatever happens in between. */
  lemma {:induction false} ResultAcceptedOnce(ops: seq<Op>, more: seq<Op>, identity: DeepIdentity,
                                              first: DeepResult, second: DeepResult)
    requires HandleDeepResult(Run(ops), identity, first).reply == Accepted
    requires ops + [Deep(OpHandleDeepResult(identity, first))] <= more
    ensures HandleDeepResult(Run(more), identity, second).reply in {Stale, Invalid}
    ensures HandleDeepResult(Run(more), identity, second).state == Run(more)
  {
    AcceptedStaysSpent(ops, more, identity, first);
    OthersChangeNothing(Run(more), identity, second);
  }

  lemma {:induction false} AcceptedStaysSpent(ops: seq<Op>, more: seq<Op>, identity: DeepIdentity, first: DeepResult)
    requires HandleDeepResult(Run(ops), identity, first).reply == Accepted
    requires ops + [Deep(OpHandleDeepResult(identity, first))] <= more
    ensures Spent(Run(more), identity)
  {
    RunIdentitiesSound(ops);
    AcceptedIsSpent(Run(ops), identity, first);
    RunMore(ops, Deep(OpHandleDeepResult(identity, first)));
    SpentForGood(ops + [Deep(OpHandleDeepResult(identity, first))], more, identity);
  }
}
