/** Why callers must ask only the questions they do ask: one question of the wrong kind revives a stale candidate. */
module ForgeStale {
  import opened Text
  import opened Stages
  import opened Evidence
  import opened Candidates
  import opened ForgeState
  import opened ForgeSafety
  import opened ForgeIdentity

  const DEEP_ONE := DeepIdentity(DeepAttemptId(1), RoundId(1), UnderstandingPhase)
  const CONTEXT_ONE := BuildIdentity(ContextAttemptId(1), RoundId(1))
  const ADR_ONE := BuildIdentity(AdrAttemptId(1), RoundId(1))
  /** The flow rests at `stage` with nothing being asked, in the first round, with nothing answered yet. */
  predicate Resting(s: State, stage: Stage) {
    && s.flow.orchestrator == Some(stage) && s.flow.ui.waitUser.None?
    && s.round.Some? && s.round.value.roundId == RoundId(1)
    && s.answers == NO_ANSWERS
  }

  predicate Understanding(s: State) {
    Resting(s, KnowledgeUnderstanding) && s.deep.attempt == Some(DEEP_ONE) && s.next.context == 1 && s.next.adr == 1
  }

  lemma BeginsUnderstanding()
    ensures Understanding(BeginDeepKnowledge(StartGrillRound(INITIAL, "", 0).state, UnderstandingPhase).state)
  {
  }

  predicate BuildingContext(s: State, p: EvidencePackage) {
    && Resting(s, ContextBuild) && s.next.adr == 1
    && s.build.package == Some(p) && s.build.contextAttempt == Some(CONTEXT_ONE)
  }

  lemma Understands(s: State, p: EvidencePackage)
    requires Understanding(s) && Evidence.Accepted(p)
    ensures BuildingContext(CompleteUnderstanding(s, DEEP_ONE, CompletedUnderstanding(p)).state, p)
  {
    var result := CompletedUnderstanding(p);
    assert result.CompletedUnderstanding? && result.package == p;
    assert Legal(Ensured(s.flow.orchestrator), ContextBuild);
  }

  predicate BuildingAdr(s: State, p: EvidencePackage) {
    && Resting(s, AdrBuild) && s.next.adr == 2
    && s.build.package == Some(p) && s.build.adrAttempt == Some(ADR_ONE)
  }

  lemma BuildsContext(s: State, p: EvidencePackage)
    requires BuildingContext(s, p)
    ensures BuildingAdr(CompleteContextBuild(s, CONTEXT_ONE, CompletedContext(ContextCandidate([]))).state, p)
  {
  }

  predicate MayFinalize(s: State, identity: BuildIdentity) {
    s.build.adrCandidate.Some? && s.flow.orchestrator == Some(AdrBuild) && s.build.adrAttempt == Some(identity)
  }

  lemma {:induction false} Prepares(s: State, p: EvidencePackage, c: AdrCandidate)
    requires BuildingAdr(s, p) && AdrSound(c, p.evidenceIds)
    ensures MayFinalize(PrepareAdrBuild(s, ADR_ONE, c).state, ADR_ONE)
    ensures PrepareAdrBuild(s, ADR_ONE, c).state.build.adrCandidate == Some(c)
  {
  }

  lemma Finishes(s: State, identity: BuildIdentity, hash: string)
    requires MayFinalize(s, identity) && IsSha256(hash)
    ensures EntersSpec(s, Finalizing(identity, hash))
    ensures FinalizeAdrBuild(s, identity, DocumentsCommitted(hash)).state.build.package == s.build.package
  {
  }

  // ----- The run, one call at a time -----

  const SETUP := [Talk(OpStartGrillRound("", 0)), Deep(OpBeginDeepKnowledge(UnderstandingPhase))]

  lemma RunsSetup()
    ensures Understanding(Run(SETUP))
  {
    assert SETUP[..1] == [Talk(OpStartGrillRound("", 0))] && SETUP[..1][..0] == [];
    BeginsUnderstanding();
  }

  function Understood(p: EvidencePackage): Op {
    Deep(OpHandleDeepResult(DEEP_ONE, CompletedUnderstanding(p)))
  }

  lemma AppliesUnderstanding(ops: seq<Op>, p: EvidencePackage)
    ensures Run(ops + [Understood(p)]) == CompleteUnderstanding(Run(ops), DEEP_ONE, CompletedUnderstanding(p)).state
  {
    RunMore(ops, Understood(p));
  }

  lemma {:induction false} RunsUnderstanding(ops: seq<Op>, p: EvidencePackage)
    requires Understanding(Run(ops)) && Evidence.Accepted(p)
    ensures BuildingContext(Run(ops + [Understood(p)]), p)
  {
    AppliesUnderstanding(ops, p);
    Understands(Run(ops), p);
  }

  const CONTEXT_DONE := Make(OpCompleteContextBuild(CONTEXT_ONE, CompletedContext(ContextCandidate([]))))

  lemma RunsContext(ops: seq<Op>, p: EvidencePackage)
    requires BuildingContext(Run(ops), p)
    ensures BuildingAdr(Run(ops + [CONTEXT_DONE]), p)
  {
    RunMore(ops, CONTEXT_DONE);
    BuildsContext(Run(ops), p);
  }

  lemma AppliesPrepare(s: State, c: AdrCandidate)
    ensures Apply(s, Make(OpPrepareAdrBuild(ADR_ONE, c))) == PrepareAdrBuild(s, ADR_ONE, c)
  {
  }

  lemma {:induction false} RunsPrepare(ops: seq<Op>, p: EvidencePackage, c: AdrCandidate)
    requires BuildingAdr(Run(ops), p) && AdrSound(c, p.evidenceIds)
    ensures Run(ops + [Make(OpPrepareAdrBuild(ADR_ONE, c))]).build.adrCandidate == Some(c)
    ensures MayFinalize(Run(ops + [Make(OpPrepareAdrBuild(ADR_ONE, c))]), ADR_ONE)
  {
    RunMore(ops, Make(OpPrepareAdrBuild(ADR_ONE, c)));
    AppliesPrepare(Run(ops), c);
    Prepares(Run(ops), p, c);
  }

  /** The calls up to a prepared candidate. */
  function ToCandidate(p: EvidencePackage, c: AdrCandidate): seq<Op> {
    SETUP + [Understood(p)] + [CONTEXT_DONE] + [Make(OpPrepareAdrBuild(ADR_ONE, c))]
  }

  function Finalizing(identity: BuildIdentity, hash: string): Op {
    Make(OpFinalizeAdrBuild(identity, DocumentsCommitted(hash)))
  }

  /** A candidate does get to be at hand. */
  lemma {:induction false} CandidateComes(p: EvidencePackage, c: AdrCandidate)
    requires Evidence.Accepted(p) && AdrSound(c, p.evidenceIds)
    ensures Run(ToCandidate(p, c)).build.adrCandidate == Some(c) && MayFinalize(Run(ToCandidate(p, c)), ADR_ONE)
  {
    RunsSetup();
    RunsUnderstanding(SETUP, p);
    RunsContext(SETUP + [Understood(p)], p);
    RunsPrepare(SETUP + [Understood(p)] + [CONTEXT_DONE], p, c);
  }

  /** And TO_SPEC is reached as it should be: from any accepted package and sound candidate, in a proper run. */
  lemma SpecIsReached(p: EvidencePackage, c: AdrCandidate, hash: string)
    requires Evidence.Accepted(p) && AdrSound(c, p.evidenceIds) && IsSha256(hash)
    ensures AtStage(Run(ToCandidate(p, c) + [Finalizing(ADR_ONE, hash)]).flow, ToSpec)
    ensures ProperRun(ToCandidate(p, c) + [Finalizing(ADR_ONE, hash)])
  {
    CandidateComes(p, c);
    RunsFinish(ToCandidate(p, c), ADR_ONE, hash);
    NoQuestions(p, c, hash);
    CallersAskProperly(ToCandidate(p, c) + [Finalizing(ADR_ONE, hash)]);
  }

  lemma NoQuestions(p: EvidencePackage, c: AdrCandidate, hash: string)
    ensures forall op | op in ToCandidate(p, c) + [Finalizing(ADR_ONE, hash)] ::
              op.Talk? ==> !op.talk.OpRequireWaitUser?
  {
  }

  lemma RunsFinish(ops: seq<Op>, identity: BuildIdentity, hash: string)
    requires MayFinalize(Run(ops), identity) && IsSha256(hash)
    ensures AtStage(Run(ops + [Finalizing(identity, hash)]).flow, ToSpec)
    ensures EntersSpec(Run(ops), Finalizing(identity, hash))
    ensures Run(ops + [Finalizing(identity, hash)]).build.package == Run(ops).build.package
  {
    RunMore(ops, Finalizing(identity, hash));
    Finishes(Run(ops), identity, hash);
  }

  // ----- An ADR question that is put leads to TO_SPEC, whatever the candidate -----

  /** The question is put: the workflow waits for its answer, which will be looked at. */
  predicate AdrAsked(s: State, w: WaitUserQuestion) {
    && w.kind.AdrAmbiguity? && KeyOf(w) !in s.answers.keys
    && s.flow.orchestrator == Some(WaitUser) && s.flow.ui.waitUser == Some(w)
  }

  lemma Asks(s: State, w: WaitUserQuestion)
    requires PutsAdrQuestion(s, w)
    ensures
      var t := RequireWaitUser(s, w).state;
      AdrAsked(t, w) && t.build == s.build && t.next == s.next
  {
  }

  lemma YesIsNotBlank()
    ensures Trim("y") == "y"
  {
  }

  lemma YesIsHeard(s: State, w: WaitUserQuestion)
    requires w.kind.AdrAmbiguity? && KeyOf(w) !in s.answers.keys
    ensures !AnswerIgnored(s, w, "y")
  {
    YesIsNotBlank();
  }

  lemma Hears(s: State, w: WaitUserQuestion, answer: string)
    requires AdrAsked(s, w) && !AnswerIgnored(s, w, answer)
    ensures RecordAnswer(s, answer) == AnswerQuestion(s, w, answer)
  {
  }

  /** The answer has been given, and the decision records may be finalized as they are. */
  predicate Revived(s: State, t: State, w: WaitUserQuestion) {
    && MayFinalize(t, BuildIdentity(AdrAttemptId(s.next.adr), w.roundId))
    && t.build.package == s.build.package && t.build.adrCandidate == s.build.adrCandidate
  }

  lemma Revives(s: State, w: WaitUserQuestion, answer: string)
    requires AdrAsked(s, w) && s.build.adrCandidate.Some?
    ensures Revived(s, AnswerQuestion(s, w, answer).state, w)
  {
  }

  function AfterYes(s: State, w: WaitUserQuestion): State { RecordAnswer(RequireWaitUser(s, w).state, "y").state }

  lemma {:induction false} YesRevives(s: State, w: WaitUserQuestion)
    requires PutsAdrQuestion(s, w) && s.build.adrCandidate.Some?
    ensures Revived(s, AfterYes(s, w), w)
  {
    var t := RequireWaitUser(s, w).state;
    Asks(s, w);
    YesIsHeard(t, w);
    Hears(t, w, "y");
    Revives(t, w, "y");
  }

  // ----- Asking properly is exactly what is needed -----

  /** The call takes the workflow to TO_SPEC without an accepted package that the records validate against. */
  predicate EntersUnready(s: State, op: Op) { EntersSpec(s, op) && !ReadyForSpec(s.build) }

  /** Whatever the user says and whatever is finalized next, TO_SPEC is not entered unready. */
  ghost predicate SafeNext(s: State) {
    forall answer: string, op: Op :: !EntersUnready(RecordAnswer(s, answer).state, op)
  }

  ghost predicate AlwaysSafe(ops: seq<Op>) {
    SafeNext(Run(ops)) && (ops == [] || AlwaysSafe(Before(ops)))
  }

  lemma ChainIsSafe(s: State)
    requires ChainSound(s)
    ensures SafeNext(s)
  {
    forall answer: string, op: Op
      ensures !EntersUnready(RecordAnswer(s, answer).state, op)
    {
      var t := RecordAnswer(s, answer).state;
      RecordAnswerIsHarmless(s, answer);
      HarmlessKeepsChain(s, t);
      StepOffSpec(t, op);
    }
  }

  /** An improper question, an answer and a finalization: TO_SPEC is entered unready. */
  lemma {:induction false} ImproperIsUnsafe(s: State, op: Op)
    requires !AskedProperly(s, op)
    ensures !SafeNext(Apply(s, op).state)
  {
    var w := op.talk.payload;
    YesRevives(s, w);
    UnreadyFinish(s, AfterYes(s, w), w);
    AppliesQuestion(s, w);
  }

  lemma AppliesQuestion(s: State, w: WaitUserQuestion)
    ensures Apply(s, Talk(OpRequireWaitUser(w))).state == RequireWaitUser(s, w).state
  {
  }

  lemma UnreadyFinish(s: State, t: State, w: WaitUserQuestion)
    requires Revived(s, t, w) && !Fits(s.build)
    ensures EntersUnready(t, Finalizing(BuildIdentity(AdrAttemptId(s.next.adr), w.roundId), SomeHash()))
  {
    Finishes(t, BuildIdentity(AdrAttemptId(s.next.adr), w.roundId), SomeHash());
  }

  function SomeHash(): (hash: string)
    ensures IsSha256(hash)
  {
    seq(64, i => 'a')
  }

  /** A run is proper exactly if at no moment of it an answer and a call can enter TO_SPEC unready. */
  lemma {:induction false} ProperIffAlwaysSafe(ops: seq<Op>)
    ensures ProperRun(ops) <==> AlwaysSafe(ops)
  {
    if ProperRun(ops) {
      RunChainSound(ops);
      ChainIsSafe(Run(ops));
    }
    if ops != [] {
      ProperIffAlwaysSafe(Before(ops));
      if !AskedProperly(Run(Before(ops)), Last(ops)) {
        ImproperIsUnsafe(Run(Before(ops)), Last(ops));
      }
    }
  }

  // ----- A stale candidate can be finalized from anywhere -----

  /** A package or a candidate is there only in a round. */
  predicate Grounded(s: State) { s.build.package.Some? || s.build.adrCandidate.Some? ==> s.round.Some? }

  predicate GroundStep(s: State, t: State) {
    && (t.round.None? ==> s.round.None? || t.build == NO_BUILD)
    && (t.build.package.Some? ==> s.build.package.Some? || (s.deep.attempt.Some? && t.round == s.round))
    && (t.build.adrCandidate.Some? ==> s.build.adrCandidate.Some? || s.build.package.Some?)
  }

  lemma TalkGrounds(s: State, op: TalkOp)
    ensures GroundStep(s, ApplyTalk(s, op).state)
  {
    if op.OpRequireWaitUser? {
      AskingIsHarmless(s, op.payload);
      RequireWaitUserSame(s, op.payload);
    } else if op.OpRecordAnswer? {
      AnswerGrounds(s, op.answer);
    }
  }

  lemma AnswerGrounds(s: State, answer: string)
    ensures GroundStep(s, RecordAnswer(s, answer).state)
  {
    RecordAnswerSame(s, answer);
    if AtStage(s.flow, WaitUser) && s.flow.ui.waitUser.Some? {
      AnswerKeepsArtefacts(s, s.flow.ui.waitUser.value, answer);
    }
  }

  lemma AnswerKeepsArtefacts(s: State, w: WaitUserQuestion, answer: string)
    ensures
      var t := AnswerQuestion(s, w, answer).state;
      t.build.package == s.build.package && t.build.adrCandidate == s.build.adrCandidate
  {
  }

  lemma AcceptGrounds(s: State, identity: DeepIdentity, result: DeepResult)
    ensures GroundStep(s, CompleteUnderstanding(s, identity, result).state)
  {
  }

  lemma HelpGrounds(s: State, identity: DeepIdentity, result: DeepResult)
    ensures result.NeedsDecision? ==> GroundStep(s, NeedDecision(s, identity, result).state)
    ensures result.NeedsDiscovery? ==> GroundStep(s, NeedDiscovery(s, identity, result.fetchedEvidenceIds).state)
    ensures GroundStep(s, CompleteDeepKnowledge(s, identity).state)
  {
  }

  lemma HandleGrounds(s: State, identity: DeepIdentity, result: DeepResult)
    ensures GroundStep(s, HandleDeepResult(s, identity, result).state)
  {
    HelpGrounds(s, identity, result);
    if result.NeedsDecision? || result.NeedsDiscovery? {
    } else if identity.phase.UnderstandingPhase? {
      AcceptGrounds(s, identity, result);
    }
  }

  lemma DeepGrounds(s: State, op: DeepOp)
    ensures GroundStep(s, ApplyDeep(s, op).state)
  {
    match op
    case OpHandleDeepResult(identity, result) => HandleGrounds(s, identity, result);
    case OpCompleteDeepKnowledge(identity) => HelpGrounds(s, identity, CompletedRetrieval([]));
    case _ =>
  }

  lemma BuildGrounds(s: State, op: BuildOp)
    ensures GroundStep(s, ApplyBuild(s, op).state)
  {
  }

  lemma {:induction false} RunGrounded(ops: seq<Op>)
    ensures Grounded(Run(ops))
  {
    if ops != [] {
      var s := Run(Before(ops));
      RunGrounded(Before(ops));
      RunIdentitiesSound(Before(ops));
      match Last(ops)
      case Talk(talk) => TalkGrounds(s, talk);
      case Deep(deep) => DeepGrounds(s, deep);
      case Make(build) => BuildGrounds(s, build);
      case Search(search) => SearchKeepsAllElse(s, search);
    }
  }

  /** A length no string of the set has reached. */
  lemma {:induction false} LongerThanAll(strings: set<string>) returns (n: nat)
    ensures n > 0 && forall x | x in strings :: |x| < n
  {
    n := 1;
    if strings != {} {
      var x :| x in strings;
      n := LongerThanAll(strings - {x});
      n := if |x| < n then n else |x| + 1;
    }
  }

  lemma FreshId(strings: set<string>) returns (id: string)
    ensures id !in strings && id != "" && !IsSpace(id[0])
  {
    var n := LongerThanAll(strings);
    id := seq(n, i => 'q');
  }

  /** A decision nothing has been answered about. */
  lemma FreshDecision(a: Answers) returns (id: string)
    ensures id !in a.decisions && !Blank(id)
    ensures forall k | k in a.keys :: k.decisionId != id
  {
    var used := a.decisions.Keys + (set k | k in a.keys :: k.decisionId);
    id := FreshId(used);
    NotBlank(id);
    assert forall k | k in a.keys :: k.decisionId in used;
  }

  lemma RoundIdNotBlank(r: string, below: nat)
    requires RoundIssued(r, below)
    ensures !Blank(r)
  {
    var n: nat :| n < below && r == RoundId(n);
    assert r[0] == 'g';
    NotBlank(r);
  }

  /** Some question about an ADR ambiguity can be put, once the deep work is cancelled. */
  lemma {:induction false} SomeQuestion(s: State) returns (w: WaitUserQuestion)
    requires s.round.Some? && RoundIssued(s.round.value.roundId, s.next.round)
    ensures PutsAdrQuestion(CancelDeepKnowledge(s).state, w)
  {
    var id := FreshDecision(s.answers);
    RoundIdNotBlank(s.round.value.roundId, s.next.round);
    w := WaitUserQuestion(AdrAmbiguity, s.round.value.roundId, id, [], [], "", "");
    MayBeAsked(s, w);
  }

  lemma MayBeAsked(s: State, w: WaitUserQuestion)
    requires s.round.Some? && w.roundId == s.round.value.roundId
    requires w.decisionId !in s.answers.decisions && forall k | k in s.answers.keys :: k.decisionId != w.decisionId
    ensures WillBeAsked(CancelDeepKnowledge(s).state, w)
  {
  }

  /** So without that care the claim is false, from every run with a candidate at hand: the deep work is cancelled, which
      drops the evidence package, an improper question is put and answered, and the records are finalized with no package
      at all. */
  lemma {:induction false} StaleCandidateReachesSpec(ops: seq<Op>, hash: string)
    returns (w: WaitUserQuestion, identity: BuildIdentity)
    requires Run(ops).build.adrCandidate.Some? && IsSha256(hash)
    ensures
      var before := ops + [Deep(OpCancelDeepKnowledge)] + [Talk(OpRequireWaitUser(w))] + [Talk(OpRecordAnswer("y"))];
      && Run(before).build.package.None? && Run(before).build.adrCandidate == Run(ops).build.adrCandidate
      && EntersSpec(Run(before), Finalizing(identity, hash))
  {
    var s := Run(ops);
    RunGrounded(ops);
    RunIdentitiesSound(ops);
    w := SomeQuestion(s);
    var cancelled := CancelDeepKnowledge(s).state;
    YesRevives(cancelled, w);
    identity := BuildIdentity(AdrAttemptId(cancelled.next.adr), w.roundId);
    Finishes(AfterYes(cancelled, w), identity, hash);
    RunsThree(ops, w);
  }

  lemma RunsThree(ops: seq<Op>, w: WaitUserQuestion)
    ensures
      Run(ops + [Deep(OpCancelDeepKnowledge)] + [Talk(OpRequireWaitUser(w))] + [Talk(OpRecordAnswer("y"))])
      == AfterYes(CancelDeepKnowledge(Run(ops)).state, w)
  {
    RunMore(ops, Deep(OpCancelDeepKnowledge));
    RunMore(ops + [Deep(OpCancelDeepKnowledge)], Talk(OpRequireWaitUser(w)));
    RunMore(ops + [Deep(OpCancelDeepKnowledge)] + [Talk(OpRequireWaitUser(w))], Talk(OpRecordAnswer("y")));
  }
}
