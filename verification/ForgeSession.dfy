/** The session object itself: the fields the runtime reassigns (its variables, grouped into records), and the methods
    that do it, each proved to do what the function of the same name in ForgeState says. */
module ForgeSession {
  import opened Text
  import opened Stages
  import opened Evidence
  import opened Candidates
  import opened ForgeState
  import F = ForgeState

  /** The same state, with the workflow at USER_CONFIRMED. */
  function Confirmed(s: State): State {
    s.(flow := s.flow.(orchestrator := Some(UserConfirmed)))
  }

  /** An answer leads to the same place whether or not the confirmation has been made already. */
  lemma ConfirmedFirst(s: State, w: WaitUserQuestion, answer: string)
    ensures AnswerCheckpoint(Confirmed(s), answer) == AnswerCheckpoint(s, answer)
    ensures Answered(Confirmed(s), w) == Answered(s, w)
  {
    GrillConfirmedFirst(s, w);
    BuildConfirmedFirst(s, w);
  }

  lemma GrillConfirmedFirst(s: State, w: WaitUserQuestion)
    ensures AnswerGrill(Confirmed(s), w) == AnswerGrill(s, w)
  {
  }

  lemma BuildConfirmedFirst(s: State, w: WaitUserQuestion)
    ensures AnswerContext(Confirmed(s), w) == AnswerContext(s, w)
    ensures AnswerAdr(Confirmed(s), w) == AnswerAdr(s, w)
  {
  }

  class Session {
    var round: Option<GrillRound>
    var orchestrator: Orchestrator?
    var ui: UiState
    var next: Counters
    var deep: DeepWork
    var build: Build
    var budget: Budget
    var answers: Answers
    var omissionRecorded: bool

    function FlowView(): Flow
      reads this, orchestrator
    {
      Flow(if orchestrator == null then None else Some(orchestrator.stage), ui)
    }

    function View(): State
      reads this, orchestrator
    {
      State(round, FlowView(), next, deep, build, budget, answers, omissionRecorded)
    }

    constructor ()
      ensures View() == INITIAL && orchestrator == null
    {
      round, orchestrator, ui, omissionRecorded := None, null, UiState(At(Receive), None, None), false;
      next, deep, build, budget, answers := Counters(1, 1, 1, 1), NO_DEEP, NO_BUILD, NO_BUDGET, NO_ANSWERS;
    }

    // ----- Stage moves -----

    /** `orchestrator = !orchestrator || it is at RECEIVE ? a new one at initial : orchestrator` */
    method Start(initial: Stage)
      modifies `orchestrator
      ensures orchestrator != null && (orchestrator == old(orchestrator) || fresh(orchestrator))
      ensures orchestrator.stage == StartedAt(old(FlowView()).orchestrator, initial)
    {
      if orchestrator == null || orchestrator.stage == Receive {
        orchestrator := new Orchestrator(initial);
      }
    }

    method Ensure()
      modifies `orchestrator
      ensures orchestrator != null && (orchestrator == old(orchestrator) || fresh(orchestrator))
      ensures orchestrator.stage == Ensured(old(FlowView()).orchestrator)
    {
      if orchestrator == null {
        orchestrator := new Orchestrator(Receive);
      }
    }

    /** `stage() === to ? to : transitionTo(to)` */
    method Reach(to: Stage) returns (ok: bool)
      requires orchestrator != null
      modifies orchestrator
      ensures ok == CanReach(old(orchestrator.stage), to)
      ensures orchestrator.stage == if ok then to else old(orchestrator.stage)
    {
      ok := true;
      if orchestrator.stage != to {
        ok := orchestrator.TransitionTo(to);
      }
    }

    method BeginGrill() returns (r: Reply)
      modifies this, orchestrator
      ensures Outcome(View(), r) == F.BeginGrill(old(View()))
      ensures orchestrator == old(orchestrator) || fresh(orchestrator)
    {
      Start(Grill);
      var ok := Reach(Grill);
      if !ok {
        return Threw;
      }
      ui := ui.(stage := At(Grill));
      r := Done;
    }

    method BeginIntent() returns (r: Reply)
      modifies this, orchestrator
      ensures Outcome(View(), r) == F.BeginIntent(old(View()))
      ensures orchestrator == old(orchestrator) || fresh(orchestrator)
    {
      Ensure();
      var ok := Reach(IntentUnderstanding);
      if !ok {
        return Threw;
      }
      ui := ui.(stage := At(IntentUnderstanding));
      r := Done;
    }

    method BeginLightDiscovery() returns (r: Reply)
      modifies this, orchestrator
      ensures Outcome(View(), r) == F.BeginLightDiscovery(old(View()))
      ensures orchestrator == old(orchestrator) || fresh(orchestrator)
    {
      Ensure();
      var ok := Reach(LightDiscovery);
      if !ok {
        return Threw;
      }
      ui := ui.(stage := At(LightDiscovery));
      r := Done;
    }

    // ----- Deep attempts -----

    method BeginDeepKnowledge(phase: Phase) returns (r: Reply)
      modifies this, orchestrator
      ensures Outcome(View(), r) == F.BeginDeepKnowledge(old(View()), phase)
      ensures orchestrator == old(orchestrator) || fresh(orchestrator)
    {
      if round.None? {
        return Threw;
      }
      Start(PhaseStage(phase));
      var ok := Reach(PhaseStage(phase));
      if !ok {
        return Threw;
      }
      IssueDeepAttempt(phase);
      r := Done;
    }

    method IssueDeepAttempt(phase: Phase)
      requires round.Some? && orchestrator != null && orchestrator.stage == PhaseStage(phase)
      modifies `ui, `deep, `next, `budget
      ensures View() == F.IssueDeepAttempt(old(View()), round.value, phase)
    {
      ui := ui.(stage := At(PhaseStage(phase)), waitUser := None);
      deep := deep.(attempt := Some(DeepIdentity(DeepAttemptId(next.deep), round.value.roundId, phase)),
                    retryPhase := None, resumablePhase := None);
      next := next.(deep := next.deep + 1);
      budget := budget.(reservations := multiset{});
    }

    method CancelDeepKnowledge() returns (r: Reply)
      modifies this
      ensures Outcome(View(), r) == F.CancelDeepKnowledge(old(View()))
      ensures fresh(orchestrator)
    {
      var phase :=
        if deep.attempt.Some? then deep.attempt.value.phase
        else if deep.retryPhase.Some? then deep.retryPhase.value
        else if ui.stage == At(KnowledgeUnderstanding) then UnderstandingPhase
        else RetrievalPhase;
      deep := DeepWork(None, None, Some(phase), 0);
      build := build.(package := None);
      orchestrator := new Orchestrator(PhaseStage(phase));
      ui := ui.(stage := At(PhaseStage(phase)), waitUser := None);
      r := Done;
    }

    method RetryDeepKnowledge() returns (r: Reply)
      modifies this
      ensures Outcome(View(), r) == F.RetryDeepKnowledge(old(View()))
      ensures orchestrator == old(orchestrator) || fresh(orchestrator)
    {
      var phase := if deep.retryPhase.Some? then deep.retryPhase else deep.resumablePhase;
      if round.None? || phase.None? {
        return Done;
      }
      orchestrator := new Orchestrator(PhaseStage(phase.value));
      IssueDeepAttempt(phase.value);
      r := Done;
    }

    method CompleteDeepKnowledge(identity: DeepIdentity) returns (r: Reply)
      modifies this, orchestrator
      ensures Outcome(View(), r) == F.CompleteDeepKnowledge(old(View()), identity)
      ensures orchestrator == old(orchestrator) || fresh(orchestrator)
    {
      if deep.attempt != Some(identity) {
        return Stale;
      }
      Start(KnowledgeUnderstanding);
      var ok := Reach(KnowledgeUnderstanding);
      if !ok {
        return Threw;
      }
      ui := ui.(stage := At(KnowledgeUnderstanding), waitUser := None);
      deep := deep.(attempt := Some(deep.attempt.value.(phase := UnderstandingPhase)));
      r := F.Accepted;
    }

    /** The question is put, from wherever the workflow is; it throws where WAIT_USER cannot be reached. */
    method Ask(question: WaitUserQuestion) returns (ok: bool)
      requires orchestrator != null
      modifies `ui, orchestrator
      ensures ok == Legal(old(orchestrator.stage), WaitUser)
      ensures orchestrator.stage == if ok then WaitUser else old(orchestrator.stage)
      ensures ui == if ok then old(ui).(stage := At(WaitUser), waitUser := Some(question)) else old(ui)
    {
      ok := orchestrator.TransitionTo(WaitUser);
      if ok {
        ui := ui.(stage := At(WaitUser), waitUser := Some(question));
      }
    }

    method NeedDecision(identity: DeepIdentity, result: DeepResult) returns (r: Reply)
      requires result.NeedsDecision?
      modifies this, orchestrator
      ensures Outcome(View(), r) == F.NeedDecision(old(View()), identity, result)
      ensures orchestrator == old(orchestrator) || fresh(orchestrator)
    {
      if deep.attempt != Some(identity) {
        return Stale;
      }
      Ensure();
      var ok := Ask(DecisionQuestion(identity, result));
      if !ok {
        return Threw;
      }
      deep := deep.(retryPhase := Some(identity.phase), attempt := None);
      r := F.Accepted;
    }

    method NeedDiscovery(identity: DeepIdentity, fetched: seq<string>) returns (r: Reply)
      modifies this, orchestrator
      ensures Outcome(View(), r) == F.NeedDiscovery(old(View()), identity, fetched)
      ensures orchestrator == old(orchestrator) || fresh(orchestrator)
    {
      if deep.attempt != Some(identity) {
        return Stale;
      }
      Ensure();
      deep := deep.(needsDiscovery := deep.needsDiscovery + 1);
      var ok;
      if 2 <= deep.needsDiscovery {
        ok := Ask(FallbackQuestion(identity, fetched));
      } else {
        ok := Move(LightDiscovery);
      }
      if !ok {
        return Threw;
      }
      deep := deep.(attempt := None);
      r := F.Accepted;
    }

    /** `stage = transitionTo(to)`, after which nothing is being asked. */
    method Move(to: Stage) returns (ok: bool)
      requires orchestrator != null
      modifies `ui, orchestrator
      ensures ok == Legal(old(orchestrator.stage), to)
      ensures orchestrator.stage == if ok then to else old(orchestrator.stage)
      ensures ui == if ok then old(ui).(stage := At(to), waitUser := None) else old(ui)
    {
      ok := orchestrator.TransitionTo(to);
      if ok {
        ui := ui.(stage := At(to), waitUser := None);
      }
    }

    method CompleteUnderstanding(identity: DeepIdentity, result: DeepResult) returns (r: Reply)
      modifies this, orchestrator
      ensures Outcome(View(), r) == F.CompleteUnderstanding(old(View()), identity, result)
      ensures orchestrator == old(orchestrator) || fresh(orchestrator)
    {
      if deep.attempt != Some(identity) {
        return Stale;
      }
      if !result.CompletedUnderstanding? {
        return Invalid;
      }
      var valid := ValidateEvidencePackage(result.package);
      if !valid {
        return Invalid;
      }
      r := AcceptPackage(identity, result.package);
    }

    method AcceptPackage(identity: DeepIdentity, accepted: EvidencePackage) returns (r: Reply)
      modifies this, orchestrator
      ensures Outcome(View(), r) == F.AcceptPackage(old(View()), identity, accepted)
      ensures orchestrator == old(orchestrator) || fresh(orchestrator)
    {
      Ensure();
      var previous := build.package;
      build := build.(package := Some(accepted));
      var ok := Move(ContextBuild);
      if !ok {
        build := build.(package := previous);
        return Threw;
      }
      build := build.(contextAttempt := Some(BuildIdentity(ContextAttemptId(next.context), identity.sourceRoundId)));
      next := next.(context := next.context + 1);
      deep := deep.(attempt := None);
      r := F.Accepted;
    }

    method HandleDeepResult(identity: DeepIdentity, result: DeepResult) returns (r: Reply)
      modifies this, orchestrator
      ensures Outcome(View(), r) == F.HandleDeepResult(old(View()), identity, result)
      ensures orchestrator == old(orchestrator) || fresh(orchestrator)
    {
      if result.NeedsDecision? {
        r := NeedDecision(identity, result);
      } else if result.NeedsDiscovery? {
        r := NeedDiscovery(identity, result.fetchedEvidenceIds);
      } else if identity.phase.UnderstandingPhase? {
        r := CompleteUnderstanding(identity, result);
      } else if result.CompletedRetrieval? {
        r := CompleteDeepKnowledge(identity);
      } else {
        r := Invalid;
      }
    }

    // ----- Building the context and the decision records -----

    method CompleteContextBuild(identity: BuildIdentity, completion: ContextCompletion) returns (r: Reply)
      modifies this, orchestrator
      ensures Outcome(View(), r) == F.CompleteContextBuild(old(View()), identity, completion)
      ensures orchestrator == old(orchestrator)
    {
      if build.contextAttempt != Some(identity) {
        return Stale;
      }
      if orchestrator == null || orchestrator.stage != ContextBuild || build.package.None? {
        return Invalid;
      }
      match completion {
        case AmbiguousContext(a) =>
          var errors := ValidateContextAmbiguity(a, build.package.value.evidenceIds);
          if errors != [] {
            return Invalid;
          }
          AskAboutContext(identity, a);
          r := Ambiguous;
        case CompletedContext(candidate) =>
          var errors := ValidateContextCandidate(candidate, build.package.value.evidenceIds);
          if errors != [] {
            return Invalid;
          }
          AcceptContext(identity, candidate);
          r := F.Accepted;
      }
    }

    method AskAboutContext(identity: BuildIdentity, a: Ambiguity)
      requires orchestrator != null && orchestrator.stage == ContextBuild
      modifies this, orchestrator
      ensures View() == F.AskAboutContext(old(View()), identity, a)
      ensures orchestrator == old(orchestrator)
    {
      var _ := Ask(AmbiguityQuestion(ContextAmbiguity, identity, a));
      build := build.(contextAttempt := None);
    }

    method AcceptContext(identity: BuildIdentity, candidate: ContextCandidate)
      requires orchestrator != null && orchestrator.stage == ContextBuild
      modifies this, orchestrator
      ensures View() == F.AcceptContext(old(View()), identity, candidate)
      ensures orchestrator == old(orchestrator)
    {
      build := build.(contextCandidate := Some(candidate));
      var _ := Move(AdrBuild);
      build := build.(contextAttempt := None,
                      adrAttempt := Some(BuildIdentity(AdrAttemptId(next.adr), identity.sourceRoundId)),
                      adrCandidate := None);
      next := next.(adr := next.adr + 1);
    }

    method PrepareAdrBuild(identity: BuildIdentity, candidate: AdrCandidate) returns (r: Reply)
      modifies this
      ensures Outcome(View(), r) == F.PrepareAdrBuild(old(View()), identity, candidate)
      ensures orchestrator == old(orchestrator)
    {
      if build.adrAttempt != Some(identity) {
        return Stale;
      }
      if orchestrator == null || orchestrator.stage != AdrBuild || build.package.None? {
        return Invalid;
      }
      var errors := ValidateAdrBuildCandidate(candidate, build.package.value.evidenceIds);
      if errors != [] {
        return Invalid;
      }
      build := build.(adrCandidate := Some(candidate));
      r := F.Accepted;
    }

    method RequireAdrDecision(identity: BuildIdentity, a: Ambiguity) returns (r: Reply)
      modifies this, orchestrator
      ensures Outcome(View(), r) == F.RequireAdrDecision(old(View()), identity, a)
      ensures orchestrator == old(orchestrator)
    {
      if build.adrAttempt != Some(identity) {
        return Stale;
      }
      if orchestrator == null || orchestrator.stage != AdrBuild || build.package.None? {
        return Invalid;
      }
      var errors := ValidateContextAmbiguity(a, build.package.value.evidenceIds);
      if errors != [] {
        return Invalid;
      }
      AskAboutAdr(identity, a);
      r := Ambiguous;
    }

    method AskAboutAdr(identity: BuildIdentity, a: Ambiguity)
      requires orchestrator != null && orchestrator.stage == AdrBuild
      modifies this, orchestrator
      ensures View() == F.AskAboutAdr(old(View()), identity, a)
      ensures orchestrator == old(orchestrator)
    {
      var _ := Ask(AmbiguityQuestion(AdrAmbiguity, identity, a));
      build := build.(adrAttempt := None, adrCandidate := None);
    }

    method FinalizeAdrBuild(identity: BuildIdentity, commit: DocumentsCommitted) returns (r: Reply)
      modifies this, orchestrator
      ensures Outcome(View(), r) == F.FinalizeAdrBuild(old(View()), identity, commit)
      ensures orchestrator == old(orchestrator)
    {
      if build.adrAttempt != Some(identity) {
        return Stale;
      }
      if orchestrator == null || orchestrator.stage != AdrBuild || build.adrCandidate.None?
         || commit.NotCommitted? || !IsSha256(commit.baseHash) {
        return Invalid;
      }
      var _ := Move(ToSpec);
      build := build.(adrAttempt := None);
      r := F.Accepted;
    }

    // ----- Questions and answers -----

    method RequireWaitUser(payload: WaitUserQuestion) returns (r: Reply)
      modifies this, orchestrator
      ensures Outcome(View(), r) == F.RequireWaitUser(old(View()), payload)
      ensures orchestrator == old(orchestrator) || fresh(orchestrator)
    {
      if PayloadMalformed(payload) {
        return Threw;
      }
      r := AskUser(payload);
    }

    method AskUser(payload: WaitUserQuestion) returns (r: Reply)
      modifies this, orchestrator
      ensures Outcome(View(), r) == F.AskUser(old(View()), payload)
      ensures orchestrator == old(orchestrator) || fresh(orchestrator)
    {
      if KeyOf(payload) in answers.keys || payload.decisionId in answers.decisions {
        return Done;
      }
      if round.None? || payload.roundId != round.value.roundId {
        return Threw;
      }
      Start(Grill);
      var ok := orchestrator.TransitionTo(WaitUser);
      if !ok {
        return Threw;
      }
      ui := UiState(At(WaitUser), Some(payload), None);
      r := Done;
    }

    method RecordAnswer(answer: string) returns (r: Reply)
      modifies this, orchestrator
      ensures Outcome(View(), r) == F.RecordAnswer(old(View()), answer)
      ensures orchestrator == old(orchestrator) || fresh(orchestrator)
    {
      if orchestrator == null || orchestrator.stage != WaitUser {
        ui := ui.(stage := AnswerRejected);
        return Done;
      }
      if ui.waitUser.None? {
        return Threw;
      }
      if AnswerIgnored(View(), ui.waitUser.value, answer) {
        return Done;
      }
      r := Answer(ui.waitUser.value, answer);
    }

    /** The rest of `recordAnswer`, for an answer that is looked at. */
    method Answer(w: WaitUserQuestion, answer: string) returns (r: Reply)
      requires orchestrator != null && orchestrator.stage == WaitUser
      modifies this, orchestrator
      ensures Outcome(View(), r) == F.AnswerQuestion(old(View()), w, answer)
      ensures orchestrator == old(orchestrator) || fresh(orchestrator)
    {
      var _ := orchestrator.TransitionTo(UserConfirmed);
      assert View() == old(Confirmed(View()));
      if w.kind.GrillCheckpoint? {
        ConfirmedFirst(old(View()), w, answer);
        r := PassCheckpoint(answer);
      } else {
        RememberAnswer(w, answer);
        ghost var remembered := old(View()).(answers := answers);
        assert View() == Confirmed(remembered);
        ConfirmedFirst(remembered, w, answer);
        r := Proceed(w);
      }
    }

    method PassCheckpoint(answer: string) returns (r: Reply)
      requires orchestrator != null && orchestrator.stage == UserConfirmed
      modifies this, orchestrator
      ensures Outcome(View(), r) == F.AnswerCheckpoint(old(View()), answer)
      ensures orchestrator == old(orchestrator) || fresh(orchestrator)
    {
      answers := answers.(checkpointPending := Trim(answer) == "continue_one");
      ui := ui.(waitUser := None);
      r := BeginGrill();
    }

    method RememberAnswer(w: WaitUserQuestion, answer: string)
      modifies `answers
      ensures View() == old(View()).(answers := Remember(old(View()).answers, w, answer))
    {
      answers := answers.(keys := answers.keys + {KeyOf(w)});
      if w.decisionId !in answers.decisions {
        answers := answers.(decisions :=
          answers.decisions[w.decisionId := HumanDecision(w.question, answer, w.evidenceIds)]);
      }
    }

    /** Where a remembered answer leads. */
    method Proceed(w: WaitUserQuestion) returns (r: Reply)
      requires orchestrator != null && orchestrator.stage == UserConfirmed && !w.kind.GrillCheckpoint?
      modifies this, orchestrator
      ensures Outcome(View(), r) == Answered(old(View()), w)
      ensures orchestrator == old(orchestrator) || fresh(orchestrator)
    {
      if w.kind.GrillConfirmation? {
        answers := answers.(accepted := answers.accepted + 1);
        if answers.accepted == ANSWER_CHECKPOINT || answers.checkpointPending {
          if round.None? {
            return Threw;
          }
          orchestrator := new Orchestrator(Grill);
          var _ := Ask(CheckpointQuestion(round.value, w.evidenceIds));
          answers := answers.(checkpointPending := false);
          return Done;
        }
      }
      var stage := Grill;
      if w.kind.ContextAmbiguity? {
        build := build.(contextAttempt := Some(BuildIdentity(ContextAttemptId(next.context), w.roundId)));
        next := next.(context := next.context + 1);
        stage := ContextBuild;
      } else if w.kind.AdrAmbiguity? {
        build := build.(adrAttempt := Some(BuildIdentity(AdrAttemptId(next.adr), w.roundId)));
        next := next.(adr := next.adr + 1);
        stage := AdrBuild;
      } else if w.kind.DeepDiscoveryFallback? || w.kind.RelevanceClarification? {
        ui := ui.(stage := At(UserConfirmed), waitUser := None);
        return Done;
      }
      var _ := Move(stage);
      r := Done;
    }

    method Confirm() returns (r: Reply)
      modifies this, orchestrator
      ensures Outcome(View(), r) == F.Confirm(old(View()))
      ensures orchestrator == old(orchestrator)
    {
      if orchestrator == null || orchestrator.stage != WaitUser {
        ui := ui.(stage := ConfirmRejected);
        return Done;
      }
      var _ := Move(UserConfirmed);
      r := Done;
    }

    method Reject() returns (r: Reply)
      modifies this, orchestrator
      ensures Outcome(View(), r) == F.Reject(old(View()))
      ensures orchestrator == old(orchestrator)
    {
      if orchestrator != null && orchestrator.stage == WaitUser {
        var _ := orchestrator.TransitionTo(UserConfirmed);
        var _ := orchestrator.TransitionTo(Grill);
      }
      ui := UiState(At(Grill), None, Some(UserRejectedRecommendation));
      r := Done;
    }

    // ----- Rounds -----

    method StartGrillRound(request: string, snapshot: nat) returns (r: Reply)
      modifies this
      ensures Outcome(View(), r) == F.StartGrillRound(old(View()), request, snapshot)
      ensures orchestrator == old(orchestrator)
    {
      omissionRecorded := false;
      budget := budget.(roundId := None, count := 0);
      var isFirst := round.None? || round.value.snapshot != snapshot;
      deep := deep.(attempt := None);
      if isFirst {
        answers := Answers(answers.keys, map[], 0, false);
        build := NO_BUILD;
      }
      round := Some(GrillRound(isFirst, RoundId(next.round), request, snapshot));
      next := next.(round := next.round + 1);
      r := Round(round.value);
    }

    method RetryGrillRound() returns (r: Reply)
      modifies this
      ensures Outcome(View(), r) == F.RetryGrillRound(old(View()))
      ensures orchestrator == old(orchestrator)
    {
      if round.None? || ui.repair != Some(RecoveryRequired) {
        return NoRound;
      }
      omissionRecorded := false;
      ui := ui.(stage := At(Grill), repair := None);
      r := Round(round.value);
    }

    method RecordCompletionOmission() returns (r: Reply)
      modifies this
      ensures Outcome(View(), r) == F.RecordCompletionOmission(old(View()))
      ensures orchestrator == old(orchestrator)
    {
      if omissionRecorded {
        return Recorded(false);
      }
      omissionRecorded := true;
      ui := ui.(stage := At(Grill), repair := Some(RecoveryRequired));
      r := Recorded(true);
    }

    method Reset() returns (r: Reply)
      modifies this
      ensures Outcome(View(), r) == F.Reset(old(View()))
      ensures orchestrator == null
    {
      answers, round, budget, deep, build := NO_ANSWERS, None, NO_BUDGET, NO_DEEP, NO_BUILD;
      orchestrator := null;
      omissionRecorded := false;
      ui := UiState(At(Receive), None, None);
      r := Done;
    }

    // ----- The search budget -----

    method ReserveDeepSearchBudget(identity: DeepIdentity) returns (r: Reply)
      modifies this
      ensures Outcome(View(), r) == F.ReserveDeepSearchBudget(old(View()), identity)
      ensures orchestrator == old(orchestrator)
    {
      if deep.attempt != Some(identity) || round.None? || round.value.roundId != identity.sourceRoundId {
        return Stale;
      }
      if budget.roundId != Some(identity.sourceRoundId) {
        budget := Budget(Some(identity.sourceRoundId), 0, multiset{});
      }
      if identity !in budget.reservations && SEARCH_LIMIT <= budget.count + |budget.reservations| {
        return Limit;
      }
      budget := budget.(reservations := budget.reservations + multiset{identity});
      r := Reserved;
    }

    method CommitDeepSearchBudget(identity: DeepIdentity) returns (r: Reply)
      modifies this
      ensures Outcome(View(), r) == F.CommitDeepSearchBudget(old(View()), identity)
      ensures orchestrator == old(orchestrator)
    {
      if deep.attempt != Some(identity) || round.None? || round.value.roundId != identity.sourceRoundId {
        return Stale;
      }
      if identity in budget.reservations {
        budget := budget.(reservations := budget.reservations - multiset{identity}, count := budget.count + 1);
      }
      r := Committed;
    }

    method ReleaseDeepSearchBudget(identity: DeepIdentity) returns (r: Reply)
      modifies this
      ensures Outcome(View(), r) == F.ReleaseDeepSearchBudget(old(View()), identity)
      ensures orchestrator == old(orchestrator)
    {
      if deep.attempt != Some(identity) || round.None? || round.value.roundId != identity.sourceRoundId {
        return Stale;
      }
      budget := budget.(reservations := budget.reservations - multiset{identity});
      r := Released;
    }

    method ConsumeDeepSearchBudget(identity: DeepIdentity) returns (r: Reply)
      modifies this
      ensures Outcome(View(), r) == F.ConsumeDeepSearchBudget(old(View()), identity)
      ensures orchestrator == old(orchestrator)
    {
      r := ReserveDeepSearchBudget(identity);
      if r == Reserved {
        r := CommitDeepSearchBudget(identity);
      }
    }

    /** The part of the search tool that brackets a search, whose evidence may turn out not to fit. */
    method DeepSearch(identity: DeepIdentity, fits: bool) returns (r: Reply)
      modifies this
      ensures Outcome(View(), r) == F.DeepSearch(old(View()), identity, fits)
      ensures orchestrator == old(orchestrator)
    {
      r := ReserveDeepSearchBudget(identity);
      if r == Reserved {
        if fits {
          r := CommitDeepSearchBudget(identity);
        } else {
          r := ReleaseDeepSearchBudget(identity);
        }
      }
    }

    // ----- Any sequence of calls -----

    method Apply(op: Op) returns (r: Reply)
      modifies this, orchestrator
      ensures Outcome(View(), r) == F.Apply(old(View()), op)
      ensures orchestrator == old(orchestrator) || orchestrator == null || fresh(orchestrator)
    {
      match op {
        case Talk(talk) => r := ApplyTalk(talk);
        case Deep(deep) => r := ApplyDeep(deep);
        case Make(build) => r := ApplyBuild(build);
        case Search(search) => r := ApplySearch(search);
      }
    }

    method ApplyTalk(op: TalkOp) returns (r: Reply)
      modifies this, orchestrator
      ensures Outcome(View(), r) == F.ApplyTalk(old(View()), op)
      ensures orchestrator == old(orchestrator) || orchestrator == null || fresh(orchestrator)
    {
      match op {
        case OpBeginGrill => r := BeginGrill();
        case OpBeginIntent => r := BeginIntent();
        case OpBeginLightDiscovery => r := BeginLightDiscovery();
        case OpRequireWaitUser(payload) => r := RequireWaitUser(payload);
        case OpRecordAnswer(answer) => r := RecordAnswer(answer);
        case OpConfirm => r := Confirm();
        case OpReject => r := Reject();
        case OpStartGrillRound(request, snapshot) => r := StartGrillRound(request, snapshot);
        case OpRetryGrillRound => r := RetryGrillRound();
        case OpRecordCompletionOmission => r := RecordCompletionOmission();
        case OpReset => r := Reset();
      }
    }

    method ApplyDeep(op: DeepOp) returns (r: Reply)
      modifies this, orchestrator
      ensures Outcome(View(), r) == F.ApplyDeep(old(View()), op)
      ensures orchestrator == old(orchestrator) || fresh(orchestrator)
    {
      match op {
        case OpBeginDeepKnowledge(phase) => r := BeginDeepKnowledge(phase);
        case OpCancelDeepKnowledge => r := CancelDeepKnowledge();
        case OpRetryDeepKnowledge => r := RetryDeepKnowledge();
        case OpCompleteDeepKnowledge(identity) => r := CompleteDeepKnowledge(identity);
        case OpHandleDeepResult(identity, result) => r := HandleDeepResult(identity, result);
      }
    }

    method ApplyBuild(op: BuildOp) returns (r: Reply)
      modifies this, orchestrator
      ensures Outcome(View(), r) == F.ApplyBuild(old(View()), op)
      ensures orchestrator == old(orchestrator)
    {
      match op {
        case OpCompleteContextBuild(identity, completion) => r := CompleteContextBuild(identity, completion);
        case OpPrepareAdrBuild(identity, candidate) => r := PrepareAdrBuild(identity, candidate);
        case OpRequireAdrDecision(identity, ambiguity) => r := RequireAdrDecision(identity, ambiguity);
        case OpFinalizeAdrBuild(identity, commit) => r := FinalizeAdrBuild(identity, commit);
      }
    }

    method ApplySearch(op: SearchOp) returns (r: Reply)
      modifies this
      ensures Outcome(View(), r) == F.ApplySearch(old(View()), op)
      ensures orchestrator == old(orchestrator)
    {
      match op {
        case OpReserve(identity) => r := ReserveDeepSearchBudget(identity);
        case OpCommit(identity) => r := CommitDeepSearchBudget(identity);
        case OpRelease(identity) => r := ReleaseDeepSearchBudget(identity);
        case OpConsume(identity) => r := ConsumeDeepSearchBudget(identity);
        case OpDeepSearch(identity, fits) => r := DeepSearch(identity, fits);
      }
    }
  }

  /** A new session after any sequence of calls is in the state the specification gives: every result about `Run` is a
      result about this object. */
  method Serve(ops: seq<Op>) returns (session: Session)
    ensures session.View() == Run(ops)
  {
    session := new Session();
    var i := 0;
    while i < |ops|
      invariant 0 <= i <= |ops|
      invariant fresh(session) && (session.orchestrator == null || fresh(session.orchestrator))
      invariant session.View() == Run(ops[..i])
    {
      assert ops[..i + 1][..i] == ops[..i];
      var _ := session.Apply(ops[i]);
      i := i + 1;
    }
    assert ops[..i] == ops;
  }
}
