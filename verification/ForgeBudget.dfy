/** The search budget: eight committed searches for each Grill round, over the whole run. */
module ForgeBudget {
  import opened Text
  import opened Stages
  import opened ForgeState
  import opened ForgeSafety
  import opened ForgeIdentity

  function Total(b: Budget): nat { b.count + |b.reservations| }

  /** The round for which a search is committed by the call, if one is. */
  function CommittedBy(s: State, op: SearchOp): Option<string> {
    match op
    case OpCommit(identity) =>
      if MaySearch(s, identity) && identity in s.budget.reservations then Some(identity.sourceRoundId) else None
    case OpConsume(identity) =>
      if ReserveDeepSearchBudget(s, identity).reply == Reserved then Some(identity.sourceRoundId) else None
    case OpDeepSearch(identity, fits) =>
      if fits && ReserveDeepSearchBudget(s, identity).reply == Reserved then Some(identity.sourceRoundId) else None
    case _ => None
  }

  function Entry(id: Option<string>): multiset<string> {
    if id.Some? then multiset{id.value} else multiset{}
  }

  /** How many searches were committed for each round, over a whole run. */
  function Ledger(ops: seq<Op>): multiset<string> {
    if ops == [] then multiset{}
    else
      Ledger(Before(ops))
      + if Last(ops).Search? then Entry(CommittedBy(Run(Before(ops)), Last(ops).search)) else multiset{}
  }

  // ----- The invariant -----

  /** What the budget in use says about the whole run. */
  predicate BudgetSound(s: State, ledger: multiset<string>) {
    && Total(s.budget) <= SEARCH_LIMIT
    && (s.budget.roundId.Some? ==>
          && s.round.Some? && s.round.value.roundId == s.budget.roundId.value
          && ledger[s.budget.roundId.value] == s.budget.count)
    && (s.budget.roundId.None? && s.round.Some? ==> s.round.value.roundId !in ledger)
    && OwnReservations(s)
    && LedgerSound(ledger, s.next.round)
  }

  /** A reservation of the live attempt was made in the live attempt's round. */
  predicate OwnReservations(s: State) {
    s.deep.attempt.Some? ==>
      forall k | k in s.budget.reservations && k.attemptId == s.deep.attempt.value.attemptId ::
        s.budget.roundId == Some(s.deep.attempt.value.sourceRoundId)
  }

  predicate LedgerSound(ledger: multiset<string>, below: nat) {
    forall r | r in ledger :: ledger[r] <= SEARCH_LIMIT && RoundIssued(r, below)
  }

  /** What a call that does not search may do to the budget. */
  predicate BudgetStep(s: State, t: State) {
    || (t.round == s.round && t.budget == s.budget
        && (t.deep.attempt.Some? ==>
              s.deep.attempt.Some? && SameAttempt(s.deep.attempt.value, t.deep.attempt.value)))
    || (t.round == s.round && t.budget == s.budget.(reservations := multiset{}))
    || (t.budget.roundId.None? && t.budget.count == 0 && t.budget.reservations <= s.budget.reservations
        && t.deep.attempt.None? && (t.round.Some? ==> t.round.value.roundId == RoundId(s.next.round)))
  }

  lemma LedgerStays(ledger: multiset<string>, m: nat, n: nat)
    requires LedgerSound(ledger, m) && m <= n
    ensures LedgerSound(ledger, n)
  {
    forall r | r in ledger
      ensures RoundIssued(r, n)
    {
      IssuedStays(r, m, n);
    }
  }

  lemma NewRoundOwesNothing(ledger: multiset<string>, n: nat)
    requires LedgerSound(ledger, n)
    ensures RoundId(n) !in ledger
  {
    if RoundId(n) in ledger {
      NextRoundIsNew(RoundId(n), n);
    }
  }

  lemma FewerReservations(b: Budget, c: Budget)
    requires c.reservations <= b.reservations
    ensures |c.reservations| <= |b.reservations|
  {
    assert b.reservations == c.reservations + (b.reservations - c.reservations);
  }

  lemma BudgetStepKeeps(s: State, t: State, ledger: multiset<string>)
    requires BudgetSound(s, ledger) && BudgetStep(s, t) && s.next.round <= t.next.round
    ensures BudgetSound(t, ledger)
  {
    LedgerStays(ledger, s.next.round, t.next.round);
    if t.budget.reservations <= s.budget.reservations {
      FewerReservations(s.budget, t.budget);
    }
    NewRoundOwesNothing(ledger, s.next.round);
  }

  lemma {:induction false} TalkBudgetStep(s: State, op: TalkOp)
    ensures BudgetStep(s, ApplyTalk(s, op).state)
  {
    match op
    case OpRecordAnswer(answer) => RecordAnswerSame(s, answer);
    case OpRequireWaitUser(payload) => RequireWaitUserSame(s, payload);
    case _ =>
  }

  lemma HandleBudgetStep(s: State, identity: DeepIdentity, result: DeepResult)
    ensures BudgetStep(s, HandleDeepResult(s, identity, result).state)
  {
    if result.NeedsDecision? || result.NeedsDiscovery? {
      AskingEnds(s, identity, result);
    } else if identity.phase.UnderstandingPhase? {
      CompleteUnderstandingEnds(s, identity, result);
    }
  }

  lemma {:induction false} DeepBudgetStep(s: State, op: DeepOp)
    ensures BudgetStep(s, ApplyDeep(s, op).state)
  {
    match op
    case OpHandleDeepResult(identity, result) => HandleBudgetStep(s, identity, result);
    case _ =>
  }

  lemma BuildBudgetStep(s: State, op: BuildOp)
    ensures BudgetStep(s, ApplyBuild(s, op).state)
  {
  }

  // ----- The three calls on the budget -----

  /** The one case in which the limit is not looked at although the budget is full: the identity's own reservation is
      still open. */
  predicate LimitSkipped(s: State, identity: DeepIdentity) {
    var b := BudgetFor(s.budget, identity);
    MaySearch(s, identity) && identity in b.reservations && Total(b) == SEARCH_LIMIT
  }

  /** Reserving keeps committed and open searches within the limit, except in that case. */
  lemma ReserveWithinLimit(s: State, identity: DeepIdentity)
    requires Total(s.budget) <= SEARCH_LIMIT
    ensures Total(ReserveDeepSearchBudget(s, identity).state.budget) <= SEARCH_LIMIT <==> !LimitSkipped(s, identity)
  {
  }

  lemma ReserveKeeps(s: State, identity: DeepIdentity, ledger: multiset<string>)
    requires IdentitiesSound(s) && BudgetSound(s, ledger) && !LimitSkipped(s, identity)
    ensures BudgetSound(ReserveDeepSearchBudget(s, identity).state, ledger)
  {
    ReserveWithinLimit(s, identity);
  }

  lemma CommitKeeps(s: State, identity: DeepIdentity, ledger: multiset<string>)
    requires IdentitiesSound(s) && BudgetSound(s, ledger)
    ensures BudgetSound(CommitDeepSearchBudget(s, identity).state, ledger + Entry(CommittedBy(s, OpCommit(identity))))
  {
    var t := CommitDeepSearchBudget(s, identity).state;
    if CommittedBy(s, OpCommit(identity)).Some? {
      assert s.budget.reservations == t.budget.reservations + multiset{identity};
      assert s.budget.roundId == Some(identity.sourceRoundId);
    } else {
      assert ledger + multiset{} == ledger;
    }
  }

  lemma ReleaseKeeps(s: State, identity: DeepIdentity, ledger: multiset<string>)
    requires BudgetSound(s, ledger)
    ensures BudgetSound(ReleaseDeepSearchBudget(s, identity).state, ledger)
  {
    FewerReservations(s.budget, ReleaseDeepSearchBudget(s, identity).state.budget);
  }

  // ----- Every call, and every run -----

  /** The call does not leave a reservation, or commit one, that was made although the limit was skipped. */
  predicate CarefulOp(s: State, op: SearchOp) {
    op.OpReserve? || op.OpConsume? || (op.OpDeepSearch? && op.fits) ==> !LimitSkipped(s, op.identity)
  }

  lemma ReservedThenCommits(s: State, identity: DeepIdentity)
    requires ReserveDeepSearchBudget(s, identity).reply == Reserved
    ensures CommittedBy(ReserveDeepSearchBudget(s, identity).state, OpCommit(identity)) == Some(identity.sourceRoundId)
    ensures IdentitiesSound(s) ==> IdentitiesSound(ReserveDeepSearchBudget(s, identity).state)
  {
  }

  lemma {:induction false} SearchKeepsBudget(s: State, op: SearchOp, ledger: multiset<string>)
    requires IdentitiesSound(s) && BudgetSound(s, ledger) && CarefulOp(s, op)
    ensures BudgetSound(ApplySearch(s, op).state, ledger + Entry(CommittedBy(s, op)))
  {
    match op
    case OpCommit(identity) => CommitKeeps(s, identity, ledger);
    case OpRelease(identity) =>
      ReleaseKeeps(s, identity, ledger);
      NoEntry(ledger);
    case OpReserve(identity) =>
      ReserveKeeps(s, identity, ledger);
      NoEntry(ledger);
    case OpConsume(identity) =>
      ConsumeIsBracket(s, identity);
      BracketKeeps(s, identity, true, ledger);
    case OpDeepSearch(identity, fits) => BracketKeeps(s, identity, fits, ledger);
  }

  lemma NoEntry(ledger: multiset<string>)
    ensures ledger + Entry(None) == ledger
  {
  }

  lemma ConsumeIsBracket(s: State, identity: DeepIdentity)
    ensures ConsumeDeepSearchBudget(s, identity) == DeepSearch(s, identity, true)
    ensures CommittedBy(s, OpConsume(identity)) == CommittedBy(s, OpDeepSearch(identity, true))
  {
  }

  lemma {:induction false} BracketKeeps(s: State, identity: DeepIdentity, fits: bool, ledger: multiset<string>)
    requires IdentitiesSound(s) && BudgetSound(s, ledger) && (fits ==> !LimitSkipped(s, identity))
    ensures BudgetSound(DeepSearch(s, identity, fits).state, ledger + Entry(CommittedBy(s, OpDeepSearch(identity, fits))))
  {
    var reserved := ReserveDeepSearchBudget(s, identity);
    NoEntry(ledger);
    if !fits {
      GivenBack(s, identity, ledger);
    } else {
      ReserveKeeps(s, identity, ledger);
      if reserved.reply == Reserved {
        ReservedThenCommits(s, identity);
        CommitKeeps(reserved.state, identity, ledger);
        assert DeepSearch(s, identity, true) == CommitDeepSearchBudget(reserved.state, identity);
      } else {
        assert DeepSearch(s, identity, true) == reserved;
      }
    }
  }

  /** A reservation that is released at once leaves nothing behind, even one that was made beyond the limit. */
  lemma GivenBack(s: State, identity: DeepIdentity, ledger: multiset<string>)
    requires IdentitiesSound(s) && BudgetSound(s, ledger)
    ensures BudgetSound(DeepSearch(s, identity, false).state, ledger)
  {
    var b, t := BudgetFor(s.budget, identity), DeepSearch(s, identity, false).state;
    assert b.reservations + multiset{identity} - multiset{identity} == b.reservations;
    assert t == s || t == s.(budget := b);
  }

  lemma {:induction false} OtherKeepsBudget(s: State, op: Op, ledger: multiset<string>)
    requires BudgetSound(s, ledger) && !op.Search?
    ensures BudgetSound(Apply(s, op).state, ledger)
  {
    StepSteps(s, op);
    match op
    case Talk(talk) =>
      TalkBudgetStep(s, talk);
      BudgetStepKeeps(s, ApplyTalk(s, talk).state, ledger);
    case Deep(deep) =>
      DeepBudgetStep(s, deep);
      BudgetStepKeeps(s, ApplyDeep(s, deep).state, ledger);
    case Make(build) =>
      BuildBudgetStep(s, build);
      BudgetStepKeeps(s, ApplyBuild(s, build).state, ledger);
  }

  /** The limit is never skipped. */
  predicate CarefulRun(ops: seq<Op>) {
    ops == [] || (CarefulRun(Before(ops)) && (Last(ops).Search? ==> CarefulOp(Run(Before(ops)), Last(ops).search)))
  }

  lemma {:induction false} RunBudgetSound(ops: seq<Op>)
    requires CarefulRun(ops)
    ensures BudgetSound(Run(ops), Ledger(ops))
  {
    if ops != [] {
      RunBudgetSound(Before(ops));
      RunIdentitiesSound(Before(ops));
      NextBudgetSound(Run(Before(ops)), Last(ops), Ledger(Before(ops)));
    }
  }

  lemma {:induction false} NextBudgetSound(s: State, op: Op, ledger: multiset<string>)
    requires BudgetSound(s, ledger)
    requires op.Search? ==> IdentitiesSound(s) && CarefulOp(s, op.search)
    ensures BudgetSound(Apply(s, op).state, ledger + if op.Search? then Entry(CommittedBy(s, op.search)) else multiset{})
  {
    if op.Search? {
      SearchKeepsBudget(s, op.search, ledger);
    } else {
      OtherKeepsBudget(s, op, ledger);
      assert ledger + multiset{} == ledger;
    }
  }

  lemma ConsumeTotals(s: State, identity: DeepIdentity)
    requires Total(s.budget) <= SEARCH_LIMIT
    ensures Total(ConsumeDeepSearchBudget(s, identity).state.budget) == Total(ReserveDeepSearchBudget(s, identity).state.budget)
  {
    var reserved := ReserveDeepSearchBudget(s, identity);
    if reserved.reply == Reserved {
      var b := reserved.state.budget;
      assert b.reservations == (b.reservations - multiset{identity}) + multiset{identity};
    }
  }

  lemma CarelessOpExceeds(s: State, op: SearchOp)
    requires Total(s.budget) <= SEARCH_LIMIT && !CarefulOp(s, op)
    ensures Total(ApplySearch(s, op).state.budget) > SEARCH_LIMIT
  {
    ReserveWithinLimit(s, op.identity);
    ConsumeTotals(s, op.identity);
    ConsumeIsBracket(s, op.identity);
  }

  /** Committed and open searches are within the limit, now and at every earlier moment of the run. */
  predicate AlwaysWithinLimit(ops: seq<Op>) {
    Total(Run(ops).budget) <= SEARCH_LIMIT && (ops == [] || AlwaysWithinLimit(Before(ops)))
  }

  lemma NextWithinLimit(s: State, op: Op, ledger: multiset<string>)
    requires IdentitiesSound(s) && BudgetSound(s, ledger)
    ensures Total(Apply(s, op).state.budget) <= SEARCH_LIMIT <==> (op.Search? ==> CarefulOp(s, op.search))
  {
    if op.Search? && !CarefulOp(s, op.search) {
      CarelessOpExceeds(s, op.search);
    } else {
      NextBudgetSound(s, op, ledger);
    }
  }

  /** The searches stay within eight throughout a run exactly if the limit is never skipped. */
  lemma {:induction false} CarefulIffWithinLimit(ops: seq<Op>)
    ensures CarefulRun(ops) <==> AlwaysWithinLimit(ops)
  {
    if ops != [] {
      CarefulIffWithinLimit(Before(ops));
      if CarefulRun(Before(ops)) {
        RunBudgetSound(Before(ops));
        RunIdentitiesSound(Before(ops));
        NextWithinLimit(Run(Before(ops)), Last(ops), Ledger(Before(ops)));
      }
    }
  }

  /** For each Grill round at most eight searches are committed in the whole run, across retries, cancels, attempts and
      phase changes, and committed and open searches together never exceed eight. */
  lemma {:induction false} EightSearchesPerRound(ops: seq<Op>, roundId: string)
    requires CarefulRun(ops)
    ensures Ledger(ops)[roundId] <= SEARCH_LIMIT
    ensures Total(Run(ops).budget) <= SEARCH_LIMIT
  {
    RunBudgetSound(ops);
    if roundId in Ledger(ops) {
      assert Ledger(ops)[roundId] <= SEARCH_LIMIT;
    }
  }

  // ----- The search tool is careful; a careless caller is not bounded -----

  /** Every search is bracketed, as the tool brackets it. */
  predicate OnlyBrackets(ops: seq<Op>) {
    forall op | op in ops && op.Search? :: op.search.OpDeepSearch? || op.search.OpConsume?
  }

  lemma BracketLeavesNothingOpen(s: State, op: SearchOp)
    requires s.budget.reservations == multiset{} && (op.OpDeepSearch? || op.OpConsume?)
    ensures ApplySearch(s, op).state.budget.reservations == multiset{}
    ensures CarefulOp(s, op)
  {
    assert BudgetFor(s.budget, op.identity).reservations == multiset{};
  }

  lemma {:induction false} OtherOpensNothing(s: State, op: Op)
    requires s.budget.reservations == multiset{} && !op.Search?
    ensures Apply(s, op).state.budget.reservations == multiset{}
  {
    match op
    case Talk(talk) => TalkBudgetStep(s, talk);
    case Deep(deep) => DeepBudgetStep(s, deep);
    case Make(build) => BuildBudgetStep(s, build);
  }

  /** A run that only brackets its searches never leaves one open, so the limit holds for it without further ado. */
  lemma {:induction false} BracketsAreCareful(ops: seq<Op>)
    requires OnlyBrackets(ops)
    ensures CarefulRun(ops) && Run(ops).budget.reservations == multiset{}
  {
    if ops != [] {
      assert Last(ops) in ops && forall op | op in Before(ops) :: op in ops;
      BracketsAreCareful(Before(ops));
      NextOpensNothing(Run(Before(ops)), Last(ops));
    }
  }

  lemma {:induction false} NextOpensNothing(s: State, op: Op)
    requires s.budget.reservations == multiset{}
    requires op.Search? ==> op.search.OpDeepSearch? || op.search.OpConsume?
    ensures Apply(s, op).state.budget.reservations == multiset{}
    ensures op.Search? ==> CarefulOp(s, op.search)
  {
    if op.Search? {
      BracketLeavesNothingOpen(s, op.search);
    } else {
      OtherOpensNothing(s, op);
    }
  }

  lemma AppliesSearch(ops: seq<Op>, op: SearchOp)
    ensures Run(ops + [Search(op)]) == ApplySearch(Run(ops), op).state
    ensures Ledger(ops + [Search(op)]) == Ledger(ops) + Entry(CommittedBy(Run(ops), op))
  {
    assert Before(ops + [Search(op)]) == ops;
  }

  /** With eight searches to spend, and none open, a search is granted while fewer than eight are committed. */
  lemma GrantedBelowEight(s: State, ledger: multiset<string>, identity: DeepIdentity)
    requires IdentitiesSound(s) && BudgetSound(s, ledger) && s.budget.reservations == multiset{}
    requires s.deep.attempt == Some(identity)
    ensures
      var granted := ledger[identity.sourceRoundId] < 8;
      && DeepSearch(s, identity, true).reply == (if granted then Committed else Limit)
      && DeepSearch(s, identity, false).reply == (if granted then Released else Limit)
      && (CommittedBy(s, OpDeepSearch(identity, true)) == if granted then Some(identity.sourceRoundId) else None)
      && CommittedBy(s, OpDeepSearch(identity, false)) == None
  {
    assert s.round.value.roundId !in ledger ==> ledger[s.round.value.roundId] == 0;
  }

  /** In every run that brackets its searches, a search of the live attempt is granted exactly if fewer than eight were
      committed for its round; one that is given back costs nothing. */
  lemma {:induction false} SearchIsGranted(ops: seq<Op>, identity: DeepIdentity)
    requires OnlyBrackets(ops) && Run(ops).deep.attempt == Some(identity)
    ensures
      var r, granted := identity.sourceRoundId, Ledger(ops)[identity.sourceRoundId] < 8;
      && DeepSearch(Run(ops), identity, true).reply == (if granted then Committed else Limit)
      && Ledger(ops + [Search(OpDeepSearch(identity, true))])[r] == Ledger(ops)[r] + (if granted then 1 else 0)
      && Ledger(ops + [Search(OpDeepSearch(identity, false))]) == Ledger(ops)
  {
    BracketsAreCareful(ops);
    RunBudgetSound(ops);
    RunIdentitiesSound(ops);
    GrantedBelowEight(Run(ops), Ledger(ops), identity);
    AppliesSearch(ops, OpDeepSearch(identity, true));
    AppliesSearch(ops, OpDeepSearch(identity, false));
    NoEntry(Ledger(ops));
  }

  /** A search for any other identity is refused. */
  lemma OthersMayNotSearch(s: State, identity: DeepIdentity, fits: bool)
    requires s.deep.attempt != Some(identity)
    ensures DeepSearch(s, identity, fits) == Outcome(s, Stale)
  {
  }

  /** The attempt is searching, with so many searches open and so many committed. */
  predicate Searching(s: State, d: DeepIdentity, open: nat, committed: nat) {
    && MaySearch(s, d) && s.budget.count == committed && s.budget.reservations == multiset{}[d := open]
    && (s.budget.roundId == Some(d.sourceRoundId) || (s.budget.roundId.None? && open == 0 && committed == 0))
  }

  lemma ReserveAgain(s: State, d: DeepIdentity, open: nat)
    requires Searching(s, d, open, 0)
    ensures Searching(ReserveDeepSearchBudget(s, d).state, d, open + 1, 0)
  {
  }

  lemma CommitAgain(s: State, d: DeepIdentity, open: nat, committed: nat)
    requires Searching(s, d, open + 1, committed)
    ensures Searching(CommitDeepSearchBudget(s, d).state, d, open, committed + 1)
    ensures CommittedBy(s, OpCommit(d)) == Some(d.sourceRoundId)
  {
    assert d in s.budget.reservations;
  }

  lemma ReserveNext(ops: seq<Op>, d: DeepIdentity, open: nat)
    requires Searching(Run(ops), d, open, 0)
    ensures Searching(Run(ops + [Search(OpReserve(d))]), d, open + 1, 0)
    ensures Ledger(ops + [Search(OpReserve(d))]) == Ledger(ops)
  {
    AppliesSearch(ops, OpReserve(d));
    NoEntry(Ledger(ops));
    ReserveAgain(Run(ops), d, open);
  }

  lemma CommitNext(ops: seq<Op>, d: DeepIdentity, open: nat, committed: nat)
    requires Searching(Run(ops), d, open + 1, committed)
    ensures Searching(Run(ops + [Search(OpCommit(d))]), d, open, committed + 1)
    ensures Ledger(ops + [Search(OpCommit(d))]) == Ledger(ops) + multiset{d.sourceRoundId}
  {
    AppliesSearch(ops, OpCommit(d));
    CommitAgain(Run(ops), d, open, committed);
  }

  lemma {:induction false} ReservesRun(start: seq<Op>, d: DeepIdentity, k: nat) returns (ops: seq<Op>)
    requires Searching(Run(start), d, 0, 0)
    ensures Searching(Run(ops), d, k, 0) && Ledger(ops) == Ledger(start)
  {
    if k == 0 {
      ops := start;
    } else {
      ops := ReservesRun(start, d, k - 1);
      ReserveNext(ops, d, k - 1);
      ops := ops + [Search(OpReserve(d))];
    }
  }

  /** One identity that keeps reserving before it commits gets as many searches committed as it likes. */
  lemma {:induction false} CarelessCallerUnbounded(start: seq<Op>, d: DeepIdentity, k: nat, n: nat)
    returns (ops: seq<Op>)
    requires Searching(Run(start), d, 0, 0) && n <= k
    ensures Searching(Run(ops), d, k - n, n)
    ensures Ledger(ops)[d.sourceRoundId] == Ledger(start)[d.sourceRoundId] + n
  {
    if n == 0 {
      ops := ReservesRun(start, d, k);
    } else {
      ops := CarelessCallerUnbounded(start, d, k, n - 1);
      CommitNext(ops, d, k - n, n - 1);
      ops := ops + [Search(OpCommit(d))];
    }
  }

  const START := [Talk(OpStartGrillRound("", 0)), Deep(OpBeginDeepKnowledge(RetrievalPhase))]
  const FIRST := DeepIdentity(DeepAttemptId(1), RoundId(1), RetrievalPhase)

  lemma StartsSearching()
    ensures Searching(Run(START), FIRST, 0, 0)
  {
    assert START[..1] == [Talk(OpStartGrillRound("", 0))] && START[..1][..0] == [];
    assert Searching(BeginDeepKnowledge(StartGrillRound(INITIAL, "", 0).state, RetrievalPhase).state, FIRST, 0, 0);
  }

  /** So without the proviso the claim fails: nine searches are committed for the first round. */
  lemma NineSearches() returns (ops: seq<Op>)
    ensures Ledger(ops)[FIRST.sourceRoundId] > SEARCH_LIMIT
  {
    StartsSearching();
    ops := CarelessCallerUnbounded(START, FIRST, 9, 9);
  }
}
