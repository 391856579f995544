/** Leases of one session: tokens are reserved, become leases, are released, and are invalidated together. Acquiring and
    releasing wait for the server, so their steps interleave. */
module LeaseProtocol {
  import opened Text

  datatype Mode = Shared | Exclusive

  datatype Hold = Acquiring | Active | Releasing | Released | Invalidated

  /** `epoch` is the session's generation when the token was reserved, `generation` that when its lease was made. While
      a detach is in flight, `detach` says whether the lease is to be given up even if it fails; the lease may be marked
      invalidated meanwhile, and the detach ends all the same. */
  datatype Token = Token(mode: Mode, epoch: nat, generation: nat, hold: Hold, detach: Option<bool>)

  /** Tokens are numbered in the order of their reservation; `detaches` lists those whose release sent a detach. */
  datatype Session = Session(
    count: nat, exclusive: Option<nat>, generation: nat, cleanup: bool, tokens: seq<Token>, detaches: seq<nat>)

  const UNUSED := Session(0, None, 0, false, [], [])

  datatype Step =
    | Reserve(mode: Mode) | Acquired(t: nat) | AcquireFailed(t: nat)
    | Refresh(t: nat) | StartRelease(t: nat, relinquish: bool, attached: bool)
    | DetachSucceeded(t: nat) | DetachFailed(t: nat)
    | Reconciled | Invalidate | InvalidateIfCounted

  predicate MayReserve(s: Session, mode: Mode) {
    if mode.Exclusive? then s.count == 0 else s.exclusive.None?
  }

  /** `#reserveSessionLease`, where it is allowed. */
  function Reserved(s: Session, mode: Mode): Session {
    s.(count := s.count + 1, tokens := s.tokens + [Token(mode, s.generation, 0, Acquiring, None)],
       exclusive := if mode.Exclusive? then Some(|s.tokens|) else s.exclusive)
  }

  /** `#releaseSessionLease` */
  function Release(s: Session, t: nat): Session {
    s.(count := if s.count <= 1 then 0 else s.count - 1, exclusive := if s.exclusive == Some(t) then None else s.exclusive)
  }

  function SetHold(s: Session, t: nat, hold: Hold, detach: Option<bool>): Session
    requires t < |s.tokens|
  {
    s.(tokens := s.tokens[t := s.tokens[t].(hold := hold, detach := detach)])
  }

  predicate Is(s: Session, t: nat, hold: Hold) { t < |s.tokens| && s.tokens[t].hold == hold }

  predicate IsDetaching(s: Session, t: nat) { t < |s.tokens| && s.tokens[t].detach.Some? }

  /** A lease, or an acquisition, from before the last invalidation. */
  predicate Stale(s: Session, t: nat)
    requires t < |s.tokens|
  {
    if s.tokens[t].hold.Acquiring? then s.tokens[t].epoch != s.generation else s.tokens[t].generation != s.generation
  }

  /** `refreshState`, as every look at the lease calls it. */
  function Refreshed(s: Session, t: nat): Session {
    if (Is(s, t, Active) || Is(s, t, Releasing)) && Stale(s, t) then SetHold(s, t, Invalidated, s.tokens[t].detach) else s
  }

  function StartedRelease(s: Session, t: nat, relinquish: bool, attached: bool): Session {
    var r := Refreshed(s, t);
    if !Is(r, t, Active) || !attached then r
    else if r.count <= 1 then SetHold(r, t, Releasing, Some(relinquish)).(detaches := r.detaches + [t])
    else SetHold(Release(r, t), t, Released, None)
  }

  /** A detach that succeeds gives the token back, whatever has become of the lease. */
  function SucceededDetach(s: Session, t: nat): Session
    requires IsDetaching(s, t)
  {
    SetHold(Release(s, t), t, Released, None)
  }

  function FailedDetach(s: Session, t: nat): Session
    requires IsDetaching(s, t)
  {
    var r := Refreshed(s, t);
    if Is(r, t, Invalidated) then SetHold(r, t, Invalidated, None)
    else if s.tokens[t].detach.value then SetHold(Release(r, t), t, Released, None).(cleanup := true)
    else SetHold(r, t, Active, None)
  }

  function WithNewGeneration(s: Session): Session {
    s.(count := 0, exclusive := None, cleanup := false, generation := s.generation + 1)
  }

  function Apply(s: Session, step: Step): Session {
    match step
    case Reserve(mode) => if MayReserve(s, mode) then Reserved(s, mode) else s
    case Acquired(t) =>
      if Is(s, t, Acquiring) then s.(tokens := s.tokens[t := s.tokens[t].(generation := s.generation, hold := Active)]) else s
    case AcquireFailed(t) => if Is(s, t, Acquiring) then SetHold(Release(s, t), t, Released, None) else s
    case Refresh(t) => Refreshed(s, t)
    case StartRelease(t, relinquish, attached) => StartedRelease(s, t, relinquish, attached)
    case DetachSucceeded(t) => if IsDetaching(s, t) then SucceededDetach(s, t) else s
    case DetachFailed(t) => if IsDetaching(s, t) then FailedDetach(s, t) else s
    case Reconciled => s.(cleanup := false)
    case Invalidate => WithNewGeneration(s)
    case InvalidateIfCounted => if s.count > 0 then WithNewGeneration(s) else s.(cleanup := false)
  }

  lemma InvalidatedTwice(s: Session)
    ensures Apply(Apply(s, InvalidateIfCounted), InvalidateIfCounted) == Apply(s, InvalidateIfCounted)
  {
  }

  function Run(steps: seq<Step>): Session {
    if steps == [] then UNUSED else Apply(Run(steps[..|steps| - 1]), steps[|steps| - 1])
  }

  // ----- The count is the number of outstanding tokens -----

  /** Reserved since the last invalidation, and not released. */
  predicate Outstanding(s: Session, t: nat) {
    t < |s.tokens| && !Stale(s, t) && (s.tokens[t].hold.Acquiring? || s.tokens[t].hold.Active? || s.tokens[t].hold.Releasing?)
  }

  function Out(s: Session): set<nat> {
    set t | 0 <= t < |s.tokens| && Outstanding(s, t)
  }

  predicate Counted(s: Session) {
    && s.count == |Out(s)|
    && (forall t | t in Out(s) && s.tokens[t].mode.Exclusive? :: s.exclusive == Some(t))
    && (s.exclusive.Some? ==> Out(s) == {s.exclusive.value})
  }

  /** No token is from the future; one that is marked invalidated is from the past, and only a lease that is being
      released or was invalidated has a detach in flight. */
  predicate Dated(s: Session) {
    forall t | 0 <= t < |s.tokens| :: DatedToken(s, s.tokens[t])
  }

  predicate DatedToken(s: Session, k: Token) {
    && k.epoch <= s.generation && k.generation <= s.generation
    && (k.hold.Invalidated? ==> k.generation < s.generation)
    && (k.detach.Some? ==> k.hold.Releasing? || k.hold.Invalidated?)
    && (k.hold.Releasing? ==> k.detach.Some?)
  }

  lemma StartDatedToken(s: Session, u: nat, relinquish: bool, attached: bool, t: nat)
    requires t < |s.tokens| && DatedToken(s, s.tokens[t])
    ensures DatedToken(StartedRelease(s, u, relinquish, attached), StartedRelease(s, u, relinquish, attached).tokens[t])
  {
    var r := Refreshed(s, u);
    assert DatedToken(r, r.tokens[t]);
  }

  lemma StepDatedToken(s: Session, step: Step, t: nat)
    requires t < |s.tokens| ==> DatedToken(s, s.tokens[t])
    requires t < |Apply(s, step).tokens|
    ensures DatedToken(Apply(s, step), Apply(s, step).tokens[t])
  {
    match step
    case StartRelease(u, relinquish, attached) => StartDatedToken(s, u, relinquish, attached, t);
    case _ =>
  }

  lemma StepDated(s: Session, step: Step)
    requires Dated(s)
    ensures Dated(Apply(s, step))
  {
    forall t | 0 <= t < |Apply(s, step).tokens|
      ensures DatedToken(Apply(s, step), Apply(s, step).tokens[t])
    {
      StepDatedToken(s, step, t);
    }
  }

  lemma {:induction false} RunDated(steps: seq<Step>)
    ensures Dated(Run(steps))
  {
    if steps != [] {
      RunDated(steps[..|steps| - 1]);
      StepDated(Run(steps[..|steps| - 1]), steps[|steps| - 1]);
    }
  }

  lemma OneMore(s: Session, u: Session, t: nat)
    requires Out(u) == Out(s) + {t} && t !in Out(s)
    ensures |Out(u)| == |Out(s)| + 1
  {
  }

  lemma OneLess(s: Session, u: Session, t: nat)
    requires Out(u) == Out(s) - {t} && t in Out(s)
    ensures |Out(u)| == |Out(s)| - 1
  {
  }

  lemma ReserveAddsOne(s: Session, mode: Mode)
    ensures Out(Reserved(s, mode)) == Out(s) + {|s.tokens|}
    ensures |Out(Reserved(s, mode))| == |Out(s)| + 1
  {
    var u := Reserved(s, mode);
    assert forall t: nat | t < |s.tokens| :: u.tokens[t] == s.tokens[t] && (Outstanding(u, t) <==> Outstanding(s, t));
    OneMore(s, u, |s.tokens|);
  }

  lemma ReserveCounted(s: Session, mode: Mode)
    requires Counted(s) && MayReserve(s, mode)
    ensures Counted(Reserved(s, mode))
  {
    var u := Reserved(s, mode);
    ReserveAddsOne(s, mode);
    if mode.Exclusive? {
      assert Out(s) == {};
    } else {
      forall x | x in Out(u) && u.tokens[x].mode.Exclusive?
        ensures u.exclusive == Some(x)
      {
        assert x in Out(s) && u.tokens[x] == s.tokens[x];
      }
    }
  }

  /** A token that was outstanding is released. */
  lemma ReleaseCounted(s: Session, t: nat, hold: Hold)
    requires Counted(s) && Outstanding(s, t) && (hold.Released? || hold.Invalidated?)
    ensures Counted(SetHold(Release(s, t), t, hold, None))
  {
    var u := SetHold(Release(s, t), t, hold, None);
    assert t in Out(s);
    assert Out(u) == Out(s) - {t};
    OneLess(s, u, t);
    assert forall x | x in Out(u) :: x in Out(s) && u.tokens[x] == s.tokens[x];
  }

  /** A token stays outstanding, or stays gone. */
  lemma SameOutCounted(s: Session, u: Session)
    requires Counted(s) && u.count == s.count && u.exclusive == s.exclusive && Out(u) == Out(s)
    requires forall t | t in Out(s) :: u.tokens[t].mode == s.tokens[t].mode
    ensures Counted(u)
  {
  }

  lemma InvalidateCounted(s: Session)
    requires Dated(s)
    ensures Counted(Apply(s, Invalidate))
  {
    var u := Apply(s, Invalidate);
    assert forall t | 0 <= t < |u.tokens| :: u.tokens[t] == s.tokens[t] && Stale(u, t);
    assert Out(u) == {};
  }

  /** The end of an acquire or a detach that was in flight when the session was invalidated. */
  predicate EndsLate(s: Session, step: Step) {
    match step
    case Acquired(t) => Is(s, t, Acquiring) && Stale(s, t)
    case AcquireFailed(t) => Is(s, t, Acquiring) && Stale(s, t) && s.count > 0
    case DetachSucceeded(t) => IsDetaching(s, t) && Stale(s, t) && s.count > 0
    case _ => false
  }

  lemma QuietStepCounted(s: Session, step: Step)
    requires Dated(s) && Counted(s) && !EndsLate(s, step)
    ensures Counted(Apply(s, step))
  {
    var u := Apply(s, step);
    match step
    case Reserve(mode) => if MayReserve(s, mode) { ReserveCounted(s, mode); }
    case Invalidate => InvalidateCounted(s);
    case InvalidateIfCounted =>
      InvalidateCounted(s);
      SameOut(s, s.(cleanup := false));
    case AcquireFailed(t) => if Is(s, t, Acquiring) { EndCounted(s, t); }
    case DetachSucceeded(t) =>
      if IsDetaching(s, t) {
        assert DatedToken(s, s.tokens[t]);
        EndCounted(s, t);
      }
    case DetachFailed(t) => if IsDetaching(s, t) { DetachFailedCounted(s, t); }
    case StartRelease(t, relinquish, attached) => StartReleaseCounted(s, t, relinquish, attached);
    case Refresh(t) => RefreshCounted(s, t);
    case Acquired(t) => SameOut(s, u);
    case Reconciled => SameOut(s, u);
  }

  /** The same tokens are outstanding. */
  lemma SameOut(s: Session, u: Session)
    requires Counted(s) && u.count == s.count && u.exclusive == s.exclusive && |u.tokens| == |s.tokens|
    requires forall t: nat | t < |s.tokens| ::
               u.tokens[t].mode == s.tokens[t].mode && (Outstanding(u, t) <==> Outstanding(s, t))
    ensures Counted(u)
  {
    assert Out(u) == Out(s);
    SameOutCounted(s, u);
  }

  lemma EndCounted(s: Session, t: nat)
    requires Counted(s) && t < |s.tokens|
    requires s.tokens[t].hold.Acquiring? || s.tokens[t].hold.Releasing? || (s.tokens[t].hold.Invalidated? && Stale(s, t))
    requires Stale(s, t) ==> s.count == 0
    ensures Counted(SetHold(Release(s, t), t, Released, None))
  {
    if Stale(s, t) {
      var u := SetHold(Release(s, t), t, Released, None);
      assert Out(u) == Out(s) == {};
    } else {
      ReleaseCounted(s, t, Released);
    }
  }

  lemma RefreshCounted(s: Session, t: nat)
    requires Counted(s)
    ensures Counted(Refreshed(s, t))
  {
    SameOut(s, Refreshed(s, t));
  }

  lemma StartReleaseCounted(s: Session, t: nat, relinquish: bool, attached: bool)
    requires Counted(s)
    ensures Counted(StartedRelease(s, t, relinquish, attached))
  {
    RefreshCounted(s, t);
    var r := Refreshed(s, t);
    if Is(r, t, Active) && attached {
      if r.count > 1 {
        ReleaseCounted(r, t, Released);
      } else {
        SameOut(r, StartedRelease(s, t, relinquish, attached));
      }
    }
  }

  lemma DetachFailedCounted(s: Session, t: nat)
    requires Dated(s) && Counted(s) && IsDetaching(s, t)
    ensures Counted(FailedDetach(s, t))
  {
    assert DatedToken(s, s.tokens[t]);
    RefreshCounted(s, t);
    var r, u := Refreshed(s, t), FailedDetach(s, t);
    if Is(r, t, Invalidated) || !s.tokens[t].detach.value {
      SameOut(r, u);
    } else {
      ReleaseCounted(r, t, Released);
      SameOut(SetHold(Release(r, t), t, Released, None), u);
    }
  }

  lemma LateStepMiscounts(s: Session, step: Step)
    requires Counted(s) && EndsLate(s, step)
    ensures !Counted(Apply(s, step))
  {
    var u := Apply(s, step);
    match step
    case Acquired(t) =>
      assert Out(u) == Out(s) + {t};
      OneMore(s, u, t);
    case AcquireFailed(t) => assert Out(u) == Out(s);
    case DetachSucceeded(t) => assert Out(u) == Out(s);
  }

  /** A step keeps the count right exactly if it is not such a late end. */
  lemma StepCountedIff(s: Session, step: Step)
    requires Dated(s) && Counted(s)
    ensures Counted(Apply(s, step)) <==> !EndsLate(s, step)
  {
    if EndsLate(s, step) {
      LateStepMiscounts(s, step);
    } else {
      QuietStepCounted(s, step);
    }
  }

  /** No acquire or detach is in flight. */
  predicate NothingInFlight(s: Session) {
    forall t | 0 <= t < |s.tokens| :: !s.tokens[t].hold.Acquiring? && s.tokens[t].detach.None?
  }

  /** The session is invalidated only while nothing is in flight. */
  predicate QuietRun(steps: seq<Step>) {
    steps == []
    || (QuietRun(steps[..|steps| - 1])
        && (steps[|steps| - 1].Invalidate? || steps[|steps| - 1].InvalidateIfCounted? ==>
              NothingInFlight(Run(steps[..|steps| - 1]))))
  }

  predicate NothingLate(s: Session) {
    forall t | 0 <= t < |s.tokens| :: NotLate(s, t)
  }

  predicate NotLate(s: Session, t: nat)
    requires t < |s.tokens|
  {
    s.tokens[t].hold.Acquiring? || s.tokens[t].detach.Some? ==> !Stale(s, t)
  }

  lemma StepNotLate(s: Session, step: Step, t: nat)
    requires t < |s.tokens| ==> NotLate(s, t)
    requires t < |s.tokens| && (step.Invalidate? || step.InvalidateIfCounted?) ==>
               !s.tokens[t].hold.Acquiring? && s.tokens[t].detach.None?
    requires t < |Apply(s, step).tokens|
    ensures NotLate(Apply(s, step), t)
  {
  }

  lemma StepNothingLate(s: Session, step: Step)
    requires NothingLate(s) && (step.Invalidate? || step.InvalidateIfCounted? ==> NothingInFlight(s))
    ensures NothingLate(Apply(s, step))
  {
    forall t | 0 <= t < |Apply(s, step).tokens|
      ensures NotLate(Apply(s, step), t)
    {
      StepNotLate(s, step, t);
    }
  }

  lemma NothingEndsLate(s: Session, step: Step)
    requires NothingLate(s)
    ensures !EndsLate(s, step)
  {
    match step
    case Acquired(t) => assert t < |s.tokens| ==> NotLate(s, t);
    case AcquireFailed(t) => assert t < |s.tokens| ==> NotLate(s, t);
    case DetachSucceeded(t) => assert t < |s.tokens| ==> NotLate(s, t);
    case _ =>
  }

  /** In every interleaving in which nothing is in flight across an invalidation, the lease count is the number of
      outstanding tokens, and an exclusive token excludes every other. */
  lemma {:induction false} LeasesCounted(steps: seq<Step>)
    requires QuietRun(steps)
    ensures Counted(Run(steps)) && NothingLate(Run(steps))
    ensures forall t: nat, u: nat | Outstanding(Run(steps), t) && Outstanding(Run(steps), u) && t != u ::
              !Run(steps).tokens[t].mode.Exclusive?
  {
    if steps != [] {
      var s, step := Run(steps[..|steps| - 1]), steps[|steps| - 1];
      LeasesCounted(steps[..|steps| - 1]);
      RunDated(steps[..|steps| - 1]);
      NothingEndsLate(s, step);
      QuietStepCounted(s, step);
      StepNothingLate(s, step);
    }
    ExclusiveExcludes(Run(steps));
  }

  lemma ExclusiveExcludes(s: Session)
    requires Counted(s)
    ensures forall t: nat, u: nat | Outstanding(s, t) && Outstanding(s, u) && t != u :: !s.tokens[t].mode.Exclusive?
  {
    forall t: nat, u: nat | Outstanding(s, t) && Outstanding(s, u) && t != u
      ensures !s.tokens[t].mode.Exclusive?
    {
      assert t in Out(s) && u in Out(s);
    }
  }

  // ----- A release sends a detach only for the last token -----

  predicate SendsDetach(s: Session, step: Step) { |Apply(s, step).detaches| > |s.detaches| }

  /** The release of an active lease sends a detach exactly when its token is the only one outstanding. */
  lemma DetachForTheLast(s: Session, t: nat, relinquish: bool)
    requires Counted(s) && Is(s, t, Active) && !Stale(s, t)
    ensures SendsDetach(s, StartRelease(t, relinquish, true)) <==> Out(s) == {t}
  {
    assert t in Out(s);
    if s.count <= 1 {
      assert Out(s) - {t} == {} by {
        OutWithout(s, t);
      }
    }
  }

  lemma OutWithout(s: Session, t: nat)
    requires t in Out(s) && |Out(s)| <= 1
    ensures Out(s) == {t}
  {
    assert |Out(s) - {t}| == |Out(s)| - 1;
    assert Out(s) == Out(s) - {t} + {t};
  }

  /** Nothing but the release of an active lease that is not stale sends a detach for a lease. */
  lemma OnlyReleasesDetach(s: Session, step: Step)
    requires SendsDetach(s, step)
    ensures step.StartRelease? && Is(s, step.t, Active) && !Stale(s, step.t) && step.attached
  {
  }

  // ----- A lease that is over stays over -----

  /** A lease that was released or invalidated, or is from before the last invalidation. */
  predicate IsOver(s: Session, t: nat) {
    t < |s.tokens|
    && (s.tokens[t].hold.Released? || s.tokens[t].hold.Invalidated? || (!s.tokens[t].hold.Acquiring? && Stale(s, t)))
  }

  /** What `isActive` says of the lease, leaving the attachment aside. */
  predicate IsActive(s: Session, t: nat) { Is(s, t, Active) && !Stale(s, t) }

  lemma OverStays(s: Session, step: Step, t: nat)
    requires Dated(s) && IsOver(s, t)
    ensures IsOver(Apply(s, step), t) && !IsActive(Apply(s, step), t)
  {
  }

  /** A lease that is stale or released is never active again, whatever happens. */
  lemma {:induction false} NeverActiveAgain(steps: seq<Step>, more: seq<Step>, t: nat)
    requires steps <= more && IsOver(Run(steps), t)
    ensures IsOver(Run(more), t) && !IsActive(Run(more), t)
    decreases |more|
  {
    if steps != more {
      var before := more[..|more| - 1];
      assert steps <= before;
      NeverActiveAgain(steps, before, t);
      RunDated(before);
      OverStays(Run(before), more[|more| - 1], t);
    }
  }

  // ----- What goes wrong when an acquire is in flight across an invalidation -----

  function LateRun(): seq<Step> {
    [Reserve(Shared), Invalidate, Reserve(Exclusive), Acquired(1), AcquireFailed(0), Reserve(Exclusive)]
  }

  lemma RunNext(steps: seq<Step>, i: nat)
    requires i < |steps|
    ensures Run(steps[..i + 1]) == Apply(Run(steps[..i]), steps[i])
  {
    assert steps[..i + 1][..i] == steps[..i];
  }

  /** A failed acquisition from before the invalidation takes the token of an exclusive lease off the count, and a second
      exclusive token is given out. */
  lemma TwoExclusiveTokens()
    ensures
      var s := Run(LateRun());
      Outstanding(s, 1) && Outstanding(s, 2) && s.tokens[1].mode.Exclusive? && s.tokens[2].mode.Exclusive? && !Counted(s)
  {
    var steps := LateRun();
    RunNext(steps, 0); RunNext(steps, 1); RunNext(steps, 2); RunNext(steps, 3); RunNext(steps, 4); RunNext(steps, 5);
    assert steps[..0] == [] && steps[..6] == steps;
    var s := Run(steps);
    assert s.tokens == [Token(Shared, 0, 0, Released, None), Token(Exclusive, 1, 1, Active, None), Token(Exclusive, 1, 0, Acquiring, None)];
    assert 1 in Out(s) && 2 in Out(s);
  }

  function LateDetach(): seq<Step> {
    [Reserve(Shared), Acquired(0), StartRelease(0, false, true), Invalidate, Refresh(0), Reserve(Exclusive), Acquired(1),
     DetachSucceeded(0)]
  }

  /** A detach that succeeds late takes the exclusive lease of another off the count, even though its own lease has been
      marked invalidated before. */
  lemma LateDetachMiscounts()
    ensures
      var s := Run(LateDetach());
      s.count == 0 && Outstanding(s, 1) && s.tokens[1].mode.Exclusive? && !Counted(s)
  {
    var steps := LateDetach();
    RunNext(steps, 0); RunNext(steps, 1); RunNext(steps, 2); RunNext(steps, 3);
    RunNext(steps, 4); RunNext(steps, 5); RunNext(steps, 6); RunNext(steps, 7);
    assert steps[..0] == [] && steps[..8] == steps;
    var s := Run(steps);
    assert s.tokens == [Token(Shared, 0, 0, Released, None), Token(Exclusive, 1, 1, Active, None)];
    assert 1 in Out(s);
  }
}
