/** What reserving and giving up a lease comes to, and what keeps it active. */
module LeaseOutcomes {
  import opened Text
  import opened LeaseProtocol

  lemma OneMoreStep(steps: seq<Step>, step: Step)
    ensures Run(steps + [step]) == Apply(Run(steps), step)
  {
    assert (steps + [step])[..|steps|] == steps;
  }

  /** While the count is right, an exclusive lease is granted exactly if no token is outstanding, and a shared one exactly
      if no exclusive token is. */
  lemma {:induction false} GrantedIff(steps: seq<Step>, mode: Mode)
    requires Counted(Run(steps))
    ensures
      var s, t := Run(steps), Run(steps + [Reserve(mode)]);
      if if mode.Exclusive? then Out(s) == {} else forall k | k in Out(s) :: s.tokens[k].mode.Shared? then
        |t.tokens| == |s.tokens| + 1 && Out(t) == Out(s) + {|s.tokens|} && t.tokens[|s.tokens|].mode == mode
      else t == s
  {
    OneMoreStep(steps, Reserve(mode));
    RunMarked(steps);
    MayReserveIff(Run(steps), mode);
    if MayReserve(Run(steps), mode) {
      ReserveAddsOne(Run(steps), mode);
    }
  }

  /** The session's exclusive lease, if it is marked, is outstanding and exclusive. */
  predicate MarkedExclusive(s: Session) {
    s.exclusive.Some? ==> s.exclusive.value < |s.tokens| && s.tokens[s.exclusive.value].mode.Exclusive?
  }

  lemma {:induction false} RunMarked(steps: seq<Step>)
    ensures MarkedExclusive(Run(steps))
  {
    if steps != [] {
      RunMarked(steps[..|steps| - 1]);
      StepMarked(Run(steps[..|steps| - 1]), steps[|steps| - 1]);
    }
  }

  lemma StepMarked(s: Session, step: Step)
    requires MarkedExclusive(s)
    ensures MarkedExclusive(Apply(s, step))
  {
    match step
    case StartRelease(t, relinquish, attached) => assert MarkedExclusive(Refreshed(s, t));
    case _ =>
  }

  lemma MayReserveIff(s: Session, mode: Mode)
    requires Counted(s) && MarkedExclusive(s)
    ensures MayReserve(s, mode) <==>
              if mode.Exclusive? then Out(s) == {} else forall k | k in Out(s) :: s.tokens[k].mode.Shared?
  {
    if s.exclusive.Some? {
      assert s.exclusive.value in Out(s);
    }
  }

  /** The last lease is given up and the detach fails: if it was to be given up in any case it is, and a clean-up is
      demanded before the next attachment; otherwise it is active again. */
  lemma {:induction false} FailedDetachLeaves(steps: seq<Step>, t: nat, relinquish: bool)
    requires IsActive(Run(steps), t) && Run(steps).count <= 1
    ensures
      var s, u := Run(steps), Run(steps + [StartRelease(t, relinquish, true)] + [DetachFailed(t)]);
      && |u.tokens| == |s.tokens| && u.detaches == s.detaches + [t]
      && (if relinquish then u.cleanup && Is(u, t, Released) && u.count == 0 && u.exclusive != Some(t)
          else u.cleanup == s.cleanup && IsActive(u, t) && u.count == s.count && u.exclusive == s.exclusive)
  {
    OneMoreStep(steps, StartRelease(t, relinquish, true));
    OneMoreStep(steps + [StartRelease(t, relinquish, true)], DetachFailed(t));
  }

  /** And if it succeeds the lease is released, and nothing is left of it. */
  lemma {:induction false} DetachReleases(steps: seq<Step>, t: nat, relinquish: bool)
    requires IsActive(Run(steps), t) && Run(steps).count <= 1
    ensures
      var s, u := Run(steps), Run(steps + [StartRelease(t, relinquish, true)] + [DetachSucceeded(t)]);
      Is(u, t, Released) && u.count == 0 && u.exclusive != Some(t) && u.cleanup == s.cleanup
      && u.detaches == s.detaches + [t]
  {
    OneMoreStep(steps, StartRelease(t, relinquish, true));
    OneMoreStep(steps + [StartRelease(t, relinquish, true)], DetachSucceeded(t));
  }

  /** The detach of a lease that was to be given up in any case has failed, and its session was not invalidated meanwhile. */
  predicate GivenUpInVain(s: Session, step: Step) {
    step.DetachFailed? && IsDetaching(s, step.t) && s.tokens[step.t].detach == Some(true)
    && s.tokens[step.t].generation == s.generation
  }

  predicate CleansUp(step: Step) { step.Reconciled? || step.Invalidate? || step.InvalidateIfCounted? }

  /** It was step `i`, and nothing after it has made the clean-up superfluous. */
  predicate DueSince(steps: seq<Step>, i: nat) {
    && i < |steps| && GivenUpInVain(Run(steps[..i]), steps[i])
    && forall j: nat | i < j < |steps| :: !CleansUp(steps[j])
  }

  predicate CleanupDue(steps: seq<Step>) { exists i: nat :: i < |steps| && DueSince(steps, i) }

  lemma DueSinceNext(steps: seq<Step>, step: Step, i: nat)
    requires i < |steps|
    ensures DueSince(steps + [step], i) <==> DueSince(steps, i) && !CleansUp(step)
  {
    var more := steps + [step];
    assert more[..i] == steps[..i] && more[|steps|] == step;
    assert forall j: nat | j < |steps| :: more[j] == steps[j];
  }

  lemma CleanupOneMore(steps: seq<Step>, step: Step)
    ensures CleanupDue(steps + [step]) <==> GivenUpInVain(Run(steps), step) || (CleanupDue(steps) && !CleansUp(step))
  {
    assert (steps + [step])[..|steps|] == steps;
    assert DueSince(steps + [step], |steps|) <==> GivenUpInVain(Run(steps), step);
    forall i: nat | i < |steps| {
      DueSinceNext(steps, step, i);
    }
    if CleanupDue(steps) && !CleansUp(step) {
      var i: nat :| i < |steps| && DueSince(steps, i);
      assert DueSince(steps + [step], i);
    }
  }

  /** In every run a clean-up is demanded exactly if it is due. */
  lemma {:induction false} CleanupIffDue(steps: seq<Step>)
    ensures Run(steps).cleanup <==> CleanupDue(steps)
  {
    if steps != [] {
      var before, step := steps[..|steps| - 1], steps[|steps| - 1];
      assert before + [step] == steps;
      CleanupIffDue(before);
      CleanupOneMore(before, step);
      RunDated(before);
      CleanupStep(Run(before), step);
    }
  }

  lemma CleanupStep(s: Session, step: Step)
    requires Dated(s)
    ensures Apply(s, step).cleanup <==> GivenUpInVain(s, step) || (s.cleanup && !CleansUp(step))
  {
    if step.DetachFailed? && IsDetaching(s, step.t) {
      assert DatedToken(s, s.tokens[step.t]);
    }
  }

  lemma StaysActive(s: Session, step: Step, t: nat)
    requires IsActive(s, t) && !(step.StartRelease? && step.t == t) && !step.Invalidate? && !step.InvalidateIfCounted?
    requires Dated(s)
    ensures IsActive(Apply(s, step), t)
  {
    assert DatedToken(s, s.tokens[t]);
  }

  /** A lease stays active until it is itself given up, or its session is invalidated, whatever becomes of others. */
  lemma {:induction false} ActiveUntilReleased(steps: seq<Step>, more: seq<Step>, t: nat)
    requires steps <= more && IsActive(Run(steps), t)
    requires forall i | |steps| <= i < |more| ::
               !(more[i].StartRelease? && more[i].t == t) && !more[i].Invalidate? && !more[i].InvalidateIfCounted?
    ensures IsActive(Run(more), t)
    decreases |more|
  {
    if steps != more {
      var before := more[..|more| - 1];
      assert steps <= before;
      ActiveUntilReleased(steps, before, t);
      RunDated(before);
      StaysActive(Run(before), more[|more| - 1], t);
    }
  }
}
