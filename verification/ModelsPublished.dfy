/** What becomes of a publication: the effects it has had, at every moment of every interleaving. */
module ModelsPublished {
  import opened Text
  import opened ModelsProtocol

  /** The effects of one publication, in order. */
  function EffectsOf(log: seq<Effect>, p: nat): seq<Effect> {
    if log == [] then []
    else EffectsOf(log[..|log| - 1], p) + if log[|log| - 1].publication == p then [log[|log| - 1]] else []
  }

  /** What a publication is to do to the store: nothing, unless it persists something or asks for its removal. */
  function StoreDue(pub: Publication, p: nat): seq<Effect> {
    match pub.persist
    case Keep => []
    case Delete => [Stored(p, pub.generation, None)]
    case Write(models) => [Stored(p, pub.generation, Some(models))]
  }

  function UpdateDue(pub: Publication, p: nat): seq<Effect> {
    match pub.update
    case None => []
    case Some(models) => [Updated(p, pub.generation, models)]
  }

  /** A publication that has succeeded did both, once each, the store first; one that has not did not update, and may
      have stored if it had reached the store. */
  predicate Accounted(pub: Publication, p: nat, effects: seq<Effect>) {
    match pub.phase
    case Waiting => effects == []
    case Storing(applied) => !pub.persist.Keep? && effects == if applied then StoreDue(pub, p) else []
    case Done(true) => effects == StoreDue(pub, p) + UpdateDue(pub, p)
    case Done(false) => effects == [] || effects == StoreDue(pub, p)
  }

  predicate AllAccounted(s: Slot) {
    forall p: nat | p < |s.publications| :: Accounted(s.publications[p], p, EffectsOf(s.log, p))
  }

  lemma {:induction false} NothingOf(log: seq<Effect>, p: nat)
    requires forall e | e in log :: e.publication != p
    ensures EffectsOf(log, p) == []
  {
    if log != [] {
      assert log[|log| - 1] in log;
      NothingOf(log[..|log| - 1], p);
    }
  }

  lemma OneMore(log: seq<Effect>, e: Effect, p: nat)
    ensures EffectsOf(log + [e], p) == if e.publication == p then EffectsOf(log, p) + [e] else EffectsOf(log, p)
  {
    assert (log + [e])[..|log|] == log;
  }

  /** A publication changes its phase, and has perhaps an effect; the others are left as they were. */
  lemma OneMoves(s: Slot, t: Slot, p: nat, phase: Phase, effects: seq<Effect>)
    requires AllAccounted(s) && p < |s.publications|
    requires t.publications == s.publications[p := s.publications[p].(phase := phase)] && t.log == s.log + effects
    requires effects == [] || (|effects| == 1 && effects[0].publication == p)
    requires Accounted(s.publications[p].(phase := phase), p, EffectsOf(s.log, p) + effects)
    ensures AllAccounted(t)
  {
    forall q: nat | q < |t.publications|
      ensures Accounted(t.publications[q], q, EffectsOf(t.log, q))
    {
      if effects == [] {
        assert t.log == s.log && EffectsOf(s.log, p) + effects == EffectsOf(s.log, p);
      } else {
        assert effects == [effects[0]];
        OneMore(s.log, effects[0], q);
      }
      assert q != p ==> Accounted(s.publications[q], q, EffectsOf(s.log, q));
    }
  }

  /** The update is all that is missing, and is run. */
  lemma CompletionAccounted(s: Slot, p: nat)
    requires AllAccounted(s) && p < |s.publications| && EffectsOf(s.log, p) == StoreDue(s.publications[p], p)
    ensures AllAccounted(Complete(s, p))
  {
    OneMoves(s, Complete(s, p), p, Done(true), UpdateDue(s.publications[p], p));
  }

  lemma StartAccounted(s: Slot, p: nat)
    requires AllAccounted(s) && MayStart(s, p)
    ensures AllAccounted(Apply(s, Start(p)))
  {
    var pub := s.publications[p];
    assert Accounted(pub, p, EffectsOf(s.log, p));
    if !Current(s, pub.generation) {
      OneMoves(s, Started(s, p), p, Done(false), []);
    } else if pub.persist.Keep? {
      CompletionAccounted(s, p);
    } else {
      OneMoves(s, Started(s, p), p, Storing(false), []);
    }
  }

  lemma StoreAccounted(s: Slot, p: nat)
    requires AllAccounted(s) && InStore(s, p) && !s.publications[p].phase.applied
    ensures AllAccounted(Apply(s, ApplyStore(p)))
  {
    assert Accounted(s.publications[p], p, EffectsOf(s.log, p));
    OneMoves(s, StoreApplied(s, p), p, Storing(true), StoreDue(s.publications[p], p));
  }

  lemma ResumeAccounted(s: Slot, p: nat, ok: bool)
    requires AllAccounted(s) && InStore(s, p) && (ok ==> s.publications[p].phase.applied)
    ensures AllAccounted(Apply(s, Resume(p, ok)))
  {
    assert Accounted(s.publications[p], p, EffectsOf(s.log, p));
    if ok && Current(s, s.publications[p].generation) {
      CompletionAccounted(s, p);
    } else {
      OneMoves(s, Resumed(s, p, ok), p, Done(false), []);
    }
  }

  lemma PublishAccounted(s: Slot, generation: nat, persist: Persist, update: Option<Models>)
    requires AllAccounted(s) && LogSound(s)
    ensures AllAccounted(Apply(s, Publish(generation, persist, update)))
  {
    forall e | e in s.log
      ensures e.publication != |s.publications|
    {
      assert EffectOf(s, e);
    }
    NothingOf(s.log, |s.publications|);
    var t := Apply(s, Publish(generation, persist, update));
    forall p: nat | p < |t.publications|
      ensures Accounted(t.publications[p], p, EffectsOf(t.log, p))
    {
      assert p < |s.publications| ==> Accounted(s.publications[p], p, EffectsOf(s.log, p));
    }
  }

  lemma {:induction false} StepAccounted(s: Slot, step: Step)
    requires AllAccounted(s) && LogSound(s)
    ensures AllAccounted(Apply(s, step))
  {
    match step
    case Publish(generation, persist, update) => PublishAccounted(s, generation, persist, update);
    case Start(p) => if MayStart(s, p) { StartAccounted(s, p); }
    case ApplyStore(p) => if InStore(s, p) && !s.publications[p].phase.applied { StoreAccounted(s, p); }
    case Resume(p, ok) => if InStore(s, p) && (ok ==> s.publications[p].phase.applied) { ResumeAccounted(s, p, ok); }
    case _ => assert Apply(s, step).publications == s.publications && Apply(s, step).log == s.log;
  }

  lemma {:induction false} RunAccounted(steps: seq<Step>)
    ensures AllAccounted(Run(steps))
  {
    if steps != [] {
      RunAccounted(steps[..|steps| - 1]);
      RunLogSound(steps[..|steps| - 1]);
      StepAccounted(Run(steps[..|steps| - 1]), steps[|steps| - 1]);
    }
  }

  /** In every run: who is told that a publication succeeded can rely on its list being stored, if there was one to store,
      and on its update having run, if there was one, once each and in this order; a publication that failed has updated
      nothing. */
  lemma {:induction false} PublishedIsDone(steps: seq<Step>, p: nat)
    requires p < |Run(steps).publications| && Finished(Run(steps).publications[p])
    ensures
      var pub, effects := Run(steps).publications[p], EffectsOf(Run(steps).log, p);
      if pub.phase.published then
        effects == (match pub.persist
                    case Keep => []
                    case Delete => [Stored(p, pub.generation, None)]
                    case Write(models) => [Stored(p, pub.generation, Some(models))])
                   + (if pub.update.Some? then [Updated(p, pub.generation, pub.update.value)] else [])
      else forall e | e in effects :: e.Stored?
  {
    RunAccounted(steps);
    assert Accounted(Run(steps).publications[p], p, EffectsOf(Run(steps).log, p));
  }

  /** A publication that is next and belongs to the current refresh succeeds if the store does: what it persists is
      stored, and what it updates is in memory. */
  lemma {:induction false} CurrentIsPublished(steps: seq<Step>, p: nat)
    requires p < |Run(steps).publications| && Run(steps).publications[p].phase.Waiting?
    requires FinishedBelow(Run(steps), p) && Current(Run(steps), Run(steps).publications[p].generation)
    ensures
      var s, t := Run(steps), Run(steps + [Start(p)] + [ApplyStore(p)] + [Resume(p, true)]);
      var pub := s.publications[p];
      && |t.publications| == |s.publications| && t.publications[p].phase == Done(true)
      && t.memory == (if pub.update.Some? then pub.update.value else s.memory)
      && t.storage == match pub.persist
                      case Keep => s.storage
                      case Delete => None
                      case Write(models) => Some(models)
  {
    RunInOrder(steps);
    OneMoreStep(steps, Start(p));
    OneMoreStep(steps + [Start(p)], ApplyStore(p));
    OneMoreStep(steps + [Start(p)] + [ApplyStore(p)], Resume(p, true));
    NextMayStart(Run(steps), p);
    StoredAndUpdated(Run(steps), p);
  }

  lemma NextMayStart(s: Slot, p: nat)
    requires InOrder(s) && p < |s.publications| && s.publications[p].phase.Waiting? && FinishedBelow(s, p)
    ensures MayStart(s, p)
  {
  }

  lemma StoredAndUpdated(s: Slot, p: nat)
    requires MayStart(s, p) && Current(s, s.publications[p].generation)
    ensures
      var t := Apply(Apply(Apply(s, Start(p)), ApplyStore(p)), Resume(p, true));
      var pub := s.publications[p];
      && |t.publications| == |s.publications| && t.publications[p].phase == Done(true)
      && t.memory == (if pub.update.Some? then pub.update.value else s.memory)
      && t.storage == match pub.persist
                      case Keep => s.storage
                      case Delete => None
                      case Write(models) => Some(models)
  {
  }

  lemma OneMoreStep(steps: seq<Step>, step: Step)
    ensures Run(steps + [step]) == Apply(Run(steps), step)
  {
    assert (steps + [step])[..|steps|] == steps;
  }

  /** Whether it succeeds is decided when it starts and when the store is done: it does if and only if its refresh is
      still the current one then, and the store did not fail. */
  lemma {:induction false} CurrencyDecides(s: Slot, p: nat, step: Step)
    requires p < |s.publications| && !Finished(s.publications[p]) && p < |Apply(s, step).publications|
    requires Finished(Apply(s, step).publications[p])
    ensures Apply(s, step).publications[p].phase.published <==>
              Current(s, s.publications[p].generation) && (step.Resume? ==> step.ok)
    ensures step == Start(p) || (step.Resume? && step.p == p)
  {
    match step
    case Start(q) =>
    case ApplyStore(q) =>
    case Resume(q, ok) =>
    case _ =>
  }

  // ----- A refresh that has lost its place never gets it back -----

  /** The step takes the place of every refresh before it. */
  predicate TakesOver(step: Step) { step.Begin? || step.Supersede? || step.Provide? }

  /** Once another refresh has begun, or the provider was replaced or removed, the ones before are not current at any
      later moment, and none of their updates runs. */
  lemma {:induction false} SupersededForGood(steps: seq<Step>, step: Step, more: seq<Step>, g: nat)
    requires TakesOver(step) && steps + [step] <= more && g <= Run(steps).generation
    ensures !Current(Run(more), g)
    ensures Run(steps).log <= Run(more).log
    ensures forall k | |Run(steps).log| <= k < |Run(more).log| && Run(more).log[k].Updated? :: Run(more).log[k].generation > g
  {
    OneMoreStep(steps, step);
    SupersededNeverUpdates(steps + [step], more);
  }

  lemma StepKeepsAborted(s: Slot, step: Step, g: nat)
    requires g in s.aborted
    ensures g in Apply(s, step).aborted && s.log <= Apply(s, step).log
    ensures forall k | |s.log| <= k < |Apply(s, step).log| && Apply(s, step).log[k].Updated? ::
              Apply(s, step).log[k].generation != g
  {
  }

  /** Nor does an aborted refresh update anything, at any later moment. */
  lemma {:induction false} AbortedForGood(steps: seq<Step>, more: seq<Step>, g: nat)
    requires steps + [Abort(g)] <= more
    ensures g in Run(more).aborted && !Current(Run(more), g)
    ensures Run(steps).log <= Run(more).log
    ensures forall k | |Run(steps).log| <= k < |Run(more).log| && Run(more).log[k].Updated? :: Run(more).log[k].generation != g
    decreases |more|
  {
    if steps + [Abort(g)] == more {
      OneMoreStep(steps, Abort(g));
    } else {
      var before := more[..|more| - 1];
      assert steps + [Abort(g)] <= before;
      AbortedForGood(steps, before, g);
      StepKeepsAborted(Run(before), more[|more| - 1], g);
    }
  }

  /** A refresh that begins is the current one, unless it was aborted before. */
  lemma BegunIsCurrent(steps: seq<Step>)
    ensures
      var s, t := Run(steps), Run(steps + [Begin]);
      && t.generation == s.generation + 1 && t.controller == Some(t.generation)
      && (s.controller.Some? ==> s.controller.value in t.aborted)
      && (t.generation !in s.aborted && s.controller != Some(t.generation) ==> Current(t, t.generation))
  {
    OneMoreStep(steps, Begin);
  }
}
