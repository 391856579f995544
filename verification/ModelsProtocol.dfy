/** How refreshes of one provider's model list publish what they find: generations, abort signals and a chain of
    publications. Each stretch of code between two awaits is one step, and steps of different refreshes interleave. */
module ModelsProtocol {
  import opened Text

  /** A list of models, as a value. */
  type Models = seq<string>

  datatype Persist = Keep | Delete | Write(models: Models)

  datatype Phase = Waiting | Storing(applied: bool) | Done(published: bool)

  /** A publication in flight: the refresh it belongs to, the tail it waits for, and what it is to do. */
  datatype Publication = Publication(
    generation: nat, previous: Option<nat>, persist: Persist, update: Option<Models>, phase: Phase)

  datatype Effect =
    | Stored(publication: nat, generation: nat, content: Option<Models>)
    | Updated(publication: nat, generation: nat, models: Models)

  /** The list the provider in place came with, and the number of effects before it was put there. */
  datatype Provided = Provided(initial: Models, since: nat)

  /** One provider id. Publications are numbered in the order of the calls that made them; a controller is named by the
      generation it was made for; `log` remembers every effect on storage and memory. */
  datatype Slot = Slot(
    generation: nat, controller: Option<nat>, aborted: set<nat>,
    chain: Option<nat>, publications: seq<Publication>,
    storage: Option<Models>, memory: Models, provided: Provided, log: seq<Effect>)

  const EMPTY := Slot(0, None, {}, None, [], None, [], Provided([], 0), [])

  datatype Step =
    | Supersede | Provide(initial: Models) | Begin | Abort(generation: nat) | EndRefresh(generation: nat)
    | Publish(generation: nat, persist: Persist, update: Option<Models>)
    | Start(p: nat) | ApplyStore(p: nat) | Resume(p: nat, ok: bool) | SettleTail(p: nat)

  /** `supersedeProviderRefresh` */
  function Superseded(s: Slot): Slot {
    s.(generation := s.generation + 1, controller := None,
       aborted := if s.controller.Some? then s.aborted + {s.controller.value} else s.aborted)
  }

  predicate Current(s: Slot, generation: nat) {
    generation !in s.aborted && s.generation == generation
  }

  predicate Finished(p: Publication) { p.phase.Done? }

  function SetPhase(s: Slot, p: nat, phase: Phase): Slot
    requires p < |s.publications|
  {
    s.(publications := s.publications[p := s.publications[p].(phase := phase)])
  }

  /** The end of a publication that is still current: the update is run, if there is one. */
  function Complete(s: Slot, p: nat): Slot
    requires p < |s.publications|
  {
    var pub := s.publications[p];
    var t := SetPhase(s, p, Done(true));
    if pub.update.Some? then
      t.(memory := pub.update.value, log := s.log + [Updated(p, pub.generation, pub.update.value)])
    else t
  }

  /** The tail it waits for has settled, or there is none. */
  predicate MayStart(s: Slot, p: nat) {
    && p < |s.publications| && s.publications[p].phase.Waiting?
    && (s.publications[p].previous.Some? ==>
          s.publications[p].previous.value < |s.publications| && Finished(s.publications[s.publications[p].previous.value]))
  }

  function Started(s: Slot, p: nat): Slot
    requires p < |s.publications|
  {
    if !Current(s, s.publications[p].generation) then SetPhase(s, p, Done(false))
    else if s.publications[p].persist.Keep? then Complete(s, p)
    else SetPhase(s, p, Storing(false))
  }

  predicate InStore(s: Slot, p: nat) { p < |s.publications| && s.publications[p].phase.Storing? }

  /** The store has done what it was asked. */
  function StoreApplied(s: Slot, p: nat): Slot
    requires p < |s.publications|
  {
    var pub := s.publications[p];
    var models := if pub.persist.Write? then Some(pub.persist.models) else None;
    SetPhase(s, p, Storing(true)).(storage := models, log := s.log + [Stored(p, pub.generation, models)])
  }

  /** The store's promise has settled; it is checked again whether the refresh is still current. */
  function Resumed(s: Slot, p: nat, ok: bool): Slot
    requires p < |s.publications|
  {
    if ok && Current(s, s.publications[p].generation) then Complete(s, p) else SetPhase(s, p, Done(false))
  }

  /** One step; a step that is not possible changes nothing. A store that reports success has applied its change, and
      applies it at most once. */
  function Apply(s: Slot, step: Step): Slot {
    match step
    case Supersede => Superseded(s)
    case Provide(initial) => Superseded(s).(memory := initial, provided := Provided(initial, |s.log|))
    case Begin => Superseded(s).(controller := Some(s.generation + 1))
    case Abort(g) => s.(aborted := s.aborted + {g})
    case EndRefresh(g) => if s.controller == Some(g) then s.(controller := None) else s
    case Publish(g, persist, update) =>
      if 0 < g <= s.generation then
        s.(publications := s.publications + [Publication(g, s.chain, persist, update, Waiting)],
           chain := Some(|s.publications|))
      else s
    case Start(p) => if MayStart(s, p) then Started(s, p) else s
    case ApplyStore(p) => if InStore(s, p) && !s.publications[p].phase.applied then StoreApplied(s, p) else s
    case Resume(p, ok) => if InStore(s, p) && (ok ==> s.publications[p].phase.applied) then Resumed(s, p, ok) else s
    case SettleTail(p) =>
      if p < |s.publications| && Finished(s.publications[p]) && s.chain == Some(p) then s.(chain := None) else s
  }

  /** The state after any interleaving of steps. */
  function Run(steps: seq<Step>): Slot {
    if steps == [] then EMPTY else Apply(Run(steps[..|steps| - 1]), steps[|steps| - 1])
  }

  // ----- Publications run one at a time, in call order -----

  /** Everything before `n` is finished. */
  predicate FinishedBelow(s: Slot, n: nat) {
    forall q | 0 <= q < n && q < |s.publications| :: Finished(s.publications[q])
  }

  /** A publication that has started comes after none that has not finished. */
  predicate Serial(s: Slot) {
    forall p | 0 <= p < |s.publications| && !s.publications[p].phase.Waiting? :: FinishedBelow(s, p)
  }

  /** The chain ends in the last publication; a publication waits for the one before it, unless all before it had
      finished when it was queued. */
  predicate Chained(s: Slot) {
    && (s.chain.Some? ==> s.chain.value + 1 == |s.publications|)
    && (s.chain.None? ==> FinishedBelow(s, |s.publications|))
    && (forall p | 0 <= p < |s.publications| && s.publications[p].phase.Waiting? ::
          if s.publications[p].previous.Some? then s.publications[p].previous.value + 1 == p else FinishedBelow(s, p))
  }

  predicate InOrder(s: Slot) { Serial(s) && Chained(s) }

  /** At most one publication is at work at any time. */
  lemma OneAtATime(s: Slot, p: nat, q: nat)
    requires Serial(s) && InStore(s, p) && InStore(s, q)
    ensures p == q
  {
    assert FinishedBelow(s, p) && FinishedBelow(s, q);
  }

  lemma PhaseKeepsOrder(s: Slot, p: nat, phase: Phase)
    requires InOrder(s) && p < |s.publications| && !phase.Waiting? && FinishedBelow(s, p)
    requires !Finished(s.publications[p])
    ensures InOrder(SetPhase(s, p, phase))
  {
    var t := SetPhase(s, p, phase);
    forall q | 0 <= q < |t.publications| && !t.publications[q].phase.Waiting?
      ensures FinishedBelow(t, q)
    {
      assert q == p || FinishedBelow(s, q);
    }
  }

  /** What a step may do to the publications: nothing, queue one, settle the chain, or move one that is next. */
  lemma StepKeepsOrder(s: Slot, step: Step)
    requires InOrder(s)
    ensures InOrder(Apply(s, step))
  {
    match step
    case Start(p) =>
      if MayStart(s, p) {
        NextInLine(s, p);
        StartKeepsOrder(s, p);
      }
    case ApplyStore(p) =>
      if InStore(s, p) {
        PhaseKeepsOrder(s, p, Storing(true));
      }
    case Resume(p, ok) =>
      if InStore(s, p) {
        PhaseKeepsOrder(s, p, Done(true));
        PhaseKeepsOrder(s, p, Done(false));
      }
    case Publish(g, persist, update) => PublishKeepsOrder(s, g, persist, update);
    case _ =>
  }

  lemma NextInLine(s: Slot, p: nat)
    requires InOrder(s) && MayStart(s, p)
    ensures FinishedBelow(s, p)
  {
    if s.publications[p].previous.Some? {
      assert !s.publications[p - 1].phase.Waiting?;
      assert FinishedBelow(s, p - 1);
    }
  }

  lemma StartKeepsOrder(s: Slot, p: nat)
    requires InOrder(s) && MayStart(s, p) && FinishedBelow(s, p)
    ensures InOrder(Started(s, p))
  {
    PhaseKeepsOrder(s, p, Done(true));
    PhaseKeepsOrder(s, p, Done(false));
    PhaseKeepsOrder(s, p, Storing(false));
  }

  lemma PublishKeepsOrder(s: Slot, g: nat, persist: Persist, update: Option<Models>)
    requires InOrder(s)
    ensures InOrder(Apply(s, Publish(g, persist, update)))
  {
    var t := Apply(s, Publish(g, persist, update));
    forall p | 0 <= p < |t.publications| && !t.publications[p].phase.Waiting?
      ensures FinishedBelow(t, p)
    {
      assert p < |s.publications| && FinishedBelow(s, p);
    }
  }

  lemma {:induction false} RunInOrder(steps: seq<Step>)
    ensures InOrder(Run(steps))
  {
    if steps != [] {
      RunInOrder(steps[..|steps| - 1]);
      StepKeepsOrder(Run(steps[..|steps| - 1]), steps[|steps| - 1]);
    }
  }

  // ----- The effects come in the order of publications and of generations -----

  predicate EffectOf(s: Slot, e: Effect) {
    && e.publication < |s.publications| && !s.publications[e.publication].phase.Waiting?
    && e.generation == s.publications[e.publication].generation && e.generation <= s.generation
  }

  predicate LogOrdered(log: seq<Effect>) {
    forall i, j | 0 <= i < j < |log| :: log[i].publication <= log[j].publication && log[i].generation <= log[j].generation
  }

  /** No effect came from a later generation than the publication at work. */
  predicate AtWork(s: Slot, p: nat)
    requires p < |s.publications|
  {
    && s.publications[p].generation <= s.generation
    && forall e | e in s.log :: e.generation <= s.publications[p].generation
  }

  predicate LogSound(s: Slot) {
    && (forall e | e in s.log :: EffectOf(s, e))
    && LogOrdered(s.log)
    && (forall p | 0 <= p < |s.publications| && s.publications[p].phase.Storing? :: AtWork(s, p))
  }

  lemma OneMoreEffect(log: seq<Effect>, e: Effect)
    requires LogOrdered(log)
    requires forall x | x in log :: x.publication <= e.publication && x.generation <= e.generation
    ensures LogOrdered(log + [e])
  {
  }

  /** Whatever has had an effect is not later than a publication that has not finished. */
  lemma EffectsNotLater(s: Slot, p: nat)
    requires InOrder(s) && LogSound(s) && p < |s.publications| && !Finished(s.publications[p])
    ensures forall e | e in s.log :: e.publication <= p
  {
    forall e | e in s.log
      ensures e.publication <= p
    {
      assert EffectOf(s, e) && FinishedBelow(s, e.publication);
    }
  }

  lemma OnlyOneInStore(s: Slot, p: nat)
    requires InOrder(s) && p < |s.publications| && !Finished(s.publications[p]) && FinishedBelow(s, p)
    ensures forall q | InStore(s, q) :: q == p
  {
    forall q | InStore(s, q)
      ensures q == p
    {
      assert FinishedBelow(s, q);
    }
  }

  /** A phase changes, and perhaps the publication has an effect. */
  lemma PhaseKeepsLog(s: Slot, p: nat, phase: Phase, effects: seq<Effect>)
    requires InOrder(s) && LogSound(s) && p < |s.publications| && !Finished(s.publications[p]) && !phase.Waiting?
    requires AtWork(s, p) && FinishedBelow(s, p)
    requires effects == [] || (|effects| == 1 && effects[0].publication == p
                               && effects[0].generation == s.publications[p].generation)
    ensures LogSound(SetPhase(s, p, phase).(log := s.log + effects))
  {
    var t := SetPhase(s, p, phase).(log := s.log + effects);
    EffectsNotLater(s, p);
    if effects != [] {
      OneMoreEffect(s.log, effects[0]);
      assert effects == [effects[0]];
    } else {
      assert s.log + [] == s.log;
    }
    OnlyOneInStore(s, p);
    assert forall q | 0 <= q < |t.publications| && t.publications[q].phase.Storing? :: q == p || InStore(s, q);
  }

  lemma CompleteKeepsLog(s: Slot, p: nat)
    requires InOrder(s) && LogSound(s) && p < |s.publications| && !Finished(s.publications[p])
    requires AtWork(s, p) && FinishedBelow(s, p)
    ensures LogSound(Complete(s, p))
  {
    var pub := s.publications[p];
    if pub.update.Some? {
      PhaseKeepsLog(s, p, Done(true), [Updated(p, pub.generation, pub.update.value)]);
    } else {
      PhaseKeepsLog(s, p, Done(true), []);
      assert s.log + [] == s.log;
    }
  }

  lemma CurrentIsAtWork(s: Slot, p: nat)
    requires LogSound(s) && p < |s.publications| && s.generation == s.publications[p].generation
    ensures AtWork(s, p)
  {
    forall e | e in s.log
      ensures e.generation <= s.publications[p].generation
    {
      assert EffectOf(s, e);
    }
  }

  lemma StartKeepsLog(s: Slot, p: nat)
    requires InOrder(s) && LogSound(s) && MayStart(s, p)
    ensures LogSound(Started(s, p))
  {
    NextInLine(s, p);
    assert s.log + [] == s.log;
    if !Current(s, s.publications[p].generation) {
      IdleKeepsLog(s, p);
    } else {
      CurrentIsAtWork(s, p);
      CompleteKeepsLog(s, p);
      PhaseKeepsLog(s, p, Storing(false), []);
    }
  }

  /** A publication that is given up has no effect. */
  lemma IdleKeepsLog(s: Slot, p: nat)
    requires LogSound(s) && p < |s.publications|
    ensures LogSound(SetPhase(s, p, Done(false)))
  {
    var t := SetPhase(s, p, Done(false));
    forall e | e in t.log
      ensures EffectOf(t, e)
    {
      assert EffectOf(s, e);
    }
    forall q | 0 <= q < |t.publications| && t.publications[q].phase.Storing?
      ensures AtWork(t, q)
    {
      assert AtWork(s, q);
    }
  }

  lemma StoreKeepsLog(s: Slot, p: nat)
    requires InOrder(s) && LogSound(s) && InStore(s, p)
    ensures LogSound(StoreApplied(s, p))
    ensures forall ok :: LogSound(Resumed(s, p, ok))
  {
    assert FinishedBelow(s, p) && AtWork(s, p);
    var pub := s.publications[p];
    var models := if pub.persist.Write? then Some(pub.persist.models) else None;
    PhaseKeepsLog(s, p, Storing(true), [Stored(p, pub.generation, models)]);
    CompleteKeepsLog(s, p);
    IdleKeepsLog(s, p);
  }

  /** A step that leaves the publications in place, or adds one that waits, and lets no generation go back. */
  lemma OtherKeepsLog(s: Slot, step: Step)
    requires LogSound(s) && !step.Start? && !step.ApplyStore? && !step.Resume?
    ensures LogSound(Apply(s, step))
  {
    var t := Apply(s, step);
    assert t.log == s.log && s.generation <= t.generation && s.publications <= t.publications;
    forall e | e in t.log
      ensures EffectOf(t, e)
    {
      assert EffectOf(s, e);
    }
    forall q | 0 <= q < |t.publications| && t.publications[q].phase.Storing?
      ensures AtWork(t, q)
    {
      assert q < |s.publications| && AtWork(s, q);
    }
  }

  lemma {:induction false} StepKeepsLog(s: Slot, step: Step)
    requires InOrder(s) && LogSound(s)
    ensures LogSound(Apply(s, step))
  {
    match step
    case Start(p) => if MayStart(s, p) { StartKeepsLog(s, p); }
    case ApplyStore(p) => if InStore(s, p) { StoreKeepsLog(s, p); }
    case Resume(p, ok) => if InStore(s, p) { StoreKeepsLog(s, p); }
    case _ => OtherKeepsLog(s, step);
  }

  lemma {:induction false} RunLogSound(steps: seq<Step>)
    ensures LogSound(Run(steps))
  {
    if steps != [] {
      RunLogSound(steps[..|steps| - 1]);
      RunInOrder(steps[..|steps| - 1]);
      StepKeepsLog(Run(steps[..|steps| - 1]), steps[|steps| - 1]);
    }
  }

  /** Over any interleaving the effects on storage and memory come in the order in which the publications were made, and
      their generations never go back: an older refresh, however slow, never overwrites what a newer one did. */
  lemma OlderNeverOverwritesNewer(steps: seq<Step>, i: nat, j: nat)
    requires i < j < |Run(steps).log|
    ensures Run(steps).log[i].generation <= Run(steps).log[j].generation
    ensures Run(steps).log[i].publication <= Run(steps).log[j].publication
  {
    RunLogSound(steps);
  }

  // ----- What is superseded or aborted updates no more -----

  predicate NewUpdatesAreFrom(s: Slot, t: Slot, generation: nat) {
    s.log <= t.log && forall k | |s.log| <= k < |t.log| && t.log[k].Updated? :: t.log[k].generation >= generation
  }

  /** Whatever is updated in a step is updated by the current refresh, which has not been aborted. */
  lemma UpdatesAreCurrent(s: Slot, step: Step, k: nat)
    requires |s.log| <= k < |Apply(s, step).log| && Apply(s, step).log[k].Updated?
    ensures Current(s, Apply(s, step).log[k].generation)
    ensures s.log <= Apply(s, step).log
  {
  }

  lemma StepUpdatesCurrent(s: Slot, step: Step)
    ensures NewUpdatesAreFrom(s, Apply(s, step), s.generation)
    ensures s.generation <= Apply(s, step).generation
  {
  }

  /** Once a generation is superseded none of its updates runs, whatever is still in flight. */
  lemma {:induction false} SupersededNeverUpdates(steps: seq<Step>, more: seq<Step>)
    requires steps <= more
    ensures NewUpdatesAreFrom(Run(steps), Run(more), Run(steps).generation)
    ensures Run(steps).generation <= Run(more).generation
    decreases |more|
  {
    if steps != more {
      var before := more[..|more| - 1];
      assert steps <= before;
      SupersededNeverUpdates(steps, before);
      StepUpdatesCurrent(Run(before), more[|more| - 1]);
    }
  }

  // ----- Storage and memory are what the last effects made them -----

  function StorageFrom(log: seq<Effect>): Option<Models> {
    if log == [] then None
    else if log[|log| - 1].Stored? then log[|log| - 1].content
    else StorageFrom(log[..|log| - 1])
  }

  function MemoryFrom(initial: Models, log: seq<Effect>): Models {
    if log == [] then initial
    else if log[|log| - 1].Updated? then log[|log| - 1].models
    else MemoryFrom(initial, log[..|log| - 1])
  }

  /** What a publication asks of the store. */
  function Asked(pub: Publication): Option<Models> {
    if pub.persist.Write? then Some(pub.persist.models) else None
  }

  predicate Recorded(s: Slot) {
    && s.storage == StorageFrom(s.log)
    && s.provided.since <= |s.log| && s.memory == MemoryFrom(s.provided.initial, s.log[s.provided.since..])
    && (forall p | 0 <= p < |s.publications| && s.publications[p].phase.Storing? ::
          !s.publications[p].persist.Keep?
          && (s.publications[p].phase.applied ==> s.storage == Asked(s.publications[p])))
  }

  lemma {:induction false} StorageOneMore(log: seq<Effect>, e: Effect)
    ensures StorageFrom(log + [e]) == if e.Stored? then e.content else StorageFrom(log)
  {
    assert (log + [e])[..|log|] == log;
  }

  lemma {:induction false} MemoryOneMore(initial: Models, log: seq<Effect>, e: Effect)
    ensures MemoryFrom(initial, log + [e]) == if e.Updated? then e.models else MemoryFrom(initial, log)
  {
    assert (log + [e])[..|log|] == log;
  }

  lemma {:induction false} EffectRecorded(log: seq<Effect>, e: Effect, provided: Provided)
    requires provided.since <= |log|
    ensures StorageFrom(log + [e]) == if e.Stored? then e.content else StorageFrom(log)
    ensures MemoryFrom(provided.initial, (log + [e])[provided.since..]) ==
              if e.Updated? then e.models else MemoryFrom(provided.initial, log[provided.since..])
  {
    StorageOneMore(log, e);
    MemoryOneMore(provided.initial, log[provided.since..], e);
    assert (log + [e])[provided.since..] == log[provided.since..] + [e];
  }

  lemma CompleteRecorded(s: Slot, p: nat)
    requires Recorded(s) && p < |s.publications|
    ensures Recorded(Complete(s, p))
  {
    var pub := s.publications[p];
    if pub.update.Some? {
      EffectRecorded(s.log, Updated(p, pub.generation, pub.update.value), s.provided);
    }
  }

  lemma StartRecorded(s: Slot, p: nat)
    requires Recorded(s) && p < |s.publications|
    ensures Recorded(Started(s, p))
  {
    CompleteRecorded(s, p);
  }

  lemma ResumeRecorded(s: Slot, p: nat, ok: bool)
    requires Recorded(s) && p < |s.publications|
    ensures Recorded(Resumed(s, p, ok))
  {
    CompleteRecorded(s, p);
  }

  lemma StoreRecorded(s: Slot, p: nat)
    requires InOrder(s) && Recorded(s) && InStore(s, p)
    ensures Recorded(StoreApplied(s, p))
  {
    var t := StoreApplied(s, p);
    EffectRecorded(s.log, Stored(p, s.publications[p].generation, Asked(s.publications[p])), s.provided);
    forall q | 0 <= q < |t.publications| && t.publications[q].phase.Storing? && t.publications[q].phase.applied
      ensures t.storage == Asked(t.publications[q])
    {
      OneAtATime(s, p, q);
    }
  }

  lemma StepRecorded(s: Slot, step: Step)
    requires InOrder(s) && Recorded(s)
    ensures Recorded(Apply(s, step))
  {
    match step
    case Start(p) => if MayStart(s, p) { StartRecorded(s, p); }
    case ApplyStore(p) => if InStore(s, p) { StoreRecorded(s, p); }
    case Resume(p, ok) => if InStore(s, p) { ResumeRecorded(s, p, ok); }
    case Provide(initial) => assert s.log[|s.log|..] == [];
    case _ =>
  }

  lemma {:induction false} RunRecorded(steps: seq<Step>)
    ensures Recorded(Run(steps))
  {
    if steps != [] {
      RunRecorded(steps[..|steps| - 1]);
      RunInOrder(steps[..|steps| - 1]);
      StepRecorded(Run(steps[..|steps| - 1]), steps[|steps| - 1]);
    }
  }

  /** When a publication that stores a list and updates to the same list (as a provider does after it has fetched)
      succeeds, storage and memory hold that list; when it does not, memory is as it was. */
  lemma PublishedIsStored(steps: seq<Step>, p: nat, ok: bool)
    requires InStore(Run(steps), p)
    requires Run(steps).publications[p].persist.Write?
    requires Run(steps).publications[p].update == Some(Run(steps).publications[p].persist.models)
    ensures
      var s, t := Run(steps), Apply(Run(steps), Resume(p, ok));
      if t.publications[p].phase == Done(true) then
        t.memory == s.publications[p].persist.models && t.storage == Some(t.memory)
      else t.memory == s.memory
  {
    RunRecorded(steps);
  }
}
