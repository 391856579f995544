/** The models object: maps from providers to generations, controllers and chains, and the methods that update them, each
    proved to make the one step of `ModelsProtocol` for its provider and none for any other. */
module ModelsRefresh {
  import opened Text
  import opened ModelsProtocol
  import P = ModelsProtocol

  function GetOr<T>(m: map<string, T>, id: string, default: T): T {
    if id in m then m[id] else default
  }

  function Find<T>(m: map<string, T>, id: string): Option<T> {
    if id in m then Some(m[id]) else None
  }

  class ModelsImpl {
    var providers: set<string>
    var refreshGenerations: map<string, nat>
    var refreshControllers: map<string, nat>
    var publicationChains: map<string, nat>
    /** The signals that are aborted, the publications in flight, the store, and the lists the providers hold. */
    var abortedSignals: map<string, set<nat>>
    var publications: map<string, seq<Publication>>
    var modelsStore: map<string, Models>
    var dynamicModels: map<string, Models>
    ghost var logs: map<string, seq<Effect>>
    ghost var provided: map<string, Provided>

    ghost function View(id: string): Slot
      reads this
    {
      Slot(GetOr(refreshGenerations, id, 0), Find(refreshControllers, id), GetOr(abortedSignals, id, {}),
           Find(publicationChains, id), GetOr(publications, id, []),
           Find(modelsStore, id), GetOr(dynamicModels, id, []), GetOr(provided, id, Provided([], 0)), GetOr(logs, id, []))
    }

    twostate predicate OthersKept(id: string)
      reads this
    {
      forall other: string | other != id :: View(other) == old(View(other))
    }

    constructor ()
      ensures forall id: string :: View(id) == EMPTY
    {
      providers, refreshGenerations, refreshControllers, publicationChains := {}, map[], map[], map[];
      abortedSignals, publications, modelsStore, dynamicModels, logs, provided := map[], map[], map[], map[], map[], map[];
    }

    method SupersedeProviderRefresh(id: string) returns (generation: nat)
      modifies `refreshGenerations, `refreshControllers, `abortedSignals
      ensures View(id) == P.Apply(old(View(id)), Supersede) && OthersKept(id)
      ensures generation == View(id).generation
    {
      generation := GetOr(refreshGenerations, id, 0) + 1;
      refreshGenerations := refreshGenerations[id := generation];
      if id in refreshControllers {
        abortedSignals := abortedSignals[id := GetOr(abortedSignals, id, {}) + {refreshControllers[id]}];
        refreshControllers := refreshControllers - {id};
      }
    }

    method BeginProviderRefresh(id: string) returns (generation: nat)
      modifies `refreshGenerations, `refreshControllers, `abortedSignals
      ensures View(id) == P.Apply(old(View(id)), Begin) && OthersKept(id)
      ensures generation == View(id).generation
    {
      generation := SupersedeProviderRefresh(id);
      refreshControllers := refreshControllers[id := generation];
    }

    /** The provider that is put in place holds a list of its own. */
    method SetProvider(id: string, initial: Models)
      modifies this
      ensures View(id) == P.Apply(old(View(id)), Provide(initial)) && OthersKept(id) && providers == old(providers) + {id}
    {
      var _ := SupersedeProviderRefresh(id);
      providers := providers + {id};
      dynamicModels := dynamicModels[id := initial];
      provided := provided[id := Provided(initial, |GetOr(logs, id, [])|)];
    }

    method DeleteProvider(id: string)
      modifies this
      ensures View(id) == P.Apply(old(View(id)), Supersede) && OthersKept(id) && providers == old(providers) - {id}
    {
      var _ := SupersedeProviderRefresh(id);
      providers := providers - {id};
    }

    /** Every refresh in flight is superseded: those of the providers, and those that still have a controller. */
    method ClearProviders()
      modifies this
      ensures providers == {}
      ensures forall id: string ::
                View(id) == if id in old(providers) || id in old(refreshControllers) then P.Apply(old(View(id)), Supersede)
                            else old(View(id))
    {
      var ids := providers + refreshControllers.Keys;
      var left := ids;
      while left != {}
        invariant left <= ids
        invariant forall id: string ::
                    View(id) == if id in ids && id !in left then P.Apply(old(View(id)), Supersede) else old(View(id))
      {
        var id :| id in left;
        var _ := SupersedeProviderRefresh(id);
        left := left - {id};
      }
      providers := {};
    }

    /** The signal of one refresh is aborted by its caller. */
    method AbortRefresh(id: string, generation: nat)
      modifies `abortedSignals
      ensures View(id) == P.Apply(old(View(id)), Abort(generation)) && OthersKept(id)
    {
      abortedSignals := abortedSignals[id := GetOr(abortedSignals, id, {}) + {generation}];
    }

    /** The `finally` of a refresh: its controller goes, unless a later refresh has put its own in place. */
    method EndRefresh(id: string, generation: nat)
      modifies `refreshControllers
      ensures View(id) == P.Apply(old(View(id)), P.Step.EndRefresh(generation)) && OthersKept(id)
    {
      if id in refreshControllers && refreshControllers[id] == generation {
        refreshControllers := refreshControllers - {id};
      }
    }

    /** `publishProviderModels` up to its first await. */
    method PublishProviderModels(id: string, generation: nat, persist: Persist, update: Option<Models>)
      requires 0 < generation <= View(id).generation
      modifies `publications, `publicationChains
      ensures View(id) == P.Apply(old(View(id)), Publish(generation, persist, update)) && OthersKept(id)
    {
      var before := GetOr(publications, id, []);
      var previous := Find(publicationChains, id);
      publications := publications[id := before + [Publication(generation, previous, persist, update, Waiting)]];
      publicationChains := publicationChains[id := |before|];
    }

    method SetPhase(id: string, p: nat, phase: Phase)
      requires p < |View(id).publications|
      modifies `publications
      ensures View(id) == P.SetPhase(old(View(id)), p, phase) && OthersKept(id)
    {
      var all := GetOr(publications, id, []);
      publications := publications[id := all[p := all[p].(phase := phase)]];
    }

    /** `publication.update?.()`, and the publication is done. */
    method Complete(id: string, p: nat)
      requires p < |View(id).publications|
      modifies `publications, `dynamicModels, `logs
      ensures View(id) == P.Complete(old(View(id)), p) && OthersKept(id)
    {
      var publication := GetOr(publications, id, [])[p];
      SetPhase(id, p, Done(true));
      if publication.update.Some? {
        dynamicModels := dynamicModels[id := publication.update.value];
        logs := logs[id := GetOr(logs, id, []) + [Updated(p, publication.generation, publication.update.value)]];
      }
    }

    /** `signal.aborted || refreshGenerations.get(id) !== generation` does not hold. */
    predicate StillCurrent(id: string, generation: nat)
      reads this
    {
      generation !in GetOr(abortedSignals, id, {}) && GetOr(refreshGenerations, id, 0) == generation
    }

    /** The publication goes on after the tail before it has settled. */
    method StartPublication(id: string, p: nat)
      requires MayStart(View(id), p)
      modifies this
      ensures View(id) == P.Apply(old(View(id)), Start(p)) && OthersKept(id)
    {
      var publication := GetOr(publications, id, [])[p];
      if !StillCurrent(id, publication.generation) {
        SetPhase(id, p, Done(false));
      } else if publication.persist.Keep? {
        Complete(id, p);
      } else {
        SetPhase(id, p, Storing(false));
      }
    }

    /** The store does what `write` or `delete` asked of it. */
    method StoreApplies(id: string, p: nat)
      requires InStore(View(id), p) && !View(id).publications[p].phase.applied
      modifies this
      ensures View(id) == P.Apply(old(View(id)), ApplyStore(p)) && OthersKept(id)
    {
      var publication := GetOr(publications, id, [])[p];
      SetPhase(id, p, Storing(true));
      if publication.persist.Write? {
        modelsStore := modelsStore[id := publication.persist.models];
      } else {
        modelsStore := modelsStore - {id};
      }
      logs := logs[id := GetOr(logs, id, []) + [Stored(p, publication.generation, Find(modelsStore, id))]];
    }

    /** The publication goes on after the store has answered. */
    method ResumePublication(id: string, p: nat, ok: bool)
      requires InStore(View(id), p) && (ok ==> View(id).publications[p].phase.applied)
      modifies this
      ensures View(id) == P.Apply(old(View(id)), Resume(p, ok)) && OthersKept(id)
    {
      var publication := GetOr(publications, id, [])[p];
      if ok && StillCurrent(id, publication.generation) {
        Complete(id, p);
      } else {
        SetPhase(id, p, Done(false));
      }
    }

    /** `tail.then(...)`: the chain is forgotten, unless it has grown meanwhile. */
    method SettleTail(id: string, p: nat)
      requires p < |View(id).publications| && P.Finished(View(id).publications[p])
      modifies `publicationChains
      ensures View(id) == P.Apply(old(View(id)), P.Step.SettleTail(p)) && OthersKept(id)
    {
      if id in publicationChains && publicationChains[id] == p {
        publicationChains := publicationChains - {id};
      }
    }
  }

  /** A step of one provider, if it is possible; otherwise nothing happens. */
  method Perform(models: ModelsImpl, id: string, step: Step)
    modifies models
    ensures models.View(id) == P.Apply(old(models.View(id)), step) && models.OthersKept(id)
  {
    var all := GetOr(models.publications, id, []);
    match step {
      case Supersede => models.DeleteProvider(id);
      case Provide(initial) => models.SetProvider(id, initial);
      case Begin => var _ := models.BeginProviderRefresh(id);
      case Abort(g) => models.AbortRefresh(id, g);
      case EndRefresh(g) => models.EndRefresh(id, g);
      case Publish(g, persist, update) =>
        if 0 < g <= GetOr(models.refreshGenerations, id, 0) {
          models.PublishProviderModels(id, g, persist, update);
        }
      case Start(p) =>
        if p < |all| && all[p].phase.Waiting?
           && (all[p].previous.Some? ==> all[p].previous.value < |all| && P.Finished(all[all[p].previous.value])) {
          models.StartPublication(id, p);
        }
      case ApplyStore(p) =>
        if p < |all| && all[p].phase.Storing? && !all[p].phase.applied {
          models.StoreApplies(id, p);
        }
      case Resume(p, ok) =>
        if p < |all| && all[p].phase.Storing? && (ok ==> all[p].phase.applied) {
          models.ResumePublication(id, p, ok);
        }
      case SettleTail(p) =>
        if p < |all| && P.Finished(all[p]) {
          models.SettleTail(id, p);
        }
    }
  }

  /** The steps of one provider among those of all. */
  function StepsOf(steps: seq<(string, Step)>, id: string): seq<Step> {
    if steps == [] then []
    else
      var before := StepsOf(steps[..|steps| - 1], id);
      if steps[|steps| - 1].0 == id then before + [steps[|steps| - 1].1] else before
  }

  lemma StepsOfNext(steps: seq<(string, Step)>, i: nat, id: string)
    requires i < |steps|
    ensures P.Run(StepsOf(steps[..i + 1], id)) ==
              if steps[i].0 == id then P.Apply(P.Run(StepsOf(steps[..i], id)), steps[i].1) else P.Run(StepsOf(steps[..i], id))
  {
    assert steps[..i + 1][..i] == steps[..i];
    var before := StepsOf(steps[..i], id);
    assert (before + [steps[i].1])[..|before|] == before;
  }

  /** A new object after any interleaving of steps of any providers: each provider is where its own steps put it, so every
      result about `Run` holds of it, and the refreshes of different providers do not disturb each other. */
  method Serve(steps: seq<(string, Step)>) returns (models: ModelsImpl)
    ensures forall id: string :: models.View(id) == P.Run(StepsOf(steps, id))
  {
    models := new ModelsImpl();
    var i := 0;
    while i < |steps|
      invariant 0 <= i <= |steps| && fresh(models)
      invariant forall id: string :: models.View(id) == P.Run(StepsOf(steps[..i], id))
    {
      forall id: string
        ensures P.Run(StepsOf(steps[..i + 1], id)) ==
              if steps[i].0 == id then P.Apply(P.Run(StepsOf(steps[..i], id)), steps[i].1) else P.Run(StepsOf(steps[..i], id))
      {
        StepsOfNext(steps, i, id);
      }
      Perform(models, steps[i].0, steps[i].1);
      i := i + 1;
    }
    assert steps[..i] == steps;
  }

  // ----- A provider's current list: the static one, overlaid with what was fetched -----

  datatype Model = Model(id: string, version: int)

  /** `findIndex` by id. */
  function IndexOfId(models: seq<Model>, id: string): (r: Option<nat>)
    ensures r.None? <==> forall m | m in models :: m.id != id
    ensures r.Some? ==> r.value < |models| && models[r.value].id == id && forall k | 0 <= k < r.value :: models[k].id != id
  {
    if models == [] then None
    else if models[0].id == id then Some(0)
    else
      var r := IndexOfId(models[1..], id);
      if r.Some? then Some(r.value + 1) else None
  }

  /** What `getModel` finds. */
  function Lookup(models: seq<Model>, id: string): Option<Model> {
    var r := IndexOfId(models, id);
    if r.Some? then Some(models[r.value]) else None
  }

  /** The last model of that id. */
  function LastOf(models: seq<Model>, id: string): Option<Model> {
    if models == [] then None
    else if models[|models| - 1].id == id then Some(models[|models| - 1])
    else LastOf(models[..|models| - 1], id)
  }

  function Overlay(merged: seq<Model>, model: Model): seq<Model> {
    var index := IndexOfId(merged, model.id);
    if index.Some? then merged[index.value := model] else merged + [model]
  }

  lemma IndexIs(models: seq<Model>, id: string, i: nat)
    requires i < |models| && models[i].id == id && forall k | 0 <= k < i :: models[k].id != id
    ensures IndexOfId(models, id) == Some(i)
  {
    assert models[i] in models;
  }

  lemma LookupOverlay(merged: seq<Model>, model: Model, id: string)
    ensures Lookup(Overlay(merged, model), id) == if id == model.id then Some(model) else Lookup(merged, id)
  {
    var after := Overlay(merged, model);
    var index := IndexOfId(merged, model.id);
    if id == model.id {
      if index.Some? {
        IndexIs(after, id, index.value);
      } else {
        assert forall k | 0 <= k < |merged| :: merged[k] in merged;
        IndexIs(after, id, |merged|);
      }
    } else {
      var r := IndexOfId(merged, id);
      if r.Some? {
        IndexIs(after, id, r.value);
      } else {
        assert forall m | m in after :: m.id != id;
      }
    }
  }

  /** What is found under an id is the last one fetched, or else the static one. */
  ghost predicate Overlaid(merged: seq<Model>, baseline: seq<Model>, dynamic: seq<Model>) {
    forall id :: Lookup(merged, id) == if LastOf(dynamic, id).Some? then LastOf(dynamic, id) else Lookup(baseline, id)
  }

  lemma {:induction false} OverlaidNext(merged: seq<Model>, baseline: seq<Model>, dynamic: seq<Model>, model: Model)
    requires Overlaid(merged, baseline, dynamic)
    ensures Overlaid(Overlay(merged, model), baseline, dynamic + [model])
  {
    assert (dynamic + [model])[..|dynamic|] == dynamic;
    forall id
      ensures Lookup(Overlay(merged, model), id) ==
                if LastOf(dynamic + [model], id).Some? then LastOf(dynamic + [model], id) else Lookup(baseline, id)
    {
      LookupOverlay(merged, model, id);
    }
  }

  /** `currentModels`: a fetched model takes the place of the static one of its id, and otherwise comes last. */
  method CurrentModels(baseline: seq<Model>, dynamic: seq<Model>) returns (merged: seq<Model>)
    ensures forall id :: Lookup(merged, id) == if LastOf(dynamic, id).Some? then LastOf(dynamic, id) else Lookup(baseline, id)
    ensures |baseline| <= |merged| && forall k | 0 <= k < |baseline| :: merged[k].id == baseline[k].id
    ensures forall m | m in merged :: m in baseline || m in dynamic
  {
    merged := baseline;
    var i := 0;
    while i < |dynamic|
      invariant 0 <= i <= |dynamic| && Overlaid(merged, baseline, dynamic[..i])
      invariant |baseline| <= |merged| && forall k | 0 <= k < |baseline| :: merged[k].id == baseline[k].id
      invariant forall m | m in merged :: m in baseline || m in dynamic
    {
      OverlaidNext(merged, baseline, dynamic[..i], dynamic[i]);
      assert dynamic[..i + 1] == dynamic[..i] + [dynamic[i]];
      var index := IndexOfId(merged, dynamic[i].id);
      if index.Some? {
        merged := merged[index.value := dynamic[i]];
      } else {
        merged := merged + [dynamic[i]];
      }
      i := i + 1;
    }
    assert dynamic[..i] == dynamic;
  }
}
