/** The log of a batch of tool calls: what may happen to the calls of one reply, in which order. */
module AgentTools {
  import opened Text
  import opened Folds
  import opened AgentTrace

  datatype ToolStep =
    | Began(i: nat)
    | Updated(i: nat, partial: string)
    | Ended(i: nat, outcome: ToolOutcome)
    | Announced(i: nat, message: Message)

  /** Where a batch is: how many calls have begun, which of them still run, how the others ended, which results are out. */
  datatype Batch =
    | Batch(began: nat, live: set<nat>, ended: map<nat, ToolOutcome>, announced: seq<Message>)
    | Wrong

  const NO_CALLS := Batch(0, {}, map[], [])

  /** Calls begin in order; only a running call reports progress or ends; results come out in order, of ended calls. */
  function Advance(b: Batch, step: ToolStep): Batch {
    if b.Wrong? then Wrong
    else
      match step
      case Began(i) => if i == b.began then b.(began := i + 1, live := b.live + {i}) else Wrong
      case Updated(i, _) => if i in b.live then b else Wrong
      case Ended(i, outcome) => if i in b.live then b.(live := b.live - {i}, ended := b.ended[i := outcome]) else Wrong
      case Announced(i, m) =>
        if i == |b.announced| && i in b.ended && m.ToolResult? then b.(announced := b.announced + [m]) else Wrong
  }

  function BatchOf(log: seq<ToolStep>): Batch { Fold(Advance, NO_CALLS, log) }

  function ResultMessage(call: ToolCall, outcome: ToolOutcome): Message {
    ToolResult(call.id, call.name, outcome.content, outcome.isError)
  }

  /** The result messages of a batch: one for each call that was started, in the order of the calls. They are determined
      by the outcomes alone. */
  function ResultMessages(calls: seq<ToolCall>, outcomes: seq<ToolOutcome>): (r: seq<Message>)
    requires |outcomes| <= |calls|
    ensures |r| == |outcomes| && forall i | 0 <= i < |r| :: r[i] == ResultMessage(calls[i], outcomes[i])
  {
    seq(|outcomes|, i requires 0 <= i < |outcomes| => ResultMessage(calls[i], outcomes[i]))
  }

  lemma OneMoreResult(calls: seq<ToolCall>, outcomes: seq<ToolOutcome>, outcome: ToolOutcome)
    requires |outcomes| < |calls|
    ensures ResultMessages(calls, outcomes + [outcome])
            == ResultMessages(calls, outcomes) + [ResultMessage(calls[|outcomes|], outcome)]
  {
  }

  /** The started calls have all ended, and their results, and no others, are out. */
  predicate AllDone(b: Batch, calls: seq<ToolCall>, outcomes: seq<ToolOutcome>) {
    && |outcomes| <= |calls| && b.Batch? && b.began == |outcomes| && b.live == {}
    && (forall i | 0 <= i < |outcomes| :: i in b.ended && b.ended[i] == outcomes[i])
    && b.announced == ResultMessages(calls, outcomes)
  }

  predicate Complete(log: seq<ToolStep>, calls: seq<ToolCall>, outcomes: seq<ToolOutcome>) {
    AllDone(BatchOf(log), calls, outcomes)
  }

  /** `shouldTerminateToolBatch` */
  predicate ShouldTerminate(outcomes: seq<ToolOutcome>) {
    outcomes != [] && forall o | o in outcomes :: o.terminate
  }

  // ----- The events of a batch -----

  function CallAt(calls: seq<ToolCall>, i: nat): ToolCall {
    if i < |calls| then calls[i] else ToolCall("", "", "")
  }

  function StepEvents(calls: seq<ToolCall>, step: ToolStep): seq<Event> {
    match step
    case Began(i) => [ToolStart(CallAt(calls, i))]
    case Updated(i, partial) => [ToolUpdate(CallAt(calls, i), partial)]
    case Ended(i, outcome) => [ToolEnd(CallAt(calls, i), outcome)]
    case Announced(_, m) => Announce(m)
  }

  function LogEvents(calls: seq<ToolCall>, log: seq<ToolStep>): seq<Event> {
    if log == [] then [] else LogEvents(calls, log[..|log| - 1]) + StepEvents(calls, log[|log| - 1])
  }

  lemma LogOneMore(calls: seq<ToolCall>, log: seq<ToolStep>, step: ToolStep)
    ensures LogEvents(calls, log + [step]) == LogEvents(calls, log) + StepEvents(calls, step)
    ensures BatchOf(log + [step]) == Advance(BatchOf(log), step)
  {
    assert (log + [step])[..|log|] == log;
  }

  lemma StepReduces(s: AgentState, calls: seq<ToolCall>, step: ToolStep)
    ensures Fold(Reduce, s, StepEvents(calls, step)) ==
            match step
            case Began(i) => s.(pendingCalls := s.pendingCalls + {CallAt(calls, i).id})
            case Updated(_, _) => s
            case Ended(i, _) => s.(pendingCalls := s.pendingCalls - {CallAt(calls, i).id})
            case Announced(_, m) => s.(streaming := None, messages := s.messages + [m])
  {
    match step
    case Began(i) => FoldTwo(Reduce, s, ToolStart(CallAt(calls, i)), ToolStart(CallAt(calls, i)));
    case Updated(i, p) => FoldTwo(Reduce, s, ToolUpdate(CallAt(calls, i), p), ToolUpdate(CallAt(calls, i), p));
    case Ended(i, o) => FoldTwo(Reduce, s, ToolEnd(CallAt(calls, i), o), ToolEnd(CallAt(calls, i), o));
    case Announced(_, m) => FoldTwo(Reduce, s, MessageStart(m), MessageEnd(m));
  }

  /** Every call the agent takes for pending is one that still runs. */
  predicate PendingRun(pending: set<string>, calls: seq<ToolCall>, live: set<nat>) {
    forall id | id in pending :: exists i :: i in live && CallAt(calls, i).id == id
  }

  predicate HeardBatch(s: AgentState, t: AgentState, calls: seq<ToolCall>, b: Batch) {
    && b.Batch? && t.messages == s.messages + b.announced && t.errorMessage == s.errorMessage && t.streaming.None?
    && PendingRun(t.pendingCalls, calls, b.live)
  }

  lemma HearStep(s: AgentState, t: AgentState, calls: seq<ToolCall>, b: Batch, step: ToolStep)
    requires HeardBatch(s, t, calls, b) && Advance(b, step).Batch?
    ensures HeardBatch(s, Fold(Reduce, t, StepEvents(calls, step)), calls, Advance(b, step))
  {
    StepReduces(t, calls, step);
    var u, c := Fold(Reduce, t, StepEvents(calls, step)), Advance(b, step);
    forall id | id in u.pendingCalls
      ensures exists i :: i in c.live && CallAt(calls, i).id == id
    {
      if id in t.pendingCalls {
        var i :| i in b.live && CallAt(calls, i).id == id;
        assert i in c.live;
      } else {
        assert step.i in c.live;
      }
    }
  }

  lemma WrongStays(log: seq<ToolStep>)
    requires log != [] && BatchOf(log).Batch?
    ensures BatchOf(log[..|log| - 1]).Batch?
  {
  }

  /** Two calls may even share an id: what the agent takes for pending is always among what runs. */
  lemma {:induction false} BatchReduces(s: AgentState, calls: seq<ToolCall>, log: seq<ToolStep>)
    requires s.pendingCalls == {} && s.streaming.None? && BatchOf(log).Batch?
    ensures HeardBatch(s, Fold(Reduce, s, LogEvents(calls, log)), calls, BatchOf(log))
  {
    if log != [] {
      var init, step := log[..|log| - 1], log[|log| - 1];
      WrongStays(log);
      BatchReduces(s, calls, init);
      HearStep(s, Fold(Reduce, s, LogEvents(calls, init)), calls, BatchOf(init), step);
      FoldAppend(Reduce, s, LogEvents(calls, init), StepEvents(calls, step));
    }
  }

  lemma StepAccepted(turns: nat, calls: seq<ToolCall>, results: seq<Message>, step: ToolStep)
    requires step.Announced? ==> step.message.ToolResult?
    ensures Fold(Accept, InTurn(turns, Nothing, true, results), StepEvents(calls, step))
            == InTurn(turns, Nothing, true, if step.Announced? then results + [step.message] else results)
  {
    var g := InTurn(turns, Nothing, true, results);
    match step
    case Began(i) => FoldTwo(Accept, g, ToolStart(CallAt(calls, i)), ToolStart(CallAt(calls, i)));
    case Updated(i, p) => FoldTwo(Accept, g, ToolUpdate(CallAt(calls, i), p), ToolUpdate(CallAt(calls, i), p));
    case Ended(i, o) => FoldTwo(Accept, g, ToolEnd(CallAt(calls, i), o), ToolEnd(CallAt(calls, i), o));
    case Announced(_, m) => FoldTwo(Accept, g, MessageStart(m), MessageEnd(m));
  }

  /** What the grammar knows of a batch: the results that are out. */
  function After(turns: nat, b: Batch): Grammar
    requires b.Batch?
  {
    InTurn(turns, Nothing, true, b.announced)
  }

  lemma AcceptStep(turns: nat, calls: seq<ToolCall>, b: Batch, step: ToolStep)
    requires b.Batch? && Advance(b, step).Batch?
    ensures Fold(Accept, After(turns, b), StepEvents(calls, step)) == After(turns, Advance(b, step))
  {
    StepAccepted(turns, calls, b.announced, step);
  }

  lemma {:induction false} BatchAccepted(turns: nat, calls: seq<ToolCall>, log: seq<ToolStep>)
    requires BatchOf(log).Batch?
    ensures Fold(Accept, After(turns, NO_CALLS), LogEvents(calls, log)) == After(turns, BatchOf(log))
  {
    if log != [] {
      var init, step := log[..|log| - 1], log[|log| - 1];
      WrongStays(log);
      BatchAccepted(turns, calls, init);
      AcceptStep(turns, calls, BatchOf(init), step);
      FoldAppend(Accept, After(turns, NO_CALLS), LogEvents(calls, init), StepEvents(calls, step));
    }
  }

  // ----- The life of one call -----

  function StepsOf(log: seq<ToolStep>, i: nat): seq<ToolStep> {
    if log == [] then []
    else
      var before := StepsOf(log[..|log| - 1], i);
      if log[|log| - 1].i == i then before + [log[|log| - 1]] else before
  }

  /** Begun, then only updates. */
  predicate RunsOn(steps: seq<ToolStep>) {
    steps != [] && steps[0].Began? && forall k | 1 <= k < |steps| :: steps[k].Updated?
  }

  /** Begun, then only updates, then ended. */
  predicate RanThrough(steps: seq<ToolStep>) {
    steps != [] && steps[|steps| - 1].Ended? && RunsOn(steps[..|steps| - 1])
  }

  predicate Announcing(steps: seq<ToolStep>) {
    steps != [] && steps[|steps| - 1].Announced? && RanThrough(steps[..|steps| - 1])
  }

  predicate LifeOk(steps: seq<ToolStep>, b: Batch, i: nat)
    requires b.Batch?
  {
    if b.began <= i then steps == [] && i !in b.live && i !in b.ended && |b.announced| <= i
    else if i in b.live then RunsOn(steps) && i !in b.ended && |b.announced| <= i
    else if |b.announced| <= i then i in b.ended && RanThrough(steps)
    else i in b.ended && Announcing(steps)
  }

  lemma LifeGoesOn(steps: seq<ToolStep>, b: Batch, i: nat, step: ToolStep)
    requires b.Batch? && Advance(b, step).Batch? && LifeOk(steps, b, i)
    requires step.Ended? ==> step.i !in b.ended
    ensures LifeOk(if step.i == i then steps + [step] else steps, Advance(b, step), i)
  {
    assert (steps + [step])[..|steps|] == steps;
  }

  lemma {:induction false} CallLives(log: seq<ToolStep>, i: nat)
    requires BatchOf(log).Batch?
    ensures LifeOk(StepsOf(log, i), BatchOf(log), i)
  {
    if log != [] {
      var init, step := log[..|log| - 1], log[|log| - 1];
      WrongStays(log);
      CallLives(init, i);
      CallLives(init, step.i);
      LifeGoesOn(StepsOf(init, i), BatchOf(init), i, step);
    }
  }

  predicate DistinctCalls(calls: seq<ToolCall>) {
    forall j, k | 0 <= j < k < |calls| :: calls[j].id != calls[k].id
  }

  /** If the calls have different ids, every call that runs is also pending, so that the pending ones are those that run. */
  lemma {:induction false} RunningIsPending(s: AgentState, calls: seq<ToolCall>, log: seq<ToolStep>, i: nat)
    requires DistinctCalls(calls) && BatchOf(log).Batch? && BatchOf(log).began <= |calls| && i in BatchOf(log).live
    ensures i < |calls| && calls[i].id in Fold(Reduce, s, LogEvents(calls, log)).pendingCalls
  {
    var init, step := log[..|log| - 1], log[|log| - 1];
    WrongStays(log);
    CallLives(log, i);
    FoldAppend(Reduce, s, LogEvents(calls, init), StepEvents(calls, step));
    StepReduces(Fold(Reduce, s, LogEvents(calls, init)), calls, step);
    if step != Began(i) {
      RunningIsPending(s, calls, init, i);
      CallLives(init, step.i);
    }
  }

  /** In a finished batch each started call began once, then reported progress, then ended once, and only then its
      result came out; calls that were not started did nothing. */
  lemma EachCallOnce(log: seq<ToolStep>, calls: seq<ToolCall>, outcomes: seq<ToolOutcome>, i: nat)
    requires Complete(log, calls, outcomes)
    ensures if i < |outcomes| then Announcing(StepsOf(log, i)) else StepsOf(log, i) == []
  {
    CallLives(log, i);
  }
}
