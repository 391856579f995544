/** Running the tool calls of one reply: failed at once, one after the other, or all together. */
module AgentBatch {
  import opened Text
  import opened Folds
  import opened AgentTrace
  import opened AgentTools
  import opened Agents

  // ----- What preparing and finishing a call comes to -----

  datatype AfterHook =
    | Unchanged
    | Override(content: Option<string>, isError: Option<bool>, terminate: Option<bool>)
    | HookThrew(error: string)

  /** What the tool does when it is run: its progress, its result (or thrown error), and what the after-hook makes of it. */
  datatype Execution = Execution(updates: seq<string>, outcome: ToolOutcome, hook: AfterHook)

  datatype BeforeHook = Allowed | Blocked(reason: string, terminate: bool)

  /** What looking up, preparing and validating a call comes to. */
  datatype Attempt = NoTool | Refused(error: string) | Runnable(hook: BeforeHook, execution: Execution)

  function ErrorOutcome(text: string): ToolOutcome { ToolOutcome(text, true, false) }

  function Or<T>(override: Option<T>, value: T): T {
    if override.Some? then override.value else value
  }

  function Finalize(e: Execution): ToolOutcome {
    match e.hook
    case Unchanged => e.outcome
    case HookThrew(error) => ErrorOutcome(error)
    case Override(content, isError, terminate) =>
      ToolOutcome(Or(content, e.outcome.content), Or(isError, e.outcome.isError), Or(terminate, e.outcome.terminate))
  }

  /** A call that is settled, or one that runs and still has some progress to report. */
  datatype Entry = Done(outcome: ToolOutcome) | Running(updates: seq<string>, outcome: ToolOutcome)

  function Prepare(call: ToolCall, attempt: Attempt, aborted: bool): Entry {
    match attempt
    case NoTool => Done(ErrorOutcome("Tool " + call.name + " not found"))
    case Refused(error) => Done(ErrorOutcome(error))
    case Runnable(hook, execution) =>
      if aborted then Done(ErrorOutcome("Operation aborted"))
      else if hook.Blocked? then Done(ToolOutcome(hook.reason, true, hook.terminate))
      else Running(execution.updates, Finalize(execution))
  }

  /** What comes of each call, by its place in the reply: the tools and hooks are foreign. */
  type Tools = nat -> Attempt

  function OutcomeOf(calls: seq<ToolCall>, tools: Tools, i: nat, aborted: bool): ToolOutcome
    requires i < |calls|
  {
    Prepare(calls[i], tools(i), aborted).outcome
  }

  /** The outcomes are those of the tools, call by call; only the last one may be that of a call the abort has stopped. */
  predicate FromTools(calls: seq<ToolCall>, tools: Tools, outcomes: seq<ToolOutcome>, aborted: bool) {
    && |outcomes| <= |calls| && (|outcomes| == |calls| || (aborted && outcomes != []))
    && forall i | 0 <= i < |outcomes| ::
         || outcomes[i] == OutcomeOf(calls, tools, i, false)
         || (aborted && i == |outcomes| - 1 && outcomes[i] == OutcomeOf(calls, tools, i, true))
  }

  /** The results of a batch that is not aborted: they depend on what the tools do, and on nothing else. */
  function ExpectedResults(calls: seq<ToolCall>, tools: Tools): (r: seq<Message>)
    ensures |r| == |calls| && forall i | 0 <= i < |r| :: r[i] == ResultMessage(calls[i], OutcomeOf(calls, tools, i, false))
  {
    seq(|calls|, i requires 0 <= i < |calls| => ResultMessage(calls[i], OutcomeOf(calls, tools, i, false)))
  }

  lemma ResultsAreExpected(calls: seq<ToolCall>, tools: Tools, outcomes: seq<ToolOutcome>)
    requires FromTools(calls, tools, outcomes, false)
    ensures ResultMessages(calls, outcomes) == ExpectedResults(calls, tools)
  {
  }

  /** A tool or a hook has to ask for the end: no failure does, and what the after-hook says prevails over the tool. */
  predicate AsksToEnd(attempt: Attempt) {
    match attempt
    case NoTool => false
    case Refused(_) => false
    case Runnable(Blocked(_, terminate), _) => terminate
    case Runnable(Allowed, Execution(_, outcome, Override(_, _, terminate))) => Or(terminate, outcome.terminate)
    case Runnable(Allowed, Execution(_, outcome, Unchanged)) => outcome.terminate
    case Runnable(Allowed, Execution(_, _, HookThrew(_))) => false
  }

  lemma EndsIfAsked(calls: seq<ToolCall>, tools: Tools, i: nat)
    requires i < |calls|
    ensures OutcomeOf(calls, tools, i, false).terminate <==> AsksToEnd(tools(i))
    ensures !OutcomeOf(calls, tools, i, true).terminate
  {
  }

  /** A tool that is run has its own result, but for what the after-hook replaces; a call that is not run, or whose hook
      throws, has an error for its result. */
  lemma ResultIsTheTools(calls: seq<ToolCall>, tools: Tools, i: nat, aborted: bool)
    requires i < |calls|
    ensures
      var r := OutcomeOf(calls, tools, i, aborted);
      match tools(i)
      case Runnable(hook, Execution(_, own, after)) =>
        if aborted || hook.Blocked? || after.HookThrew? then
          r.isError && (!aborted && hook.Blocked? ==> r.content == hook.reason)
        else if after.Unchanged? then r == own
        else
          && (after.content.None? ==> r.content == own.content) && (after.content.Some? ==> r.content == after.content.value)
          && (after.isError.None? ==> r.isError == own.isError) && (after.isError.Some? ==> r.isError == after.isError.value)
      case Refused(error) => r.isError && r.content == error
      case NoTool => r.isError
  {
  }

  /** Unless it is aborted, a batch ends the run exactly if there is a call and the tools of all of them ask for it. */
  lemma {:induction false} AllMustAsk(calls: seq<ToolCall>, tools: Tools, outcomes: seq<ToolOutcome>, aborted: bool)
    requires FromTools(calls, tools, outcomes, aborted) && calls != []
    ensures ShouldTerminate(outcomes) ==> forall i: nat | i < |outcomes| :: AsksToEnd(tools(i))
    ensures ShouldTerminate(outcomes) <== !aborted && forall i: nat | i < |calls| :: AsksToEnd(tools(i))
  {
    forall i: nat | i < |outcomes|
      ensures outcomes[i].terminate ==> AsksToEnd(tools(i))
      ensures !aborted && AsksToEnd(tools(i)) ==> outcomes[i].terminate
    {
      EndsIfAsked(calls, tools, i);
    }
    assert ShouldTerminate(outcomes) ==> forall i: nat | i < |outcomes| :: outcomes[i] in outcomes;
  }

  // ----- One step of the log -----

  /** The log grows by a step, and the step's events are emitted. */
  method Emit(agent: Agent, calls: seq<ToolCall>, step: ToolStep, ghost base: seq<Event>, ghost log: seq<ToolStep>)
    returns (ghost more: seq<ToolStep>)
    requires agent.Valid() && agent.activeRun && agent.trace == base + LogEvents(calls, log)
    modifies agent.Repr()
    ensures agent.Valid() && agent.Overheard() && agent.trace == base + LogEvents(calls, more)
    ensures more == log + [step] && BatchOf(more) == Advance(BatchOf(log), step)
  {
    match step {
      case Began(i) => agent.ProcessEvents(ToolStart(CallAt(calls, i)));
      case Updated(i, partial) => agent.ProcessEvents(ToolUpdate(CallAt(calls, i), partial));
      case Ended(i, outcome) => agent.ProcessEvents(ToolEnd(CallAt(calls, i), outcome));
      case Announced(_, m) =>
        agent.ProcessEvents(MessageStart(m));
        agent.ProcessEvents(MessageEnd(m));
    }
    assert agent.trace == base + LogEvents(calls, log) + StepEvents(calls, step);
    more := log + [step];
    LogOneMore(calls, log, step);
    Associates(base, LogEvents(calls, log), StepEvents(calls, step));
  }

  /** `i` is the one call that runs; the calls before it are done with. */
  predicate OnlyRuns(b: Batch, calls: seq<ToolCall>, outcomes: seq<ToolOutcome>, i: nat) {
    && i == |outcomes| < |calls| && b.Batch? && b.began == i + 1 && b.live == {i}
    && (forall k | 0 <= k < i :: k in b.ended && b.ended[k] == outcomes[k])
    && b.announced == ResultMessages(calls, outcomes)
  }

  lemma LastEnds(b: Batch, calls: seq<ToolCall>, outcomes: seq<ToolOutcome>, i: nat, outcome: ToolOutcome)
    requires OnlyRuns(b, calls, outcomes, i)
    ensures AllDone(Advance(Advance(b, Ended(i, outcome)), Announced(i, ResultMessage(calls[i], outcome))),
                    calls, outcomes + [outcome])
  {
    OneMoreResult(calls, outcomes, outcome);
  }

  /** The call that runs reports its progress. */
  method Report(agent: Agent, calls: seq<ToolCall>, i: nat, updates: seq<string>,
                ghost base: seq<Event>, ghost log: seq<ToolStep>)
    returns (ghost more: seq<ToolStep>)
    requires agent.Valid() && agent.activeRun && agent.trace == base + LogEvents(calls, log)
    requires BatchOf(log).Batch? && i in BatchOf(log).live
    modifies agent.Repr()
    ensures agent.Valid() && agent.Overheard() && agent.trace == base + LogEvents(calls, more)
    ensures BatchOf(more) == BatchOf(log)
  {
    more := log;
    var k := 0;
    while k < |updates|
      invariant agent.Valid() && agent.Overheard() && agent.trace == base + LogEvents(calls, more)
      invariant BatchOf(more) == BatchOf(log)
    {
      more := Emit(agent, calls, Updated(i, updates[k]), base, more);
      k := k + 1;
    }
  }

  /** The call that runs ends, and its result is announced. */
  method EndOne(agent: Agent, calls: seq<ToolCall>, i: nat, outcome: ToolOutcome,
                ghost base: seq<Event>, ghost log: seq<ToolStep>, ghost outcomes: seq<ToolOutcome>)
    returns (message: Message, ghost more: seq<ToolStep>)
    requires agent.Valid() && agent.activeRun && agent.trace == base + LogEvents(calls, log)
    requires OnlyRuns(BatchOf(log), calls, outcomes, i)
    modifies agent.Repr()
    ensures agent.Valid() && agent.Overheard() && agent.trace == base + LogEvents(calls, more)
    ensures message == ResultMessage(calls[i], outcome)
    ensures Complete(more, calls, outcomes + [outcome])
  {
    LastEnds(BatchOf(log), calls, outcomes, i, outcome);
    more := Emit(agent, calls, Ended(i, outcome), base, log);
    message := ResultMessage(calls[i], outcome);
    more := Emit(agent, calls, Announced(i, message), base, more);
  }

  /** A call that has begun reports its progress, ends, and has its result announced. */
  method RunOne(agent: Agent, calls: seq<ToolCall>, i: nat, entry: Entry,
                ghost base: seq<Event>, ghost log: seq<ToolStep>, ghost outcomes: seq<ToolOutcome>)
    returns (message: Message, ghost more: seq<ToolStep>)
    requires agent.Valid() && agent.activeRun && agent.trace == base + LogEvents(calls, log)
    requires OnlyRuns(BatchOf(log), calls, outcomes, i)
    modifies agent.Repr()
    ensures agent.Valid() && agent.Overheard() && agent.trace == base + LogEvents(calls, more)
    ensures message == ResultMessage(calls[i], entry.outcome)
    ensures Complete(more, calls, outcomes + [entry.outcome])
  {
    more := Report(agent, calls, i, if entry.Running? then entry.updates else [], base, log);
    message, more := EndOne(agent, calls, i, entry.outcome, base, more, outcomes);
  }

  lemma NothingDoneYet(calls: seq<ToolCall>)
    ensures Complete([], calls, [])
  {
  }

  lemma NextBegins(log: seq<ToolStep>, calls: seq<ToolCall>, outcomes: seq<ToolOutcome>, i: nat)
    requires Complete(log, calls, outcomes) && i == |outcomes| < |calls|
    ensures OnlyRuns(Advance(BatchOf(log), Began(i)), calls, outcomes, i)
  {
  }

  const TRUNCATED := " was not executed: the response hit the output token limit. Re-issue the tool call with complete arguments."

  /** `failToolCallsFromTruncatedMessage`: no call is run, and each gets an error for its result. */
  method FailTruncated(agent: Agent, calls: seq<ToolCall>, ghost base: seq<Event>)
    returns (messages: seq<Message>, ghost log: seq<ToolStep>, ghost outcomes: seq<ToolOutcome>)
    requires agent.Valid() && agent.activeRun && agent.trace == base
    modifies agent.Repr()
    ensures agent.Valid() && agent.Overheard() && agent.trace == base + LogEvents(calls, log)
    ensures Complete(log, calls, outcomes) && |outcomes| == |calls| && messages == ResultMessages(calls, outcomes)
    ensures forall o | o in outcomes :: o.isError
  {
    messages, log, outcomes := [], [], [];
    NothingDoneYet(calls);
    var i := 0;
    while i < |calls|
      invariant 0 <= i <= |calls| && |outcomes| == i
      invariant agent.Valid() && agent.Overheard() && agent.trace == base + LogEvents(calls, log)
      invariant Complete(log, calls, outcomes) && messages == ResultMessages(calls, outcomes)
      invariant forall o | o in outcomes :: o.isError
    {
      var outcome := ErrorOutcome("Tool call " + calls[i].name + TRUNCATED);
      var message;
      message, log := FailOne(agent, calls, i, outcome, base, log, outcomes);
      OneMoreResult(calls, outcomes, outcome);
      messages, outcomes := messages + [message], outcomes + [outcome];
      i := i + 1;
    }
  }

  method FailOne(agent: Agent, calls: seq<ToolCall>, i: nat, outcome: ToolOutcome,
                 ghost base: seq<Event>, ghost log: seq<ToolStep>, ghost outcomes: seq<ToolOutcome>)
    returns (message: Message, ghost more: seq<ToolStep>)
    requires agent.Valid() && agent.activeRun && agent.trace == base + LogEvents(calls, log)
    requires Complete(log, calls, outcomes) && i == |outcomes| < |calls|
    modifies agent.Repr()
    ensures agent.Valid() && agent.Overheard() && agent.trace == base + LogEvents(calls, more)
    ensures message == ResultMessage(calls[i], outcome)
    ensures Complete(more, calls, outcomes + [outcome])
  {
    NextBegins(log, calls, outcomes, i);
    more := Emit(agent, calls, Began(i), base, log);
    message, more := EndOne(agent, calls, i, outcome, base, more, outcomes);
  }

  /** While a call is looked up and the hook decides, others go on; an abort that comes in time stops it. */
  method PrepareCall(agent: Agent, call: ToolCall, attempt: Attempt) returns (entry: Entry)
    requires agent.Valid()
    modifies agent.Repr()
    ensures agent.Valid() && agent.Overheard() && agent.trace == old(agent.trace)
    ensures entry == Prepare(call, attempt, agent.aborted)
  {
    agent.Elsewhere();
    match attempt {
      case NoTool => entry := Done(ErrorOutcome("Tool " + call.name + " not found"));
      case Refused(error) => entry := Done(ErrorOutcome(error));
      case Runnable(hook, execution) =>
        if agent.aborted {
          entry := Done(ErrorOutcome("Operation aborted"));
        } else if hook.Blocked? {
          entry := Done(ToolOutcome(hook.reason, true, hook.terminate));
        } else {
          entry := Running(execution.updates, Finalize(execution));
        }
    }
  }

  /** One call from start to result. */
  method RunCall(agent: Agent, calls: seq<ToolCall>, tools: Tools, i: nat,
                 ghost base: seq<Event>, ghost log: seq<ToolStep>, ghost outcomes: seq<ToolOutcome>)
    returns (message: Message, outcome: ToolOutcome, ghost more: seq<ToolStep>)
    requires agent.Valid() && agent.activeRun && agent.trace == base + LogEvents(calls, log)
    requires Complete(log, calls, outcomes) && i == |outcomes| < |calls|
    modifies agent.Repr()
    ensures agent.Valid() && agent.Overheard() && agent.trace == base + LogEvents(calls, more)
    ensures message == ResultMessage(calls[i], outcome)
    ensures Complete(more, calls, outcomes + [outcome])
    ensures outcome == OutcomeOf(calls, tools, i, false) || (agent.aborted && outcome == OutcomeOf(calls, tools, i, true))
  {
    NextBegins(log, calls, outcomes, i);
    more := Emit(agent, calls, Began(i), base, log);
    var entry := PrepareCall(agent, calls[i], tools(i));
    outcome := entry.outcome;
    message, more := RunOne(agent, calls, i, entry, base, more, outcomes);
  }

  /** The calls run so far were not stopped. */
  predicate NoneStopped(calls: seq<ToolCall>, tools: Tools, outcomes: seq<ToolOutcome>) {
    |outcomes| <= |calls| && forall i | 0 <= i < |outcomes| :: outcomes[i] == OutcomeOf(calls, tools, i, false)
  }

  lemma OneMoreOutcome(calls: seq<ToolCall>, tools: Tools, outcomes: seq<ToolOutcome>, outcome: ToolOutcome, aborted: bool)
    requires NoneStopped(calls, tools, outcomes) && |outcomes| < |calls|
    requires outcome == OutcomeOf(calls, tools, |outcomes|, false)
             || (aborted && outcome == OutcomeOf(calls, tools, |outcomes|, true))
    ensures aborted || |outcomes| + 1 == |calls| ==> FromTools(calls, tools, outcomes + [outcome], aborted)
    ensures !aborted ==> NoneStopped(calls, tools, outcomes + [outcome])
  {
  }

  /** `executeToolCallsSequential`. Unless it is aborted, every call is run and its result is that of its tool. */
  method ExecuteSequential(agent: Agent, calls: seq<ToolCall>, tools: Tools, ghost base: seq<Event>)
    returns (messages: seq<Message>, terminate: bool, ghost log: seq<ToolStep>, ghost outcomes: seq<ToolOutcome>)
    requires agent.Valid() && agent.activeRun && agent.trace == base
    modifies agent.Repr()
    ensures agent.Valid() && agent.Overheard() && agent.trace == base + LogEvents(calls, log)
    ensures Complete(log, calls, outcomes) && messages == ResultMessages(calls, outcomes)
    ensures FromTools(calls, tools, outcomes, agent.aborted)
    ensures !agent.aborted ==> messages == ExpectedResults(calls, tools)
    ensures terminate == ShouldTerminate(outcomes)
  {
    messages, log, outcomes := [], [], [];
    var finalized: seq<ToolOutcome> := [];
    NothingDoneYet(calls);
    var i := 0;
    while i < |calls|
      invariant 0 <= i <= |calls| && |outcomes| == i && finalized == outcomes
      invariant agent.Valid() && agent.Overheard() && agent.trace == base + LogEvents(calls, log)
      invariant Complete(log, calls, outcomes) && messages == ResultMessages(calls, outcomes)
      invariant NoneStopped(calls, tools, outcomes)
      invariant i == |calls| ==> FromTools(calls, tools, outcomes, agent.aborted)
    {
      var message, outcome;
      message, outcome, log := RunCall(agent, calls, tools, i, base, log, outcomes);
      OneMoreResult(calls, outcomes, outcome);
      OneMoreOutcome(calls, tools, outcomes, outcome, agent.aborted);
      messages, finalized, outcomes := messages + [message], finalized + [outcome], outcomes + [outcome];
      i := i + 1;
      if agent.aborted {
        break;
      }
    }
    if !agent.aborted {
      ResultsAreExpected(calls, tools, outcomes);
    }
    terminate := ShouldTerminate(finalized);
  }

  // ----- All together -----

  function Outcomes(entries: seq<Entry>): (r: seq<ToolOutcome>)
    ensures |r| == |entries| && forall i | 0 <= i < |r| :: r[i] == entries[i].outcome
  {
    seq(|entries|, i requires 0 <= i < |entries| => entries[i].outcome)
  }

  /** The calls that run are the entries that are not settled; no result is out. */
  predicate Partway(b: Batch, entries: seq<Entry>) {
    && b.Batch? && b.began == |entries| && b.announced == []
    && (forall k | k in b.live :: k < |entries| && entries[k].Running?)
    && (forall k | 0 <= k < |entries| ::
          if entries[k].Running? then k in b.live else k in b.ended && b.ended[k] == entries[k].outcome)
  }

  function Load(e: Entry): nat { if e.Running? then |e.updates| + 1 else 0 }

  function Work(entries: seq<Entry>): nat {
    if entries == [] then 0 else Work(entries[..|entries| - 1]) + Load(entries[|entries| - 1])
  }

  lemma {:induction false} WorkLess(entries: seq<Entry>, i: nat, e: Entry)
    requires i < |entries| && Load(e) < Load(entries[i])
    ensures Work(entries[i := e]) < Work(entries)
  {
    var last := |entries| - 1;
    if i == last {
      assert entries[i := e][..last] == entries[..last];
    } else {
      WorkLess(entries[..last], i, e);
      assert entries[i := e][..last] == entries[..last][i := e];
    }
  }

  lemma StartsAndRuns(b: Batch, entries: seq<Entry>, entry: Entry)
    requires Partway(b, entries) && entry.Running?
    ensures Partway(Advance(b, Began(|entries|)), entries + [entry])
  {
  }

  lemma StartsAndSettles(b: Batch, entries: seq<Entry>, entry: Entry)
    requires Partway(b, entries) && entry.Done?
    ensures Partway(Advance(Advance(b, Began(|entries|)), Ended(|entries|, entry.outcome)), entries + [entry])
  {
  }

  /** The next call begins; it is settled on the spot, or it is left to run. */
  method StartCall(agent: Agent, calls: seq<ToolCall>, tools: Tools, i: nat, entries: seq<Entry>,
                   ghost base: seq<Event>, ghost log: seq<ToolStep>)
    returns (entry: Entry, ghost more: seq<ToolStep>)
    requires agent.Valid() && agent.activeRun && agent.trace == base + LogEvents(calls, log)
    requires Partway(BatchOf(log), entries) && i == |entries| < |calls|
    modifies agent.Repr()
    ensures agent.Valid() && agent.Overheard() && agent.trace == base + LogEvents(calls, more)
    ensures Partway(BatchOf(more), entries + [entry])
    ensures entry.outcome == OutcomeOf(calls, tools, i, false)
            || (agent.aborted && entry.outcome == OutcomeOf(calls, tools, i, true))
  {
    more := Emit(agent, calls, Began(i), base, log);
    entry := PrepareCall(agent, calls[i], tools(i));
    ghost var stopped := agent.aborted;
    assert entry.outcome == OutcomeOf(calls, tools, i, stopped);
    more := SettleOrLeave(agent, calls, i, entries, entry, base, log, more);
  }

  /** A call that is settled ends on the spot. */
  method SettleOrLeave(agent: Agent, calls: seq<ToolCall>, i: nat, ghost entries: seq<Entry>, entry: Entry,
                       ghost base: seq<Event>, ghost before: seq<ToolStep>, ghost log: seq<ToolStep>)
    returns (ghost more: seq<ToolStep>)
    requires agent.Valid() && agent.activeRun && agent.trace == base + LogEvents(calls, log)
    requires Partway(BatchOf(before), entries) && i == |entries| < |calls|
    requires BatchOf(log) == Advance(BatchOf(before), Began(i))
    modifies agent.Repr()
    ensures agent.Valid() && agent.Overheard() && agent.trace == base + LogEvents(calls, more)
    ensures Partway(BatchOf(more), entries + [entry])
  {
    more := log;
    if entry.Done? {
      StartsAndSettles(BatchOf(before), entries, entry);
      more := Emit(agent, calls, Ended(i, entry.outcome), base, more);
    } else {
      StartsAndRuns(BatchOf(before), entries, entry);
    }
  }

  lemma ReportsAndRuns(b: Batch, entries: seq<Entry>, i: nat, partial: string, entry: Entry)
    requires Partway(b, entries) && i < |entries| && entries[i].Running? && entry.Running?
    ensures Partway(Advance(b, Updated(i, partial)), entries[i := entry])
  {
  }

  lemma EndsAndSettles(b: Batch, entries: seq<Entry>, i: nat, entry: Entry)
    requires Partway(b, entries) && i < |entries| && entries[i].Running? && entry.Done?
    ensures Partway(Advance(b, Ended(i, entry.outcome)), entries[i := entry])
  {
  }

  /** One of the running calls reports progress or ends. Progress it would report later is dropped. */
  method Proceed(agent: Agent, calls: seq<ToolCall>, entries: seq<Entry>, i: nat,
                 ghost base: seq<Event>, ghost log: seq<ToolStep>)
    returns (entry: Entry, ghost more: seq<ToolStep>)
    requires agent.Valid() && agent.activeRun && agent.trace == base + LogEvents(calls, log)
    requires Partway(BatchOf(log), entries) && i < |entries| && entries[i].Running?
    modifies agent.Repr()
    ensures agent.Valid() && agent.Overheard() && agent.trace == base + LogEvents(calls, more)
    ensures Partway(BatchOf(more), entries[i := entry])
    ensures Load(entry) < Load(entries[i]) && entry.outcome == entries[i].outcome
  {
    var reports := *;
    if reports && entries[i].updates != [] {
      entry := Running(entries[i].updates[1..], entries[i].outcome);
      ReportsAndRuns(BatchOf(log), entries, i, entries[i].updates[0], entry);
      more := Emit(agent, calls, Updated(i, entries[i].updates[0]), base, log);
    } else {
      entry := Done(entries[i].outcome);
      EndsAndSettles(BatchOf(log), entries, i, entry);
      more := Emit(agent, calls, Ended(i, entry.outcome), base, log);
    }
  }

  function StillRunning(entries: seq<Entry>): set<nat> {
    set i: nat | i < |entries| && entries[i].Running?
  }

  /** The results of the settled calls below `n` are out. */
  predicate AnnouncedTo(b: Batch, calls: seq<ToolCall>, outcomes: seq<ToolOutcome>, n: nat) {
    && n <= |outcomes| <= |calls| && b.Batch? && b.began == |outcomes| && b.live == {}
    && (forall i | 0 <= i < |outcomes| :: i in b.ended && b.ended[i] == outcomes[i])
    && b.announced == ResultMessages(calls, outcomes[..n])
  }

  lemma AllSettled(b: Batch, calls: seq<ToolCall>, entries: seq<Entry>)
    requires Partway(b, entries) && |entries| <= |calls| && StillRunning(entries) == {}
    ensures AnnouncedTo(b, calls, Outcomes(entries), 0)
  {
    forall k: nat | k < |entries|
      ensures !entries[k].Running?
    {
      assert k !in StillRunning(entries);
    }
    assert b.live == {};
  }

  lemma AnnounceNext(b: Batch, calls: seq<ToolCall>, outcomes: seq<ToolOutcome>, n: nat)
    requires AnnouncedTo(b, calls, outcomes, n) && n < |outcomes|
    ensures AnnouncedTo(Advance(b, Announced(n, ResultMessage(calls[n], outcomes[n]))), calls, outcomes, n + 1)
    ensures ResultMessages(calls, outcomes[..n + 1])
            == ResultMessages(calls, outcomes[..n]) + [ResultMessage(calls[n], outcomes[n])]
  {
    assert outcomes[..n + 1] == outcomes[..n] + [outcomes[n]];
    OneMoreResult(calls, outcomes[..n], outcomes[n]);
  }

  /** The results go out in the order of the calls, whatever order the calls ended in. */
  method AnnounceResults(agent: Agent, calls: seq<ToolCall>, finalized: seq<ToolOutcome>,
                         ghost base: seq<Event>, ghost log: seq<ToolStep>)
    returns (messages: seq<Message>, ghost more: seq<ToolStep>)
    requires agent.Valid() && agent.activeRun && agent.trace == base + LogEvents(calls, log)
    requires AnnouncedTo(BatchOf(log), calls, finalized, 0)
    modifies agent.Repr()
    ensures agent.Valid() && agent.Overheard() && agent.trace == base + LogEvents(calls, more)
    ensures Complete(more, calls, finalized) && messages == ResultMessages(calls, finalized)
  {
    messages, more := [], log;
    var i := 0;
    while i < |finalized|
      invariant 0 <= i <= |finalized| && AnnouncedTo(BatchOf(more), calls, finalized, i)
      invariant agent.Valid() && agent.Overheard() && agent.trace == base + LogEvents(calls, more)
      invariant messages == ResultMessages(calls, finalized[..i])
    {
      var message := ResultMessage(calls[i], finalized[i]);
      AnnounceNext(BatchOf(more), calls, finalized, i);
      more := Emit(agent, calls, Announced(i, message), base, more);
      messages := messages + [message];
      i := i + 1;
    }
    assert finalized[..i] == finalized;
  }

  /** The start of calls ends with the last of them, or with one during whose preparation, or before it, came an abort. */
  lemma OneMoreEntry(calls: seq<ToolCall>, tools: Tools, entries: seq<Entry>, entry: Entry, aborted: bool)
    requires NoneStopped(calls, tools, Outcomes(entries)) && |entries| < |calls|
    requires entry.outcome == OutcomeOf(calls, tools, |entries|, false)
             || (aborted && entry.outcome == OutcomeOf(calls, tools, |entries|, true))
    ensures aborted || |entries| + 1 == |calls| ==> FromTools(calls, tools, Outcomes(entries + [entry]), aborted)
    ensures !aborted ==> NoneStopped(calls, tools, Outcomes(entries + [entry]))
  {
    assert Outcomes(entries + [entry]) == Outcomes(entries) + [entry.outcome];
    OneMoreOutcome(calls, tools, Outcomes(entries), entry.outcome, aborted);
  }

  /** The calls are started in order; a call that is not settled on the spot is left to run. */
  method StartCalls(agent: Agent, calls: seq<ToolCall>, tools: Tools, ghost base: seq<Event>)
    returns (entries: seq<Entry>, ghost log: seq<ToolStep>)
    requires agent.Valid() && agent.activeRun && agent.trace == base
    modifies agent.Repr()
    ensures agent.Valid() && agent.Overheard() && agent.trace == base + LogEvents(calls, log)
    ensures Partway(BatchOf(log), entries)
    ensures FromTools(calls, tools, Outcomes(entries), agent.aborted)
  {
    entries, log := [], [];
    var i := 0;
    while i < |calls|
      invariant 0 <= i <= |calls| && |entries| == i && Partway(BatchOf(log), entries)
      invariant agent.Valid() && agent.Overheard() && agent.trace == base + LogEvents(calls, log)
      invariant NoneStopped(calls, tools, Outcomes(entries))
      invariant i == |calls| ==> FromTools(calls, tools, Outcomes(entries), agent.aborted)
    {
      var entry;
      entry, log := StartCall(agent, calls, tools, i, entries, base, log);
      OneMoreEntry(calls, tools, entries, entry, agent.aborted);
      entries := entries + [entry];
      i := i + 1;
      if agent.aborted {
        break;
      }
    }
  }

  /** `Promise.all` over the calls that were left to run: they go on in any order. */
  method RunTogether(agent: Agent, calls: seq<ToolCall>, started: seq<Entry>,
                     ghost base: seq<Event>, ghost log: seq<ToolStep>)
    returns (entries: seq<Entry>, ghost more: seq<ToolStep>)
    requires agent.Valid() && agent.activeRun && agent.trace == base + LogEvents(calls, log)
    requires Partway(BatchOf(log), started)
    modifies agent.Repr()
    ensures agent.Valid() && agent.Overheard() && agent.trace == base + LogEvents(calls, more)
    ensures Partway(BatchOf(more), entries) && StillRunning(entries) == {}
    ensures |entries| == |started| && forall k | 0 <= k < |entries| :: entries[k].outcome == started[k].outcome
  {
    entries, more := started, log;
    while StillRunning(entries) != {}
      invariant agent.Valid() && agent.Overheard() && agent.trace == base + LogEvents(calls, more)
      invariant Partway(BatchOf(more), entries)
      invariant |entries| == |started| && forall k | 0 <= k < |entries| :: entries[k].outcome == started[k].outcome
      decreases Work(entries)
    {
      var i :| i in StillRunning(entries);
      var entry;
      entry, more := Proceed(agent, calls, entries, i, base, more);
      WorkLess(entries, i, entry);
      entries := entries[i := entry];
    }
  }

  /** `executeToolCallsParallel`. Whatever order the calls end in, their results come in the order of the calls and are
      those of their tools, so that a batch that is not aborted has the same results as in sequence. */
  method ExecuteParallel(agent: Agent, calls: seq<ToolCall>, tools: Tools, ghost base: seq<Event>)
    returns (messages: seq<Message>, terminate: bool, ghost log: seq<ToolStep>, ghost outcomes: seq<ToolOutcome>)
    requires agent.Valid() && agent.activeRun && agent.trace == base
    modifies agent.Repr()
    ensures agent.Valid() && agent.Overheard() && agent.trace == base + LogEvents(calls, log)
    ensures Complete(log, calls, outcomes) && messages == ResultMessages(calls, outcomes)
    ensures FromTools(calls, tools, outcomes, agent.aborted)
    ensures !agent.aborted ==> messages == ExpectedResults(calls, tools)
    ensures terminate == ShouldTerminate(outcomes)
  {
    var started;
    started, log := StartCalls(agent, calls, tools, base);
    var entries;
    entries, log := RunTogether(agent, calls, started, base, log);
    assert Outcomes(entries) == Outcomes(started);
    AllSettled(BatchOf(log), calls, entries);
    var finalized := Outcomes(entries);
    messages, log := AnnounceResults(agent, calls, finalized, base, log);
    outcomes := finalized;
    AbortedLater(calls, tools, outcomes, agent.aborted);
    if !agent.aborted {
      ResultsAreExpected(calls, tools, outcomes);
    }
    terminate := ShouldTerminate(finalized);
  }

  /** An abort that comes late changes nothing. */
  lemma AbortedLater(calls: seq<ToolCall>, tools: Tools, outcomes: seq<ToolOutcome>, aborted: bool)
    ensures FromTools(calls, tools, outcomes, false) ==> FromTools(calls, tools, outcomes, aborted)
  {
  }

  /** `executeToolCalls`, or the failure of all calls of a truncated reply. */
  method RunCalls(agent: Agent, reply: Message, tools: Tools, sequential: bool, ghost base: seq<Event>)
    returns (messages: seq<Message>, terminate: bool, ghost log: seq<ToolStep>, ghost outcomes: seq<ToolOutcome>)
    requires agent.Valid() && agent.activeRun && agent.trace == base
    requires reply.Assistant? && reply.calls != []
    modifies agent.Repr()
    ensures agent.Valid() && agent.Overheard() && agent.trace == base + LogEvents(reply.calls, log)
    ensures Complete(log, reply.calls, outcomes) && messages == ResultMessages(reply.calls, outcomes) && outcomes != []
    ensures terminate == (!reply.stop.Length? && ShouldTerminate(outcomes))
    ensures !reply.stop.Length? ==> FromTools(reply.calls, tools, outcomes, agent.aborted)
    ensures !reply.stop.Length? && !agent.aborted ==> messages == ExpectedResults(reply.calls, tools)
    ensures reply.stop.Length? ==> !terminate && |outcomes| == |reply.calls| && forall o | o in outcomes :: o.isError
    ensures !reply.stop.Length? && !agent.aborted ==>
              (terminate <==> forall i: nat | i < |reply.calls| :: AsksToEnd(tools(i)))
    ensures agent.aborted && terminate ==> forall i: nat | i < |outcomes| :: AsksToEnd(tools(i))
  {
    if reply.stop.Length? {
      messages, log, outcomes := FailTruncated(agent, reply.calls, base);
      terminate := false;
    } else if sequential {
      messages, terminate, log, outcomes := ExecuteSequential(agent, reply.calls, tools, base);
    } else {
      messages, terminate, log, outcomes := ExecuteParallel(agent, reply.calls, tools, base);
    }
    if !reply.stop.Length? {
      AllMustAsk(reply.calls, tools, outcomes, agent.aborted);
    }
  }
}
