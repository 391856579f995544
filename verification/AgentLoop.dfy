/** The agent loop: turns, tool batches and queued messages, until there is nothing left to do. */
module AgentLoop {
  import opened Text
  import opened Folds
  import opened AgentTrace
  import opened AgentTools
  import opened AgentTurns
  import opened Agents
  import opened AgentBatch
  import opened AgentStream

  method InjectOne(agent: Agent, context: Context, m: Message)
    requires agent.Valid() && agent.activeRun && context !in agent.Repr()
    modifies agent.Repr(), context
    ensures agent.Valid() && agent.Overheard() && agent.trace == old(agent.trace) + [MessageStart(m)] + [MessageEnd(m)]
    ensures context.messages == old(context.messages) + [m]
  {
    agent.ProcessEvents(MessageStart(m));
    agent.ProcessEvents(MessageEnd(m));
    context.messages := context.messages + [m];
  }

  /** Messages are announced, and go into the context and the list of new messages. */
  method Inject(agent: Agent, context: Context, newMessages: seq<Message>, pending: seq<Message>)
    returns (messages: seq<Message>)
    requires agent.Valid() && agent.activeRun && context !in agent.Repr()
    modifies agent.Repr(), context
    ensures agent.Valid() && agent.Overheard() && agent.trace == old(agent.trace) + Announcements(pending)
    ensures context.messages == old(context.messages) + pending && messages == newMessages + pending
  {
    messages := newMessages;
    ghost var base := agent.trace;
    assert base + Announcements([]) == base;
    var i := 0;
    while i < |pending|
      invariant 0 <= i <= |pending| && agent.Valid() && agent.Overheard()
      invariant agent.trace == base + Announcements(pending[..i])
      invariant context.messages == old(context.messages) + pending[..i] && messages == newMessages + pending[..i]
    {
      InjectedOneMore(base, pending, i);
      InjectOne(agent, context, pending[i]);
      messages := messages + [pending[i]];
      assert pending[..i + 1] == pending[..i] + [pending[i]];
      i := i + 1;
    }
    assert pending[..i] == pending;
  }

  lemma InjectedOneMore(base: seq<Event>, ms: seq<Message>, i: nat)
    requires i < |ms|
    ensures base + Announcements(ms[..i + 1]) == base + Announcements(ms[..i]) + [MessageStart(ms[i])] + [MessageEnd(ms[i])]
  {
    AnnounceOneMore(ms[..i], ms[i]);
    assert ms[..i + 1] == ms[..i] + [ms[i]];
    Associates(base, Announcements(ms[..i]), Announce(ms[i]));
    Associates(base + Announcements(ms[..i]), [MessageStart(ms[i])], [MessageEnd(ms[i])]);
  }

  /** What the provider streams for one request, and the reply it finally returns. Streams open at most once. */
  method NextResponse() returns (stream: seq<StreamEvent>, reply: Message)
    ensures reply.Assistant? && PartialsAreReplies(UntilClose(stream)) && Opens(UntilClose(stream)) <= 1
  {
    stream := *;
    var text, calls, stop, error := *, *, *, *;
    reply := Assistant(text, calls, stop, error);
    if !PartialsAreReplies(UntilClose(stream)) || Opens(UntilClose(stream)) > 1 {
      stream := [];
    }
  }

  lemma {:induction false} BodyInParts(base: seq<Event>, t: Turn)
    requires TurnOk(t)
    ensures base + Body(t) ==
            base + Announcements(t.steering + t.followUps) + ReplyEvents(t.seen, t.reply)
            + LogEvents(t.reply.calls, t.log) + [TurnEnd(t.reply, Results(t))]
  {
    var a, r := Announcements(t.steering + t.followUps), ReplyEvents(t.seen, t.reply);
    var l, e := LogEvents(t.reply.calls, t.log), [TurnEnd(t.reply, Results(t))];
    Associates(base, a, r + (l + e));
    Associates(base + a, r, l + e);
    Associates(base + a + r, l, e);
  }

  /** What the messages of a turn add up to. */
  function Added(t: Turn): seq<Message>
    requires TurnOk(t)
  {
    (t.steering + t.followUps) + ([t.reply] + Results(t))
  }

  /** Whether the turn leaves tool results that the model has to see. */
  predicate HasMore(t: Turn) {
    t.reply.Assistant? && t.outcomes != [] && (t.reply.stop.Length? || !ShouldTerminate(t.outcomes))
  }

  /** The tools of a reply are run, if it has any and did not fail. */
  method RunTools(agent: Agent, reply: Message, ghost t0: Turn)
    returns (results: seq<Message>, more: bool, ghost t: Turn)
    requires agent.Valid() && agent.activeRun && reply.Assistant?
    requires t0.reply == reply && PartialsAreReplies(t0.seen) && Opens(t0.seen) <= 1
    modifies agent.Repr()
    ensures agent.Valid() && agent.Overheard()
    ensures TurnOk(t) && t == t0.(log := t.log, outcomes := t.outcomes) && results == Results(t)
    ensures agent.trace == old(agent.trace) + LogEvents(reply.calls, t.log)
    ensures more == HasMore(t)
  {
    results, more := [], false;
    ghost var log: seq<ToolStep>, outcomes: seq<ToolOutcome> := [], [];
    if reply.stop !in {StopReason.Error, StopReason.Aborted} && reply.calls != [] {
      var sequential, terminate := *, false;
      var tools: Tools := *;
      results, terminate, log, outcomes := RunCalls(agent, reply, tools, sequential, agent.trace);
      more := !terminate;
    } else {
      NothingDoneYet(reply.calls);
      assert agent.trace + LogEvents(reply.calls, []) == agent.trace;
    }
    t := t0.(log := log, outcomes := outcomes);
  }

  /** One turn, from the messages it brings in to its turn_end. */
  method TurnBody(agent: Agent, context: Context, newMessages: seq<Message>, pending: seq<Message>,
                  ghost prompts: seq<Message>, ghost steering: seq<Message>, ghost followUps: seq<Message>)
    returns (reply: Message, more: bool, messages: seq<Message>, ghost t: Turn)
    requires agent.Valid() && agent.activeRun && context !in agent.Repr() && pending == steering + followUps
    modifies agent.Repr(), context
    ensures TurnOk(t) && t.prompts == prompts && t.steering == steering && t.followUps == followUps && t.reply == reply
    ensures agent.Valid() && agent.Overheard() && agent.trace == old(agent.trace) + Body(t)
    ensures messages == newMessages + Added(t) && context.messages == old(context.messages) + Added(t)
    ensures more == HasMore(t)
  {
    messages := Inject(agent, context, newMessages, pending);
    var stream;
    stream, reply := NextResponse();
    ghost var seen := StreamAssistantResponse(agent, context, stream, reply);
    ReplyIsOneMessage(seen, reply);
    messages := messages + [reply];
    var results;
    results, more, t := FinishTurn(agent, context, reply, Turn(prompts, steering, followUps, seen, reply, [], []));
    messages := messages + results;
    BodyInParts(old(agent.trace), t);
    AddedInParts(newMessages, t);
    AddedInParts(old(context.messages), t);
  }

  /** The tools are run, and their results end the turn. */
  method FinishTurn(agent: Agent, context: Context, reply: Message, ghost t0: Turn)
    returns (results: seq<Message>, more: bool, ghost t: Turn)
    requires agent.Valid() && agent.activeRun && context !in agent.Repr() && reply.Assistant?
    requires t0.reply == reply && PartialsAreReplies(t0.seen) && Opens(t0.seen) <= 1
    modifies agent.Repr(), context
    ensures agent.Valid() && agent.Overheard()
    ensures TurnOk(t) && t == t0.(log := t.log, outcomes := t.outcomes) && results == Results(t)
    ensures agent.trace == old(agent.trace) + LogEvents(reply.calls, t.log) + [TurnEnd(reply, results)]
    ensures context.messages == old(context.messages) + results
    ensures more == HasMore(t)
  {
    results, more, t := RunTools(agent, reply, t0);
    context.messages := context.messages + results;
    agent.ProcessEvents(TurnEnd(reply, results));
  }

  lemma AddedInParts(base: seq<Message>, t: Turn)
    requires TurnOk(t)
    ensures base + Added(t) == base + (t.steering + t.followUps) + [t.reply] + Results(t)
  {
    Associates(base, t.steering + t.followUps, [t.reply] + Results(t));
    Associates(base + (t.steering + t.followUps), [t.reply], Results(t));
  }

  // ----- The loop -----

  /** Where a run started, and the hook that may stop it: its prompts, the agent's state and transcript before them, and what had been drained from the
      queues. */
  datatype Base = Base(
    prompts: seq<Message>, start: AgentState, context: seq<Message>, steered: seq<Message>, followed: seq<Message>,
    stops: nat -> bool)

  /** The trace after so many turns; before the first it is opened already, and the prompts are announced. */
  function TraceSoFar(prompts: seq<Message>, turns: seq<Turn>): seq<Event>
    requires AllOk(turns)
  {
    [AgentStart] + EventsOf(turns) + if turns == [] then [TurnStart] + Announcements(prompts) else []
  }

  function MessagesSoFar(prompts: seq<Message>, turns: seq<Turn>): seq<Message>
    requires AllOk(turns)
  {
    if turns == [] then prompts else MessagesOf(turns)
  }

  /** The prompts of the run belong to its first turn. */
  predicate PromptsFirst(prompts: seq<Message>, turns: seq<Turn>) {
    forall k | 0 <= k < |turns| :: turns[k].prompts == if k == 0 then prompts else []
  }

  /** Both queues give out one message at a time. */
  predicate OneByOne(agent: Agent) {
    agent.steeringQueue.mode.OneAtATime? && agent.followUpQueue.mode.OneAtATime?
  }

  predicate OneEach(turns: seq<Turn>) {
    forall t | t in turns :: |t.steering| + |t.followUps| <= 1
  }

  // Why a run goes on, and why it ends

  predicate StopsAt(turns: seq<Turn>, stops: nat -> bool, k: nat)
    requires k < |turns|
  {
    Failed(turns[k].reply) || stops(k + 1)
  }

  /** Turn `k` is followed by another: it did not fail, the hook did not stop it, and it left tool results for the model
      to see or there were messages to be injected. */
  predicate GoesOn(turns: seq<Turn>, stops: nat -> bool, k: nat)
    requires k + 1 < |turns|
  {
    !StopsAt(turns, stops, k) && (HasMore(turns[k]) || turns[k + 1].steering + turns[k + 1].followUps != [])
  }

  predicate Flows(turns: seq<Turn>, stops: nat -> bool) {
    forall k | 0 <= k && k + 1 < |turns| :: GoesOn(turns, stops, k)
  }

  /** So far nothing says that the run is to end. */
  predicate OnCourse(turns: seq<Turn>, stops: nat -> bool) {
    turns != [] ==> !StopsAt(turns, stops, |turns| - 1)
  }

  /** There is something to do: the first turn, results for the model to see, or messages to be injected. */
  predicate Reason(turns: seq<Turn>, pending: seq<Message>) {
    turns == [] || HasMore(turns[|turns| - 1]) || pending != []
  }

  /** The last turn failed, or the hook stopped it, or it left nothing for the model to see. */
  predicate Concluded(turns: seq<Turn>, stops: nat -> bool) {
    turns != [] && (StopsAt(turns, stops, |turns| - 1) || !HasMore(turns[|turns| - 1]))
  }

  /** Why there is another turn: the one before went well, the hook let it pass, and a message was waiting, or calls were
      cut off, or the result of some call did not ask for the end. */
  lemma {:induction false} WhyItGoesOn(turns: seq<Turn>, stops: nat -> bool, k: nat)
    requires AllOk(turns) && Flows(turns, stops) && k + 1 < |turns|
    ensures turns[k].reply.Assistant? && turns[k].reply.stop !in {StopReason.Error, StopReason.Aborted} && !stops(k + 1)
    ensures || turns[k + 1].steering + turns[k + 1].followUps != []
            || (turns[k].reply.calls != [] && turns[k].reply.stop.Length?)
            || exists i: nat | i < |turns[k].outcomes| :: !turns[k].outcomes[i].terminate
  {
    assert TurnOk(turns[k]) && GoesOn(turns, stops, k);
    SomethingToSee(turns[k]);
  }

  /** Why a run is over: its last turn failed, or the hook stopped it, or there was no call, or the results of all of them
      asked for the end. So a result that did not ask for it is seen by the model. */
  lemma {:induction false} WhyItEnds(turns: seq<Turn>, stops: nat -> bool)
    requires AllOk(turns) && Concluded(turns, stops)
    ensures
      var last := turns[|turns| - 1];
      last.reply.Assistant? &&
      (|| last.reply.stop in {StopReason.Error, StopReason.Aborted} || stops(|turns|) || last.reply.calls == []
       || (!last.reply.stop.Length? && forall i: nat | i < |last.outcomes| :: last.outcomes[i].terminate))
  {
    assert TurnOk(turns[|turns| - 1]);
    SomethingToSee(turns[|turns| - 1]);
  }

  lemma SomethingToSee(t: Turn)
    requires TurnOk(t)
    ensures HasMore(t) <==> !Failed(t.reply) && t.reply.calls != []
                            && (t.reply.stop.Length? || exists i: nat | i < |t.outcomes| :: !t.outcomes[i].terminate)
  {
    assert forall i: nat | i < |t.outcomes| :: t.outcomes[i] in t.outcomes;
  }

  lemma FlowsNext(turns: seq<Turn>, t: Turn, stops: nat -> bool)
    requires Flows(turns, stops) && OnCourse(turns, stops) && Reason(turns, t.steering + t.followUps)
    ensures Flows(turns + [t], stops)
  {
    var next := turns + [t];
    forall k | 0 <= k && k + 1 < |next|
      ensures GoesOn(next, stops, k)
    {
      assert next[k] == turns[k];
      assert k + 1 < |turns| ==> next[k + 1] == turns[k + 1] && GoesOn(turns, stops, k);
    }
  }

  /** What has been recorded in different places. */
  datatype Records = Records(
    trace: seq<Event>, newMessages: seq<Message>, context: seq<Message>, steered: seq<Message>, followed: seq<Message>)

  /** The trace, the new messages and the context agree on the turns so far. */
  predicate AgreeTranscripts(base: Base, turns: seq<Turn>, r: Records)
    requires AllOk(turns)
  {
    && r.trace == TraceSoFar(base.prompts, turns)
    && r.newMessages == MessagesSoFar(base.prompts, turns) && r.context == base.context + r.newMessages
  }

  /** What was drained has been injected, in order, or is at hand. */
  predicate AgreeQueues(base: Base, turns: seq<Turn>, r: Records, steering: seq<Message>, followUps: seq<Message>) {
    && r.steered == base.steered + SteeringOf(turns) + steering
    && r.followed == base.followed + FollowUpsOf(turns) + followUps
    && (steering == [] || followUps == [])
  }

  predicate Agree(base: Base, turns: seq<Turn>, r: Records, steering: seq<Message>, followUps: seq<Message>, oneByOne: bool) {
    && AllOk(turns) && PromptsFirst(base.prompts, turns) && Flows(turns, base.stops)
    && AgreeTranscripts(base, turns, r) && AgreeQueues(base, turns, r, steering, followUps)
    && (oneByOne ==> |steering| + |followUps| <= 1 && OneEach(turns))
  }

  ghost function RecordsOf(agent: Agent, context: Context, newMessages: seq<Message>): Records
    reads agent, agent.steeringQueue, agent.followUpQueue, context
  {
    Records(agent.trace, newMessages, context.messages, agent.steeringQueue.drained, agent.followUpQueue.drained)
  }

  /** Between two turns of a run. */
  ghost predicate Going(agent: Agent, context: Context, base: Base, turns: seq<Turn>, newMessages: seq<Message>,
                        steering: seq<Message>, followUps: seq<Message>)
    reads agent, agent.steeringQueue, agent.followUpQueue, context
  {
    && agent.Valid() && agent.activeRun && agent.before == base.start && agent.stopsAfter == base.stops
    && context !in agent.Repr()
    && Agree(base, turns, RecordsOf(agent, context, newMessages), steering, followUps, OneByOne(agent))
  }

  /** What a turn adds to the trace and to the messages. */
  predicate Extends(turns: seq<Turn>, r: Records, t: Turn, u: Records)
    requires TurnOk(t)
  {
    && u.trace == (if turns == [] then r.trace else r.trace + [TurnStart]) + Body(t)
    && u.newMessages == r.newMessages + Added(t) && u.context == r.context + Added(t)
    && u.steered == r.steered && u.followed == r.followed
  }

  lemma RulesNext(prompts: seq<Message>, turns: seq<Turn>, t: Turn, oneByOne: bool)
    requires PromptsFirst(prompts, turns) && t.prompts == if turns == [] then prompts else []
    requires oneByOne ==> |t.steering| + |t.followUps| <= 1 && OneEach(turns)
    ensures PromptsFirst(prompts, turns + [t]) && (oneByOne ==> OneEach(turns + [t]))
  {
  }

  /** A turn that injects what was at hand keeps the records in agreement. */
  lemma {:induction false} AgreeNext(base: Base, turns: seq<Turn>, r: Records, t: Turn, u: Records, oneByOne: bool)
    requires Agree(base, turns, r, t.steering, t.followUps, oneByOne)
    requires TurnOk(t) && t.prompts == if turns == [] then base.prompts else []
    requires OnCourse(turns, base.stops) && Reason(turns, t.steering + t.followUps)
    requires Extends(turns, r, t, u)
    ensures Agree(base, turns + [t], u, [], [], oneByOne)
  {
    FlowsNext(turns, t, base.stops);
    TranscriptsNext(base, turns, r, t, u);
    QueuesNext(base, turns, r, t, u);
    RulesNext(base.prompts, turns, t, oneByOne);
  }

  lemma {:induction false} TranscriptsNext(base: Base, turns: seq<Turn>, r: Records, t: Turn, u: Records)
    requires AllOk(turns) && AgreeTranscripts(base, turns, r)
    requires TurnOk(t) && t.prompts == if turns == [] then base.prompts else []
    requires Extends(turns, r, t, u)
    ensures AllOk(turns + [t]) && AgreeTranscripts(base, turns + [t], u)
  {
    TurnClosed(base.prompts, turns, t);
    Associates(base.context, r.newMessages, Added(t));
  }

  lemma QueuesNext(base: Base, turns: seq<Turn>, r: Records, t: Turn, u: Records)
    requires AllOk(turns) && TurnOk(t) && AgreeQueues(base, turns, r, t.steering, t.followUps)
    requires u.steered == r.steered && u.followed == r.followed
    ensures AgreeQueues(base, turns + [t], u, [], [])
  {
    OneMoreTurn(turns, t);
    DrainedSoFar(base.steered, SteeringOf(turns), t.steering);
    DrainedSoFar(base.followed, FollowUpsOf(turns), t.followUps);
  }

  /** Messages drained while nothing is at hand are at hand. */
  lemma AgreeDrained(base: Base, turns: seq<Turn>, r: Records, u: Records, s: seq<Message>, f: seq<Message>, oneByOne: bool)
    requires Agree(base, turns, r, [], [], oneByOne)
    requires u == r.(steered := r.steered + s, followed := r.followed + f)
    requires (s == [] || f == []) && (oneByOne ==> |s| + |f| <= 1)
    ensures Agree(base, turns, u, s, f, oneByOne)
  {
    assert base.steered + SteeringOf(turns) + [] == base.steered + SteeringOf(turns);
    assert base.followed + FollowUpsOf(turns) + [] == base.followed + FollowUpsOf(turns);
  }

  lemma DrainedSoFar(a: seq<Message>, b: seq<Message>, c: seq<Message>)
    ensures a + b + c == a + (b + c) + []
  {
  }

  lemma {:induction false} TurnClosed(prompts: seq<Message>, turns: seq<Turn>, t: Turn)
    requires AllOk(turns) && TurnOk(t) && t.prompts == if turns == [] then prompts else []
    ensures AllOk(turns + [t])
    ensures TraceSoFar(prompts, turns + [t]) ==
            (if turns == [] then TraceSoFar(prompts, turns) else TraceSoFar(prompts, turns) + [TurnStart]) + Body(t)
    ensures MessagesSoFar(prompts, turns + [t]) == MessagesSoFar(prompts, turns) + Added(t)
  {
    OneMoreTurn(turns, t);
    var x, o, b := [AgentStart] + EventsOf(turns), [TurnStart] + Announcements(t.prompts), Body(t);
    Associates([AgentStart], EventsOf(turns), Events(t));
    Associates(x, o, b);
    assert TraceSoFar(prompts, turns + [t]) == [AgentStart] + EventsOf(turns + [t]);
    if turns != [] {
      assert TraceSoFar(prompts, turns) == x;
      assert o == [TurnStart];
      assert [] + Added(t) == Added(t);
    } else {
      assert MessagesOf([]) + Messages(t) == Messages(t);
    }
  }

  /** `getSteeringMessages`, while nothing is at hand: the queue gives out what it has, unless this look is skipped, and
      then there is a pause. */
  method PollSteering(agent: Agent, context: Context, skip: bool,
                      ghost newMessages: seq<Message>, ghost base: Base, ghost turns: seq<Turn>)
    returns (pending: seq<Message>)
    requires Going(agent, context, base, turns, newMessages, [], [])
    modifies agent.Repr()
    ensures Going(agent, context, base, turns, newMessages, pending, [])
    ensures pending == if skip then [] else Given(agent.steeringQueue.mode, old(agent.steeringQueue.messages))
    ensures old(agent.aborted) ==> agent.aborted
  {
    pending := [];
    if !skip {
      ghost var before := RecordsOf(agent, context, newMessages);
      pending := agent.steeringQueue.Drain();
      AgreeDrained(base, turns, before, RecordsOf(agent, context, newMessages), pending, [], OneByOne(agent));
    }
    agent.Elsewhere();
  }

  /** After the first turn the next one is prepared (which may take long), steering that came meanwhile is picked up if
      there was none, and the turn is opened. */
  method OpenTurn(agent: Agent, context: Context, waiting: seq<Message>,
                  ghost newMessages: seq<Message>, ghost base: Base, ghost turns: seq<Turn>,
                  ghost steering: seq<Message>, ghost followUps: seq<Message>)
    returns (pending: seq<Message>, ghost steered: seq<Message>, ghost before: Records)
    requires Going(agent, context, base, turns, newMessages, steering, followUps) && waiting == steering + followUps
    modifies agent.Repr()
    ensures agent.Valid() && agent.activeRun && agent.before == base.start && pending == steered + followUps
    ensures old(agent.aborted) ==> agent.aborted
    ensures waiting != [] ==> steered == steering
    ensures Agree(base, turns, before, steered, followUps, OneByOne(agent))
    ensures RecordsOf(agent, context, newMessages) == before.(trace := before.trace + [TurnStart])
  {
    pending, steered := waiting, steering;
    agent.Elsewhere();
    if pending == [] {
      pending := PollSteering(agent, context, false, newMessages, base, turns);
      steered := pending;
      assert pending == pending + [];
    }
    before := RecordsOf(agent, context, newMessages);
    agent.ProcessEvents(TurnStart);
  }

  method NextTurn(agent: Agent, context: Context, newMessages: seq<Message>, waiting: seq<Message>, completed: bool,
                  ghost base: Base, ghost turns: seq<Turn>, ghost steering: seq<Message>, ghost followUps: seq<Message>)
    returns (failed: bool, more: bool, messages: seq<Message>, ghost t: Turn)
    requires Going(agent, context, base, turns, newMessages, steering, followUps)
    requires waiting == steering + followUps && completed == (turns != [])
    requires OnCourse(turns, base.stops) && Reason(turns, waiting)
    modifies agent.Repr(), context
    ensures Going(agent, context, base, turns + [t], messages, [], [])
    ensures failed == Failed(t.reply) && more == HasMore(t)
    ensures !completed || waiting != [] ==> t.steering == steering && t.followUps == followUps
    ensures old(agent.aborted) ==> agent.aborted
  {
    var pending := waiting;
    ghost var steered, before := steering, RecordsOf(agent, context, newMessages);
    if completed {
      pending, steered, before := OpenTurn(agent, context, waiting, newMessages, base, turns, steering, followUps);
    }
    var reply;
    reply, more, messages, t := TurnBody(agent, context, newMessages, pending,
                                         if completed then [] else base.prompts, steered, followUps);
    failed := reply.stop in {StopReason.Error, StopReason.Aborted};
    AgreeNext(base, turns, before, t, RecordsOf(agent, context, messages), OneByOne(agent));
  }

  /** What a finished run has to show for itself. */
  ghost predicate Ended(agent: Agent, context: Context, base: Base, turns: seq<Turn>, newMessages: seq<Message>)
    reads agent, agent.steeringQueue, agent.followUpQueue, context
  {
    && agent.Valid() && agent.activeRun && agent.before == base.start && turns != []
    && AllOk(turns) && PromptsFirst(base.prompts, turns) && Flows(turns, base.stops) && agent.stopsAfter == base.stops
    && agent.trace == RunTrace(turns)
    && newMessages == MessagesOf(turns) && context.messages == base.context + newMessages
    && agent.steeringQueue.drained == base.steered + SteeringOf(turns)
    && agent.followUpQueue.drained == base.followed + FollowUpsOf(turns)
    && (OneByOne(agent) ==> OneEach(turns))
  }

  method EndRun(agent: Agent, context: Context, newMessages: seq<Message>, ghost base: Base, ghost turns: seq<Turn>)
    requires Going(agent, context, base, turns, newMessages, [], []) && turns != []
    modifies agent.Repr()
    ensures Ended(agent, context, base, turns, newMessages)
    ensures old(agent.aborted) ==> agent.aborted
  {
    assert base.steered + SteeringOf(turns) + [] == base.steered + SteeringOf(turns);
    assert base.followed + FollowUpsOf(turns) + [] == base.followed + FollowUpsOf(turns);
    assert TraceSoFar(base.prompts, turns) == [AgentStart] + EventsOf(turns);
    agent.ProcessEvents(AgentEnd(newMessages));
  }

  /** `getFollowUpMessages`, while nothing is at hand. */
  method PollFollowUps(agent: Agent, context: Context,
                       ghost newMessages: seq<Message>, ghost base: Base, ghost turns: seq<Turn>)
    returns (pending: seq<Message>)
    requires Going(agent, context, base, turns, newMessages, [], [])
    modifies agent.Repr()
    ensures Going(agent, context, base, turns, newMessages, [], pending)
    ensures pending == Given(agent.followUpQueue.mode, old(agent.followUpQueue.messages))
    ensures old(agent.aborted) ==> agent.aborted
  {
    ghost var before := RecordsOf(agent, context, newMessages);
    pending := agent.followUpQueue.Drain();
    AgreeDrained(base, turns, before, RecordsOf(agent, context, newMessages), [], pending, OneByOne(agent));
    agent.Elsewhere();
  }

  /** The first turn brought in, or will bring in, what the first look at the steering queue found, and no follow-up. */
  predicate FirstTurn(turns: seq<Turn>, steering: seq<Message>, followUps: seq<Message>, polled: seq<Message>) {
    if turns == [] then steering == polled && followUps == []
    else turns[0].steering == polled && turns[0].followUps == []
  }

  lemma FirstTurnNext(done: seq<Turn>, t: Turn, steering: seq<Message>, followUps: seq<Message>, polled: seq<Message>,
                      pending: seq<Message>)
    requires FirstTurn(done, steering, followUps, polled)
    requires done == [] ==> t.steering == steering && t.followUps == followUps
    ensures FirstTurn(done + [t], pending, [], polled)
  {
  }

  /** `shouldStopAfterTurn` is asked, unless the turn failed; then the run ends, or steering is looked for. */
  method StopOrPoll(agent: Agent, context: Context, newMessages: seq<Message>, failed: bool, taken: nat,
                    ghost base: Base, ghost turns: seq<Turn>)
    returns (stop: bool, pending: seq<Message>)
    requires Going(agent, context, base, turns, newMessages, [], []) && turns != []
    modifies agent.Repr()
    ensures stop == (failed || base.stops(taken))
    ensures if stop then Ended(agent, context, base, turns, newMessages)
            else Going(agent, context, base, turns, newMessages, pending, [])
  {
    stop, pending := failed, [];
    if !failed {
      stop := agent.stopsAfter(taken);
      agent.Elsewhere();
    }
    if stop {
      EndRun(agent, context, newMessages, base, turns);
    } else {
      pending := PollSteering(agent, context, false, newMessages, base, turns);
    }
  }

  /** One round of the inner loop: a turn, and what is asked and polled after it. */
  method InnerStep(agent: Agent, context: Context, newMessages: seq<Message>, waiting: seq<Message>, taken: nat,
                   ghost base: Base, ghost done: seq<Turn>, ghost steering: seq<Message>, ghost followUps: seq<Message>,
                   ghost polled: seq<Message>)
    returns (stop: bool, more: bool, messages: seq<Message>, pending: seq<Message>, ghost t: Turn)
    requires Going(agent, context, base, done, newMessages, steering, followUps)
    requires waiting == steering + followUps && taken == |done| && FirstTurn(done, steering, followUps, polled)
    requires OnCourse(done, base.stops) && Reason(done, waiting)
    modifies agent.Repr(), context
    ensures if stop then Ended(agent, context, base, done + [t], messages)
            else Going(agent, context, base, done + [t], messages, pending, [])
    ensures stop == (Failed(t.reply) || base.stops(taken + 1)) && more == HasMore(t)
    ensures FirstTurn(done + [t], pending, [], polled)
  {
    var failed;
    failed, more, messages, t := NextTurn(agent, context, newMessages, waiting, taken > 0, base, done, steering, followUps);
    stop, pending := StopOrPoll(agent, context, messages, failed, taken + 1, base, done + [t]);
    FirstTurnNext(done, t, steering, followUps, polled, pending);
  }

  /** Between two rounds of the inner loop: what is pending was drained from one of the queues. */
  ghost predicate Looping(agent: Agent, context: Context, base: Base, turns: seq<Turn>, newMessages: seq<Message>,
                          pending: seq<Message>, steering: seq<Message>, followUps: seq<Message>, polled: seq<Message>)
    reads agent, agent.steeringQueue, agent.followUpQueue, context
  {
    && Going(agent, context, base, turns, newMessages, steering, followUps)
    && pending == steering + followUps && FirstTurn(turns, steering, followUps, polled)
  }

  /** Nothing says that the run is to end; there is something to do if `more`, or if something is pending. */
  predicate Ready(turns: seq<Turn>, stops: nat -> bool, more: bool, pending: seq<Message>) {
    && OnCourse(turns, stops)
    && if more then Reason(turns, pending) else turns != [] && !HasMore(turns[|turns| - 1])
  }

  lemma ReadyNext(done: seq<Turn>, t: Turn, stops: nat -> bool, more: bool, pending: seq<Message>)
    requires !Failed(t.reply) && !stops(|done| + 1) && more == HasMore(t)
    ensures Ready(done + [t], stops, more, pending)
  {
  }

  lemma StopConcludes(done: seq<Turn>, t: Turn, stops: nat -> bool)
    requires Failed(t.reply) || stops(|done| + 1)
    ensures Concluded(done + [t], stops)
  {
  }

  /** One round of the inner loop; what it leaves pending is steering. */
  method InnerRound(agent: Agent, context: Context, newMessages: seq<Message>, waiting: seq<Message>, taken: nat,
                    ghost base: Base, ghost done: seq<Turn>, ghost steered: seq<Message>, ghost followed: seq<Message>,
                    ghost polled: seq<Message>, ghost hadMore: bool)
    returns (stop: bool, more: bool, messages: seq<Message>, pending: seq<Message>, ghost turns: seq<Turn>)
    requires Looping(agent, context, base, done, newMessages, waiting, steered, followed, polled)
    requires taken == |done| && Ready(done, base.stops, hadMore, waiting) && (hadMore || waiting != [])
    modifies agent.Repr(), context
    ensures |turns| == taken + 1
    ensures stop ==> Ended(agent, context, base, turns, messages) && Concluded(turns, base.stops)
    ensures stop ==> FirstTurn(turns, pending, [], polled)
    ensures !stop ==> Looping(agent, context, base, turns, messages, pending, pending, [], polled)
    ensures !stop ==> Ready(turns, base.stops, more, pending)
  {
    ghost var t;
    stop, more, messages, pending, t :=
      InnerStep(agent, context, newMessages, waiting, taken, base, done, steered, followed, polled);
    turns := done + [t];
    if stop {
      StopConcludes(done, t, base.stops);
    } else {
      ReadyNext(done, t, base.stops, more, pending);
      assert pending + [] == pending;
    }
  }

  datatype Status = Idle | Stopped | OutOfFuel

  /** The inner loop: turns, as long as there are tool results to be seen or messages to be injected, for at most `fuel`
      turns. */
  method InnerLoop(agent: Agent, context: Context, given: seq<Message>, waiting: seq<Message>, begun: nat, fuel: nat,
                   ghost base: Base, ghost done: seq<Turn>, ghost steered: seq<Message>, ghost followed: seq<Message>,
                   ghost polled: seq<Message>)
    returns (status: Status, newMessages: seq<Message>, taken: nat, left: nat,
             ghost turns: seq<Turn>, ghost steering: seq<Message>, ghost followUps: seq<Message>)
    requires Looping(agent, context, base, done, given, waiting, steered, followed, polled)
    requires begun == |done| && Ready(done, base.stops, true, waiting)
    modifies agent.Repr(), context
    ensures if status.Stopped? then Ended(agent, context, base, turns, newMessages)
            else Going(agent, context, base, turns, newMessages, steering, followUps)
    ensures if status.Stopped? then Concluded(turns, base.stops) else OnCourse(turns, base.stops)
    ensures status.Idle? ==> steering == [] && followUps == [] && Concluded(turns, base.stops) && left < fuel
    ensures FirstTurn(turns, steering, followUps, polled)
    ensures taken == |turns| && taken + left == begun + fuel && (status.OutOfFuel? ==> left == 0)
  {
    newMessages, taken, left, turns, steering, followUps := given, begun, fuel, done, steered, followed;
    var pending, hasMoreToolCalls := waiting, true;
    while hasMoreToolCalls || pending != []
      invariant Looping(agent, context, base, turns, newMessages, pending, steering, followUps, polled)
      invariant taken == |turns| && left <= fuel && taken + left == begun + fuel
      invariant Ready(turns, base.stops, hasMoreToolCalls, pending) && (left < fuel || hasMoreToolCalls)
      decreases left
    {
      if left == 0 {
        status := OutOfFuel;
        return;
      }
      left := left - 1;
      var stop;
      stop, hasMoreToolCalls, newMessages, pending, turns :=
        InnerRound(agent, context, newMessages, pending, taken, base, turns, steering, followUps, polled, hasMoreToolCalls);
      steering, followUps, taken := pending, [], taken + 1;
      if stop {
        status := Stopped;
        return;
      }
    }
    NothingPending(steering, followUps);
    status := Idle;
  }

  lemma NothingPending(steering: seq<Message>, followUps: seq<Message>)
    ensures steering + followUps == [] ==> steering == [] && followUps == []
  {
  }

  /** Follow-ups are looked for; if there are none, the run is over. */
  method FollowOrEnd(agent: Agent, context: Context, newMessages: seq<Message>, ghost base: Base, ghost turns: seq<Turn>)
    returns (over: bool, pending: seq<Message>)
    requires Going(agent, context, base, turns, newMessages, [], []) && turns != []
    modifies agent.Repr()
    ensures over <==> old(agent.followUpQueue.messages) == []
    ensures over ==> Ended(agent, context, base, turns, newMessages)
    ensures !over ==> Going(agent, context, base, turns, newMessages, [], pending) && pending != []
  {
    pending := PollFollowUps(agent, context, newMessages, base, turns);
    over := pending == [];
    if over {
      EndRun(agent, context, newMessages, base, turns);
    }
  }

  lemma FollowUpsPending(turns: seq<Turn>, followUps: seq<Message>, polled: seq<Message>)
    requires turns != [] && FirstTurn(turns, [], [], polled)
    ensures followUps == [] + followUps && FirstTurn(turns, [], followUps, polled)
  {
  }

  /** The first turn brings in the prompts and what the first look at the steering queue found, and no follow-up. */
  predicate FirstBrings(turns: seq<Turn>, prompts: seq<Message>, looked: seq<Message>) {
    turns != [] ==> turns[0].prompts == prompts && turns[0].steering == looked && turns[0].followUps == []
  }

  /** What a run that is not finished has done so far: as many turns as it was given fuel for. */
  ghost predicate Unfinished(agent: Agent, prompts: seq<Message>, turns: seq<Turn>, fuel: nat)
    reads agent, agent.steeringQueue, agent.followUpQueue
  {
    && agent.Valid() && agent.activeRun && AllOk(turns) && |turns| == fuel && agent.trace == TraceSoFar(prompts, turns)
    && Flows(turns, agent.stopsAfter) && OnCourse(turns, agent.stopsAfter)
  }

  lemma TurnBringsFirst(prompts: seq<Message>, turns: seq<Turn>, steering: seq<Message>, followUps: seq<Message>,
                        polled: seq<Message>)
    requires PromptsFirst(prompts, turns) && FirstTurn(turns, steering, followUps, polled)
    ensures FirstBrings(turns, prompts, polled)
  {
  }

  /** The outer loop: follow-ups start the inner loop again. */
  method OuterLoop(agent: Agent, context: Context, prompts: seq<Message>, polled: seq<Message>, fuel: nat, ghost base: Base)
    returns (newMessages: seq<Message>, finished: bool, ghost turns: seq<Turn>, ghost waiting: (seq<Message>, seq<Message>))
    requires Going(agent, context, base, [], prompts, polled, []) && base.prompts == prompts
    modifies agent.Repr(), context
    ensures finished ==> Ended(agent, context, base, turns, newMessages) && |turns| <= fuel
    ensures !finished ==> Going(agent, context, base, turns, newMessages, waiting.0, waiting.1) && |turns| == fuel
    ensures FirstBrings(turns, prompts, polled)
    ensures if finished then Concluded(turns, base.stops) else OnCourse(turns, base.stops)
  {
    newMessages, turns, finished := prompts, [], true;
    var pending := polled;
    ghost var steering, followUps: seq<Message> := pending, [];
    assert pending + [] == pending;
    var left, taken := fuel, 0;
    while true
      invariant Looping(agent, context, base, turns, newMessages, pending, steering, followUps, polled)
      invariant taken == |turns| && taken + left == fuel
      invariant Ready(turns, base.stops, true, pending)
      decreases left
    {
      var status;
      status, newMessages, taken, left, turns, steering, followUps :=
        InnerLoop(agent, context, newMessages, pending, taken, left, base, turns, steering, followUps, polled);
      waiting := (steering, followUps);
      TurnBringsFirst(prompts, turns, steering, followUps, polled);
      if !status.Idle? {
        finished := status.Stopped?;
        return;
      }
      var over;
      over, pending := FollowOrEnd(agent, context, newMessages, base, turns);
      FollowUpsPending(turns, pending, polled);
      steering, followUps := [], pending;
      if over {
        return;
      }
    }
  }

  /** `runLoop`, for at most `fuel` turns: a run that is not finished has taken all of them. */
  method RunLoop(agent: Agent, context: Context, prompts: seq<Message>, skipInitialPoll: bool, fuel: nat, ghost base: Base)
    returns (newMessages: seq<Message>, finished: bool, ghost turns: seq<Turn>, ghost waiting: (seq<Message>, seq<Message>))
    requires Going(agent, context, base, [], prompts, [], []) && base.prompts == prompts
    modifies agent.Repr(), context
    ensures finished ==> Ended(agent, context, base, turns, newMessages) && |turns| <= fuel
    ensures !finished ==> Going(agent, context, base, turns, newMessages, waiting.0, waiting.1) && |turns| == fuel
    ensures !finished ==> Unfinished(agent, prompts, turns, fuel)
    ensures FirstBrings(turns, prompts,
                        if skipInitialPoll then [] else Given(agent.steeringQueue.mode, old(agent.steeringQueue.messages)))
    ensures if finished then Concluded(turns, base.stops) else OnCourse(turns, base.stops)
    ensures finished ==>
              var last := turns[|turns| - 1];
              last.reply.Assistant? &&
              (|| last.reply.stop in {StopReason.Error, StopReason.Aborted} || base.stops(|turns|) || last.reply.calls == []
               || (!last.reply.stop.Length? && forall i: nat | i < |last.outcomes| :: last.outcomes[i].terminate))
  {
    var pending := PollSteering(agent, context, skipInitialPoll, prompts, base, []);
    newMessages, finished, turns, waiting := OuterLoop(agent, context, prompts, pending, fuel, base);
    if finished {
      WhyItEnds(turns, base.stops);
    }
  }
}
