/** Starting runs: from a prompt, from the queues, or from where the transcript stands. */
module AgentRuns {
  import opened Text
  import opened Folds
  import opened AgentTrace
  import opened AgentTools
  import opened AgentTurns
  import opened Agents
  import opened AgentStream
  import opened AgentLoop

  datatype RunResult = Busy | CannotContinue | Ran(messages: seq<Message>) | StillRunning

  /** What a finished run leaves behind: the trace of its turns, their messages in the agent's transcript, and every
      message drained from a queue in one of the turns, in order; and why it went on, and why it ended. */
  ghost predicate Finished(agent: Agent, base: Base, turns: seq<Turn>)
    reads agent, agent.steeringQueue, agent.followUpQueue
  {
    && agent.Valid() && !agent.activeRun && turns != []
    && AllOk(turns) && PromptsFirst(base.prompts, turns)
    && agent.trace == RunTrace(turns)
    && agent.state.messages == base.context + MessagesOf(turns)
    && agent.steeringQueue.drained == base.steered + SteeringOf(turns)
    && agent.followUpQueue.drained == base.followed + FollowUpsOf(turns)
    && (OneByOne(agent) ==> OneEach(turns))
    && Flows(turns, base.stops) && Concluded(turns, base.stops)
  }

  lemma FramedTranscript(s: AgentState, es: seq<Event>, ms: seq<Message>)
    ensures Fold(Reduce, s, [AgentStart] + es + [AgentEnd(ms)]).messages == Fold(Reduce, s, es).messages
  {
    FoldTwo(Reduce, s, AgentStart, AgentStart);
    FoldAppend(Reduce, s, [AgentStart], es);
    FoldOne(Reduce, s, [AgentStart] + es, AgentEnd(ms));
  }

  lemma EndedTranscript(s: AgentState, turns: seq<Turn>)
    requires AllOk(turns) && Settled(s)
    ensures Fold(Reduce, s, RunTrace(turns)).messages == s.messages + MessagesOf(turns)
  {
    TurnsGrow(s, turns);
    FramedTranscript(s, EventsOf(turns), MessagesOf(turns));
  }

  /** Whole turns leave their messages in the transcript, whether or not the run is over. */
  lemma TranscriptSoFar(s: AgentState, prompts: seq<Message>, turns: seq<Turn>)
    requires AllOk(turns) && Settled(s)
    ensures Fold(Reduce, s, TraceSoFar(prompts, turns)).messages == s.messages + MessagesSoFar(prompts, turns)
  {
    FoldTwo(Reduce, s, AgentStart, AgentStart);
    if turns == [] {
      var opening := [TurnStart] + Announcements(prompts);
      OpeningGrows(s, prompts);
      FoldAppend(Reduce, s, [AgentStart], opening);
      assert TraceSoFar(prompts, turns) == [AgentStart] + opening;
    } else {
      TurnsGrow(s, turns);
      FoldAppend(Reduce, s, [AgentStart], EventsOf(turns));
      assert TraceSoFar(prompts, turns) == [AgentStart] + EventsOf(turns);
    }
  }

  // ----- The grammar -----

  predicate AllSaid(ms: seq<Message>) { forall m | m in ms :: m.Said? }

  lemma {:induction false} TurnInjects(turns: seq<Turn>, t: Turn, m: Message)
    requires t in turns
    ensures m in t.steering ==> m in SteeringOf(turns)
    ensures m in t.followUps ==> m in FollowUpsOf(turns)
  {
    if t != turns[|turns| - 1] {
      assert t in turns[..|turns| - 1];
      TurnInjects(turns[..|turns| - 1], t, m);
    }
  }

  lemma {:induction false} TurnsSayOnly(prompts: seq<Message>, turns: seq<Turn>)
    requires PromptsFirst(prompts, turns) && AllSaid(prompts)
    requires AllSaid(SteeringOf(turns)) && AllSaid(FollowUpsOf(turns))
    ensures forall t | t in turns :: SaysOnly(t)
  {
    forall t | t in turns
      ensures SaysOnly(t)
    {
      forall m | m in t.steering + t.followUps
        ensures m.Said?
      {
        TurnInjects(turns, t, m);
      }
      var k :| 0 <= k < |turns| && turns[k] == t;
      assert t.prompts == if k == 0 then prompts else [];
    }
  }

  /** Nothing but plain messages was ever put into the queues. */
  ghost predicate QueuesSayOnly(agent: Agent)
    reads agent, agent.steeringQueue, agent.followUpQueue
  {
    AllSaid(agent.steeringQueue.enqueued) && AllSaid(agent.followUpQueue.enqueued)
  }

  lemma PartsSaid(whole: seq<Message>, a: seq<Message>, b: seq<Message>, c: seq<Message>)
    requires AllSaid(whole) && whole == a + b + c
    ensures AllSaid(b)
  {
    forall m | m in b
      ensures m.Said?
    {
      assert m in whole;
    }
  }

  lemma FinishedObeysGrammar(agent: Agent, base: Base, turns: seq<Turn>)
    requires Finished(agent, base, turns) && AllSaid(base.prompts) && QueuesSayOnly(agent)
    ensures WellFormedRun(agent.trace)
  {
    PartsSaid(agent.steeringQueue.enqueued, base.steered, SteeringOf(turns), agent.steeringQueue.messages);
    PartsSaid(agent.followUpQueue.enqueued, base.followed, FollowUpsOf(turns), agent.followUpQueue.messages);
    TurnsSayOnly(base.prompts, turns);
    RunAccepted(turns);
  }

  // ----- Opening a run -----

  /** Since pause `from` the steering queue has got what the agenda says, and given out nothing. */
  ghost predicate OnlySteered(agent: Agent, had: seq<Message>, from: nat)
    reads agent, agent.steeringQueue
  {
    from <= agent.clock && agent.steeringQueue.messages == had + SteeredIn(agent.agenda, from, agent.clock)
  }

  method EmitFirst(agent: Agent, e: Event, ghost had: seq<Message>, ghost from: nat)
    requires agent.Valid() && agent.activeRun && OnlySteered(agent, had, from)
    modifies agent.Repr()
    ensures agent.Valid() && agent.Overheard() && agent.trace == old(agent.trace) + [e]
    ensures agent.clock == old(agent.clock) + 1 && OnlySteered(agent, had, from)
  {
    ghost var so, more := SteeredIn(agent.agenda, from, agent.clock), agent.agenda.steers(agent.clock);
    Associates(had, so, more);
    agent.ProcessEvents(e);
    assert SteeredIn(agent.agenda, from, agent.clock) == so + more;
  }

  /** `agent_start`, `turn_start`, and the prompts; there is a pause after each event. */
  method OpenRun(agent: Agent, prompts: seq<Message>)
    requires agent.Valid() && agent.activeRun && agent.trace == []
    modifies agent.Repr()
    ensures agent.Valid() && agent.Overheard() && agent.trace == TraceSoFar(prompts, [])
    ensures agent.clock == old(agent.clock) + 2 + 2 * |prompts|
    ensures OnlySteered(agent, old(agent.steeringQueue.messages), old(agent.clock))
  {
    ghost var had, from := agent.steeringQueue.messages, agent.clock;
    assert had + SteeredIn(agent.agenda, from, from) == had;
    EmitFirst(agent, AgentStart, had, from);
    EmitFirst(agent, TurnStart, had, from);
    var i := 0;
    ghost var opening := [AgentStart] + [TurnStart];
    assert agent.trace == opening + Announcements(prompts[..0]);
    while i < |prompts|
      invariant 0 <= i <= |prompts| && agent.Valid() && agent.Overheard()
      invariant agent.trace == opening + Announcements(prompts[..i])
      invariant agent.clock == from + 2 + 2 * i && OnlySteered(agent, had, from)
    {
      InjectedOneMore(opening, prompts, i);
      EmitFirst(agent, MessageStart(prompts[i]), had, from);
      EmitFirst(agent, MessageEnd(prompts[i]), had, from);
      i := i + 1;
    }
    assert prompts[..i] == prompts;
    Associates([AgentStart], [TurnStart], Announcements(prompts));
    assert [AgentStart] + EventsOf([]) == [AgentStart];
  }

  // ----- Runs -----

  /** What the first look at the steering queue finds: the oldest, or all, of what was waiting when the run was started,
      at pause `clock`, and of what came in the pauses while it was opened. */
  function FirstLook(mode: QueueMode, waiting: seq<Message>, agenda: Agenda, clock: nat, prompts: nat): seq<Message> {
    Given(mode, waiting + SteeredIn(agenda, clock, clock + 2 + 2 * prompts))
  }

  /** The state is prepared, the context is made, and the run is opened. */
  method BeginRun(agent: Agent, prompts: seq<Message>) returns (context: Context, ghost base: Base)
    requires agent.Valid() && !agent.activeRun
    modifies agent.Repr()
    ensures fresh(context) && Going(agent, context, base, [], prompts, [], [])
    ensures base == Base(prompts, agent.before, old(agent.state.messages),
                         old(agent.steeringQueue.drained), old(agent.followUpQueue.drained), agent.stopsAfter)
    ensures Settled(agent.before) && agent.before.messages == old(agent.state.messages)
    ensures agent.clock == old(agent.clock) + 2 + 2 * |prompts|
    ensures OnlySteered(agent, old(agent.steeringQueue.messages), old(agent.clock))
  {
    agent.StartRun();
    base := Base(prompts, agent.before, agent.state.messages, agent.steeringQueue.drained, agent.followUpQueue.drained,
                 agent.stopsAfter);
    context := new Context(agent.state.messages + prompts);
    OpenRun(agent, prompts);
    assert base.steered + SteeringOf([]) + [] == base.steered && base.followed + FollowUpsOf([]) + [] == base.followed;
  }

  /** `finishRun` */
  method CloseRun(agent: Agent, context: Context, newMessages: seq<Message>, ghost base: Base, ghost turns: seq<Turn>)
    requires AgentLoop.Ended(agent, context, base, turns, newMessages)
    requires Settled(base.start) && base.start.messages == base.context && Concluded(turns, base.stops)
    modifies agent
    ensures Finished(agent, base, turns) && agent.before == old(agent.before)
    ensures AllSaid(base.prompts) && QueuesSayOnly(agent) ==> WellFormedRun(agent.trace)
  {
    EndedTranscript(agent.before, turns);
    agent.FinishRun();
    if AllSaid(base.prompts) && QueuesSayOnly(agent) {
      FinishedObeysGrammar(agent, base, turns);
    }
  }

  /** `runWithLifecycle` around `runAgentLoop` or `runAgentLoopContinue`; the latter is the case of no prompts. */
  method Run(agent: Agent, prompts: seq<Message>, skipInitialPoll: bool, fuel: nat)
    returns (r: RunResult, ghost turns: seq<Turn>)
    requires agent.Valid() && !agent.activeRun
    modifies agent.Repr()
    ensures r.Ran? || r.StillRunning?
    ensures r.StillRunning? ==>
              && Unfinished(agent, prompts, turns, fuel)
              && agent.state.messages == old(agent.state.messages) + MessagesSoFar(prompts, turns)
    ensures r.Ran? ==>
              var base := Base(prompts, agent.before, old(agent.state.messages),
                               old(agent.steeringQueue.drained), old(agent.followUpQueue.drained), agent.stopsAfter);
              Finished(agent, base, turns) && |turns| <= fuel && r.messages == MessagesOf(turns)
    ensures r.Ran? && AllSaid(prompts) && QueuesSayOnly(agent) ==> WellFormedRun(agent.trace)
    ensures FirstBrings(turns, prompts,
                        if skipInitialPoll then []
                        else FirstLook(agent.steeringQueue.mode, old(agent.steeringQueue.messages), agent.agenda,
                                       old(agent.clock), |prompts|))
  {
    var context;
    ghost var base, waiting;
    context, base := BeginRun(agent, prompts);
    assert Given(agent.steeringQueue.mode, agent.steeringQueue.messages)
        == FirstLook(agent.steeringQueue.mode, old(agent.steeringQueue.messages), agent.agenda, old(agent.clock), |prompts|);
    var newMessages, finished;
    newMessages, finished, turns, waiting := RunLoop(agent, context, prompts, skipInitialPoll, fuel, base);
    if !finished {
      TranscriptSoFar(agent.before, prompts, turns);
      r := StillRunning;
      return;
    }
    CloseRun(agent, context, newMessages, base, turns);
    r := Ran(newMessages);
  }

  /** `prompt`. A finished run obeys the grammar if nothing but plain messages was prompted and queued. */
  method Prompt(agent: Agent, prompts: seq<Message>, fuel: nat) returns (r: RunResult, ghost turns: seq<Turn>)
    requires agent.Valid()
    modifies agent.Repr()
    ensures old(agent.activeRun) <==> r.Busy?
    ensures !r.CannotContinue?
    ensures r.Busy? ==> unchanged(agent) && unchanged(agent.steeringQueue) && unchanged(agent.followUpQueue)
    ensures r.StillRunning? ==>
              && Unfinished(agent, prompts, turns, fuel)
              && agent.state.messages == old(agent.state.messages) + MessagesSoFar(prompts, turns)
    ensures r.Ran? ==>
              var base := Base(prompts, agent.before, old(agent.state.messages),
                               old(agent.steeringQueue.drained), old(agent.followUpQueue.drained), agent.stopsAfter);
              Finished(agent, base, turns) && |turns| <= fuel && r.messages == MessagesOf(turns)
    ensures r.Ran? && AllSaid(prompts) && QueuesSayOnly(agent) ==> WellFormedRun(agent.trace)
  {
    turns := [];
    if agent.activeRun {
      r := Busy;
      return;
    }
    r, turns := Run(agent, prompts, false, fuel);
  }

  // ----- Continuing -----

  /** Whether the transcript ends with a reply of the model. */
  predicate EndsWithReply(messages: seq<Message>) {
    messages != [] && messages[|messages| - 1].Assistant?
  }

  datatype Source = Steering | FollowUps | Transcript | Nowhere

  /** Where `continue` continues from: after a reply, the queues have to supply the prompts, steering first. */
  function SourceOf(transcript: seq<Message>, steering: seq<Message>, followUps: seq<Message>): Source {
    if transcript == [] then Nowhere
    else if !EndsWithReply(transcript) then Transcript
    else if steering != [] then Steering
    else if followUps != [] then FollowUps
    else Nowhere
  }

  method NextPrompts(agent: Agent) returns (source: Source, prompts: seq<Message>)
    requires agent.Valid() && !agent.activeRun
    modifies agent.steeringQueue, agent.followUpQueue
    ensures agent.Valid()
    ensures source == SourceOf(agent.state.messages, old(agent.steeringQueue.messages), old(agent.followUpQueue.messages))
    ensures prompts == match source
                       case Steering => Given(agent.steeringQueue.mode, old(agent.steeringQueue.messages))
                       case FollowUps => Given(agent.followUpQueue.mode, old(agent.followUpQueue.messages))
                       case _ => []
    ensures source.Steering? || agent.steeringQueue.messages == old(agent.steeringQueue.messages)
    ensures agent.steeringQueue.drained == old(agent.steeringQueue.drained) + if source.Steering? then prompts else []
    ensures agent.followUpQueue.drained == old(agent.followUpQueue.drained) + if source.FollowUps? then prompts else []
    ensures agent.steeringQueue.enqueued == old(agent.steeringQueue.enqueued)
    ensures agent.followUpQueue.enqueued == old(agent.followUpQueue.enqueued)
    ensures prompts == [] <==> source.Transcript? || source.Nowhere?
  {
    source, prompts := Nowhere, [];
    if agent.state.messages == [] {
      return;
    }
    if !agent.state.messages[|agent.state.messages| - 1].Assistant? {
      source := Transcript;
      return;
    }
    prompts := agent.steeringQueue.Drain();
    if prompts != [] {
      source := Steering;
      return;
    }
    prompts := agent.followUpQueue.Drain();
    if prompts != [] {
      source := FollowUps;
    }
  }

  /** What the first turn of a continued run brings in from the queues. */
  function FromQueues(t: Turn): seq<Message> { t.prompts + t.steering + t.followUps }

  /** The first look of a run that starts from a follow-up finds steering that has come while it was opened. */
  predicate SteeredWhileOpening(transcript: seq<Message>, steering: seq<Message>, followUps: seq<Message>,
                                agenda: Agenda, clock: nat) {
    SourceOf(transcript, steering, followUps).FollowUps? && SteeredIn(agenda, clock, clock + 4) != []
  }

  /** `continue`. In one-at-a-time mode the first turn, too, brings in at most one queued message, unless the transcript
      ends with a reply, only a follow-up is queued, and `steer` is called in one of the four pauses before the first look
      at the steering queue. */
  method Continue(agent: Agent, fuel: nat)
    returns (r: RunResult, ghost source: Source, ghost prompts: seq<Message>, ghost turns: seq<Turn>)
    requires agent.Valid()
    modifies agent.Repr()
    ensures old(agent.activeRun) <==> r.Busy?
    ensures !r.Busy? ==>
              source == SourceOf(old(agent.state.messages), old(agent.steeringQueue.messages), old(agent.followUpQueue.messages))
    ensures r.CannotContinue? <==> !r.Busy? && source.Nowhere?
    ensures r.CannotContinue? ==> agent.state == old(agent.state)
    ensures r.StillRunning? ==>
              && Unfinished(agent, prompts, turns, fuel)
              && agent.state.messages == old(agent.state.messages) + MessagesSoFar(prompts, turns)
    ensures r.Ran? ==>
              var base := Base(prompts, agent.before, old(agent.state.messages),
                               old(agent.steeringQueue.drained) + (if source.Steering? then prompts else []),
                               old(agent.followUpQueue.drained) + (if source.FollowUps? then prompts else []),
                               agent.stopsAfter);
              Finished(agent, base, turns) && |turns| <= fuel && r.messages == MessagesOf(turns)
    ensures r.Ran? && QueuesSayOnly(agent) ==> WellFormedRun(agent.trace)
    ensures prompts == match source
                       case Steering => Given(agent.steeringQueue.mode, old(agent.steeringQueue.messages))
                       case FollowUps => Given(agent.followUpQueue.mode, old(agent.followUpQueue.messages))
                       case _ => []
    ensures FirstBrings(turns, prompts,
                        if source.Steering? then []
                        else FirstLook(agent.steeringQueue.mode, old(agent.steeringQueue.messages), agent.agenda,
                                       old(agent.clock), |prompts|))
    ensures OneByOne(agent) && turns != [] ==>
              (|FromQueues(turns[0])| <= 1 <==>
               !SteeredWhileOpening(old(agent.state.messages), old(agent.steeringQueue.messages),
                                    old(agent.followUpQueue.messages), agent.agenda, old(agent.clock)))
  {
    turns, prompts, source := [], [], Nowhere;
    if agent.activeRun {
      r := Busy;
      return;
    }
    var from, given := NextPrompts(agent);
    source, prompts := from, given;
    if from.Nowhere? {
      r := CannotContinue;
      return;
    }
    r, turns := Run(agent, given, from.Steering?, fuel);
    if r.Ran? && QueuesSayOnly(agent) {
      PromptsSaid(agent, source, given, old(agent.steeringQueue.drained), old(agent.followUpQueue.drained), turns);
    }
    if OneByOne(agent) && turns != [] {
      FirstTurnBrings(old(agent.state.messages), old(agent.steeringQueue.messages), old(agent.followUpQueue.messages),
                      agent.agenda, old(agent.clock), turns[0]);
    }
  }

  /** Prompts that came from a queue were put into it. */
  lemma PromptsSaid(agent: Agent, source: Source, prompts: seq<Message>, steered: seq<Message>, followed: seq<Message>,
                    turns: seq<Turn>)
    requires agent.Valid() && QueuesSayOnly(agent)
    requires source.Steering? ==> agent.steeringQueue.drained == steered + prompts + SteeringOf(turns)
    requires source.FollowUps? ==> agent.followUpQueue.drained == followed + prompts + FollowUpsOf(turns)
    requires source.Transcript? || source.Nowhere? ==> prompts == []
    ensures AllSaid(prompts)
  {
    if source.Steering? {
      var q := agent.steeringQueue;
      Associates(steered + prompts, SteeringOf(turns), q.messages);
      PartsSaid(q.enqueued, steered, prompts, SteeringOf(turns) + q.messages);
    } else if source.FollowUps? {
      var q := agent.followUpQueue;
      Associates(followed + prompts, FollowUpsOf(turns), q.messages);
      PartsSaid(q.enqueued, followed, prompts, FollowUpsOf(turns) + q.messages);
    }
  }

  lemma FirstTurnBrings(transcript: seq<Message>, steering: seq<Message>, followUps: seq<Message>,
                        agenda: Agenda, clock: nat, t: Turn)
    requires
      var source := SourceOf(transcript, steering, followUps);
      && t.prompts == (match source
                       case Steering => Given(OneAtATime, steering)
                       case FollowUps => Given(OneAtATime, followUps)
                       case _ => [])
      && t.steering == (if source.Steering? then [] else FirstLook(OneAtATime, steering, agenda, clock, |t.prompts|))
      && t.followUps == []
    ensures |FromQueues(t)| <= 1 <==> !SteeredWhileOpening(transcript, steering, followUps, agenda, clock)
  {
    var source := SourceOf(transcript, steering, followUps);
    assert FromQueues(t) == t.prompts + t.steering;
    if source.FollowUps? {
      assert steering + SteeredIn(agenda, clock, clock + 4) == SteeredIn(agenda, clock, clock + 4);
    }
  }

  /** `steer` is called in the first pause, and nothing else happens. */
  function SteerAtOnce(m: Message): Agenda {
    Agenda((k: nat) => if k == 0 then [m] else [], (k: nat) => [], (k: nat) => false)
  }

  lemma LooksAtSteering(m: Message)
    ensures FirstLook(OneAtATime, [], SteerAtOnce(m), 0, 1) == [m]
  {
    var agenda := SteerAtOnce(m);
    assert SteeredIn(agenda, 0, 1) == [] + [m];
    assert SteeredIn(agenda, 0, 2) == [m] + [];
    assert SteeredIn(agenda, 0, 3) == [m] + [];
    assert SteeredIn(agenda, 0, 4) == [m] + [];
    assert [] + SteeredIn(agenda, 0, 4) == [m];
  }

  lemma {:induction false} FirstTurnFirst(turns: seq<Turn>)
    requires AllOk(turns) && turns != []
    ensures Messages(turns[0]) <= MessagesOf(turns)
  {
    var init := turns[..|turns| - 1];
    if init == [] {
      assert MessagesOf(init) + Messages(turns[0]) == Messages(turns[0]);
    } else {
      assert forall t | t in init :: t in turns;
      FirstTurnFirst(init);
    }
  }

  lemma FirstThree(t: Turn, followUp: Message, steering: Message)
    requires TurnOk(t) && t.prompts == [followUp] && t.steering == [steering] && t.followUps == []
    ensures |Messages(t)| >= 3 && Messages(t)[0] == followUp && Messages(t)[1] == steering && Messages(t)[2] == t.reply
  {
    assert Messages(t) == [followUp] + (([steering] + []) + ([t.reply] + Results(t)));
  }

  lemma {:induction false} TwoBeforeReply(transcript: seq<Message>, before: Message, turns: seq<Turn>,
                                          followUp: Message, steering: Message)
    requires AllOk(turns) && turns != [] && transcript == [before] + MessagesOf(turns)
    requires turns[0].prompts == [followUp] && turns[0].steering == [steering] && turns[0].followUps == []
    ensures |transcript| > 3 && transcript[..3] == [before, followUp, steering] && transcript[3].Assistant?
  {
    FirstTurnFirst(turns);
    FirstThree(turns[0], followUp, steering);
    StartsWith(transcript, before, MessagesOf(turns), Messages(turns[0]));
  }

  lemma StartsWith(transcript: seq<Message>, before: Message, all: seq<Message>, first: seq<Message>)
    requires transcript == [before] + all && first <= all && |first| >= 3
    ensures |transcript| > 3 && transcript[..3] == [before, first[0], first[1]] && transcript[3] == first[2]
  {
    assert all[0] == first[0] && all[1] == first[1] && all[2] == first[2];
  }

  /** A run that is continued over a queued follow-up, while `steer` is called in its first pause. */
  method ContinueSteered(agent: Agent, reply: Message, followUp: Message, steering: Message)
    returns (r: RunResult, ghost turns: seq<Turn>)
    requires agent.Valid() && !agent.activeRun && OneByOne(agent)
    requires reply.Assistant? && agent.state.messages == [reply]
    requires agent.steeringQueue.messages == [] && agent.followUpQueue.messages == [followUp]
    requires agent.agenda == SteerAtOnce(steering) && agent.clock == 0
    modifies agent.Repr()
    ensures AllOk(turns) && turns != [] && agent.state.messages == [reply] + MessagesOf(turns)
    ensures turns[0].prompts == [followUp] && turns[0].steering == [steering] && turns[0].followUps == []
  {
    LooksAtSteering(steering);
    ghost var source, prompts;
    r, source, prompts, turns := Continue(agent, 1);
    assert source.FollowUps? && prompts == [followUp];
  }

  /** And so it happens: a follow-up is queued after a reply, the run is continued, and a listener of its first event
      calls `steer`; the model replies once to both messages. */
  method TwoInFirstTurn(reply: Message, followUp: Message, steering: Message) returns (agent: Agent, r: RunResult)
    requires reply.Assistant?
    ensures OneByOne(agent) && |agent.state.messages| > 3
    ensures agent.state.messages[..3] == [reply, followUp, steering] && agent.state.messages[3].Assistant?
  {
    agent := new Agent([reply], OneAtATime, OneAtATime, (k: nat) => false, SteerAtOnce(steering));
    agent.FollowUp(followUp);
    ghost var turns;
    r, turns := ContinueSteered(agent, reply, followUp, steering);
    TwoBeforeReply(agent.state.messages, reply, turns, followUp, steering);
  }
}
