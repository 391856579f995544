/** A run as a list of turns: what it emits, and what it leaves behind. */
module AgentTurns {
  import opened Text
  import opened Folds
  import opened AgentTrace
  import opened AgentTools

  /** What one turn brought in, what the model replied, and what its tool calls did. */
  datatype Turn = Turn(
    prompts: seq<Message>, steering: seq<Message>, followUps: seq<Message>,
    seen: seq<StreamEvent>, reply: Message,
    log: seq<ToolStep>, outcomes: seq<ToolOutcome>)

  predicate Failed(reply: Message) { reply.Assistant? && reply.stop in {Error, Aborted} }

  /** The stream opens at most once, and the calls of the reply, unless it failed, were run as a batch. */
  predicate TurnOk(t: Turn) {
    && t.reply.Assistant? && PartialsAreReplies(t.seen) && Opens(t.seen) <= 1
    && Complete(t.log, t.reply.calls, t.outcomes)
    && (t.outcomes == [] <==> t.reply.calls == [] || Failed(t.reply))
  }

  function Results(t: Turn): seq<Message>
    requires TurnOk(t)
  {
    ResultMessages(t.reply.calls, t.outcomes)
  }

  /** What the turn adds to every transcript. */
  function Messages(t: Turn): seq<Message>
    requires TurnOk(t)
  {
    t.prompts + ((t.steering + t.followUps) + ([t.reply] + Results(t)))
  }

  /** What is emitted once the turn was opened and its prompts were announced. */
  function Body(t: Turn): seq<Event>
    requires TurnOk(t)
  {
    Announcements(t.steering + t.followUps)
    + (ReplyEvents(t.seen, t.reply) + (LogEvents(t.reply.calls, t.log) + [TurnEnd(t.reply, Results(t))]))
  }

  function Events(t: Turn): seq<Event>
    requires TurnOk(t)
  {
    [TurnStart] + Announcements(t.prompts) + Body(t)
  }

  predicate AllOk(turns: seq<Turn>) { forall t {:trigger TurnOk(t)} | t in turns :: TurnOk(t) }

  function EventsOf(turns: seq<Turn>): seq<Event>
    requires AllOk(turns)
  {
    if turns == [] then [] else EventsOf(turns[..|turns| - 1]) + Events(turns[|turns| - 1])
  }

  function MessagesOf(turns: seq<Turn>): seq<Message>
    requires AllOk(turns)
  {
    if turns == [] then [] else MessagesOf(turns[..|turns| - 1]) + Messages(turns[|turns| - 1])
  }

  function SteeringOf(turns: seq<Turn>): seq<Message> {
    if turns == [] then [] else SteeringOf(turns[..|turns| - 1]) + turns[|turns| - 1].steering
  }

  function FollowUpsOf(turns: seq<Turn>): seq<Message> {
    if turns == [] then [] else FollowUpsOf(turns[..|turns| - 1]) + turns[|turns| - 1].followUps
  }

  lemma OneMoreTurn(turns: seq<Turn>, t: Turn)
    requires AllOk(turns) && TurnOk(t)
    ensures AllOk(turns + [t])
    ensures EventsOf(turns + [t]) == EventsOf(turns) + Events(t)
    ensures MessagesOf(turns + [t]) == MessagesOf(turns) + Messages(t)
    ensures SteeringOf(turns + [t]) == SteeringOf(turns) + t.steering
    ensures FollowUpsOf(turns + [t]) == FollowUpsOf(turns) + t.followUps
  {
    assert (turns + [t])[..|turns|] == turns;
  }

  // ----- The agent's own transcript -----

  /** Nothing is being streamed, and no call is pending. */
  predicate Settled(s: AgentState) { s.streaming.None? && s.pendingCalls == {} }

  /** From `s` to `u` the messages `ms` were added, and all is settled again. */
  predicate Grew(s: AgentState, u: AgentState, ms: seq<Message>) {
    Settled(u) && u.messages == s.messages + ms
  }

  lemma GrewTwice(s: AgentState, u: AgentState, v: AgentState, a: seq<Message>, b: seq<Message>)
    requires Grew(s, u, a) && Grew(u, v, b)
    ensures Grew(s, v, a + b)
  {
  }

  lemma NoneRuns(pending: set<string>, calls: seq<ToolCall>)
    requires PendingRun(pending, calls, {})
    ensures pending == {}
  {
    assert forall id :: id !in pending;
  }

  lemma AnnouncementsGrow(s: AgentState, ms: seq<Message>)
    requires Settled(s)
    ensures Grew(s, Fold(Reduce, s, Announcements(ms)), ms)
  {
    AnnouncementsReduce(s, ms);
  }

  lemma ReplyGrows(s: AgentState, seen: seq<StreamEvent>, reply: Message)
    requires Settled(s)
    ensures Grew(s, Fold(Reduce, s, ReplyEvents(seen, reply)), [reply])
  {
    ReplyReduces(s, seen, reply);
  }

  lemma BatchGrows(s: AgentState, t: Turn)
    requires TurnOk(t) && Settled(s)
    ensures Grew(s, Fold(Reduce, s, LogEvents(t.reply.calls, t.log) + [TurnEnd(t.reply, Results(t))]), Results(t))
  {
    BatchReduces(s, t.reply.calls, t.log);
    FoldOne(Reduce, s, LogEvents(t.reply.calls, t.log), TurnEnd(t.reply, Results(t)));
    NoneRuns(Fold(Reduce, s, LogEvents(t.reply.calls, t.log)).pendingCalls, t.reply.calls);
  }

  /** Two stretches of events, one after the other. */
  lemma GrowTwice(s: AgentState, x: seq<Event>, y: seq<Event>, a: seq<Message>, b: seq<Message>)
    requires Grew(s, Fold(Reduce, s, x), a) && Grew(Fold(Reduce, s, x), Fold(Reduce, Fold(Reduce, s, x), y), b)
    ensures Grew(s, Fold(Reduce, s, x + y), a + b)
  {
    FoldAppend(Reduce, s, x, y);
    GrewTwice(s, Fold(Reduce, s, x), Fold(Reduce, s, x + y), a, b);
  }

  lemma ReplyAndBatchGrow(s: AgentState, t: Turn)
    requires TurnOk(t) && Settled(s)
    ensures Grew(s, Fold(Reduce, s, ReplyEvents(t.seen, t.reply)
                                    + (LogEvents(t.reply.calls, t.log) + [TurnEnd(t.reply, Results(t))])),
                 [t.reply] + Results(t))
  {
    var r := ReplyEvents(t.seen, t.reply);
    ReplyGrows(s, t.seen, t.reply);
    BatchGrows(Fold(Reduce, s, r), t);
    GrowTwice(s, r, LogEvents(t.reply.calls, t.log) + [TurnEnd(t.reply, Results(t))], [t.reply], Results(t));
  }

  lemma BodyGrows(s: AgentState, t: Turn)
    requires TurnOk(t) && Settled(s)
    ensures Grew(s, Fold(Reduce, s, Body(t)), (t.steering + t.followUps) + ([t.reply] + Results(t)))
  {
    var injected := t.steering + t.followUps;
    var a := Announcements(injected);
    AnnouncementsGrow(s, injected);
    ReplyAndBatchGrow(Fold(Reduce, s, a), t);
    GrowTwice(s, a, ReplyEvents(t.seen, t.reply) + (LogEvents(t.reply.calls, t.log) + [TurnEnd(t.reply, Results(t))]),
              injected, [t.reply] + Results(t));
  }

  lemma OpeningGrows(s: AgentState, prompts: seq<Message>)
    requires Settled(s)
    ensures Grew(s, Fold(Reduce, s, [TurnStart] + Announcements(prompts)), prompts)
  {
    FoldTwo(Reduce, s, TurnStart, TurnStart);
    FoldAppend(Reduce, s, [TurnStart], Announcements(prompts));
    AnnouncementsGrow(s, prompts);
  }

  lemma TurnGrows(s: AgentState, t: Turn)
    requires TurnOk(t) && Settled(s)
    ensures Grew(s, Fold(Reduce, s, Events(t)), Messages(t))
  {
    var opening := [TurnStart] + Announcements(t.prompts);
    OpeningGrows(s, t.prompts);
    BodyGrows(Fold(Reduce, s, opening), t);
    GrowTwice(s, opening, Body(t), t.prompts, (t.steering + t.followUps) + ([t.reply] + Results(t)));
  }

  lemma {:induction false} TurnsGrow(s: AgentState, turns: seq<Turn>)
    requires AllOk(turns) && Settled(s)
    ensures Grew(s, Fold(Reduce, s, EventsOf(turns)), MessagesOf(turns))
  {
    if turns == [] {
      assert s.messages + [] == s.messages;
    } else {
      var init, t := turns[..|turns| - 1], turns[|turns| - 1];
      assert t in turns && forall x | x in init :: x in turns;
      TurnsGrow(s, init);
      TurnGrows(Fold(Reduce, s, EventsOf(init)), t);
      GrowTwice(s, EventsOf(init), Events(t), MessagesOf(init), Messages(t));
    }
  }

  /** At every turn_end the state rebuilt from the events holds exactly the messages of the turns so far, nothing is
      being streamed and no tool call is pending, however the calls of each batch were scheduled. */
  lemma TranscriptAtTurnEnd(s: AgentState, turns: seq<Turn>, k: nat)
    requires AllOk(turns) && Settled(s) && k <= |turns|
    ensures AllOk(turns[..k])
    ensures
      var t := Fold(Reduce, s, [AgentStart] + EventsOf(turns[..k]));
      Settled(t) && t.messages == s.messages + MessagesOf(turns[..k])
  {
    FoldTwo(Reduce, s, AgentStart, AgentStart);
    FoldAppend(Reduce, s, [AgentStart], EventsOf(turns[..k]));
    TurnsGrow(s, turns[..k]);
  }

  // ----- The agent's error -----

  /** The error of the last reply that had one. */
  function LastError(before: Option<string>, turns: seq<Turn>): Option<string> {
    if turns == [] then before
    else
      var reply := turns[|turns| - 1].reply;
      if reply.Assistant? && reply.errorMessage !in {None, Some("")} then reply.errorMessage
      else LastError(before, turns[..|turns| - 1])
  }

  lemma BatchTellsError(s: AgentState, t: Turn)
    requires TurnOk(t) && Settled(s)
    ensures Fold(Reduce, s, LogEvents(t.reply.calls, t.log) + [TurnEnd(t.reply, Results(t))]).errorMessage
            == LastError(s.errorMessage, [t])
  {
    BatchReduces(s, t.reply.calls, t.log);
    FoldOne(Reduce, s, LogEvents(t.reply.calls, t.log), TurnEnd(t.reply, Results(t)));
  }

  lemma TurnTellsError(s: AgentState, t: Turn)
    requires TurnOk(t) && Settled(s)
    ensures Fold(Reduce, s, Events(t)).errorMessage == LastError(s.errorMessage, [t])
  {
    var opening, injected := [TurnStart] + Announcements(t.prompts), Announcements(t.steering + t.followUps);
    var r, b := ReplyEvents(t.seen, t.reply), LogEvents(t.reply.calls, t.log) + [TurnEnd(t.reply, Results(t))];
    FoldTwo(Reduce, s, TurnStart, TurnStart);
    FoldAppend(Reduce, s, [TurnStart], Announcements(t.prompts));
    AnnouncementsReduce(s, t.prompts);
    var u := Fold(Reduce, s, opening);
    FoldAppend(Reduce, s, opening, Body(t));
    FoldAppend(Reduce, u, injected, r + b);
    AnnouncementsReduce(u, t.steering + t.followUps);
    var v := Fold(Reduce, u, injected);
    FoldAppend(Reduce, v, r, b);
    ReplyReduces(v, t.seen, t.reply);
    BatchTellsError(Fold(Reduce, v, r), t);
  }

  /** After any turns the agent's error is that of the last reply that had one, or the one it had before. */
  lemma {:induction false} ErrorIsTheLast(s: AgentState, turns: seq<Turn>)
    requires AllOk(turns) && Settled(s)
    ensures Fold(Reduce, s, EventsOf(turns)).errorMessage == LastError(s.errorMessage, turns)
  {
    if turns != [] {
      var init, t := turns[..|turns| - 1], turns[|turns| - 1];
      assert t in turns && forall x | x in init :: x in turns;
      ErrorIsTheLast(s, init);
      TurnsGrow(s, init);
      TurnTellsError(Fold(Reduce, s, EventsOf(init)), t);
      FoldAppend(Reduce, s, EventsOf(init), Events(t));
    }
  }

  // ----- The grammar -----

  /** Prompts and queued messages are neither replies nor tool results. */
  predicate SaysOnly(t: Turn) {
    && (forall m | m in t.prompts :: m.Said?)
    && (forall m | m in t.steering + t.followUps :: m.Said?)
  }

  lemma {:induction false} EndAccepted(n: nat, t: Turn)
    requires TurnOk(t)
    ensures Fold(Accept, InTurn(n, Nothing, true, []), LogEvents(t.reply.calls, t.log) + [TurnEnd(t.reply, Results(t))])
            == Between(n + 1)
  {
    BatchAccepted(n, t.reply.calls, t.log);
    FoldOne(Accept, InTurn(n, Nothing, true, []), LogEvents(t.reply.calls, t.log), TurnEnd(t.reply, Results(t)));
  }

  lemma {:induction false} BodyAccepted(n: nat, t: Turn)
    requires TurnOk(t) && SaysOnly(t)
    ensures Fold(Accept, InTurn(n, Nothing, false, []), Body(t)) == Between(n + 1)
  {
    var g := InTurn(n, Nothing, false, []);
    var a, r := Announcements(t.steering + t.followUps), ReplyEvents(t.seen, t.reply);
    var e := LogEvents(t.reply.calls, t.log) + [TurnEnd(t.reply, Results(t))];
    AnnouncementsAccepted(n, t.steering + t.followUps);
    ReplyAccepted(n, t.seen, t.reply);
    EndAccepted(n, t);
    FoldAppend(Accept, g, r, e);
    FoldAppend(Accept, g, a, r + e);
  }

  lemma TurnAccepted(n: nat, t: Turn)
    requires TurnOk(t) && SaysOnly(t)
    ensures Fold(Accept, Between(n), Events(t)) == Between(n + 1)
  {
    FoldTwo(Accept, Between(n), TurnStart, TurnStart);
    FoldAppend(Accept, Between(n), [TurnStart], Announcements(t.prompts));
    AnnouncementsAccepted(n, t.prompts);
    BodyAccepted(n, t);
    FoldAppend(Accept, Between(n), [TurnStart] + Announcements(t.prompts), Body(t));
  }

  lemma {:induction false} TurnsAccepted(turns: seq<Turn>)
    requires AllOk(turns) && forall t | t in turns :: SaysOnly(t)
    ensures Fold(Accept, Between(0), EventsOf(turns)) == Between(|turns|)
  {
    if turns != [] {
      var init, t := turns[..|turns| - 1], turns[|turns| - 1];
      assert t in turns && forall x | x in init :: x in turns;
      TurnsAccepted(init);
      TurnAccepted(|init|, t);
      FoldAppend(Accept, Between(0), EventsOf(init), Events(t));
    }
  }

  /** The whole trace of a finished run. */
  function RunTrace(turns: seq<Turn>): seq<Event>
    requires AllOk(turns)
  {
    [AgentStart] + EventsOf(turns) + [AgentEnd(MessagesOf(turns))]
  }

  /** Every run of one or more turns obeys the grammar, and the grammar counts its turns. */
  lemma RunAccepted(turns: seq<Turn>)
    requires AllOk(turns) && turns != [] && forall t | t in turns :: SaysOnly(t)
    ensures WellFormedRun(RunTrace(turns))
    ensures Fold(Accept, Fresh, RunTrace(turns)) == Finished(|turns|)
  {
    FoldTwo(Accept, Fresh, AgentStart, AgentStart);
    FoldAppend(Accept, Fresh, [AgentStart], EventsOf(turns));
    TurnsAccepted(turns);
    FoldOne(Accept, Fresh, [AgentStart] + EventsOf(turns), AgentEnd(MessagesOf(turns)));
  }
}
