/** What an agent run says to its listeners: the events, the grammar they obey, and the state rebuilt from them. */
module AgentTrace {
  import opened Text
  import opened Folds

  datatype ToolCall = ToolCall(id: string, name: string, arguments: string)

  datatype StopReason = Stop | Length | ToolUse | Error | Aborted

  /** What is left of a tool call once it is finalized. */
  datatype ToolOutcome = ToolOutcome(content: string, isError: bool, terminate: bool)

  /** `Said` stands for every message that is neither the model's reply nor a tool result. */
  datatype Message =
    | Said(text: string)
    | Assistant(text: string, calls: seq<ToolCall>, stop: StopReason, errorMessage: Option<string>)
    | ToolResult(callId: string, toolName: string, content: string, isError: bool)

  datatype Event =
    | AgentStart
    | TurnStart
    | MessageStart(message: Message)
    | MessageUpdate(message: Message)
    | MessageEnd(message: Message)
    | ToolStart(call: ToolCall)
    | ToolUpdate(call: ToolCall, partial: string)
    | ToolEnd(call: ToolCall, outcome: ToolOutcome)
    | TurnEnd(message: Message, results: seq<Message>)
    | AgentEnd(messages: seq<Message>)

  // ----- `processEvents`: the agent's own transcript -----

  datatype AgentState = AgentState(
    messages: seq<Message>, streaming: Option<Message>, pendingCalls: set<string>, errorMessage: Option<string>)

  function Reduce(s: AgentState, e: Event): AgentState {
    match e
    case MessageStart(m) => s.(streaming := Some(m))
    case MessageUpdate(m) => s.(streaming := Some(m))
    case MessageEnd(m) => s.(streaming := None, messages := s.messages + [m])
    case ToolStart(call) => s.(pendingCalls := s.pendingCalls + {call.id})
    case ToolEnd(call, _) => s.(pendingCalls := s.pendingCalls - {call.id})
    case TurnEnd(m, _) => if m.Assistant? && m.errorMessage !in {None, Some("")} then s.(errorMessage := m.errorMessage) else s
    case AgentEnd(_) => s.(streaming := None)
    case _ => s
  }

  // ----- The grammar of a trace -----

  datatype Opened = Nothing | Plain(message: Message) | Reply

  datatype Grammar =
    | Fresh
    | Between(turns: nat)
    | InTurn(turns: nat, open: Opened, replied: bool, results: seq<Message>)
    | Finished(turns: nat)
    | Broken

  /** One event more. A turn is a list of messages of which exactly one is the model's reply; tools run after it, and
      only their results may follow. The turn ends on the results announced in it. */
  function Accept(g: Grammar, e: Event): Grammar {
    match g
    case Fresh => if e.AgentStart? then Between(0) else Broken
    case Between(turns) =>
      if e.TurnStart? then InTurn(turns, Nothing, false, [])
      else if e.AgentEnd? && turns > 0 then Finished(turns)
      else Broken
    case InTurn(turns, open, replied, results) =>
      (match open
       case Nothing =>
         if e.MessageStart? && e.message.Assistant? && !replied then g.(open := Reply)
         else if e.MessageStart? && (if replied then e.message.ToolResult? else e.message.Said?) then
           g.(open := Plain(e.message))
         else if (e.ToolStart? || e.ToolUpdate? || e.ToolEnd?) && replied then g
         else if e.TurnEnd? && replied && e.message.Assistant? && e.results == results then Between(turns + 1)
         else Broken
       case Plain(m) =>
         if e == MessageEnd(m) then g.(open := Nothing, results := if replied then results + [m] else results)
         else Broken
       case Reply =>
         if e.MessageUpdate? then g
         else if e.MessageEnd? && e.message.Assistant? then g.(open := Nothing, replied := true)
         else Broken)
    case _ => Broken
  }

  /** A finished run: agent_start, one or more turns, agent_end. */
  predicate WellFormedRun(trace: seq<Event>) { Fold(Accept, Fresh, trace).Finished? }

  lemma {:induction false} BrokenStays(es: seq<Event>)
    ensures Fold(Accept, Broken, es) == Broken
  {
    if es != [] {
      BrokenStays(es[..|es| - 1]);
    }
  }

  // ----- Injected messages -----

  function Announce(m: Message): seq<Event> { [MessageStart(m), MessageEnd(m)] }

  function Announcements(ms: seq<Message>): seq<Event> {
    if ms == [] then [] else Announcements(ms[..|ms| - 1]) + Announce(ms[|ms| - 1])
  }

  lemma AnnounceOneMore(ms: seq<Message>, m: Message)
    ensures Announcements(ms + [m]) == Announcements(ms) + Announce(m)
  {
    assert (ms + [m])[..|ms|] == ms;
  }

  lemma {:induction false} AnnounceAppend(a: seq<Message>, b: seq<Message>)
    ensures Announcements(a + b) == Announcements(a) + Announcements(b)
  {
    if b == [] {
      assert a + b == a;
    } else {
      var init := b[..|b| - 1];
      AnnounceAppend(a, init);
      assert (a + b)[..|a + b| - 1] == a + init;
      Associates(Announcements(a), Announcements(init), Announce(b[|b| - 1]));
    }
  }

  /** The state after messages were announced. */
  function Heard(s: AgentState, ms: seq<Message>): AgentState {
    if ms == [] then s else s.(streaming := None, messages := s.messages + ms)
  }

  lemma {:induction false} AnnouncementsReduce(s: AgentState, ms: seq<Message>)
    ensures Fold(Reduce, s, Announcements(ms)) == Heard(s, ms)
  {
    if ms != [] {
      var init, m := ms[..|ms| - 1], ms[|ms| - 1];
      AnnouncementsReduce(s, init);
      FoldAppend(Reduce, s, Announcements(init), Announce(m));
      FoldTwo(Reduce, Heard(s, init), MessageStart(m), MessageEnd(m));
      assert s.messages + ms == (s.messages + init) + [m];
    }
  }

  lemma {:induction false} AnnouncementsAccepted(turns: nat, ms: seq<Message>)
    requires forall m | m in ms :: m.Said?
    ensures var g := InTurn(turns, Nothing, false, []); Fold(Accept, g, Announcements(ms)) == g
  {
    if ms != [] {
      var g := InTurn(turns, Nothing, false, []);
      var init, m := ms[..|ms| - 1], ms[|ms| - 1];
      assert m in ms && forall x | x in init :: x in ms;
      AnnouncementsAccepted(turns, init);
      FoldAppend(Accept, g, Announcements(init), Announce(m));
      FoldTwo(Accept, g, MessageStart(m), MessageEnd(m));
    }
  }

  // ----- The model's reply, as it is streamed -----

  /** `Progress` stands for the nine kinds of block events, `Close` for "done" and "error". */
  datatype StreamEvent = Open(partial: Message) | Progress(partial: Message) | Close

  /** The events of the stream that are looked at. */
  function UntilClose(stream: seq<StreamEvent>): (r: seq<StreamEvent>)
    ensures forall e | e in r :: e.Open? || e.Progress?
  {
    if stream == [] || stream[0].Close? then [] else [stream[0]] + UntilClose(stream[1..])
  }

  function Opens(seen: seq<StreamEvent>): nat {
    if seen == [] then 0 else Opens(seen[..|seen| - 1]) + if seen[|seen| - 1].Open? then 1 else 0
  }

  /** What is emitted for the events seen so far. */
  function StreamedEvents(seen: seq<StreamEvent>): seq<Event> {
    if seen == [] then []
    else
      var init, e := seen[..|seen| - 1], seen[|seen| - 1];
      match e
      case Open(partial) => StreamedEvents(init) + [MessageStart(partial)]
      case Progress(partial) =>
        if Opens(init) > 0 then StreamedEvents(init) + [MessageUpdate(partial)] else StreamedEvents(init)
      case Close => StreamedEvents(init)
  }

  /** The partial messages that the events seen so far leave in the context. */
  function StreamedContext(seen: seq<StreamEvent>): (r: seq<Message>)
    ensures |r| == Opens(seen)
  {
    if seen == [] then []
    else
      var init, e := seen[..|seen| - 1], seen[|seen| - 1];
      var before := StreamedContext(init);
      match e
      case Open(partial) => before + [partial]
      case Progress(partial) => if before != [] then before[|before| - 1 := partial] else before
      case Close => before
  }

  /** All that is emitted for a reply. */
  function ReplyEvents(seen: seq<StreamEvent>, reply: Message): seq<Event> {
    StreamedEvents(seen) + (if Opens(seen) == 0 then [MessageStart(reply)] else []) + [MessageEnd(reply)]
  }

  /** What the reply leaves in the context. */
  function ReplyContext(seen: seq<StreamEvent>, reply: Message): seq<Message> {
    var partials := StreamedContext(seen);
    if partials == [] then [reply] else partials[|partials| - 1 := reply]
  }

  /** The reply is the one message added to the context exactly when the stream opens at most once. */
  lemma ReplyIsOneMessage(seen: seq<StreamEvent>, reply: Message)
    ensures ReplyContext(seen, reply) == [reply] <==> Opens(seen) <= 1
  {
    assert |ReplyContext(seen, reply)| == if Opens(seen) == 0 then 1 else Opens(seen);
  }

  lemma {:induction false} StreamReduces(s: AgentState, seen: seq<StreamEvent>)
    ensures
      var t := Fold(Reduce, s, StreamedEvents(seen));
      t.messages == s.messages && t.pendingCalls == s.pendingCalls && t.errorMessage == s.errorMessage
  {
    if seen != [] {
      var init, e := seen[..|seen| - 1], seen[|seen| - 1];
      StreamReduces(s, init);
      if e.Open? {
        FoldOne(Reduce, s, StreamedEvents(init), MessageStart(e.partial));
      } else if e.Progress? {
        FoldOne(Reduce, s, StreamedEvents(init), MessageUpdate(e.partial));
      }
    }
  }

  /** While a reply is streamed the agent shows the last partial message, which is also the last one in the context. */
  lemma {:induction false} LastPartialIsShown(s: AgentState, seen: seq<StreamEvent>)
    requires Opens(seen) > 0
    ensures Fold(Reduce, s, StreamedEvents(seen)).streaming == Some(StreamedContext(seen)[Opens(seen) - 1])
    ensures !seen[|seen| - 1].Close? ==> StreamedContext(seen)[Opens(seen) - 1] == seen[|seen| - 1].partial
  {
    var init, e := seen[..|seen| - 1], seen[|seen| - 1];
    if e.Open? {
      FoldOne(Reduce, s, StreamedEvents(init), MessageStart(e.partial));
    } else {
      LastPartialIsShown(s, init);
      if e.Progress? {
        FoldOne(Reduce, s, StreamedEvents(init), MessageUpdate(e.partial));
      }
    }
  }

  lemma ReplyReduces(s: AgentState, seen: seq<StreamEvent>, reply: Message)
    ensures Fold(Reduce, s, ReplyEvents(seen, reply)) == Heard(s, [reply])
  {
    StreamReduces(s, seen);
    var streamed := StreamedEvents(seen);
    if Opens(seen) == 0 {
      FoldAppend(Reduce, s, streamed, [MessageStart(reply), MessageEnd(reply)]);
      FoldTwo(Reduce, Fold(Reduce, s, streamed), MessageStart(reply), MessageEnd(reply));
      assert ReplyEvents(seen, reply) == streamed + [MessageStart(reply), MessageEnd(reply)];
    } else {
      FoldOne(Reduce, s, streamed, MessageEnd(reply));
      assert ReplyEvents(seen, reply) == streamed + [MessageEnd(reply)];
    }
  }

  /** Where the grammar is in the middle of a stream that opens at most once. */
  function MidReply(g: Grammar, seen: seq<StreamEvent>): Grammar
    requires g.InTurn?
  {
    if Opens(seen) == 0 then g else if Opens(seen) == 1 then g.(open := Reply) else Broken
  }

  predicate PartialsAreReplies(seen: seq<StreamEvent>) {
    forall e | e in seen :: e.Close? || e.partial.Assistant?
  }

  lemma {:induction false} StreamAccepted(turns: nat, seen: seq<StreamEvent>)
    requires PartialsAreReplies(seen)
    ensures var g := InTurn(turns, Nothing, false, []); Fold(Accept, g, StreamedEvents(seen)) == MidReply(g, seen)
  {
    var g := InTurn(turns, Nothing, false, []);
    if seen != [] {
      var init, e := seen[..|seen| - 1], seen[|seen| - 1];
      assert e in seen && forall x | x in init :: x in seen;
      StreamAccepted(turns, init);
      if e.Open? {
        FoldOne(Accept, g, StreamedEvents(init), MessageStart(e.partial));
      } else if e.Progress? {
        FoldOne(Accept, g, StreamedEvents(init), MessageUpdate(e.partial));
      }
    }
  }

  /** A reply fits the grammar exactly when its stream opens at most once. */
  lemma ReplyAccepted(turns: nat, seen: seq<StreamEvent>, reply: Message)
    requires PartialsAreReplies(seen) && reply.Assistant?
    ensures Fold(Accept, InTurn(turns, Nothing, false, []), ReplyEvents(seen, reply))
            == if Opens(seen) <= 1 then InTurn(turns, Nothing, true, []) else Broken
  {
    var g := InTurn(turns, Nothing, false, []);
    StreamAccepted(turns, seen);
    var streamed := StreamedEvents(seen);
    if Opens(seen) == 0 {
      FoldAppend(Accept, g, streamed, [MessageStart(reply), MessageEnd(reply)]);
      FoldTwo(Accept, g, MessageStart(reply), MessageEnd(reply));
      assert ReplyEvents(seen, reply) == streamed + [MessageStart(reply), MessageEnd(reply)];
    } else {
      FoldOne(Accept, g, streamed, MessageEnd(reply));
      assert ReplyEvents(seen, reply) == streamed + [MessageEnd(reply)];
    }
  }

  /** After a stream that opens twice the trace is broken for good. */
  lemma TwoOpensBreakTrace(turns: nat, seen: seq<StreamEvent>, reply: Message, rest: seq<Event>)
    requires PartialsAreReplies(seen) && reply.Assistant? && Opens(seen) > 1
    ensures Fold(Accept, InTurn(turns, Nothing, false, []), ReplyEvents(seen, reply) + rest) == Broken
  {
    ReplyAccepted(turns, seen, reply);
    FoldAppend(Accept, InTurn(turns, Nothing, false, []), ReplyEvents(seen, reply), rest);
    BrokenStays(rest);
  }
}
