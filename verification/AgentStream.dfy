/** Taking in one reply of the model while it is streamed. */
module AgentStream {
  import opened Text
  import opened Folds
  import opened AgentTrace
  import opened Agents

  /** The transcript of a run, as the loop keeps it. */
  class Context {
    var messages: seq<Message>

    constructor (messages: seq<Message>)
      ensures this.messages == messages
    {
      this.messages := messages;
    }
  }

  lemma SetLast(a: seq<Message>, b: seq<Message>, m: Message)
    requires b != []
    ensures (a + b)[|a + b| - 1 := m] == a + b[|b| - 1 := m]
  {
  }

  lemma UntilCloseStep(stream: seq<StreamEvent>, i: nat)
    requires i < |stream| && !stream[i].Close? && UntilClose(stream) == stream[..i] + UntilClose(stream[i..])
    ensures UntilClose(stream) == stream[..i + 1] + UntilClose(stream[i + 1..])
  {
    assert stream[i..][1..] == stream[i + 1..];
    assert stream[..i + 1] == stream[..i] + [stream[i]];
    Associates(stream[..i], [stream[i]], UntilClose(stream[i + 1..]));
  }

  lemma {:induction false} SeenOneMore(seen: seq<StreamEvent>, e: StreamEvent)
    ensures Opens(seen + [e]) == Opens(seen) + if e.Open? then 1 else 0
    ensures StreamedEvents(seen + [e]) ==
            if e.Open? then StreamedEvents(seen) + [MessageStart(e.partial)]
            else if e.Progress? && Opens(seen) > 0 then StreamedEvents(seen) + [MessageUpdate(e.partial)]
            else StreamedEvents(seen)
    ensures StreamedContext(seen + [e]) ==
            if e.Open? then StreamedContext(seen) + [e.partial]
            else if e.Progress? && Opens(seen) > 0 then StreamedContext(seen)[Opens(seen) - 1 := e.partial]
            else StreamedContext(seen)
  {
    assert (seen + [e])[..|seen|] == seen;
  }

  /** One event of the stream is taken in. */
  method TakeIn(agent: Agent, context: Context, e: StreamEvent, added: bool,
                ghost base: seq<Event>, ghost start: seq<Message>, ghost seen: seq<StreamEvent>)
    requires agent.Valid() && agent.activeRun && context !in agent.Repr()
    requires !e.Close? && added == (Opens(seen) > 0)
    requires agent.trace == base + StreamedEvents(seen) && context.messages == start + StreamedContext(seen)
    modifies agent.Repr(), context
    ensures agent.Valid() && agent.Overheard()
    ensures agent.trace == base + StreamedEvents(seen + [e])
    ensures context.messages == start + StreamedContext(seen + [e])
  {
    SeenOneMore(seen, e);
    match e {
      case Open(partial) =>
        context.messages := context.messages + [partial];
        agent.ProcessEvents(MessageStart(partial));
      case Progress(partial) =>
        if added {
          SetLast(start, StreamedContext(seen), partial);
          context.messages := context.messages[|context.messages| - 1 := partial];
          agent.ProcessEvents(MessageUpdate(partial));
        }
      case Close =>
    }
  }

  /** `streamAssistantResponse`, given what the provider streams and what it finally returns. */
  method StreamAssistantResponse(agent: Agent, context: Context, stream: seq<StreamEvent>, reply: Message)
    returns (ghost seen: seq<StreamEvent>)
    requires agent.Valid() && agent.activeRun && context !in agent.Repr()
    modifies agent.Repr(), context
    ensures agent.Valid() && agent.Overheard() && seen == UntilClose(stream)
    ensures agent.trace == old(agent.trace) + ReplyEvents(seen, reply)
    ensures context.messages == old(context.messages) + ReplyContext(seen, reply)
  {
    ghost var base, start := agent.trace, context.messages;
    var added := false;
    var i := 0;
    seen := [];
    assert stream[0..] == stream && [] + UntilClose(stream) == UntilClose(stream);
    while i < |stream| && !stream[i].Close?
      invariant 0 <= i <= |stream| && seen == stream[..i]
      invariant UntilClose(stream) == seen + UntilClose(stream[i..])
      invariant agent.Valid() && agent.Overheard() && added == (Opens(seen) > 0)
      invariant agent.trace == base + StreamedEvents(seen) && context.messages == start + StreamedContext(seen)
    {
      UntilCloseStep(stream, i);
      SeenOneMore(seen, stream[i]);
      TakeIn(agent, context, stream[i], added, base, start, seen);
      added := added || stream[i].Open?;
      assert stream[..i + 1] == seen + [stream[i]];
      seen := seen + [stream[i]];
      i := i + 1;
    }
    assert UntilClose(stream[i..]) == [] && seen + [] == seen;
    FinishReply(agent, context, added, reply, base, start, seen);
  }

  /** The final message takes the place of the partial one, or is the only one. */
  method FinishReply(agent: Agent, context: Context, added: bool, reply: Message,
                     ghost base: seq<Event>, ghost start: seq<Message>, ghost seen: seq<StreamEvent>)
    requires agent.Valid() && agent.activeRun && context !in agent.Repr()
    requires added == (Opens(seen) > 0)
    requires agent.trace == base + StreamedEvents(seen) && context.messages == start + StreamedContext(seen)
    modifies agent.Repr(), context
    ensures agent.Valid() && agent.Overheard()
    ensures agent.trace == base + ReplyEvents(seen, reply)
    ensures context.messages == start + ReplyContext(seen, reply)
  {
    FinishedEvents(base, seen, reply);
    FinishedContext(start, seen, reply);
    if added {
      context.messages := context.messages[|context.messages| - 1 := reply];
    } else {
      context.messages := context.messages + [reply];
      agent.ProcessEvents(MessageStart(reply));
    }
    agent.ProcessEvents(MessageEnd(reply));
  }

  lemma FinishedEvents(base: seq<Event>, seen: seq<StreamEvent>, reply: Message)
    ensures base + ReplyEvents(seen, reply) ==
            (if Opens(seen) > 0 then base + StreamedEvents(seen) else base + StreamedEvents(seen) + [MessageStart(reply)])
            + [MessageEnd(reply)]
  {
    var x := StreamedEvents(seen);
    if Opens(seen) > 0 {
      assert x + [] == x;
      Associates(base, x, [MessageEnd(reply)]);
    } else {
      Associates(base, x, [MessageStart(reply)]);
      Associates(base, x + [MessageStart(reply)], [MessageEnd(reply)]);
    }
  }

  lemma FinishedContext(start: seq<Message>, seen: seq<StreamEvent>, reply: Message)
    ensures start + ReplyContext(seen, reply) ==
            var before := start + StreamedContext(seen);
            if Opens(seen) > 0 then before[|before| - 1 := reply] else before + [reply]
  {
    if Opens(seen) > 0 {
      SetLast(start, StreamedContext(seen), reply);
    } else {
      assert start + StreamedContext(seen) == start;
    }
  }
}
