/** The agent object: its two message queues, and the state it rebuilds from the events of a run. */
module Agents {
  import opened Text
  import opened Folds
  import opened AgentTrace

  datatype QueueMode = All | OneAtATime

  /** What a queue gives out: the oldest message, or all of them. */
  function Given(mode: QueueMode, messages: seq<Message>): seq<Message> {
    if mode.All? then messages else if messages == [] then [] else [messages[0]]
  }

  /** What listeners, or anyone else, call while a run awaits something: the messages `steer` and `followUp` are called
      with in each pause of an agent, pauses being counted from its making, and whether `abort` is. */
  datatype Agenda = Agenda(steers: nat -> seq<Message>, followUps: nat -> seq<Message>, aborts: nat -> bool)

  /** The messages that `steer` is called with in the pauses from `from` to `to`. */
  function SteeredIn(agenda: Agenda, from: nat, to: nat): seq<Message>
    requires from <= to
  {
    if from == to then [] else SteeredIn(agenda, from, to - 1) + agenda.steers(to - 1)
  }

  class PendingMessageQueue {
    var messages: seq<Message>
    const mode: QueueMode
    /** Everything ever put in, and everything ever taken out. */
    ghost var enqueued: seq<Message>
    ghost var drained: seq<Message>

    ghost predicate Valid()
      reads this
    {
      enqueued == drained + messages
    }

    constructor (mode: QueueMode)
      ensures Valid() && this.mode == mode && messages == [] && drained == []
    {
      this.mode := mode;
      messages, enqueued, drained := [], [], [];
    }

    method Enqueue(m: Message)
      requires Valid()
      modifies this
      ensures Valid() && messages == old(messages) + [m]
      ensures enqueued == old(enqueued) + [m] && drained == old(drained)
    {
      messages := messages + [m];
      enqueued := enqueued + [m];
    }

    /** The oldest message, or all of them, leave the queue. */
    method Drain() returns (r: seq<Message>)
      requires Valid()
      modifies this
      ensures Valid() && enqueued == old(enqueued) && drained == old(drained) + r
      ensures r + messages == old(messages)
      ensures r == Given(mode, old(messages))
      ensures if mode.All? then messages == [] else |r| == if old(messages) == [] then 0 else 1
    {
      if mode.All? {
        r := messages;
        messages := [];
      } else if messages == [] {
        r := [];
      } else {
        r := [messages[0]];
        messages := messages[1..];
      }
      drained := drained + r;
    }
  }

  class Agent {
    var state: AgentState
    var isStreaming: bool
    const steeringQueue: PendingMessageQueue
    const followUpQueue: PendingMessageQueue
    var activeRun: bool
    var aborted: bool
    /** `shouldStopAfterTurn`: whether a run is to end after so many turns. */
    const stopsAfter: nat -> bool
    /** What others call meanwhile, and the number of pauses so far. */
    const agenda: Agenda
    var clock: nat
    /** The events of the current run, and the state it started from. */
    ghost var trace: seq<Event>
    ghost var before: AgentState

    ghost function Repr(): set<object> { {this, steeringQueue, followUpQueue} }

    /** The queues are in order, and during a run the state is what the events so far make of the state before it. */
    ghost predicate Valid()
      reads this, steeringQueue, followUpQueue
    {
      && steeringQueue != followUpQueue && steeringQueue.Valid() && followUpQueue.Valid()
      && (activeRun ==> state == Fold(Reduce, before, trace))
      && (!activeRun ==> state.streaming.None? && state.pendingCalls == {})
    }

    /** What may happen while the run goes on: messages are queued and an abort is requested, but nothing is drained. */
    twostate predicate Overheard()
      reads this, steeringQueue, followUpQueue
    {
      && activeRun == old(activeRun) && before == old(before) && isStreaming == old(isStreaming)
      && (old(aborted) ==> aborted) && old(clock) <= clock
      && steeringQueue.drained == old(steeringQueue.drained) && followUpQueue.drained == old(followUpQueue.drained)
      && old(steeringQueue.enqueued) <= steeringQueue.enqueued && old(followUpQueue.enqueued) <= followUpQueue.enqueued
    }

    constructor (messages: seq<Message>, steeringMode: QueueMode, followUpMode: QueueMode, stopsAfter: nat -> bool,
                 agenda: Agenda)
      ensures Valid() && fresh(Repr()) && !activeRun && state.messages == messages
      ensures steeringQueue.mode == steeringMode && followUpQueue.mode == followUpMode
      ensures steeringQueue.messages == [] && followUpQueue.messages == []
      ensures this.stopsAfter == stopsAfter && this.agenda == agenda && clock == 0
    {
      this.stopsAfter, this.agenda, clock := stopsAfter, agenda, 0;
      state := AgentState(messages, None, {}, None);
      steeringQueue := new PendingMessageQueue(steeringMode);
      followUpQueue := new PendingMessageQueue(followUpMode);
      isStreaming, activeRun, aborted, trace := false, false, false, [];
      before := AgentState(messages, None, {}, None);
    }

    method Steer(m: Message)
      requires Valid()
      modifies steeringQueue
      ensures Valid() && steeringQueue.enqueued == old(steeringQueue.enqueued) + [m]
      ensures steeringQueue.messages == old(steeringQueue.messages) + [m]
      ensures steeringQueue.drained == old(steeringQueue.drained)
    {
      steeringQueue.Enqueue(m);
    }

    method FollowUp(m: Message)
      requires Valid()
      modifies followUpQueue
      ensures Valid() && followUpQueue.enqueued == old(followUpQueue.enqueued) + [m]
      ensures followUpQueue.messages == old(followUpQueue.messages) + [m]
      ensures followUpQueue.drained == old(followUpQueue.drained)
    {
      followUpQueue.Enqueue(m);
    }

    /** A pause, in which others do what they do: any number of calls of `steer`, `followUp` and `abort`. */
    method Elsewhere()
      requires Valid()
      modifies Repr()
      ensures Valid() && Overheard() && trace == old(trace) && state == old(state) && Paused()
    {
      SteerAll(agenda.steers(clock));
      FollowUpAll(agenda.followUps(clock));
      aborted := aborted || agenda.aborts(clock);
      clock := clock + 1;
    }

    method SteerAll(ms: seq<Message>)
      requires Valid()
      modifies steeringQueue
      ensures Valid() && steeringQueue.messages == old(steeringQueue.messages) + ms
      ensures steeringQueue.drained == old(steeringQueue.drained) && old(steeringQueue.enqueued) <= steeringQueue.enqueued
    {
      var i := 0;
      while i < |ms|
        invariant 0 <= i <= |ms| && Valid() && steeringQueue.messages == old(steeringQueue.messages) + ms[..i]
        invariant steeringQueue.drained == old(steeringQueue.drained)
        invariant old(steeringQueue.enqueued) <= steeringQueue.enqueued
      {
        Steer(ms[i]);
        assert ms[..i + 1] == ms[..i] + [ms[i]];
        i := i + 1;
      }
      assert ms[..i] == ms;
    }

    method FollowUpAll(ms: seq<Message>)
      requires Valid()
      modifies followUpQueue
      ensures Valid() && followUpQueue.messages == old(followUpQueue.messages) + ms
      ensures followUpQueue.drained == old(followUpQueue.drained) && old(followUpQueue.enqueued) <= followUpQueue.enqueued
    {
      var i := 0;
      while i < |ms|
        invariant 0 <= i <= |ms| && Valid() && followUpQueue.messages == old(followUpQueue.messages) + ms[..i]
        invariant followUpQueue.drained == old(followUpQueue.drained)
        invariant old(followUpQueue.enqueued) <= followUpQueue.enqueued
      {
        FollowUp(ms[i]);
        assert ms[..i + 1] == ms[..i] + [ms[i]];
        i := i + 1;
      }
      assert ms[..i] == ms;
    }

    /** One pause has passed, and the agenda says what came of it. */
    twostate predicate Paused()
      reads this, steeringQueue, followUpQueue
    {
      && clock == old(clock) + 1
      && steeringQueue.messages == old(steeringQueue.messages) + agenda.steers(old(clock))
      && followUpQueue.messages == old(followUpQueue.messages) + agenda.followUps(old(clock))
      && (aborted <==> old(aborted) || agenda.aborts(old(clock)))
    }

    method TakeIn(e: Event)
      modifies `state
      ensures state == Reduce(old(state), e)
    {
      match e {
        case MessageStart(m) => state := state.(streaming := Some(m));
        case MessageUpdate(m) => state := state.(streaming := Some(m));
        case MessageEnd(m) => state := state.(streaming := None, messages := state.messages + [m]);
        case ToolStart(call) => state := state.(pendingCalls := state.pendingCalls + {call.id});
        case ToolEnd(call, _) => state := state.(pendingCalls := state.pendingCalls - {call.id});
        case TurnEnd(m, _) =>
          if m.Assistant? && m.errorMessage !in {None, Some("")} {
            state := state.(errorMessage := m.errorMessage);
          }
        case AgentEnd(_) => state := state.(streaming := None);
        case _ =>
      }
    }

    /** `processEvents`: the state takes the event in, then the listeners hear it. */
    method ProcessEvents(e: Event)
      requires Valid() && activeRun
      modifies Repr()
      ensures Valid() && Overheard() && trace == old(trace) + [e] && Paused()
    {
      FoldOne(Reduce, before, trace, e);
      TakeIn(e);
      trace := trace + [e];
      Elsewhere();
    }

    method StartRun()
      requires Valid() && !activeRun
      modifies this
      ensures Valid() && activeRun && !aborted && trace == [] && before.messages == old(state.messages)
      ensures before.streaming.None? && before.pendingCalls == {} && clock == old(clock)
    {
      activeRun, aborted, isStreaming := true, false, true;
      state := state.(streaming := None, errorMessage := None);
      trace, before := [], state;
    }

    method FinishRun()
      requires Valid() && activeRun
      modifies this
      ensures Valid() && !activeRun && trace == old(trace) && before == old(before)
      ensures state.messages == old(state.messages)
    {
      isStreaming := false;
      state := state.(streaming := None, pendingCalls := {});
      activeRun := false;
    }
  }
}
