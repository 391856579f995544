/** What a client knows of the server and its sessions after any run of calls and messages. */
module ClientKnowledge {
  import opened Text
  import opened RequestProtocol

  /** The message tells of a session: a snapshot event, or the awaited result of a command about it. */
  predicate Tells(c: Client, step: Step, snapshot: SessionSnapshot) {
    && c.connected
    && match step
       case EventArrives(event) => event == SessionSnapshotEvent(snapshot)
       case Response(k, ok, result) =>
         ok && k in c.pending && k < |c.requests| && result == OfSession(c.pending[k], snapshot)
       case _ => false
  }

  lemma OneMoreStep(steps: seq<Step>, step: Step)
    ensures Run(steps + [step]) == Apply(Run(steps), step)
  {
    assert (steps + [step])[..|steps|] == steps;
  }

  /** What was told is known afterwards, and the session is attached exactly if it says so, unless something newer was
      known already; then it is as if nothing had been told. */
  lemma {:induction false} ToldIsKnown(steps: seq<Step>, step: Step, snapshot: SessionSnapshot)
    requires Tells(Run(steps), step, snapshot)
    ensures
      var c, d := Run(steps), Run(steps + [step]);
      && d.connected && d.serverRevision == c.serverRevision
      && (if snapshot.id in c.sessions && c.sessions[snapshot.id].revision > snapshot.revision then
            d.sessions == c.sessions && d.attached == c.attached
          else
            && snapshot.id in d.sessions && d.sessions[snapshot.id] == snapshot
            && (snapshot.id in d.attached <==> snapshot.attached))
      && (forall id | id != snapshot.id ::
            && (id in d.sessions <==> id in c.sessions) && (id in d.attached <==> id in c.attached)
            && (id in c.sessions ==> d.sessions[id] == c.sessions[id]))
  {
    OneMoreStep(steps, step);
  }

  /** What makes the client forget a session: its removal, being told to forget it, a new connection, its disposal. */
  predicate Drops(step: Step, id: string) {
    step == EventArrives(SessionRemoved(id)) || step == ForgetSnapshot(id) || step == ConnectCall || step == Dispose
  }

  predicate NotOlder(c: Client, d: Client, id: string) {
    id in c.sessions ==> id in d.sessions && d.sessions[id].revision >= c.sessions[id].revision
  }

  predicate Keyed(c: Client) { forall id | id in c.sessions :: c.sessions[id].id == id }

  lemma {:induction false} RunKeyed(steps: seq<Step>)
    ensures Keyed(Run(steps))
  {
    if steps != [] {
      RunKeyed(steps[..|steps| - 1]);
    }
  }

  lemma StepNotOlder(c: Client, step: Step, id: string)
    requires Keyed(c) && !Drops(step, id)
    ensures NotOlder(c, Apply(c, step), id)
  {
    match step
    case Response(k, ok, result) =>
    case EventArrives(event) =>
    case _ =>
  }

  /** Until a session is forgotten, the revision known of it never falls, whatever is told in whatever order. */
  lemma {:induction false} RevisionNeverFalls(steps: seq<Step>, more: seq<Step>, id: string)
    requires steps <= more && id in Run(steps).sessions
    requires forall i | |steps| <= i < |more| :: !Drops(more[i], id)
    ensures id in Run(more).sessions && Run(more).sessions[id].revision >= Run(steps).sessions[id].revision
    decreases |more|
  {
    if steps != more {
      var before := more[..|more| - 1];
      assert steps <= before;
      RevisionNeverFalls(steps, before, id);
      RunKeyed(before);
      StepNotOlder(Run(before), more[|more| - 1], id);
    }
  }

  /** So nothing that was told since is newer than what is known. */
  lemma {:induction false} NewestIsKnown(steps: seq<Step>, step: Step, snapshot: SessionSnapshot, more: seq<Step>)
    requires Tells(Run(steps), step, snapshot) && steps + [step] <= more
    requires forall i | |steps| < i < |more| :: !Drops(more[i], snapshot.id)
    ensures snapshot.id in Run(more).sessions && Run(more).sessions[snapshot.id].revision >= snapshot.revision
  {
    ToldIsKnown(steps, step, snapshot);
    RevisionNeverFalls(steps + [step], more, snapshot.id);
  }

  /** What is known was told, or put back; only a detach may have changed it since, from attached to not attached. */
  predicate ToldOrRestored(steps: seq<Step>, i: nat, s: SessionSnapshot)
    requires i < |steps|
  {
    || Tells(Run(steps[..i]), steps[i], s) || steps[i] == RestoreSnapshot(s)
    || Tells(Run(steps[..i]), steps[i], s.(attached := true)) || steps[i] == RestoreSnapshot(s.(attached := true))
  }

  predicate AllTold(steps: seq<Step>, c: Client) {
    forall id | id in c.sessions ::
      exists i: nat :: i < |steps| && ToldOrRestored(steps, i, c.sessions[id])
  }

  lemma StillTold(steps: seq<Step>, step: Step, i: nat, s: SessionSnapshot)
    requires i < |steps| && ToldOrRestored(steps, i, s)
    ensures ToldOrRestored(steps + [step], i, s)
    ensures ToldOrRestored(steps + [step], i, s.(attached := false))
  {
    assert (steps + [step])[..i] == steps[..i];
  }

  /** How the step may change what is known of a session. */
  lemma StepLearns(c: Client, step: Step, id: string)
    requires Sound(c) && Keyed(c) && id in Apply(c, step).sessions
    ensures
      var s := Apply(c, step).sessions[id];
      || Tells(c, step, s) || step == RestoreSnapshot(s)
      || (id in c.sessions && (s == c.sessions[id] || s == c.sessions[id].(attached := false)))
  {
    match step
    case Response(k, ok, result) => if c.connected { AnswerLearns(c, k, ok, result, id); }
    case EventArrives(event) =>
    case _ =>
  }

  lemma AnswerLearns(c: Client, k: nat, ok: bool, result: Result, id: string)
    requires Sound(c) && Keyed(c) && c.connected && id in Answer(c, k, ok, result).sessions
    ensures
      var s := Answer(c, k, ok, result).sessions[id];
      || Tells(c, Response(k, ok, result), s)
      || (id in c.sessions && (s == c.sessions[id] || s == c.sessions[id].(attached := false)))
  {
  }

  lemma {:induction false} KnownWasTold(steps: seq<Step>)
    ensures AllTold(steps, Run(steps))
  {
    if steps != [] {
      var before, step := steps[..|steps| - 1], steps[|steps| - 1];
      KnownWasTold(before);
      assert before + [step] == steps;
      forall id | id in Run(steps).sessions
        ensures exists i: nat :: i < |steps| && ToldOrRestored(steps, i, Run(steps).sessions[id])
      {
        RunKeyed(before);
        RunSound(before);
        StepLearns(Run(before), step, id);
        LearnedIsTold(before, step, id);
      }
    }
  }

  lemma LearnedIsTold(before: seq<Step>, step: Step, id: string)
    requires id in Apply(Run(before), step).sessions && AllTold(before, Run(before))
    requires
      var s := Apply(Run(before), step).sessions[id];
      || Tells(Run(before), step, s) || step == RestoreSnapshot(s)
      || (id in Run(before).sessions && (s == Run(before).sessions[id] || s == Run(before).sessions[id].(attached := false)))
    ensures exists i: nat :: i < |before + [step]| && ToldOrRestored(before + [step], i, Apply(Run(before), step).sessions[id])
  {
    var steps, s := before + [step], Apply(Run(before), step).sessions[id];
    if Tells(Run(before), step, s) || step == RestoreSnapshot(s) {
      assert steps[..|before|] == before;
      assert ToldOrRestored(steps, |before|, s);
    } else {
      var i: nat :| i < |before| && ToldOrRestored(before, i, Run(before).sessions[id]);
      StillTold(before, step, i, Run(before).sessions[id]);
      assert ToldOrRestored(steps, i, s);
    }
  }

  // ----- The server's revision -----

  /** The server tells a revision with the handshake, and in its own snapshots. */
  predicate TellsServer(c: Client, step: Step, revision: int) {
    || (step == HandshakeDone(revision) && !c.connected && !c.disposed)
    || (step == EventArrives(ServerSnapshotEvent(revision)) && c.connected)
  }

  lemma ServerIsKnown(steps: seq<Step>, step: Step, revision: int)
    requires TellsServer(Run(steps), step, revision)
    ensures
      var c, d := Run(steps), Run(steps + [step]);
      && d.connected && d.sessions == c.sessions && d.attached == c.attached
      && d.serverRevision == Some(if c.serverRevision.Some? && revision < c.serverRevision.value
                                  then c.serverRevision.value else revision)
  {
    OneMoreStep(steps, step);
  }

  lemma {:induction false} ServerNeverFalls(steps: seq<Step>, more: seq<Step>)
    requires steps <= more && Run(steps).serverRevision.Some?
    requires forall i | |steps| <= i < |more| :: more[i] != ConnectCall && more[i] != Dispose
    ensures Run(more).serverRevision.Some? && Run(more).serverRevision.value >= Run(steps).serverRevision.value
    decreases |more|
  {
    if steps != more {
      var before := more[..|more| - 1];
      assert steps <= before;
      ServerNeverFalls(steps, before);
      StepKeepsServer(Run(before), more[|more| - 1]);
    }
  }

  lemma StepKeepsServer(c: Client, step: Step)
    requires c.serverRevision.Some? && step != ConnectCall && step != Dispose
    ensures Apply(c, step).serverRevision.Some? && Apply(c, step).serverRevision.value >= c.serverRevision.value
  {
    match step
    case Response(k, ok, result) =>
    case EventArrives(event) =>
    case _ =>
  }

  // ----- What a response, a removal and a lost connection come to -----

  /** An attached session that is detached is known as before, but for that; a session that is not known only loses its
      attachment. */
  lemma {:induction false} DetachIsKnown(steps: seq<Step>, k: nat, id: string)
    requires Run(steps).connected && k in Run(steps).pending && Run(steps).pending[k] == Detach
    ensures
      var c, d := Run(steps), Run(steps + [Response(k, true, DetachDone(id))]);
      && d.connected && d.attached == c.attached - {id}
      && d.sessions == (if id in c.sessions then c.sessions[id := c.sessions[id].(attached := false)] else c.sessions)
  {
    RunKeyed(steps);
    RunSound(steps);
    OneMoreStep(steps, Response(k, true, DetachDone(id)));
  }

  /** A response settles the request it names, and no other, if it is an error or a result of the right command; the
      connection stays up then, and ends on every other response. */
  lemma {:induction false} ResponseSettles(steps: seq<Step>, k: nat, ok: bool, result: Result)
    requires Run(steps).connected
    ensures
      var c, d := Run(steps), Run(steps + [Response(k, ok, result)]);
      && |d.requests| == |c.requests|
      && (d.connected <==> k in c.pending && (ok ==> NameOf(result) == c.pending[k]))
      && (d.connected ==>
            && d.pending == c.pending - {k} && k < |d.requests|
            && d.requests[k].outcomes == [if ok then Answered(result) else Refused]
            && forall j | 0 <= j < |c.requests| && j != k :: d.requests[j] == c.requests[j])
      && (!d.connected ==>
            && d.pending == map[] && d.attached == {} && d.sessions == c.sessions
            && forall j | j in c.pending && j < |d.requests| ::
                 d.requests[j].outcomes == [if j == k then Mismatched else Dropped])
  {
    RunSound(steps);
    OneMoreStep(steps, Response(k, ok, result));
    if k in Run(steps).pending {
      KnownResponse(Run(steps), k, ok, result);
    }
  }

  lemma KnownResponse(c: Client, k: nat, ok: bool, result: Result)
    requires Sound(c) && c.connected && k in c.pending
    ensures
      var d := Answer(c, k, ok, result);
      && |d.requests| == |c.requests|
      && (d.connected <==> (ok ==> NameOf(result) == c.pending[k]))
      && (d.connected ==>
            && d.pending == c.pending - {k}
            && d.requests[k].outcomes == [if ok then Answered(result) else Refused]
            && forall j | 0 <= j < |c.requests| && j != k :: d.requests[j] == c.requests[j])
      && (!d.connected ==>
            && d.pending == map[] && d.attached == {} && d.sessions == c.sessions
            && forall j | j in c.pending :: d.requests[j].outcomes == [if j == k then Mismatched else Dropped])
  {
  }

  /** A removed session is neither known nor attached; a lost connection ends all attachments, and what is known stays. */
  lemma RemovedOrLost(steps: seq<Step>, id: string)
    requires Run(steps).connected
    ensures
      var c, d, e := Run(steps), Run(steps + [EventArrives(SessionRemoved(id))]), Run(steps + [ConnectionLost]);
      && id !in d.sessions && id !in d.attached && d.connected && d.pending == c.pending
      && e.attached == {} && e.sessions == c.sessions && e.serverRevision == c.serverRevision && !e.connected
      && e.pending == map[]
  {
    OneMoreStep(steps, EventArrives(SessionRemoved(id)));
    OneMoreStep(steps, ConnectionLost);
  }

  /** A new connection starts from nothing. */
  lemma StartsFromNothing(steps: seq<Step>)
    requires !Run(steps).connected && !Run(steps).disposed
    ensures
      var d := Run(steps + [ConnectCall]);
      d.sessions == map[] && d.attached == {} && d.serverRevision == None && !d.connected
  {
    OneMoreStep(steps, ConnectCall);
  }

  /** After its disposal a client is never connected, issues no request, and nothing waits, whatever comes. */
  lemma {:induction false} DisposedForGood(steps: seq<Step>, more: seq<Step>)
    requires steps + [Dispose] <= more
    ensures Run(more).disposed && !Run(more).connected && Run(more).pending == map[]
    ensures |Run(more).requests| == |Run(steps).requests| && Run(more).attached == {} && Run(more).serverRevision == None
    decreases |more|
  {
    var before, step := more[..|more| - 1], more[|more| - 1];
    assert before + [step] == more;
    RunSound(before);
    if before == steps {
      DisposesOnce(steps);
    } else {
      assert steps + [Dispose] <= before;
      DisposedForGood(steps, before);
      RunSound(more);
    }
  }

  /** Whether it is the first disposal or not. */
  lemma {:induction false} DisposesOnce(steps: seq<Step>)
    ensures
      var c, d := Run(steps), Run(steps + [Dispose]);
      && d.disposed && !d.connected && d.pending == map[] && |d.requests| == |c.requests|
      && d.attached == {} && d.serverRevision == None
  {
    OneMoreStep(steps, Dispose);
    RunSound(steps);
    DisposedHas(steps);
  }

  lemma {:induction false} DisposedHas(steps: seq<Step>)
    ensures Run(steps).disposed ==> !Run(steps).connected && Run(steps).serverRevision == None
  {
    if steps != [] {
      DisposedHas(steps[..|steps| - 1]);
    }
  }
}
