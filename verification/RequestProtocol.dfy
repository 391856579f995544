/** A client's requests, and what it knows of the sessions: how each is settled, and what a disconnect leaves. */
module RequestProtocol {
  import opened Text

  datatype CommandName = List | Create | Attach | Detach | Prompt | Steer | AbortTurn | SetModel | SetThinking

  datatype SessionSnapshot = SessionSnapshot(id: string, revision: int, attached: bool)

  /** The result of a command: of its name, with a session unless it is a list, and a session id for a detach. */
  datatype Result = Listed | DetachDone(sessionId: string) | OfSession(command: CommandName, session: SessionSnapshot)

  function NameOf(result: Result): CommandName {
    match result
    case Listed => List
    case DetachDone(_) => Detach
    case OfSession(command, _) => command
  }

  datatype Outcome = Answered(result: Result) | Refused | Mismatched | NotEncoded | Dropped

  /** A request that was issued, and how often and how it was settled. */
  datatype Request = Request(command: CommandName, outcomes: seq<Outcome>)

  datatype Event =
    | ServerSnapshotEvent(revision: int) | SessionSnapshotEvent(session: SessionSnapshot)
    | SessionRemoved(sessionId: string) | SessionProgress(sessionId: string)

  /** `requests[k]` is request `k + 1`; `pending` holds the indexes of those that wait for an answer. */
  datatype Client = Client(
    connected: bool, disposed: bool, requests: seq<Request>, pending: map<nat, CommandName>,
    serverRevision: Option<int>, sessions: map<string, SessionSnapshot>, attached: set<string>)

  const NEW_CLIENT := Client(false, false, [], map[], None, map[], {})

  // ----- What the client knows of the sessions -----

  /** `#applySessionSnapshot`: an older revision is ignored, unless it is forced. */
  function WithSnapshot(c: Client, snapshot: SessionSnapshot, force: bool): Client {
    if !force && snapshot.id in c.sessions && snapshot.revision < c.sessions[snapshot.id].revision then c
    else
      c.(sessions := c.sessions[snapshot.id := snapshot],
         attached := if snapshot.attached then c.attached + {snapshot.id} else c.attached - {snapshot.id})
  }

  function WithResult(c: Client, result: Result): Client {
    match result
    case Listed => c
    case DetachDone(id) =>
      var d := c.(attached := c.attached - {id});
      if id in c.sessions then WithSnapshot(d, c.sessions[id].(attached := false), true) else d
    case OfSession(_, session) => WithSnapshot(c, session, false)
  }

  function WithServerSnapshot(c: Client, revision: int): Client {
    if c.serverRevision.Some? && revision < c.serverRevision.value then c else c.(serverRevision := Some(revision))
  }

  function WithEvent(c: Client, event: Event): Client {
    match event
    case ServerSnapshotEvent(revision) => WithServerSnapshot(c, revision)
    case SessionSnapshotEvent(session) => WithSnapshot(c, session, false)
    case SessionRemoved(id) => c.(sessions := c.sessions - {id}, attached := c.attached - {id})
    case SessionProgress(_) => c
  }

  // ----- Requests -----

  function Settled(c: Client, k: nat, outcome: Outcome): Client
    requires k < |c.requests|
  {
    c.(requests := c.requests[k := c.requests[k].(outcomes := c.requests[k].outcomes + [outcome])],
       pending := c.pending - {k})
  }

  /** Every pending request is rejected. */
  function AllRejected(c: Client): Client {
    c.(requests := seq(|c.requests|, k requires 0 <= k < |c.requests| =>
                         if k in c.pending then c.requests[k].(outcomes := c.requests[k].outcomes + [Dropped])
                         else c.requests[k]),
       pending := map[])
  }

  /** The connection is lost, for whatever reason. */
  function Disconnected(c: Client): Client {
    if c.connected then AllRejected(c.(attached := {})).(connected := false) else c
  }

  function Forgotten(c: Client): Client {
    c.(serverRevision := None, sessions := map[], attached := {})
  }

  datatype Step =
    | ConnectCall | HandshakeDone(revision: int) | ConnectionLost
    | Issue(command: CommandName, encodes: bool)
    | Response(k: nat, ok: bool, result: Result)
    | EventArrives(event: Event)
    | ForgetSnapshot(sessionId: string) | RestoreSnapshot(session: SessionSnapshot)
    | Dispose

  function Answer(c: Client, k: nat, ok: bool, result: Result): Client {
    if k !in c.pending || |c.requests| <= k then Disconnected(c)
    else if !ok then Settled(c, k, Refused)
    else if NameOf(result) != c.pending[k] then Disconnected(Settled(c, k, Mismatched))
    else Settled(WithResult(c, result), k, Answered(result))
  }

  /** One call or message; messages come only while the client is connected. */
  function Apply(c: Client, step: Step): Client {
    match step
    case ConnectCall => if c.disposed || c.connected then c else Forgotten(c)
    case HandshakeDone(revision) =>
      if c.disposed || c.connected then c else WithServerSnapshot(c, revision).(connected := true)
    case ConnectionLost => Disconnected(c)
    case Issue(command, encodes) =>
      if c.disposed || !c.connected then c
      else
        var d := c.(requests := c.requests + [Request(command, [])], pending := c.pending[|c.requests| := command]);
        if encodes then d else Settled(d, |c.requests|, NotEncoded)
    case Response(k, ok, result) => if c.connected then Answer(c, k, ok, result) else c
    case EventArrives(event) => if c.connected then WithEvent(c, event) else c
    case ForgetSnapshot(id) => c.(sessions := c.sessions - {id})
    case RestoreSnapshot(session) =>
      if session.id in c.sessions then c else c.(sessions := c.sessions[session.id := session])
    case Dispose => if c.disposed then c else Forgotten(Disconnected(AllRejected(c.(disposed := true))))
  }

  function Run(steps: seq<Step>): Client {
    if steps == [] then NEW_CLIENT else Apply(Run(steps[..|steps| - 1]), steps[|steps| - 1])
  }

  // ----- What every run keeps -----

  /** Each request waits for its answer, or has been settled once. */
  predicate OnceEach(c: Client) {
    && (forall k | k in c.pending :: k < |c.requests| && c.pending[k] == c.requests[k].command)
    && (forall k | 0 <= k < |c.requests| :: |c.requests[k].outcomes| == if k in c.pending then 0 else 1)
  }

  predicate Offline(c: Client) { !c.connected ==> c.pending == map[] && c.attached == {} }

  predicate Sound(c: Client) { OnceEach(c) && Offline(c) }

  lemma SettledSound(c: Client, k: nat, outcome: Outcome)
    requires OnceEach(c) && k in c.pending
    ensures OnceEach(Settled(c, k, outcome))
  {
  }

  lemma DisconnectedSound(c: Client)
    requires OnceEach(c) && (c.connected || Offline(c))
    ensures Sound(Disconnected(c))
  {
  }

  /** While no connection is up, losing it again changes nothing. */
  lemma NothingToReject(c: Client)
    requires Offline(c) && !c.connected
    ensures AllRejected(c.(attached := {})) == c
  {
    assert AllRejected(c).requests == c.requests;
  }

  lemma AnswerSound(c: Client, k: nat, ok: bool, result: Result)
    requires Sound(c) && c.connected
    ensures Sound(Answer(c, k, ok, result))
  {
    if k !in c.pending {
      DisconnectedSound(c);
    } else if !ok {
      SettledSound(c, k, Refused);
    } else if NameOf(result) != c.pending[k] {
      SettledSound(c, k, Mismatched);
      DisconnectedSound(Settled(c, k, Mismatched));
    } else {
      SettledSound(WithResult(c, result), k, Answered(result));
    }
  }

  lemma IssueSound(c: Client, command: CommandName, encodes: bool)
    requires Sound(c)
    ensures Sound(Apply(c, Issue(command, encodes)))
  {
  }

  lemma {:induction false} StepSound(c: Client, step: Step)
    requires Sound(c)
    ensures Sound(Apply(c, step))
  {
    match step
    case Response(k, ok, result) => if c.connected { AnswerSound(c, k, ok, result); }
    case Issue(command, encodes) => IssueSound(c, command, encodes);
    case ConnectionLost => DisconnectedSound(c);
    case Dispose => DisconnectedSound(AllRejected(c.(disposed := true)));
    case _ =>
  }

  lemma {:induction false} RunSound(steps: seq<Step>)
    ensures Sound(Run(steps))
  {
    if steps != [] {
      RunSound(steps[..|steps| - 1]);
      StepSound(Run(steps[..|steps| - 1]), steps[|steps| - 1]);
    }
  }

  /** In every run each issued request is settled at most once, and exactly once when it no longer waits; while the client
      is not connected none waits and no session is attached. */
  lemma {:induction false} EachSettledOnce(steps: seq<Step>, k: nat)
    requires k < |Run(steps).requests|
    ensures |Run(steps).requests[k].outcomes| == if k in Run(steps).pending then 0 else 1
    ensures !Run(steps).connected ==> k !in Run(steps).pending && Run(steps).attached == {}
  {
    RunSound(steps);
  }

  /** How the request came to be settled by the step. */
  predicate SettledProperly(c: Client, step: Step, k: nat, outcome: Outcome, connected: bool) {
    match outcome
    case Answered(result) => step == Response(k, true, result) && k in c.pending && NameOf(result) == c.pending[k]
    case Refused => step.Response? && step.k == k && !step.ok
    case Mismatched => step.Response? && step.k == k && k in c.pending && NameOf(step.result) != c.pending[k]
    case NotEncoded => false
    case Dropped => !connected
  }

  lemma RejectedOnce(c: Client, j: nat)
    requires j in c.pending && j < |c.requests| && c.requests[j].outcomes == [] && c.connected
    ensures j < |Disconnected(c).requests| && Disconnected(c).requests[j].outcomes == [Dropped]
    ensures !Disconnected(c).connected
  {
  }

  lemma OutcomeIs(c: Client, k: nat, outcome: Outcome)
    requires k < |c.requests| && c.requests[k].outcomes == []
    ensures Settled(c, k, outcome).requests[k].outcomes == [outcome]
    ensures Disconnected(Settled(c, k, outcome)).requests[k].outcomes == [outcome]
  {
  }

  lemma AnsweredProperly(c: Client, k: nat, ok: bool, result: Result, j: nat)
    requires Sound(c) && c.connected && j in c.pending && j !in Answer(c, k, ok, result).pending
    ensures
      var d := Answer(c, k, ok, result);
      j < |d.requests| && |d.requests[j].outcomes| == 1
      && SettledProperly(c, Response(k, ok, result), j, d.requests[j].outcomes[0], d.connected)
  {
    if k !in c.pending {
      RejectedOnce(c, j);
    } else if !ok {
      OutcomeIs(c, k, Refused);
    } else if NameOf(result) != c.pending[k] {
      OutcomeIs(c, k, Mismatched);
      if j != k {
        RejectedOnce(Settled(c, k, Mismatched), j);
      }
    } else {
      OutcomeIs(WithResult(c, result), k, Answered(result));
    }
  }

  /** A request is answered only by a response of its own id and command; it is settled otherwise only by an error
      response of its id, by a response of its id to another command, or by the loss of the connection. */
  lemma SettledByItsOwn(c: Client, step: Step, k: nat)
    requires Sound(c) && k in c.pending && k !in Apply(c, step).pending
    ensures
      var d := Apply(c, step);
      k < |d.requests| && |d.requests[k].outcomes| == 1
      && SettledProperly(c, step, k, d.requests[k].outcomes[0], d.connected)
  {
    match step
    case Response(j, ok, result) => AnsweredProperly(c, j, ok, result, k);
    case _ =>
  }

  lemma RequestsStay(c: Client, step: Step)
    ensures |c.requests| <= |Apply(c, step).requests|
    ensures forall k | 0 <= k < |c.requests| && k !in c.pending :: Apply(c, step).requests[k] == c.requests[k]
  {
  }

  /** A settled request is never touched again. */
  lemma {:induction false} SettledForGood(steps: seq<Step>, more: seq<Step>, k: nat)
    requires steps <= more && k < |Run(steps).requests| && k !in Run(steps).pending
    ensures k < |Run(more).requests| && k !in Run(more).pending && Run(more).requests[k] == Run(steps).requests[k]
    decreases |more|
  {
    if steps != more {
      var before := more[..|more| - 1];
      assert steps <= before;
      SettledForGood(steps, before, k);
      RunSound(before);
      RunSound(more);
      RequestsStay(Run(before), more[|more| - 1]);
    }
  }
}
