/** The client object: its request table, its view of the sessions, and its lease tables. */
module ClientObject {
  import opened Text
  import opened RequestProtocol
  import R = RequestProtocol
  import L = LeaseProtocol

  function GetOr<T>(m: map<string, T>, id: string, default: T): T {
    if id in m then m[id] else default
  }

  function Find<T>(m: map<string, T>, id: string): Option<T> {
    if id in m then Some(m[id]) else None
  }

  class PiClient {
    var connected: bool
    var disposed: bool
    var requestSequence: nat
    var pendingRequests: map<nat, CommandName>
    var serverRevision: Option<int>
    var sessionSnapshots: map<string, SessionSnapshot>
    var attachedSessionIds: set<string>
    ghost var requests: seq<Request>

    var sessionLeaseCounts: map<string, nat>
    var exclusiveSessionLeases: map<string, nat>
    var sessionLeaseGenerations: map<string, nat>
    var sessionCleanupRequired: set<string>
    /** The acquisitions and leases of each session, with the state each of them keeps, and the detaches sent. */
    var leases: map<string, seq<L.Token>>
    ghost var detaches: map<string, seq<nat>>

    ghost predicate Valid()
      reads this
    {
      R.Sound(Requests()) && requestSequence == |requests| && Positive()
    }

    /** A session without outstanding leases has no count at all. */
    ghost predicate Positive()
      reads `sessionLeaseCounts
    {
      forall id | id in sessionLeaseCounts :: sessionLeaseCounts[id] > 0
    }

    ghost function Requests(): R.Client
      reads `connected, `disposed, `requests, `pendingRequests, `serverRevision, `sessionSnapshots, `attachedSessionIds
    {
      Client(connected, disposed, requests, pendingRequests, serverRevision, sessionSnapshots, attachedSessionIds)
    }

    ghost function Leases(id: string): L.Session
      reads `sessionLeaseCounts, `exclusiveSessionLeases, `sessionLeaseGenerations, `sessionCleanupRequired, `leases, `detaches
    {
      L.Session(GetOr(sessionLeaseCounts, id, 0), Find(exclusiveSessionLeases, id), GetOr(sessionLeaseGenerations, id, 0),
                id in sessionCleanupRequired, GetOr(leases, id, []), GetOr(detaches, id, []))
    }

    twostate predicate OthersKept(id: string)
      reads this
    {
      forall other: string | other != id :: Leases(other) == old(Leases(other))
    }

    constructor ()
      ensures Valid() && Requests() == NEW_CLIENT && forall id: string :: Leases(id) == L.UNUSED
    {
      connected, disposed, requestSequence, pendingRequests := false, false, 0, map[];
      serverRevision, sessionSnapshots, attachedSessionIds, requests := None, map[], {}, [];
      sessionLeaseCounts, exclusiveSessionLeases, sessionLeaseGenerations := map[], map[], map[];
      sessionCleanupRequired, leases, detaches := {}, map[], map[];
    }

    // ----- Requests -----

    /** `#request`; no id is issued while the client is not connected. */
    method Request(command: CommandName, encodes: bool) returns (id: Option<nat>)
      requires Valid()
      modifies `requestSequence, `pendingRequests, `requests
      ensures Valid() && Requests() == R.Apply(old(Requests()), Issue(command, encodes))
      ensures id.Some? <==> connected && !disposed
      ensures id.Some? ==> id.value == old(requestSequence)
    {
      if disposed || !connected {
        return None;
      }
      IssueSound(Requests(), command, encodes);
      id := Some(requestSequence);
      pendingRequests := pendingRequests[requestSequence := command];
      requests := requests + [R.Request(command, [])];
      requestSequence := requestSequence + 1;
      if !encodes {
        Settle(id.value, NotEncoded);
      }
    }

    /** `#takePendingRequest`, and the promise is settled. */
    method Settle(k: nat, outcome: Outcome)
      requires k < |requests| && k in pendingRequests
      modifies `pendingRequests, `requests
      ensures Requests() == R.Settled(old(Requests()), k, outcome)
    {
      pendingRequests := pendingRequests - {k};
      requests := requests[k := requests[k].(outcomes := requests[k].outcomes + [outcome])];
    }

    /** `#rejectPendingRequests` */
    method RejectPendingRequests()
      modifies `pendingRequests, `requests
      ensures Requests() == R.AllRejected(old(Requests()))
    {
      requests := R.AllRejected(Requests()).requests;
      pendingRequests := map[];
    }

    /** `connect`, before it is handed on to the connection. */
    method Connect()
      requires Valid()
      modifies `serverRevision, `sessionSnapshots, `attachedSessionIds
      ensures Valid() && Requests() == R.Apply(old(Requests()), ConnectCall)
    {
      StepSound(Requests(), ConnectCall);
      if !disposed && !connected {
        serverRevision, sessionSnapshots, attachedSessionIds := None, map[], {};
      }
    }

    /** The handshake: connected, with the server's snapshot. */
    method OnHandshake(revision: int)
      requires Valid() && !connected && !disposed
      modifies `connected, `serverRevision
      ensures Valid() && Requests() == R.Apply(old(Requests()), HandshakeDone(revision))
    {
      StepSound(Requests(), HandshakeDone(revision));
      connected := true;
      if serverRevision.None? || serverRevision.value <= revision {
        serverRevision := Some(revision);
      }
    }

    method ForgetSessionSnapshot(id: string) returns (previous: Option<SessionSnapshot>)
      requires Valid()
      modifies `sessionSnapshots
      ensures Valid() && Requests() == R.Apply(old(Requests()), ForgetSnapshot(id))
      ensures previous == Find(old(sessionSnapshots), id)
    {
      previous := Find(sessionSnapshots, id);
      sessionSnapshots := sessionSnapshots - {id};
    }

    method RestoreSessionSnapshot(snapshot: SessionSnapshot)
      requires Valid()
      modifies `sessionSnapshots
      ensures Valid() && Requests() == R.Apply(old(Requests()), RestoreSnapshot(snapshot))
    {
      if snapshot.id !in sessionSnapshots {
        sessionSnapshots := sessionSnapshots[snapshot.id := snapshot];
      }
    }

    /** The connection is lost: attachments are cleared, the leases of every session that has some are invalidated, and all
        requests are rejected. */
    method HandleDisconnected()
      requires R.OnceEach(Requests()) && requestSequence == |requests| && Positive()
      requires connected || Valid()
      modifies this
      ensures Valid() && Requests() == R.Disconnected(old(Requests()))
      ensures forall id: string :: Leases(id) == L.Apply(old(Leases(id)), L.InvalidateIfCounted)
    {
      DisconnectedSound(Requests());
      if !connected {
        NothingToReject(Requests());
      }
      attachedSessionIds := {};
      InvalidateAllSessionLeases();
      GoOffline();
    }

    method GoOffline()
      modifies `connected, `pendingRequests, `requests
      ensures Requests() == R.AllRejected(old(Requests())).(connected := false)
    {
      RejectPendingRequests();
      connected := false;
    }

    /** The response part of `#handleMessage`. */
    method HandleResponse(k: nat, ok: bool, result: Result)
      requires Valid() && connected
      modifies this
      ensures Valid() && Requests() == R.Apply(old(Requests()), Response(k, ok, result))
      ensures forall id: string ::
                Leases(id) == if connected then old(Leases(id)) else L.Apply(old(Leases(id)), L.InvalidateIfCounted)
    {
      AnswerSound(Requests(), k, ok, result);
      if k !in pendingRequests {
        HandleDisconnected();
      } else if !ok {
        Settle(k, Refused);
      } else if NameOf(result) != pendingRequests[k] {
        FailMismatched(k);
      } else {
        ApplyResult(result);
        Settle(k, Answered(result));
      }
    }

    method FailMismatched(k: nat)
      requires Valid() && connected && k in pendingRequests
      modifies this
      ensures Valid() && Requests() == R.Disconnected(R.Settled(old(Requests()), k, Mismatched)) && !connected
      ensures forall id: string :: Leases(id) == L.Apply(old(Leases(id)), L.InvalidateIfCounted)
    {
      SettledSound(Requests(), k, Mismatched);
      Settle(k, Mismatched);
      HandleDisconnected();
    }

    method ApplyResult(result: Result)
      modifies `sessionSnapshots, `attachedSessionIds
      ensures Requests() == R.WithResult(old(Requests()), result)
    {
      match result {
        case Listed =>
        case DetachDone(id) =>
          attachedSessionIds := attachedSessionIds - {id};
          if id in sessionSnapshots {
            ApplySessionSnapshot(sessionSnapshots[id].(attached := false), true);
          }
        case OfSession(_, session) => ApplySessionSnapshot(session, false);
      }
    }

    method ApplySessionSnapshot(snapshot: SessionSnapshot, force: bool)
      modifies `sessionSnapshots, `attachedSessionIds
      ensures Requests() == R.WithSnapshot(old(Requests()), snapshot, force)
    {
      if !force && snapshot.id in sessionSnapshots && snapshot.revision < sessionSnapshots[snapshot.id].revision {
        return;
      }
      sessionSnapshots := sessionSnapshots[snapshot.id := snapshot];
      if snapshot.attached {
        attachedSessionIds := attachedSessionIds + {snapshot.id};
      } else {
        attachedSessionIds := attachedSessionIds - {snapshot.id};
      }
    }

    /** The event part of `#handleMessage`: the leases of a removed session are invalidated first. */
    method HandleEvent(event: Event)
      requires Valid() && connected
      modifies this
      ensures Valid() && Requests() == R.Apply(old(Requests()), EventArrives(event))
      ensures event.SessionRemoved? ==>
                Leases(event.sessionId) == L.Apply(old(Leases(event.sessionId)), L.Invalidate) && OthersKept(event.sessionId)
      ensures !event.SessionRemoved? ==> forall id: string :: Leases(id) == old(Leases(id))
    {
      match event {
        case ServerSnapshotEvent(revision) =>
          if serverRevision.None? || serverRevision.value <= revision {
            serverRevision := Some(revision);
          }
        case SessionSnapshotEvent(session) => ApplySessionSnapshot(session, false);
        case SessionRemoved(id) =>
          InvalidateSessionLeases(id);
          RemoveSession(id);
        case SessionProgress(_) =>
      }
    }

    method RemoveSession(id: string)
      modifies `sessionSnapshots, `attachedSessionIds
      ensures Requests() == R.WithEvent(old(Requests()), SessionRemoved(id))
    {
      sessionSnapshots := sessionSnapshots - {id};
      attachedSessionIds := attachedSessionIds - {id};
    }

    /** `dispose` */
    method Dispose()
      requires Valid()
      modifies this
      ensures Valid() && Requests() == R.Apply(old(Requests()), R.Dispose)
      ensures forall id: string ::
                Leases(id) == if old(disposed) then old(Leases(id)) else L.Apply(old(Leases(id)), L.InvalidateIfCounted)
    {
      if disposed {
        return;
      }
      DropRequests();
      label forgotten:
      InvalidateAllSessionLeases();
      forall id: string
        ensures Leases(id) == L.Apply(old(Leases(id)), L.InvalidateIfCounted)
      {
        L.InvalidatedTwice(old(Leases(id)));
        assert old@forgotten(Leases(id)) == old(Leases(id)) || old@forgotten(Leases(id)) == L.Apply(old(Leases(id)), L.InvalidateIfCounted);
      }
    }

    /** `dispose`, up to its invalidation of the leases that are left. */
    method DropRequests()
      requires Valid() && !disposed
      modifies this
      ensures Valid() && Requests() == R.Apply(old(Requests()), R.Dispose)
      ensures forall id: string ::
                Leases(id) == if old(connected) then L.Apply(old(Leases(id)), L.InvalidateIfCounted) else old(Leases(id))
    {
      DisposeRequests();
      LoseConnection();
      Forget();
    }

    method DisposeRequests()
      requires Valid()
      modifies `disposed, `pendingRequests, `requests
      ensures Valid() && Requests() == R.AllRejected(old(Requests()).(disposed := true))
    {
      disposed := true;
      RejectPendingRequests();
    }

    /** `disconnect` of the connection, which announces it only while one is up. */
    method LoseConnection()
      requires Valid()
      modifies this
      ensures Valid() && Requests() == R.Disconnected(old(Requests()))
      ensures forall id: string ::
                Leases(id) == if old(connected) then L.Apply(old(Leases(id)), L.InvalidateIfCounted) else old(Leases(id))
    {
      if connected {
        HandleDisconnected();
      }
    }

    method Forget()
      requires Valid() && !connected
      modifies `serverRevision, `sessionSnapshots, `attachedSessionIds
      ensures Valid() && Requests() == R.Forgotten(old(Requests()))
    {
      serverRevision, sessionSnapshots, attachedSessionIds := None, map[], {};
    }

    // ----- Leases -----

    /** `#reserveSessionLease`; None where it throws. */
    method ReserveSessionLease(id: string, mode: L.Mode) returns (token: Option<nat>)
      requires Positive()
      modifies `sessionLeaseCounts, `exclusiveSessionLeases, `leases
      ensures Positive() && Leases(id) == L.Apply(old(Leases(id)), L.Reserve(mode)) && OthersKept(id)
      ensures token == if L.MayReserve(old(Leases(id)), mode) then Some(|old(Leases(id)).tokens|) else None
    {
      var count := GetOr(sessionLeaseCounts, id, 0);
      if mode.Exclusive? && count > 0 {
        return None;
      }
      if mode.Shared? && id in exclusiveSessionLeases {
        return None;
      }
      var all := GetOr(leases, id, []);
      token := Some(|all|);
      leases := leases[id := all + [L.Token(mode, GetOr(sessionLeaseGenerations, id, 0), 0, L.Acquiring, None)]];
      sessionLeaseCounts := sessionLeaseCounts[id := count + 1];
      if mode.Exclusive? {
        exclusiveSessionLeases := exclusiveSessionLeases[id := |all|];
      }
    }

    /** `#releaseSessionLease` */
    method ReleaseSessionLease(id: string, token: nat)
      requires Positive()
      modifies `sessionLeaseCounts, `exclusiveSessionLeases
      ensures Positive() && Leases(id) == L.Release(old(Leases(id)), token) && OthersKept(id)
    {
      var count := GetOr(sessionLeaseCounts, id, 0);
      if count <= 1 {
        sessionLeaseCounts := sessionLeaseCounts - {id};
      } else {
        sessionLeaseCounts := sessionLeaseCounts[id := count - 1];
      }
      if id in exclusiveSessionLeases && exclusiveSessionLeases[id] == token {
        exclusiveSessionLeases := exclusiveSessionLeases - {id};
      }
    }

    /** The lease's own state, and whether its detach is in flight. */
    method SetHold(id: string, token: nat, hold: L.Hold, detach: Option<bool>)
      requires token < |Leases(id).tokens|
      modifies `leases
      ensures Leases(id) == L.SetHold(old(Leases(id)), token, hold, detach) && OthersKept(id)
    {
      var all := GetOr(leases, id, []);
      leases := leases[id := all[token := all[token].(hold := hold, detach := detach)]];
    }

    /** `#createSessionLease`, once the session is attached. */
    method CreateSessionLease(id: string, token: nat)
      requires L.Is(Leases(id), token, L.Acquiring)
      modifies `sessionLeaseGenerations, `leases
      ensures Leases(id) == L.Apply(old(Leases(id)), L.Acquired(token)) && OthersKept(id)
    {
      var generation := GetOr(sessionLeaseGenerations, id, 0);
      sessionLeaseGenerations := sessionLeaseGenerations[id := generation];
      var all := GetOr(leases, id, []);
      leases := leases[id := all[token := all[token].(generation := generation, hold := L.Active)]];
    }

    /** The `catch` of `acquireSession`. */
    method AcquireFails(id: string, token: nat)
      requires Positive() && L.Is(Leases(id), token, L.Acquiring)
      modifies `sessionLeaseCounts, `exclusiveSessionLeases, `leases
      ensures Positive() && Leases(id) == L.Apply(old(Leases(id)), L.AcquireFailed(token)) && OthersKept(id)
    {
      ReleaseSessionLease(id, token);
      SetHold(id, token, L.Released, None);
    }

    /** `assertActive`, leaving the lease itself aside. */
    predicate Reachable(id: string)
      reads this
    {
      connected && !disposed && id in attachedSessionIds
    }

    /** `refreshState` of a lease. */
    method RefreshState(id: string, token: nat)
      requires token < |Leases(id).tokens|
      modifies `leases
      ensures Leases(id) == L.Apply(old(Leases(id)), L.Refresh(token)) && OthersKept(id)
    {
      var lease := GetOr(leases, id, [])[token];
      if (lease.hold.Active? || lease.hold.Releasing?) && GetOr(sessionLeaseGenerations, id, 0) != lease.generation {
        SetHold(id, token, L.Invalidated, lease.detach);
      }
    }

    /** `release` of a lease, up to its first await; true if a detach is sent. */
    method ReleaseLease(id: string, token: nat, relinquish: bool) returns (detach: bool)
      requires Positive() && token < |Leases(id).tokens| && !Leases(id).tokens[token].hold.Acquiring?
      modifies `sessionLeaseCounts, `exclusiveSessionLeases, `leases, `detaches
      ensures Positive() && OthersKept(id)
      ensures Leases(id) == L.Apply(old(Leases(id)), L.StartRelease(token, relinquish, Reachable(id)))
      ensures detach == L.SendsDetach(old(Leases(id)), L.StartRelease(token, relinquish, Reachable(id)))
    {
      detach := false;
      RefreshState(id, token);
      var lease := GetOr(leases, id, [])[token];
      if lease.hold.Released? || lease.hold.Invalidated? {
        return;
      }
      if lease.hold.Releasing? || !Reachable(id) {
        return;
      }
      if GetOr(sessionLeaseCounts, id, 0) <= 1 {
        SetHold(id, token, L.Releasing, Some(relinquish));
        detaches := detaches[id := GetOr(detaches, id, []) + [token]];
        detach := true;
      } else {
        ReleaseSessionLease(id, token);
        SetHold(id, token, L.Released, None);
      }
    }

    /** The detach of a lease has been answered; the lease may have been marked invalidated meanwhile. */
    method DetachSucceeds(id: string, token: nat)
      requires Positive() && L.IsDetaching(Leases(id), token)
      modifies `sessionLeaseCounts, `exclusiveSessionLeases, `leases
      ensures Positive() && Leases(id) == L.Apply(old(Leases(id)), L.DetachSucceeded(token)) && OthersKept(id)
    {
      ReleaseSessionLease(id, token);
      SetHold(id, token, L.Released, None);
    }

    /** The detach of a lease has failed: the lease is active again, unless it was invalidated meanwhile or was to be given
        up in any case. */
    method DetachFails(id: string, token: nat)
      requires Positive() && L.IsDetaching(Leases(id), token)
      modifies `sessionLeaseCounts, `exclusiveSessionLeases, `leases, `sessionCleanupRequired
      ensures Positive() && Leases(id) == L.Apply(old(Leases(id)), L.DetachFailed(token)) && OthersKept(id)
    {
      RefreshState(id, token);
      var lease := GetOr(leases, id, [])[token];
      if lease.hold.Invalidated? {
        SetHold(id, token, L.Invalidated, None);
      } else if lease.detach.value {
        ReleaseSessionLease(id, token);
        sessionCleanupRequired := sessionCleanupRequired + {id};
        SetHold(id, token, L.Released, None);
      } else {
        SetHold(id, token, L.Active, None);
      }
    }

    /** The detach of `#reconcileSessionCleanup` has been answered. */
    method CleanupReconciled(id: string)
      modifies `sessionCleanupRequired
      ensures Leases(id) == L.Apply(old(Leases(id)), L.Reconciled) && OthersKept(id)
    {
      sessionCleanupRequired := sessionCleanupRequired - {id};
    }

    /** `#invalidateSessionLeases` */
    method InvalidateSessionLeases(id: string)
      requires Positive()
      modifies `sessionLeaseCounts, `exclusiveSessionLeases, `sessionCleanupRequired, `sessionLeaseGenerations
      ensures Positive() && Leases(id) == L.Apply(old(Leases(id)), L.Invalidate) && OthersKept(id)
      ensures sessionLeaseCounts == old(sessionLeaseCounts) - {id}
    {
      sessionLeaseCounts := sessionLeaseCounts - {id};
      exclusiveSessionLeases := exclusiveSessionLeases - {id};
      sessionCleanupRequired := sessionCleanupRequired - {id};
      sessionLeaseGenerations := sessionLeaseGenerations[id := GetOr(sessionLeaseGenerations, id, 0) + 1];
    }

    /** `#invalidateAllSessionLeases`: every session that has a lease count. */
    method InvalidateAllSessionLeases()
      requires Positive()
      modifies `sessionLeaseCounts, `exclusiveSessionLeases, `sessionCleanupRequired, `sessionLeaseGenerations
      ensures Positive() && forall id: string :: Leases(id) == L.Apply(old(Leases(id)), L.InvalidateIfCounted)
    {
      var ids := sessionLeaseCounts.Keys;
      var left := ids;
      while left != {}
        invariant left <= ids && Positive()
        invariant forall id: string ::
                    Leases(id) == if id in ids && id !in left then L.Apply(old(Leases(id)), L.Invalidate) else old(Leases(id))
      {
        var id :| id in left;
        InvalidateSessionLeases(id);
        left := left - {id};
      }
      sessionCleanupRequired := {};
      assert forall id: string :: old(Leases(id)).count > 0 <==> id in ids;
    }

    // ----- Any call -----

    method DoRequestStep(step: R.Step)
      requires Valid()
      modifies this
      ensures Valid() && Requests() == R.Apply(old(Requests()), step)
      ensures forall id: string :: Leases(id) == After(old(Leases(id)), LeaseStep(old(Requests()), OfRequests(step), id))
    {
      match step {
        case ConnectCall => Connect();
        case HandshakeDone(revision) => if !connected && !disposed { OnHandshake(revision); }
        case ConnectionLost => HandleDisconnected();
        case Issue(command, encodes) => var _ := Request(command, encodes);
        case Response(k, ok, result) => if connected { HandleResponse(k, ok, result); }
        case EventArrives(event) => if connected { HandleEvent(event); }
        case ForgetSnapshot(id) => var _ := ForgetSessionSnapshot(id);
        case RestoreSnapshot(session) => RestoreSessionSnapshot(session);
        case Dispose => Dispose();
      }
    }

    predicate Holds(id: string, token: nat)
      reads `leases
    {
      token < |GetOr(leases, id, [])|
    }

    method DoLeaseCall(call: Call)
      requires Positive() && !call.OfRequests?
      modifies `sessionLeaseCounts, `exclusiveSessionLeases, `sessionLeaseGenerations, `sessionCleanupRequired, `leases, `detaches
      ensures Positive() && OthersKept(call.sessionId)
      ensures Leases(call.sessionId) == L.Apply(old(Leases(call.sessionId)), OwnStep(Requests(), call))
    {
      match call {
        case Reserve(id, mode) => var _ := ReserveSessionLease(id, mode);
        case Reconcile(id) => CleanupReconciled(id);
        case LookAt(id, t) => if Holds(id, t) { RefreshState(id, t); }
        case Attached(id, t) => if Holds(id, t) && leases[id][t].hold.Acquiring? { CreateSessionLease(id, t); }
        case NotAttached(id, t) => if Holds(id, t) && leases[id][t].hold.Acquiring? { AcquireFails(id, t); }
        case Detached(id, t) => if Holds(id, t) && leases[id][t].detach.Some? { DetachSucceeds(id, t); }
        case NotDetached(id, t) => if Holds(id, t) && leases[id][t].detach.Some? { DetachFails(id, t); }
        case Release(id, t, relinquish) =>
          if Holds(id, t) && !leases[id][t].hold.Acquiring? { var _ := ReleaseLease(id, t, relinquish); }
      }
    }

    method Do(call: Call)
      requires Valid()
      modifies this
      ensures Valid() && Requests() == if call.OfRequests? then R.Apply(old(Requests()), call.step) else old(Requests())
      ensures forall id: string :: Leases(id) == After(old(Leases(id)), LeaseStep(old(Requests()), call, id))
    {
      if call.OfRequests? {
        DoRequestStep(call.step);
      } else {
        DoLeaseCall(call);
      }
    }
  }

  // ----- Any sequence of calls and messages -----

  datatype Call =
    | OfRequests(step: R.Step)
    | Reserve(sessionId: string, mode: L.Mode)
    | Attached(sessionId: string, token: nat) | NotAttached(sessionId: string, token: nat)
    | LookAt(sessionId: string, token: nat)
    | Release(sessionId: string, token: nat, relinquish: bool)
    | Detached(sessionId: string, token: nat) | NotDetached(sessionId: string, token: nat)
    | Reconcile(sessionId: string)

  /** What a call means for the leases of the session it is about. */
  function OwnStep(c: R.Client, call: Call): L.Step
    requires !call.OfRequests?
  {
    match call
    case Reserve(_, mode) => L.Reserve(mode)
    case Attached(_, t) => L.Acquired(t)
    case NotAttached(_, t) => L.AcquireFailed(t)
    case LookAt(_, t) => L.Refresh(t)
    case Release(id, t, relinquish) => L.StartRelease(t, relinquish, c.connected && !c.disposed && id in c.attached)
    case Detached(_, t) => L.DetachSucceeded(t)
    case NotDetached(_, t) => L.DetachFailed(t)
    case Reconcile(_) => L.Reconciled
  }

  /** The connection is lost or fails, or the client is disposed: the leases of every counted session are invalidated. */
  predicate InvalidatesAll(c: R.Client, step: R.Step) {
    || step.ConnectionLost?
    || (step.Dispose? && !c.disposed)
    || (step.Response? && c.connected && !R.Apply(c, step).connected)
  }

  /** What a call or message means for the leases of a session, if anything. */
  function LeaseStep(c: R.Client, call: Call, id: string): Option<L.Step> {
    if call.OfRequests? then
      if InvalidatesAll(c, call.step) then Some(L.InvalidateIfCounted)
      else if c.connected && call.step == EventArrives(SessionRemoved(id)) then Some(L.Invalidate)
      else None
    else if call.sessionId == id then Some(OwnStep(c, call)) else None
  }

  function After(s: L.Session, step: Option<L.Step>): L.Session {
    if step.Some? then L.Apply(s, step.value) else s
  }

  /** The request steps among the calls. */
  function RequestSteps(calls: seq<Call>): seq<R.Step> {
    if calls == [] then []
    else
      var before, call := RequestSteps(calls[..|calls| - 1]), calls[|calls| - 1];
      if call.OfRequests? then before + [call.step] else before
  }

  /** What the calls mean for the leases of one session. */
  function LeaseSteps(calls: seq<Call>, id: string): seq<L.Step> {
    if calls == [] then []
    else
      var before, call := calls[..|calls| - 1], calls[|calls| - 1];
      var step := LeaseStep(R.Run(RequestSteps(before)), call, id);
      if step.Some? then LeaseSteps(before, id) + [step.value] else LeaseSteps(before, id)
  }

  lemma RunMoreRequests(steps: seq<R.Step>, step: R.Step)
    ensures R.Run(steps + [step]) == R.Apply(R.Run(steps), step)
  {
    assert (steps + [step])[..|steps|] == steps;
  }

  lemma RunMoreLeases(steps: seq<L.Step>, step: L.Step)
    ensures L.Run(steps + [step]) == L.Apply(L.Run(steps), step)
  {
    assert (steps + [step])[..|steps|] == steps;
  }

  lemma NextRequests(calls: seq<Call>, i: nat)
    requires i < |calls|
    ensures R.Run(RequestSteps(calls[..i + 1]))
         == var c := R.Run(RequestSteps(calls[..i])); if calls[i].OfRequests? then R.Apply(c, calls[i].step) else c
  {
    assert calls[..i + 1][..i] == calls[..i];
    if calls[i].OfRequests? {
      RunMoreRequests(RequestSteps(calls[..i]), calls[i].step);
    }
  }

  lemma NextLeases(calls: seq<Call>, i: nat, id: string)
    requires i < |calls|
    ensures L.Run(LeaseSteps(calls[..i + 1], id))
         == After(L.Run(LeaseSteps(calls[..i], id)), LeaseStep(R.Run(RequestSteps(calls[..i])), calls[i], id))
  {
    assert calls[..i + 1][..i] == calls[..i];
    var step := LeaseStep(R.Run(RequestSteps(calls[..i])), calls[i], id);
    if step.Some? {
      RunMoreLeases(LeaseSteps(calls[..i], id), step.value);
    }
  }

  /** A new client after any sequence of calls and messages: its requests and the leases of each session are where the runs
      of their own steps put them. */
  method Serve(calls: seq<Call>) returns (client: PiClient)
    ensures client.Requests() == R.Run(RequestSteps(calls))
    ensures forall id: string :: client.Leases(id) == L.Run(LeaseSteps(calls, id))
  {
    client := new PiClient();
    var i := 0;
    while i < |calls|
      invariant 0 <= i <= |calls| && fresh(client) && client.Valid()
      invariant client.Requests() == R.Run(RequestSteps(calls[..i]))
      invariant forall id: string :: client.Leases(id) == L.Run(LeaseSteps(calls[..i], id))
    {
      NextRequests(calls, i);
      forall id: string {
        NextLeases(calls, i, id);
      }
      client.Do(calls[i]);
      i := i + 1;
    }
    assert calls[..i] == calls;
  }
}
