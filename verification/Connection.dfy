/** The connection object. What listeners do when they are notified is given with each call. */
module ConnectionObject {
  import opened Text
  import opened ConnectionProtocol
  import P = ConnectionProtocol

  class Connection {
    var lifecycle: Lifecycle
    var sequence: nat
    ghost var histories: seq<History>

    ghost function View(): Conn
      reads this
    {
      Conn(lifecycle, sequence, histories)
    }

    ghost predicate Valid()
      reads this
    {
      Sound(View())
    }

    constructor ()
      ensures Valid() && View() == IDLE
    {
      lifecycle, sequence, histories := Disconnected, 0, [];
    }

    method Connect(r: Reaction) returns (accepted: bool)
      requires Valid()
      modifies this
      ensures Valid() && View() == P.Connect(old(View()), r) && accepted == old(lifecycle).Disconnected?
      decreases r, 1
    {
      if !lifecycle.Disconnected? {
        return false;
      }
      OpenedSound(View());
      sequence := sequence + 1;
      lifecycle := Connecting(sequence, false);
      histories := histories + [[AnnConnecting]];
      OnStateChange(r);
      accepted := true;
    }

    /** `#fail`, `#failAndClose`, `disconnect` and `fail` */
    method Fail(r: Reaction)
      requires Valid()
      modifies this
      ensures Valid() && View() == P.Fail(old(View()), r)
      decreases r, 1
    {
      if lifecycle.Disconnected? {
        return;
      }
      ClosedSound(View());
      ghost var id, greeting := lifecycle.id, Greeting(lifecycle);
      lifecycle := Disconnected;
      if greeting {
        histories := P.Append(View(), id, Rejected).histories;
      }
      histories := P.Append(View(), id, AnnDisconnected).histories;
      OnStateChange(r);
    }

    /** The listeners are called. */
    method OnStateChange(r: Reaction)
      requires Valid()
      modifies this
      ensures Valid() && View() == P.Notify(old(View()), r)
      decreases r, 0
    {
      match r {
        case Nothing =>
        case Connects(inner, rest) =>
          var _ := Connect(inner);
          OnStateChange(rest);
        case Disconnects(inner, rest) =>
          Fail(inner);
          OnStateChange(rest);
      }
    }

    predicate Current(id: nat)
      reads this
    {
      !lifecycle.Disconnected? && lifecycle.id == id
    }

    /** `#openTransport` after the factory has come back; false if the new transport is closed again at once. */
    method TransportReady(id: nat) returns (kept: bool)
      requires Valid()
      modifies `lifecycle
      ensures Valid() && View() == P.TransportReady(old(View()), id)
      ensures kept == (old(lifecycle).Connecting? && old(lifecycle).id == id)
    {
      kept := lifecycle.Connecting? && lifecycle.id == id;
      if kept {
        lifecycle := Connecting(id, true);
      }
    }

    method TransportFails(id: nat, r: Reaction)
      requires Valid()
      modifies this
      ensures Valid() && View() == P.TransportFails(old(View()), id, r)
    {
      if Current(id) {
        Fail(r);
      }
    }

    /** The hello has come. */
    method Greet(h: Handling)
      requires Valid() && lifecycle.Connecting? && lifecycle.transport
      modifies this
      ensures Valid() && View() == P.Greet(old(View()), h)
    {
      var id := lifecycle.id;
      var connected := Connected(id, true);
      lifecycle := connected;
      OnStateChange(h.handshake);
      if h.throws {
        if lifecycle == connected {
          Fail(h.delivered);
        }
        return;
      }
      if lifecycle != connected {
        return;
      }
      histories := P.Append(View(), id, AnnConnected).histories;
      OnStateChange(h.delivered);
      if lifecycle != connected {
        return;
      }
      lifecycle := Connected(id, false);
      histories := P.Append(View(), id, Resolved).histories;
    }

    method HandleMessage(m: Message, h: Handling)
      requires Valid()
      modifies this
      ensures Valid() && View() == P.Deliver(old(View()), m, h)
    {
      if lifecycle.Connecting? {
        if !m.Hello? || !lifecycle.transport {
          Fail(h.delivered);
        } else {
          Greet(h);
        }
      } else if lifecycle.Connected? {
        if !m.Payload? {
          Fail(h.delivered);
        } else {
          OnStateChange(h.delivered);
        }
      }
    }

    /** `#handleData`; a chunk decodes to messages or to an error. */
    method HandleData(id: nat, decoded: Option<seq<(Message, Handling)>>, r: Reaction)
      requires Valid()
      modifies this
      ensures Valid() && View() == P.DataArrives(old(View()), id, decoded, r)
    {
      if !Current(id) {
        return;
      }
      if (lifecycle.Connecting? && !lifecycle.transport) || decoded.None? {
        Fail(r);
        return;
      }
      var batch := decoded.value;
      assert batch[0..] == batch;
      var i := 0;
      while i < |batch| && !lifecycle.Disconnected?
        invariant 0 <= i <= |batch| && Valid()
        invariant P.DeliverAll(old(View()), batch) == P.DeliverAll(View(), batch[i..])
      {
        assert batch[i..][0] == batch[i] && batch[i..][1..] == batch[i + 1..];
        HandleMessage(batch[i].0, batch[i].1);
        i := i + 1;
      }
    }

    method Do(step: Step)
      requires Valid()
      modifies this
      ensures Valid() && View() == P.Apply(old(View()), step)
    {
      match step {
        case DoConnect(r) => var _ := Connect(r);
        case DoDisconnect(r) => Fail(r);
        case OnReady(id) => var _ := TransportReady(id);
        case OnFailure(id, r) => TransportFails(id, r);
        case OnData(id, decoded, r) => HandleData(id, decoded, r);
      }
    }
  }

  /** A new connection object after any sequence of calls and callbacks. */
  method Serve(steps: seq<Step>) returns (c: Connection)
    ensures c.View() == Run(steps)
  {
    c := new Connection();
    var i := 0;
    while i < |steps|
      invariant 0 <= i <= |steps| && fresh(c) && c.Valid() && c.View() == Run(steps[..i])
    {
      assert steps[..i + 1][..i] == steps[..i];
      c.Do(steps[i]);
      i := i + 1;
    }
    assert steps[..i] == steps;
  }
}
