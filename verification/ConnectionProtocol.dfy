/** The life of a client's connections: what each callback does to the connection, with listeners that may disconnect and
    connect again from inside a notification. */
module ConnectionProtocol {
  import opened Text

  /** What happens to one `connect()`: announcements to the listeners, and the settlement of its promise. */
  datatype Happening = AnnConnecting | AnnConnected | AnnDisconnected | Resolved | Rejected

  type History = seq<Happening>

  /** A connection is named by its sequence number; `greeting` says that its handshake promise is not settled. */
  datatype Lifecycle =
    | Disconnected
    | Connecting(id: nat, transport: bool)
    | Connected(id: nat, greeting: bool)

  /** `histories[k]` belongs to connection `k + 1`. */
  datatype Conn = Conn(lifecycle: Lifecycle, sequence: nat, histories: seq<History>)

  const IDLE := Conn(Disconnected, 0, [])

  /** What a listener does when it is notified: a list of calls, each with what listeners do in turn. */
  datatype Reaction =
    | Nothing
    | Connects(inner: Reaction, rest: Reaction)
    | Disconnects(inner: Reaction, rest: Reaction)

  datatype Message = Hello | HelloError | Payload(body: string)

  /** How the outside world takes a message: what listeners do at the handshake (and whether the handler throws), and
      what they do when it is announced or delivered. */
  datatype Handling = Handling(handshake: Reaction, throws: bool, delivered: Reaction)

  // ----- The primitive changes -----

  function Append(s: Conn, id: nat, what: Happening): Conn
    requires 0 < id <= |s.histories|
  {
    s.(histories := s.histories[id - 1 := s.histories[id - 1] + [what]])
  }

  predicate Greeting(l: Lifecycle) {
    l.Connecting? || (l.Connected? && l.greeting)
  }

  /** A new connection, announced as connecting. */
  function Opened(s: Conn): Conn {
    s.(lifecycle := Connecting(s.sequence + 1, false), sequence := s.sequence + 1,
       histories := s.histories + [[AnnConnecting]])
  }

  /** The connection is given up: its promise, if not settled, is rejected, and it is announced as disconnected. */
  function Closed(s: Conn): Conn
    requires !s.lifecycle.Disconnected? && 0 < s.lifecycle.id <= |s.histories|
  {
    var t := s.(lifecycle := Disconnected);
    Append(if Greeting(s.lifecycle) then Append(t, s.lifecycle.id, Rejected) else t, s.lifecycle.id, AnnDisconnected)
  }

  // ----- What holds of a connection at any time -----

  predicate Over(h: History) {
    || h == [AnnConnecting, Rejected, AnnDisconnected]
    || h == [AnnConnecting, AnnConnected, Rejected, AnnDisconnected]
    || h == [AnnConnecting, AnnConnected, Resolved, AnnDisconnected]
  }

  predicate Live(l: Lifecycle, h: History)
    requires !l.Disconnected?
  {
    match l
    case Connecting(_, _) => h == [AnnConnecting]
    case Connected(_, greeting) =>
      if greeting then h == [AnnConnecting] || h == [AnnConnecting, AnnConnected]
      else h == [AnnConnecting, AnnConnected, Resolved]
  }

  /** The current connection is the last one; all before it are over. */
  predicate Sound(s: Conn) {
    && |s.histories| == s.sequence
    && (!s.lifecycle.Disconnected? ==> 0 < s.lifecycle.id == s.sequence && Live(s.lifecycle, s.histories[s.sequence - 1]))
    && forall k | 0 <= k < s.sequence && (s.lifecycle.Disconnected? || k + 1 < s.sequence) :: Over(s.histories[k])
  }

  lemma OpenedSound(s: Conn)
    requires Sound(s) && s.lifecycle.Disconnected?
    ensures Sound(Opened(s))
  {
  }

  lemma ClosedSound(s: Conn)
    requires Sound(s) && !s.lifecycle.Disconnected?
    ensures Sound(Closed(s)) && Closed(s).lifecycle.Disconnected?
  {
  }

  // ----- Calls and notifications -----

  /** `connect`, on a sound connection; it is refused unless the connection is disconnected. */
  function Connect(s: Conn, r: Reaction): Conn
    requires Sound(s)
    ensures Sound(Connect(s, r)) && Moved(s, Connect(s, r))
    decreases r, 1
  {
    if !s.lifecycle.Disconnected? then s
    else
      OpenedSound(s);
      Notify(Opened(s), r)
  }

  /** `#fail`: also what `disconnect`, `fail` and `#failAndClose` do. */
  function Fail(s: Conn, r: Reaction): Conn
    requires Sound(s)
    ensures Sound(Fail(s, r)) && Moved(s, Fail(s, r))
    ensures s.lifecycle.Disconnected? || Fail(s, r).lifecycle.Disconnected? || Fail(s, r).lifecycle.id > s.sequence
    decreases r, 1
  {
    if s.lifecycle.Disconnected? then s
    else
      ClosedSound(s);
      Notify(Closed(s), r)
  }

  /** Listeners are notified, and do what they do. */
  function Notify(s: Conn, r: Reaction): Conn
    requires Sound(s)
    ensures Sound(Notify(s, r)) && Moved(s, Notify(s, r))
    decreases r, 0
  {
    match r
    case Nothing => s
    case Connects(inner, rest) => Notify(Connect(s, inner), rest)
    case Disconnects(inner, rest) => Notify(Fail(s, inner), rest)
  }

  /** Either nothing happened, or the connection of `s` is over or was none. */
  predicate Moved(s: Conn, t: Conn) {
    && s.sequence <= t.sequence
    && (t == s || t.lifecycle.Disconnected? || t.lifecycle.id > s.sequence)
  }

  // ----- The callbacks of a transport -----

  predicate IsCurrent(s: Conn, id: nat) { !s.lifecycle.Disconnected? && s.lifecycle.id == id }

  /** The transport factory has come back. */
  function TransportReady(s: Conn, id: nat): Conn {
    if s.lifecycle.Connecting? && s.lifecycle.id == id then s.(lifecycle := Connecting(id, true)) else s
  }

  /** The factory or the sending of the hello failed, or the transport reports an error or that it was closed. */
  function TransportFails(s: Conn, id: nat, r: Reaction): Conn
    requires Sound(s)
    ensures Sound(TransportFails(s, id, r))
  {
    if IsCurrent(s, id) then Fail(s, r) else s
  }

  /** The server's hello: connected, then the handshake is handed over, then it is announced, then the promise is
      resolved; whenever the connection is lost on the way, that is all. */
  function Greet(s: Conn, h: Handling): Conn
    requires Sound(s) && s.lifecycle.Connecting? && s.lifecycle.transport
    ensures Sound(Greet(s, h))
  {
    var id := s.lifecycle.id;
    var connected := s.(lifecycle := Connected(id, true));
    var s1 := Notify(connected, h.handshake);
    if h.throws then
      if s1.lifecycle == connected.lifecycle then Fail(s1, h.delivered) else s1
    else if s1.lifecycle != connected.lifecycle then s1
    else
      var s2 := Notify(Append(s1, id, AnnConnected), h.delivered);
      if s2.lifecycle != connected.lifecycle then s2
      else Append(s2.(lifecycle := Connected(id, false)), id, Resolved)
  }

  /** `#handleMessage`: the message goes to whatever connection there is. */
  function Deliver(s: Conn, m: Message, h: Handling): Conn
    requires Sound(s)
    ensures Sound(Deliver(s, m, h))
  {
    match s.lifecycle
    case Disconnected => s
    case Connecting(_, transport) => if m.Hello? && transport then Greet(s, h) else Fail(s, h.delivered)
    case Connected(_, _) => if m.Payload? then Notify(s, h.delivered) else Fail(s, h.delivered)
  }

  function DeliverAll(s: Conn, batch: seq<(Message, Handling)>): Conn
    requires Sound(s)
    ensures Sound(DeliverAll(s, batch))
    decreases |batch|
  {
    if batch == [] || s.lifecycle.Disconnected? then s
    else DeliverAll(Deliver(s, batch[0].0, batch[0].1), batch[1..])
  }

  /** A chunk arrives, which decodes to messages or to an error. */
  function DataArrives(s: Conn, id: nat, decoded: Option<seq<(Message, Handling)>>, r: Reaction): Conn
    requires Sound(s)
    ensures Sound(DataArrives(s, id, decoded, r))
  {
    if !IsCurrent(s, id) then s
    else if (s.lifecycle.Connecting? && !s.lifecycle.transport) || decoded.None? then Fail(s, r)
    else DeliverAll(s, decoded.value)
  }

  datatype Step =
    | DoConnect(r: Reaction) | DoDisconnect(r: Reaction)
    | OnReady(id: nat) | OnFailure(id: nat, r: Reaction)
    | OnData(id: nat, decoded: Option<seq<(Message, Handling)>>, r: Reaction)

  function Apply(s: Conn, step: Step): Conn
    requires Sound(s)
    ensures Sound(Apply(s, step))
  {
    match step
    case DoConnect(r) => Connect(s, r)
    case DoDisconnect(r) => Fail(s, r)
    case OnReady(id) => TransportReady(s, id)
    case OnFailure(id, r) => TransportFails(s, id, r)
    case OnData(id, decoded, r) => DataArrives(s, id, decoded, r)
  }

  function Run(steps: seq<Step>): Conn
    ensures Sound(Run(steps))
  {
    if steps == [] then IDLE else Apply(Run(steps[..|steps| - 1]), steps[|steps| - 1])
  }

  // ----- What every run keeps -----

  predicate IsSettled(h: History) { Resolved in h || Rejected in h }

  /** The life of a `connect()`, up to any moment. */
  predicate InOrder(h: History) {
    || h == [AnnConnecting] || h == [AnnConnecting, AnnConnected] || h == [AnnConnecting, AnnConnected, Resolved] || Over(h)
  }

  /** In every run, whatever listeners do: each `connect()` is announced as connecting and then at most once as connected;
      its promise is resolved only after that, or rejected; and only then it is announced as disconnected, for good. It is
      settled unless its connection is the current one and its handshake is not done, and over unless it is current. */
  lemma OneLifeEach(steps: seq<Step>, k: nat)
    requires k < Run(steps).sequence
    ensures
      var s := Run(steps);
      var h := s.histories[k];
      && InOrder(h)
      && (IsSettled(h) <==> !(IsCurrent(s, k + 1) && Greeting(s.lifecycle)))
      && (Over(h) <==> !IsCurrent(s, k + 1))
  {
    var s := Run(steps);
    if !IsCurrent(s, k + 1) {
      assert Over(s.histories[k]);
    }
  }

  /** A callback of a transport whose connection is not the current one changes nothing. */
  lemma StaleCallback(s: Conn, id: nat, step: Step)
    requires Sound(s) && !IsCurrent(s, id)
    requires (step.OnReady? || step.OnFailure? || step.OnData?) && step.id == id
    ensures Apply(s, step) == s
  {
  }

  // ----- Messages of one batch -----

  /** Some message of the batch is delivered to another connection than `id`. */
  predicate Strays(s: Conn, id: nat, batch: seq<(Message, Handling)>)
    requires Sound(s)
    decreases |batch|
  {
    batch != [] && !s.lifecycle.Disconnected?
    && (!IsCurrent(s, id) || Strays(Deliver(s, batch[0].0, batch[0].1), id, batch[1..]))
  }

  // What a listener's author can tell from the calls it makes

  /** What has become of the connection a message came for: it is still current, there is none, or there is a new one. */
  datatype Ending = Untouched | Down | Anew

  /** What the calls of listeners make of it. */
  function After(e: Ending, r: Reaction): Ending
    decreases r
  {
    match r
    case Nothing => e
    case Connects(inner, rest) => After(if e.Down? then After(Anew, inner) else e, rest)
    case Disconnects(inner, rest) => After(if e.Down? then Down else After(Down, inner), rest)
  }

  /** Before the hello has come, with or without a transport, or after it. */
  datatype Phase = Waiting(transport: bool) | Up

  function PhaseOf(s: Conn): Phase
    requires !s.lifecycle.Disconnected?
  {
    if s.lifecycle.Connecting? then Waiting(s.lifecycle.transport) else Up
  }

  /** How the handling of a message ends. */
  function Ends(p: Phase, m: Message, h: Handling): Ending {
    match p
    case Up => After(if m.Payload? then Untouched else Down, h.delivered)
    case Waiting(transport) =>
      if !m.Hello? || !transport then After(Down, h.delivered)
      else
        var e := After(Untouched, h.handshake);
        if !e.Untouched? then e else After(if h.throws then Down else Untouched, h.delivered)
  }

  /** Message `k` is the first whose handling loses the connection, and it ends with a new one. */
  predicate FirstAnew(p: Phase, batch: seq<(Message, Handling)>, k: nat)
    requires k < |batch|
  {
    && Ends(if k == 0 then p else Up, batch[k].0, batch[k].1).Anew?
    && forall j | 0 <= j < k :: Ends(if j == 0 then p else Up, batch[j].0, batch[j].1).Untouched?
  }

  predicate ReconnectsEarly(p: Phase, batch: seq<(Message, Handling)>) {
    exists k :: 0 <= k < |batch| - 1 && FirstAnew(p, batch, k)
  }

  /** The ending is what has become of `s` in `t`. */
  predicate Became(s: Conn, t: Conn, e: Ending) {
    match e
    case Untouched => t == s
    case Down => t.lifecycle.Disconnected? && s.sequence <= t.sequence
    case Anew => !t.lifecycle.Disconnected? && t.lifecycle.id > s.sequence
  }

  lemma ConnectEnds(s: Conn, t: Conn, e: Ending, r: Reaction)
    requires Sound(s) && !s.lifecycle.Disconnected? && Sound(t) && Became(s, t, e)
    ensures Became(s, Connect(t, r), if e.Down? then After(Anew, r) else e)
    decreases r, 1
  {
    if e.Down? {
      OpenedSound(t);
      NotifyEnds(s, Opened(t), Anew, r);
    }
  }

  lemma FailEnds(s: Conn, t: Conn, e: Ending, r: Reaction)
    requires Sound(s) && !s.lifecycle.Disconnected? && Sound(t) && Became(s, t, e)
    ensures Became(s, Fail(t, r), if e.Down? then Down else After(Down, r))
    decreases r, 1
  {
    if !e.Down? {
      ClosedSound(t);
      NotifyEnds(s, Closed(t), Down, r);
    }
  }

  lemma NotifyEnds(s: Conn, t: Conn, e: Ending, r: Reaction)
    requires Sound(s) && !s.lifecycle.Disconnected? && Sound(t) && Became(s, t, e)
    ensures Became(s, Notify(t, r), After(e, r))
    decreases r, 0
  {
    match r
    case Nothing =>
    case Connects(inner, rest) =>
      ConnectEnds(s, t, e, inner);
      NotifyEnds(s, Connect(t, inner), if e.Down? then After(Anew, inner) else e, rest);
    case Disconnects(inner, rest) =>
      FailEnds(s, t, e, inner);
      NotifyEnds(s, Fail(t, inner), if e.Down? then Down else After(Down, inner), rest);
  }

  /** What has become of connection `id`, whatever its state. */
  predicate Left(t: Conn, id: nat, e: Ending) {
    match e
    case Untouched => IsCurrent(t, id) && t.lifecycle.Connected?
    case Down => t.lifecycle.Disconnected?
    case Anew => !t.lifecycle.Disconnected? && t.lifecycle.id != id
  }

  lemma GreetEnds(s: Conn, m: Message, h: Handling)
    requires Sound(s) && s.lifecycle.Connecting? && s.lifecycle.transport && m.Hello?
    ensures Left(Greet(s, h), s.lifecycle.id, Ends(PhaseOf(s), m, h))
  {
    var id := s.lifecycle.id;
    var connected := s.(lifecycle := Connected(id, true));
    NotifyEnds(connected, connected, Untouched, h.handshake);
    var s1 := Notify(connected, h.handshake);
    if s1.lifecycle == connected.lifecycle {
      if h.throws {
        FailEnds(s1, s1, Untouched, h.delivered);
      } else {
        var announced := Append(s1, id, AnnConnected);
        NotifyEnds(announced, announced, Untouched, h.delivered);
      }
    }
  }

  lemma DeliverEnds(s: Conn, m: Message, h: Handling)
    requires Sound(s) && !s.lifecycle.Disconnected?
    ensures Left(Deliver(s, m, h), s.lifecycle.id, Ends(PhaseOf(s), m, h))
  {
    if s.lifecycle.Connecting? && m.Hello? && s.lifecycle.transport {
      GreetEnds(s, m, h);
    } else {
      FailEnds(s, s, Untouched, h.delivered);
      NotifyEnds(s, s, Untouched, h.delivered);
    }
  }

  lemma FirstAnewOfRest(p: Phase, batch: seq<(Message, Handling)>, k: nat)
    requires 0 < k < |batch| && Ends(p, batch[0].0, batch[0].1).Untouched?
    ensures FirstAnew(p, batch, k) <==> FirstAnew(Up, batch[1..], k - 1)
  {
    var rest := batch[1..];
    if FirstAnew(Up, rest, k - 1) {
      forall j | 0 <= j < k
        ensures Ends(if j == 0 then p else Up, batch[j].0, batch[j].1).Untouched?
      {
        assert j > 0 ==> batch[j] == rest[j - 1];
      }
    }
    if FirstAnew(p, batch, k) {
      forall j | 0 <= j < k - 1
        ensures Ends(Up, rest[j].0, rest[j].1).Untouched?
      {
        assert rest[j] == batch[j + 1];
      }
    }
  }

  lemma SomeFirstAnewOfRest(p: Phase, batch: seq<(Message, Handling)>)
    requires |batch| > 1 && Ends(p, batch[0].0, batch[0].1).Untouched?
    ensures ReconnectsEarly(p, batch) <==> ReconnectsEarly(Up, batch[1..])
  {
    forall k | 0 < k < |batch| {
      FirstAnewOfRest(p, batch, k);
    }
    if exists k :: 0 <= k < |batch| - 1 && FirstAnew(p, batch, k) {
      var k :| 0 <= k < |batch| - 1 && FirstAnew(p, batch, k);
      assert FirstAnew(Up, batch[1..], k - 1);
    }
    if exists k :: 0 <= k < |batch| - 2 && FirstAnew(Up, batch[1..], k) {
      var k :| 0 <= k < |batch| - 2 && FirstAnew(Up, batch[1..], k);
      assert FirstAnew(p, batch, k + 1);
    }
  }

  lemma FirstDecides(p: Phase, batch: seq<(Message, Handling)>)
    requires |batch| > 1 && !Ends(p, batch[0].0, batch[0].1).Untouched?
    ensures ReconnectsEarly(p, batch) <==> Ends(p, batch[0].0, batch[0].1).Anew?
  {
    assert FirstAnew(p, batch, 0) <==> Ends(p, batch[0].0, batch[0].1).Anew?;
    forall k | 0 < k < |batch|
      ensures !FirstAnew(p, batch, k)
    {
      assert !Ends(if 0 == 0 then p else Up, batch[0].0, batch[0].1).Untouched?;
    }
  }

  /** The messages of a chunk stray to another connection exactly if some message other than the last is the first whose
      handling loses the connection, and the calls of its listeners end with a new one. */
  lemma {:induction false} StraysIffReconnects(s: Conn, id: nat, batch: seq<(Message, Handling)>)
    requires Sound(s) && IsCurrent(s, id)
    ensures Strays(s, id, batch) <==> ReconnectsEarly(PhaseOf(s), batch)
    decreases |batch|
  {
    if |batch| > 1 {
      var p, rest := PhaseOf(s), batch[1..];
      var t, e := Deliver(s, batch[0].0, batch[0].1), Ends(p, batch[0].0, batch[0].1);
      DeliverEnds(s, batch[0].0, batch[0].1);
      if e.Untouched? {
        StraysIffReconnects(t, id, rest);
        SomeFirstAnewOfRest(p, batch);
      } else {
        assert Strays(s, id, batch) <==> e.Anew?;
        FirstDecides(p, batch);
      }
    }
  }

  /** No listener connects. */
  predicate NeverConnects(r: Reaction) {
    match r
    case Nothing => true
    case Connects(_, _) => false
    case Disconnects(inner, rest) => NeverConnects(inner) && NeverConnects(rest)
  }

  lemma NeverAnew(e: Ending, r: Reaction)
    requires NeverConnects(r) && !e.Anew?
    ensures !After(e, r).Anew?
    decreases r
  {
    match r
    case Nothing =>
    case Disconnects(inner, rest) =>
      NeverAnew(Down, inner);
      NeverAnew(if e.Down? then Down else After(Down, inner), rest);
  }

  /** If no listener connects from inside the batch, its messages stay with its connection. */
  lemma {:induction false} BatchStays(s: Conn, id: nat, batch: seq<(Message, Handling)>)
    requires Sound(s) && IsCurrent(s, id)
    requires forall k | 0 <= k < |batch| :: NeverConnects(batch[k].1.handshake) && NeverConnects(batch[k].1.delivered)
    ensures !Strays(s, id, batch)
  {
    StraysIffReconnects(s, id, batch);
    forall k | 0 <= k < |batch| - 1
      ensures !FirstAnew(PhaseOf(s), batch, k)
    {
      NeverAnew(Untouched, batch[k].1.handshake);
      NeverAnew(Untouched, batch[k].1.delivered);
      NeverAnew(Down, batch[k].1.delivered);
    }
  }

  lemma DeliverOne(s: Conn, m: Message, h: Handling)
    requires Sound(s) && !s.lifecycle.Disconnected?
    ensures DeliverAll(s, [(m, h)]) == Deliver(s, m, h)
  {
    assert [(m, h)][1..] == [];
  }

  const QUIET := Handling(Nothing, false, Nothing)
  const AGAIN := Handling(Nothing, false, Disconnects(Nothing, Connects(Nothing, Nothing)))
  const GREETED := Conn(Connected(1, false), 1, [[AnnConnecting, AnnConnected, Resolved]])

  function GreetedRun(): seq<Step> {
    [DoConnect(Nothing), OnReady(1), OnData(1, Some([(Hello, QUIET)]), Nothing)]
  }

  /** Nothing unusual: connect, the transport comes, the hello comes. */
  lemma GetsGreeted()
    ensures Run(GreetedRun()) == GREETED
  {
    var steps := GreetedRun();
    assert steps[..2][..1] == steps[..1] && steps[..1][..0] == [];
    assert Run(steps[..1]) == Conn(Connecting(1, false), 1, [[AnnConnecting]]) by {
      assert Run(steps[..1]) == Connect(Run([]), Nothing);
    }
    var ready := Run(steps[..2]);
    assert ready == Conn(Connecting(1, true), 1, [[AnnConnecting]]);
    DeliverOne(ready, Hello, QUIET);
  }

  lemma ConnectsAgain()
    ensures Deliver(GREETED, Payload("a"), AGAIN).lifecycle == Connecting(2, false)
  {
    assert Fail(GREETED, Nothing) == Closed(GREETED);
  }

  /** Otherwise a late message of an old connection may end the new one: here the listener of the first message
      disconnects and connects again, and the second message fails the second connection. */
  lemma LateMessageEndsNewConnection()
    ensures
      var batch := [(Payload("a"), AGAIN), (Payload("b"), QUIET)];
      var t := Run(GreetedRun() + [OnData(1, Some(batch), Nothing)]);
      t.sequence == 2 && t.lifecycle.Disconnected? && t.histories[1] == [AnnConnecting, Rejected, AnnDisconnected]
  {
    var batch := [(Payload("a"), AGAIN), (Payload("b"), QUIET)];
    var steps := GreetedRun() + [OnData(1, Some(batch), Nothing)];
    GetsGreeted();
    assert steps[..|steps| - 1] == GreetedRun();
    var u := Deliver(GREETED, Payload("a"), AGAIN);
    ConnectsAgain();
    assert batch[1..] == [(Payload("b"), QUIET)];
    DeliverOne(u, Payload("b"), QUIET);
  }
}
