/** What ends a connection, and what does not, after any run of calls and callbacks. */
module ConnectionEnds {
  import opened Text
  import opened ConnectionProtocol

  /** Connection `id` is over for good: it is not the current one, and its promise is settled. */
  predicate IsOver(s: Conn, id: nat) {
    0 < id <= |s.histories| && Over(s.histories[id - 1]) && !IsCurrent(s, id)
  }

  /** The step ends the current connection, whatever came before: a disconnect, a failure of its transport, data before
      its hello was sent, or data that cannot be decoded. */
  predicate MustEnd(s: Conn, step: Step) {
    !s.lifecycle.Disconnected? &&
    match step
    case DoDisconnect(_) => true
    case OnFailure(id, _) => id == s.lifecycle.id
    case OnData(id, decoded, _) =>
      id == s.lifecycle.id && (decoded.None? || s.lifecycle == Connecting(id, false))
    case _ => false
  }

  /** Afterwards that connection is over, and there is another only if a listener has made it. */
  lemma {:induction false} MustEndEnds(steps: seq<Step>, step: Step)
    requires MustEnd(Run(steps), step)
    ensures
      var s, t := Run(steps), Run(steps + [step]);
      && IsOver(t, s.lifecycle.id)
      && (t.lifecycle.Disconnected? || t.lifecycle.id > s.sequence)
      && (NeverConnects(step.r) ==> t.lifecycle.Disconnected?)
  {
    assert (steps + [step])[..|steps|] == steps;
    var s := Run(steps);
    assert Apply(s, step) == Fail(s, step.r);
    FailEnds(s, s, Untouched, step.r);
    if NeverConnects(step.r) {
      NeverAnew(Down, step.r);
    }
    OneLifeEach(steps + [step], s.lifecycle.id - 1);
  }

  /** A hello that is taken as it comes: the promise of the connection is resolved, and it is up. */
  lemma {:induction false} HelloConnects(steps: seq<Step>, id: nat, r: Reaction)
    requires Run(steps).lifecycle == Connecting(id, true)
    ensures
      var t := Run(steps + [OnData(id, Some([(Hello, QUIET)]), r)]);
      && t.lifecycle == Connected(id, false) && 0 < id == |t.histories|
      && t.histories[id - 1] == [AnnConnecting, AnnConnected, Resolved]
  {
    var step := OnData(id, Some([(Hello, QUIET)]), r);
    assert (steps + [step])[..|steps|] == steps;
    DeliverOne(Run(steps), Hello, QUIET);
  }

  /** Messages whose listeners do nothing leave a connection that is up as it is, and the first message out of place ends
      it. */
  lemma {:induction false} PlainMessages(s: Conn, batch: seq<Message>)
    requires Sound(s) && s.lifecycle.Connected? && !s.lifecycle.greeting
    ensures
      var t := DeliverAll(s, Quietly(batch));
      if forall m | m in batch :: m.Payload? then t == s else t.lifecycle.Disconnected? && IsOver(t, s.lifecycle.id)
    decreases |batch|
  {
    if batch != [] {
      assert Quietly(batch)[1..] == Quietly(batch[1..]);
      assert forall m :: m in batch <==> m == batch[0] || m in batch[1..];
      if batch[0].Payload? {
        PlainMessages(s, batch[1..]);
      } else {
        assert Fail(s, Nothing) == Closed(s);
      }
    }
  }

  function Quietly(batch: seq<Message>): seq<(Message, Handling)> {
    seq(|batch|, i requires 0 <= i < |batch| => (batch[i], QUIET))
  }
}
