/** What a reader of a proxied stream ends up with: tool calls, and the same blocks for whoever only hears what is passed on. */
module ProxyBlocks {
  import opened Text
  import opened Folds
  import opened ProxyLines
  import opened ProxyReader

  // ----- Tool calls -----

  predicate Marks(e: ProxyEvent, i: nat) { Starts(e, i) || (e.CallEnd? && e.index == i) }

  /** The last event that starts block `i`, or ends it as a call. */
  function LastMark(events: seq<ProxyEvent>, i: nat): Option<ProxyEvent> {
    if events == [] then None
    else if Marks(events[|events| - 1], i) then Some(events[|events| - 1])
    else LastMark(events[..|events| - 1], i)
  }

  /** The pieces of JSON that have come for block `i` since then. */
  function PiecesSince(events: seq<ProxyEvent>, i: nat): seq<string> {
    if events == [] || Marks(events[|events| - 1], i) then []
    else
      var before := PiecesSince(events[..|events| - 1], i);
      var e := events[|events| - 1];
      if e.CallDelta? && e.index == i then before + [e.delta] else before
  }

  lemma {:induction false} ConcatenatedOneMore(pieces: seq<string>, piece: string)
    ensures Concatenated(pieces + [piece]) == Concatenated(pieces) + piece
  {
    assert (pieces + [piece])[..|pieces|] == pieces;
  }

  /** The call as it was started, or last ended, with the pieces that came since: its JSON text is all of them, in order,
      and its arguments are what the parser makes of that text. Pieces that come after the end are put after the word
      "undefined". */
  predicate IsCallOf(parsers: Parsers, block: Option<Block>, mark: ProxyEvent, pieces: seq<string>) {
    && (mark.CallStart? || mark.CallEnd?)
    && block.Some? && block.value.Call? && block.value.id == mark.id && block.value.name == mark.name
    && (if pieces != [] then
          var json := (if mark.CallEnd? then "undefined" else "") + Concatenated(pieces);
          block.value.json == Some(json) && block.value.arguments == parsers.arguments(json)
        else if mark.CallEnd? then
          block.value.json == None && block.value.arguments == mark.arguments
        else block.value.json == Some("") && block.value.arguments == "{}")
  }

  lemma PieceComes(parsers: Parsers, block: Block, mark: ProxyEvent, pieces: seq<string>, delta: string)
    requires IsCallOf(parsers, Some(block), mark, pieces)
    ensures
      var json := MoreJson(block.json, delta);
      IsCallOf(parsers, Some(block.(json := Some(json), arguments := parsers.arguments(json))), mark, pieces + [delta])
  {
    ConcatenatedOneMore(pieces, delta);
    var head := if mark.CallEnd? then "undefined" else "";
    assert Concatenated([]) == "" && head + "" == head;
    assert head + (Concatenated(pieces) + delta) == head + Concatenated(pieces) + delta;
  }

  /** After any accepted events a block that was last started as a call is that call, with its pieces. */
  lemma {:induction false} CallIsItsPieces(parsers: Parsers, events: seq<ProxyEvent>, i: nat)
    requires Replay(parsers, events).Some? && LastStart(events, i).Some? && LastStart(events, i).value.CallStart?
    ensures LastMark(events, i).Some?
    ensures IsCallOf(parsers, Lookup(Replay(parsers, events).value, i), LastMark(events, i).value, PiecesSince(events, i))
  {
    var before, e := events[..|events| - 1], events[|events| - 1];
    if !Starts(e, i) {
      CallIsItsPieces(parsers, before, i);
      EventForCall(parsers, Replay(parsers, before).value, e, i, LastMark(before, i).value, PiecesSince(before, i));
    }
  }

  lemma EventForCall(parsers: Parsers, p: Partial, e: ProxyEvent, i: nat, mark: ProxyEvent, pieces: seq<string>)
    requires IsCallOf(parsers, Lookup(p, i), mark, pieces) && Process(parsers, p, e).Some? && !Starts(e, i)
    ensures
      var block := Lookup(Process(parsers, p, e).value.0, i);
      if e.CallEnd? && e.index == i then IsCallOf(parsers, block, e, [])
      else IsCallOf(parsers, block, mark, if e.CallDelta? && e.index == i then pieces + [e.delta] else pieces)
  {
    if !For(e, i) {
      OtherBlocksStay(parsers, p, e, i);
    } else if e.CallDelta? {
      PieceComes(parsers, p.content[i], mark, pieces, e.delta);
    }
  }

  /** So are the calls read from any text, in whatever chunks. */
  lemma ReadCalls(parsers: Parsers, text: string, i: nat)
    requires
      var start := LastStart(Accepted(parsers, Payloads(CompleteLines(text))), i);
      start.Some? && start.value.CallStart?
    ensures
      var events := Accepted(parsers, Payloads(CompleteLines(text)));
      LastMark(events, i).Some?
      && IsCallOf(parsers, Lookup(ReadWhole(parsers, text).partial, i), LastMark(events, i).value, PiecesSince(events, i))
  {
    TakingReplays(parsers, Payloads(CompleteLines(text)));
    CallIsItsPieces(parsers, Accepted(parsers, Payloads(CompleteLines(text))), i);
  }

  // ----- What is passed on -----

  /** The text somebody has for block `i` who hears what is passed on. */
  function HeardNext(heard: string, e: Emitted, i: nat): string {
    match e
    case EmitBlockStart(j, _) => if j == i then "" else heard
    case EmitCallStart(j) => if j == i then "" else heard
    case EmitCallEnd(j) => if j == i then "" else heard
    case EmitDelta(j, _, delta) => if j == i then heard + delta else heard
    case EmitCallDelta(j, delta) => if j == i then heard + delta else heard
    case _ => heard
  }

  function Heard(emitted: seq<Emitted>, i: nat): string {
    if emitted == [] then "" else HeardNext(Heard(emitted[..|emitted| - 1], i), emitted[|emitted| - 1], i)
  }

  /** It is the text of the block, or, for a call, all of its JSON that came since it was started or ended. */
  predicate IsHeard(b: Block, heard: string) {
    match b
    case Written(_, text, _) => heard == text
    case Call(_, _, None, _) => heard == ""
    case Call(_, _, Some(json), _) => json == heard || json == "undefined" + heard
  }

  predicate AllHeard(p: Partial, emitted: seq<Emitted>) {
    forall i | i in p.content :: IsHeard(p.content[i], Heard(emitted, i))
  }

  /** Whenever a block is said to have ended, its content is what was heard of it. */
  predicate EndsAsHeard(emitted: seq<Emitted>) {
    forall k: nat | k < |emitted| && emitted[k].EmitBlockEnd? ::
      emitted[k].content == Heard(emitted[..k], emitted[k].index)
  }

  lemma HeardOneMore(emitted: seq<Emitted>, e: Emitted, i: nat)
    ensures Heard(emitted + [e], i) == HeardNext(Heard(emitted, i), e, i)
  {
    assert (emitted + [e])[..|emitted|] == emitted;
  }

  lemma EndsOneMore(emitted: seq<Emitted>, e: Emitted)
    requires EndsAsHeard(emitted) && (e.EmitBlockEnd? ==> e.content == Heard(emitted, e.index))
    ensures EndsAsHeard(emitted + [e])
  {
    forall k: nat | k < |emitted + [e]| && (emitted + [e])[k].EmitBlockEnd?
      ensures (emitted + [e])[k].content == Heard((emitted + [e])[..k], (emitted + [e])[k].index)
    {
      assert (emitted + [e])[..k] == emitted[..k];
      assert emitted[..|emitted|] == emitted;
    }
  }

  /** What an event does to a block is what its announcement does to what was heard of it. */
  lemma BlockHears(parsers: Parsers, p: Partial, e: ProxyEvent, i: nat, heard: string)
    requires i in p.content ==> IsHeard(p.content[i], heard)
    requires Process(parsers, p, e).Some? && i in Process(parsers, p, e).value.0.content
    ensures
      var (q, more) := Process(parsers, p, e).value;
      |more| <= 1 && IsHeard(q.content[i], if more == [] then heard else HeardNext(heard, more[0], i))
  {
  }

  lemma ProcessHeard(parsers: Parsers, p: Partial, emitted: seq<Emitted>, e: ProxyEvent)
    requires AllHeard(p, emitted) && EndsAsHeard(emitted) && Process(parsers, p, e).Some?
    ensures
      var (q, more) := Process(parsers, p, e).value;
      AllHeard(q, emitted + more) && EndsAsHeard(emitted + more)
  {
    var (q, more) := Process(parsers, p, e).value;
    forall i | i in q.content
      ensures IsHeard(q.content[i], Heard(emitted + more, i))
    {
      BlockHears(parsers, p, e, i, Heard(emitted, i));
      if more == [] {
        assert emitted + more == emitted;
      } else {
        assert more == [more[0]];
        HeardOneMore(emitted, more[0], i);
      }
    }
    if more == [] {
      assert emitted + more == emitted;
    } else {
      assert more == [more[0]];
      EndsOneMore(emitted, more[0]);
    }
  }

  lemma FailHeard(r: Reading)
    requires AllHeard(r.partial, r.emitted) && EndsAsHeard(r.emitted)
    ensures AllHeard(Fail(r).partial, Fail(r).emitted) && EndsAsHeard(Fail(r).emitted)
  {
    forall i | i in r.partial.content
      ensures Heard(r.emitted + [EmitFinish(Error)], i) == Heard(r.emitted, i)
    {
      HeardOneMore(r.emitted, EmitFinish(Error), i);
    }
    EndsOneMore(r.emitted, EmitFinish(Error));
  }

  lemma {:induction false} TakingHeard(parsers: Parsers, payloads: seq<string>)
    ensures
      var r := Fold(Taking(parsers), NOTHING_READ, payloads);
      AllHeard(r.partial, r.emitted) && EndsAsHeard(r.emitted)
  {
    if payloads != [] {
      var r, payload := Fold(Taking(parsers), NOTHING_READ, payloads[..|payloads| - 1]), payloads[|payloads| - 1];
      TakingHeard(parsers, payloads[..|payloads| - 1]);
      if !r.failed {
        FailHeard(r);
        var e := parsers.event(payload);
        if e.Some? && Process(parsers, r.partial, e.value).Some? {
          ProcessHeard(parsers, r.partial, r.emitted, e.value);
        }
      }
    }
  }

  /** Whoever only hears what is passed on has the same text of every block as the message, at the end and at every
      announced end of a block, whatever the text of the stream and wherever it fails. */
  lemma {:induction false} ListenersAgree(parsers: Parsers, text: string, i: nat)
    ensures
      var r := ReadWhole(parsers, text);
      && (i in r.partial.content && r.partial.content[i].Written? ==> r.partial.content[i].text == Heard(r.emitted, i))
      && (forall k: nat | k < |r.emitted| && r.emitted[k].EmitBlockEnd? ::
            r.emitted[k].content == Heard(r.emitted[..k], r.emitted[k].index))
  {
    TakingHeard(parsers, Payloads(CompleteLines(text)));
  }

  // ----- How it ended -----

  function LastFinish(events: seq<ProxyEvent>): (finish: Option<ProxyEvent>)
    ensures finish.Some? ==> finish.value.Finish?
  {
    if events == [] then None
    else if events[|events| - 1].Finish? then Some(events[|events| - 1])
    else LastFinish(events[..|events| - 1])
  }

  /** The reason of the message is that of the last finishing event; while there is none it is pending. */
  lemma {:induction false} ReasonIsTheLast(parsers: Parsers, events: seq<ProxyEvent>)
    requires Replay(parsers, events).Some?
    ensures
      var p, finish := Replay(parsers, events).value, LastFinish(events);
      && p.reason == (if finish.Some? then finish.value.reason else Pending)
      && (finish.Some? && finish.value.reason in {Error, Aborted} ==> p.errorMessage == finish.value.errorMessage)
  {
    if events != [] {
      ReasonIsTheLast(parsers, events[..|events| - 1]);
    }
  }

  /** A reading that fails ends with an error, in the message and in what is passed on; any other has the reason of its
      last finishing event. */
  lemma {:induction false} HowItEnded(parsers: Parsers, text: string)
    ensures
      var r, payloads := ReadWhole(parsers, text), Payloads(CompleteLines(text));
      var events := Accepted(parsers, payloads);
      if |events| < |payloads| then
        r.failed && r.partial.reason == Error && r.emitted != [] && r.emitted[|r.emitted| - 1] == EmitFinish(Error)
      else
        !r.failed && r.partial.reason == if LastFinish(events).Some? then LastFinish(events).value.reason else Pending
  {
    var payloads := Payloads(CompleteLines(text));
    TakingReplays(parsers, payloads);
    ReasonIsTheLast(parsers, Accepted(parsers, payloads));
    FailureShows(parsers, payloads);
  }

  lemma {:induction false} FailureShows(parsers: Parsers, payloads: seq<string>)
    ensures
      var r := Fold(Taking(parsers), NOTHING_READ, payloads);
      r.failed ==> r.partial.reason == Error && r.emitted != [] && r.emitted[|r.emitted| - 1] == EmitFinish(Error)
  {
    if payloads != [] {
      FailureShows(parsers, payloads[..|payloads| - 1]);
    }
  }
}
