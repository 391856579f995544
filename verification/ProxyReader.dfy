/** Reading a proxied stream: its text is split into lines, its lines carry events, and the events rebuild a message. */
module ProxyReader {
  import opened Text
  import opened Folds
  import opened ProxyLines

  datatype BlockKind = TextBlock | ThinkingBlock

  /** A block under construction. A tool call's JSON text is dropped when the call ends. */
  datatype Block =
    | Written(kind: BlockKind, text: string, signature: Option<string>)
    | Call(id: string, name: string, json: Option<string>, arguments: string)

  datatype StopReason = Pending | Stopped | Length | ToolUse | Aborted | Error

  /** Events without the partial message, as the proxy sends them. */
  datatype ProxyEvent =
    | Start
    | BlockStart(index: nat, kind: BlockKind)
    | BlockDelta(index: nat, kind: BlockKind, delta: string)
    | BlockEnd(index: nat, kind: BlockKind, signature: Option<string>)
    | CallStart(index: nat, id: string, name: string)
    | CallDelta(index: nat, delta: string)
    | CallEnd(index: nat, id: string, name: string, arguments: string)
    | Finish(reason: StopReason, errorMessage: Option<string>)

  /** What is passed on. */
  datatype Emitted =
    | EmitStart | EmitBlockStart(index: nat, kind: BlockKind) | EmitDelta(index: nat, kind: BlockKind, delta: string)
    | EmitBlockEnd(index: nat, kind: BlockKind, content: string)
    | EmitCallStart(index: nat) | EmitCallDelta(index: nat, delta: string) | EmitCallEnd(index: nat)
    | EmitFinish(reason: StopReason)

  /** The message so far; its content is a sparse array. */
  datatype Partial = Partial(content: map<nat, Block>, reason: StopReason, errorMessage: Option<string>)

  datatype Reading = Reading(partial: Partial, emitted: seq<Emitted>, failed: bool)

  const NOTHING_READ := Reading(Partial(map[], Pending, None), [], false)

  /** The foreign parsers: an event from its JSON text, if it is well-formed, and arguments from unfinished JSON. */
  datatype Parsers = Parsers(event: string -> Option<ProxyEvent>, arguments: string -> string)

  function Put(p: Partial, i: nat, b: Block): Partial { p.(content := p.content[i := b]) }

  predicate IsWritten(p: Partial, i: nat, kind: BlockKind) {
    i in p.content && p.content[i].Written? && p.content[i].kind == kind
  }

  predicate IsCall(p: Partial, i: nat) { i in p.content && p.content[i].Call? }

  /** The JSON text of a call that has ended is undefined; more text is put after that word. */
  function MoreJson(json: Option<string>, delta: string): string {
    (if json.Some? then json.value else "undefined") + delta
  }

  /** `processProxyEvent`: the new message and what is emitted, or None where it throws. */
  function Process(parsers: Parsers, p: Partial, e: ProxyEvent): Option<(Partial, seq<Emitted>)> {
    match e
    case Start => Some((p, [EmitStart]))
    case BlockStart(i, kind) => Some((Put(p, i, Written(kind, "", None)), [EmitBlockStart(i, kind)]))
    case BlockDelta(i, kind, delta) =>
      if !IsWritten(p, i, kind) then None
      else Some((Put(p, i, p.content[i].(text := p.content[i].text + delta)), [EmitDelta(i, kind, delta)]))
    case BlockEnd(i, kind, signature) =>
      if !IsWritten(p, i, kind) then None
      else Some((Put(p, i, p.content[i].(signature := signature)), [EmitBlockEnd(i, kind, p.content[i].text)]))
    case CallStart(i, id, name) => Some((Put(p, i, Call(id, name, Some(""), "{}")), [EmitCallStart(i)]))
    case CallDelta(i, delta) =>
      if !IsCall(p, i) then None
      else
        var json := MoreJson(p.content[i].json, delta);
        Some((Put(p, i, p.content[i].(json := Some(json), arguments := parsers.arguments(json))), [EmitCallDelta(i, delta)]))
    case CallEnd(i, id, name, arguments) =>
      if !IsCall(p, i) then Some((p, [])) else Some((Put(p, i, Call(id, name, None, arguments)), [EmitCallEnd(i)]))
    case Finish(reason, errorMessage) =>
      Some((p.(reason := reason, errorMessage := if reason.Error? || reason.Aborted? then errorMessage else p.errorMessage),
            [EmitFinish(reason)]))
  }

  /** The `catch`: the message is marked, the error is passed on, and nothing more is read. */
  function Fail(s: Reading): Reading {
    Reading(s.partial.(reason := Error, errorMessage := Some("")), s.emitted + [EmitFinish(Error)], true)
  }

  function Receive(parsers: Parsers, s: Reading, e: ProxyEvent): Reading {
    var r := Process(parsers, s.partial, e);
    if r.Some? then s.(partial := r.value.0, emitted := s.emitted + r.value.1) else Fail(s)
  }

  /** One payload of the stream. */
  function Take(parsers: Parsers, s: Reading, payload: string): Reading {
    if s.failed then s
    else
      var e := parsers.event(payload);
      if e.Some? then Receive(parsers, s, e.value) else Fail(s)
  }

  function Taking(parsers: Parsers): (Reading, string) -> Reading {
    (s, payload) => Take(parsers, s, payload)
  }

  /** What comes of a whole text: of the payloads of its complete lines, one after the other. */
  function ReadWhole(parsers: Parsers, text: string): Reading {
    Fold(Taking(parsers), NOTHING_READ, Payloads(CompleteLines(text)))
  }

  // ----- The reader -----

  class Reader {
    const parsers: Parsers
    var buffer: string
    var partial: Partial
    var emitted: seq<Emitted>
    var failed: bool

    function View(): Reading
      reads this
    {
      Reading(partial, emitted, failed)
    }

    constructor (parsers: Parsers)
      ensures this.parsers == parsers && buffer == "" && View() == NOTHING_READ
    {
      this.parsers := parsers;
      buffer, partial, emitted, failed := "", Partial(map[], Pending, None), [], false;
    }

    method ProcessProxyEvent(e: ProxyEvent) returns (ok: bool)
      modifies `partial, `emitted
      ensures ok == Process(parsers, old(partial), e).Some?
      ensures ok ==> partial == Process(parsers, old(partial), e).value.0
                     && emitted == old(emitted) + Process(parsers, old(partial), e).value.1
      ensures !ok ==> partial == old(partial) && emitted == old(emitted)
    {
      ok := true;
      match e {
        case Start => emitted := emitted + [EmitStart];
        case BlockStart(i, kind) =>
          partial := Put(partial, i, Written(kind, "", None));
          emitted := emitted + [EmitBlockStart(i, kind)];
        case BlockDelta(i, kind, delta) =>
          if !IsWritten(partial, i, kind) {
            return false;
          }
          partial := Put(partial, i, partial.content[i].(text := partial.content[i].text + delta));
          emitted := emitted + [EmitDelta(i, kind, delta)];
        case BlockEnd(i, kind, signature) =>
          if !IsWritten(partial, i, kind) {
            return false;
          }
          partial := Put(partial, i, partial.content[i].(signature := signature));
          emitted := emitted + [EmitBlockEnd(i, kind, partial.content[i].text)];
        case CallStart(i, id, name) =>
          partial := Put(partial, i, Call(id, name, Some(""), "{}"));
          emitted := emitted + [EmitCallStart(i)];
        case CallDelta(i, delta) =>
          if !IsCall(partial, i) {
            return false;
          }
          var json := MoreJson(partial.content[i].json, delta);
          partial := Put(partial, i, partial.content[i].(json := Some(json), arguments := parsers.arguments(json)));
          emitted := emitted + [EmitCallDelta(i, delta)];
        case CallEnd(i, id, name, arguments) =>
          if IsCall(partial, i) {
            partial := Put(partial, i, Call(id, name, None, arguments));
            emitted := emitted + [EmitCallEnd(i)];
          }
        case Finish(reason, errorMessage) =>
          partial := partial.(reason := reason);
          if reason.Error? || reason.Aborted? {
            partial := partial.(errorMessage := errorMessage);
          }
          emitted := emitted + [EmitFinish(reason)];
      }
    }

    method FailReading()
      modifies `partial, `emitted, `failed
      ensures View() == Fail(old(View()))
    {
      partial := partial.(reason := Error, errorMessage := Some(""));
      emitted := emitted + [EmitFinish(Error)];
      failed := true;
    }

    /** One line, of which only the payload counts. */
    method ReadLine(line: string)
      requires !failed
      modifies `partial, `emitted, `failed
      ensures View() == Fold(Taking(parsers), old(View()), Payloads([line]))
    {
      var payload := Payload(line);
      OnePayload(parsers, View(), line);
      if payload.None? {
        return;
      }
      var e := parsers.event(payload.value);
      if e.None? {
        FailReading();
        return;
      }
      var ok := ProcessProxyEvent(e.value);
      if !ok {
        FailReading();
      }
    }

    /** Lines are read until one fails. */
    method ReadLines(lines: seq<string>)
      requires !failed
      modifies `partial, `emitted, `failed
      ensures View() == Fold(Taking(parsers), old(View()), Payloads(lines))
    {
      ghost var start := View();
      var i := 0;
      while i < |lines| && !failed
        invariant 0 <= i <= |lines| && View() == Fold(Taking(parsers), start, Payloads(lines[..i]))
      {
        LineByLine(parsers, start, lines, i);
        ReadLine(lines[i]);
        i := i + 1;
      }
      if failed {
        RestIgnored(parsers, start, lines[..i], lines[i..]);
        assert lines[..i] + lines[i..] == lines;
      } else {
        assert lines[..|lines|] == lines;
      }
    }

    /** A chunk of decoded text arrives. */
    method ReadChunk(chunk: string)
      requires !failed
      modifies `buffer, `partial, `emitted, `failed
      ensures View() == Fold(Taking(parsers), old(View()), Payloads(CompleteLines(old(buffer) + chunk)))
      ensures buffer == Remainder(old(buffer) + chunk)
    {
      var text := buffer + chunk;
      buffer := Remainder(text);
      ReadLines(CompleteLines(text));
    }

    /** The reader goes on from what it has read before. */
    method ReadOn(ghost text: string, chunk: string)
      requires !failed && View() == ReadWhole(parsers, text) && buffer == Remainder(text)
      modifies `buffer, `partial, `emitted, `failed
      ensures View() == ReadWhole(parsers, text + chunk) && buffer == Remainder(text + chunk)
    {
      ChunkAfterChunks(parsers, text, chunk);
      SplitOn(text, chunk);
      ReadChunk(chunk);
    }
  }

  lemma {:induction false} FoldLines(parsers: Parsers, start: Reading, done: seq<string>, rest: seq<string>)
    ensures Fold(Taking(parsers), start, Payloads(done + rest)) ==
              Fold(Taking(parsers), Fold(Taking(parsers), start, Payloads(done)), Payloads(rest))
  {
    PayloadsAppend(done, rest);
    FoldAppend(Taking(parsers), start, Payloads(done), Payloads(rest));
  }

  lemma {:induction false} LineByLine(parsers: Parsers, start: Reading, lines: seq<string>, i: nat)
    requires i < |lines|
    ensures Fold(Taking(parsers), start, Payloads(lines[..i + 1])) ==
              Fold(Taking(parsers), Fold(Taking(parsers), start, Payloads(lines[..i])), Payloads([lines[i]]))
  {
    assert lines[..i + 1] == lines[..i] + [lines[i]];
    FoldLines(parsers, start, lines[..i], [lines[i]]);
  }

  lemma {:induction false} RestIgnored(parsers: Parsers, start: Reading, done: seq<string>, rest: seq<string>)
    requires Fold(Taking(parsers), start, Payloads(done)).failed
    ensures Fold(Taking(parsers), start, Payloads(done + rest)) == Fold(Taking(parsers), start, Payloads(done))
  {
    FoldLines(parsers, start, done, rest);
    FailedStays(parsers, Fold(Taking(parsers), start, Payloads(done)), Payloads(rest));
  }

  lemma OnePayload(parsers: Parsers, s: Reading, line: string)
    ensures Fold(Taking(parsers), s, Payloads([line])) ==
              if Payload(line).Some? then Take(parsers, s, Payload(line).value) else s
  {
    if Payload(line).Some? {
      assert Payloads([line]) == [] + [Payload(line).value];
      FoldOne(Taking(parsers), s, [], Payload(line).value);
    }
  }

  lemma {:induction false} FailedStays(parsers: Parsers, s: Reading, payloads: seq<string>)
    requires s.failed
    ensures Fold(Taking(parsers), s, payloads) == s
  {
    if payloads != [] {
      FailedStays(parsers, s, payloads[..|payloads| - 1]);
    }
  }

  lemma ChunkAfterChunks(parsers: Parsers, text: string, chunk: string)
    ensures ReadWhole(parsers, text + chunk) ==
              Fold(Taking(parsers), ReadWhole(parsers, text), Payloads(CompleteLines(Remainder(text) + chunk)))
  {
    SplitOn(text, chunk);
    PayloadsAppend(CompleteLines(text), CompleteLines(Remainder(text) + chunk));
    FoldAppend(Taking(parsers), NOTHING_READ,
               Payloads(CompleteLines(text)), Payloads(CompleteLines(Remainder(text) + chunk)));
  }

  /** The read loop. What is emitted and the message that is rebuilt depend on the text alone, not on how it is cut into
      chunks; an incomplete last line is dropped. */
  method ReadAll(parsers: Parsers, chunks: seq<string>) returns (r: Reading)
    ensures r == ReadWhole(parsers, Concatenated(chunks))
  {
    var reader := new Reader(parsers);
    var i := 0;
    ghost var text := "";
    while i < |chunks| && !reader.failed
      invariant 0 <= i <= |chunks| && fresh(reader) && reader.parsers == parsers
      invariant text == Concatenated(chunks[..i])
      invariant reader.View() == ReadWhole(parsers, text) && (!reader.failed ==> reader.buffer == Remainder(text))
    {
      assert chunks[..i + 1][..i] == chunks[..i];
      reader.ReadOn(text, chunks[i]);
      text := text + chunks[i];
      i := i + 1;
    }
    r := reader.View();
    if i < |chunks| {
      FailedWhole(parsers, chunks, i);
    }
    assert chunks[..|chunks|] == chunks;
  }

  lemma {:induction false} FailedWhole(parsers: Parsers, chunks: seq<string>, i: nat)
    requires i <= |chunks| && ReadWhole(parsers, Concatenated(chunks[..i])).failed
    ensures ReadWhole(parsers, Concatenated(chunks)) == ReadWhole(parsers, Concatenated(chunks[..i]))
    decreases |chunks|
  {
    if i == |chunks| {
      assert chunks[..i] == chunks;
    } else {
      var init := chunks[..|chunks| - 1];
      assert init[..i] == chunks[..i];
      FailedWhole(parsers, init, i);
      ChunkAfterChunks(parsers, Concatenated(init), chunks[|chunks| - 1]);
      FailedStays(parsers, ReadWhole(parsers, Concatenated(init)),
                  Payloads(CompleteLines(Remainder(Concatenated(init)) + chunks[|chunks| - 1])));
    }
  }

  // ----- The blocks of the message -----

  /** The message after a list of events, all of which have to be accepted. */
  function Replay(parsers: Parsers, events: seq<ProxyEvent>): Option<Partial> {
    if events == [] then Some(NOTHING_READ.partial)
    else
      var before := Replay(parsers, events[..|events| - 1]);
      if before.None? then None
      else
        var r := Process(parsers, before.value, events[|events| - 1]);
        if r.Some? then Some(r.value.0) else None
  }

  predicate For(e: ProxyEvent, i: nat) { !e.Start? && !e.Finish? && e.index == i }

  predicate Starts(e: ProxyEvent, i: nat) { (e.BlockStart? || e.CallStart?) && e.index == i }

  /** The last event that starts block `i`. */
  function LastStart(events: seq<ProxyEvent>, i: nat): Option<ProxyEvent> {
    if events == [] then None
    else if Starts(events[|events| - 1], i) then Some(events[|events| - 1])
    else LastStart(events[..|events| - 1], i)
  }

  /** The deltas for block `i` since its last start, put together. */
  function DeltasSince(events: seq<ProxyEvent>, i: nat): string {
    if events == [] || Starts(events[|events| - 1], i) then ""
    else
      var before := DeltasSince(events[..|events| - 1], i);
      var e := events[|events| - 1];
      if e.BlockDelta? && e.index == i then before + e.delta else before
  }

  function Lookup(p: Partial, i: nat): Option<Block> {
    if i in p.content then Some(p.content[i]) else None
  }

  /** After any accepted events a block is of the kind of its last start, and a text or thinking block is the
      concatenation of its deltas since then. */
  lemma {:induction false} BlockIsItsDeltas(parsers: Parsers, events: seq<ProxyEvent>, i: nat)
    requires Replay(parsers, events).Some?
    ensures
      var block := Lookup(Replay(parsers, events).value, i);
      match LastStart(events, i)
      case None => block.None?
      case Some(e) =>
        if e.BlockStart? then
          block.Some? && block.value.Written? && block.value.kind == e.kind && block.value.text == DeltasSince(events, i)
        else block.Some? && block.value.Call?
  {
    if events != [] {
      BlockIsItsDeltas(parsers, events[..|events| - 1], i);
    }
  }

  function Only(events: seq<ProxyEvent>, i: nat): seq<ProxyEvent> {
    if events == [] then []
    else
      var before := Only(events[..|events| - 1], i);
      if For(events[|events| - 1], i) then before + [events[|events| - 1]] else before
  }

  lemma ReplayNext(parsers: Parsers, events: seq<ProxyEvent>, e: ProxyEvent)
    ensures Replay(parsers, events + [e]) ==
              if Replay(parsers, events).None? then None
              else
                var r := Process(parsers, Replay(parsers, events).value, e);
                if r.Some? then Some(r.value.0) else None
  {
    assert (events + [e])[..|events|] == events;
  }

  /** An event for another block, or for none, leaves the block alone. */
  lemma OtherBlocksStay(parsers: Parsers, p: Partial, e: ProxyEvent, i: nat)
    requires !For(e, i) && Process(parsers, p, e).Some?
    ensures Lookup(Process(parsers, p, e).value.0, i) == Lookup(p, i)
  {
  }

  /** What an event does to its block depends on that block alone. */
  lemma OwnBlockDecides(parsers: Parsers, p: Partial, q: Partial, e: ProxyEvent, i: nat)
    requires For(e, i) && Lookup(p, i) == Lookup(q, i) && Process(parsers, p, e).Some?
    ensures Process(parsers, q, e).Some?
    ensures Lookup(Process(parsers, p, e).value.0, i) == Lookup(Process(parsers, q, e).value.0, i)
  {
  }

  /** A block is what the events for it alone would have made it: events for other blocks do not affect it. */
  lemma {:induction false} OthersDoNotMatter(parsers: Parsers, events: seq<ProxyEvent>, i: nat)
    requires Replay(parsers, events).Some?
    ensures Replay(parsers, Only(events, i)).Some?
    ensures Lookup(Replay(parsers, Only(events, i)).value, i) == Lookup(Replay(parsers, events).value, i)
  {
    if events != [] {
      var init, e := events[..|events| - 1], events[|events| - 1];
      OthersDoNotMatter(parsers, init, i);
      var p, q := Replay(parsers, init).value, Replay(parsers, Only(init, i)).value;
      if For(e, i) {
        OwnBlockDecides(parsers, p, q, e, i);
        ReplayNext(parsers, Only(init, i), e);
      } else {
        OtherBlocksStay(parsers, p, e, i);
      }
    }
  }

  /** The payload parses, and its event is not refused after the others. */
  predicate CanTake(parsers: Parsers, events: seq<ProxyEvent>, payload: string) {
    var e, p := parsers.event(payload), Replay(parsers, events);
    e.Some? && p.Some? && Process(parsers, p.value, e.value).Some?
  }

  /** The events of the payloads up to the first that does not parse or that is refused. */
  function Accepted(parsers: Parsers, payloads: seq<string>): (events: seq<ProxyEvent>)
    ensures |events| <= |payloads|
  {
    if payloads == [] then []
    else
      var init, last := payloads[..|payloads| - 1], payloads[|payloads| - 1];
      var before := Accepted(parsers, init);
      if |before| == |init| && CanTake(parsers, before, last) then before + [parsers.event(last).value] else before
  }

  /** The accepted events are those of the first payloads. */
  lemma {:induction false} AcceptedAreFirst(parsers: Parsers, payloads: seq<string>, k: nat)
    requires k < |Accepted(parsers, payloads)|
    ensures parsers.event(payloads[k]) == Some(Accepted(parsers, payloads)[k])
  {
    var init := payloads[..|payloads| - 1];
    if k < |Accepted(parsers, init)| {
      AcceptedAreFirst(parsers, init, k);
    }
  }

  /** The next payload, if there is one, does not parse or is refused. */
  lemma {:induction false} AcceptedIsLongest(parsers: Parsers, payloads: seq<string>)
    requires |Accepted(parsers, payloads)| < |payloads|
    ensures !CanTake(parsers, Accepted(parsers, payloads), payloads[|Accepted(parsers, payloads)|])
  {
    var init := payloads[..|payloads| - 1];
    if |Accepted(parsers, init)| < |init| {
      AcceptedIsLongest(parsers, init);
    }
  }

  lemma {:induction false} TakingReplays(parsers: Parsers, payloads: seq<string>)
    ensures
      var r, events := Fold(Taking(parsers), NOTHING_READ, payloads), Accepted(parsers, payloads);
      && (r.failed <==> |events| < |payloads|)
      && Replay(parsers, events).Some? && Replay(parsers, events).value.content == r.partial.content
      && (!r.failed ==> Replay(parsers, events).value == r.partial)
  {
    if payloads != [] {
      var init, last := payloads[..|payloads| - 1], parsers.event(payloads[|payloads| - 1]);
      TakingReplays(parsers, init);
      if last.Some? {
        ReplayNext(parsers, Accepted(parsers, init), last.value);
      }
    }
  }

  /** So the blocks read from any text, in whatever chunks, are those of the events of its complete lines up to the first
      failure, if there is one, and its text and thinking blocks are the concatenations of their deltas. */
  lemma ReadBlocks(parsers: Parsers, text: string, i: nat)
    ensures
      var r, payloads := ReadWhole(parsers, text), Payloads(CompleteLines(text));
      var events := Accepted(parsers, payloads);
      && (r.failed <==> |events| < |payloads|)
      && match LastStart(events, i)
         case None => i !in r.partial.content
         case Some(e) =>
           i in r.partial.content
           && if e.BlockStart? then IsWritten(r.partial, i, e.kind) && r.partial.content[i].text == DeltasSince(events, i)
              else r.partial.content[i].Call?
  {
    TakingReplays(parsers, Payloads(CompleteLines(text)));
    BlockIsItsDeltas(parsers, Accepted(parsers, Payloads(CompleteLines(text))), i);
  }
}
