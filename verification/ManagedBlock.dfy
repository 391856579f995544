/** The managed block that Forge keeps inside a document it shares with its human editors. */
module ManagedBlock {
  import opened Text

  const MARKER_PREFIX := "<!-- forge-runtime:"

  function BeginMark(marker: string): string { MARKER_PREFIX + marker + ":begin -->" }

  function EndMark(marker: string): string { MARKER_PREFIX + marker + ":end -->" }

  datatype Rendered = Document(text: string) | EmptyBody | ForeignMark | BrokenBlock

  function Block(begin: string, end: string, body: string): string {
    begin + "\n" + Trim(body) + "\n" + end
  }

  predicate EndsWithNewline(s: string) { s != "" && s[|s| - 1] == '\n' }

  function RenderManagedDocument(marker: string, body: string, existing: Option<string>): Rendered {
    RenderBetween(BeginMark(marker), EndMark(marker), body, existing)
  }

  function RenderBetween(begin: string, end: string, body: string, existing: Option<string>): Rendered {
    if Blank(body) then EmptyBody
    else if Contains(body, MARKER_PREFIX) then ForeignMark
    else if existing.None? || existing.value == "" then Document(Block(begin, end, body) + "\n")
    else PlaceBlock(begin, end, Block(begin, end, body), existing.value)
  }

  function PlaceBlock(begin: string, end: string, block: string, doc: string): Rendered {
    var b := IndexOf(doc, begin);
    var e := IndexOf(doc, end);
    if b == -1 && e == -1 then
      Document(doc + (if EndsWithNewline(doc) then "" else "\n") + block + "\n")
    else if b == -1 || e < b
            || IndexOf(doc, begin, b + |begin|) != -1
            || IndexOf(doc, end, e + |end|) != -1 then BrokenBlock
    else
      Document(doc[..b] + block + doc[e + |end|..])
  }

  // ----- The shape of a pair of marks -----

  /** One mark: it starts with the reserved prefix, holds no second '<' and no line break. */
  ghost predicate Mark(m: string) {
    && m != "" && m[0] == '<' && '\n' !in m
    && (forall k | 0 < k < |m| :: m[k] != '<')
    && MARKER_PREFIX <= m
  }

  ghost predicate Marks(begin: string, end: string) {
    Mark(begin) && Mark(end) && !(begin <= end) && !(end <= begin)
  }

  /** Marker names are fixed words (CONTEXT, ADR, HANDOFF): no angle bracket, no line break. */
  predicate IsMarker(marker: string) {
    '<' !in marker && '\n' !in marker
  }

  lemma ForgeMarks(marker: string)
    requires IsMarker(marker)
    ensures Marks(BeginMark(marker), EndMark(marker))
  {
    var p := MARKER_PREFIX + marker;
    var b, e := BeginMark(marker), EndMark(marker);
    assert b == p + ":begin -->" && e == p + ":end -->";
    assert b[|p| + 1] == 'b' && e[|p| + 1] == 'e';
    assert b[..|MARKER_PREFIX|] == MARKER_PREFIX && e[..|MARKER_PREFIX|] == MARKER_PREFIX;
  }

  // ----- Where a mark can stand -----

  lemma CharsOf(hay: string, needle: string, i: nat)
    requires At(hay, needle, i)
    ensures forall k | i <= k < i + |needle| :: hay[k] == needle[k - i]
  {
    forall k | i <= k < i + |needle|
      ensures hay[k] == needle[k - i]
    {
      assert hay[i..i + |needle|][k - i] == hay[k];
    }
  }

  /** An occurrence inside a part is one in the whole, and one in the whole that lies inside a part is one in it. */
  lemma InPart(before: string, part: string, after: string, needle: string, i: nat)
    ensures At(part, needle, i) ==> At(before + part + after, needle, |before| + i)
    ensures At(before + part + after, needle, |before| + i) && i + |needle| <= |part| ==> At(part, needle, i)
  {
    var whole := before + part + after;
    if i + |needle| <= |part| {
      assert whole[|before| + i..|before| + i + |needle|] == part[i..i + |needle|];
    }
  }

  /** A mark has no line break, so it cannot reach across one. */
  lemma AcrossNewline(s: string, t: string, mark: string, i: nat)
    requires Mark(mark)
    ensures At(s + "\n" + t, mark, i) <==> At(s, mark, i) || (|s| < i && At(t, mark, i - |s| - 1))
  {
    var d := s + "\n" + t;
    assert d[|s|] == '\n';
    if At(d, mark, i) {
      CharsOf(d, mark, i);
    }
    assert d == "" + s + ("\n" + t) && d == (s + "\n") + t + "";
    InPart("", s, "\n" + t, mark, i);
    if |s| < i {
      InPart(s + "\n", t, "", mark, i - |s| - 1);
    }
  }

  /** A mark's only '<' is its first character, so it cannot reach into a text that starts with '<'. */
  lemma AcrossAngle(s: string, t: string, mark: string, i: nat)
    requires Mark(mark) && t != "" && t[0] == '<'
    ensures At(s + t, mark, i) <==> At(s, mark, i) || (|s| <= i && At(t, mark, i - |s|))
  {
    var d := s + t;
    assert d[|s|] == '<';
    if At(d, mark, i) {
      CharsOf(d, mark, i);
    }
    assert d == "" + s + t && d == s + t + "";
    InPart("", s, t, mark, i);
    if |s| <= i {
      InPart(s, t, "", mark, i - |s|);
    }
  }

  ghost predicate Never(doc: string, mark: string) {
    forall j: nat :: !At(doc, mark, j)
  }

  ghost predicate Unmarked(begin: string, end: string, doc: string) {
    Never(doc, begin) && Never(doc, end)
  }

  predicate AcceptedBody(body: string) {
    !Blank(body) && !Contains(body, MARKER_PREFIX)
  }

  lemma PrefixAt(hay: string, needle: string, prefix: string, i: nat)
    requires At(hay, needle, i) && prefix <= needle
    ensures At(hay, prefix, i)
  {
    assert hay[i..i + |prefix|] == hay[i..i + |needle|][..|prefix|];
  }

  lemma InSlice(hay: string, a: nat, b: nat, needle: string, i: nat)
    requires a <= b <= |hay| && At(hay[a..b], needle, i)
    ensures At(hay, needle, a + i)
  {
    var part := hay[a..b];
    CharsOf(part, needle, i);
    var found := hay[a + i..a + i + |needle|];
    assert |found| == |needle| && forall k | 0 <= k < |needle| :: found[k] == part[i + k] == needle[k];
  }

  /** A trimmed, accepted body holds no mark. */
  lemma {:induction false} BodyHoldsNoMark(body: string, mark: string)
    requires AcceptedBody(body) && Mark(mark)
    ensures Never(Trim(body), mark)
  {
    var t := Trim(body);
    var a: nat, b: nat :| a <= b <= |body| && t == body[a..b];
    forall i: nat
      ensures !At(t, mark, i)
    {
      if At(t, mark, i) {
        PrefixAt(t, mark, MARKER_PREFIX, i);
        InSlice(body, a, b, MARKER_PREFIX, i);
      }
    }
  }

  lemma PrefixOf(doc: string, short: string, long: string, i: nat)
    requires |short| <= |long| && At(doc, short, i) && At(doc, long, i)
    ensures short <= long
  {
    assert long[..|short|] == doc[i..i + |long|][..|short|] == doc[i..i + |short|];
  }

  /** The marks of `mark1 + after`: the one it starts with, and those of `after`. */
  lemma MarksAfter(mark1: string, after: string, mark: string, i: nat)
    requires Mark(mark1) && Mark(mark) && (mark == mark1 || (!(mark <= mark1) && !(mark1 <= mark)))
    ensures At(mark1 + after, mark, i) <==>
            (i == 0 && mark == mark1) || (|mark1| <= i && At(after, mark, i - |mark1|))
  {
    var d := mark1 + after;
    assert forall k | 0 < k < |mark1| :: d[k] != '<';
    if At(d, mark, i) {
      CharsOf(d, mark, i);
      assert d[i] == '<';
      assert d[0..|mark1|] == mark1;
      if i == 0 && |mark| <= |mark1| { PrefixOf(d, mark, mark1, 0); }
      if i == 0 && |mark1| <= |mark| { PrefixOf(d, mark1, mark, 0); }
    }
    assert d == mark1 + after + "" && d[0..|mark1|] == mark1;
    if |mark1| <= i {
      InPart(mark1, after, "", mark, i - |mark1|);
    }
  }

  /** The marks from a mark-free text on: the end mark, and those after it. */
  lemma MarksFromBody(text: string, end: string, after: string, mark: string, i: nat)
    requires Mark(end) && Mark(mark) && (mark == end || (!(mark <= end) && !(end <= mark))) && Never(text, mark)
    ensures At(text + "\n" + (end + after), mark, i) <==>
            || (mark == end && i == |text| + 1)
            || (|text| + 1 + |end| <= i && At(after, mark, i - |text| - 1 - |end|))
  {
    AcrossNewline(text, end + after, mark, i);
    if |text| < i {
      MarksAfter(end, after, mark, i - |text| - 1);
    }
  }

  /** The marks from the begin mark on. */
  lemma MarksFromBegin(begin: string, inner: string, mark: string, i: nat)
    requires Mark(begin) && Mark(mark) && (mark == begin || (!(mark <= begin) && !(begin <= mark)))
    ensures At(begin + ("\n" + inner), mark, i) <==>
            (mark == begin && i == 0) || (|begin| < i && At(inner, mark, i - |begin| - 1))
  {
    MarksAfter(begin, "\n" + inner, mark, i);
    if |begin| <= i {
      assert "\n" + inner == "" + "\n" + inner;
      AcrossNewline("", inner, mark, i - |begin|);
    }
  }

  /** A document with a block in it, grouped the way the searches read it. */
  function Nest(begin: string, end: string, text: string, before: string, after: string): string {
    before + (begin + ("\n" + (text + "\n" + (end + after))))
  }

  lemma Assoc(a: string, b: string, c: string)
    ensures (a + b) + c == a + (b + c)
  {
  }

  lemma NestIsBlock(begin: string, end: string, body: string, before: string, after: string)
    ensures Nest(begin, end, Trim(body), before, after) == before + Block(begin, end, body) + after
    ensures Nest(begin, end, Trim(body), before, after)
            == before + begin + ("\n" + Trim(body) + "\n") + end + after
  {
    var t, tail := Trim(body), end + after;
    var head := begin + "\n" + t + "\n";
    Assoc(before, head + end, after);
    Assoc(head, end, after);
    Assoc(begin + "\n" + t, "\n", tail);
    Assoc(begin + "\n", t, "\n" + tail);
    Assoc(begin, "\n", t + ("\n" + tail));
    Assoc(t, "\n", tail);
    var inner := "\n" + t + "\n";
    Assoc(before + begin + inner, end, after);
    Assoc(before + begin, inner, tail);
    Assoc(before, begin, inner + tail);
    Assoc("\n" + t, "\n", tail);
    Assoc("\n", t, "\n" + tail);
  }

  /** The marks of a document with a freshly written block: those around the block, and the block's two. */
  lemma MarksAroundBlock(begin: string, end: string, text: string, before: string, after: string,
                         mark: string, i: nat)
    requires Marks(begin, end) && (mark == begin || mark == end)
    requires Never(text, mark) && Never(before, mark) && Never(after, mark)
    ensures At(Nest(begin, end, text, before, after), mark, i) <==>
            i == if mark == begin then |before| else |before| + |begin| + |text| + 2
  {
    var inner := text + "\n" + (end + after);
    var rest := begin + ("\n" + inner);
    AcrossAngle(before, rest, mark, i);
    if |before| <= i {
      MarksFromBegin(begin, inner, mark, i - |before|);
      if |before| + |begin| < i {
        MarksFromBody(text, end, after, mark, i - |before| - |begin| - 1);
      }
    }
  }

  // ----- Reference view: a document is text before the block, the block's inside, and text after it -----

  ghost predicate Once(doc: string, mark: string, i: nat) {
    At(doc, mark, i) && forall j: nat :: At(doc, mark, j) ==> j == i
  }

  /** `doc` is `before`, the begin mark, `inner`, the end mark, `after`, and holds neither mark again. */
  ghost predicate Shows(begin: string, end: string, doc: string, before: string, inner: string, after: string) {
    var b, e := |before|, |before| + |begin| + |inner|;
    && e + |end| <= |doc|
    && before == doc[..b] && inner == doc[b + |begin|..e] && after == doc[e + |end|..]
    && Once(doc, begin, b) && Once(doc, end, e)
  }

  lemma {:induction false} FreshBlockShows(begin: string, end: string, body: string, before: string, after: string)
    requires Marks(begin, end) && AcceptedBody(body)
    requires Unmarked(begin, end, before) && Unmarked(begin, end, after)
    ensures Shows(begin, end, before + Block(begin, end, body) + after, before, "\n" + Trim(body) + "\n", after)
  {
    NestIsBlock(begin, end, body, before, after);
    var inner := "\n" + Trim(body) + "\n";
    var doc := Nest(begin, end, Trim(body), before, after);
    Parts(before, begin, inner, end, after);
    BodyHoldsNoMark(body, begin);
    BodyHoldsNoMark(body, end);
    forall i: nat
      ensures At(doc, begin, i) <==> i == |before|
      ensures At(doc, end, i) <==> i == |before| + |begin| + |Trim(body)| + 2
    {
      MarksAroundBlock(begin, end, Trim(body), before, after, begin, i);
      MarksAroundBlock(begin, end, Trim(body), before, after, end, i);
    }
  }

  lemma Parts(before: string, begin: string, inner: string, end: string, after: string)
    ensures
      var doc := before + begin + inner + end + after;
      var b, e := |before|, |before| + |begin| + |inner|;
      before == doc[..b] && inner == doc[b + |begin|..e] && after == doc[e + |end|..]
  {
  }

  lemma SliceUnmarked(doc: string, a: nat, b: nat, mark: string, at: nat)
    requires a <= b <= |doc| && Once(doc, mark, at) && !(a <= at && at + |mark| <= b)
    ensures Never(doc[a..b], mark)
  {
    forall i: nat
      ensures !At(doc[a..b], mark, i)
    {
      if At(doc[a..b], mark, i) {
        InSlice(doc, a, b, mark, i);
      }
    }
  }

  lemma ShownTextIsUnmarked(begin: string, end: string, doc: string, before: string, inner: string, after: string)
    requires Marks(begin, end) && Shows(begin, end, doc, before, inner, after)
    ensures Unmarked(begin, end, before) && Unmarked(begin, end, after)
  {
    var b, e, a := |before|, |before| + |begin| + |inner|, |doc| - |after|;
    assert before == doc[0..b] && after == doc[a..|doc|];
    SliceUnmarked(doc, 0, b, begin, b);
    SliceUnmarked(doc, 0, b, end, e);
    SliceUnmarked(doc, a, |doc|, begin, b);
    SliceUnmarked(doc, a, |doc|, end, e);
  }

  // ----- What rendering does to each kind of document -----

  /** The text that surrounds the block once a document is rendered: what the renderer must leave alone. */
  ghost predicate Surrounds(begin: string, end: string, existing: Option<string>, before: string, after: string) {
    if existing.None? || existing.value == "" then
      before == "" && after == "\n"
    else if Unmarked(begin, end, existing.value) then
      before == existing.value + (if EndsWithNewline(existing.value) then "" else "\n") && after == "\n"
    else
      exists inner :: Shows(begin, end, existing.value, before, inner, after)
  }

  lemma SurroundingTextIsUnmarked(begin: string, end: string, existing: Option<string>, before: string, after: string)
    requires Marks(begin, end) && Surrounds(begin, end, existing, before, after)
    ensures Unmarked(begin, end, before) && Unmarked(begin, end, after)
  {
    if existing.Some? && existing.value != "" && !Unmarked(begin, end, existing.value) {
      var inner :| Shows(begin, end, existing.value, before, inner, after);
      ShownTextIsUnmarked(begin, end, existing.value, before, inner, after);
    } else {
      var doc := if existing.None? then "" else existing.value;
      forall i: nat, m | m == begin || m == end
        ensures !At(doc + "\n", m, i) && !At("\n", m, i)
      {
        AcrossNewline(doc, "", m, i);
        assert doc + "\n" + "" == doc + "\n";
      }
    }
  }

  lemma FindOnce(doc: string, mark: string, i: nat)
    requires Once(doc, mark, i)
    ensures IndexOf(doc, mark) == i
    ensures mark != "" ==> IndexOf(doc, mark, i + |mark|) == -1
  {
  }

  /** Searching a document that shows one block finds that block. */
  lemma RenderReplaces(begin: string, end: string, block: string,
                       doc: string, before: string, inner: string, after: string)
    requires Marks(begin, end) && Shows(begin, end, doc, before, inner, after)
    ensures PlaceBlock(begin, end, block, doc) == Document(before + block + after)
  {
    FindOnce(doc, begin, |before|);
    FindOnce(doc, end, |before| + |begin| + |inner|);
  }

  lemma ShownSurrounds(begin: string, end: string, doc: string, before: string, inner: string, after: string)
    requires Marks(begin, end) && Shows(begin, end, doc, before, inner, after)
    ensures doc != "" && Surrounds(begin, end, Some(doc), before, after)
  {
    assert At(doc, begin, |before|);
  }

  /** Two marks of a pair never overlap. */
  lemma NoOverlap(doc: string, mark1: string, mark2: string, i: nat, j: nat)
    requires Mark(mark1) && Mark(mark2) && At(doc, mark1, i) && At(doc, mark2, j)
    ensures j <= i || i + |mark1| <= j
  {
    CharsOf(doc, mark1, i);
    CharsOf(doc, mark2, j);
    assert doc[j] == '<';
  }

  lemma MarksDiffer(doc: string, begin: string, end: string, i: nat)
    requires Marks(begin, end) && At(doc, begin, i)
    ensures !At(doc, end, i)
  {
    if At(doc, end, i) {
      if |begin| <= |end| { PrefixOf(doc, begin, end, i); } else { PrefixOf(doc, end, begin, i); }
    }
  }

  /** A mark found once and not found again after it stands nowhere else. */
  lemma FoundOnce(doc: string, mark: string, i: nat)
    requires Mark(mark) && IndexOf(doc, mark) == i && IndexOf(doc, mark, i + |mark|) == -1
    ensures Once(doc, mark, i)
  {
    forall k: nat | At(doc, mark, k)
      ensures k == i
    {
      NoOverlap(doc, mark, mark, i, k);
    }
  }

  lemma ShowsAt(begin: string, end: string, doc: string, b: nat, e: nat)
      returns (before: string, inner: string, after: string)
    requires Marks(begin, end) && Once(doc, begin, b) && Once(doc, end, e) && b <= e
    ensures Shows(begin, end, doc, before, inner, after)
  {
    MarksDiffer(doc, begin, end, b);
    NoOverlap(doc, begin, end, b, e);
    before, inner, after := doc[..b], doc[b + |begin|..e], doc[e + |end|..];
  }

  /** A document whose block is rewritten in place shows exactly one block. */
  lemma ReplacedDocumentShows(begin: string, end: string, block: string, doc: string)
      returns (before: string, inner: string, after: string)
    requires Marks(begin, end) && !Unmarked(begin, end, doc)
    requires PlaceBlock(begin, end, block, doc).Document?
    ensures Shows(begin, end, doc, before, inner, after)
  {
    var b, e := IndexOf(doc, begin), IndexOf(doc, end);
    FoundOnce(doc, begin, b);
    FoundOnce(doc, end, e);
    before, inner, after := ShowsAt(begin, end, doc, b, e);
  }

  /** Rendering an accepted body writes the block between the two texts that surround it. */
  lemma RenderWrites(begin: string, end: string, body: string, existing: Option<string>,
                     before: string, after: string)
    requires Marks(begin, end) && AcceptedBody(body) && Surrounds(begin, end, existing, before, after)
    ensures RenderBetween(begin, end, body, existing) == Document(before + Block(begin, end, body) + after)
  {
    if existing.None? || existing.value == "" {
      assert "" + Block(begin, end, body) + "\n" == Block(begin, end, body) + "\n";
    } else {
      PlaceWrites(begin, end, Block(begin, end, body), existing.value, before, after);
    }
  }

  lemma PlaceWrites(begin: string, end: string, block: string, doc: string, before: string, after: string)
    requires Marks(begin, end) && doc != "" && Surrounds(begin, end, Some(doc), before, after)
    ensures PlaceBlock(begin, end, block, doc) == Document(before + block + after)
  {
    if Unmarked(begin, end, doc) {
      RenderAppends(begin, end, block, doc);
    } else {
      var inner :| Shows(begin, end, doc, before, inner, after);
      RenderReplaces(begin, end, block, doc, before, inner, after);
    }
  }

  lemma RenderAppends(begin: string, end: string, block: string, doc: string)
    requires Unmarked(begin, end, doc)
    ensures PlaceBlock(begin, end, block, doc)
            == Document(doc + (if EndsWithNewline(doc) then "" else "\n") + block + "\n")
  {
  }

  lemma RenderedSurroundings(begin: string, end: string, body: string, existing: Option<string>)
      returns (before: string, after: string)
    requires Marks(begin, end) && RenderBetween(begin, end, body, existing).Document?
    ensures AcceptedBody(body) && Surrounds(begin, end, existing, before, after)
  {
    if existing.None? || existing.value == "" {
      before, after := "", "\n";
    } else if Unmarked(begin, end, existing.value) {
      before, after := existing.value + (if EndsWithNewline(existing.value) then "" else "\n"), "\n";
    } else {
      var inner;
      before, inner, after := ReplacedDocumentShows(begin, end, Block(begin, end, body), existing.value);
    }
  }

  // ----- The laws -----

  /** Rendering succeeds exactly on an accepted body and a document with no mark or one well-formed block. */
  lemma RenderSucceeds(marker: string, body: string, existing: Option<string>)
    requires IsMarker(marker)
    ensures RenderManagedDocument(marker, body, existing).Document? <==>
            AcceptedBody(body) &&
            exists before, after :: Surrounds(BeginMark(marker), EndMark(marker), existing, before, after)
  {
    ForgeMarks(marker);
    var b, e := BeginMark(marker), EndMark(marker);
    if RenderBetween(b, e, body, existing).Document? {
      var before, after := RenderedSurroundings(b, e, body, existing);
    }
    forall before, after | AcceptedBody(body) && Surrounds(b, e, existing, before, after)
      ensures RenderBetween(b, e, body, existing).Document?
    {
      RenderWrites(b, e, body, existing, before, after);
    }
  }

  /** The text around the block survives, character for character. */
  lemma RenderKeepsOutside(marker: string, body: string, existing: Option<string>, before: string, after: string)
    requires IsMarker(marker) && AcceptedBody(body)
    requires Surrounds(BeginMark(marker), EndMark(marker), existing, before, after)
    ensures RenderManagedDocument(marker, body, existing)
            == Document(before + Block(BeginMark(marker), EndMark(marker), body) + after)
    ensures Surrounds(BeginMark(marker), EndMark(marker),
                      Some(RenderManagedDocument(marker, body, existing).text), before, after)
  {
    ForgeMarks(marker);
    StillSurrounds(BeginMark(marker), EndMark(marker), body, existing, before, after);
  }

  lemma StillSurrounds(begin: string, end: string, body: string, existing: Option<string>,
                       before: string, after: string)
    requires Marks(begin, end) && AcceptedBody(body) && Surrounds(begin, end, existing, before, after)
    ensures RenderBetween(begin, end, body, existing) == Document(before + Block(begin, end, body) + after)
    ensures Surrounds(begin, end, Some(before + Block(begin, end, body) + after), before, after)
  {
    RenderWrites(begin, end, body, existing, before, after);
    SurroundingTextIsUnmarked(begin, end, existing, before, after);
    FreshBlockShows(begin, end, body, before, after);
    ShownSurrounds(begin, end, before + Block(begin, end, body) + after, before, "\n" + Trim(body) + "\n", after);
  }

  /** The block's body as a reader finds it: the text between the marks without its two line breaks. */
  function ReadBlock(begin: string, end: string, doc: string): Option<string> {
    ReadBetween(doc, |begin|, IndexOf(doc, begin), IndexOf(doc, end))
  }

  function ReadBetween(doc: string, beginLength: nat, b: int, e: int): Option<string>
    requires b <= |doc| && e <= |doc|
  {
    if b < 0 || e < b + beginLength + 2 then None else Some(doc[b + beginLength + 1..e - 1])
  }

  lemma ReadShown(begin: string, end: string, doc: string, before: string, inner: string, after: string)
    requires Marks(begin, end) && Shows(begin, end, doc, before, inner, after)
    ensures ReadBlock(begin, end, doc) == if |inner| < 2 then None else Some(inner[1..|inner| - 1])
  {
    var b, e := |before|, |before| + |begin| + |inner|;
    ReadAt(begin, end, doc, b, e);
    if 2 <= |inner| {
      InnerSlice(doc, b + |begin|, e, inner);
    }
  }

  lemma ReadAt(begin: string, end: string, doc: string, b: nat, e: nat)
    requires Once(doc, begin, b) && Once(doc, end, e)
    ensures ReadBlock(begin, end, doc) == ReadBetween(doc, |begin|, b, e)
  {
    FindOnce(doc, begin, b);
    FindOnce(doc, end, e);
  }

  lemma InnerSlice(doc: string, i: nat, j: nat, inner: string)
    requires i + 2 <= j <= |doc| && inner == doc[i..j]
    ensures inner[1..|inner| - 1] == doc[i + 1..j - 1]
  {
    var x, y := inner[1..|inner| - 1], doc[i + 1..j - 1];
    assert |x| == |y| && forall k | 0 <= k < |x| :: x[k] == y[k];
  }

  /** What is written is what is read: the block reads back as the trimmed body. */
  lemma ReadAfterWrite(marker: string, body: string, existing: Option<string>)
    requires IsMarker(marker) && RenderManagedDocument(marker, body, existing).Document?
    ensures ReadBlock(BeginMark(marker), EndMark(marker), RenderManagedDocument(marker, body, existing).text)
            == Some(Trim(body))
  {
    ForgeMarks(marker);
    var b, e := BeginMark(marker), EndMark(marker);
    var before, after := RenderedSurroundings(b, e, body, existing);
    RenderWrites(b, e, body, existing, before, after);
    SurroundingTextIsUnmarked(b, e, existing, before, after);
    FreshBlockShows(b, e, body, before, after);
    ReadShown(b, e, before + Block(b, e, body) + after, before, "\n" + Trim(body) + "\n", after);
  }

  /** The last write wins: a second body replaces the first as if it had been written directly. */
  lemma {:induction false} WriteAfterWrite(marker: string, first: string, second: string, existing: Option<string>)
    requires IsMarker(marker) && RenderManagedDocument(marker, first, existing).Document?
    ensures RenderManagedDocument(marker, second, Some(RenderManagedDocument(marker, first, existing).text))
            == RenderManagedDocument(marker, second, existing)
  {
    ForgeMarks(marker);
    var b, e := BeginMark(marker), EndMark(marker);
    var before, after := RenderedSurroundings(b, e, first, existing);
    RenderKeepsOutside(marker, first, existing, before, after);
    if AcceptedBody(second) {
      RenderWrites(b, e, second, existing, before, after);
      RenderWrites(b, e, second, Some(RenderBetween(b, e, first, existing).text), before, after);
    }
  }

  /** Writing the same body again changes nothing. */
  lemma WriteTwice(marker: string, body: string, existing: Option<string>)
    requires IsMarker(marker) && RenderManagedDocument(marker, body, existing).Document?
    ensures RenderManagedDocument(marker, body, Some(RenderManagedDocument(marker, body, existing).text))
            == RenderManagedDocument(marker, body, existing)
  {
    WriteAfterWrite(marker, body, body, existing);
  }

  /** Writing back what was read changes nothing, exactly when the block is laid out the way Forge lays it out. */
  lemma {:induction false} WriteBackWhatWasRead(begin: string, end: string, doc: string,
                                                before: string, inner: string, after: string)
    requires Marks(begin, end) && Shows(begin, end, doc, before, inner, after)
    requires ReadBlock(begin, end, doc).Some? && AcceptedBody(ReadBlock(begin, end, doc).value)
    ensures RenderBetween(begin, end, ReadBlock(begin, end, doc).value, Some(doc)) == Document(doc)
            <==> inner == "\n" + Trim(ReadBlock(begin, end, doc).value) + "\n"
  {
    var body := ReadBlock(begin, end, doc).value;
    RenderReplaces(begin, end, Block(begin, end, body), doc, before, inner, after);
    ShownSurrounds(begin, end, doc, before, inner, after);
    NestIsBlock(begin, end, body, before, after);
    Reassemble(begin, end, doc, before, inner, after);
    SameMiddle(before + begin, "\n" + Trim(body) + "\n", inner, end, after);
  }

  lemma Reassemble(begin: string, end: string, doc: string, before: string, inner: string, after: string)
    requires Shows(begin, end, doc, before, inner, after)
    ensures doc == before + begin + inner + end + after
  {
    var b, e := |before|, |before| + |begin| + |inner|;
    assert before + begin == doc[..b + |begin|];
    assert before + begin + inner == doc[..e];
    assert before + begin + inner + end == doc[..e + |end|];
  }

  lemma SameMiddle(before: string, x: string, y: string, end: string, after: string)
    ensures before + x + end + after == before + y + end + after <==> x == y
  {
    var s, t := before + x + end + after, before + y + end + after;
    if s == t {
      assert |x| == |y|;
      assert x == s[|before|..|before| + |x|];
      assert y == t[|before|..|before| + |y|];
    }
  }
}
