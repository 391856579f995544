/** The byte stream that Forge hashes to notice that someone else changed the documents. */
module DocumentsBase {
  import opened Text

  const NUL := "\0"

  /** What one file contributes: its name, then whether it is there, then its length and its bytes. */
  function BaseEntry(name: string, content: Option<string>): string {
    name + NUL +
    match content
    case None => "missing" + NUL
    case Some(text) => "present" + NUL + (Decimal(|text|) + NUL + text)
  }

  function BaseStream(names: seq<string>, contents: seq<Option<string>>): string
    requires |names| == |contents|
  {
    if names == [] then "" else BaseEntry(names[0], contents[0]) + BaseStream(names[1..], contents[1..])
  }

  lemma {:induction false} BaseStreamAppend(names: seq<string>, contents: seq<Option<string>>,
                                            name: string, content: Option<string>)
    requires |names| == |contents|
    ensures BaseStream(names + [name], contents + [content]) == BaseStream(names, contents) + BaseEntry(name, content)
  {
    if names == [] {
      assert [name][1..] == [] && [content][1..] == [];
    } else {
      BaseStreamAppend(names[1..], contents[1..], name, content);
      assert (names + [name])[1..] == names[1..] + [name];
      assert (contents + [content])[1..] == contents[1..] + [content];
    }
  }

  lemma CancelLeft(a: string, s: string, t: string)
    requires a + s == a + t
    ensures s == t
  {
    assert (a + s)[|a|..] == s && (a + t)[|a|..] == t;
  }

  lemma CancelSameLength(a: string, b: string, s: string, t: string)
    requires a + s == b + t && |a| == |b|
    ensures a == b && s == t
  {
    assert a == (a + s)[..|a|] && b == (b + t)[..|b|];
    CancelLeft(a, s, t);
  }

  /** Two texts without a NUL that are followed by one are told apart by where it stands. */
  lemma CancelBeforeNul(a: string, b: string, s: string, t: string)
    requires '\0' !in a && '\0' !in b && a + NUL + s == b + NUL + t
    ensures a == b && s == t
  {
    var whole := a + NUL + s;
    assert whole[|a|] == '\0' && whole[|b|] == '\0';
    assert forall k | 0 <= k < |a| :: whole[k] == a[k] != '\0';
    assert forall k | 0 <= k < |b| :: whole[k] == b[k] != '\0';
    CancelSameLength(a + NUL, b + NUL, s, t);
    CancelSameLength(a, b, NUL, NUL);
  }

  lemma Regroup(a: string, b: string, c: string)
    ensures (a + b) + c == a + (b + c)
  {
  }

  /** One entry can be read off the front of a stream in one way only. */
  lemma EntryDecodes(name: string, x: Option<string>, y: Option<string>, s: string, t: string)
    requires BaseEntry(name, x) + s == BaseEntry(name, y) + t
    ensures x == y && s == t
  {
    var bodyX := BaseEntry(name, x)[|name| + 1..];
    var bodyY := BaseEntry(name, y)[|name| + 1..];
    Regroup(name + NUL, bodyX, s);
    Regroup(name + NUL, bodyY, t);
    CancelLeft(name + NUL, bodyX + s, bodyY + t);
    assert (bodyX + s)[0] == if x.None? then 'm' else 'p';
    assert (bodyY + t)[0] == if y.None? then 'm' else 'p';
    match (x, y) {
      case (Some(u), Some(v)) => PresentDecodes(u, v, s, t);
      case (None, None) => CancelLeft("missing" + NUL, s, t);
      case _ =>
    }
  }

  lemma {:induction false} PresentDecodes(u: string, v: string, s: string, t: string)
    requires "present" + NUL + (Decimal(|u|) + NUL + u) + s == "present" + NUL + (Decimal(|v|) + NUL + v) + t
    ensures u == v && s == t
  {
    var head, m, n := "present" + NUL, Decimal(|u|), Decimal(|v|);
    Regroup(head, m + NUL + u, s);
    Regroup(head, n + NUL + v, t);
    CancelLeft(head, m + NUL + u + s, n + NUL + v + t);
    Regroup(m + NUL, u, s);
    Regroup(n + NUL, v, t);
    CancelBeforeNul(m, n, u + s, v + t);
    DecimalInjective(|u|, |v|);
    CancelSameLength(u, v, s, t);
  }

  /** The stream determines every file: two states of the documents give the same stream only if they are the same. */
  lemma {:induction false} BaseStreamDecodes(names: seq<string>, x: seq<Option<string>>, y: seq<Option<string>>)
    requires |names| == |x| == |y|
    ensures BaseStream(names, x) == BaseStream(names, y) <==> x == y
  {
    if names != [] && BaseStream(names, x) == BaseStream(names, y) {
      EntryDecodes(names[0], x[0], y[0], BaseStream(names[1..], x[1..]), BaseStream(names[1..], y[1..]));
      BaseStreamDecodes(names[1..], x[1..], y[1..]);
      assert x == [x[0]] + x[1..] && y == [y[0]] + y[1..];
    }
  }
}
