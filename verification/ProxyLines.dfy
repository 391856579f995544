/** Splitting a text into lines while it arrives in chunks. */
module ProxyLines {
  import opened Text
  import opened Folds

  /** The position of the first newline, or the length of the text. */
  function LineEnd(text: string): (i: nat)
    ensures i <= |text|
    ensures forall k | 0 <= k < i :: text[k] != '\n'
    ensures i < |text| ==> text[i] == '\n'
  {
    if text == "" || text[0] == '\n' then 0 else LineEnd(text[1..]) + 1
  }

  /** The lines of a text that are ended by a newline. */
  function CompleteLines(text: string): seq<string> {
    var i := LineEnd(text);
    if i == |text| then [] else [text[..i]] + CompleteLines(text[i + 1..])
  }

  /** What comes after the last newline. */
  function Remainder(text: string): string {
    var i := LineEnd(text);
    if i == |text| then text else Remainder(text[i + 1..])
  }

  /** The first line of `a` is the first line of `a + b`, too. */
  lemma FirstLineStays(a: string, b: string)
    requires LineEnd(a) < |a|
    ensures LineEnd(a + b) == LineEnd(a)
    ensures (a + b)[..LineEnd(a)] == a[..LineEnd(a)] && (a + b)[LineEnd(a) + 1..] == a[LineEnd(a) + 1..] + b
  {
    var i, j := LineEnd(a), LineEnd(a + b);
    assert (a + b)[i] == a[i] && forall k | 0 <= k < i :: (a + b)[k] == a[k];
    assert !(j < i) && !(i < j);
  }

  /** Reading on: what was left over is looked at again together with what comes. */
  lemma {:induction false} SplitOn(a: string, b: string)
    ensures CompleteLines(a + b) == CompleteLines(a) + CompleteLines(Remainder(a) + b)
    ensures Remainder(a + b) == Remainder(Remainder(a) + b)
    decreases |a|
  {
    var i := LineEnd(a);
    if i < |a| {
      var rest := a[i + 1..];
      FirstLineStays(a, b);
      SplitOn(rest, b);
      Associates([a[..i]], CompleteLines(rest), CompleteLines(Remainder(rest) + b));
      assert CompleteLines(a + b) == [a[..i]] + CompleteLines(rest + b) && Remainder(a + b) == Remainder(rest + b);
    } else {
      assert Remainder(a) == a && CompleteLines(a) == [];
    }
  }

  function Joined(lines: seq<string>): string {
    if lines == [] then "" else lines[0] + "\n" + Joined(lines[1..])
  }

  lemma TextAtLineEnd(text: string)
    requires LineEnd(text) < |text|
    ensures text == text[..LineEnd(text)] + "\n" + text[LineEnd(text) + 1..]
  {
    CutAt(text, LineEnd(text));
  }

  lemma CutAt(text: string, i: nat)
    requires i < |text|
    ensures text == text[..i] + [text[i]] + text[i + 1..]
  {
    assert text[..i + 1] == text[..i] + [text[i]];
  }

  /** The complete lines and the remainder make up the text, and none of them holds a newline. */
  lemma {:induction false} LinesMakeUpText(text: string)
    ensures Joined(CompleteLines(text)) + Remainder(text) == text
    ensures forall line | line in CompleteLines(text) :: '\n' !in line
    ensures '\n' !in Remainder(text)
    decreases |text|
  {
    var i := LineEnd(text);
    if i < |text| {
      var rest := text[i + 1..];
      LinesMakeUpText(rest);
      TextAtLineEnd(text);
      assert CompleteLines(text) == [text[..i]] + CompleteLines(rest) && CompleteLines(text)[1..] == CompleteLines(rest);
      Associates(text[..i] + "\n", Joined(CompleteLines(rest)), Remainder(rest));
    }
  }

  /** `line.startsWith("data: ")`, and what comes after it, trimmed, if there is anything. */
  function Payload(line: string): Option<string> {
    if "data: " <= line && Trim(line[6..]) != "" then Some(Trim(line[6..])) else None
  }

  function Payloads(lines: seq<string>): seq<string> {
    if lines == [] then []
    else
      var before := Payloads(lines[..|lines| - 1]);
      var last := Payload(lines[|lines| - 1]);
      if last.Some? then before + [last.value] else before
  }

  lemma {:induction false} PayloadsAppend(a: seq<string>, b: seq<string>)
    ensures Payloads(a + b) == Payloads(a) + Payloads(b)
  {
    if b == [] {
      assert a + b == a;
    } else {
      assert (a + b)[..|a + b| - 1] == a + b[..|b| - 1];
      PayloadsAppend(a, b[..|b| - 1]);
    }
  }

  function Concatenated(chunks: seq<string>): string {
    if chunks == [] then "" else Concatenated(chunks[..|chunks| - 1]) + chunks[|chunks| - 1]
  }
}
