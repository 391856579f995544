/** Folding a list into a state, and putting lists together. */
module Folds {

  function Fold<S, E>(f: (S, E) -> S, s: S, es: seq<E>): S {
    if es == [] then s else f(Fold(f, s, es[..|es| - 1]), es[|es| - 1])
  }

  lemma FoldOne<S, E>(f: (S, E) -> S, s: S, es: seq<E>, e: E)
    ensures Fold(f, s, es + [e]) == f(Fold(f, s, es), e)
  {
    assert (es + [e])[..|es|] == es;
  }

  lemma {:induction false} FoldAppend<S, E>(f: (S, E) -> S, s: S, a: seq<E>, b: seq<E>)
    ensures Fold(f, s, a + b) == Fold(f, Fold(f, s, a), b)
  {
    if b == [] {
      assert a + b == a;
    } else {
      var init := b[..|b| - 1];
      FoldAppend(f, s, a, init);
      FoldOne(f, s, a + init, b[|b| - 1]);
      assert a + b == a + init + [b[|b| - 1]];
    }
  }

  lemma FoldTwo<S, E>(f: (S, E) -> S, s: S, x: E, y: E)
    ensures Fold(f, s, [x, y]) == f(f(s, x), y)
    ensures Fold(f, s, [x]) == f(s, x)
  {
    FoldOne(f, s, [], x);
    FoldOne(f, s, [x], y);
    assert [] + [x] == [x] && [x] + [y] == [x, y];
  }

  lemma Associates<T>(a: seq<T>, b: seq<T>, c: seq<T>)
    ensures (a + b) + c == a + (b + c)
  {
  }
}
