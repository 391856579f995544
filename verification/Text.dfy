/** Strings as the sources use them: trimming, searching and decimal numerals. */
module Text {

  datatype Option<+T> = None | Some(value: T)

  /** The characters removed by ECMAScript's `String.prototype.trim`. */
  predicate IsSpace(c: char) {
    || 0x9 as char <= c <= 0xD as char
    || c == ' '
    || c in {0xA0 as char, 0x1680 as char, 0x2028 as char, 0x2029 as char,
             0x202F as char, 0x205F as char, 0x3000 as char, 0xFEFF as char}
    || 0x2000 as char <= c <= 0x200A as char
  }

  function TrimStart(s: string): (t: string)
    ensures exists k: nat :: k <= |s| && t == s[k..]
    ensures t != "" ==> !IsSpace(t[0])
  {
    if s != "" && IsSpace(s[0]) then
      var t := TrimStart(s[1..]);
      assert exists k: nat :: k <= |s| && t == s[k..] by {
        var k: nat :| k <= |s[1..]| && t == s[1..][k..];
        assert t == s[k + 1..];
      }
      t
    else
      assert s == s[0..];
      s
  }

  function TrimEnd(s: string): (t: string)
    ensures t <= s
    ensures t != "" ==> !IsSpace(t[|t| - 1])
  {
    if s != "" && IsSpace(s[|s| - 1]) then TrimEnd(s[..|s| - 1]) else s
  }

  function Trim(s: string): (t: string)
    ensures exists i: nat, j: nat :: i <= j <= |s| && t == s[i..j]
    ensures t != "" ==> !IsSpace(t[0]) && !IsSpace(t[|t| - 1])
  {
    var u := TrimStart(s);
    var t := TrimEnd(u);
    TrimmedIsSlice(s, u, t);
    t
  }

  lemma TrimmedIsSlice(s: string, u: string, t: string)
    requires exists k: nat :: k <= |s| && u == s[k..]
    requires t <= u
    ensures exists i: nat, j: nat :: i <= j <= |s| && t == s[i..j]
  {
    var k: nat :| k <= |s| && u == s[k..];
    var i, j: nat := k, k + |t|;
    assert t == s[i..j] by {
      assert t == u[..|t|];
      DropThenTake(s, k, |t|);
    }
  }

  lemma DropThenTake(s: string, k: nat, n: nat)
    requires k + n <= |s|
    ensures s[k..][..n] == s[k..k + n]
  {
  }

  predicate Blank(s: string) { Trim(s) == "" }

  lemma NotBlank(s: string)
    requires s != "" && !IsSpace(s[0])
    ensures !Blank(s)
  {
    assert TrimStart(s) == s;
    TrimEndKeeps(s);
  }

  lemma {:induction false} TrimEndKeeps(s: string)
    requires s != "" && !IsSpace(s[0])
    ensures TrimEnd(s) != ""
  {
    if IsSpace(s[|s| - 1]) {
      TrimEndKeeps(s[..|s| - 1]);
    }
  }

  /** `needle` stands in `hay` at position `i`. */
  predicate At(hay: string, needle: string, i: nat) {
    i + |needle| <= |hay| && hay[i..i + |needle|] == needle
  }

  predicate Contains(hay: string, needle: string) {
    exists i: nat | i <= |hay| :: At(hay, needle, i)
  }

  /** `String.prototype.indexOf` with a start position: the first occurrence at or after `from`, or -1. */
  function IndexOf(hay: string, needle: string, from: nat := 0): (r: int)
    ensures r == -1 || (from <= r && At(hay, needle, r))
    ensures r == -1 ==> forall i: nat | from <= i :: !At(hay, needle, i)
    ensures r != -1 ==> forall i: nat | from <= i < r :: !At(hay, needle, i)
    decreases |hay| - from
  {
    if At(hay, needle, from) then from
    else if |hay| <= from then -1
    else IndexOf(hay, needle, from + 1)
  }

  function Digit(d: nat): (c: char)
    requires d < 10
  {
    "0123456789"[d]
  }

  /** `String(n)` of a natural number. */
  function Decimal(n: nat): (s: string)
    ensures s != ""
    ensures forall c | c in s :: '0' <= c <= '9'
  {
    if n < 10 then [Digit(n)] else Decimal(n / 10) + [Digit(n % 10)]
  }

  lemma {:induction false} DecimalInjective(m: nat, n: nat)
    requires Decimal(m) == Decimal(n)
    ensures m == n
  {
    var s, t := Decimal(m), Decimal(n);
    assert s[|s| - 1] == Digit(m % 10) && t[|t| - 1] == Digit(n % 10);
    if m < 10 || n < 10 {
      assert |s| == 1;
    } else {
      assert Decimal(m / 10) == s[..|s| - 1] && Decimal(n / 10) == t[..|t| - 1];
      DecimalInjective(m / 10, n / 10);
    }
  }
}
