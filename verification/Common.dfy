/** Small types shared by every module.

    A Go string is a sequence of bytes. Here one Dafny char stands for one byte, so
    `|s|` is Go's `len(s)`. */
module Common {
  datatype Option<+T> = None | Some(value: T)

  ghost predicate Distinct<T>(s: seq<T>) {
    forall i, j :: 0 <= i < j < |s| ==> s[i] != s[j]
  }

  lemma Inhabited<T>(s: set<T>)
    ensures s == {} || exists x :: x in s
  {
    if !exists x :: x in s { assert s == {}; }
  }

  lemma Member<T>(s: set<T>) returns (x: T)
    requires s != {}
    ensures x in s
  {
    Inhabited(s);
    x :| x in s;
  }

  /** Go's FirstNonEmpty, in the two-argument form every caller uses. */
  function FirstNonEmpty(a: string, b: string): string {
    if a != "" then a else b
  }
}

/** Facts about remainders the solver does not find quickly. */
module Remainders {
  lemma MulNonNegative(a: nat, b: nat)
    ensures a * b >= 0
  {
  }

  lemma MulFar(d: int, n: int)
    requires n > 0
    ensures d >= 1 ==> d * n >= n
    ensures d <= -1 ==> d * n <= -n
  {
    if d >= 1 {
      MulNonNegative(d - 1, n);
      assert d * n == n + (d - 1) * n;
    } else if d <= -1 {
      MulNonNegative(-1 - d, n);
      assert d * n == -n - (-1 - d) * n;
    }
  }

  /** A remainder is determined by any way to write the number. */
  lemma RemainderIs(x: nat, n: nat, q: int, r: nat)
    requires n > 0 && x == q * n + r && r < n
    ensures x % n == r
  {
    var d := q - x / n;
    assert d * n == x % n - r;
    MulFar(d, n);
  }
}
