/** The insertion sort both stream collectors and the translator run over index lists. */
module Sorting {
  import opened Common

  ghost predicate Ascending(s: seq<int>) {
    forall i, j :: 0 <= i < j < |s| ==> s[i] <= s[j]
  }

  /** Put x behind the last element that is not larger. */
  function Insert(s: seq<int>, x: int): seq<int> {
    if s == [] || s[|s| - 1] <= x then s + [x] else Insert(s[..|s| - 1], x) + [s[|s| - 1]]
  }

  /** The reference sort: insert the elements one by one. */
  function Sort(s: seq<int>): seq<int> {
    if s == [] then [] else Insert(Sort(s[..|s| - 1]), s[|s| - 1])
  }

  lemma {:induction false} InsertAscending(s: seq<int>, x: int)
    requires Ascending(s)
    ensures Ascending(Insert(s, x))
    ensures forall y :: y in Insert(s, x) <==> y in s || y == x
  {
    if s != [] && s[|s| - 1] > x {
      InsertAscending(s[..|s| - 1], x);
      assert s == s[..|s| - 1] + [s[|s| - 1]];
      var r := Insert(s[..|s| - 1], x);
      forall i | 0 <= i < |r| ensures r[i] <= s[|s| - 1] {
        assert r[i] in r;
      }
    }
  }

  /** Sorting gives an ascending list of the same elements. */
  lemma {:induction false} SortAscending(s: seq<int>)
    ensures Ascending(Sort(s))
    ensures forall y :: y in Sort(s) <==> y in s
  {
    if s == [] {
    } else {
      SortAscending(s[..|s| - 1]);
      InsertAscending(Sort(s[..|s| - 1]), s[|s| - 1]);
      assert s == s[..|s| - 1] + [s[|s| - 1]];
    }
  }

  ghost predicate Strict(s: seq<int>) {
    forall i, j :: 0 <= i < j < |s| ==> s[i] < s[j]
  }

  lemma {:induction false} InsertStrict(s: seq<int>, x: int)
    requires Strict(s) && x !in s
    ensures Strict(Insert(s, x))
  {
    if s != [] && s[|s| - 1] > x {
      var init := s[..|s| - 1];
      InsertStrict(init, x);
      InsertAscending(init, x);
      var r := Insert(init, x);
      forall i | 0 <= i < |r| ensures r[i] < s[|s| - 1] {
        assert r[i] in r;
      }
    }
  }

  /** Without repetitions the sorted list is strictly ascending. */
  lemma {:induction false} SortStrict(s: seq<int>)
    requires Distinct(s)
    ensures Strict(Sort(s))
  {
    if s == [] {
    } else {
      SortStrict(s[..|s| - 1]);
      SortAscending(s[..|s| - 1]);
      InsertStrict(Sort(s[..|s| - 1]), s[|s| - 1]);
    }
  }

  lemma AppendCount(s: seq<int>, x: int)
    ensures multiset(s + [x]) == multiset(s) + multiset{x}
  {
  }

  lemma {:induction false} InsertPermutes(s: seq<int>, x: int)
    ensures multiset(Insert(s, x)) == multiset(s) + multiset{x}
  {
    if s == [] || s[|s| - 1] <= x {
      AppendCount(s, x);
    } else {
      var init, last := s[..|s| - 1], s[|s| - 1];
      InsertPermutes(init, x);
      AppendCount(Insert(init, x), last);
      AppendCount(init, last);
      assert s == init + [last];
    }
  }

  /** Sorting loses nothing and repeats nothing. */
  lemma {:induction false} SortPermutes(s: seq<int>)
    ensures multiset(Sort(s)) == multiset(s) && |Sort(s)| == |s|
  {
    if s == [] {
    } else {
      var init, last := s[..|s| - 1], s[|s| - 1];
      SortPermutes(init);
      InsertPermutes(Sort(init), last);
      AppendCount(init, last);
      assert s == init + [last];
    }
    assert |multiset(Sort(s))| == |multiset(s)|;
  }

  /** Sorting leaves an ascending list alone. */
  lemma {:induction false} SortOfAscending(s: seq<int>)
    requires Ascending(s)
    ensures Sort(s) == s
    decreases |s|
  {
    if s == [] {
    } else {
      hide Ascending, Sort, Insert;
      var init, x := s[..|s| - 1], s[|s| - 1];
      assert init + [x] == s;
      LastIsLargest(init, x);
      SortSnoc(init, x);
      SortOfAscending(init);
    }
  }

  lemma LastIsLargest(s: seq<int>, x: int)
    requires Ascending(s + [x])
    ensures Ascending(s) && Insert(s, x) == s + [x]
  {
    var t := s + [x];
    assert forall i :: 0 <= i < |s| ==> t[i] == s[i];
    assert s != [] ==> t[|s| - 1] <= t[|s|];
  }

  lemma {:induction false} InsertAt(s: seq<int>, x: int, j: nat)
    requires j <= |s|
    requires forall k :: j <= k < |s| ==> s[k] > x
    requires j == 0 || s[j - 1] <= x
    ensures Insert(s, x) == s[..j] + [x] + s[j..]
  {
    if j < |s| {
      InsertAt(s[..|s| - 1], x, j);
      assert s[..|s| - 1][j..] + [s[|s| - 1]] == s[j..];
    } else {
      assert s[..j] == s && s[j..] == [];
      if s != [] { assert s[|s| - 1] <= x; }
    }
  }

  lemma Moved(p: seq<int>, x: int, j: nat, q: seq<int>)
    requires j <= |p| && |q| == |p| + 1 && q[j] == x
    requires forall k :: 0 <= k < j ==> q[k] == p[k]
    requires forall k :: j <= k < |p| ==> q[k + 1] == p[k]
    ensures q == p[..j] + [x] + p[j..]
  {
    forall k | j < k < |q| ensures q[k] == p[j..][k - j - 1] {
      assert q[(k - 1) + 1] == p[k - 1];
    }
  }

  /** The inner loop: a[i] sinks into the sorted part below it by adjacent exchanges. */
  method Sink(a: array<int>, i: nat)
    requires i < a.Length
    modifies a
    ensures a[..i + 1] == Insert(old(a[..i]), old(a[i]))
    ensures a[i + 1..] == old(a[i + 1..])
  {
    hide Insert;
    ghost var p, x := a[..i], a[i];
    var j := i;
    while j > 0 && a[j - 1] > a[j]
      invariant 0 <= j <= i
      invariant forall k :: 0 <= k < j ==> a[k] == p[k]
      invariant forall k :: j <= k < i ==> a[k + 1] == p[k] > x
      invariant a[j] == x
      invariant forall k :: i < k < a.Length ==> a[k] == old(a[k])
    {
      a[j - 1], a[j] := a[j], a[j - 1];
      j := j - 1;
    }
    InsertAt(p, x, j);
    Moved(p, x, j, a[..i + 1]);
  }

  lemma SortSnoc(s: seq<int>, x: int)
    ensures Sort(s + [x]) == Insert(Sort(s), x)
  {
    assert (s + [x])[..|s|] == s;
  }

  /** `sortInts` / `sortInts64`. */
  method SortInts(a: array<int>)
    modifies a
    ensures a[..] == Sort(old(a[..]))
  {
    if a.Length == 0 { return; }
    var i := 1;
    ghost var s := a[..];
    SortOfAscending(s[..1]);
    hide Sort, Insert;
    while i < a.Length
      invariant 1 <= i <= a.Length
      invariant a[..i] == Sort(s[..i]) && a[i..] == s[i..]
    {
      assert a[i] == s[i] by { assert a[i..][0] == s[i..][0]; }
      Sink(a, i);
      SortSnoc(s[..i], s[i]);
      assert s[..i] + [s[i]] == s[..i + 1];
      assert a[i + 1..] == s[i + 1..];
      i := i + 1;
    }
    assert a[..i] == a[..] && s[..i] == s;
  }

  /** Sorting a slice held in a variable. */
  method SortSlice(s: seq<int>) returns (r: seq<int>)
    ensures r == Sort(s)
  {
    var a := new int[|s|](k requires 0 <= k < |s| => s[k]);
    assert a[..] == s;
    SortInts(a);
    r := a[..];
  }
}
