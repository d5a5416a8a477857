/** Model routing: rule order, prefix match, session rotation and the health filter. */
module Routing {
  import opened Common
  import opened Remainders
  import B = Breaker

  datatype Target = Target(name: string, model: string)

  /** A routing rule; everything but the prefix is carried along. */
  datatype Rule = Rule(prefix: string, targets: seq<Target>)

  // ----- rule order -----

  ghost predicate Descending(rs: seq<Rule>) {
    forall i, j :: 0 <= i < j < |rs| ==> |rs[i].prefix| >= |rs[j].prefix|
  }

  /** The first i places are final: descending, and nothing behind them is longer. */
  ghost predicate Settled(rs: seq<Rule>, i: nat)
    requires i <= |rs|
  {
    forall p, q :: 0 <= p < i && p < q < |rs| ==> |rs[p].prefix| >= |rs[q].prefix|
  }

  /** Place i holds a longest prefix of the places from i up to j. */
  ghost predicate Leads(rs: seq<Rule>, i: nat, j: nat)
    requires i < j <= |rs|
  {
    forall q :: i < q < j ==> |rs[i].prefix| >= |rs[q].prefix|
  }

  lemma ExchangeStep(rs: seq<Rule>, i: nat, j: nat)
    requires i < j < |rs| && Settled(rs, i) && Leads(rs, i, j) && |rs[j].prefix| > |rs[i].prefix|
    ensures var t := rs[i := rs[j]][j := rs[i]];
            Settled(t, i) && Leads(t, i, j + 1) && multiset(t) == multiset(rs)
  {
  }

  lemma LeadsIsSettled(rs: seq<Rule>, i: nat)
    requires i < |rs| && Settled(rs, i) && Leads(rs, i, |rs|)
    ensures Settled(rs, i + 1)
  {
  }

  method Exchange(a: array<Rule>, i: nat, j: nat)
    requires i < j < a.Length
    modifies a
    ensures a[..] == old(a[..])[i := old(a[j])][j := old(a[i])]
  {
    a[i], a[j] := a[j], a[i];
  }

  /** The inner loop: place i gets a longest prefix of those from i on. */
  method SettlePlace(a: array<Rule>, i: nat)
    requires i < a.Length && Settled(a[..], i)
    modifies a
    ensures Settled(a[..], i + 1) && multiset(a[..]) == multiset(old(a[..]))
  {
    hide Settled;
    for j := i + 1 to a.Length
      invariant Settled(a[..], i) && Leads(a[..], i, j)
      invariant multiset(a[..]) == multiset(old(a[..]))
    {
      if |a[j].prefix| > |a[i].prefix| {
        ExchangeStep(a[..], i, j);
        Exchange(a, i, j);
      }
    }
    LeadsIsSettled(a[..], i);
  }

  /** The exchange sort of `apply`. */
  method SortRules(a: array<Rule>)
    modifies a
    ensures Descending(a[..]) && multiset(a[..]) == multiset(old(a[..]))
  {
    for i := 0 to a.Length
      invariant Settled(a[..], i)
      invariant multiset(a[..]) == multiset(old(a[..]))
    {
      SettlePlace(a, i);
    }
  }

  // ----- matchRulesLocked -----

  predicate Matches(r: Rule, model: string) {
    r.prefix == "" || r.prefix <= model
  }

  /** The rule chosen: the first that matches. */
  function Match(rs: seq<Rule>, model: string): Option<Rule> {
    if rs == [] then None else if Matches(rs[0], model) then Some(rs[0]) else Match(rs[1..], model)
  }

  method MatchRules(rs: seq<Rule>, model: string) returns (r: Option<Rule>)
    ensures r == Match(rs, model)
  {
    for i := 0 to |rs|
      invariant Match(rs, model) == Match(rs[i..], model)
    {
      assert rs[i..][0] == rs[i] && rs[i..][1..] == rs[i + 1..];
      if Matches(rs[i], model) { return Some(rs[i]); }
    }
    r := None;
  }

  /** r is a match of model with a longest prefix among the rules. */
  ghost predicate LongestMatch(rs: seq<Rule>, model: string, r: Rule) {
    r in rs && r.prefix <= model && forall q :: q in rs && q.prefix <= model ==> |q.prefix| <= |r.prefix|
  }

  lemma MatchesIs(r: Rule, model: string)
    ensures Matches(r, model) <==> r.prefix <= model
  {
  }

  lemma {:induction false} MatchIsLongest(rs: seq<Rule>, model: string)
    requires Descending(rs)
    ensures match Match(rs, model)
            case Some(r) => LongestMatch(rs, model, r)
            case None => forall q :: q in rs ==> !(q.prefix <= model)
  {
    if rs == [] {
    } else {
      MatchesIs(rs[0], model);
      hide Matches;
      MatchIsLongest(rs[1..], model);
      assert forall q :: q in rs ==> q == rs[0] || q in rs[1..];
    }
  }

  lemma SameMembers(rs: seq<Rule>, ss: seq<Rule>, r: Rule)
    requires multiset(rs) == multiset(ss) && r in rs
    ensures r in ss
  {
    assert r in multiset(rs);
  }

  lemma MatchingPrefixesEqual(q: Rule, r: Rule, model: string)
    requires q.prefix <= model && r.prefix <= model && |q.prefix| == |r.prefix|
    ensures q.prefix == r.prefix
  {
    if q.prefix != "" {
      assert q.prefix == model[..|q.prefix|] && r.prefix == model[..|r.prefix|];
    }
  }

  /** Main result: with pairwise distinct prefixes the rule chosen does not depend on the configured order. */
  lemma MatchIndependentOfOrder(rs: seq<Rule>, ss: seq<Rule>, model: string)
    requires Descending(rs) && Descending(ss) && multiset(rs) == multiset(ss)
    requires forall q, r :: q in rs && r in rs && q.prefix == r.prefix ==> q == r
    ensures Match(rs, model) == Match(ss, model)
  {
    MatchIsLongest(rs, model);
    MatchIsLongest(ss, model);
    hide Matches, Match;
    var a, b := Match(rs, model), Match(ss, model);
    if a.Some? { SameMembers(rs, ss, a.value); }
    if b.Some? { SameMembers(ss, rs, b.value); }
    if a.Some? && b.Some? {
      assert |a.value.prefix| == |b.value.prefix|;
      MatchingPrefixesEqual(a.value, b.value, model);
    }
  }

  // ----- session rotation and health filter -----

  const FNV_OFFSET: bv32 := 2166136261
  const FNV_PRIME: bv32 := 16777619

  /** `fnv32`, over bytes. */
  method Fnv32(s: seq<bv8>) returns (h: bv32)
    ensures h == Fnv(s)
  {
    hide FnvStep;
    h := FNV_OFFSET;
    for i := 0 to |s|
      invariant h == Fnv(s[..i])
    {
      assert s[..i + 1][..i] == s[..i];
      h := FnvStep(h, s[i]);
    }
    assert s[..|s|] == s;
  }

  function FnvStep(h: bv32, b: bv8): bv32 {
    (h ^ (b as bv32)) * FNV_PRIME
  }

  function Fnv(s: seq<bv8>): bv32 {
    if s == [] then FNV_OFFSET else FnvStep(Fnv(s[..|s| - 1]), s[|s| - 1])
  }

  /** The published values of 32-bit FNV-1a for the empty text, "a" and "foobar". */
  lemma KnownHashes()
    ensures Fnv([]) == 0x811c9dc5
    ensures Fnv([97]) == 0xe40c292c
    ensures Fnv([102, 111, 111, 98, 97, 114]) == 0xbf9cf968
  {
    Hashed([], 97, [97]);
    Hashed([], 102, [102]);
    Hashed([102], 111, [102, 111]);
    Hashed([102, 111], 111, [102, 111, 111]);
    Hashed([102, 111, 111], 98, [102, 111, 111, 98]);
    Hashed([102, 111, 111, 98], 97, [102, 111, 111, 98, 97]);
    Hashed([102, 111, 111, 98, 97], 114, [102, 111, 111, 98, 97, 114]);
    hide Fnv;
    Spelled();
  }

  lemma Spelled()
    ensures Fnv([]) == 0x811c9dc5
  {
  }

  lemma Hashed(s: seq<bv8>, b: bv8, t: seq<bv8>)
    requires t == s + [b]
    ensures Fnv(t) == FnvStep(Fnv(s), b)
  {
    assert t[..|s|] == s;
    hide FnvStep;
  }

  function Rotate(tg: seq<Target>, off: nat): seq<Target>
    requires off <= |tg|
  {
    tg[off..] + tg[..off]
  }

  /** `stickyRotate` */
  method StickyRotate(tg: seq<Target>, session: seq<bv8>) returns (out: seq<Target>)
    requires tg != []
    ensures out == Rotate(tg, Fnv(session) as int % |tg|)
  {
    var h := Fnv32(session);
    var off := h as int % |tg|;
    out := tg[off..];
    out := out + tg[..off];
  }

  lemma RotationPermutes(tg: seq<Target>, off: nat)
    requires off <= |tg|
    ensures multiset(Rotate(tg, off)) == multiset(tg)
  {
    assert tg == tg[..off] + tg[off..];
  }

  /** Rotation keeps the cyclic order: what comes k places later stays k places later around the circle. */
  lemma RotationCyclic(tg: seq<Target>, off: nat, k: nat)
    requires off < |tg| && k < |tg|
    ensures Rotate(tg, off)[k] == tg[(off + k) % |tg|]
  {
    if off + k < |tg| {
      RemainderIs(off + k, |tg|, 0, off + k);
    } else {
      RemainderIs(off + k, |tg|, 1, off + k - |tg|);
    }
  }

  /** The targets whose provider is not open; `open` tells of a provider name. */
  function Healthy(tg: seq<Target>, open: string -> bool): seq<Target> {
    if tg == [] then []
    else Healthy(tg[..|tg| - 1], open) + if open(tg[|tg| - 1].name) then [] else [tg[|tg| - 1]]
  }

  function Picked(tg: seq<Target>, open: string -> bool): seq<Target> {
    if Healthy(tg, open) == [] then tg else Healthy(tg, open)
  }

  /** The filter of the `pick` closure in `Resolve`. */
  method PickHealthy(tg: seq<Target>, open: string -> bool) returns (out: seq<Target>)
    ensures out == Picked(tg, open)
  {
    var live: seq<Target> := [];
    for i := 0 to |tg|
      invariant live == Healthy(tg[..i], open)
    {
      assert tg[..i + 1][..i] == tg[..i];
      if open(tg[i].name) { continue; }
      live := live + [tg[i]];
    }
    assert tg[..|tg|] == tg;
    if |live| == 0 { return tg; }
    out := live;
  }

  lemma {:induction false} HealthyMembers(tg: seq<Target>, open: string -> bool)
    ensures forall t :: t in Healthy(tg, open) <==> t in tg && !open(t.name)
  {
    if tg == [] {
    } else {
      HealthyMembers(tg[..|tg| - 1], open);
      assert tg == tg[..|tg| - 1] + [tg[|tg| - 1]];
    }
  }

  lemma {:induction false} HealthyConcat(a: seq<Target>, b: seq<Target>, open: string -> bool)
    ensures Healthy(a + b, open) == Healthy(a, open) + Healthy(b, open)
  {
    if b == [] {
      assert a + b == a;
    } else {
      HealthyConcat(a, b[..|b| - 1], open);
      assert (a + b)[..|a + b| - 1] == a + b[..|b| - 1];
    }
  }

  /** An open provider is left out unless every target is open, and a non-empty list stays non-empty. */
  lemma FilterOmitsOpen(tg: seq<Target>, open: string -> bool)
    ensures (exists t :: t in tg && !open(t.name)) ==> forall t :: t in Picked(tg, open) <==> t in tg && !open(t.name)
    ensures (forall t :: t in tg ==> open(t.name)) ==> Picked(tg, open) == tg
    ensures tg != [] ==> Picked(tg, open) != []
  {
    HealthyMembers(tg, open);
    if Healthy(tg, open) != [] { assert Healthy(tg, open)[0] in Healthy(tg, open); }
  }

  /** Filtering a rotated list rotates the filtered list: the healthy targets keep their cyclic order. */
  lemma FilterKeepsCyclicOrder(tg: seq<Target>, off: nat, open: string -> bool)
    requires off <= |tg|
    ensures var cut := |Healthy(tg[..off], open)|;
            cut <= |Healthy(tg, open)| && Healthy(Rotate(tg, off), open) == Rotate(Healthy(tg, open), cut)
  {
    HealthyConcat(tg[off..], tg[..off], open);
    HealthyConcat(tg[..off], tg[off..], open);
    assert tg == tg[..off] + tg[off..];
  }

  /** With the breakers of the providers: a target is left out exactly when a failure less than two minutes old
      ended a run of five for its provider, unless that holds of every target. */
  lemma FailingProviderOmitted(tg: seq<Target>, history: string -> seq<B.Outcome>, now: int)
    requires forall t :: t in tg ==> B.Ordered(history(t.name))
    ensures var picked := Picked(tg, n => B.Open(B.After(history(n)), now));
            var failing := set t | t in tg && exists j :: 0 <= j < |history(t.name)| && B.Trips(history(t.name), j)
                                                      && now < history(t.name)[j].at + B.OPEN_SECONDS;
            if forall t :: t in tg ==> t in failing then picked == tg
            else forall t :: t in picked <==> t in tg && t !in failing
  {
    var open := n => B.Open(B.After(history(n)), now);
    forall t | t in tg
      ensures open(t.name) <==> exists j :: 0 <= j < |history(t.name)| && B.Trips(history(t.name), j)
                                           && now < history(t.name)[j].at + B.OPEN_SECONDS
    {
      B.BreakerRefinesHistory(history(t.name), now);
    }
    FilterOmitsOpen(tg, open);
  }
}
