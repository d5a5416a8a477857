/** The key pool: round-robin over the keys that are not cooling. Times are nanoseconds; 0 is Go's zero time. */
module KeyPool {
  import opened Common
  import opened Remainders

  datatype Key = Key(value: string, coolUntil: int, softFails: nat, picks: nat, fails: nat, successes: nat)

  datatype FailKind = Success | SoftFail | HardFail

  const SECOND := 1_000_000_000

  datatype Pool = Pool(keys: seq<Key>, idx: nat)

  ghost predicate Valid(s: Pool) {
    s.idx < |s.keys| || (s.keys == [] && s.idx == 0)
  }

  predicate Live(k: Key, now: int) { now > k.coolUntil }

  /** Position i steps after idx, around a circle of n. */
  function At(idx: nat, i: nat, n: nat): (p: nat)
    requires idx < n && i <= n
    ensures p < n
  {
    if idx + i < n then idx + i else idx + i - n
  }

  /** How many steps after idx position p comes. */
  function Dist(p: nat, idx: nat, n: nat): (d: nat)
    requires p < n && idx < n
    ensures d < n && At(idx, d, n) == p
  {
    if p >= idx then p - idx else p - idx + n
  }

  // ----- Pick -----

  /** The first offset, from i on, whose key is live; the number of keys if there is none. */
  function FirstLive(s: Pool, now: int, i: nat): (r: nat)
    requires s.idx < |s.keys| && i <= |s.keys|
    ensures i <= r <= |s.keys|
    decreases |s.keys| - i
  {
    if i == |s.keys| || Live(s.keys[At(s.idx, i, |s.keys|)], now) then i else FirstLive(s, now, i + 1)
  }

  /** Among the first i offsets, the first whose key cools down soonest. */
  function Coolest(s: Pool, i: nat): (r: nat)
    requires s.idx < |s.keys| && 0 < i <= |s.keys|
    ensures r < i
  {
    if i == 1 then 0
    else
      var r := Coolest(s, i - 1);
      if s.keys[At(s.idx, i - 1, |s.keys|)].coolUntil < s.keys[At(s.idx, r, |s.keys|)].coolUntil then i - 1 else r
  }

  /** The position `Pick` chooses. */
  function PickAt(s: Pool, now: int): (p: nat)
    requires Valid(s) && s.keys != []
    ensures p < |s.keys|
  {
    var n := |s.keys|;
    var i := FirstLive(s, now, 0);
    At(s.idx, if i < n then i else Coolest(s, n), n)
  }

  /** The pool with one more pick counted for the first `count` offsets. */
  function Scanned(s: Pool, count: nat): (ks: seq<Key>)
    requires s.idx < |s.keys| && count <= |s.keys|
    ensures |ks| == |s.keys|
  {
    seq(|s.keys|, p requires 0 <= p < |s.keys| =>
      if Dist(p, s.idx, |s.keys|) < count then s.keys[p].(picks := s.keys[p].picks + 1) else s.keys[p])
  }

  function AfterPick(s: Pool, now: int): (t: Pool)
    requires Valid(s) && s.keys != []
    ensures Valid(t) && |t.keys| == |s.keys|
  {
    var n := |s.keys|;
    var i := FirstLive(s, now, 0);
    if i < n then Pool(Scanned(s, i + 1), At(s.idx, i + 1, n)) else Pool(Scanned(s, n), s.idx)
  }

  // ----- ReportHint -----

  /** The first position holding the key; the number of keys if there is none. */
  function FindKey(keys: seq<Key>, value: string): (p: nat)
    ensures p <= |keys|
    ensures p < |keys| ==> keys[p].value == value
    ensures forall q :: 0 <= q < p ==> keys[q].value != value
  {
    if keys == [] || keys[0].value == value then 0
    else
      var p := FindKey(keys[1..], value);
      assert forall q :: 0 < q < |keys| ==> keys[q] == keys[1..][q - 1];
      p + 1
  }

  /** 10 s doubled with each failure, at most 5 minutes, at least the upstream's hint. */
  function Backoff(softFails: nat, minWait: int): int {
    var doublings := if softFails <= 1 then 0 else if softFails - 1 < 5 then softFails - 1 else 5;
    var d := [1, 2, 4, 8, 16, 32][doublings] * 10 * SECOND;
    var capped := if d > 300 * SECOND then 300 * SECOND else d;
    if minWait > capped then minWait else capped
  }

  function Reported(k: Key, kind: FailKind, minWait: int, now: int): Key {
    match kind
    case Success => k.(softFails := 0, coolUntil := 0, successes := k.successes + 1)
    case SoftFail =>
      var u := k.(fails := k.fails + 1, softFails := k.softFails + 1);
      var until := now + Backoff(u.softFails, minWait);
      if until > k.coolUntil then u.(coolUntil := until) else u
    case HardFail => k.(coolUntil := now + 600 * SECOND)
  }

  function AfterReport(s: Pool, value: string, kind: FailKind, minWait: int, now: int): (t: Pool)
    ensures Valid(s) ==> Valid(t)
    ensures |t.keys| == |s.keys|
  {
    var p := FindKey(s.keys, value);
    if p == |s.keys| then s else s.(keys := s.keys[p := Reported(s.keys[p], kind, minWait, now)])
  }

  // ----- the pool itself -----

  /** The non-empty values in order, all live and unused. */
  function NewKeys(values: seq<string>): seq<Key> {
    if values == [] then []
    else
      var v := values[|values| - 1];
      NewKeys(values[..|values| - 1]) + if v == "" then [] else [Key(v, 0, 0, 0, 0, 0)]
  }

  /** The values that are not empty, from the front. */
  function NonEmptyOnes(values: seq<string>): seq<string> {
    if values == [] then []
    else if values[0] == "" then NonEmptyOnes(values[1..])
    else [values[0]] + NonEmptyOnes(values[1..])
  }

  lemma {:induction false} NonEmptySnoc(values: seq<string>, v: string)
    ensures NonEmptyOnes(values + [v]) == NonEmptyOnes(values) + if v == "" then [] else [v]
  {
    if values == [] {
      assert [] + [v] == [v] && [v][1..] == [];
    } else {
      assert (values + [v])[1..] == values[1..] + [v];
      NonEmptySnoc(values[1..], v);
    }
  }

  /** A new pool holds these values in order; no key was picked or has failed, and none is cooling. */
  lemma {:induction false} NewKeysAre(values: seq<string>)
    ensures |NewKeys(values)| == |NonEmptyOnes(values)|
    ensures forall i :: 0 <= i < |NewKeys(values)| ==> NewKeys(values)[i] == Key(NonEmptyOnes(values)[i], 0, 0, 0, 0, 0)
  {
    if values == [] {
    } else {
      var init, v := values[..|values| - 1], values[|values| - 1];
      NewKeysAre(init);
      NonEmptySnoc(init, v);
      assert init + [v] == values;
      hide NonEmptyOnes;
    }
  }

  predicate Holds(keys: seq<Key>, v: string) {
    exists p :: 0 <= p < |keys| && keys[p].value == v
  }

  lemma HoldsSnoc(ks: seq<Key>, k: Key, v: string)
    ensures Holds(ks + [k], v) <==> Holds(ks, v) || k.value == v
  {
    if Holds(ks, v) {
      var p :| 0 <= p < |ks| && ks[p].value == v;
      assert (ks + [k])[p].value == v;
    }
    assert (ks + [k])[|ks|] == k;
  }

  lemma {:induction false} NewKeysHold(values: seq<string>, v: string)
    ensures Holds(NewKeys(values), v) <==> v in values && v != ""
  {
    if values == [] {
    } else {
      var n := |values| - 1;
      NewKeysHold(values[..n], v);
      assert v in values <==> v in values[..n] || v == values[n];
      HoldsSnoc(NewKeys(values[..n]), Key(values[n], 0, 0, 0, 0, 0), v);
      hide Holds;
      if values[n] == "" { assert NewKeys(values[..n]) + [] == NewKeys(values[..n]); }
    }
  }

  class KeyPool {
    var keys: seq<Key>
    var idx: nat
    var fillFirst: bool

    ghost function View(): Pool
      reads this
    {
      Pool(keys, idx)
    }

    /** Empty strings are not keys. */
    constructor (values: seq<string>)
      ensures View() == Pool(NewKeys(values), 0) && Valid(View()) && !fillFirst
    {
      var ks: seq<Key> := [];
      for i := 0 to |values|
        invariant ks == NewKeys(values[..i])
      {
        assert values[..i + 1][..i] == values[..i];
        if values[i] != "" { ks := ks + [Key(values[i], 0, 0, 0, 0, 0)]; }
      }
      assert values[..|values|] == values;
      keys, idx, fillFirst := ks, 0, false;
    }

    method SetFillFirst(v: bool)
      modifies this`fillFirst
      ensures fillFirst == v
    {
      fillFirst := v;
    }

    /** The scan loop of `Pick`: the first live key from the cursor on, or else the position to fall back to. */
    method Scan(now: int) returns (r: Option<string>, fallback: nat)
      requires idx < |keys|
      modifies this`keys, this`idx
      ensures View() == AfterPick(old(View()), now)
      ensures r.Some? <==> FirstLive(old(View()), now, 0) < |old(keys)|
      ensures r.Some? ==> r.value == old(keys)[PickAt(old(View()), now)].value
      ensures r.None? ==> fallback == PickAt(old(View()), now)
    {
      var n := |keys|;
      ghost var s := View();
      hide Scanned, At, Coolest, Dist, FirstLive, Live;
      NoneScanned(s);
      fallback := 0;
      var i := 0;
      while i < n
        invariant 0 <= i <= FirstLive(s, now, 0) && idx == s.idx && keys == Scanned(s, i)
        invariant i > 0 ==> fallback == At(s.idx, Coolest(s, i), n)
        decreases n - i
      {
        ModIsAt(idx, i, n);
        var p := (idx + i) % n;
        ScanStep(s, now, i);
        keys := keys[p := keys[p].(picks := keys[p].picks + 1)];
        if now > keys[p].coolUntil {
          ModIsAt(idx, i + 1, n);
          idx := (idx + i + 1) % n;
          r := Some(keys[p].value);
          return;
        }
        if i == 0 || keys[p].coolUntil < keys[fallback].coolUntil { fallback := p; }
        if fillFirst && i == 0 && now > keys[p].coolUntil { break; }
        i := i + 1;
      }
      r := None;
    }

    /** `Pick`. The setting of fillFirst makes no difference to what it promises. */
    method Pick(now: int) returns (r: Option<string>)
      requires Valid(View())
      modifies this`keys, this`idx
      ensures r.None? <==> old(keys) == []
      ensures old(keys) == [] ==> View() == old(View())
      ensures old(keys) != [] ==> View() == AfterPick(old(View()), now)
      ensures old(keys) != [] ==> r == Some(old(keys)[PickAt(old(View()), now)].value)
    {
      if |keys| == 0 { return None; }
      ghost var s := View();
      var found, fallback := Scan(now);
      if found.Some? { return found; }
      hide Scanned, At, Coolest, Dist, FirstLive;
      ScannedFacts(s);
      if fillFirst {
        NoneLive(s, now);
        for q := 0 to |keys| {
          var k := keys[q];
          if now > k.coolUntil { return Some(k.value); }
        }
      }
      r := Some(keys[fallback].value);
    }

    method ReportHint(key: string, kind: FailKind, minWait: int, now: int)
      modifies this`keys
      ensures View() == AfterReport(old(View()), key, kind, minWait, now)
    {
      for p := 0 to |keys|
        invariant keys == old(keys)
        invariant forall q :: 0 <= q < p ==> keys[q].value != key
      {
        var k := keys[p];
        if k.value != key { continue; }
        match kind {
          case Success => k := k.(softFails := 0, coolUntil := 0, successes := k.successes + 1);
          case SoftFail =>
            k := k.(fails := k.fails + 1, softFails := k.softFails + 1);
            var until := now + Backoff(k.softFails, minWait);
            if until > k.coolUntil { k := k.(coolUntil := until); }
          case HardFail => k := k.(coolUntil := now + 600 * SECOND);
        }
        keys := keys[p := k];
        return;
      }
    }
  }

  lemma ModIsAt(idx: nat, i: nat, n: nat)
    requires idx < n && i <= n
    ensures (idx + i) % n == At(idx, i, n)
  {
    if idx + i < n { RemainderIs(idx + i, n, 0, idx + i); } else { RemainderIs(idx + i, n, 1, idx + i - n); }
  }

  lemma StepScanned(s: Pool, i: nat)
    requires s.idx < |s.keys| && i < |s.keys|
    ensures var p := At(s.idx, i, |s.keys|);
            Scanned(s, i + 1) == Scanned(s, i)[p := Scanned(s, i)[p].(picks := Scanned(s, i)[p].picks + 1)]
  {
  }

  lemma NoneScanned(s: Pool)
    requires s.idx < |s.keys|
    ensures Scanned(s, 0) == s.keys
  {
  }

  /** One step of the scan loop. */
  lemma ScanStep(s: Pool, now: int, i: nat)
    requires s.idx < |s.keys| && i < |s.keys| && i <= FirstLive(s, now, 0)
    ensures var n, ks := |s.keys|, Scanned(s, i + 1);
            var p := At(s.idx, i, n);
            && ks == Scanned(s, i)[p := Scanned(s, i)[p].(picks := Scanned(s, i)[p].picks + 1)]
            && ks[p].value == s.keys[p].value && (now > ks[p].coolUntil <==> i == FirstLive(s, now, 0))
            && At(s.idx, Coolest(s, i + 1), n) ==
               if i == 0 || ks[p].coolUntil < ks[At(s.idx, Coolest(s, i), n)].coolUntil then p
               else At(s.idx, Coolest(s, i), n)
  {
    StepScanned(s, i);
    ScannedFacts(s);
    FirstLiveIs(s, now, 0);
    CoolestStep(s, i);
    hide Scanned, Coolest, At, FirstLive;
  }

  lemma ScannedFacts(s: Pool)
    requires s.idx < |s.keys|
    ensures Scanned(s, 0) == s.keys
    ensures forall c, p :: 0 <= c <= |s.keys| && 0 <= p < |s.keys| ==>
              Scanned(s, c)[p].value == s.keys[p].value && Scanned(s, c)[p].coolUntil == s.keys[p].coolUntil
  {
    hide Dist;
  }

  lemma CoolestStep(s: Pool, i: nat)
    requires s.idx < |s.keys| && i < |s.keys|
    ensures var n := |s.keys|;
            Coolest(s, i + 1) ==
            if i == 0 || s.keys[At(s.idx, i, n)].coolUntil < s.keys[At(s.idx, Coolest(s, i), n)].coolUntil
            then i else Coolest(s, i)
  {
  }

  lemma {:induction false} FirstLiveIs(s: Pool, now: int, i: nat)
    requires s.idx < |s.keys| && i <= |s.keys|
    ensures var r := FirstLive(s, now, i);
            && (r < |s.keys| ==> Live(s.keys[At(s.idx, r, |s.keys|)], now))
            && forall j :: i <= j < r ==> !Live(s.keys[At(s.idx, j, |s.keys|)], now)
    decreases |s.keys| - i
  {
    hide At, Live;
    if i < |s.keys| && FirstLive(s, now, i) != i { FirstLiveIs(s, now, i + 1); }
  }

  lemma {:induction false} CoolestIs(s: Pool, i: nat)
    requires s.idx < |s.keys| && 0 < i <= |s.keys|
    ensures var r := Coolest(s, i);
            && (forall j :: 0 <= j < i ==>
                  s.keys[At(s.idx, r, |s.keys|)].coolUntil <= s.keys[At(s.idx, j, |s.keys|)].coolUntil)
            && (forall j :: 0 <= j < r ==>
                  s.keys[At(s.idx, r, |s.keys|)].coolUntil < s.keys[At(s.idx, j, |s.keys|)].coolUntil)
  {
    hide At;
    if i > 1 { CoolestIs(s, i - 1); }
  }


  lemma NoneLive(s: Pool, now: int)
    requires s.idx < |s.keys| && FirstLive(s, now, 0) == |s.keys|
    ensures forall p :: 0 <= p < |s.keys| ==> !Live(s.keys[p], now)
  {
    FirstLiveIs(s, now, 0);
    hide Live;
    forall p | 0 <= p < |s.keys| ensures !Live(s.keys[p], now) {
      assert At(s.idx, Dist(p, s.idx, |s.keys|), |s.keys|) == p;
    }
  }

  // ----- fairness -----

  /** The positions of consecutive picks at the given times. */
  function PickRun(s: Pool, times: seq<int>): (ps: seq<nat>)
    requires Valid(s) && s.keys != []
    ensures |ps| == |times| && forall k :: 0 <= k < |ps| ==> ps[k] < |s.keys|
    decreases |times|
  {
    if times == [] then [] else [PickAt(s, times[0])] + PickRun(AfterPick(s, times[0]), times[1..])
  }

  lemma EmptyRange()
    ensures Range([]) == {}
  {
  }

  /** At every one of the times the live keys are exactly those at the positions of L. */
  ghost predicate LiveSetIs(s: Pool, times: seq<int>, L: set<nat>) {
    && (forall p :: p in L ==> p < |s.keys|)
    && forall k, p :: 0 <= k < |times| && 0 <= p < |s.keys| ==> (Live(s.keys[p], times[k]) <==> p in L)
  }

  lemma PicksKeepCooling(s: Pool, now: int, p: nat)
    requires Valid(s) && p < |s.keys|
    ensures AfterPick(s, now).keys[p].coolUntil == s.keys[p].coolUntil
    ensures AfterPick(s, now).keys[p].value == s.keys[p].value
  {
  }

  lemma LiveSetHead(s: Pool, times: seq<int>, L: set<nat>)
    requires times != [] && LiveSetIs(s, times, L)
    ensures LiveSetIs(s, [times[0]], L)
  {
    assert forall p :: 0 <= p < |s.keys| ==> (Live(s.keys[p], times[0]) <==> p in L);
  }

  lemma LiveSetKept(s: Pool, times: seq<int>, L: set<nat>)
    requires Valid(s) && s.keys != [] && times != [] && LiveSetIs(s, times, L)
    ensures LiveSetIs(AfterPick(s, times[0]), times[1..], L)
  {
    var t := AfterPick(s, times[0]);
    forall k, p | 0 <= k < |times[1..]| && 0 <= p < |t.keys| ensures Live(t.keys[p], times[1..][k]) <==> p in L {
      PicksKeepCooling(s, times[0], p);
      assert Live(s.keys[p], times[k + 1]) <==> p in L;
    }
  }

  /** The live positions at least c steps from `base`. */
  ghost function Ahead(L: set<nat>, base: nat, c: nat, n: nat): set<nat>
    requires base < n && forall p :: p in L ==> p < n
  {
    set p | p in L && Dist(p, base, n) >= c
  }

  /** With the cursor c steps from `base`, the next pick is the nearest live position ahead. */
  lemma NextPick(s: Pool, now: int, L: set<nat>, base: nat, c: nat)
    requires s.idx < |s.keys| && base < |s.keys| && c <= |s.keys| && s.idx == At(base, c, |s.keys|)
    requires LiveSetIs(s, [now], L)
    requires Ahead(L, base, c, |s.keys|) != {}
    ensures var n, p := |s.keys|, PickAt(s, now);
            && p in Ahead(L, base, c, n)
            && AfterPick(s, now).idx == At(base, Dist(p, base, n) + 1, n)
            && Ahead(L, base, Dist(p, base, n) + 1, n) == Ahead(L, base, c, n) - {p}
  {
    hide LiveSetIs, Live, AfterPick, FirstLive, PickAt, At, Dist;
    var n, i := |s.keys|, FirstLive(s, now, 0);
    LiveIffIn(s, now, L);
    var A := Ahead(L, base, c, n);
    var q := Member(A);
    Nearest(s, now, base, c, q);
    FirstLiveIs(s, now, 0);
    AfterPickIdx(s, now);
    var p := At(s.idx, i, n);
    StepsAdd(base, c, i, n);
    forall r | r in A && r != p ensures Dist(r, base, n) >= c + i + 1 {
      Nearest(s, now, base, c, r);
    }
    OneLessAhead(L, base, c, p, n);
  }

  lemma StepsAdd(base: nat, c: nat, i: nat, n: nat)
    requires base < n && c + i < n
    ensures Dist(At(At(base, c, n), i, n), base, n) == c + i
    ensures At(At(base, c, n), i + 1, n) == At(base, c + i + 1, n)
  {
  }

  lemma OneLessAhead(L: set<nat>, base: nat, c: nat, p: nat, n: nat)
    requires base < n && forall r :: r in L ==> r < n
    requires p in Ahead(L, base, c, n)
    requires forall r :: r in Ahead(L, base, c, n) && r != p ==> Dist(r, base, n) >= Dist(p, base, n) + 1
    ensures Ahead(L, base, Dist(p, base, n) + 1, n) == Ahead(L, base, c, n) - {p}
  {
    hide Dist, At;
  }

  lemma LiveIffIn(s: Pool, now: int, L: set<nat>)
    requires LiveSetIs(s, [now], L)
    ensures forall p :: p in L ==> p < |s.keys|
    ensures forall p :: 0 <= p < |s.keys| ==> (Live(s.keys[p], now) <==> p in L)
  {
    assert forall p :: 0 <= p < |s.keys| ==> (Live(s.keys[p], [now][0]) <==> p in L);
  }

  lemma AfterPickIdx(s: Pool, now: int)
    requires s.idx < |s.keys| && FirstLive(s, now, 0) < |s.keys|
    ensures PickAt(s, now) == At(s.idx, FirstLive(s, now, 0), |s.keys|)
    ensures AfterPick(s, now).idx == At(s.idx, FirstLive(s, now, 0) + 1, |s.keys|)
  {
  }

  /** A live position ahead of the cursor is not nearer than the first live offset. */
  lemma Nearest(s: Pool, now: int, base: nat, c: nat, q: nat)
    requires s.idx < |s.keys| && base < |s.keys| && c <= |s.keys| && s.idx == At(base, c, |s.keys|)
    requires q < |s.keys| && Live(s.keys[q], now) && Dist(q, base, |s.keys|) >= c
    ensures c + FirstLive(s, now, 0) <= Dist(q, base, |s.keys|)
    ensures c + FirstLive(s, now, 0) == Dist(q, base, |s.keys|) ==> q == At(s.idx, FirstLive(s, now, 0), |s.keys|)
  {
    var n, d := |s.keys|, Dist(q, base, |s.keys|);
    FirstLiveIs(s, now, 0);
    hide Live;
    assert At(s.idx, d - c, n) == q;
  }

  ghost function Range(ps: seq<nat>): set<nat> {
    set k | 0 <= k < |ps| :: ps[k]
  }

  lemma {:induction false} RunCovers(s: Pool, times: seq<int>, L: set<nat>, base: nat, c: nat)
    requires s.idx < |s.keys| && base < |s.keys| && c <= |s.keys| && s.idx == At(base, c, |s.keys|)
    requires LiveSetIs(s, times, L)
    requires |times| == |Ahead(L, base, c, |s.keys|)|
    ensures Range(PickRun(s, times)) == Ahead(L, base, c, |s.keys|)
    ensures forall j, k :: 0 <= j < k < |times| ==> PickRun(s, times)[j] != PickRun(s, times)[k]
    decreases |times|
  {
    hide PickAt, AfterPick, Live, Dist, Ahead, At, Range;
    var n, A := |s.keys|, Ahead(L, base, c, |s.keys|);
    if times == [] {
      assert A == {};
      EmptyRange();
    } else {
      LiveSetHead(s, times, L);
      NextPick(s, times[0], L, base, c);
      LiveSetKept(s, times, L);
      var p, t := PickAt(s, times[0]), AfterPick(s, times[0]);
      RunCovers(t, times[1..], L, base, Dist(p, base, n) + 1);
      var rest := PickRun(t, times[1..]);
      assert PickRun(s, times) == [p] + rest;
      RangeCons(p, rest);
    }
  }

  lemma RangeCons(p: nat, rest: seq<nat>)
    ensures Range([p] + rest) == {p} + Range(rest)
    ensures p !in Range(rest) ==> forall k :: 0 <= k < |rest| ==> rest[k] != p
  {
    forall x | x in Range(rest) ensures x in Range([p] + rest) {
      var k :| 0 <= k < |rest| && rest[k] == x;
      assert ([p] + rest)[k + 1] == x;
    }
    assert ([p] + rest)[0] == p;
    forall x | x in Range([p] + rest) ensures x == p || x in Range(rest) {
      var k :| 0 <= k < |[p] + rest| && ([p] + rest)[k] == x;
      if k > 0 { assert rest[k - 1] == x; }
    }
  }

  /** Main result: while the live keys are those of L, any |L| consecutive picks return each of them exactly
      once and no cooling key. */
  lemma RoundRobinFair(s: Pool, times: seq<int>, L: set<nat>)
    requires Valid(s) && s.keys != [] && L != {}
    requires LiveSetIs(s, times, L) && |times| == |L|
    ensures Range(PickRun(s, times)) == L
    ensures forall j, k :: 0 <= j < k < |times| ==> PickRun(s, times)[j] != PickRun(s, times)[k]
  {
    assert Ahead(L, s.idx, 0, |s.keys|) == L;
    RunCovers(s, times, L, s.idx, 0);
  }

  /** With every key cooling, the pick is one that cools down soonest and the cursor stays. */
  lemma FallbackIsCoolest(s: Pool, now: int)
    requires Valid(s) && s.keys != [] && forall p :: 0 <= p < |s.keys| ==> !Live(s.keys[p], now)
    ensures AfterPick(s, now).idx == s.idx
    ensures forall p :: 0 <= p < |s.keys| ==> s.keys[PickAt(s, now)].coolUntil <= s.keys[p].coolUntil
  {
    var n := |s.keys|;
    FirstLiveIs(s, now, 0);
    assert FirstLive(s, now, 0) == n;
    CoolestIs(s, n);
    forall p | 0 <= p < n ensures s.keys[PickAt(s, now)].coolUntil <= s.keys[p].coolUntil {
      assert At(s.idx, Dist(p, s.idx, n), n) == p;
    }
  }
}
