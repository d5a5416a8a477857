/** Results on the retry loop over every world. */
module RetryProperties {
  import opened Common
  import opened RetryLoop

  // ----- the budget, and no key twice -----

  /** `tried` is the set of keys sent upstream, none of them twice. */
  ghost predicate Once(tried: set<string>, calls: seq<string>) {
    && (forall k :: 0 <= k < |calls| ==> calls[k] in tried)
    && (forall j, k :: 0 <= j < k < |calls| ==> calls[j] != calls[k])
  }

  lemma CalledKeeps(v: Visit, key: string, reply: Reply, now: nat, c: Config)
    ensures var u := Called(v, key, reply, now, c);
            u.tried == v.tried && u.calls == v.calls && u.left == v.left && u.a == v.a && u.sent == v.sent
  {
  }

  lemma {:induction false} VisitBounded(v: Visit, w: World, c: Config)
    requires P.Valid(v.pool) && v.pool.keys != [] && Once(v.tried, v.calls)
    ensures var u := RunVisit(v, w, c);
            && Once(u.tried, u.calls) && u.left + |u.calls| <= v.left + |v.calls|
            && u.a + u.left == v.a + v.left
    decreases v.left
  {
    hide P.AfterPick, P.PickAt, Called;
    if !Over(v) {
      var key := v.pool.keys[P.PickAt(v.pool, w.pickAt(v.a))].value;
      var u := v.(pool := P.AfterPick(v.pool, w.pickAt(v.a)), left := v.left - 1, a := v.a + 1);
      CalledKeeps(u.(sent := v.sent + 1, tried := v.tried + {key}, calls := v.calls + [key]),
                  key, w.reply(v.sent), w.doneAt(v.a), c);
      VisitBounded(Attempt(v, w, c), w, c);
    }
  }

  /** Calls to targets before number `bound`, none repeated. */
  ghost predicate CallsOnce(calls: seq<Call>, bound: nat) {
    && (forall k :: 0 <= k < |calls| ==> calls[k].target < bound)
    && (forall j, k :: 0 <= j < k < |calls| ==> calls[j] != calls[k])
  }

  lemma AppendVisit(calls: seq<Call>, i: nat, keys: seq<string>, tried: set<string>)
    requires CallsOnce(calls, i) && Once(tried, keys)
    ensures CallsOnce(calls + Numbered(i, keys), i + 1)
  {
  }

  lemma TargetBounded(r: Run, i: nat, t: Target, w: World, c: Config)
    requires ValidProvs(r.provs) && CallsOnce(r.calls, i)
    ensures var s := VisitTarget(r, i, t, w, c);
            && |s.calls| + s.left <= |r.calls| + r.left && s.a + s.left == r.a + r.left && CallsOnce(s.calls, i + 1)
  {
    hide RunVisit;
    if r.ending == Running && t.name in r.provs && r.provs[t.name].pool.keys != [] && t.before == Proceed {
      var v := StartVisit(r, t.name);
      VisitBounded(v, w, c);
      AppendVisit(r.calls, i, RunVisit(v, w, c).calls, RunVisit(v, w, c).tried);
      hide CallsOnce;
    }
  }

  /** Main result, in every world: at most `attempts` calls go upstream, and no key twice within a target. */
  lemma {:induction false} RunBounded(provs: map<string, Prov>, ts: seq<Target>, attempts: nat, w: World, c: Config)
    requires ValidProvs(provs)
    ensures var s := RunTargets(Run(provs, attempts, 0, [], 0, Running), ts, w, c);
            && |s.calls| + s.left <= attempts && s.a + s.left == attempts && CallsOnce(s.calls, |ts|)
  {
    if ts == [] {
    } else {
      var i := |ts| - 1;
      RunBounded(provs, ts[..i], attempts, w, c);
      var r := RunTargets(Run(provs, attempts, 0, [], 0, Running), ts[..i], w, c);
      TargetBounded(r, i, ts[i], w, c);
      hide VisitTarget, CallsOnce;
    }
  }

  // ----- calls in cyclic order -----

  predicate Retryable(r: Reply, c: Config) {
    match r
    case TransportError => true
    case Rejected(st, _) => st in c.soft || st in c.hard
    case Accepted(_, d) => d == StreamFailed
  }

  function Values(keys: seq<P.Key>): seq<string> {
    seq(|keys|, p requires 0 <= p < |keys| => keys[p].value)
  }

  /** The keys from the cursor on, around the circle. */
  function From(vals: seq<string>, idx: nat): seq<string>
    requires idx <= |vals|
  {
    vals[idx..] + vals[..idx]
  }

  /** The keys at the positions of L, from c steps behind `base` on around the circle. */
  function LiveFrom(vals: seq<string>, base: nat, c: nat, L: set<nat>): (r: seq<string>)
    requires base < |vals| && c <= |vals|
    ensures |r| <= |vals| - c
    decreases |vals| - c
  {
    if c == |vals| then []
    else
      var p := P.At(base, c, |vals|);
      (if p in L then [vals[p]] else []) + LiveFrom(vals, base, c + 1, L)
  }

  lemma CausalMeans(w: World, a: nat)
    requires Causal(w)
    ensures w.pickAt(a) <= w.doneAt(a) <= w.pickAt(a + 1)
  {
  }

  lemma PickOnlyCounts(s: P.Pool, now: int)
    requires P.Valid(s) && s.keys != []
    ensures Values(P.AfterPick(s, now).keys) == Values(s.keys)
    ensures forall q :: 0 <= q < |s.keys| ==> P.AfterPick(s, now).keys[q].coolUntil == s.keys[q].coolUntil
  {
  }

  /** A report touches only the key it names. */
  lemma ReportIsLocal(s: P.Pool, p: nat, kind: P.FailKind, hint: int, now: int)
    requires p < |s.keys| && Distinct(Values(s.keys))
    ensures var t := P.AfterReport(s, s.keys[p].value, kind, hint, now);
            && Values(t.keys) == Values(s.keys) && t.idx == s.idx
            && forall q :: 0 <= q < |s.keys| && q != p ==> t.keys[q] == s.keys[q]
  {
    var vals := Values(s.keys);
    assert P.FindKey(s.keys, s.keys[p].value) == p by {
      var f := P.FindKey(s.keys, s.keys[p].value);
      assert f <= p;
      assert vals[f] == vals[p];
    }
  }

  lemma CalledIsLocal(v: Visit, p: nat, reply: Reply, now: nat, c: Config)
    requires p < |v.pool.keys| && Distinct(Values(v.pool.keys)) && Retryable(reply, c) && v.ending == Running
    ensures var u := Called(v, v.pool.keys[p].value, reply, now, c);
            && Values(u.pool.keys) == Values(v.pool.keys) && u.pool.idx == v.pool.idx && u.ending == Running
            && u.tried == v.tried && u.calls == v.calls && u.left == v.left && u.a == v.a && u.sent == v.sent
            && forall q :: 0 <= q < |v.pool.keys| && q != p ==> u.pool.keys[q] == v.pool.keys[q]
  {
    hide P.AfterReport, B.Note;
    match reply
    case TransportError => ReportIsLocal(v.pool, p, P.SoftFail, 0, now);
    case Rejected(st, h) =>
      if Classify(st, c) == Hard { ReportIsLocal(v.pool, p, P.HardFail, 0, now); }
      else { ReportIsLocal(v.pool, p, P.SoftFail, RetryWait(h, now), now); }
    case Accepted(_, _) => ReportIsLocal(v.pool, p, P.Success, 0, now);
  }

  /** The tried keys are among the first c around the circle from `base`. */
  ghost predicate TriedBehind(tried: set<string>, vals: seq<string>, base: nat, c: nat)
    requires base < |vals| && c <= |vals|
  {
    |tried| <= c && forall x :: x in tried ==> exists j :: 0 <= j < c && vals[P.At(base, j, |vals|)] == x
  }

  /** From c steps behind `base` on, the keys of L are live at attempt a, and the others cool until attempt `last`. */
  ghost predicate LiveAhead(keys: seq<P.Key>, base: nat, c: nat, L: set<nat>, w: World, a: nat, last: nat)
    requires base < |keys| && c <= |keys|
  {
    forall j :: c <= j < |keys| ==>
      var p := P.At(base, j, |keys|);
      if p in L then P.Live(keys[p], w.pickAt(a)) else forall b :: a <= b < last ==> !P.Live(keys[p], w.pickAt(b))
  }

  /** Part of an undisturbed visit that began with the cursor at `base`: the keys of L before the cursor, c steps
      on, were called. */
  ghost predicate Progress(v: Visit, vals: seq<string>, base: nat, c: nat, L: set<nat>, w: World, last: nat) {
    && base < |vals| && c <= |vals| && Values(v.pool.keys) == vals && Distinct(vals)
    && v.pool.idx == P.At(base, c, |vals|) && v.ending == Running
    && TriedBehind(v.tried, vals, base, c) && LiveAhead(v.pool.keys, base, c, L, w, v.a, last)
  }

  lemma TriedGrows(tried: set<string>, vals: seq<string>, base: nat, c: nat, d: nat)
    requires base < |vals| && c <= d < |vals| && Distinct(vals) && TriedBehind(tried, vals, base, c)
    ensures vals[P.At(base, d, |vals|)] !in tried
    ensures TriedBehind(tried + {vals[P.At(base, d, |vals|)]}, vals, base, d + 1)
  {
    var n, y := |vals|, vals[P.At(base, d, |vals|)];
    forall j | 0 <= j < c ensures vals[P.At(base, j, n)] != y {
      assert P.At(base, j, n) != P.At(base, d, n);
    }
    forall x | x in tried + {y} ensures exists j :: 0 <= j < d + 1 && vals[P.At(base, j, n)] == x {
      if x in tried {
        var j :| 0 <= j < c && vals[P.At(base, j, n)] == x;
      }
    }
  }

  lemma LiveStays(keys: seq<P.Key>, base: nat, c: nat, d: nat, L: set<nat>, w: World, a: nat, last: nat,
                  keys2: seq<P.Key>)
    requires |keys2| == |keys| && base < |keys| && c <= d < |keys| && LiveAhead(keys, base, c, L, w, a, last)
    requires w.pickAt(a) <= w.pickAt(a + 1)
    requires forall q :: 0 <= q < |keys| && q != P.At(base, d, |keys|) ==> keys2[q].coolUntil == keys[q].coolUntil
    ensures LiveAhead(keys2, base, d + 1, L, w, a + 1, last)
  {
    forall j | d + 1 <= j < |keys|
      ensures var p := P.At(base, j, |keys|);
              if p in L then P.Live(keys2[p], w.pickAt(a + 1))
              else forall b :: a + 1 <= b < last ==> !P.Live(keys2[p], w.pickAt(b))
    {
      assert P.At(base, j, |keys|) != P.At(base, d, |keys|);
    }
  }

  /** From c steps behind `base` on, the first position of L is d steps behind it. */
  ghost predicate NextOf(n: nat, base: nat, c: nat, d: nat, L: set<nat>) {
    base < n && c <= d < n && P.At(base, d, n) in L && forall j :: c <= j < d ==> P.At(base, j, n) !in L
  }

  lemma AtTwice(base: nat, c: nat, i: nat, n: nat)
    requires base < n && c < n && c + i <= n
    ensures P.At(P.At(base, c, n), i, n) == P.At(base, c + i, n)
  {
  }

  /** The next pick is the next key of L. */
  lemma PicksNext(s: P.Pool, base: nat, c: nat, d: nat, L: set<nat>, w: World, a: nat, last: nat)
    requires NextOf(|s.keys|, base, c, d, L) && s.idx == P.At(base, c, |s.keys|)
    requires LiveAhead(s.keys, base, c, L, w, a, last) && a < last
    ensures P.PickAt(s, w.pickAt(a)) == P.At(base, d, |s.keys|)
    ensures P.AfterPick(s, w.pickAt(a)).idx == P.At(base, d + 1, |s.keys|)
  {
    var n, now := |s.keys|, w.pickAt(a);
    var r := P.FirstLive(s, now, 0);
    P.FirstLiveIs(s, now, 0);
    AtTwice(base, c, d - c, n);
    assert P.Live(s.keys[P.At(s.idx, d - c, n)], now);
    assert r <= d - c;
    AtTwice(base, c, r, n);
    assert r == d - c;
    AtTwice(base, c, r + 1, n);
    hide P.FirstLive, P.Coolest, P.Scanned, P.Live;
  }

  /** An attempt that picks an untried key calls it. */
  lemma AttemptCalls(v: Visit, p: nat, w: World, c: Config)
    requires P.Valid(v.pool) && p < |v.pool.keys| && v.left > 0 && v.ending == Running
    requires p == P.PickAt(v.pool, w.pickAt(v.a)) && v.pool.keys[p].value !in v.tried
    requires Distinct(Values(v.pool.keys)) && Retryable(w.reply(v.sent), c)
    ensures var u, key := Attempt(v, w, c), v.pool.keys[p].value;
            && Values(u.pool.keys) == Values(v.pool.keys) && u.pool.idx == P.AfterPick(v.pool, w.pickAt(v.a)).idx
            && u.ending == Running && u.tried == v.tried + {key} && u.calls == v.calls + [key]
            && forall q :: 0 <= q < |v.pool.keys| && q != p ==> u.pool.keys[q].coolUntil == v.pool.keys[q].coolUntil
  {
    var key, now := v.pool.keys[p].value, w.pickAt(v.a);
    PickOnlyCounts(v.pool, now);
    var pool := P.AfterPick(v.pool, now);
    assert Values(pool.keys)[p] == Values(v.pool.keys)[p];
    assert pool.keys[p].value == key;
    var u := v.(pool := pool, left := v.left - 1, a := v.a + 1, sent := v.sent + 1, tried := v.tried + {key},
                calls := v.calls + [key]);
    hide Called, P.AfterPick, P.PickAt, Values, Distinct;
    CalledIsLocal(u, p, w.reply(v.sent), w.doneAt(v.a), c);
  }

  lemma StepCalls(v: Visit, vals: seq<string>, base: nat, c: nat, d: nat, L: set<nat>, w: World, last: nat, cfg: Config)
    requires P.Valid(v.pool) && v.pool.keys != [] && Progress(v, vals, base, c, L, w, last)
    requires NextOf(|vals|, base, c, d, L)
    requires v.left > 0 && v.a < last && Retryable(w.reply(v.sent), cfg)
    ensures var u, p := Attempt(v, w, cfg), P.At(base, d, |vals|);
            && |v.pool.keys| == |u.pool.keys| == |vals|
            && Values(u.pool.keys) == vals && u.pool.idx == P.At(base, d + 1, |vals|) && u.ending == Running
            && u.calls == v.calls + [vals[p]] && u.tried == v.tried + {vals[p]} && vals[p] !in v.tried
            && forall q :: 0 <= q < |vals| && q != p ==> u.pool.keys[q].coolUntil == v.pool.keys[q].coolUntil
  {
    var p := P.At(base, d, |vals|);
    assert Values(v.pool.keys)[p] == v.pool.keys[p].value;
    assert |v.pool.keys| == |vals|;
    hide TriedBehind, LiveAhead, NextOf, Attempt, P.AfterPick, P.PickAt, P.Live, P.Valid, P.At;
    hide Retryable, Distinct, Values;
    PicksNext(v.pool, base, c, d, L, w, v.a, last);
    TriedGrows(v.tried, vals, base, c, d);
    AttemptCalls(v, p, w, cfg);
  }

  lemma ProgressStep(v: Visit, vals: seq<string>, base: nat, c: nat, d: nat, L: set<nat>, w: World, last: nat,
                     cfg: Config)
    requires P.Valid(v.pool) && v.pool.keys != [] && Progress(v, vals, base, c, L, w, last)
    requires NextOf(|vals|, base, c, d, L)
    requires v.left > 0 && v.a < last && Causal(w) && Retryable(w.reply(v.sent), cfg)
    ensures var u, key := Attempt(v, w, cfg), vals[P.At(base, d, |vals|)];
            && Progress(u, vals, base, d + 1, L, w, last)
            && u.calls == v.calls + [key] && u.tried == v.tried + {key} && key !in v.tried
  {
    hide TriedBehind, LiveAhead, Attempt, P.Live, Retryable, Distinct, Values, P.Valid, Causal, P.At;
    StepCalls(v, vals, base, c, d, L, w, last, cfg);
    CausalMeans(w, v.a);
    TriedGrows(v.tried, vals, base, c, d);
    LiveStays(v.pool.keys, base, c, d, L, w, v.a, last, Attempt(v, w, cfg).pool.keys);
  }

  lemma NotOver(v: Visit, vals: seq<string>, base: nat, c: nat, L: set<nat>, w: World, last: nat)
    requires Progress(v, vals, base, c, L, w, last) && c < |vals| && v.left > 0
    ensures !Over(v) && |v.pool.keys| == |vals|
  {
    hide LiveAhead;
  }

  /** The keys of L that lie d and more steps behind `base` are called next, in that order; u is the visit then. */
  lemma {:induction false} LiveKeysCalled(v: Visit, vals: seq<string>, base: nat, c: nat, d: nat, L: set<nat>,
                                          w: World, last: nat, cfg: Config)
    returns (u: Visit)
    requires P.Valid(v.pool) && v.pool.keys != [] && base < |vals| && c <= d <= |vals|
    requires Progress(v, vals, base, c, L, w, last) && forall j :: c <= j < d ==> P.At(base, j, |vals|) !in L
    requires Causal(w) && (forall a: nat :: Retryable(w.reply(a), cfg))
    requires var k := |LiveFrom(vals, base, d, L)|; k <= v.left && v.a + k <= last
    ensures P.Valid(u.pool) && |u.pool.keys| == |v.pool.keys| && RunVisit(u, w, cfg) == RunVisit(v, w, cfg)
    ensures var called := LiveFrom(vals, base, d, L);
            && u.calls == v.calls + called && |u.tried| == |v.tried| + |called|
            && u.left == v.left - |called| && u.ending == Running
    decreases |vals| - d
  {
    hide Attempt, RunVisit, Causal, Retryable, Progress;
    if d == |vals| {
      u := v;
      RunningOf(v, vals, base, c, L, w, last);
    } else if P.At(base, d, |vals|) in L {
      NotOver(v, vals, base, c, L, w, last);
      VisitUnfolds(v, w, cfg);
      ProgressStep(v, vals, base, c, d, L, w, last, cfg);
      u := LiveKeysCalled(Attempt(v, w, cfg), vals, base, d + 1, d + 1, L, w, last, cfg);
    } else {
      u := LiveKeysCalled(v, vals, base, c, d + 1, L, w, last, cfg);
    }
  }

  lemma RunningOf(v: Visit, vals: seq<string>, base: nat, c: nat, L: set<nat>, w: World, last: nat)
    requires Progress(v, vals, base, c, L, w, last)
    ensures v.ending == Running
  {
  }

  // ----- what is called first -----

  lemma CallsGrowOnce(v: Visit, w: World, c: Config)
    requires P.Valid(v.pool) && v.pool.keys != [] && v.left > 0
    ensures v.calls <= Attempt(v, w, c).calls
  {
    var key := v.pool.keys[P.PickAt(v.pool, w.pickAt(v.a))].value;
    var u := v.(pool := P.AfterPick(v.pool, w.pickAt(v.a)), left := v.left - 1, a := v.a + 1);
    CalledKeeps(u.(sent := v.sent + 1, tried := v.tried + {key}, calls := v.calls + [key]),
                  key, w.reply(v.sent), w.doneAt(v.a), c);
    hide Called, P.AfterPick, P.PickAt;
  }

  lemma {:induction false} CallsGrow(v: Visit, w: World, c: Config)
    requires P.Valid(v.pool) && v.pool.keys != []
    ensures v.calls <= RunVisit(v, w, c).calls
    decreases v.left
  {
    hide Attempt;
    if Over(v) {
    } else {
      CallsGrowOnce(v, w, c);
      CallsGrow(Attempt(v, w, c), w, c);
    }
  }

  /** A visit about to begin with the keys of L live and the others cooling for as many attempts. */
  ghost predicate Begins(v: Visit, L: set<nat>, w: World) {
    && P.Valid(v.pool) && v.pool.keys != [] && Distinct(Values(v.pool.keys)) && v.tried == {} && v.ending == Running
    && (forall p :: p in L ==> p < |v.pool.keys| && P.Live(v.pool.keys[p], w.pickAt(v.a)))
    && (forall p, a :: 0 <= p < |v.pool.keys| && p !in L && v.a <= a < v.a + |L| ==>
          !P.Live(v.pool.keys[p], w.pickAt(a)))
  }

  lemma BeginsProgress(v: Visit, L: set<nat>, w: World)
    requires Begins(v, L, w)
    ensures Progress(v, Values(v.pool.keys), v.pool.idx, 0, L, w, v.a + |L|)
  {
    assert P.At(v.pool.idx, 0, |v.pool.keys|) == v.pool.idx;
  }

  lemma {:induction false} LiveFromSize(vals: seq<string>, base: nat, c: nat, L: set<nat>)
    requires base < |vals| && c <= |vals| && forall p :: p in L ==> p < |vals|
    ensures |LiveFrom(vals, base, c, L)| == |P.Ahead(L, base, c, |vals|)|
    decreases |vals| - c
  {
    var A, n := P.Ahead(L, base, c, |vals|), |vals|;
    if c == n {
      assert A == {};
    } else {
      LiveFromSize(vals, base, c + 1, L);
      var p, B := P.At(base, c, n), P.Ahead(L, base, c + 1, n);
      forall q | q in L ensures P.Dist(q, base, n) == c <==> q == p {
        assert P.At(base, P.Dist(q, base, n), n) == q;
      }
      assert A == B + if p in L then {p} else {};
    }
  }

  lemma {:induction false} LiveFromOnce(vals: seq<string>, base: nat, c: nat, L: set<nat>)
    requires base < |vals| && c <= |vals| && Distinct(vals)
    ensures Distinct(LiveFrom(vals, base, c, L))
    ensures forall x :: x in LiveFrom(vals, base, c, L) <==>
                        exists j :: c <= j < |vals| && P.At(base, j, |vals|) in L && vals[P.At(base, j, |vals|)] == x
    decreases |vals| - c
  {
    if c == |vals| {
    } else {
      var n, p, rest := |vals|, P.At(base, c, |vals|), LiveFrom(vals, base, c + 1, L);
      LiveFromOnce(vals, base, c + 1, L);
      forall j | c + 1 <= j < n ensures vals[P.At(base, j, n)] != vals[p] {
        assert P.At(base, j, n) != p;
      }
      assert vals[p] !in rest;
      var all := LiveFrom(vals, base, c, L);
      forall x ensures x in all <==> exists j :: c <= j < n && P.At(base, j, n) in L && vals[P.At(base, j, n)] == x {
        assert x in all <==> (p in L && vals[p] == x) || x in rest;
      }
    }
  }

  lemma LiveFromKeys(keys: seq<P.Key>, base: nat, L: set<nat>)
    requires base < |keys| && Distinct(Values(keys)) && forall p :: p in L ==> p < |keys|
    ensures var called := LiveFrom(Values(keys), base, 0, L);
            Distinct(called) && forall x :: x in called <==> exists p :: p in L && keys[p].value == x
  {
    var vals, n := Values(keys), |keys|;
    LiveFromOnce(vals, base, 0, L);
    hide LiveFrom;
    forall x ensures x in LiveFrom(vals, base, 0, L) <==> exists p :: p in L && keys[p].value == x {
      if p :| p in L && keys[p].value == x {
        assert P.At(base, P.Dist(p, base, n), n) == p && vals[p] == x;
      }
    }
  }

  /** Main result for partly cooling pools: while the live keys are those of L, the budget covers them and every
      reply is retryable, the first calls of a visit are the keys of L in cyclic order from the cursor on,
      each exactly once. */
  lemma LiveKeysFirst(v: Visit, L: set<nat>, w: World, c: Config)
    requires Begins(v, L, w) && v.left >= |L| && Causal(w) && (forall a: nat :: Retryable(w.reply(a), c))
    ensures v.calls + LiveFrom(Values(v.pool.keys), v.pool.idx, 0, L) <= RunVisit(v, w, c).calls
    ensures var called := LiveFrom(Values(v.pool.keys), v.pool.idx, 0, L);
            && |called| == |L| && Distinct(called)
            && forall x :: x in called <==> exists p :: p in L && v.pool.keys[p].value == x
  {
    var vals, base := Values(v.pool.keys), v.pool.idx;
    LiveFromSize(vals, base, 0, L);
    assert P.Ahead(L, base, 0, |vals|) == L;
    LiveFromKeys(v.pool.keys, base, L);
    BeginsProgress(v, L, w);
    hide Progress, RunVisit, Causal, Retryable, LiveFrom, P.Ahead;
    var u := LiveKeysCalled(v, vals, base, 0, 0, L, w, v.a + |L|, c);
    CallsGrow(u, w, c);
  }

  // ----- exhaustion -----

  /** A pool no one has used against us: distinct keys, all live at the given time. */
  ghost predicate Ready(p: P.Pool, now: int) {
    P.Valid(p) && Distinct(Values(p.keys)) && forall k :: 0 <= k < |p.keys| ==> P.Live(p.keys[k], now)
  }

  function PoolSize(provs: map<string, Prov>, name: string): nat {
    if name in provs then |provs[name].pool.keys| else 0
  }

  function TotalKeys(provs: map<string, Prov>, ts: seq<Target>): nat {
    if ts == [] then 0 else TotalKeys(provs, ts[..|ts| - 1]) + PoolSize(provs, ts[|ts| - 1].name)
  }

  /** Every key of every target, in the order of the targets and from each pool's cursor on. */
  ghost function AllCalls(provs: map<string, Prov>, ts: seq<Target>): seq<Call>
    requires ValidProvs(provs)
  {
    if ts == [] then []
    else
      var i, name := |ts| - 1, ts[|ts| - 1].name;
      AllCalls(provs, ts[..i]) + TargetCalls(provs, i, name)
  }

  /** Every key of target i, from the pool's cursor on. */
  ghost function TargetCalls(provs: map<string, Prov>, i: nat, name: string): seq<Call>
    requires ValidProvs(provs)
  {
    if name in provs then Numbered(i, From(Values(provs[name].pool.keys), provs[name].pool.idx)) else []
  }

  lemma LiveLater(w: World, a: nat, b: nat)
    requires Causal(w) && a <= b
    ensures w.pickAt(a) <= w.pickAt(b)
    decreases b - a
  {
    if a < b {
      CausalMeans(w, a);
      LiveLater(w, a + 1, b);
    }
  }

  /** Providers that no target names are as before. */
  ghost predicate OthersKept(now: map<string, Prov>, provs: map<string, Prov>, ts: seq<Target>) {
    && now.Keys == provs.Keys
    && forall n :: n in provs && (forall i :: 0 <= i < |ts| ==> ts[i].name != n) ==> now[n] == provs[n]
  }

  lemma LastIsKept(now: map<string, Prov>, provs: map<string, Prov>, ts: seq<Target>)
    requires ts != [] && OthersKept(now, provs, ts[..|ts| - 1])
    requires forall i, j :: 0 <= i < j < |ts| ==> ts[i].name != ts[j].name
    ensures ts[|ts| - 1].name in provs ==> now[ts[|ts| - 1].name] == provs[ts[|ts| - 1].name]
  {
  }

  lemma OthersStillKept(r: map<string, Prov>, s: map<string, Prov>, provs: map<string, Prov>, ts: seq<Target>)
    requires ts != [] && OthersKept(r, provs, ts[..|ts| - 1]) && s.Keys == r.Keys
    requires forall n :: n in provs && n != ts[|ts| - 1].name ==> s[n] == r[n]
    ensures OthersKept(s, provs, ts)
  {
    forall n | n in provs && (forall i :: 0 <= i < |ts| ==> ts[i].name != n) ensures s[n] == provs[n] {
      assert ts[|ts| - 1].name != n;
      assert forall i :: 0 <= i < |ts| - 1 ==> ts[..|ts| - 1][i] == ts[i];
    }
  }

  lemma LastTarget(r: Run, provs: map<string, Prov>, ts: seq<Target>, w: World, c: Config)
    requires ValidProvs(r.provs) && ValidProvs(provs) && ts != []
    ensures var i := |ts| - 1;
            && RunTargets(r, ts, w, c) == VisitTarget(RunTargets(r, ts[..i], w, c), i, ts[i], w, c)
            && AllCalls(provs, ts) == AllCalls(provs, ts[..i]) + TargetCalls(provs, i, ts[i].name)
            && TotalKeys(provs, ts) == TotalKeys(provs, ts[..i]) + PoolSize(provs, ts[i].name)
  {
    hide VisitTarget, TargetCalls, PoolSize;
  }

  /** Main result: if the pools are ready, the providers distinct, every reply is retryable and the budget covers
      all keys, then every key of every target is called exactly once, in round-robin order, before the request
      is exhausted. */
  lemma {:induction false} EveryKeyOnce(provs: map<string, Prov>, ts: seq<Target>, attempts: nat, w: World, c: Config)
    requires ValidProvs(provs) && Causal(w) && (forall a: nat :: Retryable(w.reply(a), c))
    requires forall n :: n in provs ==> Ready(provs[n].pool, w.pickAt(0))
    requires forall i, j :: 0 <= i < j < |ts| ==> ts[i].name != ts[j].name
    requires forall i :: 0 <= i < |ts| ==> ts[i].before == Proceed
    requires attempts >= TotalKeys(provs, ts)
    ensures var s := RunTargets(Run(provs, attempts, 0, [], 0, Running), ts, w, c);
            && s.ending == Running && s.calls == AllCalls(provs, ts) && s.left == attempts - TotalKeys(provs, ts)
            && OthersKept(s.provs, provs, ts)
  {
    if ts == [] {
    } else {
      hide VisitTarget, Ready, TargetCalls, Causal, Retryable, PoolSize, P.Valid, RunTargets, AllCalls, TotalKeys;
      hide OthersKept;
      var i, start := |ts| - 1, Run(provs, attempts, 0, [], 0, Running);
      LastTarget(start, provs, ts, w, c);
      EveryKeyOnce(provs, ts[..i], attempts, w, c);
      var r := RunTargets(start, ts[..i], w, c);
      LastIsKept(r.provs, provs, ts);
      TargetExhausts(provs, r, i, ts[i], w, c);
      OthersStillKept(r.provs, VisitTarget(r, i, ts[i], w, c).provs, provs, ts);
    }
  }

  function Positions(n: nat): (L: set<nat>)
    ensures |L| == n
    ensures forall p: nat :: p in L <==> p < n
  {
    if n == 0 then {}
    else
      var init := Positions(n - 1);
      assert n - 1 !in init;
      init + {n - 1}
  }

  lemma {:induction false} AllLiveFrom(vals: seq<string>, base: nat, c: nat)
    requires base < |vals| && c <= |vals|
    ensures LiveFrom(vals, base, c, Positions(|vals|)) == From(vals, base)[c..]
    decreases |vals| - c
  {
    if c == |vals| {
    } else {
      AllLiveFrom(vals, base, c + 1);
      assert From(vals, base)[c] == vals[P.At(base, c, |vals|)];
      assert From(vals, base)[c..] == [From(vals, base)[c]] + From(vals, base)[c + 1..];
    }
  }

  lemma ReadyBegins(v: Visit, w: World)
    requires Ready(v.pool, w.pickAt(0)) && Causal(w) && v.pool.keys != [] && v.tried == {} && v.ending == Running
    ensures Begins(v, Positions(|v.pool.keys|), w)
  {
    LiveLater(w, 0, v.a);
  }

  lemma VisitFromStart(r: Run, name: string, w: World, c: Config)
    requires ValidProvs(r.provs) && Causal(w) && (forall a: nat :: Retryable(w.reply(a), c))
    requires name in r.provs && r.provs[name].pool.keys != [] && Ready(r.provs[name].pool, w.pickAt(0))
    requires r.left >= |r.provs[name].pool.keys|
    ensures var pool, u := r.provs[name].pool, RunVisit(StartVisit(r, name), w, c);
            && u.calls == From(Values(pool.keys), pool.idx) && u.left == r.left - |pool.keys| && u.ending == Running
  {
    var pool, v := r.provs[name].pool, StartVisit(r, name);
    var vals, L := Values(pool.keys), Positions(|pool.keys|);
    ReadyBegins(v, w);
    BeginsProgress(v, L, w);
    AllLiveFrom(vals, pool.idx, 0);
    hide Progress, Causal, Retryable, From, LiveFrom, Begins, Ready, Positions;
    assert From(vals, pool.idx)[0..] == From(vals, pool.idx);
    assert [] + From(vals, pool.idx) == From(vals, pool.idx);
    FromSize(vals, pool.idx);
    var u := LiveKeysCalled(v, vals, pool.idx, 0, 0, L, w, v.a + |L|, c);
    assert Over(u);
  }

  lemma FromSize(vals: seq<string>, idx: nat)
    requires idx <= |vals|
    ensures |From(vals, idx)| == |vals|
  {
  }

  lemma TargetExhausts(provs: map<string, Prov>, r: Run, i: nat, t: Target, w: World, c: Config)
    requires ValidProvs(provs) && ValidProvs(r.provs) && r.provs.Keys == provs.Keys
    requires Causal(w) && (forall a: nat :: Retryable(w.reply(a), c))
    requires t.before == Proceed && r.ending == Running && r.left >= PoolSize(provs, t.name)
    requires t.name in provs ==> r.provs[t.name] == provs[t.name] && Ready(provs[t.name].pool, w.pickAt(0))
    ensures var s := VisitTarget(r, i, t, w, c);
            && s.ending == Running && s.left == r.left - PoolSize(provs, t.name)
            && s.calls == r.calls + TargetCalls(provs, i, t.name)
            && forall n :: n in provs && n != t.name ==> s.provs[n] == r.provs[n]
  {
    hide RunVisit, Causal, Retryable, Ready;
    if t.name in provs {
      var pool := provs[t.name].pool;
      if pool.keys == [] {
        assert From(Values(pool.keys), pool.idx) == [];
        assert r.calls + Numbered(i, []) == r.calls;
      } else {
        VisitFromStart(r, t.name, w, c);
      }
    } else {
      assert r.calls + [] == r.calls;
    }
  }

  /** The keys from the cursor on are all the keys, each as often as it occurs. */
  lemma FromPermutes(vals: seq<string>, idx: nat)
    requires idx <= |vals|
    ensures multiset(From(vals, idx)) == multiset(vals)
  {
    assert vals == vals[..idx] + vals[idx..];
  }

  // ----- where the loop falls short -----

  lemma CoolestStays(s: P.Pool, now: int, later: int)
    requires P.Valid(s) && s.keys != []
    requires forall p :: 0 <= p < |s.keys| ==> !P.Live(s.keys[p], now) && !P.Live(s.keys[p], later)
    ensures P.PickAt(P.AfterPick(s, now), later) == P.PickAt(s, now)
    ensures Values(P.AfterPick(s, now).keys) == Values(s.keys) && P.AfterPick(s, now).idx == s.idx
  {
    PickOnlyCounts(s, now);
    var n, t := |s.keys|, P.AfterPick(s, now);
    P.FirstLiveIs(s, now, 0);
    P.FirstLiveIs(t, later, 0);
    assert P.FirstLive(s, now, 0) == n && P.FirstLive(t, later, 0) == n;
    SameCoolest(s, t, n);
  }

  lemma {:induction false} SameCoolest(s: P.Pool, t: P.Pool, i: nat)
    requires s.idx == t.idx < |s.keys| == |t.keys| && 0 < i <= |s.keys|
    requires forall p :: 0 <= p < |s.keys| ==> s.keys[p].coolUntil == t.keys[p].coolUntil
    ensures P.Coolest(s, i) == P.Coolest(t, i)
  {
    if i > 1 { SameCoolest(s, t, i - 1); }
  }

  /** No key is live at any of the remaining picks. */
  ghost predicate AllCooling(s: P.Pool, w: World, from: nat) {
    forall a: nat, p :: a >= from && 0 <= p < |s.keys| ==> !P.Live(s.keys[p], w.pickAt(a))
  }

  /** While every key is cooling and the coolest one was already tried, the loop burns its whole budget on it. */
  lemma {:induction false} StuckOnFallback(v: Visit, w: World, c: Config)
    requires P.Valid(v.pool) && v.pool.keys != [] && v.ending == Running && |v.tried| < |v.pool.keys|
    requires AllCooling(v.pool, w, v.a)
    requires v.pool.keys[P.PickAt(v.pool, w.pickAt(v.a))].value in v.tried
    ensures RunVisit(v, w, c).calls == v.calls && RunVisit(v, w, c).left == 0
    decreases v.left
  {
    if v.left > 0 {
      hide Attempt, AllCooling;
      StuckStep(v, w, c);
      StuckOnFallback(Attempt(v, w, c), w, c);
    }
  }

  lemma StuckStep(v: Visit, w: World, c: Config)
    requires P.Valid(v.pool) && v.pool.keys != [] && v.left > 0 && AllCooling(v.pool, w, v.a)
    requires v.pool.keys[P.PickAt(v.pool, w.pickAt(v.a))].value in v.tried
    ensures var u := Attempt(v, w, c);
            && u == v.(pool := u.pool, left := v.left - 1, a := v.a + 1)
            && AllCooling(u.pool, w, u.a) && u.pool.keys[P.PickAt(u.pool, w.pickAt(u.a))].value in u.tried
  {
    hide P.AfterPick, P.PickAt, P.Live, Values;
    var u, p := Attempt(v, w, c), P.PickAt(v.pool, w.pickAt(v.a));
    CoolingAt(v.pool, w, v.a, v.a);
    CoolingAt(v.pool, w, v.a, v.a + 1);
    CoolestStays(v.pool, w.pickAt(v.a), w.pickAt(v.a + 1));
    SameValue(v.pool.keys, u.pool.keys, p);
    CoolingKept(v.pool, w, v.a);
  }

  lemma SameValue(ks: seq<P.Key>, ls: seq<P.Key>, p: nat)
    requires Values(ks) == Values(ls) && p < |ks| == |ls|
    ensures ks[p].value == ls[p].value
  {
    assert Values(ks)[p] == Values(ls)[p];
  }

  lemma CoolingKept(s: P.Pool, w: World, from: nat)
    requires P.Valid(s) && s.keys != [] && AllCooling(s, w, from)
    ensures AllCooling(P.AfterPick(s, w.pickAt(from)), w, from + 1)
  {
    hide P.AfterPick;
    PickOnlyCounts(s, w.pickAt(from));
  }

  /** While every key is cooling, a visit that may go on makes another call exactly when the coolest key, the one the
      next pick returns, has not been tried. */
  lemma StuckIff(v: Visit, w: World, c: Config)
    requires P.Valid(v.pool) && v.pool.keys != [] && !Over(v) && AllCooling(v.pool, w, v.a)
    ensures RunVisit(v, w, c).calls == v.calls <==> v.pool.keys[P.PickAt(v.pool, w.pickAt(v.a))].value in v.tried
  {
    var key := v.pool.keys[P.PickAt(v.pool, w.pickAt(v.a))].value;
    if key in v.tried {
      StuckOnFallback(v, w, c);
    } else {
      var u := v.(pool := P.AfterPick(v.pool, w.pickAt(v.a)), left := v.left - 1, a := v.a + 1, sent := v.sent + 1,
                  tried := v.tried + {key}, calls := v.calls + [key]);
      CalledKeeps(u, key, w.reply(v.sent), w.doneAt(v.a), c);
      hide Called, P.AfterPick, P.PickAt, AllCooling;
      assert Attempt(v, w, c).calls == v.calls + [key];
      hide Attempt;
      CallsGrow(Attempt(v, w, c), w, c);
    }
  }

  lemma CoolingAt(s: P.Pool, w: World, from: nat, a: nat)
    requires AllCooling(s, w, from) && a >= from
    ensures forall p :: 0 <= p < |s.keys| ==> !P.Live(s.keys[p], w.pickAt(a))
  {
  }

  lemma TwoCooling(s: P.Pool, now: int)
    requires |s.keys| == 2 && s.idx == 0 && s.keys[0].coolUntil <= s.keys[1].coolUntil
    requires !P.Live(s.keys[0], now) && !P.Live(s.keys[1], now)
    ensures P.PickAt(s, now) == 0 && P.AfterPick(s, now).idx == 0
    ensures Values(P.AfterPick(s, now).keys) == Values(s.keys)
    ensures forall q :: 0 <= q < 2 ==> P.AfterPick(s, now).keys[q].coolUntil == s.keys[q].coolUntil
  {
    assert P.FirstLive(s, now, 0) == 2;
    assert P.Coolest(s, 2) == 0;
    PickOnlyCounts(s, now);
  }

  /** A concrete case: two cooling keys, any budget; the second key is never called. */
  lemma SecondKeyNeverCalled(attempts: nat, c: Config)
    requires attempts >= 1
    ensures var keys := [P.Key("A", 1000 * P.SECOND, 0, 0, 0, 0), P.Key("B", 2000 * P.SECOND, 0, 0, 0, 0)];
            var w := World(a => TransportError, a => 0, a => 0);
            var u := RunVisit(Visit(P.Pool(keys, 0), B.CLOSED, attempts, 0, 0, {}, [], 0, Running), w, c);
            u.calls == ["A"] && u.left == 0
  {
    var keys := [P.Key("A", 1000 * P.SECOND, 0, 0, 0, 0), P.Key("B", 2000 * P.SECOND, 0, 0, 0, 0)];
    var w := World(a => TransportError, a => 0, a => 0);
    var v := Visit(P.Pool(keys, 0), B.CLOSED, attempts, 0, 0, {}, [], 0, Running);
    hide P.AfterPick, P.PickAt, P.FirstLive, P.Coolest;
    TwoCooling(v.pool, 0);
    var t := P.AfterPick(v.pool, 0);
    assert t.keys[0].value == Values(t.keys)[0] == Values(keys)[0] == "A";
    assert t.keys[1].value == Values(t.keys)[1] == Values(keys)[1] == "B";
    var u := Attempt(v, w, c);
    assert u.pool.idx == 0 && u.calls == ["A"] && u.tried == {"A"};
    assert u.pool.keys[0].coolUntil == 1000 * P.SECOND && u.pool.keys[1].coolUntil == 2000 * P.SECOND;
    TwoCooling(u.pool, 0);
    hide Attempt;
    StuckOnFallback(u, w, c);
    VisitUnfolds(v, w, c);
  }
}
