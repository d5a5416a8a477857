/** The token bucket that limits admin requests per client address. Times are seconds, as reals. */
module TokenBucket {
  datatype Bucket = Bucket(tokens: real, last: real)

  datatype Limit = Limit(rate: real, burst: real)

  const DEFAULT_PER_MINUTE := 30

  function LimitFor(rpm: int): Limit {
    var n := if rpm <= 0 then DEFAULT_PER_MINUTE else rpm;
    Limit(n as real / 60.0, n as real)
  }

  ghost predicate Sound(l: Limit) {
    l.rate > 0.0 && l.burst >= 1.0
  }

  type Buckets = map<string, Bucket>

  /** The tokens that trickle in over a while. */
  function Earned(rate: real, elapsed: real): real {
    elapsed * rate
  }

  lemma NothingEarned(rate: real)
    ensures Earned(rate, 0.0) == 0.0
  {
  }

  /** What is in the bucket at a time; a new bucket is full. */
  function Refilled(l: Limit, bs: Buckets, key: string, now: real): (r: real)
    ensures r <= l.burst
  {
    if key !in bs then l.burst
    else
      var r := bs[key].tokens + Earned(l.rate, now - bs[key].last);
      if r > l.burst then l.burst else r
  }

  predicate Admits(l: Limit, bs: Buckets, key: string, now: real) {
    Refilled(l, bs, key, now) >= 1.0
  }

  function AfterCall(l: Limit, bs: Buckets, key: string, now: real): Buckets {
    var r := Refilled(l, bs, key, now);
    bs[key := Bucket(if r < 1.0 then r else r - 1.0, now)]
  }

  class Limiter {
    var buckets: Buckets
    const rate: real
    const burst: real

    constructor (rpm: int)
      ensures buckets == map[] && Limit(rate, burst) == LimitFor(rpm) && Sound(Limit(rate, burst))
      ensures var perMinute := (if rpm <= 0 then 30 else rpm) as real; rate == perMinute / 60.0 && burst == perMinute
    {
      var n := rpm;
      if n <= 0 { n := DEFAULT_PER_MINUTE; }
      buckets, rate, burst := map[], n as real / 60.0, n as real;
    }

    method Allow(key: string, now: real) returns (ok: bool)
      modifies this`buckets
      ensures ok == Admits(Limit(rate, burst), old(buckets), key, now)
      ensures buckets == AfterCall(Limit(rate, burst), old(buckets), key, now)
    {
      hide Earned;
      NothingEarned(rate);
      if key !in buckets { buckets := buckets[key := Bucket(burst, now)]; }
      var b := buckets[key];
      var elapsed := now - b.last;
      b := b.(tokens := b.tokens + Earned(rate, elapsed));
      if b.tokens > burst { b := b.(tokens := burst); }
      b := b.(last := now);
      buckets := buckets[key := b];
      if b.tokens < 1.0 { return false; }
      buckets := buckets[key := b.(tokens := b.tokens - 1.0)];
      ok := true;
    }
  }

  // ----- runs -----

  datatype Call = Call(key: string, at: real)

  function After(l: Limit, h: seq<Call>): Buckets {
    if h == [] then map[] else AfterCall(l, After(l, h[..|h| - 1]), h[|h| - 1].key, h[|h| - 1].at)
  }

  predicate AdmittedAt(l: Limit, h: seq<Call>, i: nat)
    requires i < |h|
  {
    Admits(l, After(l, h[..i]), h[i].key, h[i].at)
  }

  ghost predicate InOrder(h: seq<Call>) {
    forall i, j :: 0 <= i <= j < |h| ==> h[i].at <= h[j].at
  }

  /** How many calls for the key were admitted between s and t, both included. */
  function Admitted(l: Limit, h: seq<Call>, key: string, s: real, t: real): nat {
    if h == [] then 0
    else
      var g, c := h[..|h| - 1], h[|h| - 1];
      Admitted(l, g, key, s, t) +
      if c.key == key && s <= c.at <= t && Admits(l, After(l, g), c.key, c.at) then 1 else 0
  }

  ghost predicate InBounds(l: Limit, bs: Buckets, now: real) {
    forall k :: k in bs ==> 0.0 <= bs[k].tokens <= l.burst && bs[k].last <= now
  }

  lemma RefillPositive(l: Limit, bs: Buckets, key: string, now: real)
    requires Sound(l) && InBounds(l, bs, now)
    ensures 0.0 <= Refilled(l, bs, key, now)
    ensures key in bs ==> bs[key].tokens <= Refilled(l, bs, key, now)
  {
    if key in bs { Gain(l.rate, now - bs[key].last); }
    hide Earned;
  }

  lemma Gain(rate: real, elapsed: real)
    requires rate > 0.0 && elapsed >= 0.0
    ensures Earned(rate, elapsed) >= 0.0
  {
  }

  lemma PrefixInOrder(h: seq<Call>)
    requires h != [] && InOrder(h)
    ensures InOrder(h[..|h| - 1]) && forall i :: 0 <= i < |h| ==> h[i].at <= h[|h| - 1].at
  {
  }

  /** Over every run in time order, each bucket holds between nothing and the burst. */
  lemma {:induction false} TokensInBounds(l: Limit, h: seq<Call>, now: real)
    requires Sound(l) && InOrder(h) && (forall i :: 0 <= i < |h| ==> h[i].at <= now)
    ensures InBounds(l, After(l, h), now)
  {
    if h == [] {
    } else {
      var g, c := h[..|h| - 1], h[|h| - 1];
      PrefixInOrder(h);
      TokensInBounds(l, g, c.at);
      RefillPositive(l, After(l, g), c.key, c.at);
    }
  }

  // ----- the rate bound -----

  lemma Split(rate: real, a: real, b: real, c: real)
    ensures Earned(rate, c - b) + Earned(rate, b - a) == Earned(rate, c - a)
  {
  }

  /** The key's last call was before s and none is counted, or the count and what is left fit in the allowance. */
  ghost predicate Account(l: Limit, bs: Buckets, key: string, s: real, count: nat) {
    if key !in bs || bs[key].last < s then count == 0
    else count as real + bs[key].tokens <= l.burst + Earned(l.rate, bs[key].last - s)
  }

  lemma AccountStep(l: Limit, bs: Buckets, key: string, s: real, count: nat, now: real)
    requires Sound(l) && InBounds(l, bs, now) && Account(l, bs, key, s, count)
    ensures Account(l, AfterCall(l, bs, key, now), key, s, count + if s <= now && Admits(l, bs, key, now) then 1 else 0)
  {
    hide Earned;
    if s <= now {
      Gain(l.rate, now - s);
      if key in bs && bs[key].last >= s { Split(l.rate, s, bs[key].last, now); }
    }
  }

  /** Calls for one key leave the other buckets alone. */
  lemma OtherKeys(l: Limit, bs: Buckets, other: string, now: real, key: string)
    requires other != key
    ensures key in AfterCall(l, bs, other, now) <==> key in bs
    ensures key in bs ==> AfterCall(l, bs, other, now)[key] == bs[key]
  {
  }

  lemma AccountSame(l: Limit, bs: Buckets, cs: Buckets, key: string, s: real, count: nat)
    requires Account(l, bs, key, s, count) && (key in bs <==> key in cs) && (key in bs ==> cs[key] == bs[key])
    ensures Account(l, cs, key, s, count)
  {
  }

  lemma {:induction false} AccountHolds(l: Limit, h: seq<Call>, key: string, s: real, t: real)
    requires Sound(l) && InOrder(h) && (forall i :: 0 <= i < |h| ==> h[i].at <= t)
    ensures Account(l, After(l, h), key, s, Admitted(l, h, key, s, t))
  {
    if h == [] {
    } else {
      var g, c := h[..|h| - 1], h[|h| - 1];
      PrefixInOrder(h);
      hide InOrder, InBounds, AfterCall, Admits, Account, Earned, Refilled, Sound;
      TokensInBounds(l, g, c.at);
      AccountHolds(l, g, key, s, t);
      if c.key == key {
        AccountStep(l, After(l, g), key, s, Admitted(l, g, key, s, t), c.at);
      } else {
        OtherKeys(l, After(l, g), c.key, c.at, key);
        AccountSame(l, After(l, g), After(l, h), key, s, Admitted(l, g, key, s, t));
      }
    }
  }

  lemma AccountBounds(l: Limit, bs: Buckets, key: string, s: real, t: real, count: nat)
    requires Sound(l) && s <= t && InBounds(l, bs, t) && Account(l, bs, key, s, count)
    ensures count as real <= l.burst + Earned(l.rate, t - s)
  {
    hide Earned;
    Gain(l.rate, t - s);
    if key in bs && bs[key].last >= s {
      Gain(l.rate, t - bs[key].last);
      Split(l.rate, s, bs[key].last, t);
    }
  }

  /** Main result: in every run, for every key and every interval, the requests admitted are at most the burst plus
      the rate times the length of the interval. */
  lemma {:induction false} RateBound(l: Limit, h: seq<Call>, key: string, s: real, t: real)
    requires Sound(l) && InOrder(h) && s <= t
    ensures Admitted(l, h, key, s, t) as real <= l.burst + Earned(l.rate, t - s)
  {
    hide Earned, Account, Admits, After;
    if h == [] {
      Gain(l.rate, t - s);
    } else {
      PrefixInOrder(h);
      if h[|h| - 1].at > t {
        RateBound(l, h[..|h| - 1], key, s, t);
      } else {
        AccountHolds(l, h, key, s, t);
        TokensInBounds(l, h, t);
        AccountBounds(l, After(l, h), key, s, t, Admitted(l, h, key, s, t));
      }
    }
  }

  // ----- the patient client -----

  /** Calls for the key are at least the time of one token apart. */
  ghost predicate Spaced(l: Limit, h: seq<Call>, key: string) {
    forall i, j :: 0 <= i < j < |h| && h[i].key == key && h[j].key == key ==> Earned(l.rate, h[j].at - h[i].at) >= 1.0
  }

  /** The bucket's time is that of the last call for its key. */
  lemma {:induction false} LastIsLastCall(l: Limit, h: seq<Call>, key: string)
    ensures key in After(l, h) ==> exists i :: 0 <= i < |h| && h[i].key == key && h[i].at == After(l, h)[key].last
  {
    if h == [] {
    } else {
      var g, c := h[..|h| - 1], h[|h| - 1];
      LastIsLastCall(l, g, key);
      if c.key != key && key in After(l, g) {
        OtherKeys(l, After(l, g), c.key, c.at, key);
        var i :| 0 <= i < |g| && g[i].key == key && g[i].at == After(l, g)[key].last;
        assert h[i].key == key;
      }
    }
  }

  /** Main result: a key whose calls are spaced by the time of one token, 60 / rpm seconds, is never refused, whatever
      the other keys do. */
  lemma SpacedNeverRefused(l: Limit, h: seq<Call>, key: string, i: nat)
    requires Sound(l) && InOrder(h) && Spaced(l, h, key) && i < |h| && h[i].key == key
    ensures AdmittedAt(l, h, i)
  {
    var g := h[..i];
    assert InOrder(g);
    hide Earned, After, Sound;
    TokensInBounds(l, g, h[i].at);
    hide InOrder, Refilled;
    LastIsLastCall(l, g, key);
    var bs := After(l, g);
    if key in bs {
      var j :| 0 <= j < |g| && g[j].key == key && g[j].at == bs[key].last;
      assert h[j].key == key;
    }
    hide Spaced;
    EnoughEarned(l, bs, key, h[i].at);
  }

  lemma EnoughEarned(l: Limit, bs: Buckets, key: string, now: real)
    requires Sound(l) && InBounds(l, bs, now) && (key in bs ==> Earned(l.rate, now - bs[key].last) >= 1.0)
    ensures Admits(l, bs, key, now)
  {
    hide Earned;
  }

  /** The time of one token for the configured rate. */
  lemma TokenTime(rpm: int, gap: real)
    requires rpm > 0
    ensures Sound(LimitFor(rpm)) && (Earned(LimitFor(rpm).rate, gap) >= 1.0 <==> gap >= 60.0 / rpm as real)
  {
    var n := rpm as real;
    assert gap * (n / 60.0) == gap * n / 60.0;
    assert (60.0 / n) * n == 60.0;
    TimesMonotone(n, gap, 60.0 / n);
  }

  lemma TimesMonotone(n: real, a: real, b: real)
    requires n > 0.0
    ensures a >= b <==> a * n >= b * n
  {
    assert a * n - b * n == (a - b) * n;
    if a - b < 0.0 { assert (b - a) * n > 0.0; }
  }

  // ----- the burst -----

  /** k calls for the key at one time. */
  function AtOnce(key: string, t: real, k: nat): seq<Call> {
    seq(k, i => Call(key, t))
  }

  /** Every call for the key was long enough ago for a whole burst. */
  ghost predicate Rested(l: Limit, h: seq<Call>, key: string, t: real) {
    forall i :: 0 <= i < |h| && h[i].key == key ==> Earned(l.rate, t - h[i].at) >= l.burst
  }

  lemma RestedIsFull(l: Limit, h: seq<Call>, key: string, t: real)
    requires Sound(l) && InOrder(h) && (forall i :: 0 <= i < |h| ==> h[i].at <= t) && Rested(l, h, key, t)
    ensures Refilled(l, After(l, h), key, t) == l.burst
  {
    hide Earned, After, InOrder;
    TokensInBounds(l, h, t);
    LastIsLastCall(l, h, key);
    var bs := After(l, h);
    if key in bs {
      var i :| 0 <= i < |h| && h[i].key == key && h[i].at == bs[key].last;
    }
  }

  lemma TakenAt(l: Limit, bs: Buckets, key: string, t: real)
    requires Sound(l)
    ensures var r := Refilled(l, bs, key, t);
            Refilled(l, AfterCall(l, bs, key, t), key, t) == if r >= 1.0 then r - 1.0 else r
  {
    hide Earned;
    NothingEarned(l.rate);
  }

  lemma {:induction false} LeftAfter(l: Limit, h: seq<Call>, key: string, t: real, k: nat)
    requires Sound(l) && Refilled(l, After(l, h), key, t) == l.burst
    ensures var r := Refilled(l, After(l, h + AtOnce(key, t, k)), key, t);
            if k as real <= l.burst then r == l.burst - k as real else r < 1.0
  {
    if k == 0 {
      assert h + AtOnce(key, t, 0) == h;
    } else {
      LeftAfter(l, h, key, t, k - 1);
      var g := h + AtOnce(key, t, k - 1);
      assert h + AtOnce(key, t, k) == g + [Call(key, t)];
      assert (g + [Call(key, t)])[..|g|] == g;
      TakenAt(l, After(l, g), key, t);
      hide Refilled, AfterCall;
    }
  }

  /** Main result on bursts: of any number of calls a rested key makes at once, exactly those up to the burst are
      admitted. */
  lemma BurstAdmitted(l: Limit, h: seq<Call>, key: string, t: real, n: nat, k: nat)
    requires Sound(l) && InOrder(h) && (forall i :: 0 <= i < |h| ==> h[i].at <= t) && Rested(l, h, key, t) && k < n
    ensures AdmittedAt(l, h + AtOnce(key, t, n), |h| + k) <==> (k + 1) as real <= l.burst
  {
    var all := h + AtOnce(key, t, n);
    assert all[..|h| + k] == h + AtOnce(key, t, k);
    RestedIsFull(l, h, key, t);
    LeftAfter(l, h, key, t, k);
    hide Refilled, After;
  }

  /** In figures: a key that has not called for a minute may make rpm calls at once, and no more. */
  lemma MinuteRested(rpm: int, h: seq<Call>, key: string, t: real, n: nat, k: nat)
    requires rpm > 0 && InOrder(h) && (forall i :: 0 <= i < |h| ==> h[i].at <= t) && k < n
    requires forall i :: 0 <= i < |h| && h[i].key == key ==> t - h[i].at >= 60.0
    ensures AdmittedAt(LimitFor(rpm), h + AtOnce(key, t, n), |h| + k) <==> k < rpm
  {
    var l := LimitFor(rpm);
    forall i | 0 <= i < |h| && h[i].key == key ensures Earned(l.rate, t - h[i].at) >= l.burst {
      MinuteFills(rpm, t - h[i].at);
    }
    hide Earned, AdmittedAt, InOrder;
    BurstAdmitted(l, h, key, t, n, k);
  }

  lemma MinuteFills(rpm: int, gap: real)
    requires rpm > 0 && gap >= 60.0
    ensures Earned(LimitFor(rpm).rate, gap) >= LimitFor(rpm).burst
  {
    var n := rpm as real;
    assert gap * (n / 60.0) == gap * n / 60.0;
    TimesMonotone(n, gap, 60.0);
  }

  // ----- keys do not interfere -----

  function CallsOf(h: seq<Call>, key: string): seq<Call> {
    if h == [] then []
    else CallsOf(h[..|h| - 1], key) + if h[|h| - 1].key == key then [h[|h| - 1]] else []
  }

  /** A key's bucket is what it would be if it were the only client. */
  lemma {:induction false} KeysIndependent(l: Limit, h: seq<Call>, key: string)
    ensures key in After(l, h) <==> key in After(l, CallsOf(h, key))
    ensures key in After(l, h) ==> After(l, h)[key] == After(l, CallsOf(h, key))[key]
  {
    if h == [] {
    } else {
      var g, c := h[..|h| - 1], h[|h| - 1];
      KeysIndependent(l, g, key);
      var own := CallsOf(g, key);
      if c.key == key {
        assert (own + [c])[..|own + [c]| - 1] == own;
      } else {
        assert own + [] == own;
      }
    }
  }
}
