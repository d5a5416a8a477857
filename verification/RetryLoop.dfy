/** The target and key retry loop of `handleMessages`.

    The upstreams and the clock are given by a World: the reply to call number n, counted over all targets, and the
    times at which attempt number a picks its key and learns its outcome. */
module RetryLoop {
  import P = KeyPool
  import B = Breaker

  /** What became of a reply with a success status. */
  datatype Delivery = Delivered | StreamFailed | BlockedByGuardrail

  /** A Retry-After header: absent or blank, a number that fits 64 bits, an HTTP date, or anything else. */
  datatype RetryHeader = Blank | Seconds(n: int) | Date(at: int) | Unreadable

  datatype Reply =
    | TransportError
    | Rejected(status: int, header: RetryHeader)
    | Accepted(status: int, delivery: Delivery)

  datatype World = World(reply: nat -> Reply, pickAt: nat -> nat, doneAt: nat -> nat)

  /** Time does not run backwards. */
  ghost predicate Causal(w: World) {
    forall a: nat :: w.pickAt(a) <= w.doneAt(a) <= w.pickAt(a + 1)
  }

  datatype Config = Config(soft: seq<int>, hard: seq<int>)

  // ----- classifyStatus and parseRetryAfter -----

  datatype FailKind = Fatal | Soft | Hard

  function Classify(status: int, c: Config): FailKind {
    if status in c.hard then Hard else if status in c.soft then Soft else Fatal
  }

  /** `classifyStatus`; a status in both lists counts as hard. */
  method ClassifyStatus(status: int, soft: seq<int>, hard: seq<int>) returns (k: FailKind)
    ensures k == Classify(status, Config(soft, hard))
  {
    for i := 0 to |hard|
      invariant status !in hard[..i]
    {
      if status == hard[i] { return Hard; }
    }
    for i := 0 to |soft|
      invariant status !in soft[..i]
    {
      if status == soft[i] { return Soft; }
    }
    k := Fatal;
  }

  const MAX_WAIT := 600 * P.SECOND
  const TWO_63 := 0x8000_0000_0000_0000
  const TWO_64 := 0x1_0000_0000_0000_0000

  /** Two's-complement wrap-around at 64 bits. */
  function Wrap64(n: int): (r: int)
    ensures -TWO_63 <= r < TWO_63
  {
    (n + TWO_63) % TWO_64 - TWO_63
  }

  function Capped(d: int): int {
    if d > MAX_WAIT then MAX_WAIT else d
  }

  /** How long a header asks to wait. */
  function RetryWait(h: RetryHeader, now: int): (d: int)
    ensures d <= MAX_WAIT
  {
    match h
    case Seconds(n) => if n > 0 then Capped(Wrap64(n * P.SECOND)) else 0
    case Date(at) => if at > now then Capped(at - now) else 0
    case _ => 0
  }

  /** `parseRetryAfter` */
  method ParseRetryAfter(h: RetryHeader, now: int) returns (d: int)
    ensures d == RetryWait(h, now)
  {
    match h
    case Blank => d := 0;
    case Seconds(n) =>
      d := 0;
      if n > 0 {
        d := Wrap64(n * P.SECOND);
        if d > MAX_WAIT { d := MAX_WAIT; }
      }
    case Date(at) =>
      d := 0;
      if at - now > 0 {
        d := at - now;
        if d > MAX_WAIT { d := MAX_WAIT; }
      }
    case Unreadable => d := 0;
  }

  lemma WrapByRemainder(n: int)
    ensures var r := n % TWO_64; Wrap64(n) == if r < TWO_63 then r else r - TWO_64
  {
    var q, r := n / TWO_64, n % TWO_64;
    assert n == q * TWO_64 + r;
    var m := n + TWO_63;
    if r < TWO_63 {
      assert m == q * TWO_64 + (r + TWO_63) && m / TWO_64 == q;
    } else {
      assert m == (q + 1) * TWO_64 + (r - TWO_63) && m / TWO_64 == q + 1;
    }
  }

  /** A wait in seconds is the one asked for, capped at ten minutes, exactly when it is below the cap or its
      nanoseconds modulo 2^64 lie between the cap and 2^63. */
  lemma SecondsHonouredIff(secs: int, now: int)
    requires 0 < secs < TWO_63
    ensures RetryWait(Seconds(secs), now) == (if secs < 600 then secs else 600) * P.SECOND <==>
            secs < 600 || MAX_WAIT <= secs * P.SECOND % TWO_64 < TWO_63
  {
    WrapByRemainder(secs * P.SECOND);
    if secs < 600 { assert secs * P.SECOND % TWO_64 == secs * P.SECOND; }
    hide Wrap64;
  }

  /** In particular up to 9223372036 seconds, and with one second more the wait is negative. */
  lemma SecondsOverflow(secs: int, now: int)
    requires 0 < secs
    ensures secs <= 9_223_372_036 ==> RetryWait(Seconds(secs), now) == (if secs < 600 then secs else 600) * P.SECOND
    ensures RetryWait(Seconds(9_223_372_037), now) < 0
  {
    if secs <= 9_223_372_036 { WrapByRemainder(secs * P.SECOND); }
  }

  /** A wait up to a date is the time to it, capped at ten minutes; a date that has passed, a number that is not
      positive, or no readable header at all asks for no wait. */
  lemma OtherWaits(h: RetryHeader, now: int)
    ensures h.Date? ==> RetryWait(h, now) == if h.at <= now then 0
                                             else if h.at <= now + 600_000_000_000 then h.at - now else 600_000_000_000
    ensures h.Seconds? && h.n <= 0 ==> RetryWait(h, now) == 0
    ensures h.Blank? || h.Unreadable? ==> RetryWait(h, now) == 0
  {
  }

  // ----- one target -----

  datatype Ending = Running | Served | PassedThrough(status: int) | Blocked | PayloadFailed | FromCache

  /** The loop's variables while one target is tried: `left` attempts remain, a were made and `sent` calls over all
      targets, `calls` lists the keys sent to this one. `last` is the status of the last failure, 0 for a transport
      error. */
  datatype Visit = Visit(pool: P.Pool, breaker: B.State, left: nat, a: nat, sent: nat, tried: set<string>,
                         calls: seq<string>, last: int, ending: Ending)

  function Noted(v: Visit, ok: bool, now: nat): Visit {
    v.(breaker := B.Note(v.breaker, B.Outcome(ok, now / P.SECOND)))
  }

  function ReportedTo(v: Visit, key: string, kind: P.FailKind, hint: int, now: int): Visit {
    v.(pool := P.AfterReport(v.pool, key, kind, hint, now))
  }

  /** The bookkeeping after a call with the given reply. */
  function Called(v: Visit, key: string, reply: Reply, now: nat, c: Config): Visit {
    match reply
    case TransportError => Noted(ReportedTo(v, key, P.SoftFail, 0, now), false, now).(last := 0)
    case Rejected(st, h) => (
      match Classify(st, c)
      case Hard => Noted(ReportedTo(v, key, P.HardFail, 0, now), false, now).(last := st)
      case Soft => Noted(ReportedTo(v, key, P.SoftFail, RetryWait(h, now), now), false, now).(last := st)
      case Fatal => v.(last := st, ending := PassedThrough(st)))
    case Accepted(st, d) =>
      var u := Noted(ReportedTo(v, key, P.Success, 0, now), true, now);
      match d
      case Delivered => u.(ending := Served)
      case StreamFailed => u.(last := st)
      case BlockedByGuardrail => u.(ending := Blocked)
  }

  function Attempt(v: Visit, w: World, c: Config): (u: Visit)
    requires P.Valid(v.pool) && v.pool.keys != [] && v.left > 0
    ensures P.Valid(u.pool) && |u.pool.keys| == |v.pool.keys| && u.left == v.left - 1 && u.a == v.a + 1
  {
    var key := v.pool.keys[P.PickAt(v.pool, w.pickAt(v.a))].value;
    var u := v.(pool := P.AfterPick(v.pool, w.pickAt(v.a)), left := v.left - 1, a := v.a + 1);
    if key in v.tried then u
    else
      Called(u.(sent := v.sent + 1, tried := v.tried + {key}, calls := v.calls + [key]),
             key, w.reply(v.sent), w.doneAt(v.a), c)
  }

  predicate Over(v: Visit) {
    v.ending != Running || v.left == 0 || |v.tried| >= |v.pool.keys|
  }

  function RunVisit(v: Visit, w: World, c: Config): (u: Visit)
    requires P.Valid(v.pool) && v.pool.keys != []
    ensures P.Valid(u.pool) && |u.pool.keys| == |v.pool.keys| && u.left <= v.left
    decreases v.left
  {
    if Over(v) then v else RunVisit(Attempt(v, w, c), w, c)
  }

  lemma VisitUnfolds(v: Visit, w: World, c: Config)
    requires P.Valid(v.pool) && v.pool.keys != []
    ensures RunVisit(v, w, c) == if Over(v) then v else RunVisit(Attempt(v, w, c), w, c)
  {
    hide Attempt;
  }

  // ----- all targets -----

  datatype Prov = Prov(pool: P.Pool, breaker: B.State)

  /** What is settled before a target is tried: its payload cannot be built, or the cache has the answer. */
  datatype Before = Proceed | BadPayload | CacheHit

  datatype Target = Target(name: string, before: Before)

  datatype Call = Call(target: nat, key: string)

  datatype Run = Run(provs: map<string, Prov>, left: nat, a: nat, calls: seq<Call>, last: int, ending: Ending)

  ghost predicate ValidProvs(ps: map<string, Prov>) {
    forall n :: n in ps ==> P.Valid(ps[n].pool)
  }

  function Numbered(i: nat, keys: seq<string>): seq<Call> {
    seq(|keys|, k requires 0 <= k < |keys| => Call(i, keys[k]))
  }

  function StartVisit(r: Run, name: string): Visit
    requires name in r.provs
  {
    Visit(r.provs[name].pool, r.provs[name].breaker, r.left, r.a, |r.calls|, {}, [], r.last, Running)
  }

  ghost function VisitTarget(r: Run, i: nat, t: Target, w: World, c: Config): (s: Run)
    requires ValidProvs(r.provs)
    ensures ValidProvs(s.provs) && s.left <= r.left && s.provs.Keys == r.provs.Keys
  {
    if r.ending != Running || t.name !in r.provs || r.provs[t.name].pool.keys == [] then r
    else match t.before
      case BadPayload => r.(ending := PayloadFailed)
      case CacheHit => r.(ending := FromCache)
      case Proceed =>
        var v := RunVisit(StartVisit(r, t.name), w, c);
        Run(r.provs[t.name := Prov(v.pool, v.breaker)], v.left, v.a, r.calls + Numbered(i, v.calls), v.last, v.ending)
  }

  ghost function RunTargets(r: Run, ts: seq<Target>, w: World, c: Config): (s: Run)
    requires ValidProvs(r.provs)
    ensures ValidProvs(s.provs) && s.left <= r.left && s.provs.Keys == r.provs.Keys
  {
    if ts == [] then r else VisitTarget(RunTargets(r, ts[..|ts| - 1], w, c), |ts| - 1, ts[|ts| - 1], w, c)
  }

  // ----- the loop itself -----

  class Provider {
    const pool: P.KeyPool
    const breaker: B.CircuitBreaker

    ghost function View(): Prov
      reads pool, breaker
    {
      Prov(pool.View(), breaker.View())
    }

    constructor (pool: P.KeyPool, breaker: B.CircuitBreaker)
      ensures this.pool == pool && this.breaker == breaker
    {
      this.pool, this.breaker := pool, breaker;
    }

    method Report(key: string, kind: P.FailKind, hint: int, ok: bool, now: nat)
      modifies pool, breaker
      ensures pool.View() == P.AfterReport(old(pool.View()), key, kind, hint, now)
      ensures breaker.View() == B.Note(old(breaker.View()), B.Outcome(ok, now / P.SECOND))
    {
      pool.ReportHint(key, kind, hint, now);
      breaker.NoteUpstream(ok, now / P.SECOND);
    }

    /** What follows one upstream call: reports to pool and breaker, and whether the request is answered. */
    method Settle(key: string, reply: Reply, now: nat, c: Config, last0: int) returns (last: int, ending: Ending)
      modifies pool, breaker
      ensures forall v: Visit ::
                && v.pool == old(pool.View()) && v.breaker == old(breaker.View())
                && v.last == last0 && v.ending == Running ==>
                  Called(v, key, reply, now, c) ==
                  v.(pool := pool.View(), breaker := breaker.View(), last := last, ending := ending)
    {
      last, ending := last0, Running;
      match reply
      case TransportError =>
        Report(key, P.SoftFail, 0, false, now);
        last := 0;
      case Rejected(st, h) =>
        var kind := ClassifyStatus(st, c.soft, c.hard);
        match kind {
          case Hard => Report(key, P.HardFail, 0, false, now);
          case Soft =>
            var hint := ParseRetryAfter(h, now);
            Report(key, P.SoftFail, hint, false, now);
          case Fatal => ending := PassedThrough(st);
        }
        last := st;
      case Accepted(st, d) =>
        Report(key, P.Success, 0, true, now);
        match d {
          case Delivered => ending := Served;
          case StreamFailed => last := st;
          case BlockedByGuardrail => ending := Blocked;
        }
    }

    /** The inner loop: keys of one provider. */
    method TryKeys(left0: nat, a0: nat, sent0: nat, last0: int, w: World, c: Config)
      returns (left: nat, a: nat, calls: seq<string>, last: int, ending: Ending)
      requires P.Valid(pool.View()) && pool.keys != []
      modifies pool, breaker
      ensures var v0 := Visit(old(pool.View()), old(breaker.View()), left0, a0, sent0, {}, [], last0, Running);
              var v := RunVisit(v0, w, c);
              && View() == Prov(v.pool, v.breaker)
              && left == v.left && a == v.a && calls == v.calls && last == v.last && ending == v.ending
    {
      hide P.AfterPick, P.PickAt, P.AfterReport, B.Note, Called, RunVisit;
      ghost var start := RunVisit(Visit(pool.View(), breaker.View(), left0, a0, sent0, {}, [], last0, Running), w, c);
      left, a, calls, last, ending := left0, a0, [], last0, Running;
      var sent, tried: set<string> := sent0, {};
      while left > 0 && |tried| < |pool.keys| && ending == Running
        invariant P.Valid(pool.View()) && pool.keys != []
        invariant RunVisit(Visit(pool.View(), breaker.View(), left, a, sent, tried, calls, last, ending), w, c) == start
        decreases left
      {
        ghost var v := Visit(pool.View(), breaker.View(), left, a, sent, tried, calls, last, ending);
        VisitUnfolds(v, w, c);
        left := left - 1;
        var key := pool.Pick(w.pickAt(a));
        a := a + 1;
        if key.value !in tried {
          sent := sent + 1;
          tried := tried + {key.value};
          calls := calls + [key.value];
          ghost var u := Visit(pool.View(), breaker.View(), left, a, sent, tried, calls, last, ending);
          last, ending := Settle(key.value, w.reply(sent - 1), w.doneAt(a - 1), c, last);
          assert Called(u, key.value, w.reply(sent - 1), w.doneAt(a - 1), c) ==
                 Visit(pool.View(), breaker.View(), left, a, sent, tried, calls, last, ending);
        }
        assert Attempt(v, w, c) == Visit(pool.View(), breaker.View(), left, a, sent, tried, calls, last, ending);
      }
      VisitUnfolds(Visit(pool.View(), breaker.View(), left, a, sent, tried, calls, last, ending), w, c);
    }
  }

  /** Different names are different providers. */
  ghost predicate Separate(ps: map<string, Provider>) {
    forall m, n :: m in ps && n in ps && m != n ==> ps[m].pool != ps[n].pool && ps[m].breaker != ps[n].breaker
  }

  ghost function Views(ps: map<string, Provider>): map<string, Prov>
    reads set n | n in ps :: ps[n].pool, set n | n in ps :: ps[n].breaker
  {
    map n | n in ps :: ps[n].View()
  }

  /** The outer loop: targets in order. The calls made, and how the request ends; Running means exhausted. */
  method TryTargets(ps: map<string, Provider>, ts: seq<Target>, attempts: nat, w: World, c: Config)
    returns (left: nat, a: nat, calls: seq<Call>, last: int, ending: Ending)
    requires Separate(ps) && ValidProvs(Views(ps))
    modifies set n | n in ps :: ps[n].pool, set n | n in ps :: ps[n].breaker
    ensures RunTargets(Run(old(Views(ps)), attempts, 0, [], 0, Running), ts, w, c) ==
            Run(Views(ps), left, a, calls, last, ending)
  {
    left, a, calls, last, ending := attempts, 0, [], 0, Running;
    ghost var start := Run(Views(ps), attempts, 0, [], 0, Running);
    for i := 0 to |ts|
      invariant ValidProvs(Views(ps))
      invariant RunTargets(start, ts[..i], w, c) == Run(Views(ps), left, a, calls, last, ending)
    {
      var t := ts[i];
      assert ts[..i + 1][..i] == ts[..i];
      if ending == Running && t.name in ps {
        left, a, calls, last, ending := TryTarget(ps, i, t, left, a, calls, last, w, c);
      }
    }
    assert ts[..|ts|] == ts;
  }

  method TryTarget(ps: map<string, Provider>, i: nat, t: Target, left0: nat, a0: nat, calls0: seq<Call>,
                   last0: int, w: World, c: Config)
    returns (left: nat, a: nat, calls: seq<Call>, last: int, ending: Ending)
    requires Separate(ps) && ValidProvs(Views(ps)) && t.name in ps
    modifies ps[t.name].pool, ps[t.name].breaker
    ensures VisitTarget(Run(old(Views(ps)), left0, a0, calls0, last0, Running), i, t, w, c) ==
            Run(Views(ps), left, a, calls, last, ending)
  {
    left, a, calls, last, ending := left0, a0, calls0, last0, Running;
    var p := ps[t.name];
    assert p.View() == Views(ps)[t.name];
    if |p.pool.keys| == 0 { return; }
    match t.before
    case BadPayload => ending := PayloadFailed;
    case CacheHit => ending := FromCache;
    case Proceed =>
      var keys: seq<string>;
      left, a, keys, last, ending := TryProvider(ps, t.name, left0, a0, |calls0|, last0, w, c);
      calls := calls0 + Numbered(i, keys);
  }

  method TryProvider(ps: map<string, Provider>, name: string, left0: nat, a0: nat, sent0: nat, last0: int, w: World,
                     c: Config)
    returns (left: nat, a: nat, keys: seq<string>, last: int, ending: Ending)
    requires Separate(ps) && name in ps && P.Valid(ps[name].pool.View()) && ps[name].pool.keys != []
    modifies ps[name].pool, ps[name].breaker
    ensures var v0 := Visit(old(ps[name].pool.View()), old(ps[name].breaker.View()), left0, a0, sent0, {}, [], last0,
                            Running);
            var v := RunVisit(v0, w, c);
            && Views(ps) == old(Views(ps))[name := Prov(v.pool, v.breaker)]
            && left == v.left && a == v.a && keys == v.calls && last == v.last && ending == v.ending
  {
    hide RunVisit;
    left, a, keys, last, ending := ps[name].TryKeys(left0, a0, sent0, last0, w, c);
    forall n | n in ps && n != name ensures ps[n].View() == old(ps[n].View()) { }
  }
}
