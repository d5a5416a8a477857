/** How a request ends, told from the replies alone, and what each reply does to the key and the breaker. */
module RetryOutcomes {
  import opened RetryLoop
  import opened RetryProperties
  import C = KeyCooling

  // ----- how a request ends -----

  predicate Delivers(r: Reply) {
    r.Accepted? && r.delivery == Delivered
  }

  predicate Blocks(r: Reply) {
    r.Accepted? && r.delivery == BlockedByGuardrail
  }

  /** A rejection whose status is in neither list. */
  predicate Refuses(r: Reply, status: int, c: Config) {
    r.Rejected? && r.status == status && status !in c.soft && status !in c.hard
  }

  function StatusOf(r: Reply): int {
    match r
    case TransportError => 0
    case Rejected(st, _) => st
    case Accepted(st, _) => st
  }

  /** The ending and the last status are those the replies to the calls made so far give. */
  ghost predicate Told(sent: nat, ending: Ending, last: int, w: World, c: Config) {
    && (forall k: nat :: k < sent - 1 ==> Retryable(w.reply(k), c))
    && (sent > 0 ==>
          match ending
          case Served => Delivers(w.reply(sent - 1))
          case Blocked => Blocks(w.reply(sent - 1))
          case PassedThrough(st) => Refuses(w.reply(sent - 1), st, c) && last == st
          case _ => Retryable(w.reply(sent - 1), c) && last == StatusOf(w.reply(sent - 1)))
    && (sent == 0 ==> !ending.Served? && !ending.Blocked? && !ending.PassedThrough?)
  }

  lemma CalledTold(v: Visit, key: string, now: nat, w: World, c: Config)
    requires v.sent > 0 && v.ending == Running && forall k: nat :: k < v.sent - 1 ==> Retryable(w.reply(k), c)
    ensures var u := Called(v, key, w.reply(v.sent - 1), now, c);
            Told(u.sent, u.ending, u.last, w, c) && u.sent == v.sent && u.calls == v.calls
  {
    hide P.AfterReport, B.Note, RetryWait;
  }

  lemma AttemptTold(v: Visit, w: World, c: Config)
    requires P.Valid(v.pool) && v.pool.keys != [] && !Over(v) && Told(v.sent, v.ending, v.last, w, c)
    ensures var u := Attempt(v, w, c);
            Told(u.sent, u.ending, u.last, w, c) && u.sent + |v.calls| == v.sent + |u.calls|
  {
    hide P.AfterPick, P.PickAt, Called, Retryable;
    var key := v.pool.keys[P.PickAt(v.pool, w.pickAt(v.a))].value;
    if key !in v.tried {
      var u := v.(pool := P.AfterPick(v.pool, w.pickAt(v.a)), left := v.left - 1, a := v.a + 1, sent := v.sent + 1,
                  tried := v.tried + {key}, calls := v.calls + [key]);
      CalledTold(u, key, w.doneAt(v.a), w, c);
    }
  }

  lemma {:induction false} VisitTold(v: Visit, w: World, c: Config)
    requires P.Valid(v.pool) && v.pool.keys != [] && Told(v.sent, v.ending, v.last, w, c)
    ensures var u := RunVisit(v, w, c);
            Told(u.sent, u.ending, u.last, w, c) && u.sent + |v.calls| == v.sent + |u.calls|
    decreases v.left
  {
    hide Attempt, Told;
    if !Over(v) {
      AttemptTold(v, w, c);
      VisitTold(Attempt(v, w, c), w, c);
    }
  }

  lemma TargetTold(r: Run, i: nat, t: Target, w: World, c: Config)
    requires ValidProvs(r.provs) && Told(|r.calls|, r.ending, r.last, w, c)
    ensures var s := VisitTarget(r, i, t, w, c); Told(|s.calls|, s.ending, s.last, w, c)
  {
    hide RunVisit, Retryable;
    if r.ending == Running && t.name in r.provs && r.provs[t.name].pool.keys != [] && t.before == Proceed {
      hide Told;
      VisitTold(StartVisit(r, t.name), w, c);
    }
  }

  lemma {:induction false} RunTold(provs: map<string, Prov>, ts: seq<Target>, attempts: nat, w: World, c: Config)
    requires ValidProvs(provs)
    ensures var s := RunTargets(Run(provs, attempts, 0, [], 0, Running), ts, w, c);
            Told(|s.calls|, s.ending, s.last, w, c)
  {
    if ts == [] {
    } else {
      hide Told, VisitTarget;
      var i := |ts| - 1;
      RunTold(provs, ts[..i], attempts, w, c);
      TargetTold(RunTargets(Run(provs, attempts, 0, [], 0, Running), ts[..i], w, c), i, ts[i], w, c);
    }
  }

  /** Main result, in every world: the request is answered exactly by a last reply that answers it. It ends as served
      if that reply is delivered, as blocked if the guardrail stops it, passed through if it is a rejection with a
      status in neither list; no call follows such a reply, and every earlier reply was one to try again after. */
  lemma RequestEnds(provs: map<string, Prov>, ts: seq<Target>, attempts: nat, w: World, c: Config)
    requires ValidProvs(provs)
    ensures var s := RunTargets(Run(provs, attempts, 0, [], 0, Running), ts, w, c);
            var n := |s.calls|;
            && (forall k: nat :: k < n - 1 ==> Retryable(w.reply(k), c))
            && (s.ending == Served <==> n > 0 && Delivers(w.reply(n - 1)))
            && (s.ending == Blocked <==> n > 0 && Blocks(w.reply(n - 1)))
            && (forall st :: s.ending == PassedThrough(st) <==> n > 0 && Refuses(w.reply(n - 1), st, c))
            && (n > 0 && s.ending != Served && s.ending != Blocked ==> s.last == StatusOf(w.reply(n - 1)))
  {
    hide RunTargets, Retryable, Delivers, Blocks;
    RunTold(provs, ts, attempts, w, c);
    var s := RunTargets(Run(provs, attempts, 0, [], 0, Running), ts, w, c);
    if |s.calls| > 0 { KindsDiffer(w.reply(|s.calls| - 1), c); }
  }

  /** A reply is of one kind only. */
  lemma KindsDiffer(r: Reply, c: Config)
    ensures Delivers(r) ==> !Blocks(r) && !Retryable(r, c)
    ensures Blocks(r) ==> !Retryable(r, c)
    ensures forall st :: Refuses(r, st, c) ==> !Delivers(r) && !Blocks(r) && !Retryable(r, c) && r.status == st
  {
  }

  // ----- what is settled without a call -----

  /** The target is a provider with keys. */
  ghost predicate Usable(provs: map<string, Prov>, t: Target) {
    t.name in provs && provs[t.name].pool.keys != []
  }

  /** Every usable target among the first n may be tried. */
  ghost predicate AllProceed(provs: map<string, Prov>, ts: seq<Target>, n: nat) {
    forall j :: 0 <= j < n && j < |ts| && Usable(provs, ts[j]) ==> ts[j].before == Proceed
  }

  /** Target i was settled without a call, and was the first one like that. */
  ghost predicate SettledAt(provs: map<string, Prov>, ts: seq<Target>, i: nat, before: Before, calls: seq<Call>) {
    && i < |ts| && Usable(provs, ts[i]) && ts[i].before == before && AllProceed(provs, ts, i)
    && CallsBelow(calls, i)
  }

  /** The same providers have keys. */
  ghost predicate SameUsable(now: map<string, Prov>, provs: map<string, Prov>) {
    now.Keys == provs.Keys && forall n :: n in provs ==> (now[n].pool.keys == [] <==> provs[n].pool.keys == [])
  }

  ghost predicate CallsBelow(calls: seq<Call>, n: nat) {
    forall k :: 0 <= k < |calls| ==> calls[k].target < n
  }

  ghost predicate UpFront(provs: map<string, Prov>, ts: seq<Target>, ending: Ending, calls: seq<Call>) {
    && (ending == Running ==> AllProceed(provs, ts, |ts|))
    && (ending == FromCache ==> exists i :: SettledAt(provs, ts, i, CacheHit, calls))
    && (ending == PayloadFailed ==> exists i :: SettledAt(provs, ts, i, BadPayload, calls))
  }

  ghost predicate Settled(provs: map<string, Prov>, ts: seq<Target>, r: Run) {
    SameUsable(r.provs, provs) && CallsBelow(r.calls, |ts|) && UpFront(provs, ts, r.ending, r.calls)
  }

  lemma AllProceedInit(provs: map<string, Prov>, ts: seq<Target>, n: nat)
    requires ts != [] && n <= |ts| - 1
    ensures AllProceed(provs, ts, n) <==> AllProceed(provs, ts[..|ts| - 1], n)
  {
    assert forall j :: 0 <= j < n ==> ts[..|ts| - 1][j] == ts[j];
    hide Usable;
  }

  lemma SettledStays(provs: map<string, Prov>, ts: seq<Target>, i: nat, before: Before, calls: seq<Call>)
    requires ts != [] && SettledAt(provs, ts[..|ts| - 1], i, before, calls)
    ensures SettledAt(provs, ts, i, before, calls)
  {
    AllProceedInit(provs, ts, i);
    hide AllProceed;
  }

  lemma {:induction false} VisitNoUpFront(v: Visit, w: World, c: Config)
    requires P.Valid(v.pool) && v.pool.keys != [] && v.ending != FromCache && v.ending != PayloadFailed
    ensures RunVisit(v, w, c).ending != FromCache && RunVisit(v, w, c).ending != PayloadFailed
    decreases v.left
  {
    hide P.AfterPick, P.PickAt, P.AfterReport, B.Note, RetryWait;
    if !Over(v) { VisitNoUpFront(Attempt(v, w, c), w, c); }
  }

  lemma UsableStays(r: Run, i: nat, t: Target, w: World, c: Config, provs: map<string, Prov>)
    requires ValidProvs(r.provs) && SameUsable(r.provs, provs) && CallsBelow(r.calls, i)
    ensures var s := VisitTarget(r, i, t, w, c); SameUsable(s.provs, provs) && CallsBelow(s.calls, i + 1)
  {
    hide RunVisit;
  }

  /** Where a target leaves the run that reaches it. */
  lemma TargetEnds(r: Run, i: nat, t: Target, w: World, c: Config, provs: map<string, Prov>)
    requires ValidProvs(r.provs) && SameUsable(r.provs, provs)
    ensures var s := VisitTarget(r, i, t, w, c);
            if r.ending != Running || !Usable(provs, t) then s == r
            else if t.before == CacheHit then s.ending == FromCache && s.calls == r.calls
            else if t.before == BadPayload then s.ending == PayloadFailed && s.calls == r.calls
            else s.ending != FromCache && s.ending != PayloadFailed
  {
    hide RunVisit, P.Valid;
    if r.ending == Running && Usable(provs, t) && t.before == Proceed { VisitNoUpFront(StartVisit(r, t.name), w, c); }
  }

  lemma UpFrontStep(provs: map<string, Prov>, ts: seq<Target>, before: Ending, after: Ending, calls: seq<Call>,
                    more: seq<Call>)
    requires ts != [] && UpFront(provs, ts[..|ts| - 1], before, calls) && CallsBelow(calls, |ts| - 1)
    requires var t := ts[|ts| - 1];
             if before != Running || !Usable(provs, t) then after == before && more == calls
             else if t.before == CacheHit then after == FromCache && more == calls
             else if t.before == BadPayload then after == PayloadFailed && more == calls
             else after != FromCache && after != PayloadFailed
    ensures UpFront(provs, ts, after, more)
  {
    var n, t := |ts| - 1, ts[|ts| - 1];
    AllProceedInit(provs, ts, n);
    hide CallsBelow, Usable;
    if before == FromCache {
      var i :| SettledAt(provs, ts[..n], i, CacheHit, calls);
      SettledStays(provs, ts, i, CacheHit, calls);
    } else if before == PayloadFailed {
      var i :| SettledAt(provs, ts[..n], i, BadPayload, calls);
      SettledStays(provs, ts, i, BadPayload, calls);
    } else if before == Running && Usable(provs, t) && t.before != Proceed {
      assert SettledAt(provs, ts, n, t.before, calls);
    }
  }

  lemma TargetSettled(provs: map<string, Prov>, ts: seq<Target>, r: Run, w: World, c: Config)
    requires ts != [] && ValidProvs(r.provs) && Settled(provs, ts[..|ts| - 1], r)
    ensures Settled(provs, ts, VisitTarget(r, |ts| - 1, ts[|ts| - 1], w, c))
  {
    hide VisitTarget, UpFront, CallsBelow, SameUsable, Usable, P.Valid;
    var n, t := |ts| - 1, ts[|ts| - 1];
    UsableStays(r, n, t, w, c, provs);
    TargetEnds(r, n, t, w, c, provs);
    UpFrontStep(provs, ts, r.ending, VisitTarget(r, n, t, w, c).ending, r.calls, VisitTarget(r, n, t, w, c).calls);
  }

  /** A request is answered from the cache, or fails for its payload, only at the first usable target where this is the
      case, with no call at or behind it; one that is exhausted met no such target. */
  lemma {:induction false} UpFrontOnly(provs: map<string, Prov>, ts: seq<Target>, attempts: nat, w: World, c: Config)
    requires ValidProvs(provs)
    ensures Settled(provs, ts, RunTargets(Run(provs, attempts, 0, [], 0, Running), ts, w, c))
  {
    if ts == [] {
    } else {
      hide Settled, VisitTarget;
      var i := |ts| - 1;
      UpFrontOnly(provs, ts[..i], attempts, w, c);
      TargetSettled(provs, ts, RunTargets(Run(provs, attempts, 0, [], 0, Running), ts[..i], w, c), w, c);
    }
  }

  // ----- what a reply does to the key and the breaker -----

  /** When the key that was called is live again: after a hard status in ten minutes; after a soft status or a transport
      error not before its old time nor before the end of its rest; after a success at once; any other status leaves its
      time alone. */
  ghost predicate Wakes(before: P.Key, after: P.Key, r: Reply, now: nat, c: Config, t: int) {
    P.Live(after, t) <==>
      match r
      case TransportError => t > C.Max(before.coolUntil, now + C.Rest(before.softFails + 1, 0))
      case Rejected(st, h) =>
        if st in c.hard then t > now + 600_000_000_000
        else if st in c.soft then t > C.Max(before.coolUntil, now + C.Rest(before.softFails + 1, RetryWait(h, now)))
        else t > before.coolUntil
      case Accepted(_, _) => t > 0
  }

  /** The outcome the breaker is told, if any. */
  function OutcomeOf(r: Reply, c: Config): seq<bool> {
    match r
    case TransportError => [false]
    case Rejected(st, _) => if st in c.hard || st in c.soft then [false] else []
    case Accepted(_, _) => [true]
  }

  lemma ReplyWakes(v: Visit, key: string, p: nat, r: Reply, now: nat, c: Config, t: int)
    requires C.FirstAt(v.pool.keys, key, p)
    ensures |Called(v, key, r, now, c).pool.keys| == |v.pool.keys|
    ensures Wakes(v.pool.keys[p], Called(v, key, r, now, c).pool.keys[p], r, now, c, t)
  {
    hide RetryWait, B.Note, C.Rest, P.AfterReport;
    match r
    case TransportError => C.SoftFailRests(v.pool, key, p, 0, now, t);
    case Rejected(st, h) =>
      C.HardFailRests(v.pool, key, p, 0, now, t);
      C.SoftFailRests(v.pool, key, p, RetryWait(h, now), now, t);
    case Accepted(_, _) => C.SuccessWakes(v.pool, key, p, 0, now, t);
  }

  lemma OthersUntouched(v: Visit, key: string, p: nat, r: Reply, now: nat, c: Config, q: nat)
    requires C.FirstAt(v.pool.keys, key, p) && q < |v.pool.keys| && q != p
    ensures |Called(v, key, r, now, c).pool.keys| == |v.pool.keys|
    ensures Called(v, key, r, now, c).pool.keys[q] == v.pool.keys[q]
  {
    hide RetryWait, B.Note, P.AfterReport;
    forall kind: P.FailKind, hint: int
      ensures P.AfterReport(v.pool, key, kind, hint, now).keys[q] == v.pool.keys[q]
    {
      C.ReportElsewhere(v.pool, key, kind, hint, now, q);
    }
  }

  /** Every call tells pool and breaker what its reply means; a rejection in neither list tells them nothing. */
  lemma ReplyTells(v: Visit, key: string, p: nat, r: Reply, now: nat, c: Config, t: int, q: nat)
    requires C.FirstAt(v.pool.keys, key, p) && q < |v.pool.keys|
    ensures var u, told := Called(v, key, r, now, c), OutcomeOf(r, c);
            && |u.pool.keys| == |v.pool.keys| && Wakes(v.pool.keys[p], u.pool.keys[p], r, now, c, t)
            && (q != p ==> u.pool.keys[q] == v.pool.keys[q])
            && u.breaker == if told == [] then v.breaker else B.Note(v.breaker, B.Outcome(told[0], now / 1_000_000_000))
  {
    ReplyWakes(v, key, p, r, now, c, t);
    if q != p { OthersUntouched(v, key, p, r, now, c, q); }
    hide P.AfterReport, P.Live, RetryWait, B.Note, C.Rest, Wakes, C.FirstAt;
  }
}
