/** How long a key rests after a report, and that a resting key is not picked while another is live. */
module KeyCooling {
  import opened KeyPool

  /** Ten seconds and five minutes, in nanoseconds. */
  const TEN_SECONDS := 10_000_000_000
  const FIVE_MINUTES := 300_000_000_000

  function Pow2(n: nat): nat {
    if n == 0 then 1 else 2 * Pow2(n - 1)
  }

  function Max(a: int, b: int): int { if a >= b then a else b }

  function Min(a: int, b: int): int { if a <= b then a else b }

  /** The rest after the n-th soft failure in a row: ten seconds doubled each time, at most five minutes, but no less
      than the upstream asked for. */
  function Rest(n: nat, hint: int): int
    requires n > 0
  {
    Max(hint, Min(TEN_SECONDS * Pow2(n - 1), FIVE_MINUTES))
  }

  lemma {:induction false} Pow2Grows(n: nat)
    ensures n >= 5 ==> Pow2(n) >= 32
  {
    if n > 5 {
      Pow2Grows(n - 1);
    } else if n == 5 {
      SmallPowers();
    }
  }

  lemma SmallPowers()
    ensures Pow2(0) == 1 && Pow2(1) == 2 && Pow2(2) == 4 && Pow2(3) == 8 && Pow2(4) == 16 && Pow2(5) == 32
  {
    assert Pow2(2) == 2 * Pow2(1) && Pow2(3) == 2 * Pow2(2) && Pow2(4) == 2 * Pow2(3) && Pow2(5) == 2 * Pow2(4);
  }

  lemma BackoffIsRest(n: nat, hint: int)
    requires n > 0
    ensures Backoff(n, hint) == Rest(n, hint)
  {
    SmallPowers();
    Pow2Grows(n - 1);
    hide Pow2;
    if n > 6 {
      assert TEN_SECONDS * Pow2(n - 1) >= TEN_SECONDS * 32;
    }
  }

  // ----- one report -----

  /** Position p is the first that holds the value. */
  ghost predicate FirstAt(keys: seq<Key>, value: string, p: nat) {
    p < |keys| && keys[p].value == value && forall q :: 0 <= q < p ==> keys[q].value != value
  }

  lemma FoundAt(keys: seq<Key>, value: string, p: nat)
    requires FirstAt(keys, value, p)
    ensures FindKey(keys, value) == p
  {
    assert FindKey(keys, value) <= p;
  }

  lemma FoundFirst(keys: seq<Key>, value: string)
    ensures FindKey(keys, value) < |keys| ==> FirstAt(keys, value, FindKey(keys, value))
  {
  }

  /** After a hard failure the key rests for ten minutes and no longer. */
  lemma HardFailRests(s: Pool, value: string, p: nat, hint: int, now: int, t: int)
    requires FirstAt(s.keys, value, p)
    ensures var k := AfterReport(s, value, HardFail, hint, now).keys[p];
            (Live(k, t) <==> t > now + 600_000_000_000) && k.softFails == s.keys[p].softFails
  {
    FoundAt(s.keys, value, p);
  }

  /** After a soft failure it rests up to the later of its old time and the end of the new rest. */
  lemma SoftFailRests(s: Pool, value: string, p: nat, hint: int, now: int, t: int)
    requires FirstAt(s.keys, value, p)
    ensures var k, n := AfterReport(s, value, SoftFail, hint, now).keys[p], s.keys[p].softFails + 1;
            (Live(k, t) <==> t > Max(s.keys[p].coolUntil, now + Rest(n, hint))) && k.softFails == n
  {
    FoundAt(s.keys, value, p);
    BackoffIsRest(s.keys[p].softFails + 1, hint);
    hide Backoff, Rest;
  }

  /** After a success it is live at every time after the zero time. */
  lemma SuccessWakes(s: Pool, value: string, p: nat, hint: int, now: int, t: int)
    requires FirstAt(s.keys, value, p)
    ensures var k := AfterReport(s, value, Success, hint, now).keys[p];
            (Live(k, t) <==> t > 0) && k.softFails == 0
  {
    FoundAt(s.keys, value, p);
  }

  /** The statistics: a soft failure and a success are counted, a hard failure is not, and no report is a pick. */
  lemma ReportCounts(s: Pool, value: string, p: nat, kind: FailKind, hint: int, now: int)
    requires FirstAt(s.keys, value, p)
    ensures var k, was := AfterReport(s, value, kind, hint, now).keys[p], s.keys[p];
            && k.value == was.value && k.picks == was.picks
            && k.fails == was.fails + (if kind == SoftFail then 1 else 0)
            && k.successes == was.successes + (if kind == Success then 1 else 0)
  {
    FoundAt(s.keys, value, p);
  }

  /** A report changes no other key, no value and not the cursor; on a value that is no key it changes nothing. */
  lemma ReportElsewhere(s: Pool, value: string, kind: FailKind, hint: int, now: int, q: nat)
    requires q < |s.keys| && !FirstAt(s.keys, value, q)
    ensures var t := AfterReport(s, value, kind, hint, now);
            t.keys[q] == s.keys[q] && t.idx == s.idx && |t.keys| == |s.keys|
  {
    FoundFirst(s.keys, value);
    hide Reported, FirstAt;
  }

  // ----- any sequence of picks and reports -----

  datatype Op = Pick(now: int) | Report(value: string, kind: FailKind, hint: int, now: int)

  function Applied(s: Pool, o: Op): (t: Pool)
    requires Valid(s)
    ensures Valid(t) && |t.keys| == |s.keys|
  {
    match o
    case Pick(now) => if s.keys == [] then s else AfterPick(s, now)
    case Report(value, kind, hint, now) => AfterReport(s, value, kind, hint, now)
  }

  function After(s: Pool, ops: seq<Op>): (t: Pool)
    requires Valid(s)
    ensures Valid(t) && |t.keys| == |s.keys|
  {
    if ops == [] then s else Applied(After(s, ops[..|ops| - 1]), ops[|ops| - 1])
  }

  /** How many soft failures of the key were reported since its last success. */
  function SoftRun(ops: seq<Op>, value: string): nat {
    if ops == [] then 0
    else
      var before := SoftRun(ops[..|ops| - 1], value);
      match ops[|ops| - 1]
      case Pick(_) => before
      case Report(v, kind, _, _) =>
        if v != value || kind == HardFail then before else if kind == Success then 0 else before + 1
  }

  lemma PickLeaves(s: Pool, now: int, p: nat)
    requires Valid(s) && p < |s.keys|
    ensures var k := AfterPick(s, now).keys[p];
            k.value == s.keys[p].value && k.coolUntil == s.keys[p].coolUntil && k.softFails == s.keys[p].softFails
  {
  }

  lemma FirstStays(s: Pool, o: Op, value: string, p: nat)
    requires Valid(s) && FirstAt(s.keys, value, p)
    ensures FirstAt(Applied(s, o).keys, value, p)
  {
    forall q | 0 <= q < |s.keys| ensures Applied(s, o).keys[q].value == s.keys[q].value {
      if o.Pick? { PickLeaves(s, o.now, q); }
      hide AfterPick;
    }
    hide Applied;
  }

  lemma {:induction false} FirstAfter(s: Pool, ops: seq<Op>, value: string, p: nat)
    requires Valid(s) && FirstAt(s.keys, value, p)
    ensures FirstAt(After(s, ops).keys, value, p)
  {
    if ops == [] {
    } else {
      FirstAfter(s, ops[..|ops| - 1], value, p);
      FirstStays(After(s, ops[..|ops| - 1]), ops[|ops| - 1], value, p);
      hide Applied;
    }
  }

  lemma RunStep(s: Pool, o: Op, value: string, p: nat)
    requires Valid(s) && FirstAt(s.keys, value, p)
    ensures Applied(s, o).keys[p].softFails ==
            match o
            case Pick(_) => s.keys[p].softFails
            case Report(v, kind, _, _) =>
              if v != value || kind == HardFail then s.keys[p].softFails
              else if kind == Success then 0 else s.keys[p].softFails + 1
  {
    match o
    case Pick(now) => PickLeaves(s, now, p); hide AfterPick;
    case Report(v, kind, hint, now) =>
      if v != value {
        ReportElsewhere(s, v, kind, hint, now, p);
      } else {
        FoundAt(s.keys, value, p);
      }
  }

  /** The count kept with a key is its run of soft failures, over every sequence of picks and reports on a new pool. */
  lemma {:induction false} CountIsSoftRun(s: Pool, ops: seq<Op>, value: string, p: nat)
    requires Valid(s) && FirstAt(s.keys, value, p) && s.keys[p].softFails == 0
    ensures After(s, ops).keys[p].softFails == SoftRun(ops, value)
  {
    if ops == [] {
    } else {
      var g, o := ops[..|ops| - 1], ops[|ops| - 1];
      CountIsSoftRun(s, g, value, p);
      FirstAfter(s, g, value, p);
      RunStep(After(s, g), o, value, p);
      hide Applied, FirstAt;
    }
  }

  // ----- a failed key is left alone -----

  /** No success of the key is reported, and no failure before the time. */
  ghost predicate OnlyFails(ops: seq<Op>, value: string, from: int) {
    forall i :: 0 <= i < |ops| && ops[i].Report? && ops[i].value == value ==>
      ops[i].kind != Success && ops[i].now >= from
  }

  lemma RestGoesOn(s: Pool, o: Op, value: string, p: nat, from: int, until: int)
    requires Valid(s) && FirstAt(s.keys, value, p) && s.keys[p].coolUntil >= until
    requires until <= from + 600_000_000_000
    requires o.Report? && o.value == value ==> o.kind != Success && o.now >= from
    ensures Applied(s, o).keys[p].coolUntil >= until
  {
    match o
    case Pick(now) => PickLeaves(s, now, p); hide AfterPick;
    case Report(v, kind, hint, now) =>
      if v != value {
        ReportElsewhere(s, v, kind, hint, now, p);
      } else {
        FoundAt(s.keys, value, p);
        hide Backoff;
      }
  }

  lemma {:induction false} RestLasts(s: Pool, ops: seq<Op>, value: string, p: nat, from: int, until: int)
    requires Valid(s) && FirstAt(s.keys, value, p) && s.keys[p].coolUntil >= until
    requires until <= from + 600_000_000_000 && OnlyFails(ops, value, from)
    ensures After(s, ops).keys[p].coolUntil >= until
  {
    if ops == [] {
    } else {
      var g, o := ops[..|ops| - 1], ops[|ops| - 1];
      assert forall i :: 0 <= i < |g| ==> g[i] == ops[i];
      RestLasts(s, g, value, p, from, until);
      FirstAfter(s, g, value, p);
      RestGoesOn(After(s, g), o, value, p, from, until);
      hide Applied, FirstAt;
    }
  }

  /** While some key is live the pick is a live one. */
  lemma PickIsLive(s: Pool, now: int, q: nat)
    requires Valid(s) && q < |s.keys| && Live(s.keys[q], now)
    ensures Live(s.keys[PickAt(s, now)], now)
  {
    FirstLiveIs(s, now, 0);
    if FirstLive(s, now, 0) == |s.keys| { NoneLive(s, now); }
    hide Live, FirstLive, At;
  }

  /** How long a failure makes the key rest. */
  function RestAfter(kind: FailKind, n: nat, hint: int): int
    requires n > 0
  {
    if kind == HardFail then 600_000_000_000 else Rest(n, hint)
  }

  /** Main result: after a failure, and whatever picks and further reports follow without a success of the key, the key
      is not picked within its rest while another key is live. The upstream asks for at most ten minutes. */
  lemma FailedKeyRests(s: Pool, value: string, p: nat, kind: FailKind, hint: int, at: int, ops: seq<Op>, now: int,
                       q: nat)
    requires Valid(s) && FirstAt(s.keys, value, p) && kind != Success && hint <= 600_000_000_000
    requires OnlyFails(ops, value, at)
    requires now <= at + RestAfter(kind, s.keys[p].softFails + 1, hint)
    requires var u := After(AfterReport(s, value, kind, hint, at), ops); q < |u.keys| && Live(u.keys[q], now)
    ensures var u := After(AfterReport(s, value, kind, hint, at), ops);
            !Live(u.keys[p], now) && PickAt(u, now) != p && Live(u.keys[PickAt(u, now)], now)
  {
    var until := at + RestAfter(kind, s.keys[p].softFails + 1, hint);
    var t := AfterReport(s, value, kind, hint, at);
    assert t.keys[p].coolUntil >= until && FirstAt(t.keys, value, p) by {
      FoundAt(s.keys, value, p);
      BackoffIsRest(s.keys[p].softFails + 1, hint);
      hide Backoff, Rest;
    }
    assert until <= at + 600_000_000_000;
    hide AfterReport, RestAfter, FirstAt, OnlyFails, PickAt;
    RestLasts(t, ops, value, p, at, until);
    PickIsLive(After(t, ops), now, q);
  }
}
