/** The response cache: a map with a time to live and a list of keys for eviction. Times are nanoseconds. */
module Cache {
  import opened Common

  datatype Entry = Entry(body: string, inTokens: int, outTokens: int)

  datatype Meta = Meta(e: Entry, at: int, ttl: int)

  datatype Contents = Contents(m: map<string, Meta>, order: seq<string>)

  const EMPTY := Contents(map[], [])

  /** The cache's settings after the defaults are filled in. */
  datatype Setting = Setting(ttl: int, max: int)

  const DEFAULT_TTL := 600_000_000_000
  const DEFAULT_MAX := 128

  ghost predicate Sound(x: Setting) { x.ttl > 0 && x.max > 0 }

  function Expired(x: Setting, meta: Meta, now: int): bool {
    now - meta.at > if meta.ttl <= 0 then x.ttl else meta.ttl
  }

  function Lookup(x: Setting, c: Contents, k: string, now: int): Option<Entry> {
    if k in c.m && !Expired(x, c.m[k], now) then Some(c.m[k].e) else None
  }

  function AfterGet(x: Setting, c: Contents, k: string, now: int): Contents {
    if k in c.m && Expired(x, c.m[k], now) then c.(m := c.m - {k}) else c
  }

  /** The oldest keys are dropped until the list fits. */
  function Trimmed(c: Contents, max: int): Contents
    requires max > 0
    decreases |c.order|
  {
    if |c.order| > max then Trimmed(Contents(c.m - {c.order[0]}, c.order[1..]), max) else c
  }

  function AfterPut(x: Setting, c: Contents, k: string, meta: Meta): Contents
    requires Sound(x)
  {
    Trimmed(Contents(c.m[k := meta], if k in c.m then c.order else c.order + [k]), x.max)
  }

  class Cache {
    var m: map<string, Meta>
    var order: seq<string>
    const ttl: int
    const max: int

    ghost function View(): Contents
      reads this
    {
      Contents(m, order)
    }

    function Settings(): Setting { Setting(ttl, max) }

    constructor (ttl: int, maxEntries: int)
      ensures View() == EMPTY && Sound(Settings())
      ensures this.ttl == if ttl <= 0 then 600_000_000_000 else ttl
      ensures max == if maxEntries <= 0 then 128 else maxEntries
    {
      this.ttl := if ttl <= 0 then DEFAULT_TTL else ttl;
      max := if maxEntries <= 0 then DEFAULT_MAX else maxEntries;
      m, order := map[], [];
    }

    method Get(k: string, now: int) returns (r: Option<Entry>)
      modifies this`m
      ensures r == Lookup(Settings(), old(View()), k, now)
      ensures View() == AfterGet(Settings(), old(View()), k, now)
    {
      if k !in m { return None; }
      var meta := m[k];
      var t := meta.ttl;
      if t <= 0 { t := ttl; }
      if now - meta.at > t {
        m := m - {k};
        return None;
      }
      r := Some(meta.e);
    }

    method PutWithTTL(k: string, e: Entry, ttl: int, now: int)
      requires Sound(Settings())
      modifies this`m, this`order
      ensures View() == AfterPut(Settings(), old(View()), k, Meta(e, now, ttl))
    {
      if k !in m { order := order + [k]; }
      m := m[k := Meta(e, now, ttl)];
      ghost var start := View();
      while |order| > max
        invariant Trimmed(View(), max) == Trimmed(start, max)
        decreases |order|
      {
        var oldest := order[0];
        order := order[1..];
        m := m - {oldest};
      }
    }

    /** `Put`, whose body is that of `PutWithTTL` without a ttl. */
    method Put(k: string, e: Entry, now: int)
      requires Sound(Settings())
      modifies this`m, this`order
      ensures View() == AfterPut(Settings(), old(View()), k, Meta(e, now, 0))
    {
      PutWithTTL(k, e, 0, now);
    }

    method Flush()
      modifies this`m, this`order
      ensures View() == EMPTY
    {
      m, order := map[], [];
    }

    method Len() returns (n: nat)
      ensures n == |View().m|
    {
      n := |m|;
    }
  }

  // ----- runs -----

  datatype Op = Get(k: string, now: int) | Put(k: string, e: Entry, ttl: int, now: int) | Flush

  function Applied(x: Setting, c: Contents, o: Op): Contents
    requires Sound(x)
  {
    match o
    case Get(k, now) => AfterGet(x, c, k, now)
    case Put(k, e, ttl, now) => AfterPut(x, c, k, Meta(e, now, ttl))
    case Flush => EMPTY
  }

  function After(x: Setting, ops: seq<Op>): Contents
    requires Sound(x)
  {
    if ops == [] then EMPTY else Applied(x, After(x, ops[..|ops| - 1]), ops[|ops| - 1])
  }

  function ToSet(s: seq<string>): set<string> {
    set i | 0 <= i < |s| :: s[i]
  }

  /** What every run keeps: listed keys only, and no more than fit. */
  ghost predicate Inv(x: Setting, c: Contents) {
    c.m.Keys <= ToSet(c.order) && |c.order| <= x.max
  }

  /** From contents within bounds a put drops at most one key. */
  lemma PutIs(x: Setting, c: Contents, k: string, meta: Meta)
    requires Sound(x) && Inv(x, c)
    ensures var t, full := AfterPut(x, c, k, meta), c.m[k := meta];
            t == if k in c.m then Contents(full, c.order)
                 else if |c.order| < x.max then Contents(full, c.order + [k])
                 else Contents(full - {c.order[0]}, c.order[1..] + [k])
  {
    if k !in c.m && |c.order| >= x.max {
      assert (c.order + [k])[1..] == c.order[1..] + [k];
      var t := Contents(c.m[k := meta] - {c.order[0]}, c.order[1..] + [k]);
      assert Trimmed(t, x.max) == t;
    }
  }

  lemma ToSetSnoc(s: seq<string>, k: string)
    ensures ToSet(s + [k]) == ToSet(s) + {k}
  {
    forall y | y in ToSet(s) + {k} ensures y in ToSet(s + [k]) {
      if y == k {
        assert (s + [k])[|s|] == k;
      } else {
        var i :| 0 <= i < |s| && s[i] == y;
        assert (s + [k])[i] == y;
      }
    }
  }

  lemma ToSetTail(s: seq<string>)
    requires s != []
    ensures ToSet(s) == {s[0]} + ToSet(s[1..])
  {
    forall y | y in ToSet(s) ensures y in {s[0]} + ToSet(s[1..]) {
      var i :| 0 <= i < |s| && s[i] == y;
      if i > 0 { assert s[1..][i - 1] == y; }
    }
    forall y | y in ToSet(s[1..]) ensures y in ToSet(s) {
      var i :| 0 <= i < |s[1..]| && s[1..][i] == y;
      assert s[i + 1] == y;
    }
  }

  lemma PutKeepsInv(x: Setting, c: Contents, k: string, meta: Meta)
    requires Sound(x) && Inv(x, c)
    ensures Inv(x, AfterPut(x, c, k, meta))
  {
    PutIs(x, c, k, meta);
    hide AfterPut, ToSet;
    if k !in c.m {
      ToSetSnoc(c.order, k);
      if |c.order| >= x.max {
        ToSetTail(c.order);
        ToSetSnoc(c.order[1..], k);
      }
    }
  }

  lemma {:induction false} InvHolds(x: Setting, ops: seq<Op>)
    requires Sound(x)
    ensures Inv(x, After(x, ops))
  {
    if ops == [] {
    } else {
      var c := After(x, ops[..|ops| - 1]);
      InvHolds(x, ops[..|ops| - 1]);
      match ops[|ops| - 1]
      case Put(k, e, ttl, now) =>
        PutKeepsInv(x, c, k, Meta(e, now, ttl));
        hide Inv;
      case Get(_, _) => hide ToSet;
      case Flush =>
    }
  }

  lemma {:induction false} SetSize(s: seq<string>)
    ensures |ToSet(s)| <= |s|
  {
    if s == [] {
    } else {
      ToSetTail(s);
      SetSize(s[1..]);
      hide ToSet;
    }
  }

  lemma SubsetSize(a: set<string>, b: set<string>)
    requires a <= b
    ensures |a| <= |b|
  {
    assert a + (b - a) == b;
  }

  /** Main result on capacity: over every run the keys held are among the listed ones, and no more than max. */
  lemma CapacityHolds(x: Setting, ops: seq<Op>)
    requires Sound(x)
    ensures var c := After(x, ops); c.m.Keys <= ToSet(c.order) && |c.m| <= |c.order| <= x.max
  {
    InvHolds(x, ops);
    var c := After(x, ops);
    SetSize(c.order);
    SubsetSize(c.m.Keys, ToSet(c.order));
    assert |c.m| == |c.m.Keys|;
  }

  // ----- hits are sound -----

  /** The last put on the key since the last flush. */
  function LatestPut(ops: seq<Op>, k: string): Option<Meta> {
    if ops == [] then None
    else
      match ops[|ops| - 1]
      case Flush => None
      case Put(k', e, ttl, now) => if k' == k then Some(Meta(e, now, ttl)) else LatestPut(ops[..|ops| - 1], k)
      case Get(_, _) => LatestPut(ops[..|ops| - 1], k)
  }

  lemma {:induction false} HeldIsLatest(x: Setting, ops: seq<Op>)
    requires Sound(x)
    ensures forall k :: k in After(x, ops).m ==> LatestPut(ops, k) == Some(After(x, ops).m[k])
  {
    if ops == [] {
    } else {
      var g := ops[..|ops| - 1];
      HeldIsLatest(x, g);
      InvHolds(x, g);
      match ops[|ops| - 1]
      case Put(k, e, ttl, now) =>
        PutIs(x, After(x, g), k, Meta(e, now, ttl));
        hide AfterPut, Inv;
      case Get(_, _) =>
      case Flush =>
    }
  }

  /** Main result on hits: over every run there is a hit exactly if the key is held and no older than its time to live,
      that of the put if it has one and else the cache's, and it returns the entry of the latest put on the key since
      the last flush. */
  lemma HitIsLatest(x: Setting, ops: seq<Op>, k: string, now: int)
    requires Sound(x)
    ensures var r, put := Lookup(x, After(x, ops), k, now), LatestPut(ops, k);
            && (k in After(x, ops).m ==> put.Some?)
            && (r.Some? <==> k in After(x, ops).m
                             && now - put.value.at <= (if put.value.ttl > 0 then put.value.ttl else x.ttl))
            && (r.Some? ==> r.value == put.value.e)
  {
    HeldIsLatest(x, ops);
  }

  // ----- when a put can be read back -----

  /** Main result on puts: exactly when an entry can be read back at once. It is lost when the key's expired entry
      was dropped and its place at the head of a full list is what gets evicted. */
  lemma PutReadableIff(x: Setting, ops: seq<Op>, k: string, e: Entry, ttl: int, now: int)
    requires Sound(x)
    ensures var c := After(x, ops);
            Lookup(x, After(x, ops + [Put(k, e, ttl, now)]), k, now) ==
            if k in c.m || |c.order| < x.max || c.order[0] != k then Some(e) else None
  {
    InvHolds(x, ops);
    PutIs(x, After(x, ops), k, Meta(e, now, ttl));
    assert (ops + [Put(k, e, ttl, now)])[..|ops|] == ops;
  }

  /** With one place: put, expire, put again, and the second put is lost. */
  lemma SecondPutLost(e: Entry)
    ensures var x := Setting(DEFAULT_TTL, 1);
            Lookup(x, After(x, [Put("a", e, 1, 0), Get("a", 5), Put("a", e, 1, 5)]), "a", 5) == None
  {
    hide After;
    var x := Setting(DEFAULT_TTL, 1);
    var ops := [Put("a", e, 1, 0), Get("a", 5)];
    PutAndExpired(x, e);
    PutReadableIff(x, ops, "a", e, 1, 5);
    assert ops + [Put("a", e, 1, 5)] == [Put("a", e, 1, 0), Get("a", 5), Put("a", e, 1, 5)];
    assert After(x, ops).order[0] == "a";
  }

  // ----- first in, first out -----

  /** Some expired entry has been dropped since the last flush. */
  predicate Dropped(x: Setting, ops: seq<Op>)
    requires Sound(x)
  {
    ops != [] &&
    var g := ops[..|ops| - 1];
    match ops[|ops| - 1]
    case Flush => false
    case Put(_, _, _, _) => Dropped(x, g)
    case Get(k, now) => Dropped(x, g) || var c := After(x, g); k in c.m && Expired(x, c.m[k], now)
  }

  function LastOf(s: seq<string>, max: int): seq<string>
    requires max > 0
  {
    if |s| <= max then s else s[|s| - max..]
  }

  /** The insertions since the last flush, as a plain first-in first-out cache would make them: a key is inserted
      when it is not among the last max insertions. */
  function Insertions(ops: seq<Op>, max: int): seq<string>
    requires max > 0
  {
    if ops == [] then []
    else
      var g := Insertions(ops[..|ops| - 1], max);
      match ops[|ops| - 1]
      case Flush => []
      case Put(k, _, _, _) => if k in LastOf(g, max) then g else g + [k]
      case Get(_, _) => g
  }

  ghost predicate Tidy(c: Contents) {
    c.m.Keys == ToSet(c.order) && Distinct(c.order)
  }

  lemma LastOfSnoc(s: seq<string>, k: string, max: int)
    requires max > 0
    ensures LastOf(s + [k], max) == if |LastOf(s, max)| < max then LastOf(s, max) + [k] else LastOf(s, max)[1..] + [k]
  {
  }

  lemma InSet(s: seq<string>, k: string)
    ensures k in ToSet(s) <==> k in s
  {
  }

  lemma NewKeyTidy(s: seq<string>, k: string)
    requires Distinct(s) && k !in s
    ensures Distinct(s + [k])
    ensures s != [] ==> Distinct(s[1..] + [k]) && s[0] !in ToSet(s[1..])
  {
  }

  lemma PutTidy(x: Setting, c: Contents, k: string, meta: Meta)
    requires Sound(x) && Inv(x, c) && Tidy(c)
    ensures Tidy(AfterPut(x, c, k, meta))
    ensures AfterPut(x, c, k, meta).order ==
            if k in c.order then c.order else if |c.order| < x.max then c.order + [k] else c.order[1..] + [k]
  {
    hide AfterPut, ToSet, Distinct;
    PutIs(x, c, k, meta);
    InSet(c.order, k);
    if k !in c.m {
      NewKeyTidy(c.order, k);
      ToSetSnoc(c.order, k);
      if |c.order| >= x.max {
        ToSetTail(c.order);
        ToSetSnoc(c.order[1..], k);
      }
    }
    var t := AfterPut(x, c, k, meta);
    assert t.m.Keys == if k in c.m || |c.order| < x.max then c.m.Keys + {k} else c.m.Keys + {k} - {c.order[0]};
  }

  /** Main result on eviction: while no expired entry has been dropped since the last flush, the list has no
      duplicates and is exactly the last max insertions of a first-in first-out cache, and the keys held are those
      in the list. */
  lemma {:induction false} FirstInFirstOut(x: Setting, ops: seq<Op>)
    requires Sound(x) && !Dropped(x, ops)
    ensures var c := After(x, ops); Tidy(c) && c.order == LastOf(Insertions(ops, x.max), x.max)
  {
    if ops == [] {
    } else {
      var g := ops[..|ops| - 1];
      var c := After(x, g);
      match ops[|ops| - 1]
      case Put(k, e, ttl, now) =>
        FirstInFirstOut(x, g);
        InvHolds(x, g);
        PutTidy(x, c, k, Meta(e, now, ttl));
        LastOfSnoc(Insertions(g, x.max), k, x.max);
        hide Tidy, LastOf, AfterPut, Inv;
      case Get(k, now) =>
        FirstInFirstOut(x, g);
        hide Tidy, LastOf;
      case Flush =>
    }
  }

  /** Until then every put can be read back at once. */
  lemma PutReadable(x: Setting, ops: seq<Op>, k: string, e: Entry, ttl: int, now: int)
    requires Sound(x) && !Dropped(x, ops)
    ensures Lookup(x, After(x, ops + [Put(k, e, ttl, now)]), k, now) == Some(e)
  {
    FirstInFirstOut(x, ops);
    PutReadableIff(x, ops, k, e, ttl, now);
    var c := After(x, ops);
    InvHolds(x, ops);
    InSet(c.order, k);
  }

  /** Main result on duplicates: exactly when a put leaves a duplicate-free list duplicate-free. It does not when the
      key's expired entry was dropped, its place is still listed, and that place is not the one this put evicts. */
  lemma DuplicateFreeIff(x: Setting, c: Contents, k: string, meta: Meta)
    requires Sound(x) && Inv(x, c) && Distinct(c.order)
    ensures Distinct(AfterPut(x, c, k, meta).order) <==>
            k in c.m || k !in c.order || (|c.order| == x.max && c.order[0] == k)
  {
    PutIs(x, c, k, meta);
    hide AfterPut, Inv;
    if k !in c.m && k in c.order {
      var i :| 0 <= i < |c.order| && c.order[i] == k;
      var t := AfterPut(x, c, k, meta).order;
      if |c.order| < x.max {
        assert t[i] == t[|c.order|];
      } else if i > 0 {
        assert t[i - 1] == t[|t| - 1];
      }
    }
  }

  /** Then a live entry goes before its turn: with two places, put a, expire it, put it again, put b, and only b is
      left. */
  lemma DuplicateEvictsLive(e: Entry, f: Entry)
    ensures var x := Setting(DEFAULT_TTL, 2);
            var c := After(x, [Put("a", e, 1, 0), Get("a", 5), Put("a", e, 0, 5), Put("b", f, 0, 6)]);
            c.order == ["a", "b"] && c.m.Keys == {"b"}
  {
    var x := Setting(DEFAULT_TTL, 2);
    hide AfterPut, After, Inv;
    var two := [Put("a", e, 1, 0), Get("a", 5)];
    var three := [Put("a", e, 1, 0), Get("a", 5), Put("a", e, 0, 5)];
    PutAndExpired(x, e);
    AfterSnoc(x, two, Put("a", e, 0, 5));
    assert two + [Put("a", e, 0, 5)] == three;
    InvHolds(x, two);
    PutIs(x, After(x, two), "a", Meta(e, 5, 0));
    var d := After(x, three);
    assert d.order == ["a"] + ["a"] == ["a", "a"] && d.m.Keys == {"a"};
    AfterSnoc(x, three, Put("b", f, 0, 6));
    assert three + [Put("b", f, 0, 6)] == [Put("a", e, 1, 0), Get("a", 5), Put("a", e, 0, 5), Put("b", f, 0, 6)];
    InvHolds(x, three);
    PutIs(x, d, "b", Meta(f, 6, 0));
    assert ["a", "a"][1..] + ["b"] == ["a", "b"];
  }

  /** Put a key for an instant and look for it later: it is listed and not held. */
  lemma PutAndExpired(x: Setting, e: Entry)
    requires Sound(x)
    ensures After(x, [Put("a", e, 1, 0), Get("a", 5)]) == Contents(map[], ["a"])
  {
    hide AfterPut, After;
    var one := [Put("a", e, 1, 0)];
    NothingHeld(x);
    AfterSnoc(x, [], one[0]);
    AfterSnoc(x, one, Get("a", 5));
    assert [] + one == one && one + [Get("a", 5)] == [Put("a", e, 1, 0), Get("a", 5)];
    PutIs(x, EMPTY, "a", Meta(e, 0, 1));
    assert After(x, one) == Contents(map["a" := Meta(e, 0, 1)], ["a"]) by { assert [] + ["a"] == ["a"]; }
    assert map["a" := Meta(e, 0, 1)] - {"a"} == map[];
  }

  lemma NothingHeld(x: Setting)
    requires Sound(x)
    ensures After(x, []) == EMPTY
  {
  }

  lemma AfterSnoc(x: Setting, ops: seq<Op>, o: Op)
    requires Sound(x)
    ensures After(x, ops + [o]) == Applied(x, After(x, ops), o)
  {
    assert (ops + [o])[..|ops|] == ops;
    hide Applied;
  }
}
