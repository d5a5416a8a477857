/** Admission and charging as separate steps: many requests can be admitted before any of them is charged. */
module BudgetOvershoot {
  import opened BudgetPeriods
  import opened Budget

  /** One limited token is watched; at most `most` of its requests are in flight, each costing at most `cost`. */
  datatype Setting = Setting(info: Infos, token: string, offset: int, most: nat, cost: real)

  datatype Sys = Sys(states: States, inflight: nat, clock: int)

  /** A request is admitted, is charged when it completes, or ends without a charge; other tokens are charged. */
  datatype Step =
    | Admit(at: int)
    | Complete(usd: real, at: int)
    | Abandon(at: int)
    | Elsewhere(token: string, usd: real, at: int)

  ghost predicate Sound(x: Setting) {
    x.token in x.info && x.info[x.token].limit > 0.0 && x.cost > 0.0
  }

  predicate Enabled(x: Setting, s: Sys, e: Step) {
    && e.at >= s.clock
    && match e
       case Admit(at) => s.inflight < x.most && !Over(x.info, s.states, x.token, Time(at, x.offset))
       case Complete(usd, _) => s.inflight > 0 && usd <= x.cost
       case Abandon(_) => s.inflight > 0
       case Elsewhere(token, _, _) => token != x.token
  }

  function Next(x: Setting, s: Sys, e: Step): Sys
    requires Enabled(x, s, e)
  {
    match e
    case Admit(at) => Sys(s.states, s.inflight + 1, at)
    case Complete(usd, at) => Sys(AfterAdd(x.info, s.states, x.token, usd, Time(at, x.offset)), s.inflight - 1, at)
    case Abandon(at) => Sys(s.states, s.inflight - 1, at)
    case Elsewhere(token, usd, at) => Sys(AfterAdd(x.info, s.states, token, usd, Time(at, x.offset)), s.inflight, at)
  }

  /** The steps can be taken in this order from s. */
  predicate Legal(x: Setting, s: Sys, es: seq<Step>)
    decreases |es|
  {
    es == [] || (Enabled(x, s, es[0]) && Legal(x, Next(x, s, es[0]), es[1..]))
  }

  function Final(x: Setting, s: Sys, es: seq<Step>): Sys
    requires Legal(x, s, es)
    decreases |es|
  {
    if es == [] then s else Final(x, Next(x, s, es[0]), es[1..])
  }

  function SpentAt(x: Setting, s: Sys, now: int): real
    requires x.token in x.info
  {
    Spent(s.states, x.token, x.info[x.token].period, Time(now, x.offset))
  }

  function Times(n: nat, cost: real): real {
    n as real * cost
  }

  lemma TimesStep(n: nat, cost: real)
    ensures Times(n + 1, cost) == Times(n, cost) + cost
  {
  }

  lemma TimesGrows(n: nat, m: nat, cost: real)
    requires n <= m && cost > 0.0
    ensures Times(n, cost) <= Times(m, cost)
  {
    hide Times;
    if n < m {
      TimesStep(m - 1, cost);
      TimesGrows(n, m - 1, cost);
    }
  }

  /** The recorded amount is not negative and was recorded no later than the clock. */
  ghost predicate Stamped(x: Setting, s: Sys)
    requires x.token in x.info
  {
    x.token in s.states ==>
      && s.states[x.token].spent >= 0.0
      && exists a :: a <= s.clock && s.states[x.token].key == PeriodKey(x.info[x.token].period, Time(a, x.offset))
  }

  /** What is spent and what is in flight stay below the limit and the full load together. */
  ghost predicate Inv(x: Setting, s: Sys)
    requires x.token in x.info
  {
    && s.inflight <= x.most && Stamped(x, s)
    && SpentAt(x, s, s.clock) + Times(s.inflight, x.cost) < x.info[x.token].limit + Times(x.most, x.cost)
  }

  lemma SpentLater(x: Setting, s: Sys, now: int)
    requires Sound(x) && Stamped(x, s) && now >= s.clock
    ensures SpentAt(x, s, now) == SpentAt(x, s, s.clock) || SpentAt(x, s, now) == 0.0
    ensures SpentAt(x, s, s.clock) >= 0.0
  {
    var period := x.info[x.token].period;
    hide PeriodKey;
    if x.token in s.states && s.states[x.token].key == PeriodKey(period, Time(now, x.offset)) {
      var a :| a <= s.clock && s.states[x.token].key == PeriodKey(period, Time(a, x.offset));
      KeysContiguous(period, a, s.clock, now, x.offset);
    }
  }

  /** Time alone keeps the invariant. */
  lemma InvLater(x: Setting, s: Sys, now: int)
    requires Sound(x) && Inv(x, s) && now >= s.clock
    ensures Inv(x, s.(clock := now))
  {
    hide PeriodKey;
    SpentLater(x, s, now);
    TimesGrows(s.inflight, x.most, x.cost);
    hide Times, Spent;
    if x.token in s.states {
      var a :| a <= s.clock && s.states[x.token].key == PeriodKey(x.info[x.token].period, Time(a, x.offset));
      assert a <= now;
    }
  }

  lemma StepKeepsInv(x: Setting, s: Sys, e: Step)
    requires Sound(x) && Inv(x, s) && s.clock == e.at && Enabled(x, s, e)
    ensures Inv(x, Next(x, s, e))
  {
    hide PeriodKey, Times;
    var now := Time(e.at, x.offset);
    match e
    case Admit(_) =>
      TimesStep(s.inflight, x.cost);
      TimesGrows(s.inflight + 1, x.most, x.cost);
    case Complete(usd, _) =>
      TimesStep(s.inflight - 1, x.cost);
      if usd > 0.0 {
        SpentLater(x, s, s.clock);
        AddSpends(x.info, s.states, x.token, usd, now, now);
        assert Stamped(x, Next(x, s, e));
        hide Stamped, Spent, AfterAdd;
      }
    case Abandon(_) => TimesStep(s.inflight - 1, x.cost);
    case Elsewhere(token, usd, _) =>
      AddElsewhere(x.info, s.states, token, usd, now, x.token, PeriodKey(x.info[x.token].period, now));
  }

  lemma {:induction false} RunKeepsInv(x: Setting, s: Sys, es: seq<Step>)
    requires Sound(x) && Inv(x, s) && Legal(x, s, es)
    ensures Inv(x, Final(x, s, es))
    decreases |es|
  {
    hide Inv, Next, Enabled, Sound;
    if es == [] {
    } else {
      StepFromEarlier(x, s, es[0]);
      RunKeepsInv(x, Next(x, s, es[0]), es[1..]);
    }
  }

  lemma StepFromEarlier(x: Setting, s: Sys, e: Step)
    requires Sound(x) && Inv(x, s) && Enabled(x, s, e)
    ensures Inv(x, Next(x, s, e))
  {
    hide Inv, PeriodKey, AfterAdd, Over;
    InvLater(x, s, e.at);
    StepKeepsInv(x, s.(clock := e.at), e);
  }

  const FRESH := Sys(map[], 0, 0)

  /** Main result: in every state a legal run reaches, and at every later time, the current period's spending is
      below the limit plus what the permitted number of requests in flight can cost. */
  lemma OvershootBounded(x: Setting, start: int, es: seq<Step>, now: int)
    requires Sound(x) && Legal(x, FRESH.(clock := start), es)
    requires now >= Final(x, FRESH.(clock := start), es).clock
    ensures SpentAt(x, Final(x, FRESH.(clock := start), es), now) < x.info[x.token].limit + Times(x.most, x.cost)
  {
    hide PeriodKey;
    var s := FRESH.(clock := start);
    TimesStep(0, x.cost);
    assert Inv(x, s) by { TimesGrows(0, x.most, x.cost); }
    RunKeepsInv(x, s, es);
    var t := Final(x, s, es);
    InvLater(x, t, now);
    TimesGrows(0, t.inflight, x.cost);
  }

  // ----- the bound is sharp -----

  function Repeat(e: Step, n: nat): seq<Step> {
    if n == 0 then [] else [e] + Repeat(e, n - 1)
  }

  lemma {:induction false} AdmitMany(x: Setting, s: Sys, n: nat, rest: seq<Step>)
    requires Sound(x) && s.inflight + n <= x.most && !Over(x.info, s.states, x.token, Time(s.clock, x.offset))
    requires Legal(x, s.(inflight := s.inflight + n), rest)
    ensures Legal(x, s, Repeat(Admit(s.clock), n) + rest)
    ensures Final(x, s, Repeat(Admit(s.clock), n) + rest) == Final(x, s.(inflight := s.inflight + n), rest)
    decreases n
  {
    hide Over, PeriodKey;
    var e := Admit(s.clock);
    if n == 0 {
      assert Repeat(e, n) + rest == rest;
    } else {
      AdmitMany(x, s.(inflight := s.inflight + 1), n - 1, rest);
      assert Repeat(e, n) + rest == [e] + (Repeat(e, n - 1) + rest);
      assert (Repeat(e, n) + rest)[1..] == Repeat(e, n - 1) + rest;
      assert Next(x, s, e) == s.(inflight := s.inflight + 1);
    }
  }

  lemma {:induction false} CompleteMany(x: Setting, s: Sys)
    requires Sound(x)
    ensures var es := Repeat(Complete(x.cost, s.clock), s.inflight);
            && Legal(x, s, es) && Final(x, s, es).clock == s.clock
            && SpentAt(x, Final(x, s, es), s.clock) == SpentAt(x, s, s.clock) + Times(s.inflight, x.cost)
    decreases s.inflight
  {
    hide PeriodKey, Times;
    var e, now := Complete(x.cost, s.clock), Time(s.clock, x.offset);
    if s.inflight == 0 {
      assert Times(0, x.cost) == 0.0 by { TimesZero(x.cost); }
    } else {
      var t := Next(x, s, e);
      AddSpends(x.info, s.states, x.token, x.cost, now, now);
      hide AfterAdd, Spent;
      CompleteMany(x, t);
      TimesStep(s.inflight - 1, x.cost);
      var es := Repeat(e, s.inflight);
      assert es[0] == e && es[1..] == Repeat(e, s.inflight - 1);
    }
  }

  lemma TimesZero(cost: real)
    ensures Times(0, cost) == 0.0
  {
  }

  /** From any idle state with spending below the limit, a full load of requests of the highest cost overshoots by
      all of it: the bound cannot be lowered. */
  lemma OvershootReached(x: Setting, s: Sys)
    requires Sound(x) && s.inflight == 0 && SpentAt(x, s, s.clock) < x.info[x.token].limit
    ensures exists es :: Legal(x, s, es) && Final(x, s, es).clock == s.clock &&
                         SpentAt(x, Final(x, s, es), s.clock) == SpentAt(x, s, s.clock) + Times(x.most, x.cost)
  {
    hide PeriodKey, Times;
    var t := s.(inflight := x.most);
    CompleteMany(x, t);
    var rest := Repeat(Complete(x.cost, s.clock), x.most);
    AdmitMany(x, s, x.most, rest);
    assert Legal(x, s, Repeat(Admit(s.clock), x.most) + rest);
  }
}
