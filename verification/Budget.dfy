/** Spending limits per client token, with the spending kept in memory. Amounts are reals. */
module Budget {
  import opened BudgetPeriods

  datatype Client = Client(token: string, name: string, limit: real, period: Period)

  /** A negative limit means there is none. */
  datatype ClientInfo = ClientInfo(name: string, limit: real, period: Period)

  datatype BudgetState = BudgetState(spent: real, key: Key)

  type Infos = map<string, ClientInfo>
  type States = map<string, BudgetState>

  function Configured(clients: seq<Client>): (m: Infos)
    ensures forall t :: t in m ==> t != "" && (m[t].limit > 0.0 || m[t].limit == -1.0)
  {
    if clients == [] then map[]
    else
      var m, c := Configured(clients[..|clients| - 1]), clients[|clients| - 1];
      if c.token == "" then m else m[c.token := ClientInfo(c.name, if c.limit <= 0.0 then -1.0 else c.limit, c.period)]
  }

  /** Client i is the last one with the token. */
  ghost predicate LastWith(clients: seq<Client>, token: string, i: nat) {
    i < |clients| && clients[i].token == token && forall j :: i < j < |clients| ==> clients[j].token != token
  }

  /** A token has the settings of the last client given for it, with no limit unless that is positive. */
  lemma {:induction false} ConfiguredIs(clients: seq<Client>, token: string, i: nat)
    requires token != "" && LastWith(clients, token, i)
    ensures token in Configured(clients)
    ensures Configured(clients)[token] ==
            ClientInfo(clients[i].name, if clients[i].limit > 0.0 then clients[i].limit else -1.0, clients[i].period)
    ensures Limited(Configured(clients), token) <==> clients[i].limit > 0.0
  {
    var n := |clients| - 1;
    if i < n {
      assert LastWith(clients[..n], token, i);
      ConfiguredIs(clients[..n], token, i);
    }
  }

  /** Other tokens, and the empty one, are not configured. */
  lemma {:induction false} NotConfigured(clients: seq<Client>, token: string)
    requires token == "" || forall j :: 0 <= j < |clients| ==> clients[j].token != token
    ensures token !in Configured(clients)
  {
    if token != "" && clients != [] { NotConfigured(clients[..|clients| - 1], token); }
  }

  /** What is recorded for a token under a period's key. */
  function Recorded(states: States, token: string, key: Key): real {
    if token in states && states[token].key == key then states[token].spent else 0.0
  }

  function Spent(states: States, token: string, period: Period, now: Time): real {
    Recorded(states, token, PeriodKey(period, now))
  }

  predicate Limited(info: Infos, token: string) {
    token in info && info[token].limit >= 0.0
  }

  function AfterAdd(info: Infos, states: States, token: string, usd: real, now: Time): States {
    if !Limited(info, token) || usd <= 0.0 then states
    else
      var period := info[token].period;
      states[token := BudgetState(Spent(states, token, period, now) + usd, PeriodKey(period, now))]
  }

  predicate Over(info: Infos, states: States, token: string, now: Time) {
    Limited(info, token) && Spent(states, token, info[token].period, now) >= info[token].limit
  }

  class Budgets {
    var info: Infos
    var states: States

    constructor (clients: seq<Client>)
      ensures info == Configured(clients) && states == map[]
    {
      var m: Infos := map[];
      for i := 0 to |clients|
        invariant m == Configured(clients[..i])
      {
        var c := clients[i];
        assert clients[..i + 1][..i] == clients[..i];
        if c.token == "" { continue; }
        var limit := c.limit;
        if limit <= 0.0 { limit := -1.0; }
        m := m[c.token := ClientInfo(c.name, limit, c.period)];
      }
      assert clients[..|clients|] == clients;
      info, states := m, map[];
    }

    method SpentFor(token: string, ci: ClientInfo, now: Time) returns (usd: real)
      ensures usd == Spent(states, token, ci.period, now)
    {
      if token !in states { return 0.0; }
      var st := states[token];
      if st.key != PeriodKey(ci.period, now) { return 0.0; }
      usd := st.spent;
    }

    method Exceeded(token: string, now: Time) returns (spent: real, over: bool)
      ensures over <==> Over(info, states, token, now)
      ensures spent == if Limited(info, token) then Spent(states, token, info[token].period, now) else 0.0
    {
      if token !in info || info[token].limit < 0.0 { return 0.0, false; }
      spent := SpentFor(token, info[token], now);
      over := spent >= info[token].limit;
    }

    method Add(token: string, usd: real, now: Time)
      modifies this`states
      ensures states == AfterAdd(info, old(states), token, usd, now)
    {
      hide PeriodKey;
      if token !in info || info[token].limit < 0.0 || usd <= 0.0 { return; }
      var key := PeriodKey(info[token].period, now);
      if token !in states || states[token].key != key {
        states := states[token := BudgetState(0.0, key)];
      }
      var st := states[token];
      states := states[token := st.(spent := st.spent + usd)];
    }
  }

  // ----- spending is the sum of the period's charges -----

  datatype Charge = Charge(token: string, usd: real, at: int)

  function After(info: Infos, h: seq<Charge>, offset: int): States {
    if h == [] then map[]
    else
      var e := h[|h| - 1];
      AfterAdd(info, After(info, h[..|h| - 1], offset), e.token, e.usd, Time(e.at, offset))
  }

  predicate Counts(e: Charge, token: string, period: Period, offset: int, key: Key) {
    e.token == token && e.usd > 0.0 && PeriodKey(period, Time(e.at, offset)) == key
  }

  /** The sum of a token's charges in the period with the given key. */
  function PeriodSum(h: seq<Charge>, token: string, period: Period, offset: int, key: Key): real {
    if h == [] then 0.0
    else
      var e := h[|h| - 1];
      PeriodSum(h[..|h| - 1], token, period, offset, key) + if Counts(e, token, period, offset, key) then e.usd else 0.0
  }

  lemma AddSpends(info: Infos, states: States, token: string, usd: real, at: Time, now: Time)
    requires Limited(info, token) && usd > 0.0
    ensures var period, t := info[token].period, AfterAdd(info, states, token, usd, at);
            Spent(t, token, period, now) ==
            if PeriodKey(period, at) == PeriodKey(period, now) then Spent(states, token, period, at) + usd else 0.0
  {
  }

  lemma AddElsewhere(info: Infos, states: States, other: string, usd: real, at: Time, token: string, key: Key)
    requires other != token || usd <= 0.0
    ensures Recorded(AfterAdd(info, states, other, usd, at), token, key) == Recorded(states, token, key)
  {
  }

  // ----- charges in any order -----

  /** A positive charge of the token in another period. */
  predicate Elsewhere(e: Charge, token: string, period: Period, offset: int, key: Key) {
    e.token == token && e.usd > 0.0 && PeriodKey(period, Time(e.at, offset)) != key
  }

  ghost predicate AnyCounts(h: seq<Charge>, token: string, period: Period, offset: int, key: Key) {
    exists i :: 0 <= i < |h| && Counts(h[i], token, period, offset, key)
  }

  /** Some charge of the period is followed by one of another period. */
  ghost predicate Overtaken(h: seq<Charge>, token: string, period: Period, offset: int, key: Key) {
    exists i, j :: 0 <= i < j < |h| && Counts(h[i], token, period, offset, key)
                   && Elsewhere(h[j], token, period, offset, key)
  }

  lemma {:induction false} SumOfCounts(h: seq<Charge>, token: string, period: Period, offset: int, key: Key)
    ensures PeriodSum(h, token, period, offset, key) >= 0.0
    ensures PeriodSum(h, token, period, offset, key) > 0.0 <==> AnyCounts(h, token, period, offset, key)
  {
    if h == [] {
    } else {
      var n := |h| - 1;
      SumOfCounts(h[..n], token, period, offset, key);
      CountsSnoc(h[..n], h[n], token, period, offset, key);
      assert h[..n] + [h[n]] == h;
      hide AnyCounts, Counts;
    }
  }

  lemma CountsSnoc(g: seq<Charge>, e: Charge, token: string, period: Period, offset: int, key: Key)
    ensures AnyCounts(g + [e], token, period, offset, key) <==>
            AnyCounts(g, token, period, offset, key) || Counts(e, token, period, offset, key)
  {
    hide Counts;
    var h := g + [e];
    assert h[|g|] == e;
    if AnyCounts(g, token, period, offset, key) {
      var i :| 0 <= i < |g| && Counts(g[i], token, period, offset, key);
      assert Counts(h[i], token, period, offset, key);
    }
  }

  lemma OvertakenInit(g: seq<Charge>, e: Charge, token: string, period: Period, offset: int, key: Key)
    requires Overtaken(g + [e], token, period, offset, key)
    ensures Overtaken(g, token, period, offset, key)
            || (AnyCounts(g, token, period, offset, key) && Elsewhere(e, token, period, offset, key))
  {
    hide Counts, Elsewhere;
    var h := g + [e];
    var i, j :| 0 <= i < j < |h| && Counts(h[i], token, period, offset, key)
                && Elsewhere(h[j], token, period, offset, key);
    assert h[i] == g[i];
    if j < |g| { assert h[j] == g[j]; }
  }

  lemma OvertakenSnoc(g: seq<Charge>, e: Charge, token: string, period: Period, offset: int, key: Key)
    ensures Overtaken(g + [e], token, period, offset, key) <==>
            Overtaken(g, token, period, offset, key)
            || (AnyCounts(g, token, period, offset, key) && Elsewhere(e, token, period, offset, key))
  {
    hide Counts, Elsewhere;
    var h := g + [e];
    assert h[|g|] == e;
    if Overtaken(h, token, period, offset, key) {
      OvertakenInit(g, e, token, period, offset, key);
    }
    if Overtaken(g, token, period, offset, key) {
      var i, j :| 0 <= i < j < |g| && Counts(g[i], token, period, offset, key)
                  && Elsewhere(g[j], token, period, offset, key);
      assert Counts(h[i], token, period, offset, key) && Elsewhere(h[j], token, period, offset, key);
    }
    if AnyCounts(g, token, period, offset, key) && Elsewhere(e, token, period, offset, key) {
      var i :| 0 <= i < |g| && Counts(g[i], token, period, offset, key);
      assert Counts(h[i], token, period, offset, key) && Elsewhere(h[|g|], token, period, offset, key);
    }
  }

  lemma RecordedStep(info: Infos, states: States, e: Charge, token: string, offset: int, key: Key)
    requires Limited(info, token)
    ensures var period := info[token].period;
            Recorded(AfterAdd(info, states, e.token, e.usd, Time(e.at, offset)), token, key) ==
            if Counts(e, token, period, offset, key) then Recorded(states, token, key) + e.usd
            else if Elsewhere(e, token, period, offset, key) then 0.0 else Recorded(states, token, key)
  {
    hide PeriodKey;
    if e.token != token || e.usd <= 0.0 { AddElsewhere(info, states, e.token, e.usd, Time(e.at, offset), token, key); }
  }

  /** What is recorded is never more than the period's charges, and it is all of them exactly when no charge of the
      period was overtaken. */
  lemma {:induction false} RecordedBounds(info: Infos, h: seq<Charge>, token: string, offset: int, key: Key)
    requires Limited(info, token)
    ensures var period, r := info[token].period, Recorded(After(info, h, offset), token, key);
            && 0.0 <= r <= PeriodSum(h, token, period, offset, key)
            && (r == PeriodSum(h, token, period, offset, key) <==> !Overtaken(h, token, period, offset, key))
  {
    var period := info[token].period;
    if h == [] {
    } else {
      var g, e := h[..|h| - 1], h[|h| - 1];
      assert g + [e] == h;
      RecordedBounds(info, g, token, offset, key);
      RecordedStep(info, After(info, g, offset), e, token, offset, key);
      OvertakenSnoc(g, e, token, period, offset, key);
      SumOfCounts(g, token, period, offset, key);
      NotBoth(e, token, period, offset, key);
      hide Recorded, AfterAdd, Counts, Elsewhere, Overtaken, AnyCounts, Limited;
    }
  }

  lemma NotBoth(e: Charge, token: string, period: Period, offset: int, key: Key)
    ensures Counts(e, token, period, offset, key) ==> e.usd > 0.0 && !Elsewhere(e, token, period, offset, key)
  {
  }

  /** Main result, for charges to any tokens in any order: what is recorded under a period's key is the sum of the
      period's charges exactly when none of them is followed by a positive charge of the token in another period. */
  lemma RecordedIsSumIff(info: Infos, h: seq<Charge>, token: string, offset: int, key: Key)
    requires Limited(info, token)
    ensures var period := info[token].period;
            Recorded(After(info, h, offset), token, key) == PeriodSum(h, token, period, offset, key) <==>
            !exists i, j :: 0 <= i < j < |h| && Counts(h[i], token, period, offset, key)
                            && Elsewhere(h[j], token, period, offset, key)
  {
    RecordedBounds(info, h, token, offset, key);
  }

  /** A charge of the day before that comes late erases the new day's spending. */
  lemma LateChargeErases(info: Infos, token: string)
    requires Limited(info, token) && info[token].period == Daily
    ensures var h, key := [Charge(token, 1.0, DAY), Charge(token, 1.0, 0)], PeriodKey(Daily, Time(DAY, 0));
            Recorded(After(info, h, 0), token, key) == 0.0 && PeriodSum(h, token, Daily, 0, key) == 1.0
  {
    var h, key := [Charge(token, 1.0, DAY), Charge(token, 1.0, 0)], PeriodKey(Daily, Time(DAY, 0));
    SameDay(Time(0, 0), Time(DAY, 0));
    assert DayAt(0) == 0 && DayAt(DAY) == 1;
    hide PeriodKey, DayAt;
    assert h[..1] == [h[0]] && h[..1][..0] == [];
    assert PeriodSum(h[..1], token, Daily, 0, key) == 1.0;
  }

  // ----- charges in time order -----

  /** The charges come in time order, none after `now`. */
  ghost predicate InOrder(h: seq<Charge>, now: int) {
    && (forall i, j :: 0 <= i <= j < |h| ==> h[i].at <= h[j].at)
    && (forall i :: 0 <= i < |h| ==> h[i].at <= now)
  }

  /** Main result: what a limited token has spent is the sum of its charges in the current period, over every
      history of charges to any tokens in time order, across any number of resets. */
  lemma SpentIsPeriodSum(info: Infos, h: seq<Charge>, token: string, offset: int, now: int)
    requires Limited(info, token) && InOrder(h, now)
    ensures var period := info[token].period;
            Spent(After(info, h, offset), token, period, Time(now, offset)) ==
            PeriodSum(h, token, period, offset, PeriodKey(period, Time(now, offset)))
  {
    var period := info[token].period;
    var key := PeriodKey(period, Time(now, offset));
    hide PeriodKey, Recorded;
    RecordedIsSumIff(info, h, token, offset, key);
    forall i, j | 0 <= i < j < |h| && Counts(h[i], token, period, offset, key)
      ensures !Elsewhere(h[j], token, period, offset, key)
    {
      KeysContiguous(period, h[i].at, h[j].at, now, offset);
    }
  }

  /** A configured client is refused exactly if its limit is positive and its charges in the current period have reached
      it. */
  lemma RefusedIff(clients: seq<Client>, i: nat, h: seq<Charge>, offset: int, now: int)
    requires i < |clients| && clients[i].token != "" && LastWith(clients, clients[i].token, i) && InOrder(h, now)
    ensures var c, info := clients[i], Configured(clients);
            Over(info, After(info, h, offset), c.token, Time(now, offset)) <==>
            && c.limit > 0.0
            && PeriodSum(h, c.token, c.period, offset, PeriodKey(c.period, Time(now, offset))) >= c.limit
  {
    hide PeriodKey, After, PeriodSum, InOrder;
    var c, info := clients[i], Configured(clients);
    ConfiguredIs(clients, c.token, i);
    if Limited(info, c.token) { SpentIsPeriodSum(info, h, c.token, offset, now); }
  }
}
