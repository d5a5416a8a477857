/** The circuit breaker of a provider. Times are Unix seconds; the failure count is a 32-bit integer and wraps. */
module Breaker {
  const THRESHOLD := 5
  const OPEN_SECONDS := 120

  /** Two's-complement wrap-around at 32 bits. */
  function Wrap32(n: int): (r: int)
    ensures -0x8000_0000 <= r < 0x8000_0000
  {
    (n + 0x8000_0000) % 0x1_0000_0000 - 0x8000_0000
  }

  datatype State = State(consecFails: int, openUntil: int)

  const CLOSED := State(0, 0)

  /** One upstream outcome, seen at a time. */
  datatype Outcome = Outcome(ok: bool, at: nat)

  function Note(s: State, o: Outcome): State {
    if o.ok then s.(consecFails := 0)
    else
      var n := Wrap32(s.consecFails + 1);
      State(n, if n >= THRESHOLD then o.at + OPEN_SECONDS else s.openUntil)
  }

  predicate Open(s: State, now: int) {
    s.openUntil > 0 && now < s.openUntil
  }

  class CircuitBreaker {
    var consecFails: int
    var openUntilUnix: int

    ghost function View(): State
      reads this
    {
      State(consecFails, openUntilUnix)
    }

    constructor ()
      ensures View() == CLOSED
    {
      consecFails, openUntilUnix := 0, 0;
    }

    method NoteUpstream(ok: bool, now: nat)
      modifies this
      ensures View() == Note(old(View()), Outcome(ok, now))
    {
      if ok {
        consecFails := 0;
        return;
      }
      consecFails := Wrap32(consecFails + 1);
      if consecFails >= THRESHOLD { openUntilUnix := now + OPEN_SECONDS; }
    }

    method IsOpen(now: int) returns (open: bool)
      ensures open == Open(View(), now)
    {
      open := openUntilUnix > 0 && now < openUntilUnix;
    }
  }

  // ----- the history -----

  function After(h: seq<Outcome>): State {
    if h == [] then CLOSED else Note(After(h[..|h| - 1]), h[|h| - 1])
  }

  /** How many failures end the history in a row. */
  function FailRun(h: seq<Outcome>): nat {
    if h == [] || h[|h| - 1].ok then 0 else FailRun(h[..|h| - 1]) + 1
  }

  /** The failure at j opened the breaker: the run it ends is long enough, as a 32-bit count. */
  predicate Trips(h: seq<Outcome>, j: nat)
    requires j < |h|
  {
    !h[j].ok && Wrap32(FailRun(h[..j + 1])) >= THRESHOLD
  }

  ghost predicate Ordered(h: seq<Outcome>) {
    forall i, j :: 0 <= i <= j < |h| ==> h[i].at <= h[j].at
  }

  lemma WrapAgain(n: int)
    ensures Wrap32(Wrap32(n) + 1) == Wrap32(n + 1)
  {
  }

  lemma {:induction false} CountIsRun(h: seq<Outcome>)
    ensures After(h).consecFails == Wrap32(FailRun(h))
  {
    if h == [] {
    } else {
      CountIsRun(h[..|h| - 1]);
      WrapAgain(FailRun(h[..|h| - 1]));
      hide Wrap32;
    }
  }

  lemma {:induction false} OpenUntilIsLastTrip(h: seq<Outcome>)
    requires Ordered(h)
    ensures forall j :: 0 <= j < |h| && Trips(h, j) ==> h[j].at + OPEN_SECONDS <= After(h).openUntil
    ensures After(h).openUntil != 0 ==>
            exists j :: 0 <= j < |h| && Trips(h, j) && h[j].at + OPEN_SECONDS == After(h).openUntil
  {
    if h == [] {
    } else {
      var n := |h| - 1;
      var g := h[..n];
      OpenUntilIsLastTrip(g);
      LastOutcome(h);
      SamePrefix(h, n);
      hide Trips, After;
      if !Trips(h, n) && After(g).openUntil != 0 {
        var j :| 0 <= j < |g| && Trips(g, j) && g[j].at + OPEN_SECONDS == After(g).openUntil;
        assert Trips(h, j);
      }
    }
  }

  lemma LastOutcome(h: seq<Outcome>)
    requires h != []
    ensures After(h).openUntil ==
            if Trips(h, |h| - 1) then h[|h| - 1].at + OPEN_SECONDS else After(h[..|h| - 1]).openUntil
  {
    CountIsRun(h);
    CountIsRun(h[..|h| - 1]);
    assert h[..|h|] == h;
  }

  lemma SamePrefix(h: seq<Outcome>, n: nat)
    requires n < |h|
    ensures forall j :: 0 <= j < n ==> (Trips(h, j) <==> Trips(h[..n], j))
  {
    forall j | 0 <= j < n ensures Trips(h, j) <==> Trips(h[..n], j) {
      assert h[..n][..j + 1] == h[..j + 1];
    }
  }

  /** Main result: over every history in time order the breaker is open exactly while some tripping failure is
      less than two minutes old. */
  lemma BreakerRefinesHistory(h: seq<Outcome>, now: int)
    requires Ordered(h)
    ensures Open(After(h), now) <==> exists j :: 0 <= j < |h| && Trips(h, j) && now < h[j].at + 120
  {
    OpenUntilIsLastTrip(h);
  }

  lemma {:induction false} RunShort(h: seq<Outcome>)
    ensures FailRun(h) <= |h|
  {
    if h == [] {
    } else {
      RunShort(h[..|h| - 1]);
    }
  }

  /** Below 2^31 outcomes the count does not wrap: a failure trips exactly when it ends a run of five. */
  lemma TripsIsRunOfFive(h: seq<Outcome>, j: nat)
    requires j < |h| < 0x8000_0000
    ensures Trips(h, j) <==> !h[j].ok && FailRun(h[..j + 1]) >= 5
  {
    RunShort(h[..j + 1]);
  }

  /** What a run of five is: the last five outcomes failed. */
  lemma {:induction false} RunMeans(h: seq<Outcome>, k: nat)
    ensures FailRun(h) >= k <==> k <= |h| && forall i :: |h| - k <= i < |h| ==> !h[i].ok
  {
    if k > 0 && h != [] {
      var g := h[..|h| - 1];
      RunMeans(g, k - 1);
      if FailRun(h) >= k {
        forall i | |h| - k <= i < |h| ensures !h[i].ok { if i < |g| { assert g[i] == h[i]; } }
      }
      if k <= |h| && (forall i :: |h| - k <= i < |h| ==> !h[i].ok) {
        assert !h[|h| - 1].ok;
        forall i | |g| - (k - 1) <= i < |g| ensures !g[i].ok { assert g[i] == h[i]; }
      }
    }
  }
}
