/** Draining in-flight requests at shutdown, as a protocol over the atomic operations of `begin`, `end` and `wait`.
    Any number of requests and one waiter interleave freely. */
module Drain {
  /** Where `wait` stands: not called, after storing closing, blocked in its select, or returned. */
  datatype Waiter = Idle | Stored | Blocked | Returned | Expired

  /** The fields of inFlight, the waiter, and the ends that reached zero by what they do next: load closing, look
      at done, or close it. `panicked` is a second close; `drained` records that the count was 0 since closing. */
  datatype State = State(count: nat, closing: bool, done: bool, waiter: Waiter, atZero: nat, sawClosing: nat,
                         willClose: nat, panicked: bool, drained: bool)

  datatype Step = Begin | EndDecrement | EndLoad | EndLook | EndClose | WaitStore | WaitLoad | WaitWake | WaitExpire

  const START := State(0, false, false, Idle, 0, 0, 0, false, false)

  ghost predicate Initial(s: State) {
    s == START
  }

  predicate Enabled(s: State, e: Step) {
    match e
    case Begin => true
    case EndDecrement => s.count > 0
    case EndLoad => s.atZero > 0
    case EndLook => s.sawClosing > 0
    case EndClose => s.willClose > 0
    case WaitStore => s.waiter == Idle
    case WaitLoad => s.waiter == Stored
    case WaitWake => s.waiter == Blocked && s.done
    case WaitExpire => s.waiter == Blocked
  }

  function Moved(s: State, e: Step): State
    requires Enabled(s, e)
  {
    match e
    case Begin => s.(count := s.count + 1)
    case EndDecrement => s.(count := s.count - 1, atZero := s.atZero + if s.count == 1 then 1 else 0)
    case EndLoad => s.(atZero := s.atZero - 1, sawClosing := s.sawClosing + if s.closing then 1 else 0)
    case EndLook => s.(sawClosing := s.sawClosing - 1, willClose := s.willClose + if s.done then 0 else 1)
    case EndClose => s.(willClose := s.willClose - 1, done := true, panicked := s.panicked || s.done)
    case WaitStore => s.(closing := true, waiter := Stored)
    case WaitLoad => s.(waiter := if s.count == 0 then Returned else Blocked)
    case WaitWake => s.(waiter := Returned)
    case WaitExpire => s.(waiter := Expired)
  }

  function Next(s: State, e: Step): State
    requires Enabled(s, e)
  {
    var t := Moved(s, e);
    t.(drained := t.drained || (t.closing && t.count == 0))
  }

  predicate Legal(s: State, es: seq<Step>)
    decreases |es|
  {
    es == [] || (Enabled(s, es[0]) && Legal(Next(s, es[0]), es[1..]))
  }

  function Final(s: State, es: seq<Step>): State
    requires Legal(s, es)
    decreases |es|
  {
    if es == [] then s else Final(Next(s, es[0]), es[1..])
  }

  /** Ends that reached zero and have not finished. */
  function OnTheWay(s: State): nat {
    s.atZero + s.sawClosing + s.willClose
  }

  // ----- no lost wakeup -----

  ghost predicate NoLostWakeup(s: State) {
    && (s.waiter != Idle <==> s.closing)
    && (s.waiter == Blocked && s.count == 0 ==> s.done || OnTheWay(s) > 0)
  }

  lemma {:induction false} WakeupHolds(s: State, es: seq<Step>)
    requires NoLostWakeup(s) && Legal(s, es)
    ensures NoLostWakeup(Final(s, es))
    decreases |es|
  {
    if es == [] {
    } else {
      WakeupHolds(Next(s, es[0]), es[1..]);
    }
  }

  lemma InitiallyWakeful(s: State)
    requires Initial(s)
    ensures NoLostWakeup(s)
  {
  }

  /** Main result: in every interleaving, if the waiter is blocked and the count is 0, then done is closed or an
      end that reached zero is on its way to closing it. */
  lemma NoWakeupIsLost(start: State, es: seq<Step>)
    requires Initial(start) && Legal(start, es)
    ensures var s := Final(start, es); s.waiter == Blocked && s.count == 0 ==> s.done || OnTheWay(s) > 0
  {
    hide Legal, Final, Initial;
    InitiallyWakeful(start);
    WakeupHolds(start, es);
  }

  predicate IsEnd(e: Step) {
    e == EndLoad || e == EndLook || e == EndClose
  }

  function Work(s: State): nat {
    3 * s.atZero + 2 * s.sawClosing + s.willClose
  }

  /** And it gets there: from such a state the ends take boundedly many steps, and when none is left to take, done
      is closed and the waiter can return. */
  lemma {:induction false} WakeupArrives(s: State, es: seq<Step>)
    requires NoLostWakeup(s) && s.waiter == Blocked && s.count == 0
    requires Legal(s, es) && forall i :: 0 <= i < |es| ==> IsEnd(es[i])
    ensures |es| <= Work(s)
    ensures (forall e :: IsEnd(e) ==> !Enabled(Final(s, es), e)) ==> Enabled(Final(s, es), WaitWake)
    decreases |es|
  {
    if es == [] {
      if forall e :: IsEnd(e) ==> !Enabled(s, e) {
        assert !Enabled(s, EndLoad) && !Enabled(s, EndLook) && !Enabled(s, EndClose);
      }
    } else {
      assert IsEnd(es[0]);
      WakeupArrives(Next(s, es[0]), es[1..]);
    }
  }

  // ----- what overlapping ends can do -----

  ghost predicate Reaches(s: State, t: State) {
    exists es :: Legal(s, es) && Final(s, es) == t
  }

  lemma Here(s: State)
    ensures Reaches(s, s)
  {
    assert Legal(s, []) && Final(s, []) == s;
  }

  lemma Take(s: State, e: Step, t: State)
    requires Enabled(s, e) && Reaches(Next(s, e), t)
    ensures Reaches(s, t)
  {
    var es :| Legal(Next(s, e), es) && Final(Next(s, e), es) == t;
    var all := [e] + es;
    assert all[0] == e && all[1..] == es;
    assert Legal(s, all) && Final(s, all) == t;
  }

  /** One request ends, the next begins and ends before the first has closed done: the channel is closed twice. */
  lemma DoubleClose()
    ensures Reaches(START, State(0, true, true, Blocked, 0, 0, 0, true, true))
  {
    hide Reaches;
    var t := State(0, true, true, Blocked, 0, 0, 0, true, true);
    Here(t);
    Take(State(0, true, true, Blocked, 0, 0, 1, false, true), EndClose, t);
    Take(State(0, true, false, Blocked, 0, 0, 2, false, true), EndClose, t);
    Take(State(0, true, false, Blocked, 0, 1, 1, false, true), EndLook, t);
    Take(State(0, true, false, Blocked, 0, 2, 0, false, true), EndLook, t);
    Take(State(0, true, false, Blocked, 1, 1, 0, false, true), EndLoad, t);
    Take(State(0, true, false, Blocked, 2, 0, 0, false, true), EndLoad, t);
    Take(State(1, true, false, Blocked, 1, 0, 0, false, true), EndDecrement, t);
    Take(State(0, true, false, Blocked, 1, 0, 0, false, true), Begin, t);
    Take(State(1, true, false, Blocked, 0, 0, 0, false, false), EndDecrement, t);
    Take(State(1, true, false, Stored, 0, 0, 0, false, false), WaitLoad, t);
    Take(State(1, false, false, Idle, 0, 0, 0, false, false), WaitStore, t);
    Take(START, Begin, t);
  }

  /** An end that was late to look at closing lets the waiter go while a request is in flight that never stopped
      being so: `wait` returns although the count has not been 0 since closing. */
  lemma EarlyReturn()
    ensures Reaches(START, State(1, true, true, Returned, 0, 0, 0, false, false))
  {
    hide Reaches;
    var t := State(1, true, true, Returned, 0, 0, 0, false, false);
    Here(t);
    Take(State(1, true, true, Blocked, 0, 0, 0, false, false), WaitWake, t);
    Take(State(1, true, false, Blocked, 0, 0, 1, false, false), EndClose, t);
    Take(State(1, true, false, Blocked, 0, 1, 0, false, false), EndLook, t);
    Take(State(1, true, false, Blocked, 1, 0, 0, false, false), EndLoad, t);
    Take(State(1, true, false, Stored, 1, 0, 0, false, false), WaitLoad, t);
    Take(State(1, false, false, Idle, 1, 0, 0, false, false), WaitStore, t);
    Take(State(0, false, false, Idle, 1, 0, 0, false, false), Begin, t);
    Take(State(1, false, false, Idle, 0, 0, 0, false, false), EndDecrement, t);
    Take(START, Begin, t);
  }

  /** A second close is ahead of the ends now on their way. */
  predicate Doomed(s: State) {
    s.panicked || if s.done then s.willClose > 0 else OnTheWay(s) >= 2
  }

  predicate AllEnds(es: seq<Step>) {
    forall i :: 0 <= i < |es| ==> IsEnd(es[i])
  }

  lemma {:induction false} NotDoomedStays(s: State, es: seq<Step>)
    requires s.closing && !Doomed(s) && Legal(s, es) && AllEnds(es)
    ensures !Final(s, es).panicked
    decreases |es|
  {
    if es == [] {
    } else {
      assert IsEnd(es[0]);
      NotDoomedStays(Next(s, es[0]), es[1..]);
    }
  }

  lemma {:induction false} DoomFalls(s: State) returns (es: seq<Step>)
    requires s.closing && Doomed(s)
    ensures Legal(s, es) && AllEnds(es) && Final(s, es).panicked
    decreases Work(s)
  {
    if s.panicked { return []; }
    var e := if s.done then EndClose else if s.atZero > 0 then EndLoad
             else if s.sawClosing > 0 then EndLook else EndClose;
    var rest := DoomFalls(Next(s, e));
    es := [e] + rest;
    assert es[0] == e && es[1..] == rest;
  }

  /** Once closing, the ends on their way can close the channel twice exactly when two of them are under way with
      done still open, or one has found it open and it is closed by now. */
  lemma DoubleCloseIff(s: State)
    requires s.closing && !s.panicked
    ensures (exists es :: Legal(s, es) && AllEnds(es) && Final(s, es).panicked) <==>
            if s.done then s.willClose > 0 else OnTheWay(s) >= 2
  {
    if Doomed(s) {
      var es := DoomFalls(s);
    } else {
      forall es | Legal(s, es) && AllEnds(es) ensures !Final(s, es).panicked {
        NotDoomedStays(s, es);
      }
    }
  }

  lemma {:induction false} EmptyOut(s: State) returns (es: seq<Step>)
    requires s.closing && !s.done
    ensures Legal(s, es) && Final(s, es).closing && !Final(s, es).done && Final(s, es).count == 0
    ensures OnTheWay(Final(s, es)) >= OnTheWay(s) + if s.count > 0 then 1 else 0
    decreases s.count
  {
    if s.count == 0 {
      es := [];
    } else {
      var rest := EmptyOut(Next(s, EndDecrement));
      es := [EndDecrement] + rest;
      assert es[0] == EndDecrement && es[1..] == rest;
    }
  }

  lemma {:induction false} Joined(s: State, a: seq<Step>, b: seq<Step>)
    requires Legal(s, a) && Legal(Final(s, a), b)
    ensures Legal(s, a + b) && Final(s, a + b) == Final(Final(s, a), b)
    decreases |a|
  {
    if a == [] {
      assert a + b == b;
    } else {
      assert (a + b)[1..] == a[1..] + b;
      Joined(Next(s, a[0]), a[1..], b);
    }
  }

  /** While done is open, two more requests can come and end together. */
  lemma DoubleCloseAhead(s: State) returns (es: seq<Step>)
    requires s.closing && !s.done
    ensures Legal(s, es) && Final(s, es).panicked
  {
    var a := EmptyOut(s);
    var t := Final(s, a);
    var t1 := Next(Next(t, Begin), EndDecrement);
    var t2 := Next(Next(t1, Begin), EndDecrement);
    var c := DoomFalls(t2);
    var b := [Begin, EndDecrement, Begin, EndDecrement];
    assert Legal(t, b) && Final(t, b) == t2 by {
      assert b[1..][1..] == [Begin, EndDecrement] && b[1..][1..][1..][1..] == [];
    }
    Joined(t, b, c);
    Joined(s, a, b + c);
    es := a + (b + c);
  }

  lemma {:induction false} ClosedStays(s: State, es: seq<Step>)
    requires s.done && s.willClose == 0 && !s.panicked && Legal(s, es)
    ensures !Final(s, es).panicked
    decreases |es|
  {
    if es == [] {
    } else {
      ClosedStays(Next(s, es[0]), es[1..]);
    }
  }

  /** Main result on the second close, over all interleavings: once closing it can no longer happen exactly when
      done is closed and no end that found it open is left. */
  lemma DoubleClosePossibleIff(s: State)
    requires s.closing && !s.panicked
    ensures (exists es :: Legal(s, es) && Final(s, es).panicked) <==> !(s.done && s.willClose == 0)
  {
    if !s.done {
      var es := DoubleCloseAhead(s);
    } else if s.willClose > 0 {
      var es := DoomFalls(s);
    } else {
      forall es | Legal(s, es) ensures !Final(s, es).panicked {
        ClosedStays(s, es);
      }
    }
  }

  // ----- when wait returns too early -----

  /** `wait` is under way and the count has not been 0 since closing. */
  ghost predicate Waiting(s: State) {
    s.closing && s.count > 0 && !s.drained && (s.waiter == Stored || s.waiter == Blocked)
  }

  lemma {:induction false} WaitsForZero(s: State, es: seq<Step>)
    requires s.drained || (s.closing && s.count > 0 && !s.done && s.waiter != Returned && OnTheWay(s) == 0)
    requires Legal(s, es)
    ensures Final(s, es).waiter == Returned ==> Final(s, es).drained
    decreases |es|
  {
    if es == [] {
    } else {
      WaitsForZero(Next(s, es[0]), es[1..]);
    }
  }

  lemma {:induction false} ReturnsEarly(s: State) returns (es: seq<Step>)
    requires Waiting(s) && (s.done || OnTheWay(s) > 0)
    ensures Legal(s, es) && Final(s, es).waiter == Returned && !Final(s, es).drained
    decreases if s.waiter == Stored then 1 else 0, if s.done then 0 else 1, Work(s)
  {
    var e := if s.waiter == Stored then WaitLoad else if s.done then WaitWake
             else if s.willClose > 0 then EndClose else if s.sawClosing > 0 then EndLook else EndLoad;
    var rest := [];
    if e != WaitWake { rest := ReturnsEarly(Next(s, e)); }
    es := [e] + rest;
    assert es[0] == e && es[1..] == rest;
  }

  /** Main result on early return, over all interleavings: from a waiting state `wait` can return without the count
      having been 0 exactly when done is closed already or an end that reached zero before is still on its way. In
      particular, when `wait` is called with requests in flight it depends on whether such an end is left. */
  lemma EarlyReturnIff(s: State)
    requires Waiting(s)
    ensures (exists es :: Legal(s, es) && Final(s, es).waiter == Returned && !Final(s, es).drained) <==>
            s.done || OnTheWay(s) > 0
  {
    if s.done || OnTheWay(s) > 0 {
      var es := ReturnsEarly(s);
    } else {
      forall es | Legal(s, es) ensures Final(s, es).waiter == Returned ==> Final(s, es).drained {
        WaitsForZero(s, es);
      }
    }
  }

  /** No request begins while an end that reached zero is on its way. */
  predicate Orderly(s: State, es: seq<Step>)
    requires Legal(s, es)
    decreases |es|
  {
    es == [] || ((es[0] == Begin ==> OnTheWay(s) == 0) && Orderly(Next(s, es[0]), es[1..]))
  }

  ghost predicate Calm(s: State) {
    && OnTheWay(s) <= 1 && (OnTheWay(s) > 0 ==> s.count == 0) && !s.panicked
    && (s.waiter != Idle <==> s.closing) && (s.sawClosing + s.willClose > 0 ==> s.closing)
    && (s.done ==> s.willClose == 0 && s.closing && s.drained)
    && (s.closing && OnTheWay(s) > 0 ==> s.drained) && (s.waiter == Returned ==> s.drained)
  }

  lemma {:induction false} CalmStays(s: State, es: seq<Step>)
    requires Calm(s) && Legal(s, es) && Orderly(s, es)
    ensures Calm(Final(s, es))
    decreases |es|
  {
    if es == [] {
    } else {
      CalmStays(Next(s, es[0]), es[1..]);
    }
  }

  lemma InitiallyCalm(s: State)
    requires Initial(s)
    ensures Calm(s)
  {
  }

  /** Without such overlaps the channel is never closed twice, and `wait` returns only after the count has been 0
      since closing. */
  lemma OrderlyRunsAreSafe(start: State, es: seq<Step>)
    requires Initial(start) && Legal(start, es) && Orderly(start, es)
    ensures var s := Final(start, es); !s.panicked && (s.waiter == Returned ==> s.drained)
  {
    hide Legal, Orderly, Final, Initial;
    InitiallyCalm(start);
    CalmStays(start, es);
  }
}
