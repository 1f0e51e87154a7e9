/** The countdown / elapsed-time tracker of `Timer.hpp` and `Timer.cpp`.

    `TimerState` is the value of a timer (what a component record holds); the
    functions over it are the specification of each operation.  `Timer` is the
    object form with the three mutable fields, whose methods are proved against
    those functions. */
module Timers {

  datatype TimerState = TimerState(duration: real, elapsed: real, active: bool)

  /** `Timer()`: duration 0, elapsed 0, inactive. */
  function NewTimer(): TimerState
  {
    TimerState(0.0, 0.0, false)
  }

  /** `Timer(seconds)`: only the duration differs from the default. */
  function NewTimerFor(seconds: real): TimerState
  {
    TimerState(seconds, 0.0, false)
  }

  /** `start()` */
  function Started(t: TimerState): TimerState
  {
    t.(elapsed := 0.0, active := true)
  }

  /** `start(new_duration)`: set the duration, then `start()`. */
  function StartedWith(t: TimerState, newDuration: real): TimerState
  {
    Started(t.(duration := newDuration))
  }

  /** `update(delta)`: ignored while inactive, otherwise unclamped accumulation. */
  function Updated(t: TimerState, delta: real): TimerState
  {
    if !t.active then t else t.(elapsed := t.elapsed + delta)
  }

  /** `stop()` */
  function Stopped(t: TimerState): TimerState
  {
    t.(active := false)
  }

  predicate IsDone(t: TimerState)
  {
    t.active && t.elapsed >= t.duration
  }

  function Clamp01(x: real): real
  {
    if x < 0.0 then 0.0 else if x > 1.0 then 1.0 else x
  }

  /** `get_progress()`: a fraction in [0,1], with a special case for a
      non-positive duration. */
  function Progress(t: TimerState): (p: real)
    ensures 0.0 <= p <= 1.0
    ensures t.duration <= 0.0 ==> p == (if t.active then 1.0 else 0.0)
    ensures t.duration > 0.0 && 0.0 <= t.elapsed <= t.duration ==> p * t.duration == t.elapsed
    ensures t.duration > 0.0 && t.elapsed >= t.duration ==> p == 1.0
    ensures t.duration > 0.0 && t.elapsed <= 0.0 ==> p == 0.0
  {
    if t.duration <= 0.0 then (if t.active then 1.0 else 0.0)
    else
      var q := t.elapsed / t.duration;
      assert q * t.duration == t.elapsed;
      assert 0.0 <= t.elapsed <= t.duration ==> 0.0 <= q <= 1.0;
      Clamp01(q)
  }

  /** Apply `update` once per delta, in order. */
  function UpdatedAll(t: TimerState, deltas: seq<real>): TimerState
    decreases deltas
  {
    if deltas == [] then t else UpdatedAll(Updated(t, deltas[0]), deltas[1..])
  }

  function Sum(xs: seq<real>): real
  {
    if xs == [] then 0.0 else xs[0] + Sum(xs[1..])
  }

  /** Adding one more term at the end, as a running total does. */
  lemma {:induction false} SumSnoc(xs: seq<real>, x: real)
    ensures Sum(xs + [x]) == Sum(xs) + x
    decreases |xs|
  {
    if xs == [] {
      assert [] + [x] == [x];
    } else {
      assert (xs + [x])[1..] == xs[1..] + [x];
      SumSnoc(xs[1..], x);
    }
  }

  /** Both constructors give a timer that is inactive with nothing elapsed, so it
      is not done and its progress is 0. */
  lemma FreshTimerNotDone(seconds: real)
    ensures NewTimer().duration == 0.0 && NewTimerFor(seconds).duration == seconds
    ensures !IsDone(NewTimer()) && !IsDone(NewTimerFor(seconds))
    ensures Progress(NewTimer()) == 0.0 && Progress(NewTimerFor(seconds)) == 0.0
  {
  }

  /** `start(d)` sets the duration and then behaves exactly like `start()`;
      `start()` keeps the duration. */
  lemma StartFacts(t: TimerState, d: real)
    ensures Started(t).duration == t.duration && Started(t).elapsed == 0.0 && Started(t).active
    ensures StartedWith(t, d) == Started(t.(duration := d)) && StartedWith(t, d).duration == d
    ensures IsDone(StartedWith(t, d)) <==> d <= 0.0
  {
  }

  /** `update` on an inactive timer changes nothing; on an active one it adds
      the delta to `elapsed` and nothing else. */
  lemma UpdateFacts(t: TimerState, delta: real)
    ensures !t.active ==> Updated(t, delta) == t
    ensures t.active ==> Updated(t, delta).elapsed == t.elapsed + delta
    ensures Updated(t, delta).duration == t.duration && Updated(t, delta).active == t.active
  {
  }

  /** `is_done` after `stop()` is false, with elapsed and duration unchanged. */
  lemma StopFacts(t: TimerState)
    ensures !IsDone(Stopped(t)) && !Stopped(t).active
    ensures Stopped(t).elapsed == t.elapsed && Stopped(t).duration == t.duration
  {
  }

  /** A sequence of updates on an active timer adds up all deltas. */
  lemma {:induction false} UpdatedAllSums(t: TimerState, deltas: seq<real>)
    requires t.active
    ensures UpdatedAll(t, deltas) == t.(elapsed := t.elapsed + Sum(deltas))
    decreases deltas
  {
    if deltas != [] {
      UpdatedAllSums(Updated(t, deltas[0]), deltas[1..]);
    }
  }

  /** Round trip: after `start(d)`, updates whose deltas sum to at least `d`
      make the timer done.  With `d <= 0` it is done before any update. */
  lemma StartThenUpdatesIsDone(t: TimerState, d: real, deltas: seq<real>)
    requires Sum(deltas) >= d
    ensures IsDone(UpdatedAll(StartedWith(t, d), deltas))
    ensures d <= 0.0 ==> IsDone(StartedWith(t, d))
  {
    UpdatedAllSums(StartedWith(t, d), deltas);
  }

  /** Once done, further non-negative updates keep an active timer done. */
  lemma {:induction false} DoneStaysDone(t: TimerState, deltas: seq<real>)
    requires IsDone(t)
    requires forall i :: 0 <= i < |deltas| ==> deltas[i] >= 0.0
    ensures IsDone(UpdatedAll(t, deltas))
    decreases deltas
  {
    if deltas != [] {
      DoneStaysDone(Updated(t, deltas[0]), deltas[1..]);
    }
  }

  /** The timer object: the three fields of `Timer.hpp`. */
  class Timer {
    var duration: real
    var elapsed: real
    var active: bool

    function State(): TimerState
      reads this
    {
      TimerState(duration, elapsed, active)
    }

    /** `Timer()` */
    constructor ()
      ensures State() == NewTimer()
    {
      duration, elapsed, active := 0.0, 0.0, false;
    }

    /** `Timer(seconds)` */
    constructor WithDuration(seconds: real)
      ensures State() == NewTimerFor(seconds)
    {
      duration, elapsed, active := seconds, 0.0, false;
    }

    method Start()
      modifies this
      ensures State() == Started(old(State()))
    {
      elapsed := 0.0;
      active := true;
    }

    method StartWith(newDuration: real)
      modifies this
      ensures State() == StartedWith(old(State()), newDuration)
    {
      duration := newDuration;
      Start();
    }

    method Update(delta: real)
      modifies this
      ensures State() == Updated(old(State()), delta)
    {
      if !active {
        return;
      }
      elapsed := elapsed + delta;
    }

    method Stop()
      modifies this
      ensures State() == Stopped(old(State()))
    {
      active := false;
    }

    predicate IsDoneNow()
      reads this
    {
      IsDone(State())
    }

    predicate IsActive()
      reads this
    {
      active
    }

    function GetProgress(): real
      reads this
    {
      Progress(State())
    }

    function GetDuration(): real
      reads this
    {
      duration
    }
  }
}
