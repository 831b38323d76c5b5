/** A saturating countdown timer that is reset to a fixed interval. */
module Timing {

  /** Saturating subtraction on milliseconds, as `Duration::saturating_sub`. */
  function SaturatingSub(a: nat, b: nat): (r: nat)
    ensures r <= a
    ensures r == 0 <==> a <= b
    ensures b < a ==> r + b == a
  {
    if a <= b then 0 else a - b
  }

  /** The value of a timer: `remaining` models the stored `Duration` in milliseconds. */
  datatype TimerState = TimerState(ready: bool, millis: nat, remaining: nat) {

    static function FromMillis(m: nat): (t: TimerState)
      ensures !t.ready && t.millis == m && t.remaining == m
    {
      TimerState(false, m, m)
    }

    /** Counts `delta` milliseconds down; ready exactly when nothing remains. */
    function Update(delta: nat): (t: TimerState)
      ensures t.millis == millis
      ensures t.remaining == SaturatingSub(remaining, delta)
      ensures t.ready <==> t.remaining == 0
    {
      var r := SaturatingSub(remaining, delta);
      this.(remaining := r, ready := r == 0)
    }

    function Finish(): (t: TimerState)
      ensures t.ready && t.remaining == 0 && t.millis == millis
    {
      this.(remaining := 0, ready := true)
    }

    function Reset(): (t: TimerState)
      ensures t == FromMillis(millis)
    {
      FromMillis(millis)
    }
  }

  /** Once nothing remains, every further update leaves the timer ready. */
  lemma ReadyStaysReady(t: TimerState, delta: nat)
    requires t.remaining == 0
    ensures t.Update(delta).ready && t.Update(delta).remaining == 0
  {
  }

  /** Two updates count down exactly as much as one update by the summed delta. */
  lemma UpdatesAdd(t: TimerState, a: nat, b: nat)
    ensures t.Update(a).Update(b) == t.Update(a + b)
  {
  }

  /** No operation changes the interval the timer is reset to. */
  lemma IntervalIsFixed(t: TimerState, delta: nat)
    ensures t.Update(delta).millis == t.millis
    ensures t.Finish().millis == t.millis
    ensures t.Reset().millis == t.millis
    ensures t.Reset().remaining == t.millis && !t.Reset().ready
  {
  }

  /** The unit test of timer.rs: 1000 ms, 500 elapsed, 501 elapsed, reset, finish. */
  lemma TimerScenario()
    ensures var t0 := TimerState.FromMillis(1000);
            var t1 := t0.Update(500);
            var t2 := t1.Update(501);
            var t3 := t2.Reset();
            var t4 := t3.Finish();
            !t0.ready && !t1.ready && t2.ready && !t3.ready && t4.ready
  {
  }

  /** The timer object; its fields are overwritten in place by the operations. */
  class Timer {
    var ready: bool
    const millis: nat
    var remaining: nat

    ghost function State(): TimerState
      reads this
    {
      TimerState(ready, millis, remaining)
    }

    constructor FromMillis(m: nat)
      ensures State() == TimerState.FromMillis(m)
    {
      ready := false;
      millis := m;
      remaining := m;
    }

    /** A copy of another timer (the source's timers are plain values). */
    constructor Clone(other: Timer)
      ensures State() == other.State()
    {
      ready := other.ready;
      millis := other.millis;
      remaining := other.remaining;
    }

    method Update(delta: nat)
      modifies this
      ensures State() == old(State()).Update(delta)
    {
      remaining := SaturatingSub(remaining, delta);
      ready := remaining == 0;
    }

    method Finish()
      modifies this
      ensures State() == old(State()).Finish()
    {
      remaining := 0;
      ready := true;
    }

    method Reset()
      modifies this
      ensures State() == old(State()).Reset()
    {
      ready := false;
      remaining := millis;
    }
  }

  /** The timer unit test run on the object. */
  method TimerObjectScenario() returns (r0: bool, r1: bool, r2: bool, r3: bool, r4: bool)
    ensures !r0 && !r1 && r2 && !r3 && r4
  {
    var timer := new Timer.FromMillis(1000);
    r0 := timer.ready;
    timer.Update(500);
    r1 := timer.ready;
    timer.Update(501);
    r2 := timer.ready;
    timer.Reset();
    r3 := timer.ready;
    timer.Finish();
    r4 := timer.ready;
  }
}
