/**
 * KeyRepeatClass: the per-button timer that turns a pressed/not pressed
 * sample per tick into Down (first), Up (last), Repeat pulses and
 * double-press detection. Time is in seconds; `dt` is the tick's
 * Time.deltaTime, passed in.
 */
module KeyRepeat {

  /** The timer's mutable state. */
  datatype Timer = Timer(
    lockEnable: bool, enable: bool, started: bool, first: bool, last: bool,
    pushing: real, doublePress: bool, doubleTime: real)

  /** The timer's settings, fixed after construction. */
  datatype Config = Config(lockStart: real, start: real, interval: real, doubleLatency: real)

  /** One tick's input. */
  datatype Sample = Sample(press: bool, dt: real)

  /** One tick's result: the new state and whether a pulse (Down or Repeat) fires. */
  datatype Tick = Tick(next: Timer, pulse: bool)

  /** The state a fresh KeyRepeatClass starts in. */
  function Initial(c: Config): (t: Timer)
    ensures !t.enable && !t.lockEnable && !t.started && !t.first && !t.last && !t.doublePress
    ensures t.doubleTime > c.doubleLatency
  {
    Timer(false, false, false, false, false, 0.0, false, c.doubleLatency + 1.0)
  }

  /** Where `pushing` is after a press tick that starts from a disabled timer. */
  function LockPushing(s: Timer, dt: real): real
  {
    if s.lockEnable then s.pushing + dt else 0.0
  }

  /** KeyRepeatClass.Check, one tick. */
  function Step(c: Config, s: Timer, press: bool, dt: real): (r: Tick)
    // Down fires exactly on a press tick that reaches the lock time from a disabled timer.
    ensures r.next.first <==> press && !s.enable && LockPushing(s, dt) >= c.lockStart
    // Up fires exactly on the first released tick of an enabled timer.
    ensures r.next.last <==> !press && s.enable
    ensures !(r.next.first && r.next.last)
    ensures r.next.first ==> r.pulse
    ensures !press ==> !r.pulse
    ensures r.next.enable <==> press && (s.enable || r.next.first)
  {
    var s0 := s.(first := false, last := false, doubleTime := Advanced(c, s, dt));
    if press then Pressed(c, s0, dt) else Released(c, s0)
  }

  /** The pressed half of Check, after the one-tick flags are cleared. */
  function Pressed(c: Config, s0: Timer, dt: real): Tick
  {
    if s0.enable then
      var p := s0.pushing + dt;
      if s0.started then
        if c.interval > 0.0 && p > c.interval then Tick(s0.(pushing := 0.0), true)
        else Tick(s0.(pushing := p), false)
      else
        if c.start > 0.0 && p > c.start then Tick(s0.(started := true, pushing := 0.0), true)
        else Tick(s0.(pushing := p), false)
    else
      var s1 := s0.(lockEnable := true, pushing := LockPushing(s0, dt));
      if s1.pushing >= c.lockStart then
        var dp := s1.doubleTime <= c.doubleLatency;
        Tick(s1.(first := true, enable := true, started := false, doublePress := dp,
                 doubleTime := if dp then c.doubleLatency + 1.0 else 0.0), true)
      else Tick(s1, false)
  }

  /** The released half of Check. */
  function Released(c: Config, s0: Timer): Tick
  {
    if s0.enable then
      Tick(s0.(doubleTime := if s0.doubleTime <= c.doubleLatency then 0.0 else c.doubleLatency + 1.0,
               last := true, started := false, enable := false, lockEnable := false), false)
    else Tick(s0.(doublePress := false), false)
  }

  /** The double-press clock advances only while it is below the latency. */
  function Advanced(c: Config, s: Timer, dt: real): real
  {
    if s.doubleTime < c.doubleLatency then s.doubleTime + dt else s.doubleTime
  }

  /** A release while the timer is not enabled (also before the lock time is reached) only clears
      double_press and the one-tick flags; lock_enable and pushing are kept. */
  lemma ReleaseBeforeLock(c: Config, s: Timer, dt: real)
    requires !s.enable
    ensures Step(c, s, false, dt).next
         == s.(first := false, last := false, doublePress := false, doubleTime := Advanced(c, s, dt))
  {}

  /** Down does not reset `pushing`: it keeps the time held so far. */
  lemma DownKeepsPushing(c: Config, s: Timer, press: bool, dt: real)
    ensures Step(c, s, press, dt).next.first ==> Step(c, s, press, dt).next.pushing == LockPushing(s, dt)
  {}

  /** A pulse is a Down, the first repeat after `start`, or a steady repeat after `interval`. */
  lemma PulseKinds(c: Config, s: Timer, press: bool, dt: real)
    ensures var r := Step(c, s, press, dt);
      r.pulse <==> (r.next.first
                    || (press && s.enable && !s.started && c.start > 0.0 && s.pushing + dt > c.start)
                    || (press && s.enable && s.started && c.interval > 0.0 && s.pushing + dt > c.interval))
  {}

  /** With interval <= 0, an already started timer never pulses again. */
  lemma NoSteadyRepeat(c: Config, s: Timer, press: bool, dt: real)
    requires c.interval <= 0.0 && s.started
    ensures Step(c, s, press, dt).pulse ==> Step(c, s, press, dt).next.first
  {
    PulseKinds(c, s, press, dt);
  }

  /** Ticks one after another. */
  function Run(c: Config, s: Timer, samples: seq<Sample>): Timer
    decreases |samples|
  {
    if samples == [] then s
    else Run(c, Step(c, s, samples[0].press, samples[0].dt).next, samples[1..])
  }

  /** Every pulse of the run is a Down. */
  predicate OnlyDownPulses(c: Config, s: Timer, samples: seq<Sample>)
    decreases |samples|
  {
    samples == [] ||
    (var r := Step(c, s, samples[0].press, samples[0].dt);
     (r.pulse ==> r.next.first) && OnlyDownPulses(c, r.next, samples[1..]))
  }

  /** With start <= 0 a timer that has not started never starts, so it pulses only on Down. */
  lemma {:induction false} NoRepeatWithoutStart(c: Config, s: Timer, samples: seq<Sample>)
    requires c.start <= 0.0 && !s.started
    ensures OnlyDownPulses(c, s, samples)
    ensures !Run(c, s, samples).started
    decreases |samples|
  {
    if samples != [] {
      var r := Step(c, s, samples[0].press, samples[0].dt);
      PulseKinds(c, s, samples[0].press, samples[0].dt);
      assert !r.next.started;
      NoRepeatWithoutStart(c, r.next, samples[1..]);
    }
  }

  /** An enabled timer stays enabled until a released tick, so a second Down needs a release first. */
  lemma {:induction false} DownNeedsDisabled(c: Config, s: Timer, samples: seq<Sample>)
    requires s.enable
    ensures Run(c, s, samples).enable || exists i :: 0 <= i < |samples| && !samples[i].press
    decreases |samples|
  {
    if samples != [] {
      var r := Step(c, s, samples[0].press, samples[0].dt);
      if samples[0].press {
        assert r.next.enable;
        DownNeedsDisabled(c, r.next, samples[1..]);
        if !Run(c, r.next, samples[1..]).enable {
          var i :| 0 <= i < |samples[1..]| && !samples[1..][i].press;
          assert !samples[i + 1].press;
        }
      } else {
        assert !samples[0].press;
      }
    }
  }

  /** KeyRepeatClass: the timer object, updated in place by Check. */
  class KeyRepeatClass {
    var lockEnable: bool
    var enable: bool
    var started: bool
    var first: bool
    var last: bool
    var pushing: real
    var lockStart: real
    var start: real
    var interval: real
    var doubleEnable: bool
    var doublePress: bool
    var doubleTime: real
    var doubleLatency: real

    function State(): Timer
      reads this
    {
      Timer(lockEnable, enable, started, first, last, pushing, doublePress, doubleTime)
    }

    function Settings(): Config
      reads this
    {
      Config(lockStart, start, interval, doubleLatency)
    }

    /** Defaults of the source: lock 0, start 0.4, interval 0.2, double latency 1. */
    constructor (lockStart0: real, start0: real, interval0: real, doubleLatency0: real)
      ensures Settings() == Config(lockStart0, start0, interval0, doubleLatency0)
      ensures State() == Initial(Settings()) && !doubleEnable
    {
      lockEnable, enable, started, first, last := false, false, false, false, false;
      pushing, doubleEnable, doublePress := 0.0, false, false;
      lockStart, start, interval, doubleLatency := lockStart0, start0, interval0, doubleLatency0;
      doubleTime := doubleLatency0 + 1.0;
    }

    /** KeyRepeatClass.Check: one tick with the key pressed or not, `dt` seconds after the last. */
    method Check(press: bool, dt: real) returns (ret: bool)
      modifies this
      ensures Tick(State(), ret) == Step(old(Settings()), old(State()), press, dt)
      ensures Settings() == old(Settings()) && doubleEnable == old(doubleEnable)
    {
      first, last := false, false;
      if doubleTime < doubleLatency {
        doubleTime := doubleTime + dt;
      }
      if press {
        ret := CheckPressed(dt);
      } else {
        CheckReleased();
        ret := false;
      }
    }

    /** The pressed branch of Check. */
    method CheckPressed(dt: real) returns (ret: bool)
      modifies this
      ensures Tick(State(), ret) == Pressed(old(Settings()), old(State()), dt)
      ensures Settings() == old(Settings()) && doubleEnable == old(doubleEnable)
    {
      ret := false;
      if enable {
        pushing := pushing + dt;
        if started {
          if interval > 0.0 && pushing > interval {
            ret := true;
            pushing := 0.0;
          }
        } else {
          if start > 0.0 && pushing > start {
            ret := true;
            started := true;
            pushing := 0.0;
          }
        }
      } else {
        if lockEnable {
          pushing := pushing + dt;
        } else {
          lockEnable := true;
          pushing := 0.0;
        }
        if pushing >= lockStart {
          first := true;
          ret := true;
          enable := true;
          started := false;
          doublePress := doubleTime <= doubleLatency;
          if doublePress {
            doubleTime := doubleLatency + 1.0;
          } else {
            doubleTime := 0.0;
          }
        }
      }
    }

    /** The released branch of Check. */
    method CheckReleased()
      modifies this
      ensures Tick(State(), false) == Released(old(Settings()), old(State()))
      ensures Settings() == old(Settings()) && doubleEnable == old(doubleEnable)
    {
      if enable {
        if doubleTime <= doubleLatency {
          doubleTime := 0.0;
        } else {
          doubleTime := doubleLatency + 1.0;
        }
        last := true;
        started := false;
        enable := false;
        lockEnable := false;
      } else {
        doublePress := false;
      }
    }
  }
}
