/** The frame clock of Renderer.animate: start_time and prev_time, both null
    until the first frame.  Timestamps are milliseconds. */
module FrameClock {

  /** Unstarted is the state where start_time and prev_time are still null. */
  datatype Clock = Unstarted | Running(start: real, prev: real)

  /** What one call of animate computes from a timestamp: the elapsed time
      since the first frame, the time since the previous frame, and the clock
      left behind for the next call. */
  datatype Tick = Tick(time: real, delta: real, next: Clock)

  /** The time bookkeeping of one animate(timestamp) call.  On the first call
      both fields are set to the timestamp first, so the frame sees time 0
      and delta 0; every call ends by storing the timestamp as prev_time. */
  function Advance(c: Clock, ts: real): (t: Tick)
    ensures c.Unstarted? ==> t.time == 0.0 && t.delta == 0.0
    ensures c.Running? ==> t.time == ts - c.start && t.delta == ts - c.prev
    ensures t.next.Running? && t.next.prev == ts
    ensures t.next.start == (if c.Running? then c.start else ts)
  {
    var started := if c.Unstarted? then Running(ts, ts) else c;
    Tick(ts - started.start, ts - started.prev, Running(started.start, ts))
  }

  /** The ticks of consecutive animate calls fed the timestamps tss. */
  function Frames(c: Clock, tss: seq<real>): (r: seq<Tick>)
    ensures |r| == |tss|
    decreases |tss|
  {
    if |tss| == 0 then [] else
      var t := Advance(c, tss[0]);
      [t] + Frames(t.next, tss[1..])
  }

  /** The clock after consecutive animate calls fed the timestamps tss. */
  function After(c: Clock, tss: seq<real>): Clock
    decreases |tss|
  {
    if |tss| == 0 then c else After(Advance(c, tss[0]).next, tss[1..])
  }

  /** Sum of the delta times of a run of frames. */
  function DeltaSum(ts: seq<Tick>): real
  {
    if |ts| == 0 then 0.0 else ts[0].delta + DeltaSum(ts[1..])
  }

  /** Once running, the start time never changes and the previous time is
      always the last timestamp seen. */
  lemma {:induction false} AfterRunning(start: real, prev: real, tss: seq<real>)
    requires |tss| > 0
    ensures After(Running(start, prev), tss) == Running(start, tss[|tss| - 1])
    decreases |tss|
  {
    if |tss| > 1 {
      AfterRunning(start, tss[0], tss[1..]);
    }
  }

  /** Every frame of a running clock measures time from the fixed start and
      delta from the timestamp just before it. */
  lemma {:induction false} FramesRunning(start: real, prev: real, tss: seq<real>)
    ensures var fs := Frames(Running(start, prev), tss);
            forall k :: 0 <= k < |tss| ==>
              && fs[k].time == tss[k] - start
              && fs[k].delta == tss[k] - (if k == 0 then prev else tss[k - 1])
              && fs[k].next == Running(start, tss[k])
    decreases |tss|
  {
    if |tss| > 0 {
      var fs := Frames(Running(start, prev), tss);
      FramesRunning(start, tss[0], tss[1..]);
      assert fs[1..] == Frames(Running(start, tss[0]), tss[1..]);
      forall k | 1 <= k < |tss|
        ensures fs[k] == Frames(Running(start, tss[0]), tss[1..])[k - 1]
      {
      }
    }
  }

  /** A run started from the unstarted clock: the first timestamp becomes the
      start time for good, the first frame sees time 0 and delta 0, and every
      later frame sees its offset from the first timestamp and from the
      timestamp before it. */
  lemma FirstRun(tss: seq<real>)
    requires |tss| > 0
    ensures After(Unstarted, tss) == Running(tss[0], tss[|tss| - 1])
    ensures var fs := Frames(Unstarted, tss);
            && fs[0].time == 0.0 && fs[0].delta == 0.0
            && forall k :: 0 < k < |tss| ==>
                 fs[k].time == tss[k] - tss[0] && fs[k].delta == tss[k] - tss[k - 1]
  {
    AfterRunning(tss[0], tss[0], tss);
    assert After(Unstarted, tss) == After(Running(tss[0], tss[0]), tss);
    FramesRunning(tss[0], tss[0], tss);
    assert Frames(Unstarted, tss) == Frames(Running(tss[0], tss[0]), tss);
  }

  /** The delta times of a running clock telescope: they add up to the time
      from the stored previous timestamp to the last one. */
  lemma {:induction false} DeltasTelescope(start: real, prev: real, tss: seq<real>)
    requires |tss| > 0
    ensures DeltaSum(Frames(Running(start, prev), tss)) == tss[|tss| - 1] - prev
    decreases |tss|
  {
    var fs := Frames(Running(start, prev), tss);
    assert fs[1..] == Frames(Running(start, tss[0]), tss[1..]);
    if |tss| > 1 {
      DeltasTelescope(start, tss[0], tss[1..]);
    }
  }

  /** Hence, from the unstarted clock, the delta times of a run add up to the
      elapsed time of its last frame. */
  lemma DeltasSumToTime(tss: seq<real>)
    requires |tss| > 0
    ensures DeltaSum(Frames(Unstarted, tss)) == Frames(Unstarted, tss)[|tss| - 1].time
  {
    assert Frames(Unstarted, tss) == Frames(Running(tss[0], tss[0]), tss);
    DeltasTelescope(tss[0], tss[0], tss);
    FirstRun(tss);
  }
}
