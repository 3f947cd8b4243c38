/** The non-drawing state of visual.py: the simulated time, the six parallel
    sample lists behind the graph, the frame counter and the pause flag. */
module Visualiser {
  import opened Angles
  import Dynamics

  /** The longest the sample lists are meant to grow. */
  const MaxSamples: nat := 170

  /** The time, and the time, angle (degrees), angular velocity (degrees per
      second), cart position, cart velocity and command samples. */
  datatype Samples = Samples(
    t: real,
    tList: seq<real>,
    angleList: seq<real>,
    angularVelocityList: seq<real>,
    cartPositionList: seq<real>,
    cartVelocityList: seq<real>,
    uList: seq<real>)

  predicate EqualLengths(s: Samples)
  {
    && |s.angleList| == |s.tList|
    && |s.angularVelocityList| == |s.tList|
    && |s.cartPositionList| == |s.tList|
    && |s.cartVelocityList| == |s.tList|
    && |s.uList| == |s.tList|
  }

  /** The time samples increase strictly and the last one is the current time. */
  predicate TimeOrdered(s: Samples)
  {
    && |s.tList| > 0
    && s.tList[|s.tList| - 1] == s.t
    && forall i, j :: 0 <= i < j < |s.tList| ==> s.tList[i] < s.tList[j]
  }

  /** The lists as __init__ creates them, for a pendulum whose initial angle is initAngle. */
  function InitialSamples(initAngle: real): (s: Samples)
    ensures EqualLengths(s) && |s.tList| == 1 && TimeOrdered(s)
    ensures s.angleList == [RadToDeg(initAngle)]
  {
    Samples(0.0, [0.0], [RadToDeg(initAngle)], [0.0], [0.0], [0.0], [0.0])
  }

  /** update_graph_lists(pend, ctrl): advance the time by pend.dt (0.03, never
      reassigned; see Dynamics) and take one sample. */
  function Appended(s: Samples, p: Dynamics.PhysicsState, u: real): (r: Samples)
    ensures r.t == s.t + 0.03
    ensures r.tList == s.tList + [r.t]
    ensures r.angleList == s.angleList + [RadToDeg(p.angle)]
    ensures r.angularVelocityList == s.angularVelocityList + [RadToDeg(p.angularVelocity)]
    ensures r.cartPositionList == s.cartPositionList + [p.x]
    ensures r.cartVelocityList == s.cartVelocityList + [p.xdot]
    ensures r.uList == s.uList + [u]
  {
    var t := s.t + 0.03;
    Samples(t, s.tList + [t], s.angleList + [RadToDeg(p.angle)],
      s.angularVelocityList + [RadToDeg(p.angularVelocity)],
      s.cartPositionList + [p.x], s.cartVelocityList + [p.xdot], s.uList + [u])
  }

  /** limit_list_lengths: past 170 time samples, drop the oldest of every list. */
  function Limited(s: Samples): (r: Samples)
    requires EqualLengths(s)
    ensures EqualLengths(r) && r.t == s.t
    ensures |r.tList| == if |s.tList| > MaxSamples then |s.tList| - 1 else |s.tList|
  {
    if |s.tList| > MaxSamples then
      s.(tList := s.tList[1..], angleList := s.angleList[1..],
         angularVelocityList := s.angularVelocityList[1..],
         cartPositionList := s.cartPositionList[1..],
         cartVelocityList := s.cartVelocityList[1..], uList := s.uList[1..])
    else s
  }

  /** Appending one sample keeps the lists of equal length, one longer, and in time order. */
  lemma AppendedKeepsInvariants(s: Samples, p: Dynamics.PhysicsState, u: real)
    requires EqualLengths(s) && TimeOrdered(s)
    ensures var r := Appended(s, p, u);
      EqualLengths(r) && TimeOrdered(r) && |r.tList| == |s.tList| + 1
  {
    var r := Appended(s, p, u);
    forall i, j | 0 <= i < j < |r.tList|
      ensures r.tList[i] < r.tList[j]
    {
      if j == |s.tList| {
        assert s.tList[i] <= s.t;
      }
    }
  }

  /** Limiting drops exactly the first sample of each list when there are more
      than 170, keeps the rest in order, and changes nothing otherwise. */
  lemma LimitedDropsOldest(s: Samples)
    requires EqualLengths(s)
    ensures var r := Limited(s);
      && EqualLengths(r) && r.t == s.t
      && (|s.tList| > MaxSamples ==>
            && r.tList == s.tList[1..] && r.angleList == s.angleList[1..]
            && r.angularVelocityList == s.angularVelocityList[1..]
            && r.cartPositionList == s.cartPositionList[1..]
            && r.cartVelocityList == s.cartVelocityList[1..] && r.uList == s.uList[1..])
      && (|s.tList| <= MaxSamples ==> r == s)
  {
  }

  /** From equal lengths L <= 171, limiting leaves equal lengths min(L, 170)
      and the time order. */
  lemma LimitedLength(s: Samples)
    requires EqualLengths(s) && |s.tList| <= MaxSamples + 1
    ensures var r := Limited(s);
      && EqualLengths(r)
      && |r.tList| == (if |s.tList| < MaxSamples then |s.tList| else MaxSamples)
      && (TimeOrdered(s) && |s.tList| > 1 ==> TimeOrdered(r))
  {
    var r := Limited(s);
    if TimeOrdered(s) && |s.tList| > MaxSamples {
      assert forall i, j :: 0 <= i < j < |r.tList| ==> r.tList[i] == s.tList[i + 1] && r.tList[j] == s.tList[j + 1];
    }
  }

  /** frame_count(): the first n values the generator yields, as a sequence.
      Visual.NextFrame models one draw from it, the counter being its state. */
  method FrameCount(n: nat) returns (frames: seq<nat>)
    ensures |frames| == n
    ensures forall k :: 0 <= k < n ==> frames[k] == k
  {
    frames := [];
    var i := 0;
    while i < n
      invariant 0 <= i <= n
      invariant |frames| == i
      invariant forall k :: 0 <= k < i ==> frames[k] == k
    {
      frames := frames + [i];
      i := i + 1;
    }
  }

  /** Each value frame_count yields is one more than the one before. */
  lemma FramesIncrementByOne(frames: seq<nat>, n: nat)
    requires |frames| == n && forall k :: 0 <= k < n ==> frames[k] == k
    ensures forall k :: 0 < k < n ==> frames[k] == frames[k - 1] + 1
  {
  }

  /** The Visual object, without its figures and artists. The frame generator
      is represented by the next value it will yield; timeWindow stands for
      the x-limits of the graph axes. */
  class Visual {
    var t: real
    var tList: seq<real>
    var angleList: seq<real>
    var angularVelocityList: seq<real>
    var cartPositionList: seq<real>
    var cartVelocityList: seq<real>
    var uList: seq<real>
    var frames: nat
    var paused: bool
    var timeWindow: (real, real)

    function Lists(): Samples
      reads this
    {
      Samples(t, tList, angleList, angularVelocityList, cartPositionList, cartVelocityList, uList)
    }

    predicate Valid()
      reads this
    {
      EqualLengths(Lists())
    }

    constructor (initAngle: real)
      ensures Lists() == InitialSamples(initAngle) && Valid()
      ensures frames == 0 && !paused && timeWindow == (0.0, 10.0)
    {
      t := 0.0;
      tList := [0.0];
      angleList := [RadToDeg(initAngle)];
      angularVelocityList := [0.0];
      cartPositionList := [0.0];
      cartVelocityList := [0.0];
      uList := [0.0];
      frames := 0;
      paused := false;
      timeWindow := (0.0, 10.0);
    }

    /** next(frames): one draw from the generator whose sequence FrameCount gives. */
    method NextFrame() returns (i: nat)
      modifies this
      ensures i == old(frames) && frames == old(frames) + 1
      ensures Lists() == old(Lists()) && paused == old(paused) && timeWindow == old(timeWindow)
    {
      i := frames;
      frames := frames + 1;
    }

    /** pause(press): toggle the pause flag. */
    method Pause()
      modifies this
      ensures paused == !old(paused)
      ensures Lists() == old(Lists()) && frames == old(frames) && timeWindow == old(timeWindow)
    {
      paused := !paused;
    }

    /** update_graph_lists(pend, ctrl) */
    method UpdateGraphLists(pend: Dynamics.Physics, ctrlU: real)
      modifies this
      ensures Lists() == Appended(old(Lists()), pend.State(), ctrlU)
      ensures old(Valid()) ==> Valid()
      ensures frames == old(frames) && paused == old(paused) && timeWindow == old(timeWindow)
    {
      t := t + 0.03;  // pend.dt
      tList := tList + [t];
      angleList := angleList + [RadToDeg(pend.angle)];
      angularVelocityList := angularVelocityList + [RadToDeg(pend.angularVelocity)];
      cartPositionList := cartPositionList + [pend.x];
      cartVelocityList := cartVelocityList + [pend.xdot];
      uList := uList + [ctrlU];
    }

    /** limit_list_lengths() */
    method LimitListLengths()
      requires Valid()
      modifies this
      ensures Lists() == Limited(old(Lists())) && Valid()
      ensures frames == old(frames) && paused == old(paused) && timeWindow == old(timeWindow)
    {
      if |tList| > MaxSamples {
        tList := tList[1..];
        angleList := angleList[1..];
        angularVelocityList := angularVelocityList[1..];
        cartPositionList := cartPositionList[1..];
        cartVelocityList := cartVelocityList[1..];
        uList := uList[1..];
      }
    }
  }

  /** Two presses of the pause button restore the flag. */
  method PauseTwice(v: Visual)
    modifies v
    ensures v.paused == old(v.paused) && v.Lists() == old(v.Lists())
    ensures v.frames == old(v.frames) && v.timeWindow == old(v.timeWindow)
  {
    v.Pause();
    v.Pause();
  }
}
