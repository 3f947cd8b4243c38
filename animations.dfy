/** The per-frame drivers of animations.py: one tick of the control loop
    (physics step, controller, arrow-key nudges) and one tick of the graph
    (sample append and the rolling time window). */
module Animation {
  import Dynamics
  import Controller
  import Visualiser

  /** The command change the arrow keys add on top of the controller output. */
  function NudgeOffset(right: bool, left: bool): real
  {
    (if right then 50.0 else 0.0) - (if left then 50.0 else 0.0)
  }

  /** The arrow-key nudges after compute: +50 for right, then -50 for left;
      only u changes. */
  function Nudged(c: Controller.ControlState, right: bool, left: bool): (r: Controller.ControlState)
    ensures r == c.(u := c.u + NudgeOffset(right, left))
  {
    var u := if right then c.u + 50.0 else c.u;
    c.(u := if left then u - 50.0 else u)
  }

  /** Both keys held together cancel out. */
  lemma BothKeysCancel(c: Controller.ControlState)
    ensures Nudged(c, true, true) == c
  {
  }

  /** One unpaused animate_pendulum: physics stepped with the command of the
      previous tick, then the controller on the stepped state, then the nudges. */
  function Tick(p: Dynamics.PhysicsState, c: Controller.ControlState, right: bool, left: bool,
                trig: Dynamics.Trig): (r: (Dynamics.PhysicsState, Controller.ControlState))
    ensures r.0 == Dynamics.Step(p, c.u, trig)
    ensures Controller.SameSettings(c, r.1)
    ensures r.1.u == r.1.uAngle + r.1.uCart + NudgeOffset(right, left)
  {
    var p' := Dynamics.Step(p, c.u, trig);
    var c' := Controller.Law(c, p'.angleError, p'.angularVelocity, p'.angleErrorIntegral,
                             p'.cartVelocityError, p'.cartVelocityErrorIntegral);
    (p', Nudged(c', right, left))
  }

  /** animate_pendulum: nothing happens while paused. */
  function PendulumTick(p: Dynamics.PhysicsState, c: Controller.ControlState, paused: bool,
                        right: bool, left: bool, trig: Dynamics.Trig): (r: (Dynamics.PhysicsState, Controller.ControlState))
    ensures paused ==> r == (p, c)
    ensures !paused ==> r == Tick(p, c, right, left, trig)
  {
    if paused then (p, c) else Tick(p, c, right, left, trig)
  }

  /** One-tick actuation delay: the physics step of a tick depends on the
      controller only through the command it held before the tick. */
  lemma ActuationDelay(p: Dynamics.PhysicsState, c1: Controller.ControlState, c2: Controller.ControlState,
                       right: bool, left: bool, trig: Dynamics.Trig)
    requires c1.u == c2.u
    ensures Tick(p, c1, right, left, trig).0 == Tick(p, c2, right, left, trig).0
    ensures Tick(p, c1, right, left, trig).0 == Dynamics.Step(p, c1.u, trig)
  {
  }

  /** An enabled controller acts on the state the physics step has just
      produced: the angle term uses its error, angular velocity and integral. */
  lemma ControllerSeesSteppedState(p: Dynamics.PhysicsState, c: Controller.ControlState,
                                   right: bool, left: bool, trig: Dynamics.Trig)
    requires c.controllerEnabled
    ensures var (p', c') := Tick(p, c, right, left, trig);
      && c'.uAngle == - c.kp * p'.angleError + c.kd * p'.angularVelocity - c.ki * p'.angleErrorIntegral
      && c'.uCart == c.kpCart * p'.cartVelocityError - c.kdCart * c.u + c.kiCart * p'.cartVelocityErrorIntegral
  {
    var p' := Dynamics.Step(p, c.u, trig);
    Controller.EnabledLaw(c, p'.angleError, p'.angularVelocity, p'.angleErrorIntegral,
                          p'.cartVelocityError, p'.cartVelocityErrorIntegral);
  }

  /** After a tick the command is the sum of the two loop outputs plus the
      nudge, which therefore shows up as a gap between u and that sum. */
  lemma NudgeSeparatesCommand(p: Dynamics.PhysicsState, c: Controller.ControlState,
                              right: bool, left: bool, trig: Dynamics.Trig)
    ensures var c' := Tick(p, c, right, left, trig).1;
      && c'.u == c'.uAngle + c'.uCart + NudgeOffset(right, left)
      && Controller.SameSettings(c, c')
  {
  }

  /** With the controller disabled and no key held, a tick leaves the command at 0. */
  lemma DisabledIdleCommandIsZero(p: Dynamics.PhysicsState, c: Controller.ControlState, trig: Dynamics.Trig)
    requires !c.controllerEnabled
    ensures var c' := Tick(p, c, false, false, trig).1;
      c'.u == 0.0 && c'.uAngle == 0.0 && c'.uCart == 0.0 && !c'.controllerEnabled
  {
  }

  /** Successive unpaused ticks, keys[k] being (right, left) during tick k. */
  function Run(p: Dynamics.PhysicsState, c: Controller.ControlState, keys: seq<(bool, bool)>,
               trig: Dynamics.Trig): (r: (Dynamics.PhysicsState, Controller.ControlState))
    ensures Dynamics.SameParameters(p, r.0) && Controller.SameSettings(c, r.1)
    decreases |keys|
  {
    if keys == [] then (p, c)
    else
      var (p', c') := Tick(p, c, keys[0].0, keys[0].1, trig);
      Run(p', c', keys[1..], trig)
  }

  /** n commands: the first one u0, the rest 0. */
  function FirstThenZeros(u0: real, n: nat): (us: seq<real>)
    requires n > 0
    ensures |us| == n && us[0] == u0 && forall k :: 0 < k < n ==> us[k] == 0.0
  {
    [u0] + seq(n - 1, _ => 0.0)
  }

  /** With the controller disabled and no key held, the loop drives the cart
      with the command held before the first tick and with 0 after that. */
  lemma {:induction false} DisabledRunIsFreeMotion(p: Dynamics.PhysicsState, c: Controller.ControlState,
                                                   keys: seq<(bool, bool)>, trig: Dynamics.Trig)
    requires !c.controllerEnabled && |keys| > 0
    requires forall k :: 0 <= k < |keys| ==> keys[k] == (false, false)
    ensures Run(p, c, keys, trig).0 == Dynamics.Simulate(p, FirstThenZeros(c.u, |keys|), trig)
    decreases |keys|
  {
    var (p', c') := Tick(p, c, false, false, trig);
    DisabledIdleCommandIsZero(p, c, trig);
    var us := FirstThenZeros(c.u, |keys|);
    assert us[1..] == if |keys| == 1 then [] else FirstThenZeros(0.0, |keys| - 1);
    if |keys| > 1 {
      DisabledRunIsFreeMotion(p', c', keys[1..], trig);
    }
  }

  /** One unpaused animate_graph as written: a sample is appended (line 76
      names limit_list_lengths without calling it) and past t = 5 the window
      becomes (t - 5, t + 5). */
  function GraphTick(s: Visualiser.Samples, window: (real, real), paused: bool,
                     p: Dynamics.PhysicsState, u: real): (r: (Visualiser.Samples, (real, real)))
    ensures paused ==> r == (s, window)
    ensures !paused ==> r.0 == Visualiser.Appended(s, p, u)
    ensures !paused && r.0.t > 5.0 ==> r.1 == (r.0.t - 5.0, r.0.t + 5.0)
    ensures !paused && r.0.t <= 5.0 ==> r.1 == window
  {
    if paused then (s, window)
    else
      var s' := Visualiser.Appended(s, p, u);
      (s', if s'.t > 5.0 then (s'.t - 5.0, s'.t + 5.0) else window)
  }

  /** animate_graph with the limiting call that line 76 evidently intends. */
  function LimitedGraphTick(s: Visualiser.Samples, window: (real, real), paused: bool,
                            p: Dynamics.PhysicsState, u: real): (r: (Visualiser.Samples, (real, real)))
    requires Visualiser.EqualLengths(s)
    ensures Visualiser.EqualLengths(r.0)
    ensures paused ==> r == (s, window)
    ensures !paused ==> r.0 == Visualiser.Limited(Visualiser.Appended(s, p, u))
    ensures r.1 == GraphTick(s, window, paused, p, u).1
  {
    if paused then (s, window)
    else
      var s' := Visualiser.Appended(s, p, u);
      Visualiser.LimitedDropsOldest(s');
      (Visualiser.Limited(s'), if s'.t > 5.0 then (s'.t - 5.0, s'.t + 5.0) else window)
  }

  /** The sample lists after unpaused graph ticks taking the given (state, command) pairs. */
  function GraphRun(s: Visualiser.Samples, samples: seq<(Dynamics.PhysicsState, real)>): Visualiser.Samples
    decreases |samples|
  {
    if samples == [] then s
    else GraphRun(Visualiser.Appended(s, samples[0].0, samples[0].1), samples[1..])
  }

  /** The same with the intended limiting after every append. */
  function LimitedGraphRun(s: Visualiser.Samples, samples: seq<(Dynamics.PhysicsState, real)>): Visualiser.Samples
    requires Visualiser.EqualLengths(s)
    decreases |samples|
  {
    if samples == [] then s
    else
      var s' := Visualiser.Appended(s, samples[0].0, samples[0].1);
      Visualiser.LimitedDropsOldest(s');
      LimitedGraphRun(Visualiser.Limited(s'), samples[1..])
  }

  /** As written, every unpaused graph tick lengthens every list by one, for ever. */
  lemma {:induction false} GraphListsGrowUnbounded(s: Visualiser.Samples, samples: seq<(Dynamics.PhysicsState, real)>)
    requires Visualiser.EqualLengths(s)
    ensures var r := GraphRun(s, samples);
      Visualiser.EqualLengths(r) && |r.tList| == |s.tList| + |samples|
    decreases |samples|
  {
    if samples != [] {
      GraphListsGrowUnbounded(Visualiser.Appended(s, samples[0].0, samples[0].1), samples[1..]);
    }
  }

  /** What shows it: 170 ticks from the lists __init__ creates leave 171 samples. */
  lemma GraphListsExceedLimit(initAngle: real, samples: seq<(Dynamics.PhysicsState, real)>)
    requires |samples| == 170
    ensures |GraphRun(Visualiser.InitialSamples(initAngle), samples).tList| == 171
  {
    GraphListsGrowUnbounded(Visualiser.InitialSamples(initAngle), samples);
  }

  /** With the limiting call, lists of equal length at most 170 stay so, and
      reach min(L + n, 170). */
  lemma {:induction false} LimitedListsStayBounded(s: Visualiser.Samples, samples: seq<(Dynamics.PhysicsState, real)>)
    requires Visualiser.EqualLengths(s) && |s.tList| <= Visualiser.MaxSamples
    ensures var r := LimitedGraphRun(s, samples);
      && Visualiser.EqualLengths(r)
      && |r.tList| == (if |s.tList| + |samples| < Visualiser.MaxSamples then |s.tList| + |samples|
                       else Visualiser.MaxSamples)
    decreases |samples|
  {
    if samples != [] {
      var s' := Visualiser.Appended(s, samples[0].0, samples[0].1);
      Visualiser.LimitedLength(s');
      LimitedListsStayBounded(Visualiser.Limited(s'), samples[1..]);
    }
  }

  /** The Animations object. */
  class Animations {
    const pendulum: Dynamics.Physics
    const controller: Controller.Control
    const visualiser: Visualiser.Visual
    var rightPressed: bool
    var leftPressed: bool

    constructor (pendulum: Dynamics.Physics, controller: Controller.Control, visualiser: Visualiser.Visual)
      ensures this.pendulum == pendulum && this.controller == controller && this.visualiser == visualiser
      ensures !rightPressed && !leftPressed
    {
      this.pendulum := pendulum;
      this.controller := controller;
      this.visualiser := visualiser;
      rightPressed := false;
      leftPressed := false;
    }

    /** animate_pendulum(i), without the redrawing of the artists. */
    method AnimatePendulum()
      modifies pendulum, controller
      ensures (pendulum.State(), controller.State())
        == PendulumTick(old(pendulum.State()), old(controller.State()), visualiser.paused,
                        rightPressed, leftPressed, pendulum.trig)
    {
      if !visualiser.paused {
        pendulum.Compute(controller.u);
        controller.Compute(pendulum.angleError, pendulum.angularVelocity, pendulum.angleErrorIntegral,
                           pendulum.cartVelocityError, pendulum.cartVelocityErrorIntegral);
        if rightPressed {
          controller.u := controller.u + 50.0;
        }
        if leftPressed {
          controller.u := controller.u - 50.0;
        }
      }
    }

    /** animate_graph(i) as written, without the plotting. */
    method AnimateGraph()
      modifies visualiser
      ensures (visualiser.Lists(), visualiser.timeWindow)
        == GraphTick(old(visualiser.Lists()), old(visualiser.timeWindow), old(visualiser.paused),
                     pendulum.State(), controller.u)
      ensures old(visualiser.Valid()) ==> visualiser.Valid()
      ensures visualiser.paused == old(visualiser.paused) && visualiser.frames == old(visualiser.frames)
    {
      if !visualiser.paused {
        visualiser.UpdateGraphLists(pendulum, controller.u);
        if visualiser.t > 5.0 {
          visualiser.timeWindow := (visualiser.t - 5.0, visualiser.t + 5.0);
        }
      }
    }

    /** animate_graph(i) with limit_list_lengths called after the append. */
    method AnimateGraphLimited()
      requires visualiser.Valid()
      modifies visualiser
      ensures (visualiser.Lists(), visualiser.timeWindow)
        == LimitedGraphTick(old(visualiser.Lists()), old(visualiser.timeWindow), old(visualiser.paused),
                            pendulum.State(), controller.u)
      ensures visualiser.Valid()
      ensures visualiser.paused == old(visualiser.paused) && visualiser.frames == old(visualiser.frames)
    {
      if !visualiser.paused {
        visualiser.UpdateGraphLists(pendulum, controller.u);
        visualiser.LimitListLengths();
        if visualiser.t > 5.0 {
          visualiser.timeWindow := (visualiser.t - 5.0, visualiser.t + 5.0);
        }
      }
    }
  }
}
