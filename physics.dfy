/** The pendulum-on-a-cart dynamics of physics.py: the state of class Physics,
    its explicit-Euler step `compute`, the bob position and the two manual
    overrides.

    dt (0.03), g (9.81) and length (15) are assigned in __init__ and never
    again anywhere in the program, so they are constants of the model and the
    formulas use their values as literals: a product with a literal is linear
    arithmetic for the solver, a product with a named constant is not. */
module Dynamics {
  import opened Angles

  /** np.sin and np.cos are calls into numpy; the model takes them as parameters. */
  datatype Trig = Trig(sin: real -> real, cos: real -> real)

  /** What the real sine and cosine satisfy and a lemma about the bob may assume. */
  ghost predicate PythagoreanIdentity(trig: Trig)
  {
    forall t :: trig.sin(t) * trig.sin(t) + trig.cos(t) * trig.cos(t) == 1.0
  }

  /** Every attribute of a Physics object, in the order __init__ creates them. */
  datatype PhysicsState = PhysicsState(
    angle: real,
    angularVelocity: real,
    angularAcceleration: real,
    u: real,
    xdot: real,
    x: real,
    angularDamping: real,
    cartDamping: real,
    angleErrorIntegral: real,
    angleError: real,
    cartVelocityError: real,
    cartVelocityErrorIntegral: real,
    cartRef: real,
    angleRef: real,
    graphVisibility: bool,
    initAngle: real)

  /** The tunable parameters and references, which no step of the integrator writes. */
  predicate SameParameters(a: PhysicsState, b: PhysicsState)
  {
    && a.angularDamping == b.angularDamping
    && a.cartDamping == b.cartDamping
    && a.angleRef == b.angleRef
    && a.cartRef == b.cartRef
    && a.initAngle == b.initAngle
  }

  /** The state Physics(u) creates. */
  function Initial(u: real): (s: PhysicsState)
    ensures s.angle == s.initAngle == DegToRad(-20.0)
  {
    PhysicsState(
      angle := DegToRad(-20.0),
      angularVelocity := 0.0,
      angularAcceleration := 0.0,
      u := u,
      xdot := 0.0,
      x := 0.0,
      angularDamping := 0.1,
      cartDamping := 0.5,
      angleErrorIntegral := 0.0,
      angleError := 0.0,
      cartVelocityError := 0.0,
      cartVelocityErrorIntegral := 0.0,
      cartRef := 0.0,
      angleRef := 0.0,
      graphVisibility := false,
      initAngle := DegToRad(-20.0))
  }

  /** The first block of compute(u): the angular acceleration and both errors,
      all from the incoming state. */
  function Measure(s: PhysicsState, u: real, trig: Trig): (r: PhysicsState)
    ensures r.angleError == DegToRad(s.angleRef) - s.angle
    ensures r.cartVelocityError == s.cartRef - s.xdot
    ensures r == s.(angularAcceleration := r.angularAcceleration, angleError := r.angleError,
                    cartVelocityError := r.cartVelocityError)
  {
    s.(
      angularAcceleration :=
        9.81 * trig.sin(s.angle) / 15.0
        - u * trig.cos(s.angle) / 15.0
        - s.angularDamping * s.angularVelocity,
      angleError := DegToRad(s.angleRef) - s.angle,
      cartVelocityError := s.cartRef - s.xdot)
  }

  /** The Euler-integration block of compute(u), each update reading the
      attributes as the previous updates left them. */
  function Integrate(s: PhysicsState, u: real): (r: PhysicsState)
    ensures r.angle == s.angle + r.angularVelocity * 0.03 && r.x == s.x + r.xdot * 0.03
    ensures r.angularVelocity == s.angularVelocity + s.angularAcceleration * 0.03
    ensures r.angleErrorIntegral == s.angleErrorIntegral + s.angleError * 0.03
    ensures r.cartVelocityErrorIntegral == s.cartVelocityErrorIntegral + s.cartVelocityError * 0.03
    ensures r == s.(angleErrorIntegral := r.angleErrorIntegral, cartVelocityErrorIntegral := r.cartVelocityErrorIntegral,
                    angularVelocity := r.angularVelocity, angle := r.angle, xdot := r.xdot, x := r.x)
  {
    var angularVelocity := s.angularVelocity + s.angularAcceleration * 0.03;
    var xdot := s.xdot + (u - s.cartDamping * s.xdot) * 0.03;
    s.(
      angleErrorIntegral := s.angleErrorIntegral + s.angleError * 0.03,
      cartVelocityErrorIntegral := s.cartVelocityErrorIntegral + s.cartVelocityError * 0.03,
      angularVelocity := angularVelocity,
      angle := s.angle + angularVelocity * 0.03,
      xdot := xdot,
      x := s.x + xdot * 0.03)
  }

  /** The angle-limiting block that ends compute(u). */
  function Limit(s: PhysicsState): (r: PhysicsState)
    ensures r.angle == s.angle || r.angle == s.angle + 2.0 * Pi || r.angle == s.angle - 2.0 * Pi
    ensures -3.0 * Pi <= s.angle <= 3.0 * Pi ==> -Pi <= r.angle <= Pi
    ensures r == s.(angle := r.angle)
  {
    s.(angle := WrapAngle(s.angle))
  }

  /** One call of compute(u): its three blocks in order. */
  function Step(s: PhysicsState, u: real, trig: Trig): (r: PhysicsState)
    ensures SameParameters(s, r) && r.u == s.u && r.graphVisibility == s.graphVisibility
  {
    Limit(Integrate(Measure(s, u, trig), u))
  }

  /** The order of the updates: the angle advances with the angular velocity as
      already updated in this step, the cart position with the updated cart
      velocity; each error integral grows by this step's error times dt. */
  lemma StepOrder(s: PhysicsState, u: real, trig: Trig)
    ensures var r := Step(s, u, trig);
      && r.angle == WrapAngle(s.angle + r.angularVelocity * 0.03)
      && r.x == s.x + r.xdot * 0.03
      && r.angleErrorIntegral == s.angleErrorIntegral + r.angleError * 0.03
      && r.cartVelocityErrorIntegral == s.cartVelocityErrorIntegral + r.cartVelocityError * 0.03
  {
  }

  /** The acceleration and both errors are computed from the state before the step. */
  lemma StepReadsPreStepState(s: PhysicsState, u: real, trig: Trig)
    ensures Step(s, u, trig).angularAcceleration
      == 9.81 * trig.sin(s.angle) / 15.0 - u * trig.cos(s.angle) / 15.0 - s.angularDamping * s.angularVelocity
    ensures Step(s, u, trig).angleError == DegToRad(s.angleRef) - s.angle
    ensures Step(s, u, trig).cartVelocityError == s.cartRef - s.xdot
    ensures Step(s, u, trig).angularVelocity == s.angularVelocity + Step(s, u, trig).angularAcceleration * 0.03
    ensures Step(s, u, trig).xdot == s.xdot + (u - s.cartDamping * s.xdot) * 0.03
  {
  }

  /** The wrap at the end of a step: the new angle is the unwrapped one moved by
      0, +2*pi or -2*pi; it is in [-pi, pi] when the unwrapped one is within
      one turn of that range; an unwrapped -pi or pi is kept as it is. */
  lemma StepWrap(s: PhysicsState, u: real, trig: Trig)
    ensures var r := Step(s, u, trig);
      var unwrapped := s.angle + r.angularVelocity * 0.03;
      && (r.angle == unwrapped || r.angle == unwrapped + 2.0 * Pi || r.angle == unwrapped - 2.0 * Pi)
      && (-3.0 * Pi <= unwrapped <= 3.0 * Pi ==> -Pi <= r.angle <= Pi)
      && (unwrapped == Pi || unwrapped == -Pi ==> r.angle == unwrapped)
  {
  }

  /** A step from an angle in [-pi, pi] whose angle change is at most 2*pi in
      size ends in [-pi, pi]. */
  lemma StepKeepsAngleInRange(s: PhysicsState, u: real, trig: Trig)
    requires -Pi <= s.angle <= Pi
    requires var r := Step(s, u, trig); -2.0 * Pi <= r.angularVelocity * 0.03 <= 2.0 * Pi
    ensures -Pi <= Step(s, u, trig).angle <= Pi
  {
    StepWrap(s, u, trig);
  }

  /** The first compute(0) after Physics(u0): gravity alone accelerates the
      pendulum, the cart stays where it is, and (with |sin| <= 1) the angle
      moves by less than needs wrapping. */
  lemma FirstStepFromRest(u0: real, trig: Trig)
    ensures var r := Step(Initial(u0), 0.0, trig);
      && r.angularAcceleration == 9.81 * trig.sin(DegToRad(-20.0)) / 15.0
      && r.angularVelocity == r.angularAcceleration * 0.03
      && r.xdot == 0.0 && r.x == 0.0
      && r.angleError == -DegToRad(-20.0)
      && (-1.0 <= trig.sin(DegToRad(-20.0)) <= 1.0 ==>
            r.angle == DegToRad(-20.0) + r.angularVelocity * 0.03)
  {
    var s := Initial(u0);
    var r := Step(s, 0.0, trig);
    StepReadsPreStepState(s, 0.0, trig);
    if -1.0 <= trig.sin(DegToRad(-20.0)) <= 1.0 {
      var w := s.angle + r.angularVelocity * 0.03;
      assert -0.001 <= r.angularVelocity * 0.03 <= 0.001;
      assert -Pi <= w <= Pi;
    }
  }

  /** The state after compute(us[0]), compute(us[1]), ... in turn. */
  function Simulate(s: PhysicsState, us: seq<real>, trig: Trig): (r: PhysicsState)
    ensures SameParameters(s, r)
    decreases |us|
  {
    if us == [] then s else Simulate(Step(s, us[0], trig), us[1..], trig)
  }

  /** The angle errors the successive steps of Simulate produce. */
  function AngleErrors(s: PhysicsState, us: seq<real>, trig: Trig): (es: seq<real>)
    ensures |es| == |us|
    decreases |us|
  {
    if us == [] then []
    else
      var next := Step(s, us[0], trig);
      [next.angleError] + AngleErrors(next, us[1..], trig)
  }

  /** The cart-velocity errors the successive steps of Simulate produce. */
  function CartVelocityErrors(s: PhysicsState, us: seq<real>, trig: Trig): (es: seq<real>)
    ensures |es| == |us|
    decreases |us|
  {
    if us == [] then []
    else
      var next := Step(s, us[0], trig);
      [next.cartVelocityError] + CartVelocityErrors(next, us[1..], trig)
  }

  function Sum(xs: seq<real>): real
  {
    if xs == [] then 0.0 else xs[0] + Sum(xs[1..])
  }

  lemma {:induction false} SumOfConstant(xs: seq<real>, e: real)
    requires forall i :: 0 <= i < |xs| ==> xs[i] == e
    ensures Sum(xs) == |xs| as real * e
  {
    if xs != [] {
      SumOfConstant(xs[1..], e);
    }
  }

  /** A running total that grows by e * dt in each of |es| steps. */
  lemma AccumulateConstant(a: real, es: seq<real>, e: real)
    requires forall i :: 0 <= i < |es| ==> es[i] == e
    ensures a + Sum(es) * 0.03 == a + |es| as real * e * 0.03
  {
    SumOfConstant(es, e);
  }

  /** Integral accumulation: over any run, each error integral grows by exactly
      dt times the sum of the errors the steps produced. */
  lemma {:induction false} IntegralsAccumulate(s: PhysicsState, us: seq<real>, trig: Trig)
    ensures Simulate(s, us, trig).angleErrorIntegral
      == s.angleErrorIntegral + Sum(AngleErrors(s, us, trig)) * 0.03
    ensures Simulate(s, us, trig).cartVelocityErrorIntegral
      == s.cartVelocityErrorIntegral + Sum(CartVelocityErrors(s, us, trig)) * 0.03
    decreases |us|
  {
    if us != [] {
      var next := Step(s, us[0], trig);
      IntegralsAccumulate(next, us[1..], trig);
      assert AngleErrors(s, us, trig) == [next.angleError] + AngleErrors(next, us[1..], trig);
      assert CartVelocityErrors(s, us, trig) == [next.cartVelocityError] + CartVelocityErrors(next, us[1..], trig);
    }
  }

  /** n steps that all produce the same angle error e add n * e * dt to its integral. */
  lemma ConstantAngleErrorAccumulates(s: PhysicsState, us: seq<real>, trig: Trig, e: real)
    requires forall i :: 0 <= i < |us| ==> AngleErrors(s, us, trig)[i] == e
    ensures Simulate(s, us, trig).angleErrorIntegral == s.angleErrorIntegral + |us| as real * e * 0.03
  {
    IntegralsAccumulate(s, us, trig);
    AccumulateConstant(s.angleErrorIntegral, AngleErrors(s, us, trig), e);
  }

  /** n steps that all produce the same cart-velocity error e add n * e * dt to its integral. */
  lemma ConstantCartVelocityErrorAccumulates(s: PhysicsState, us: seq<real>, trig: Trig, e: real)
    requires forall i :: 0 <= i < |us| ==> CartVelocityErrors(s, us, trig)[i] == e
    ensures Simulate(s, us, trig).cartVelocityErrorIntegral
      == s.cartVelocityErrorIntegral + |us| as real * e * 0.03
  {
    IntegralsAccumulate(s, us, trig);
    AccumulateConstant(s.cartVelocityErrorIntegral, CartVelocityErrors(s, us, trig), e);
  }

  /** The Physics object: its attributes are updated in place. */
  class Physics {
    var angle: real
    var angularVelocity: real
    var angularAcceleration: real
    var u: real
    var xdot: real
    var x: real
    // dt (0.03) and g (9.81) are never assigned after __init__: Compute and
    // the sample time use them as literals; length is kept for PendulumPos
    const length: real := 15.0
    var angularDamping: real
    var cartDamping: real
    var angleErrorIntegral: real
    var angleError: real
    var cartVelocityError: real
    var cartVelocityErrorIntegral: real
    var cartRef: real
    var angleRef: real
    var graphVisibility: bool
    var initAngle: real
    const trig: Trig

    function State(): PhysicsState
      reads this
    {
      PhysicsState(angle, angularVelocity, angularAcceleration, u, xdot, x,
        angularDamping, cartDamping, angleErrorIntegral, angleError, cartVelocityError,
        cartVelocityErrorIntegral, cartRef, angleRef, graphVisibility, initAngle)
    }

    constructor (u: real, trig: Trig)
      ensures State() == Initial(u) && this.trig == trig
    {
      angle := DegToRad(-20.0);
      angularVelocity := 0.0;
      angularAcceleration := 0.0;
      this.u := u;
      xdot := 0.0;
      x := 0.0;
      angularDamping := 0.1;
      cartDamping := 0.5;
      angleErrorIntegral := 0.0;
      angleError := 0.0;
      cartVelocityError := 0.0;
      cartVelocityErrorIntegral := 0.0;
      cartRef := 0.0;
      angleRef := 0.0;
      graphVisibility := false;
      initAngle := DegToRad(-20.0);
      this.trig := trig;
    }

    /** compute(u): one Euler step driven by the command u. */
    method Compute(u: real)
      modifies this
      ensures State() == Step(old(State()), u, trig)
    {
      ComputeAccelerationAndErrors(u);
      IntegrateEuler(u);
      LimitAngle();
    }

    /** The first block of compute: acceleration and errors. */
    method ComputeAccelerationAndErrors(u: real)
      modifies this
      ensures State() == Measure(old(State()), u, trig)
    {
      var sinAngle, cosAngle := trig.sin(angle), trig.cos(angle);
      angularAcceleration := 9.81 * sinAngle / 15.0 - u * cosAngle / 15.0 - angularDamping * angularVelocity;
      angleError := DegToRad(angleRef) - angle;
      cartVelocityError := cartRef - xdot;
    }

    /** The "Euler integration" block of compute. */
    method IntegrateEuler(u: real)
      modifies this
      ensures State() == Integrate(old(State()), u)
    {
      angleErrorIntegral := angleErrorIntegral + angleError * 0.03;
      cartVelocityErrorIntegral := cartVelocityErrorIntegral + cartVelocityError * 0.03;
      angularVelocity := angularVelocity + angularAcceleration * 0.03;
      angle := angle + angularVelocity * 0.03;
      xdot := xdot + (u - cartDamping * xdot) * 0.03;
      x := x + xdot * 0.03;
    }

    /** The "limiting angle" block of compute: one correction by 2*pi at most. */
    method LimitAngle()
      modifies this
      ensures State() == Limit(old(State()))
    {
      if angle < -Pi {
        angle := angle + 2.0 * Pi;
      } else if angle > Pi {
        angle := angle - 2.0 * Pi;
      }
    }

    /** pendulum_pos(theta): the bob, at distance length from the pivot (x, 0). */
    function PendulumPos(theta: real): (pos: (real, real))
      reads this
      ensures PythagoreanIdentity(trig) ==>
        (pos.0 - x) * (pos.0 - x) + pos.1 * pos.1 == length * length
    {
      var s, c := trig.sin(theta), trig.cos(theta);
      assert (length * s) * (length * s) + (length * c) * (length * c)
        == length * length * (s * s + c * c);
      (x + length * s, length * c)
    }

    /** add_velocity(add_v): the "Add Velocity" override. */
    method AddVelocity(addV: real)
      modifies this
      ensures State() == old(State()).(angularVelocity := old(angularVelocity) + addV)
    {
      angularVelocity := angularVelocity + addV;
    }

    /** set_angle(angle_in): the "Set Angle" override, in degrees, not wrapped. */
    method SetAngle(angleIn: real)
      modifies this
      ensures State() == old(State()).(angle := DegToRad(angleIn))
    {
      angle := DegToRad(angleIn);
    }
  }

  /** set_angle does not wrap: 540 degrees leaves the angle outside [-pi, pi]
      until the next compute. */
  lemma SetAngleIsNotWrapped()
    ensures DegToRad(540.0) == 3.0 * Pi
    ensures DegToRad(540.0) > Pi
  {
  }

  /** The "Set Angle" override at 540 degrees leaves the pendulum at 3*pi,
      outside the range compute keeps it in, and changes nothing else. */
  method SetAngleOutOfRange(p: Physics)
    modifies p
    ensures p.angle == 3.0 * Pi && p.angle > Pi
    ensures p.State() == old(p.State()).(angle := 3.0 * Pi)
  {
    p.SetAngle(540.0);
    SetAngleIsNotWrapped();
  }
}
