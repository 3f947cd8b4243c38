/** The cascaded PID controller of controlpid.py: an angle loop and a cart
    loop whose outputs add up to the cart command u, gated by an enable flag. */
module Controller {

  /** Every attribute of a Control object. */
  datatype ControlState = ControlState(
    kp: real,
    kd: real,
    ki: real,
    kpCart: real,
    kdCart: real,
    kiCart: real,
    u: real,
    uAngle: real,
    uCart: real,
    controllerEnabled: bool)

  /** The gains and the enable flag, which only the control panel writes. */
  predicate SameSettings(a: ControlState, b: ControlState)
  {
    && a.kp == b.kp && a.kd == b.kd && a.ki == b.ki
    && a.kpCart == b.kpCart && a.kdCart == b.kdCart && a.kiCart == b.kiCart
    && a.controllerEnabled == b.controllerEnabled
  }

  /** The state Control() creates: the default gains, zero commands, disabled. */
  function Initial(): (c: ControlState)
    ensures !c.controllerEnabled
    ensures c.u == c.uAngle == c.uCart == 0.0
  {
    ControlState(
      kp := 100.0, kd := 20.0, ki := 1.0,
      kpCart := 0.2, kdCart := 0.1, kiCart := 0.01,
      u := 0.0, uAngle := 0.0, uCart := 0.0,
      controllerEnabled := false)
  }

  /** One call of compute: when enabled, the two PID terms (the cart loop's
      derivative term uses the command u as it was on entry); when disabled,
      zeros; in both cases the total command is the sum of the two terms. */
  function Law(c: ControlState, angleError: real, angularVelocity: real, angleErrorIntegral: real,
               cartVelocityError: real, cartVelocityErrorIntegral: real): (r: ControlState)
    ensures SameSettings(c, r)
    ensures r.u == r.uAngle + r.uCart
    ensures !c.controllerEnabled ==> r.uAngle == 0.0 && r.uCart == 0.0 && r.u == 0.0
  {
    if c.controllerEnabled then
      var uAngle := - c.kp * angleError + c.kd * angularVelocity - c.ki * angleErrorIntegral;
      var uCart := c.kpCart * cartVelocityError - c.kdCart * c.u + c.kiCart * cartVelocityErrorIntegral;
      c.(uAngle := uAngle, uCart := uCart, u := uAngle + uCart)
    else
      c.(uAngle := 0.0, uCart := 0.0, u := 0.0)
  }

  /** The enabled law: the angle loop is -kp*e + kd*w - ki*E, the cart loop is
      kpCart*ev - kdCart*u_prev + kiCart*Ev. */
  lemma EnabledLaw(c: ControlState, ae: real, av: real, aei: real, cve: real, cvei: real)
    requires c.controllerEnabled
    ensures var r := Law(c, ae, av, aei, cve, cvei);
      && r.uAngle == - c.kp * ae + c.kd * av - c.ki * aei
      && r.uCart == c.kpCart * cve - c.kdCart * c.u + c.kiCart * cvei
  {
  }

  /** Disabled, the result depends neither on the inputs nor on the previous
      command: two disabled controllers with the same settings end equal. */
  lemma DisabledIgnoresInputs(c1: ControlState, c2: ControlState,
                              ae1: real, av1: real, aei1: real, cve1: real, cvei1: real,
                              ae2: real, av2: real, aei2: real, cve2: real, cvei2: real)
    requires !c1.controllerEnabled && c2 == c1.(u := c2.u, uAngle := c2.uAngle, uCart := c2.uCart)
    ensures Law(c1, ae1, av1, aei1, cve1, cvei1) == Law(c2, ae2, av2, aei2, cve2, cvei2)
  {
  }

  /** A disabled compute is idempotent. */
  lemma DisabledLawIdempotent(c: ControlState, ae: real, av: real, aei: real, cve: real, cvei: real)
    requires !c.controllerEnabled
    ensures var r := Law(c, ae, av, aei, cve, cvei);
      Law(r, ae, av, aei, cve, cvei) == r
  {
  }

  /** The cart loop's derivative term feeds back the previous total command:
      enabled controllers that differ only in u on entry end with cart terms
      that differ by -kdCart times that difference, and equal angle terms. */
  lemma CartTermReadsPreviousCommand(c: ControlState, v: real,
                                     ae: real, av: real, aei: real, cve: real, cvei: real)
    requires c.controllerEnabled
    ensures var r1 := Law(c, ae, av, aei, cve, cvei);
      var r2 := Law(c.(u := v), ae, av, aei, cve, cvei);
      && r2.uAngle == r1.uAngle
      && r2.uCart - r1.uCart == - c.kdCart * (v - c.u)
  {
    EnabledLaw(c, ae, av, aei, cve, cvei);
    EnabledLaw(c.(u := v), ae, av, aei, cve, cvei);
    assert c.kdCart * v - c.kdCart * c.u == c.kdCart * (v - c.u);
  }

  /** The Control object; the panel writes its gains and enable flag, the
      animation nudges its command u. */
  class Control {
    var kp: real
    var kd: real
    var ki: real
    var kpCart: real
    var kdCart: real
    var kiCart: real
    var u: real
    var uAngle: real
    var uCart: real
    var controllerEnabled: bool

    function State(): ControlState
      reads this
    {
      ControlState(kp, kd, ki, kpCart, kdCart, kiCart, u, uAngle, uCart, controllerEnabled)
    }

    constructor ()
      ensures State() == Initial()
    {
      kp := 100.0;
      kd := 20.0;
      ki := 1.0;
      kpCart := 0.2;
      kdCart := 0.1;
      kiCart := 0.01;
      u := 0.0;
      uAngle := 0.0;
      uCart := 0.0;
      controllerEnabled := false;
    }

    /** compute(angle_error, angular_velocity, angle_error_integral,
        cart_velocity_error, cart_velocity_error_integral) */
    method Compute(angleError: real, angularVelocity: real, angleErrorIntegral: real,
                   cartVelocityError: real, cartVelocityErrorIntegral: real)
      modifies this
      ensures State() == Law(old(State()), angleError, angularVelocity, angleErrorIntegral,
                             cartVelocityError, cartVelocityErrorIntegral)
    {
      if controllerEnabled {
        uAngle := - kp * angleError + kd * angularVelocity - ki * angleErrorIntegral;
        uCart := kpCart * cartVelocityError - kdCart * u + kiCart * cartVelocityErrorIntegral;
      } else {
        uAngle := 0.0;
        uCart := 0.0;
      }
      u := uAngle + uCart;
    }
  }
}
