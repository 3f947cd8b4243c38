/** The effects of the control panel of controlpanel.py: the eleven sliders and
    the attributes they write, the buttons, the enable checkbox, the arrow
    buttons and reset. Widgets, labels and layout are not modelled. */
module Panel {
  import opened Angles
  import Dynamics
  import Controller
  import Visualiser
  import Animation

  datatype Slider =
    | KpSlider | KdSlider | KiSlider
    | KpCartSlider | KdCartSlider | KiCartSlider
    | VelocitySlider | InitAngleSlider | AngularDampingSlider
    | SetAngleSlider | CartDampingSlider

  /** The controller gains a slider can set. */
  datatype Gain = Kp | Kd | Ki | KpCart | KdCart | KiCart

  /** The pendulum attributes a slider can set. */
  datatype PendulumField = InitAngle | AngularDamping | CartDamping

  /** What update_slider writes besides the panel's own copy of the value:
      an attribute of the controller, one of the pendulum, or nothing. */
  datatype Write =
    | ToController(gain: Gain, value: real)
    | ToPendulum(field: PendulumField, value: real)
    | NoWrite

  /** The divisor in the slider's valueChanged handler: a power of ten, so a
      slider reaches whole, tenth or hundredth values. */
  function Divisor(s: Slider): (d: real)
    ensures d == 1.0 || d == 10.0 || d == 100.0
  {
    match s
    case KpCartSlider => 10.0
    case KdCartSlider => 10.0
    case KiCartSlider => 100.0
    case AngularDampingSlider => 10.0
    case CartDampingSlider => 10.0
    case _ => 1.0
  }

  /** The value the handler passes on for an integer slider position. */
  function SliderValue(s: Slider, position: int): (v: real)
    ensures v * Divisor(s) == position as real
    ensures Divisor(s) == 1.0 ==> v == position as real
  {
    position as real / Divisor(s)
  }

  /** The scale add_slider divides the initial position by for the panel's
      copy: the handler's divisor for every slider except cart kp, whose
      add_slider call passes 1 while its handler divides by 10. */
  function Scale(s: Slider): (d: real)
    ensures s != KpCartSlider ==> d == Divisor(s)
    ensures s == KpCartSlider ==> d == 1.0 && Divisor(s) == 10.0
  {
    match s
    case KdCartSlider => 10.0
    case KiCartSlider => 100.0
    case AngularDampingSlider => 10.0
    case CartDampingSlider => 10.0
    case _ => 1.0
  }

  /** The minimum add_slider gives each slider. */
  function MinPosition(s: Slider): int
  {
    match s
    case VelocitySlider => -5
    case InitAngleSlider => -180
    case SetAngleSlider => -180
    case _ => 0
  }

  /** The maximum add_slider gives each slider. */
  function MaxPosition(s: Slider): int
  {
    match s
    case KpSlider => 150
    case KdCartSlider => 20
    case VelocitySlider => 5
    case InitAngleSlider => 180
    case SetAngleSlider => 180
    case CartDampingSlider => 100
    case _ => 50
  }

  /** The initial slider positions, each within its slider's range. */
  function InitialPosition(s: Slider): (p: int)
    ensures MinPosition(s) <= p <= MaxPosition(s)
  {
    match s
    case KpSlider => 100
    case KdSlider => 20
    case KiSlider => 1
    case KpCartSlider => 2
    case KdCartSlider => 1
    case KiCartSlider => 1
    case VelocitySlider => 1
    case InitAngleSlider => -20
    case AngularDampingSlider => 1
    case SetAngleSlider => 0
    case CartDampingSlider => 5
  }

  const Sliders: set<Slider> := {
    KpSlider, KdSlider, KiSlider, KpCartSlider, KdCartSlider, KiCartSlider,
    VelocitySlider, InitAngleSlider, AngularDampingSlider, SetAngleSlider, CartDampingSlider}

  lemma SlidersAreAll(s: Slider)
    ensures s in Sliders
  {
    match s
    case KpSlider => case KdSlider => case KiSlider =>
    case KpCartSlider => case KdCartSlider => case KiCartSlider =>
    case VelocitySlider => case InitAngleSlider => case AngularDampingSlider =>
    case SetAngleSlider => case CartDampingSlider =>
  }

  /** The panel's copies (kp_value, ..., cart_damping_value) as __init__
      leaves them: each initial position divided by add_slider's scale. */
  function InitialValues(): (m: map<Slider, real>)
    ensures m.Keys == Sliders
    ensures m[KpSlider] == 100.0 && m[KdSlider] == 20.0 && m[KiSlider] == 1.0
    ensures m[KpCartSlider] == 2.0 && m[KdCartSlider] == 0.1 && m[KiCartSlider] == 0.01
    ensures m[VelocitySlider] == 1.0 && m[InitAngleSlider] == -20.0 && m[AngularDampingSlider] == 0.1
    ensures m[SetAngleSlider] == 0.0 && m[CartDampingSlider] == 0.5
  {
    map s | s in Sliders :: InitialPosition(s) as real / Scale(s)
  }

  /** The initial panel copies agree with what the handler would pass on at
      the initial positions, except for cart kp: add_slider divides by 1 where
      the handler divides by 10, so the copy reads 2.0 while the gain is 0.2. */
  lemma InitialValuesMatchHandlers(s: Slider)
    ensures s != KpCartSlider ==> InitialValues()[s] == SliderValue(s, InitialPosition(s))
    ensures InitialValues()[KpCartSlider] == 2.0
    ensures SliderValue(KpCartSlider, InitialPosition(KpCartSlider)) == 0.2 == Controller.Initial().kpCart
  {
    SlidersAreAll(s);
  }

  /** The write update_slider makes for a slider passing value: "init_angle"
      is converted to radians; "angle" (the set-angle slider) and "" (the
      velocity slider) reach no modelled attribute; every other name is
      stored unchanged. */
  function SliderWrite(s: Slider, value: real): (w: Write)
    ensures s == InitAngleSlider ==> w == ToPendulum(InitAngle, DegToRad(value))
    ensures s == SetAngleSlider || s == VelocitySlider ==> w == NoWrite
    ensures w.ToController? || w.ToPendulum? ==> w.value == value || s == InitAngleSlider
  {
    match s
    case KpSlider => ToController(Kp, value)
    case KdSlider => ToController(Kd, value)
    case KiSlider => ToController(Ki, value)
    case KpCartSlider => ToController(KpCart, value)
    case KdCartSlider => ToController(KdCart, value)
    case KiCartSlider => ToController(KiCart, value)
    case VelocitySlider => NoWrite
    case InitAngleSlider => ToPendulum(InitAngle, DegToRad(value))
    case AngularDampingSlider => ToPendulum(AngularDamping, value)
    case SetAngleSlider => NoWrite
    case CartDampingSlider => ToPendulum(CartDamping, value)
  }

  function GainOf(c: Controller.ControlState, g: Gain): real
  {
    match g
    case Kp => c.kp
    case Kd => c.kd
    case Ki => c.ki
    case KpCart => c.kpCart
    case KdCart => c.kdCart
    case KiCart => c.kiCart
  }

  /** setattr(controller, gain, v): that gain becomes v, nothing else changes. */
  function WithGain(c: Controller.ControlState, g: Gain, v: real): (r: Controller.ControlState)
    ensures GainOf(r, g) == v
    ensures forall h :: h != g ==> GainOf(r, h) == GainOf(c, h)
    ensures r.u == c.u && r.uAngle == c.uAngle && r.uCart == c.uCart
    ensures r.controllerEnabled == c.controllerEnabled
  {
    match g
    case Kp => c.(kp := v)
    case Kd => c.(kd := v)
    case Ki => c.(ki := v)
    case KpCart => c.(kpCart := v)
    case KdCart => c.(kdCart := v)
    case KiCart => c.(kiCart := v)
  }

  function FieldOf(p: Dynamics.PhysicsState, f: PendulumField): real
  {
    match f
    case InitAngle => p.initAngle
    case AngularDamping => p.angularDamping
    case CartDamping => p.cartDamping
  }

  /** setattr(pendulum, field, v): that attribute becomes v, nothing else changes. */
  function WithField(p: Dynamics.PhysicsState, f: PendulumField, v: real): (r: Dynamics.PhysicsState)
    ensures FieldOf(r, f) == v
    ensures forall h :: h != f ==> FieldOf(r, h) == FieldOf(p, h)
    ensures r.(initAngle := p.initAngle, angularDamping := p.angularDamping, cartDamping := p.cartDamping) == p
  {
    match f
    case InitAngle => p.(initAngle := v)
    case AngularDamping => p.(angularDamping := v)
    case CartDamping => p.(cartDamping := v)
  }

  /** The controller after a slider write: a write to it sets that gain, any
      other write leaves it as it was; the commands and enable flag never change. */
  function ControllerAfter(c: Controller.ControlState, w: Write): (r: Controller.ControlState)
    ensures w.ToController? ==> GainOf(r, w.gain) == w.value
    ensures w.ToController? ==> forall h :: h != w.gain ==> GainOf(r, h) == GainOf(c, h)
    ensures !w.ToController? ==> r == c
    ensures r.u == c.u && r.uAngle == c.uAngle && r.uCart == c.uCart
    ensures r.controllerEnabled == c.controllerEnabled
  {
    if w.ToController? then WithGain(c, w.gain, w.value) else c
  }

  /** The pendulum after a slider write: a write to it sets that attribute,
      any other write leaves it as it was; nothing but the three settable
      attributes ever changes. */
  function PendulumAfter(p: Dynamics.PhysicsState, w: Write): (r: Dynamics.PhysicsState)
    ensures w.ToPendulum? ==> FieldOf(r, w.field) == w.value
    ensures w.ToPendulum? ==> forall h :: h != w.field ==> FieldOf(r, h) == FieldOf(p, h)
    ensures !w.ToPendulum? ==> r == p
    ensures r.(initAngle := p.initAngle, angularDamping := p.angularDamping, cartDamping := p.cartDamping) == p
  {
    if w.ToPendulum? then WithField(p, w.field, w.value) else p
  }

  /** The slider mappings: cart kp and cart kd receive position/10, cart ki
      position/100, both dampings position/10, initial angle position degrees
      in radians, and the other gains the position itself. */
  lemma SliderMappings(c: Controller.ControlState, p: Dynamics.PhysicsState, pos: int)
    ensures ControllerAfter(c, SliderWrite(KpSlider, SliderValue(KpSlider, pos))).kp == pos as real
    ensures ControllerAfter(c, SliderWrite(KpCartSlider, SliderValue(KpCartSlider, pos))).kpCart == pos as real / 10.0
    ensures ControllerAfter(c, SliderWrite(KdCartSlider, SliderValue(KdCartSlider, pos))).kdCart == pos as real / 10.0
    ensures ControllerAfter(c, SliderWrite(KiCartSlider, SliderValue(KiCartSlider, pos))).kiCart == pos as real / 100.0
    ensures PendulumAfter(p, SliderWrite(AngularDampingSlider, SliderValue(AngularDampingSlider, pos))).angularDamping
      == pos as real / 10.0
    ensures PendulumAfter(p, SliderWrite(CartDampingSlider, SliderValue(CartDampingSlider, pos))).cartDamping
      == pos as real / 10.0
    ensures PendulumAfter(p, SliderWrite(InitAngleSlider, SliderValue(InitAngleSlider, pos))).initAngle
      == DegToRad(pos as real)
  {
  }

  /** A slider writes to at most one of the two objects. */
  lemma SliderWritesOneObject(c: Controller.ControlState, p: Dynamics.PhysicsState, s: Slider, v: real)
    ensures ControllerAfter(c, SliderWrite(s, v)) == c || PendulumAfter(p, SliderWrite(s, v)) == p
    ensures s == SetAngleSlider || s == VelocitySlider ==>
      ControllerAfter(c, SliderWrite(s, v)) == c && PendulumAfter(p, SliderWrite(s, v)) == p
  {
  }

  /** What reset does to the pendulum: cart position and velocity, angular
      velocity and both integrals to 0, the angle back to init_angle. */
  function ResetPhysics(p: Dynamics.PhysicsState): (r: Dynamics.PhysicsState)
    ensures r.x == 0.0 && r.xdot == 0.0 && r.angularVelocity == 0.0
    ensures r.angleErrorIntegral == 0.0 && r.cartVelocityErrorIntegral == 0.0
    ensures r.angle == p.initAngle
    ensures Dynamics.SameParameters(p, r)
    ensures r.angleError == p.angleError && r.cartVelocityError == p.cartVelocityError
    ensures r.angularAcceleration == p.angularAcceleration
    ensures r.u == p.u && r.graphVisibility == p.graphVisibility
  {
    p.(x := 0.0, xdot := 0.0, angle := p.initAngle, angularVelocity := 0.0,
       angleErrorIntegral := 0.0, cartVelocityErrorIntegral := 0.0)
  }

  /** What reset does to the controller: the three commands to 0. */
  function ResetControl(c: Controller.ControlState): (r: Controller.ControlState)
    ensures r.uAngle == 0.0 && r.uCart == 0.0 && r.u == 0.0
    ensures Controller.SameSettings(c, r)
  {
    c.(uAngle := 0.0, uCart := 0.0, u := 0.0)
  }

  /** reset is idempotent. */
  lemma ResetIdempotent(p: Dynamics.PhysicsState, c: Controller.ControlState)
    ensures ResetPhysics(ResetPhysics(p)) == ResetPhysics(p)
    ensures ResetControl(ResetControl(c)) == ResetControl(c)
  {
  }

  /** Resetting freshly created objects changes nothing. */
  lemma ResetOfInitialIsInitial(u: real)
    ensures ResetPhysics(Dynamics.Initial(u)) == Dynamics.Initial(u)
    ensures ResetControl(Controller.Initial()) == Controller.Initial()
  {
  }

  /** After reset a tick steps the physics with command 0. */
  lemma TickAfterResetIsUnforced(p: Dynamics.PhysicsState, c: Controller.ControlState,
                                 right: bool, left: bool, trig: Dynamics.Trig)
    ensures Animation.Tick(ResetPhysics(p), ResetControl(c), right, left, trig).0
      == Dynamics.Step(ResetPhysics(p), 0.0, trig)
  {
  }

  /** The ControlPanel object, without its widgets. values holds the panel's
      copies of the slider values (kp_value, ..., cart_damping_value). */
  class ControlPanel {
    const pendulum: Dynamics.Physics
    const controller: Controller.Control
    const visualiser: Visualiser.Visual
    const animate: Animation.Animations
    var values: map<Slider, real>

    predicate Valid()
      reads this
    {
      Sliders <= values.Keys
    }

    constructor (pendulum: Dynamics.Physics, controller: Controller.Control,
                 visualiser: Visualiser.Visual, animate: Animation.Animations)
      ensures this.pendulum == pendulum && this.controller == controller
      ensures this.visualiser == visualiser && this.animate == animate
      ensures values == InitialValues() && Valid()
    {
      this.pendulum := pendulum;
      this.controller := controller;
      this.visualiser := visualiser;
      this.animate := animate;
      values := InitialValues();
    }

    /** update_slider for slider s moved to position. */
    method UpdateSlider(s: Slider, position: int)
      modifies this, pendulum, controller
      ensures values == old(values)[s := SliderValue(s, position)]
      ensures old(Valid()) ==> Valid()
      ensures controller.State()
        == ControllerAfter(old(controller.State()), SliderWrite(s, SliderValue(s, position)))
      ensures pendulum.State()
        == PendulumAfter(old(pendulum.State()), SliderWrite(s, SliderValue(s, position)))
    {
      var value := SliderValue(s, position);
      values := values[s := value];
      var w := SliderWrite(s, value);
      match w {
        case ToController(g, v) => StoreGain(g, v);
        case ToPendulum(f, v) => StoreField(f, v);
        case NoWrite =>
      }
    }

    /** setattr(self.controller, gain, v) */
    method StoreGain(g: Gain, v: real)
      modifies controller
      ensures controller.State() == WithGain(old(controller.State()), g, v)
    {
      match g {
        case Kp => controller.kp := v;
        case Kd => controller.kd := v;
        case Ki => controller.ki := v;
        case KpCart => controller.kpCart := v;
        case KdCart => controller.kdCart := v;
        case KiCart => controller.kiCart := v;
      }
    }

    /** setattr(self.pendulum, field, v) */
    method StoreField(f: PendulumField, v: real)
      modifies pendulum
      ensures pendulum.State() == WithField(old(pendulum.State()), f, v)
    {
      match f {
        case InitAngle => pendulum.initAngle := v;
        case AngularDamping => pendulum.angularDamping := v;
        case CartDamping => pendulum.cartDamping := v;
      }
    }

    /** The "Add Velocity" button. */
    method VelocityButton()
      requires Valid()
      modifies pendulum
      ensures pendulum.State()
        == old(pendulum.State()).(angularVelocity := old(pendulum.angularVelocity) + values[VelocitySlider])
    {
      pendulum.AddVelocity(values[VelocitySlider]);
    }

    /** The "Set Angle" button: the set-angle slider's degrees, in radians. */
    method AngleButton()
      requires Valid()
      modifies pendulum
      ensures pendulum.State() == old(pendulum.State()).(angle := DegToRad(values[SetAngleSlider]))
    {
      pendulum.SetAngle(values[SetAngleSlider]);
    }

    /** The "Pause" button. */
    method PauseButton()
      modifies visualiser
      ensures visualiser.paused == !old(visualiser.paused)
      ensures visualiser.Lists() == old(visualiser.Lists()) && visualiser.frames == old(visualiser.frames)
      ensures visualiser.timeWindow == old(visualiser.timeWindow)
    {
      visualiser.Pause();
    }

    /** The enable-controller checkbox toggled to checked. */
    method EnableToggled(checked: bool)
      modifies controller
      ensures controller.State() == old(controller.State()).(controllerEnabled := checked)
    {
      controller.controllerEnabled := checked;
    }

    /** The ">" button pressed (true) or released (false). */
    method RightButton(pressed: bool)
      modifies animate
      ensures animate.rightPressed == pressed && animate.leftPressed == old(animate.leftPressed)
    {
      animate.rightPressed := pressed;
    }

    /** The "<" button pressed (true) or released (false). */
    method LeftButton(pressed: bool)
      modifies animate
      ensures animate.leftPressed == pressed && animate.rightPressed == old(animate.rightPressed)
    {
      animate.leftPressed := pressed;
    }

    /** reset(press): the pendulum and controller writes, then a fresh frame
        generator, whose next value is 0. */
    method Reset()
      modifies pendulum, controller, visualiser
      ensures pendulum.State() == ResetPhysics(old(pendulum.State()))
      ensures controller.State() == ResetControl(old(controller.State()))
      ensures visualiser.frames == 0
      ensures visualiser.Lists() == old(visualiser.Lists())
      ensures visualiser.paused == old(visualiser.paused) && visualiser.timeWindow == old(visualiser.timeWindow)
    {
      ResetPendulum();
      ResetController();
      visualiser.frames := 0;
    }

    /** The pendulum writes of reset. */
    method ResetPendulum()
      modifies pendulum
      ensures pendulum.State() == ResetPhysics(old(pendulum.State()))
    {
      pendulum.x := 0.0;
      pendulum.xdot := 0.0;
      pendulum.angle := pendulum.initAngle;
      pendulum.angularVelocity := 0.0;
      pendulum.angleErrorIntegral := 0.0;
      pendulum.cartVelocityErrorIntegral := 0.0;
    }

    /** The controller writes of reset. */
    method ResetController()
      modifies controller
      ensures controller.State() == ResetControl(old(controller.State()))
    {
      controller.uAngle := 0.0;
      controller.uCart := 0.0;
      controller.u := 0.0;
    }
  }

  /** Pressing reset twice leaves the same state as pressing it once. */
  method ResetTwice(panel: ControlPanel)
    modifies panel.pendulum, panel.controller, panel.visualiser
    ensures panel.pendulum.State() == ResetPhysics(old(panel.pendulum.State()))
    ensures panel.controller.State() == ResetControl(old(panel.controller.State()))
    ensures panel.visualiser.frames == 0 && panel.visualiser.Lists() == old(panel.visualiser.Lists())
    ensures panel.visualiser.paused == old(panel.visualiser.paused)
    ensures panel.visualiser.timeWindow == old(panel.visualiser.timeWindow)
  {
    panel.Reset();
    panel.Reset();
    ResetIdempotent(old(panel.pendulum.State()), old(panel.controller.State()));
  }
}
