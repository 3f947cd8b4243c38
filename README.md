# Inverted pendulum on a cart: a Dafny model of the simulation core

This project models the core of PendulumControlSimulation. That program simulates an inverted pendulum on a cart and keeps it upright with a cascaded PID controller. The model covers:

- **Physics** (`physics.py`): the state of the pendulum and cart. `compute(u)` does one explicit Euler step: the angular acceleration, the two tracking errors and their integrals, the updates in source order, and a one-shot wrap of the angle by 2π. Also covered are the position of the bob and the "add velocity" and "set angle" overrides.
- **Control** (`controlpid.py`): the angle loop and the cart-velocity loop. An enable flag gates them. The cart loop's derivative term feeds back the controller's own previous total command u.
- **Animations** (`animations.py`): one tick of the control loop. While not paused it does three things in order:
  1. steps physics with the command left by the previous tick;
  2. runs the controller on the stepped state;
  3. applies the ±50 arrow-key nudges.
  Also covered is one tick of the graph: a sample is appended, and after t = 5 the time window rolls.
- **Visual** (`visual.py`): the six parallel sample lists, the simulated time, the limiting of the lists to 170 samples, the frame counter and the pause flag.
- **ControlPanel** (`controlpanel.py`): what each slider writes and where, the buttons, the enable checkbox, the arrow buttons, and reset.

There is one Dafny module per source file: `Dynamics` (physics.dfy), `Controller` (controlpid.dfy), `Visualiser` (visual.dfy), `Animation` (animations.dfy) and `Panel` (controlpanel.dfy). A sixth module, `Angles` (angles.dfy), holds numpy's π, `deg2rad`/`rad2deg` and the wrap.

## How the model is built

**Stateful classes.** `Physics`, `Control`, `Visual` and `Animations` are Dafny classes with the attributes of their Python classes, minus the figures and artists, the coordinates that only feed them (`x0`/`y0` and `x`/`y` of `Visual`), `Visual`'s `pendulum` reference (its constructor takes the initial angle instead, and `UpdateGraphLists` the pendulum) and the constants `dt` and `g` of `Physics`; plus `trig` on `Physics` (the sine and cosine it uses) and `timeWindow` on `Visual` (the x-limits of the graph axes, set at visual.py:79 and animations.py:82-83). For `Physics` and `Control`, a `State()` function returns a snapshot of the fields as a datatype; for `Visual`, `Lists()` does the same for the time and the six sample lists. `ControlPanel` is different: its eleven `*_value` attributes are folded into one field `values: map<Slider, real>`, keyed by an enum of the sliders, and it has no snapshot function; its methods state the map and the states of the objects they write directly. Each method's postcondition ties the new snapshot to a pure function of the old one:
- `Physics.Compute` to `Step`;
- `Control.Compute` to `Law`;
- `Visual.UpdateGraphLists` to `Appended`;
- `Visual.LimitListLengths` to `Limited`;
- `ControlPanel.Reset` to `ResetPhysics` and `ResetControl`;
- and so on.

The properties of the source are proved about those functions.

**Physics.Compute.** `Physics.Compute` runs the three blocks of `compute` in order. Each block is its own small method:
- the acceleration and the two errors;
- Euler integration;
- angle limiting.

`Step` is the composition of the three matching functions.

**Numbers.** Numbers are Dafny `real`. π is the exact rational value of numpy's `np.pi`, the double 884279719003555 / 2^48.

**sin and cos.** These are calls into numpy, so a `Trig` value carries them as two functions. `Trig` is a parameter of the model, and the `Physics` object holds it.

**`dt`, `g` and `length`.** `__init__` sets them and nothing ever assigns them again. So they are the constants 0.03, 9.81 and 15, and the formulas use those numbers directly.

**Notes on the code:**
- **The wrap range.** The docstring of `compute` (physics.py:55) says the angle is limited to [-180, 180] degrees. The wrap (physics.py:111-115) compares strictly (`angle < -pi`, `angle > pi`), so -π and π are kept and a wrapped angle lies in the closed [-π, π], as that docstring says. It corrects by one turn only, so the range holds for unwrapped angles in [-3π, 3π] (`Angles.WrapIsSingleShot`).
- **`angle_ref` is in degrees.** The attribute's docstring (physics.py:43-44) gives no unit; the angle error (physics.py:99) is `deg2rad(angle_ref) - angle`, so the reference is read in degrees.
- **What reset clears.** Reset (controlpanel.py:178-190) zeroes exactly what its docstring (controlpanel.py:35-37) lists. It leaves `angle_error`, `cart_velocity_error` and `angular_acceleration` at their last values until the next `compute` overwrites them.

**Panel notes:**
- **The velocity slider.** It passes the attribute name `""` to `update_slider`. The guard `name_start != "v_value"` therefore never applies, and `setattr(controller, "", v)` adds an attribute that nothing reads. The model treats this slider as writing only the panel's `v_value`.
- **The initial cart kp value.** For cart kp, `add_slider` divides the initial position by 1 while the handler divides by 10. So the panel's `kp_cart_value` starts at 2.0 while the gain is 0.2 (`Panel.InitialValuesMatchHandlers`).

## Model

| member | source | states |
|---|---|---|
| `Angles.PiBounds` | physics.py:111-115 | 3.14 < π < 3.15 for the π the wrap compares against |
| `Angles.DegreesRoundTrip` | physics.py:99 | deg2rad and rad2deg are inverse to each other |
| `Angles.WrapAngle` | physics.py:111-115 | the wrapped angle differs from its input by 0, +2π or -2π; it is unchanged exactly when the input is in [-π, π]; it is in [-π, π] when the input is in [-3π, 3π]; an input below -π moves up and one above π moves down |
| `Angles.WrapIdempotent` | physics.py:111-115 | wrapping an input in [-3π, 3π] a second time changes nothing |
| `Angles.WrapIsSingleShot` | physics.py:111-115 | the wrap corrects by one turn only: 4π becomes 2π, which is still above π |
| `Dynamics.Initial` | physics.py:65-89 | a new Physics starts with angle = init_angle = deg2rad(-20) and zero velocities, errors, integrals and references |
| `Dynamics.Measure` | physics.py:94-100 | the first block writes only the acceleration and the two errors: angle_error = deg2rad(angle_ref) − angle and cart_velocity_error = cart_ref − xdot, from the incoming state |
| `Dynamics.Integrate` | physics.py:102-108 | the Euler block writes only the two integrals, ω, angle, xdot and x: each integral grows by its error·dt, ω by the acceleration·dt, and angle and x by the just-updated ω·dt and xdot·dt |
| `Dynamics.Limit` | physics.py:110-115 | the limiting block changes only the angle, by 0 or ±2π, into [-π, π] when it starts in [-3π, 3π] |
| `Dynamics.Step` | physics.py:92-115 | one compute(u) leaves the dampings, both references, init_angle, u and graph_visibility unchanged |
| `Dynamics.StepReadsPreStepState` | physics.py:94-100 | the acceleration is g·sin(angle)/length − u·cos(angle)/length − damping·ω and the errors are deg2rad(angle_ref) − angle and cart_ref − xdot, all from the pre-step state; ω and xdot update from them |
| `Dynamics.StepOrder` | physics.py:103-108 | the angle advances by the already-updated ω·dt, x by the already-updated xdot·dt, and each integral grows by this step's error·dt |
| `Dynamics.StepWrap` | physics.py:111-115 | the final angle equals the unwrapped one moved by 0 or ±2π; it lands in [-π, π] when the unwrapped one is in [-3π, 3π]; an unwrapped ±π is kept |
| `Dynamics.StepKeepsAngleInRange` | physics.py:105-115 | from an angle in [-π, π], a step whose angle change is at most 2π in size ends in [-π, π] |
| `Dynamics.FirstStepFromRest` | physics.py:65-115 | the first compute(0) from the initial state: only gravity accelerates, the cart stays at rest, the error is 20° in radians, and with abs(sin) ≤ 1 no wrap happens |
| `Dynamics.Simulate` | physics.py:92-115 | a run of steps leaves every parameter unchanged |
| `Dynamics.AngleErrors` | physics.py:99 | the per-step angle errors of a run, one per step |
| `Dynamics.CartVelocityErrors` | physics.py:100 | the per-step cart-velocity errors of a run, one per step |
| `Dynamics.IntegralsAccumulate` | physics.py:103-104 | over any run, each error integral grows by dt times the sum of the errors its steps produced |
| `Dynamics.ConstantAngleErrorAccumulates` | physics.py:103 | n steps with the same angle error e add n·e·dt to the angle error integral |
| `Dynamics.ConstantCartVelocityErrorAccumulates` | physics.py:104 | n steps with the same cart-velocity error e add n·e·dt to its integral |
| `Dynamics.Physics.constructor` | physics.py:65-89 | Physics(u) yields the initial state |
| `Dynamics.Physics.Compute` | physics.py:92-115 | compute(u) takes the state to Step of the old state |
| `Dynamics.Physics.ComputeAccelerationAndErrors` | physics.py:94-100 | the first block writes the acceleration and the two errors and nothing else |
| `Dynamics.Physics.IntegrateEuler` | physics.py:102-108 | the Euler block writes the two integrals, ω, angle, xdot and x in source order and nothing else |
| `Dynamics.Physics.LimitAngle` | physics.py:110-115 | the limiting block replaces the angle by its wrap and changes nothing else |
| `Dynamics.Physics.PendulumPos` | physics.py:118-119 | reads only; given sin² + cos² = 1, the bob is at distance length from the pivot (x, 0) |
| `Dynamics.Physics.AddVelocity` | physics.py:121-122 | only angular_velocity changes, by add_v |
| `Dynamics.Physics.SetAngle` | physics.py:124-125 | only angle changes, to deg2rad(angle_in), not wrapped |
| `Dynamics.SetAngleIsNotWrapped` | physics.py:124-125 | 540 degrees in radians is 3π, above π |
| `Dynamics.SetAngleOutOfRange` | physics.py:124-125 | set_angle(540) on a pendulum leaves its angle at 3π, outside [-π, π], and changes nothing else |
| `Controller.Initial` | controlpid.py:39-55 | a new Control is disabled with u = u_angle = u_cart = 0 |
| `Controller.Law` | controlpid.py:57-69 | compute never changes a gain or the enable flag; u = u_angle + u_cart afterwards; disabled, all three are 0 |
| `Controller.EnabledLaw` | controlpid.py:60-62 | enabled, u_angle = −kp·e + kd·ω − ki·E and u_cart = kp_cart·ev − kd_cart·u_prev + ki_cart·Ev |
| `Controller.DisabledIgnoresInputs` | controlpid.py:64-69 | disabled, the result depends neither on the inputs nor on the previous commands |
| `Controller.DisabledLawIdempotent` | controlpid.py:64-69 | a disabled compute applied twice gives what one gives |
| `Controller.CartTermReadsPreviousCommand` | controlpid.py:62 | controllers that differ only in u on entry produce equal angle terms and cart terms that differ by −kd_cart·(difference) |
| `Controller.Control.constructor` | controlpid.py:39-55 | Control() yields the initial state |
| `Controller.Control.Compute` | controlpid.py:57-69 | compute takes the state to Law of the old state |
| `Visualiser.InitialSamples` | visual.py:120-128 | one sample per list: t 0, angle rad2deg(init_angle), zeros; lengths equal; time ordered |
| `Visualiser.Appended` | visual.py:153-161 | t grows by dt and each list gains exactly one entry at the end: t, rad2deg(angle), rad2deg(ω), x, xdot, u |
| `Visualiser.AppendedKeepsInvariants` | visual.py:153-161 | appending keeps the lists of equal length, one longer, strictly increasing in time with the last entry being t |
| `Visualiser.Limited` | visual.py:163-170 | limiting keeps the lists of equal length and t unchanged, and shortens them by one exactly when they hold more than 170 samples |
| `Visualiser.LimitedDropsOldest` | visual.py:163-170 | above 170 samples the first entry of every list goes and the rest keep their order; otherwise nothing changes |
| `Visualiser.LimitedLength` | visual.py:163-170 | from equal lengths L ≤ 171, the lengths become min(L, 170) and the time order is kept |
| `Visualiser.FrameCount` | visual.py:133-137 | the generator's first n values are 0, 1, …, n−1 |
| `Visualiser.FramesIncrementByOne` | visual.py:133-137 | each yielded value is one more than the previous |
| `Visualiser.Visual.constructor` | visual.py:79-131 | the initial lists, frame counter at 0, not paused, graph window (0, 10) |
| `Visualiser.Visual.NextFrame` | visual.py:133-137 | drawing a frame yields the counter and advances it by one |
| `Visualiser.Visual.Pause` | visual.py:140-141 | pause negates paused and changes nothing else |
| `Visualiser.PauseTwice` | visual.py:140-141 | two presses restore the pause flag and leave the samples, frame counter and window as they were |
| `Visualiser.Visual.UpdateGraphLists` | visual.py:153-161 | the lists become Appended of the old lists for the pendulum and command, and stay of equal length |
| `Visualiser.Visual.LimitListLengths` | visual.py:163-170 | the lists become Limited of the old lists and stay of equal length |
| `Animation.Nudged` | animations.py:56-60 | the nudges change only u, by +50 for right and −50 for left |
| `Animation.BothKeysCancel` | animations.py:56-60 | with both keys held, u equals the computed command |
| `Animation.Tick` | animations.py:50-60 | an unpaused tick steps physics with the command the controller held before it, keeps the gains and enable flag, and leaves u = u_angle + u_cart + the nudge offset |
| `Animation.PendulumTick` | animations.py:45-60 | paused, nothing changes; otherwise one Tick |
| `Animation.ActuationDelay` | animations.py:50 | a tick's physics step depends on the controller only through the command u it held before the tick |
| `Animation.ControllerSeesSteppedState` | animations.py:50-53 | the enabled controller uses the errors, integrals and ω the step just produced |
| `Animation.NudgeSeparatesCommand` | animations.py:51-60 | after a tick u = u_angle + u_cart + nudge, and the gains and enable flag are unchanged |
| `Animation.DisabledIdleCommandIsZero` | animations.py:50-60 | disabled and with no key held, a tick leaves u = u_angle = u_cart = 0 |
| `Animation.Run` | animations.py:45-60 | many ticks leave every physics parameter and every controller setting unchanged |
| `Animation.DisabledRunIsFreeMotion` | animations.py:45-60 | disabled and with no key held, n ticks drive physics with the prior command once and then with 0 |
| `Animation.GraphTick` | animations.py:68-83 | paused, nothing changes; otherwise exactly one sample is appended, and when t > 5 the window becomes (t − 5, t + 5) |
| `Animation.GraphListsGrowUnbounded` | animations.py:76 | as written, n graph ticks lengthen every list by n |
| `Animation.GraphListsExceedLimit` | animations.py:76 | 170 ticks from the initial lists leave 171 samples |
| `Animation.LimitedGraphTick` | animations.py:70-83 | with the limiting call, a graph tick keeps the lists of equal length, with the same window rule |
| `Animation.LimitedListsStayBounded` | visual.py:163-170 | with the limiting call, lists of equal length L ≤ 170 reach min(L + n, 170) after n ticks |
| `Animation.Animations.constructor` | animations.py:36-43 | both arrow flags start false |
| `Animation.Animations.AnimatePendulum` | animations.py:45-60 | the pendulum and controller become PendulumTick of their old states |
| `Animation.Animations.AnimateGraph` | animations.py:68-83 | the lists and window become GraphTick of their old values, as written |
| `Animation.Animations.AnimateGraphLimited` | animations.py:68-83 | the same with limit_list_lengths called, keeping the lists of equal length |
| `Panel.Divisor` | controlpanel.py:60-91 | every handler divides the slider position by 1, 10 or 100 |
| `Panel.SliderValue` | controlpanel.py:60-91 | the handler's value times its divisor is the slider position; a slider with divisor 1 passes the position unchanged |
| `Panel.Scale` | controlpanel.py:59-91 | add_slider's scale equals the handler's divisor for every slider except cart kp, where it is 1 against a divisor of 10 |
| `Panel.InitialPosition` | controlpanel.py:59-91 | every initial slider position lies between the minimum and maximum add_slider gives that slider |
| `Panel.InitialValues` | controlpanel.py:59-91 | the panel's copies start at each initial position divided by add_slider's scale |
| `Panel.InitialValuesMatchHandlers` | controlpanel.py:69-70 | every initial copy matches its handler's value except cart kp: 2.0 against a gain of 0.2 |
| `Panel.SliderWrite` | controlpanel.py:151-159 | init_angle stores deg2rad(value), "angle" and "" write no modelled attribute, and every other name stores the value unchanged |
| `Panel.WithGain` | controlpanel.py:157 | setattr on the controller changes that gain only |
| `Panel.WithField` | controlpanel.py:157-159 | setattr on the pendulum changes that attribute only |
| `Panel.ControllerAfter` | controlpanel.py:154-159 | a slider write aimed at the controller sets that gain and no other; any other write leaves the controller unchanged; the commands and enable flag never change |
| `Panel.PendulumAfter` | controlpanel.py:154-159 | a slider write aimed at the pendulum sets that attribute and no other; any other write leaves the pendulum unchanged; only init_angle and the two dampings can change |
| `Panel.SliderMappings` | controlpanel.py:59-91 | kp_cart and kd_cart receive position/10, ki_cart position/100, both dampings position/10, init_angle deg2rad(position), kp the position |
| `Panel.SliderWritesOneObject` | controlpanel.py:151-159 | a slider writes to the controller or to the pendulum, never both; set-angle and velocity write to neither |
| `Panel.ControlPanel.constructor` | controlpanel.py:59-91 | the panel starts with the initial copies of all eleven sliders |
| `Panel.ControlPanel.UpdateSlider` | controlpanel.py:151-159 | the panel's copy becomes the value and every slider keeps a copy, and the controller and pendulum change as the slider's write says |
| `Panel.ControlPanel.StoreGain` | controlpanel.py:157 | setattr(controller, gain, v) |
| `Panel.ControlPanel.StoreField` | controlpanel.py:157-159 | setattr(pendulum, attribute, v) |
| `Panel.ControlPanel.VelocityButton` | controlpanel.py:124 | adds the panel's v_value to ω and changes nothing else |
| `Panel.ControlPanel.AngleButton` | controlpanel.py:125 | sets the angle to deg2rad(set_angle_value) and changes nothing else |
| `Panel.ControlPanel.PauseButton` | controlpanel.py:128 | toggles paused and leaves the samples, frame counter and window alone |
| `Panel.ControlPanel.EnableToggled` | controlpanel.py:134 | controller_enabled becomes the checkbox value and nothing else changes |
| `Panel.ControlPanel.RightButton` | controlpanel.py:142-143 | right_pressed becomes true on press and false on release |
| `Panel.ControlPanel.LeftButton` | controlpanel.py:147-148 | left_pressed becomes true on press and false on release |
| `Panel.ResetPhysics` | controlpanel.py:180-185 | reset zeroes x, xdot, ω and both integrals and sets angle to init_angle; parameters, references, init_angle, both errors and the acceleration are unchanged |
| `Panel.ResetControl` | controlpanel.py:186-188 | reset zeroes u_angle, u_cart and u and keeps the gains and enable flag |
| `Panel.ResetIdempotent` | controlpanel.py:178-190 | reset twice equals reset once |
| `Panel.ResetOfInitialIsInitial` | controlpanel.py:178-190 | resetting fresh objects changes nothing |
| `Panel.TickAfterResetIsUnforced` | controlpanel.py:186-188 | the first tick after reset steps physics with command 0 |
| `Panel.ControlPanel.Reset` | controlpanel.py:178-190 | the pendulum and controller become their reset states, the frame counter restarts at 0, and the samples, t, pause flag and window are untouched |
| `Panel.ControlPanel.ResetPendulum` | controlpanel.py:180-185 | the pendulum writes of reset |
| `Panel.ControlPanel.ResetController` | controlpanel.py:186-188 | the controller writes of reset |
| `Panel.ResetTwice` | controlpanel.py:178-190 | pressing reset twice leaves the same pendulum, controller and visualiser as pressing it once: frame counter 0, samples, pause flag and window untouched |

## Left out

- **Floating point.** Numbers are exact reals. The model says nothing about rounding, numerical accuracy or stability, or the float behaviour of numpy's sin, cos, deg2rad and rad2deg.
- **sin and cos.** They are opaque parameters (`Dynamics.Trig`). `Dynamics.Physics.PendulumPos` assumes sin² + cos² = 1 for its distance claim.
- **Rendering.** `update_pendulum`, `plot_graph`, the figures and artists of `Visual.__init__` (visual.py:64-118) and the angle label are calls into matplotlib. `timeWindow` stands for the effect of `ax_graph.set_xlim`.
- **GUI wiring.** Widget creation, layout, shortcuts and labels are not modelled. This includes the label text `update_slider` sets (controlpanel.py:152), the "Hide Control Panel" button and `control_panel_visibility`, and the windows in pendulumwindow.py and graphwindow.py.
- **Slider limits.** Qt clamps slider positions to each slider's minimum and maximum (controlpanel.py:161-170). The model accepts any integer position.
- **Scheduling.** The FuncAnimation scheduling in main.py, and the two animations sharing one frame generator, are left out. A tick is an explicit method call, and the frame generator is its next value (`Visualiser.Visual.NextFrame`). `reset` gives `visualiser.frames` a new generator, but the animations of main.py:27-28 keep drawing from the generator they were given. This hand-over is not modelled.
- **graph_visibility.** It is carried in the physics state, but nothing in the core reads it.
- **Per-object classes.** `Physics.Compute` runs the three blocks of `compute` as three helper methods, `Reset` runs its pendulum and controller writes as two, and `update_slider`'s `setattr` is a dispatch over small enum types (`Panel.Gain`, `Panel.PendulumField`). These give the same sequence of field writes as the source.
- **`Dynamics.Physics.PendulumPos`.** Its contract states the distance property. The exact coordinates (x + length·sin θ, length·cos θ) are its body.

## Findings

| source | as written | input that shows it | evidently intended | confidence | as-written member | corrected member |
|---|---|---|---|---|---|---|
| animations.py:76 | `self.visualiser.limit_list_lengths` names the method without calling it, so the sample lists are never shortened | 170 unpaused graph ticks from the initial lists leave 171 samples in every list, and each further tick adds one | call `limit_list_lengths()` after each append, so the lists never hold more than 170 samples | not executed | `Animation.GraphListsExceedLimit` | `Animation.LimitedListsStayBounded` |
