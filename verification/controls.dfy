/** The keyboard and mouse state of src/main.cpp: the simulation, pressure-colour
    and speed-colour switches flipped by `processInput`, the zoom of
    `scroll_callback`, the pitch of `mouse_callback`, and the frame loop's gate
    that runs `UpdateGrid` only while the simulation is switched on. */
module Controls {
  import opened Numerics
  import opened LatticePhysics
  import opened Lattice
  import opened LatticeSolver

  /** The keys `processInput` polls in one frame: space, R and E. */
  datatype Keys = Keys(space: bool, r: bool, e: bool)

  /** The switches and the key memory that `processInput` reads and writes. */
  datatype Modes = Modes(simulation: bool, pressure: bool, speed: bool, pressureLast: bool, speedLast: bool)

  /** The mouse-look state that `mouse_callback` reads and writes. */
  datatype Look = Look(yaw: real, pitch: real, lastX: real, lastY: real, firstMouse: bool)

  const Sensitivity: real := 0.1
  const MinFov: real := 1.0
  const MaxFov: real := 45.0
  const MaxPitch: real := 89.0

  /** R was released in the previous frame and is down now. */
  predicate PressureEdge(m: Modes, k: Keys) { k.r && !m.pressureLast }

  /** E was released in the previous frame and is down now. */
  predicate SpeedEdge(m: Modes, k: Keys) { k.e && !m.speedLast }

  /** The switches after one `processInput`: space flips the simulation on every
      frame it is held; a new press of R flips the pressure colour and turns the
      speed colour off; then a new press of E flips the speed colour and turns the
      pressure colour off; finally both keys are remembered. */
  function NextModes(m: Modes, k: Keys): Modes {
    var simulation := if k.space then !m.simulation else m.simulation;
    var pressure1 := if PressureEdge(m, k) then !m.pressure else m.pressure;
    var speed1 := if PressureEdge(m, k) then false else m.speed;
    var pressure2 := if SpeedEdge(m, k) then false else pressure1;
    var speed2 := if SpeedEdge(m, k) then !speed1 else speed1;
    Modes(simulation, pressure2, speed2, k.r, k.e)
  }

  /** The pressure and speed colours are never on together once they were not. */
  lemma ModesExclusive(m: Modes, k: Keys)
    requires !(m.pressure && m.speed)
    ensures !(NextModes(m, k).pressure && NextModes(m, k).speed)
  {
  }

  /** Any new press of R or E leaves at most one colour mode on, whatever the
      switches were before. */
  lemma EdgeMakesExclusive(m: Modes, k: Keys)
    requires PressureEdge(m, k) || SpeedEdge(m, k)
    ensures !(NextModes(m, k).pressure && NextModes(m, k).speed)
  {
  }

  /** A new press of R alone flips the pressure colour and clears the speed colour. */
  lemma PressureToggle(m: Modes, k: Keys)
    requires PressureEdge(m, k) && !SpeedEdge(m, k)
    ensures NextModes(m, k).pressure == !m.pressure && !NextModes(m, k).speed
  {
  }

  /** A new press of E alone flips the speed colour and clears the pressure colour. */
  lemma SpeedToggle(m: Modes, k: Keys)
    requires SpeedEdge(m, k) && !PressureEdge(m, k)
    ensures NextModes(m, k).speed == !m.speed && !NextModes(m, k).pressure
  {
  }

  /** New presses of R and E in the same frame end in the speed colour alone. */
  lemma BothPressed(m: Modes, k: Keys)
    requires PressureEdge(m, k) && SpeedEdge(m, k)
    ensures NextModes(m, k).speed && !NextModes(m, k).pressure
  {
  }

  /** Without a new press of R or E the colour switches keep their values. */
  lemma NoEdgeKeepsColours(m: Modes, k: Keys)
    requires !PressureEdge(m, k) && !SpeedEdge(m, k)
    ensures NextModes(m, k).pressure == m.pressure && NextModes(m, k).speed == m.speed
  {
  }

  /** After each call the key memory holds the keys just read, so keys held over
      a second frame toggle nothing more. */
  lemma HeldKeysToggleOnce(m: Modes, k: Keys)
    ensures NextModes(m, k).pressureLast == k.r && NextModes(m, k).speedLast == k.e
    ensures NextModes(NextModes(m, k), k).pressure == NextModes(m, k).pressure
    ensures NextModes(NextModes(m, k), k).speed == NextModes(m, k).speed
  {
    NoEdgeKeepsColours(NextModes(m, k), k);
  }

  /** Space is read as a level, not an edge: it flips the simulation on every
      frame it is down, so two frames of holding it restore the switch. */
  lemma SpaceIsLevel(m: Modes, k: Keys)
    ensures NextModes(m, k).simulation == (m.simulation != k.space)
    ensures NextModes(NextModes(m, k), k).simulation == m.simulation
  {
  }

  /** `scroll_callback`: the field of view after a scroll of yoffset, kept in [1, 45]. */
  function Zoom(fov: real, yoffset: real): (f: real)
    ensures MinFov <= f <= MaxFov
    ensures MinFov <= fov - yoffset <= MaxFov ==> f == fov - yoffset
    ensures fov - yoffset < MinFov ==> f == MinFov
    ensures MaxFov < fov - yoffset ==> f == MaxFov
  {
    var f1 := fov - yoffset;
    var f2 := if f1 < MinFov then MinFov else f1;
    if f2 > MaxFov then MaxFov else f2
  }

  /** The pitch clamp of `mouse_callback`, kept in [-89, 89]. */
  function ClampPitch(p: real): (q: real)
    ensures -MaxPitch <= q <= MaxPitch
    ensures -MaxPitch <= p <= MaxPitch ==> q == p
    ensures p > MaxPitch ==> q == MaxPitch
    ensures p < -MaxPitch ==> q == -MaxPitch
  {
    var q1 := if p > MaxPitch then MaxPitch else p;
    if q1 < -MaxPitch then -MaxPitch else q1
  }

  /** The mouse-look state after `mouse_callback` at (xpos, ypos): the first event
      only records the cursor, later ones turn yaw and pitch by a tenth of the
      cursor's travel, pitch clamped. */
  function MouseMoved(l: Look, xpos: real, ypos: real): Look {
    var lastX := if l.firstMouse then xpos else l.lastX;
    var lastY := if l.firstMouse then ypos else l.lastY;
    var xoffset := (xpos - lastX) * Sensitivity;
    var yoffset := (lastY - ypos) * Sensitivity;
    Look(l.yaw + xoffset, ClampPitch(l.pitch + yoffset), xpos, ypos, false)
  }

  /** Every mouse event leaves the pitch in [-89, 89] and remembers the cursor. */
  lemma PitchBounded(l: Look, xpos: real, ypos: real)
    ensures -MaxPitch <= MouseMoved(l, xpos, ypos).pitch <= MaxPitch
    ensures MouseMoved(l, xpos, ypos).lastX == xpos && MouseMoved(l, xpos, ypos).lastY == ypos
    ensures !MouseMoved(l, xpos, ypos).firstMouse
  {
  }

  /** The first mouse event does not turn the camera (beyond bringing an
      out-of-range pitch back into range). */
  lemma FirstMouseStill(l: Look, xpos: real, ypos: real)
    requires l.firstMouse
    ensures MouseMoved(l, xpos, ypos).yaw == l.yaw
    ensures MouseMoved(l, xpos, ypos).pitch == ClampPitch(l.pitch)
  {
  }

  /** Later events turn the camera by the cursor's travel since the previous event. */
  lemma MouseTurns(l: Look, xpos: real, ypos: real)
    requires !l.firstMouse
    requires -MaxPitch <= l.pitch + (l.lastY - ypos) * Sensitivity <= MaxPitch
    ensures MouseMoved(l, xpos, ypos).yaw == l.yaw + (xpos - l.lastX) * Sensitivity
    ensures MouseMoved(l, xpos, ypos).pitch == l.pitch + (l.lastY - ypos) * Sensitivity
  {
  }

  /** The globals of src/main.cpp that the input handlers change. */
  class InputState {
    var simulation: bool
    var pressure: bool
    var speed: bool
    var pressureKeyPressedLast: bool
    var speedKeyPressedLast: bool
    var fov: real
    var yaw: real
    var pitch: real
    var lastX: real
    var lastY: real
    var firstMouse: bool

    function Switches(): Modes
      reads this
    {
      Modes(simulation, pressure, speed, pressureKeyPressedLast, speedKeyPressedLast)
    }

    function Mouse(): Look
      reads this
    {
      Look(yaw, pitch, lastX, lastY, firstMouse)
    }

    /** The initial values of the globals: everything switched off, a 45 degree
        field of view, yaw -90, pitch 0 and the cursor at the centre of the
        800x600 window. */
    constructor ()
      ensures Switches() == Modes(false, false, false, false, false)
      ensures Mouse() == Look(-90.0, 0.0, 400.0, 300.0, true)
      ensures fov == MaxFov
    {
      simulation, pressure, speed := false, false, false;
      pressureKeyPressedLast, speedKeyPressedLast := false, false;
      fov := 45.0;
      yaw, pitch := -90.0, 0.0;
      lastX, lastY := 800.0 / 2.0, 600.0 / 2.0;
      firstMouse := true;
    }

    /** The switch logic of `processInput`. */
    method ProcessInput(keys: Keys)
      modifies this
      ensures Switches() == NextModes(old(Switches()), keys)
      ensures Mouse() == old(Mouse()) && fov == old(fov)
    {
      if keys.space {
        simulation := !simulation;
      }
      var pressureKeyPressed := keys.r;
      var speedKeyPressed := keys.e;
      if pressureKeyPressed && !pressureKeyPressedLast {
        pressure := !pressure;
        if speed {
          speed := false;
        }
      }
      if speedKeyPressed && !speedKeyPressedLast {
        speed := !speed;
        if pressure {
          pressure := false;
        }
      }
      pressureKeyPressedLast := pressureKeyPressed;
      speedKeyPressedLast := speedKeyPressed;
    }

    /** `scroll_callback`. */
    method ScrollCallback(yoffset: real)
      modifies this
      ensures fov == Zoom(old(fov), yoffset)
      ensures Switches() == old(Switches()) && Mouse() == old(Mouse())
    {
      fov := fov - yoffset;
      if fov < 1.0 {
        fov := 1.0;
      }
      if fov > 45.0 {
        fov := 45.0;
      }
    }

    /** `mouse_callback`, without the camera direction it derives from yaw and pitch. */
    method MouseCallback(xpos: real, ypos: real)
      modifies this
      ensures Mouse() == MouseMoved(old(Mouse()), xpos, ypos)
      ensures Switches() == old(Switches()) && fov == old(fov)
    {
      if firstMouse {
        lastX := xpos;
        lastY := ypos;
        firstMouse := false;
      }
      var xoffset := xpos - lastX;
      var yoffset := lastY - ypos;
      lastX := xpos;
      lastY := ypos;
      xoffset := xoffset * Sensitivity;
      yoffset := yoffset * Sensitivity;
      yaw := yaw + xoffset;
      pitch := pitch + yoffset;
      if pitch > 89.0 {
        pitch := 89.0;
      }
      if pitch < -89.0 {
        pitch := -89.0;
      }
    }
  }

  /** One pass of the render loop, without the drawing: read the keys, advance
      the lattice only while the simulation is switched on, then take the mean
      velocity.  dt is the frame time the loop reads from the clock. */
  method Frame(controls: InputState, grid: Grille, keys: Keys, dt: real, sqrt: real -> real) returns (avg: Average)
    requires grid.Built()
    modifies controls, grid, grid.vx, grid.vy, grid.vz, grid.ax, grid.ay, grid.az, grid.div
    ensures controls.Switches() == NextModes(old(controls.Switches()), keys)
    ensures controls.Mouse() == old(controls.Mouse()) && controls.fov == old(controls.fov)
    ensures grid.Built()
    ensures controls.simulation ==>
      grid.State() == Step(old(grid.State()), dt, controls.pressure, controls.speed, sqrt)
    ensures !controls.simulation ==> grid.State() == old(grid.State())
    ensures grid.N() == 0 ==> avg == NaN
    ensures grid.N() > 0 ==>
      var m := Mean(grid.State().vel); avg == Finite(Vertex(m.x, m.y, m.z, 0.0, 0.0, 0.0))
  {
    controls.ProcessInput(keys);
    if controls.simulation {
      UpdateGrid(dt, grid, controls.pressure, controls.speed, sqrt);
    }
    avg := ComputeAverageVelocity(grid);
  }
}
