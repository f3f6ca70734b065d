/**
 * The pointer and zoom state of the home page's cube, as a value.
 *
 * The component keeps six pieces of state: whether the mouse button is held
 * down, the last pointer position, the cube's rotation about x and y, and the
 * camera's distance along z. Each event handler is a function from the old
 * state to the new one; the class in module Home is specified by these.
 */
module Controls {

  /** Radians of rotation per pixel of pointer movement while dragging. */
  const RotateSpeed: real := 0.005
  /** Camera distance per unit of wheel delta. */
  const ZoomSpeed: real := 0.005
  /** Radians added to both rotation axes on each animation frame when idle. */
  const IdleSpin: real := 0.005
  /** Bounds the wheel handler keeps the camera distance within. */
  const MinCamZ: real := 3.0
  const MaxCamZ: real := 10.0
  /** The camera distance set when the camera is created. */
  const InitialCamZ: real := 6.0

  function Max(a: real, b: real): real { if a >= b then a else b }
  function Min(a: real, b: real): real { if a <= b then a else b }

  /** The camera-distance clamp `max(3, min(10, z))`. */
  function ClampCamZ(z: real): (r: real)
    ensures MinCamZ <= r <= MaxCamZ
    ensures MinCamZ <= z <= MaxCamZ ==> r == z
    ensures z < MinCamZ ==> r == MinCamZ
    ensures z > MaxCamZ ==> r == MaxCamZ
  {
    Max(MinCamZ, Min(MaxCamZ, z))
  }

  predicate InZoomRange(z: real) { MinCamZ <= z <= MaxCamZ }

  datatype ControlState = ControlState(
    isDragging: bool,
    prevX: real, prevY: real,
    rotX: real, rotY: real,
    camZ: real)
  {
    /** Pressing the button starts a drag from the pressed position. */
    function MouseDown(x: real, y: real): ControlState {
      this.(isDragging := true, prevX := x, prevY := y)
    }

    /** A move rotates by the delta since the previous position, only while dragging. */
    function MouseMove(x: real, y: real): ControlState {
      if !isDragging then this
      else
        this.(rotY := rotY + (x - prevX) * RotateSpeed,
              rotX := rotX + (y - prevY) * RotateSpeed,
              prevX := x, prevY := y)
    }

    /** Releasing the button ends the drag. */
    function MouseUp(): ControlState {
      this.(isDragging := false)
    }

    /** The wheel moves the camera and clamps its distance. */
    function Wheel(deltaY: real): ControlState {
      this.(camZ := ClampCamZ(camZ + deltaY * ZoomSpeed))
    }

    /** The rotation step of one animation frame. */
    function Tick(): ControlState {
      if isDragging then this
      else this.(rotX := rotX + IdleSpin, rotY := rotY + IdleSpin)
    }
  }

  /** The state after the component has been set up, before the first animation frame. */
  const Initial: ControlState := ControlState(false, 0.0, 0.0, 0.0, 0.0, InitialCamZ)

  /** The events the component listens to, and the animation frame. */
  datatype Event =
    | Down(x: real, y: real)
    | Move(x: real, y: real)
    | Up
    | Scroll(deltaY: real)
    | Frame

  function Step(s: ControlState, e: Event): ControlState {
    match e
    case Down(x, y) => s.MouseDown(x, y)
    case Move(x, y) => s.MouseMove(x, y)
    case Up => s.MouseUp()
    case Scroll(d) => s.Wheel(d)
    case Frame => s.Tick()
  }

  /** The state after handling the events in arrival order. */
  function Run(s: ControlState, es: seq<Event>): ControlState
    decreases |es|
  {
    if es == [] then s else Run(Step(s, es[0]), es[1..])
  }

  datatype Point = Point(x: real, y: real)

  /** One move event per pointer position. */
  function Moves(pts: seq<Point>): (es: seq<Event>)
    ensures |es| == |pts|
    ensures forall i :: 0 <= i < |pts| ==> es[i] == Move(pts[i].x, pts[i].y)
  {
    if pts == [] then [] else [Move(pts[0].x, pts[0].y)] + Moves(pts[1..])
  }

  /** Where the pointer is after the moves, starting from (x0, y0). */
  function EndPoint(x0: real, y0: real, pts: seq<Point>): Point {
    if pts == [] then Point(x0, y0) else pts[|pts| - 1]
  }

  // ---------------------------------------------------------------------
  // Properties of the wheel

  /**
   * Once a push saturates the clamp at either bound, repeating the same push
   * leaves the camera where it is.
   */
  lemma WheelSaturates(s: ControlState, deltaY: real)
    requires InZoomRange(s.camZ)
    requires s.camZ + deltaY * ZoomSpeed <= MinCamZ || s.camZ + deltaY * ZoomSpeed >= MaxCamZ
    ensures s.Wheel(deltaY).camZ == MinCamZ || s.Wheel(deltaY).camZ == MaxCamZ
    ensures s.Wheel(deltaY).Wheel(deltaY) == s.Wheel(deltaY)
  {
  }

  /** A large upward scroll from the initial distance stops at the minimum. */
  lemma ScrollToMinimum()
    ensures Initial.Wheel(-10000.0).camZ == MinCamZ
  {
  }

  // ---------------------------------------------------------------------
  // Properties of event sequences

  lemma {:induction false} RunAppend(s: ControlState, a: seq<Event>, b: seq<Event>)
    ensures Run(s, a + b) == Run(Run(s, a), b)
    decreases |a|
  {
    if a == [] {
      assert a + b == b;
    } else {
      assert (a + b)[1..] == a[1..] + b;
      RunAppend(Step(s, a[0]), a[1..], b);
    }
  }

  /** The initial distance is within the bounds, and every event keeps it there. */
  lemma {:induction false} RunKeepsZoomInRange(s: ControlState, es: seq<Event>)
    requires InZoomRange(s.camZ)
    ensures InZoomRange(Run(s, es).camZ)
    decreases |es|
  {
    if es != [] {
      RunKeepsZoomInRange(Step(s, es[0]), es[1..]);
    }
  }

  lemma InitialInZoomRange()
    ensures InZoomRange(Initial.camZ)
    ensures forall es :: InZoomRange(Run(Initial, es).camZ)
  {
    forall es ensures InZoomRange(Run(Initial, es).camZ) {
      RunKeepsZoomInRange(Initial, es);
    }
  }

  /** Moves while the button is up change nothing at all. */
  lemma {:induction false} MovesIgnoredWhenNotDragging(s: ControlState, pts: seq<Point>)
    requires !s.isDragging
    ensures Run(s, Moves(pts)) == s
    decreases |pts|
  {
    if pts != [] {
      assert Moves(pts)[1..] == Moves(pts[1..]);
      MovesIgnoredWhenNotDragging(s, pts[1..]);
    }
  }

  /**
   * Because each move measures its delta from the previous position, any
   * sequence of moves rotates by the total displacement times RotateSpeed,
   * however many moves carried it.
   */
  lemma {:induction false} MovesAccumulate(s: ControlState, pts: seq<Point>)
    requires s.isDragging
    ensures var t := Run(s, Moves(pts));
      var p := EndPoint(s.prevX, s.prevY, pts);
      t.isDragging && t.camZ == s.camZ &&
      t.prevX == p.x && t.prevY == p.y &&
      t.rotY == s.rotY + (p.x - s.prevX) * RotateSpeed &&
      t.rotX == s.rotX + (p.y - s.prevY) * RotateSpeed
    decreases |pts|
  {
    if pts != [] {
      var s' := s.MouseMove(pts[0].x, pts[0].y);
      assert Moves(pts)[1..] == Moves(pts[1..]);
      MovesAccumulate(s', pts[1..]);
      if |pts| > 1 {
        assert EndPoint(s'.prevX, s'.prevY, pts[1..]) == EndPoint(s.prevX, s.prevY, pts);
      }
    }
  }

  /**
   * A whole gesture: press at (x0, y0), move through pts, release. The
   * rotation changes by the displacement from the press to the last
   * position; the camera does not move and the drag is over.
   */
  lemma DragGesture(s: ControlState, x0: real, y0: real, pts: seq<Point>)
    ensures var t := Run(s, [Down(x0, y0)] + Moves(pts) + [Up]);
      var p := EndPoint(x0, y0, pts);
      !t.isDragging && t.camZ == s.camZ &&
      t.prevX == p.x && t.prevY == p.y &&
      t.rotY == s.rotY + (p.x - x0) * RotateSpeed &&
      t.rotX == s.rotX + (p.y - y0) * RotateSpeed
  {
    var pressed := s.MouseDown(x0, y0);
    RunAppend(s, [Down(x0, y0)] + Moves(pts), [Up]);
    RunAppend(s, [Down(x0, y0)], Moves(pts));
    assert Run(s, [Down(x0, y0)]) == pressed;
    MovesAccumulate(pressed, pts);
  }

  /** Pressing and releasing without moving leaves the orientation as it was. */
  lemma ClickKeepsOrientation(s: ControlState, x: real, y: real)
    ensures var t := Run(s, [Down(x, y), Up]);
      t.rotX == s.rotX && t.rotY == s.rotY && t.camZ == s.camZ && !t.isDragging
  {
    DragGesture(s, x, y, []);
    assert [Down(x, y)] + Moves([]) + [Up] == [Down(x, y), Up];
  }
}
