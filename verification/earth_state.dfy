/**
 * The interaction record of the Earth widget (src/components/Earth.tsx), together
 * with the two values its event handlers write outside that record (the canvas
 * cursor style and the camera aspect ratio), its state at mount, and the
 * resize handler that re-measures the canvas.
 */
module EarthState {

  import opened Options

  datatype Vec2 = Vec2(x: real, y: real)

  /** The cursor styles the handlers assign to the canvas. */
  datatype Cursor = Default | Grab | Grabbing

  /** A client rectangle, as `getBoundingClientRect` reports it. */
  datatype Box = Box(left: real, top: real, width: real, height: real)

  datatype State = State(
    isDown: bool,
    isHovering: bool,
    isFirstHover: bool,
    // the record's `x` and `y`: where the last drag sample was taken
    anchor: Vec2,
    targetRotationX: real,
    targetRotationY: real,
    currentRotationX: real,
    currentRotationY: real,
    targetScale: real,
    currentScale: real,
    targetGlow: real,
    currentGlow: real,
    mousePosition: Vec2,
    previousMousePosition: Vec2,
    // pixels per millisecond
    mouseVelocity: Vec2,
    centerPosition: Vec2,
    lastUpdateTime: real,
    // written to the canvas style, not to the record
    cursor: Cursor,
    // the camera's aspect ratio; None where JavaScript's division by a zero
    // height yields a non-finite number
    aspect: Option<real>
  )

  /** `Math.PI`, the double closest to pi, written in decimal. */
  const PI: real := 3.141592653589793

  const RestScale: real := 1.0
  const HoverScale: real := 1.1
  const RestGlow: real := 0.3
  const HoverGlow: real := 0.8

  /** Radians of target rotation per pixel of drag. */
  const DragSensitivity: real := 0.01

  /** The centre of a client rectangle. */
  function Center(b: Box): (c: Vec2)
    ensures c.x - b.left == b.left + b.width - c.x
    ensures c.y - b.top == b.top + b.height - c.y
  {
    Vec2(b.left + b.width / 2.0, b.top + b.height / 2.0)
  }

  /** Width over height, or None where the quotient is not a finite number. */
  function Aspect(width: real, height: real): (r: Option<real>)
    ensures r.None? <==> height == 0.0
    ensures r.Some? ==> r.value * height == width
  {
    if height == 0.0 then None else Some(width / height)
  }

  /**
   * The record right after mount: the literal initial values, the centre of the
   * canvas's client rectangle, the camera's aspect from the container's client
   * size, and the "default" cursor.
   */
  function Initial(canvas: Box, clientWidth: real, clientHeight: real): (s: State)
    ensures s.isFirstHover && !s.isDown && !s.isHovering
    ensures s.targetScale == RestScale && s.currentScale == RestScale
    ensures s.targetGlow == RestGlow && s.currentGlow == RestGlow
    ensures s.targetRotationX == 0.0 && s.targetRotationY == 0.0
    ensures s.currentRotationX == 0.0 && s.currentRotationY == 0.0
    ensures s.mouseVelocity == Vec2(0.0, 0.0) && s.lastUpdateTime == 0.0
    ensures s.previousMousePosition == Vec2(0.0, 0.0)
    ensures s.centerPosition == Center(canvas) && s.aspect == Aspect(clientWidth, clientHeight)
    ensures s.cursor == Default
  {
    State(
      isDown := false,
      isHovering := false,
      isFirstHover := true,
      anchor := Vec2(0.0, 0.0),
      targetRotationX := 0.0,
      targetRotationY := 0.0,
      currentRotationX := 0.0,
      currentRotationY := 0.0,
      targetScale := RestScale,
      currentScale := RestScale,
      targetGlow := RestGlow,
      currentGlow := RestGlow,
      mousePosition := Vec2(0.0, 0.0),
      previousMousePosition := Vec2(0.0, 0.0),
      mouseVelocity := Vec2(0.0, 0.0),
      centerPosition := Center(canvas),
      lastUpdateTime := 0.0,
      cursor := Default,
      aspect := Aspect(clientWidth, clientHeight)
    )
  }

  /**
   * `handleResize`: without a mounted container nothing happens; otherwise the
   * camera's aspect follows the container's client size and the centre follows
   * the canvas's client rectangle. Rotation and every other field are untouched.
   */
  function HandleResize(s: State, mounted: bool, clientWidth: real, clientHeight: real, canvas: Box): (r: State)
    ensures !mounted ==> r == s
    ensures mounted ==> r.centerPosition == Center(canvas) && r.aspect == Aspect(clientWidth, clientHeight)
    ensures r.(centerPosition := s.centerPosition, aspect := s.aspect) == s
  {
    if !mounted then s
    else s.(aspect := Aspect(clientWidth, clientHeight), centerPosition := Center(canvas))
  }

  /** Delivering the same resize twice is the same as delivering it once. */
  lemma ResizeIdempotent(s: State, mounted: bool, clientWidth: real, clientHeight: real, canvas: Box)
    ensures HandleResize(HandleResize(s, mounted, clientWidth, clientHeight, canvas), mounted, clientWidth, clientHeight, canvas)
         == HandleResize(s, mounted, clientWidth, clientHeight, canvas)
  {
  }


  /** The smoothed (`current*`) fields of two records agree. */
  predicate SameCurrent(a: State, b: State)
  {
    && a.currentRotationX == b.currentRotationX
    && a.currentRotationY == b.currentRotationY
    && a.currentScale == b.currentScale
    && a.currentGlow == b.currentGlow
  }
}
