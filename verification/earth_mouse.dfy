/**
 * The mouse handlers of the Earth widget: mouse-down, mouse-move (velocity,
 * hover, drag), mouse-up and mouse-leave, each a pure transition of the
 * interaction record.
 */
module Mouse {

  import opened Options
  import opened EarthState

  /**
   * One `mousemove` as the handler sees it: the client position, the
   * `performance.now()` reading, whether the ray from the camera through the
   * pointer hits the Earth mesh, and the size of the canvas's client rectangle.
   */
  datatype Move = Move(clientX: real, clientY: real, now: real, hit: bool, width: real, height: real)

  /** The multiplier saturates at this many times the base rotation speed. */
  const MaxVelocityMultiplier: real := 3.0

  /** Multiplier gained per pixel/ms of pointer speed. */
  const VelocityGain: real := 20.0

  /** Milliseconds since the previous sample. */
  function Elapsed(s: State, m: Move): real
  {
    m.now - s.lastUpdateTime
  }

  /**
   * The pointer velocity after a move: displacement over elapsed time when
   * time has passed, otherwise the previous velocity (no division by zero).
   */
  function Velocity(s: State, m: Move): (v: Vec2)
    ensures Elapsed(s, m) > 0.0 ==>
      && v.x * Elapsed(s, m) == m.clientX - s.previousMousePosition.x
      && v.y * Elapsed(s, m) == m.clientY - s.previousMousePosition.y
    ensures Elapsed(s, m) <= 0.0 ==> v == s.mouseVelocity
  {
    var dt := Elapsed(s, m);
    if dt > 0.0 then
      Vec2((m.clientX - s.previousMousePosition.x) / dt, (m.clientY - s.previousMousePosition.y) / dt)
    else
      s.mouseVelocity
  }

  /** `speed` is the Euclidean length of `v` (what `Math.sqrt` returns). */
  predicate IsMagnitude(speed: real, v: Vec2)
  {
    speed >= 0.0 && speed * speed == v.x * v.x + v.y * v.y
  }

  /** `min(speed * 20, 3)`. */
  function VelocityMultiplier(speed: real): (k: real)
    requires speed >= 0.0
    ensures 0.0 <= k <= MaxVelocityMultiplier
    ensures k <= VelocityGain * speed
    ensures k == MaxVelocityMultiplier || k == VelocityGain * speed
  {
    if speed * VelocityGain < MaxVelocityMultiplier then speed * VelocityGain else MaxVelocityMultiplier
  }

  /** Base rotation speed: slower on the very first hover. */
  function BaseRotationSpeed(firstHover: bool): real
  {
    if firstHover then 0.3 else 0.8
  }

  /** The hover rotation speed lies between one and four times its base. */
  function RotationSpeed(firstHover: bool, speed: real): (r: real)
    requires speed >= 0.0
    ensures BaseRotationSpeed(firstHover) <= r <= 4.0 * BaseRotationSpeed(firstHover)
  {
    BaseRotationSpeed(firstHover) * (1.0 + VelocityMultiplier(speed))
  }

  /** Pointer offset from the canvas centre, as a fraction of the canvas width. */
  function OffsetX(s: State, m: Move): real
    requires m.width > 0.0
  {
    (m.clientX - s.centerPosition.x) / m.width
  }

  /** Pointer offset from the canvas centre, as a fraction of the canvas height. */
  function OffsetY(s: State, m: Move): real
    requires m.height > 0.0
  {
    (m.clientY - s.centerPosition.y) / m.height
  }

  /** What a move demands of its inputs: `speed` is the new velocity's length, and a hit canvas has area. */
  predicate MoveAdmissible(s: State, m: Move, speed: real)
  {
    && IsMagnitude(speed, Velocity(s, m))
    && (m.hit ==> m.width > 0.0 && m.height > 0.0)
  }

  /**
   * The hover branch of a move. A hit enters hovering (raising the scale and
   * glow targets) when not already hovering, and then aims the rotation by the
   * pointer's offset from the centre; a miss while hovering leaves hovering and
   * resets every target.
   */
  function HoverStep(s: State, m: Move, speed: real): (r: State)
    requires speed >= 0.0
    requires m.hit ==> m.width > 0.0 && m.height > 0.0
    ensures r.isHovering == m.hit
    ensures r.isFirstHover == (s.isFirstHover && !m.hit)
    ensures m.hit && !s.isHovering ==> r.targetScale == HoverScale && r.targetGlow == HoverGlow
    ensures m.hit && !s.isHovering ==> r.cursor == (if s.isDown then Grabbing else Grab)
    ensures m.hit == s.isHovering ==> r.targetScale == s.targetScale && r.targetGlow == s.targetGlow
    ensures m.hit && s.isHovering ==> r.cursor == s.cursor
    ensures !m.hit && s.isHovering ==>
      && r.targetScale == RestScale && r.targetGlow == RestGlow
      && r.targetRotationX == 0.0 && r.targetRotationY == 0.0
      && r.cursor == Default
    ensures !m.hit && !s.isHovering ==> r == s
    ensures m.hit ==>
      && r.targetRotationY == OffsetX(s, m) * PI * RotationSpeed(s.isFirstHover, speed)
      && r.targetRotationX == -OffsetY(s, m) * PI * (RotationSpeed(s.isFirstHover, speed) * 0.6)
    ensures r.isDown == s.isDown && r.anchor == s.anchor && SameCurrent(r, s)
    ensures r.mouseVelocity == s.mouseVelocity && r.mousePosition == s.mousePosition
    ensures r.previousMousePosition == s.previousMousePosition && r.lastUpdateTime == s.lastUpdateTime
    ensures r.centerPosition == s.centerPosition && r.aspect == s.aspect
  {
    if m.hit then
      var entered :=
        if s.isHovering then s
        else s.(isHovering := true, targetScale := HoverScale, targetGlow := HoverGlow,
                cursor := if s.isDown then Grabbing else Grab);
      var rotationSpeed := RotationSpeed(s.isFirstHover, speed);
      entered.(targetRotationY := OffsetX(s, m) * PI * rotationSpeed,
               targetRotationX := -OffsetY(s, m) * PI * (rotationSpeed * 0.6),
               isFirstHover := false)
    else if s.isHovering then
      s.(isHovering := false, targetScale := RestScale, targetGlow := RestGlow, cursor := Default,
         targetRotationX := 0.0, targetRotationY := 0.0)
    else
      s
  }

  /** `x` forced into the range from `lo` to `hi`: the nearer bound when it lies outside. */
  function Clamp(x: real, lo: real, hi: real): (r: real)
    requires lo <= hi
    ensures lo <= r <= hi
    ensures lo <= x <= hi ==> r == x
    ensures x < lo ==> r == lo
    ensures x > hi ==> r == hi
  {
    if hi < x then hi else if x < lo then lo else x
  }

  /**
   * The drag branch of a move. While the button is down, the target rotation
   * accumulates the drag delta from the anchor, the pitch target is clamped to
   * a quarter turn either way, and the anchor moves to the pointer.
   */
  function DragStep(s: State, m: Move): (r: State)
    ensures !s.isDown ==> r == s
    ensures s.isDown ==>
      && r.targetRotationY == s.targetRotationY + DragSensitivity * (m.clientX - s.anchor.x)
      && r.targetRotationX == Clamp(s.targetRotationX + DragSensitivity * (m.clientY - s.anchor.y), -PI / 2.0, PI / 2.0)
      && r.anchor == Vec2(m.clientX, m.clientY)
    ensures s.isDown ==> -PI / 2.0 <= r.targetRotationX <= PI / 2.0
    ensures r.(targetRotationX := s.targetRotationX, targetRotationY := s.targetRotationY, anchor := s.anchor) == s
  {
    if !s.isDown then s
    else
      var rotY := s.targetRotationY + (m.clientX - s.anchor.x) * DragSensitivity;
      var rotX := s.targetRotationX + (m.clientY - s.anchor.y) * DragSensitivity;
      s.(targetRotationY := rotY,
         targetRotationX := Clamp(rotX, -PI / 2.0, PI / 2.0),
         anchor := Vec2(m.clientX, m.clientY))
  }

  /**
   * `handleMouseMove`: update the velocity and position, run the hover branch,
   * then the drag branch, and finally record this sample as the previous one.
   */
  function HandleMouseMove(s: State, m: Move, speed: real): (r: State)
    requires MoveAdmissible(s, m, speed)
    ensures r.mousePosition == Vec2(m.clientX, m.clientY)
    ensures r.previousMousePosition == Vec2(m.clientX, m.clientY)
    ensures r.lastUpdateTime == m.now
    ensures r.mouseVelocity == Velocity(s, m)
    ensures r.isDown == s.isDown
    ensures r.isHovering == m.hit
    ensures r.isFirstHover == (s.isFirstHover && !m.hit)
    ensures r.anchor == (if s.isDown then Vec2(m.clientX, m.clientY) else s.anchor)
    ensures m.hit && !s.isHovering ==> r.targetScale == HoverScale && r.targetGlow == HoverGlow
    ensures !m.hit && s.isHovering ==> r.targetScale == RestScale && r.targetGlow == RestGlow
    ensures m.hit == s.isHovering ==> r.targetScale == s.targetScale && r.targetGlow == s.targetGlow
    ensures !s.isDown && !m.hit && !s.isHovering ==>
      r.targetRotationX == s.targetRotationX && r.targetRotationY == s.targetRotationY
    ensures s.isDown ==> -PI / 2.0 <= r.targetRotationX <= PI / 2.0
    ensures SameCurrent(r, s) && r.centerPosition == s.centerPosition && r.aspect == s.aspect
  {
    var sampled := s.(mouseVelocity := Velocity(s, m), mousePosition := Vec2(m.clientX, m.clientY));
    var dragged := DragStep(HoverStep(sampled, m, speed), m);
    dragged.(previousMousePosition := Vec2(m.clientX, m.clientY), lastUpdateTime := m.now)
  }

  /** `handleMouseDown`: start dragging from the pointer position. */
  function HandleMouseDown(s: State, clientX: real, clientY: real): (r: State)
    ensures r.isDown && r.anchor == Vec2(clientX, clientY) && r.cursor == Grabbing
    ensures r.(isDown := s.isDown, anchor := s.anchor, cursor := s.cursor) == s
  {
    s.(isDown := true, anchor := Vec2(clientX, clientY), cursor := Grabbing)
  }

  /** `handleMouseUp`: stop dragging; the cursor shows whether the sphere is still under the pointer. */
  function HandleMouseUp(s: State): (r: State)
    ensures !r.isDown
    ensures r.cursor == (if s.isHovering then Grab else Default)
    ensures r.(isDown := s.isDown, cursor := s.cursor) == s
  {
    s.(isDown := false, cursor := if s.isHovering then Grab else Default)
  }

  /** `handleMouseLeave`: leave both dragging and hovering and put every target back at rest. */
  function HandleMouseLeave(s: State): (r: State)
    ensures !r.isDown && !r.isHovering && r.cursor == Default
    ensures r.targetRotationX == 0.0 && r.targetRotationY == 0.0
    ensures r.targetScale == RestScale && r.targetGlow == RestGlow
    ensures r.isFirstHover == s.isFirstHover && r.anchor == s.anchor && SameCurrent(r, s)
    ensures r.mousePosition == s.mousePosition && r.previousMousePosition == s.previousMousePosition
    ensures r.mouseVelocity == s.mouseVelocity && r.lastUpdateTime == s.lastUpdateTime
    ensures r.centerPosition == s.centerPosition && r.aspect == s.aspect
  {
    s.(isDown := false, isHovering := false, targetScale := RestScale, targetGlow := RestGlow,
       targetRotationX := 0.0, targetRotationY := 0.0, cursor := Default)
  }

  /** A pointer faster than 0.15 px/ms (compared by squares) saturates the multiplier at 3. */
  lemma FastPointerSaturates(speed: real, v: Vec2)
    requires IsMagnitude(speed, v)
    requires v.x * v.x + v.y * v.y >= 0.0225
    ensures VelocityMultiplier(speed) == MaxVelocityMultiplier
  {
    if speed < 0.15 {
      SquareStrictlyMonotone(speed, 0.15);
      assert false;
    }
  }

  lemma SquareStrictlyMonotone(a: real, b: real)
    requires 0.0 <= a < b
    ensures a * a < b * b
  {
    var d := b - a;
    assert b * b == a * a + 2.0 * a * d + d * d;
    assert a * d >= 0.0;
    assert d * d > 0.0;
  }

  /** Below 0.15 px/ms the multiplier is exactly 20 times the speed, hence below 3. */
  lemma SlowPointerScales(speed: real, v: Vec2)
    requires IsMagnitude(speed, v)
    requires v.x * v.x + v.y * v.y < 0.0225
    ensures VelocityMultiplier(speed) == VelocityGain * speed < MaxVelocityMultiplier
  {
  }

  /**
   * Whatever the hover result, a move during a drag adds exactly one hundredth
   * of the drag delta to the yaw target that the hover branch left, and clamps
   * the pitch target; the anchor ends at the pointer.
   */
  lemma DragAccumulates(s: State, m: Move, speed: real)
    requires MoveAdmissible(s, m, speed)
    requires s.isDown
    ensures var h := HoverStep(s.(mouseVelocity := Velocity(s, m), mousePosition := Vec2(m.clientX, m.clientY)), m, speed);
      var r := HandleMouseMove(s, m, speed);
      && r.targetRotationY == h.targetRotationY + DragSensitivity * (m.clientX - s.anchor.x)
      && r.targetRotationX == Clamp(h.targetRotationX + DragSensitivity * (m.clientY - s.anchor.y), -PI / 2.0, PI / 2.0)
      && r.anchor == Vec2(m.clientX, m.clientY)
  {
  }

  /**
   * The ordering quirk: when the pointer slides off the sphere mid-drag, the
   * hover exit zeroes the rotation targets first, so only this move's drag
   * delta survives; everything dragged before is discarded.
   */
  lemma HoverLossDuringDragDiscardsRotation(s: State, m: Move, speed: real)
    requires MoveAdmissible(s, m, speed)
    requires s.isDown && s.isHovering && !m.hit
    ensures var r := HandleMouseMove(s, m, speed);
      && r.targetRotationY == DragSensitivity * (m.clientX - s.anchor.x)
      && r.targetRotationX == Clamp(DragSensitivity * (m.clientY - s.anchor.y), -PI / 2.0, PI / 2.0)
      && r.targetScale == RestScale && r.targetGlow == RestGlow && r.cursor == Default
  {
    DragAccumulates(s, m, speed);
  }

  /**
   * A drag that neither starts nor ends a hover and misses the sphere moves the
   * yaw target by exactly 0.01 rad per pixel of horizontal drag.
   */
  lemma PlainDragAddsDelta(s: State, m: Move, speed: real)
    requires MoveAdmissible(s, m, speed)
    requires s.isDown && !s.isHovering && !m.hit
    ensures HandleMouseMove(s, m, speed).targetRotationY == s.targetRotationY + DragSensitivity * (m.clientX - s.anchor.x)
  {
    DragAccumulates(s, m, speed);
  }

  /**
   * Pressing at (x, y) and then moving 50 px to the right without touching the
   * sphere turns the yaw target by 0.5 rad.
   */
  lemma DragFiftyPixels(s: State, x: real, y: real, m: Move, speed: real)
    requires !s.isHovering && !m.hit
    requires m.clientX == x + 50.0 && m.clientY == y
    requires MoveAdmissible(HandleMouseDown(s, x, y), m, speed)
    ensures var r := HandleMouseMove(HandleMouseDown(s, x, y), m, speed);
      && r.targetRotationY == s.targetRotationY + 0.5
      && -PI / 2.0 <= r.targetRotationX <= PI / 2.0
  {
    PlainDragAddsDelta(HandleMouseDown(s, x, y), m, speed);
  }

  /**
   * The hover branch does not clamp: a hover can aim the pitch target beyond a
   * quarter turn. The centre is recorded in client coordinates at mount and
   * refreshed only on resize, so once the page has scrolled the canvas up, the
   * stored centre lies far below it. Here the canvas was mounted 2600 px down
   * the page and has since been scrolled to the top of the viewport; the move
   * is at the middle of the visible canvas, where the ray meets the sphere.
   */
  lemma HoverExceedsClamp()
    ensures exists s: State, m: Move, speed: real ::
      && MoveAdmissible(s, m, speed)
      && HandleMouseMove(s, m, speed).targetRotationX > PI / 2.0
  {
    var s := Initial(Box(0.0, 2600.0, 400.0, 400.0), 400.0, 400.0);
    var m := Move(150.0, 200.0, 1000.0, true, 400.0, 400.0);
    // 0.25 px/ms, above saturation
    assert Velocity(s, m) == Vec2(0.15, 0.2);
    var speed := 0.25;
    assert VelocityMultiplier(speed) == 3.0;
    assert RotationSpeed(true, speed) == 1.2;
    assert OffsetY(s, m) == -6.5;
    var r := HandleMouseMove(s, m, speed);
    assert r.targetRotationX == 6.5 * PI * (1.2 * 0.6);
    assert MoveAdmissible(s, m, speed);
  }
}
