/**
 * Whole sessions of the Earth widget: any interleaving of pointer events,
 * resizes and animation frames after mount, and what holds along all of them.
 */
module Session {

  import opened EarthState
  import Mouse
  import Frame

  /** Everything that can happen to the widget between mount and unmount. */
  datatype Event =
    | MouseDown(clientX: real, clientY: real)
    // `speed` is the length of the velocity the move computes (the handler's `Math.sqrt`)
    | MouseMove(move: Mouse.Move, speed: real)
    | MouseUp
    | MouseLeave
    | Resize(mounted: bool, clientWidth: real, clientHeight: real, canvas: Box)
    | Tick

  /** What an event demands of its inputs in a given state. */
  predicate Admissible(s: State, e: Event)
  {
    e.MouseMove? ==> Mouse.MoveAdmissible(s, e.move, e.speed)
  }

  /** The handler an event reaches. */
  function Step(s: State, e: Event): State
    requires Admissible(s, e)
  {
    match e
    case MouseDown(x, y) => Mouse.HandleMouseDown(s, x, y)
    case MouseMove(m, speed) => Mouse.HandleMouseMove(s, m, speed)
    case MouseUp => Mouse.HandleMouseUp(s)
    case MouseLeave => Mouse.HandleMouseLeave(s)
    case Resize(mounted, w, h, canvas) => HandleResize(s, mounted, w, h, canvas)
    case Tick => Frame.Animate(s)
  }

  /** Every event of the run is admissible in the state it meets. */
  predicate AdmissibleRun(s: State, es: seq<Event>)
    decreases |es|
  {
    |es| == 0 || (Admissible(s, es[0]) && AdmissibleRun(Step(s, es[0]), es[1..]))
  }

  function Run(s: State, es: seq<Event>): State
    requires AdmissibleRun(s, es)
    decreases |es|
  {
    if |es| == 0 then s else Run(Step(s, es[0]), es[1..])
  }

  /**
   * The invariant of every reachable record: the scale and glow targets are at
   * their hover values exactly while hovering and at rest otherwise, and the
   * smoothed scale and glow stay within the rest and hover values.
   */
  predicate Inv(s: State)
  {
    && s.targetScale == (if s.isHovering then HoverScale else RestScale)
    && s.targetGlow == (if s.isHovering then HoverGlow else RestGlow)
    && RestScale <= s.currentScale <= HoverScale
    && RestGlow <= s.currentGlow <= HoverGlow
  }

  lemma InitialInv(canvas: Box, clientWidth: real, clientHeight: real)
    ensures Inv(Initial(canvas, clientWidth, clientHeight))
  {
  }

  lemma StepPreservesInv(s: State, e: Event)
    requires Inv(s) && Admissible(s, e)
    ensures Inv(Step(s, e))
  {
  }

  /** Along any run, scale and glow targets follow hovering and the smoothed values stay in range. */
  lemma {:induction false} RunPreservesInv(s: State, es: seq<Event>)
    requires Inv(s) && AdmissibleRun(s, es)
    ensures Inv(Run(s, es))
    decreases |es|
  {
    if |es| > 0 {
      StepPreservesInv(s, es[0]);
      RunPreservesInv(Step(s, es[0]), es[1..]);
    }
  }

  /** From mount on, forever: scale in [1, 1.1] and glow in [0.3, 0.8]. */
  lemma ScaleAndGlowBounded(canvas: Box, clientWidth: real, clientHeight: real, es: seq<Event>)
    requires AdmissibleRun(Initial(canvas, clientWidth, clientHeight), es)
    ensures var r := Run(Initial(canvas, clientWidth, clientHeight), es);
      && RestScale <= r.currentScale <= HoverScale
      && RestGlow <= r.currentGlow <= HoverGlow
  {
    InitialInv(canvas, clientWidth, clientHeight);
    RunPreservesInv(Initial(canvas, clientWidth, clientHeight), es);
  }

  /** The event is a mouse move whose ray hits the sphere. */
  predicate IsHit(e: Event)
  {
    e.MouseMove? && e.move.hit
  }

  /**
   * The first-hover flag after a run is set exactly when it was set before and
   * no move of the run hit the sphere: it is cleared by the first hit and never
   * comes back.
   */
  lemma {:induction false} FirstHoverFlag(s: State, es: seq<Event>)
    requires AdmissibleRun(s, es)
    ensures Run(s, es).isFirstHover == (s.isFirstHover && forall i :: 0 <= i < |es| ==> !IsHit(es[i]))
    decreases |es|
  {
    if |es| > 0 {
      FirstHoverFlag(Step(s, es[0]), es[1..]);
      assert forall i :: 1 <= i < |es| ==> es[i] == es[1..][i - 1];
    }
  }

  /** Once cleared, the first-hover flag stays cleared, so rotation smoothing stays at 0.15 and base speed at 0.8. */
  lemma FirstHoverNeverReturns(s: State, es: seq<Event>)
    requires AdmissibleRun(s, es) && !s.isFirstHover
    ensures !Run(s, es).isFirstHover
    ensures Frame.RotationLerp(Run(s, es).isFirstHover) == 0.15
    ensures Mouse.BaseRotationSpeed(Run(s, es).isFirstHover) == 0.8
  {
    FirstHoverFlag(s, es);
  }

  /**
   * After mount, the slow first-hover settings (smoothing 0.05, base speed 0.3)
   * apply exactly until the first move that hits the sphere.
   */
  lemma SlowRevealUntilFirstHit(canvas: Box, clientWidth: real, clientHeight: real, es: seq<Event>)
    requires AdmissibleRun(Initial(canvas, clientWidth, clientHeight), es)
    ensures var r := Run(Initial(canvas, clientWidth, clientHeight), es);
      (Frame.RotationLerp(r.isFirstHover) == 0.05 && Mouse.BaseRotationSpeed(r.isFirstHover) == 0.3)
      <==> (forall i :: 0 <= i < |es| ==> !IsHit(es[i]))
  {
    FirstHoverFlag(Initial(canvas, clientWidth, clientHeight), es);
  }

  /**
   * The pitch itself, not only its target, leaves the quarter turn: from a
   * canvas mounted low on the page and since scrolled up, one hover on the
   * sphere and one frame turn the surface more than pi/2 about the x axis.
   */
  lemma PitchLeavesQuarterTurn()
    ensures exists es: seq<Event> ::
      && AdmissibleRun(Initial(Box(0.0, 2600.0, 400.0, 400.0), 400.0, 400.0), es)
      && Run(Initial(Box(0.0, 2600.0, 400.0, 400.0), 400.0, 400.0), es).currentRotationX > PI / 2.0
  {
    var s := Initial(Box(0.0, 2600.0, 400.0, 400.0), 400.0, 400.0);
    var m := Mouse.Move(150.0, 200.0, 1000.0, true, 400.0, 400.0);
    assert Mouse.Velocity(s, m) == Vec2(0.15, 0.2);
    assert Mouse.RotationSpeed(true, 0.25) == 1.2;
    assert Mouse.OffsetY(s, m) == -6.5;
    var hovered := Mouse.HandleMouseMove(s, m, 0.25);
    assert hovered.targetRotationX == 6.5 * PI * (1.2 * 0.6);
    assert !hovered.isFirstHover && hovered.currentRotationX == 0.0;
    var es := [MouseMove(m, 0.25), Tick];
    assert es[1..] == [Tick];
    assert AdmissibleRun(s, es);
    assert Step(s, es[0]) == hovered;
    assert Run(hovered, [Tick]) == Run(Frame.Animate(hovered), []);
    assert Run(s, es) == Frame.Animate(hovered);
  }

  /** Pointer events and resizes never touch the smoothed values; only frames do. */
  lemma OnlyFramesSmooth(s: State, e: Event)
    requires Admissible(s, e) && !e.Tick?
    ensures SameCurrent(Step(s, e), s)
  {
  }

  /** Frames never change a flag, the pitch target, or the scale and glow targets; they only add idle yaw. */
  lemma FramesKeepTargets(s: State)
    ensures var r := Step(s, Tick);
      && r.isDown == s.isDown && r.isHovering == s.isHovering && r.isFirstHover == s.isFirstHover
      && r.targetRotationX == s.targetRotationX && r.targetScale == s.targetScale && r.targetGlow == s.targetGlow
      && r.targetRotationY - s.targetRotationY == (if s.isDown || s.isHovering then 0.0 else Frame.IdleSpin)
  {
  }
}
