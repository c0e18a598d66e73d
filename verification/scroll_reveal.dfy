/**
 * The scroll-reveal wrapper (src/components/ScrollReveal.tsx): where its
 * content starts, where it animates to as it enters and leaves the viewport,
 * the "has been seen" flag, the transition delay, and the scroll direction.
 */
module ScrollReveal {

  import opened Options

  /** The side the content slides in from, named by the way it travels. */
  datatype Direction = Up | Down | Left | Right

  datatype ScrollDirection = ScrollingDown | ScrollingUp

  /**
   * An animation target: an offset on one axis (the other left out, as the
   * source's object literals leave it out) and an opacity.
   */
  datatype Pose = Pose(x: Option<real>, y: Option<real>, opacity: real)

  /** The component's optional props. */
  datatype Props = Props(delay: Option<real>, duration: Option<real>, direction: Option<Direction>, distance: Option<real>)

  /** The props with their defaults filled in. */
  datatype Settings = Settings(delay: real, duration: real, direction: Direction, distance: real)

  function OrElse<T>(o: Option<T>, default: T): (r: T)
    ensures o.Some? ==> r == o.value
    ensures o.None? ==> r == default
  {
    match o
    case Some(v) => v
    case None => default
  }

  /** Missing props default to no delay, 0.8 s, sliding up, 50 px. */
  function Resolve(p: Props): (s: Settings)
    ensures p.delay.None? ==> s.delay == 0.0
    ensures p.duration.None? ==> s.duration == 0.8
    ensures p.direction.None? ==> s.direction == Up
    ensures p.distance.None? ==> s.distance == 50.0
    ensures p.delay.Some? ==> s.delay == p.delay.value
    ensures p.duration.Some? ==> s.duration == p.duration.value
    ensures p.direction.Some? ==> s.direction == p.direction.value
    ensures p.distance.Some? ==> s.distance == p.distance.value
  {
    Settings(OrElse(p.delay, 0.0), OrElse(p.duration, 0.8), OrElse(p.direction, Up), OrElse(p.distance, 50.0))
  }

  /** The pose content is fully shown in. */
  const Shown: Pose := Pose(Some(0.0), Some(0.0), 1.0)

  predicate Vertical(dir: Direction)
  {
    dir == Up || dir == Down
  }

  /**
   * `getInitialPosition`: invisible, displaced by `distance` on the direction's
   * axis, on the side the content travels away from (below for up, above for
   * down, right for left, left for right).
   */
  function InitialPosition(dir: Direction, distance: real): (p: Pose)
    ensures p.opacity == 0.0
    ensures Vertical(dir) ==> p.x.None? && p.y.Some?
    ensures !Vertical(dir) ==> p.y.None? && p.x.Some?
    ensures dir == Up ==> p.y == Some(distance)
    ensures dir == Down ==> p.y == Some(-distance)
    ensures dir == Left ==> p.x == Some(distance)
    ensures dir == Right ==> p.x == Some(-distance)
  {
    match dir
    case Up => Pose(None, Some(distance), 0.0)
    case Down => Pose(None, Some(-distance), 0.0)
    case Left => Pose(Some(distance), None, 0.0)
    case Right => Pose(Some(-distance), None, 0.0)
  }

  /** The pose content is dismantled to once the page has scrolled past it. */
  function ExitPosition(dir: Direction, distance: real): Pose
  {
    match dir
    case Up => Pose(None, Some(-distance), 0.0)
    case Down => Pose(None, Some(distance), 0.0)
    case Left => Pose(Some(-distance), None, 0.0)
    case Right => Pose(Some(distance), None, 0.0)
  }

  function NegateOffset(o: Option<real>): Option<real>
  {
    match o
    case Some(v) => Some(-v)
    case None => None
  }

  /** Leaving past the element mirrors the entrance: same axis, opposite offset, still invisible. */
  lemma ExitMirrorsInitial(dir: Direction, distance: real)
    ensures var i := InitialPosition(dir, distance);
      ExitPosition(dir, distance) == Pose(NegateOffset(i.x), NegateOffset(i.y), 0.0)
  {
  }

  /** The element's client rectangle, as far as the selector reads it. */
  datatype ElementBox = ElementBox(top: real, height: real)

  /**
   * `getAnimationState`. `element` is None when the ref is not attached yet.
   * In view: shown. Never seen and out of view: the initial pose. Seen before
   * and scrolled past (the page offset beyond the element's bottom): the exit
   * pose. Otherwise: the initial pose.
   */
  function AnimationState(hasBeenInView: bool, isInView: bool, dir: Direction, distance: real,
                          element: Option<ElementBox>, scrollY: real): (p: Pose)
    ensures isInView ==> p == Shown
    ensures !hasBeenInView && !isInView ==> p == InitialPosition(dir, distance)
    ensures hasBeenInView && !isInView && element.Some? && scrollY > element.value.top + scrollY + element.value.height
      ==> p == ExitPosition(dir, distance)
    ensures hasBeenInView && !isInView && !(element.Some? && scrollY > element.value.top + scrollY + element.value.height)
      ==> p == InitialPosition(dir, distance)
    ensures p.opacity == (if isInView then 1.0 else 0.0)
  {
    if !hasBeenInView && !isInView then InitialPosition(dir, distance)
    else if isInView then Shown
    else if element.Some? then
      var elementTop := element.value.top + scrollY;
      if scrollY > elementTop + element.value.height then ExitPosition(dir, distance)
      else InitialPosition(dir, distance)
    else InitialPosition(dir, distance)
  }

  /** Content out of view is never visible, and a pose off the shown one is always on the direction's axis only. */
  lemma OutOfViewIsOnAxis(hasBeenInView: bool, dir: Direction, distance: real, element: Option<ElementBox>, scrollY: real)
    ensures var p := AnimationState(hasBeenInView, false, dir, distance, element, scrollY);
      && p.opacity == 0.0
      && (Vertical(dir) <==> p.y.Some?)
      && (Vertical(dir) <==> p.x.None?)
      && (p.x.Some? ==> p.x.value == distance || p.x.value == -distance)
      && (p.y.Some? ==> p.y.value == distance || p.y.value == -distance)
  {
  }

  /** The `hasBeenInView` effect: set once the element is in view. */
  function SeenAfter(hasBeenInView: bool, isInView: bool): (r: bool)
    ensures r == (hasBeenInView || isInView)
  {
    if isInView && !hasBeenInView then true else hasBeenInView
  }

  /** The flag after a sequence of in-view observations. */
  function SeenAfterAll(hasBeenInView: bool, views: seq<bool>): bool
    decreases |views|
  {
    if |views| == 0 then hasBeenInView else SeenAfterAll(SeenAfter(hasBeenInView, views[0]), views[1..])
  }

  /** The flag is set after a sequence exactly when it was set before or the element was in view at some point. */
  lemma {:induction false} SeenAfterAllIsAny(hasBeenInView: bool, views: seq<bool>)
    ensures SeenAfterAll(hasBeenInView, views) == (hasBeenInView || exists i :: 0 <= i < |views| && views[i])
    decreases |views|
  {
    if |views| > 0 {
      SeenAfterAllIsAny(SeenAfter(hasBeenInView, views[0]), views[1..]);
      if exists i :: 1 <= i < |views| && views[i] {
        var i :| 1 <= i < |views| && views[i];
        assert views[1..][i - 1];
      }
      if exists i :: 0 <= i < |views[1..]| && views[1..][i] {
        var i :| 0 <= i < |views[1..]| && views[1..][i];
        assert views[i + 1];
      }
    }
  }

  /** Once seen, always seen. */
  lemma SeenIsMonotone(views: seq<bool>)
    ensures SeenAfterAll(true, views)
  {
    SeenAfterAllIsAny(true, views);
  }

  /** The transition's delay: the configured one only for the first reveal. */
  function TransitionDelay(isInView: bool, hasBeenInView: bool, delay: real): (r: real)
    ensures isInView && !hasBeenInView ==> r == delay
    ensures !(isInView && !hasBeenInView) ==> r == 0.0
  {
    if isInView && !hasBeenInView then delay else 0.0
  }

  /** The delay applies at render `i` of a sequence: in view there and never seen before it. */
  predicate DelayedAt(views: seq<bool>, i: int)
    requires 0 <= i < |views|
  {
    views[i] && !SeenAfterAll(false, views[..i])
  }

  /** Along any sequence of renders the configured delay applies at most once: at the first one in view. */
  lemma DelayAtMostOnce(views: seq<bool>, i: int, j: int)
    requires 0 <= i < |views| && 0 <= j < |views|
    requires DelayedAt(views, i) && DelayedAt(views, j)
    ensures i == j
  {
    SeenAfterAllIsAny(false, views[..i]);
    SeenAfterAllIsAny(false, views[..j]);
  }

  /** The wrapper's scroll bookkeeping. */
  datatype ScrollState = ScrollState(lastScrollY: real, direction: ScrollDirection)

  const InitialScroll: ScrollState := ScrollState(0.0, ScrollingDown)

  /** The scroll handler: "down" exactly when the page moved further down, and the position is remembered. */
  function HandleScroll(st: ScrollState, scrollY: real): (r: ScrollState)
    ensures r.lastScrollY == scrollY
    ensures r.direction == ScrollingDown <==> scrollY > st.lastScrollY
  {
    ScrollState(scrollY, if scrollY > st.lastScrollY then ScrollingDown else ScrollingUp)
  }
}
