/**
 * The per-frame step of the Earth widget's animation loop: exponential
 * smoothing of the `current*` fields toward the `target*` fields, the mesh
 * transforms derived from them, and the idle auto-rotation.
 */
module Frame {

  import opened EarthState

  /** Rotation smoothing factor: slower until the first hover has happened. */
  function RotationLerp(firstHover: bool): real
  {
    if firstHover then 0.05 else 0.15
  }

  /** Smoothing factor for scale and glow. */
  const ScaleLerp: real := 0.1

  /** Yaw added to the target per frame while nobody interacts. */
  const IdleSpin: real := 0.002

  /** Yaw offset of the cloud shell relative to the surface. */
  const CloudYawOffset: real := 0.1

  lemma MulNonneg(a: real, b: real)
    requires a >= 0.0 && b >= 0.0
    ensures a * b >= 0.0
  {
  }

  /** The two parts `d * k` and `d * (1 - k)` of `d` share its sign and add up to it. */
  lemma SplitSigns(d: real, k: real)
    requires 0.0 <= k <= 1.0
    ensures d * k + d * (1.0 - k) == d
    ensures d >= 0.0 ==> d * k >= 0.0 && d * (1.0 - k) >= 0.0
    ensures d <= 0.0 ==> d * k <= 0.0 && d * (1.0 - k) <= 0.0
  {
    if d >= 0.0 {
      MulNonneg(d, k);
      MulNonneg(d, 1.0 - k);
    } else {
      MulNonneg(-d, k);
      MulNonneg(-d, 1.0 - k);
    }
  }

  /** `c += (t - c) * k`: the new value lies between old value and target, and the gap shrinks by 1 - k. */
  function Lerp(c: real, t: real, k: real): (r: real)
    requires 0.0 <= k <= 1.0
    ensures r - t == (1.0 - k) * (c - t)
    ensures c <= t ==> c <= r <= t
    ensures t <= c ==> t <= r <= c
  {
    var d := t - c;
    SplitSigns(d, k);
    c + d * k
  }

  /**
   * One `animate` tick. Each `current*` value closes the gap to its target by
   * the smoothing factor (0.05 or 0.15 for rotation, 0.1 for scale and glow);
   * then, if neither dragging nor hovering, the yaw target creeps on by 0.002.
   * Targets, flags and pointer data are otherwise untouched.
   */
  function Animate(s: State): (r: State)
    ensures r.currentRotationX - s.targetRotationX == (1.0 - RotationLerp(s.isFirstHover)) * (s.currentRotationX - s.targetRotationX)
    ensures r.currentRotationY - s.targetRotationY == (1.0 - RotationLerp(s.isFirstHover)) * (s.currentRotationY - s.targetRotationY)
    ensures r.currentScale - s.targetScale == (1.0 - ScaleLerp) * (s.currentScale - s.targetScale)
    ensures r.currentGlow - s.targetGlow == (1.0 - ScaleLerp) * (s.currentGlow - s.targetGlow)
    ensures s.currentScale <= s.targetScale ==> s.currentScale <= r.currentScale <= s.targetScale
    ensures s.targetScale <= s.currentScale ==> s.targetScale <= r.currentScale <= s.currentScale
    ensures s.currentGlow <= s.targetGlow ==> s.currentGlow <= r.currentGlow <= s.targetGlow
    ensures s.targetGlow <= s.currentGlow ==> s.targetGlow <= r.currentGlow <= s.currentGlow
    ensures r.targetRotationY == s.targetRotationY + (if !s.isDown && !s.isHovering then IdleSpin else 0.0)
    ensures r.(currentRotationX := s.currentRotationX, currentRotationY := s.currentRotationY,
               currentScale := s.currentScale, currentGlow := s.currentGlow,
               targetRotationY := s.targetRotationY) == s
  {
    var k := RotationLerp(s.isFirstHover);
    var smoothed := s.(
      currentRotationX := Lerp(s.currentRotationX, s.targetRotationX, k),
      currentRotationY := Lerp(s.currentRotationY, s.targetRotationY, k),
      currentScale := Lerp(s.currentScale, s.targetScale, ScaleLerp),
      currentGlow := Lerp(s.currentGlow, s.targetGlow, ScaleLerp));
    if !smoothed.isDown && !smoothed.isHovering then
      smoothed.(targetRotationY := smoothed.targetRotationY + IdleSpin)
    else
      smoothed
  }

  /** What one frame writes to the three meshes and the glow uniform. */
  datatype MeshTransforms = MeshTransforms(
    earthPitch: real, earthYaw: real, earthScale: real,
    cloudPitch: real, cloudYaw: real, cloudScale: real,
    atmosphereScale: real, glowIntensity: real)

  /**
   * Surface and clouds share the smoothed pitch and scale, the clouds sit 0.1
   * rad further in yaw, and the atmosphere takes the scale and the glow.
   */
  function Transforms(s: State): (t: MeshTransforms)
    ensures t.earthPitch == t.cloudPitch == s.currentRotationX
    ensures t.earthYaw == s.currentRotationY && t.cloudYaw - t.earthYaw == CloudYawOffset
    ensures t.earthScale == t.cloudScale == t.atmosphereScale == s.currentScale
    ensures t.glowIntensity == s.currentGlow
  {
    MeshTransforms(
      s.currentRotationX, s.currentRotationY, s.currentScale,
      s.currentRotationX, s.currentRotationY + CloudYawOffset, s.currentScale,
      s.currentScale, s.currentGlow)
  }

  function Pow(b: real, n: nat): real
  {
    if n == 0 then 1.0 else b * Pow(b, n - 1)
  }

  /** A value smoothed `n` times toward a fixed target with factor `k`. */
  function Smoothed(c: real, t: real, k: real, n: nat): real
    requires 0.0 <= k <= 1.0
  {
    if n == 0 then c else Lerp(Smoothed(c, t, k, n - 1), t, k)
  }

  /** Scaling a gap that is already `q` times the original by `a` makes it `a * q` times the original. */
  lemma ScaleGap(a: real, q: real, g: real, x: real, y: real)
    requires y == q * g && x == a * y
    ensures x == (a * q) * g
  {
  }

  /** One more smoothing step shrinks the gap by 1 - k. */
  lemma SmoothedStep(c: real, t: real, k: real, n: nat)
    requires 0.0 <= k <= 1.0 && n > 0
    ensures Smoothed(c, t, k, n) - t == (1.0 - k) * (Smoothed(c, t, k, n - 1) - t)
  {
  }

  /** After `n` smoothing steps the gap to the target is (1 - k)^n times the initial gap. */
  lemma {:induction false} SmoothedGap(c: real, t: real, k: real, n: nat)
    requires 0.0 <= k <= 1.0
    ensures Smoothed(c, t, k, n) - t == Pow(1.0 - k, n) * (c - t)
  {
    if n > 0 {
      SmoothedGap(c, t, k, n - 1);
      SmoothedStep(c, t, k, n);
      ScaleGap(1.0 - k, Pow(1.0 - k, n - 1), c - t, Smoothed(c, t, k, n) - t, Smoothed(c, t, k, n - 1) - t);
    }
  }

  /**
   * `n` frames with no event in between: scale, glow and pitch are smoothed
   * toward targets that stay put, and no flag changes.
   */
  function Frames(s: State, n: nat): (r: State)
    ensures r.targetScale == s.targetScale && r.targetGlow == s.targetGlow
    ensures r.targetRotationX == s.targetRotationX
    ensures r.isDown == s.isDown && r.isHovering == s.isHovering && r.isFirstHover == s.isFirstHover
    ensures r.currentScale == Smoothed(s.currentScale, s.targetScale, ScaleLerp, n)
    ensures r.currentGlow == Smoothed(s.currentGlow, s.targetGlow, ScaleLerp, n)
    ensures r.currentRotationX == Smoothed(s.currentRotationX, s.targetRotationX, RotationLerp(s.isFirstHover), n)
  {
    if n == 0 then s else Animate(Frames(s, n - 1))
  }

  /** Left alone for `n` frames, the scale and glow gaps shrink to 0.9^n of what they were. */
  lemma ScaleAndGlowConverge(s: State, n: nat)
    ensures Frames(s, n).currentScale - s.targetScale == Pow(1.0 - ScaleLerp, n) * (s.currentScale - s.targetScale)
    ensures Frames(s, n).currentGlow - s.targetGlow == Pow(1.0 - ScaleLerp, n) * (s.currentGlow - s.targetGlow)
  {
    SmoothedGap(s.currentScale, s.targetScale, ScaleLerp, n);
    SmoothedGap(s.currentGlow, s.targetGlow, ScaleLerp, n);
  }

  /** Left alone for `n` frames, the pitch gap shrinks to (1 - k)^n with k the rotation smoothing factor. */
  lemma PitchConverges(s: State, n: nat)
    ensures Frames(s, n).currentRotationX - s.targetRotationX
         == Pow(1.0 - RotationLerp(s.isFirstHover), n) * (s.currentRotationX - s.targetRotationX)
  {
    SmoothedGap(s.currentRotationX, s.targetRotationX, RotationLerp(s.isFirstHover), n);
  }

  /** While idle, `n` frames advance the yaw target by exactly 0.002 each. */
  lemma {:induction false} IdleSpinAccumulates(s: State, n: nat)
    requires !s.isDown && !s.isHovering
    ensures Frames(s, n).targetRotationY == s.targetRotationY + (n as real) * IdleSpin
  {
    if n > 0 {
      IdleSpinAccumulates(s, n - 1);
      assert Frames(s, n) == Animate(Frames(s, n - 1));
    }
  }
}
