/**
 * The Earth widget's normal-map texture: a 512 x 256 RGBA image whose red and
 * green channels carry the same random bump value and whose blue and alpha
 * channels are fully on.
 */
module NormalMap {

  const Width: nat := 512
  const Height: nat := 256
  const Pixels: nat := Width * Height
  /** Four bytes per pixel, in R, G, B, A order. */
  const Length: nat := Pixels * 4

  /**
   * Storing a number into a `Uint8ClampedArray`: clamp to [0, 255], then round
   * to the nearest integer, halves to even.
   */
  function ToUint8Clamped(x: real): (b: int)
    ensures 0 <= b <= 255
    ensures x <= 0.0 ==> b == 0
    ensures x >= 255.0 ==> b == 255
    ensures 0.0 <= x <= 255.0 ==> -0.5 <= (b as real) - x <= 0.5
    ensures x == (x.Floor as real) && 0.0 <= x <= 255.0 ==> b == x.Floor
  {
    if x <= 0.0 then 0
    else if x >= 255.0 then 255
    else
      var f := x.Floor;
      var frac := x - f as real;
      if frac < 0.5 then f
      else if frac > 0.5 then f + 1
      else if f % 2 == 0 then f else f + 1
  }

  /** The bump value for one pixel, from a `Math.random()` sample: `random * 50 + 128`, stored as a byte. */
  function NoiseByte(random: real): int
  {
    ToUint8Clamped(random * 50.0 + 128.0)
  }

  /** A sample in [0, 1) always gives a bump byte in [128, 178]. */
  lemma NoiseByteRange(random: real)
    requires 0.0 <= random < 1.0
    ensures 128 <= NoiseByte(random) <= 178
  {
  }

  /** The samples `Math.random()` can produce, one per pixel. */
  predicate ValidSamples(randoms: seq<real>)
  {
    |randoms| == Pixels && forall p :: 0 <= p < |randoms| ==> 0.0 <= randoms[p] < 1.0
  }

  /** The byte the fill loop stores at index `j`. */
  function Expected(randoms: seq<real>, j: int): int
    requires |randoms| == Pixels && 0 <= j < Length
  {
    if j % 4 < 2 then NoiseByte(randoms[j / 4]) else 255
  }

  datatype Rgba = Rgba(r: int, g: int, b: int, a: int)

  /** The four bytes of pixel `p`. */
  function PixelAt(data: seq<int>, p: int): Rgba
    requires 0 <= p && 4 * p + 3 < |data|
  {
    Rgba(data[4 * p], data[4 * p + 1], data[4 * p + 2], data[4 * p + 3])
  }

  /** Pixel `p` of a buffer that holds the expected bytes is (noise, noise, 255, 255). */
  lemma ExpectedPixel(randoms: seq<real>, data: seq<int>, p: int)
    requires ValidSamples(randoms) && |data| == Length
    requires forall j :: 0 <= j < Length ==> data[j] == Expected(randoms, j)
    requires 0 <= p < Pixels
    ensures PixelAt(data, p) == Rgba(NoiseByte(randoms[p]), NoiseByte(randoms[p]), 255, 255)
  {
    assert data[4 * p] == Expected(randoms, 4 * p);
    assert data[4 * p + 1] == Expected(randoms, 4 * p + 1);
    assert data[4 * p + 2] == Expected(randoms, 4 * p + 2);
    assert data[4 * p + 3] == Expected(randoms, 4 * p + 3);
  }

  /**
   * The fill loop: a zeroed image buffer, then for each pixel the noise byte
   * into red and green and 255 into blue and alpha. Every pixel ends with
   * R = G in [128, 178] and B = A = 255.
   */
  method Fill(randoms: seq<real>) returns (data: array<int>)
    requires ValidSamples(randoms)
    ensures data.Length == Length
    ensures forall j :: 0 <= j < Length ==> data[j] == Expected(randoms, j)
    ensures forall p :: 0 <= p < Pixels ==>
      var px := PixelAt(data[..], p);
      px.r == px.g && 128 <= px.r <= 178 && px.b == 255 && px.a == 255
  {
    data := new int[Length](_ => 0);
    var i := 0;
    while i < data.Length
      invariant 0 <= i <= Length && i % 4 == 0
      invariant forall j :: 0 <= j < i ==> data[j] == Expected(randoms, j)
    {
      var noise := NoiseByte(randoms[i / 4]);
      data[i] := noise;
      data[i + 1] := noise;
      data[i + 2] := 255;
      data[i + 3] := 255;
      i := i + 4;
    }
    forall p | 0 <= p < Pixels
      ensures var px := PixelAt(data[..], p);
        px.r == px.g && 128 <= px.r <= 178 && px.b == 255 && px.a == 255
    {
      ExpectedPixel(randoms, data[..], p);
      NoiseByteRange(randoms[p]);
    }
  }
}
