/** Scalar helpers of the procedural terrain generator: hashed-lattice value
    noise, its six-octave fractal sum (fbm) and the shaping step that turns the
    sum into a normalised elevation factor. Java doubles are modelled as exact
    reals. */
module ValueNoise {

  /** Fractional part: the distance from x down to the integer below it. It is
      the unique r in [0, 1) such that x - r is an integer. */
  function Fract(x: real): (r: real)
    ensures 0.0 <= r < 1.0
    ensures (x - r).Floor as real == x - r
  {
    x - x.Floor as real
  }

  /** Fract agrees with any integer n that lies within one below x. */
  lemma FractOfIntegerOffset(x: real, n: int)
    requires n as real <= x < n as real + 1.0
    ensures Fract(x) == x - n as real
    ensures x.Floor == n
  {
  }

  /** Hermite smoothing t*t*(3 - 2t): maps [0, 1] onto [0, 1], fixing both ends. */
  function Smoothstep(t: real): (r: real)
    ensures 0.0 <= t <= 1.0 ==> 0.0 <= r <= 1.0
    ensures t == 0.0 ==> r == 0.0
    ensures t == 1.0 ==> r == 1.0
  {
    SmoothstepBounds(t);
    t * t * (3.0 - 2.0 * t)
  }

  lemma SmoothstepBounds(t: real)
    ensures 0.0 <= t <= 1.0 ==> 0.0 <= t * t * (3.0 - 2.0 * t) <= 1.0
  {
    if 0.0 <= t <= 1.0 {
      var s := t * t * (3.0 - 2.0 * t);
      MulNonneg(t, t);
      MulNonneg(t * t, 3.0 - 2.0 * t);
      assert 1.0 - s == (1.0 - t) * (1.0 - t) * (1.0 + 2.0 * t);
      MulNonneg(1.0 - t, 1.0 - t);
      MulNonneg((1.0 - t) * (1.0 - t), 1.0 + 2.0 * t);
    }
  }

  /** Smoothstep is symmetric about the midpoint of [0, 1]. */
  lemma SmoothstepSymmetric(t: real)
    ensures Smoothstep(1.0 - t) == 1.0 - Smoothstep(t)
  {
  }

  /** Smoothstep never decreases on [0, 1], so interpolating with it keeps the
      order of the two endpoints. */
  lemma SmoothstepMonotonic(a: real, b: real)
    requires 0.0 <= a <= b <= 1.0
    ensures Smoothstep(a) <= Smoothstep(b)
  {
    var d := b - a;
    var k := 3.0 * (a + b) - 2.0 * (a * a + a * b + b * b);
    assert Smoothstep(b) - Smoothstep(a) == d * k;
    MulNonneg(a, 1.0 - a);
    MulNonneg(b, 1.0 - b);
    MulNonneg(a, 1.0 - b);
    MulNonneg(1.0 - a, b);
    assert 0.0 <= k;
    MulNonneg(d, k);
  }

  lemma MulNonneg(a: real, b: real)
    requires 0.0 <= a && 0.0 <= b
    ensures 0.0 <= a * b
  {
  }

  /** Deterministic pseudo-random value of a lattice point, in [-1, 1). */
  function Hash(x: real, y: real): (r: real)
    ensures -1.0 <= r < 1.0
  {
    var a := 50.0 * Fract(x * 0.3183099 + 0.71);
    var b := 50.0 * Fract(y * 0.3183099 + 0.113);
    var v := Fract(a * b * (a + b));
    -1.0 + 2.0 * v
  }

  /** The regression value of the hash at the origin. */
  lemma HashAtOrigin()
    ensures Hash(0.0, 0.0) == 0.3225
  {
    FractOfIntegerOffset(0.71, 0);
    FractOfIntegerOffset(0.113, 0);
    assert 35.5 * 5.65 * (35.5 + 5.65) == 8253.66125;
    FractOfIntegerOffset(8253.66125, 8253);
  }

  /** Linear interpolation from p (t = 0) to q (t = 1). */
  function Lerp(p: real, q: real, t: real): (r: real)
    ensures 0.0 <= t <= 1.0 ==> Min(p, q) <= r <= Max(p, q)
    ensures t == 0.0 ==> r == p
    ensures t == 1.0 ==> r == q
  {
    LerpBetween(p, q, t);
    p * (1.0 - t) + q * t
  }

  lemma LerpBetween(p: real, q: real, t: real)
    ensures 0.0 <= t <= 1.0 ==> Min(p, q) <= p * (1.0 - t) + q * t <= Max(p, q)
  {
    if 0.0 <= t <= 1.0 {
      assert p * (1.0 - t) + q * t == p + (q - p) * t;
      if p <= q {
        MulNonneg(q - p, t);
        MulNonneg(q - p, 1.0 - t);
      } else {
        MulNonneg(p - q, t);
        MulNonneg(p - q, 1.0 - t);
      }
    }
  }

  function Min(a: real, b: real): (r: real) { if a <= b then a else b }
  function Max(a: real, b: real): (r: real) { if a <= b then b else a }

  /** Hash of the lattice corner (floor x + dx, floor y + dy), in [-1, 1). */
  function Corner(x: real, y: real, dx: real, dy: real): (r: real)
    ensures -1.0 <= r < 1.0
  {
    Hash(x.Floor as real + dx, y.Floor as real + dy)
  }

  /** Value noise: bilinear interpolation, smoothed, of the hashes of the four
      lattice corners around (x, y). It stays between the smallest and the
      largest corner hash, and hence in [-1, 1). At a lattice point it is the
      hash of that point. */
  function Noise(x: real, y: real): (r: real)
    ensures Min(Min(Corner(x, y, 0.0, 0.0), Corner(x, y, 1.0, 0.0)),
                Min(Corner(x, y, 0.0, 1.0), Corner(x, y, 1.0, 1.0))) <= r
    ensures r <= Max(Max(Corner(x, y, 0.0, 0.0), Corner(x, y, 1.0, 0.0)),
                     Max(Corner(x, y, 0.0, 1.0), Corner(x, y, 1.0, 1.0)))
    ensures -1.0 <= r < 1.0
    ensures x.Floor as real == x && y.Floor as real == y ==> r == Hash(x, y)
  {
    var ix := x.Floor as real;
    var iy := y.Floor as real;
    var fx := Fract(x);
    var fy := Fract(y);
    var tx := Smoothstep(fx);
    var ty := Smoothstep(fy);
    var v00 := Hash(ix, iy);
    var v10 := Hash(ix + 1.0, iy);
    var v01 := Hash(ix, iy + 1.0);
    var v11 := Hash(ix + 1.0, iy + 1.0);
    Lerp(Lerp(v00, v10, tx), Lerp(v01, v11, tx), ty)
  }

  /** Fractal Brownian motion: six octaves of noise at anisotropic frequencies
      with halving amplitudes. The amplitudes sum to 0.984375, so the result
      stays inside [-0.984375, 0.984375]. */
  function Fbm(x: real, y: real): (r: real)
    ensures -0.984375 <= r <= 0.984375
  {
    0.5 * Noise(x * 1.0, y * 1.0)
    + 0.25 * Noise(x * 0.4, y * 2.8)
    + 0.125 * Noise(x * -2.72, y * 4.96)
    + 0.0625 * Noise(x * -10.3, y * 4.67)
    + 0.03125 * Noise(x * -22.09, y * -4.89)
    + 0.015625 * Noise(x * -29.48, y * -34.33)
  }

  /** Shaping: remap an fbm value from [-1, 1] to [0, 1], then square it to
      make peaks pointier. The ends of [-1, 1] go to the ends of [0, 1]. */
  function PointyShape(v: real): (r: real)
    ensures -1.0 <= v <= 1.0 ==> 0.0 <= r <= 1.0
    ensures v == -1.0 ==> r == 0.0
    ensures v == 1.0 ==> r == 1.0
  {
    var w := v * 0.5 + 0.5;
    SquareAtMostOne(w);
    w * w
  }

  lemma SquareAtMostOne(w: real)
    ensures 0.0 <= w <= 1.0 ==> w * w <= 1.0
  {
    if 0.0 <= w <= 1.0 {
      MulNonneg(w, 1.0 - w);
    }
  }

  /** Elevation factor of a point in noise space, in [0, 1]. */
  function TerrainNoise(x: real, y: real): (r: real)
    ensures 0.0 <= r <= 1.0
  {
    PointyShape(Fbm(x, y))
  }
}
