/** The two heightmap tile generators of the procedural terrain example. The
    terrain engine calls a generator with a tile address (x, y, level); the
    generator allocates a row-major buffer of width * height samples and fills
    it, row by row, with elevations. */
module HeightmapProvider {
  import opened ValueNoise
  import opened TileAddressing

  /** Samples per axis of every tile the example's providers return. */
  const TileWidth: int := 32
  const TileHeight: int := 32

  /** Which generator a provider runs: fractal noise, or a sine wave along
      the row coordinate. The platform's sine function is a parameter of the
      model. */
  datatype Terrain =
    | NoiseTerrain
    | SineTerrain(sin: real -> real)

  /** A stand-in for the sine function only has to stay inside [-1, 1]. */
  ghost predicate UnitRange(sin: real -> real)
  {
    forall t :: -1.0 <= sin(t) <= 1.0
  }

  /** Elevation of noise-tile sample (xx, yy): 9000 units times the shaped
      fractal noise at the sample's scaled noise-space position. */
  function NoiseSample(x: int, y: int, level: nat, width: int, height: int, xx: int, yy: int): (r: real)
    requires width >= 2 && height >= 2
    ensures 0.0 <= r <= 9000.0
  {
    var u := TileCoord(x, xx, width, level);
    var v := TileCoord(y, yy, height, level);
    9000.0 * TerrainNoise(u * 1750.0 - 10.0, v * 1500.0)
  }

  /** Elevation of sine-tile sample row yy: 4000 units times a sine wave of
      the row coordinate, remapped from [-1, 1] to [0, 1]. It lies in
      [0, 4000] whenever the sine of that coordinate lies in [-1, 1]. */
  function SineSample(sin: real -> real, y: int, level: nat, height: int, yy: int): (r: real)
    requires height >= 2
    ensures -1.0 <= sin(8000.0 * TileCoord(y, yy, height, level)) <= 1.0 ==> 0.0 <= r <= 4000.0
  {
    var v := TileCoord(y, yy, height, level);
    4000.0 * (sin(8000.0 * v) * 0.5 + 0.5)
  }

  lemma SineSampleRange(sin: real -> real, y: int, level: nat, height: int, yy: int)
    requires height >= 2
    requires UnitRange(sin)
    ensures 0.0 <= SineSample(sin, y, level, height, yy) <= 4000.0
  {
    var v := TileCoord(y, yy, height, level);
    assert -1.0 <= sin(8000.0 * v) <= 1.0;
  }

  /** The elevation a generator stores for sample (xx, yy) of tile (x, y, level):
      in [0, 9000] for the noise generator, in [0, 4000] for the sine generator
      when its sine stays in [-1, 1]. */
  function Sample(terrain: Terrain, x: int, y: int, level: nat, width: int, height: int, xx: int, yy: int): (r: real)
    requires width >= 2 && height >= 2
    ensures terrain.NoiseTerrain? ==> 0.0 <= r <= 9000.0
    ensures terrain.SineTerrain? && UnitRange(terrain.sin) ==> 0.0 <= r <= 4000.0
  {
    match terrain
    case NoiseTerrain => NoiseSample(x, y, level, width, height, xx, yy)
    case SineTerrain(sin) => SineSample(sin, y, level, height, yy)
  }

  /** The per-sample computation of one tile, as a function of (xx, yy). */
  function SampleFn(terrain: Terrain, x: int, y: int, level: nat, width: int, height: int): (f: (int, int) -> real)
    requires width >= 2 && height >= 2
  {
    (xx: int, yy: int) => Sample(terrain, x, y, level, width, height, xx, yy)
  }

  /** A width x height grid laid out row-major: sample (xx, yy) at index
      yy * width + xx, so rows vary slower than columns. */
  function RowMajor(width: int, height: int, sample: (int, int) -> real): (s: seq<real>)
    requires width > 0 && height >= 0
    ensures |s| == width * height
  {
    MulLeft(0, height, width);
    seq(width * height, i requires 0 <= i < width * height => sample(i % width, i / width))
  }

  /** The buffer a generator returns for tile (x, y, level): one entry per
      sample of the width x height grid. */
  function TileSpec(terrain: Terrain, x: int, y: int, level: nat, width: int, height: int): (s: seq<real>)
    requires width >= 2 && height >= 2
    ensures |s| == width * height
  {
    RowMajor(width, height, SampleFn(terrain, x, y, level, width, height))
  }

  lemma MulLeft(a: int, b: int, c: int)
    requires a <= b && c >= 0
    ensures a * c <= b * c
  {
    assert b * c - a * c == (b - a) * c;
  }

  /** Quotient and remainder by a positive divisor are unique. */
  lemma DivModUnique(i: int, d: int, q: int, r: int)
    requires d > 0 && 0 <= r < d && i == q * d + r
    ensures i / d == q && i % d == r
  {
    var q', r' := i / d, i % d;
    assert (q - q') * d == r' - r;
    if q - q' >= 1 {
      MulLeft(1, q - q', d);
    } else if q - q' <= -1 {
      MulLeft(1, q' - q, d);
    }
  }

  /** Row-major addressing sends sample (xx, yy) to a valid index, and that
      index gives back its column and row: no two samples share an index. */
  lemma RowMajorIndex(width: int, height: int, xx: int, yy: int)
    requires width > 0 && height >= 0
    requires 0 <= xx < width && 0 <= yy < height
    ensures 0 <= yy * width + xx < width * height
    ensures (yy * width + xx) % width == xx
    ensures (yy * width + xx) / width == yy
  {
    MulLeft(yy + 1, height, width);
    MulLeft(0, yy, width);
    DivModUnique(yy * width + xx, width, yy, xx);
  }

  /** Every buffer index is the index of some sample of the grid. */
  lemma RowMajorOnto(width: int, height: int, i: int)
    requires width > 0 && height >= 0
    requires 0 <= i < width * height
    ensures 0 <= i % width < width && 0 <= i / width < height
    ensures (i / width) * width + i % width == i
  {
    var q := i / width;
    if q >= height {
      MulLeft(height, q, width);
    }
  }

  /** Entry yy * width + xx of a row-major grid is sample (xx, yy). */
  lemma RowMajorAt(width: int, height: int, sample: (int, int) -> real, xx: int, yy: int)
    requires width > 0 && height >= 0
    requires 0 <= xx < width && 0 <= yy < height
    ensures 0 <= yy * width + xx < width * height
    ensures RowMajor(width, height, sample)[yy * width + xx] == sample(xx, yy)
  {
    RowMajorIndex(width, height, xx, yy);
  }

  /** Entry yy * width + xx of a tile is the sample of column xx, row yy. */
  lemma TileSpecAt(terrain: Terrain, x: int, y: int, level: nat, width: int, height: int, xx: int, yy: int)
    requires width >= 2 && height >= 2
    requires 0 <= xx < width && 0 <= yy < height
    ensures 0 <= yy * width + xx < width * height
    ensures TileSpec(terrain, x, y, level, width, height)[yy * width + xx]
         == Sample(terrain, x, y, level, width, height, xx, yy)
  {
    RowMajorAt(width, height, SampleFn(terrain, x, y, level, width, height), xx, yy);
  }

  /** The nested loop both generators run: allocate a zeroed buffer of
      width * height samples and store each sample at its row-major index,
      rows in the outer loop. The invariants show that the writes happen in
      index order, one per index: the prefix before the current index holds
      its samples and the rest of the buffer is still zero. */
  method FillRowMajor(width: int, height: int, sample: (int, int) -> real) returns (buffer: array<real>)
    requires width > 0 && height >= 0
    ensures fresh(buffer)
    ensures buffer.Length == width * height
    ensures buffer[..] == RowMajor(width, height, sample)
  {
    ghost var grid := RowMajor(width, height, sample);
    buffer := new real[width * height](_ => 0.0);
    for yy := 0 to height
      invariant yy * width <= width * height
      invariant forall i :: 0 <= i < yy * width ==> buffer[i] == grid[i]
      invariant forall i :: yy * width <= i < width * height ==> buffer[i] == 0.0
    {
      MulLeft(yy + 1, height, width);
      for xx := 0 to width
        invariant yy * width + xx <= width * height
        invariant forall i :: 0 <= i < yy * width + xx ==> buffer[i] == grid[i]
        invariant forall i :: yy * width + xx <= i < width * height ==> buffer[i] == 0.0
      {
        RowMajorAt(width, height, sample, xx, yy);
        var index := yy * width + xx;
        buffer[index] := sample(xx, yy);
      }
      assert yy * width + width == (yy + 1) * width;
    }
  }

  /** The example's noise provider: a 32 x 32 tile of fractal terrain, every
      sample between 0 and 9000. */
  method NoiseTile(x: int, y: int, level: nat) returns (buffer: array<real>)
    ensures fresh(buffer)
    ensures buffer.Length == TileWidth * TileHeight == 1024
    ensures buffer[..] == TileSpec(NoiseTerrain, x, y, level, TileWidth, TileHeight)
    ensures forall i :: 0 <= i < buffer.Length ==> 0.0 <= buffer[i] <= 9000.0
  {
    buffer := FillRowMajor(TileWidth, TileHeight, SampleFn(NoiseTerrain, x, y, level, TileWidth, TileHeight));
    NoiseTileInRange(x, y, level, TileWidth, TileHeight);
    assert forall i :: 0 <= i < buffer.Length ==> buffer[i] in buffer[..];
  }

  /** The example's sine provider: a 32 x 32 tile of ridged terrain, every
      sample between 0 and 4000 when the sine stays in [-1, 1]. */
  method SineTile(sin: real -> real, x: int, y: int, level: nat) returns (buffer: array<real>)
    ensures fresh(buffer)
    ensures buffer.Length == TileWidth * TileHeight == 1024
    ensures buffer[..] == TileSpec(SineTerrain(sin), x, y, level, TileWidth, TileHeight)
    ensures UnitRange(sin) ==> forall i :: 0 <= i < buffer.Length ==> 0.0 <= buffer[i] <= 4000.0
  {
    buffer := FillRowMajor(TileWidth, TileHeight, SampleFn(SineTerrain(sin), x, y, level, TileWidth, TileHeight));
    if UnitRange(sin) {
      SineTileInRange(sin, x, y, level, TileWidth, TileHeight);
      assert forall i :: 0 <= i < buffer.Length ==> buffer[i] in buffer[..];
    }
  }

  /** Every sample of a noise tile lies in [0, 9000]. */
  lemma NoiseTileInRange(x: int, y: int, level: nat, width: int, height: int)
    requires width >= 2 && height >= 2
    ensures forall e :: e in TileSpec(NoiseTerrain, x, y, level, width, height) ==> 0.0 <= e <= 9000.0
  {
    var s := TileSpec(NoiseTerrain, x, y, level, width, height);
    forall e | e in s
      ensures 0.0 <= e <= 9000.0
    {
      var i :| 0 <= i < |s| && s[i] == e;
      RowMajorOnto(width, height, i);
    }
  }

  /** With a sine that stays in [-1, 1], every sample of a sine tile lies in
      [0, 4000]. */
  lemma SineTileInRange(sin: real -> real, x: int, y: int, level: nat, width: int, height: int)
    requires width >= 2 && height >= 2
    requires UnitRange(sin)
    ensures forall e :: e in TileSpec(SineTerrain(sin), x, y, level, width, height) ==> 0.0 <= e <= 4000.0
  {
    var s := TileSpec(SineTerrain(sin), x, y, level, width, height);
    forall e | e in s
      ensures 0.0 <= e <= 4000.0
    {
      var i :| 0 <= i < |s| && s[i] == e;
      RowMajorOnto(width, height, i);
      SineSampleRange(sin, y, level, height, i / width);
    }
  }

  /** A sine tile depends on the row only: all samples of a row are equal. */
  lemma SineRowsAreLevel(sin: real -> real, x: int, y: int, level: nat, width: int, height: int, xx: int, yy: int)
    requires width >= 2 && height >= 2
    requires 0 <= xx < width && 0 <= yy < height
    ensures 0 <= yy * width + xx < width * height
    ensures TileSpec(SineTerrain(sin), x, y, level, width, height)[yy * width + xx]
         == TileSpec(SineTerrain(sin), x, y, level, width, height)[yy * width]
  {
    TileSpecAt(SineTerrain(sin), x, y, level, width, height, xx, yy);
    TileSpecAt(SineTerrain(sin), x, y, level, width, height, 0, yy);
    assert yy * width + 0 == yy * width;
  }

  lemma SampleColumnEdge(terrain: Terrain, x: int, y: int, level: nat, width: int, height: int, yy: int)
    requires width >= 2 && height >= 2
    ensures Sample(terrain, x, y, level, width, height, width - 1, yy)
         == Sample(terrain, x + 1, y, level, width, height, 0, yy)
  {
    SharedEdge(x, width, level);
  }

  lemma SampleRowEdge(terrain: Terrain, x: int, y: int, level: nat, width: int, height: int, xx: int)
    requires width >= 2 && height >= 2
    ensures Sample(terrain, x, y, level, width, height, xx, height - 1)
         == Sample(terrain, x, y + 1, level, width, height, xx, 0)
  {
    SharedEdge(y, height, level);
  }

  /** Edge continuity across columns: the last column of tile (x, y) equals
      the first column of tile (x + 1, y) at the same level, row by row. */
  lemma NeighbourColumnsAgree(terrain: Terrain, x: int, y: int, level: nat, width: int, height: int, yy: int)
    requires width >= 2 && height >= 2
    requires 0 <= yy < height
    ensures 0 <= yy * width + (width - 1) < width * height
    ensures TileSpec(terrain, x, y, level, width, height)[yy * width + (width - 1)]
         == TileSpec(terrain, x + 1, y, level, width, height)[yy * width]
  {
    TileSpecAt(terrain, x, y, level, width, height, width - 1, yy);
    assert TileSpec(terrain, x, y, level, width, height)[yy * width + (width - 1)]
        == Sample(terrain, x, y, level, width, height, width - 1, yy);
    TileSpecAt(terrain, x + 1, y, level, width, height, 0, yy);
    assert TileSpec(terrain, x + 1, y, level, width, height)[yy * width + 0]
        == Sample(terrain, x + 1, y, level, width, height, 0, yy);
    SampleColumnEdge(terrain, x, y, level, width, height, yy);
  }

  /** Edge continuity across rows: the last row of tile (x, y) equals the
      first row of tile (x, y + 1) at the same level, column by column. */
  lemma NeighbourRowsAgree(terrain: Terrain, x: int, y: int, level: nat, width: int, height: int, xx: int)
    requires width >= 2 && height >= 2
    requires 0 <= xx < width
    ensures 0 <= (height - 1) * width + xx < width * height
    ensures TileSpec(terrain, x, y, level, width, height)[(height - 1) * width + xx]
         == TileSpec(terrain, x, y + 1, level, width, height)[xx]
  {
    TileSpecAt(terrain, x, y, level, width, height, xx, height - 1);
    assert TileSpec(terrain, x, y, level, width, height)[(height - 1) * width + xx]
        == Sample(terrain, x, y, level, width, height, xx, height - 1);
    TileSpecAt(terrain, x, y + 1, level, width, height, xx, 0);
    assert 0 * width + xx == xx;
    assert TileSpec(terrain, x, y + 1, level, width, height)[xx]
        == Sample(terrain, x, y + 1, level, width, height, xx, 0);
    SampleRowEdge(terrain, x, y, level, width, height, xx);
  }
}
