/** Tile addressing: where sample (xx, yy) of quadtree tile (x, y, level)
    lies in the continuous noise space. Along one axis the coordinate is
    (tile + sample / (samples - 1)) / 2^level. */
module TileAddressing {

  /** 2^level as a real, the number of tiles per axis at that level. */
  function Pow2(level: nat): (r: real)
    ensures r >= 1.0
  {
    if level == 0 then 1.0 else 2.0 * Pow2(level - 1)
  }

  /** Noise-space coordinate of sample `sample` of a tile with `samples`
      samples per axis, the tile having index `tile` at `level`. */
  function TileCoord(tile: int, sample: int, samples: int, level: nat): (r: real)
    requires samples >= 2
  {
    (tile as real + sample as real / (samples - 1) as real) / Pow2(level)
  }

  /** The first sample sits on the tile's lower edge tile / 2^level and the
      last sample on its upper edge (tile + 1) / 2^level; every sample in
      between lies between the two, and later samples lie further along. */
  lemma TileCoordWithinTile(tile: int, sample: int, samples: int, level: nat)
    requires samples >= 2
    requires 0 <= sample < samples
    ensures TileCoord(tile, 0, samples, level) == tile as real / Pow2(level)
    ensures TileCoord(tile, samples - 1, samples, level) == (tile + 1) as real / Pow2(level)
    ensures tile as real / Pow2(level) <= TileCoord(tile, sample, samples, level)
    ensures TileCoord(tile, sample, samples, level) <= (tile + 1) as real / Pow2(level)
  {
    var d := (samples - 1) as real;
    var f := sample as real / d;
    assert 0.0 <= f <= 1.0 by {
      DivBetween(sample as real, d);
    }
    assert 0 as real / d == 0.0;
    assert (samples - 1) as real / d == 1.0;
    DivMonotonic(tile as real, tile as real + f, Pow2(level));
    DivMonotonic(tile as real + f, tile as real + 1.0, Pow2(level));
  }

  /** Samples further along a tile map to strictly larger coordinates. */
  lemma TileCoordIncreasing(tile: int, s1: int, s2: int, samples: int, level: nat)
    requires samples >= 2
    requires s1 < s2
    ensures TileCoord(tile, s1, samples, level) < TileCoord(tile, s2, samples, level)
  {
    var d := (samples - 1) as real;
    DivStrict(s1 as real, s2 as real, d);
    DivStrict(tile as real + s1 as real / d, tile as real + s2 as real / d, Pow2(level));
  }

  /** Edge continuity: the last sample of tile t and the first sample of tile
      t + 1 at the same level land on the same coordinate, so neighbouring
      tiles share their border samples and no seam appears between them. */
  lemma SharedEdge(tile: int, samples: int, level: nat)
    requires samples >= 2
    ensures TileCoord(tile, samples - 1, samples, level) == TileCoord(tile + 1, 0, samples, level)
  {
    var d := (samples - 1) as real;
    assert (samples - 1) as real / d == 1.0;
  }

  /** Width of the noise-space interval one tile covers along an axis. */
  function TileExtent(samples: int, level: nat): (r: real)
    requires samples >= 2
  {
    TileCoord(0, samples - 1, samples, level) - TileCoord(0, 0, samples, level)
  }

  /** Level of detail: a tile at level + 1 covers half the width of a tile at
      level along each axis, hence a quarter of its area. */
  lemma ExtentHalvesPerLevel(samples: int, level: nat)
    requires samples >= 2
    ensures TileExtent(samples, level) == 1.0 / Pow2(level)
    ensures TileExtent(samples, level + 1) * 2.0 == TileExtent(samples, level)
    ensures TileExtent(samples, level + 1) * TileExtent(samples, level + 1) * 4.0
         == TileExtent(samples, level) * TileExtent(samples, level)
  {
    TileCoordWithinTile(0, 0, samples, level);
    TileCoordWithinTile(0, 0, samples, level + 1);
    var p := Pow2(level);
    assert Pow2(level + 1) == 2.0 * p;
    assert TileExtent(samples, level + 1) == 1.0 / (2.0 * p);
    var e := 1.0 / (2.0 * p);
    assert e * 2.0 == 1.0 / p;
  }

  /** Level of detail: tile t at level is split into tiles 2t and 2t + 1 at
      level + 1. The first child starts where the parent starts, the second
      ends where the parent ends, and the two children meet at the parent's
      midpoint, so the finer level refines the same continuous field. */
  lemma ChildrenSubdivideParent(tile: int, samples: int, level: nat)
    requires samples >= 2
    ensures TileCoord(2 * tile, 0, samples, level + 1) == TileCoord(tile, 0, samples, level)
    ensures TileCoord(2 * tile + 1, samples - 1, samples, level + 1)
         == TileCoord(tile, samples - 1, samples, level)
    ensures TileCoord(2 * tile, samples - 1, samples, level + 1)
         == TileCoord(2 * tile + 1, 0, samples, level + 1)
         == (TileCoord(tile, 0, samples, level) + TileCoord(tile, samples - 1, samples, level)) / 2.0
  {
    TileCoordWithinTile(tile, 0, samples, level);
    TileCoordWithinTile(2 * tile, 0, samples, level + 1);
    TileCoordWithinTile(2 * tile + 1, 0, samples, level + 1);
    var p := Pow2(level);
    assert Pow2(level + 1) == 2.0 * p;
    var t := tile as real;
    assert (2 * tile) as real / (2.0 * p) == t / p;
    assert (2 * tile + 2) as real / (2.0 * p) == (t + 1.0) / p;
    assert (2 * tile + 1) as real / (2.0 * p) == (t / p + (t + 1.0) / p) / 2.0;
  }

  lemma DivBetween(a: real, d: real)
    requires 0.0 <= a <= d && d > 0.0
    ensures 0.0 <= a / d <= 1.0
  {
    assert a / d * d == a;
  }

  lemma DivMonotonic(a: real, b: real, d: real)
    requires a <= b && d > 0.0
    ensures a / d <= b / d
  {
    assert b / d - a / d == (b - a) / d;
  }

  lemma DivStrict(a: real, b: real, d: real)
    requires a < b && d > 0.0
    ensures a / d < b / d
  {
    assert b / d - a / d == (b - a) / d;
  }
}
