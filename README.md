# Procedural heightmap terrain, modelled in Dafny

This project models the procedural terrain example of the cesiumjs4gwt showcase.
That example gives the globe's terrain engine two heightmap tile generators. The
engine asks a generator for tile `(x, y, level)` of its quadtree. The generator
returns a row-major buffer of 32 x 32 elevation samples.

- The **noise** generator maps each sample to a point `(u, v)` of a continuous
  noise space and scales it. It evaluates six octaves of hashed-lattice value
  noise at that point (fractal Brownian motion). It remaps the sum to `[0, 1]`,
  squares it, and multiplies by 9000.
- The **sine** generator uses only the row coordinate `v`:
  `4000 * (sin(8000 v) * 0.5 + 0.5)`.

The Java `double` arithmetic is modelled over exact `real`s. `Math.floor` becomes
`.Floor`, and `Math.pow(2, level)` becomes `Pow2(level)`.

Files:

- `noise.dfy`, module `ValueNoise`: `Fract`, `Smoothstep`, `Hash`, `Lerp`,
  `Noise`, `Fbm`, the shaping step `PointyShape`, and `TerrainNoise`.
- `tiles.dfy`, module `TileAddressing`: how a tile's samples map into noise
  space. Along each axis this is `(tile + sample / (samples - 1)) / 2^level`.
  The module also proves edge continuity and level-of-detail facts.
- `heightmap.dfy`, module `HeightmapProvider`: the per-sample elevations of both
  generators, and the row-major layout `RowMajor` with its index bijection.
  `FillRowMajor` is the nested `for yy / for xx` loop that fills a freshly
  allocated buffer. `NoiseTile` and `SineTile` are the two configured 32 x 32
  generators. The module proves range bounds and seam-free borders between
  neighbouring tiles.

Determinism needs no lemma. Every generator is a function of its tile address
(and, for the sine generator, of the sine it is given).

What the code does and does not do:

- The code does not check `x < 2^level` or `y < 2^level`; any tile address
  yields a buffer, so the model has no error path.
- Width and height are fixed at 32 and not validated. The lemmas take them as
  parameters and require at least 2, which keeps `width - 1` non-zero.
- `fbm` is a fixed six-term sum whose amplitudes add up to 0.984375.
- The elevation is the scaled noise or sine value itself; there is no height
  offset.

## Model

| member | source | states |
|---|---|---|
| ValueNoise.Fract | cesiumjs4gwt-showcase/src/main/java/org/cleanlogic/cesiumjs4gwt/showcase/examples/ProceduralTerrain.java:130-132 | the fractional part lies in [0, 1) and `x - fract(x)` is an integer |
| ValueNoise.FractOfIntegerOffset | cesiumjs4gwt-showcase/src/main/java/org/cleanlogic/cesiumjs4gwt/showcase/examples/ProceduralTerrain.java:130-132 | for an integer n with n <= x < n + 1, fract(x) = x - n and floor(x) = n, so x - fract(x) is exactly floor(x) |
| ValueNoise.Smoothstep | cesiumjs4gwt-showcase/src/main/java/org/cleanlogic/cesiumjs4gwt/showcase/examples/ProceduralTerrain.java:134-136 | on [0, 1] smoothstep stays in [0, 1]; smoothstep(0) = 0 and smoothstep(1) = 1 |
| ValueNoise.SmoothstepSymmetric | cesiumjs4gwt-showcase/src/main/java/org/cleanlogic/cesiumjs4gwt/showcase/examples/ProceduralTerrain.java:134-136 | smoothstep(1 - t) = 1 - smoothstep(t) |
| ValueNoise.SmoothstepMonotonic | cesiumjs4gwt-showcase/src/main/java/org/cleanlogic/cesiumjs4gwt/showcase/examples/ProceduralTerrain.java:134-136 | smoothstep is non-decreasing on [0, 1], so smoothed interpolation keeps the order of the corners |
| ValueNoise.Hash | cesiumjs4gwt-showcase/src/main/java/org/cleanlogic/cesiumjs4gwt/showcase/examples/ProceduralTerrain.java:138-143 | the lattice hash lies in [-1, 1) for every input, as the "-1 to +1" comment says |
| ValueNoise.HashAtOrigin | cesiumjs4gwt-showcase/src/main/java/org/cleanlogic/cesiumjs4gwt/showcase/examples/ProceduralTerrain.java:138-143 | hash(0, 0) = -1 + 2 * fract(35.5 * 5.65 * 41.15) = 0.3225 |
| ValueNoise.Lerp | cesiumjs4gwt-showcase/src/main/java/org/cleanlogic/cesiumjs4gwt/showcase/examples/ProceduralTerrain.java:145-147 | for t in [0, 1], lerp(p, q, t) lies between min(p, q) and max(p, q); lerp(p, q, 0) = p and lerp(p, q, 1) = q |
| ValueNoise.Corner | cesiumjs4gwt-showcase/src/main/java/org/cleanlogic/cesiumjs4gwt/showcase/examples/ProceduralTerrain.java:157-160 | definition of the four corner hashes at (floor x + dx, floor y + dy); each lies in [-1, 1); `Noise` states how they bound the noise |
| ValueNoise.Noise | cesiumjs4gwt-showcase/src/main/java/org/cleanlogic/cesiumjs4gwt/showcase/examples/ProceduralTerrain.java:149-163 | value noise lies between the smallest and the largest of its four lattice-corner hashes, hence in [-1, 1); at a lattice point it equals that point's hash |
| ValueNoise.Fbm | cesiumjs4gwt-showcase/src/main/java/org/cleanlogic/cesiumjs4gwt/showcase/examples/ProceduralTerrain.java:165-176 | the six-octave sum has absolute value at most 0.5 + 0.25 + ... + 0.015625 = 0.984375, inside the commented "-1 to +1" |
| ValueNoise.PointyShape | cesiumjs4gwt-showcase/src/main/java/org/cleanlogic/cesiumjs4gwt/showcase/examples/ProceduralTerrain.java:180-181 | remapping v to v/2 + 1/2 and squaring sends [-1, 1] into [0, 1], -1 to 0 and 1 to 1 |
| ValueNoise.TerrainNoise | cesiumjs4gwt-showcase/src/main/java/org/cleanlogic/cesiumjs4gwt/showcase/examples/ProceduralTerrain.java:178-183 | the terrain factor lies in [0, 1] for every point |
| TileAddressing.Pow2 | cesiumjs4gwt-showcase/src/main/java/org/cleanlogic/cesiumjs4gwt/showcase/examples/ProceduralTerrain.java:56-57 | 2^level is at least 1, so the division by it is defined |
| TileAddressing.TileCoord | cesiumjs4gwt-showcase/src/main/java/org/cleanlogic/cesiumjs4gwt/showcase/examples/ProceduralTerrain.java:56-57 | definition of the mapping (tile + sample / (samples - 1)) / 2^level used for u and v; `TileCoordWithinTile` states that every sample lies in [tile / 2^level, (tile + 1) / 2^level], `TileCoordIncreasing` its order, `SharedEdge` the shared border |
| TileAddressing.TileCoordWithinTile | cesiumjs4gwt-showcase/src/main/java/org/cleanlogic/cesiumjs4gwt/showcase/examples/ProceduralTerrain.java:56-57 | sample 0 sits at tile / 2^level, the last sample at (tile + 1) / 2^level, and every sample lies between them |
| TileAddressing.TileCoordIncreasing | cesiumjs4gwt-showcase/src/main/java/org/cleanlogic/cesiumjs4gwt/showcase/examples/ProceduralTerrain.java:56-57 | later samples map to strictly larger coordinates |
| TileAddressing.SharedEdge | cesiumjs4gwt-showcase/src/main/java/org/cleanlogic/cesiumjs4gwt/showcase/examples/ProceduralTerrain.java:56-57 | the last sample of tile t and the first sample of tile t + 1 at the same level have the same coordinate |
| TileAddressing.ExtentHalvesPerLevel | cesiumjs4gwt-showcase/src/main/java/org/cleanlogic/cesiumjs4gwt/showcase/examples/ProceduralTerrain.java:56-57 | a tile spans 1 / 2^level per axis; one level deeper the span halves and the area quarters |
| TileAddressing.ChildrenSubdivideParent | cesiumjs4gwt-showcase/src/main/java/org/cleanlogic/cesiumjs4gwt/showcase/examples/ProceduralTerrain.java:56-57 | tiles 2t and 2t + 1 at level + 1 exactly split tile t at level, meeting at its midpoint |
| HeightmapProvider.NoiseSample | cesiumjs4gwt-showcase/src/main/java/org/cleanlogic/cesiumjs4gwt/showcase/examples/ProceduralTerrain.java:56-59 | every noise-tile sample 9000 * terrainNoise(u * 1750 - 10, v * 1500) lies in [0, 9000] |
| HeightmapProvider.SineSample | cesiumjs4gwt-showcase/src/main/java/org/cleanlogic/cesiumjs4gwt/showcase/examples/ProceduralTerrain.java:76-78 | definition of the sine-tile sample 4000 * (sin(8000 v) * 0.5 + 0.5); it lies in [0, 4000] whenever the sine of that row's coordinate lies in [-1, 1] |
| HeightmapProvider.SineSampleRange | cesiumjs4gwt-showcase/src/main/java/org/cleanlogic/cesiumjs4gwt/showcase/examples/ProceduralTerrain.java:76-78 | with a sine in [-1, 1], every sine-tile sample lies in [0, 4000] |
| HeightmapProvider.Sample | cesiumjs4gwt-showcase/src/main/java/org/cleanlogic/cesiumjs4gwt/showcase/examples/ProceduralTerrain.java:54-78 | definition of the value each tile lambda stores for sample (xx, yy); a noise sample lies in [0, 9000], a sine sample in [0, 4000] when the sine stays in [-1, 1]; `SampleColumnEdge` and `SampleRowEdge` relate it across neighbouring tiles |
| HeightmapProvider.RowMajor | cesiumjs4gwt-showcase/src/main/java/org/cleanlogic/cesiumjs4gwt/showcase/examples/ProceduralTerrain.java:52 | the buffer has exactly width * height entries |
| HeightmapProvider.RowMajorIndex | cesiumjs4gwt-showcase/src/main/java/org/cleanlogic/cesiumjs4gwt/showcase/examples/ProceduralTerrain.java:61 | index yy * width + xx is in bounds and determines xx and yy, so no two samples share an index |
| HeightmapProvider.RowMajorOnto | cesiumjs4gwt-showcase/src/main/java/org/cleanlogic/cesiumjs4gwt/showcase/examples/ProceduralTerrain.java:52-61 | every buffer index is yy * width + xx for some sample of the grid |
| HeightmapProvider.RowMajorAt | cesiumjs4gwt-showcase/src/main/java/org/cleanlogic/cesiumjs4gwt/showcase/examples/ProceduralTerrain.java:61-62 | entry yy * width + xx of the layout is sample (xx, yy) |
| HeightmapProvider.TileSpec | cesiumjs4gwt-showcase/src/main/java/org/cleanlogic/cesiumjs4gwt/showcase/examples/ProceduralTerrain.java:51-88 | definition of the buffer a tile lambda returns: width * height entries; `TileSpecAt` states its contents and `NoiseTileInRange`/`SineTileInRange` its bounds |
| HeightmapProvider.TileSpecAt | cesiumjs4gwt-showcase/src/main/java/org/cleanlogic/cesiumjs4gwt/showcase/examples/ProceduralTerrain.java:54-62 | entry yy * width + xx of a tile is the elevation of column xx, row yy |
| HeightmapProvider.FillRowMajor | cesiumjs4gwt-showcase/src/main/java/org/cleanlogic/cesiumjs4gwt/showcase/examples/ProceduralTerrain.java:52-64 | the nested loop returns a fresh buffer of width * height entries equal to the row-major layout; its invariants show the writes go in index order, one per index |
| HeightmapProvider.NoiseTile | cesiumjs4gwt-showcase/src/main/java/org/cleanlogic/cesiumjs4gwt/showcase/examples/ProceduralTerrain.java:49-69 | the noise generator returns a fresh 1024-entry buffer of the tile's samples, each in [0, 9000] |
| HeightmapProvider.SineTile | cesiumjs4gwt-showcase/src/main/java/org/cleanlogic/cesiumjs4gwt/showcase/examples/ProceduralTerrain.java:71-88 | the sine generator returns a fresh 1024-entry buffer of the tile's samples, each in [0, 4000] when the sine stays in [-1, 1] |
| HeightmapProvider.NoiseTileInRange | cesiumjs4gwt-showcase/src/main/java/org/cleanlogic/cesiumjs4gwt/showcase/examples/ProceduralTerrain.java:52-62 | every entry of a noise tile of any size lies in [0, 9000] |
| HeightmapProvider.SineTileInRange | cesiumjs4gwt-showcase/src/main/java/org/cleanlogic/cesiumjs4gwt/showcase/examples/ProceduralTerrain.java:72-82 | every entry of a sine tile lies in [0, 4000] when the sine stays in [-1, 1] |
| HeightmapProvider.SineRowsAreLevel | cesiumjs4gwt-showcase/src/main/java/org/cleanlogic/cesiumjs4gwt/showcase/examples/ProceduralTerrain.java:74-81 | a sine tile depends on the row only: every sample of a row equals the row's first sample |
| HeightmapProvider.SampleColumnEdge | cesiumjs4gwt-showcase/src/main/java/org/cleanlogic/cesiumjs4gwt/showcase/examples/ProceduralTerrain.java:56-59 | the sample in the last column of tile (x, y) equals the sample in the first column of tile (x + 1, y), for either generator |
| HeightmapProvider.SampleRowEdge | cesiumjs4gwt-showcase/src/main/java/org/cleanlogic/cesiumjs4gwt/showcase/examples/ProceduralTerrain.java:56-59 | the sample in the last row of tile (x, y) equals the sample in the first row of tile (x, y + 1), for either generator |
| HeightmapProvider.NeighbourColumnsAgree | cesiumjs4gwt-showcase/src/main/java/org/cleanlogic/cesiumjs4gwt/showcase/examples/ProceduralTerrain.java:54-62 | the last column of tile (x, y) equals the first column of tile (x + 1, y) at the same level, row by row |
| HeightmapProvider.NeighbourRowsAgree | cesiumjs4gwt-showcase/src/main/java/org/cleanlogic/cesiumjs4gwt/showcase/examples/ProceduralTerrain.java:54-62 | the last row of tile (x, y) equals the first row of tile (x, y + 1) at the same level, column by column |

## Left out

- Floating point: samples, coordinates and noise are exact reals. The IEEE
  rounding of `double` arithmetic is not modelled, and neither is the `(float)`
  narrowing of each sample. Constants such as 0.3183099 are exact decimals, so
  `HashAtOrigin` holds over the reals, not bit for bit.
- The copy of the `float[]` buffer into a `Float32Array` is typed-array I/O. The
  model returns the filled `array<real>`.
- `Math.sin` is transcendental and is not modelled. The sine generator takes the
  sine as a function parameter. Its range bounds assume only that this function
  stays in [-1, 1].
- SineTile: its sample bound holds only under that [-1, 1] assumption about the
  sine parameter.
- The tile address: `x` and `y` are unbounded integers and `level` is a natural
  number. Integer overflow of `yy * width + xx` cannot happen at 32 x 32 and is
  not modelled.
- UI and viewer glue is not modelled: the list box that swaps the active
  terrain provider, the viewer and panel setup, the camera `setView` call and
  `getSourceCodeURLs`.
- The terrain engine that calls the generators, including any caching or
  concurrent requests, is outside the model.
- `Model.java`, `WebMapServiceImageryProvider.java`, `Frustum.java`,
  `DebugAppearanceOptions.java`, `ResourceJsonpOptions.java` and
  `TouchPinchMovementEvent.java` are native bindings with no logic of their own.
  None of them is part of this model.
- `Clouds.java` and `Tiles3DInspector.java` are engine and random-number wiring
  with no self-contained behaviour. Neither is part of this model.
