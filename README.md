# Cave generator and paint accounting, in Dafny

This project models two parts of a Unity game: the marching-squares cave-wall
generator `SquareMarcher.s_CreateCave`, and the paint-area bookkeeping of a
sprayable surface, `DrawableBehaviour.Count` and the painting operations that
end in it.

- `canonical.dfy`, module `CaveTables`. The canonical points of one cell
  (`TL` .. `R` on the cap plane, `dTL` .. `dR` dropped to the foot of a wall),
  written as integer triples. It also holds the two constant 16-entry tables,
  the wall quads and the cap triangles, and the case-code bit layout. The
  lemmas check the shape of the tables over all 16 cases:
  - lengths and the two saddle cases;
  - the `P, Q, dP, dP, Q, dQ` quad layout;
  - walls on crossed edges, facing the solid side;
  - caps in whole triangles, wound one way, covering the solid corners.
- `marcher.dfy`, module `SquareMarcher`. The generator itself, as imperative
  methods that follow the source's loops:
  - the x and y scan over cell centres;
  - the case-code filter;
  - the cap and wall emission loops, including the wall-segment loop that
    runs once;
  - the debug cap mesh arrays;
  - the stride-6 placement loop.

  Each method is proved against specification functions (`CellOut`,
  `ColumnOut`, `GridOut`, `PlacementOf`). Lemmas state what the output then
  satisfies: every wall group is a lifted quad, and every plane stands
  upright half way up the wall. They also cover the uniform-field cases.
- `paint.dfy`, module `ColorCount`. A `Drawable` class whose fields are:
  - the shared seven-slot totals (the static `GlobalColorCountBuffer`);
  - the surface's own seven-slot count;
  - the collider scale;
  - the noise seed;
  - a ghost log of the GPU kernels dispatched.

  `Count` is modelled with its two loops. The six mutators are modelled as
  well, and each ends in `Count`. The collider-to-surface texture mapping is
  also included. A scene of surfaces sharing the totals carries the
  conservation invariant: every total is the sum of that slot over the
  surfaces.

The noise field is the parameter `sample: (real, real) -> real`. The GPU count
is the parameter `recount`, the seven numbers the counting kernel leaves in
the surface's buffer. The random seed draw is the parameter `draw`.
Coordinates and sizes are exact reals.

Three facts about the code that the model keeps as written:
- **Cap for case 15.** Case 15, all four corners solid, has no walls but the
  full two-triangle square as its cap (`TopShape`).
- **No validation.** The code validates no setting of the configuration. The
  model's `WellFormed` precondition stands in for that (see "Left out").
- **Erase.** `Erase` does not go through `calculateSprayUV`. It uses its own
  map, `(uv - 0.25) * 2`, and dispatches kernel 2, the same kernel as
  `Uncoat`.

## Model

| member | source | states |
|---|---|---|
| CaveTables.DecodeCode | Assets/Scripts-Color/Scripts/SquareMarcher.cs:343-348 | decoding the case code of a corner pattern gives the pattern back (bit k is corner k) |
| CaveTables.CodeDecode | Assets/Scripts-Color/Scripts/SquareMarcher.cs:343-348 | every code below 16 is the case code of the pattern it decodes to; codes and patterns correspond one to one |
| CaveTables.WallTable | Assets/Scripts-Color/Scripts/SquareMarcher.cs:82-199 | the sixteen wall entries, entry by entry as in the source; their shape is stated by the lemmas below |
| CaveTables.TopTable | Assets/Scripts-Color/Scripts/SquareMarcher.cs:201-313 | the sixteen cap entries, entry by entry as in the source; their shape is stated by the lemmas below |
| CaveTables.WallLengths | Assets/Scripts-Color/Scripts/SquareMarcher.cs:82-199 | uniform cells (no or four solid corners) have no walls, the two saddle patterns have 12 wall vertices, every other pattern 6 |
| CaveTables.SaddleCodes | Assets/Scripts-Color/Scripts/SquareMarcher.cs:125-156 | a pattern is a saddle (two diagonal corners solid) exactly when its code is 6 or 9 |
| CaveTables.WallGroupsAreQuads | Assets/Scripts-Color/Scripts/SquareMarcher.cs:82-199 | every group of six wall vertices is P, Q, dP, dP, Q, dQ for two distinct edge midpoints P and Q |
| CaveTables.WallEntryHeights | Assets/Scripts-Color/Scripts/SquareMarcher.cs:82-199 | every wall entry is whole groups of six (so whole triangles), every vertex at canonical height 0 or -1 |
| CaveTables.WallOnCrossedEdges | Assets/Scripts-Color/Scripts/SquareMarcher.cs:82-199 | both ends of every wall segment are midpoints of crossed edges (one solid and one empty end) |
| CaveTables.CrossedEdgesHaveWalls | Assets/Scripts-Color/Scripts/SquareMarcher.cs:82-199 | conversely, the midpoint of every crossed edge is an end of some wall segment |
| CaveTables.WallFacesSolid | Assets/Scripts-Color/Scripts/SquareMarcher.cs:82-199 | every corner strictly left of a segment P -> Q is solid; outside the saddles every corner strictly right of it is empty |
| CaveTables.WallWidths | Assets/Scripts-Color/Scripts/SquareMarcher.cs:82-199 | in canonical units (cell side 2) a segment has squared length 4, a full cell across, when exactly two adjacent corners are solid, and 2, a corner cut, otherwise |
| CaveTables.TablesWellShaped | Assets/Scripts-Color/Scripts/SquareMarcher.cs:82-313 | both tables have 16 entries, the wall entries are whole lifted-quad groups at heights 0 or -1 and the cap entries whole triangles |
| CaveTables.TopShape | Assets/Scripts-Color/Scripts/SquareMarcher.cs:201-313 | every cap entry is at most three whole triangles on the cap plane, only case 0 is empty, and case 15 is the square TL, TR, BL, TR, BR, BL |
| CaveTables.TopWinding | Assets/Scripts-Color/Scripts/SquareMarcher.cs:201-313 | every cap triangle has negative signed area seen from above: all are wound the same way |
| CaveTables.TopOnSolid | Assets/Scripts-Color/Scripts/SquareMarcher.cs:201-313 | every cap vertex is a solid corner or the midpoint of a crossed edge |
| CaveTables.SolidCornerCapped | Assets/Scripts-Color/Scripts/SquareMarcher.cs:201-313 | every solid corner of a cell is a vertex of its cap |
| SquareMarcher.Step | Assets/Scripts-Color/Scripts/SquareMarcher.cs:325 | the cell step size / wallResolution is positive |
| SquareMarcher.HalfStep | Assets/Scripts-Color/Scripts/SquareMarcher.cs:327 | the half step is positive and two of them make a step |
| SquareMarcher.DefaultSpecShape | Assets/Scripts-Color/Scripts/SquareMarcher.cs:32-48 | the parameterless settings (size 100, resolution 100, height 7) can be scanned, with half step 0.5, and give wall planes a height scale of 0.7 |
| SquareMarcher.Centre | Assets/Scripts-Color/Scripts/SquareMarcher.cs:340-341 | the scan variable after i increments: never left of the first centre -size/2 + halfStep, and strictly increasing, so no centre is visited twice |
| SquareMarcher.CentreClosed | Assets/Scripts-Color/Scripts/SquareMarcher.cs:340-341 | the scan variable after i steps is -size/2 + step/2 + i * step |
| SquareMarcher.ScanBound | Assets/Scripts-Color/Scripts/SquareMarcher.cs:340-341 | the loop test centre <= size/2 holds exactly for the first wallResolution cells, so each scan loop runs wallResolution times |
| SquareMarcher.Filter | Assets/Scripts-Color/Scripts/SquareMarcher.cs:335-338 | the filter is 1 exactly when the sample is strictly above the threshold, else 0 (a sample equal to it is empty) |
| SquareMarcher.CaseCode | Assets/Scripts-Color/Scripts/SquareMarcher.cs:343-348 | the assembled case code is below 16 |
| SquareMarcher.CaseCodeBits | Assets/Scripts-Color/Scripts/SquareMarcher.cs:343-348 | the case code is the code of the cell's corner pattern: bit 0 (x-h, y-h), bit 1 (x+h, y-h), bit 2 (x-h, y+h), bit 3 (x+h, y+h) |
| SquareMarcher.CornerSolid | Assets/Scripts-Color/Scripts/SquareMarcher.cs:335-348 | corner k is solid exactly when the sample at the corner's world position is strictly above the threshold |
| SquareMarcher.CapVerts | Assets/Scripts-Color/Scripts/SquareMarcher.cs:357-359 | one placed cap vertex per canonical one |
| SquareMarcher.Lift | Assets/Scripts-Color/Scripts/SquareMarcher.cs:381-383 | x and z are kept; a vertex at height 0 goes to `up`, any other to `down` |
| SquareMarcher.WallVerts | Assets/Scripts-Color/Scripts/SquareMarcher.cs:376-383 | one placed, lifted wall vertex per canonical one |
| SquareMarcher.EmitTops | Assets/Scripts-Color/Scripts/SquareMarcher.cs:354-365 | the triangle loop appends exactly the canonical cap vertices times halfStep plus (x, 0, y), in table order |
| SquareMarcher.EmitWalls | Assets/Scripts-Color/Scripts/SquareMarcher.cs:368-390 | the segment loop runs once with up = wallHeight and down = 0 and appends each wall vertex placed, at wallHeight when its canonical height is 0 and at 0 otherwise |
| SquareMarcher.LiftedVertex | Assets/Scripts-Color/Scripts/SquareMarcher.cs:380-383 | testing the placed height against 0 is testing the canonical height, because the half step is positive |
| SquareMarcher.CellCode | Assets/Scripts-Color/Scripts/SquareMarcher.cs:343-348 | the case code of cell (i, j) is below 16 |
| SquareMarcher.EmitCell | Assets/Scripts-Color/Scripts/SquareMarcher.cs:342-390 | one inner loop body: the offset becomes (x, 0, y) and exactly the cell's walls and caps are appended |
| SquareMarcher.ScanColumn | Assets/Scripts-Color/Scripts/SquareMarcher.cs:341-391 | the inner scan appends the cells of column i in y order |
| SquareMarcher.ScanGrid | Assets/Scripts-Color/Scripts/SquareMarcher.cs:340-391 | the nested scan produces the concatenation of every column, x outer and y inner |
| SquareMarcher.GridSize | Assets/Scripts-Color/Scripts/SquareMarcher.cs:340-391 | when every cell contributes k vertices the scan output has res * res * k |
| SquareMarcher.WallGroupLifted | Assets/Scripts-Color/Scripts/SquareMarcher.cs:376-383 | a canonical wall segment, placed, is a lifted quad: P and Q at wallHeight, their drops at 0, one side or one corner cut apart |
| SquareMarcher.CellQuads | Assets/Scripts-Color/Scripts/SquareMarcher.cs:368-391 | the walls of one cell are whole lifted quads |
| SquareMarcher.WallCellsAreQuads | Assets/Scripts-Color/Scripts/SquareMarcher.cs:368-391 | every cell's walls are whole lifted quads |
| SquareMarcher.GridQuads | Assets/Scripts-Color/Scripts/SquareMarcher.cs:340-391 | the walls of the first m columns are whole lifted quads |
| SquareMarcher.GridWallsAreQuads | Assets/Scripts-Color/Scripts/SquareMarcher.cs:340-391 | the whole wall list is lifted quads, so its length is a multiple of 6 and every index i..i+5 of the placement loop is in bounds |
| SquareMarcher.UniformCell | Assets/Scripts-Color/Scripts/SquareMarcher.cs:343-391 | a cell of a field above (or not above) the threshold everywhere has no walls |
| SquareMarcher.UniformFieldHasNoWalls | Assets/Scripts-Color/Scripts/SquareMarcher.cs:340-391 | a uniform field yields no wall vertices at all, hence no planes |
| SquareMarcher.SolidCell | Assets/Scripts-Color/Scripts/SquareMarcher.cs:353-366 | a cell of a field solid everywhere is capped by exactly the case-15 square TL, TR, BL, TR, BR, BL, placed at the cell's centre: six cap vertices |
| SquareMarcher.SolidFieldCapsEveryCell | Assets/Scripts-Color/Scripts/SquareMarcher.cs:340-366 | a field solid everywhere yields 6 * res * res cap vertices |
| SquareMarcher.QuadPlacement | Assets/Scripts-Color/Scripts/SquareMarcher.cs:425-450 | the plane of a lifted quad is centred half way up above the midpoint of P and Q, its up edge vertical with length wallHeight, its right edge horizontal, its squared width 4h²/100 or 2h²/100 for half step h, its squared height wallHeight²/100 |
| SquareMarcher.PlacementOf | Assets/Scripts-Color/Scripts/SquareMarcher.cs:433-450 | four times the position is v0 + v1 + v2 + v5; the right and up edges lead from v1 and v2 to v0; the squared x and z scales are the squared edge lengths over 100, and the y scale is 1 |
| SquareMarcher.ExtractPlacements | Assets/Scripts-Color/Scripts/SquareMarcher.cs:425-450 | one placement per group of six wall vertices, in order, with pos = (v0 + v1 + v2 + v5) / 4, edges v0 - v1 and v0 - v2, squared scale (\|v0 - v1\|² / 100, 1, \|v0 - v2\|² / 100) |
| SquareMarcher.BuildCapMesh | Assets/Scripts-Color/Scripts/SquareMarcher.cs:400-408 | the debug arrays have one entry per cap vertex, index i is i and UV i is the vertex's (x, z) |
| SquareMarcher.PlacementsStandUpright | Assets/Scripts-Color/Scripts/SquareMarcher.cs:425-450 | every plane placed from lifted quads has pos.y = wallHeight / 2, up = (0, wallHeight, 0) and scale.z² = wallHeight² / 100 |
| SquareMarcher.PlaceWalls | Assets/Scripts-Color/Scripts/SquareMarcher.cs:425-457 | the placement loop places every wall quad and every plane stands upright |
| SquareMarcher.CreateCave | Assets/Scripts-Color/Scripts/SquareMarcher.cs:320-460 | walls and caps are the scan of every cell in order, the debug mesh matches the caps, one upright plane per wall quad |
| ColorCount.ColliderScale | Assets/Assets-Color/Scripts/DrawableBehaviour.cs:230-236 | the collider scale is above 1 on both axes and scales the surface (10 * local scale) to the surface plus the 0.5 m margin |
| ColorCount.SprayUV | Assets/Assets-Color/Scripts/DrawableBehaviour.cs:277-282 | the offset of the result from the centre (0.5, 0.5) is the input's offset stretched by the collider scale, axis by axis |
| ColorCount.EraseUV | Assets/Assets-Color/Scripts/DrawableBehaviour.cs:341-342 | halving the result and adding 0.25 gives the input back, on both axes |
| ColorCount.SprayKeepsCentre | Assets/Assets-Color/Scripts/DrawableBehaviour.cs:277-282 | the spray map sends (0.5, 0.5) to itself |
| ColorCount.SprayRoundTrip | Assets/Assets-Color/Scripts/DrawableBehaviour.cs:277-282 | for a non-zero collider scale the spray map and its inverse undo each other |
| ColorCount.SprayOnSurface | Assets/Assets-Color/Scripts/DrawableBehaviour.cs:277-282 | a collider coordinate lands on the texture [0, 1] exactly when it is within 0.5 / scale of the centre |
| ColorCount.ColliderRim | Assets/Assets-Color/Scripts/DrawableBehaviour.cs:229-238 | the collider's rim maps half a margin outside the surface edge, in surface texture units |
| ColorCount.EraseInverse | Assets/Assets-Color/Scripts/DrawableBehaviour.cs:339-342 | the eraser map reaches w from w / 2 + 0.25 and from nowhere else |
| ColorCount.TotalAppend | Assets/Assets-Color/Scripts/DrawableBehaviour.cs:129 | one more surface adds its count to every total |
| ColorCount.TotalUpdate | Assets/Assets-Color/Scripts/DrawableBehaviour.cs:383-397 | replacing one surface's count changes each total by the new minus the old count |
| ColorCount.Recount | Assets/Assets-Color/Scripts/DrawableBehaviour.cs:376-399 | the totals after a recount keep seven slots |
| ColorCount.RecountIdempotent | Assets/Assets-Color/Scripts/DrawableBehaviour.cs:389-397 | recounting again with an unchanged count leaves the totals unchanged |
| ColorCount.RecountConserves | Assets/Assets-Color/Scripts/DrawableBehaviour.cs:376-399 | if the totals are the sums of the surfaces' counts before one surface recounts, they are afterwards |
| ColorCount.AddConserves | Assets/Assets-Color/Scripts/DrawableBehaviour.cs:159-161 | a new surface, counted from zero, keeps the totals the sums of the counts |
| ColorCount.Drawable.constructor | Assets/Assets-Color/Scripts/DrawableBehaviour.cs:153-244 | the new surface's count starts at zero, Clear recounts it into the totals, the collider scale is set and the seed is unset |
| ColorCount.Drawable.Count | Assets/Assets-Color/Scripts/DrawableBehaviour.cs:376-399 | the local count becomes the recount, each total changes by exactly recount minus old count, one counting dispatch, nothing else changes |
| ColorCount.Drawable.CalculateSprayUV | Assets/Assets-Color/Scripts/DrawableBehaviour.cs:277-282 | the step-by-step rewrite computes the spray map with the surface's collider scale |
| ColorCount.Drawable.Clear | Assets/Assets-Color/Scripts/DrawableBehaviour.cs:266-271 | dispatches the clearing kernel, then recounts |
| ColorCount.Drawable.Draw | Assets/Assets-Color/Scripts/DrawableBehaviour.cs:289-299 | dispatches the painting kernel at the sprayed coordinate, then recounts |
| ColorCount.Drawable.Coat | Assets/Assets-Color/Scripts/DrawableBehaviour.cs:306-316 | dispatches the coating kernel at the sprayed coordinate, then recounts |
| ColorCount.Drawable.Uncoat | Assets/Assets-Color/Scripts/DrawableBehaviour.cs:323-332 | dispatches the uncoating kernel at the sprayed coordinate, then recounts |
| ColorCount.Drawable.Erase | Assets/Assets-Color/Scripts/DrawableBehaviour.cs:339-349 | dispatches kernel 2 at the eraser's coordinate, then recounts |
| ColorCount.Drawable.RandomizeColor | Assets/Assets-Color/Scripts/DrawableBehaviour.cs:355-369 | draws the seed only while it is 0, keeps it in [0, 100000), dispatches the noise kernel, then recounts |
| ColorCount.CountSurface | Assets/Assets-Color/Scripts/DrawableBehaviour.cs:376-399 | one surface of a scene recounting keeps every total the sum of the surfaces' counts, and only that surface's count changes |
| ColorCount.DrawSurface | Assets/Assets-Color/Scripts/DrawableBehaviour.cs:289-299 | one surface of a scene painting, and recounting after it, keeps every total the sum of the surfaces' counts; only that surface's count changes, and its log gains the painting and counting dispatches |
| ColorCount.AddSurface | Assets/Assets-Color/Scripts/DrawableBehaviour.cs:153-161 | a surface joining the scene keeps every total the sum of the surfaces' counts |

## Left out

- The noise field. `Noise.samplePerlinNoise2x1` is floating-point code over a foreign Perlin primitive and a global seed. It is the parameter `sample`, and the `CaveSpec` noise settings are not modelled.
- The commented-out radial falloff in the filter is not modelled. Neither are the unused `mid`, `A`, `B`, `Power`, `half3Step` and `m_OffsetVec0`.
- Floating point. Coordinates, sizes and UVs are exact reals. Single-precision rounding, including the accumulated `x += step` of the scan loops, is not modelled.
- SquareMarcher.CreateCave: requires `size > 0` and `wallResolution > 0`, because the source validates neither. With size 0 the float step is 0, so the loop variable never advances and the scan never ends. With a negative size and a non-zero resolution the first centre, -halfSize + halfStep, is already above halfSize (SquareMarcher.cs:340), so the source scans no cell and returns no planes; the inspector's `[Range(1.0f, 1000.0f)]` on `size` (:17) keeps such values out of settings edited there. With resolution 0 the step is an infinite float and the source scans no cell and returns no planes; that empty output is easy to state, but the infinite step it comes from has no counterpart among exact reals. With a negative `wallResolution` the step is negative (:325), so `x` only decreases and the test `x <= halfSize` (:340) always holds: the source never terminates.
- SquareMarcher.ExtractPlacements: keeps the rotation as the two unnormalised edge vectors it is built from, because normalisation, the cross product and `Quaternion.LookRotation` are foreign float code. For the same reason the scale is stated squared, without the `Vector3.Distance` square root.
- Unity objects are not modelled: the `Mesh` of the debug cap, the `GameObject`s, `Destroy`, and the transform assignments. The model returns the vertex lists, the debug index and UV arrays, and the placements instead.
- The static scratch buffer `m_TmpTriangle` becomes the locals `t0`, `t1`, `t2` of the emission loops, since its contents between calls are never observed. The static `m_Offset` is threaded through `EmitCell`, `ScanColumn` and `ScanGrid` as a parameter and a result. Its `y` is never written, so it stays 0.
- The GPU. What each compute kernel paints or counts is not modelled. The counting kernel's result is the parameter `recount`. The brush radius, colour, noise scale and noise offset handed to the shader are not recorded. Only the kernel index and the texture coordinate are.
- The texture and material setup of `Awake` is not modelled, and neither is its size assertion. Drawable.constructor requires a positive local scale. A scale of zero or less gives the draw and coat textures a width or height of zero or less (DrawableBehaviour.cs:173-174, :185-186), which no texture can have. A scale of exactly zero also divides by zero in the collider scale (:236).
- `OnDestroy` disposes the GPU buffer without taking the surface's count out of the totals. Conservation is therefore stated only for scenes whose surfaces are never destroyed.
- Kernels 0 to 4 are assumed to leave the count buffer alone. The source binds `ColorCountBuffer` to all six kernels (DrawableBehaviour.cs:217-222), and `Count` subtracts whatever it reads back (:380). In the model the local count changes only inside `Count`, so the subtraction always removes exactly the last recount. If another kernel wrote to the buffer, the totals would drift, and the conservation results (`RecountConserves`, `CountSurface`, `DrawSurface`, `AddSurface`) would not hold.
- `OnValidate` and `Update` are left out. They are an editor hook and a key press, and both only call `randomizeColor`, which is modelled.
- Drawable.Count: uses unbounded integers, not C#'s wrapping 32-bit `int`. No overflow bound comes from the source. The size check in `Awake` is a Unity `Assert`, which is compiled only into editor and development builds, and default cave walls (local scale z = 0.7, so 200 * 10 * 0.7 = 1400 texels) already exceed it. The totals stay in 32-bit range only while the sum of all surfaces' texel counts stays below 2^31, assuming the counting kernel counts each texel at most once.
- The colour tables `ColorStrings`, `Boje` and `Colors`, and the `ColorIndex` enum, are display data. `Resolution` and `SCALE_FACTOR` only feed the GPU. None of them is modelled.
