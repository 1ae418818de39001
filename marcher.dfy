/** The marching-squares cave generator: a square of side `size`, centred on
    the origin, is cut into `wallResolution` x `wallResolution` cells; a scalar
    field sampled at the four corners of each cell picks a case code, the code
    picks canonical wall quads and cap triangles, and those are scaled and
    moved into the cell. Every wall quad then becomes one placed plane.

    Coordinates are exact reals. The noise field is a parameter `sample`. */
module SquareMarcher {
  import opened CaveTables

  datatype Vec3 = Vec3(x: real, y: real, z: real)
  datatype Vec2 = Vec2(x: real, y: real)

  /** The generator's settings; the seed and the noise settings only feed the
      field, which is given separately. */
  datatype CaveSpec = CaveSpec(seed: int, size: real, perlinThreshold: real, wallResolution: int, wallHeight: real)

  /** The parameterless settings (0.45 stands for the nearest single-precision
      float). */
  const DefaultSpec := CaveSpec(1, 100.0, 0.45, 100, 7.0)

  /** The scan terminates only for a positive size and resolution. */
  predicate WellFormed(cs: CaveSpec)
  {
    cs.size > 0.0 && cs.wallResolution > 0
  }

  function Step(cs: CaveSpec): (s: real)
    requires WellFormed(cs)
    ensures s > 0.0
  {
    cs.size / cs.wallResolution as real
  }

  function HalfStep(cs: CaveSpec): (h: real)
    requires WellFormed(cs)
    ensures h > 0.0 && h + h == Step(cs)
  {
    Step(cs) / 2.0
  }

  /** The default settings can be scanned: cells half a unit across each way
      from their centre, and walls whose planes are scaled 0.7 along their
      height. */
  lemma DefaultSpecShape()
    ensures WellFormed(DefaultSpec) && HalfStep(DefaultSpec) == 0.5
    ensures DefaultSpec.wallHeight / 10.0 == 0.7
  {
  }

  /** The centre coordinate of the i-th cell column (or row): the scan
      variable after i increments by one step. */
  function Centre(cs: CaveSpec, i: nat): (c: real)
    requires WellFormed(cs)
    ensures c >= -(cs.size / 2.0) + HalfStep(cs)
    ensures forall j: nat :: j < i ==> Centre(cs, j) < c
  {
    if i == 0 then -(cs.size / 2.0) + HalfStep(cs) else Centre(cs, i - 1) + Step(cs)
  }

  /** The centre of cell i in closed form. */
  lemma {:induction false} CentreClosed(cs: CaveSpec, i: nat)
    requires WellFormed(cs)
    ensures Centre(cs, i) == -(cs.size / 2.0) + HalfStep(cs) + i as real * Step(cs)
  {
    if i > 0 {
      CentreClosed(cs, i - 1);
      assert (i - 1) as real * Step(cs) + Step(cs) == i as real * Step(cs);
    }
  }

  /** The scan condition `centre <= size / 2` holds for exactly the first
      wallResolution cells, so each scan loop runs wallResolution times. */
  lemma ScanBound(cs: CaveSpec, i: nat)
    requires WellFormed(cs)
    ensures Centre(cs, i) <= cs.size / 2.0 <==> i < cs.wallResolution
  {
    var s, n := Step(cs), cs.wallResolution as real;
    CentreClosed(cs, i);
    assert cs.size == n * s;
    assert Centre(cs, i) == (i as real + 0.5) * s - n * s / 2.0;
    assert Centre(cs, i) - cs.size / 2.0 == (i as real + 0.5 - n) * s;
    var a := i as real + 0.5 - n;
    assert Centre(cs, i) - cs.size / 2.0 == a * s;
    if i < cs.wallResolution {
      assert a < 0.0;
      assert a * s < 0.0;
    } else {
      assert a > 0.0;
      assert a * s > 0.0;
    }
  }

  /** Whether the field is solid at (x, y): strictly above the threshold. */
  function Filter(sample: (real, real) -> real, threshold: real, x: real, y: real): (b: nat)
    ensures b == 1 <==> sample(x, y) > threshold
    ensures b <= 1
  {
    if sample(x, y) > threshold then 1 else 0
  }

  /** The solidity of the four corners of the cell centred at (x, y) with
      half side h. */
  function CornersAt(sample: (real, real) -> real, threshold: real, x: real, y: real, h: real): Corners
  {
    Corners(sample(x - h, y - h) > threshold, sample(x + h, y - h) > threshold,
            sample(x - h, y + h) > threshold, sample(x + h, y + h) > threshold)
  }

  /** The case code of a cell: the filter of corner k shifted left by k. */
  function CaseCode(sample: (real, real) -> real, threshold: real, x: real, y: real, h: real): (code: nat)
    ensures code < 16
  {
    Filter(sample, threshold, x - h, y - h) * 1
    + Filter(sample, threshold, x + h, y - h) * 2
    + Filter(sample, threshold, x - h, y + h) * 4
    + Filter(sample, threshold, x + h, y + h) * 8
  }

  /** Bit k of the case code is set exactly when corner k is solid. */
  lemma CaseCodeBits(sample: (real, real) -> real, threshold: real, x: real, y: real, h: real)
    ensures Decode(CaseCode(sample, threshold, x, y, h)) == CornersAt(sample, threshold, x, y, h)
    ensures CaseCode(sample, threshold, x, y, h) == Code(CornersAt(sample, threshold, x, y, h))
  {
  }

  /** Corner k of the cell centred at (x, y) is solid exactly when the field
      there is strictly above the threshold; a sample equal to it is empty. */
  lemma CornerSolid(sample: (real, real) -> real, threshold: real, x: real, y: real, h: real, k: nat)
    requires k < 4
    ensures Solid(CornersAt(sample, threshold, x, y, h), k)
      <==> sample(x + Corner(k).x as real * h, y + Corner(k).z as real * h) > threshold
  {
    var c := Corner(k);
    assert c.x == -1 || c.x == 1;
    assert c.z == -1 || c.z == 1;
    assert x + c.x as real * h == (if c.x == 1 then x + h else x - h);
    assert y + c.z as real * h == (if c.z == 1 then y + h else y - h);
  }

  /** The canonical vertex c scaled by h and moved by offset. */
  function Place(c: Canon, h: real, offset: Vec3): Vec3
  {
    Vec3(c.x as real * h + offset.x, c.y as real * h + offset.y, c.z as real * h + offset.z)
  }

  /** A wall vertex at cap level is raised to `up`, any other is set to `down`. */
  function Lift(p: Vec3, up: real, down: real): (r: Vec3)
    ensures r.x == p.x && r.z == p.z
    ensures p.y == 0.0 ==> r.y == up
    ensures p.y != 0.0 ==> r.y == down
  {
    p.(y := if p.y == 0.0 then up else down)
  }

  /** Canonical cap vertices scaled by the half step h and moved to the cell
      centre (x, 0, y). */
  function CapVerts(s: seq<Canon>, h: real, x: real, y: real): (r: seq<Vec3>)
    ensures |r| == |s|
  {
    seq(|s|, k requires 0 <= k < |s| => Place(s[k], h, Vec3(x, 0.0, y)))
  }

  /** Canonical wall vertices placed like the cap, with every cap-level vertex
      at the wall height and every dropped vertex on the floor. */
  function WallVerts(s: seq<Canon>, height: real, h: real, x: real, y: real): (r: seq<Vec3>)
    ensures |r| == |s|
  {
    seq(|s|, k requires 0 <= k < |s| => Place(s[k], h, Vec3(x, 0.0, y)).(y := if s[k].y == 0 then height else 0.0))
  }

  /** Appends the cap triangles of one cell, a triangle at a time. */
  method EmitTops(tops: seq<Vec3>, table: seq<Canon>, h: real, offset: Vec3) returns (r: seq<Vec3>)
    requires |table| % 3 == 0 && offset.y == 0.0
    ensures r == tops + CapVerts(table, h, offset.x, offset.z)
  {
    ghost var spec := CapVerts(table, h, offset.x, offset.z);
    ghost var n := |table| / 3;
    assert offset == Vec3(offset.x, 0.0, offset.z);
    r := tops;
    var i := 0;
    ghost var t := 0;
    while i < |table|
      invariant 0 <= t <= n && i == 3 * t
      invariant r == tops + spec[..i]
    {
      var t0 := Place(table[i], h, offset);
      var t1 := Place(table[i + 1], h, offset);
      var t2 := Place(table[i + 2], h, offset);
      assert t0 == spec[i] && t1 == spec[i + 1] && t2 == spec[i + 2];
      assert spec[..i + 3] == spec[..i] + [t0, t1, t2];
      r := r + [t0] + [t1] + [t2];
      i, t := i + 3, t + 1;
    }
    assert spec[..i] == spec;
  }

  /** Appends the wall triangles of one cell. The segment loop runs once, with
      up = height and down = 0; a vertex whose height after placing is 0 is a
      cap-level one, since h > 0. */
  method EmitWalls(walls: seq<Vec3>, table: seq<Canon>, height: real, h: real, offset: Vec3) returns (r: seq<Vec3>)
    requires |table| % 3 == 0 && h > 0.0 && offset.y == 0.0
    requires forall k :: 0 <= k < |table| ==> table[k].y == 0 || table[k].y == -1
    ensures r == walls + WallVerts(table, height, h, offset.x, offset.z)
  {
    ghost var spec := WallVerts(table, height, h, offset.x, offset.z);
    ghost var n := |table| / 3;
    assert offset == Vec3(offset.x, 0.0, offset.z);
    r := walls;
    for wallSegment := 0 to 1
      invariant r == walls + (if wallSegment == 0 then [] else spec)
    {
      var up := height * (wallSegment + 1) as real;
      var down := height * wallSegment as real;
      assert up == height && down == 0.0;
      var i := 0;
      ghost var t := 0;
      while i < |table|
        invariant 0 <= t <= n && i == 3 * t
        invariant r == walls + spec[..i]
      {
        var t0 := Lift(Place(table[i], h, offset), up, down);
        var t1 := Lift(Place(table[i + 1], h, offset), up, down);
        var t2 := Lift(Place(table[i + 2], h, offset), up, down);
        LiftedVertex(table[i], h, offset, up, down);
        LiftedVertex(table[i + 1], h, offset, up, down);
        LiftedVertex(table[i + 2], h, offset, up, down);
        assert t0 == spec[i] && t1 == spec[i + 1] && t2 == spec[i + 2];
        assert spec[..i + 3] == spec[..i] + [t0, t1, t2];
        r := r + [t0] + [t1] + [t2];
        i, t := i + 3, t + 1;
      }
      assert spec[..i] == spec;
    }
  }

  /** Lifting a placed vertex by its placed height is lifting it by its
      canonical height, since the half step is positive. */
  lemma LiftedVertex(c: Canon, h: real, offset: Vec3, up: real, down: real)
    requires h > 0.0 && offset.y == 0.0 && (c.y == 0 || c.y == -1)
    ensures Lift(Place(c, h, offset), up, down) == Place(c, h, offset).(y := if c.y == 0 then up else down)
  {
  }

  // The scan: x outer, y inner, both over the cell centres.

  datatype Layer = WallLayer | CapLayer

  /** The case code of cell (i, j). */
  function CellCode(cs: CaveSpec, sample: (real, real) -> real, i: nat, j: nat): (code: nat)
    requires WellFormed(cs)
    ensures code < 16
  {
    CaseCode(sample, cs.perlinThreshold, Centre(cs, i), Centre(cs, j), HalfStep(cs))
  }

  /** The vertices cell (i, j) contributes to a layer. */
  function CellOut(cs: CaveSpec, sample: (real, real) -> real, t: CaseTables, layer: Layer, i: nat, j: nat): seq<Vec3>
    requires WellFormed(cs) && Sized(t)
  {
    var code := CellCode(cs, sample, i, j);
    match layer
    case WallLayer => WallVerts(t.walls[code], cs.wallHeight, HalfStep(cs), Centre(cs, i), Centre(cs, j))
    case CapLayer => CapVerts(t.tops[code], HalfStep(cs), Centre(cs, i), Centre(cs, j))
  }

  /** What each cell (i, j) contributes to one layer. */
  type CellFn = (nat, nat) -> seq<Vec3>

  /** The cells of one layer of the generator. */
  function Cells(cs: CaveSpec, sample: (real, real) -> real, t: CaseTables, layer: Layer): CellFn
    requires WellFormed(cs) && Sized(t)
  {
    (i: nat, j: nat) => CellOut(cs, sample, t, layer, i, j)
  }

  /** `cell` gives the output of every cell of the layer; it is looked at only
      where a cell's output is. */
  ghost predicate IsCells(cs: CaveSpec, sample: (real, real) -> real, t: CaseTables, layer: Layer, cell: CellFn)
    requires WellFormed(cs) && Sized(t)
  {
    forall i: nat, j: nat {:trigger CellOut(cs, sample, t, layer, i, j)} :: cell(i, j) == CellOut(cs, sample, t, layer, i, j)
  }

  lemma CellsMeetSpec(cs: CaveSpec, sample: (real, real) -> real, t: CaseTables, layer: Layer)
    requires WellFormed(cs) && Sized(t)
    ensures IsCells(cs, sample, t, layer, Cells(cs, sample, t, layer))
  {
  }

  /** The output of the first n cells of column i. */
  function ColumnOut(cell: CellFn, i: nat, n: nat): seq<Vec3>
  {
    if n == 0 then [] else ColumnOut(cell, i, n - 1) + cell(i, n - 1)
  }

  /** The output of the first m whole columns of res cells each. */
  function GridOut(cell: CellFn, res: nat, m: nat): seq<Vec3>
  {
    if m == 0 then [] else GridOut(cell, res, m - 1) + ColumnOut(cell, m - 1, res)
  }

  /** Cells of k vertices each give k vertices per cell. */
  lemma {:induction false} ColumnSize(cell: CellFn, i: nat, n: nat, k: nat)
    requires forall j: nat :: |cell(i, j)| == k
    ensures |ColumnOut(cell, i, n)| == n * k
  {
    if n > 0 {
      ColumnSize(cell, i, n - 1, k);
      assert n * k == (n - 1) * k + k;
    }
  }

  lemma {:induction false} GridSize(cell: CellFn, res: nat, m: nat, k: nat)
    requires forall i: nat, j: nat :: |cell(i, j)| == k
    ensures |GridOut(cell, res, m)| == m * (res * k)
  {
    if m > 0 {
      GridSize(cell, res, m - 1, k);
      ColumnSize(cell, m - 1, res, k);
      assert m * (res * k) == (m - 1) * (res * k) + res * k;
    }
  }

  /** Six wall vertices P, Q, P0, P0, Q, Q0 of one quad: P and Q at height H,
      P0 and Q0 below them on the floor, P and Q one cell side (2h) or one
      corner cut apart. */
  ghost predicate IsLiftedQuad(q: seq<Vec3>, h: real, height: real)
  {
    && |q| == 6
    && q[0].y == height && q[1].y == height
    && q[2] == q[0].(y := 0.0) && q[3] == q[2] && q[4] == q[1] && q[5] == q[1].(y := 0.0)
    && var dx, dz := q[0].x - q[1].x, q[0].z - q[1].z;
       (dx * dx + dz * dz == 4.0 * h * h || dx * dx + dz * dz == 2.0 * h * h)
  }

  /** Whole lifted quads, one after the other. */
  ghost predicate AllQuads(s: seq<Vec3>, h: real, height: real)
  {
    && |s| % 6 == 0
    && forall g :: 0 <= g && 6 * g + 6 <= |s| ==> IsLiftedQuad(Group(s, g), h, height)
  }

  /** The squared distance of two distinct edge midpoints of the cell. */
  lemma MidpointDistance(p: Canon, q: Canon, h: real)
    requires IsEdgeMid(p) && IsEdgeMid(q) && p != q
    ensures var dx, dz := h * p.x as real - h * q.x as real, h * p.z as real - h * q.z as real;
      dx * dx + dz * dz == 4.0 * h * h || dx * dx + dz * dz == 2.0 * h * h
  {
    var a, b := (p.x - q.x) as real, (p.z - q.z) as real;
    assert a * a + b * b == 4.0 || a * a + b * b == 2.0;
    assert h * p.x as real - h * q.x as real == h * a;
    assert h * p.z as real - h * q.z as real == h * b;
    assert (h * a) * (h * a) + (h * b) * (h * b) == (a * a + b * b) * (h * h);
  }

  /** Whole canonical wall quads, placed, are whole lifted quads. */
  lemma CellQuads(s: seq<Canon>, height: real, h: real, x: real, y: real)
    requires |s| % 6 == 0 && h > 0.0
    requires forall g :: 0 <= g && 6 * g + 6 <= |s| ==> IsWallGroup(Group(s, g))
    ensures AllQuads(WallVerts(s, height, h, x, y), h, height)
  {
    var w := WallVerts(s, height, h, x, y);
    forall g | 0 <= g && 6 * g + 6 <= |w|
      ensures IsLiftedQuad(Group(w, g), h, height)
    {
      GroupVerts(s, height, h, x, y, g);
      WallGroupLifted(Group(s, g), height, h, x, y);
    }
  }

  /** Placing a group of canonical wall vertices is the group of the placed ones. */
  lemma GroupVerts(s: seq<Canon>, height: real, h: real, x: real, y: real, g: nat)
    requires 6 * g + 6 <= |s|
    ensures Group(WallVerts(s, height, h, x, y), g) == WallVerts(Group(s, g), height, h, x, y)
  {
  }

  /** One canonical wall segment, placed, is one lifted quad. */
  lemma WallGroupLifted(c: seq<Canon>, height: real, h: real, x: real, y: real)
    requires IsWallGroup(c) && h > 0.0
    ensures IsLiftedQuad(WallVerts(c, height, h, x, y), h, height)
  {
    MidpointDistance(c[0], c[1], h);
  }

  /** Every cell's walls are whole lifted quads. */
  lemma WallCellsAreQuads(cs: CaveSpec, sample: (real, real) -> real, t: CaseTables)
    requires WellFormed(cs) && WellShaped(t)
    ensures forall i: nat, j: nat :: AllQuads(Cells(cs, sample, t, WallLayer)(i, j), HalfStep(cs), cs.wallHeight)
  {
    forall i: nat, j: nat
      ensures AllQuads(Cells(cs, sample, t, WallLayer)(i, j), HalfStep(cs), cs.wallHeight)
    {
      CellQuads(t.walls[CellCode(cs, sample, i, j)], cs.wallHeight, HalfStep(cs), Centre(cs, i), Centre(cs, j));
    }
  }

  /** Concatenating whole lifted quads gives whole lifted quads. */
  lemma QuadsAppend(a: seq<Vec3>, b: seq<Vec3>, h: real, height: real)
    requires AllQuads(a, h, height) && AllQuads(b, h, height)
    ensures AllQuads(a + b, h, height)
  {
    var n := |a| / 6;
    assert |a| == 6 * n;
    forall g | 0 <= g && 6 * g + 6 <= |a + b|
      ensures IsLiftedQuad(Group(a + b, g), h, height)
    {
      if g < n {
        assert Group(a + b, g) == Group(a, g);
      } else {
        assert Group(a + b, g) == Group(b, g - n);
      }
    }
  }

  /** Cells of whole lifted quads make columns of whole lifted quads. */
  lemma {:induction false} ColumnQuads(cell: CellFn, i: nat, n: nat, h: real, height: real)
    requires forall j: nat :: AllQuads(cell(i, j), h, height)
    ensures AllQuads(ColumnOut(cell, i, n), h, height)
  {
    if n > 0 {
      ColumnQuads(cell, i, n - 1, h, height);
      QuadsAppend(ColumnOut(cell, i, n - 1), cell(i, n - 1), h, height);
    }
  }

  /** ... and grids of whole lifted quads. */
  lemma {:induction false} GridQuads(cell: CellFn, res: nat, m: nat, h: real, height: real)
    requires forall i: nat, j: nat :: AllQuads(cell(i, j), h, height)
    ensures AllQuads(GridOut(cell, res, m), h, height)
  {
    if m > 0 {
      GridQuads(cell, res, m - 1, h, height);
      ColumnQuads(cell, m - 1, res, h, height);
      QuadsAppend(GridOut(cell, res, m - 1), ColumnOut(cell, m - 1, res), h, height);
    }
  }

  /** The walls of the whole grid are whole lifted quads. */
  lemma GridWallsAreQuads(cs: CaveSpec, sample: (real, real) -> real, t: CaseTables)
    requires WellFormed(cs) && WellShaped(t)
    ensures AllQuads(GridOut(Cells(cs, sample, t, WallLayer), cs.wallResolution, cs.wallResolution), HalfStep(cs), cs.wallHeight)
  {
    WallCellsAreQuads(cs, sample, t);
    GridQuads(Cells(cs, sample, t, WallLayer), cs.wallResolution, cs.wallResolution, HalfStep(cs), cs.wallHeight);
  }

  /** A cell of a uniform field, solid everywhere or empty everywhere, has no
      walls. */
  lemma UniformCell(cs: CaveSpec, sample: (real, real) -> real, i: nat, j: nat)
    requires WellFormed(cs)
    requires (forall x, y :: sample(x, y) > cs.perlinThreshold) || (forall x, y :: sample(x, y) <= cs.perlinThreshold)
    ensures CellOut(cs, sample, Tables, WallLayer, i, j) == []
  {
    var code := CellCode(cs, sample, i, j);
    CaseCodeBits(sample, cs.perlinThreshold, Centre(cs, i), Centre(cs, j), HalfStep(cs));
    assert code == 0 || code == 15;
  }

  /** A uniform field has no walls anywhere. */
  lemma UniformFieldHasNoWalls(cs: CaveSpec, sample: (real, real) -> real)
    requires WellFormed(cs)
    requires (forall x, y :: sample(x, y) > cs.perlinThreshold) || (forall x, y :: sample(x, y) <= cs.perlinThreshold)
    ensures GridOut(Cells(cs, sample, Tables, WallLayer), cs.wallResolution, cs.wallResolution) == []
  {
    var cell := Cells(cs, sample, Tables, WallLayer);
    forall i: nat, j: nat
      ensures |cell(i, j)| == 0
    {
      UniformCell(cs, sample, i, j);
    }
    GridSize(cell, cs.wallResolution, cs.wallResolution, 0);
  }

  /** A cell of a field solid everywhere is capped by the full two-triangle
      square. */
  lemma SolidCell(cs: CaveSpec, sample: (real, real) -> real, i: nat, j: nat)
    requires WellFormed(cs)
    requires forall x, y :: sample(x, y) > cs.perlinThreshold
    ensures CellOut(cs, sample, Tables, CapLayer, i, j) == CapVerts(TopTable[15], HalfStep(cs), Centre(cs, i), Centre(cs, j))
    ensures |CellOut(cs, sample, Tables, CapLayer, i, j)| == 6
  {
    var code := CellCode(cs, sample, i, j);
    CaseCodeBits(sample, cs.perlinThreshold, Centre(cs, i), Centre(cs, j), HalfStep(cs));
    assert code == 15;
  }

  /** A field solid everywhere caps every cell: six cap vertices per cell. */
  lemma SolidFieldCapsEveryCell(cs: CaveSpec, sample: (real, real) -> real)
    requires WellFormed(cs)
    requires forall x, y :: sample(x, y) > cs.perlinThreshold
    ensures |GridOut(Cells(cs, sample, Tables, CapLayer), cs.wallResolution, cs.wallResolution)|
      == cs.wallResolution * (cs.wallResolution * 6)
  {
    var cell := Cells(cs, sample, Tables, CapLayer);
    forall i: nat, j: nat
      ensures |cell(i, j)| == 6
    {
      SolidCell(cs, sample, i, j);
    }
    GridSize(cell, cs.wallResolution, cs.wallResolution, 6);
  }

  // Placements.

  /** A placed plane; the rotation is kept as the two unnormalised edge
      vectors it is built from, the scale squared. */
  datatype Placement = Placement(pos: Vec3, right: Vec3, up: Vec3, scaleSq: Vec3)

  function Add(a: Vec3, b: Vec3): Vec3 { Vec3(a.x + b.x, a.y + b.y, a.z + b.z) }
  function Sub(a: Vec3, b: Vec3): Vec3 { Vec3(a.x - b.x, a.y - b.y, a.z - b.z) }
  function Div(a: Vec3, d: real): Vec3 requires d != 0.0 { Vec3(a.x / d, a.y / d, a.z / d) }
  function SqLen(a: Vec3): real { a.x * a.x + a.y * a.y + a.z * a.z }

  /** The plane of the quad whose corners are v0, v1 (top) and v2, v5 (bottom),
      over a plane primitive of side 10. */
  function PlacementOf(v0: Vec3, v1: Vec3, v2: Vec3, v5: Vec3): (p: Placement)
    ensures Vec3(4.0 * p.pos.x, 4.0 * p.pos.y, 4.0 * p.pos.z) == Add(Add(Add(v0, v1), v2), v5)
    ensures Add(p.right, v1) == v0 && Add(p.up, v2) == v0
    ensures 100.0 * p.scaleSq.x == SqLen(p.right) && p.scaleSq.y == 1.0 && 100.0 * p.scaleSq.z == SqLen(p.up)
  {
    Placement(
      Div(Add(Add(Add(v0, v1), v2), v5), 4.0),
      Sub(v0, v1),
      Sub(v0, v2),
      Vec3(SqLen(Sub(v0, v1)) / 100.0, 1.0, SqLen(Sub(v0, v2)) / 100.0))
  }

  /** The plane of a lifted quad stands upright: centred half way up the wall
      above the midpoint of P and Q, its up edge vertical and as long as the
      wall is high, its right edge horizontal and one cell side or one corner
      cut long. */
  lemma QuadPlacement(q: seq<Vec3>, h: real, height: real)
    requires IsLiftedQuad(q, h, height)
    ensures var p := PlacementOf(q[0], q[1], q[2], q[5]);
      && p.pos == Vec3((q[0].x + q[1].x) / 2.0, height / 2.0, (q[0].z + q[1].z) / 2.0)
      && p.up == Vec3(0.0, height, 0.0)
      && p.right.y == 0.0
      && p.scaleSq.z == height * height / 100.0
      && (p.scaleSq.x == 4.0 * h * h / 100.0 || p.scaleSq.x == 2.0 * h * h / 100.0)
  {
  }

  /** One plane per group of six wall vertices, placed from corners 0, 1, 2 and 5. */
  ghost predicate PlacedFrom(walls: seq<Vec3>, planes: seq<Placement>)
  {
    && 6 * |planes| == |walls|
    && forall g :: 0 <= g < |planes| ==>
      planes[g] == PlacementOf(walls[6 * g], walls[6 * g + 1], walls[6 * g + 2], walls[6 * g + 5])
  }

  /** Every plane stands upright, half way up walls of the given height. */
  ghost predicate Upright(planes: seq<Placement>, height: real)
  {
    forall g :: 0 <= g < |planes| ==>
      && planes[g].pos.y == height / 2.0
      && planes[g].up == Vec3(0.0, height, 0.0)
      && planes[g].scaleSq.z == height * height / 100.0
  }

  method ExtractPlacements(walls: seq<Vec3>) returns (planes: seq<Placement>)
    requires |walls| % 6 == 0
    ensures PlacedFrom(walls, planes)
  {
    planes := [];
    var i := 0;
    while i < |walls|
      invariant 0 <= i <= |walls| && i % 6 == 0 && 6 * |planes| == i
      invariant forall g :: 0 <= g < |planes| ==>
        planes[g] == PlacementOf(walls[6 * g], walls[6 * g + 1], walls[6 * g + 2], walls[6 * g + 5])
    {
      var pos := Div(Add(Add(Add(walls[i + 0], walls[i + 1]), walls[i + 2]), walls[i + 5]), 4.0);
      var right := Sub(walls[i + 0], walls[i + 1]);
      var up := Sub(walls[i + 0], walls[i + 2]);
      var scaleSq := Vec3(SqLen(Sub(walls[i + 0], walls[i + 1])) / 100.0, 1.0, SqLen(Sub(walls[i + 0], walls[i + 2])) / 100.0);
      planes := planes + [Placement(pos, right, up, scaleSq)];
      i := i + 6;
    }
  }

  /** The debug cap mesh: triangle index k is vertex k, and its texture
      coordinate is the vertex's ground position (x, z). */
  predicate IsCapMesh(tops: seq<Vec3>, indices: seq<int>, uvs: seq<Vec2>)
  {
    && |indices| == |tops| && |uvs| == |tops|
    && forall i :: 0 <= i < |tops| ==> indices[i] == i && uvs[i] == Vec2(tops[i].x, tops[i].z)
  }

  method BuildCapMesh(tops: seq<Vec3>) returns (indices: array<int>, uvs: array<Vec2>)
    ensures fresh(indices) && fresh(uvs)
    ensures IsCapMesh(tops, indices[..], uvs[..])
  {
    indices := new int[|tops|];
    uvs := new Vec2[|tops|](_ => Vec2(0.0, 0.0));
    for i := 0 to |tops|
      invariant forall k :: 0 <= k < i ==> indices[k] == k && uvs[k] == Vec2(tops[k].x, tops[k].z)
    {
      indices[i] := i;
      uvs[i] := uvs[i].(x := tops[i].x);
      uvs[i] := uvs[i].(y := tops[i].z);
    }
  }

  /** The planes of whole lifted quads all stand upright, half way up walls
      of the given height. */
  lemma PlacementsStandUpright(walls: seq<Vec3>, planes: seq<Placement>, h: real, height: real)
    requires AllQuads(walls, h, height) && PlacedFrom(walls, planes)
    ensures Upright(planes, height)
  {
    forall g | 0 <= g < |planes|
      ensures && planes[g].pos.y == height / 2.0
              && planes[g].up == Vec3(0.0, height, 0.0)
              && planes[g].scaleSq.z == height * height / 100.0
    {
      var q := Group(walls, g);
      assert q[0] == walls[6 * g] && q[1] == walls[6 * g + 1] && q[2] == walls[6 * g + 2] && q[5] == walls[6 * g + 5];
      QuadPlacement(q, h, height);
    }
  }

  /** The body of the inner scan loop for cell (i, j), centred at (x, y):
      compute the case code, move the offset and append the cell's caps and
      walls. */
  method EmitCell(cs: CaveSpec, sample: (real, real) -> real, t: CaseTables, ghost wallCell: CellFn, ghost capCell: CellFn,
                  ghost i: nat, ghost j: nat, x: real, y: real, offset: Vec3, walls: seq<Vec3>, tops: seq<Vec3>)
    returns (offset': Vec3, walls': seq<Vec3>, tops': seq<Vec3>)
    requires WellFormed(cs) && WellShaped(t) && x == Centre(cs, i) && y == Centre(cs, j) && offset.y == 0.0
    requires IsCells(cs, sample, t, WallLayer, wallCell) && IsCells(cs, sample, t, CapLayer, capCell)
    ensures offset' == Vec3(x, 0.0, y)
    ensures walls' == walls + wallCell(i, j)
    ensures tops' == tops + capCell(i, j)
  {
    var halfStep := cs.size / cs.wallResolution as real / 2.0;
    var index := CaseCode(sample, cs.perlinThreshold, x, y, halfStep);
    offset' := offset.(x := x);
    offset' := offset'.(z := y);
    tops' := EmitTops(tops, t.tops[index], halfStep, offset');
    walls' := EmitWalls(walls, t.walls[index], cs.wallHeight, halfStep, offset');
    assert wallCell(i, j) == CellOut(cs, sample, t, WallLayer, i, j);
    assert capCell(i, j) == CellOut(cs, sample, t, CapLayer, i, j);
  }

  lemma AppendAssoc<T>(a: seq<T>, b: seq<T>, c: seq<T>)
    ensures a + b + c == a + (b + c)
  {
  }

  /** One pass of the inner scan loop: cells 0 .. wallResolution - 1 of
      column i, centred at x. */
  method ScanColumn(cs: CaveSpec, sample: (real, real) -> real, t: CaseTables, ghost wallCell: CellFn, ghost capCell: CellFn,
                    ghost i: nat, x: real, offset: Vec3, walls: seq<Vec3>, tops: seq<Vec3>)
    returns (offset': Vec3, walls': seq<Vec3>, tops': seq<Vec3>)
    requires WellFormed(cs) && WellShaped(t) && x == Centre(cs, i) && offset.y == 0.0
    requires IsCells(cs, sample, t, WallLayer, wallCell) && IsCells(cs, sample, t, CapLayer, capCell)
    ensures offset'.y == 0.0
    ensures walls' == walls + ColumnOut(wallCell, i, cs.wallResolution)
    ensures tops' == tops + ColumnOut(capCell, i, cs.wallResolution)
  {
    var step := cs.size / cs.wallResolution as real;
    var halfSize := cs.size / 2.0;
    var halfStep := step / 2.0;
    offset', walls', tops' := offset, walls, tops;
    var y := -halfSize + halfStep;
    ghost var j: nat := 0;
    while y <= halfSize
      invariant j <= cs.wallResolution && y == Centre(cs, j) && offset'.y == 0.0
      invariant walls' == walls + ColumnOut(wallCell, i, j)
      invariant tops' == tops + ColumnOut(capCell, i, j)
      decreases cs.wallResolution - j
    {
      ScanBound(cs, j);
      offset', walls', tops' := EmitCell(cs, sample, t, wallCell, capCell, i, j, x, y, offset', walls', tops');
      AppendAssoc(walls, ColumnOut(wallCell, i, j), wallCell(i, j));
      AppendAssoc(tops, ColumnOut(capCell, i, j), capCell(i, j));
      y := y + step;
      j := j + 1;
    }
    ScanBound(cs, j);
  }

  /** The outer scan loop: every column of the grid, in order. */
  method ScanGrid(cs: CaveSpec, sample: (real, real) -> real, t: CaseTables, ghost wallCell: CellFn, ghost capCell: CellFn)
    returns (walls: seq<Vec3>, tops: seq<Vec3>)
    requires WellFormed(cs) && WellShaped(t)
    requires IsCells(cs, sample, t, WallLayer, wallCell) && IsCells(cs, sample, t, CapLayer, capCell)
    ensures walls == GridOut(wallCell, cs.wallResolution, cs.wallResolution)
    ensures tops == GridOut(capCell, cs.wallResolution, cs.wallResolution)
  {
    var step := cs.size / cs.wallResolution as real;
    var halfSize := cs.size / 2.0;
    var halfStep := step / 2.0;
    var offset := Vec3(0.0, 0.0, 0.0);
    walls, tops := [], [];
    var x := -halfSize + halfStep;
    ghost var i: nat := 0;
    while x <= halfSize
      invariant i <= cs.wallResolution && x == Centre(cs, i) && offset.y == 0.0
      invariant walls == GridOut(wallCell, cs.wallResolution, i)
      invariant tops == GridOut(capCell, cs.wallResolution, i)
      decreases cs.wallResolution - i
    {
      ScanBound(cs, i);
      offset, walls, tops := ScanColumn(cs, sample, t, wallCell, capCell, i, x, offset, walls, tops);
      x := x + step;
      i := i + 1;
    }
    ScanBound(cs, i);
  }

  /** The placement pass: one upright plane per wall quad, in order. */
  method PlaceWalls(walls: seq<Vec3>, ghost h: real, ghost height: real) returns (planes: seq<Placement>)
    requires AllQuads(walls, h, height)
    ensures PlacedFrom(walls, planes)
    ensures Upright(planes, height)
  {
    planes := ExtractPlacements(walls);
    PlacementsStandUpright(walls, planes, h, height);
  }

  /** The whole generator: scan the grid, emit caps and walls cell by cell,
      build the debug cap mesh and place one plane per wall quad. */
  method CreateCave(cs: CaveSpec, sample: (real, real) -> real)
    returns (walls: seq<Vec3>, tops: seq<Vec3>, topIndices: array<int>, topUVs: array<Vec2>, planes: seq<Placement>)
    requires WellFormed(cs)
    ensures walls == GridOut(Cells(cs, sample, Tables, WallLayer), cs.wallResolution, cs.wallResolution)
    ensures tops == GridOut(Cells(cs, sample, Tables, CapLayer), cs.wallResolution, cs.wallResolution)
    ensures fresh(topIndices) && fresh(topUVs)
    ensures IsCapMesh(tops, topIndices[..], topUVs[..])
    ensures PlacedFrom(walls, planes)
    ensures Upright(planes, cs.wallHeight)
  {
    TablesWellShaped();
    ghost var wallCell, capCell := Cells(cs, sample, Tables, WallLayer), Cells(cs, sample, Tables, CapLayer);
    CellsMeetSpec(cs, sample, Tables, WallLayer);
    CellsMeetSpec(cs, sample, Tables, CapLayer);
    walls, tops := ScanGrid(cs, sample, Tables, wallCell, capCell);
    topIndices, topUVs := BuildCapMesh(tops);
    GridWallsAreQuads(cs, sample, Tables);
    planes := PlaceWalls(walls, HalfStep(cs), cs.wallHeight);
  }
}
