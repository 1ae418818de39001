/** The canonical geometry of one marching-squares cell and the two constant
    16-entry triangle tables of the cave generator.

    A cell is the square [-1, 1] x [-1, 1] in the x/z plane. Its corners are
    numbered as the bits of a case code:

        2----3
        |    |        z
        |    |        |__ x
        0----1

    A canonical vertex has y = 0 on the cap plane; a wall vertex dropped to the
    foot of the wall has y = -1. Every coordinate is -1, 0 or 1, so the tables
    are written over integers. */
module CaveTables {

  /** A canonical vertex of the unit cell. */
  datatype Canon = Canon(x: int, y: int, z: int)

  // Corners and edge midpoints on the cap plane.
  const TL := Canon(-1, 0, 1)
  const TR := Canon(1, 0, 1)
  const BL := Canon(-1, 0, -1)
  const BR := Canon(1, 0, -1)
  const T := Canon(0, 0, 1)
  const B := Canon(0, 0, -1)
  const L := Canon(-1, 0, 0)
  const R := Canon(1, 0, 0)

  // The same points dropped to the foot of a wall.
  const dTL := Canon(-1, -1, 1)
  const dTR := Canon(1, -1, 1)
  const dBL := Canon(-1, -1, -1)
  const dBR := Canon(1, -1, -1)
  const dT := Canon(0, -1, 1)
  const dB := Canon(0, -1, -1)
  const dL := Canon(-1, -1, 0)
  const dR := Canon(1, -1, 0)

  /** Wall quads per case code: each segment of wall is two triangles
      P, Q, dP and dP, Q, dQ between two edge midpoints P and Q. */
  const WallTable: seq<seq<Canon>> := [
    /* 0b0000 */ [],
    /* 0b0001 */ [B, L, dB, dB, L, dL],
    /* 0b0010 */ [R, B, dR, dR, B, dB],
    /* 0b0011 */ [R, L, dR, dR, L, dL],
    /* 0b0100 */ [L, T, dL, dL, T, dT],
    /* 0b0101 */ [B, T, dB, dB, T, dT],
    /* 0b0110 */ [R, B, dR, dR, B, dB, L, T, dL, dL, T, dT],
    /* 0b0111 */ [R, T, dR, dR, T, dT],
    /* 0b1000 */ [T, R, dT, dT, R, dR],
    /* 0b1001 */ [T, R, dT, dT, R, dR, B, L, dB, dB, L, dL],
    /* 0b1010 */ [T, B, dT, dT, B, dB],
    /* 0b1011 */ [T, L, dT, dT, L, dL],
    /* 0b1100 */ [L, R, dL, dL, R, dR],
    /* 0b1101 */ [B, R, dB, dB, R, dR],
    /* 0b1110 */ [L, B, dL, dL, B, dB],
    /* 0b1111 */ []
  ]

  /** Cap triangles per case code, covering the solid part of the cell. */
  const TopTable: seq<seq<Canon>> := [
    /* 0b0000 */ [],
    /* 0b0001 */ [L, B, BL],
    /* 0b0010 */ [B, R, BR],
    /* 0b0011 */ [L, R, BL, BL, R, BR],
    /* 0b0100 */ [L, TL, T],
    /* 0b0101 */ [T, BL, TL, BL, T, B],
    /* 0b0110 */ [B, R, BR, L, TL, T],
    /* 0b0111 */ [T, BL, TL, R, BL, T, BL, R, BR],
    /* 0b1000 */ [T, TR, R],
    /* 0b1001 */ [T, TR, R, L, B, BL],
    /* 0b1010 */ [T, BR, B, BR, T, TR],
    /* 0b1011 */ [L, BR, BL, T, BR, L, BR, T, TR],
    /* 0b1100 */ [TL, R, L, R, TL, TR],
    /* 0b1101 */ [TL, B, BL, B, TL, R, TL, TR, R],
    /* 0b1110 */ [TL, TR, L, TR, B, L, TR, BR, B],
    /* 0b1111 */ [TL, TR, BL, TR, BR, BL]
  ]

  /** The two tables together, as the generator looks entries up. */
  datatype CaseTables = CaseTables(walls: seq<seq<Canon>>, tops: seq<seq<Canon>>)

  const Tables := CaseTables(WallTable, TopTable)

  /** A wall entry is whole quads P, Q, dP, dP, Q, dQ of canonical height 0
      or -1. */
  ghost predicate WallEntryShaped(s: seq<Canon>)
  {
    && |s| % 6 == 0 && |s| % 3 == 0
    && (forall k :: 0 <= k < |s| ==> s[k].y == 0 || s[k].y == -1)
    && (forall g :: 0 <= g && 6 * g + 6 <= |s| ==> IsWallGroup(Group(s, g)))
  }

  /** Sixteen entries in each table, one per case code. */
  predicate Sized(t: CaseTables)
  {
    |t.walls| == 16 && |t.tops| == 16
  }

  /** Sixteen entries in each table, whole wall quads and whole cap
      triangles. */
  ghost predicate WellShaped(t: CaseTables)
  {
    && Sized(t)
    && (forall code :: 0 <= code < 16 ==> WallEntryShaped(t.walls[code]) && |t.tops[code]| % 3 == 0)
  }

  /** Which of the four corners of a cell are solid, in case-code bit order:
      bit 0 bottom-left, bit 1 bottom-right, bit 2 top-left, bit 3 top-right. */
  datatype Corners = Corners(bl: bool, br: bool, tl: bool, tr: bool)

  function Ind(b: bool): nat
  {
    if b then 1 else 0
  }

  /** The case code of a corner pattern, the index into both tables. */
  function Code(c: Corners): (n: nat)
    ensures n < 16
  {
    Ind(c.bl) + 2 * Ind(c.br) + 4 * Ind(c.tl) + 8 * Ind(c.tr)
  }

  /** The corner pattern a case code stands for. */
  function Decode(n: nat): Corners
  {
    Corners(n % 2 == 1, n / 2 % 2 == 1, n / 4 % 2 == 1, n / 8 % 2 == 1)
  }

  /** Decode inverts Code. */
  lemma DecodeCode(c: Corners)
    ensures Decode(Code(c)) == c
  {
    var n := Code(c);
    assert n % 2 == Ind(c.bl);
    assert n / 2 == Ind(c.br) + 2 * Ind(c.tl) + 4 * Ind(c.tr);
    assert n / 4 == Ind(c.tl) + 2 * Ind(c.tr);
    assert n / 8 == Ind(c.tr);
  }

  /** Every case code is the code of the pattern it decodes to. */
  lemma CodeDecode(n: nat)
    requires n < 16
    ensures Code(Decode(n)) == n
  {
  }

  /** Whether corner k (a bit position of the case code) is solid. */
  predicate Solid(c: Corners, k: nat)
    requires k < 4
  {
    if k == 0 then c.bl else if k == 1 then c.br else if k == 2 then c.tl else c.tr
  }

  /** The canonical position of corner k. */
  function Corner(k: nat): Canon
    requires k < 4
  {
    if k == 0 then BL else if k == 1 then BR else if k == 2 then TL else TR
  }

  /** The point v dropped to the foot of the wall. */
  function Drop(v: Canon): Canon
  {
    v.(y := -1)
  }

  predicate IsEdgeMid(v: Canon)
  {
    v == T || v == B || v == L || v == R
  }

  /** The g-th group of six vertices of s. */
  function Group<V>(s: seq<V>, g: nat): seq<V>
    requires 6 * g + 6 <= |s|
  {
    s[6 * g..6 * g + 6]
  }

  lemma GroupIndex<V>(s: seq<V>, g: nat)
    requires 6 * g + 6 <= |s|
    ensures forall i :: 0 <= i < 6 ==> Group(s, g)[i] == s[6 * g + i]
  {
  }

  /** One wall segment: P, Q, dP, dP, Q, dQ for two distinct edge midpoints. */
  predicate IsWallGroup(q: seq<Canon>)
  {
    && |q| == 6
    && IsEdgeMid(q[0]) && IsEdgeMid(q[1]) && q[0] != q[1]
    && q[2] == Drop(q[0]) && q[3] == q[2] && q[4] == q[1] && q[5] == Drop(q[1])
  }

  /** The checkerboard patterns, where two diagonal corners are solid. */
  predicate IsSaddle(c: Corners)
  {
    c.bl == c.tr && c.br == c.tl && c.bl != c.br
  }

  function SolidCorners(c: Corners): nat
  {
    Ind(c.bl) + Ind(c.br) + Ind(c.tl) + Ind(c.tr)
  }

  /** Whether the edge whose midpoint is m has one solid and one empty end. */
  predicate Crossed(c: Corners, m: Canon)
    requires IsEdgeMid(m)
  {
    if m == B then c.bl != c.br
    else if m == T then c.tl != c.tr
    else if m == L then c.bl != c.tl
    else c.br != c.tr
  }

  /** Twice the signed x/z area of the triangle a, b, c; negative when the
      triangle turns clockwise seen from above. */
  function Area2(a: Canon, b: Canon, c: Canon): int
  {
    (b.x - a.x) * (c.z - a.z) - (b.z - a.z) * (c.x - a.x)
  }

  /** The length of every wall entry: nothing in a uniform cell, two segments
      for the two saddle patterns, one segment otherwise. */
  lemma WallLengths(c: Corners)
    ensures |WallTable[Code(c)]| == (if SolidCorners(c) == 0 || SolidCorners(c) == 4 then 0 else if IsSaddle(c) then 12 else 6)
  {
  }

  /** The saddle patterns are the codes 0b0110 and 0b1001. */
  lemma SaddleCodes(c: Corners)
    ensures IsSaddle(c) <==> Code(c) == 6 || Code(c) == 9
  {
  }

  /** Every six vertices of a wall entry form one quad P, Q, dP, dP, Q, dQ. */
  lemma WallGroupsAreQuads(code: nat, g: nat)
    requires code < 16 && 6 * g + 6 <= |WallTable[code]|
    ensures IsWallGroup(Group(WallTable[code], g))
  {
    GroupIndex(WallTable[code], g);
    // One segment at a time: only the saddle entries have a second one.
    if g == 0 {
    } else {
      assert g == 1 && (code == 6 || code == 9);
    }
  }

  /** Every wall entry is whole quads of vertices at canonical height 0 or
      -1. */
  lemma WallEntryHeights(code: nat, k: nat)
    requires code < 16 && k < |WallTable[code]|
    ensures |WallTable[code]| % 6 == 0 && |WallTable[code]| % 3 == 0
    ensures WallTable[code][k].y == 0 || WallTable[code][k].y == -1
  {
  }

  /** Every wall segment runs between the midpoints of two crossed edges,
      edges with one solid and one empty end. */
  lemma WallOnCrossedEdges(c: Corners, g: nat)
    requires 6 * g + 6 <= |WallTable[Code(c)]|
    ensures IsEdgeMid(WallTable[Code(c)][6 * g]) && Crossed(c, WallTable[Code(c)][6 * g])
    ensures IsEdgeMid(WallTable[Code(c)][6 * g + 1]) && Crossed(c, WallTable[Code(c)][6 * g + 1])
  {
  }

  /** Every crossed edge of a cell carries the end of a wall segment. */
  lemma CrossedEdgesHaveWalls(c: Corners, m: Canon)
    requires IsEdgeMid(m) && Crossed(c, m)
    ensures exists g :: 0 <= g && 6 * g + 6 <= |WallTable[Code(c)]| && (m == WallTable[Code(c)][6 * g] || m == WallTable[Code(c)][6 * g + 1])
  {
    if m == WallTable[Code(c)][0] || m == WallTable[Code(c)][1] {
      assert 6 * 0 + 6 <= |WallTable[Code(c)]|;
    } else {
      assert 6 * 1 + 6 <= |WallTable[Code(c)]|;
    }
  }

  /** A wall segment P -> Q keeps the solid corners on its left: every corner
      strictly left of it is solid and, outside the two saddle patterns, every
      corner strictly right of it is empty. */
  lemma WallFacesSolid(c: Corners, g: nat, k: nat)
    requires 6 * g + 6 <= |WallTable[Code(c)]| && k < 4
    ensures Area2(WallTable[Code(c)][6 * g], WallTable[Code(c)][6 * g + 1], Corner(k)) > 0 ==> Solid(c, k)
    ensures !IsSaddle(c) && Area2(WallTable[Code(c)][6 * g], WallTable[Code(c)][6 * g + 1], Corner(k)) < 0 ==> !Solid(c, k)
  {
    // One corner pattern at a time; only the saddles 0b1001 and 0b0110 have
    // a second segment.
    if c.bl && c.br {
      if c.tl {} else {}
    } else if c.bl {
      if c.tl {
      } else if c.tr {
        if g == 0 {} else {}
      } else {
      }
    } else if c.br {
      if c.tl && !c.tr {
        if g == 0 {} else {}
      } else if c.tl {
      } else {
      }
    } else {
      if c.tl {} else {}
    }
  }

  /** A wall spans either a full cell side (squared canonical length 4) when
      two adjacent corners are solid, or a corner cut (squared length 2). */
  lemma WallWidths(c: Corners, g: nat)
    requires 6 * g + 6 <= |WallTable[Code(c)]|
    ensures var p, q := WallTable[Code(c)][6 * g], WallTable[Code(c)][6 * g + 1];
      (p.x - q.x) * (p.x - q.x) + (p.z - q.z) * (p.z - q.z)
      == (if SolidCorners(c) == 2 && !IsSaddle(c) then 4 else 2)
  {
    if g == 0 {
    } else {
    }
  }

  /** Both tables have the shape the generator relies on. */
  lemma TablesWellShaped()
    ensures WellShaped(Tables)
  {
    forall code | 0 <= code < 16
      ensures WallEntryShaped(WallTable[code]) && |TopTable[code]| % 3 == 0
    {
      TopShape(code);
      WallLengths(Decode(code));
      CodeDecode(code);
      forall k | 0 <= k < |WallTable[code]| {
        WallEntryHeights(code, k);
      }
      forall g | 0 <= g && 6 * g + 6 <= |WallTable[code]| {
        WallGroupsAreQuads(code, g);
      }
    }
  }

  /** Every cap entry is whole triangles on the cap plane, at most three of
      them; the empty cell has no cap and the full cell is the two-triangle
      square. */
  lemma TopShape(code: nat)
    requires code < 16
    ensures |TopTable[code]| % 3 == 0 && |TopTable[code]| <= 9
    ensures forall k :: 0 <= k < |TopTable[code]| ==> TopTable[code][k].y == 0
    ensures code == 0 <==> TopTable[code] == []
    ensures TopTable[15] == [TL, TR, BL, TR, BR, BL]
  {
  }

  /** Every cap triangle is wound clockwise seen from above. */
  lemma TopWinding(code: nat, t: nat)
    requires code < 16 && 3 * t + 3 <= |TopTable[code]|
    ensures Area2(TopTable[code][3 * t], TopTable[code][3 * t + 1], TopTable[code][3 * t + 2]) < 0
  {
    // One triangle at a time: no entry has more than three.
    if t == 0 {
    } else if t == 1 {
    } else {
    }
  }

  /** Whether v lies in the solid part of the cell: a solid corner, or the
      midpoint of a crossed edge. */
  predicate OnSolid(c: Corners, v: Canon)
  {
    || (v == BL && c.bl) || (v == BR && c.br) || (v == TL && c.tl) || (v == TR && c.tr)
    || (IsEdgeMid(v) && Crossed(c, v))
  }

  /** Every cap vertex lies in the solid part of the cell. */
  lemma TopOnSolid(c: Corners, k: nat)
    requires k < |TopTable[Code(c)]|
    ensures OnSolid(c, TopTable[Code(c)][k])
  {
  }

  /** Every solid corner is a vertex of the cell's cap. */
  lemma SolidCornerCapped(c: Corners, k: nat)
    requires k < 4 && Solid(c, k)
    ensures Corner(k) in TopTable[Code(c)]
  {
  }
}
