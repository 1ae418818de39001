/** The paint-area bookkeeping of a sprayable surface. Every surface keeps a
    seven-slot count of the area painted in each colour (red, green, blue,
    yellow, cyan, magenta, white); one process-wide seven-slot array holds the
    totals over all surfaces. Every painting operation dispatches one GPU
    kernel and then recounts: the surface's old count is taken out of the
    totals, the GPU counts afresh, and the new count is put back in.

    The GPU is modelled by what it hands back: `recount`, the seven numbers
    the counting kernel leaves in the surface's buffer, is a parameter. The
    kernels dispatched are recorded, in order, in a ghost log. */
module ColorCount {

  /** The number of colour slots. */
  const NumColors := 7

  /** A plane is 10 x 10 metres at unit scale. */
  const PlaneFactor := 10.0

  /** The collider is this many metres wider and deeper than the surface. */
  const ColliderMargin := 0.5

  /** The largest noise seed drawn, plus one. */
  const SeedRange := 100000

  /** The count of a surface with nothing painted. */
  const NoCount: seq<int> := [0, 0, 0, 0, 0, 0, 0]

  // The compute-shader kernels, by index.
  const DrawKernel := 0
  const ClearKernel := 1
  const UncoatKernel := 2
  const RandomizeKernel := 3
  const CoatKernel := 4
  const CountKernel := 5

  datatype Uv = Uv(x: real, y: real)

  const UvCentre := Uv(0.5, 0.5)

  /** The texture coordinate handed to a kernel, if the operation sets one. */
  datatype UvArg = NoUv | At(uv: Uv)

  /** One kernel dispatch. */
  datatype Dispatch = Dispatch(kernel: nat, uv: UvArg)

  // ---------------------------------------------------------------------
  // Texture coordinates

  /** The collider's size relative to the surface, per axis, for a plane of
      local scale (sx, sz): the surface plus the margin, over the surface. */
  function ColliderScale(sx: real, sz: real): (s: Uv)
    requires sx > 0.0 && sz > 0.0
    ensures s.x > 1.0 && s.y > 1.0
    ensures s.x * (PlaneFactor * sx) == PlaneFactor * sx + ColliderMargin
    ensures s.y * (PlaneFactor * sz) == PlaneFactor * sz + ColliderMargin
  {
    var surfaceX, surfaceY := PlaneFactor * sx, PlaneFactor * sz;
    Uv((surfaceX + ColliderMargin) / surfaceX, (surfaceY + ColliderMargin) / surfaceY)
  }

  /** A collider texture coordinate carried to the surface: its offset from
      the centre is stretched by the collider scale, axis by axis. */
  function SprayUV(s: Uv, uv: Uv): (r: Uv)
    ensures r.x - 0.5 == (uv.x - 0.5) * s.x && r.y - 0.5 == (uv.y - 0.5) * s.y
  {
    Uv((uv.x - 0.5) * s.x + 0.5, (uv.y - 0.5) * s.y + 0.5)
  }

  /** A surface texture coordinate carried back to the collider. */
  function UnsprayUV(s: Uv, uv: Uv): Uv
    requires s.x != 0.0 && s.y != 0.0
  {
    Uv((uv.x - 0.5) / s.x + 0.5, (uv.y - 0.5) / s.y + 0.5)
  }

  /** The centre of the collider is the centre of the surface. */
  lemma SprayKeepsCentre(s: Uv)
    ensures SprayUV(s, UvCentre) == UvCentre
  {
  }

  /** Carrying back undoes carrying over, and the other way round. */
  lemma SprayRoundTrip(s: Uv, uv: Uv)
    requires s.x != 0.0 && s.y != 0.0
    ensures UnsprayUV(s, SprayUV(s, uv)) == uv
    ensures SprayUV(s, UnsprayUV(s, uv)) == uv
  {
    Cancel(uv.x - 0.5, s.x);
    Cancel(uv.y - 0.5, s.y);
  }

  /** Multiplying and dividing by the same non-zero factor cancel. */
  lemma Cancel(a: real, k: real)
    requires k != 0.0
    ensures a * k / k == a && a / k * k == a
  {
  }

  /** On one axis, the collider coordinates that land on the surface, [0, 1],
      are exactly those within half the surface's share of the collider from
      the centre. */
  lemma SprayOnSurface(k: real, u: real)
    requires k > 0.0
    ensures 0.0 <= (u - 0.5) * k + 0.5 <= 1.0 <==> 0.5 - 0.5 / k <= u <= 0.5 + 0.5 / k
  {
    Cancel(0.5, k);
    Within(u - 0.5, 0.5 / k, k);
  }

  /** d * k lies within 0.5 of zero exactly when d lies within e = 0.5 / k. */
  lemma Within(d: real, e: real, k: real)
    requires k > 0.0 && e * k == 0.5
    ensures -0.5 <= d * k <= 0.5 <==> -e <= d <= e
  {
    assert (-e) * k == -0.5;
    Monotone(-e, d, k);
    assert -e <= d <==> -0.5 <= d * k;
    Monotone(d, e, k);
    assert d <= e <==> d * k <= 0.5;
  }

  /** Scaling by a positive factor keeps order. */
  lemma Monotone(a: real, b: real, k: real)
    requires k > 0.0
    ensures a <= b <==> a * k <= b * k
  {
    assert b * k - a * k == (b - a) * k;
  }

  /** The collider's rim, at collider coordinate 0 or 1, lies half a margin
      outside the surface's edge, measured in surface texture units. */
  lemma ColliderRim(sx: real, sz: real)
    requires sx > 0.0 && sz > 0.0
    ensures SprayUV(ColliderScale(sx, sz), Uv(0.0, 0.0))
      == Uv(-(ColliderMargin / 2.0) / (PlaneFactor * sx), -(ColliderMargin / 2.0) / (PlaneFactor * sz))
    ensures SprayUV(ColliderScale(sx, sz), Uv(1.0, 1.0))
      == Uv(1.0 + (ColliderMargin / 2.0) / (PlaneFactor * sx), 1.0 + (ColliderMargin / 2.0) / (PlaneFactor * sz))
  {
    var s := ColliderScale(sx, sz);
    var wx, wz := PlaneFactor * sx, PlaneFactor * sz;
    assert s.x == 1.0 + ColliderMargin / wx;
    assert s.y == 1.0 + ColliderMargin / wz;
  }

  /** The eraser's coordinate: the quarter-offset square [0.25, 0.75]^2 is
      stretched over the whole texture. */
  function EraseUV(uv: Uv): (r: Uv)
    ensures r.x / 2.0 + 0.25 == uv.x && r.y / 2.0 + 0.25 == uv.y
  {
    Uv((uv.x - 0.25) * 2.0, (uv.y - 0.25) * 2.0)
  }

  /** The eraser reaches texture coordinate w from w / 2 + 0.25 and nowhere
      else, so only the middle half of the surface reaches the texture. */
  lemma EraseInverse(uv: Uv, w: Uv)
    ensures EraseUV(uv) == w <==> uv == Uv(w.x / 2.0 + 0.25, w.y / 2.0 + 0.25)
  {
    if EraseUV(uv) == w {
      assert uv.x == w.x / 2.0 + 0.25;
      assert uv.y == w.y / 2.0 + 0.25;
    }
  }

  // ---------------------------------------------------------------------
  // Counts

  /** Every row is a seven-slot count. */
  ghost predicate Rows(ls: seq<seq<int>>)
  {
    forall k :: 0 <= k < |ls| ==> |ls[k]| == NumColors
  }

  /** The sum of slot c over the counts ls. */
  function Total(ls: seq<seq<int>>, c: nat): int
    requires Rows(ls) && c < NumColors
  {
    if |ls| == 0 then 0 else Total(ls[..|ls| - 1], c) + ls[|ls| - 1][c]
  }

  /** One more count adds its slot to the total. */
  lemma TotalAppend(ls: seq<seq<int>>, r: seq<int>, c: nat)
    requires Rows(ls) && |r| == NumColors && c < NumColors
    ensures Rows(ls + [r]) && Total(ls + [r], c) == Total(ls, c) + r[c]
  {
    assert (ls + [r])[..|ls|] == ls;
  }

  /** Replacing one count changes the total by the difference. */
  lemma {:induction false} TotalUpdate(ls: seq<seq<int>>, k: nat, r: seq<int>, c: nat)
    requires Rows(ls) && k < |ls| && |r| == NumColors && c < NumColors
    ensures Rows(ls[k := r]) && Total(ls[k := r], c) == Total(ls, c) - ls[k][c] + r[c]
  {
    var n := |ls|;
    if k == n - 1 {
      assert ls[k := r][..n - 1] == ls[..n - 1];
    } else {
      TotalUpdate(ls[..n - 1], k, r, c);
      assert ls[k := r][..n - 1] == ls[..n - 1][k := r];
    }
  }

  /** The totals after one surface recounts: the surface's old count out,
      its new count in. */
  function Recount(g: seq<int>, prev: seq<int>, next: seq<int>): (g': seq<int>)
    requires |g| == NumColors && |prev| == NumColors && |next| == NumColors
    ensures |g'| == NumColors
  {
    seq(NumColors, c requires 0 <= c < NumColors => g[c] - prev[c] + next[c])
  }

  /** Recounting again with an unchanged count leaves the totals alone. */
  lemma RecountIdempotent(g: seq<int>, prev: seq<int>, next: seq<int>)
    requires |g| == NumColors && |prev| == NumColors && |next| == NumColors
    ensures Recount(Recount(g, prev, next), next, next) == Recount(g, prev, next)
  {
  }

  /** If the totals are the sums of the surfaces' counts, they still are
      after surface k recounts to r. */
  lemma RecountConserves(g: seq<int>, ls: seq<seq<int>>, k: nat, r: seq<int>)
    requires Rows(ls) && k < |ls| && |g| == NumColors && |r| == NumColors
    requires forall c :: 0 <= c < NumColors ==> g[c] == Total(ls, c)
    ensures Rows(ls[k := r])
    ensures forall c :: 0 <= c < NumColors ==> Recount(g, ls[k], r)[c] == Total(ls[k := r], c)
  {
    forall c | 0 <= c < NumColors
      ensures Recount(g, ls[k], r)[c] == Total(ls[k := r], c)
    {
      TotalUpdate(ls, k, r, c);
    }
  }

  /** A new surface, recounted from nothing to r, keeps the totals the sums
      of the counts. */
  lemma AddConserves(g: seq<int>, ls: seq<seq<int>>, r: seq<int>)
    requires Rows(ls) && |g| == NumColors && |r| == NumColors
    requires forall c :: 0 <= c < NumColors ==> g[c] == Total(ls, c)
    ensures Rows(ls + [r])
    ensures forall c :: 0 <= c < NumColors ==> Recount(g, NoCount, r)[c] == Total(ls + [r], c)
  {
    forall c | 0 <= c < NumColors
      ensures Recount(g, NoCount, r)[c] == Total(ls + [r], c)
    {
      TotalAppend(ls, r, c);
    }
  }

  // ---------------------------------------------------------------------
  // A surface

  class Drawable {
    /** The process-wide totals, shared by every surface. */
    const global: array<int>
    /** This surface's count, in GPU memory. */
    const local: array<int>
    var colliderScale: Uv
    var noiseSeed: int
    /** The kernels dispatched so far, in order. */
    ghost var dispatches: seq<Dispatch>

    ghost predicate Valid()
      reads this
    {
      && global.Length == NumColors && local.Length == NumColors && global != local
      && 0 <= noiseSeed < SeedRange
    }

    /** The state after a recount to r: the local buffer holds r and each
        total changed by exactly r minus the old local count. */
    twostate predicate Recounted(r: seq<int>)
      requires Valid() && |r| == NumColors
      reads this, global, local
    {
      && local[..] == r
      && global[..] == Recount(old(global[..]), old(local[..]), r)
    }

    /** A surface of local scale (sx, -, sz) joining the scene: its count
        starts at zero, it clears its textures and recounts, and it sizes its
        collider. */
    constructor (global: array<int>, sx: real, sz: real, recount: seq<int>)
      requires global.Length == NumColors && sx > 0.0 && sz > 0.0 && |recount| == NumColors
      modifies global
      ensures Valid() && this.global == global && fresh(local)
      ensures local[..] == recount
      ensures global[..] == Recount(old(global[..]), NoCount, recount)
      ensures colliderScale == ColliderScale(sx, sz) && noiseSeed == 0
      ensures dispatches == [Dispatch(ClearKernel, NoUv), Dispatch(CountKernel, NoUv)]
    {
      this.global := global;
      local := new int[NumColors](_ => 0);
      colliderScale := Uv(1.0, 1.0);
      noiseSeed := 0;
      dispatches := [];
      new;
      assert local[..] == NoCount;
      Clear(recount);
      var surfaceX := PlaneFactor * sx;
      var surfaceY := PlaneFactor * sz;
      var colliderX := surfaceX + ColliderMargin;
      var colliderY := surfaceY + ColliderMargin;
      colliderScale := Uv(colliderX / surfaceX, colliderY / surfaceY);
    }

    /** Takes the old count out of the totals, lets the GPU count afresh into
        the zeroed buffer, and puts the new count in. */
    method Count(recount: seq<int>)
      requires Valid() && |recount| == NumColors
      modifies this, global, local
      ensures Valid() && Recounted(recount)
      ensures dispatches == old(dispatches) + [Dispatch(CountKernel, NoUv)]
      ensures colliderScale == old(colliderScale) && noiseSeed == old(noiseSeed)
    {
      ghost var g0, target := global[..], Recount(global[..], local[..], recount);
      var counted := local[..];
      for i := 0 to NumColors
        modifies global
        invariant forall c :: 0 <= c < i ==> global[c] == g0[c] - counted[c]
        invariant forall c :: i <= c < NumColors ==> global[c] == g0[c]
      {
        global[i] := global[i] - counted[i];
      }
      forall i | 0 <= i < NumColors {
        local[i] := 0;
      }
      dispatches := dispatches + [Dispatch(CountKernel, NoUv)];
      forall i | 0 <= i < NumColors {
        local[i] := recount[i];
      }
      ghost var taken := counted;
      counted := local[..];
      assert counted == recount;
      for i := 0 to NumColors
        modifies global
        invariant forall c :: 0 <= c < i ==> global[c] == target[c]
        invariant forall c :: i <= c < NumColors ==> global[c] == g0[c] - taken[c]
      {
        global[i] := global[i] + counted[i];
      }
      assert global[..] == target;
    }

    /** The collider coordinate of a hit carried to the surface, one step at
        a time. */
    method CalculateSprayUV(uv: Uv) returns (r: Uv)
      ensures r == SprayUV(colliderScale, uv)
    {
      r := Uv(uv.x - 0.5, uv.y - 0.5);
      r := Uv(r.x * colliderScale.x, r.y * colliderScale.y);
      r := Uv(r.x + 0.5, r.y + 0.5);
    }

    /** Clears both textures, then recounts. */
    method Clear(recount: seq<int>)
      requires Valid() && |recount| == NumColors
      modifies this, global, local
      ensures Valid() && Recounted(recount)
      ensures dispatches == old(dispatches) + [Dispatch(ClearKernel, NoUv), Dispatch(CountKernel, NoUv)]
      ensures colliderScale == old(colliderScale) && noiseSeed == old(noiseSeed)
    {
      dispatches := dispatches + [Dispatch(ClearKernel, NoUv)];
      Count(recount);
    }

    /** Paints at a collider coordinate, then recounts. */
    method Draw(uv: Uv, recount: seq<int>)
      requires Valid() && |recount| == NumColors
      modifies this, global, local
      ensures Valid() && Recounted(recount)
      ensures dispatches == old(dispatches) + [Dispatch(DrawKernel, At(SprayUV(colliderScale, uv))), Dispatch(CountKernel, NoUv)]
      ensures colliderScale == old(colliderScale) && noiseSeed == old(noiseSeed)
    {
      var at := CalculateSprayUV(uv);
      dispatches := dispatches + [Dispatch(DrawKernel, At(at))];
      Count(recount);
    }

    /** Coats at a collider coordinate, then recounts. */
    method Coat(uv: Uv, recount: seq<int>)
      requires Valid() && |recount| == NumColors
      modifies this, global, local
      ensures Valid() && Recounted(recount)
      ensures dispatches == old(dispatches) + [Dispatch(CoatKernel, At(SprayUV(colliderScale, uv))), Dispatch(CountKernel, NoUv)]
      ensures colliderScale == old(colliderScale) && noiseSeed == old(noiseSeed)
    {
      var at := CalculateSprayUV(uv);
      dispatches := dispatches + [Dispatch(CoatKernel, At(at))];
      Count(recount);
    }

    /** Removes coat at a collider coordinate, then recounts. */
    method Uncoat(uv: Uv, recount: seq<int>)
      requires Valid() && |recount| == NumColors
      modifies this, global, local
      ensures Valid() && Recounted(recount)
      ensures dispatches == old(dispatches) + [Dispatch(UncoatKernel, At(SprayUV(colliderScale, uv))), Dispatch(CountKernel, NoUv)]
      ensures colliderScale == old(colliderScale) && noiseSeed == old(noiseSeed)
    {
      var at := CalculateSprayUV(uv);
      dispatches := dispatches + [Dispatch(UncoatKernel, At(at))];
      Count(recount);
    }

    /** Erases at a coordinate taken through the eraser's own map rather than
        the collider's, with the coat-removing kernel, then recounts. */
    method Erase(uv: Uv, recount: seq<int>)
      requires Valid() && |recount| == NumColors
      modifies this, global, local
      ensures Valid() && Recounted(recount)
      ensures dispatches == old(dispatches) + [Dispatch(UncoatKernel, At(EraseUV(uv))), Dispatch(CountKernel, NoUv)]
      ensures colliderScale == old(colliderScale) && noiseSeed == old(noiseSeed)
    {
      var at := Uv(uv.x - 0.25, uv.y - 0.25);
      at := Uv(at.x * 2.0, at.y * 2.0);
      dispatches := dispatches + [Dispatch(UncoatKernel, At(at))];
      Count(recount);
    }

    /** Paints the surface with noise, then recounts. The noise seed is drawn
        once, from [0, SeedRange), the first time; `draw` is that draw. A draw
        of 0 leaves the seed unset, to be drawn again next time. */
    method RandomizeColor(draw: int, recount: seq<int>)
      requires Valid() && |recount| == NumColors && 0 <= draw < SeedRange
      modifies this, global, local
      ensures Valid() && Recounted(recount)
      ensures noiseSeed == (if old(noiseSeed) == 0 then draw else old(noiseSeed))
      ensures dispatches == old(dispatches) + [Dispatch(RandomizeKernel, NoUv), Dispatch(CountKernel, NoUv)]
      ensures colliderScale == old(colliderScale)
    {
      if noiseSeed == 0 {
        noiseSeed := draw;
      }
      dispatches := dispatches + [Dispatch(RandomizeKernel, NoUv)];
      Count(recount);
    }
  }

  // ---------------------------------------------------------------------
  // The scene: every surface shares the one array of totals

  /** The surfaces' counts, in order. */
  ghost function Locals(surfaces: seq<Drawable>): (ls: seq<seq<int>>)
    reads set s | s in surfaces :: s.local
    ensures |ls| == |surfaces|
    ensures forall i :: 0 <= i < |surfaces| ==> ls[i] == surfaces[i].local[..]
  {
    if |surfaces| == 0 then [] else Locals(surfaces[..|surfaces| - 1]) + [surfaces[|surfaces| - 1].local[..]]
  }

  /** Valid surfaces sharing the totals, each with its own count buffer. */
  ghost predicate Scene(global: array<int>, surfaces: seq<Drawable>)
    reads surfaces
  {
    && global.Length == NumColors
    && (forall i :: 0 <= i < |surfaces| ==> surfaces[i].Valid() && surfaces[i].global == global)
    && (forall i, j :: 0 <= i < j < |surfaces| ==> surfaces[i].local != surfaces[j].local)
  }

  /** Each total is the sum of that slot over the surfaces. */
  ghost predicate Conserved(global: array<int>, surfaces: seq<Drawable>)
    requires Scene(global, surfaces)
    reads surfaces, global, set s | s in surfaces :: s.local
  {
    Rows(Locals(surfaces)) && forall c :: 0 <= c < NumColors ==> global[c] == Total(Locals(surfaces), c)
  }

  /** Surface k recounting keeps the totals the sums of the counts. */
  method CountSurface(global: array<int>, surfaces: seq<Drawable>, k: nat, recount: seq<int>)
    requires Scene(global, surfaces) && Conserved(global, surfaces)
    requires k < |surfaces| && |recount| == NumColors
    modifies surfaces[k], global, surfaces[k].local
    ensures Scene(global, surfaces) && Conserved(global, surfaces)
    ensures Locals(surfaces) == old(Locals(surfaces))[k := recount]
  {
    ghost var before := Locals(surfaces);
    assert Rows(before);
    surfaces[k].Count(recount);
    assert Locals(surfaces) == before[k := recount];
    RecountConserves(old(global[..]), before, k, recount);
  }

  /** Surface k painting, and recounting after it, keeps the totals the sums
      of the counts. */
  method DrawSurface(global: array<int>, surfaces: seq<Drawable>, k: nat, uv: Uv, recount: seq<int>)
    requires Scene(global, surfaces) && Conserved(global, surfaces)
    requires k < |surfaces| && |recount| == NumColors
    modifies surfaces[k], global, surfaces[k].local
    ensures Scene(global, surfaces) && Conserved(global, surfaces)
    ensures Locals(surfaces) == old(Locals(surfaces))[k := recount]
    ensures surfaces[k].dispatches == old(surfaces[k].dispatches)
      + [Dispatch(DrawKernel, At(SprayUV(old(surfaces[k].colliderScale), uv))), Dispatch(CountKernel, NoUv)]
  {
    ghost var before := Locals(surfaces);
    assert Rows(before);
    surfaces[k].Draw(uv, recount);
    assert Locals(surfaces) == before[k := recount];
    RecountConserves(old(global[..]), before, k, recount);
  }

  /** A new surface joining keeps the totals the sums of the counts. */
  method AddSurface(global: array<int>, surfaces: seq<Drawable>, sx: real, sz: real, recount: seq<int>)
    returns (d: Drawable)
    requires Scene(global, surfaces) && Conserved(global, surfaces)
    requires sx > 0.0 && sz > 0.0 && |recount| == NumColors
    modifies global
    ensures fresh(d) && fresh(d.local)
    ensures Scene(global, surfaces + [d]) && Conserved(global, surfaces + [d])
    ensures Locals(surfaces + [d]) == old(Locals(surfaces)) + [recount]
  {
    ghost var before := Locals(surfaces);
    d := new Drawable(global, sx, sz, recount);
    ghost var after := surfaces + [d];
    assert forall i :: 0 <= i < |surfaces| ==> after[i] == surfaces[i];
    assert Locals(surfaces) == before;
    assert Locals(after) == before + [recount];
    AddConserves(old(global[..]), before, recount);
  }
}
