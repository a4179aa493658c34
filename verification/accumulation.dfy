/**
 * The patch sweep: every planned window of the padded volume is cut out, handed to the
 * network, and its class scores are added into a score volume while a visit-count volume
 * records how many windows covered each voxel.
 */
module Accumulation {
  import opened Volumes
  import opened Planner

  /**
   * The network followed by its softmax, treated as opaque: for a patch, a class `c` and a
   * voxel `(lx, ly, lz)` of the patch, the class probability it reports there.
   */
  type Net = (Grid3<real>, nat, nat, nat, nat) -> real

  /** One padded volume to sweep: its voxels and shape, the patch size, the class count and the network. */
  datatype Sweep = Sweep(img: Grid3<real>, size: Vec3, patch: Vec3, classes: nat, net: Net)

  predicate Valid(w: Sweep) {
    Shaped3(w.img, w.size) && w.patch.x <= w.size.x && w.patch.y <= w.size.y && w.patch.z <= w.size.z
  }

  /** The window origins along each axis; the 3D plan is their Cartesian product, x outermost. */
  datatype Plan = Plan(xs: seq<nat>, ys: seq<nat>, zs: seq<nat>)

  predicate AxisFits(os: seq<nat>, p: nat, ww: nat) {
    forall i :: 0 <= i < |os| ==> os[i] + p <= ww
  }

  predicate PlanFits(w: Sweep, pl: Plan) {
    AxisFits(pl.xs, w.patch.x, w.size.x) && AxisFits(pl.ys, w.patch.y, w.size.y) && AxisFits(pl.zs, w.patch.z, w.size.z)
  }

  /** The plan the engine sweeps: `stride_xy` on the first two axes, `stride_z` on the third. */
  function PlanFor(w: Sweep, sxy: nat, sz: nat): (pl: Plan)
    requires Valid(w) && sxy > 0 && sz > 0
    ensures PlanFits(w, pl)
    ensures pl.xs == AxisOrigins(w.size.x, w.patch.x, sxy)
    ensures pl.ys == AxisOrigins(w.size.y, w.patch.y, sxy)
    ensures pl.zs == AxisOrigins(w.size.z, w.patch.z, sz)
  {
    Plan(AxisOrigins(w.size.x, w.patch.x, sxy), YOrigins(w, sxy), ZOrigins(w, sz))
  }

  function YOrigins(w: Sweep, sxy: nat): (ys: seq<nat>)
    requires Valid(w) && sxy > 0
    ensures AxisFits(ys, w.patch.y, w.size.y)
  {
    AxisOrigins(w.size.y, w.patch.y, sxy)
  }

  function ZOrigins(w: Sweep, sz: nat): (zs: seq<nat>)
    requires Valid(w) && sz > 0
    ensures AxisFits(zs, w.patch.z, w.size.z)
  {
    AxisOrigins(w.size.z, w.patch.z, sz)
  }

  predicate InWindow(o: Vec3, p: Vec3, x: int, y: int, z: int) {
    o.x <= x < o.x + p.x && o.y <= y < o.y + p.y && o.z <= z < o.z + p.z
  }

  /** What the window at `o` adds to class `c` at voxel `(x, y, z)`: its network response there, or nothing. */
  function Response(w: Sweep, o: Vec3, c: nat, x: int, y: int, z: int): (r: real)
    requires Valid(w) && Fits(o, w.patch, w.size)
    ensures !InWindow(o, w.patch, x, y, z) ==> r == 0.0
  {
    if InWindow(o, w.patch, x, y, z) then
      w.net(Crop3(w.img, w.size, o, w.patch), c, x - o.x, y - o.y, z - o.z)
    else 0.0
  }

  /** Scores added by the first `n` windows of the column `(ox, oy, zs)`. */
  function ScoreZ(w: Sweep, ox: nat, oy: nat, zs: seq<nat>, n: nat, c: nat, x: int, y: int, z: int): real
    requires Valid(w) && ox + w.patch.x <= w.size.x && oy + w.patch.y <= w.size.y
    requires AxisFits(zs, w.patch.z, w.size.z) && n <= |zs|
  {
    if n == 0 then 0.0
    else ScoreZ(w, ox, oy, zs, n - 1, c, x, y, z) + Response(w, Vec3(ox, oy, zs[n - 1]), c, x, y, z)
  }

  /** Scores added by the first `n` columns of the slab `(ox, ys, zs)`. */
  function ScoreY(w: Sweep, ox: nat, ys: seq<nat>, zs: seq<nat>, n: nat, c: nat, x: int, y: int, z: int): real
    requires Valid(w) && ox + w.patch.x <= w.size.x
    requires AxisFits(ys, w.patch.y, w.size.y) && AxisFits(zs, w.patch.z, w.size.z) && n <= |ys|
  {
    if n == 0 then 0.0
    else ScoreY(w, ox, ys, zs, n - 1, c, x, y, z) + ScoreZ(w, ox, ys[n - 1], zs, |zs|, c, x, y, z)
  }

  /** Scores added by the first `n` slabs of the plan. */
  function ScoreX(w: Sweep, pl: Plan, n: nat, c: nat, x: int, y: int, z: int): real
    requires Valid(w) && PlanFits(w, pl) && n <= |pl.xs|
  {
    if n == 0 then 0.0
    else ScoreX(w, pl, n - 1, c, x, y, z) + ScoreY(w, pl.xs[n - 1], pl.ys, pl.zs, |pl.ys|, c, x, y, z)
  }

  /** Windows among the first `n` of the column `(ox, oy, zs)` that contain `(x, y, z)`. */
  function VisitZ(p: Vec3, ox: nat, oy: nat, zs: seq<nat>, n: nat, x: int, y: int, z: int): nat
    requires n <= |zs|
  {
    if n == 0 then 0
    else VisitZ(p, ox, oy, zs, n - 1, x, y, z) + (if InWindow(Vec3(ox, oy, zs[n - 1]), p, x, y, z) then 1 else 0)
  }

  function VisitY(p: Vec3, ox: nat, ys: seq<nat>, zs: seq<nat>, n: nat, x: int, y: int, z: int): nat
    requires n <= |ys|
  {
    if n == 0 then 0
    else VisitY(p, ox, ys, zs, n - 1, x, y, z) + VisitZ(p, ox, ys[n - 1], zs, |zs|, x, y, z)
  }

  function VisitX(p: Vec3, pl: Plan, n: nat, x: int, y: int, z: int): nat
    requires n <= |pl.xs|
  {
    if n == 0 then 0
    else VisitX(p, pl, n - 1, x, y, z) + VisitY(p, pl.xs[n - 1], pl.ys, pl.zs, |pl.ys|, x, y, z)
  }

  /** The accumulated class score at a voxel once the whole plan is swept. */
  function TotalScore(w: Sweep, pl: Plan, c: nat, x: int, y: int, z: int): real
    requires Valid(w) && PlanFits(w, pl)
  {
    ScoreX(w, pl, |pl.xs|, c, x, y, z)
  }

  /** The visit count at a voxel once the whole plan is swept. */
  function TotalVisits(p: Vec3, pl: Plan, x: int, y: int, z: int): nat {
    VisitX(p, pl, |pl.xs|, x, y, z)
  }

  /** A column's visit count at a voxel: its cover count along z when the column's x and y windows hold the voxel. */
  lemma {:induction false} VisitZClosed(p: Vec3, ox: nat, oy: nat, zs: seq<nat>, n: nat, x: int, y: int, z: int)
    requires n <= |zs|
    ensures VisitZ(p, ox, oy, zs, n, x, y, z) ==
              if ox <= x < ox + p.x && oy <= y < oy + p.y then CoverCount(zs, p.z, n, z) else 0
  {
    if n > 0 {
      VisitZClosed(p, ox, oy, zs, n - 1, x, y, z);
    }
  }

  lemma {:induction false} VisitYClosed(p: Vec3, ox: nat, ys: seq<nat>, zs: seq<nat>, n: nat, x: int, y: int, z: int)
    requires n <= |ys|
    ensures VisitY(p, ox, ys, zs, n, x, y, z) ==
              if ox <= x < ox + p.x then CoverCount(ys, p.y, n, y) * CoverCount(zs, p.z, |zs|, z) else 0
  {
    if n > 0 {
      VisitYClosed(p, ox, ys, zs, n - 1, x, y, z);
      VisitZClosed(p, ox, ys[n - 1], zs, |zs|, x, y, z);
      var a, b, k := CoverCount(ys, p.y, n - 1, y), (if ys[n - 1] <= y < ys[n - 1] + p.y then 1 else 0), CoverCount(zs, p.z, |zs|, z);
      assert (a + b) * k == a * k + b * k;
    }
  }

  lemma {:induction false} VisitXClosed(p: Vec3, pl: Plan, n: nat, x: int, y: int, z: int)
    requires n <= |pl.xs|
    ensures VisitX(p, pl, n, x, y, z) ==
              CoverCount(pl.xs, p.x, n, x) * (CoverCount(pl.ys, p.y, |pl.ys|, y) * CoverCount(pl.zs, p.z, |pl.zs|, z))
  {
    if n > 0 {
      var k := CoverCount(pl.ys, p.y, |pl.ys|, y) * CoverCount(pl.zs, p.z, |pl.zs|, z);
      var a, b := CoverCount(pl.xs, p.x, n - 1, x), (if pl.xs[n - 1] <= x < pl.xs[n - 1] + p.x then 1 else 0);
      calc {
        VisitX(p, pl, n, x, y, z);
        VisitX(p, pl, n - 1, x, y, z) + VisitY(p, pl.xs[n - 1], pl.ys, pl.zs, |pl.ys|, x, y, z);
        { VisitXClosed(p, pl, n - 1, x, y, z); VisitYClosed(p, pl.xs[n - 1], pl.ys, pl.zs, |pl.ys|, x, y, z); }
        a * k + b * k;
        (a + b) * k;
      }
    }
  }

  /**
   * The visit count of a voxel is the number of planned origin triples whose window holds it:
   * the product of the per-axis cover counts, the plan being the Cartesian product of the axes.
   */
  lemma VisitsArePlanCovers(p: Vec3, pl: Plan, x: int, y: int, z: int)
    ensures TotalVisits(p, pl, x, y, z) ==
              CoverCount(pl.xs, p.x, |pl.xs|, x) * CoverCount(pl.ys, p.y, |pl.ys|, y) * CoverCount(pl.zs, p.z, |pl.zs|, z)
  {
    VisitXClosed(p, pl, |pl.xs|, x, y, z);
    var a, b, c := CoverCount(pl.xs, p.x, |pl.xs|, x), CoverCount(pl.ys, p.y, |pl.ys|, y), CoverCount(pl.zs, p.z, |pl.zs|, z);
    MulAssoc(a, b, c);
  }

  lemma MulAssoc(a: int, b: int, c: int)
    ensures a * (b * c) == a * b * c
  {
  }

  lemma ProductPositive(a: nat, b: nat, c: nat)
    requires a >= 1 && b >= 1 && c >= 1
    ensures a * b * c >= 1
  {
    assert a * b >= 1;
  }

  /** With `0 < stride <= patch` on every axis, every voxel of the padded volume is visited at least once. */
  lemma EveryVoxelVisited(w: Sweep, sxy: nat, sz: nat, x: int, y: int, z: int)
    requires Valid(w) && 0 < sxy <= w.patch.x && sxy <= w.patch.y && 0 < sz <= w.patch.z
    requires InVolume(w.size, x, y, z)
    ensures TotalVisits(w.patch, PlanFor(w, sxy, sz), x, y, z) >= 1
  {
    var pl := PlanFor(w, sxy, sz);
    OriginsCover(w.size.x, w.patch.x, sxy, x);
    OriginsCover(w.size.y, w.patch.y, sxy, y);
    OriginsCover(w.size.z, w.patch.z, sz, z);
    VisitsArePlanCovers(w.patch, pl, x, y, z);
    var a, b, c := CoverCount(pl.xs, w.patch.x, |pl.xs|, x), CoverCount(pl.ys, w.patch.y, |pl.ys|, y), CoverCount(pl.zs, w.patch.z, |pl.zs|, z);
    ProductPositive(a, b, c);
  }

  /** A voxel that no window visits keeps score 0: each window adds only inside itself. */
  lemma {:induction false} UnvisitedZ(w: Sweep, ox: nat, oy: nat, zs: seq<nat>, n: nat, c: nat, x: int, y: int, z: int)
    requires Valid(w) && ox + w.patch.x <= w.size.x && oy + w.patch.y <= w.size.y
    requires AxisFits(zs, w.patch.z, w.size.z) && n <= |zs|
    requires VisitZ(w.patch, ox, oy, zs, n, x, y, z) == 0
    ensures ScoreZ(w, ox, oy, zs, n, c, x, y, z) == 0.0
  {
    if n > 0 {
      UnvisitedZ(w, ox, oy, zs, n - 1, c, x, y, z);
    }
  }

  lemma {:induction false} UnvisitedY(w: Sweep, ox: nat, ys: seq<nat>, zs: seq<nat>, n: nat, c: nat, x: int, y: int, z: int)
    requires Valid(w) && ox + w.patch.x <= w.size.x
    requires AxisFits(ys, w.patch.y, w.size.y) && AxisFits(zs, w.patch.z, w.size.z) && n <= |ys|
    requires VisitY(w.patch, ox, ys, zs, n, x, y, z) == 0
    ensures ScoreY(w, ox, ys, zs, n, c, x, y, z) == 0.0
  {
    if n > 0 {
      UnvisitedY(w, ox, ys, zs, n - 1, c, x, y, z);
      UnvisitedZ(w, ox, ys[n - 1], zs, |zs|, c, x, y, z);
    }
  }

  lemma {:induction false} UnvisitedX(w: Sweep, pl: Plan, n: nat, c: nat, x: int, y: int, z: int)
    requires Valid(w) && PlanFits(w, pl) && n <= |pl.xs|
    requires VisitX(w.patch, pl, n, x, y, z) == 0
    ensures ScoreX(w, pl, n, c, x, y, z) == 0.0
  {
    if n > 0 {
      UnvisitedX(w, pl, n - 1, c, x, y, z);
      UnvisitedY(w, pl.xs[n - 1], pl.ys, pl.zs, |pl.ys|, c, x, y, z);
    }
  }

  /** A voxel with visit count 0 has accumulated score 0 in every class. */
  lemma UnvisitedScoresZero(w: Sweep, pl: Plan, c: nat, x: int, y: int, z: int)
    requires Valid(w) && PlanFits(w, pl)
    requires TotalVisits(w.patch, pl, x, y, z) == 0
    ensures TotalScore(w, pl, c, x, y, z) == 0.0
  {
    UnvisitedX(w, pl, |pl.xs|, c, x, y, z);
  }

  /** The network ends in a softmax: every value it reports is a probability. */
  ghost predicate Probabilities(net: Net) {
    forall g, c, lx, ly, lz :: 0.0 <= net(g, c, lx, ly, lz) <= 1.0
  }

  /** A column's accumulated score lies between 0 and its visit count when the network reports probabilities. */
  lemma {:induction false} ScoreZBounded(w: Sweep, ox: nat, oy: nat, zs: seq<nat>, n: nat, c: nat, x: int, y: int, z: int)
    requires Valid(w) && ox + w.patch.x <= w.size.x && oy + w.patch.y <= w.size.y
    requires AxisFits(zs, w.patch.z, w.size.z) && n <= |zs| && Probabilities(w.net)
    ensures 0.0 <= ScoreZ(w, ox, oy, zs, n, c, x, y, z) <= VisitZ(w.patch, ox, oy, zs, n, x, y, z) as real
  {
    if n > 0 {
      ScoreZBounded(w, ox, oy, zs, n - 1, c, x, y, z);
    }
  }

  lemma {:induction false} ScoreYBounded(w: Sweep, ox: nat, ys: seq<nat>, zs: seq<nat>, n: nat, c: nat, x: int, y: int, z: int)
    requires Valid(w) && ox + w.patch.x <= w.size.x
    requires AxisFits(ys, w.patch.y, w.size.y) && AxisFits(zs, w.patch.z, w.size.z) && n <= |ys| && Probabilities(w.net)
    ensures 0.0 <= ScoreY(w, ox, ys, zs, n, c, x, y, z) <= VisitY(w.patch, ox, ys, zs, n, x, y, z) as real
  {
    if n > 0 {
      ScoreYBounded(w, ox, ys, zs, n - 1, c, x, y, z);
      ScoreZBounded(w, ox, ys[n - 1], zs, |zs|, c, x, y, z);
    }
  }

  lemma {:induction false} ScoreXBounded(w: Sweep, pl: Plan, n: nat, c: nat, x: int, y: int, z: int)
    requires Valid(w) && PlanFits(w, pl) && n <= |pl.xs| && Probabilities(w.net)
    ensures 0.0 <= ScoreX(w, pl, n, c, x, y, z) <= VisitX(w.patch, pl, n, x, y, z) as real
  {
    if n > 0 {
      ScoreXBounded(w, pl, n - 1, c, x, y, z);
      ScoreYBounded(w, pl.xs[n - 1], pl.ys, pl.zs, |pl.ys|, c, x, y, z);
    }
  }

  /** Each visit adds at most 1 to a class score: the accumulated score is between 0 and the visit count. */
  lemma TotalScoreBounded(w: Sweep, pl: Plan, c: nat, x: int, y: int, z: int)
    requires Valid(w) && PlanFits(w, pl) && Probabilities(w.net)
    ensures 0.0 <= TotalScore(w, pl, c, x, y, z) <= TotalVisits(w.patch, pl, x, y, z) as real
  {
    ScoreXBounded(w, pl, |pl.xs|, c, x, y, z);
  }

  /**
   * One iteration of the innermost loop: the patch at `o` is cut out and passed to the network,
   * its response is added to the scores inside the window and 1 to the counts inside it.
   */
  method AddWindow(w: Sweep, o: Vec3, score: array4<real>, cnt: array3<nat>)
    requires Valid(w) && Fits(o, w.patch, w.size)
    requires Sized(w, score, cnt)
    modifies score, cnt
    ensures forall c, x, y, z :: 0 <= c < w.classes && InVolume(w.size, x, y, z) ==>
              score[c, x, y, z] == old(score[c, x, y, z]) + Response(w, o, c, x, y, z)
    ensures forall x, y, z :: InVolume(w.size, x, y, z) ==>
              cnt[x, y, z] == old(cnt[x, y, z]) + (if InWindow(o, w.patch, x, y, z) then 1 else 0)
  {
    var p := w.patch;
    var patch := Crop3(w.img, w.size, o, p);
    forall c, x, y, z | 0 <= c < w.classes && o.x <= x < o.x + p.x && o.y <= y < o.y + p.y && o.z <= z < o.z + p.z {
      score[c, x, y, z] := score[c, x, y, z] + w.net(patch, c, x - o.x, y - o.y, z - o.z);
    }
    forall x, y, z | o.x <= x < o.x + p.x && o.y <= y < o.y + p.y && o.z <= z < o.z + p.z {
      cnt[x, y, z] := cnt[x, y, z] + 1;
    }
  }

  predicate Sized(w: Sweep, score: array4<real>, cnt: array3<nat>) {
    && score.Length0 == w.classes
    && score.Length1 == w.size.x && score.Length2 == w.size.y && score.Length3 == w.size.z
    && cnt.Length0 == w.size.x && cnt.Length1 == w.size.y && cnt.Length2 == w.size.z
  }

  /** The innermost loop: the windows `(ox, oy, zs)` for every planned `zs`, with `zs = min(stride_z * k, dd - p)`. */
  method SweepColumn(w: Sweep, ox: nat, oy: nat, sz: nat, score: array4<real>, cnt: array3<nat>)
    requires Valid(w) && ox + w.patch.x <= w.size.x && oy + w.patch.y <= w.size.y
    requires sz > 0 && Sized(w, score, cnt)
    modifies score, cnt
    ensures forall c, x, y, z :: 0 <= c < w.classes && InVolume(w.size, x, y, z) ==>
              score[c, x, y, z] == old(score[c, x, y, z]) + ScoreZ(w, ox, oy, ZOrigins(w, sz), |ZOrigins(w, sz)|, c, x, y, z)
    ensures forall x, y, z :: InVolume(w.size, x, y, z) ==>
              cnt[x, y, z] == old(cnt[x, y, z]) + VisitZ(w.patch, ox, oy, ZOrigins(w, sz), |ZOrigins(w, sz)|, x, y, z)
  {
    ghost var zs := ZOrigins(w, sz);
    var dd, p := w.size.z, w.patch.z;
    var nz := OriginCount(dd, p, sz);
    var k := 0;
    while k < nz
      invariant 0 <= k <= nz
      invariant forall c, x, y, z :: 0 <= c < w.classes && InVolume(w.size, x, y, z) ==>
                  score[c, x, y, z] == old(score[c, x, y, z]) + ScoreZ(w, ox, oy, zs, k, c, x, y, z)
      invariant forall x, y, z :: InVolume(w.size, x, y, z) ==>
                  cnt[x, y, z] == old(cnt[x, y, z]) + VisitZ(w.patch, ox, oy, zs, k, x, y, z)
    {
      var oz := Min(sz * k, dd - p);
      assert oz == zs[k];
      AddWindow(w, Vec3(ox, oy, oz), score, cnt);
      k := k + 1;
    }
  }

  /** The middle loop: one column for every planned `ys = min(stride_xy * j, hh - p)`. */
  method SweepSlab(w: Sweep, ox: nat, sxy: nat, sz: nat, score: array4<real>, cnt: array3<nat>)
    requires Valid(w) && ox + w.patch.x <= w.size.x
    requires sxy > 0 && sz > 0 && Sized(w, score, cnt)
    modifies score, cnt
    ensures forall c, x, y, z :: 0 <= c < w.classes && InVolume(w.size, x, y, z) ==>
              score[c, x, y, z] == old(score[c, x, y, z])
                                   + ScoreY(w, ox, YOrigins(w, sxy), ZOrigins(w, sz), |YOrigins(w, sxy)|, c, x, y, z)
    ensures forall x, y, z :: InVolume(w.size, x, y, z) ==>
              cnt[x, y, z] == old(cnt[x, y, z])
                              + VisitY(w.patch, ox, YOrigins(w, sxy), ZOrigins(w, sz), |YOrigins(w, sxy)|, x, y, z)
  {
    ghost var ys, zs := YOrigins(w, sxy), ZOrigins(w, sz);
    var hh, p := w.size.y, w.patch.y;
    var ny := OriginCount(hh, p, sxy);
    var j := 0;
    while j < ny
      invariant 0 <= j <= ny
      invariant forall c, x, y, z :: 0 <= c < w.classes && InVolume(w.size, x, y, z) ==>
                  score[c, x, y, z] == old(score[c, x, y, z]) + ScoreY(w, ox, ys, zs, j, c, x, y, z)
      invariant forall x, y, z :: InVolume(w.size, x, y, z) ==>
                  cnt[x, y, z] == old(cnt[x, y, z]) + VisitY(w.patch, ox, ys, zs, j, x, y, z)
    {
      var oy := Min(sxy * j, hh - p);
      assert oy == ys[j];
      SweepColumn(w, ox, oy, sz, score, cnt);
      j := j + 1;
    }
  }

  /**
   * The triple loop of the engine. Both volumes start at zero; the outer loop takes one slab for
   * every planned `xs = min(stride_xy * i, ww - p)`. Each window adds the network response to the
   * scores inside it and 1 to the counts inside it, and nothing elsewhere.
   */
  method Accumulate(w: Sweep, sxy: nat, sz: nat) returns (score: array4<real>, cnt: array3<nat>)
    requires Valid(w) && sxy > 0 && sz > 0
    ensures fresh(score) && fresh(cnt)
    ensures Sized(w, score, cnt)
    ensures forall c, x, y, z :: 0 <= c < w.classes && InVolume(w.size, x, y, z) ==>
              score[c, x, y, z] == TotalScore(w, PlanFor(w, sxy, sz), c, x, y, z)
    ensures forall x, y, z :: InVolume(w.size, x, y, z) ==>
              cnt[x, y, z] == TotalVisits(w.patch, PlanFor(w, sxy, sz), x, y, z)
  {
    ghost var pl := PlanFor(w, sxy, sz);
    var ww, p := w.size.x, w.patch.x;
    var nx := OriginCount(ww, p, sxy);
    score := new real[w.classes, w.size.x, w.size.y, w.size.z]((c, x, y, z) => 0.0);
    cnt := new nat[w.size.x, w.size.y, w.size.z]((x, y, z) => 0);
    var i := 0;
    while i < nx
      invariant 0 <= i <= nx
      invariant forall c, x, y, z :: 0 <= c < w.classes && InVolume(w.size, x, y, z) ==>
                  score[c, x, y, z] == ScoreX(w, pl, i, c, x, y, z)
      invariant forall x, y, z :: InVolume(w.size, x, y, z) ==> cnt[x, y, z] == VisitX(w.patch, pl, i, x, y, z)
    {
      var ox := Min(sxy * i, ww - p);
      assert ox == pl.xs[i];
      SweepSlab(w, ox, sxy, sz, score, cnt);
      i := i + 1;
    }
  }
}
