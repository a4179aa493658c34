/**
 * Symmetric zero padding of a volume up to the patch size, and the crop that undoes it.
 * An axis shorter than the patch is padded by the missing voxel count, split as
 * `deficit / 2` on the low side and the remainder on the high side.
 */
module Padding {
  import opened Volumes

  /** Voxels an axis of length `extent` lacks to hold one patch of length `patch`. */
  function Deficit(extent: nat, patch: nat): (d: nat)
    ensures extent < patch ==> extent + d == patch
    ensures patch <= extent ==> d == 0
  {
    if extent < patch then patch - extent else 0
  }

  /** The padding descriptor: voxels added below (`lo`) and above (`hi`) on each axis, and whether any were. */
  datatype PadSpec = PadSpec(lo: Vec3, hi: Vec3, needed: bool)

  function Max(a: nat, b: nat): nat {
    if a < b then b else a
  }

  /** The padding the engine applies to a volume of shape `s` for patches of size `p`. */
  function PlanPadding(s: Vec3, p: Vec3): (r: PadSpec)
    ensures r.lo.x + r.hi.x == Deficit(s.x, p.x)
    ensures r.lo.y + r.hi.y == Deficit(s.y, p.y)
    ensures r.lo.z + r.hi.z == Deficit(s.z, p.z)
    ensures r.lo.x <= r.hi.x <= r.lo.x + 1 && r.lo.y <= r.hi.y <= r.lo.y + 1 && r.lo.z <= r.hi.z <= r.lo.z + 1
    ensures r.needed <==> (s.x < p.x || s.y < p.y || s.z < p.z)
    ensures Add(Add(s, r.lo), r.hi) == Vec3(Max(s.x, p.x), Max(s.y, p.y), Max(s.z, p.z))
  {
    var dw, dh, dd := Deficit(s.x, p.x), Deficit(s.y, p.y), Deficit(s.z, p.z);
    PadSpec(Vec3(dw / 2, dh / 2, dd / 2), Vec3(dw - dw / 2, dh - dh / 2, dd - dd / 2),
            s.x < p.x || s.y < p.y || s.z < p.z)
  }

  predicate Inside(x: int, y: int, z: int, lo: Vec3, s: Vec3) {
    lo.x <= x < lo.x + s.x && lo.y <= y < lo.y + s.y && lo.z <= z < lo.z + s.z
  }

  /** `g` surrounded by `lo` zero voxels below and `hi` above on each axis (constant mode, value 0). */
  function Pad(g: Grid3<real>, s: Vec3, lo: Vec3, hi: Vec3): (r: Grid3<real>)
    requires Shaped3(g, s)
    ensures Shaped3(r, Add(Add(s, lo), hi))
  {
    var t := Add(Add(s, lo), hi);
    seq(t.x, x requires 0 <= x < t.x =>
      seq(t.y, y requires 0 <= y < t.y =>
        seq(t.z, z requires 0 <= z < t.z =>
          if Inside(x, y, z, lo, s) then g[x - lo.x][y - lo.y][z - lo.z] else 0.0)))
  }

  /** Every voxel the padding adds is zero and every original voxel is moved by `lo`. */
  lemma PadAt(g: Grid3<real>, s: Vec3, lo: Vec3, hi: Vec3, x: nat, y: nat, z: nat)
    requires Shaped3(g, s)
    requires x < s.x + lo.x + hi.x && y < s.y + lo.y + hi.y && z < s.z + lo.z + hi.z
    ensures Inside(x, y, z, lo, s) ==> Pad(g, s, lo, hi)[x][y][z] == g[x - lo.x][y - lo.y][z - lo.z]
    ensures !Inside(x, y, z, lo, s) ==> Pad(g, s, lo, hi)[x][y][z] == 0.0
  {
  }

  /** Cropping the padded volume at `[lo, lo + s)` gives back the original volume exactly. */
  lemma CropUndoesPad(g: Grid3<real>, s: Vec3, lo: Vec3, hi: Vec3)
    requires Shaped3(g, s)
    ensures Fits(lo, s, Add(Add(s, lo), hi))
    ensures Crop3(Pad(g, s, lo, hi), Add(Add(s, lo), hi), lo, s) == g
  {
    var t := Add(Add(s, lo), hi);
    var c := Crop3(Pad(g, s, lo, hi), t, lo, s);
    forall x, y, z | 0 <= x < s.x && 0 <= y < s.y && 0 <= z < s.z
      ensures c[x][y][z] == g[x][y][z]
    {
      PadAt(g, s, lo, hi, lo.x + x, lo.y + y, lo.z + z);
      CropAt(Pad(g, s, lo, hi), t, lo, s, x, y, z);
    }
    Grid3Ext(c, g, s);
  }

  /** An all-zero descriptor makes padding a no-op. */
  lemma PadNothingIsIdentity(g: Grid3<real>, s: Vec3)
    requires Shaped3(g, s)
    ensures Pad(g, s, Vec3(0, 0, 0), Vec3(0, 0, 0)) == g
  {
    var z0 := Vec3(0, 0, 0);
    var r := Pad(g, s, z0, z0);
    assert Add(Add(s, z0), z0) == s;
    forall x, y, z | 0 <= x < s.x && 0 <= y < s.y && 0 <= z < s.z
      ensures r[x][y][z] == g[x][y][z]
    {
      PadAt(g, s, z0, z0, x, y, z);
    }
    Grid3Ext(r, g, s);
  }

  /** A volume no axis of which is shorter than the patch gets an all-zero descriptor. */
  lemma NoDeficitNoPadding(s: Vec3, p: Vec3)
    requires p.x <= s.x && p.y <= s.y && p.z <= s.z
    ensures PlanPadding(s, p) == PadSpec(Vec3(0, 0, 0), Vec3(0, 0, 0), false)
  {
  }

  /** A crop of the whole extent from the origin is the identity. */
  lemma CropWholeIsIdentity<T>(g: Grid3<T>, s: Vec3)
    requires Shaped3(g, s)
    ensures Crop3(g, s, Vec3(0, 0, 0), s) == g
  {
    var c := Crop3(g, s, Vec3(0, 0, 0), s);
    forall x, y, z | 0 <= x < s.x && 0 <= y < s.y && 0 <= z < s.z
      ensures c[x][y][z] == g[x][y][z]
    {
      CropAt(g, s, Vec3(0, 0, 0), s, x, y, z);
    }
    Grid3Ext(c, g, s);
  }

  /**
   * The engine's first step: the padded volume, its shape and the descriptor kept for the
   * final crop. When no axis is short the volume is passed through untouched.
   */
  function PadToPatch(g: Grid3<real>, s: Vec3, p: Vec3): (r: (Grid3<real>, Vec3, PadSpec))
    requires Shaped3(g, s)
    ensures r.2 == PlanPadding(s, p)
    ensures r.1 == Add(Add(s, r.2.lo), r.2.hi) && Shaped3(r.0, r.1)
    ensures p.x <= r.1.x && p.y <= r.1.y && p.z <= r.1.z
    ensures Fits(r.2.lo, s, r.1) && Crop3(r.0, r.1, r.2.lo, s) == g
    ensures r.2.needed ==> r.0 == Pad(g, s, r.2.lo, r.2.hi)
    ensures !r.2.needed ==> r.0 == g
  {
    var spec := PlanPadding(s, p);
    var t := Add(Add(s, spec.lo), spec.hi);
    if spec.needed then
      CropUndoesPad(g, s, spec.lo, spec.hi);
      (Pad(g, s, spec.lo, spec.hi), t, spec)
    else
      NoDeficitNoPadding(s, p);
      CropWholeIsIdentity(g, s);
      (g, t, spec)
  }
}
