/** Shapes, voxel triples, dense value grids and failure outcomes shared by every stage of the engine. */
module Volumes {

  /** A computation that either yields a value or stops with the reason it stopped. */
  datatype Outcome<T> = Success(value: T) | Failure(error: Error)

  datatype Error =
    | EmptyVolume      // `max()` of an array with no voxels
    | NoComponent      // the assertion that the labelling has at least one component
    | NoCases          // the mean over an empty case list divides by zero

  /** A triple of non-negative integers: a volume shape, a patch size, a padding amount or a window origin. */
  datatype Vec3 = Vec3(x: nat, y: nat, z: nat)

  function Add(a: Vec3, b: Vec3): Vec3 {
    Vec3(a.x + b.x, a.y + b.y, a.z + b.z)
  }

  /** The box `[o, o + e)` lies inside a volume of shape `s`. */
  predicate Fits(o: Vec3, e: Vec3, s: Vec3) {
    o.x + e.x <= s.x && o.y + e.y <= s.y && o.z + e.z <= s.z
  }

  /** Voxel `(x, y, z)` lies in a volume of shape `s`. */
  predicate InVolume(s: Vec3, x: int, y: int, z: int) {
    0 <= x < s.x && 0 <= y < s.y && 0 <= z < s.z
  }

  /** A dense 3D array indexed `[x][y][z]`. */
  type Grid3<T> = seq<seq<seq<T>>>

  /** A dense 4D array indexed `[class][x][y][z]`. */
  type Grid4<T> = seq<Grid3<T>>

  predicate Shaped3<T>(g: Grid3<T>, s: Vec3) {
    && |g| == s.x
    && (forall x :: 0 <= x < |g| ==> |g[x]| == s.y)
    && (forall x, y :: 0 <= x < |g| && 0 <= y < |g[x]| ==> |g[x][y]| == s.z)
  }

  predicate Shaped4<T>(g: Grid4<T>, n: nat, s: Vec3) {
    |g| == n && forall c :: 0 <= c < n ==> Shaped3(g[c], s)
  }

  /** The sub-box of `g` with lower corner `lo` and extent `e` (a numpy slice `g[lo:lo+e]` on each axis). */
  function Crop3<T>(g: Grid3<T>, s: Vec3, lo: Vec3, e: Vec3): (r: Grid3<T>)
    requires Shaped3(g, s) && Fits(lo, e, s)
    ensures Shaped3(r, e)
  {
    seq(e.x, x requires 0 <= x < e.x =>
      seq(e.y, y requires 0 <= y < e.y =>
        seq(e.z, z requires 0 <= z < e.z => g[lo.x + x][lo.y + y][lo.z + z])))
  }

  /** Voxel `(x, y, z)` of the slice is voxel `lo + (x, y, z)` of the volume. */
  lemma CropAt<T>(g: Grid3<T>, s: Vec3, lo: Vec3, e: Vec3, x: nat, y: nat, z: nat)
    requires Shaped3(g, s) && Fits(lo, e, s) && x < e.x && y < e.y && z < e.z
    ensures Crop3(g, s, lo, e)[x][y][z] == g[lo.x + x][lo.y + y][lo.z + z]
  {
  }

  /** The same spatial slice taken of every class channel; the class axis is kept whole. */
  function Crop4<T>(g: Grid4<T>, n: nat, s: Vec3, lo: Vec3, e: Vec3): (r: Grid4<T>)
    requires Shaped4(g, n, s) && Fits(lo, e, s)
    ensures Shaped4(r, n, e)
    ensures forall c :: 0 <= c < n ==> r[c] == Crop3(g[c], s, lo, e)
  {
    seq(n, c requires 0 <= c < n => Crop3(g[c], s, lo, e))
  }

  /** Two grids of one shape that agree at every voxel are equal. */
  lemma Grid3Ext<T>(a: Grid3<T>, b: Grid3<T>, s: Vec3)
    requires Shaped3(a, s) && Shaped3(b, s)
    requires forall x, y, z :: 0 <= x < s.x && 0 <= y < s.y && 0 <= z < s.z ==> a[x][y][z] == b[x][y][z]
    ensures a == b
  {
    forall x | 0 <= x < s.x
      ensures a[x] == b[x]
    {
      forall y | 0 <= y < s.y
        ensures a[x][y] == b[x][y]
      {
        assert |a[x][y]| == |b[x][y]| == s.z;
      }
    }
  }

  lemma Grid4Ext<T>(a: Grid4<T>, b: Grid4<T>, n: nat, s: Vec3)
    requires Shaped4(a, n, s) && Shaped4(b, n, s)
    requires forall c, x, y, z :: 0 <= c < n && 0 <= x < s.x && 0 <= y < s.y && 0 <= z < s.z ==>
               a[c][x][y][z] == b[c][x][y][z]
    ensures a == b
  {
    forall c | 0 <= c < n
      ensures a[c] == b[c]
    {
      Grid3Ext(a[c], b[c], s);
    }
  }
}
