/**
 * The largest-connected-component filter. The connected-component labelling itself is an
 * input here (`label` of scikit-image): a volume of component numbers, 0 for background and
 * `1..K` for the components. The filter keeps the component with the most voxels, the
 * lowest-numbered one on a tie, and fails when there is no component at all.
 */
module LargestComponent {
  import opened Volumes
  import opened Resolver

  /** The voxels of a volume in C order (`labels.flat`): x slowest, z fastest. */
  function Flatten(g: Grid3<nat>): (f: seq<nat>)
    ensures forall v :: v in f <==> exists x, y, z :: 0 <= x < |g| && 0 <= y < |g[x]| && 0 <= z < |g[x][y]| && g[x][y][z] == v
  {
    if |g| == 0 then []
    else
      var f := Flatten(g[..|g| - 1]) + FlattenSlab(g[|g| - 1]);
      assert forall x :: 0 <= x < |g| - 1 ==> g[..|g| - 1][x] == g[x];
      f
  }

  function FlattenSlab(s: seq<seq<nat>>): (f: seq<nat>)
    ensures forall v :: v in f <==> exists y, z :: 0 <= y < |s| && 0 <= z < |s[y]| && s[y][z] == v
  {
    if |s| == 0 then []
    else
      var f := FlattenSlab(s[..|s| - 1]) + s[|s| - 1];
      assert forall y :: 0 <= y < |s| - 1 ==> s[..|s| - 1][y] == s[y];
      f
  }

  /** The C-order offset of voxel `(x, y, z)` in a volume whose last two axes have lengths `ny` and `nz`. */
  function Offset(ny: nat, nz: nat, x: nat, y: nat, z: nat): nat {
    (x * ny + y) * nz + z
  }

  /** The C-order offset of `(y, z)` within one slab. */
  function SlabOffset(nz: nat, y: nat, z: nat): nat {
    y * nz + z
  }

  /**
   * The C-order layout of `Flatten`: a volume of shape `s` has `s.x * s.y * s.z` entries, and
   * voxel `(x, y, z)` sits at offset `(x * s.y + y) * s.z + z`.
   */
  lemma {:induction false} FlattenLayout(g: Grid3<nat>, s: Vec3)
    requires Shaped3(g, s)
    ensures |Flatten(g)| == s.x * (s.y * s.z)
    ensures forall x, y, z :: InVolume(s, x, y, z) ==> Offset(s.y, s.z, x, y, z) < |Flatten(g)|
    ensures forall x, y, z :: InVolume(s, x, y, z) ==> Flatten(g)[Offset(s.y, s.z, x, y, z)] == g[x][y][z]
  {
    forall x, y, z | InVolume(s, x, y, z)
      ensures Offset(s.y, s.z, x, y, z) < s.x * (s.y * s.z)
    {
      OffsetBound(s, x, y, z);
    }
    if s.x > 0 {
      var init := g[..s.x - 1];
      var t := Vec3(s.x - 1, s.y, s.z);
      assert Shaped3(init, t);
      FlattenLayout(init, t);
      FlattenSlabLayout(g[s.x - 1], s.y, s.z);
      BlockLength(s.x, s.y * s.z);
      assert Flatten(g) == Flatten(init) + FlattenSlab(g[s.x - 1]);
      forall x, y, z | InVolume(s, x, y, z)
        ensures Flatten(g)[Offset(s.y, s.z, x, y, z)] == g[x][y][z]
      {
        FlattenAt(Flatten(init), FlattenSlab(g[s.x - 1]), s, x, y, z);
        if x < s.x - 1 {
          assert InVolume(t, x, y, z) && init[x] == g[x];
        }
      }
    }
  }

  /** Where voxel `(x, y, z)` lands in the concatenation of the first `s.x - 1` slabs `a` and the last slab `b`. */
  lemma FlattenAt(a: seq<nat>, b: seq<nat>, s: Vec3, x: nat, y: nat, z: nat)
    requires InVolume(s, x, y, z)
    requires |a| == (s.x - 1) * (s.y * s.z) && |b| == s.y * s.z
    ensures Offset(s.y, s.z, x, y, z) < |a| + |b|
    ensures SlabOffset(s.z, y, z) < |b|
    ensures x < s.x - 1 ==> Offset(s.y, s.z, x, y, z) < |a| && (a + b)[Offset(s.y, s.z, x, y, z)] == a[Offset(s.y, s.z, x, y, z)]
    ensures x == s.x - 1 ==> (a + b)[Offset(s.y, s.z, x, y, z)] == b[SlabOffset(s.z, y, z)]
  {
    OffsetSplit(s, x, y, z);
    OffsetBound(s, x, y, z);
    BlockLength(s.x, s.y * s.z);
    var k, j := Offset(s.y, s.z, x, y, z), SlabOffset(s.z, y, z);
    if x == s.x - 1 {
      ConcatAt(a, b, k, j);
    }
  }

  lemma ConcatAt(a: seq<nat>, b: seq<nat>, k: nat, j: nat)
    requires k == |a| + j && j < |b|
    ensures (a + b)[k] == b[j]
  {
  }

  /** The offset of a voxel falls in the block of the first `s.x - 1` slabs, or in the last slab at its slab offset. */
  lemma OffsetSplit(s: Vec3, x: nat, y: nat, z: nat)
    requires InVolume(s, x, y, z)
    ensures SlabOffset(s.z, y, z) < s.y * s.z
    ensures x < s.x - 1 ==> Offset(s.y, s.z, x, y, z) < (s.x - 1) * (s.y * s.z)
    ensures x == s.x - 1 ==> Offset(s.y, s.z, x, y, z) == (s.x - 1) * (s.y * s.z) + SlabOffset(s.z, y, z)
  {
    var m := s.y * s.z;
    var j := SlabOffset(s.z, y, z);
    RowMajor(x, y, s.y, s.z, z);
    CellBelow(y, z, s.y, s.z);
    if x < s.x - 1 {
      CellBelow(x, j, s.x - 1, m);
    }
  }

  /** Every voxel's offset lies inside the flattened volume. */
  lemma OffsetBound(s: Vec3, x: nat, y: nat, z: nat)
    requires InVolume(s, x, y, z)
    ensures Offset(s.y, s.z, x, y, z) < s.x * (s.y * s.z)
  {
    RowMajor(x, y, s.y, s.z, z);
    CellBelow(y, z, s.y, s.z);
    CellBelow(x, SlabOffset(s.z, y, z), s.x, s.y * s.z);
  }

  /** `n` blocks of `m` are `n - 1` blocks and one more. */
  lemma BlockLength(n: nat, m: nat)
    requires n > 0
    ensures (n - 1) * m + m == n * m
  {
  }

  /** The C-order layout of one slab: `ny * nz` entries, with `(y, z)` at `y * nz + z`. */
  lemma {:induction false} FlattenSlabLayout(sl: seq<seq<nat>>, ny: nat, nz: nat)
    requires |sl| == ny && forall y :: 0 <= y < ny ==> |sl[y]| == nz
    ensures |FlattenSlab(sl)| == ny * nz
    ensures forall y, z :: 0 <= y < ny && 0 <= z < nz ==> SlabOffset(nz, y, z) < |FlattenSlab(sl)|
    ensures forall y, z :: 0 <= y < ny && 0 <= z < nz ==> FlattenSlab(sl)[SlabOffset(nz, y, z)] == sl[y][z]
  {
    forall y, z | 0 <= y < ny && 0 <= z < nz
      ensures SlabOffset(nz, y, z) < ny * nz
    {
      CellBelow(y, z, ny, nz);
    }
    if ny > 0 {
      var init := sl[..ny - 1];
      FlattenSlabLayout(init, ny - 1, nz);
      BlockLength(ny, nz);
      var f := FlattenSlab(sl);
      assert f == FlattenSlab(init) + sl[ny - 1];
      forall y, z | 0 <= y < ny && 0 <= z < nz
        ensures f[SlabOffset(nz, y, z)] == sl[y][z]
      {
        if y < ny - 1 {
          CellBelow(y, z, ny - 1, nz);
          assert sl[y] == init[y];
        } else {
          assert SlabOffset(nz, y, z) == (ny - 1) * nz + z;
        }
      }
    }
  }

  /** A cell index of a row-major `n`-by-`m` block lies inside the block. */
  lemma CellBelow(i: nat, j: nat, n: nat, m: nat)
    requires i < n && j < m
    ensures i * m + j < n * m
  {
    assert (i + 1) * m <= n * m;
  }

  /** The C-order offset regrouped: the slab offset `x * (ny * nz)` plus the offset within the slab. */
  lemma RowMajor(x: nat, y: nat, ny: nat, nz: nat, z: nat)
    ensures Offset(ny, nz, x, y, z) == x * (ny * nz) + SlabOffset(nz, y, z)
  {
  }

  /** How often `v` occurs in `f`. */
  function Occurrences(f: seq<nat>, v: nat): (k: nat)
    ensures k <= |f|
  {
    if |f| == 0 then 0
    else Occurrences(f[..|f| - 1], v) + (if f[|f| - 1] == v then 1 else 0)
  }

  lemma {:induction false} OccurrencesPositive(f: seq<nat>, v: nat)
    ensures Occurrences(f, v) > 0 <==> v in f
  {
    if |f| > 0 {
      OccurrencesPositive(f[..|f| - 1], v);
      assert f == f[..|f| - 1] + [f[|f| - 1]];
    }
  }

  /** `labels.max()` of a non-empty vector. */
  function MaxOf(f: seq<nat>): (m: nat)
    requires |f| > 0
    ensures m in f && forall i :: 0 <= i < |f| ==> f[i] <= m
  {
    if |f| == 1 then f[0]
    else
      var m := MaxOf(f[..|f| - 1]);
      assert forall i :: 0 <= i < |f| - 1 ==> f[..|f| - 1][i] == f[i];
      if f[|f| - 1] > m then f[|f| - 1] else m
  }

  /** `np.bincount(f)[1:]`: entry `i` is the number of voxels of component `i + 1`, for `i + 1 <= max`. */
  function ComponentSizes(f: seq<nat>, m: nat): (b: seq<nat>)
    ensures |b| == m && forall i :: 0 <= i < m ==> b[i] == Occurrences(f, i + 1)
  {
    seq(m, (i: nat) => Occurrences(f, i + 1))
  }

  /** The sizes as the float vector `np.argmax` ranks. */
  function AsScores(b: seq<nat>): (s: seq<Score>)
    ensures |s| == |b| && forall i :: 0 <= i < |b| ==> s[i] == Finite(b[i] as real)
  {
    seq(|b|, i requires 0 <= i < |b| => Finite(b[i] as real))
  }

  /** The number of the largest component: `argmax(bincount[1:]) + 1`. */
  function LargestLabel(f: seq<nat>): (r: Outcome<nat>)
    ensures r.Failure? <==> |f| == 0 || MaxOf(f) == 0
    ensures r.Failure? ==> r.error == (if |f| == 0 then EmptyVolume else NoComponent)
  {
    if |f| == 0 then Failure(EmptyVolume)
    else
      var m := MaxOf(f);
      if m == 0 then Failure(NoComponent)
      else Success(ArgMax(AsScores(ComponentSizes(f, m))) + 1)
  }

  /**
   * The chosen component exists, no component is larger, and every lower-numbered one is
   * strictly smaller: the first of the largest components wins.
   */
  lemma LargestLabelIsLargest(f: seq<nat>)
    requires LargestLabel(f).Success?
    ensures var l := LargestLabel(f).value;
            && 1 <= l <= MaxOf(f) && l in f
            && (forall k :: 1 <= k <= MaxOf(f) ==> Occurrences(f, k) <= Occurrences(f, l))
            && (forall k :: 1 <= k < l ==> Occurrences(f, k) < Occurrences(f, l))
  {
    var m := MaxOf(f);
    var b := ComponentSizes(f, m);
    var s := AsScores(b);
    var l := LargestLabel(f).value;
    assert l - 1 == ArgMax(s);
    ArgMaxIsFirstMaximum(s);
    forall k | 1 <= k <= m
      ensures Occurrences(f, k) <= Occurrences(f, l)
    {
      assert s[k - 1].value <= s[l - 1].value;
    }
    forall k | 1 <= k < l
      ensures Occurrences(f, k) < Occurrences(f, l)
    {
      assert s[k - 1].value < s[l - 1].value;
    }
    OccurrencesPositive(f, m);
    OccurrencesPositive(f, l);
    assert Occurrences(f, m) <= Occurrences(f, l);
  }

  /** `getLargestCC` on the component labelling `labels`: the mask of its largest component. */
  function GetLargestCC(labels: Grid3<nat>): (r: Outcome<Grid3<bool>>)
    ensures r.Failure? <==> LargestLabel(Flatten(labels)).Failure?
    ensures r.Success? ==> r.value == Mask(labels, LargestLabel(Flatten(labels)).value)
  {
    var l := LargestLabel(Flatten(labels));
    if l.Failure? then Failure(l.error) else Success(Mask(labels, l.value))
  }

  /** `labels == l`, voxel by voxel. */
  function Mask(g: Grid3<nat>, l: nat): (r: Grid3<bool>)
    ensures |r| == |g| && forall x :: 0 <= x < |g| ==> |r[x]| == |g[x]|
    ensures forall x, y :: 0 <= x < |g| && 0 <= y < |g[x]| ==> |r[x][y]| == |g[x][y]|
    ensures forall x, y, z :: 0 <= x < |g| && 0 <= y < |g[x]| && 0 <= z < |g[x][y]| ==> (r[x][y][z] <==> g[x][y][z] == l)
  {
    seq(|g|, x requires 0 <= x < |g| =>
      seq(|g[x]|, y requires 0 <= y < |g[x]| =>
        seq(|g[x][y]|, z requires 0 <= z < |g[x][y]| => g[x][y][z] == l)))
  }

  /** The filter fails exactly when every voxel of the labelling is background. */
  lemma FailsIffNoComponent(labels: Grid3<nat>)
    ensures GetLargestCC(labels).Failure? <==> forall v :: v in Flatten(labels) ==> v == 0
  {
    var f := Flatten(labels);
    if |f| > 0 && MaxOf(f) == 0 {
      forall v | v in f
        ensures v == 0
      {
        var i :| 0 <= i < |f| && f[i] == v;
      }
    } else if |f| > 0 {
      assert MaxOf(f) in f && MaxOf(f) != 0;
      assert LargestLabel(f).Success?;
      assert GetLargestCC(labels).Success?;
      assert !(forall v :: v in f ==> v == 0);
    } else {
      assert f == [];
    }
  }

  /** A labelling that is 0 at every voxel has no component. */
  lemma NoComponentLeft(cl: Grid3<nat>, s: Vec3)
    requires Shaped3(cl, s)
    requires forall x, y, z :: InVolume(s, x, y, z) ==> cl[x][y][z] == 0
    ensures GetLargestCC(cl).Failure?
  {
    forall v | v in Flatten(cl)
      ensures v == 0
    {
      var x, y, z :| 0 <= x < |cl| && 0 <= y < |cl[x]| && 0 <= z < |cl[x][y]| && cl[x][y][z] == v;
      assert InVolume(s, x, y, z);
    }
    FailsIffNoComponent(cl);
  }

  /** Every kept voxel belongs to a component: it carries the chosen component number, which is at least 1. */
  lemma KeptVoxelIsLabelled(labels: Grid3<nat>, x: nat, y: nat, z: nat)
    requires GetLargestCC(labels).Success?
    requires x < |labels| && y < |labels[x]| && z < |labels[x][y]| && GetLargestCC(labels).value[x][y][z]
    ensures labels[x][y][z] == LargestLabel(Flatten(labels)).value >= 1
  {
    LargestLabelIsLargest(Flatten(labels));
  }

  /** The kept mask is never empty: the largest component has a voxel. */
  lemma KeptMaskIsNonEmpty(labels: Grid3<nat>)
    requires GetLargestCC(labels).Success?
    ensures exists x, y, z :: 0 <= x < |labels| && 0 <= y < |labels[x]| && 0 <= z < |labels[x][y]| &&
                             GetLargestCC(labels).value[x][y][z]
  {
    var f := Flatten(labels);
    LargestLabelIsLargest(f);
    var l := LargestLabel(f).value;
    var x, y, z :| 0 <= x < |labels| && 0 <= y < |labels[x]| && 0 <= z < |labels[x][y]| && labels[x][y][z] == l;
    assert Mask(labels, l)[x][y][z];
  }

  /**
   * When the labelling marks exactly the foreground of `seg` (background 0 stays 0, every
   * foreground voxel gets a component number), the kept mask lies inside the foreground.
   */
  lemma KeptMaskIsForeground(seg: Grid3<nat>, labels: Grid3<nat>, s: Vec3, x: nat, y: nat, z: nat)
    requires Shaped3(seg, s) && Shaped3(labels, s) && x < s.x && y < s.y && z < s.z
    requires forall i, j, k :: 0 <= i < s.x && 0 <= j < s.y && 0 <= k < s.z ==> (labels[i][j][k] == 0 <==> seg[i][j][k] == 0)
    requires GetLargestCC(labels).Success? && GetLargestCC(labels).value[x][y][z]
    ensures seg[x][y][z] != 0
  {
    LargestLabelIsLargest(Flatten(labels));
  }
}
