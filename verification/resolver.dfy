/**
 * Score resolution: the accumulated scores are divided by the visit counts and every voxel
 * takes the class of largest normalised score, the first such class on a tie.
 */
module Resolver {
  import opened Volumes
  import opened Accumulation

  /**
   * A normalised score as the float division yields it: a finite value, or the NaN that
   * `0 / 0` gives at a voxel no window visited (its accumulated score is then 0 as well).
   */
  datatype Score = Finite(value: real) | NaN

  /** Accumulated score over visit count. */
  function Divide(sum: real, visits: nat): (r: Score)
    ensures r.NaN? <==> visits == 0
  {
    if visits == 0 then NaN else Finite(sum / visits as real)
  }

  /** numpy's `argmax` over a non-empty vector; `ArgMaxIsFirstMaximum` states what it picks. */
  function ArgMax(s: seq<Score>): (r: nat)
    requires |s| > 0
    ensures r < |s|
  {
    if |s| == 1 then 0
    else
      var k := ArgMax(s[..|s| - 1]);
      if s[k].NaN? then k
      else if s[|s| - 1].NaN? || s[|s| - 1].value > s[k].value then |s| - 1
      else k
  }

  /**
   * The index `argmax` picks is that of the first maximum, where a NaN counts as larger than
   * everything and the first NaN wins.
   */
  lemma {:induction false} ArgMaxIsFirstMaximum(s: seq<Score>)
    requires |s| > 0
    ensures var r := ArgMax(s);
            && (s[r].NaN? <==> exists j :: 0 <= j < |s| && s[j].NaN?)
            && (forall j :: 0 <= j < r ==> s[j].Finite?)
            && (s[r].Finite? ==> forall j :: 0 <= j < |s| ==> s[j].Finite? && s[j].value <= s[r].value)
            && (s[r].Finite? ==> forall j :: 0 <= j < r ==> s[j].value < s[r].value)
  {
    if |s| > 1 {
      var init := s[..|s| - 1];
      ArgMaxIsFirstMaximum(init);
      assert forall j :: 0 <= j < |s| - 1 ==> init[j] == s[j];
    }
  }

  /** The class-axis vector of a score volume at one voxel. */
  function ClassColumn<T>(g: Grid4<T>, n: nat, s: Vec3, x: nat, y: nat, z: nat): (col: seq<T>)
    requires Shaped4(g, n, s) && InVolume(s, x, y, z)
    ensures |col| == n && forall c :: 0 <= c < n ==> col[c] == g[c][x][y][z]
  {
    seq(n, c requires 0 <= c < n => g[c][x][y][z])
  }

  /** Channel `c` of `score_map / cnt`. */
  function NormalizeChannel(score: array4<real>, cnt: array3<nat>, c: nat): (r: Grid3<Score>)
    requires c < score.Length0
    requires score.Length1 == cnt.Length0 && score.Length2 == cnt.Length1 && score.Length3 == cnt.Length2
    reads score, cnt
    ensures Shaped3(r, Vec3(cnt.Length0, cnt.Length1, cnt.Length2))
    ensures forall x, y, z :: 0 <= x < cnt.Length0 && 0 <= y < cnt.Length1 && 0 <= z < cnt.Length2 ==>
              r[x][y][z] == Divide(score[c, x, y, z], cnt[x, y, z])
  {
    seq(cnt.Length0, x requires 0 <= x < cnt.Length0 reads score, cnt =>
      seq(cnt.Length1, y requires 0 <= y < cnt.Length1 reads score, cnt =>
        seq(cnt.Length2, z requires 0 <= z < cnt.Length2 reads score, cnt =>
          Divide(score[c, x, y, z], cnt[x, y, z]))))
  }

  /** `score_map / cnt`, the count broadcast over the class axis. */
  function Normalize(score: array4<real>, cnt: array3<nat>): (r: Grid4<Score>)
    requires score.Length1 == cnt.Length0 && score.Length2 == cnt.Length1 && score.Length3 == cnt.Length2
    reads score, cnt
    ensures Shaped4(r, score.Length0, Vec3(cnt.Length0, cnt.Length1, cnt.Length2))
    ensures forall c :: 0 <= c < score.Length0 ==> r[c] == NormalizeChannel(score, cnt, c)
  {
    seq(score.Length0, c requires 0 <= c < score.Length0 reads score, cnt => NormalizeChannel(score, cnt, c))
  }

  /** `argmax(score_map, axis=0)`: the resolved label volume. */
  function Labels(g: Grid4<Score>, n: nat, s: Vec3): (r: Grid3<nat>)
    requires n >= 1 && Shaped4(g, n, s)
    ensures Shaped3(r, s)
  {
    seq(s.x, x requires 0 <= x < s.x =>
      seq(s.y, y requires 0 <= y < s.y =>
        seq(s.z, z requires 0 <= z < s.z => ArgMax(ClassColumn(g, n, s, x, y, z)))))
  }

  /** The label of a voxel is the arg-max of its class column, hence a class index. */
  lemma LabelAt(g: Grid4<Score>, n: nat, s: Vec3, x: nat, y: nat, z: nat)
    requires n >= 1 && Shaped4(g, n, s) && InVolume(s, x, y, z)
    ensures Labels(g, n, s)[x][y][z] == ArgMax(ClassColumn(g, n, s, x, y, z)) < n
  {
  }

  /** The normalised class-`c` score at a voxel once the whole plan is swept. */
  function NormalizedAt(w: Sweep, pl: Plan, c: nat, x: int, y: int, z: int): Score
    requires Valid(w) && PlanFits(w, pl)
  {
    Divide(TotalScore(w, pl, c, x, y, z), TotalVisits(w.patch, pl, x, y, z))
  }

  /** Class `c` of the normalised score volume a sweep produces. */
  function NormalizedChannel(w: Sweep, pl: Plan, c: nat): (r: Grid3<Score>)
    requires Valid(w) && PlanFits(w, pl)
    ensures Shaped3(r, w.size)
    ensures forall x, y, z :: InVolume(w.size, x, y, z) ==> r[x][y][z] == NormalizedAt(w, pl, c, x, y, z)
  {
    seq(w.size.x, x =>
      seq(w.size.y, y =>
        seq(w.size.z, z => NormalizedAt(w, pl, c, x, y, z))))
  }

  /** The normalised score volume a sweep produces, stated from the accumulated sums. */
  function NormalizedScores(w: Sweep, pl: Plan): (r: Grid4<Score>)
    requires Valid(w) && PlanFits(w, pl)
    ensures Shaped4(r, w.classes, w.size)
    ensures forall c :: 0 <= c < w.classes ==> r[c] == NormalizedChannel(w, pl, c)
  {
    seq(w.classes, (c: nat) => NormalizedChannel(w, pl, c))
  }

  /** A mean of probabilities is a probability: every finite normalised score lies in `[0, 1]`. */
  lemma NormalizedScoreIsProbability(w: Sweep, pl: Plan, c: nat, x: int, y: int, z: int)
    requires Valid(w) && PlanFits(w, pl) && Probabilities(w.net)
    ensures NormalizedAt(w, pl, c, x, y, z).Finite? ==> 0.0 <= NormalizedAt(w, pl, c, x, y, z).value <= 1.0
  {
    var v := TotalVisits(w.patch, pl, x, y, z);
    TotalScoreBounded(w, pl, c, x, y, z);
    if v > 0 {
      MeanBound(TotalScore(w, pl, c, x, y, z), v);
    }
  }

  /** `0 <= sum <= visits` puts `sum / visits` in `[0, 1]`. */
  lemma MeanBound(sum: real, visits: nat)
    requires visits > 0 && 0.0 <= sum <= visits as real
    ensures 0.0 <= sum / visits as real <= 1.0
  {
  }

  /** With `0 < stride <= patch` on every axis no voxel divides by zero: every normalised score is finite. */
  lemma FullCoverageHasNoNaN(w: Sweep, sxy: nat, sz: nat)
    requires Valid(w) && 0 < sxy <= w.patch.x && sxy <= w.patch.y && 0 < sz <= w.patch.z
    ensures forall c, x, y, z :: 0 <= c < w.classes && InVolume(w.size, x, y, z) ==>
              NormalizedScores(w, PlanFor(w, sxy, sz))[c][x][y][z].Finite?
  {
    var pl := PlanFor(w, sxy, sz);
    var r: Grid4<Score> := NormalizedScores(w, pl);
    forall c: int, x: int, y: int, z: int | 0 <= c < w.classes && InVolume(w.size, x, y, z)
      ensures r[c][x][y][z].Finite?
    {
      var ch := NormalizedChannel(w, pl, c);
      assert r[c] == ch;
      EveryVoxelVisited(w, sxy, sz, x, y, z);
      assert ch[x][y][z] == NormalizedAt(w, pl, c, x, y, z);
    }
  }

  /**
   * At a voxel that no window visited, every class is `0 / 0`, and the first NaN wins: the
   * label there is 0. (Only a stride larger than the patch can leave such a voxel.)
   */
  lemma UnvisitedVoxelGetsLabelZero(w: Sweep, pl: Plan, x: nat, y: nat, z: nat)
    requires Valid(w) && PlanFits(w, pl) && w.classes >= 1 && InVolume(w.size, x, y, z)
    requires TotalVisits(w.patch, pl, x, y, z) == 0
    ensures Labels(NormalizedScores(w, pl), w.classes, w.size)[x][y][z] == 0
  {
    var g: Grid4<Score> := NormalizedScores(w, pl);
    var ch := NormalizedChannel(w, pl, 0);
    assert g[0] == ch;
    assert ch[x][y][z] == NormalizedAt(w, pl, 0, x, y, z);
    var col: seq<Score> := ClassColumn(g, w.classes, w.size, x, y, z);
    assert col[0] == g[0][x][y][z];
    assert col[0].NaN?;
    ArgMaxIsFirstMaximum(col);
    LabelAt(g, w.classes, w.size, x, y, z);
  }

  /** When every class ties at a voxel, the voxel takes class 0. */
  lemma UniformScoresGiveClassZero(s: seq<Score>)
    requires |s| > 0 && forall j :: 0 <= j < |s| ==> s[j] == s[0]
    ensures ArgMax(s) == 0
  {
    ArgMaxIsFirstMaximum(s);
  }
}
