/**
 * The single-case engine: pad the volume up to the patch size, sweep the planned windows,
 * normalise the accumulated scores, take the per-voxel arg-max, and crop both results back
 * to the original extent when padding was applied.
 */
module Engine {
  import opened Volumes
  import opened Padding
  import opened Accumulation
  import opened Resolver

  /** The engine's two outputs: the label volume and the normalised per-class score volume. */
  datatype Prediction = Prediction(labels: Grid3<nat>, scores: Grid4<Score>)

  /** The sweep the engine runs on a volume of shape `s`: its padded voxels, padded shape, patch, classes and network. */
  function PaddedSweep(img: Grid3<real>, s: Vec3, patch: Vec3, classes: nat, net: Net): (w: Sweep)
    requires Shaped3(img, s)
    ensures Valid(w) && w.patch == patch && w.classes == classes && w.net == net
    ensures w.size == Add(Add(s, PlanPadding(s, patch).lo), PlanPadding(s, patch).hi)
    ensures Fits(PlanPadding(s, patch).lo, s, w.size)
    ensures Crop3(w.img, w.size, PlanPadding(s, patch).lo, s) == img
    ensures PlanPadding(s, patch).needed ==> w.img == Pad(img, s, PlanPadding(s, patch).lo, PlanPadding(s, patch).hi)
    ensures !PlanPadding(s, patch).needed ==> w.img == img
  {
    var t := PadToPatch(img, s, patch);
    Sweep(t.0, t.1, patch, classes, net)
  }

  /** The class column of a cropped score volume is the column of the uncropped one at the shifted voxel. */
  lemma CropColumn(g: Grid4<Score>, n: nat, t: Vec3, lo: Vec3, s: Vec3, x: nat, y: nat, z: nat)
    requires Shaped4(g, n, t) && Fits(lo, s, t) && InVolume(s, x, y, z)
    ensures ClassColumn(Crop4(g, n, t, lo, s), n, s, x, y, z) == ClassColumn(g, n, t, lo.x + x, lo.y + y, lo.z + z)
  {
    var a := ClassColumn(Crop4(g, n, t, lo, s), n, s, x, y, z);
    var b := ClassColumn(g, n, t, lo.x + x, lo.y + y, lo.z + z);
    forall c | 0 <= c < n
      ensures a[c] == b[c]
    {
      assert Crop4(g, n, t, lo, s)[c] == Crop3(g[c], t, lo, s);
    }
  }

  /** Cropping the label volume gives the arg-max of the cropped score volume: crop and arg-max commute. */
  lemma CropCommutesWithArgMax(g: Grid4<Score>, n: nat, t: Vec3, lo: Vec3, s: Vec3)
    requires n >= 1 && Shaped4(g, n, t) && Fits(lo, s, t)
    ensures Crop3(Labels(g, n, t), t, lo, s) == Labels(Crop4(g, n, t, lo, s), n, s)
  {
    var a := Crop3(Labels(g, n, t), t, lo, s);
    var b := Labels(Crop4(g, n, t, lo, s), n, s);
    forall x, y, z | 0 <= x < s.x && 0 <= y < s.y && 0 <= z < s.z
      ensures a[x][y][z] == b[x][y][z]
    {
      CropLabelAt(g, n, t, lo, s, x, y, z);
    }
    Grid3Ext(a, b, s);
  }

  /** One voxel of `CropCommutesWithArgMax`. */
  lemma CropLabelAt(g: Grid4<Score>, n: nat, t: Vec3, lo: Vec3, s: Vec3, x: nat, y: nat, z: nat)
    requires n >= 1 && Shaped4(g, n, t) && Fits(lo, s, t) && InVolume(s, x, y, z)
    ensures Crop3(Labels(g, n, t), t, lo, s)[x][y][z] == Labels(Crop4(g, n, t, lo, s), n, s)[x][y][z]
  {
    CroppedLabelAt(g, n, t, lo, s, x, y, z);
    LabelOfCropAt(g, n, t, lo, s, x, y, z);
  }

  /** A voxel of the cropped label volume is the arg-max of the column at the shifted voxel. */
  lemma CroppedLabelAt(g: Grid4<Score>, n: nat, t: Vec3, lo: Vec3, s: Vec3, x: nat, y: nat, z: nat)
    requires n >= 1 && Shaped4(g, n, t) && Fits(lo, s, t) && InVolume(s, x, y, z)
    ensures Crop3(Labels(g, n, t), t, lo, s)[x][y][z] == ArgMax(ClassColumn(g, n, t, lo.x + x, lo.y + y, lo.z + z))
  {
    var lb: Grid3<nat> := Labels(g, n, t);
    CropAt(lb, t, lo, s, x, y, z);
    LabelAt(g, n, t, lo.x + x, lo.y + y, lo.z + z);
  }

  /** A voxel of the label volume of the cropped scores is the arg-max of the column at the shifted voxel. */
  lemma LabelOfCropAt(g: Grid4<Score>, n: nat, t: Vec3, lo: Vec3, s: Vec3, x: nat, y: nat, z: nat)
    requires n >= 1 && Shaped4(g, n, t) && Fits(lo, s, t) && InVolume(s, x, y, z)
    ensures Labels(Crop4(g, n, t, lo, s), n, s)[x][y][z] == ArgMax(ClassColumn(g, n, t, lo.x + x, lo.y + y, lo.z + z))
  {
    LabelAt(Crop4(g, n, t, lo, s), n, s, x, y, z);
    CropColumn(g, n, t, lo, s, x, y, z);
  }

  /**
   * What `test_single_case` returns for a volume `img` of shape `s`: both outputs have the
   * original shape.
   */
  function Predict(img: Grid3<real>, s: Vec3, patch: Vec3, sxy: nat, sz: nat, classes: nat, net: Net): (r: Prediction)
    requires Shaped3(img, s) && sxy > 0 && sz > 0 && classes >= 1
    ensures Shaped3(r.labels, s) && Shaped4(r.scores, classes, s)
  {
    var spec := PlanPadding(s, patch);
    var w := PaddedSweep(img, s, patch, classes, net);
    var sc := NormalizedScores(w, PlanFor(w, sxy, sz));
    var lb := Labels(sc, classes, w.size);
    if spec.needed then
      Prediction(Crop3(lb, w.size, spec.lo, s), Crop4(sc, classes, w.size, spec.lo, s))
    else
      Prediction(lb, sc)
  }

  /** The returned labels are the arg-max of the returned scores, although the arg-max is taken before the crop. */
  lemma LabelsAreArgMaxOfScores(img: Grid3<real>, s: Vec3, patch: Vec3, sxy: nat, sz: nat, classes: nat, net: Net)
    requires Shaped3(img, s) && sxy > 0 && sz > 0 && classes >= 1
    ensures var r := Predict(img, s, patch, sxy, sz, classes, net);
            r.labels == Labels(r.scores, classes, s)
  {
    var spec := PlanPadding(s, patch);
    var w := PaddedSweep(img, s, patch, classes, net);
    var sc := NormalizedScores(w, PlanFor(w, sxy, sz));
    if spec.needed {
      CropCommutesWithArgMax(sc, classes, w.size, spec.lo, s);
    }
  }

  /** Every label names a class. */
  lemma LabelsInRange(img: Grid3<real>, s: Vec3, patch: Vec3, sxy: nat, sz: nat, classes: nat, net: Net, x: nat, y: nat, z: nat)
    requires Shaped3(img, s) && sxy > 0 && sz > 0 && classes >= 1 && InVolume(s, x, y, z)
    ensures Predict(img, s, patch, sxy, sz, classes, net).labels[x][y][z] < classes
  {
    var r := Predict(img, s, patch, sxy, sz, classes, net);
    LabelsAreArgMaxOfScores(img, s, patch, sxy, sz, classes, net);
    LabelAt(r.scores, classes, s, x, y, z);
  }

  /**
   * Each returned score is the normalised score of the padded sweep at the corresponding voxel:
   * the padding shift `lo` maps original voxel `(x, y, z)` to the padded one.
   */
  lemma ScoresAreShiftedSweepScores(img: Grid3<real>, s: Vec3, patch: Vec3, sxy: nat, sz: nat, classes: nat, net: Net,
                                    c: nat, x: nat, y: nat, z: nat)
    requires Shaped3(img, s) && sxy > 0 && sz > 0 && classes >= 1 && c < classes && InVolume(s, x, y, z)
    ensures var w := PaddedSweep(img, s, patch, classes, net);
            var lo := PlanPadding(s, patch).lo;
            && InVolume(w.size, lo.x + x, lo.y + y, lo.z + z)
            && Predict(img, s, patch, sxy, sz, classes, net).scores[c][x][y][z]
                 == NormalizedScores(w, PlanFor(w, sxy, sz))[c][lo.x + x][lo.y + y][lo.z + z]
  {
    if PlanPadding(s, patch).needed {
      PaddedScoreAt(img, s, patch, sxy, sz, classes, net, c, x, y, z);
    } else {
      UnpaddedScoreAt(img, s, patch, sxy, sz, classes, net, c, x, y, z);
    }
  }

  /** `ScoresAreShiftedSweepScores` for a volume that was padded. */
  lemma PaddedScoreAt(img: Grid3<real>, s: Vec3, patch: Vec3, sxy: nat, sz: nat, classes: nat, net: Net,
                      c: nat, x: nat, y: nat, z: nat)
    requires Shaped3(img, s) && sxy > 0 && sz > 0 && classes >= 1 && c < classes && InVolume(s, x, y, z)
    requires PlanPadding(s, patch).needed
    ensures var w := PaddedSweep(img, s, patch, classes, net);
            var lo := PlanPadding(s, patch).lo;
            && InVolume(w.size, lo.x + x, lo.y + y, lo.z + z)
            && Predict(img, s, patch, sxy, sz, classes, net).scores[c][x][y][z]
                 == NormalizedScores(w, PlanFor(w, sxy, sz))[c][lo.x + x][lo.y + y][lo.z + z]
  {
    var w := PaddedSweep(img, s, patch, classes, net);
    var lo := PlanPadding(s, patch).lo;
    var sc := NormalizedScores(w, PlanFor(w, sxy, sz));
    var g := Predict(img, s, patch, sxy, sz, classes, net).scores;
    PredictedScoresPadded(img, s, patch, sxy, sz, classes, net);
    assert g == Crop4(sc, classes, w.size, lo, s);
    CroppedAt(sc, classes, w.size, lo, s, c, x, y, z);
    assert g[c][x][y][z] == sc[c][lo.x + x][lo.y + y][lo.z + z];
    assert InVolume(w.size, lo.x + x, lo.y + y, lo.z + z);
  }

  /** `ScoresAreShiftedSweepScores` for a volume that needed no padding. */
  lemma UnpaddedScoreAt(img: Grid3<real>, s: Vec3, patch: Vec3, sxy: nat, sz: nat, classes: nat, net: Net,
                        c: nat, x: nat, y: nat, z: nat)
    requires Shaped3(img, s) && sxy > 0 && sz > 0 && classes >= 1 && c < classes && InVolume(s, x, y, z)
    requires !PlanPadding(s, patch).needed
    ensures var w := PaddedSweep(img, s, patch, classes, net);
            var lo := PlanPadding(s, patch).lo;
            && InVolume(w.size, lo.x + x, lo.y + y, lo.z + z)
            && Predict(img, s, patch, sxy, sz, classes, net).scores[c][x][y][z]
                 == NormalizedScores(w, PlanFor(w, sxy, sz))[c][lo.x + x][lo.y + y][lo.z + z]
  {
    PredictedScoresUnpadded(img, s, patch, sxy, sz, classes, net);
    NoDeficitNoPadding(s, patch);
  }

  /**
   * Each returned score is the mean of the window responses at the corresponding voxel of the
   * padded volume.
   */
  lemma ScoresAreWindowMeans(img: Grid3<real>, s: Vec3, patch: Vec3, sxy: nat, sz: nat, classes: nat, net: Net,
                             c: nat, x: nat, y: nat, z: nat)
    requires Shaped3(img, s) && sxy > 0 && sz > 0 && classes >= 1 && c < classes && InVolume(s, x, y, z)
    ensures var w := PaddedSweep(img, s, patch, classes, net);
            var lo := PlanPadding(s, patch).lo;
            Predict(img, s, patch, sxy, sz, classes, net).scores[c][x][y][z]
              == NormalizedAt(w, PlanFor(w, sxy, sz), c, lo.x + x, lo.y + y, lo.z + z)
  {
    var w := PaddedSweep(img, s, patch, classes, net);
    var lo := PlanPadding(s, patch).lo;
    ScoresAreShiftedSweepScores(img, s, patch, sxy, sz, classes, net, c, x, y, z);
    ChannelAt(w, PlanFor(w, sxy, sz), c, lo.x + x, lo.y + y, lo.z + z);
  }

  /** The score output of a padded volume is the normalised score volume cropped back to the original extent. */
  lemma PredictedScoresPadded(img: Grid3<real>, s: Vec3, patch: Vec3, sxy: nat, sz: nat, classes: nat, net: Net)
    requires Shaped3(img, s) && sxy > 0 && sz > 0 && classes >= 1 && PlanPadding(s, patch).needed
    ensures var w := PaddedSweep(img, s, patch, classes, net);
            Predict(img, s, patch, sxy, sz, classes, net).scores ==
              Crop4(NormalizedScores(w, PlanFor(w, sxy, sz)), classes, w.size, PlanPadding(s, patch).lo, s)
  {
  }

  /** The score output of a volume that needed no padding is the normalised score volume itself. */
  lemma PredictedScoresUnpadded(img: Grid3<real>, s: Vec3, patch: Vec3, sxy: nat, sz: nat, classes: nat, net: Net)
    requires Shaped3(img, s) && sxy > 0 && sz > 0 && classes >= 1 && !PlanPadding(s, patch).needed
    ensures var w := PaddedSweep(img, s, patch, classes, net);
            Predict(img, s, patch, sxy, sz, classes, net).scores == NormalizedScores(w, PlanFor(w, sxy, sz))
  {
  }

  /** A voxel of a cropped score volume is the voxel of the uncropped one, shifted by the crop corner. */
  lemma CroppedAt(g: Grid4<Score>, n: nat, t: Vec3, lo: Vec3, s: Vec3, c: nat, x: nat, y: nat, z: nat)
    requires Shaped4(g, n, t) && Fits(lo, s, t) && c < n && InVolume(s, x, y, z)
    ensures Crop4(g, n, t, lo, s)[c][x][y][z] == g[c][lo.x + x][lo.y + y][lo.z + z]
  {
    var k: Grid3<Score> := Crop3(g[c], t, lo, s);
    assert Crop4(g, n, t, lo, s)[c] == k;
    CropAt(g[c], t, lo, s, x, y, z);
  }

  /** A voxel of the normalised score volume is the window mean there. */
  lemma ChannelAt(w: Sweep, pl: Plan, c: nat, x: nat, y: nat, z: nat)
    requires Valid(w) && PlanFits(w, pl) && c < w.classes && InVolume(w.size, x, y, z)
    ensures NormalizedScores(w, pl)[c][x][y][z] == NormalizedAt(w, pl, c, x, y, z)
  {
    var ch: Grid3<Score> := NormalizedChannel(w, pl, c);
    assert NormalizedScores(w, pl)[c] == ch;
    assert ch[x][y][z] == NormalizedAt(w, pl, c, x, y, z);
  }

  /** With `0 < stride <= patch` on every axis every window mean is over at least one window: no score is NaN. */
  lemma FullCoverageScoresAreFinite(img: Grid3<real>, s: Vec3, patch: Vec3, sxy: nat, sz: nat, classes: nat, net: Net,
                                    c: nat, x: nat, y: nat, z: nat)
    requires Shaped3(img, s) && classes >= 1 && c < classes && InVolume(s, x, y, z)
    requires 0 < sxy <= patch.x && sxy <= patch.y && 0 < sz <= patch.z
    ensures Predict(img, s, patch, sxy, sz, classes, net).scores[c][x][y][z].Finite?
  {
    var w := PaddedSweep(img, s, patch, classes, net);
    var lo := PlanPadding(s, patch).lo;
    ScoresAreWindowMeans(img, s, patch, sxy, sz, classes, net, c, x, y, z);
    EveryVoxelVisited(w, sxy, sz, lo.x + x, lo.y + y, lo.z + z);
  }

  /** When the network reports probabilities, every finite returned score is a probability. */
  lemma ScoresAreProbabilities(img: Grid3<real>, s: Vec3, patch: Vec3, sxy: nat, sz: nat, classes: nat, net: Net,
                               c: nat, x: nat, y: nat, z: nat)
    requires Shaped3(img, s) && sxy > 0 && sz > 0 && classes >= 1 && c < classes && InVolume(s, x, y, z)
    requires Probabilities(net)
    ensures var v := Predict(img, s, patch, sxy, sz, classes, net).scores[c][x][y][z];
            v.Finite? ==> 0.0 <= v.value <= 1.0
  {
    var w := PaddedSweep(img, s, patch, classes, net);
    var lo := PlanPadding(s, patch).lo;
    ScoresAreWindowMeans(img, s, patch, sxy, sz, classes, net, c, x, y, z);
    NormalizedScoreIsProbability(w, PlanFor(w, sxy, sz), c, lo.x + x, lo.y + y, lo.z + z);
  }

  /** Normalising the swept arrays gives the specified score volume. */
  lemma NormalizeMatchesSweep(w: Sweep, sxy: nat, sz: nat, score: array4<real>, cnt: array3<nat>)
    requires Valid(w) && sxy > 0 && sz > 0 && Sized(w, score, cnt)
    requires forall c, x, y, z :: 0 <= c < w.classes && InVolume(w.size, x, y, z) ==>
               score[c, x, y, z] == TotalScore(w, PlanFor(w, sxy, sz), c, x, y, z)
    requires forall x, y, z :: InVolume(w.size, x, y, z) ==>
               cnt[x, y, z] == TotalVisits(w.patch, PlanFor(w, sxy, sz), x, y, z)
    ensures Normalize(score, cnt) == NormalizedScores(w, PlanFor(w, sxy, sz))
  {
    var pl := PlanFor(w, sxy, sz);
    var a := Normalize(score, cnt);
    var b := NormalizedScores(w, pl);
    forall c | 0 <= c < w.classes
      ensures a[c] == b[c]
    {
      var u := NormalizeChannel(score, cnt, c);
      var v := NormalizedChannel(w, pl, c);
      forall x, y, z | 0 <= x < w.size.x && 0 <= y < w.size.y && 0 <= z < w.size.z
        ensures u[x][y][z] == v[x][y][z]
      {
        assert InVolume(w.size, x, y, z);
      }
      Grid3Ext(u, v, w.size);
    }
  }

  /**
   * `test_single_case`: pad, sweep every planned window into freshly zeroed score and count
   * arrays, divide, take the arg-max over classes and undo the padding.
   */
  method TestSingleCase(img: Grid3<real>, s: Vec3, patch: Vec3, sxy: nat, sz: nat, classes: nat, net: Net)
    returns (labels: Grid3<nat>, scores: Grid4<Score>)
    requires Shaped3(img, s) && sxy > 0 && sz > 0 && classes >= 1
    ensures Prediction(labels, scores) == Predict(img, s, patch, sxy, sz, classes, net)
  {
    var spec := PlanPadding(s, patch);
    var padded := PadToPatch(img, s, patch);
    var w := Sweep(padded.0, padded.1, patch, classes, net);
    assert w == PaddedSweep(img, s, patch, classes, net);
    var score, cnt := Accumulate(w, sxy, sz);
    var norm := Normalize(score, cnt);
    NormalizeMatchesSweep(w, sxy, sz, score, cnt);
    var lb := Labels(norm, classes, w.size);
    if spec.needed {
      labels := Crop3(lb, w.size, spec.lo, s);
      scores := Crop4(norm, classes, w.size, spec.lo, s);
    } else {
      labels, scores := lb, norm;
    }
  }
}
