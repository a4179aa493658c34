/**
 * The evaluation driver `test_all_case`: every case is predicted, optionally reduced to its
 * largest connected component, scored (an empty prediction scores zero on every metric),
 * and the per-case metrics are averaged over the number of cases.
 */
module CaseDriver {
  import opened Volumes
  import opened Accumulation
  import opened Engine
  import opened LargestComponent

  /** The four per-case metrics: Dice, Jaccard, 95th-percentile Hausdorff distance, average surface distance. */
  datatype Metric = Metric(dice: real, jaccard: real, hd95: real, asd: real)

  const Zero := Metric(0.0, 0.0, 0.0, 0.0)

  function Plus(a: Metric, b: Metric): Metric {
    Metric(a.dice + b.dice, a.jaccard + b.jaccard, a.hd95 + b.hd95, a.asd + b.asd)
  }

  function Scale(m: Metric, n: nat): Metric
    requires n > 0
  {
    Metric(m.dice / n as real, m.jaccard / n as real, m.hd95 / n as real, m.asd / n as real)
  }

  /** One stored case: the image with its shape, and the ground-truth labelling. */
  datatype Case = Case(image: Grid3<real>, size: Vec3, truth: Grid3<nat>)

  /** The settings `test_all_case` passes through: patch size, strides, class count and whether to keep only the largest component. */
  datatype Settings = Settings(patch: Vec3, sxy: nat, sz: nat, classes: nat, nms: bool)

  predicate Runnable(st: Settings) {
    st.sxy > 0 && st.sz > 0 && st.classes >= 1
  }

  predicate WellFormed(cases: seq<Case>) {
    forall i :: 0 <= i < |cases| ==> Shaped3(cases[i].image, cases[i].size)
  }

  /** `calculate_metric_percase`, which this model takes as given. */
  type MetricFn = (Grid3<nat>, Grid3<nat>) -> Metric

  /** The connected-component labelling of scikit-image, which this model takes as given. */
  type Labeller = Grid3<nat> -> Grid3<nat>

  /** A boolean mask as the 0/1 volume numpy sums and compares. */
  function Indicator(m: Grid3<bool>): (r: Grid3<nat>)
    ensures |r| == |m| && forall x :: 0 <= x < |m| ==> |r[x]| == |m[x]|
    ensures forall x, y :: 0 <= x < |m| && 0 <= y < |m[x]| ==> |r[x][y]| == |m[x][y]|
    ensures forall x, y, z :: 0 <= x < |m| && 0 <= y < |m[x]| && 0 <= z < |m[x][y]| ==>
              r[x][y][z] == if m[x][y][z] then 1 else 0
  {
    seq(|m|, x requires 0 <= x < |m| =>
      seq(|m[x]|, y requires 0 <= y < |m[x]| =>
        seq(|m[x][y]|, z requires 0 <= z < |m[x][y]| => if m[x][y][z] then 1 else 0)))
  }

  function Sum(f: seq<nat>): nat {
    if |f| == 0 then 0 else Sum(f[..|f| - 1]) + f[|f| - 1]
  }

  /** A sum of naturals is zero exactly when every term is. */
  lemma {:induction false} SumZeroIffAllZero(f: seq<nat>)
    ensures Sum(f) == 0 <==> forall v :: v in f ==> v == 0
  {
    if |f| > 0 {
      var init := f[..|f| - 1];
      SumZeroIffAllZero(init);
      assert f == init + [f[|f| - 1]];
      assert forall v :: v in f <==> v in init || v == f[|f| - 1];
      assert Sum(f) == Sum(init) + f[|f| - 1];
      assert f[|f| - 1] in f;
    }
  }

  /** `np.sum(prediction)`: zero exactly when every voxel is zero. */
  function VoxelSum(g: Grid3<nat>): (r: nat)
    ensures r == 0 <==> forall x, y, z :: 0 <= x < |g| && 0 <= y < |g[x]| && 0 <= z < |g[x][y]| ==> g[x][y][z] == 0
  {
    VoxelSumZero(g);
    Sum(Flatten(g))
  }

  lemma VoxelSumZero(g: Grid3<nat>)
    ensures Sum(Flatten(g)) == 0 <==> forall x, y, z :: 0 <= x < |g| && 0 <= y < |g[x]| && 0 <= z < |g[x][y]| ==> g[x][y][z] == 0
  {
    var f := Flatten(g);
    SumZeroIffAllZero(f);
    if Sum(f) == 0 {
      forall x, y, z | 0 <= x < |g| && 0 <= y < |g[x]| && 0 <= z < |g[x][y]|
        ensures g[x][y][z] == 0
      {
        assert g[x][y][z] in f;
      }
    }
  }

  /** The metric a final prediction earns: zero on every metric when it is empty. */
  function CaseMetric(pred: Grid3<nat>, truth: Grid3<nat>, metric: MetricFn): (m: Metric)
    ensures (forall v :: v in Flatten(pred) ==> v == 0) ==> m == Zero
    ensures (exists v :: v in Flatten(pred) && v != 0) ==> m == metric(pred, truth)
  {
    SumZeroIffAllZero(Flatten(pred));
    if VoxelSum(pred) == 0 then Zero else metric(pred, truth)
  }

  /** The prediction that is scored: the label volume, or its largest component when `nms` is set. */
  function FinalPrediction(labels: Grid3<nat>, nms: bool, labeller: Labeller): (r: Outcome<Grid3<nat>>)
    ensures !nms ==> r == Success(labels)
    ensures nms ==> (r.Failure? <==> GetLargestCC(labeller(labels)).Failure?)
    ensures nms && r.Success? ==> r.value == Indicator(GetLargestCC(labeller(labels)).value)
  {
    if !nms then Success(labels)
    else
      var cc := GetLargestCC(labeller(labels));
      if cc.Failure? then Failure(cc.error) else Success(Indicator(cc.value))
  }

  /** One iteration of the case loop after the prediction: filter it when `nms` is set, then score it against the truth. */
  function ScoreCase(labels: Grid3<nat>, truth: Grid3<nat>, nms: bool, labeller: Labeller, metric: MetricFn): (r: Outcome<Metric>)
    ensures !nms ==> r == Success(CaseMetric(labels, truth, metric))
    ensures nms ==> (r.Failure? <==> GetLargestCC(labeller(labels)).Failure?)
    ensures nms && r.Success? ==> r.value == CaseMetric(Indicator(GetLargestCC(labeller(labels)).value), truth, metric)
  {
    var fp := FinalPrediction(labels, nms, labeller);
    if fp.Failure? then Failure(fp.error) else Success(CaseMetric(fp.value, truth, metric))
  }

  /** The label volume the engine predicts for every case, in list order. */
  function Predictions(cases: seq<Case>, st: Settings, net: Net): (ps: seq<Grid3<nat>>)
    requires WellFormed(cases) && Runnable(st)
    ensures |ps| == |cases|
    ensures forall i :: 0 <= i < |cases| ==>
              ps[i] == Predict(cases[i].image, cases[i].size, st.patch, st.sxy, st.sz, st.classes, net).labels
  {
    seq(|cases|, i requires 0 <= i < |cases| =>
      Predict(cases[i].image, cases[i].size, st.patch, st.sxy, st.sz, st.classes, net).labels)
  }

  /** The outcome of every case, given its predicted label volume. */
  function Outcomes(ps: seq<Grid3<nat>>, cases: seq<Case>, nms: bool, labeller: Labeller, metric: MetricFn): (os: seq<Outcome<Metric>>)
    requires |ps| == |cases|
    ensures |os| == |cases|
    ensures forall i :: 0 <= i < |cases| ==> os[i] == ScoreCase(ps[i], cases[i].truth, nms, labeller, metric)
  {
    seq(|cases|, i requires 0 <= i < |cases| => ScoreCase(ps[i], cases[i].truth, nms, labeller, metric))
  }

  /** `total_metric` after the case outcomes `os`; the first case that fails stops the run with its error. */
  function Total(os: seq<Outcome<Metric>>): (r: Outcome<Metric>)
    ensures r.Failure? <==> exists i :: 0 <= i < |os| && os[i].Failure?
    ensures r.Failure? ==> exists i :: 0 <= i < |os| && r == os[i] && forall j :: 0 <= j < i ==> os[j].Success?
  {
    if |os| == 0 then Success(Zero)
    else
      var t := Total(os[..|os| - 1]);
      assert forall j :: 0 <= j < |os| - 1 ==> os[..|os| - 1][j] == os[j];
      if t.Failure? then t
      else if os[|os| - 1].Failure? then os[|os| - 1]
      else Success(Plus(t.value, os[|os| - 1].value))
  }

  /** `total_metric / len(image_list)`, or the error that stopped the run. */
  function Mean(os: seq<Outcome<Metric>>): (r: Outcome<Metric>)
    ensures |os| == 0 ==> r == Failure(NoCases)
    ensures Total(os).Failure? ==> r == Total(os)
    ensures |os| > 0 && Total(os).Success? ==> r == Success(Scale(Total(os).value, |os|))
  {
    var t := Total(os);
    if t.Failure? then t
    else if |os| == 0 then Failure(NoCases)
    else Success(Scale(t.value, |os|))
  }

  /** Case `i` stops the run: its filtered, scored prediction is a failure. */
  predicate CaseFails(cases: seq<Case>, i: nat, st: Settings, net: Net, labeller: Labeller, metric: MetricFn)
    requires WellFormed(cases) && Runnable(st) && i < |cases|
  {
    ScoreCase(Predict(cases[i].image, cases[i].size, st.patch, st.sxy, st.sz, st.classes, net).labels,
              cases[i].truth, st.nms, labeller, metric).Failure?
  }

  /** What `test_all_case` returns. */
  function MeanMetric(cases: seq<Case>, st: Settings, net: Net, labeller: Labeller, metric: MetricFn): (r: Outcome<Metric>)
    requires WellFormed(cases) && Runnable(st)
    ensures |cases| == 0 ==> r == Failure(NoCases)
  {
    Mean(Outcomes(Predictions(cases, st, net), cases, st.nms, labeller, metric))
  }

  /** The run fails exactly when there is no case or some case's filtered, scored prediction fails. */
  lemma MeanMetricFails(cases: seq<Case>, st: Settings, net: Net, labeller: Labeller, metric: MetricFn)
    requires WellFormed(cases) && Runnable(st)
    ensures MeanMetric(cases, st, net, labeller, metric).Failure? <==>
              (|cases| == 0 || exists i :: 0 <= i < |cases| && CaseFails(cases, i, st, net, labeller, metric))
  {
    var os := Outcomes(Predictions(cases, st, net), cases, st.nms, labeller, metric);
    forall i | 0 <= i < |cases|
      ensures os[i].Failure? == CaseFails(cases, i, st, net, labeller, metric)
    {
    }
  }

  /** The body of the case loop: predict the case, filter the prediction when `nms` is set, and score it. */
  method EvaluateOne(c: Case, st: Settings, net: Net, labeller: Labeller, metric: MetricFn) returns (r: Outcome<Metric>)
    requires Shaped3(c.image, c.size) && Runnable(st)
    ensures r == ScoreCase(Predict(c.image, c.size, st.patch, st.sxy, st.sz, st.classes, net).labels, c.truth, st.nms, labeller, metric)
  {
    var labels, scores := TestSingleCase(c.image, c.size, st.patch, st.sxy, st.sz, st.classes, net);
    var prediction := labels;
    if st.nms {
      var cc := GetLargestCC(labeller(labels));
      if cc.Failure? {
        return Failure(cc.error);
      }
      prediction := Indicator(cc.value);
    }
    var single := if VoxelSum(prediction) == 0 then Zero else metric(prediction, c.truth);
    r := Success(single);
  }

  /** Case `i` of the loop: its outcome added to the total of the cases before it. */
  method AddCase(cases: seq<Case>, st: Settings, net: Net, labeller: Labeller, metric: MetricFn, i: nat, total: Metric)
    returns (next: Outcome<Metric>)
    requires WellFormed(cases) && Runnable(st) && i < |cases|
    requires Total(Outcomes(Predictions(cases, st, net), cases, st.nms, labeller, metric)[..i]) == Success(total)
    ensures next == Total(Outcomes(Predictions(cases, st, net), cases, st.nms, labeller, metric)[..i + 1])
  {
    ghost var os := Outcomes(Predictions(cases, st, net), cases, st.nms, labeller, metric);
    var single := EvaluateOne(cases[i], st, net, labeller, metric);
    TotalStep(os, i);
    next := if single.Failure? then single else Success(Plus(total, single.value));
  }

  /** The loop of `test_all_case`: the per-case metrics summed into `total_metric`, stopping at the first case that fails. */
  method SumCases(cases: seq<Case>, st: Settings, net: Net, labeller: Labeller, metric: MetricFn)
    returns (t: Outcome<Metric>)
    requires WellFormed(cases) && Runnable(st)
    ensures t == Total(Outcomes(Predictions(cases, st, net), cases, st.nms, labeller, metric))
  {
    ghost var os := Outcomes(Predictions(cases, st, net), cases, st.nms, labeller, metric);
    var total := Zero;
    var i := 0;
    while i < |cases|
      invariant 0 <= i <= |cases|
      invariant Total(os[..i]) == Success(total)
    {
      var next := AddCase(cases, st, net, labeller, metric, i, total);
      if next.Failure? {
        FailurePersists(os, i + 1);
        return next;
      }
      total := next.value;
      i := i + 1;
    }
    assert os[..|cases|] == os;
    t := Success(total);
  }

  /** `test_all_case`: the case loop, then the division by the number of cases. */
  method TestAllCase(cases: seq<Case>, st: Settings, net: Net, labeller: Labeller, metric: MetricFn)
    returns (r: Outcome<Metric>)
    requires WellFormed(cases) && Runnable(st)
    ensures r == MeanMetric(cases, st, net, labeller, metric)
  {
    var total := SumCases(cases, st, net, labeller, metric);
    if total.Failure? {
      r := total;
    } else if |cases| == 0 {
      r := Failure(NoCases);
    } else {
      r := Success(Scale(total.value, |cases|));
    }
  }

  /** Adding the outcome of case `i` to the total of the cases before it. */
  lemma TotalStep(os: seq<Outcome<Metric>>, i: nat)
    requires i < |os|
    ensures Total(os[..i + 1]) == if Total(os[..i]).Failure? then Total(os[..i])
                                  else if os[i].Failure? then os[i]
                                  else Success(Plus(Total(os[..i]).value, os[i].value))
  {
    assert os[..i + 1][..i] == os[..i];
  }

  /** Once the prefix of the first `n` outcomes has failed, the whole run ends with that failure. */
  lemma {:induction false} FailurePersists(os: seq<Outcome<Metric>>, n: nat)
    requires n <= |os| && Total(os[..n]).Failure?
    ensures Total(os) == Total(os[..n]) && Mean(os) == Total(os[..n])
  {
    if n < |os| {
      var init := os[..|os| - 1];
      assert init[..n] == os[..n];
      FailurePersists(init, n);
    } else {
      assert os[..n] == os;
    }
  }


  /**
   * With the largest-component filter on, a case that does not fail is always scored by the
   * metric routine: the kept mask has a voxel, so the zero-metric shortcut never applies.
   */
  lemma FilteredCaseIsMeasured(labels: Grid3<nat>, truth: Grid3<nat>, labeller: Labeller, metric: MetricFn)
    requires ScoreCase(labels, truth, true, labeller, metric).Success?
    ensures GetLargestCC(labeller(labels)).Success?
    ensures ScoreCase(labels, truth, true, labeller, metric)
              == Success(metric(Indicator(GetLargestCC(labeller(labels)).value), truth))
  {
    var cc := GetLargestCC(labeller(labels));
    KeptMaskIsNonEmpty(labeller(labels));
    var m := cc.value;
    var x, y, z :| 0 <= x < |m| && 0 <= y < |m[x]| && 0 <= z < |m[x][y]| && m[x][y][z];
    var pred := Indicator(m);
    assert pred[x][y][z] == 1;
    assert 1 in Flatten(pred);
  }

  /**
   * With the filter on, an empty prediction stops the run: a labelling that leaves the
   * background at 0 has no component, so `getLargestCC` fails where the zero-metric rule
   * would have applied.
   */
  lemma EmptyPredictionFailsUnderFilter(labels: Grid3<nat>, s: Vec3, truth: Grid3<nat>, labeller: Labeller, metric: MetricFn)
    requires Shaped3(labels, s) && Shaped3(labeller(labels), s)
    requires forall x, y, z :: InVolume(s, x, y, z) ==> (labeller(labels)[x][y][z] == 0 <==> labels[x][y][z] == 0)
    requires VoxelSum(labels) == 0
    ensures ScoreCase(labels, truth, true, labeller, metric).Failure?
  {
    var cl := labeller(labels);
    SumZeroIffAllZero(Flatten(labels));
    forall x, y, z | InVolume(s, x, y, z)
      ensures cl[x][y][z] == 0
    {
      assert labels[x][y][z] in Flatten(labels);
    }
    NoComponentLeft(cl, s);
    assert GetLargestCC(cl).Failure?;
  }
}
