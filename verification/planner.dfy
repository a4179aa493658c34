/**
 * Per-axis coverage planning: how many windows an axis gets and where each one starts.
 * An axis of (padded) length `ww` with patch length `p` and stride `s` gets
 * `ceil((ww - p) / s) + 1` windows; window `i` starts at `min(s * i, ww - p)`.
 */
module Planner {

  function Min(a: int, b: int): int {
    if a < b then a else b
  }

  /**
   * `math.ceil(a / s)` for a non-negative numerator. The source divides as floats; for the
   * integer sizes involved (far below 2^53) the rounded quotient has the same ceiling.
   */
  function CeilDiv(a: nat, s: nat): (q: nat)
    requires s > 0
    ensures a <= q * s
    ensures q == 0 || (q - 1) * s < a
  {
    var q := (a + s - 1) / s;
    assert a + s - 1 == q * s + (a + s - 1) % s;
    assert (q - 1) * s == q * s - s;
    q
  }

  /** The number of windows along one axis. */
  function OriginCount(ww: nat, p: nat, s: nat): (n: nat)
    requires p <= ww && s > 0
    ensures n >= 1
  {
    CeilDiv(ww - p, s) + 1
  }

  /** Where window `i` starts: the nominal stride position, clamped so the window ends inside the axis. */
  function Origin(i: nat, ww: nat, p: nat, s: nat): (o: nat)
    requires p <= ww
  {
    Min(s * i, ww - p)
  }

  /** The ordered window origins along one axis. */
  function AxisOrigins(ww: nat, p: nat, s: nat): (os: seq<nat>)
    requires p <= ww && s > 0
    ensures |os| == OriginCount(ww, p, s)
    ensures forall i :: 0 <= i < |os| ==> os[i] == Origin(i, ww, p, s)
  {
    seq(OriginCount(ww, p, s), i requires 0 <= i => Origin(i, ww, p, s))
  }

  /** Every window `[o, o + p)` stays inside the axis. */
  lemma OriginsInBounds(ww: nat, p: nat, s: nat)
    requires p <= ww && s > 0
    ensures forall i :: 0 <= i < |AxisOrigins(ww, p, s)| ==> AxisOrigins(ww, p, s)[i] + p <= ww
  {
  }

  /** The first window starts at 0 and the last one ends exactly at the far edge. */
  lemma OriginsEndpoints(ww: nat, p: nat, s: nat)
    requires p <= ww && s > 0
    ensures AxisOrigins(ww, p, s)[0] == 0
    ensures AxisOrigins(ww, p, s)[|AxisOrigins(ww, p, s)| - 1] == ww - p
  {
    var os := AxisOrigins(ww, p, s);
    var q := CeilDiv(ww - p, s);
    assert |os| - 1 == q;
    assert os[q] == Min(s * q, ww - p);
    assert s * q >= ww - p;
  }

  /** Origins strictly increase: only the last window can be clamped, and it never lands on its predecessor. */
  lemma OriginsIncreasing(ww: nat, p: nat, s: nat)
    requires p <= ww && s > 0
    ensures forall i, j :: 0 <= i < j < |AxisOrigins(ww, p, s)| ==> AxisOrigins(ww, p, s)[i] < AxisOrigins(ww, p, s)[j]
  {
    var os := AxisOrigins(ww, p, s);
    var q := CeilDiv(ww - p, s);
    forall i, j | 0 <= i < j < |os|
      ensures os[i] < os[j]
    {
      StrideMonotone(s, i, j);
      StrideMonotone(s, i, q - 1);
      assert (q - 1) * s < ww - p;
    }
  }

  /** `s * i` grows with `i`, strictly when `s > 0`. */
  lemma StrideMonotone(s: nat, i: nat, j: nat)
    requires i <= j
    ensures s * i <= s * j
    ensures s > 0 && i < j ==> s * i < s * j
  {
    assert s * j == s * i + s * (j - i);
  }

  /** A smaller stride multiple has a smaller index. */
  lemma StrideIndexBelow(s: nat, i: nat, q: nat)
    requires s * i < s * q
    ensures i < q
  {
    if q <= i {
      StrideMonotone(s, q, i);
    }
  }

  /** Position `v` lies in stride cell `v / s`. */
  lemma StrideCell(v: nat, s: nat)
    requires s > 0
    ensures s * (v / s) <= v < s * (v / s) + s
  {
    assert v == s * (v / s) + v % s;
  }

  /** A position short of the last window lies in the unclamped window of its stride cell. */
  lemma InteriorWindow(ww: nat, p: nat, s: nat, v: nat)
    requires 0 < s <= p <= ww && v < ww - p
    ensures v / s < OriginCount(ww, p, s)
    ensures Origin(v / s, ww, p, s) <= v < Origin(v / s, ww, p, s) + p
  {
    var i, q := v / s, CeilDiv(ww - p, s);
    StrideCell(v, s);
    assert s * i < s * q;
    StrideIndexBelow(s, i, q);
  }

  /** How many of the first `n` windows of `os` contain position `v`. */
  function CoverCount(os: seq<nat>, p: nat, n: nat, v: int): (k: nat)
    requires n <= |os|
    ensures k <= n
  {
    if n == 0 then 0
    else CoverCount(os, p, n - 1, v) + (if os[n - 1] <= v < os[n - 1] + p then 1 else 0)
  }

  /** A position lies in no window exactly when its cover count is zero. */
  lemma {:induction false} CoverCountPositive(os: seq<nat>, p: nat, n: nat, v: int)
    requires n <= |os|
    ensures CoverCount(os, p, n, v) > 0 <==> exists i :: 0 <= i < n && os[i] <= v < os[i] + p
  {
    if n > 0 {
      CoverCountPositive(os, p, n - 1, v);
    }
  }

  /** With `0 < s <= p`, every position of the axis lies in at least one planned window. */
  lemma OriginsCover(ww: nat, p: nat, s: nat, v: nat)
    requires 0 < s <= p <= ww && v < ww
    ensures exists i :: 0 <= i < |AxisOrigins(ww, p, s)| && AxisOrigins(ww, p, s)[i] <= v < AxisOrigins(ww, p, s)[i] + p
    ensures CoverCount(AxisOrigins(ww, p, s), p, |AxisOrigins(ww, p, s)|, v) >= 1
  {
    var os := AxisOrigins(ww, p, s);
    var q := CeilDiv(ww - p, s);
    if v >= ww - p {
      OriginsEndpoints(ww, p, s);
      assert os[q] <= v < os[q] + p;
    } else {
      InteriorWindow(ww, p, s, v);
      assert os[v / s] <= v < os[v / s] + p;
    }
    CoverCountPositive(os, p, |os|, v);
  }
}
