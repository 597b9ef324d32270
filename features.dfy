/** The feature engine: per snapshot, the top-K depth imbalance, the slope of each
    side and an update-rate estimate over a bounded window of timestamps. Every
    degenerate denominator gives 0.0 instead of an error. */
module Features {
  import opened Numeric
  import opened Deques
  import opened Schemas

  /** Total volume at or below which the imbalance is 0 (1e-12). */
  const VolumeEpsilon: real := 1e-12
  /** Mean timestamp gap at or below which the update rate is 0 (1e-9). */
  const GapEpsilon: real := 1e-9

  /** The size column of a side. */
  function Quantities(levels: seq<Level>): (q: seq<real>)
    ensures |q| == |levels|
    ensures forall i :: 0 <= i < |levels| ==> q[i] == levels[i].qty
  {
    seq(|levels|, i requires 0 <= i < |levels| => levels[i].qty)
  }

  /** How many levels `_sum_depth_side` reads: min(upto, #levels), and none
      when that count is not positive (a Python range over it is empty). */
  function DepthCount(levels: seq<Level>, upto: int): (n: nat)
    ensures n <= |levels|
    ensures upto <= 0 ==> n == 0
    ensures upto > 0 ==> n == if upto < |levels| then upto else |levels|
  {
    if upto <= 0 then 0 else if upto < |levels| then upto else |levels|
  }

  /** Total size over the levels `_sum_depth_side` reads. */
  function TopVolume(levels: seq<Level>, upto: int): (v: real)
    ensures upto <= 0 || levels == [] ==> v == 0.0
    ensures upto >= |levels| ==> v == Sum(Quantities(levels))
  {
    var q := Quantities(levels);
    assert q[..|q|] == q;
    Sum(q[..DepthCount(levels, upto)])
  }

  /** `_sum_depth_side`: accumulates the sizes of the first min(upto, #levels) levels. */
  method SumDepthSide(levels: seq<Level>, upto: int) returns (s: real)
    ensures s == TopVolume(levels, upto)
  {
    s := 0.0;
    var n := if upto < |levels| then upto else |levels|;
    var i := 0;
    while i < n
      invariant 0 <= i <= DepthCount(levels, upto)
      invariant s == Sum(Quantities(levels)[..i])
    {
      assert Quantities(levels)[..i + 1][..i] == Quantities(levels)[..i];
      s := s + levels[i].qty;
      i := i + 1;
    }
  }

  /** (bidVol - askVol) / (bidVol + askVol), neutral 0.0 when the total is at most
      VolumeEpsilon. */
  function Imbalance(bidVol: real, askVol: real): (r: real)
    ensures bidVol + askVol <= VolumeEpsilon ==> r == 0.0
    ensures bidVol + askVol > VolumeEpsilon ==> r * (bidVol + askVol) == bidVol - askVol
  {
    var denom := bidVol + askVol;
    if denom <= VolumeEpsilon then 0.0 else (bidVol - askVol) / denom
  }

  /** `compute_imbalance`: the imbalance of the top `depthLevels` levels of each side. */
  function ComputeImbalance(snap: BookSnapshot, depthLevels: int := 5): (r: real)
    ensures var total := TopVolume(snap.bids, depthLevels) + TopVolume(snap.asks, depthLevels);
      (total <= VolumeEpsilon ==> r == 0.0) &&
      (total > VolumeEpsilon ==>
        r * total == TopVolume(snap.bids, depthLevels) - TopVolume(snap.asks, depthLevels))
    ensures depthLevels <= 0 ==> r == 0.0
  {
    Imbalance(TopVolume(snap.bids, depthLevels), TopVolume(snap.asks, depthLevels))
  }

  /** With non-negative volumes the imbalance lies in [-1, 1]; its sign is the
      sign of bidVol - askVol. */
  lemma ImbalanceBounded(bidVol: real, askVol: real)
    requires bidVol >= 0.0 && askVol >= 0.0
    ensures -1.0 <= Imbalance(bidVol, askVol) <= 1.0
    ensures Imbalance(bidVol, askVol) > 0.0 <==> bidVol + askVol > VolumeEpsilon && bidVol > askVol
    ensures Imbalance(bidVol, askVol) < 0.0 <==> bidVol + askVol > VolumeEpsilon && bidVol < askVol
  {
    var denom := bidVol + askVol;
    if denom > VolumeEpsilon {
      var r := Imbalance(bidVol, askVol);
      assert (r - 1.0) * denom == (bidVol - askVol) - denom;
      assert (r + 1.0) * denom == (bidVol - askVol) + denom;
      FactorSign(r - 1.0, denom);
      FactorSign(r + 1.0, denom);
      FactorSign(r, denom);
    }
  }

  /** The sizes of a side's levels are all non-negative. */
  predicate NonNegativeSizes(levels: seq<Level>)
  {
    forall i :: 0 <= i < |levels| ==> levels[i].qty >= 0.0
  }

  lemma {:induction false} TopVolumeNonNegative(levels: seq<Level>, upto: int)
    requires NonNegativeSizes(levels)
    ensures TopVolume(levels, upto) >= 0.0
  {
    SumNonNegative(Quantities(levels)[..DepthCount(levels, upto)]);
  }

  /** With non-negative sizes, `compute_imbalance` is in [-1, 1]. */
  lemma ComputeImbalanceBounded(snap: BookSnapshot, depthLevels: int)
    requires NonNegativeSizes(snap.bids) && NonNegativeSizes(snap.asks)
    ensures -1.0 <= ComputeImbalance(snap, depthLevels) <= 1.0
  {
    TopVolumeNonNegative(snap.bids, depthLevels);
    TopVolumeNonNegative(snap.asks, depthLevels);
    ImbalanceBounded(TopVolume(snap.bids, depthLevels), TopVolume(snap.asks, depthLevels));
  }

  /** A book whose top-K bid and ask volumes are equal has imbalance 0. */
  lemma BalancedBookHasZeroImbalance(snap: BookSnapshot, depthLevels: int)
    requires TopVolume(snap.bids, depthLevels) == TopVolume(snap.asks, depthLevels)
    ensures ComputeImbalance(snap, depthLevels) == 0.0
  {
  }

  /** Python's prefix slice levels[:k]: the first k levels (all, if fewer), and for a
      negative k every level but the last -k. */
  function PrefixSlice(levels: seq<Level>, k: int): (r: seq<Level>)
    ensures |r| <= |levels| && r == levels[..|r|]
    ensures 0 <= k ==> |r| == if k < |levels| then k else |levels|
    ensures k < 0 ==> |r| == if |levels| + k > 0 then |levels| + k else 0
  {
    if k >= 0 then
      (if k < |levels| then levels[..k] else levels)
    else
      (if |levels| + k > 0 then levels[..|levels| + k] else [])
  }

  /** `_slope`: size at the best level over the mean size of the levels given, and
      0.0 for an empty side or a mean at most VolumeEpsilon. */
  function Slope(levels: seq<Level>): (r: real)
    ensures |levels| == 0 ==> r == 0.0
    ensures |levels| > 0 && Mean(Quantities(levels)) <= VolumeEpsilon ==> r == 0.0
    ensures |levels| > 0 && Mean(Quantities(levels)) > VolumeEpsilon ==>
      r * Mean(Quantities(levels)) == levels[0].qty
  {
    if |levels| == 0 then 0.0
    else
      var v1 := levels[0].qty;
      var avg := Mean(Quantities(levels));
      if avg <= VolumeEpsilon then 0.0 else v1 / avg
  }

  /** With non-negative sizes a slope is between 0 and the number of levels: the
      best level holds between none and all of the side's volume. */
  lemma SlopeBounded(levels: seq<Level>)
    requires NonNegativeSizes(levels)
    ensures 0.0 <= Slope(levels) <= |levels| as real
  {
    if |levels| > 0 {
      var q := Quantities(levels);
      var n := |levels| as real;
      var avg := Mean(q);
      if avg > VolumeEpsilon {
        SumAtLeastFirst(q);
        var r := Slope(levels);
        assert Sum(q) == avg * n;
        assert r * avg == q[0];
        assert (r - n) * avg == q[0] - Sum(q);
        FactorSign(r - n, avg);
        FactorSign(r, avg);
      }
    }
  }

  /** A side whose levels all have the same positive size has slope 1. */
  lemma UniformSideHasUnitSlope(levels: seq<Level>, size: real)
    requires |levels| > 0 && size > VolumeEpsilon
    requires forall i :: 0 <= i < |levels| ==> levels[i].qty == size
    ensures Slope(levels) == 1.0
  {
    var q := Quantities(levels);
    var n := |q| as real;
    SumConstant(q, size);
    assert Sum(q) == n * size;
    Cancel(n, size);
    assert Mean(q) == size;
    assert levels[0].qty / size == 1.0;
  }

  /** numpy's diff of the buffered timestamps: successive gaps. */
  function Gaps(ts: seq<real>): (d: seq<real>)
    ensures |ts| < 2 ==> d == []
    ensures |ts| >= 2 ==> |d| == |ts| - 1
    ensures forall i :: 0 <= i < |d| ==> d[i] == ts[i + 1] - ts[i]
  {
    if |ts| < 2 then [] else seq(|ts| - 1, i requires 0 <= i < |ts| - 1 => ts[i + 1] - ts[i])
  }

  /** `compute_update_rate`: 1 / mean gap, with 0.0 for fewer than two timestamps
      or a mean gap at most GapEpsilon. */
  function UpdateRate(ts: seq<real>): (r: real)
    ensures |ts| < 2 ==> r == 0.0
    ensures r >= 0.0
    ensures |ts| >= 2 && Mean(Gaps(ts)) <= GapEpsilon ==> r == 0.0
    ensures |ts| >= 2 && Mean(Gaps(ts)) > GapEpsilon ==> r > 0.0 && r * Mean(Gaps(ts)) == 1.0
  {
    if |ts| < 2 then 0.0
    else
      var meanGap := Mean(Gaps(ts));
      if meanGap <= GapEpsilon then 0.0 else 1.0 / meanGap
  }

  /** The gaps telescope: their sum is the last timestamp minus the first. */
  lemma {:induction false} GapsTelescope(ts: seq<real>)
    requires |ts| >= 1
    ensures Sum(Gaps(ts)) == ts[|ts| - 1] - ts[0]
  {
    if |ts| >= 2 {
      var init := ts[..|ts| - 1];
      var g, gi := Gaps(ts), Gaps(init);
      GapsTelescope(init);
      assert g[..|g| - 1] == gi by {
        forall k | 0 <= k < |gi| ensures g[k] == gi[k] {
          assert init[k + 1] == ts[k + 1] && init[k] == ts[k];
        }
      }
      assert Sum(g) == Sum(gi) + g[|g| - 1];
      assert init[|init| - 1] == ts[|ts| - 2] && init[0] == ts[0];
    }
  }

  /** The mean gap of n timestamps is (last - first) / (n - 1). */
  lemma MeanGapFromSpan(ts: seq<real>)
    requires |ts| >= 2
    ensures Mean(Gaps(ts)) == (ts[|ts| - 1] - ts[0]) / ((|ts| - 1) as real)
  {
    var g := Gaps(ts);
    GapsTelescope(ts);
    assert |g| == |ts| - 1;
    assert Mean(g) == Sum(g) / (|g| as real);
  }

  /** The update rate depends only on the first and last timestamps and the count:
      it is (n - 1) / (last - first) unless that span's mean gap is at most GapEpsilon. */
  lemma UpdateRateFromSpan(ts: seq<real>)
    requires |ts| >= 2
    ensures var span := ts[|ts| - 1] - ts[0];
      UpdateRate(ts) == if span / ((|ts| - 1) as real) <= GapEpsilon then 0.0 else ((|ts| - 1) as real) / span
  {
    var span := ts[|ts| - 1] - ts[0];
    var k := (|ts| - 1) as real;
    var m := Mean(Gaps(ts));
    MeanGapFromSpan(ts);
    assert m == span / k;
    assert UpdateRate(ts) == if m <= GapEpsilon then 0.0 else 1.0 / m;
    if m > GapEpsilon {
      Reciprocal(span, k);
    }
  }

  /** Snapshots arriving every dt seconds (dt above GapEpsilon) give an update rate of 1 / dt. */
  lemma UniformArrivalsRate(ts: seq<real>, dt: real)
    requires |ts| >= 2 && dt > GapEpsilon
    requires forall i :: 0 <= i < |ts| ==> ts[i] == ts[0] + (i as real) * dt
    ensures UpdateRate(ts) == 1.0 / dt
  {
    var last := |ts| - 1;
    var k := last as real;
    assert ts[last] == ts[0] + k * dt;
    var span := ts[last] - ts[0];
    Cancel(k, dt);
    UpdateRateFromSpan(ts);
  }

  /** The timestamps of a stream of snapshots. */
  function Timestamps(snaps: seq<BookSnapshot>): (r: seq<real>)
    ensures |r| == |snaps|
    ensures forall i :: 0 <= i < |snaps| ==> r[i] == snaps[i].ts
  {
    seq(|snaps|, i requires 0 <= i < |snaps| => snaps[i].ts)
  }

  /** The engine, holding a bounded history of snapshots and a bounded window of
      their timestamps. */
  class FeatureEngine {
    const depthLevels: int
    const windowSize: nat
    const updateRateWindow: nat
    var snaps: seq<BookSnapshot>
    var tsWindow: seq<real>
    /** Every snapshot pushed so far, oldest first. */
    ghost var pushed: seq<BookSnapshot>

    /** Both buffers hold the newest entries of the pushed stream, up to their capacity. */
    ghost predicate Valid()
      reads this
    {
      snaps == Window(pushed, windowSize) &&
      tsWindow == Window(Timestamps(pushed), updateRateWindow)
    }

    constructor (windowSize: nat := 20, updateRateWindow: nat := 30, depthLevels: int := 5)
      ensures Valid()
      ensures this.windowSize == windowSize && this.updateRateWindow == updateRateWindow
      ensures this.depthLevels == depthLevels
      ensures pushed == [] && snaps == [] && tsWindow == []
    {
      this.depthLevels := depthLevels;
      this.windowSize := windowSize;
      this.updateRateWindow := updateRateWindow;
      snaps := [];
      tsWindow := [];
      pushed := [];
    }

    /** `push`: buffers the snapshot and its timestamp, then computes the features. */
    method Push(snap: BookSnapshot) returns (fv: FeatureVector)
      requires Valid()
      modifies this
      ensures Valid()
      ensures pushed == old(pushed) + [snap]
      ensures snaps == Append(old(snaps), snap, windowSize)
      ensures tsWindow == Append(old(tsWindow), snap.ts, updateRateWindow)
      ensures |snaps| <= windowSize && |tsWindow| <= updateRateWindow
      ensures fv.ts == snap.ts
      ensures fv.imbalance == ComputeImbalance(snap, depthLevels)
      ensures fv.bidSlope == Slope(PrefixSlice(snap.bids, depthLevels))
      ensures fv.askSlope == Slope(PrefixSlice(snap.asks, depthLevels))
      ensures fv.updateRate == UpdateRate(tsWindow)
    {
      WindowAppend(pushed, snap, windowSize);
      WindowAppend(Timestamps(pushed), snap.ts, updateRateWindow);
      assert Timestamps(pushed + [snap]) == Timestamps(pushed) + [snap.ts];
      snaps := Append(snaps, snap, windowSize);
      tsWindow := Append(tsWindow, snap.ts, updateRateWindow);
      pushed := pushed + [snap];
      var bidVol := SumDepthSide(snap.bids, depthLevels);
      var askVol := SumDepthSide(snap.asks, depthLevels);
      var imb := Imbalance(bidVol, askVol);
      var bidSlope := Slope(PrefixSlice(snap.bids, depthLevels));
      var askSlope := Slope(PrefixSlice(snap.asks, depthLevels));
      var rate := UpdateRate(tsWindow);
      fv := FeatureVector(snap.ts, imb, bidSlope, askSlope, rate);
    }
  }

  /** The balanced book of the repository's imbalance test: sizes 5 and 5 on each
      side, depth 2, imbalance 0. */
  lemma BalancedTestBook()
    ensures var snap := BookSnapshot(0.0, [Level(100.0, 5.0), Level(99.0, 5.0)],
                                          [Level(101.0, 5.0), Level(102.0, 5.0)]);
      ComputeImbalance(snap, 2) == 0.0
  {
    var snap := BookSnapshot(0.0, [Level(100.0, 5.0), Level(99.0, 5.0)],
                                  [Level(101.0, 5.0), Level(102.0, 5.0)]);
    assert Quantities(snap.bids)[..2] == [5.0, 5.0];
    assert Quantities(snap.asks)[..2] == [5.0, 5.0];
    assert Sum([5.0, 5.0]) == 10.0 by {
      assert [5.0, 5.0][..1] == [5.0];
      assert [5.0][..0] == [];
    }
  }

  /** The engine test's book (bids 6, 4; asks 5, 5; depth 2) at timestamps 0..4:
      the bid side is front-loaded, the update rate is 1 per second, and the
      imbalance is exactly 0, since both top-2 volumes are 10. */
  lemma EngineTestBook()
    ensures var snap := BookSnapshot(4.0, [Level(100.0, 6.0), Level(99.0, 4.0)],
                                          [Level(101.0, 5.0), Level(102.0, 5.0)]);
      ComputeImbalance(snap, 2) == 0.0 &&
      Slope(PrefixSlice(snap.bids, 2)) == 1.2 &&
      Slope(PrefixSlice(snap.asks, 2)) == 1.0 &&
      UpdateRate([0.0, 1.0, 2.0, 3.0, 4.0]) == 1.0
  {
    var snap := BookSnapshot(4.0, [Level(100.0, 6.0), Level(99.0, 4.0)],
                                  [Level(101.0, 5.0), Level(102.0, 5.0)]);
    assert Quantities(snap.bids) == [6.0, 4.0];
    assert Quantities(snap.asks) == [5.0, 5.0];
    assert Quantities(snap.bids)[..2] == [6.0, 4.0];
    assert Quantities(snap.asks)[..2] == [5.0, 5.0];
    assert Sum([6.0, 4.0]) == 10.0 by {
      assert [6.0, 4.0][..1] == [6.0];
      assert [6.0][..0] == [];
    }
    assert Sum([5.0, 5.0]) == 10.0 by {
      assert [5.0, 5.0][..1] == [5.0];
      assert [5.0][..0] == [];
    }
    var ts := [0.0, 1.0, 2.0, 3.0, 4.0];
    UniformArrivalsRate(ts, 1.0);
  }
}
