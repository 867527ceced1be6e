/**
 * The script uav-noma-adap-PA-rl.py: fixed NOMA power factors [0.8, 0.2], a
 * UAV at 30 m, gains sorted in ascending order so that the WEAK user takes
 * the smallest gain and the STRONG user the largest, SINRs with an imperfect
 * SIC level ip_sic, and the outage and average-rate bookkeeping of every trial.
 */
module AdaptivePaRl {
  import opened Elementary
  import opened Statistics
  import opened Sorting
  import opened Grids
  import GV = GenerateValues
  import PM = PerformanceMetrics
  import CL = CommandLine
  import PA = PaUavnoma
  import PS = PaScript

  /** The module-level constants of the script. */
  const SamplesMc: nat := 10000
  const NumberUsers: nat := 2
  const PathLoss: real := 2.0
  const PowerLos: real := 1.0
  const RicianFactor: real := 10.0
  const TargetRateWeak: real := 0.5
  const TargetRateStrong: real := 1.0
  const AlphaWeak: real := 0.8
  const AlphaStrong: real := 0.2
  const IpSic: real := 0.0
  const RadiusUav: real := 1.0
  const RadiusUser: real := 2.0
  const ZHeight: real := 30.0

  /** snr_dB = range(10, 51, 2) and its linear values; under the law of powers every linear value is positive. */
  function SnrLinear(f: Funcs): (g: seq<real>)
    ensures |g| == 21
    ensures forall j :: 0 <= j < 21 ==> g[j] == CL.SnrLinear(f, Range(10, 51)[j]) && 10.0 <= Range(10, 51)[j] <= 50.0
    ensures PowLaw(f) ==> forall j :: 0 <= j < 21 ==> 0.0 < g[j]
  {
    var db := Range(10, 51);
    seq(|db|, j requires 0 <= j < |db| => CL.SnrLinear(f, db[j]))
  }

  /** The random draws of one pass of the `for mc` loop. */
  datatype TrialDraws = TrialDraws(
    uavAngle: real,          // rand() behind the UAV's angle
    userAngles: seq<real>,   // rand() behind each user's angle
    userRadii: seq<real>,    // rand() behind each user's radius
    fading: seq<GV.Draw>)    // the normal samples behind each user's fading

  predicate WellFormed(t: TrialDraws)
  {
    |t.userAngles| == NumberUsers && |t.userRadii| == NumberUsers && |t.fading| == NumberUsers
  }

  /** The script's geometry: the UAV at z_height on its trajectory circle, the module-level s and sigma. */
  const Geometry: GV.Layout := GV.Layout(RadiusUav, RadiusUser, ZHeight, RicianFactor, PowerLos, PathLoss)

  /**
   * np.sort is ascending: the first entry is the smallest gain and the last
   * the largest; for two users the first never exceeds the second.
   */
  lemma AscendingEnds(g: seq<real>)
    requires |g| > 0
    ensures Sort(g, false)[0] == Min(g)
    ensures Sort(g, false)[|g| - 1] == Max(g)
    ensures |g| == 2 ==> Sort(g, false)[0] <= Sort(g, false)[1]
  {
    var r := Sort(g, false);
    PA.SortKeepsElements(g, false);
    OrderedEnds(r, false);
    var i :| 0 <= i < |r| && r[i] == Max(g);
    var j :| 0 <= j < |r| && r[j] == Min(g);
    assert r[0] in g && r[|g| - 1] in g;
  }

  /** The weak user's SINR: power factor a0, interference from the strong user's factor a1 at the same gain. */
  function WeakSinr(h: real, snr: real, a0: real, a1: real): real
    requires 0.0 <= h && 0.0 <= snr && 0.0 <= a1
  {
    MulNonNegative(snr, h);
    MulNonNegative(snr * h, a1);
    (snr * h * a0) / (snr * h * a1 + 1.0)
  }

  /** The strong user's SINR after SIC: the weak user's signal remains at the level sic. */
  function StrongSinr(h: real, snr: real, a0: real, a1: real, sic: real): real
    requires 0.0 <= h && 0.0 <= snr && 0.0 <= sic && 0.0 <= a0
  {
    MulNonNegative(snr, h);
    MulNonNegative(snr * h, sic);
    MulNonNegative(snr * h * sic, a0);
    (snr * h * a1) / (snr * h * sic * a0 + 1.0)
  }

  /**
   * The weak SINR is the primary SINR of uavnoma/performance_metrics.py with
   * ideal hardware, and the strong SINR its secondary SINR with the SIC level
   * sic; both are non-negative.
   */
  lemma SinrsAreReleaseSinrs(h: real, snr: real, a0: real, a1: real, sic: real)
    requires 0.0 <= h && 0.0 <= snr && 0.0 <= a0 && 0.0 <= a1 && 0.0 <= sic
    ensures PM.PrimaryDenominator(h, snr, a1, 0.0) == snr * h * a1 + 1.0
    ensures PM.SecondaryDenominator(h, snr, a0, 0.0, sic) == snr * h * sic * a0 + 1.0
    ensures WeakSinr(h, snr, a0, a1) == PM.SinrPrimary(h, snr, a0, a1, 0.0)
    ensures StrongSinr(h, snr, a0, a1, sic) == PM.SinrSecondary(h, snr, a1, a0, 0.0, sic)
    ensures 0.0 <= WeakSinr(h, snr, a0, a1) && 0.0 <= StrongSinr(h, snr, a0, a1, sic)
  {
    assert a1 + 0.0 * 0.0 == a1;
    assert a0 * sic + 0.0 * 0.0 == sic * a0;
    assert snr * h * (sic * a0) == snr * h * sic * a0;
    PM.SinrPrimaryBounds(h, snr, a0, a1, 0.0);
    PM.SinrSecondaryBounds(h, snr, a1, a0, 0.0, sic);
  }

  /** The weak (smallest) and strong (largest) gain of a trial; the CHANNEL pair's primary is the weak user. */
  function TrialGains(f: Funcs, t: TrialDraws): (c: GV.ChannelPair)
    requires SqrtLaw(f) && PowLaw(f) && WellFormed(t)
    ensures 0.0 <= c.primary <= c.secondary
  {
    var gs := PA.Gains(f, GV.CircleScene(f, Geometry, t.uavAngle, t.userAngles, t.userRadii), t.fading, NumberUsers);
    AscendingEnds(gs);
    PA.SortKeepsElements(gs, false);
    assert Sort(gs, false)[0] in gs;
    GV.ChannelPair(Sort(gs, false)[0], Sort(gs, false)[1])
  }

  /** The weak and strong rates at one SNR value, and the rate that lets either user miss its target. */
  function WeakRate(f: Funcs, c: GV.ChannelPair, snr: real): real
    requires 0.0 <= c.primary && 0.0 <= snr
  {
    f.ln(1.0 + WeakSinr(c.primary, snr, AlphaWeak, AlphaStrong))
  }

  function StrongRate(f: Funcs, c: GV.ChannelPair, snr: real): real
    requires 0.0 <= c.secondary && 0.0 <= snr
  {
    f.ln(1.0 + StrongSinr(c.secondary, snr, AlphaWeak, AlphaStrong, IpSic))
  }

  /**
   * Under the law of ln both rates are non-negative, and the strong user's,
   * with perfect SIC, is ln(1 + snr * h * 0.2).
   */
  lemma RatesNonNegative(f: Funcs, c: GV.ChannelPair, snr: real)
    requires 0.0 <= c.primary && 0.0 <= c.secondary && 0.0 <= snr
    ensures StrongRate(f, c, snr) == f.ln(1.0 + snr * c.secondary * AlphaStrong)
    ensures LnLaw(f) ==> 0.0 <= WeakRate(f, c, snr) && 0.0 <= StrongRate(f, c, snr)
  {
    SinrsAreReleaseSinrs(c.primary, snr, AlphaWeak, AlphaStrong, IpSic);
    SinrsAreReleaseSinrs(c.secondary, snr, AlphaWeak, AlphaStrong, IpSic);
    assert snr * c.secondary * IpSic * AlphaWeak == 0.0;
    assert StrongSinr(c.secondary, snr, AlphaWeak, AlphaStrong, IpSic) == (snr * c.secondary * AlphaStrong) / 1.0;
  }

  /** Row mc of the six arrays holds the metrics of gains c at every SNR value. */
  ghost predicate RowHolds(f: Funcs, snrLinear: seq<real>, c: GV.ChannelPair, mc: int,
                           rateWeak: array2<real>, rateStrong: array2<real>,
                           outSys: array2<real>, outWeak: array2<real>, outStrong: array2<real>, avgRate: array2<real>)
    reads rateWeak, rateStrong, outSys, outWeak, outStrong, avgRate
  {
    && CL.Distinct(outSys, outWeak, outStrong, avgRate, rateWeak, rateStrong)
    && 0 <= mc < outSys.Length0 && outSys.Length1 == |snrLinear|
    && forall j :: 0 <= j < |snrLinear| ==>
         CellHolds(f, snrLinear, c, mc, j, rateWeak, rateStrong, outSys, outWeak, outStrong, avgRate)
  }

  /**
   * The nested `for sn` / `for ii` loops of one trial. The body of the `ii`
   * loop does not depend on ii, so however many users it runs over (at least
   * one) row mc ends up holding the metrics of gains c; with no users it
   * writes nothing. No other row changes.
   */
  method TrialRow(f: Funcs, snrLinear: seq<real>, c: GV.ChannelPair, nUsers: nat, mc: int,
                  rateWeak: array2<real>, rateStrong: array2<real>,
                  outSys: array2<real>, outWeak: array2<real>, outStrong: array2<real>, avgRate: array2<real>)
    requires 0.0 <= c.primary && 0.0 <= c.secondary
    requires forall j :: 0 <= j < |snrLinear| ==> 0.0 <= snrLinear[j]
    requires CL.Distinct(outSys, outWeak, outStrong, avgRate, rateWeak, rateStrong)
    requires 0 <= mc < outSys.Length0 && outSys.Length1 == |snrLinear|
    modifies rateWeak, rateStrong, outSys, outWeak, outStrong, avgRate
    ensures 1 <= nUsers ==> RowHolds(f, snrLinear, c, mc, rateWeak, rateStrong, outSys, outWeak, outStrong, avgRate)
    ensures forall i, j :: 0 <= i < outSys.Length0 && (i != mc || nUsers == 0) && 0 <= j < outSys.Length1 ==>
      && rateWeak[i, j] == old(rateWeak[i, j]) && rateStrong[i, j] == old(rateStrong[i, j])
      && outSys[i, j] == old(outSys[i, j]) && outWeak[i, j] == old(outWeak[i, j])
      && outStrong[i, j] == old(outStrong[i, j]) && avgRate[i, j] == old(avgRate[i, j])
  {
    var n := |snrLinear|;
    var sinrWeak := new real[n](_ => 0.0);
    var sinrStrong := new real[n](_ => 0.0);
    for sn := 0 to n
      invariant forall i, j :: 0 <= i < outSys.Length0 && (i != mc || nUsers == 0) && 0 <= j < outSys.Length1 ==>
        && rateWeak[i, j] == old(rateWeak[i, j]) && rateStrong[i, j] == old(rateStrong[i, j])
        && outSys[i, j] == old(outSys[i, j]) && outWeak[i, j] == old(outWeak[i, j])
        && outStrong[i, j] == old(outStrong[i, j]) && avgRate[i, j] == old(avgRate[i, j])
      invariant 1 <= nUsers ==> forall j :: 0 <= j < sn ==> CellHolds(f, snrLinear, c, mc, j,
        rateWeak, rateStrong, outSys, outWeak, outStrong, avgRate)
    {
      var snr := snrLinear[sn];
      for ii := 0 to nUsers
        invariant forall i, j :: 0 <= i < outSys.Length0 && (i != mc || nUsers == 0) && 0 <= j < outSys.Length1 ==>
          && rateWeak[i, j] == old(rateWeak[i, j]) && rateStrong[i, j] == old(rateStrong[i, j])
          && outSys[i, j] == old(outSys[i, j]) && outWeak[i, j] == old(outWeak[i, j])
          && outStrong[i, j] == old(outStrong[i, j]) && avgRate[i, j] == old(avgRate[i, j])
        invariant 1 <= nUsers ==> forall j :: 0 <= j < sn ==> CellHolds(f, snrLinear, c, mc, j,
          rateWeak, rateStrong, outSys, outWeak, outStrong, avgRate)
        invariant 1 <= ii ==> CellHolds(f, snrLinear, c, mc, sn, rateWeak, rateStrong, outSys, outWeak, outStrong, avgRate)
      {
        label Before:
        WriteCell(f, snrLinear, c, mc, sn, sinrWeak, sinrStrong, rateWeak, rateStrong, outSys, outWeak, outStrong, avgRate);
        if 1 <= nUsers {
          forall j | 0 <= j < sn
            ensures CellHolds(f, snrLinear, c, mc, j, rateWeak, rateStrong, outSys, outWeak, outStrong, avgRate)
          {
            assert old@Before(CellHolds(f, snrLinear, c, mc, j, rateWeak, rateStrong, outSys, outWeak, outStrong, avgRate));
          }
        }
      }
    }
  }

  /** Cell (mc, j) of the six arrays holds the metrics of gains c at SNR value j. */
  ghost predicate CellHolds(f: Funcs, snrLinear: seq<real>, c: GV.ChannelPair, mc: int, j: int,
                            rateWeak: array2<real>, rateStrong: array2<real>,
                            outSys: array2<real>, outWeak: array2<real>, outStrong: array2<real>, avgRate: array2<real>)
    reads rateWeak, rateStrong, outSys, outWeak, outStrong, avgRate
  {
    && CL.Distinct(outSys, outWeak, outStrong, avgRate, rateWeak, rateStrong)
    && 0 <= mc < outSys.Length0 && 0 <= j < outSys.Length1 && j < |snrLinear|
    && 0.0 <= c.primary && 0.0 <= c.secondary && 0.0 <= snrLinear[j]
    && rateWeak[mc, j] == WeakRate(f, c, snrLinear[j])
    && rateStrong[mc, j] == StrongRate(f, c, snrLinear[j])
    && var o := PM.OutageProbability(rateWeak[mc, j], rateStrong[mc, j], TargetRateWeak, TargetRateStrong);
    && outSys[mc, j] == o.system as real && outWeak[mc, j] == o.primary as real
    && outStrong[mc, j] == o.secondary as real
    && avgRate[mc, j] == PM.AverageRate(rateWeak[mc, j], rateStrong[mc, j])
  }

  /**
   * One pass of the `ii` loop body at SNR index sn: the two SINRs, the two
   * rates, the three outage indicators and the average rate of cell (mc, sn).
   * No other cell changes.
   */
  method WriteCell(f: Funcs, snrLinear: seq<real>, c: GV.ChannelPair, mc: int, sn: int,
                   sinrWeak: array<real>, sinrStrong: array<real>,
                   rateWeak: array2<real>, rateStrong: array2<real>,
                   outSys: array2<real>, outWeak: array2<real>, outStrong: array2<real>, avgRate: array2<real>)
    requires 0.0 <= c.primary && 0.0 <= c.secondary
    requires CL.Distinct(outSys, outWeak, outStrong, avgRate, rateWeak, rateStrong)
    requires 0 <= mc < outSys.Length0 && 0 <= sn < outSys.Length1 && sn < |snrLinear| && 0.0 <= snrLinear[sn]
    requires sinrWeak != sinrStrong && sn < sinrWeak.Length && sn < sinrStrong.Length
    modifies sinrWeak, sinrStrong, rateWeak, rateStrong, outSys, outWeak, outStrong, avgRate
    ensures CellHolds(f, snrLinear, c, mc, sn, rateWeak, rateStrong, outSys, outWeak, outStrong, avgRate)
    ensures sinrWeak[sn] == WeakSinr(c.primary, snrLinear[sn], AlphaWeak, AlphaStrong)
    ensures sinrStrong[sn] == StrongSinr(c.secondary, snrLinear[sn], AlphaWeak, AlphaStrong, IpSic)
    ensures forall i, j :: 0 <= i < outSys.Length0 && 0 <= j < outSys.Length1 && (i != mc || j != sn) ==>
      && rateWeak[i, j] == old(rateWeak[i, j]) && rateStrong[i, j] == old(rateStrong[i, j])
      && outSys[i, j] == old(outSys[i, j]) && outWeak[i, j] == old(outWeak[i, j])
      && outStrong[i, j] == old(outStrong[i, j]) && avgRate[i, j] == old(avgRate[i, j])
  {
    var snr := snrLinear[sn];
    var hw, hs := c.primary, c.secondary;
    MulNonNegative(snr, hw);
    MulNonNegative(snr * hw, AlphaStrong);
    MulNonNegative(snr, hs);
    var weak := (snr * hw * AlphaWeak) / (snr * hw * AlphaStrong + 1.0);
    assert weak == WeakSinr(hw, snr, AlphaWeak, AlphaStrong);
    sinrWeak[sn] := weak;
    rateWeak[mc, sn] := f.ln(1.0 + weak);
    var strong := (snr * hs * AlphaStrong) / (snr * hs * IpSic * AlphaWeak + 1.0);
    assert strong == StrongSinr(hs, snr, AlphaWeak, AlphaStrong, IpSic);
    sinrStrong[sn] := strong;
    rateStrong[mc, sn] := f.ln(1.0 + strong);
    var rw, rs := rateWeak[mc, sn], rateStrong[mc, sn];
    if rw < TargetRateWeak || rs < TargetRateStrong {
      outSys[mc, sn] := 1.0;
    } else {
      outSys[mc, sn] := 0.0;
    }
    if rw < TargetRateWeak {
      outWeak[mc, sn] := 1.0;
    } else {
      outWeak[mc, sn] := 0.0;
    }
    if rs < TargetRateStrong {
      outStrong[mc, sn] := 1.0;
    } else {
      outStrong[mc, sn] := 0.0;
    }
    avgRate[mc, sn] := (rw + rs) / 2.0;
  }

  /**
   * The start of one pass of the `for mc` loop: positions, the `for uu` loop
   * filling h_rn and distance, and np.sort(h_rn); the weak user takes the
   * first (smallest) gain and the strong user the last.
   */
  method TrialChannel(f: Funcs, t: TrialDraws) returns (c: GV.ChannelPair)
    requires SqrtLaw(f) && PowLaw(f) && WellFormed(t)
    ensures c == TrialGains(f, t)
  {
    var sc := GV.CircleScene(f, Geometry, t.uavAngle, t.userAngles, t.userRadii);
    var hrn := new real[NumberUsers](_ => 0.0);
    var distance := new real[NumberUsers](_ => 0.0);
    PA.FillGains(f, sc, NumberUsers, t.fading, hrn, distance);
    assert hrn[..] == PA.Gains(f, sc, t.fading, NumberUsers);
    var sorted := Sort(hrn[..], false);
    c := GV.ChannelPair(sorted[0], sorted[1]);
  }

  /** Rows 0 .. n-1 hold the metrics of the first n gain pairs. */
  ghost predicate RowsHold(f: Funcs, snrLinear: seq<real>, pairs: seq<GV.ChannelPair>, n: int,
                           rateWeak: array2<real>, rateStrong: array2<real>,
                           outSys: array2<real>, outWeak: array2<real>, outStrong: array2<real>, avgRate: array2<real>)
    reads rateWeak, rateStrong, outSys, outWeak, outStrong, avgRate
  {
    && 0 <= n <= |pairs|
    && forall i :: 0 <= i < n ==> RowHolds(f, snrLinear, pairs[i], i, rateWeak, rateStrong, outSys, outWeak, outStrong, avgRate)
  }

  /** One pass of the `for mc` loop: the trial's gains, then its row; the earlier rows keep theirs. */
  method RunTrial(f: Funcs, snrLinear: seq<real>, t: TrialDraws, mc: int, ghost pairs: seq<GV.ChannelPair>,
                  rateWeak: array2<real>, rateStrong: array2<real>,
                  outSys: array2<real>, outWeak: array2<real>, outStrong: array2<real>, avgRate: array2<real>)
    requires SqrtLaw(f) && PowLaw(f) && WellFormed(t)
    requires forall j :: 0 <= j < |snrLinear| ==> 0.0 <= snrLinear[j]
    requires CL.Distinct(outSys, outWeak, outStrong, avgRate, rateWeak, rateStrong)
    requires 0 <= mc < outSys.Length0 && outSys.Length1 == |snrLinear|
    requires mc < |pairs| && pairs[mc] == TrialGains(f, t)
    requires RowsHold(f, snrLinear, pairs, mc, rateWeak, rateStrong, outSys, outWeak, outStrong, avgRate)
    modifies rateWeak, rateStrong, outSys, outWeak, outStrong, avgRate
    ensures RowsHold(f, snrLinear, pairs, mc + 1, rateWeak, rateStrong, outSys, outWeak, outStrong, avgRate)
  {
    var c := TrialChannel(f, t);
    TrialRow(f, snrLinear, c, NumberUsers, mc, rateWeak, rateStrong, outSys, outWeak, outStrong, avgRate);
    forall i | 0 <= i < mc
      ensures RowHolds(f, snrLinear, pairs[i], i, rateWeak, rateStrong, outSys, outWeak, outStrong, avgRate)
    {
      assert old(RowHolds(f, snrLinear, pairs[i], i, rateWeak, rateStrong, outSys, outWeak, outStrong, avgRate));
    }
  }

  /**
   * The body of the script: the six N_mc x len(snr_dB) arrays the loop
   * writes, and the `for mc` loop over every trial. Row i of each array then
   * holds the metrics of trial i's weak and strong gains.
   */
  method RunTrials(f: Funcs, trials: seq<TrialDraws>)
    returns (rateWeak: array2<real>, rateStrong: array2<real>,
             outSys: array2<real>, outWeak: array2<real>, outStrong: array2<real>, avgRate: array2<real>,
             ghost pairs: seq<GV.ChannelPair>)
    requires SqrtLaw(f) && PowLaw(f)
    requires |trials| == SamplesMc
    requires forall i :: 0 <= i < |trials| ==> WellFormed(trials[i])
    ensures CL.Distinct(outSys, outWeak, outStrong, avgRate, rateWeak, rateStrong)
    ensures outSys.Length0 == |trials| && outSys.Length1 == 21
    ensures |pairs| == |trials| && forall i :: 0 <= i < |trials| ==> pairs[i] == TrialGains(f, trials[i])
    ensures RowsHold(f, SnrLinear(f), pairs, |trials|, rateWeak, rateStrong, outSys, outWeak, outStrong, avgRate)
  {
    var n := SamplesMc;
    var snrLinear := SnrLinear(f);
    pairs := seq(n, i requires 0 <= i < n => TrialGains(f, trials[i]));
    outSys, outWeak, outStrong, avgRate, rateWeak, rateStrong := CL.Allocate(n, |snrLinear|);
    for mc := 0 to n
      invariant RowsHold(f, snrLinear, pairs, mc, rateWeak, rateStrong, outSys, outWeak, outStrong, avgRate)
    {
      RunTrial(f, snrLinear, trials[mc], mc, pairs, rateWeak, rateStrong, outSys, outWeak, outStrong, avgRate);
    }
  }

  /**
   * The means after the loop: the three outage means are probabilities, the
   * system's lies between each user's and their sum, the mean average rate is
   * half the sum of the two mean rates, and under the law of ln the mean rates
   * are non-negative.
   */
  lemma ScriptMeans(f: Funcs, pairs: seq<GV.ChannelPair>,
                    rateWeak: array2<real>, rateStrong: array2<real>,
                    outSys: array2<real>, outWeak: array2<real>, outStrong: array2<real>, avgRate: array2<real>)
    requires CL.Distinct(outSys, outWeak, outStrong, avgRate, rateWeak, rateStrong)
    requires 0 < outSys.Length0 == |pairs|
    requires RowsHold(f, SnrLinear(f), pairs, |pairs|, rateWeak, rateStrong, outSys, outWeak, outStrong, avgRate)
    ensures forall j :: 0 <= j < outSys.Length1 ==>
      var sys, weak, strong := ColumnMeans(outSys)[j], ColumnMeans(outWeak)[j], ColumnMeans(outStrong)[j];
      && 0.0 <= sys <= 1.0 && 0.0 <= weak <= 1.0 && 0.0 <= strong <= 1.0
      && weak <= sys <= weak + strong && strong <= sys
      && ColumnMeans(avgRate)[j] == (ColumnMeans(rateWeak)[j] + ColumnMeans(rateStrong)[j]) / 2.0
    ensures LnLaw(f) ==> forall j :: 0 <= j < outSys.Length1 ==>
      0.0 <= ColumnMeans(rateWeak)[j] && 0.0 <= ColumnMeans(rateStrong)[j] && 0.0 <= ColumnMeans(avgRate)[j]
  {
    var snrLinear := SnrLinear(f);
    assert RowHolds(f, snrLinear, pairs[0], 0, rateWeak, rateStrong, outSys, outWeak, outStrong, avgRate);
    forall j | 0 <= j < outSys.Length1
      ensures var sys, weak, strong := ColumnMeans(outSys)[j], ColumnMeans(outWeak)[j], ColumnMeans(outStrong)[j];
        && 0.0 <= sys <= 1.0 && 0.0 <= weak <= 1.0 && 0.0 <= strong <= 1.0
        && weak <= sys <= weak + strong && strong <= sys
        && ColumnMeans(avgRate)[j] == (ColumnMeans(rateWeak)[j] + ColumnMeans(rateStrong)[j]) / 2.0
      ensures LnLaw(f) ==> 0.0 <= ColumnMeans(rateWeak)[j] && 0.0 <= ColumnMeans(rateStrong)[j] && 0.0 <= ColumnMeans(avgRate)[j]
    {
      forall i | 0 <= i < outSys.Length0
        ensures var o := PM.OutageProbability(rateWeak[i, j], rateStrong[i, j], TargetRateWeak, TargetRateStrong);
          && outSys[i, j] == o.system as real && outWeak[i, j] == o.primary as real
          && outStrong[i, j] == o.secondary as real
          && avgRate[i, j] == PM.AverageRate(rateWeak[i, j], rateStrong[i, j])
        ensures LnLaw(f) ==> 0.0 <= rateWeak[i, j] && 0.0 <= rateStrong[i, j] && 0.0 <= avgRate[i, j]
      {
        assert RowHolds(f, snrLinear, pairs[i], i, rateWeak, rateStrong, outSys, outWeak, outStrong, avgRate);
        assert CellHolds(f, snrLinear, pairs[i], i, j, rateWeak, rateStrong, outSys, outWeak, outStrong, avgRate);
        RatesNonNegative(f, pairs[i], snrLinear[j]);
      }
      PS.RecordedColumn(rateWeak, rateStrong, TargetRateWeak, TargetRateStrong, outSys, outWeak, outStrong, avgRate, j);
      if LnLaw(f) {
        MeanNonNegative(Column(rateWeak, j));
        MeanNonNegative(Column(rateStrong, j));
        MeanNonNegative(Column(avgRate, j));
      }
    }
  }
}
