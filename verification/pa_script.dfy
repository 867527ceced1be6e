/**
 * The stand-alone script pauavnoma/pauavnoma.py: fixed parameters, a UAV at
 * 30 m, gains sorted in descending order into module-level arrays, a primary
 * rate that falls back to OMA whenever NOMA misses the primary target, an
 * interference-free secondary rate, and the outage bookkeeping of every trial.
 *
 * As in the release of pauavnoma/uavnoma.py, the PRIMARY user is the one with
 * the largest gain, taken from one call of generate_Channel, and the
 * secondary gain is the smallest of a second call.
 */
module PaScript {
  import opened Elementary
  import opened Statistics
  import opened Sorting
  import opened Grids
  import GV = GenerateValues
  import PM = PerformanceMetrics
  import CL = CommandLine
  import PA = PaUavnoma

  /** What parameters() returns. */
  datatype Parameters = Parameters(
    samplesMc: int, numberUsers: int, powerLos: real, ricianFactor: real,
    pathLoss: real, numberUav: int, snrDb: seq<real>, snrLinear: seq<real>,
    radiusUav: real, radiusUser: real,
    targetRatePrimary: real, targetRateSecondary: real)

  /** The assertions parameters() makes before it returns. */
  predicate Asserted(p: Parameters)
  {
    && 10000 <= p.samplesMc <= 1000000
    && p.numberUsers == 2
    && (p.powerLos == 1.0 || p.powerLos == 2.0)
    && 0.0 <= p.ricianFactor <= 10.0
    && p.numberUav == 1
  }

  /**
   * parameters(): its own values pass its assertions; the grid runs over
   * 10, 12, ..., 50 dB and holds, entry by entry, the linear value of each,
   * which is positive under the law of powers.
   */
  function ScriptParameters(f: Funcs): (p: Parameters)
    ensures Asserted(p)
    ensures |p.snrDb| == |p.snrLinear| == 21 && p.snrDb[0] == 10.0 && p.snrDb[20] == 50.0
    ensures forall j :: 0 <= j < 21 ==> 10.0 <= p.snrDb[j] <= 50.0 && p.snrLinear[j] == CL.SnrLinear(f, p.snrDb[j])
    ensures PowLaw(f) ==> forall j :: 0 <= j < 21 ==> 0.0 < p.snrLinear[j]
  {
    var db := Range(10, 51);
    var linear := seq(|db|, j requires 0 <= j < |db| => CL.SnrLinear(f, db[j]));
    Parameters(10000, 2, 1.0, 6.0, 2.0, 1, db, linear, 1.0, 2.0, 1.0, 0.5)
  }

  /**
   * generate_power_Coeff: the fixed allocation 0.8 / 0.2, which meets the
   * condition the function warns about: the powers sum to a value in (0, 1]
   * and the primary user gets more than the secondary.
   */
  function GeneratePowerCoeff(nUsers: int): (c: (real, real))
    ensures c.1 < c.0
    ensures 0.0 < c.0 + c.1 <= 1.0
    ensures 0.0 < c.1
  {
    (0.8, 0.2)
  }

  /** random_Position_UAV: a point of the trajectory circle at the fixed height of 30 m. */
  function RandomPositionUav(f: Funcs, numberUav: int, radiusUav: real, uAngle: real): GV.UavPosition
  {
    var q := GV.PolarPoint(f, radiusUav, uAngle);
    GV.UavPosition(q.x, q.y, 30.0)
  }

  /** The UAV flies at 30 m, on the circle of the trajectory radius. */
  lemma RandomPositionUavOnCircle(f: Funcs, numberUav: int, radiusUav: real, uAngle: real)
    requires TrigLaw(f)
    ensures var q := RandomPositionUav(f, numberUav, radiusUav, uAngle);
      q.z == 30.0 && q.x * q.x + q.y * q.y == radiusUav * radiusUav
  {
    GV.PolarPointOnCircle(f, radiusUav, uAngle);
  }

  /** The random draws of one pass of the `for mc` loop. */
  datatype TrialDraws = TrialDraws(
    uavAngle: real,              // rand() behind the UAV's angle
    userAngles: seq<real>,       // rand() behind each user's angle
    userRadii: seq<real>,        // rand() behind each user's radius
    fadingFirst: seq<GV.Draw>,   // the normal samples of the first generate_Channel call
    fadingSecond: seq<GV.Draw>)  // the normal samples of the second call

  /** A trial supplies one value of each kind per user. */
  predicate WellFormed(t: TrialDraws, numberUsers: int)
  {
    && |t.userAngles| == numberUsers
    && |t.userRadii| == numberUsers
    && |t.fadingFirst| == numberUsers
    && |t.fadingSecond| == numberUsers
  }

  /** The positions the trial draws and the module-level fading parameters s and sigma. */
  function SceneOf(f: Funcs, p: Parameters, t: TrialDraws): (sc: GV.Scene)
    requires SqrtLaw(f) && 0.0 <= p.ricianFactor && |t.userAngles| == |t.userRadii|
    ensures |sc.userX| == |t.userAngles| && |sc.userY| == |t.userAngles|
    ensures GV.Airborne(sc)
  {
    var uav := RandomPositionUav(f, p.numberUav, p.radiusUav, t.uavAngle);
    GV.DrawScene(f, uav.x, uav.y, uav.z, p.radiusUser, t.userAngles, t.userRadii, p.ricianFactor, p.powerLos, p.pathLoss)
  }

  /**
   * generate_Channel: the loop writes distance[uu] and h_n[uu] of the
   * module-level arrays for every user and nothing else; the result is the
   * whole of h_n sorted in descending order, whose first entry is its
   * largest value and whose last its smallest.
   */
  method GenerateChannel(f: Funcs, sc: GV.Scene, numberUser: int, draws: seq<GV.Draw>,
                         hn: array<real>, distance: array<real>)
    returns (channelGain: seq<real>)
    requires SqrtLaw(f) && PowLaw(f) && GV.Airborne(sc)
    requires 0 <= numberUser <= |sc.userX| && numberUser <= |sc.userY| && numberUser <= |draws|
    requires hn != distance && numberUser <= hn.Length && numberUser <= distance.Length
    modifies hn, distance
    ensures forall k :: 0 <= k < numberUser ==> distance[k] == GV.Distance(f, sc, k) && hn[k] == PA.UserGain(f, sc, draws, k)
    ensures forall k :: numberUser <= k < hn.Length ==> hn[k] == old(hn[k])
    ensures forall k :: numberUser <= k < distance.Length ==> distance[k] == old(distance[k])
    ensures channelGain == Sort(hn[..], true)
    ensures hn.Length > 0 ==> channelGain[0] == Max(hn[..]) && channelGain[hn.Length - 1] == Min(hn[..])
  {
    PA.FillGains(f, sc, numberUser, draws, hn, distance);
    channelGain := Sort(hn[..], true);
    if hn.Length > 0 {
      PA.DescendingEnds(hn[..]);
    }
  }

  /** The NOMA SINR of the primary user: no hardware impairment, interference weighted by the secondary gain hs. */
  function NomaSinr(hp: real, hs: real, snr: real, pp: real, ps: real): real
    requires 0.0 <= hs && 0.0 <= snr && 0.0 <= ps
  {
    MulNonNegative(snr, hs);
    MulNonNegative(snr * hs, ps);
    (snr * hp * pp) / (snr * hs * ps + 1.0)
  }

  function NomaRate(f: Funcs, hp: real, hs: real, snr: real, pp: real, ps: real): real
    requires 0.0 <= hs && 0.0 <= snr && 0.0 <= ps
  {
    f.ln(1.0 + NomaSinr(hp, hs, snr, pp, ps))
  }

  /** The OMA SINR of the primary user: the whole power and no interference. */
  function OmaSinr(hp: real, snr: real): real
  {
    snr * hp
  }

  /** The OMA rate: half the time slot at the interference-free SINR. */
  function OmaRate(f: Funcs, hp: real, snr: real): real
  {
    0.5 * f.ln(1.0 + OmaSinr(hp, snr))
  }

  /** The rate the primary loop leaves at one SNR value: NOMA's, unless it misses the target, then OMA's. */
  function PrimaryRate(f: Funcs, hp: real, hs: real, snr: real, pp: real, ps: real, target: real): real
    requires 0.0 <= hs && 0.0 <= snr && 0.0 <= ps
  {
    if NomaRate(f, hp, hs, snr, pp, ps) < target then OmaRate(f, hp, snr) else NomaRate(f, hp, hs, snr, pp, ps)
  }

  /** The SINR the primary loop leaves next to that rate. */
  function PrimarySinr(f: Funcs, hp: real, hs: real, snr: real, pp: real, ps: real, target: real): real
    requires 0.0 <= hs && 0.0 <= snr && 0.0 <= ps
  {
    if NomaRate(f, hp, hs, snr, pp, ps) < target then OmaSinr(hp, snr) else NomaSinr(hp, hs, snr, pp, ps)
  }

  /**
   * The NOMA SINR of this script is the SINR of the release in
   * pauavnoma/uavnoma.py with ideal hardware, and it lies between 0 and
   * snr * hp * pp.
   */
  lemma NomaSinrIdealHardware(hp: real, hs: real, snr: real, pp: real, ps: real)
    requires 0.0 <= hs && 0.0 <= snr && 0.0 <= ps
    ensures PM.PrimaryDenominator(hs, snr, ps, 0.0) == snr * hs * ps + 1.0
    ensures NomaSinr(hp, hs, snr, pp, ps) == PA.SinrPrimary(hp, hs, snr, pp, ps, 0.0)
    ensures 0.0 <= hp && 0.0 <= pp ==> 0.0 <= NomaSinr(hp, hs, snr, pp, ps) <= snr * hp * pp
  {
    assert ps + 0.0 * 0.0 == ps;
    if 0.0 <= hp && 0.0 <= pp {
      SaturatingBounds(hp * pp, hs * ps, snr);
      assert snr * hp * pp == hp * pp * snr;
      assert snr * hs * ps == hs * ps * snr;
    }
  }

  /**
   * What the fallback leaves: either a NOMA rate that meets the target, or
   * the OMA rate in place of a NOMA rate below it; never a NOMA rate below
   * the target. Under the law of ln, the rate is non-negative.
   */
  lemma PrimaryRateCases(f: Funcs, hp: real, hs: real, snr: real, pp: real, ps: real, target: real)
    requires 0.0 <= hs && 0.0 <= snr && 0.0 <= ps
    ensures var r := PrimaryRate(f, hp, hs, snr, pp, ps, target);
      var noma := NomaRate(f, hp, hs, snr, pp, ps);
      || (target <= noma && r == noma && PrimarySinr(f, hp, hs, snr, pp, ps, target) == NomaSinr(hp, hs, snr, pp, ps))
      || (noma < target && r == OmaRate(f, hp, snr) && PrimarySinr(f, hp, hs, snr, pp, ps, target) == OmaSinr(hp, snr))
    ensures LnLaw(f) && 0.0 <= hp && 0.0 <= pp ==> 0.0 <= PrimaryRate(f, hp, hs, snr, pp, ps, target)
  {
    if LnLaw(f) && 0.0 <= hp && 0.0 <= pp {
      NomaSinrIdealHardware(hp, hs, snr, pp, ps);
      MulNonNegative(snr, hp);
      assert 0.0 <= f.ln(1.0 + NomaSinr(hp, hs, snr, pp, ps));
      assert 0.0 <= f.ln(1.0 + snr * hp);
    }
  }

  /**
   * The primary user is in outage after the fallback exactly when NOMA and
   * OMA both miss the target.
   */
  lemma FallbackOutage(f: Funcs, hp: real, hs: real, snr: real, pp: real, ps: real, target: real)
    requires 0.0 <= hs && 0.0 <= snr && 0.0 <= ps
    ensures PrimaryRate(f, hp, hs, snr, pp, ps, target) < target <==>
      NomaRate(f, hp, hs, snr, pp, ps) < target && OmaRate(f, hp, snr) < target
  {
  }

  /**
   * calculate_Instantaneous_Rate_Primary: for every SNR value, writes the
   * NOMA SINR and rate into the module-level arrays and overwrites both with
   * the OMA values when the NOMA rate misses the target.
   */
  method CalculateRatePrimary(f: Funcs, channelPri: real, channelSec: real, snrLinear: seq<real>,
                              powerPrimary: real, powerSecondary: real, targetRatePri: real,
                              sinrPrimary: array<real>, instRatePrimary: array<real>)
    requires 0.0 <= channelSec && 0.0 <= powerSecondary
    requires forall sn :: 0 <= sn < |snrLinear| ==> 0.0 <= snrLinear[sn]
    requires sinrPrimary != instRatePrimary
    requires sinrPrimary.Length == instRatePrimary.Length == |snrLinear|
    modifies sinrPrimary, instRatePrimary
    ensures forall sn :: 0 <= sn < |snrLinear| ==>
      && instRatePrimary[sn] == PrimaryRate(f, channelPri, channelSec, snrLinear[sn], powerPrimary, powerSecondary, targetRatePri)
      && sinrPrimary[sn] == PrimarySinr(f, channelPri, channelSec, snrLinear[sn], powerPrimary, powerSecondary, targetRatePri)
  {
    for sn := 0 to |snrLinear|
      invariant forall j :: 0 <= j < sn ==>
        && instRatePrimary[j] == PrimaryRate(f, channelPri, channelSec, snrLinear[j], powerPrimary, powerSecondary, targetRatePri)
        && sinrPrimary[j] == PrimarySinr(f, channelPri, channelSec, snrLinear[j], powerPrimary, powerSecondary, targetRatePri)
    {
      var snr := snrLinear[sn];
      MulNonNegative(snr, channelSec);
      MulNonNegative(snr * channelSec, powerSecondary);
      var sinr := (snr * channelPri * powerPrimary) / (snr * channelSec * powerSecondary + 1.0);
      assert sinr == NomaSinr(channelPri, channelSec, snr, powerPrimary, powerSecondary);
      sinrPrimary[sn] := sinr;
      instRatePrimary[sn] := f.ln(1.0 + sinr);
      assert instRatePrimary[sn] == NomaRate(f, channelPri, channelSec, snr, powerPrimary, powerSecondary);
      if instRatePrimary[sn] < targetRatePri {
        var oma := snr * channelPri;
        assert oma == OmaSinr(channelPri, snr);
        sinrPrimary[sn] := oma;
        instRatePrimary[sn] := 0.5 * f.ln(1.0 + oma);
      }
    }
  }

  /** The secondary user's SINR: its own signal, without interference after SIC. */
  function SecondarySinr(hs: real, snr: real, ps: real): real
  {
    snr * hs * ps
  }

  function SecondaryRate(f: Funcs, hs: real, snr: real, ps: real): real
  {
    f.ln(1.0 + SecondarySinr(hs, snr, ps))
  }

  /**
   * The secondary SINR of this script is the later release's with perfect
   * SIC and ideal hardware, whatever the primary power; it and, under the
   * law of ln, the rate are non-negative.
   */
  lemma SecondaryRateFacts(f: Funcs, hs: real, snr: real, ps: real, pp: real)
    ensures SecondarySinr(hs, snr, ps) == PM.SinrSecondary(hs, snr, ps, pp, 0.0, 0.0)
    ensures 0.0 <= hs && 0.0 <= snr && 0.0 <= ps ==> 0.0 <= SecondarySinr(hs, snr, ps)
    ensures LnLaw(f) && 0.0 <= hs && 0.0 <= snr && 0.0 <= ps ==> 0.0 <= SecondaryRate(f, hs, snr, ps)
  {
    PM.SinrSecondaryInterferenceFree(hs, snr, ps, pp);
    if 0.0 <= hs && 0.0 <= snr && 0.0 <= ps {
      MulNonNegative(snr, hs);
      MulNonNegative(snr * hs, ps);
    }
  }

  /** calculate_Instantaneous_Rate_Secondary: writes the SINR and the rate of every SNR value. */
  method CalculateRateSecondary(f: Funcs, channelSec: real, snrLinear: seq<real>, powerSecondary: real,
                                sinrSecondary: array<real>, instRateSecondary: array<real>)
    requires sinrSecondary != instRateSecondary
    requires sinrSecondary.Length == instRateSecondary.Length == |snrLinear|
    modifies sinrSecondary, instRateSecondary
    ensures forall sn :: 0 <= sn < |snrLinear| ==>
      && sinrSecondary[sn] == SecondarySinr(channelSec, snrLinear[sn], powerSecondary)
      && instRateSecondary[sn] == SecondaryRate(f, channelSec, snrLinear[sn], powerSecondary)
  {
    for sn := 0 to |snrLinear|
      invariant forall j :: 0 <= j < sn ==>
        && sinrSecondary[j] == SecondarySinr(channelSec, snrLinear[j], powerSecondary)
        && instRateSecondary[j] == SecondaryRate(f, channelSec, snrLinear[j], powerSecondary)
    {
      sinrSecondary[sn] := snrLinear[sn] * channelSec * powerSecondary;
      instRateSecondary[sn] := f.ln(1.0 + sinrSecondary[sn]);
    }
  }

  /** The row assignment x[mc, :] = row: row mc becomes row, every other row stays. */
  method CopyRow(row: array<real>, arr: array2<real>, mc: int)
    requires 0 <= mc < arr.Length0 && row.Length == arr.Length1
    modifies arr
    ensures forall j :: 0 <= j < arr.Length1 ==> arr[mc, j] == row[j]
    ensures forall i, j :: 0 <= i < arr.Length0 && i != mc && 0 <= j < arr.Length1 ==> arr[i, j] == old(arr[i, j])
  {
    for j := 0 to arr.Length1
      invariant forall k :: 0 <= k < j ==> arr[mc, k] == row[k]
      invariant forall i, k :: 0 <= i < arr.Length0 && i != mc && 0 <= k < arr.Length1 ==> arr[i, k] == old(arr[i, k])
    {
      arr[mc, j] := row[j];
    }
  }

  /** Everything one trial needs: the laws, the script's own parameters and power coefficients, and draws for two users. */
  ghost predicate TrialReady(f: Funcs, p: Parameters, pp: real, ps: real, t: TrialDraws)
  {
    && SqrtLaw(f) && PowLaw(f)
    && p == ScriptParameters(f)
    && (pp, ps) == GeneratePowerCoeff(p.numberUsers)
    && WellFormed(t, p.numberUsers)
  }

  /** The primary (largest of the first call) and secondary (smallest of the second call) gain of a trial. */
  function TrialPair(f: Funcs, p: Parameters, t: TrialDraws): (c: GV.ChannelPair)
    requires SqrtLaw(f) && PowLaw(f) && p == ScriptParameters(f) && WellFormed(t, p.numberUsers)
    ensures 0.0 <= c.primary && 0.0 <= c.secondary
  {
    var sc := SceneOf(f, p, t);
    var first := PA.Gains(f, sc, t.fadingFirst, 2);
    var second := PA.Gains(f, sc, t.fadingSecond, 2);
    PA.SortKeepsElements(first, true);
    PA.SortKeepsElements(second, true);
    assert Max(Sort(first, true)) in first && Min(Sort(second, true)) in second;
    PA.MainGains(f, sc, 2, t.fadingFirst, t.fadingSecond)
  }

  /** Row mc of the six arrays holds the rates, the outage indicators and the average rate of channel pair c. */
  ghost predicate RowHolds(f: Funcs, p: Parameters, pp: real, ps: real, c: GV.ChannelPair, mc: int,
                           ratePri: array2<real>, rateSec: array2<real>,
                           outSys: array2<real>, outPri: array2<real>, outSec: array2<real>, avgRate: array2<real>)
    reads ratePri, rateSec, outSys, outPri, outSec, avgRate
  {
    && CL.Distinct(outSys, outPri, outSec, avgRate, ratePri, rateSec)
    && 0 <= mc < outSys.Length0 && outSys.Length1 == |p.snrLinear|
    && 0.0 <= c.primary && 0.0 <= c.secondary && 0.0 <= pp && 0.0 <= ps
    && (forall j :: 0 <= j < |p.snrLinear| ==> 0.0 <= p.snrLinear[j])
    && forall j :: 0 <= j < |p.snrLinear| ==>
         && ratePri[mc, j] == PrimaryRate(f, c.primary, c.secondary, p.snrLinear[j], pp, ps, p.targetRatePrimary)
         && rateSec[mc, j] == SecondaryRate(f, c.secondary, p.snrLinear[j], ps)
         && var o := PM.OutageProbability(ratePri[mc, j], rateSec[mc, j], p.targetRatePrimary, p.targetRateSecondary);
         && outSys[mc, j] == o.system as real && outPri[mc, j] == o.primary as real
         && outSec[mc, j] == o.secondary as real
         && avgRate[mc, j] == PM.AverageRate(ratePri[mc, j], rateSec[mc, j])
  }

  /**
   * The two generate_Channel calls of one trial on its scene sc, into
   * fresh h_n and distance arrays: the largest gain of the first call and the
   * smallest of the second.
   */
  method TrialChannel(f: Funcs, sc: GV.Scene, t: TrialDraws) returns (c: GV.ChannelPair)
    requires SqrtLaw(f) && PowLaw(f) && GV.Airborne(sc)
    requires 2 <= |sc.userX| && 2 <= |sc.userY| && WellFormed(t, 2)
    ensures c == PA.MainGains(f, sc, 2, t.fadingFirst, t.fadingSecond)
  {
    var hn := new real[2](_ => 0.0);
    var distance := new real[2](_ => 0.0);
    var first := GenerateChannel(f, sc, 2, t.fadingFirst, hn, distance);
    assert hn[..] == PA.Gains(f, sc, t.fadingFirst, 2);
    var channelGainPrimary := Max(first);
    var second := GenerateChannel(f, sc, 2, t.fadingSecond, hn, distance);
    assert hn[..] == PA.Gains(f, sc, t.fadingSecond, 2);
    var channelGainSecondary := Min(second);
    c := GV.ChannelPair(channelGainPrimary, channelGainSecondary);
  }

  /**
   * The rest of one trial: the two rate loops into fresh per-trial arrays,
   * their copy into row mc of the rate arrays, and the outage loop. Row mc
   * then holds the metrics of channel pair c and every other row is as it was.
   */
  method TrialRates(f: Funcs, p: Parameters, pp: real, ps: real, c: GV.ChannelPair, mc: int,
                    ratePri: array2<real>, rateSec: array2<real>,
                    outSys: array2<real>, outPri: array2<real>, outSec: array2<real>, avgRate: array2<real>)
    requires 0.0 <= c.primary && 0.0 <= c.secondary && 0.0 <= pp && 0.0 <= ps
    requires forall j :: 0 <= j < |p.snrLinear| ==> 0.0 <= p.snrLinear[j]
    requires CL.Distinct(outSys, outPri, outSec, avgRate, ratePri, rateSec)
    requires 0 <= mc < outSys.Length0 && outSys.Length1 == |p.snrLinear|
    modifies ratePri, rateSec, outSys, outPri, outSec, avgRate
    ensures RowHolds(f, p, pp, ps, c, mc, ratePri, rateSec, outSys, outPri, outSec, avgRate)
    ensures forall i, j :: 0 <= i < outSys.Length0 && i != mc && 0 <= j < outSys.Length1 ==>
      && ratePri[i, j] == old(ratePri[i, j]) && rateSec[i, j] == old(rateSec[i, j])
      && outSys[i, j] == old(outSys[i, j]) && outPri[i, j] == old(outPri[i, j])
      && outSec[i, j] == old(outSec[i, j]) && avgRate[i, j] == old(avgRate[i, j])
  {
    var n := |p.snrLinear|;
    var sinrPrimary := new real[n](_ => 0.0);
    var sinrSecondary := new real[n](_ => 0.0);
    var instRatePrimary := new real[n](_ => 0.0);
    var instRateSecondary := new real[n](_ => 0.0);
    CalculateRatePrimary(f, c.primary, c.secondary, p.snrLinear, pp, ps, p.targetRatePrimary,
                         sinrPrimary, instRatePrimary);
    CalculateRateSecondary(f, c.secondary, p.snrLinear, ps, sinrSecondary, instRateSecondary);
    CopyRow(instRatePrimary, ratePri, mc);
    CopyRow(instRateSecondary, rateSec, mc);
    PA.RecordOutages(ratePri, rateSec, p.targetRatePrimary, p.targetRateSecondary, mc, outSys, outPri, outSec, avgRate);
  }

  /** Rows 0 .. n - 1 of the six arrays hold the metrics of the channel pairs of the first n trials. */
  ghost predicate RowsHold(f: Funcs, p: Parameters, pp: real, ps: real, pairs: seq<GV.ChannelPair>, n: int,
                           ratePri: array2<real>, rateSec: array2<real>,
                           outSys: array2<real>, outPri: array2<real>, outSec: array2<real>, avgRate: array2<real>)
    reads ratePri, rateSec, outSys, outPri, outSec, avgRate
  {
    && 0 <= n <= |pairs|
    && forall i :: 0 <= i < n ==> RowHolds(f, p, pp, ps, pairs[i], i, ratePri, rateSec, outSys, outPri, outSec, avgRate)
  }

  /**
   * The rest of one pass of the `for mc` loop once its channel pair c is
   * known: row mc of the six arrays, while the rows of the earlier trials
   * still hold theirs.
   */
  method RecordTrial(f: Funcs, p: Parameters, pp: real, ps: real, c: GV.ChannelPair, mc: int, ghost pairs: seq<GV.ChannelPair>,
                     ratePri: array2<real>, rateSec: array2<real>,
                     outSys: array2<real>, outPri: array2<real>, outSec: array2<real>, avgRate: array2<real>)
    requires 0.0 <= c.primary && 0.0 <= c.secondary && 0.0 <= pp && 0.0 <= ps
    requires forall j :: 0 <= j < |p.snrLinear| ==> 0.0 <= p.snrLinear[j]
    requires CL.Distinct(outSys, outPri, outSec, avgRate, ratePri, rateSec)
    requires 0 <= mc < outSys.Length0 && outSys.Length1 == |p.snrLinear|
    requires mc < |pairs| && pairs[mc] == c
    requires RowsHold(f, p, pp, ps, pairs, mc, ratePri, rateSec, outSys, outPri, outSec, avgRate)
    modifies ratePri, rateSec, outSys, outPri, outSec, avgRate
    ensures RowsHold(f, p, pp, ps, pairs, mc + 1, ratePri, rateSec, outSys, outPri, outSec, avgRate)
  {
    TrialRates(f, p, pp, ps, c, mc, ratePri, rateSec, outSys, outPri, outSec, avgRate);
    forall i | 0 <= i < mc
      ensures RowHolds(f, p, pp, ps, pairs[i], i, ratePri, rateSec, outSys, outPri, outSec, avgRate)
    {
      assert old(RowHolds(f, p, pp, ps, pairs[i], i, ratePri, rateSec, outSys, outPri, outSec, avgRate));
    }
  }

  /**
   * One pass of the `for mc` loop: the positions, the trial's channel pair,
   * then its row of the six arrays; the rows of the earlier trials still
   * hold theirs.
   */
  method RunTrial(f: Funcs, p: Parameters, pp: real, ps: real, t: TrialDraws, mc: int, ghost pairs: seq<GV.ChannelPair>,
                  ratePri: array2<real>, rateSec: array2<real>,
                  outSys: array2<real>, outPri: array2<real>, outSec: array2<real>, avgRate: array2<real>)
    requires TrialReady(f, p, pp, ps, t)
    requires CL.Distinct(outSys, outPri, outSec, avgRate, ratePri, rateSec)
    requires 0 <= mc < outSys.Length0 && outSys.Length1 == |p.snrLinear|
    requires mc < |pairs| && pairs[mc] == TrialPair(f, p, t)
    requires RowsHold(f, p, pp, ps, pairs, mc, ratePri, rateSec, outSys, outPri, outSec, avgRate)
    modifies ratePri, rateSec, outSys, outPri, outSec, avgRate
    ensures RowsHold(f, p, pp, ps, pairs, mc + 1, ratePri, rateSec, outSys, outPri, outSec, avgRate)
  {
    var sc := SceneOf(f, p, t);
    var c := TrialChannel(f, sc, t);
    RecordTrial(f, p, pp, ps, c, mc, pairs, ratePri, rateSec, outSys, outPri, outSec, avgRate);
  }

  /**
   * The body of the script: the parameters, the power coefficients, the six
   * N_mc x len(snr_dB) arrays, and the `for mc` loop over every trial. Row i
   * of each array then holds the metrics of trial i's channel pair.
   */
  method RunTrials(f: Funcs, trials: seq<TrialDraws>)
    returns (ratePri: array2<real>, rateSec: array2<real>,
             outSys: array2<real>, outPri: array2<real>, outSec: array2<real>, avgRate: array2<real>,
             ghost pairs: seq<GV.ChannelPair>)
    requires SqrtLaw(f) && PowLaw(f)
    requires |trials| == ScriptParameters(f).samplesMc
    requires forall i :: 0 <= i < |trials| ==> WellFormed(trials[i], 2)
    ensures CL.Distinct(outSys, outPri, outSec, avgRate, ratePri, rateSec)
    ensures outSys.Length0 == |trials| && outSys.Length1 == 21
    ensures |pairs| == |trials| && forall i :: 0 <= i < |trials| ==> pairs[i] == TrialPair(f, ScriptParameters(f), trials[i])
    ensures RowsHold(f, ScriptParameters(f), 0.8, 0.2, pairs, |trials|, ratePri, rateSec, outSys, outPri, outSec, avgRate)
  {
    var p := ScriptParameters(f);
    var coeff := GeneratePowerCoeff(p.numberUsers);
    var pp, ps := coeff.0, coeff.1;
    var n := p.samplesMc;
    pairs := seq(n, i requires 0 <= i < n => TrialPair(f, p, trials[i]));
    outSys, outPri, outSec, avgRate, ratePri, rateSec := CL.Allocate(n, |p.snrDb|);
    for mc := 0 to n
      invariant RowsHold(f, p, pp, ps, pairs, mc, ratePri, rateSec, outSys, outPri, outSec, avgRate)
    {
      RunTrial(f, p, pp, ps, trials[mc], mc, pairs, ratePri, rateSec, outSys, outPri, outSec, avgRate);
    }
  }

  /**
   * np.mean(..., axis=0) of arrays whose cells in column j are the outage
   * indicators and the average of the rates in the same cells: the outage
   * means are probabilities, the system's lies between each user's and their
   * sum, and the mean average rate is half the sum of the mean rates.
   */
  lemma RecordedColumn(ratePri: array2<real>, rateSec: array2<real>, tp: real, ts: real,
                       outSys: array2<real>, outPri: array2<real>, outSec: array2<real>, avgRate: array2<real>, j: int)
    requires CL.Distinct(outSys, outPri, outSec, avgRate, ratePri, rateSec)
    requires 0 < outSys.Length0 && 0 <= j < outSys.Length1
    requires forall i :: 0 <= i < outSys.Length0 ==>
      var o := PM.OutageProbability(ratePri[i, j], rateSec[i, j], tp, ts);
      && outSys[i, j] == o.system as real && outPri[i, j] == o.primary as real
      && outSec[i, j] == o.secondary as real
      && avgRate[i, j] == PM.AverageRate(ratePri[i, j], rateSec[i, j])
    ensures var sys, pri, sec := ColumnMeans(outSys)[j], ColumnMeans(outPri)[j], ColumnMeans(outSec)[j];
      && 0.0 <= sys <= 1.0 && 0.0 <= pri <= 1.0 && 0.0 <= sec <= 1.0
      && pri <= sys <= pri + sec && sec <= sys
    ensures ColumnMeans(avgRate)[j] == (ColumnMeans(ratePri)[j] + ColumnMeans(rateSec)[j]) / 2.0
  {
    var sys, pri, sec := Column(outSys, j), Column(outPri, j), Column(outSec, j);
    var rp, rs, avg := Column(ratePri, j), Column(rateSec, j), Column(avgRate, j);
    forall i | 0 <= i < outSys.Length0
      ensures (sys[i] == 0.0 || sys[i] == 1.0) && (pri[i] == 0.0 || pri[i] == 1.0) && (sec[i] == 0.0 || sec[i] == 1.0)
      ensures pri[i] <= sys[i] <= pri[i] + sec[i] && sec[i] <= sys[i] <= sec[i] + pri[i]
      ensures avg[i] == (rp[i] + rs[i]) / 2.0
    {
      var o := PM.OutageProbability(ratePri[i, j], rateSec[i, j], tp, ts);
      assert sys[i] == o.system as real && pri[i] == o.primary as real && sec[i] == o.secondary as real;
    }
    MeanOfIndicators(sys);
    MeanOfIndicators(pri);
    MeanOfIndicators(sec);
    MeanBetween(pri, sys, sec);
    MeanBetween(sec, sys, pri);
    MeanOfMidpoints(rp, rs, avg);
  }

  /**
   * The six reductions at the end of the script, at every SNR value: each
   * outage probability lies in [0, 1], the system's is at least each user's
   * and at most their sum, the mean average rate is half the sum of the
   * users' mean rates, and under the law of ln every mean rate is
   * non-negative.
   */
  lemma ScriptMeans(f: Funcs, pairs: seq<GV.ChannelPair>,
                    ratePri: array2<real>, rateSec: array2<real>,
                    outSys: array2<real>, outPri: array2<real>, outSec: array2<real>, avgRate: array2<real>)
    requires CL.Distinct(outSys, outPri, outSec, avgRate, ratePri, rateSec)
    requires 0 < outSys.Length0 == |pairs|
    requires RowsHold(f, ScriptParameters(f), 0.8, 0.2, pairs, |pairs|, ratePri, rateSec, outSys, outPri, outSec, avgRate)
    ensures forall j :: 0 <= j < outSys.Length1 ==>
      var sys, pri, sec := ColumnMeans(outSys)[j], ColumnMeans(outPri)[j], ColumnMeans(outSec)[j];
      && 0.0 <= sys <= 1.0 && 0.0 <= pri <= 1.0 && 0.0 <= sec <= 1.0
      && pri <= sys <= pri + sec && sec <= sys
      && ColumnMeans(avgRate)[j] == (ColumnMeans(ratePri)[j] + ColumnMeans(rateSec)[j]) / 2.0
    ensures LnLaw(f) ==> forall j :: 0 <= j < outSys.Length1 ==>
      0.0 <= ColumnMeans(ratePri)[j] && 0.0 <= ColumnMeans(rateSec)[j] && 0.0 <= ColumnMeans(avgRate)[j]
  {
    var p := ScriptParameters(f);
    assert RowHolds(f, p, 0.8, 0.2, pairs[0], 0, ratePri, rateSec, outSys, outPri, outSec, avgRate);
    forall j | 0 <= j < outSys.Length1
      ensures var sys, pri, sec := ColumnMeans(outSys)[j], ColumnMeans(outPri)[j], ColumnMeans(outSec)[j];
        && 0.0 <= sys <= 1.0 && 0.0 <= pri <= 1.0 && 0.0 <= sec <= 1.0
        && pri <= sys <= pri + sec && sec <= sys
        && ColumnMeans(avgRate)[j] == (ColumnMeans(ratePri)[j] + ColumnMeans(rateSec)[j]) / 2.0
      ensures LnLaw(f) ==> 0.0 <= ColumnMeans(ratePri)[j] && 0.0 <= ColumnMeans(rateSec)[j] && 0.0 <= ColumnMeans(avgRate)[j]
    {
      forall i | 0 <= i < outSys.Length0
        ensures var o := PM.OutageProbability(ratePri[i, j], rateSec[i, j], p.targetRatePrimary, p.targetRateSecondary);
          && outSys[i, j] == o.system as real && outPri[i, j] == o.primary as real
          && outSec[i, j] == o.secondary as real
          && avgRate[i, j] == PM.AverageRate(ratePri[i, j], rateSec[i, j])
        ensures LnLaw(f) ==> 0.0 <= ratePri[i, j] && 0.0 <= rateSec[i, j] && 0.0 <= avgRate[i, j]
      {
        assert RowHolds(f, p, 0.8, 0.2, pairs[i], i, ratePri, rateSec, outSys, outPri, outSec, avgRate);
        var c, snr := pairs[i], p.snrLinear[j];
        PrimaryRateCases(f, c.primary, c.secondary, snr, 0.8, 0.2, p.targetRatePrimary);
        SecondaryRateFacts(f, c.secondary, snr, 0.2, 0.8);
      }
      RecordedColumn(ratePri, rateSec, p.targetRatePrimary, p.targetRateSecondary, outSys, outPri, outSec, avgRate, j);
      if LnLaw(f) {
        MeanNonNegative(Column(ratePri, j));
        MeanNonNegative(Column(rateSec, j));
        MeanNonNegative(Column(avgRate, j));
      }
    }
  }
}
