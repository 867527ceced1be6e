/**
 * The earlier "pa" release of the simulator (pauavnoma/uavnoma.py): fixed
 * parameters and power coefficients, a UAV at a fixed height, per-user gains
 * attenuated by one plus the path loss and sorted in descending order, the
 * array-filling rate functions and the outage loop of main_values.
 *
 * Here the PRIMARY user is the one with the LARGEST gain, the reverse of the
 * later release modelled in GenerateValues.
 */
module PaUavnoma {
  import opened Elementary
  import opened Statistics
  import opened Sorting
  import opened Wrappers
  import opened Grids
  import GV = GenerateValues
  import PM = PerformanceMetrics
  import CL = CommandLine

  /** The configuration init_parameters fixes, with its SNR grid in dB and in linear scale. */
  datatype Parameters = Parameters(
    samplesMc: int, numberUsers: int, powerLos: real, ricianFactor: real,
    pathLoss: real, numberUav: int, snrDb: seq<real>, snrLinear: seq<real>,
    radiusUav: real, radiusUser: real,
    targetRatePrimary: real, targetRateSecondary: real,
    coeffHard: real, coeffSic: real)

  /** The assertions init_parameters makes before it returns. */
  predicate Asserted(p: Parameters)
  {
    && 10000 <= p.samplesMc <= 1000000
    && p.numberUsers == 2
    && (p.powerLos == 1.0 || p.powerLos == 2.0)
    && 0.0 <= p.ricianFactor <= 10.0
    && p.numberUav == 1
  }

  /**
   * init_parameters: its own values pass its assertions, and its grid runs
   * over 10, 12, ..., 40 dB, with a positive linear SNR under the law of powers.
   */
  function InitParameters(f: Funcs): (p: Parameters)
    ensures Asserted(p)
    ensures |p.snrDb| == |p.snrLinear| == 16 && p.snrDb[0] == 10.0 && p.snrDb[15] == 40.0
    ensures forall j :: 0 <= j < 16 ==> 10.0 <= p.snrDb[j] <= 40.0
    ensures PowLaw(f) ==> forall j :: 0 <= j < 16 ==> 0.0 < p.snrLinear[j]
  {
    var db := Range(10, 41);
    var linear := seq(|db|, j requires 0 <= j < |db| => CL.SnrLinear(f, db[j]));
    Parameters(10000, 2, 1.0, 6.0, 2.0, 1, db, linear, 1.0, 2.0, 0.5, 0.5, 0.05, 0.05)
  }

  /**
   * generate_power_coeff: the fixed allocation 0.6 / 0.4, which meets the
   * condition the function warns about: the powers sum to a value in (0, 1]
   * and the primary user gets at least the secondary's share.
   */
  function GeneratePowerCoeff(nUsers: int): (c: (real, real))
    ensures c.1 <= c.0
    ensures 0.0 < c.0 + c.1 <= 1.0
    ensures 0.0 < c.1
  {
    (0.6, 0.4)
  }

  /** random_position_uav: a point of the trajectory circle at the fixed height of 20 m. */
  function RandomPositionUav(f: Funcs, numberUav: int, radiusUav: real, uAngle: real): GV.UavPosition
  {
    var p := GV.PolarPoint(f, radiusUav, uAngle);
    GV.UavPosition(p.x, p.y, 20.0)
  }

  /** The UAV flies at 20 m, on the circle of the trajectory radius. */
  lemma RandomPositionUavOnCircle(f: Funcs, numberUav: int, radiusUav: real, uAngle: real)
    requires TrigLaw(f)
    ensures var q := RandomPositionUav(f, numberUav, radiusUav, uAngle);
      q.z == 20.0 && q.x * q.x + q.y * q.y == radiusUav * radiusUav
  {
    GV.PolarPointOnCircle(f, radiusUav, uAngle);
  }

  /** sqrt(1 + d^pathLoss): this release attenuates by one plus the path loss. */
  function Attenuation(f: Funcs, d: real, pathLoss: real): real
  {
    f.sqrt(1.0 + f.pow(d, pathLoss))
  }

  lemma AttenuationSquare(f: Funcs, d: real, pathLoss: real)
    requires SqrtLaw(f) && PowLaw(f) && 0.0 < d
    ensures Attenuation(f, d, pathLoss) * Attenuation(f, d, pathLoss) == 1.0 + f.pow(d, pathLoss)
    ensures 1.0 < Attenuation(f, d, pathLoss) * Attenuation(f, d, pathLoss)
  {
    assert 0.0 < f.pow(d, pathLoss);
  }

  /** |h / (sqrt(1 + d^pathLoss) + 0j)|^2 at distance d: the small-scale power over one plus the path loss. */
  function GainAt(f: Funcs, s: real, sigma: real, draw: GV.Draw, d: real, pathLoss: real): real
    requires Attenuation(f, d, pathLoss) != 0.0
  {
    GV.SmallScalePower(f, s, sigma, draw) / (Attenuation(f, d, pathLoss) * Attenuation(f, d, pathLoss))
  }

  /** The gain of user k of the scene, which is never negative. */
  function UserGain(f: Funcs, sc: GV.Scene, draws: seq<GV.Draw>, k: int): (g: real)
    requires SqrtLaw(f) && PowLaw(f) && GV.Airborne(sc)
    requires 0 <= k < |sc.userX| && k < |sc.userY| && k < |draws|
    ensures 0.0 <= g
  {
    GV.DistancePositive(f, sc, k);
    AttenuationSquare(f, GV.Distance(f, sc, k), sc.pathLoss);
    GV.SmallScalePowerNonNegative(f, sc.s, sc.sigma, draws[k]);
    GainAt(f, sc.s, sc.sigma, draws[k], GV.Distance(f, sc, k), sc.pathLoss)
  }

  /** The gains of users 0 .. n-1. */
  function Gains(f: Funcs, sc: GV.Scene, draws: seq<GV.Draw>, n: nat): (gs: seq<real>)
    requires SqrtLaw(f) && PowLaw(f) && GV.Airborne(sc)
    requires n <= |sc.userX| && n <= |sc.userY| && n <= |draws|
    ensures |gs| == n
    ensures forall k :: 0 <= k < n ==> gs[k] == UserGain(f, sc, draws, k) && 0.0 <= gs[k]
  {
    seq(n, k requires 0 <= k < n => UserGain(f, sc, draws, k))
  }

  /** Sorting keeps the elements: a value is in the sorted sequence exactly when it is in the original. */
  lemma SortKeepsElements(g: seq<real>, descending: bool)
    ensures forall x :: x in Sort(g, descending) <==> x in g
  {
    var r := Sort(g, descending);
    forall x
      ensures x in r <==> x in g
    {
      assert x in r <==> x in multiset(r);
      assert x in g <==> x in multiset(g);
    }
  }

  /**
   * In the descending order of sorted(..., reverse=True) the first gain is the
   * largest and the last the smallest, and for two users the first dominates.
   */
  lemma DescendingEnds(g: seq<real>)
    requires |g| > 0
    ensures Sort(g, true)[0] == Max(g)
    ensures Sort(g, true)[|g| - 1] == Min(g)
    ensures |g| == 2 ==> Sort(g, true)[1] <= Sort(g, true)[0]
  {
    var r := Sort(g, true);
    SortKeepsElements(g, true);
    OrderedEnds(r, true);
    var i :| 0 <= i < |r| && r[i] == Max(g);
    var j :| 0 <= j < |r| && r[j] == Min(g);
    assert r[0] in g && r[|g| - 1] in g;
  }

  /**
   * The loop of generate_channel: writes distance[uu] and h_n[uu] for every
   * user uu below numberUser and nothing else. The caller has checked that
   * every user has a position.
   */
  method FillGains(f: Funcs, sc: GV.Scene, numberUser: int, draws: seq<GV.Draw>,
                   hn: array<real>, distance: array<real>)
    requires SqrtLaw(f) && PowLaw(f) && GV.Airborne(sc)
    requires 0 <= numberUser <= |sc.userX| && numberUser <= |sc.userY| && numberUser <= |draws|
    requires hn != distance && numberUser <= hn.Length && numberUser <= distance.Length
    modifies hn, distance
    ensures forall k :: 0 <= k < numberUser ==> distance[k] == GV.Distance(f, sc, k) && hn[k] == UserGain(f, sc, draws, k)
    ensures forall k :: numberUser <= k < hn.Length ==> hn[k] == old(hn[k])
    ensures forall k :: numberUser <= k < distance.Length ==> distance[k] == old(distance[k])
  {
    for uu := 0 to numberUser
      invariant forall k :: 0 <= k < uu ==> distance[k] == GV.Distance(f, sc, k) && hn[k] == UserGain(f, sc, draws, k)
      invariant forall k :: numberUser <= k < hn.Length ==> hn[k] == old(hn[k])
      invariant forall k :: numberUser <= k < distance.Length ==> distance[k] == old(distance[k])
    {
      distance[uu] := GV.Distance(f, sc, uu);
      GV.DistancePositive(f, sc, uu);
      AttenuationSquare(f, distance[uu], sc.pathLoss);
      hn[uu] := GainAt(f, sc.s, sc.sigma, draws[uu], distance[uu], sc.pathLoss);
    }
  }

  /**
   * generate_channel: fills h_n and distance for every user, then returns the
   * gains sorted in descending order, so the first entry is the largest gain
   * (the primary user's) and the last the smallest. Also returns the filled
   * arrays' contents.
   */
  method GenerateChannel(f: Funcs, sc: GV.Scene, numberUser: int, draws: seq<GV.Draw>)
    returns (r: Result<seq<real>, GV.ChannelError>, gains: seq<real>, distances: seq<real>)
    requires SqrtLaw(f) && PowLaw(f) && GV.Airborne(sc)
    requires numberUser <= |draws|
    ensures numberUser < 0 ==> r == Failure(GV.NegativeDimensions)
    ensures 0 <= numberUser && (numberUser > |sc.userX| || numberUser > |sc.userY|) ==>
      r == Failure(GV.UserIndexOutOfRange)
    ensures r.Success? <==> 0 <= numberUser <= |sc.userX| && numberUser <= |sc.userY|
    ensures r.Success? ==>
      |gains| == |distances| == numberUser &&
      gains == Gains(f, sc, draws, numberUser) &&
      (forall k :: 0 <= k < numberUser ==> distances[k] == GV.Distance(f, sc, k)) &&
      r.value == Sort(gains, true)
    ensures r.Success? && numberUser > 0 ==>
      r.value[0] == Max(gains) && r.value[numberUser - 1] == Min(gains)
  {
    gains, distances := [], [];
    if numberUser < 0 {
      return Failure(GV.NegativeDimensions), gains, distances;
    }
    if numberUser > |sc.userX| || numberUser > |sc.userY| {
      // user_X[uu] raises for the first user without a position.
      return Failure(GV.UserIndexOutOfRange), gains, distances;
    }
    var hn := new real[numberUser](_ => 0.0);
    var distance := new real[numberUser](_ => 0.0);
    FillGains(f, sc, numberUser, draws, hn, distance);
    gains, distances := hn[..], distance[..];
    assert gains == Gains(f, sc, draws, numberUser);
    r := Success(Sort(gains, true));
    if numberUser > 0 {
      DescendingEnds(gains);
    }
  }

  /**
   * SINR of the primary user in this release. Unlike the later release, the
   * interference from the secondary user's signal is weighted by the
   * SECONDARY user's gain hs.
   */
  function SinrPrimary(hp: real, hs: real, snr: real, pp: real, ps: real, hw: real): real
    requires PM.PrimaryDenominator(hs, snr, ps, hw) != 0.0
  {
    (snr * hp * pp) / PM.PrimaryDenominator(hs, snr, ps, hw)
  }

  function RatePrimary(f: Funcs, hp: real, hs: real, snr: real, pp: real, ps: real, hw: real): real
    requires PM.PrimaryDenominator(hs, snr, ps, hw) != 0.0
  {
    f.ln(1.0 + SinrPrimary(hp, hs, snr, pp, ps, hw))
  }

  /**
   * The denominator is at least 1, so the SINR is non-negative and so, under
   * the law of ln, is the rate; with equal gains it is the later release's SINR.
   */
  lemma RatePrimaryBounds(f: Funcs, hp: real, hs: real, snr: real, pp: real, ps: real, hw: real)
    requires 0.0 <= hp && 0.0 <= hs && 0.0 <= snr && 0.0 <= pp && 0.0 <= ps
    ensures 1.0 <= PM.PrimaryDenominator(hs, snr, ps, hw)
    ensures 0.0 <= SinrPrimary(hp, hs, snr, pp, ps, hw)
    ensures LnLaw(f) ==> 0.0 <= RatePrimary(f, hp, hs, snr, pp, ps, hw)
    ensures hp == hs ==> SinrPrimary(hp, hs, snr, pp, ps, hw) == PM.SinrPrimary(hp, snr, pp, ps, hw)
  {
    PM.SinrPrimaryBounds(hs, snr, pp, ps, hw);
    MulNonNegative(snr, hp);
    MulNonNegative(snr * hp, pp);
    DivideBounds(snr * hp * pp, PM.PrimaryDenominator(hs, snr, ps, hw));
  }

  /**
   * calculate_instantaneous_rate_primary: one NOMA rate per SNR value, with the
   * secondary gain in the interference term; the OMA fallback of this release
   * is commented out.
   */
  method CalculateRatePrimary(f: Funcs, channelPri: real, channelSec: real, snrValues: seq<real>,
                              powerPrimary: real, powerSecondary: real, targetRatePri: real,
                              coeffHard: real, coeffSic: real)
    returns (instRatePrimary: array<real>)
    requires 0.0 <= channelSec && 0.0 <= powerSecondary
    requires forall sn :: 0 <= sn < |snrValues| ==> 0.0 <= snrValues[sn]
    ensures fresh(instRatePrimary) && instRatePrimary.Length == |snrValues|
    ensures forall sn :: 0 <= sn < |snrValues| ==>
      1.0 <= PM.PrimaryDenominator(channelSec, snrValues[sn], powerSecondary, coeffHard) &&
      instRatePrimary[sn] == RatePrimary(f, channelPri, channelSec, snrValues[sn], powerPrimary, powerSecondary, coeffHard)
    ensures LnLaw(f) && 0.0 <= channelPri && 0.0 <= powerPrimary ==>
      forall sn :: 0 <= sn < |snrValues| ==> 0.0 <= instRatePrimary[sn]
  {
    var sinrPrimary := new real[|snrValues|](_ => 0.0);
    instRatePrimary := new real[|snrValues|](_ => 0.0);
    for sn := 0 to |snrValues|
      invariant forall j :: 0 <= j < sn ==>
        1.0 <= PM.PrimaryDenominator(channelSec, snrValues[j], powerSecondary, coeffHard) &&
        instRatePrimary[j] == RatePrimary(f, channelPri, channelSec, snrValues[j], powerPrimary, powerSecondary, coeffHard)
      invariant LnLaw(f) && 0.0 <= channelPri && 0.0 <= powerPrimary ==>
        forall j :: 0 <= j < sn ==> 0.0 <= instRatePrimary[j]
    {
      var snr := snrValues[sn];
      PM.SinrPrimaryBounds(channelSec, snr, 0.0, powerSecondary, coeffHard);
      if 0.0 <= channelPri && 0.0 <= powerPrimary {
        RatePrimaryBounds(f, channelPri, channelSec, snr, powerPrimary, powerSecondary, coeffHard);
      }
      var sinr := (snr * channelPri * powerPrimary) /
        (snr * channelSec * (powerSecondary + coeffHard * coeffHard) + 1.0);
      assert sinr == SinrPrimary(channelPri, channelSec, snr, powerPrimary, powerSecondary, coeffHard);
      sinrPrimary[sn] := sinr;
      instRatePrimary[sn] := f.ln(1.0 + sinr);
    }
  }

  /** calculate_instantaneous_rate_secondary: one rate per SNR value, as in the later release. */
  method CalculateRateSecondary(f: Funcs, channelSec: real, snrValues: seq<real>,
                                powerSecondary: real, powerPrimary: real, coeffHard: real, coeffSic: real)
    returns (instRateSecondary: array<real>)
    requires 0.0 <= channelSec && 0.0 <= powerPrimary && 0.0 <= coeffSic
    requires forall sn :: 0 <= sn < |snrValues| ==> 0.0 <= snrValues[sn]
    ensures fresh(instRateSecondary) && instRateSecondary.Length == |snrValues|
    ensures forall sn :: 0 <= sn < |snrValues| ==>
      1.0 <= PM.SecondaryDenominator(channelSec, snrValues[sn], powerPrimary, coeffHard, coeffSic) &&
      instRateSecondary[sn] == PM.RateSecondary(f, channelSec, snrValues[sn], powerSecondary, powerPrimary, coeffHard, coeffSic)
    ensures LnLaw(f) && 0.0 <= powerSecondary ==>
      forall sn :: 0 <= sn < |snrValues| ==> 0.0 <= instRateSecondary[sn]
  {
    var sinrSecondary := new real[|snrValues|](_ => 0.0);
    instRateSecondary := new real[|snrValues|](_ => 0.0);
    for sn := 0 to |snrValues|
      invariant forall j :: 0 <= j < sn ==>
        1.0 <= PM.SecondaryDenominator(channelSec, snrValues[j], powerPrimary, coeffHard, coeffSic) &&
        instRateSecondary[j] == PM.RateSecondary(f, channelSec, snrValues[j], powerSecondary, powerPrimary, coeffHard, coeffSic)
      invariant LnLaw(f) && 0.0 <= powerSecondary ==>
        forall j :: 0 <= j < sn ==> 0.0 <= instRateSecondary[j]
    {
      var snr := snrValues[sn];
      PM.SinrSecondaryBounds(channelSec, snr, 0.0, powerPrimary, coeffHard, coeffSic);
      if 0.0 <= powerSecondary {
        PM.SinrSecondaryBounds(channelSec, snr, powerSecondary, powerPrimary, coeffHard, coeffSic);
      }
      var sinr := (snr * channelSec * powerSecondary) /
        (snr * channelSec * (powerPrimary * coeffSic + coeffHard * coeffHard) + 1.0);
      assert sinr == PM.SinrSecondary(channelSec, snr, powerSecondary, powerPrimary, coeffHard, coeffSic);
      sinrSecondary[sn] := sinr;
      instRateSecondary[sn] := f.ln(1.0 + sinr);
    }
  }

  /**
   * The outage loop of main_values: for row mc of the two rate arrays, writes
   * the three outage indicators and the average rate of every SNR value, and
   * leaves every other row as it was.
   */
  method RecordOutages(ratePri: array2<real>, rateSec: array2<real>, targetPri: real, targetSec: real, mc: int,
                       outSys: array2<real>, outPri: array2<real>, outSec: array2<real>, avgRate: array2<real>)
    requires CL.Distinct(outSys, outPri, outSec, avgRate, ratePri, rateSec)
    requires 0 <= mc < outSys.Length0
    modifies outSys, outPri, outSec, avgRate
    ensures forall i, j :: 0 <= i < outSys.Length0 && i != mc && 0 <= j < outSys.Length1 ==>
      && outSys[i, j] == old(outSys[i, j]) && outPri[i, j] == old(outPri[i, j])
      && outSec[i, j] == old(outSec[i, j]) && avgRate[i, j] == old(avgRate[i, j])
    ensures forall j :: 0 <= j < outSys.Length1 ==>
      var o := PM.OutageProbability(ratePri[mc, j], rateSec[mc, j], targetPri, targetSec);
      && outSys[mc, j] == o.system as real && outPri[mc, j] == o.primary as real
      && outSec[mc, j] == o.secondary as real
      && avgRate[mc, j] == PM.AverageRate(ratePri[mc, j], rateSec[mc, j])
  {
    for sn := 0 to outSys.Length1
      invariant forall i, j :: 0 <= i < outSys.Length0 && i != mc && 0 <= j < outSys.Length1 ==>
        && outSys[i, j] == old(outSys[i, j]) && outPri[i, j] == old(outPri[i, j])
        && outSec[i, j] == old(outSec[i, j]) && avgRate[i, j] == old(avgRate[i, j])
      invariant forall j :: 0 <= j < sn ==>
        var o := PM.OutageProbability(ratePri[mc, j], rateSec[mc, j], targetPri, targetSec);
        && outSys[mc, j] == o.system as real && outPri[mc, j] == o.primary as real
        && outSec[mc, j] == o.secondary as real
        && avgRate[mc, j] == PM.AverageRate(ratePri[mc, j], rateSec[mc, j])
    {
      var rp, rs := ratePri[mc, sn], rateSec[mc, sn];
      if rp < targetPri || rs < targetSec {
        outSys[mc, sn] := 1.0;
      } else {
        outSys[mc, sn] := 0.0;
      }
      if rp < targetPri {
        outPri[mc, sn] := 1.0;
      } else {
        outPri[mc, sn] := 0.0;
      }
      if rs < targetSec {
        outSec[mc, sn] := 1.0;
      } else {
        outSec[mc, sn] := 0.0;
      }
      avgRate[mc, sn] := (rp + rs) / 2.0;
    }
  }

  /**
   * The gains main_values passes to the rate functions: the primary gain is
   * np.max of one call of generate_channel, the secondary gain np.min of a
   * second call, which draws its own fading.
   */
  function MainGains(f: Funcs, sc: GV.Scene, n: nat, drawsFirst: seq<GV.Draw>, drawsSecond: seq<GV.Draw>): GV.ChannelPair
    requires SqrtLaw(f) && PowLaw(f) && GV.Airborne(sc)
    requires 0 < n <= |sc.userX| && n <= |sc.userY| && n <= |drawsFirst| && n <= |drawsSecond|
  {
    GV.ChannelPair(Max(Sort(Gains(f, sc, drawsFirst, n), true)), Min(Sort(Gains(f, sc, drawsSecond, n), true)))
  }

  /** Were both calls to see the same draws, the primary gain would dominate the secondary. */
  lemma SameDrawsOrdered(f: Funcs, sc: GV.Scene, n: nat, draws: seq<GV.Draw>)
    requires SqrtLaw(f) && PowLaw(f) && GV.Airborne(sc)
    requires 0 < n <= |sc.userX| && n <= |sc.userY| && n <= |draws|
    ensures MainGains(f, sc, n, draws, draws).secondary <= MainGains(f, sc, n, draws, draws).primary
  {
    var r := Sort(Gains(f, sc, draws, n), true);
    assert Min(r) <= r[0] <= Max(r);
  }

  /** A draw whose in-phase sample cancels the mean carries no small-scale power. */
  lemma CancellingDrawNoPower(f: Funcs, s: real, sigma: real)
    requires SqrtLaw(f) && 0.0 < sigma
    ensures GV.SmallScalePower(f, s, sigma, GV.Draw(-s / sigma, 0.0)) == 0.0
  {
    assert s + sigma * (-s / sigma) == 0.0;
    assert GV.SmallScalePower(f, s, sigma, GV.Draw(-s / sigma, 0.0)) == f.sqrt(0.0);
    assert f.sqrt(0.0) * f.sqrt(0.0) == 0.0;
    RootDominates(0.0, f.sqrt(0.0));
  }

  /** A draw whose in-phase sample lifts the amplitude to one carries unit small-scale power. */
  lemma UnitDrawUnitPower(f: Funcs, s: real, sigma: real)
    requires SqrtLaw(f) && 0.0 < sigma
    ensures GV.SmallScalePower(f, s, sigma, GV.Draw((1.0 - s) / sigma, 0.0)) == f.sqrt(1.0)
    ensures 0.0 < GV.SmallScalePower(f, s, sigma, GV.Draw((1.0 - s) / sigma, 0.0))
  {
    var d := GV.Draw((1.0 - s) / sigma, 0.0);
    assert sigma * ((1.0 - s) / sigma) == 1.0 - s;
    GV.SmallScalePowerOfAmplitudes(f, s, sigma, d, 1.0, 0.0);
    assert (1.0 * 1.0) * (1.0 * 1.0) + (0.0 * 0.0) * (0.0 * 0.0) == 1.0;
    SqrtPositive(f, 1.0);
  }

  /** The gain of a user is zero exactly when its small-scale power is zero, and positive otherwise. */
  lemma GainSign(f: Funcs, sc: GV.Scene, draws: seq<GV.Draw>, k: int)
    requires SqrtLaw(f) && PowLaw(f) && GV.Airborne(sc)
    requires 0 <= k < |sc.userX| && k < |sc.userY| && k < |draws|
    ensures UserGain(f, sc, draws, k) == 0.0 <==> GV.SmallScalePower(f, sc.s, sc.sigma, draws[k]) == 0.0
    ensures 0.0 < UserGain(f, sc, draws, k) <==> 0.0 < GV.SmallScalePower(f, sc.s, sc.sigma, draws[k])
  {
    GV.DistancePositive(f, sc, k);
    var d := GV.Distance(f, sc, k);
    AttenuationSquare(f, d, sc.pathLoss);
    GV.SmallScalePowerNonNegative(f, sc.s, sc.sigma, draws[k]);
    var p := GV.SmallScalePower(f, sc.s, sc.sigma, draws[k]);
    var q := Attenuation(f, d, sc.pathLoss) * Attenuation(f, d, sc.pathLoss);
    assert UserGain(f, sc, draws, k) == p / q;
    assert p == (p / q) * q;
  }

  /** When every draw of a call cancels the mean, the strongest gain of that call is zero. */
  lemma CancellingDrawsNoGain(f: Funcs, sc: GV.Scene)
    requires SqrtLaw(f) && PowLaw(f) && GV.Airborne(sc)
    requires 0.0 < sc.sigma
    requires 2 <= |sc.userX| && 2 <= |sc.userY|
    ensures Max(Sort(Gains(f, sc, [GV.Draw(-sc.s / sc.sigma, 0.0), GV.Draw(-sc.s / sc.sigma, 0.0)], 2), true)) == 0.0
  {
    var draws := [GV.Draw(-sc.s / sc.sigma, 0.0), GV.Draw(-sc.s / sc.sigma, 0.0)];
    CancellingDrawNoPower(f, sc.s, sc.sigma);
    GainSign(f, sc, draws, 0);
    GainSign(f, sc, draws, 1);
    var g := Gains(f, sc, draws, 2);
    assert g == [0.0, 0.0];
    SortKeepsElements(g, true);
    assert Max(Sort(g, true)) in g;
  }

  /** When every draw of a call lifts the amplitude to one, the weakest gain of that call is positive. */
  lemma UnitDrawsPositiveGain(f: Funcs, sc: GV.Scene)
    requires SqrtLaw(f) && PowLaw(f) && GV.Airborne(sc)
    requires 0.0 < sc.sigma
    requires 2 <= |sc.userX| && 2 <= |sc.userY|
    ensures 0.0 < Min(Sort(Gains(f, sc, [GV.Draw((1.0 - sc.s) / sc.sigma, 0.0), GV.Draw((1.0 - sc.s) / sc.sigma, 0.0)], 2), true))
  {
    var draws := [GV.Draw((1.0 - sc.s) / sc.sigma, 0.0), GV.Draw((1.0 - sc.s) / sc.sigma, 0.0)];
    UnitDrawUnitPower(f, sc.s, sc.sigma);
    GainSign(f, sc, draws, 0);
    GainSign(f, sc, draws, 1);
    var g := Gains(f, sc, draws, 2);
    assert 0.0 < g[0] && 0.0 < g[1];
    SortKeepsElements(g, true);
    assert Min(Sort(g, true)) in g;
  }

  /**
   * With separate draws the order is not guaranteed: when the first call's
   * in-phase samples cancel the mean s and the second call's lift the
   * amplitude to one, the primary gain is 0 and the secondary gain positive.
   */
  lemma SeparateDrawsUnordered(f: Funcs, sc: GV.Scene)
    requires SqrtLaw(f) && PowLaw(f) && GV.Airborne(sc)
    requires 0.0 < sc.sigma
    requires 2 <= |sc.userX| && 2 <= |sc.userY|
    ensures var first := [GV.Draw(-sc.s / sc.sigma, 0.0), GV.Draw(-sc.s / sc.sigma, 0.0)];
      var second := [GV.Draw((1.0 - sc.s) / sc.sigma, 0.0), GV.Draw((1.0 - sc.s) / sc.sigma, 0.0)];
      MainGains(f, sc, 2, first, second).primary < MainGains(f, sc, 2, first, second).secondary
  {
    CancellingDrawsNoGain(f, sc);
    UnitDrawsPositiveGain(f, sc);
  }
}
