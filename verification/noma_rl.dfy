/**
 * The script uav-noma-RL.py: a UAV at 100 m, per-user SINRs without
 * interference terms, a three-dimensional array of per-user outage flags, a
 * system flag raised when any user is in outage, and a "weak user" flag that
 * the script raises when either user misses its target.
 */
module NomaRl {
  import opened Elementary
  import opened Statistics
  import opened Sorting
  import opened Grids
  import GV = GenerateValues
  import CL = CommandLine
  import PA = PaUavnoma
  import AR = AdaptivePaRl

  /** The module-level constants of the script. */
  const SamplesMc: nat := 10000
  const NumberUsers: nat := 2
  const PathLoss: real := 2.0
  const PowerLos: real := 1.0
  const RicianFactor: real := 10.0
  const TargetRate: seq<real> := [0.5, 1.0]
  const Alpha: seq<real> := [0.2, 0.8]
  const RadiusUav: real := 1.0
  const RadiusUser: real := 2.0
  const ZHeight: real := 100.0

  /** snr_dB = range(0, 41, 2) and its linear values; under the law of powers every linear value is positive. */
  function SnrLinear(f: Funcs): (g: seq<real>)
    ensures |g| == 21
    ensures forall j :: 0 <= j < 21 ==> g[j] == CL.SnrLinear(f, Range(0, 41)[j]) && 0.0 <= Range(0, 41)[j] <= 40.0
    ensures PowLaw(f) ==> forall j :: 0 <= j < 21 ==> 0.0 < g[j]
  {
    var db := Range(0, 41);
    seq(|db|, j requires 0 <= j < |db| => CL.SnrLinear(f, db[j]))
  }

  /** The random draws of one pass of the `for mc` loop. */
  datatype TrialDraws = TrialDraws(
    uavAngle: real,          // rand() behind the UAV's angle
    userAngles: seq<real>,   // rand() behind each user's angle
    userRadii: seq<real>,    // rand() behind each user's radius
    fading: seq<GV.Draw>)    // the two gauss() samples behind each user's coefficient, as standard normals

  predicate WellFormed(t: TrialDraws)
  {
    |t.userAngles| == NumberUsers && |t.userRadii| == NumberUsers && |t.fading| == NumberUsers
  }

  /** The script's geometry: the UAV at z_height on its trajectory circle, the module-level s and sigma. */
  const Geometry: GV.Layout := GV.Layout(RadiusUav, RadiusUser, ZHeight, RicianFactor, PowerLos, PathLoss)

  /** sqrt(d^path_loss_exp), the amplitude attenuation at distance d. */
  function Attenuation(f: Funcs, d: real, pathLoss: real): real
  {
    f.sqrt(f.pow(d, pathLoss))
  }

  lemma AttenuationPositive(f: Funcs, d: real, pathLoss: real)
    requires SqrtLaw(f) && PowLaw(f) && 0.0 < d
    ensures 0.0 < Attenuation(f, d, pathLoss)
  {
    SqrtPositive(f, f.pow(d, pathLoss));
  }

  /**
   * The value h_ru[uu] holds: the coefficient gauss(s, sigma) + 1j*gauss(0, sigma)
   * over the attenuation, stored in a real array, which keeps its real part.
   */
  function Coefficient(f: Funcs, sc: GV.Scene, draws: seq<GV.Draw>, k: int): real
    requires SqrtLaw(f) && PowLaw(f) && GV.Airborne(sc)
    requires 0 <= k < |sc.userX| && k < |sc.userY| && k < |draws|
  {
    GV.DistancePositive(f, sc, k);
    AttenuationPositive(f, GV.Distance(f, sc, k), sc.pathLoss);
    (sc.s + sc.sigma * draws[k].inPhase) / Attenuation(f, GV.Distance(f, sc, k), sc.pathLoss)
  }

  function Abs(x: real): (r: real)
    ensures 0.0 <= r && (r == x || r == -x)
  {
    if x < 0.0 then -x else x
  }

  /** np.abs(h_ru)**0.5: the square root of each coefficient's magnitude, never negative. */
  function Magnitudes(f: Funcs, hru: seq<real>): (m: seq<real>)
    requires SqrtLaw(f)
    ensures |m| == |hru|
    ensures forall k :: 0 <= k < |hru| ==> 0.0 <= m[k] && m[k] * m[k] == Abs(hru[k])
  {
    var m := seq(|hru|, k requires 0 <= k < |hru| => f.sqrt(Abs(hru[k])));
    assert forall k :: 0 <= k < |hru| ==> m[k] == f.sqrt(Abs(hru[k])) && 0.0 <= Abs(hru[k]);
    m
  }

  /** The coefficients of users 0 .. n-1. */
  function Coefficients(f: Funcs, sc: GV.Scene, draws: seq<GV.Draw>, n: nat): (hs: seq<real>)
    requires SqrtLaw(f) && PowLaw(f) && GV.Airborne(sc)
    requires n <= |sc.userX| && n <= |sc.userY| && n <= |draws|
    ensures |hs| == n && forall k :: 0 <= k < n ==> hs[k] == Coefficient(f, sc, draws, k)
  {
    seq(n, k requires 0 <= k < n => Coefficient(f, sc, draws, k))
  }

  /**
   * H_ru = np.sort(np.abs(h_ru)**0.5): ascending, so the first user's gain
   * never exceeds the second's, and every gain is non-negative.
   */
  function TrialGains(f: Funcs, t: TrialDraws): (h: seq<real>)
    requires SqrtLaw(f) && PowLaw(f) && WellFormed(t)
    ensures |h| == NumberUsers && h[0] <= h[1]
    ensures forall k :: 0 <= k < |h| ==> 0.0 <= h[k]
  {
    var sc := GV.CircleScene(f, Geometry, t.uavAngle, t.userAngles, t.userRadii);
    var m := Magnitudes(f, Coefficients(f, sc, t.fading, NumberUsers));
    AR.AscendingEnds(m);
    SortedNonNegative(m);
    Sort(m, false)
  }

  /** Sorting keeps the length and the non-negativity of a sequence. */
  lemma SortedNonNegative(m: seq<real>)
    requires forall k :: 0 <= k < |m| ==> 0.0 <= m[k]
    ensures |Sort(m, false)| == |m|
    ensures forall k :: 0 <= k < |m| ==> 0.0 <= Sort(m, false)[k]
  {
    PA.SortKeepsElements(m, false);
    var h := Sort(m, false);
    assert |h| == |multiset(h)| == |multiset(m)| == |m|;
    forall k | 0 <= k < |h|
      ensures 0.0 <= h[k]
    {
      assert h[k] in m;
    }
  }

  /**
   * The `for uu` loop of one trial: writes distance[uu] and h_ru[uu] for
   * every user and nothing else.
   */
  method FillCoefficients(f: Funcs, sc: GV.Scene, draws: seq<GV.Draw>, hru: array<real>, distance: array<real>)
    requires SqrtLaw(f) && PowLaw(f) && GV.Airborne(sc)
    requires NumberUsers <= |sc.userX| && NumberUsers <= |sc.userY| && NumberUsers <= |draws|
    requires hru != distance && hru.Length == NumberUsers && distance.Length == NumberUsers
    modifies hru, distance
    ensures hru[..] == Coefficients(f, sc, draws, NumberUsers)
    ensures forall k :: 0 <= k < NumberUsers ==> distance[k] == GV.Distance(f, sc, k)
  {
    for uu := 0 to NumberUsers
      invariant forall k :: 0 <= k < uu ==> distance[k] == GV.Distance(f, sc, k) && hru[k] == Coefficient(f, sc, draws, k)
    {
      distance[uu] := GV.Distance(f, sc, uu);
      GV.DistancePositive(f, sc, uu);
      AttenuationPositive(f, distance[uu], sc.pathLoss);
      hru[uu] := (sc.s + sc.sigma * draws[uu].inPhase) / Attenuation(f, distance[uu], sc.pathLoss);
    }
  }

  /** The start of one pass of the `for mc` loop: positions, the `for uu` loop and the sorted gains. */
  method TrialChannel(f: Funcs, t: TrialDraws) returns (h: seq<real>)
    requires SqrtLaw(f) && PowLaw(f) && WellFormed(t)
    ensures h == TrialGains(f, t)
  {
    var sc := GV.CircleScene(f, Geometry, t.uavAngle, t.userAngles, t.userRadii);
    var hru := new real[NumberUsers](_ => 0.0);
    var distance := new real[NumberUsers](_ => 0.0);
    FillCoefficients(f, sc, t.fading, hru, distance);
    h := Sort(Magnitudes(f, hru[..]), false);
  }

  /** sinr[sn, ii] = snr * H_ru[ii] * alpha_u[ii]: no interference term. */
  function UserSinr(snr: real, h: real, alpha: real): (s: real)
    requires 0.0 <= snr && 0.0 <= h && 0.0 <= alpha
    ensures 0.0 <= s
    ensures snr == 0.0 || h == 0.0 || alpha == 0.0 ==> s == 0.0
  {
    MulNonNegative(snr, h);
    MulNonNegative(snr * h, alpha);
    snr * h * alpha
  }

  /** inst_rate[sn, ii] = ln(1 + sinr[sn, ii]). */
  function UserRate(f: Funcs, snr: real, h: seq<real>, ii: int): real
    requires 0.0 <= snr && |h| == NumberUsers && 0 <= ii < NumberUsers && 0.0 <= h[ii]
  {
    f.ln(1.0 + UserSinr(snr, h[ii], Alpha[ii]))
  }

  /** Under the law of ln every user's rate is non-negative. */
  lemma UserRateNonNegative(f: Funcs, snr: real, h: seq<real>, ii: int)
    requires LnLaw(f) && 0.0 <= snr && |h| == NumberUsers && 0 <= ii < NumberUsers && 0.0 <= h[ii]
    ensures 0.0 <= UserRate(f, snr, h, ii)
  {
    assert 1.0 <= 1.0 + UserSinr(snr, h[ii], Alpha[ii]);
  }

  /** out_probability[mc, sn, :]: user ii's flag is 1 exactly when its rate misses target_rate[ii], and 0 otherwise. */
  function Flags(f: Funcs, snr: real, h: seq<real>): (fl: seq<real>)
    requires 0.0 <= snr && |h| == NumberUsers && forall k :: 0 <= k < |h| ==> 0.0 <= h[k]
    ensures |fl| == NumberUsers
    ensures forall ii :: 0 <= ii < NumberUsers ==>
      (fl[ii] == 1.0 <==> UserRate(f, snr, h, ii) < TargetRate[ii]) && (fl[ii] == 0.0 || fl[ii] == 1.0)
  {
    seq(NumberUsers, ii requires 0 <= ii < NumberUsers => if UserRate(f, snr, h, ii) < TargetRate[ii] then 1.0 else 0.0)
  }

  /** out_probability_system[mc, sn]: 1 when the flags sum to at least 1, else 0. */
  function SystemFlag(flags: seq<real>): real
  {
    if Sum(flags) >= 1.0 then 1.0 else 0.0
  }

  /** A sum of 0/1 flags reaches 1 exactly when one of the flags is 1. */
  lemma {:induction false} AnyFlagSum(flags: seq<real>)
    requires forall i :: 0 <= i < |flags| ==> flags[i] == 0.0 || flags[i] == 1.0
    ensures Sum(flags) >= 1.0 <==> exists i :: 0 <= i < |flags| && flags[i] == 1.0
  {
    if |flags| > 0 {
      var init := flags[..|flags| - 1];
      assert forall i :: 0 <= i < |init| ==> init[i] == flags[i];
      AnyFlagSum(init);
      SumNonNegative(init);
      if exists i :: 0 <= i < |init| && init[i] == 1.0 {
        var i :| 0 <= i < |init| && init[i] == 1.0;
        assert flags[i] == 1.0;
      }
    }
  }

  /**
   * The system is in outage (flag 1) exactly when some user's rate misses
   * its target, and otherwise its flag is 0: the "any user" rule.
   */
  lemma SystemFlagAnyUser(f: Funcs, snr: real, h: seq<real>)
    requires 0.0 <= snr && |h| == NumberUsers && forall k :: 0 <= k < |h| ==> 0.0 <= h[k]
    ensures SystemFlag(Flags(f, snr, h)) == 1.0 <==> exists ii :: 0 <= ii < NumberUsers && UserRate(f, snr, h, ii) < TargetRate[ii]
    ensures SystemFlag(Flags(f, snr, h)) == 0.0 || SystemFlag(Flags(f, snr, h)) == 1.0
  {
    var fl := Flags(f, snr, h);
    AnyFlagSum(fl);
    if exists ii :: 0 <= ii < NumberUsers && UserRate(f, snr, h, ii) < TargetRate[ii] {
      var ii :| 0 <= ii < NumberUsers && UserRate(f, snr, h, ii) < TargetRate[ii];
      assert fl[ii] == 1.0;
    }
  }

  /**
   * out_probability_weak_user[mc, sn] after the `if (N_users==2)` block: set
   * to 1 when either user misses its target, otherwise left at its value.
   */
  function WeakFlag(f: Funcs, snr: real, h: seq<real>, start: real): real
    requires 0.0 <= snr && |h| == NumberUsers && forall k :: 0 <= k < |h| ==> 0.0 <= h[k]
  {
    if NumberUsers == 2 && (UserRate(f, snr, h, 0) < TargetRate[0] || UserRate(f, snr, h, 1) < TargetRate[1])
    then 1.0 else start
  }

  /**
   * Starting from np.zeros, the weak-user flag of two users is the system
   * flag: despite its name it records an outage of either user.
   */
  lemma WeakFlagIsSystemFlag(f: Funcs, snr: real, h: seq<real>)
    requires 0.0 <= snr && |h| == NumberUsers && forall k :: 0 <= k < |h| ==> 0.0 <= h[k]
    ensures WeakFlag(f, snr, h, 0.0) == SystemFlag(Flags(f, snr, h))
  {
    SystemFlagAnyUser(f, snr, h);
  }

  /** Cell (mc, j) of the three output arrays holds the flags of gains h at SNR value j. */
  ghost predicate CellHolds(f: Funcs, snrLinear: seq<real>, h: seq<real>, mc: int, j: int,
                            outProb: array3<real>, outSys: array2<real>, outWeak: array2<real>)
    reads outProb, outSys, outWeak
  {
    && 0 <= mc < outProb.Length0 && mc < outSys.Length0 && mc < outWeak.Length0
    && 0 <= j < |snrLinear| && j < outProb.Length1 && j < outSys.Length1 && j < outWeak.Length1
    && outProb.Length2 == NumberUsers
    && |h| == NumberUsers && (forall k :: 0 <= k < |h| ==> 0.0 <= h[k]) && 0.0 <= snrLinear[j]
    && (forall ii :: 0 <= ii < NumberUsers ==> outProb[mc, j, ii] == Flags(f, snrLinear[j], h)[ii])
    && outSys[mc, j] == SystemFlag(Flags(f, snrLinear[j], h))
    && outWeak[mc, j] == WeakFlag(f, snrLinear[j], h, 0.0)
  }

  /** The shapes of the output arrays: N_mc x len(snr_dB) (x N_users) each, the two 2-D ones distinct. */
  predicate Shaped(snrLinear: seq<real>, outProb: array3<real>, outSys: array2<real>, outWeak: array2<real>)
  {
    && outSys != outWeak
    && outProb.Length0 == outSys.Length0 == outWeak.Length0
    && outProb.Length1 == outSys.Length1 == outWeak.Length1 == |snrLinear|
    && outProb.Length2 == NumberUsers
  }

  /**
   * The `for ii` loop at SNR index sn: every user's SINR, rate and outage
   * flag. The only cells of out_probability it writes are those of (mc, sn).
   */
  method UserFlags(f: Funcs, snrLinear: seq<real>, h: seq<real>, mc: int, sn: int,
                   sinr: array2<real>, instRate: array2<real>, outProb: array3<real>)
    requires |h| == NumberUsers && forall k :: 0 <= k < |h| ==> 0.0 <= h[k]
    requires 0 <= mc < outProb.Length0 && 0 <= sn < outProb.Length1 && outProb.Length2 == NumberUsers
    requires sn < |snrLinear| && 0.0 <= snrLinear[sn]
    requires sinr != instRate && sn < sinr.Length0 && sn < instRate.Length0
    requires sinr.Length1 == instRate.Length1 == NumberUsers
    modifies sinr, instRate, outProb
    ensures forall k :: 0 <= k < NumberUsers ==> sinr[sn, k] == UserSinr(snrLinear[sn], h[k], Alpha[k])
    ensures forall k :: 0 <= k < NumberUsers ==> instRate[sn, k] == UserRate(f, snrLinear[sn], h, k)
    ensures forall k :: 0 <= k < NumberUsers ==> outProb[mc, sn, k] == Flags(f, snrLinear[sn], h)[k]
    ensures forall i, j, k :: 0 <= i < outProb.Length0 && 0 <= j < outProb.Length1 && 0 <= k < outProb.Length2 && (i != mc || j != sn) ==>
      outProb[i, j, k] == old(outProb[i, j, k])
  {
    var snr := snrLinear[sn];
    for ii := 0 to NumberUsers
      invariant forall k :: 0 <= k < ii ==> sinr[sn, k] == UserSinr(snr, h[k], Alpha[k])
      invariant forall k :: 0 <= k < ii ==> instRate[sn, k] == UserRate(f, snr, h, k)
      invariant forall k :: 0 <= k < ii ==> outProb[mc, sn, k] == Flags(f, snr, h)[k]
      invariant forall i, j, k :: 0 <= i < outProb.Length0 && 0 <= j < outProb.Length1 && 0 <= k < outProb.Length2 && (i != mc || j != sn) ==>
        outProb[i, j, k] == old(outProb[i, j, k])
    {
      sinr[sn, ii] := UserSinr(snr, h[ii], Alpha[ii]);
      instRate[sn, ii] := f.ln(1.0 + sinr[sn, ii]);
      if instRate[sn, ii] < TargetRate[ii] {
        outProb[mc, sn, ii] := 1.0;
      } else {
        outProb[mc, sn, ii] := 0.0;
      }
    }
  }

  /**
   * One pass of the `for sn` loop body: the `for ii` loop over the users,
   * the weak-user block and the system flag of cell (mc, sn). No other cell
   * changes.
   */
  method WriteSnr(f: Funcs, snrLinear: seq<real>, h: seq<real>, mc: int, sn: int,
                  sinr: array2<real>, instRate: array2<real>,
                  outProb: array3<real>, outSys: array2<real>, outWeak: array2<real>)
    requires |h| == NumberUsers && forall k :: 0 <= k < |h| ==> 0.0 <= h[k]
    requires Shaped(snrLinear, outProb, outSys, outWeak)
    requires 0 <= mc < outSys.Length0 && 0 <= sn < |snrLinear| && 0.0 <= snrLinear[sn]
    requires sinr != instRate && sinr != outSys && sinr != outWeak && instRate != outSys && instRate != outWeak
    requires sinr.Length0 == instRate.Length0 == |snrLinear|
    requires sinr.Length1 == instRate.Length1 == NumberUsers
    requires outWeak[mc, sn] == 0.0
    modifies sinr, instRate, outProb, outSys, outWeak
    ensures CellHolds(f, snrLinear, h, mc, sn, outProb, outSys, outWeak)
    ensures forall i, j, k :: 0 <= i < outProb.Length0 && 0 <= j < outProb.Length1 && 0 <= k < outProb.Length2 && (i != mc || j != sn) ==>
      outProb[i, j, k] == old(outProb[i, j, k])
    ensures forall i, j :: 0 <= i < outSys.Length0 && 0 <= j < outSys.Length1 && (i != mc || j != sn) ==>
      outSys[i, j] == old(outSys[i, j]) && outWeak[i, j] == old(outWeak[i, j])
  {
    var snr := snrLinear[sn];
    UserFlags(f, snrLinear, h, mc, sn, sinr, instRate, outProb);
    if NumberUsers == 2 {
      if instRate[sn, 0] < TargetRate[0] {
        outWeak[mc, sn] := 1.0;
      }
      if instRate[sn, 1] < TargetRate[1] {
        outWeak[mc, sn] := 1.0;
      }
    }
    var flags := seq(NumberUsers, k requires 0 <= k < NumberUsers reads outProb => outProb[mc, sn, k]);
    assert flags == Flags(f, snr, h);
    if Sum(flags) >= 1.0 {
      outSys[mc, sn] := 1.0;
    } else {
      outSys[mc, sn] := 0.0;
    }
  }

  /** Row mc of the output arrays holds the flags of gains h at every SNR value. */
  ghost predicate RowHolds(f: Funcs, snrLinear: seq<real>, h: seq<real>, mc: int,
                           outProb: array3<real>, outSys: array2<real>, outWeak: array2<real>)
    reads outProb, outSys, outWeak
  {
    forall j :: 0 <= j < |snrLinear| ==> CellHolds(f, snrLinear, h, mc, j, outProb, outSys, outWeak)
  }

  /**
   * The `for sn` loop of one trial, with its per-trial sinr and inst_rate
   * arrays: row mc then holds the flags of gains h, and no other row changes.
   * The weak-user row must still be all zeros, as np.zeros left it.
   */
  method TrialRow(f: Funcs, snrLinear: seq<real>, h: seq<real>, mc: int,
                  outProb: array3<real>, outSys: array2<real>, outWeak: array2<real>)
    requires |h| == NumberUsers && forall k :: 0 <= k < |h| ==> 0.0 <= h[k]
    requires forall j :: 0 <= j < |snrLinear| ==> 0.0 <= snrLinear[j]
    requires Shaped(snrLinear, outProb, outSys, outWeak)
    requires 0 <= mc < outSys.Length0
    requires forall j :: 0 <= j < |snrLinear| ==> outWeak[mc, j] == 0.0
    modifies outProb, outSys, outWeak
    ensures RowHolds(f, snrLinear, h, mc, outProb, outSys, outWeak)
    ensures forall i, j, k :: 0 <= i < outProb.Length0 && i != mc && 0 <= j < outProb.Length1 && 0 <= k < outProb.Length2 ==>
      outProb[i, j, k] == old(outProb[i, j, k])
    ensures forall i, j :: 0 <= i < outSys.Length0 && i != mc && 0 <= j < outSys.Length1 ==>
      outSys[i, j] == old(outSys[i, j]) && outWeak[i, j] == old(outWeak[i, j])
  {
    var n := |snrLinear|;
    var sinr := new real[n, NumberUsers]((_, _) => 0.0);
    var instRate := new real[n, NumberUsers]((_, _) => 0.0);
    for sn := 0 to n
      invariant forall j :: 0 <= j < sn ==> CellHolds(f, snrLinear, h, mc, j, outProb, outSys, outWeak)
      invariant forall j :: sn <= j < n ==> outWeak[mc, j] == 0.0
      invariant forall i, j, k :: 0 <= i < outProb.Length0 && i != mc && 0 <= j < outProb.Length1 && 0 <= k < outProb.Length2 ==>
        outProb[i, j, k] == old(outProb[i, j, k])
      invariant forall i, j :: 0 <= i < outSys.Length0 && i != mc && 0 <= j < outSys.Length1 ==>
        outSys[i, j] == old(outSys[i, j]) && outWeak[i, j] == old(outWeak[i, j])
    {
      label Before:
      WriteSnr(f, snrLinear, h, mc, sn, sinr, instRate, outProb, outSys, outWeak);
      forall j | 0 <= j < sn
        ensures CellHolds(f, snrLinear, h, mc, j, outProb, outSys, outWeak)
      {
        assert old@Before(CellHolds(f, snrLinear, h, mc, j, outProb, outSys, outWeak));
      }
    }
  }

  /** Rows 0 .. n-1 hold the flags of the first n trials' gains. */
  ghost predicate RowsHold(f: Funcs, snrLinear: seq<real>, gains: seq<seq<real>>, n: int,
                           outProb: array3<real>, outSys: array2<real>, outWeak: array2<real>)
    reads outProb, outSys, outWeak
  {
    && 0 <= n <= |gains|
    && forall i :: 0 <= i < n ==> RowHolds(f, snrLinear, gains[i], i, outProb, outSys, outWeak)
  }

  /**
   * The rest of one pass of the `for mc` loop once its gains h are known:
   * row mc of the flag arrays, while the earlier rows keep theirs and the
   * later weak-user rows stay zero.
   */
  method RecordTrial(f: Funcs, snrLinear: seq<real>, h: seq<real>, mc: int, ghost gains: seq<seq<real>>,
                     outProb: array3<real>, outSys: array2<real>, outWeak: array2<real>)
    requires |h| == NumberUsers && forall k :: 0 <= k < |h| ==> 0.0 <= h[k]
    requires forall j :: 0 <= j < |snrLinear| ==> 0.0 <= snrLinear[j]
    requires Shaped(snrLinear, outProb, outSys, outWeak)
    requires 0 <= mc < outSys.Length0 && mc < |gains| && gains[mc] == h
    requires RowsHold(f, snrLinear, gains, mc, outProb, outSys, outWeak)
    requires forall i, j :: mc <= i < outWeak.Length0 && 0 <= j < outWeak.Length1 ==> outWeak[i, j] == 0.0
    modifies outProb, outSys, outWeak
    ensures RowsHold(f, snrLinear, gains, mc + 1, outProb, outSys, outWeak)
    ensures forall i, j :: mc + 1 <= i < outWeak.Length0 && 0 <= j < outWeak.Length1 ==> outWeak[i, j] == 0.0
  {
    TrialRow(f, snrLinear, h, mc, outProb, outSys, outWeak);
    forall i, j | 0 <= i < mc && 0 <= j < |snrLinear|
      ensures CellHolds(f, snrLinear, gains[i], i, j, outProb, outSys, outWeak)
    {
      assert old(RowHolds(f, snrLinear, gains[i], i, outProb, outSys, outWeak));
      assert old(CellHolds(f, snrLinear, gains[i], i, j, outProb, outSys, outWeak));
    }
  }

  /** One pass of the `for mc` loop: the trial's gains, then its row. */
  method RunTrial(f: Funcs, snrLinear: seq<real>, t: TrialDraws, mc: int, ghost gains: seq<seq<real>>,
                  outProb: array3<real>, outSys: array2<real>, outWeak: array2<real>)
    requires SqrtLaw(f) && PowLaw(f) && WellFormed(t)
    requires forall j :: 0 <= j < |snrLinear| ==> 0.0 <= snrLinear[j]
    requires Shaped(snrLinear, outProb, outSys, outWeak)
    requires 0 <= mc < outSys.Length0 && mc < |gains| && gains[mc] == TrialGains(f, t)
    requires RowsHold(f, snrLinear, gains, mc, outProb, outSys, outWeak)
    requires forall i, j :: mc <= i < outWeak.Length0 && 0 <= j < outWeak.Length1 ==> outWeak[i, j] == 0.0
    modifies outProb, outSys, outWeak
    ensures RowsHold(f, snrLinear, gains, mc + 1, outProb, outSys, outWeak)
    ensures forall i, j :: mc + 1 <= i < outWeak.Length0 && 0 <= j < outWeak.Length1 ==> outWeak[i, j] == 0.0
  {
    var h := TrialChannel(f, t);
    RecordTrial(f, snrLinear, h, mc, gains, outProb, outSys, outWeak);
  }

  /** The np.zeros arrays of the script: N_mc x len(snr_dB) x N_users and three N_mc x len(snr_dB), all zeros. */
  method Allocate(snrLinear: seq<real>, n: nat)
    returns (outProb: array3<real>, outSys: array2<real>, outWeak: array2<real>, outStrong: array2<real>)
    ensures fresh(outProb) && fresh(outSys) && fresh(outWeak) && fresh(outStrong)
    ensures Shaped(snrLinear, outProb, outSys, outWeak) && outSys.Length0 == n
    ensures outStrong != outSys && outStrong != outWeak
    ensures outStrong.Length0 == n && outStrong.Length1 == |snrLinear|
    ensures forall i, j :: 0 <= i < n && 0 <= j < |snrLinear| ==> outWeak[i, j] == 0.0 && outStrong[i, j] == 0.0
  {
    var m := |snrLinear|;
    outProb := new real[n, m, NumberUsers]((_, _, _) => 0.0);
    outSys := new real[n, m]((_, _) => 0.0);
    outStrong := new real[n, m]((_, _) => 0.0);
    outWeak := new real[n, m]((_, _) => 0.0);
  }

  /**
   * The body of the script: the np.zeros arrays the loop writes or leaves,
   * and the `for mc` loop over every trial. Row i of the flag arrays then
   * holds trial i's flags, and out_probability_strong_user, never written,
   * is still all zeros.
   */
  method RunTrials(f: Funcs, trials: seq<TrialDraws>)
    returns (outProb: array3<real>, outSys: array2<real>, outWeak: array2<real>, outStrong: array2<real>,
             ghost gains: seq<seq<real>>)
    requires SqrtLaw(f) && PowLaw(f)
    requires |trials| == SamplesMc
    requires forall i :: 0 <= i < |trials| ==> WellFormed(trials[i])
    ensures Shaped(SnrLinear(f), outProb, outSys, outWeak) && outSys.Length0 == |trials|
    ensures |gains| == |trials| && forall i :: 0 <= i < |trials| ==> gains[i] == TrialGains(f, trials[i])
    ensures RowsHold(f, SnrLinear(f), gains, |trials|, outProb, outSys, outWeak)
    ensures outStrong.Length0 == |trials| && outStrong.Length1 == 21
    ensures forall i, j :: 0 <= i < outStrong.Length0 && 0 <= j < outStrong.Length1 ==> outStrong[i, j] == 0.0
  {
    var n := SamplesMc;
    var snrLinear := SnrLinear(f);
    gains := seq(n, i requires 0 <= i < n => TrialGains(f, trials[i]));
    outProb, outSys, outWeak, outStrong := Allocate(snrLinear, n);
    for mc := 0 to n
      invariant RowsHold(f, snrLinear, gains, mc, outProb, outSys, outWeak)
      invariant forall i, j :: mc <= i < outWeak.Length0 && 0 <= j < outWeak.Length1 ==> outWeak[i, j] == 0.0
      invariant forall i, j :: 0 <= i < outStrong.Length0 && 0 <= j < outStrong.Length1 ==> outStrong[i, j] == 0.0
    {
      RunTrial(f, snrLinear, trials[mc], mc, gains, outProb, outSys, outWeak);
    }
  }

  /**
   * After the loop the weak-user array equals the system array cell by cell,
   * each cell of either is a 0/1 flag that is 1 exactly when some user
   * missed its target, and out_prob_mean, the column mean of the system
   * array, is a probability equal to the weak-user array's column mean.
   */
  lemma ScriptMeans(f: Funcs, gains: seq<seq<real>>, outProb: array3<real>, outSys: array2<real>, outWeak: array2<real>)
    requires Shaped(SnrLinear(f), outProb, outSys, outWeak)
    requires 0 < outSys.Length0 == |gains|
    requires RowsHold(f, SnrLinear(f), gains, |gains|, outProb, outSys, outWeak)
    ensures forall i, j :: 0 <= i < outSys.Length0 && 0 <= j < outSys.Length1 ==>
      && outWeak[i, j] == outSys[i, j]
      && (outSys[i, j] == 0.0 || outSys[i, j] == 1.0)
      && (outSys[i, j] == 1.0 <==> exists ii :: 0 <= ii < NumberUsers && outProb[i, j, ii] == 1.0)
    ensures forall j :: 0 <= j < outSys.Length1 ==>
      0.0 <= ColumnMeans(outSys)[j] <= 1.0 && ColumnMeans(outSys)[j] == ColumnMeans(outWeak)[j]
  {
    var snrLinear := SnrLinear(f);
    forall i, j | 0 <= i < outSys.Length0 && 0 <= j < outSys.Length1
      ensures outWeak[i, j] == outSys[i, j]
      ensures outSys[i, j] == 0.0 || outSys[i, j] == 1.0
      ensures outSys[i, j] == 1.0 <==> exists ii :: 0 <= ii < NumberUsers && outProb[i, j, ii] == 1.0
    {
      assert RowHolds(f, snrLinear, gains[i], i, outProb, outSys, outWeak);
      assert CellHolds(f, snrLinear, gains[i], i, j, outProb, outSys, outWeak);
      WeakFlagIsSystemFlag(f, snrLinear[j], gains[i]);
      SystemFlagAnyUser(f, snrLinear[j], gains[i]);
      var fl := Flags(f, snrLinear[j], gains[i]);
      if outSys[i, j] == 1.0 {
        var ii :| 0 <= ii < NumberUsers && UserRate(f, snrLinear[j], gains[i], ii) < TargetRate[ii];
        assert outProb[i, j, ii] == fl[ii];
      }
      if exists ii :: 0 <= ii < NumberUsers && outProb[i, j, ii] == 1.0 {
        var ii :| 0 <= ii < NumberUsers && outProb[i, j, ii] == 1.0;
        assert fl[ii] == 1.0;
      }
    }
    forall j | 0 <= j < outSys.Length1
      ensures 0.0 <= ColumnMeans(outSys)[j] <= 1.0 && ColumnMeans(outSys)[j] == ColumnMeans(outWeak)[j]
    {
      assert Column(outSys, j) == Column(outWeak, j);
      MeanOfIndicators(Column(outSys, j));
    }
  }
}
