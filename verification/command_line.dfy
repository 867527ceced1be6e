/**
 * The `uavnoma` command (uavnoma/command_line.py): its copy of the argument
 * validator, the SNR grid, the Monte Carlo accumulation over trials and SNR
 * values, the column means reported to the user, and the scan that trims
 * the outage plot.
 */
module CommandLine {
  import opened Wrappers
  import opened Elementary
  import opened Statistics
  import opened PerformanceMetrics
  import opened GenerateValues
  import opened ParametersValidation

  /** The guards of `validate`, in the order it checks them. */
  const Guards: seq<ValidationError> := [
    InvalidMonteCarloSamples, InvalidPowerLos, InvalidRicianFactor, InvalidPathLoss,
    InvalidRadiusUav, InvalidRadiusUser, InvalidUavHeight, InvalidNumberUser,
    InvalidNumberUav, InvalidTargetRatePrimary, InvalidTargetRateSecondary,
    InvalidHardwareImpairment, InvalidSicImpairment, InvalidSnrMin, InvalidSnrMax,
    InvalidPowerOrder, InvalidPowerSum]

  /** The corrected validator checks one more guard after the source's. */
  const GuardsIntended: seq<ValidationError> := Guards + [NegativeSecondaryPower]

  /** The guard lists are the guards in rank order, and rank identifies a guard. */
  lemma GuardsFollowRank()
    ensures |Guards| == 17 && |GuardsIntended| == 18
    ensures forall i :: 0 <= i < |GuardsIntended| ==> Rank(GuardsIntended[i]) == i
    ensures forall i :: 0 <= i < |Guards| ==> Guards[i] == GuardsIntended[i]
    ensures forall e :: Rank(e) < 18 && GuardsIntended[Rank(e)] == e
    ensures forall e :: AsWritten(e) <==> Rank(e) < 17
    ensures forall i :: 0 <= i < |Guards| ==> Rank(Guards[i]) == i
    ensures forall e :: Rank(e) < |Guards| ==> Guards[Rank(e)] == e
  {
    forall e ensures Rank(e) < 18 && GuardsIntended[Rank(e)] == e {
      match e
      case InvalidMonteCarloSamples =>
      case InvalidPowerLos =>
      case InvalidRicianFactor =>
      case InvalidPathLoss =>
      case InvalidRadiusUav =>
      case InvalidRadiusUser =>
      case InvalidUavHeight =>
      case InvalidNumberUser =>
      case InvalidNumberUav =>
      case InvalidTargetRatePrimary =>
      case InvalidTargetRateSecondary =>
      case InvalidHardwareImpairment =>
      case InvalidSicImpairment =>
      case InvalidSnrMin =>
      case InvalidSnrMax =>
      case InvalidPowerOrder =>
      case InvalidPowerSum =>
      case NegativeSecondaryPower =>
    }
  }

  /** The first guard of the list that the configuration fails, if any. */
  function FirstViolation(a: Args, guards: seq<ValidationError>): (r: Option<ValidationError>)
    ensures r.None? <==> forall i :: 0 <= i < |guards| ==> !Violates(a, guards[i])
    ensures r.Some? ==> exists i :: (0 <= i < |guards| && guards[i] == r.value && Violates(a, r.value) &&
      forall k :: 0 <= k < i ==> !Violates(a, guards[k]))
  {
    if |guards| == 0 then None
    else if Violates(a, guards[0]) then Some(guards[0])
    else
      var r := FirstViolation(a, guards[1..]);
      assert forall i :: 1 <= i < |guards| ==> guards[i] == guards[1..][i - 1];
      r
  }

  /** When the list is a prefix of the rank order, its first failing guard is the failing guard of lowest rank. */
  lemma FirstViolationIsLowestRank(a: Args, guards: seq<ValidationError>)
    requires forall i :: 0 <= i < |guards| ==> Rank(guards[i]) == i
    requires forall e :: Rank(e) < |guards| ==> guards[Rank(e)] == e
    ensures FirstViolation(a, guards).Some? ==>
      Violates(a, FirstViolation(a, guards).value) &&
      Rank(FirstViolation(a, guards).value) < |guards| &&
      forall e :: Rank(e) < Rank(FirstViolation(a, guards).value) ==> !Violates(a, e)
  {
    var r := FirstViolation(a, guards);
    if r.Some? {
      var i :| 0 <= i < |guards| && guards[i] == r.value && Violates(a, r.value) &&
        forall k :: 0 <= k < i ==> !Violates(a, guards[k]);
      assert Rank(r.value) == i;
      forall e | Rank(e) < Rank(r.value)
        ensures !Violates(a, e)
      {
        assert guards[Rank(e)] == e;
      }
    }
  }

  /** Two guards that are each the lowest-ranked failing one are the same guard. */
  lemma LowestFailingGuardUnique(a: Args, e1: ValidationError, e2: ValidationError)
    requires Violates(a, e1) && forall e :: Rank(e) < Rank(e1) ==> !Violates(a, e)
    requires Violates(a, e2) && forall e :: Rank(e) < Rank(e2) ==> !Violates(a, e)
    ensures e1 == e2
  {
    GuardsFollowRank();
    assert Rank(e1) == Rank(e2);
    assert e1 == GuardsIntended[Rank(e1)];
  }

  /** validate: the command's own copy of the guard chain. It agrees with `validation` on every configuration. */
  function Validate(a: Args): (r: Result<Args, ValidationError>)
    ensures r == Validation(a)
  {
    GuardsFollowRank();
    FirstViolationIsLowestRank(a, Guards);
    AcceptedIffNoGuardFails(a);
    match FirstViolation(a, Guards)
    case None =>
      assert forall e :: AsWritten(e) ==> Guards[Rank(e)] == e;
      Success(a)
    case Some(e) =>
      assert AsWritten(e);
      LowestFailingGuardUnique(a, e, Validation(a).error);
      Failure(e)
  }

  /** The configurations the corrected validator accepts: the source's, with a non-negative secondary coefficient. */
  predicate IntendedAccepted(a: Args)
  {
    Accepted(a) && 0.0 <= a.powerCoeffSecondary
  }

  /**
   * The corrected validator: it rejects everything the source rejects, with
   * the same error, and in addition a negative secondary power coefficient.
   */
  function ValidateIntended(a: Args): (r: Result<Args, ValidationError>)
    ensures r.Success? <==> IntendedAccepted(a)
    ensures r.Success? ==> r.value == a
    ensures Validation(a).Failure? ==> r == Validation(a)
    ensures r.Failure? && Validation(a).Success? ==> r.error == NegativeSecondaryPower
  {
    GuardsFollowRank();
    FirstViolationIsLowestRank(a, GuardsIntended);
    AcceptedIffNoGuardFails(a);
    match FirstViolation(a, GuardsIntended)
    case None =>
      assert forall e :: AsWritten(e) ==> GuardsIntended[Rank(e)] == e;
      assert GuardsIntended[17] == NegativeSecondaryPower;
      Success(a)
    case Some(e) =>
      if Validation(a).Failure? then
        LowestFailingGuardUnique(a, e, Validation(a).error);
        Failure(e)
      else
        assert Rank(e) == 17;
        assert e == GuardsIntended[17];
        Failure(e)
  }

  /** Under the corrected validator both power coefficients lie in [0, 1], the primary's the larger. */
  lemma IntendedPowerCoefficients(a: Args)
    requires ValidateIntended(a).Success?
    ensures 0.0 <= a.powerCoeffSecondary <= a.powerCoeffPrimary <= 1.0
  {
  }

  /** The argument defaults of the command. */
  const DefaultArgs: Args := Args(
    monteCarloSamples := 1000, powerLos := 2.0, ricianFactor := 15.0, pathLoss := 2.2,
    radiusUav := 2.0, radiusUser := 15.0, uavHeightMean := 20.0,
    targetRatePrimaryUser := 0.5, targetRateSecondaryUser := 0.5,
    hardwIp := 0.1, sicIp := 0.1, powerCoeffPrimary := 0.8, powerCoeffSecondary := 0.2,
    snrMin := 10.0, snrMax := 60.0, snrSamples := 26, seed := None,
    numberUav := 1, numberUser := 2)

  /** The defaults pass both validators. */
  lemma DefaultArgsAccepted()
    ensures Validate(DefaultArgs) == Success(DefaultArgs)
    ensures ValidateIntended(DefaultArgs) == Success(DefaultArgs)
  {
  }

  /**
   * The as-written guards accept p1 = 0.5, p2 = -0.5 (the order holds and the
   * sum 0 lies in [0, 1]). With ideal hardware, a gain of 0.4 and the 10 dB
   * SNR at the bottom of the default grid, the primary SINR's denominator is
   * then -1 and the argument of np.log is -1.
   */
  lemma AsWrittenValidationAdmitsUndefinedRate()
    ensures var a := DefaultArgs.(hardwIp := 0.0, powerCoeffPrimary := 0.5, powerCoeffSecondary := -0.5);
      Validation(a).Success? &&
      PrimaryDenominator(0.4, 10.0, a.powerCoeffSecondary, a.hardwIp) == -1.0 &&
      1.0 + SinrPrimary(0.4, 10.0, a.powerCoeffPrimary, a.powerCoeffSecondary, a.hardwIp) == -1.0
  {
    var a := DefaultArgs.(hardwIp := 0.0, powerCoeffPrimary := 0.5, powerCoeffSecondary := -0.5);
    assert PrimaryDenominator(0.4, 10.0, -0.5, 0.0) == -1.0;
  }

  /**
   * Under the corrected validator every SINR denominator of the command is at
   * least 1, for every non-negative gain and SNR, so both rates are defined
   * and non-negative.
   */
  lemma IntendedRatesDefined(f: Funcs, a: Args, hp: real, hs: real, snr: real)
    requires ValidateIntended(a).Success?
    requires 0.0 <= hp && 0.0 <= hs && 0.0 <= snr
    ensures RatesDefined(a)
    ensures 1.0 <= PrimaryDenominator(hp, snr, a.powerCoeffSecondary, a.hardwIp)
    ensures 1.0 <= SecondaryDenominator(hs, snr, a.powerCoeffPrimary, a.hardwIp, a.sicIp)
    ensures 0.0 <= SinrPrimary(hp, snr, a.powerCoeffPrimary, a.powerCoeffSecondary, a.hardwIp)
    ensures 0.0 <= SinrSecondary(hs, snr, a.powerCoeffSecondary, a.powerCoeffPrimary, a.hardwIp, a.sicIp)
    ensures LnLaw(f) ==>
      0.0 <= RatePrimary(f, hp, snr, a.powerCoeffPrimary, a.powerCoeffSecondary, a.hardwIp) &&
      0.0 <= RateSecondary(f, hs, snr, a.powerCoeffSecondary, a.powerCoeffPrimary, a.hardwIp, a.sicIp)
  {
    SinrPrimaryBounds(hp, snr, a.powerCoeffPrimary, a.powerCoeffSecondary, a.hardwIp);
    SinrSecondaryBounds(hs, snr, a.powerCoeffSecondary, a.powerCoeffPrimary, a.hardwIp, a.sicIp);
  }

  /**
   * The configurations validate accepts whose every SINR denominator of the
   * command is at least 1, whatever the non-negative gain and SNR: those whose
   * secondary coefficient, though possibly negative, is at least -hw^2.
   */
  predicate RatesDefined(a: Args)
  {
    Accepted(a) && 0.0 <= a.powerCoeffSecondary + a.hardwIp * a.hardwIp
  }

  /**
   * Among accepted configurations these are exactly the ones for which no
   * non-negative gain and SNR make the primary SINR's denominator zero or
   * negative; the secondary denominator is at least 1 for every accepted one.
   */
  lemma RatesDefinedIff(a: Args)
    requires Accepted(a)
    ensures RatesDefined(a) <==>
      forall h: real, snr: real :: 0.0 <= h && 0.0 <= snr ==>
        0.0 < PrimaryDenominator(h, snr, a.powerCoeffSecondary, a.hardwIp)
    ensures forall h: real, snr: real :: 0.0 <= h && 0.0 <= snr ==>
      1.0 <= SecondaryDenominator(h, snr, a.powerCoeffPrimary, a.hardwIp, a.sicIp)
  {
    var ps, hw := a.powerCoeffSecondary, a.hardwIp;
    forall h: real, snr: real | 0.0 <= h && 0.0 <= snr
      ensures 1.0 <= SecondaryDenominator(h, snr, a.powerCoeffPrimary, hw, a.sicIp)
      ensures RatesDefined(a) ==> 1.0 <= PrimaryDenominator(h, snr, ps, hw)
    {
      SinrSecondaryAboveMinusOne(h, snr, -hw * hw, a.powerCoeffPrimary, hw, a.sicIp);
      if RatesDefined(a) {
        SinrPrimaryBounds(h, snr, a.powerCoeffPrimary, ps, hw);
      }
    }
    if !RatesDefined(a) {
      var q := ps + hw * hw;
      var snr := -1.0 / q;
      assert snr * q == -1.0;
      assert PrimaryDenominator(1.0, snr, ps, hw) == 0.0;
    }
  }

  /**
   * Not every negative secondary coefficient that validate admits breaks the
   * rates: p1 = 0.5, p2 = -0.005 with the default hardware impairment 0.1
   * pass validate and fail the corrected validator, yet every denominator
   * stays at least 1, so the command runs it to a full table.
   */
  lemma AsWrittenRunsNegativeSecondary()
    ensures var a := DefaultArgs.(powerCoeffPrimary := 0.5, powerCoeffSecondary := -0.005);
      Validate(a).Success? && ValidateIntended(a).Failure? && RatesDefined(a)
  {
  }

  /**
   * RatesDefined decides per configuration, the source per draw: with
   * p2 = -0.01001 and the default hw = 0.1 the configuration is accepted but
   * not RatesDefined, yet every gain up to 0.01 at every linear SNR up to
   * 10^6 (the default 60 dB top of the grid) keeps both denominators
   * positive, so a run whose draws stay there completes in the source.
   */
  lemma UndefinedRatesCanBeFinite()
    ensures var a := DefaultArgs.(powerCoeffSecondary := -0.01001);
      && Accepted(a) && !RatesDefined(a)
      && forall h: real, snr: real :: 0.0 <= h <= 0.01 && 0.0 <= snr <= 1000000.0 ==>
           && 0.9 <= PrimaryDenominator(h, snr, a.powerCoeffSecondary, a.hardwIp)
           && 1.0 <= SecondaryDenominator(h, snr, a.powerCoeffPrimary, a.hardwIp, a.sicIp)
  {
    var a := DefaultArgs.(powerCoeffSecondary := -0.01001);
    RatesDefinedIff(a);
    forall h: real, snr: real | 0.0 <= h <= 0.01 && 0.0 <= snr <= 1000000.0
      ensures 0.9 <= PrimaryDenominator(h, snr, a.powerCoeffSecondary, a.hardwIp)
    {
      MulNonNegative(1000000.0 - snr, h);
      assert snr * h <= 10000.0;
      assert a.powerCoeffSecondary + a.hardwIp * a.hardwIp == -0.00001;
    }
  }

  /** np.linspace(start, stop, num): num evenly spaced values, the last one exactly stop. */
  function Linspace(start: real, stop: real, num: nat): (r: seq<real>)
    ensures |r| == num
  {
    if num == 0 then []
    else if num == 1 then [start]
    else
      var step := (stop - start) / ((num - 1) as real);
      seq(num, i requires 0 <= i < num => if i == num - 1 then stop else start + (i as real) * step)
  }

  lemma LinspacePoint(start: real, stop: real, num: nat, i: int)
    requires num >= 2 && 0 <= i < num
    ensures Linspace(start, stop, num)[i] ==
      if i == num - 1 then stop else start + (i as real) * ((stop - start) / ((num - 1) as real))
  {
  }

  /** The step (stop - start) / d of a grid over [start, stop] is non-negative, and d steps span the range. */
  lemma StepSpansRange(start: real, stop: real, d: real)
    requires start <= stop && 0.0 < d
    ensures 0.0 <= (stop - start) / d
    ensures start + d * ((stop - start) / d) == stop
  {
  }

  /** For 0 <= i <= j <= d the points start + i*step and start + j*step lie in order within [start, start + d*step]. */
  lemma GridOrder(start: real, step: real, d: real, i: real, j: real)
    requires 0.0 <= step && 0.0 <= i <= j <= d
    ensures start <= start + i * step <= start + j * step <= start + d * step
  {
    MulNonNegative(i, step);
    MulNonNegative(j - i, step);
    MulNonNegative(d - j, step);
  }

  lemma LinspaceBetween(start: real, stop: real, num: nat, i: int)
    requires start <= stop && num >= 2 && 0 <= i < num
    ensures start <= Linspace(start, stop, num)[i] <= stop
  {
    LinspacePoint(start, stop, num, i);
    if i < num - 1 {
      var d := (num - 1) as real;
      StepSpansRange(start, stop, d);
      GridOrder(start, (stop - start) / d, d, i as real, i as real);
    }
  }

  lemma LinspaceOrdered(start: real, stop: real, num: nat, i: int, j: int)
    requires start <= stop && num >= 2 && 0 <= i <= j < num
    ensures Linspace(start, stop, num)[i] <= Linspace(start, stop, num)[j]
  {
    if j == num - 1 {
      LinspacePoint(start, stop, num, j);
      LinspaceBetween(start, stop, num, i);
    } else {
      var d := (num - 1) as real;
      StepSpansRange(start, stop, d);
      GridOrder(start, (stop - start) / d, d, i as real, j as real);
      LinspacePoint(start, stop, num, i);
      LinspacePoint(start, stop, num, j);
    }
  }

  /** The grid starts at start, ends at stop, and ascends from one to the other. */
  lemma LinspaceAscending(start: real, stop: real, num: nat)
    requires start <= stop
    ensures var r := Linspace(start, stop, num);
      (num >= 1 ==> r[0] == start) &&
      (num >= 2 ==> r[num - 1] == stop) &&
      (forall i :: 0 <= i < num ==> start <= r[i] <= stop) &&
      (forall i, j :: 0 <= i <= j < num ==> r[i] <= r[j])
  {
    if num >= 2 {
      forall i | 0 <= i < num
        ensures start <= Linspace(start, stop, num)[i] <= stop
      {
        LinspaceBetween(start, stop, num, i);
      }
      forall i, j | 0 <= i <= j < num
        ensures Linspace(start, stop, num)[i] <= Linspace(start, stop, num)[j]
      {
        LinspaceOrdered(start, stop, num, i, j);
      }
      LinspacePoint(start, stop, num, 0);
      LinspacePoint(start, stop, num, num - 1);
    }
  }

  /** 10 ** (dB / 10): the linear SNR of a value in decibels. */
  function SnrLinear(f: Funcs, db: real): real
  {
    f.pow(10.0, db / 10.0)
  }

  /** The random draws of one Monte Carlo trial. */
  datatype TrialDraws = TrialDraws(
    uavAngle: real,          // rand() behind the UAV's angle on its trajectory
    uavHeight: real,         // [0, 1) sample behind uniform(h - 5, h + 5)
    userAngles: seq<real>,   // rand() behind each user's angle
    userRadii: seq<real>,    // rand() behind each user's radius
    fading: seq<Draw>)       // the normal samples behind each user's fading

  /** A trial supplies one value of each kind per user, and its uniform height sample lies in [0, 1). */
  predicate WellFormed(t: TrialDraws, numberUser: int)
  {
    && 0.0 <= t.uavHeight < 1.0
    && |t.userAngles| == numberUser
    && |t.userRadii| == numberUser
    && |t.fading| == numberUser
  }

  /** The positions and fading parameters one trial draws before generating the channel. */
  function SceneOf(f: Funcs, a: Args, t: TrialDraws): (sc: Scene)
    requires SqrtLaw(f) && 0.0 <= a.ricianFactor && |t.userAngles| == |t.userRadii|
    ensures |sc.userX| == |t.userAngles| && |sc.userY| == |t.userAngles|
  {
    var uav := RandomPositionUav(f, a.radiusUav, a.uavHeightMean, t.uavAngle, t.uavHeight);
    DrawScene(f, uav.x, uav.y, uav.z, a.radiusUser, t.userAngles, t.userRadii, a.ricianFactor, a.powerLos, a.pathLoss)
  }

  /** An accepted mean height of at least 10 keeps the UAV at least 5 above the ground. */
  lemma SceneAirborne(f: Funcs, a: Args, t: TrialDraws)
    requires SqrtLaw(f) && Accepted(a) && WellFormed(t, a.numberUser)
    ensures 5.0 <= SceneOf(f, a, t).uavZ
    ensures Airborne(SceneOf(f, a, t))
  {
    RandomPositionUavBounds(f, a.radiusUav, a.uavHeightMean, t.uavAngle, t.uavHeight);
  }

  /** The primary (weaker) and secondary (stronger) gain of one trial. */
  function TrialPair(f: Funcs, a: Args, t: TrialDraws): (p: ChannelPair)
    requires SqrtLaw(f) && PowLaw(f) && Accepted(a) && WellFormed(t, a.numberUser)
    ensures 0.0 <= p.primary <= p.secondary
  {
    SceneAirborne(f, a, t);
    var gs := Gains(f, SceneOf(f, a, t), t.fading, a.numberUser);
    ChannelPair(Min(gs), Max(gs))
  }

  /**
   * chan yields the channel pair of every well-formed trial. The link is
   * only ever drawn on where TrialPair itself appears, so that code which
   * handles the pairs as values does not unfold the channel computation.
   */
  ghost predicate Generates(f: Funcs, a: Args, chan: TrialDraws -> ChannelPair)
  {
    && SqrtLaw(f) && PowLaw(f) && Accepted(a)
    && forall t {:trigger TrialPair(f, a, t)} :: WellFormed(t, a.numberUser) ==> chan(t) == TrialPair(f, a, t)
  }

  /** The channel pair of every trial, in order. */
  function Pairs(chan: TrialDraws -> ChannelPair, trials: seq<TrialDraws>): (ps: seq<ChannelPair>)
    ensures |ps| == |trials|
    decreases |trials|
  {
    if |trials| == 0 then [] else Pairs(chan, trials[..|trials| - 1]) + [chan(trials[|trials| - 1])]
  }

  lemma {:induction false} PairsAt(chan: TrialDraws -> ChannelPair, trials: seq<TrialDraws>, i: int)
    requires 0 <= i < |trials|
    ensures Pairs(chan, trials)[i] == chan(trials[i])
    decreases |trials|
  {
    var n := |trials| - 1;
    if i < n {
      PairsAt(chan, trials[..n], i);
      assert trials[..n][i] == trials[i];
    }
  }

  /** The metrics of one trial at one SNR value. */
  datatype Sample = Sample(ratePrimary: real, rateSecondary: real, averageRate: real, outage: Outage)

  function SampleAt(f: Funcs, a: Args, p: ChannelPair, snr: real): Sample
    requires RatesDefined(a) && 0.0 <= p.primary && 0.0 <= p.secondary && 0.0 <= snr
  {
    SinrPrimaryBounds(p.primary, snr, a.powerCoeffPrimary, a.powerCoeffSecondary, a.hardwIp);
    SinrSecondaryAboveMinusOne(p.secondary, snr, a.powerCoeffSecondary, a.powerCoeffPrimary, a.hardwIp, a.sicIp);
    var rp := RatePrimary(f, p.primary, snr, a.powerCoeffPrimary, a.powerCoeffSecondary, a.hardwIp);
    var rs := RateSecondary(f, p.secondary, snr, a.powerCoeffSecondary, a.powerCoeffPrimary, a.hardwIp, a.sicIp);
    Sample(rp, rs, AverageRate(rp, rs), OutageProbability(rp, rs, a.targetRatePrimaryUser, a.targetRateSecondaryUser))
  }

  /** The six quantities the command accumulates, one array each. */
  datatype Metric = SystemOutage | PrimaryOutage | SecondaryOutage | SystemRate | PrimaryRate | SecondaryRate

  function Value(s: Sample, m: Metric): real
  {
    match m
    case SystemOutage => s.outage.system as real
    case PrimaryOutage => s.outage.primary as real
    case SecondaryOutage => s.outage.secondary as real
    case SystemRate => s.averageRate
    case PrimaryRate => s.ratePrimary
    case SecondaryRate => s.rateSecondary
  }

  /**
   * What one sample guarantees: every indicator is 0 or 1, the system's lies
   * between each user's and their sum, the average is the midpoint of the
   * rates, and with the law of ln the primary rate is non-negative, and so
   * are the secondary and average rates when the secondary coefficient is.
   */
  lemma SampleFacts(f: Funcs, a: Args, p: ChannelPair, snr: real)
    requires RatesDefined(a) && 0.0 <= p.primary && 0.0 <= p.secondary && 0.0 <= snr
    ensures var s := SampleAt(f, a, p, snr);
      && (Value(s, SystemOutage) == 0.0 || Value(s, SystemOutage) == 1.0)
      && (Value(s, PrimaryOutage) == 0.0 || Value(s, PrimaryOutage) == 1.0)
      && (Value(s, SecondaryOutage) == 0.0 || Value(s, SecondaryOutage) == 1.0)
      && Value(s, PrimaryOutage) <= Value(s, SystemOutage) <= Value(s, PrimaryOutage) + Value(s, SecondaryOutage)
      && Value(s, SecondaryOutage) <= Value(s, SystemOutage) <= Value(s, SecondaryOutage) + Value(s, PrimaryOutage)
      && Value(s, SystemRate) == (Value(s, PrimaryRate) + Value(s, SecondaryRate)) / 2.0
      && (LnLaw(f) ==> 0.0 <= Value(s, PrimaryRate))
      && (LnLaw(f) && 0.0 <= a.powerCoeffSecondary ==> 0.0 <= Value(s, SecondaryRate) && 0.0 <= Value(s, SystemRate))
  {
    SinrPrimaryBounds(p.primary, snr, a.powerCoeffPrimary, a.powerCoeffSecondary, a.hardwIp);
    SinrSecondaryAboveMinusOne(p.secondary, snr, a.powerCoeffSecondary, a.powerCoeffPrimary, a.hardwIp, a.sicIp);
    if 0.0 <= a.powerCoeffSecondary {
      SinrSecondaryBounds(p.secondary, snr, a.powerCoeffSecondary, a.powerCoeffPrimary, a.hardwIp, a.sicIp);
    }
  }

  /** Everything the command needs to run its simulation without a domain error. */
  ghost predicate Runnable(f: Funcs, a: Args, trials: seq<TrialDraws>)
  {
    && SqrtLaw(f) && PowLaw(f)
    && RatesDefined(a)
    && 0 <= a.snrSamples
    && |trials| == a.monteCarloSamples
    && forall i :: 0 <= i < |trials| ==> WellFormed(trials[i], a.numberUser)
  }

  /** The linear SNR grid of the command; every value is positive. */
  function SnrGrid(f: Funcs, a: Args): (g: seq<real>)
    requires 0 <= a.snrSamples
    ensures |g| == a.snrSamples
    ensures PowLaw(f) ==> forall j :: 0 <= j < |g| ==> 0.0 < g[j]
  {
    var db := Linspace(a.snrMin, a.snrMax, a.snrSamples);
    seq(a.snrSamples, j requires 0 <= j < a.snrSamples => SnrLinear(f, db[j]))
  }

  /** One value of the metric per trial, at the given SNR. */
  function Samples(f: Funcs, a: Args, trials: seq<TrialDraws>, snr: real, m: Metric): (c: seq<real>)
    requires Runnable(f, a, trials) && 0.0 <= snr
    ensures |c| == |trials|
  {
    seq(|trials|, i requires 0 <= i < |trials| => Value(SampleAt(f, a, TrialPair(f, a, trials[i]), snr), m))
  }

  /** The mean of the metric over the trials, for every SNR of the grid. */
  function MetricMeans(f: Funcs, a: Args, trials: seq<TrialDraws>, m: Metric): (ms: seq<real>)
    requires Runnable(f, a, trials)
    ensures |ms| == a.snrSamples
  {
    var grid := SnrGrid(f, a);
    seq(a.snrSamples, j requires 0 <= j < a.snrSamples => Mean(Samples(f, a, trials, grid[j], m)))
  }

  /** The table the command reports, one column per quantity, one row per SNR value. */
  datatype Report = Report(
    snrDb: seq<real>,
    outageSystem: seq<real>,
    outagePrimary: seq<real>,
    outageSecondary: seq<real>,
    averageRate: seq<real>,
    ratePrimary: seq<real>,
    rateSecondary: seq<real>)

  function ExpectedReport(f: Funcs, a: Args, trials: seq<TrialDraws>): Report
    requires Runnable(f, a, trials)
  {
    Report(
      Linspace(a.snrMin, a.snrMax, a.snrSamples),
      MetricMeans(f, a, trials, SystemOutage),
      MetricMeans(f, a, trials, PrimaryOutage),
      MetricMeans(f, a, trials, SecondaryOutage),
      MetricMeans(f, a, trials, SystemRate),
      MetricMeans(f, a, trials, PrimaryRate),
      MetricMeans(f, a, trials, SecondaryRate))
  }

  /** At one SNR value, the mean outage indicators are probabilities and the system's lies between each user's and their sum. */
  lemma OutageColumnProperties(f: Funcs, a: Args, trials: seq<TrialDraws>, snr: real)
    requires Runnable(f, a, trials) && 0.0 <= snr
    ensures var sys := Mean(Samples(f, a, trials, snr, SystemOutage));
      var pri := Mean(Samples(f, a, trials, snr, PrimaryOutage));
      var sec := Mean(Samples(f, a, trials, snr, SecondaryOutage));
      && 0.0 <= sys <= 1.0 && 0.0 <= pri <= 1.0 && 0.0 <= sec <= 1.0
      && pri <= sys <= pri + sec && sec <= sys
  {
    var sys := Samples(f, a, trials, snr, SystemOutage);
    var pri := Samples(f, a, trials, snr, PrimaryOutage);
    var sec := Samples(f, a, trials, snr, SecondaryOutage);
    forall i | 0 <= i < |trials|
      ensures (sys[i] == 0.0 || sys[i] == 1.0) && (pri[i] == 0.0 || pri[i] == 1.0) && (sec[i] == 0.0 || sec[i] == 1.0)
      ensures pri[i] <= sys[i] <= pri[i] + sec[i] && sec[i] <= sys[i] <= sec[i] + pri[i]
    {
      SampleFacts(f, a, TrialPair(f, a, trials[i]), snr);
    }
    MeanOfIndicators(sys);
    MeanOfIndicators(pri);
    MeanOfIndicators(sec);
    MeanBetween(pri, sys, sec);
    MeanBetween(sec, sys, pri);
  }

  /**
   * At one SNR value, the mean average rate is half the sum of the users'
   * mean rates; under the law of ln the primary mean rate is non-negative,
   * and so are the others when the secondary coefficient is.
   */
  lemma RateColumnProperties(f: Funcs, a: Args, trials: seq<TrialDraws>, snr: real)
    requires Runnable(f, a, trials) && 0.0 <= snr
    ensures var avg := Mean(Samples(f, a, trials, snr, SystemRate));
      var rp := Mean(Samples(f, a, trials, snr, PrimaryRate));
      var rs := Mean(Samples(f, a, trials, snr, SecondaryRate));
      && avg == (rp + rs) / 2.0
      && (LnLaw(f) ==> 0.0 <= rp)
      && (LnLaw(f) && 0.0 <= a.powerCoeffSecondary ==> 0.0 <= rs && 0.0 <= avg)
  {
    var avg := Samples(f, a, trials, snr, SystemRate);
    var rp := Samples(f, a, trials, snr, PrimaryRate);
    var rs := Samples(f, a, trials, snr, SecondaryRate);
    forall i | 0 <= i < |trials|
      ensures avg[i] == (rp[i] + rs[i]) / 2.0
      ensures LnLaw(f) ==> 0.0 <= rp[i]
      ensures LnLaw(f) && 0.0 <= a.powerCoeffSecondary ==> 0.0 <= rs[i] && 0.0 <= avg[i]
    {
      SampleFacts(f, a, TrialPair(f, a, trials[i]), snr);
    }
    MeanOfMidpoints(rp, rs, avg);
    if LnLaw(f) {
      MeanNonNegative(rp);
      if 0.0 <= a.powerCoeffSecondary {
        MeanNonNegative(rs);
        MeanNonNegative(avg);
      }
    }
  }

  /**
   * What the reported table guarantees at every SNR value: each outage
   * probability lies in [0, 1]; the system's is at least each user's and at
   * most their sum; the mean average rate is half the sum of the users' mean
   * rates; under the law of ln the primary mean rate is non-negative, and so
   * are the others when the secondary coefficient is; the SNR column ascends
   * from snr_min to snr_max.
   */
  lemma ReportProperties(f: Funcs, a: Args, trials: seq<TrialDraws>)
    requires Runnable(f, a, trials)
    ensures var r := ExpectedReport(f, a, trials);
      && |r.snrDb| == |r.outageSystem| == |r.outagePrimary| == |r.outageSecondary| == a.snrSamples
      && |r.averageRate| == |r.ratePrimary| == |r.rateSecondary| == a.snrSamples
      && (forall j :: 0 <= j < a.snrSamples ==>
            && 0.0 <= r.outageSystem[j] <= 1.0
            && 0.0 <= r.outagePrimary[j] <= 1.0
            && 0.0 <= r.outageSecondary[j] <= 1.0
            && r.outagePrimary[j] <= r.outageSystem[j] <= r.outagePrimary[j] + r.outageSecondary[j]
            && r.outageSecondary[j] <= r.outageSystem[j]
            && r.averageRate[j] == (r.ratePrimary[j] + r.rateSecondary[j]) / 2.0)
      && (LnLaw(f) ==> forall j :: 0 <= j < a.snrSamples ==> 0.0 <= r.ratePrimary[j])
      && (LnLaw(f) && 0.0 <= a.powerCoeffSecondary ==> forall j :: 0 <= j < a.snrSamples ==>
            0.0 <= r.rateSecondary[j] && 0.0 <= r.averageRate[j])
      && (forall i, j :: 0 <= i <= j < a.snrSamples ==> r.snrDb[i] <= r.snrDb[j])
  {
    var grid := SnrGrid(f, a);
    forall j | 0 <= j < a.snrSamples
      ensures var r := ExpectedReport(f, a, trials);
        && 0.0 <= r.outageSystem[j] <= 1.0
        && 0.0 <= r.outagePrimary[j] <= 1.0
        && 0.0 <= r.outageSecondary[j] <= 1.0
        && r.outagePrimary[j] <= r.outageSystem[j] <= r.outagePrimary[j] + r.outageSecondary[j]
        && r.outageSecondary[j] <= r.outageSystem[j]
        && r.averageRate[j] == (r.ratePrimary[j] + r.rateSecondary[j]) / 2.0
        && (LnLaw(f) ==> 0.0 <= r.ratePrimary[j])
        && (LnLaw(f) && 0.0 <= a.powerCoeffSecondary ==> 0.0 <= r.rateSecondary[j] && 0.0 <= r.averageRate[j])
    {
      OutageColumnProperties(f, a, trials, grid[j]);
      RateColumnProperties(f, a, trials, grid[j]);
    }
    LinspaceAscending(a.snrMin, a.snrMax, a.snrSamples);
  }

  datatype SimulationError =
    | InvalidArguments(error: ValidationError)  // validate exits with status 1
    | NegativeSnrSamples                        // np.linspace rejects a negative count
    | UndefinedRates                            // a primary SINR denominator can be zero or negative

  /** The channel pairs a trial loop may feed to SampleAt, and the SNR values it may use. */
  predicate Feasible(a: Args, pairs: seq<ChannelPair>, grid: seq<real>)
  {
    && RatesDefined(a)
    && (forall i :: 0 <= i < |pairs| ==> 0.0 <= pairs[i].primary && 0.0 <= pairs[i].secondary)
    && (forall j :: 0 <= j < |grid| ==> 0.0 <= grid[j])
  }

  lemma FeasibleExtend(a: Args, pairs: seq<ChannelPair>, p: ChannelPair, grid: seq<real>)
    requires Feasible(a, pairs, grid) && 0.0 <= p.primary && 0.0 <= p.secondary
    ensures Feasible(a, pairs + [p], grid)
  {
    var ps := pairs + [p];
    forall i | 0 <= i < |ps|
      ensures 0.0 <= ps[i].primary && 0.0 <= ps[i].secondary
    {
      if i < |pairs| {
        assert ps[i] == pairs[i];
      }
    }
  }

  /** Cell (i, j) of arr holds metric m of trial i (channel pair pairs[i]) at SNR value grid[j]. */
  predicate Filled(f: Funcs, a: Args, arr: array2<real>, pairs: seq<ChannelPair>, grid: seq<real>, m: Metric)
    requires Feasible(a, pairs, grid)
    reads arr
  {
    && |pairs| <= arr.Length0 && arr.Length1 == |grid|
    && forall i, j :: 0 <= i < |pairs| && 0 <= j < |grid| ==>
         arr[i, j] == Value(SampleAt(f, a, pairs[i], grid[j]), m)
  }

  lemma FilledExtend(f: Funcs, a: Args, arr: array2<real>, pairs: seq<ChannelPair>, p: ChannelPair,
                     grid: seq<real>, m: Metric)
    requires Feasible(a, pairs, grid) && 0.0 <= p.primary && 0.0 <= p.secondary
    requires Filled(f, a, arr, pairs, grid, m) && |pairs| < arr.Length0
    requires forall j :: 0 <= j < |grid| ==> arr[|pairs|, j] == Value(SampleAt(f, a, p, grid[j]), m)
    ensures Feasible(a, pairs + [p], grid)
    ensures Filled(f, a, arr, pairs + [p], grid, m)
  {
    FeasibleExtend(a, pairs, p, grid);
    var ps := pairs + [p];
    forall i, j | 0 <= i < |ps| && 0 <= j < |grid|
      ensures arr[i, j] == Value(SampleAt(f, a, ps[i], grid[j]), m)
    {
      if i < |pairs| {
        assert ps[i] == pairs[i];
      } else {
        assert ps[i] == p;
      }
    }
  }

  /** The six result arrays are distinct and all have the same shape. */
  predicate Distinct(outSys: array2<real>, outPri: array2<real>, outSec: array2<real>,
                     avgRate: array2<real>, ratePri: array2<real>, rateSec: array2<real>)
  {
    && outSys != outPri && outSys != outSec && outSys != avgRate && outSys != ratePri && outSys != rateSec
    && outPri != outSec && outPri != avgRate && outPri != ratePri && outPri != rateSec
    && outSec != avgRate && outSec != ratePri && outSec != rateSec
    && avgRate != ratePri && avgRate != rateSec && ratePri != rateSec
    && outPri.Length0 == outSec.Length0 == avgRate.Length0 == ratePri.Length0 == rateSec.Length0 == outSys.Length0
    && outPri.Length1 == outSec.Length1 == avgRate.Length1 == ratePri.Length1 == rateSec.Length1 == outSys.Length1
  }

  /** Each of the six arrays holds its metric for the trials of pairs at the SNR values of grid. */
  predicate AllFilled(f: Funcs, a: Args, outSys: array2<real>, outPri: array2<real>, outSec: array2<real>,
                      avgRate: array2<real>, ratePri: array2<real>, rateSec: array2<real>,
                      pairs: seq<ChannelPair>, grid: seq<real>)
    reads outSys, outPri, outSec, avgRate, ratePri, rateSec
  {
    && Feasible(a, pairs, grid)
    && Filled(f, a, outSys, pairs, grid, SystemOutage) && Filled(f, a, outPri, pairs, grid, PrimaryOutage)
    && Filled(f, a, outSec, pairs, grid, SecondaryOutage) && Filled(f, a, avgRate, pairs, grid, SystemRate)
    && Filled(f, a, ratePri, pairs, grid, PrimaryRate) && Filled(f, a, rateSec, pairs, grid, SecondaryRate)
  }

  /**
   * The inner loop of the command for one trial: at every SNR value of the
   * grid, writes the rates, the average rate and the three outage indicators
   * of channel pair p into row mc of the six arrays, and changes no other row.
   */
  method WriteRow(f: Funcs, a: Args, p: ChannelPair, grid: seq<real>, mc: int,
                  outSys: array2<real>, outPri: array2<real>, outSec: array2<real>,
                  avgRate: array2<real>, ratePri: array2<real>, rateSec: array2<real>)
    requires RatesDefined(a) && 0.0 <= p.primary && 0.0 <= p.secondary
    requires forall j :: 0 <= j < |grid| ==> 0.0 <= grid[j]
    requires Distinct(outSys, outPri, outSec, avgRate, ratePri, rateSec)
    requires 0 <= mc < outSys.Length0 && outSys.Length1 == |grid|
    modifies outSys, outPri, outSec, avgRate, ratePri, rateSec
    ensures forall i, j :: 0 <= i < outSys.Length0 && i != mc && 0 <= j < |grid| ==>
      && outSys[i, j] == old(outSys[i, j]) && outPri[i, j] == old(outPri[i, j])
      && outSec[i, j] == old(outSec[i, j]) && avgRate[i, j] == old(avgRate[i, j])
      && ratePri[i, j] == old(ratePri[i, j]) && rateSec[i, j] == old(rateSec[i, j])
    ensures forall j :: 0 <= j < |grid| ==>
      && outSys[mc, j] == Value(SampleAt(f, a, p, grid[j]), SystemOutage)
      && outPri[mc, j] == Value(SampleAt(f, a, p, grid[j]), PrimaryOutage)
      && outSec[mc, j] == Value(SampleAt(f, a, p, grid[j]), SecondaryOutage)
      && avgRate[mc, j] == Value(SampleAt(f, a, p, grid[j]), SystemRate)
      && ratePri[mc, j] == Value(SampleAt(f, a, p, grid[j]), PrimaryRate)
      && rateSec[mc, j] == Value(SampleAt(f, a, p, grid[j]), SecondaryRate)
  {
    for sn := 0 to |grid|
      invariant forall i, j :: 0 <= i < outSys.Length0 && i != mc && 0 <= j < |grid| ==>
        && outSys[i, j] == old(outSys[i, j]) && outPri[i, j] == old(outPri[i, j])
        && outSec[i, j] == old(outSec[i, j]) && avgRate[i, j] == old(avgRate[i, j])
        && ratePri[i, j] == old(ratePri[i, j]) && rateSec[i, j] == old(rateSec[i, j])
      invariant forall j :: 0 <= j < sn ==>
        && outSys[mc, j] == Value(SampleAt(f, a, p, grid[j]), SystemOutage)
        && outPri[mc, j] == Value(SampleAt(f, a, p, grid[j]), PrimaryOutage)
        && outSec[mc, j] == Value(SampleAt(f, a, p, grid[j]), SecondaryOutage)
        && avgRate[mc, j] == Value(SampleAt(f, a, p, grid[j]), SystemRate)
        && ratePri[mc, j] == Value(SampleAt(f, a, p, grid[j]), PrimaryRate)
        && rateSec[mc, j] == Value(SampleAt(f, a, p, grid[j]), SecondaryRate)
    {
      var snr := grid[sn];
      SinrPrimaryBounds(p.primary, snr, a.powerCoeffPrimary, a.powerCoeffSecondary, a.hardwIp);
      SinrSecondaryAboveMinusOne(p.secondary, snr, a.powerCoeffSecondary, a.powerCoeffPrimary, a.hardwIp, a.sicIp);
      var rp := RatePrimary(f, p.primary, snr, a.powerCoeffPrimary, a.powerCoeffSecondary, a.hardwIp);
      var rs := RateSecondary(f, p.secondary, snr, a.powerCoeffSecondary, a.powerCoeffPrimary, a.hardwIp, a.sicIp);
      var o := OutageProbability(rp, rs, a.targetRatePrimaryUser, a.targetRateSecondaryUser);
      ghost var s := SampleAt(f, a, p, snr);
      assert s == Sample(rp, rs, AverageRate(rp, rs), o);
      ratePri[mc, sn] := rp;
      rateSec[mc, sn] := rs;
      avgRate[mc, sn] := AverageRate(rp, rs);
      outSys[mc, sn] := o.system as real;
      outPri[mc, sn] := o.primary as real;
      outSec[mc, sn] := o.secondary as real;
    }
  }

  /** Filling the next row with the metrics of channel pair p extends what the six arrays hold by p. */
  method RecordRow(f: Funcs, a: Args, p: ChannelPair, grid: seq<real>, mc: int, ghost pairs: seq<ChannelPair>,
                   outSys: array2<real>, outPri: array2<real>, outSec: array2<real>,
                   avgRate: array2<real>, ratePri: array2<real>, rateSec: array2<real>)
    requires 0.0 <= p.primary && 0.0 <= p.secondary
    requires Distinct(outSys, outPri, outSec, avgRate, ratePri, rateSec) && mc == |pairs| < outSys.Length0
    requires AllFilled(f, a, outSys, outPri, outSec, avgRate, ratePri, rateSec, pairs, grid)
    modifies outSys, outPri, outSec, avgRate, ratePri, rateSec
    ensures AllFilled(f, a, outSys, outPri, outSec, avgRate, ratePri, rateSec, pairs + [p], grid)
  {
    WriteRow(f, a, p, grid, mc, outSys, outPri, outSec, avgRate, ratePri, rateSec);
    assert Filled(f, a, outSys, pairs, grid, SystemOutage) && Filled(f, a, outPri, pairs, grid, PrimaryOutage);
    assert Filled(f, a, outSec, pairs, grid, SecondaryOutage) && Filled(f, a, avgRate, pairs, grid, SystemRate);
    assert Filled(f, a, ratePri, pairs, grid, PrimaryRate) && Filled(f, a, rateSec, pairs, grid, SecondaryRate);
    FilledExtend(f, a, outSys, pairs, p, grid, SystemOutage);
    FilledExtend(f, a, outPri, pairs, p, grid, PrimaryOutage);
    FilledExtend(f, a, outSec, pairs, p, grid, SecondaryOutage);
    FilledExtend(f, a, avgRate, pairs, p, grid, SystemRate);
    FilledExtend(f, a, ratePri, pairs, p, grid, PrimaryRate);
    FilledExtend(f, a, rateSec, pairs, p, grid, SecondaryRate);
  }

  /** One trial's positions, fading and channel generation: its primary and secondary gains. */
  method TrialChannel(f: Funcs, a: Args, t: TrialDraws, ghost chan: TrialDraws -> ChannelPair) returns (p: ChannelPair)
    requires Generates(f, a, chan) && WellFormed(t, a.numberUser)
    ensures p == chan(t)
    ensures 0.0 <= p.primary <= p.secondary
  {
    var sc := SceneOf(f, a, t);
    SceneAirborne(f, a, t);
    var ch, gains, distances := GenerateChannel(f, sc, a.numberUser, t.fading);
    p := ch.value;
    assert p == TrialPair(f, a, t);
  }

  /** One iteration of the Monte Carlo loop: the channel of trial mc and its row of the six arrays. */
  method RunTrial(f: Funcs, a: Args, ghost chan: TrialDraws -> ChannelPair, trials: seq<TrialDraws>, grid: seq<real>,
                  mc: int, ghost pairs: seq<ChannelPair>,
                  outSys: array2<real>, outPri: array2<real>, outSec: array2<real>,
                  avgRate: array2<real>, ratePri: array2<real>, rateSec: array2<real>)
    returns (p: ChannelPair)
    requires Runnable(f, a, trials) && Generates(f, a, chan)
    requires 0 <= mc < |trials| && pairs == Pairs(chan, trials[..mc])
    requires Distinct(outSys, outPri, outSec, avgRate, ratePri, rateSec) && mc < outSys.Length0
    requires AllFilled(f, a, outSys, outPri, outSec, avgRate, ratePri, rateSec, pairs, grid)
    modifies outSys, outPri, outSec, avgRate, ratePri, rateSec
    ensures pairs + [p] == Pairs(chan, trials[..mc + 1])
    ensures AllFilled(f, a, outSys, outPri, outSec, avgRate, ratePri, rateSec, pairs + [p], grid)
  {
    p := TrialChannel(f, a, trials[mc], chan);
    assert trials[..mc + 1][..mc] == trials[..mc];
    RecordRow(f, a, p, grid, mc, pairs, outSys, outPri, outSec, avgRate, ratePri, rateSec);
  }

  /** np.zeros((N, M)) six times: six fresh, distinct N x M arrays. */
  method Allocate(n: nat, m: nat)
    returns (outSys: array2<real>, outPri: array2<real>, outSec: array2<real>,
             avgRate: array2<real>, ratePri: array2<real>, rateSec: array2<real>)
    ensures fresh(outSys) && fresh(outPri) && fresh(outSec) && fresh(avgRate) && fresh(ratePri) && fresh(rateSec)
    ensures Distinct(outSys, outPri, outSec, avgRate, ratePri, rateSec)
    ensures outSys.Length0 == n && outSys.Length1 == m
  {
    outSys := new real[n, m];
    outSec := new real[n, m];
    outPri := new real[n, m];
    avgRate := new real[n, m];
    rateSec := new real[n, m];
    ratePri := new real[n, m];
  }

  /**
   * The Monte Carlo loop of the command: for every trial, generates the
   * channel and records its row. Cell (i, j) of each array holds the metric of
   * trial i at SNR value j.
   */
  method RunTrials(f: Funcs, a: Args, ghost chan: TrialDraws -> ChannelPair, trials: seq<TrialDraws>, grid: seq<real>)
    returns (outSys: array2<real>, outPri: array2<real>, outSec: array2<real>,
             avgRate: array2<real>, ratePri: array2<real>, rateSec: array2<real>,
             ghost pairs: seq<ChannelPair>)
    requires Runnable(f, a, trials) && Generates(f, a, chan) && grid == SnrGrid(f, a)
    ensures pairs == Pairs(chan, trials)
    ensures Distinct(outSys, outPri, outSec, avgRate, ratePri, rateSec) && outSys.Length0 == |trials|
    ensures AllFilled(f, a, outSys, outPri, outSec, avgRate, ratePri, rateSec, pairs, grid)
  {
    var n := |trials|;
    outSys, outPri, outSec, avgRate, ratePri, rateSec := Allocate(n, |grid|);
    pairs := [];
    for mc := 0 to n
      invariant pairs == Pairs(chan, trials[..mc])
      invariant AllFilled(f, a, outSys, outPri, outSec, avgRate, ratePri, rateSec, pairs, grid)
    {
      var p := RunTrial(f, a, chan, trials, grid, mc, pairs, outSys, outPri, outSec, avgRate, ratePri, rateSec);
      pairs := pairs + [p];
    }
    assert trials[..n] == trials;
  }

  /**
   * The body of the command: validates the arguments with validate, builds
   * the SNR grid, runs every trial at every SNR value into six N x M arrays,
   * and reports the column means. An accepted configuration under which some
   * gain and SNR would make a primary SINR denominator zero or negative is
   * reported as UndefinedRates; the corrected validator admits none.
   */
  method Simulate(f: Funcs, a: Args, trials: seq<TrialDraws>) returns (r: Result<Report, SimulationError>)
    requires SqrtLaw(f) && PowLaw(f)
    requires Accepted(a) ==>
      |trials| == a.monteCarloSamples && forall i :: 0 <= i < |trials| ==> WellFormed(trials[i], a.numberUser)
    ensures Validate(a).Failure? ==> r == Failure(InvalidArguments(Validate(a).error))
    ensures Accepted(a) && a.snrSamples < 0 ==> r == Failure(NegativeSnrSamples)
    ensures Accepted(a) && 0 <= a.snrSamples && !RatesDefined(a) ==> r == Failure(UndefinedRates)
    ensures ValidateIntended(a).Success? && 0 <= a.snrSamples ==> r.Success?
    ensures r.Success? <==> Runnable(f, a, trials)
    ensures r.Success? ==> r.value == ExpectedReport(f, a, trials)
  {
    var v := Validate(a);
    if v.Failure? {
      return Failure(InvalidArguments(v.error));
    }
    if a.snrSamples < 0 {
      return Failure(NegativeSnrSamples);
    }
    if a.powerCoeffSecondary + a.hardwIp * a.hardwIp < 0.0 {
      return Failure(UndefinedRates);
    }
    var m := a.snrSamples;
    var snrDb := Linspace(a.snrMin, a.snrMax, m);
    var snrLinear := seq(m, j requires 0 <= j < m => SnrLinear(f, snrDb[j]));
    assert snrLinear == SnrGrid(f, a);
    ghost var chan := (t: TrialDraws) =>
      if WellFormed(t, a.numberUser) then TrialPair(f, a, t) else ChannelPair(0.0, 0.0);
    assert Generates(f, a, chan);
    var outSys, outPri, outSec, avgRate, ratePri, rateSec, pairs := RunTrials(f, a, chan, trials, snrLinear);
    PairsAreTrialPairs(f, a, chan, trials);
    MeansMatch(f, a, trials, outSys, SystemOutage, pairs);
    MeansMatch(f, a, trials, outPri, PrimaryOutage, pairs);
    MeansMatch(f, a, trials, outSec, SecondaryOutage, pairs);
    MeansMatch(f, a, trials, avgRate, SystemRate, pairs);
    MeansMatch(f, a, trials, ratePri, PrimaryRate, pairs);
    MeansMatch(f, a, trials, rateSec, SecondaryRate, pairs);
    r := Success(Report(snrDb,
      ColumnMeans(outSys), ColumnMeans(outPri), ColumnMeans(outSec),
      ColumnMeans(avgRate), ColumnMeans(ratePri), ColumnMeans(rateSec)));
  }

  /** A channel function that generates the trials' pairs yields, trial by trial, the pairs the report is defined by. */
  lemma PairsAreTrialPairs(f: Funcs, a: Args, chan: TrialDraws -> ChannelPair, trials: seq<TrialDraws>)
    requires Runnable(f, a, trials) && Generates(f, a, chan)
    ensures forall i :: 0 <= i < |trials| ==> Pairs(chan, trials)[i] == TrialPair(f, a, trials[i])
  {
    forall i | 0 <= i < |trials|
      ensures Pairs(chan, trials)[i] == TrialPair(f, a, trials[i])
    {
      PairsAt(chan, trials, i);
    }
  }

  /** An array holding the metric of every trial at every SNR value has the expected column means. */
  lemma MeansMatch(f: Funcs, a: Args, trials: seq<TrialDraws>, arr: array2<real>, m: Metric, pairs: seq<ChannelPair>)
    requires Runnable(f, a, trials) && Feasible(a, pairs, SnrGrid(f, a))
    requires arr.Length0 == |trials| == |pairs|
    requires forall i :: 0 <= i < |trials| ==> pairs[i] == TrialPair(f, a, trials[i])
    requires Filled(f, a, arr, pairs, SnrGrid(f, a), m)
    ensures ColumnMeans(arr) == MetricMeans(f, a, trials, m)
  {
    var grid := SnrGrid(f, a);
    forall j | 0 <= j < a.snrSamples
      ensures Column(arr, j) == Samples(f, a, trials, grid[j], m)
    {
    }
  }

  /** Both outage probabilities are zero at SNR index i. */
  predicate Silent(primary: seq<real>, secondary: seq<real>, i: int)
    requires 0 <= i < |primary| && i < |secondary|
  {
    primary[i] == 0.0 && secondary[i] == 0.0
  }

  /**
   * The scan that trims the outage plot: walking down from the last SNR
   * index to index 1, it stops at the first index where either outage
   * probability is non-zero. The result is where the trailing run of zeros
   * starts (never below 1), or the last index when there is no such run.
   */
  method PlotUpperIndex(primary: seq<real>, secondary: seq<real>) returns (iMax: int)
    requires |primary| == |secondary|
    ensures |primary| == 0 ==> iMax == -1
    ensures |primary| == 1 ==> iMax == 0
    ensures |primary| >= 2 ==> 1 <= iMax <= |primary| - 1
    ensures forall j :: iMax < j < |primary| ==> Silent(primary, secondary, j)
    ensures |primary| >= 2 && !Silent(primary, secondary, |primary| - 1) ==> iMax == |primary| - 1
    ensures |primary| >= 2 && Silent(primary, secondary, |primary| - 1) ==>
      Silent(primary, secondary, iMax) && (iMax == 1 || !Silent(primary, secondary, iMax - 1))
  {
    iMax := |primary| - 1;
    var i := |primary| - 1;
    while i >= 1
      invariant -1 <= i <= |primary| - 1
      invariant |primary| >= 1 ==> 0 <= i
      invariant iMax == (if i == |primary| - 1 then |primary| - 1 else i + 1)
      invariant forall j :: i < j < |primary| ==> Silent(primary, secondary, j)
      decreases i
    {
      if Silent(primary, secondary, i) {
        iMax := i;
      } else {
        break;
      }
      i := i - 1;
    }
  }
}
