/**
 * The configuration validator (uavnoma/parameters_validation.py): a fixed
 * chain of range guards over the command-line arguments. The first guard
 * that fails prints its message and exits with status 1; when every guard
 * passes the arguments are returned unchanged.
 */
module ParametersValidation {
  import opened Wrappers

  /** The command-line configuration record, one field per argument. */
  datatype Args = Args(
    monteCarloSamples: int,
    powerLos: real,
    ricianFactor: real,
    pathLoss: real,
    radiusUav: real,
    radiusUser: real,
    uavHeightMean: real,
    targetRatePrimaryUser: real,
    targetRateSecondaryUser: real,
    hardwIp: real,
    sicIp: real,
    powerCoeffPrimary: real,
    powerCoeffSecondary: real,
    snrMin: real,
    snrMax: real,
    snrSamples: int,
    seed: Option<int>,
    numberUav: int,
    numberUser: int)

  /** One constructor per guard, in the order the guards are checked. */
  datatype ValidationError =
    | InvalidMonteCarloSamples
    | InvalidPowerLos
    | InvalidRicianFactor
    | InvalidPathLoss
    | InvalidRadiusUav
    | InvalidRadiusUser
    | InvalidUavHeight
    | InvalidNumberUser
    | InvalidNumberUav
    | InvalidTargetRatePrimary
    | InvalidTargetRateSecondary
    | InvalidHardwareImpairment
    | InvalidSicImpairment
    | InvalidSnrMin
    | InvalidSnrMax
    | InvalidPowerOrder
    | InvalidPowerSum
    /** Not a guard of the source: the corrected validator's rejection of a negative secondary coefficient. */
    | NegativeSecondaryPower

  /** The status every rejection exits with. */
  const ExitStatus: int := 1

  /** The text printed to stderr for each rejection. */
  function Message(e: ValidationError): string
  {
    match e
    case InvalidMonteCarloSamples => "Invalid Monte Carlo samples, the value must be (100 <= monte_carlo_samples <= 100000)"
    case InvalidPowerLos => "Error Detected! The power must be (1.0 <= value <= 2.0)"
    case InvalidRicianFactor => "Error Detected! Rician factor must be (10 <= value <= 18)"
    case InvalidPathLoss => "Error Detected! Path loss value must be (2.0 <= value <= 3.0)"
    case InvalidRadiusUav => "Error Detected! Radius UAV value must be (1.0 <= value <= 5.0)"
    case InvalidRadiusUser => "Error Detected! Radius user value must be (1.0 <= value <= 20.0)"
    case InvalidUavHeight => "Error Detected! Heigth UAV value must be (10 <= value <= 40)"
    case InvalidNumberUser => "Error Detected! Number of user value must be 2)"
    case InvalidNumberUav => "Error Detected! Number UAV value must be 1"
    case InvalidTargetRatePrimary => "Error Detected! Target rate of primary user must be (0.1<= value <= 2)"
    case InvalidTargetRateSecondary => "Error Detected! Target rate of secondary user must be (0.1 <= value <= 2)"
    case InvalidHardwareImpairment => "Error Detected! Residual Hardware impairment must be (0 <= value <= 1.0)"
    case InvalidSicImpairment => "Error Detected! Residual imperfect SIC must be (0 <= value <= 1.0)"
    case InvalidSnrMin => "Error Detected! SNR minimum value must be (0 <= value <= 15)"
    case InvalidSnrMax => "Error Detected! SNR maximum value must be (30 <= value <= 80)"
    case InvalidPowerOrder => "Error Detected! The power coefficient of the primary user must be greater than that of the Secondary user."
    case InvalidPowerSum => "Error Detected! The sum of the power coefficients must be (0.0 < value <= 1.0)"
    case NegativeSecondaryPower => "Error Detected! The power coefficient of the Secondary user must not be negative."
  }

  /** Position of a guard in the checking order. */
  function Rank(e: ValidationError): nat
  {
    match e
    case InvalidMonteCarloSamples => 0
    case InvalidPowerLos => 1
    case InvalidRicianFactor => 2
    case InvalidPathLoss => 3
    case InvalidRadiusUav => 4
    case InvalidRadiusUser => 5
    case InvalidUavHeight => 6
    case InvalidNumberUser => 7
    case InvalidNumberUav => 8
    case InvalidTargetRatePrimary => 9
    case InvalidTargetRateSecondary => 10
    case InvalidHardwareImpairment => 11
    case InvalidSicImpairment => 12
    case InvalidSnrMin => 13
    case InvalidSnrMax => 14
    case InvalidPowerOrder => 15
    case InvalidPowerSum => 16
    case NegativeSecondaryPower => 17
  }

  /** The guards of the source, which leave out the corrected validator's extra one. */
  predicate AsWritten(e: ValidationError)
  {
    e != NegativeSecondaryPower
  }

  /** The condition under which each guard rejects the configuration. */
  predicate Violates(a: Args, e: ValidationError)
  {
    match e
    case InvalidMonteCarloSamples => a.monteCarloSamples < 100 || a.monteCarloSamples > 100000
    case InvalidPowerLos => a.powerLos < 1.0 || a.powerLos > 2.0
    case InvalidRicianFactor => a.ricianFactor < 10.0 || a.ricianFactor > 18.0
    case InvalidPathLoss => a.pathLoss < 2.0 || a.pathLoss > 3.0
    case InvalidRadiusUav => a.radiusUav < 1.0 || a.radiusUav > 5.0
    case InvalidRadiusUser => a.radiusUser < 1.0 || a.radiusUser > 20.0
    case InvalidUavHeight => a.uavHeightMean < 10.0 || a.uavHeightMean > 50.0
    case InvalidNumberUser => a.numberUser != 2
    case InvalidNumberUav => a.numberUav != 1
    case InvalidTargetRatePrimary => a.targetRatePrimaryUser < 0.0 || a.targetRatePrimaryUser > 2.0
    case InvalidTargetRateSecondary => a.targetRateSecondaryUser < 0.0 || a.targetRateSecondaryUser > 2.0
    case InvalidHardwareImpairment => a.hardwIp < 0.0 || a.hardwIp > 1.0
    case InvalidSicImpairment => a.sicIp < 0.0 || a.sicIp > 1.0
    case InvalidSnrMin => a.snrMin < 0.0 || a.snrMin > 15.0
    case InvalidSnrMax => a.snrMax < 30.0 || a.snrMax > 80.0
    case InvalidPowerOrder => a.powerCoeffPrimary < a.powerCoeffSecondary
    case InvalidPowerSum =>
      a.powerCoeffPrimary + a.powerCoeffSecondary < 0.0 || a.powerCoeffPrimary + a.powerCoeffSecondary > 1.0
    case NegativeSecondaryPower => a.powerCoeffSecondary < 0.0
  }

  /** The configurations the source accepts, stated as the closed ranges each argument must lie in. */
  predicate Accepted(a: Args)
  {
    && 100 <= a.monteCarloSamples <= 100000
    && 1.0 <= a.powerLos <= 2.0
    && 10.0 <= a.ricianFactor <= 18.0
    && 2.0 <= a.pathLoss <= 3.0
    && 1.0 <= a.radiusUav <= 5.0
    && 1.0 <= a.radiusUser <= 20.0
    && 10.0 <= a.uavHeightMean <= 50.0
    && a.numberUser == 2
    && a.numberUav == 1
    && 0.0 <= a.targetRatePrimaryUser <= 2.0
    && 0.0 <= a.targetRateSecondaryUser <= 2.0
    && 0.0 <= a.hardwIp <= 1.0
    && 0.0 <= a.sicIp <= 1.0
    && 0.0 <= a.snrMin <= 15.0
    && 30.0 <= a.snrMax <= 80.0
    && a.powerCoeffSecondary <= a.powerCoeffPrimary
    && 0.0 <= a.powerCoeffPrimary + a.powerCoeffSecondary <= 1.0
  }

  /** Every guard of the source passes exactly when the configuration lies in the accepted ranges. */
  lemma AcceptedIffNoGuardFails(a: Args)
    ensures Accepted(a) <==> forall e :: AsWritten(e) ==> !Violates(a, e)
  {
    if !Accepted(a) {
      var e := FailingGuard(a);
      assert AsWritten(e) && Violates(a, e);
    }
  }

  /** A guard of the source that a configuration outside the accepted ranges fails. */
  function FailingGuard(a: Args): (e: ValidationError)
    requires !Accepted(a)
    ensures AsWritten(e) && Violates(a, e)
  {
    if Violates(a, InvalidMonteCarloSamples) then InvalidMonteCarloSamples
    else if Violates(a, InvalidPowerLos) then InvalidPowerLos
    else if Violates(a, InvalidRicianFactor) then InvalidRicianFactor
    else if Violates(a, InvalidPathLoss) then InvalidPathLoss
    else if Violates(a, InvalidRadiusUav) then InvalidRadiusUav
    else if Violates(a, InvalidRadiusUser) then InvalidRadiusUser
    else if Violates(a, InvalidUavHeight) then InvalidUavHeight
    else if Violates(a, InvalidNumberUser) then InvalidNumberUser
    else if Violates(a, InvalidNumberUav) then InvalidNumberUav
    else if Violates(a, InvalidTargetRatePrimary) then InvalidTargetRatePrimary
    else if Violates(a, InvalidTargetRateSecondary) then InvalidTargetRateSecondary
    else if Violates(a, InvalidHardwareImpairment) then InvalidHardwareImpairment
    else if Violates(a, InvalidSicImpairment) then InvalidSicImpairment
    else if Violates(a, InvalidSnrMin) then InvalidSnrMin
    else if Violates(a, InvalidSnrMax) then InvalidSnrMax
    else if Violates(a, InvalidPowerOrder) then InvalidPowerOrder
    else InvalidPowerSum
  }

  /**
   * validation: the source's chain of guards. On success the arguments come
   * back unchanged; on failure the error names a guard that fails while
   * every guard before it passes.
   */
  function Validation(a: Args): (r: Result<Args, ValidationError>)
    ensures r.Success? <==> Accepted(a)
    ensures r.Success? ==> r.value == a
    ensures r.Failure? ==>
      AsWritten(r.error) && Violates(a, r.error) &&
      forall e :: Rank(e) < Rank(r.error) ==> !Violates(a, e)
  {
    if a.monteCarloSamples < 100 || a.monteCarloSamples > 100000 then Failure(InvalidMonteCarloSamples)
    else if a.powerLos < 1.0 || a.powerLos > 2.0 then Failure(InvalidPowerLos)
    else if a.ricianFactor < 10.0 || a.ricianFactor > 18.0 then Failure(InvalidRicianFactor)
    else if a.pathLoss < 2.0 || a.pathLoss > 3.0 then Failure(InvalidPathLoss)
    else if a.radiusUav < 1.0 || a.radiusUav > 5.0 then Failure(InvalidRadiusUav)
    else if a.radiusUser < 1.0 || a.radiusUser > 20.0 then Failure(InvalidRadiusUser)
    else if a.uavHeightMean < 10.0 || a.uavHeightMean > 50.0 then Failure(InvalidUavHeight)
    else if a.numberUser != 2 then Failure(InvalidNumberUser)
    else if a.numberUav != 1 then Failure(InvalidNumberUav)
    else if a.targetRatePrimaryUser < 0.0 || a.targetRatePrimaryUser > 2.0 then Failure(InvalidTargetRatePrimary)
    else if a.targetRateSecondaryUser < 0.0 || a.targetRateSecondaryUser > 2.0 then Failure(InvalidTargetRateSecondary)
    else if a.hardwIp < 0.0 || a.hardwIp > 1.0 then Failure(InvalidHardwareImpairment)
    else if a.sicIp < 0.0 || a.sicIp > 1.0 then Failure(InvalidSicImpairment)
    else if a.snrMin < 0.0 || a.snrMin > 15.0 then Failure(InvalidSnrMin)
    else if a.snrMax < 30.0 || a.snrMax > 80.0 then Failure(InvalidSnrMax)
    else if a.powerCoeffPrimary < a.powerCoeffSecondary then Failure(InvalidPowerOrder)
    else if
      var sumPower := a.powerCoeffPrimary + a.powerCoeffSecondary;
      sumPower < 0.0 || sumPower > 1.0
    then Failure(InvalidPowerSum)
    else Success(a)
  }

  /** Every accepted configuration has snr_min <= 15 < 30 <= snr_max, so its SNR range is not empty. */
  lemma AcceptedSnrRange(a: Args)
    requires Validation(a).Success?
    ensures a.snrMin <= 15.0 && 30.0 <= a.snrMax && a.snrMin < a.snrMax
  {
  }
}
