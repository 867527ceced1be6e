# uavnoma in Dafny

A model of the deterministic core of the uavnoma simulator. uavnoma is a Monte Carlo
simulator of a two-user NOMA (non-orthogonal multiple access) downlink from an
unmanned aerial vehicle (UAV). In each trial the simulator does four things:

- draws a UAV position and two ground-user positions;
- generates Rician-faded channel gains and splits them between a primary and a
  secondary user;
- computes both users' SINR (signal to interference plus noise ratio) and
  achievable rate at every SNR value of a grid;
- records the outage indicators and the average rate in N x M arrays, whose
  column means it reports.

The model follows the code. Every random draw is an input. The transcendental
functions (ln, sqrt, cos, sin, real powers) are uninterpreted fields of
`Elementary.Funcs`, and each law a proof needs is a separate predicate:

- ln(y) >= 0 for y >= 1;
- sqrt is the non-negative root;
- cos^2 + sin^2 = 1;
- d^a > 0 for d > 0.

Arithmetic is over `real`.

Modules, one per source file:

| module | models |
|---|---|
| `PerformanceMetrics` | uavnoma/performance_metrics.py: the two SINR/rate formulas, `average_rate`, `outage_probability` |
| `GenerateValues` | uavnoma/generate_values.py: positions, Rician parameters, the `generate_channel` loop and its min/max split |
| `ParametersValidation` | uavnoma/parameters_validation.py: the guard chain |
| `CommandLine` | uavnoma/command_line.py: `validate`, the SNR grid, the trial x SNR loops into six arrays, the column means, the `i_max` scan |
| `PaUavnoma` | pauavnoma/uavnoma.py: `valuesGen` (descending sort, array-filling rate loops, fixed coefficients) and the outage loop of `main_values` |
| `PaScript` | pauavnoma/pauavnoma.py: `generate_Channel`, the primary rate with its active OMA fallback, the secondary rate, the whole `for mc` loop |
| `AdaptivePaRl` | uav-noma-adap-PA-rl.py: ascending sort, weak/strong SINRs with `ip_sic`, the nested `sn`/`ii` loops |
| `NomaRl` | uav-noma-RL.py: per-user SINR/rate, the 3-D outage array, the "any user" system flag, the weak-user flag |
| `Statistics`, `Sorting`, `Grids` | np.mean(axis=0), np.min/np.max, sorted/np.sort, np.array(range(a, b, 2)) |
| `Elementary`, `Wrappers` | the uninterpreted functions and their laws; `Option`/`Result` |

The variants disagree, and each is modelled as written:

- **Which user is primary.**
  - uavnoma/generate_values.py and uav-noma-adap-PA-rl.py give the primary (weak) user the smaller gain.
  - pauavnoma/*.py give the primary user the larger gain: the first entry of a descending sort.
- **Attenuation.** uavnoma/generate_values.py and uav-noma-RL.py divide by sqrt(d^a). The other scripts divide by sqrt(1 + d^a).
- **OMA fallback.** Only pauavnoma/pauavnoma.py runs the primary user's OMA (orthogonal multiple access) fallback. It is commented out in pauavnoma/uavnoma.py.

In a few places the code does not do what its own messages and comments say, and the model follows the code:

- **Power sum.** The error message at uavnoma/command_line.py:366 and the warning at pauavnoma/pauavnoma.py:70 both ask for 0 < sum ≤ 1. The guards accept a sum of exactly 0, and a negative secondary coefficient (see Findings).
- **OMA fallback.** pauavnoma/uavnoma.py:268-273 has the OMA block commented out. Its copy in pauavnoma/pauavnoma.py:241-243 is live.
- **User count.** `generate_channel` takes the number of users as an argument. It runs for any positive count. It fails for a negative count (the `np.zeros` of generate_values.py:134-135), for a zero count (the `np.min` of an empty h_n at generate_values.py:157-158) and for a user without a position (`GenerateValues.GenerateChannel`, whose `Err` cases are these three); only the validator insists on 2.

**The command runs the source's own `validate`.** Among the configurations it accepts, some have a negative secondary coefficient, and they fall into two groups:

- **ps ≥ −hw².** Every SINR denominator stays at least 1, and the command produces a full table (`CommandLine.RatesDefined`, `CommandLine.AsWrittenRunsNegativeSecondary`). The secondary SINR is then negative, and so may be the secondary rate (`PerformanceMetrics.SinrSecondaryAboveMinusOne`).
- **ps < −hw².** Some gain and SNR would make the primary denominator zero or negative (`CommandLine.RatesDefinedIff`), and numpy produces inf or nan there. Whether a run actually reaches such a cell depends on its draws. The model does not look at the draws: it reports every such configuration as `UndefinedRates`. That includes runs whose draws keep every denominator positive, which the source completes with a finite table (`CommandLine.UndefinedRatesCanBeFinite`); see "## Left out".

## Model

| member | source | states |
|---|---|---|
| PerformanceMetrics.PrimaryShape | uavnoma/performance_metrics.py:37-39 | the primary SINR is a·snr/(b·snr + 1), where a = h·pp and b = h·(ps + hw²) |
| PerformanceMetrics.SecondaryShape | uavnoma/performance_metrics.py:73-75 | the secondary SINR is a·snr/(b·snr + 1), where a = h·ps and b = h·(pp·sic + hw²) |
| PerformanceMetrics.SinrPrimaryBounds | uavnoma/performance_metrics.py:37-42 | for non-negative h, snr and pp, and ps ≥ −hw², the denominator is ≥ 1 and 0 ≤ SINR ≤ snr·h·pp |
| PerformanceMetrics.SinrSecondaryBounds | uavnoma/performance_metrics.py:73-78 | for non-negative h, snr, ps, pp and sic, the denominator is ≥ 1 and 0 ≤ SINR ≤ snr·h·ps |
| PerformanceMetrics.SinrSecondaryAboveMinusOne | uavnoma/performance_metrics.py:73-78 | for non-negative h, snr, pp and sic, and ps ≥ −hw², the denominator is ≥ 1 and 1 + SINR > 0; a negative ps with positive h and snr makes the SINR negative |
| PerformanceMetrics.SinrSecondaryInterferenceFree | uavnoma/performance_metrics.py:73-75 | with perfect SIC and ideal hardware, the denominator is 1 and the SINR is snr·h·ps |
| PerformanceMetrics.SinrPrimaryCeiling | uavnoma/performance_metrics.py:37-39 | whatever the SNR, the primary SINR never exceeds pp/(ps + hw²), for every positive interference ps + hw², so ps may be negative |
| PerformanceMetrics.SinrPrimaryMonotone | uavnoma/performance_metrics.py:37-39 | with the gain and coefficients fixed, the primary SINR does not decrease as the SNR grows, for h, pp ≥ 0 and ps ≥ −hw² |
| PerformanceMetrics.SinrSecondaryMonotone | uavnoma/performance_metrics.py:73-75 | with the gain and coefficients fixed, the secondary SINR does not decrease as the SNR grows |
| PerformanceMetrics.RatesNonNegative | uavnoma/performance_metrics.py:11-80 | under the law of ln, both rates ln(1 + SINR) are ≥ 0 for non-negative inputs |
| PerformanceMetrics.AverageRate | uavnoma/performance_metrics.py:96-101 | the result is equidistant from both rates, lies between their minimum and maximum, and is ≥ 0 when both are |
| PerformanceMetrics.OutageProbability | uavnoma/performance_metrics.py:123-142 | all three flags are 0/1; primary = 1 iff rp < tp; secondary = 1 iff rs < ts; system = 1 iff either user is 1, so it is their maximum; the order is (system, primary, secondary) |
| GenerateValues.Uniform | uavnoma/generate_values.py:37 | np.random.uniform(lo, hi) of a sample in [0, 1) lies in [lo, hi), and in [lo, hi] when lo ≤ hi |
| GenerateValues.PolarPointOnCircle | uavnoma/generate_values.py:33-36 | under cos² + sin² = 1, the point (rho·cos θ, rho·sin θ) satisfies x² + y² = rho² |
| GenerateValues.RandomPositionUavBounds | uavnoma/generate_values.py:33-38 | the UAV height lies in [h − 5, h + 5), and the UAV lies on the trajectory circle |
| GenerateValues.UserPositionInDisc | uavnoma/generate_values.py:61-64 | a user with u in [0, 1) lies at squared distance u·R² ≤ R² from the centre |
| GenerateValues.RandomPositionUsers | uavnoma/generate_values.py:61-65 | there is one position per angle/radius sample pair, each the polar point of that pair |
| GenerateValues.FadingRicianIdentities | uavnoma/generate_values.py:81-83 | for K, P ≥ 0: s ≥ 0 with s² = K·P/(K + 1); sigma ≥ 0 with sigma²·2(K + 1) = P²; sigma > 0 when P > 0 |
| GenerateValues.SmallScalePowerNonNegative | uavnoma/generate_values.py:140-143 | the small-scale power \|sqrt(a² + j·b²)\|² is ≥ 0 |
| GenerateValues.UserDistanceBounds | uavnoma/generate_values.py:145-147 | d² = dx² + dy² + z² ≥ z², \|z\| ≤ d, and d > 0 when z ≠ 0 |
| GenerateValues.LargeScaleFadingPositive | uavnoma/generate_values.py:149 | sqrt(d^a) > 0 for d > 0 |
| GenerateValues.UserGainNonNegative | uavnoma/generate_values.py:149-155 | each gain \|h / sqrt(d^a)\|² is defined and ≥ 0 |
| GenerateValues.DistancePositive | uavnoma/generate_values.py:145-149 | with the UAV off the ground, every distance and attenuation is positive |
| GenerateValues.Gain | uavnoma/generate_values.py:152-155 | the gain of user k of a scene is ≥ 0 |
| GenerateValues.Gains | uavnoma/generate_values.py:134-155 | n gains, entry k being user k's gain, all ≥ 0 |
| GenerateValues.FillGains | uavnoma/generate_values.py:134-155 | the `for uu` loop succeeds iff every user has a position; then h_n is exactly `Gains` and distance[k] is user k's distance |
| GenerateValues.GenerateChannel | uavnoma/generate_values.py:134-160 | negative count, missing position and empty-min errors as in numpy; otherwise primary = min(h_n) and secondary = max(h_n), both entries of h_n, with 0 ≤ primary ≤ secondary |
| ParametersValidation.AcceptedIffNoGuardFails | uavnoma/parameters_validation.py:7-74 | the accepted ranges hold exactly when no guard fails |
| ParametersValidation.FailingGuard | uavnoma/parameters_validation.py:7-74 | a configuration outside the ranges fails some guard of the source |
| ParametersValidation.Validation | uavnoma/parameters_validation.py:5-79 | success iff accepted, returning the arguments unchanged; on failure, the error names a guard that fails while every earlier guard passes (its stderr text is `Message`, the exit status `ExitStatus` = 1) |
| ParametersValidation.AcceptedSnrRange | uavnoma/parameters_validation.py:59-65 | every accepted configuration has snr_min ≤ 15 < 30 ≤ snr_max |
| CommandLine.FirstViolation | uavnoma/command_line.py:300-367 | None iff no guard of the list fails; otherwise the first failing guard, with all earlier guards passing |
| CommandLine.FirstViolationIsLowestRank | uavnoma/command_line.py:300-367 | the first failing guard of the ordered list is the failing guard of lowest rank |
| CommandLine.Validate | uavnoma/command_line.py:295-369 | `validate` gives the same result as `validation` on every configuration |
| CommandLine.ValidateIntended | uavnoma/command_line.py:360-367 | the corrected validator: success iff accepted with ps ≥ 0; every rejection of the source is kept; the only new rejection is the negative secondary coefficient |
| CommandLine.IntendedPowerCoefficients | uavnoma/command_line.py:360-367 | under the corrected validator, 0 ≤ ps ≤ pp ≤ 1 |
| CommandLine.DefaultArgsAccepted | uavnoma/command_line.py:71-137 | both validators accept the argument defaults |
| CommandLine.AsWrittenValidationAdmitsUndefinedRate | uavnoma/command_line.py:360-367 | the source accepts pp = 0.5, ps = −0.5; with gain 0.4 at 10 dB, the primary denominator is −1 and so is the argument of np.log |
| CommandLine.IntendedRatesDefined | uavnoma/command_line.py:188-203 | under the corrected validator, the rates are defined (`RatesDefined`), both denominators are ≥ 1, and the SINRs and rates are ≥ 0 |
| CommandLine.RatesDefinedIff | uavnoma/command_line.py:188-203 | for an accepted configuration, ps ≥ −hw² holds iff no non-negative gain and SNR make the primary denominator ≤ 0; the secondary denominator is always ≥ 1 |
| CommandLine.UndefinedRatesCanBeFinite | uavnoma/command_line.py:185-203 | pp = 0.8, ps = −0.01001 (hw = 0.1) is accepted and not `RatesDefined`, yet every gain ≤ 0.01 at every linear SNR ≤ 10⁶ keeps the primary denominator ≥ 0.9 and the secondary one ≥ 1 |
| CommandLine.AsWrittenRunsNegativeSecondary | uavnoma/command_line.py:360-367 | pp = 0.5, ps = −0.005 (hw = 0.1) pass validate, fail the corrected validator, and keep every rate defined |
| CommandLine.Linspace | uavnoma/command_line.py:148 | np.linspace returns num values |
| CommandLine.LinspaceAscending | uavnoma/command_line.py:148 | the grid starts at snr_min, ends at snr_max, lies between them and ascends |
| CommandLine.SceneOf | uavnoma/command_line.py:162-169 | one x and one y per user sample |
| CommandLine.SceneAirborne | uavnoma/command_line.py:162-164 | for every configuration validate accepts, the mean height keeps the UAV at least 5 m above the ground |
| CommandLine.TrialPair | uavnoma/command_line.py:172-182 | for every configuration validate accepts, each trial's gains satisfy 0 ≤ primary ≤ secondary |
| CommandLine.SampleFacts | uavnoma/command_line.py:188-214 | per cell, whenever the rates are defined: the indicators are 0/1; the system flag is at least each user's and at most their sum; the average is the midpoint; under the law of ln the primary rate is ≥ 0, and so are the others when ps ≥ 0 |
| CommandLine.SnrGrid | uavnoma/command_line.py:148-149 | snr_samples linear values, all positive under the law of powers |
| CommandLine.Samples | uavnoma/command_line.py:185-214 | one value of the metric per trial |
| CommandLine.MetricMeans | uavnoma/command_line.py:219-236 | one mean per SNR value |
| CommandLine.OutageColumnProperties | uavnoma/command_line.py:209-225 | each outage mean lies in [0, 1]; the system's is at least each user's and at most their sum |
| CommandLine.RateColumnProperties | uavnoma/command_line.py:205-236 | the mean average rate is half the sum of the users' mean rates; under the law of ln the primary mean rate is ≥ 0, and so are the others when ps ≥ 0 |
| CommandLine.ReportProperties | uavnoma/command_line.py:219-241 | the reported table of every run: probabilities in [0, 1]; system dominance; the midpoint of the mean rates; a non-negative primary rate, and non-negative secondary and average rates when ps ≥ 0; the SNR column ascends from snr_min to snr_max |
| CommandLine.WriteRow | uavnoma/command_line.py:185-214 | the `for sn` loop writes row mc of all six arrays with the metrics of the trial's pair and leaves every other row unchanged |
| CommandLine.RecordRow | uavnoma/command_line.py:185-214 | after one trial's row, the arrays hold the metrics of every pair so far |
| CommandLine.TrialChannel | uavnoma/command_line.py:161-182 | the trial's positions, fading and `generate_channel` give its pair, with 0 ≤ primary ≤ secondary |
| CommandLine.RunTrial | uavnoma/command_line.py:160-214 | one pass of the `for mc` loop extends the filled rows by the trial's pair |
| CommandLine.Allocate | uavnoma/command_line.py:150-155 | six fresh, distinct N x M arrays |
| CommandLine.RunTrials | uavnoma/command_line.py:150-214 | every cell (i, j) of the six arrays holds metric m of trial i at SNR value j |
| CommandLine.Simulate | uavnoma/command_line.py:140-241 | a configuration `validate` rejects gives its error; a negative snr_samples fails; an accepted one with ps < −hw² gives `UndefinedRates`; every configuration the corrected validator accepts succeeds; success iff the run is defined, and the result is exactly the table of column means |
| CommandLine.MeansMatch | uavnoma/command_line.py:219-236 | the column means of a filled array are the expected per-SNR means |
| CommandLine.PlotUpperIndex | uavnoma/command_line.py:273-279 | i_max ≥ 1 when there are ≥ 2 values; both outage means are 0 above i_max; i_max is the start of the trailing zero run, or the last index when there is none |
| PaUavnoma.InitParameters | pauavnoma/uavnoma.py:26-83 | its values pass its own assertions; the grid is 10, 12, …, 40 dB (16 values); linear values are positive |
| PaUavnoma.GeneratePowerCoeff | pauavnoma/uavnoma.py:85-107 | (0.6, 0.4): secondary ≤ primary, the sum lies in (0, 1], secondary > 0 |
| PaUavnoma.RandomPositionUavOnCircle | pauavnoma/uavnoma.py:130-135 | height 20.0, on the trajectory circle |
| PaUavnoma.AttenuationSquare | pauavnoma/uavnoma.py:219 | the squared attenuation is 1 + d^a > 1 |
| PaUavnoma.UserGain | pauavnoma/uavnoma.py:215-221 | each gain \|coeff\|²/(1 + d^a) is ≥ 0 |
| PaUavnoma.Gains | pauavnoma/uavnoma.py:207-221 | n gains, entry k being user k's gain |
| PaUavnoma.SortKeepsElements | pauavnoma/uavnoma.py:223 | a value is in the sorted gains iff it is in h_n |
| PaUavnoma.DescendingEnds | pauavnoma/uavnoma.py:223 | sorted(reverse=True) starts with max(h_n) and ends with min(h_n); for two users result[0] ≥ result[1] |
| PaUavnoma.FillGains | pauavnoma/uavnoma.py:207-221 | writes distance[uu] and h_n[uu] for each user and nothing else |
| PaUavnoma.GenerateChannel | pauavnoma/uavnoma.py:163-224 | missing positions fail; otherwise the result is the descending sort of h_n, first entry max and last entry min |
| PaUavnoma.RatePrimaryBounds | pauavnoma/uavnoma.py:262-267 | the denominator, which uses the secondary gain, is ≥ 1; SINR ≥ 0 and rate ≥ 0; with equal gains it equals the later release's SINR |
| PaUavnoma.CalculateRatePrimary | pauavnoma/uavnoma.py:256-274 | one rate per SNR value, each ln(1 + SINR) with the channelSec denominator, and each ≥ 0 |
| PaUavnoma.CalculateRateSecondary | pauavnoma/uavnoma.py:296-308 | one rate per SNR value, each the secondary rate, and each ≥ 0 |
| PaUavnoma.RecordOutages | pauavnoma/uavnoma.py:424-449 | row mc gets the three 0/1 outage flags (system = OR of the users) and the average (rp + rs)/2; other rows are unchanged |
| PaUavnoma.SameDrawsOrdered | pauavnoma/uavnoma.py:375-400 | if both calls saw the same draws, primary ≥ secondary |
| PaUavnoma.CancellingDrawNoPower | pauavnoma/uavnoma.py:211-214 | an in-phase sample cancelling the mean gives zero small-scale power |
| PaUavnoma.UnitDrawUnitPower | pauavnoma/uavnoma.py:211-214 | an in-phase sample lifting the amplitude to 1 gives positive power |
| PaUavnoma.GainSign | pauavnoma/uavnoma.py:211-221 | a gain is 0 iff its small-scale power is 0, and positive iff that power is positive |
| PaUavnoma.CancellingDrawsNoGain | pauavnoma/uavnoma.py:375-387 | with cancelling draws, np.max of the first call is 0 |
| PaUavnoma.UnitDrawsPositiveGain | pauavnoma/uavnoma.py:388-400 | with unit draws, np.min of the second call is positive |
| PaUavnoma.SeparateDrawsUnordered | pauavnoma/uavnoma.py:375-400 | with two separate calls, primary < secondary can happen |
| PaScript.ScriptParameters | pauavnoma/pauavnoma.py:24-56 | its values pass its asserts; the grid is 10, 12, …, 50 dB (21 values), each linear value 10^(dB/10) and positive |
| PaScript.GeneratePowerCoeff | pauavnoma/pauavnoma.py:59-76 | (0.8, 0.2): secondary < primary, the sum lies in (0, 1] |
| PaScript.RandomPositionUavOnCircle | pauavnoma/pauavnoma.py:120-125 | height 30.0, on the trajectory circle |
| PaScript.SceneOf | pauavnoma/pauavnoma.py:83-152 | one x and one y per user; the UAV is off the ground |
| PaScript.GenerateChannel | pauavnoma/pauavnoma.py:191-198 | writes h_n[uu] and distance[uu] for each user and nothing else; returns h_n sorted descending, first entry max, last min |
| PaScript.NomaSinrIdealHardware | pauavnoma/pauavnoma.py:238 | the NOMA SINR is pauavnoma/uavnoma.py's with hw = 0, and lies in [0, snr·hp·pp] |
| PaScript.PrimaryRateCases | pauavnoma/pauavnoma.py:236-244 | each entry is either a NOMA rate ≥ target or, when NOMA misses it, the OMA rate 0.5·ln(1 + snr·hp), never a NOMA rate below target; entries are ≥ 0 |
| PaScript.FallbackOutage | pauavnoma/pauavnoma.py:241-243 | after the fallback, the primary user is below target iff both NOMA and OMA are |
| PaScript.CalculateRatePrimary | pauavnoma/pauavnoma.py:236-244 | each sinr_primary[sn] and inst_rate_primary[sn] is the post-fallback value |
| PaScript.SecondaryRateFacts | pauavnoma/pauavnoma.py:264-268 | the secondary SINR is the later release's with no SIC or hardware term; it and the rate are ≥ 0 |
| PaScript.CalculateRateSecondary | pauavnoma/pauavnoma.py:264-268 | each sinr_secondary[sn] and inst_rate_secondary[sn] is the interference-free value |
| PaScript.CopyRow | pauavnoma/pauavnoma.py:270-271 | x[mc, :] = row sets row mc and nothing else |
| PaScript.TrialPair | pauavnoma/pauavnoma.py:200-201 | both gains of a trial are ≥ 0 |
| PaScript.TrialChannel | pauavnoma/pauavnoma.py:154-201 | the two `generate_Channel` calls give max of the first and min of the second |
| PaScript.TrialRates | pauavnoma/pauavnoma.py:209-294 | row mc holds the trial's rates, outage flags and average; other rows are unchanged |
| PaScript.RecordTrial | pauavnoma/pauavnoma.py:270-294 | rows 0..mc hold the metrics of their trials' pairs |
| PaScript.RunTrial | pauavnoma/pauavnoma.py:98-294 | one pass of `for mc`: rows 0..mc hold their trials' metrics |
| PaScript.RunTrials | pauavnoma/pauavnoma.py:87-294 | six distinct N_mc x 21 arrays; row i holds trial i's metrics |
| PaScript.RecordedColumn | pauavnoma/pauavnoma.py:274-313 | the column means: outage in [0, 1]; system between each user's and their sum; mean average = midpoint of the mean rates |
| PaScript.ScriptMeans | pauavnoma/pauavnoma.py:301-313 | the same for every SNR column of the script's arrays; mean rates are ≥ 0 under the law of ln |
| AdaptivePaRl.SnrLinear | uav-noma-adap-PA-rl.py:20-21 | 21 values, 10^(dB/10) of 10, 12, …, 50 dB, all positive |
| GenerateValues.CircleScene | uav-noma-adap-PA-rl.py:57-68 | the scene of a script with a fixed UAV height (uav-noma-adap-PA-rl.py, uav-noma-RL.py): one x and one y per user, the UAV at the script's height |
| AdaptivePaRl.AscendingEnds | uav-noma-adap-PA-rl.py:80 | np.sort is ascending: H_rn[0] = min ≤ H_rn[1] = max |
| AdaptivePaRl.SinrsAreReleaseSinrs | uav-noma-adap-PA-rl.py:91-95 | the weak SINR is the primary SINR with hw = 0, the strong SINR the secondary SINR with sic = ip_sic; both are ≥ 0 |
| AdaptivePaRl.TrialGains | uav-noma-adap-PA-rl.py:72-80 | 0 ≤ weak gain ≤ strong gain |
| AdaptivePaRl.RatesNonNegative | uav-noma-adap-PA-rl.py:91-95 | the strong rate is ln(1 + snr·H1·0.2) when ip_sic = 0; both rates are ≥ 0 |
| AdaptivePaRl.TrialRow | uav-noma-adap-PA-rl.py:89-113 | for any number ≥ 1 of `ii` passes, row mc holds the same metrics: the body does not depend on ii; with 0 passes nothing changes |
| AdaptivePaRl.WriteCell | uav-noma-adap-PA-rl.py:90-113 | one `ii` body writes cell (mc, sn): the weak and strong SINR into the scratch arrays at sn, the rates, outage flags (system = weak < 0.5 or strong < 1.0) and average; no other cell changes |
| AdaptivePaRl.TrialChannel | uav-noma-adap-PA-rl.py:57-80 | positions, the `for uu` loop and np.sort give the trial's weak/strong gains |
| AdaptivePaRl.RunTrial | uav-noma-adap-PA-rl.py:57-113 | rows 0..mc hold their trials' metrics |
| AdaptivePaRl.RunTrials | uav-noma-adap-PA-rl.py:44-113 | six distinct N_mc x 21 arrays; row i holds trial i's metrics |
| AdaptivePaRl.ScriptMeans | uav-noma-adap-PA-rl.py:117-147 | outage means in [0, 1], system between each user's and their sum, mean average = midpoint, mean rates ≥ 0 |
| NomaRl.SnrLinear | uav-noma-RL.py:20-21 | 21 values, 10^(dB/10) of 0, 2, …, 40 dB, all positive |
| GenerateValues.CircleSceneOnTrajectory | uav-noma-RL.py:56-67 | the UAV of such a scene lies on its trajectory circle, and is off the ground iff the script's height is not 0 |
| NomaRl.AttenuationPositive | uav-noma-RL.py:76 | sqrt(d^a) > 0 |
| NomaRl.Magnitudes | uav-noma-RL.py:78 | np.abs(h)**0.5 is ≥ 0 and its square is \|h\| |
| NomaRl.Coefficients | uav-noma-RL.py:72-76 | entry k is user k's coefficient |
| NomaRl.TrialGains | uav-noma-RL.py:69-78 | two gains, H_ru[0] ≤ H_ru[1], both ≥ 0 |
| NomaRl.SortedNonNegative | uav-noma-RL.py:78 | sorting keeps the length and the non-negativity |
| NomaRl.FillCoefficients | uav-noma-RL.py:69-76 | h_ru and distance hold each user's coefficient and distance |
| NomaRl.TrialChannel | uav-noma-RL.py:56-78 | a trial's positions and `for uu` loop give its sorted gains |
| NomaRl.UserSinr | uav-noma-RL.py:84 | snr·H·α is ≥ 0, and 0 when any factor is |
| NomaRl.UserRateNonNegative | uav-noma-RL.py:85 | inst_rate ≥ 0 under the law of ln |
| NomaRl.Flags | uav-noma-RL.py:87-90 | out_probability[mc, sn, ii] = 1 iff inst_rate[sn, ii] < target_rate[ii], else 0 |
| NomaRl.AnyFlagSum | uav-noma-RL.py:100-103 | a sum of 0/1 flags is ≥ 1 iff some flag is 1 |
| NomaRl.SystemFlagAnyUser | uav-noma-RL.py:87-103 | the system flag is 1 iff some user misses its target, and it is 0 or 1 |
| NomaRl.WeakFlagIsSystemFlag | uav-noma-RL.py:92-103 | from np.zeros, the weak-user flag of two users equals the system flag |
| NomaRl.UserFlags | uav-noma-RL.py:83-90 | the `for ii` loop writes each user's SINR into the scratch sinr row sn, each rate and flag of cell (mc, sn) and no other cell of out_probability |
| NomaRl.WriteSnr | uav-noma-RL.py:82-103 | one `for sn` body writes the flags, weak flag and system flag of cell (mc, sn); no other cell changes |
| NomaRl.TrialRow | uav-noma-RL.py:79-103 | row mc holds the trial's flags; other rows are unchanged |
| NomaRl.RecordTrial | uav-noma-RL.py:82-103 | rows 0..mc hold their trials' flags; later weak-user rows stay 0 |
| NomaRl.RunTrial | uav-noma-RL.py:56-103 | one pass of `for mc` keeps that invariant |
| NomaRl.Allocate | uav-noma-RL.py:46-52 | np.zeros arrays of the script's shapes, all zero |
| NomaRl.RunTrials | uav-noma-RL.py:46-103 | row i holds trial i's flags; out_probability_strong_user stays all zeros |
| NomaRl.ScriptMeans | uav-noma-RL.py:100-105 | weak-user cell = system cell; each is 0/1 and 1 iff some user flag is 1; out_prob_mean is in [0, 1] and equals the weak-user column mean |
| Statistics.Min | uavnoma/generate_values.py:157 | np.min is an entry below all entries |
| Statistics.Max | uavnoma/generate_values.py:158 | np.max is an entry above all entries |
| Statistics.ColumnMeans | uavnoma/command_line.py:219-236 | np.mean(axis=0): entry j is the mean of column j |
| Statistics.MeanOfIndicators | uavnoma/command_line.py:219-225 | the mean of 0/1 values lies in [0, 1] |
| Statistics.MeanBetween | uavnoma/command_line.py:219-225 | pointwise a ≤ b ≤ a + c carries over to the means |
| Statistics.MeanOfMidpoints | uavnoma/command_line.py:230-236 | the mean of pointwise midpoints is the midpoint of the means |
| Sorting.Sort | pauavnoma/uavnoma.py:223 | a permutation of the input, ordered in the chosen direction |
| Sorting.OrderedUnique | pauavnoma/uavnoma.py:223 | two ordered permutations of the same values are equal, so `Sort` is the one result of sorted/np.sort |
| Grids.Range | pauavnoma/uavnoma.py:62 | range(start, stop, 2) as reals: entry i is start + 2i, every entry in [start, stop) |

The formula definitions themselves have no rows of their own. Each is listed through the lemma or method row that states its property and names it:
- `PerformanceMetrics.SinrPrimary`, `SinrSecondary`, `RatePrimary` and `RateSecondary`;
- `GenerateValues.FadingRician`, `UserGain`, `RandomPositionUav` and `UserPosition`;
- `PaUavnoma.MainGains`;
- `PaScript.PrimaryRate`, `PrimarySinr` and `SecondaryRate`;
- `NomaRl.Coefficient`, `SystemFlag` and `WeakFlag`;
- `AdaptivePaRl.WeakSinr` and `StrongSinr`.

## Left out

- **Randomness.** The random number generator and its seeding (uavnoma/parameters_validation.py:76-77, uavnoma/command_line.py:144-145) are left out. The uniform and normal samples are inputs, and no distributional claim is made.
- **Floating point.** IEEE rounding, NaN and numpy's warnings are not modelled. The arithmetic is over unbounded reals.
- **Transcendentals.** ln, sqrt, cos, sin and powers are uninterpreted, and only the laws listed above are known about them. `x**0.5` (uav-noma-RL.py:78) is modelled as sqrt.
- **Argument parsing, printing and output.** Argument parsing is left out; the record of arguments is an input. Also left out: `tabulate` printing, the pandas CSV export, matplotlib plotting and the text-file dumps. The DataFrame at uavnoma/command_line.py:240-247 is modelled as a record of seven columns.
- **Commented-out code.** The OMA branch of pauavnoma/uavnoma.py:268-273 is a comment, so it is not modelled.
- **Complex values (uav-noma-RL.py).** At uav-noma-RL.py:76, a complex coefficient goes into a real numpy array, and numpy keeps only its real part. `NomaRl.Coefficient` models exactly that real part.
- **Unused arrays.** These are allocated but never written, so they are not modelled:
  - rate_us, rate_uw and average_rate (uav-noma-RL.py:46-47,52);
  - rate_us, rate_uw and the 3-D out_probability (uav-noma-adap-PA-rl.py:45-47);
  - the 3-D out_probability (pauavnoma/pauavnoma.py:88).
- **Loop length from an unused argument.** The primary-rate loop of pauavnoma/pauavnoma.py:236 and the secondary-rate loop of pauavnoma/pauavnoma.py:264 take their length from the snrValuesdB argument, which has the same length as snr_linear. `PaScript.CalculateRatePrimary` and `PaScript.CalculateRateSecondary` loop over snr_linear.
- **Division by zero.** `GenerateValues.FadingRician`, `GenerateValues.UserGain`, `PaUavnoma.GainAt` and `PaUavnoma.SinrPrimary` require their denominators to be non-zero. The source has no guard there, and the callers prove the requirement (`Airborne`, `PowLaw`, the non-negative coefficients).
- **Array sizes.** `PaUavnoma.FillGains` and `PaScript.GenerateChannel` require that the arrays hold number_user entries. In the source they are allocated with that size just before the loop.
- **Message texts.** The height message says 40, where the guard allows up to 50. The target messages say 0.1, where the guards allow 0. The sum message says "0.0 < value", where sum 0 passes. `ParametersValidation.Message` keeps the texts and the guards as written.
- **Tests.** tests/test_pauavnoma.py compares the height with a z_r of 30, while pauavnoma/uavnoma.py:134 returns 20.0. The model follows the code (`PaUavnoma.RandomPositionUavOnCircle`).
- **CommandLine.Simulate: a negative secondary coefficient below −hw².** `validate` accepts these configurations.
  - For some non-negative gain and SNR, the primary SINR's denominator is then zero or negative (`CommandLine.RatesDefinedIff`). numpy yields inf there, or nan from np.log of a negative number, and neither is a real number.
  - The model decides per configuration, not per draw: it returns `UndefinedRates` for every such configuration.
  - The source decides per draw. When a run's drawn gains and its SNR grid keep every denominator positive, the source completes it with a finite table (for example ps = −0.01001 with gains up to 0.01, `CommandLine.UndefinedRatesCanBeFinite`). The model rejects those runs too, so it gives no table for them.
  - Configurations with ps ≥ −hw² run as in the source.
- **CommandLine.Linspace:** only the length is stated in its contract. The values start + i·(stop − start)/(num − 1) are stated by `LinspacePoint` and `LinspaceAscending`, not by `Linspace` itself.

## Findings

| source | as written | input that shows it | evidently intended | confidence | as-written member | corrected member |
|---|---|---|---|---|---|---|
| uavnoma/command_line.py:360-367 (same guards in uavnoma/parameters_validation.py:67-74) | only pp ≥ ps and 0 ≤ pp + ps ≤ 1 are checked, so a negative secondary power coefficient passes | pp = 0.5, ps = −0.5, hw = 0, gain 0.4 at 10 dB: the primary SINR denominator is −1, and np.log gets −1 | both coefficients lie in [0, 1], so every SINR denominator is ≥ 1: the sum message at uavnoma/command_line.py:366 says "0.0 < value", and pauavnoma/pauavnoma.py:70 warns "0 <sum(power) <= 1" with both coefficients positive in its example | high (not executed) | CommandLine.AsWrittenValidationAdmitsUndefinedRate | CommandLine.ValidateIntended |
