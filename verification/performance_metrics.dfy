/**
 * Per-sample performance metrics of the two-user NOMA downlink
 * (uavnoma/performance_metrics.py): the SINR and instantaneous rate of the
 * primary and the secondary user, the two-user average rate and the three
 * outage indicators.
 *
 * Argument order follows the source: the channel gain, the linear SNR, the
 * user's own power coefficient, the other user's, the hardware-impairment
 * coefficient and (secondary only) the imperfect-SIC coefficient. The SINR
 * functions are the source's expressions; what they guarantee is stated by
 * the lemmas after them.
 */
module PerformanceMetrics {
  import opened Elementary

  /** Denominator of the primary user's SINR: interference from the secondary's signal plus noise. */
  function PrimaryDenominator(h: real, snr: real, ps: real, hw: real): real
  {
    snr * h * (ps + hw * hw) + 1.0
  }

  /** Denominator of the secondary user's SINR: residual interference after imperfect SIC plus noise. */
  function SecondaryDenominator(h: real, snr: real, pp: real, hw: real, sic: real): real
  {
    snr * h * (pp * sic + hw * hw) + 1.0
  }

  /** SINR of the primary user, who decodes its own signal treating the secondary's as noise. */
  function SinrPrimary(h: real, snr: real, pp: real, ps: real, hw: real): real
    requires PrimaryDenominator(h, snr, ps, hw) != 0.0
  {
    (snr * h * pp) / PrimaryDenominator(h, snr, ps, hw)
  }

  /** SINR of the secondary user after successive interference cancellation. */
  function SinrSecondary(h: real, snr: real, ps: real, pp: real, hw: real, sic: real): real
    requires SecondaryDenominator(h, snr, pp, hw, sic) != 0.0
  {
    (snr * h * ps) / SecondaryDenominator(h, snr, pp, hw, sic)
  }

  /** Instantaneous rate of the primary user, ln(1 + SINR) in nats. */
  function RatePrimary(f: Funcs, h: real, snr: real, pp: real, ps: real, hw: real): real
    requires PrimaryDenominator(h, snr, ps, hw) != 0.0
  {
    f.ln(1.0 + SinrPrimary(h, snr, pp, ps, hw))
  }

  /** Instantaneous rate of the secondary user, ln(1 + SINR) in nats. */
  function RateSecondary(f: Funcs, h: real, snr: real, ps: real, pp: real, hw: real, sic: real): real
    requires SecondaryDenominator(h, snr, pp, hw, sic) != 0.0
  {
    f.ln(1.0 + SinrSecondary(h, snr, ps, pp, hw, sic))
  }

  /** The primary SINR regrouped as a*x / (b*x + 1), x being the SNR. */
  lemma PrimaryShape(h: real, snr: real, pp: real, ps: real, hw: real, a: real, b: real)
    requires a == h * pp && b == h * (ps + hw * hw)
    requires PrimaryDenominator(h, snr, ps, hw) != 0.0
    ensures PrimaryDenominator(h, snr, ps, hw) == b * snr + 1.0
    ensures SinrPrimary(h, snr, pp, ps, hw) == a * snr / (b * snr + 1.0)
  {
    assert snr * h * pp == a * snr;
    assert snr * h * (ps + hw * hw) == b * snr;
  }

  /** The secondary SINR regrouped as a*x / (b*x + 1), x being the SNR. */
  lemma SecondaryShape(h: real, snr: real, ps: real, pp: real, hw: real, sic: real, a: real, b: real)
    requires a == h * ps && b == h * (pp * sic + hw * hw)
    requires SecondaryDenominator(h, snr, pp, hw, sic) != 0.0
    ensures SecondaryDenominator(h, snr, pp, hw, sic) == b * snr + 1.0
    ensures SinrSecondary(h, snr, ps, pp, hw, sic) == a * snr / (b * snr + 1.0)
  {
    assert snr * h * ps == a * snr;
    assert snr * h * (pp * sic + hw * hw) == b * snr;
  }

  /**
   * With a non-negative SNR, gain and primary coefficient, and an interference
   * coefficient ps + hw^2 that is not negative (a negative ps is allowed down
   * to -hw^2), the primary denominator is at least 1, so the SINR is defined,
   * non-negative, and never above the interference-free value snr*h*pp.
   */
  lemma SinrPrimaryBounds(h: real, snr: real, pp: real, ps: real, hw: real)
    requires 0.0 <= h && 0.0 <= snr && 0.0 <= pp && 0.0 <= ps + hw * hw
    ensures 1.0 <= PrimaryDenominator(h, snr, ps, hw)
    ensures 0.0 <= SinrPrimary(h, snr, pp, ps, hw) <= snr * h * pp
  {
    var a, b := h * pp, h * (ps + hw * hw);
    MulNonNegative(h, pp);
    MulNonNegative(h, ps + hw * hw);
    SaturatingBounds(a, b, snr);
    PrimaryShape(h, snr, pp, ps, hw, a, b);
  }

  /** The same for the secondary user, whose interference is pp*sic + hw^2. */
  lemma SinrSecondaryBounds(h: real, snr: real, ps: real, pp: real, hw: real, sic: real)
    requires 0.0 <= h && 0.0 <= snr && 0.0 <= ps && 0.0 <= pp && 0.0 <= sic
    ensures 1.0 <= SecondaryDenominator(h, snr, pp, hw, sic)
    ensures 0.0 <= SinrSecondary(h, snr, ps, pp, hw, sic) <= snr * h * ps
  {
    var a, b := h * ps, h * (pp * sic + hw * hw);
    MulNonNegative(h, ps);
    MulNonNegative(pp, sic);
    MulNonNegative(h, pp * sic + hw * hw);
    SaturatingBounds(a, b, snr);
    SecondaryShape(h, snr, ps, pp, hw, sic, a, b);
  }

  /**
   * A secondary coefficient that may be negative, down to -hw^2, still leaves
   * the secondary denominator at least 1 and the argument 1 + SINR of the
   * logarithm positive; with a positive gain and SNR, a negative coefficient
   * makes the SINR itself negative.
   */
  lemma SinrSecondaryAboveMinusOne(h: real, snr: real, ps: real, pp: real, hw: real, sic: real)
    requires 0.0 <= h && 0.0 <= snr && 0.0 <= pp && 0.0 <= sic && 0.0 <= ps + hw * hw
    ensures 1.0 <= SecondaryDenominator(h, snr, pp, hw, sic)
    ensures 0.0 < 1.0 + SinrSecondary(h, snr, ps, pp, hw, sic)
    ensures ps < 0.0 && 0.0 < h && 0.0 < snr ==> SinrSecondary(h, snr, ps, pp, hw, sic) < 0.0
  {
    var x := snr * h;
    MulNonNegative(snr, h);
    MulNonNegative(pp, sic);
    MulNonNegative(x, pp * sic + hw * hw);
    MulNonNegative(x, ps + pp * sic + hw * hw);
    var d := SecondaryDenominator(h, snr, pp, hw, sic);
    assert d == x * (pp * sic + hw * hw) + 1.0;
    assert x * ps + d == x * (ps + pp * sic + hw * hw) + 1.0;
    ShiftedQuotientPositive(x * ps, d);
    assert SinrSecondary(h, snr, ps, pp, hw, sic) == (x * ps) / d;
    if ps < 0.0 && 0.0 < h && 0.0 < snr {
      MulPositive(snr, h);
      assert x * ps < 0.0;
    }
  }

  lemma ShiftedQuotientPositive(n: real, d: real)
    requires 0.0 < d && 0.0 < d + n
    ensures 0.0 < 1.0 + n / d
  {
    var q := n / d;
    assert q * d == n;
    assert (1.0 + q) * d == d + n;
    if 1.0 + q <= 0.0 {
      MulNonNegative(-(1.0 + q), d);
    }
  }

  /** With perfect SIC and ideal hardware the secondary user sees no interference at all. */
  lemma SinrSecondaryInterferenceFree(h: real, snr: real, ps: real, pp: real)
    ensures SecondaryDenominator(h, snr, pp, 0.0, 0.0) == 1.0
    ensures SinrSecondary(h, snr, ps, pp, 0.0, 0.0) == snr * h * ps
  {
    assert pp * 0.0 + 0.0 * 0.0 == 0.0;
    assert snr * h * 0.0 == 0.0;
  }

  /**
   * However large the SNR, interference caps the primary SINR at
   * pp / (ps + hw^2), the ceiling of NOMA's power-domain separation; a
   * negative ps is allowed as long as the interference ps + hw^2 is positive.
   */
  lemma SinrPrimaryCeiling(h: real, snr: real, pp: real, ps: real, hw: real)
    requires 0.0 < h && 0.0 <= snr && 0.0 <= pp && 0.0 < ps + hw * hw
    ensures 1.0 <= PrimaryDenominator(h, snr, ps, hw)
    ensures SinrPrimary(h, snr, pp, ps, hw) <= pp / (ps + hw * hw)
  {
    var a, b := h * pp, h * (ps + hw * hw);
    MulNonNegative(h, pp);
    MulPositive(h, ps + hw * hw);
    SaturatingBounds(a, b, snr);
    PrimaryShape(h, snr, pp, ps, hw, a, b);
    SaturatingCeiling(a, b, snr);
    CancelFactor(h, pp, ps + hw * hw);
  }

  lemma CancelFactor(h: real, p: real, q: real)
    requires 0.0 < h && 0.0 < q
    ensures (h * p) / (h * q) == p / q
  {
    MulPositive(h, q);
    var u := p / q;
    assert p == u * q;
    assert h * p == u * (h * q);
  }

  /**
   * With the gain and the coefficients fixed, the primary SINR does not
   * decrease as the SNR grows, for every interference ps + hw^2 >= 0.
   */
  lemma SinrPrimaryMonotone(h: real, pp: real, ps: real, hw: real, snr1: real, snr2: real)
    requires 0.0 <= h && 0.0 <= pp && 0.0 <= ps + hw * hw
    requires 0.0 <= snr1 <= snr2
    ensures 1.0 <= PrimaryDenominator(h, snr1, ps, hw) && 1.0 <= PrimaryDenominator(h, snr2, ps, hw)
    ensures SinrPrimary(h, snr1, pp, ps, hw) <= SinrPrimary(h, snr2, pp, ps, hw)
  {
    var a, b := h * pp, h * (ps + hw * hw);
    MulNonNegative(h, pp);
    MulNonNegative(h, ps + hw * hw);
    SaturatingBounds(a, b, snr1);
    SaturatingBounds(a, b, snr2);
    PrimaryShape(h, snr1, pp, ps, hw, a, b);
    PrimaryShape(h, snr2, pp, ps, hw, a, b);
    SaturatingMonotone(a, b, snr1, snr2);
  }

  /** With the gain and the coefficients fixed, the secondary SINR does not decrease as the SNR grows. */
  lemma SinrSecondaryMonotone(h: real, ps: real, pp: real, hw: real, sic: real, snr1: real, snr2: real)
    requires 0.0 <= h && 0.0 <= ps && 0.0 <= pp && 0.0 <= sic
    requires 0.0 <= snr1 <= snr2
    ensures 1.0 <= SecondaryDenominator(h, snr1, pp, hw, sic) && 1.0 <= SecondaryDenominator(h, snr2, pp, hw, sic)
    ensures SinrSecondary(h, snr1, ps, pp, hw, sic) <= SinrSecondary(h, snr2, ps, pp, hw, sic)
  {
    var a, b := h * ps, h * (pp * sic + hw * hw);
    MulNonNegative(h, ps);
    MulNonNegative(pp, sic);
    MulNonNegative(h, pp * sic + hw * hw);
    SaturatingBounds(a, b, snr1);
    SaturatingBounds(a, b, snr2);
    SecondaryShape(h, snr1, ps, pp, hw, sic, a, b);
    SecondaryShape(h, snr2, ps, pp, hw, sic, a, b);
    SaturatingMonotone(a, b, snr1, snr2);
  }

  /** Both instantaneous rates are non-negative for non-negative inputs. */
  lemma RatesNonNegative(f: Funcs, hp: real, hs: real, snr: real, pp: real, ps: real, hw: real, sic: real)
    requires LnLaw(f)
    requires 0.0 <= hp && 0.0 <= hs && 0.0 <= snr && 0.0 <= pp && 0.0 <= ps && 0.0 <= sic
    ensures 1.0 <= PrimaryDenominator(hp, snr, ps, hw)
    ensures 1.0 <= SecondaryDenominator(hs, snr, pp, hw, sic)
    ensures 0.0 <= RatePrimary(f, hp, snr, pp, ps, hw)
    ensures 0.0 <= RateSecondary(f, hs, snr, ps, pp, hw, sic)
  {
    SinrPrimaryBounds(hp, snr, pp, ps, hw);
    SinrSecondaryBounds(hs, snr, ps, pp, hw, sic);
  }

  /** The two-user average rate: the midpoint of the two instantaneous rates. */
  function AverageRate(rp: real, rs: real): (r: real)
    ensures r - rp == rs - r
    ensures (if rp <= rs then rp else rs) <= r <= (if rp <= rs then rs else rp)
    ensures 0.0 <= rp && 0.0 <= rs ==> 0.0 <= r
  {
    (rp + rs) / 2.0
  }

  /** The three outage indicators, in the order the source returns them. */
  datatype Outage = Outage(system: int, primary: int, secondary: int)

  /** A user is in outage when its rate falls strictly below its target; the system when either user is. */
  function OutageProbability(rp: real, rs: real, tp: real, ts: real): (o: Outage)
    ensures o.primary in {0, 1} && o.secondary in {0, 1} && o.system in {0, 1}
    ensures o.primary == 1 <==> rp < tp
    ensures o.secondary == 1 <==> rs < ts
    ensures o.system == 1 <==> o.primary == 1 || o.secondary == 1
    ensures o.system == (if o.primary <= o.secondary then o.secondary else o.primary)
  {
    var system := if rp < tp || rs < ts then 1 else 0;
    var primary := if rp < tp then 1 else 0;
    var secondary := if rs < ts then 1 else 0;
    Outage(system, primary, secondary)
  }
}
