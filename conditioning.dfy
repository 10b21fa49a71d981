/** Signal conditioning for the three ATX rails: averaging raw ADC codes into a
    pin voltage, reconstructing the rail voltage through the resistive divider,
    applying the per-rail calibration multiplier, and deciding PSU presence.
    Voltages are exact reals; the controller's float rounding is not modelled. */
module Conditioning {

  /** The three rails of the supply under test. */
  datatype Rail = Rail12 | Rail5 | Rail3

  /** Measured ADC reference voltage. */
  const ADC_REF_V: real := 5.0
  /** The divisor that turns a mean code into a pin voltage. */
  const ADC_FULL_SCALE: real := 1023.0
  /** Largest code the 10-bit converter returns. */
  const MAX_CODE: int := 1023
  /** Samples averaged per rail per cycle (the default argument of the sampler). */
  const SAMPLES: nat := 10

  // Measured divider resistors, in ohms.
  const MB12_R_TOP: real := 6730.0
  const MB12_R_BOTTOM: real := 3238.0
  const MB5_R_TOP: real := 9890.0
  const MB5_R_BOTTOM: real := 10000.0
  const MB3_R_TOP: real := 10020.0
  const MB3_R_BOTTOM: real := 9860.0

  // Empirical calibration multipliers applied after the divider reconstruction.
  const CAL12: real := 1.0025
  const CAL5: real := 1.0163
  const CAL3: real := 0.9906

  /** The supply counts as on when the 12 V reconstruction exceeds this. */
  const PSU_ON_THRESHOLD: real := 1.0

  function TopResistance(r: Rail): real
  {
    match r
    case Rail12 => MB12_R_TOP
    case Rail5 => MB5_R_TOP
    case Rail3 => MB3_R_TOP
  }

  function BottomResistance(r: Rail): real
  {
    match r
    case Rail12 => MB12_R_BOTTOM
    case Rail5 => MB5_R_BOTTOM
    case Rail3 => MB3_R_BOTTOM
  }

  function Calibration(r: Rail): real
  {
    match r
    case Rail12 => CAL12
    case Rail5 => CAL5
    case Rail3 => CAL3
  }

  /** A code the converter can actually return. */
  predicate ValidCode(c: int)
  {
    0 <= c <= MAX_CODE
  }

  /** Sum of the codes, accumulated front to back as the sampling loop does. */
  function Sum(codes: seq<int>): int
  {
    if codes == [] then 0 else Sum(codes[..|codes| - 1]) + codes[|codes| - 1]
  }

  /** The voltage at the analog pin: the mean code scaled by reference over full scale. */
  function PinVoltage(codes: seq<int>): real
    requires |codes| > 0
  {
    (Sum(codes) as real / |codes| as real) * ADC_REF_V / ADC_FULL_SCALE
  }

  lemma {:induction false} SumBounds(codes: seq<int>)
    requires forall i :: 0 <= i < |codes| ==> ValidCode(codes[i])
    ensures 0 <= Sum(codes) <= MAX_CODE * |codes|
  {
    if codes != [] {
      SumBounds(codes[..|codes| - 1]);
    }
  }

  /** Sum of n copies of one code. */
  lemma {:induction false} SumConstant(c: int, n: nat)
    ensures Sum(seq(n, _ => c)) == c * n
  {
    if n > 0 {
      assert seq(n, _ => c)[..n - 1] == seq(n - 1, _ => c);
      SumConstant(c, n - 1);
    }
  }

  /** With every code in range the pin voltage lies between 0 and the reference. */
  lemma PinVoltageBounds(codes: seq<int>)
    requires |codes| > 0
    requires forall i :: 0 <= i < |codes| ==> ValidCode(codes[i])
    ensures 0.0 <= PinVoltage(codes) <= ADC_REF_V
  {
    SumBounds(codes);
    var n := |codes| as real;
    var s := Sum(codes) as real;
    assert s <= 1023.0 * n;
    var avg := s / n;
    assert avg * n == s;
    assert 0.0 <= avg <= 1023.0;
  }

  /** Samples the pin |codes| times and returns the averaged pin voltage. */
  method ReadAnalogAveraged(codes: seq<int>) returns (v: real)
    requires |codes| > 0
    ensures v == PinVoltage(codes)
    ensures (forall i :: 0 <= i < |codes| ==> ValidCode(codes[i])) ==> 0.0 <= v <= ADC_REF_V
  {
    var sum := 0;
    for i := 0 to |codes|
      invariant sum == Sum(codes[..i])
    {
      assert codes[..i + 1][..i] == codes[..i];
      sum := sum + codes[i];
    }
    assert codes[..|codes|] == codes;
    var avg := sum as real / |codes| as real;
    v := (avg * ADC_REF_V) / ADC_FULL_SCALE;
    if forall i | 0 <= i < |codes| :: ValidCode(codes[i]) {
      PinVoltageBounds(codes);
    }
  }

  /** Rail voltage from the pin voltage of a divider with the given resistors:
      the pin sees the bottom resistor's share of the rail voltage, and a divider
      of non-negative resistors never reports less at the rail than at the pin. */
  function DividerToRail(vadc: real, rTop: real, rBottom: real): (rail: real)
    requires rBottom != 0.0
    ensures rail * rBottom == vadc * (rTop + rBottom)
    ensures vadc >= 0.0 && rTop >= 0.0 && rBottom > 0.0 ==> rail >= vadc
  {
    vadc * (rTop + rBottom) / rBottom
  }

  lemma DividerMonotonic(a: real, b: real, rTop: real, rBottom: real)
    requires a <= b
    requires rTop > 0.0 && rBottom > 0.0
    ensures DividerToRail(a, rTop, rBottom) <= DividerToRail(b, rTop, rBottom)
  {
    // The steps name the common factor so the nonlinear step is the same on every
    // solver seed; without them the proof is found only on some seeds.
    var k := (rTop + rBottom) / rBottom;
    assert k > 0.0;
    assert DividerToRail(a, rTop, rBottom) == a * k;
    assert DividerToRail(b, rTop, rBottom) == b * k;
    assert (b - a) * k >= 0.0;
  }

  /** Scaling the rail voltage back down by the divider ratio gives the pin voltage. */
  lemma DividerInverse(vadc: real, rTop: real, rBottom: real)
    requires rBottom != 0.0 && rTop + rBottom != 0.0
    ensures DividerToRail(vadc, rTop, rBottom) * rBottom / (rTop + rBottom) == vadc
  {
  }

  /** The uncalibrated reconstruction of one rail. */
  function RailVoltage(r: Rail, vadc: real): real
  {
    DividerToRail(vadc, TopResistance(r), BottomResistance(r))
  }

  /** The calibrated value that is displayed and classified. */
  function Calibrate(r: Rail, v: real): real
  {
    v * Calibration(r)
  }

  /** Presence is a strict threshold on the uncalibrated 12 V reconstruction: a
      reading of exactly the threshold, or a dead rail, is an absent supply. */
  predicate PsuPresent(v12: real)
    ensures v12 == PSU_ON_THRESHOLD ==> !PsuPresent(v12)
    ensures v12 <= 0.0 ==> !PsuPresent(v12)
  {
    v12 > PSU_ON_THRESHOLD
  }

  /** The whole conditioning chain for one rail: mean code, divider, calibration. */
  function Measure(r: Rail, codes: seq<int>): real
    requires |codes| > 0
  {
    Calibrate(r, RailVoltage(r, PinVoltage(codes)))
  }

  /** For fixed constants, a larger total of the same number of codes never measures lower. */
  lemma MeasureMonotonic(r: Rail, a: seq<int>, b: seq<int>)
    requires |a| == |b| > 0
    requires Sum(a) <= Sum(b)
    ensures Measure(r, a) <= Measure(r, b)
  {
    // Mean, divider and calibration one at a time, so that no proof obligation
    // carries the whole nonlinear chain at once.
    assert PinVoltage(a) <= PinVoltage(b);
    DividerMonotonic(PinVoltage(a), PinVoltage(b), TopResistance(r), BottomResistance(r));
    assert Calibration(r) > 0.0;
  }
}
