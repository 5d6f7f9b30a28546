/** The supply-voltage measurement and its Low/High classification. */
module Voltage {
  import opened Config

  /** The 32-bit product REF_VOLTAGE * 4096 computed by Get_VCC_Voltage. */
  const SCALED_REF: nat := REF_VOLTAGE * ADC_FULL_SCALE

  /**
   * The 12-bit conversion result: ADC_RES shifted up four bits, OR the low
   * nibble of ADC_RESL. The two parts occupy disjoint bits, so the OR is an
   * addition.
   */
  function AdcValue(res: byte, resl: byte): (adc: nat)
    ensures adc < ADC_FULL_SCALE
    ensures adc / 16 == res && adc % 16 == resl % 16
  {
    res * 16 + resl % 16
  }

  /**
   * Get_VCC_Voltage: millivolts from the conversion of the internal reference,
   * 1190 * 4096 / adc in 32-bit arithmetic, stored into a uint16_t; a zero
   * reading gives 0.
   */
  function VccMillivolts(adc: nat): (mv: uint16)
    ensures adc == 0 ==> mv == 0
    // from 75 up the quotient fits in 16 bits and nothing is truncated
    ensures adc >= 75 ==> mv == SCALED_REF / adc
    // and a 12-bit reading cannot mean less than the reference voltage
    ensures 75 <= adc < ADC_FULL_SCALE ==> REF_VOLTAGE <= mv
  {
    if adc != 0 then
      if adc >= 75 then
        QuotientBounds(adc);
        (SCALED_REF / adc) % 0x1_0000
      else (SCALED_REF / adc) % 0x1_0000
    else 0
  }

  /** A larger divisor never gives a larger quotient. */
  lemma DivAntiMonotone(n: nat, a: nat, b: nat)
    requires 0 < a <= b
    ensures n / b <= n / a
  {
    var q, r := n / b, n / a;
    assert q * b <= n by { assert n == q * b + n % b; }
    assert q * a <= q * b by { MulMonotone(q, a, b); }
    assert n < (r + 1) * a by { assert n == r * a + n % a; assert (r + 1) * a == r * a + a; }
    if r + 1 <= q {
      MulMonotone(a, r + 1, q);
      assert false;
    }
  }

  lemma MulMonotone(x: nat, a: nat, b: nat)
    requires a <= b
    ensures x * a <= x * b
  {
    assert x * b == x * a + x * (b - a);
  }

  lemma QuotientBounds(adc: nat)
    requires 75 <= adc
    ensures SCALED_REF / adc < 0x1_0000
    ensures adc < ADC_FULL_SCALE ==> REF_VOLTAGE <= SCALED_REF / adc
  {
    DivAntiMonotone(SCALED_REF, 75, adc);
    if adc < ADC_FULL_SCALE {
      DivAntiMonotone(SCALED_REF, adc, ADC_FULL_SCALE - 1);
    }
  }

  /** Below 75 the quotient overflows 16 bits: a reading of 74 gives 332 mV. */
  lemma TruncationBelow75()
    ensures VccMillivolts(74) == 332
    ensures SCALED_REF / 74 == 0x1_0000 + 332
  {
  }

  /** Detect_Voltage_Status: exactly one of the two flags (low, high) is set. */
  function Classify(mv: nat): (flags: (bool, bool))
    ensures flags.0 != flags.1
    ensures flags.0 <==> mv < VOLTAGE_THRESHOLD
  {
    if mv < VOLTAGE_THRESHOLD then (true, false) else (false, true)
  }

  /** The threshold is exclusive for Low and inclusive for High. */
  lemma ThresholdBoundary()
    ensures Classify(2999) == (true, false)
    ensures Classify(3000) == (false, true)
    ensures Classify(3001) == (false, true)
  {
  }

  /** A zero reading (the division guard) is classified Low. */
  lemma ZeroReadingIsLow(res: byte, resl: byte)
    requires AdcValue(res, resl) == 0
    ensures Classify(VccMillivolts(AdcValue(res, resl))) == (true, false)
  {
  }

  /**
   * Over the readings without truncation, the supply is Low exactly when the
   * conversion result is 1625 or more (1625 gives 2999 mV, 1624 gives 3001 mV).
   */
  lemma {:induction false} LowIffLargeReading(adc: nat)
    requires 75 <= adc < ADC_FULL_SCALE
    ensures Classify(VccMillivolts(adc)).0 <==> adc >= 1625
  {
    assert SCALED_REF / 1625 == 2999;
    assert SCALED_REF / 1624 == 3001;
    if adc >= 1625 {
      DivAntiMonotone(SCALED_REF, 1625, adc);
    } else {
      DivAntiMonotone(SCALED_REF, adc, 1624);
    }
  }
}
