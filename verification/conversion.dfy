/** The integer conversions of LTC2942.cpp from a raw 16-bit register code to
    physical units, each written with the C semantics of the 32-bit target
    (module CInt) and proved against its floor-division meaning. */
module Conversion {
  import opened Ltc2942Defs
  import opened CInt

  /** The 16-bit code a register pair holds, MSB first: the driver writes the MSB
      into the high byte and the LSB into the low byte of `adc_code`. */
  function Code(msb: bv8, lsb: bv8): (code: UShort)
    ensures code / 256 == msb as int && code % 256 == lsb as int
  {
    msb as int * 256 + lsb as int
  }

  /** A failed read leaves 0xFF in its byte; in the MSB that forces the code
      into the top 256 values. */
  lemma FailedMsbForcesHighCode(lsb: bv8)
    ensures Code(0xFF, lsb) >= 0xFF00
  {
  }

  // ---------------------------------------------------------------------------
  // Voltage (readVoltage)

  /** Battery voltage in mV: `(unsigned short)(((int)code * 6000) >> 16)`. It is
      floor(code · 6000 / 65536), below the 6000 mV full scale. */
  function VoltageMillivolts(code: UShort): (mv: int)
    ensures 0 <= mv < FULLSCALE_VOLTAGE
    ensures mv * TWO_16 <= code * FULLSCALE_VOLTAGE < (mv + 1) * TWO_16
  {
    ToUShort(ShiftRight16(ToInt32(code * FULLSCALE_VOLTAGE)))
  }

  /** The `int` product never exceeds 65535 · 6000 = 393,210,000, so it never
      wraps. */
  lemma VoltageProductFits(code: UShort)
    ensures code * FULLSCALE_VOLTAGE <= 393_210_000 <= INT32_MAX
  {
  }

  /** A larger code never gives a lower voltage. */
  lemma VoltageMonotone(lo: UShort, hi: UShort)
    requires lo <= hi
    ensures VoltageMillivolts(lo) <= VoltageMillivolts(hi)
  {
  }

  /** Dividing by 65536 instead of the datasheet's 65535 and dropping the fraction
      costs less than 2 mV against code · 6000 / 65535, far below the 78 mV
      resolution. */
  lemma VoltageNearDatasheet(code: UShort)
    ensures VoltageMillivolts(code) * 65535 <= code * FULLSCALE_VOLTAGE < (VoltageMillivolts(code) + 2) * 65535
  {
  }

  // ---------------------------------------------------------------------------
  // Temperature (code_to_celcius_temperature)

  /** 273.15 K in hundredths of a degree. */
  const KELVIN_OFFSET := 27315

  /** Full scale of the temperature code in hundredths of a kelvin. */
  const TEMPERATURE_SCALE := FULLSCALE_TEMPERATURE * 100

  /** Temperature in hundredths of a degree Celsius as the driver computes it:
      `short((code * 600 * 100) >> 16) - 27315`, stored in a `short`, with the
      `int` product wrapping as it does on the target. */
  function TemperatureAsWritten(code: UShort): (t: int)
    ensures -0x8000 <= t < 0x8000
  {
    ToShort(ToShort(ShiftRight16(ToInt32(ToInt32(code * FULLSCALE_TEMPERATURE) * 100))) - KELVIN_OFFSET)
  }

  /** The `int` product code · 600 · 100 exceeds INT32_MAX exactly when the code
      is above 35791, a temperature above 54.52 °C. */
  lemma TemperatureProductOverflows(code: UShort)
    ensures code * TEMPERATURE_SCALE > INT32_MAX <==> code >= 35792
  {
  }

  /** Temperature in hundredths of a degree Celsius, with the product formed in
      a 32-bit `unsigned long`, where 65535 · 60000 fits: it is
      floor(code · 60000 / 65536) - 27315, between -27315 (0 K) and 32684. */
  function TemperatureCentiCelsius(code: UShort): (t: int)
    ensures -KELVIN_OFFSET <= t <= 32684
    ensures (t + KELVIN_OFFSET) * TWO_16 <= code * TEMPERATURE_SCALE < (t + KELVIN_OFFSET + 1) * TWO_16
  {
    ToShort(ToUInt32(code * TEMPERATURE_SCALE) / TWO_16 - KELVIN_OFFSET)
  }

  /** (x - 2^32) >> 16 is (x >> 16) - 2^16. */
  lemma ShiftBelowWrap(x: int)
    ensures ShiftRight16(x - TWO_32) == ShiftRight16(x) - TWO_16
  {
    var a, b := ShiftRight16(x - TWO_32), ShiftRight16(x) - TWO_16;
    assert a * TWO_16 <= x - TWO_32 < (a + 1) * TWO_16;
    assert b * TWO_16 <= x - TWO_32 < (b + 1) * TWO_16;
  }

  /** The driver's result equals the exact one for every code. Up to 35791
      nothing wraps; above it the product, the shift and the final `short`
      conversion each wrap, and the wraps cancel, since the exact result
      always fits in a `short`. */
  lemma TemperatureAsWrittenIsExact(code: UShort)
    ensures TemperatureAsWritten(code) == TemperatureCentiCelsius(code)
  {
    var p := code * TEMPERATURE_SCALE;
    assert ToInt32(code * FULLSCALE_TEMPERATURE) * 100 == p;
    if code >= 35792 {
      assert ToInt32(p) == p - TWO_32;
      ShiftBelowWrap(p);
      assert ShiftRight16(ToInt32(p)) == p / TWO_16 - TWO_16;
    }
  }

  /** Below the overflow range the result lies in [-27315, 5452], and code 0
      reads as absolute zero. */
  lemma TemperatureRangeWithoutOverflow(code: UShort)
    ensures TemperatureCentiCelsius(0) == -KELVIN_OFFSET
    ensures code <= 35791 ==> -KELVIN_OFFSET <= TemperatureCentiCelsius(code) <= 5452
  {
  }

  /** A larger code never gives a lower temperature. */
  /** Against the datasheet's code · 60000 / 65535 the result is less than
      0.02 °C low, far below the 3 °C resolution. */
  lemma TemperatureNearDatasheet(code: UShort)
    ensures (TemperatureCentiCelsius(code) + KELVIN_OFFSET) * 65535 <= code * TEMPERATURE_SCALE
    ensures code * TEMPERATURE_SCALE < (TemperatureCentiCelsius(code) + KELVIN_OFFSET + 2) * 65535
  {
  }

  lemma TemperatureMonotone(lo: UShort, hi: UShort)
    requires lo <= hi
    ensures TemperatureCentiCelsius(lo) <= TemperatureCentiCelsius(hi)
  {
  }

  // ---------------------------------------------------------------------------
  // Accumulated charge (readAvailableCapacity) and charge in mC (readCharge)

  /** Accumulated charge in µAh for prescaler m and sense resistor r (mΩ):
      `(unsigned long)((unsigned long)code * 85 * m * 5) / (r * 128) * 10`.
      For every gain up to 128 nothing wraps and the result is the exact value
      code · 85 · m · 50 / (128 · r) rounded down to a multiple of 10, so it
      falls short of the exact value by less than 10 µAh. */
  function MicroAmpHours(code: UShort, m: UChar, r: UShort): (uah: int)
    requires r > 0
    ensures 0 <= uah < TWO_32 && uah % 10 == 0
    ensures m <= 128 ==> uah * (r * 128) <= code * CHARGE_LSB * m * 50 < (uah + 10) * (r * 128)
  {
    var product := ToUInt32(code * CHARGE_LSB * m * 5);
    var exact := code * CHARGE_LSB * m * 50;
    CapacityProductExact(code, m, product);
    var scaled := product / (r * 128) * 10;
    CapacityQuotientFits(product, r * 128, exact, m <= 128);
    ToUInt32(scaled)
  }

  /** For gains up to 128 the reduced product is the exact one, and ten times it
      is the full code · 85 · M · 50. */
  lemma CapacityProductExact(code: UShort, m: UChar, product: int)
    requires product == ToUInt32(code * CHARGE_LSB * m * 5)
    ensures m <= 128 ==> product * 10 == code * CHARGE_LSB * m * 50
  {
    CapacityProductFits(code, m);
    assert code * CHARGE_LSB * m * 50 == (code * CHARGE_LSB * m * 5) * 10;
  }

  /** Dividing a 32-bit product by R · 128 >= 128 leaves room for the final
      `* 10`, and when the product is exact the scaled quotient brackets the
      exact value ten times the product. */
  lemma CapacityQuotientFits(product: nat, divisor: int, exact: int, isExact: bool)
    requires product < TWO_32 && divisor >= 128
    requires isExact ==> product * 10 == exact
    ensures (product / divisor) * 10 < TWO_32
    ensures ToUInt32((product / divisor) * 10) == (product / divisor) * 10
    ensures ((product / divisor) * 10) % 10 == 0
    ensures isExact ==> (product / divisor) * 10 * divisor <= exact < ((product / divisor) * 10 + 10) * divisor
  {
    var q := product / divisor;
    DivBounds(product, divisor);
    MulMonotone(q, 128, divisor);
    assert q * 10 * divisor == 10 * (q * divisor);
    assert (q * 10 + 10) * divisor == 10 * ((q + 1) * divisor);
  }

  /** For gains up to 128 the `unsigned long` product is at most 3,565,104,000
      and fits in 32 bits. */
  lemma CapacityProductFits(code: UShort, m: UChar)
    ensures m <= 128 ==> code * CHARGE_LSB * m * 5 <= 3_565_104_000 < TWO_32
  {
    if m <= 128 {
      MulMonotone(code, m, 128);
    }
  }

  /** Code 0 reads as no charge, and a larger code never reads as less. */
  lemma CapacityMonotone(lo: UShort, hi: UShort, m: UChar, r: UShort)
    requires r > 0 && m <= 128 && lo <= hi
    ensures MicroAmpHours(0, m, r) == 0
    ensures MicroAmpHours(lo, m, r) <= MicroAmpHours(hi, m, r)
  {
    var d := r * 128;
    var x, y := lo * CHARGE_LSB * m * 50, hi * CHARGE_LSB * m * 50;
    assert x <= y by {
      MulMonotone(m * CHARGE_LSB * 50, lo, hi);
    }
    var a, b := MicroAmpHours(lo, m, r), MicroAmpHours(hi, m, r);
    TensFloorMonotone(a, b, x, y, d);
    TensFloorMonotone(MicroAmpHours(0, m, r), 0, 0, 0, d);
  }

  /** Two multiples of 10 that floor x and y to steps of 10 in units of d keep
      the order of x and y. */
  lemma TensFloorMonotone(a: nat, b: nat, x: int, y: int, d: int)
    requires d > 0 && a % 10 == 0 && b % 10 == 0 && x <= y
    requires a * d <= x && y < (b + 10) * d
    ensures a <= b
  {
    if b + 10 <= a {
      MulMonotone(d, b + 10, a);
      assert false;
    }
  }

  /** For gains up to 128 the result is at most 278,523,750 µAh. */
  lemma CapacityBound(code: UShort, m: UChar, r: UShort)
    requires r > 0 && m <= 128
    ensures MicroAmpHours(code, m, r) <= 278_523_750
  {
    var uah := MicroAmpHours(code, m, r);
    assert uah * (r * 128) <= 35_651_040_000 by {
      CapacityProductFits(code, m);
    }
    MulMonotone(uah, 128, r * 128);
  }

  /** Charge in mC as the driver computes it: `(uah * 36) / 10` in a 32-bit
      `unsigned long`. */
  function MilliCoulombsAsWritten(uah: int): (mc: int)
    requires 0 <= uah < TWO_32
    ensures 0 <= mc <= 429_496_729
  {
    ToUInt32(uah * 36) / 10
  }

  /** Charge in mC with the division first: 1 µAh = 3.6 mC, so for a multiple of
      10 µAh this is exact. */
  function MilliCoulombs(uah: nat): (mc: nat)
    ensures uah % 10 == 0 ==> mc * 10 == uah * 36
    ensures mc <= uah * 36 / 10
  {
    uah / 10 * 36
  }

  /** While uah · 36 stays below 2^32 the driver's result is exact. */
  lemma MilliCoulombsAsWrittenExact(uah: nat)
    requires uah % 10 == 0 && uah * 36 < TWO_32
    ensures MilliCoulombsAsWritten(uah) == MilliCoulombs(uah)
  {
  }

  /** Conversely, once uah · 36 reaches 2^32 the driver's result falls short of
      the division-first value: the wrap always loses charge. */
  lemma MilliCoulombsAsWrittenInexact(uah: nat)
    requires uah % 10 == 0 && TWO_32 <= uah * 36 && uah < TWO_32
    ensures MilliCoulombsAsWritten(uah) < MilliCoulombs(uah)
  {
  }

  /** As a property of the conversion, the condition 3 · M <= 128 · R is not only
      for M = 128: with M = 64 and R = 1 mΩ (3 · 64 > 128) a full accumulator also
      wraps. `init` never selects that pair (`Calibration.GuardedGainNeverWraps`);
      in the driver the wrap needs the forced M = 128 of Q >= I / 10 with R <= 2. */
  lemma MilliCoulombsAsWrittenWrapsAtHalfGain()
    ensures MicroAmpHours(65535, 64, 1) * 36 >= TWO_32
    ensures MilliCoulombsAsWritten(MicroAmpHours(65535, 64, 1)) < MilliCoulombs(MicroAmpHours(65535, 64, 1))
  {
    assert MicroAmpHours(65535, 64, 1) == 139_261_870;
    MilliCoulombsAsWrittenInexact(139_261_870);
  }

  /** The driver's result is exact for every code whenever 3 · M <= 128 · R;
      with M = 128 that is every R >= 3. */
  lemma MilliCoulombsAsWrittenExactForSense(code: UShort, m: UChar, r: UShort)
    requires r > 0 && m <= 128 && 3 * m <= 128 * r
    ensures MicroAmpHours(code, m, r) * 36 < TWO_32
    ensures MilliCoulombsAsWritten(MicroAmpHours(code, m, r)) == MilliCoulombs(MicroAmpHours(code, m, r))
  {
    var uah := MicroAmpHours(code, m, r);
    ScaledChargeFits(uah, code, m, r);
    MilliCoulombsAsWrittenExact(uah);
  }

  /** A charge that R · 128 times does not exceed code · 4250 · M, with
      3 · M <= 128 · R, is at most 92,841,250 µAh, so times 36 it fits 32 bits. */
  lemma ScaledChargeFits(uah: nat, code: UShort, m: nat, r: nat)
    requires r > 0 && 3 * m <= 128 * r
    requires uah * (r * 128) <= code * CHARGE_LSB * m * 50
    ensures uah <= 92_841_250
    ensures uah * 36 < TWO_32
  {
    var full := 65535 * CHARGE_LSB * 50;
    // uah · 128 · R <= code · 4250 · M <= 65535 · 4250 · M
    assert uah * (r * 128) <= full * m by {
      MulMonotone(m, code, 65535);
      assert code * CHARGE_LSB * m * 50 == 4250 * (m * code);
    }
    // ... and 3 · M <= 128 · R, so uah · 384 · R <= 65535 · 4250 · 128 · R
    assert (uah * 384) * r <= (full * 128) * r by {
      MulMonotone(full, 3 * m, 128 * r);
      assert (uah * 384) * r == 3 * (uah * (r * 128));
      assert full * (3 * m) == 3 * (full * m);
      assert (full * 128) * r == full * (128 * r);
    }
    if uah * 384 > full * 128 {
      MulMonotone(r, full * 128 + 1, uah * 384);
      assert false;
    }
  }

  /** With M = 128 and R of 1 or 2 mΩ a full accumulator makes uah · 36 pass
      2^32, and the driver's result is wrong: for R = 1 it reads 143,692,040 mC
      where 1,002,685,500 mC are stored. */
  lemma MilliCoulombsAsWrittenWrapsAtSmallSense(r: UShort)
    requires 1 <= r <= 2
    ensures MicroAmpHours(65535, 128, r) * 36 >= TWO_32
    ensures MilliCoulombsAsWritten(MicroAmpHours(65535, 128, r)) != MilliCoulombs(MicroAmpHours(65535, 128, r))
    ensures r == 1 ==> (MilliCoulombsAsWritten(MicroAmpHours(65535, 128, r)) == 143_692_040 &&
                        MilliCoulombs(MicroAmpHours(65535, 128, r)) == 1_002_685_500)
  {
    if r == 1 {
      assert MicroAmpHours(65535, 128, 1) == 278_523_750;
    } else {
      assert MicroAmpHours(65535, 128, 2) == 139_261_870;
    }
  }

  /** The division-first conversion never overflows 32 bits: at most
      1,002,685,500 mC for every code, gain up to 128 and R >= 1. */
  lemma MilliCoulombsFits(code: UShort, m: UChar, r: UShort)
    requires r > 0 && m <= 128
    ensures MilliCoulombs(MicroAmpHours(code, m, r)) <= 1_002_685_500 < TWO_32
  {
    CapacityBound(code, m, r);
  }
}
