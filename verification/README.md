# LTC2942 gas-gauge driver in Dafny

A Dafny model of the LTC2942 battery gas-gauge driver (`LTC2942.cpp`, `LTC2942.h`).
The driver talks to the chip over I2C. It picks the charge-accumulator prescaler M
from the battery capacity Q, the sense resistor R and the maximum current I. It turns
the chip's raw 16-bit register codes into millivolts, hundredths of a degree Celsius,
microamp-hours and millicoulombs, using integer arithmetic only. It also checks that
the chip is present and zeroes the charge accumulator.

Modules, one per concern of the source:

- `Ltc2942Defs` (`defs.dfy`) holds the register map, the command codes and the
  conversion constants of `LTC2942.h`. Lemmas cover their bit layout: the prescaler
  encoding is a bijection onto the 3-bit field, the control-register fields are
  disjoint, the register pairs are adjacent, and `DEVICE_ID` lies inside the ID mask.
- `CInt` (`cint.dfy`) spells out the C integer semantics of the 32-bit ARM target:
  `int` and `unsigned long` wrap-around, conversions to `short` and `unsigned short`,
  and the arithmetic `>> 16`.
- `Calibration` (`calibration.dfy`) states the prescaler selection of `init` as
  functions of Q, R and I. It proves that inside the guard Q < I/10 the gain is
  the tightest one, capped at 128, and that outside the guard it is 128.
- `Conversion` (`conversion.dfy`) holds each raw-code formula, written with the
  target's C semantics and proved against its floor-division meaning. It also gives
  the bounds, monotonicity and overflow facts, including the exact range where they
  hold.
- `Driver` (`driver.dfy`) is the class `Ltc2942`. It has the fields M and R_sense and
  the chip's register file, an `array<bv8>` of 16 bytes. Its methods follow the
  driver's member functions. Every bus transaction gets an `ack` parameter, so each
  contract covers every pattern of bus failures.

`init` works with a `double`: temp = Q·R / (50 · 0.085 · 512), halved while temp > 1.0.
The model uses the integer test Q·R > 2176 · 2^j instead. The two agree:

- 50 · 0.085 · 512 evaluates to exactly 2176.0.
- Halving a double is exact.
- Q·R is below 2^32, so rounding the quotient Q·R / 2176 once cannot move it across
  a power of two.

## Model

| member | source | states |
|---|---|---|
| `Ltc2942Defs.PrescalerEncoding` | LTC2942.h:91-98 | the command code for gain 2^s is 8·s (s shifted into bits 5-3) and lies inside the prescaler field 0x38 |
| `Ltc2942Defs.PrescalerEncodingBijective` | LTC2942.h:91-98 | reading the prescaler field back gives the step, and every value inside field 0x38 encodes exactly one step: a bijection between 0..7 and the field |
| `Ltc2942Defs.ControlFieldsDisjoint` | LTC2942.h:86-104 | mode (0xC0), prescaler (0x38), AL/CC (0x06) and shutdown (0x01) fields are pairwise disjoint and cover the byte; every mode and AL/CC code lies inside its own field |
| `Ltc2942Defs.ControlWordFieldsRecoverable` | LTC2942.h:86-104 | OR-ing one in-field value per field loses nothing: masking the control byte with a field returns that field's value |
| `Ltc2942Defs.ShutdownTouchesOnlyBitZero` | LTC2942.h:104 | `reg \| SHUTDOWN_MODE` sets bit 0 and leaves bits 7-1 unchanged |
| `Ltc2942Defs.RegisterPairsAdjacent` | LTC2942.h:65-80 | every 16-bit quantity has an even MSB address with the LSB at MSB+1, and every one of the sixteen register addresses is below 16 |
| `Ltc2942Defs.DeviceIdWithinMask` | LTC2942.h:60 | DEVICE_ID lies within the ID mask 0xC0, and a status byte matches it exactly when its top two bits are 0 |
| `Ltc2942Defs.PrescalerStepOf` | LTC2942.h:91-98 | the step read back from a control byte is one of the eight steps 0..7 |
| `CInt.ToInt32` | LTC2942.cpp:171 | a C `int` result: within [INT32_MIN, INT32_MAX], congruent to the value mod 2^32, and the value itself when it fits |
| `CInt.ToUInt32` | LTC2942.cpp:250 | an `unsigned long` result: within [0, 2^32), congruent mod 2^32, and the value itself when it fits |
| `CInt.ToShort` | LTC2942.cpp:199 | a conversion to `short`: within [-2^15, 2^15), congruent mod 2^16, and the value itself when it fits |
| `CInt.ToUShort` | LTC2942.cpp:171 | a conversion to `unsigned short`: within [0, 2^16), congruent mod 2^16, and the value itself when it fits |
| `CInt.ShiftRight16` | LTC2942.cpp:171 | `>> 16` on an `int` rounds toward minus infinity: r·2^16 <= x < (r+1)·2^16 |
| `Conversion.ShiftBelowWrap` | LTC2942.cpp:199 | shifting a value wrapped down by 2^32 gives the unwrapped shift minus 2^16, which the cast to `short` then removes |
| `Calibration.HalvingStepsFrom` | LTC2942.cpp:70-74 | the number of halvings is the least k >= j with Q·R <= 2176·2^k: it covers Q·R and no smaller count does |
| `Calibration.HalvingSteps` | LTC2942.cpp:68-74 | the loop count is the least k with Q·R <= 2176·2^k, i.e. the first point where temp <= 1.0 |
| `Calibration.PrescalerStep` | LTC2942.cpp:65-128 | the selected step never exceeds 7 (M <= 128) |
| `Calibration.PrescalerStepTightest` | LTC2942.cpp:65-127 | when Q < I/10 is false M = 128; otherwise no smaller power of two covers Q·R, and a gain below 128 does cover it (Q·R <= 2176·M) |
| `Calibration.UsesHalving` | LTC2942.cpp:65 | the guard Q < I/10, with C integer division, holds exactly when 10·(Q+1) <= I |
| `Calibration.GuardedGainNeverWraps` | LTC2942.cpp:65-128 | inside the guard the selected M satisfies 3·M <= 128·R for every R >= 1, so the charge conversion cannot wrap for any M that branch selects |
| `Calibration.GuardedProductFits` | LTC2942.cpp:61-74 | under the guard Q <= 6552, Q·R fits in a 32-bit int, and the loop runs at most 18 times, so the `unsigned char` counter never wraps |
| `Calibration.ControlByte` | LTC2942.cpp:84-126 | the byte `init` writes has ADC mode AUTOMATIC, reads back as the selected prescaler step, and has AL/CC disabled and shutdown clear |
| `Calibration.ControlByteLayout` | LTC2942.cpp:76-127 | M = 2^step is one of the eight gains and at most 128; the control byte is 0xC0 \| 8·step: automatic mode, the step in the prescaler field, and AL/CC and shutdown clear |
| `Calibration.PrescalerExample` | LTC2942.cpp:65-127 | Q = 750, R = 33: with I = 10000 the result is M = 16 with control byte 0xE0; with I = 7500 it is M = 128 |
| `Conversion.Code` | LTC2942.cpp:168-169 | the assembled code is below 2^16; its high byte is the MSB and its low byte the LSB |
| `Conversion.FailedMsbForcesHighCode` | LTC2942.cpp:268 | a failed MSB read (0xFF) forces the code to at least 0xFF00 |
| `Conversion.VoltageMillivolts` | LTC2942.cpp:171 | voltage = floor(code·6000/65536), and it is below 6000 mV for every code |
| `Conversion.VoltageProductFits` | LTC2942.cpp:171 | the int product is at most 393,210,000 and never wraps |
| `Conversion.VoltageNearDatasheet` | LTC2942.cpp:158-161 | dividing by 65536 and dropping the fraction leaves the result less than 2 mV below the datasheet's code·6000/65535, far inside the 78 mV resolution the note promises |
| `Conversion.VoltageMonotone` | LTC2942.cpp:171 | voltage is non-decreasing in the code |
| `Conversion.TemperatureAsWritten` | LTC2942.cpp:199 | the driver's expression: the int product, the shift and both `short` conversions wrap as on the target; the result fits a short |
| `Conversion.TemperatureProductOverflows` | LTC2942.cpp:199 | the int product code·600·100 exceeds INT32_MAX exactly when code >= 35792 |
| `Conversion.TemperatureCentiCelsius` | LTC2942.cpp:199 | temperature = floor(code·60000/65536) − 27315, between −27315 and 32684 |
| `Conversion.TemperatureAsWrittenIsExact` | LTC2942.cpp:199 | the driver's result equals the exact floor value for every code, because the wraps cancel |
| `Conversion.TemperatureRangeWithoutOverflow` | LTC2942.cpp:199 | code 0 gives −27315; for codes <= 35791 the result is in [−27315, 5452] |
| `Conversion.TemperatureNearDatasheet` | LTC2942.cpp:185-188 | the result plus 27315 is less than 0.02 °C below the datasheet's code·60000/65535, far inside the 3 °C resolution the note promises |
| `Conversion.TemperatureMonotone` | LTC2942.cpp:199 | temperature is non-decreasing in the code |
| `Conversion.MicroAmpHours` | LTC2942.cpp:250 | the result is a multiple of 10 below 2^32; for M <= 128 it is the exact code·85·M·50/(128·R) rounded down to a multiple of 10, less than 10 µAh below the exact value |
| `Conversion.CapacityQuotientFits` | LTC2942.cpp:250 | after dividing by R·128 >= 128, the final `* 10` cannot wrap and leaves a multiple of 10; when the product is exact, the scaled quotient is within 10 µAh below the exact value |
| `Conversion.CapacityProductExact` | LTC2942.cpp:249-250 | for M <= 128 splitting the factor 50 into 5 and 10 loses nothing: ten times the 32-bit product is the full code·85·M·50 |
| `Conversion.CapacityProductFits` | LTC2942.cpp:250 | for M <= 128 the unsigned long product code·85·M·5 is at most 3,565,104,000 < 2^32 |
| `Conversion.CapacityMonotone` | LTC2942.cpp:250 | for M <= 128, code 0 gives 0 µAh and the result is non-decreasing in the code |
| `Conversion.CapacityBound` | LTC2942.cpp:250 | for M <= 128 and R >= 1 the result is at most 278,523,750 µAh |
| `Conversion.MilliCoulombsAsWritten` | LTC2942.cpp:222 | the driver's `(uAh * 36) / 10` in a 32-bit unsigned long; at most 429,496,729 |
| `Conversion.MilliCoulombs` | LTC2942.cpp:222 | the conversion with the division first; for a multiple of 10 µAh it equals µAh·3.6 exactly |
| `Conversion.MilliCoulombsAsWrittenExact` | LTC2942.cpp:222 | while µAh·36 < 2^32 the driver's result equals µAh·36/10 exactly, with no rounding |
| `Conversion.MilliCoulombsAsWrittenInexact` | LTC2942.cpp:222 | the converse: once µAh·36 >= 2^32 the driver's result is below the exact mC, so it is exact if and only if µAh·36 < 2^32 |
| `Conversion.MilliCoulombsAsWrittenWrapsAtHalfGain` | LTC2942.cpp:222 | the wrap also happens at M = 64 with R = 1 (3·M > 128·R): code 0xFFFF gives 139,261,870 µAh, and the driver's mC is too low; a property of the conversion alone, since `init` never selects this pair (see `Calibration.GuardedGainNeverWraps`) |
| `Conversion.MilliCoulombsAsWrittenExactForSense` | LTC2942.cpp:218-224 | if 3·M <= 128·R (every R >= 3 when M = 128), no code makes µAh·36 wrap, so the driver's mC is exact |
| `Conversion.ScaledChargeFits` | LTC2942.cpp:222 | any charge in the range the capacity bracket allows with 3·M <= 128·R is at most 92,841,250 µAh, so ×36 stays below 2^32 |
| `Conversion.MilliCoulombsAsWrittenWrapsAtSmallSense` | LTC2942.cpp:222 | with M = 128 and R of 1 or 2, code 0xFFFF wraps µAh·36 past 2^32 and the driver's mC is wrong (143,692,040 instead of 1,002,685,500 for R = 1) |
| `Conversion.MilliCoulombsFits` | LTC2942.cpp:222 | the division-first conversion never exceeds 1,002,685,500 mC, below 2^32, for any code, M <= 128 and R >= 1 |
| `Driver.Received` | LTC2942.cpp:268-276 | an acknowledged read yields the register's byte; a failed read leaves 0xFF, which can never pass `ping`'s device test |
| `Driver.DeviceMatches` | LTC2942.cpp:40 | `(status & 0xC0) == DEVICE_ID` holds exactly when the status byte is below 0x40 |
| `Driver.Ltc2942.PairCode` | LTC2942.cpp:168-169 | the code a two-byte read assembles: an acknowledged MSB read is its high byte, an acknowledged LSB read its low byte, a failed LSB read leaves low byte 0xFF, and a failed MSB read forces it to at least 0xFF00 |
| `Driver.Ltc2942.constructor` | LTC2942.cpp:23-26 | the object uses the given bus and the address I2C_ADDRESS |
| `Driver.Ltc2942.ReadRegister` | LTC2942.cpp:266-282 | the flag is "failed" exactly when the device does not answer; the output is the register's value, or 0xFF after a failed read |
| `Driver.Ltc2942.WriteRegister` | LTC2942.cpp:295-301 | an acknowledged write stores the byte in that register only; a failed one changes nothing; the flag reports the failure |
| `Driver.Ltc2942.Ping` | LTC2942.cpp:35-46 | reports the device present iff the status read succeeds and (status & 0xC0) == DEVICE_ID |
| `Driver.Ltc2942.Init` | LTC2942.cpp:58-129 | sets R_sense = R and M = 2^PrescalerStep(Q, R, I), which is one of the eight gains; CONTROL_REG becomes 0xC0 \| 8·step when the write is acknowledged, and no other register changes |
| `Driver.Ltc2942.ResetCharge` | LTC2942.cpp:133-142 | with every access acknowledged, registers 0x02 and 0x03 become 0, CONTROL_REG is back to its old value, and no other register changes; for each failure pattern it states exactly what each register holds |
| `Driver.Ltc2942.ReadVoltage` | LTC2942.cpp:164-173 | the flag is the OR of the two read failures; the voltage is the conversion of MSB·256+LSB, with 0xFF in place of a failed byte |
| `Driver.Ltc2942.CodeToCelsiusTemperature` | LTC2942.cpp:191-201 | the flag is the OR of the two read failures; the result is the driver's expression on the read code, which equals the exact floor temperature |
| `Driver.Ltc2942.ReadAvailableCapacity` | LTC2942.cpp:242-253 | requires R_sense > 0; the flag is the OR of the two read failures; the result is the µAh conversion of the read code with the stored M and R_sense, less than 10 µAh below the exact code·85·M·50/(128·R_sense) (M <= 128 holds for every valid object) |
| `Driver.Ltc2942.ReadCharge` | LTC2942.cpp:218-224 | passes on the capacity read's flag unchanged; the result is the driver's µAh·36/10, which equals µAh·3.6 exactly whenever 3·M <= 128·R_sense |

## Findings

| source | as written | input that shows it | evidently intended | confidence | as-written member | corrected member |
|---|---|---|---|---|---|---|
| LTC2942.cpp:222 | `coulomb_charge = (coulomb_charge * 36) / 10` in a 32-bit `unsigned long` | `init` with Q >= I/10 (forced M = 128) and R_sense = 1, then code 0xFFFF: µAh = 278,523,750, and ×36 wraps past 2^32, giving 143,692,040 mC instead of 1,002,685,500 | the function's header comment promises to "prevent overflow": divide by 10 first, which is exact because µAh is a multiple of 10 | high; not executed | `Conversion.MilliCoulombsAsWrittenWrapsAtSmallSense` | `Conversion.MilliCoulombsFits` |
| LTC2942.cpp:199 | `adc_code * FULLSCALE_TEMPERATURE * 100` formed in a 32-bit signed `int` | code 35792 (about 54.5 °C): 35792·60000 = 2,147,520,000 > INT32_MAX, and signed overflow is undefined in C | the comment says hundredths were chosen over thousandths to avoid overflow; the product belongs in `unsigned long`, where 65535·60000 fits | high; not executed | `Conversion.TemperatureProductOverflows` | `Conversion.TemperatureCentiCelsius` |

For the charge row, the wrap needs the forced M = 128 branch (Q >= I/10) with R_sense of
1 or 2 mΩ: inside the guard `Calibration.GuardedGainNeverWraps` shows that the selected
M always satisfies 3·M <= 128·R, where `Conversion.MilliCoulombsAsWrittenExactForSense`
rules the wrap out.

For the temperature row, `Conversion.TemperatureAsWrittenIsExact` also shows that on a
target that wraps signed overflow, the driver's value is still the exact one.
`Driver.Ltc2942.CodeToCelsiusTemperature` states both forms. For the charge row,
`Driver.Ltc2942.ReadCharge` models the code as written. Its contract connects it to
`Conversion.MilliCoulombs` wherever the two agree.

Further facts about the code that the model keeps:

- Charge is computed directly from M and R_sense.
- A failed read sets the flag, and the conversion runs on the 0xFF bytes.
- In `reset_charge` a failed read of CONTROL_REG saves 0xFF, and an acknowledged
  restore then writes 0xFF back, so the shutdown bit stays set.
  `Driver.Ltc2942.ResetCharge` states this case in its contract.
- Inside the guard Q < I/10, M is the smallest power of two with Q·R <= 2176·M,
  capped at 128. Otherwise M = 128.
- `DEVICE_ID` is 0x00.

## Left out

- The I2C transactions themselves (`beginTransmission`, `write`, `requestFrom`, `read`,
  `endTransmission`) are not modelled. The bus is the register array, and each
  transaction's success is an `ack` parameter.
- The chip's own register behaviour is not modelled: the status register is read-only,
  the ADC updates the voltage and temperature registers, the accumulator counts, and
  the charge registers take writes only during shutdown. The register file is plain
  storage.
- The `double` arithmetic of `init` is not modelled. It is replaced by the exact
  integer test explained above.
- `VOLTAGE_lsb` and `TEMPERATURE_lsb` are unused float constants and are left out.
  `I2C_ALERT_RESPONSE` is kept only as a constant. The I2C framing comment in the
  header is left out.
- The header declares `getVoltage`, `getTemperature`, `getCharge` and
  `getAvailableCapacity`, but the .cpp defines `readVoltage`,
  `code_to_celcius_temperature`, `readCharge` and `readAvailableCapacity`. The model
  follows the .cpp definitions.
- Writes into the two bytes of `adc_code` (by casting its address) are modelled as MSB·256+LSB,
  which is what they give on the little-endian target.
- Undefined and implementation-defined C behaviour is modelled as the target's
  compiler does it: signed overflow wraps, `>>` on a negative int is arithmetic, and
  conversion to `short` is modular. The `unsigned long` capacity product is reduced
  mod 2^32 once. That is the same as reducing each partial product in turn.
- The C++ constructor leaves M and R_sense unset. The model starts them at 0.
- Bus sharing and concurrency around `reset_charge` are not modelled.
- R_sense = 0 makes `readAvailableCapacity` (and so `readCharge`) divide by zero at
  LTC2942.cpp:250. That happens before `init`, or after `init(Q, 0, I)`, which the
  source accepts. The `requires` of `ReadAvailableCapacity` and `ReadCharge` excludes
  this case.
- `Conversion.MicroAmpHours`: the floor bracket is stated only for M <= 128. That
  covers every M that `Init` sets. For a larger `unsigned char` M the product can
  wrap, and only the range and the multiple of 10 are stated.
- `Conversion.TemperatureAsWritten`: its own contract states only that the result fits
  a `short`. Its exact value is stated by `Conversion.TemperatureAsWrittenIsExact`.
- `Driver.Ltc2942.ReadCharge`: exactness is stated only under 3·M <= 128·R_sense,
  because outside that range the driver's result can be wrong (see Findings).
