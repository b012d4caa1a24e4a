/** The driver object `LTC2942` of LTC2942.cpp. The I2C bus and the chip behind
    it are abstracted as the chip's 16-byte register file; whether each bus
    transaction is acknowledged is a parameter (`ack`) of the operation that
    performs it, so every pattern of bus failures is covered. */
module Driver {
  import opened Ltc2942Defs
  import opened Calibration
  import opened Conversion

  /** The byte a register read leaves in its output: `readRegister` first sets
      it to -1 (0xFF) and overwrites it only when the device answers. */
  function Received(value: bv8, ack: bool): (output: bv8)
    ensures ack ==> output == value
    ensures !ack ==> output == 0xFF && !DeviceMatches(output)
  {
    if ack then value else 0xFF
  }

  /** `ping`'s test: the identification bits of the status register equal
      DEVICE_ID. */
  function DeviceMatches(status: bv8): (matches: bool)
    ensures matches <==> status < 0x40
  {
    status & ID_MASK == DEVICE_ID
  }

  /** The registers `reset_charge` writes. */
  function ResetTouched(): set<int>
  {
    {CONTROL_REG as int, ACCUM_CHARGE_MSB_REG as int, ACCUM_CHARGE_LSB_REG as int}
  }

  class Ltc2942 {
    /** The chip's registers as the bus reaches them. */
    const regs: array<bv8>
    /** The 7-bit I2C address of the chip. */
    const address: bv8
    /** Prescaler M (`unsigned char`), set by Init. */
    var m: UChar
    /** Sense resistor in mΩ (`unsigned short`), set by Init. */
    var rSense: UShort

    ghost predicate Valid()
      reads this
    {
      regs.Length == REGISTER_COUNT && (m == 0 || IsGain(m))
    }

    /** The code a two-byte read of the register pair at `msb` assembles. */
    ghost function PairCode(msb: bv8, msbAck: bool, lsbAck: bool): (code: UShort)
      reads this, regs
      requires Valid() && (msb as int) + 1 < REGISTER_COUNT
      ensures msbAck ==> code / 256 == regs[msb as int] as int
      ensures lsbAck ==> code % 256 == regs[msb as int + 1] as int
      ensures !msbAck ==> code >= 0xFF00
      ensures !lsbAck ==> code % 256 == 0xFF
    {
      Code(Received(regs[msb as int], msbAck), Received(regs[msb as int + 1], lsbAck))
    }

    /** The C++ constructor leaves M and R_sense unset; here they start at 0,
        which is not a gain, so no conversion that needs them is enabled. */
    constructor (bus: array<bv8>)
      requires bus.Length == REGISTER_COUNT
      ensures Valid() && regs == bus && address == I2C_ADDRESS
      ensures m == 0 && rSense == 0
    {
      regs := bus;
      address := I2C_ADDRESS;
      m, rSense := 0, 0;
    }

    /** Reads one register. A failed read reports `failed` and leaves 0xFF. */
    method ReadRegister(reg: bv8, ack: bool) returns (output: bv8, failed: bool)
      requires Valid() && (reg as int) < REGISTER_COUNT
      ensures failed == !ack
      ensures output == if ack then regs[reg as int] else 0xFF
    {
      output := 0xFF;
      if ack {
        output := regs[reg as int];
        failed := false;
      } else {
        failed := true;
      }
    }

    /** Writes one register; a failed write changes nothing. */
    method WriteRegister(reg: bv8, val: bv8, ack: bool) returns (failed: bool)
      requires Valid() && (reg as int) < REGISTER_COUNT
      modifies regs
      ensures failed == !ack
      ensures regs[..] == if ack then old(regs[..])[reg as int := val] else old(regs[..])
    {
      if ack {
        regs[reg as int] := val;
      }
      failed := !ack;
    }

    /** The chip is present when the status read succeeds and its
        identification bits match DEVICE_ID. */
    method Ping(ack: bool) returns (present: bool)
      requires Valid()
      ensures present <==> ack && DeviceMatches(regs[STATUS_REG as int])
    {
      var status, failed := ReadRegister(STATUS_REG, ack);
      if !failed {
        present := DeviceMatches(status);
      } else {
        present := false;
      }
    }

    /** Configures the prescaler for capacity q (mAh), sense resistor r (mΩ) and
        maximum current i (mA): stores R, selects M = 2^step by halving
        Q·R / 2176 until it is at most 1 and capping the count at 7, and writes
        AUTOMATIC_MODE | prescaler | DISABLE_ALCC_PIN to CONTROL_REG. The
        write's result is discarded; M and R_sense are set either way. */
    method Init(q: UShort, r: UShort, i: UShort, ack: bool)
      requires Valid()
      modifies this, regs
      ensures Valid() && IsGain(m)
      ensures rSense == r
      ensures m == Pow2(PrescalerStep(q, r, i))
      ensures regs[..] == if ack then old(regs[..])[CONTROL_REG as int := ControlByte(PrescalerStep(q, r, i))]
                          else old(regs[..])
    {
      rSense := r;
      var step: UChar := 0;
      if q < i / 10 {
        GuardedProductFits(q, r, i);
        // temp > 1.0 after `step` halvings exactly when Q·R > 2176 · 2^step
        var threshold := HALVING_BASE;
        while q * r > threshold
          invariant step <= HalvingSteps(q * r)
          invariant threshold == HALVING_BASE * Pow2(step)
          decreases q * r - threshold
        {
          threshold := threshold * 2;
          step := step + 1;
        }
        if step >= 7 {
          step := 7;
        }
      } else {
        step := 7;
      }
      ControlByteLayout(step);
      var failed := WriteRegister(CONTROL_REG, ControlByte(step), ack);
      m := Pow2(step);
    }

    /** Zeroes the accumulated charge: saves CONTROL_REG, sets its shutdown bit,
        writes 0 to both charge registers and writes the saved value back. The
        five bus results are discarded, so a failed read of CONTROL_REG saves
        0xFF and writes that back. */
    method ResetCharge(readAck: bool, shutdownAck: bool, msbAck: bool, lsbAck: bool, restoreAck: bool)
      requires Valid()
      modifies regs
      ensures var saved := Received(old(regs[CONTROL_REG as int]), readAck);
              regs[CONTROL_REG as int] == if restoreAck then saved
                                          else if shutdownAck then saved | SHUTDOWN_MODE
                                          else old(regs[CONTROL_REG as int])
      ensures regs[ACCUM_CHARGE_MSB_REG as int] == if msbAck then 0 else old(regs[ACCUM_CHARGE_MSB_REG as int])
      ensures regs[ACCUM_CHARGE_LSB_REG as int] == if lsbAck then 0 else old(regs[ACCUM_CHARGE_LSB_REG as int])
      ensures forall k :: 0 <= k < REGISTER_COUNT && k !in ResetTouched() ==> regs[k] == old(regs[k])
      ensures readAck && shutdownAck && msbAck && lsbAck && restoreAck ==>
                regs[..] == old(regs[..])[ACCUM_CHARGE_MSB_REG as int := 0][ACCUM_CHARGE_LSB_REG as int := 0]
    {
      var saved, f0 := ReadRegister(CONTROL_REG, readAck);
      var f1 := WriteRegister(CONTROL_REG, saved | SHUTDOWN_MODE, shutdownAck);
      var f2 := WriteRegister(ACCUM_CHARGE_MSB_REG, 0x00, msbAck);
      var f3 := WriteRegister(ACCUM_CHARGE_LSB_REG, 0x00, lsbAck);
      var f4 := WriteRegister(CONTROL_REG, saved, restoreAck);
    }

    /** Battery voltage in mV from the voltage register pair; the flag is the OR
        of the two read failures. */
    method ReadVoltage(msbAck: bool, lsbAck: bool) returns (voltage: int, failed: bool)
      requires Valid()
      ensures failed == (!msbAck || !lsbAck)
      ensures voltage == VoltageMillivolts(PairCode(VOLTAGE_MSB_REG, msbAck, lsbAck))
    {
      var msb, ret1 := ReadRegister(VOLTAGE_MSB_REG, msbAck);
      var lsb, ret2 := ReadRegister(VOLTAGE_LSB_REG, lsbAck);
      voltage := VoltageMillivolts(Code(msb, lsb));
      failed := ret1 || ret2;
    }

    /** Temperature in hundredths of a degree Celsius from the temperature
        register pair, computed as the driver does and equal to the exact
        floor value for every code; the flag is the OR of the two read
        failures. */
    method CodeToCelsiusTemperature(msbAck: bool, lsbAck: bool) returns (temperature: int, failed: bool)
      requires Valid()
      ensures failed == (!msbAck || !lsbAck)
      ensures temperature == TemperatureAsWritten(PairCode(TEMPERATURE_MSB_REG, msbAck, lsbAck))
      ensures temperature == TemperatureCentiCelsius(PairCode(TEMPERATURE_MSB_REG, msbAck, lsbAck))
    {
      var msb, ret1 := ReadRegister(TEMPERATURE_MSB_REG, msbAck);
      var lsb, ret2 := ReadRegister(TEMPERATURE_LSB_REG, lsbAck);
      temperature := TemperatureAsWritten(Code(msb, lsb));
      TemperatureAsWrittenIsExact(Code(msb, lsb));
      failed := ret1 || ret2;
    }

    /** Accumulated charge in µAh from the charge register pair; needs a
        nonzero R_sense, which the division requires. */
    method ReadAvailableCapacity(msbAck: bool, lsbAck: bool) returns (uah: int, failed: bool)
      requires Valid() && rSense > 0
      ensures failed == (!msbAck || !lsbAck)
      ensures uah == MicroAmpHours(PairCode(ACCUM_CHARGE_MSB_REG, msbAck, lsbAck), m, rSense)
      ensures var exact := PairCode(ACCUM_CHARGE_MSB_REG, msbAck, lsbAck) * CHARGE_LSB * m * 50;
              uah * (rSense * 128) <= exact < (uah + 10) * (rSense * 128)
    {
      var msb, ret1 := ReadRegister(ACCUM_CHARGE_MSB_REG, msbAck);
      var lsb, ret2 := ReadRegister(ACCUM_CHARGE_LSB_REG, lsbAck);
      uah := MicroAmpHours(Code(msb, lsb), m, rSense);
      failed := ret1 || ret2;
    }

    /** Accumulated charge in mC: the µAh reading times 36, divided by 10, in a
        32-bit `unsigned long`, with the capacity read's flag passed on. It is
        exact whenever 3 · M <= 128 · R_sense. */
    method ReadCharge(msbAck: bool, lsbAck: bool) returns (coulomb: int, failed: bool)
      requires Valid() && rSense > 0
      ensures failed == (!msbAck || !lsbAck)
      ensures coulomb == MilliCoulombsAsWritten(MicroAmpHours(PairCode(ACCUM_CHARGE_MSB_REG, msbAck, lsbAck), m, rSense))
      ensures m <= 128 && 3 * m <= 128 * rSense ==>
                coulomb * 10 == MicroAmpHours(PairCode(ACCUM_CHARGE_MSB_REG, msbAck, lsbAck), m, rSense) * 36
    {
      var uah;
      uah, failed := ReadAvailableCapacity(msbAck, lsbAck);
      coulomb := MilliCoulombsAsWritten(uah);
      if m <= 128 && 3 * m <= 128 * rSense {
        MilliCoulombsAsWrittenExactForSense(PairCode(ACCUM_CHARGE_MSB_REG, msbAck, lsbAck), m, rSense);
      }
    }
  }
}
