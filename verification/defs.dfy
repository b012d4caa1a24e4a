/** Register map, command codes and conversion constants of the LTC2942 battery gas
    gauge (LTC2942.h), with the facts about their bit layout that the driver relies on. */
module Ltc2942Defs {

  /** Value ranges of the C types the driver uses on its 32-bit target. */
  type UChar = x: int | 0 <= x < 0x100
  type UShort = x: int | 0 <= x < 0x1_0000

  const I2C_ADDRESS: bv8 := 0x64
  const I2C_ALERT_RESPONSE: bv8 := 0x0C
  const DEVICE_ID: bv8 := 0x00
  /** Mask `ping` applies to the status register: the two identification bits. */
  const ID_MASK: bv8 := 0xC0

  // Registers
  const STATUS_REG: bv8 := 0x00
  const CONTROL_REG: bv8 := 0x01
  const ACCUM_CHARGE_MSB_REG: bv8 := 0x02
  const ACCUM_CHARGE_LSB_REG: bv8 := 0x03
  const CHARGE_THRESH_HIGH_MSB_REG: bv8 := 0x04
  const CHARGE_THRESH_HIGH_LSB_REG: bv8 := 0x05
  const CHARGE_THRESH_LOW_MSB_REG: bv8 := 0x06
  const CHARGE_THRESH_LOW_LSB_REG: bv8 := 0x07
  const VOLTAGE_MSB_REG: bv8 := 0x08
  const VOLTAGE_LSB_REG: bv8 := 0x09
  const VOLTAGE_THRESH_HIGH_REG: bv8 := 0x0A
  const VOLTAGE_THRESH_LOW_REG: bv8 := 0x0B
  const TEMPERATURE_MSB_REG: bv8 := 0x0C
  const TEMPERATURE_LSB_REG: bv8 := 0x0D
  const TEMPERATURE_THRESH_HIGH_REG: bv8 := 0x0E
  const TEMPERATURE_THRESH_LOW_REG: bv8 := 0x0F

  /** Number of registers in the chip's register file. */
  const REGISTER_COUNT := 16

  // Command codes: ADC mode (bits 7-6)
  const AUTOMATIC_MODE: bv8 := 0xC0
  const MANUAL_VOLTAGE: bv8 := 0x80
  const MANUAL_TEMPERATURE: bv8 := 0x40
  const SLEEP_MODE: bv8 := 0x00

  // Command codes: prescaler M (bits 5-3)
  const PRESCALAR_M_1: bv8 := 0x00
  const PRESCALAR_M_2: bv8 := 0x08
  const PRESCALAR_M_4: bv8 := 0x10
  const PRESCALAR_M_8: bv8 := 0x18
  const PRESCALAR_M_16: bv8 := 0x20
  const PRESCALAR_M_32: bv8 := 0x28
  const PRESCALAR_M_64: bv8 := 0x30
  const PRESCALAR_M_128: bv8 := 0x38

  // Command codes: AL/CC pin configuration (bits 2-1)
  const ALERT_MODE: bv8 := 0x04
  const CHARGE_COMPLETE_MODE: bv8 := 0x02
  const DISABLE_ALCC_PIN: bv8 := 0x00

  // Command codes: shutdown (bit 0)
  const SHUTDOWN_MODE: bv8 := 0x01

  /** The mode codes, the AL/CC pin codes, and the MSB addresses of the 16-bit
      register pairs. */
  const MODE_CODES: set<bv8> := {AUTOMATIC_MODE, MANUAL_VOLTAGE, MANUAL_TEMPERATURE, SLEEP_MODE}
  const ALCC_CODES: set<bv8> := {ALERT_MODE, CHARGE_COMPLETE_MODE, DISABLE_ALCC_PIN}
  const PAIR_MSB_REGS: set<bv8> := {ACCUM_CHARGE_MSB_REG, CHARGE_THRESH_HIGH_MSB_REG,
                                    CHARGE_THRESH_LOW_MSB_REG, VOLTAGE_MSB_REG, TEMPERATURE_MSB_REG}
  /** Every register address the header defines. */
  const ALL_REGS: set<bv8> := {STATUS_REG, CONTROL_REG, ACCUM_CHARGE_MSB_REG, ACCUM_CHARGE_LSB_REG,
                               CHARGE_THRESH_HIGH_MSB_REG, CHARGE_THRESH_HIGH_LSB_REG,
                               CHARGE_THRESH_LOW_MSB_REG, CHARGE_THRESH_LOW_LSB_REG,
                               VOLTAGE_MSB_REG, VOLTAGE_LSB_REG, VOLTAGE_THRESH_HIGH_REG,
                               VOLTAGE_THRESH_LOW_REG, TEMPERATURE_MSB_REG, TEMPERATURE_LSB_REG,
                               TEMPERATURE_THRESH_HIGH_REG, TEMPERATURE_THRESH_LOW_REG}

  // The four bit fields of the control register
  const MODE_FIELD: bv8 := 0xC0
  const PRESCALER_FIELD: bv8 := 0x38
  const ALCC_FIELD: bv8 := 0x06
  const SHUTDOWN_FIELD: bv8 := 0x01

  // Conversion constants
  const CHARGE_LSB := 85              // µAh per accumulator count (M = 128, 50 mΩ)
  const FULLSCALE_VOLTAGE := 6000     // mV
  const FULLSCALE_TEMPERATURE := 600  // K

  /** The prescaler command code for gain 2^step, as the eight PRESCALAR_M_x
      constants list it. */
  function PrescalerEncoding(step: nat): (code: bv8)
    requires step < 8
    ensures code == (step as bv8) << 3
    ensures code & PRESCALER_FIELD == code
  {
    match step
    case 0 => PRESCALAR_M_1
    case 1 => PRESCALAR_M_2
    case 2 => PRESCALAR_M_4
    case 3 => PRESCALAR_M_8
    case 4 => PRESCALAR_M_16
    case 5 => PRESCALAR_M_32
    case 6 => PRESCALAR_M_64
    case 7 => PRESCALAR_M_128
  }

  /** Reads the prescaler step back out of a control-register value. */
  function PrescalerStepOf(control: bv8): (step: nat)
    ensures step < 8
  {
    ((control & PRESCALER_FIELD) >> 3) as nat
  }

  /** The encoding is a bijection between the steps 0..7 and the values of the
      3-bit prescaler field: decoding inverts encoding, and every value that lies
      inside the field is the encoding of its decoded step. */
  lemma PrescalerEncodingBijective(step: nat, field: bv8)
    requires step < 8
    ensures PrescalerStepOf(PrescalerEncoding(step)) == step
    ensures field & PRESCALER_FIELD == field ==> PrescalerEncoding(PrescalerStepOf(field)) == field
  {
  }

  /** The four fields of the control register are pairwise disjoint and together
      cover the byte; every command code lies inside its own field. */
  lemma ControlFieldsDisjoint()
    ensures MODE_FIELD & PRESCALER_FIELD == 0 && MODE_FIELD & ALCC_FIELD == 0
    ensures MODE_FIELD & SHUTDOWN_FIELD == 0 && PRESCALER_FIELD & ALCC_FIELD == 0
    ensures PRESCALER_FIELD & SHUTDOWN_FIELD == 0 && ALCC_FIELD & SHUTDOWN_FIELD == 0
    ensures MODE_FIELD | PRESCALER_FIELD | ALCC_FIELD | SHUTDOWN_FIELD == 0xFF
    ensures forall mode :: mode in MODE_CODES ==> mode & MODE_FIELD == mode
    ensures forall alcc :: alcc in ALCC_CODES ==> alcc & ALCC_FIELD == alcc
    ensures SHUTDOWN_MODE & SHUTDOWN_FIELD == SHUTDOWN_MODE
  {
  }

  /** A control byte assembled by OR-ing one value per field. */
  function ControlWord(mode: bv8, prescaler: bv8, alcc: bv8, shutdown: bv8): bv8
  {
    mode | prescaler | alcc | shutdown
  }

  /** OR-ing values that each stay in their own field loses nothing: masking the
      assembled byte with a field gives back exactly that field's value. */
  lemma ControlWordFieldsRecoverable(mode: bv8, prescaler: bv8, alcc: bv8, shutdown: bv8)
    requires mode & MODE_FIELD == mode && prescaler & PRESCALER_FIELD == prescaler
    requires alcc & ALCC_FIELD == alcc && shutdown & SHUTDOWN_FIELD == shutdown
    ensures ControlWord(mode, prescaler, alcc, shutdown) & MODE_FIELD == mode
    ensures ControlWord(mode, prescaler, alcc, shutdown) & PRESCALER_FIELD == prescaler
    ensures ControlWord(mode, prescaler, alcc, shutdown) & ALCC_FIELD == alcc
    ensures ControlWord(mode, prescaler, alcc, shutdown) & SHUTDOWN_FIELD == shutdown
  {
  }

  /** Setting SHUTDOWN_MODE in a control value sets bit 0 and leaves bits 7-1 alone. */
  lemma ShutdownTouchesOnlyBitZero(control: bv8)
    ensures (control | SHUTDOWN_MODE) & !SHUTDOWN_FIELD == control & !SHUTDOWN_FIELD
    ensures (control | SHUTDOWN_MODE) & SHUTDOWN_FIELD == SHUTDOWN_FIELD
  {
  }

  /** Every 16-bit quantity sits at an even MSB address with its LSB right after
      it, and every register address is inside the 16-byte register file. */
  lemma RegisterPairsAdjacent()
    ensures forall msb :: msb in PAIR_MSB_REGS ==> msb % 2 == 0
    ensures ACCUM_CHARGE_LSB_REG == ACCUM_CHARGE_MSB_REG + 1
    ensures CHARGE_THRESH_HIGH_LSB_REG == CHARGE_THRESH_HIGH_MSB_REG + 1
    ensures CHARGE_THRESH_LOW_LSB_REG == CHARGE_THRESH_LOW_MSB_REG + 1
    ensures VOLTAGE_LSB_REG == VOLTAGE_MSB_REG + 1
    ensures TEMPERATURE_LSB_REG == TEMPERATURE_MSB_REG + 1
    ensures forall reg :: reg in ALL_REGS ==> (reg as int) < REGISTER_COUNT
  {
  }

  /** DEVICE_ID lies inside the identification mask, so `ping`'s masked
      comparison can succeed; and a status byte matches exactly when its two
      identification bits are zero. */
  lemma DeviceIdWithinMask(status: bv8)
    ensures DEVICE_ID & ID_MASK == DEVICE_ID
    ensures (status & ID_MASK == DEVICE_ID) <==> status < 0x40
  {
  }
}
