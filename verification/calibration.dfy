/** The prescaler selection of `LTC2942::init` (LTC2942.cpp:58-129), stated as
    functions of the capacity Q (mAh), the sense resistor R (mΩ) and the maximum
    current I (mA). The driver's loop itself is `Driver.Ltc2942.Init`.

    `init` starts from temp = Q·R / (50 · 0.085 · 512) = Q·R / 2176 as a double
    and halves it while temp > 1.0. Halving a double is exact and 2^j is a double,
    so after j halvings temp > 1.0 holds exactly when Q·R > 2176 · 2^j; the model
    uses that integer test. */
module Calibration {
  import opened Ltc2942Defs
  import opened CInt

  /** 50 mΩ · 0.085 mAh · 512, the divisor `init` applies to Q·R. */
  const HALVING_BASE := 2176

  /** The largest gain the chip offers, and its step. */
  const MAX_STEP := 7
  const MAX_GAIN := 128

  function Pow2(n: nat): (p: nat)
    ensures p >= 1
  {
    if n == 0 then 1 else 2 * Pow2(n - 1)
  }

  lemma Pow2Table()
    ensures Pow2(1) == 2 && Pow2(2) == 4 && Pow2(3) == 8 && Pow2(4) == 16
    ensures Pow2(5) == 32 && Pow2(6) == 64 && Pow2(7) == 128 && Pow2(18) == 262144
  {
    assert Pow2(7) == 128;
    assert Pow2(10) == 1024;
    assert Pow2(14) == 16384;
  }

  /** The number of halvings `init` applies to temp = Q·R / 2176 once j have
      been applied already: the least k >= j with Q·R <= 2176 · 2^k. */
  function HalvingStepsFrom(qr: nat, j: nat): (k: nat)
    ensures j <= k
    ensures qr <= HALVING_BASE * Pow2(k)
    ensures forall s :: j <= s < k ==> qr > HALVING_BASE * Pow2(s)
    decreases qr - HALVING_BASE * Pow2(j)
  {
    if qr <= HALVING_BASE * Pow2(j) then j else HalvingStepsFrom(qr, j + 1)
  }

  /** The number of times `init`'s loop halves temp = Q·R / 2176. */
  function HalvingSteps(qr: nat): (k: nat)
    ensures qr <= HALVING_BASE * Pow2(k)
    ensures forall s :: 0 <= s < k ==> qr > HALVING_BASE * Pow2(s)
  {
    HalvingStepsFrom(qr, 0)
  }

  /** The guard of `init`: the capacity is small against the maximum current
      (I / 10 is C integer division). */
  function UsesHalving(q: UShort, i: UShort): (guard: bool)
    ensures guard <==> 10 * (q + 1) <= i
  {
    q < i / 10
  }

  /** The step s (M = 2^s) `init` selects for capacity q, sense resistor r and
      maximum current i. */
  function PrescalerStep(q: UShort, r: UShort, i: UShort): (step: nat)
    ensures step <= MAX_STEP
  {
    if UsesHalving(q, i) then
      var k := HalvingSteps(q * r);
      if k >= MAX_STEP then MAX_STEP else k
    else
      MAX_STEP
  }

  /** The eight gains of the prescaler. */
  predicate IsGain(m: int)
  {
    m in {1, 2, 4, 8, 16, 32, 64, 128}
  }

  /** The byte `init` writes to CONTROL_REG for a step. */
  function ControlByte(step: nat): (control: bv8)
    requires step <= MAX_STEP
    ensures control & MODE_FIELD == AUTOMATIC_MODE
    ensures PrescalerStepOf(control) == step
    ensures control & (ALCC_FIELD | SHUTDOWN_FIELD) == 0
  {
    ControlWord(AUTOMATIC_MODE, PrescalerEncoding(step), DISABLE_ALCC_PIN, 0)
  }

  /** Outside the guard `init` forces M = 128; inside it M is the least power of
      two 2^s whose full scale 2176 · 2^s covers Q·R, capped at 128. So a gain
      below 128 covers Q·R, and half of any chosen gain does not. */
  lemma PrescalerStepTightest(q: UShort, r: UShort, i: UShort)
    ensures !UsesHalving(q, i) ==> PrescalerStep(q, r, i) == MAX_STEP
    ensures UsesHalving(q, i) && PrescalerStep(q, r, i) < MAX_STEP ==>
              q * r <= HALVING_BASE * Pow2(PrescalerStep(q, r, i))
    ensures UsesHalving(q, i) ==>
              forall s :: 0 <= s < PrescalerStep(q, r, i) ==> q * r > HALVING_BASE * Pow2(s)
  {
  }

  /** Inside the guard Q <= 6552, so Q·R fits in a 32-bit `int`, and the loop
      runs at most 18 times, so the `unsigned char` counter cannot wrap. */
  lemma GuardedProductFits(q: UShort, r: UShort, i: UShort)
    requires UsesHalving(q, i)
    ensures q <= 6552
    ensures q * r <= INT32_MAX
    ensures HalvingSteps(q * r) <= 18
  {
    assert q <= 6552;
    assert q * r <= 6552 * 65535 by {
      MulMonotone(r, q, 6552);
      MulMonotone(6552, r, 65535);
    }
    Pow2Table();
    assert q * r <= HALVING_BASE * Pow2(18);
  }

  /** Inside the guard the gain `init` selects is never too large for the sense
      resistor: 3 · M <= 128 · R. Q <= 6552 there, so a step s >= 1 needs
      6552 · R >= Q · R > 2176 · 2^(s-1). */
  lemma GuardedGainNeverWraps(q: UShort, r: UShort, i: UShort)
    requires UsesHalving(q, i) && r > 0
    ensures 3 * Pow2(PrescalerStep(q, r, i)) <= 128 * r
  {
    var s := PrescalerStep(q, r, i);
    PrescalerStepTightest(q, r, i);
    GuardedProductFits(q, r, i);
    if s > 0 {
      var p := Pow2(s - 1);
      assert q * r > HALVING_BASE * p;
      assert 6552 * r >= q * r by {
        MulMonotone(r, q, 6552);
      }
      assert 3 * Pow2(s) == 6 * p;
    }
  }

  /** Every selected M = 2^step is one of the eight gains, fits the
      `unsigned char` field M, and the control byte is AUTOMATIC_MODE with the
      step in the prescaler field and nothing else: 0xC0 | 8 · step. */
  lemma ControlByteLayout(step: nat)
    requires step <= MAX_STEP
    ensures IsGain(Pow2(step)) && Pow2(step) <= MAX_GAIN
    ensures ControlByte(step) == 0xC0 | ((step as bv8) << 3)
    ensures ControlByte(step) & MODE_FIELD == AUTOMATIC_MODE
    ensures PrescalerStepOf(ControlByte(step)) == step
    ensures ControlByte(step) & (ALCC_FIELD | SHUTDOWN_FIELD) == 0
  {
    Pow2Table();
  }

  /** Q = 750 mAh and R = 33 mΩ: with I = 10 A the guard holds and
      Q·R / 2176 ≈ 11.4 needs four halvings, so M = 16 and CONTROL_REG gets
      0xE0; with I = 7.5 A the guard fails (750 < 750 is false) and M = 128. */
  lemma PrescalerExample()
    ensures PrescalerStep(750, 33, 10000) == 4 && Pow2(4) == 16 && ControlByte(4) == 0xE0
    ensures PrescalerStep(750, 33, 7500) == MAX_STEP
  {
    Pow2Table();
    var k := HalvingSteps(750 * 33);
    assert 750 * 33 <= HALVING_BASE * Pow2(k);
    assert 750 * 33 <= HALVING_BASE * Pow2(4);
    assert k in {0, 1, 2, 3} ==> Pow2(k) <= 8;
  }
}
