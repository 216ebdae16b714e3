/**
 * `MotorSim`: a simulated motor for hosted builds. It keeps the commanded input, the load, the
 * speed and the encoder position, and advances them from the time elapsed since the last
 * update. The clock reading is a parameter of `Update`; floats are exact reals.
 */
module MotorSims {
  import opened FixedWidth
  import opened RealArith
  import ByteCodec

  /** `limitVal` on integers (assumed: below `min` gives `min`, above `max` gives `max`, otherwise the value). */
  function LimitValInt(v: int, min: int, max: int): (r: int)
    requires min <= max
    ensures min <= r <= max
    ensures min <= v <= max ==> r == v
    ensures v < min ==> r == min
    ensures v > max ==> r == max
  {
    if v < min then min else if v > max then max else v
  }

  /** `limitVal` on floats. */
  function LimitValReal(v: real, min: real, max: real): (r: real)
    requires min <= max
    ensures min <= r <= max
    ensures min <= v <= max ==> r == v
    ensures v < min ==> r == min
    ensures v > max ==> r == max
  {
    if v < min then min else if v > max then max else v
  }

  /**
   * The C++ `%` on `int`, which truncates the quotient toward zero: the remainder takes the
   * sign of the dividend and is smaller than the divisor in magnitude.
   */
  function TruncRem(a: int, m: int): (r: int)
    requires m > 0
    ensures -m < r < m
    ensures a >= 0 ==> r >= 0
    ensures a <= 0 ==> r <= 0
    ensures r % m == a % m
  {
    if a >= 0 then a % m
    else
      var q, s := (-a) / m, (-a) % m;
      if s == 0 then
        ByteCodec.DivModUnique(a, m, -q, 0);
        0
      else
        ByteCodec.DivModUnique(a, m, -q - 1, m - s);
        ByteCodec.DivModUnique(-s, m, -1, m - s);
        -s
  }

  /** Unlike Dafny's own `%`, the C++ remainder of a negative dividend that `m` does not divide is negative. */
  lemma TruncRemOfNegative(a: int, m: int)
    requires m > 0 && a < 0 && a % m != 0
    ensures TruncRem(a, m) < 0 && TruncRem(a, m) == a % m - m
  {
    var r := TruncRem(a, m);
    assert r != 0 by {
      if r == 0 {
        ByteCodec.DivModUnique(0, m, 0, 0);
      }
    }
    ByteCodec.DivModUnique(r, m, -1, r + m);
  }

  /** The simulator's configuration constants. */
  datatype Config = Config(
    maxencoder: int,
    maxInputMag: int16,
    maxCurrent: real,
    kt: real,
    maxW: real,
    wtGrad: real,
    currentLim: real)

  /** The configuration the arithmetic needs: positive divisors and magnitudes. */
  predicate ValidConfig(c: Config)
  {
    c.maxencoder > 0 && c.maxInputMag > 0 && c.maxCurrent >= 0.0 && c.kt >= 0.0 && c.currentLim != 0.0
  }

  /** `MILLISECOND_PER_MINUTE`. */
  const MILLISECOND_PER_MINUTE: real := 60000.0

  /** The speed `update` computes from the load and the current. */
  function Speed(config: Config, load: real, current: real): real
    requires ValidConfig(config)
  {
    (config.maxW - config.wtGrad * load) * current / config.currentLim
  }

  /** The encoder count `update` computes: the count advanced by the turn made in `dt` ms, truncated to `int`, then reduced by `%`. */
  function NextEncoder(config: Config, enc: int, rpm: real, dt: real): (next: int)
    requires ValidConfig(config)
    ensures -config.maxencoder < next < config.maxencoder
  {
    TruncRem(Trunc(enc as real + config.maxencoder as real * rpm * dt / MILLISECOND_PER_MINUTE), config.maxencoder)
  }

  /** Standing still, a negative speed over time moves the encoder to a negative count. */
  lemma EncoderGoesNegative(config: Config)
    requires ValidConfig(config) && config.maxencoder == 8192
    ensures NextEncoder(config, 0, -60.0, 1.0) == -8
  {
    assert 8192.0 * -60.0 * 1.0 / 60000.0 == -8.192;
    assert Trunc(-8.192) == -8;
  }

  /** A count past 2^15 - 1 reads back from `getEnc` as a negative `int16_t`. */
  lemma EncoderReadingWraps()
    ensures ToInt16(40000) as int == 40000 - 0x1_0000
  {
  }

  class MotorSim {
    const config: Config
    var enc: int
    var rpm: real
    var input: int16
    var load: real
    var prevTime: uint32

    /** The input stays within the configured magnitude and the encoder within one revolution. */
    predicate Valid()
      reads this
    {
      ValidConfig(config) && -config.maxInputMag <= input <= config.maxInputMag && -config.maxencoder < enc < config.maxencoder
    }

    /** The constructor stores the configuration and resets the motor. */
    constructor(config: Config)
      requires ValidConfig(config)
      ensures this.config == config && enc == 0 && rpm == 0.0 && input == 0
      ensures Valid()
    {
      this.config := config;
      enc, rpm, input := 0, 0.0, 0;
    }

    /** `reset`: the encoder, the speed and the input become 0; the load and the time are kept. */
    method Reset()
      requires ValidConfig(config)
      modifies this
      ensures enc == 0 && rpm == 0.0 && input == 0
      ensures load == old(load) && prevTime == old(prevTime)
      ensures Valid()
    {
      enc := 0;
      rpm := 0.0;
      input := 0;
    }

    /** `setMotorInput`: the input is clamped to `[-maxInputMag, maxInputMag]`; nothing else changes. */
    method SetMotorInput(inValue: int16)
      requires Valid()
      modifies this
      ensures input as int == LimitValInt(inValue as int, -config.maxInputMag as int, config.maxInputMag as int)
      ensures -config.maxInputMag <= inValue <= config.maxInputMag ==> input == inValue
      ensures enc == old(enc) && rpm == old(rpm) && load == old(load) && prevTime == old(prevTime)
      ensures Valid()
    {
      input := LimitValInt(inValue as int, -config.maxInputMag as int, config.maxInputMag as int) as int16;
    }

    /** `getMaxTorque`: the maximum current times the torque constant. */
    function GetMaxTorque(): (t: real)
      reads this
      requires ValidConfig(config)
      ensures t >= 0.0
    {
      config.maxCurrent * config.kt
    }

    /** `setLoad`: the load is clamped to `[-maxTorque, maxTorque]`; nothing else changes. */
    method SetLoad(loadValue: real)
      requires Valid()
      modifies this
      ensures load == LimitValReal(loadValue, -GetMaxTorque(), GetMaxTorque())
      ensures Abs(load) <= GetMaxTorque()
      ensures enc == old(enc) && rpm == old(rpm) && input == old(input) && prevTime == old(prevTime)
      ensures Valid()
    {
      load := LimitValReal(loadValue, -GetMaxTorque(), GetMaxTorque());
    }

    /** `getCurrent`: the input as a fraction of its maximum, times the maximum current; never more than that maximum in magnitude. */
    function GetCurrent(): (current: real)
      reads this
      requires Valid()
      ensures Abs(current) <= config.maxCurrent
      ensures current * config.maxInputMag as real == config.maxCurrent * input as real
    {
      Current(config, input)
    }

    /**
     * `update`, with `now` the clock reading: the time since the previous update (a `uint32_t`
     * difference) drives the encoder, the speed is recomputed from the load and the current,
     * and `now` becomes the previous time.
     */
    method Update(now: uint32)
      requires Valid()
      modifies this
      ensures prevTime == now
      ensures rpm == Speed(config, load, Current(config, old(input)))
      ensures enc == NextEncoder(config, old(enc), rpm, Sub32(now, old(prevTime)) as real)
      ensures input == old(input) && load == old(load)
      ensures Valid()
    {
      var curTime := now;
      var dt := Sub32(curTime, prevTime) as real;
      prevTime := curTime;
      rpm := Speed(config, load, GetCurrent());
      enc := NextEncoder(config, enc, rpm, dt);
    }

    /**
     * `getEnc`: the encoder count, converted to the `int16_t` it returns. The count is kept
     * whenever it fits in 16 bits, as it always does for an encoder of at most 2^15 steps.
     */
    function GetEnc(): (e: int16)
      reads this
      requires Valid()
      ensures -0x8000 <= enc < 0x8000 ==> e as int == enc
      ensures config.maxencoder <= 0x8000 ==> e as int == enc && -config.maxencoder < e as int < config.maxencoder
      ensures (enc - e as int) % 0x1_0000 == 0
    {
      ToInt16(enc)
    }
  }

  /** The current drawn at a given input: the input as a fraction of its maximum, times the maximum current. */
  function Current(config: Config, input: int16): (current: real)
    requires ValidConfig(config) && -config.maxInputMag <= input <= config.maxInputMag
    ensures Abs(current) <= config.maxCurrent
    ensures current * config.maxInputMag as real == config.maxCurrent * input as real
  {
    Fraction(config.maxCurrent, input as real, config.maxInputMag as real)
  }

  /** `maxCurrent * input / maxInput` for an input no larger than its maximum in magnitude. */
  function Fraction(maxCurrent: real, input: real, maxInput: real): (r: real)
    requires maxCurrent >= 0.0 && maxInput > 0.0 && -maxInput <= input <= maxInput
    ensures Abs(r) <= maxCurrent
    ensures r * maxInput == maxCurrent * input
  {
    CurrentBound(maxCurrent, input, maxInput);
    maxCurrent * input / maxInput
  }

  /** A fraction of at most one in magnitude of a non-negative maximum is at most that maximum. */
  lemma CurrentBound(maxCurrent: real, input: real, maxInput: real)
    requires maxCurrent >= 0.0 && maxInput > 0.0 && -maxInput <= input <= maxInput
    ensures Abs(maxCurrent * input / maxInput) <= maxCurrent
    ensures (maxCurrent * input / maxInput) * maxInput == maxCurrent * input
  {
    var f := input / maxInput;
    assert f * maxInput == input;
    if f > 1.0 {
      MulStrict(1.0, f, maxInput);
      assert false;
    }
    if f < -1.0 {
      MulStrict(f, -1.0, maxInput);
      assert false;
    }
    assert maxCurrent * input / maxInput == f * maxCurrent;
    if maxCurrent > 0.0 {
      MulWeak(f, 1.0, maxCurrent);
      MulWeak(-1.0, f, maxCurrent);
    }
  }
}
