/**
 * The joystick normaliser shared by the controller views: centre a raw ADC
 * sample, drop it to exactly 0 inside a hard deadzone, otherwise scale it by
 * half the range with a gain of 1.25 and clamp the result to [-1, 1].
 */
module Joystick {
  import opened Values

  /** The per-view constants `JOY_CENTER`, `JOY_MAX` and `DEADZONE`. */
  datatype JoyParams = JoyParams(center: real, max: real, deadzone: real)

  /** Both views use a positive `JOY_MAX` and a non-negative `DEADZONE`. */
  type JoyConfig = c: JoyParams | c.max > 0.0 && c.deadzone >= 0.0 witness JoyParams(0.0, 2048.0, 200.0)

  /** The gain hard-coded in every copy of the normaliser. */
  const Gain: real := 1.25

  /** The Pikachu view's constants: a controller centred on 0. */
  const PikachuJoy: JoyConfig := JoyParams(0.0, 2048.0, 200.0)

  /** The cube-character view's constants: a 12-bit ADC centred on 2048. */
  const CubeJoy: JoyConfig := JoyParams(2048.0, 4095.0, 200.0)

  /** The scaled value before clamping. */
  function Scaled(raw: real, cfg: JoyConfig): real
  {
    (raw - cfg.center) / (cfg.max / 2.0) * Gain
  }

  /** `normalizeJoystick(rawVal)` with the constants of `cfg`. */
  function Normalize(s: Sample, cfg: JoyConfig): (r: real)
    ensures -1.0 <= r <= 1.0
    ensures !s.Num? ==> r == 0.0
    ensures s.Num? && Abs(s.n - cfg.center) < cfg.deadzone ==> r == 0.0
    ensures s.Num? && Abs(s.n - cfg.center) >= cfg.deadzone && s.n > cfg.center ==> r > 0.0
    ensures s.Num? && Abs(s.n - cfg.center) >= cfg.deadzone && s.n < cfg.center ==> r < 0.0
  {
    match s
    case Undefined => 0.0
    case Null => 0.0
    case Num(raw) =>
      if Abs(raw - cfg.center) < cfg.deadzone then 0.0
      else
        SignOfScaled(raw, cfg);
        Clamp(Scaled(raw, cfg), -1.0, 1.0)
  }

  lemma SignOfScaled(raw: real, cfg: JoyConfig)
    ensures raw > cfg.center ==> Scaled(raw, cfg) > 0.0
    ensures raw < cfg.center ==> Scaled(raw, cfg) < 0.0
  {
    var h := cfg.max / 2.0;
    assert h > 0.0;
    if raw > cfg.center {
      assert (raw - cfg.center) / h > 0.0;
    } else if raw < cfg.center {
      assert (cfg.center - raw) / h > 0.0;
      assert (raw - cfg.center) / h == -((cfg.center - raw) / h);
    }
  }

  /** Past the deadzone, the unclamped value grows with the raw sample. */
  lemma ScaledMonotone(a: real, b: real, cfg: JoyConfig)
    requires a <= b
    ensures Scaled(a, cfg) <= Scaled(b, cfg)
  {
    var h := cfg.max / 2.0;
    assert (b - cfg.center) / h - (a - cfg.center) / h == (b - a) / h;
    assert (b - a) / h >= 0.0;
  }

  /**
   * The normaliser is monotone: a larger raw sample never yields a smaller
   * axis value, across the deadzone edge and the clamp.
   */
  lemma NormalizeMonotone(a: real, b: real, cfg: JoyConfig)
    requires a <= b
    ensures Normalize(Num(a), cfg) <= Normalize(Num(b), cfg)
  {
    ScaledMonotone(a, b, cfg);
    SignOfScaled(a, cfg);
    SignOfScaled(b, cfg);
  }

  /** Inside the clamp range the output is linear in the centred sample. */
  lemma NormalizeLinear(raw: real, cfg: JoyConfig)
    requires Abs(raw - cfg.center) >= cfg.deadzone
    requires -1.0 <= Scaled(raw, cfg) <= 1.0
    ensures Normalize(Num(raw), cfg) == (raw - cfg.center) * Gain * 2.0 / cfg.max
  {
    var h := cfg.max / 2.0;
    var d := raw - cfg.center;
    assert cfg.max == 2.0 * h;
    assert d * 2.0 / cfg.max == d * 2.0 / (2.0 * h);
    assert d * 2.0 / (2.0 * h) == d / h;
    assert Scaled(raw, cfg) == d / h * Gain;
  }

  /** Centre 0, range 2048: the deadzone is the open interval (-200, 200), and 200 itself is already outside it. */
  lemma PikachuDeadzoneEdge()
    ensures Normalize(Num(199.0), PikachuJoy) == 0.0
    ensures Normalize(Num(-199.0), PikachuJoy) == 0.0
    ensures Normalize(Num(200.0), PikachuJoy) == 200.0 / 1024.0 * 1.25
    ensures Normalize(Num(-200.0), PikachuJoy) == -(200.0 / 1024.0 * 1.25)
  {
  }

  /** Centre 0, range 2048: a full deflection of 2048 saturates, as does any raw value from 819.2 on. */
  lemma PikachuSaturation(raw: real)
    requires raw >= 819.2
    ensures Normalize(Num(raw), PikachuJoy) == 1.0
  {
    assert Scaled(raw, PikachuJoy) == raw / 1024.0 * 1.25;
  }

  /**
   * Centre 2048, range 4095: 2048 and everything strictly inside (1848, 2248)
   * is 0; 2248 lies on the exclusive edge and already gives a positive value;
   * 4095 is clamped to exactly 1 because the unclamped value exceeds 1.
   */
  lemma CubeReferencePoints()
    ensures Normalize(Num(2048.0), CubeJoy) == 0.0
    ensures Normalize(Num(2247.0), CubeJoy) == 0.0
    ensures Normalize(Num(1849.0), CubeJoy) == 0.0
    ensures Normalize(Num(2248.0), CubeJoy) == 200.0 / 2047.5 * 1.25
    ensures Normalize(Num(2248.0), CubeJoy) > 0.1
    ensures Normalize(Num(2249.0), CubeJoy) > 0.0
    ensures Scaled(4095.0, CubeJoy) > 1.0
    ensures Normalize(Num(4095.0), CubeJoy) == 1.0
    ensures Normalize(Num(0.0), CubeJoy) == -1.0
  {
  }

  /** Centre 2048: the deadzone is exactly the open interval (1848, 2248). */
  lemma CubeDeadzone(raw: real)
    ensures Normalize(Num(raw), CubeJoy) == 0.0 <==> 1848.0 < raw < 2248.0
  {
    if raw >= 2248.0 || raw <= 1848.0 {
      assert Abs(raw - CubeJoy.center) >= CubeJoy.deadzone;
    }
  }
}
