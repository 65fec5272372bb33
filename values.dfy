/**
 * JavaScript values as they reach the controller client: a field of a parsed
 * telemetry frame is either absent (`undefined`), `null`, or a number.
 * Numbers are modelled as mathematical reals (no NaN, no infinities).
 */
module Values {

  datatype Option<+T> = None | Some(value: T)

  /** A field read from a parsed JSON object. */
  datatype Sample = Undefined | Null | Num(n: real)

  /** What a field can hold once a frame has written it: `x !== undefined` was checked first. */
  type Reading = s: Sample | !s.Undefined? witness Num(0.0)

  /** `Number(r)`: JavaScript coerces `null` to 0 in arithmetic and comparisons. */
  function ToNumber(r: Reading): (v: real)
    ensures r.Num? ==> v == r.n
    ensures r.Null? ==> v == 0.0
  {
    if r.Num? then r.n else 0.0
  }

  /** JavaScript truthiness of a stored reading: `null` and `0` are falsy. */
  predicate Truthy(r: Reading)
  {
    r.Num? && r.n != 0.0
  }

  function Abs(x: real): real
  {
    if x < 0.0 then -x else x
  }

  function Min(a: real, b: real): real
  {
    if a <= b then a else b
  }

  function Max(a: real, b: real): real
  {
    if a <= b then b else a
  }

  /** `Math.max(lo, Math.min(hi, x))`. */
  function Clamp(x: real, lo: real, hi: real): (r: real)
    requires lo <= hi
    ensures lo <= r <= hi
    ensures lo <= x <= hi ==> r == x
    ensures x > hi ==> r == hi
    ensures x < lo ==> r == lo
  {
    Max(lo, Min(hi, x))
  }

  /** `THREE.MathUtils.lerp(x, y, t)`, which three.js computes as `(1 - t) * x + t * y`. */
  function Lerp(x: real, y: real, t: real): real
  {
    (1.0 - t) * x + t * y
  }

  /** With an interpolation factor in [0, 1] the eased value never leaves the interval between start and target. */
  lemma LerpBetween(x: real, y: real, t: real)
    requires 0.0 <= t <= 1.0
    ensures Min(x, y) <= Lerp(x, y, t) <= Max(x, y)
  {
    var w := y - x;
    assert Lerp(x, y, t) == x + t * w;
    if x <= y {
      MulBelow(t, w);
    } else {
      MulBelow(t, -w);
      assert t * w == -(t * -w);
    }
  }

  lemma MulBelow(t: real, w: real)
    requires 0.0 <= t <= 1.0 && 0.0 <= w
    ensures 0.0 <= t * w <= w
  {
    assert w - t * w == (1.0 - t) * w;
  }
}
