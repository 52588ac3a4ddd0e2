/** Values shared by every part of the model: the screen size, the sentinel the
    controller uses for "no time-to-impact", Java's integer division, and Option. */
module Common {

  datatype Option<+T> = None | Some(value: T)

  /** Screen size in pixels (SpaceShooter.WIDTH and SpaceShooter.HEIGHT). */
  const ScreenWidthInt: int := 512
  const ScreenHeightInt: int := 800
  const ScreenWidth: real := 512.0
  const ScreenHeight: real := 800.0

  /** Java's Double.MAX_VALUE, (2 - 2^-52) * 2^1023, written out exactly. */
  const DoubleMax: real := 179769313486231570814527423731704356798070567525844996598917476803157260780028538760589558632766878171540458953514382464234321326889464182768467546703537516986049910576551282076245490090389328944075868508455133942304583236903222948165808559332123348274797826204144723168738177180919299881250404026184124858368.0

  function Abs(v: real): (r: real)
    ensures r >= 0.0 && (r == v || r == -v)
  {
    if v < 0.0 then -v else v
  }

  function MaxReal(a: real, b: real): (r: real)
    ensures r >= a && r >= b && (r == a || r == b)
  {
    if a >= b then a else b
  }

  function MinReal(a: real, b: real): (r: real)
    ensures r <= a && r <= b && (r == a || r == b)
  {
    if a <= b then a else b
  }

  /** Java's `a / b` on int for a positive divisor: the quotient is truncated
      toward zero, where Dafny's `/` rounds toward negative infinity. */
  function JavaDiv(a: int, b: int): (q: int)
    requires b > 0
    ensures a >= 0 ==> q == a / b
    ensures a < 0 ==> q == -((-a) / b)
  {
    if a >= 0 then a / b else -((-a) / b)
  }

  /** k steps of v, added up one at a time. */
  function Steps(k: nat, v: real): real
    decreases k
  {
    if k == 0 then 0.0 else Steps(k - 1, v) + v
  }

  /** k steps of v add up to k times v. */
  lemma {:induction false} StepsAreProduct(k: nat, v: real)
    ensures Steps(k, v) == (k as real) * v
    decreases k
  {
    if k > 0 {
      StepsAreProduct(k - 1, v);
      assert ((k - 1) as real) * v + v == (k as real) * v;
    }
  }
}
