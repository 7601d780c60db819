/** Real arithmetic as the pipeline uses it on JavaScript numbers. */
module Numbers {

  function Abs(x: real): (r: real)
    ensures r >= 0.0 && (r == x || r == -x)
  {
    if x < 0.0 then -x else x
  }

  /** `Math.abs` on a whole number of milliseconds. */
  function AbsInt(x: int): (r: nat)
    ensures r == x || r == -x
  {
    if x < 0 then -x else x
  }

  /**
   * Division. JavaScript yields Infinity or NaN for a zero divisor; those values are not
   * modelled, and a zero divisor gives 0 here.
   */
  function Div(a: real, b: real): (r: real)
    ensures b != 0.0 ==> r * b == a
  {
    if b == 0.0 then 0.0 else a / b
  }

  /** The relative tolerance `1e-6` used to accept two amounts as the same. */
  const Tolerance: real := 0.000001
}
