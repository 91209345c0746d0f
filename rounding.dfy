/** The two rounding rules the system uses on confidences: JavaScript's
    `Math.round` (halves go up) in the frontend, and Python 3's built-in
    `round` on a float (halves go to the even neighbour) in the backend.
    Confidences are modelled as exact reals; floating-point error is not. */
module Rounding {

  /** `Math.round(x)`: the nearest integer, a half rounded towards +infinity. */
  function JsRound(x: real): (r: int)
    ensures r as real - 0.5 <= x < r as real + 0.5
  {
    (x + 0.5).Floor
  }

  /** Python `round(x)` for a float `x`: the nearest integer, a half rounded
      to the even neighbour. On an `int` Python's `round` is the identity,
      which `PyRoundOfInt` shows this agrees with. */
  function PyRound(x: real): (r: int)
    ensures r as real - 0.5 <= x <= r as real + 0.5
    ensures (x == r as real - 0.5 || x == r as real + 0.5) ==> r % 2 == 0
  {
    var f := x.Floor;
    var d := x - f as real;
    if d < 0.5 then f
    else if d > 0.5 then f + 1
    else if f % 2 == 0 then f
    else f + 1
  }

  /** A value lies exactly half-way between two integers. */
  predicate IsHalf(x: real) {
    x - x.Floor as real == 0.5
  }

  lemma JsRoundOfInt(n: int)
    ensures JsRound(n as real) == n
  {
  }

  lemma PyRoundOfInt(n: int)
    ensures PyRound(n as real) == n
  {
  }

  /** Away from half-way points both rules pick the unique nearest integer. */
  lemma RoundingsAgreeOffHalves(x: real)
    requires !IsHalf(x)
    ensures JsRound(x) == PyRound(x)
  {
    var f := x.Floor;
    if x - f as real < 0.5 {
      assert JsRound(x) == f;
    } else {
      assert JsRound(x) == f + 1;
    }
  }

  /** At a half-way point the rules split exactly when the lower neighbour is
      even: JavaScript goes up, Python stays on the even integer. */
  lemma RoundingsAtHalves(x: real)
    requires IsHalf(x)
    ensures JsRound(x) == x.Floor + 1
    ensures PyRound(x) == (if x.Floor % 2 == 0 then x.Floor else x.Floor + 1)
  {
    assert x + 0.5 == (x.Floor + 1) as real;
  }

  lemma JsRoundMonotone(x: real, y: real)
    requires x <= y
    ensures JsRound(x) <= JsRound(y)
  {
  }

  lemma PyRoundMonotone(x: real, y: real)
    requires x <= y
    ensures PyRound(x) <= PyRound(y)
  {
  }
}
