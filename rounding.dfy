/**
 * The two rounding functions the contribution arithmetic uses, on exact reals:
 * JavaScript's `Math.round` (nearest integer, ties towards +infinity) and PHP's
 * `round` (nearest integer, ties away from zero).
 */
module Rounding {

  /** JavaScript `Math.round(x)`. */
  function MathRound(x: real): (r: int)
    ensures x - 0.5 < r as real <= x + 0.5
  {
    (x + 0.5).Floor
  }

  /** PHP `round($x)`, that is `round($x, 0)`. */
  function PhpRound(x: real): (r: int)
    ensures x >= 0.0 ==> x - 0.5 < r as real <= x + 0.5
    ensures x < 0.0 ==> x - 0.5 <= r as real < x + 0.5
  {
    if x >= 0.0 then (x + 0.5).Floor else -((-x + 0.5).Floor)
  }

  /** PHP `round($x, 1)`: the nearest multiple of one tenth, ties away from zero. */
  function PhpRoundTenths(x: real): (r: real)
    ensures (r * 10.0).Floor as real == r * 10.0
    ensures x >= 0.0 ==> x - 0.05 < r <= x + 0.05
    ensures x < 0.0 ==> x - 0.05 <= r < x + 0.05
  {
    PhpRound(x * 10.0) as real / 10.0
  }

  /** The two rounding rules agree on every non-negative number. */
  lemma RoundingsAgreeOnNonNegatives(x: real)
    requires x >= 0.0
    ensures MathRound(x) == PhpRound(x)
  {
  }

  /** They disagree on negative ties: `Math.round(-0.5)` is 0, PHP `round(-0.5)` is -1. */
  lemma RoundingsDisagreeOnNegativeTies()
    ensures MathRound(-0.5) == 0 && PhpRound(-0.5) == -1
  {
  }

  /** `Math.round` never decreases when its argument grows. */
  lemma MathRoundMonotone(x: real, y: real)
    requires x <= y
    ensures MathRound(x) <= MathRound(y)
  {
  }
}
