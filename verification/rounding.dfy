/**
 * Rounding of money amounts to four fraction digits, the one rounding
 * policy the line-item tax engine applies everywhere (`Utils.round(x, 4)`).
 */
module Rounding {

  /** Grid steps per unit: four fraction digits. */
  const Scale: real := 10000.0

  /** Half of one grid step: the most that rounding may move a value. */
  const HalfStep: real := 0.00005

  /** `x` has at most four fraction digits. */
  predicate OnGrid(x: real) {
    (x * Scale).Floor as real == x * Scale
  }

  /**
   * Rounds to four fraction digits. Ties go up (towards +infinity); the
   * contract below holds for every usual tie rule, and the rest of the
   * model relies only on the contract.
   */
  function Round4(x: real): (r: real)
    ensures OnGrid(r)
    ensures x - HalfStep <= r <= x + HalfStep
    ensures OnGrid(x) ==> r == x
    ensures 0.0 <= x ==> 0.0 <= r
  {
    var steps := (x * Scale + 0.5).Floor;
    RoundBounds(x, steps);
    steps as real / Scale
  }

  /** The arithmetic behind Round4's contract, for the step count it picks. */
  lemma RoundBounds(x: real, steps: int)
    requires steps == (x * Scale + 0.5).Floor
    ensures OnGrid(steps as real / Scale)
    ensures x - HalfStep <= steps as real / Scale <= x + HalfStep
    ensures OnGrid(x) ==> steps as real / Scale == x
    ensures 0.0 <= x ==> 0 <= steps
  {
    var r := steps as real / Scale;
    assert r * Scale == steps as real;
    assert steps as real <= x * Scale + 0.5 < steps as real + 1.0;
    if OnGrid(x) {
      var k := (x * Scale).Floor;
      assert x * Scale + 0.5 == k as real + 0.5;
      assert steps == k;
    }
  }

  /** The grid is closed under addition. */
  lemma OnGridAdd(a: real, b: real)
    requires OnGrid(a) && OnGrid(b)
    ensures OnGrid(a + b)
  {
    var ka := (a * Scale).Floor;
    var kb := (b * Scale).Floor;
    assert (a + b) * Scale == (ka + kb) as real;
  }
}
