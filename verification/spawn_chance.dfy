/**
  Spawn-chance estimator: the weight given to an injected note, scaled
  quadratically by the configured percentage `chance`.
  Arithmetic is exact; the host's IEEE-754 rounding error is not modelled.
 */
module SpawnChance {

  /** JavaScript `Math.round`: the nearest integer, halves rounded up
      (towards positive infinity, so -2.5 rounds to -2). */
  function MathRound(x: real): (r: int)
    ensures x - 0.5 < r as real <= x + 0.5
  {
    (x + 0.5).Floor
  }

  /** Integer reference for rounding n / d to the nearest integer, halves up:
      floor(n/d + 1/2) = floor((2n + d) / (2d)). */
  function RoundedQuotient(n: int, d: int): int
    requires d > 0
  {
    (2 * n + d) / (2 * d)
  }

  /**
    The estimator as written: `guess = chance / 100 * T`, then
    `round(chance / 100 * (T + guess))`. Its result is the integer
    c*T*(100+c) / 10000 rounded to the nearest integer, halves up.
   */
  function GetGuessChanceOfSpawn(chance: int, totalProbability: int): (value: int)
    ensures value == RoundedQuotient(chance * totalProbability * (100 + chance), 10000)
  {
    var c := chance as real;
    var t := totalProbability as real;
    var guess := c / 100.0 * t;
    ExactScaling(chance, totalProbability);
    FloorOfQuotient(2 * (chance * totalProbability * (100 + chance)) + 10000, 20000);
    MathRound((c / 100.0) * (t + guess))
  }

  /** The two-step real computation equals one exact quotient. */
  lemma ExactScaling(chance: int, totalProbability: int)
    ensures var c := chance as real; var t := totalProbability as real;
      (c / 100.0) * (t + c / 100.0 * t) + 0.5
      == (2 * (chance * totalProbability * (100 + chance)) + 10000) as real / 20000.0
  {
    var c := chance as real;
    var t := totalProbability as real;
    var n := chance * totalProbability * (100 + chance);
    assert n as real == c * t * (100.0 + c);
    assert (c / 100.0) * (t + c / 100.0 * t) == c * t * (100.0 + c) / 10000.0;
  }

  /** Floor of an exact real quotient is Dafny's (floor) integer division. */
  lemma FloorOfQuotient(a: int, b: int)
    requires b > 0
    ensures (a as real / b as real).Floor == a / b
  {
    var q, r := a / b, a % b;
    assert a == q * b + r && 0 <= r < b;
    var f := r as real / b as real;
    assert 0.0 <= f < 1.0;
    assert a as real == q as real * b as real + r as real;
    assert a as real / b as real == q as real + f;
  }

  /** A zero percentage, or an empty container, yields weight 0. */
  lemma GuessChanceZero(chance: int, totalProbability: int)
    requires chance == 0 || totalProbability == 0
    ensures GetGuessChanceOfSpawn(chance, totalProbability) == 0
  {
  }

  /** For example, 10 percent of a total of 100 gives round(11) = 11. */
  lemma GuessChanceExample()
    ensures GetGuessChanceOfSpawn(10, 100) == 11
  {
  }

  /** With a non-negative percentage and total the weight is non-negative. */
  lemma GuessChanceNonNegative(chance: int, totalProbability: int)
    requires chance >= 0 && totalProbability >= 0
    ensures GetGuessChanceOfSpawn(chance, totalProbability) >= 0
  {
  }

  /** With a non-negative percentage the weight never decreases as the
      container's total grows. */
  lemma GuessChanceMonotonic(chance: int, t1: int, t2: int)
    requires chance >= 0 && t1 <= t2
    ensures GetGuessChanceOfSpawn(chance, t1) <= GetGuessChanceOfSpawn(chance, t2)
  {
    var k := chance * (100 + chance);
    assert chance * t1 * (100 + chance) == k * t1;
    assert chance * t2 * (100 + chance) == k * t2;
    assert k * t1 <= k * t2 by {
      assert k * (t2 - t1) >= 0;
    }
    DivMonotonic(2 * (k * t1) + 10000, 2 * (k * t2) + 10000, 20000);
  }

  lemma DivMonotonic(a: int, b: int, d: int)
    requires a <= b && d > 0
    ensures a / d <= b / d
  {
    var qa, qb := a / d, b / d;
    assert qa * d <= a <= b < (qb + 1) * d;
  }
}
