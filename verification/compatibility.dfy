/** `calculate_compatibility` with its random base passed in. */
module Compatibility {
  import opened Zodiac

  /** The bonus added when one attribute of the two signs agrees. */
  const MatchBonus: real := 0.1

  function Bonus(same: bool): real {
    if same then MatchBonus else 0.0
  }

  /** Number of attributes (element, quality) the two signs share. */
  function SharedAttributes(s1: Sign, s2: Sign): (n: nat)
    ensures n <= 2
  {
    (if s1.element == s2.element then 1 else 0) + (if s1.quality == s2.quality then 1 else 0)
  }

  /** The score for a base drawn from `random.uniform(0.5, 1.0)`: the base
      plus 0.1 per shared attribute, capped at 1.0. */
  function Score(s1: Sign, s2: Sign, base: real): (r: real)
    requires 0.5 <= base <= 1.0
    ensures 0.5 <= r <= 1.0
    ensures base <= r <= base + 0.2
    ensures SharedAttributes(s1, s2) == 0 ==> r == base
    ensures r < 1.0 ==> r == base + SharedAttributes(s1, s2) as real * MatchBonus
    ensures r == 1.0 || r == base + SharedAttributes(s1, s2) as real * MatchBonus
    ensures base + SharedAttributes(s1, s2) as real * MatchBonus >= 1.0 ==> r == 1.0
  {
    var total := base + Bonus(s1.element == s2.element) + Bonus(s1.quality == s2.quality);
    if total <= 1.0 then total else 1.0
  }

  /** The score does not depend on the order of the two signs. */
  lemma ScoreSymmetric(s1: Sign, s2: Sign, base: real)
    requires 0.5 <= base <= 1.0
    ensures Score(s1, s2, base) == Score(s2, s1, base)
  {
  }

  /** A larger base never gives a smaller score. */
  lemma ScoreMonotoneInBase(s1: Sign, s2: Sign, b1: real, b2: real)
    requires 0.5 <= b1 <= b2 <= 1.0
    ensures Score(s1, s2, b1) <= Score(s1, s2, b2)
  {
  }

  /** A sign compared with itself always earns both bonuses. */
  lemma SelfScore(s: Sign, base: real)
    requires 0.5 <= base <= 1.0
    ensures SharedAttributes(s, s) == 2
    ensures Score(s, s, base) == if base <= 0.8 then base + 0.2 else 1.0
  {
  }
}
