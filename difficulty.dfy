/**
 * The difficulty controller: spawn delay, bad-item chance and item
 * lifetime as functions of the score, capped at 300.
 */
module Difficulty {

  /** The score's contribution to difficulty, `Math.min(score, 300)`. */
  function Progress(score: int): (p: int)
    ensures p <= 300
    ensures score <= 300 ==> p == score
    ensures score >= 300 ==> p == 300
  {
    if score < 300 then score else 300
  }

  /** Spawn delay in ms: 1200 down to 600. */
  function SpawnDelay(score: int): (r: int)
    ensures r >= 600
    ensures score >= 0 ==> r <= 1200
    ensures score >= 300 ==> r == 600
    ensures 0 <= score <= 300 ==> r == 1200 - 2 * score
  {
    var d := 1200 - Progress(score) * 2;
    if d < 600 then 600 else d
  }

  /** Chance that a normal-mode spawn is a bad item: 0.25 up to 0.5. */
  function BadItemChance(score: int): (r: real)
    ensures r <= 0.5
    ensures score >= 0 ==> 0.25 <= r
    ensures score >= 300 ==> r == 0.5
    ensures 0 <= score <= 300 ==> r == 0.25 + score as real / 1200.0
  {
    var c := 0.25 + Progress(score) as real / 1200.0;
    if 0.5 < c then 0.5 else c
  }

  /** Item lifetime in ms: 6000 down to 3000. */
  function ItemLifetime(score: int): (r: int)
    ensures r >= 3000
    ensures score >= 0 ==> r <= 6000
    ensures score >= 300 ==> r == 3000
    ensures 0 <= score <= 300 ==> r == 6000 - 10 * score
  {
    var t := 6000 - Progress(score) * 10;
    if t < 3000 then 3000 else t
  }

  /** A higher score never makes spawning slower, bad items rarer or items live longer. */
  lemma DifficultyMonotone(s1: int, s2: int)
    requires s1 <= s2
    ensures SpawnDelay(s2) <= SpawnDelay(s1)
    ensures BadItemChance(s1) <= BadItemChance(s2)
    ensures ItemLifetime(s2) <= ItemLifetime(s1)
  {
  }

  /** Past the cap, the score no longer matters. */
  lemma DifficultyConstantFromCap(s1: int, s2: int)
    requires 300 <= s1 && 300 <= s2
    ensures SpawnDelay(s1) == SpawnDelay(s2)
    ensures BadItemChance(s1) == BadItemChance(s2)
    ensures ItemLifetime(s1) == ItemLifetime(s2)
  {
  }

  /** The values at the start of a session and after the first fast fruit. */
  lemma DifficultyExamples()
    ensures SpawnDelay(0) == 1200 && BadItemChance(0) == 0.25 && ItemLifetime(0) == 6000
    ensures SpawnDelay(50) == 1100 && BadItemChance(50) == 0.25 + 50.0 / 1200.0
    ensures ItemLifetime(50) == 5500
  {
  }
}
