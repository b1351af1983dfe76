/**
 * Points of a collected item and the score update that follows a
 * non-star collection.
 */
module Scoring {
  import opened Wrappers
  import opened Items

  /** The score at which a non-star collection triggers the win. */
  const WinScore: int := 300

  /** Reaction-time ladder for a fruit collected `elapsed` ms after it spawned. */
  function TierPoints(elapsed: int): (r: int)
    ensures r == 50 <==> elapsed < 500
    ensures r == 25 <==> 500 <= elapsed < 1000
    ensures r == 10 <==> 1000 <= elapsed < 2000
    ensures r == 5 <==> 2000 <= elapsed
  {
    if elapsed < 500 then 50
    else if elapsed < 1000 then 25
    else if elapsed < 2000 then 10
    else 5
  }

  /** The ladder rewards faster collection: a later collection never scores more. */
  lemma TierPointsNonIncreasing(e1: int, e2: int)
    requires e1 <= e2
    ensures TierPoints(e2) <= TierPoints(e1)
  {
  }

  /** The table's edge cases. */
  lemma TierBoundaries()
    ensures TierPoints(499) == 50 && TierPoints(500) == 25
    ensures TierPoints(999) == 25 && TierPoints(1000) == 10
    ensures TierPoints(1999) == 10 && TierPoints(2000) == 5
  {
  }

  /**
   * Points for a fruit. The spawn time is tested for truthiness, so a
   * spawn time of 0 takes the fallback of 5 points.
   */
  function FruitPoints(spawnTime: int, now: int): (r: int)
    ensures r in {5, 10, 25, 50}
    ensures spawnTime == 0 ==> r == 5
    ensures spawnTime != 0 ==> r == TierPoints(now - spawnTime)
  {
    if spawnTime != 0 then TierPoints(now - spawnTime) else 5
  }

  /** Points of a collected non-star item: the stored constant for bad types, the ladder for fruit. */
  function CollectPoints(it: Item, now: int): (r: int)
    requires WellFormed(it) && it.kind != Star
    ensures IsBad(it.kind) ==> r == ItemPoints[it.kind]
    ensures IsFruit(it.kind) ==> r == FruitPoints(it.spawnTime, now)
    ensures r < 0 <==> IsBad(it.kind)
  {
    if IsBad(it.kind) then it.points.value else FruitPoints(it.spawnTime, now)
  }

  /** A bomb is always -20 and a skull always -15, whenever they are collected. */
  lemma BadPointsFixed(it: Item, now: int)
    requires WellFormed(it) && IsBad(it.kind)
    ensures it.kind == Bomb ==> CollectPoints(it, now) == -20
    ensures it.kind == Skull ==> CollectPoints(it, now) == -15
  {
  }

  /** The score after adding `points`, floored at zero. */
  function ScoreAfter(score: int, points: int): (r: int)
    ensures r >= 0
    ensures r >= score + points
    ensures score + points >= 0 ==> r == score + points
    ensures score + points < 0 ==> r == 0
  {
    var s := score + points;
    if s < 0 then 0 else s
  }

  /** The score after a run of non-star collections worth `deltas`, in order. */
  function ScoreAfterAll(score: int, deltas: seq<int>): (r: int)
    ensures deltas == [] ==> r == score
    decreases |deltas|
  {
    if deltas == [] then score else ScoreAfterAll(ScoreAfter(score, deltas[0]), deltas[1..])
  }

  /** Whatever the outcomes, a session that starts at a non-negative score never goes negative. */
  lemma {:induction false} ScoreNeverNegative(score: int, deltas: seq<int>)
    requires score >= 0
    ensures ScoreAfterAll(score, deltas) >= 0
    decreases |deltas|
  {
    if deltas != [] {
      ScoreNeverNegative(ScoreAfter(score, deltas[0]), deltas[1..]);
    }
  }

  /** Collecting only fruit never lowers the score: each step adds at least 5. */
  lemma {:induction false} FruitRunGainsAtLeastFive(score: int, deltas: seq<int>)
    requires score >= 0
    requires forall i :: 0 <= i < |deltas| ==> deltas[i] in {5, 10, 25, 50}
    ensures ScoreAfterAll(score, deltas) >= score + 5 * |deltas|
    decreases |deltas|
  {
    if deltas != [] {
      FruitRunGainsAtLeastFive(ScoreAfter(score, deltas[0]), deltas[1..]);
    }
  }
}
