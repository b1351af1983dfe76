/**
 * Worked sessions: client code that drives a Session through the
 * callbacks and checks the outcome from the methods' contracts alone.
 */
module Scenarios {
  import opened Wrappers
  import opened Items
  import opened Scoring
  import opened Difficulty
  import opened Selection
  import opened Game

  /** Session start, one fast fruit: 50 points and the difficulty of score 50. */
  method FirstFastFruit() returns (s: Session)
    ensures s.Valid()
    ensures s.score == 50
    ensures s.currentSpawnDelay == 1100 && s.itemLifetime == 5500
    ensures s.badItemChance == 0.25 + 50.0 / 1200.0
    ensures s.spawnTimer == SpawnTimer(1100, true)
    ensures s.notices == [ScoreChanged(0), ScoreChanged(50)]
  {
    s := new Session();
    var id := s.SpawnItem(1200, 0.0, 0.0);
    assert s.items[id].kind == Apple;
    s.CollectItem(id, 1500);
  }

  /**
   * A star, then six fast fruits within the five seconds of super mode:
   * the sixth reaches 300 and wins, but the pending end of super mode
   * survives the win, and when it fires the spawn loop runs again.
   */
  method WinDuringSuperMode() returns (s: Session)
    ensures s.Valid()
    ensures s.score == 300 && !s.inputEnabled && !s.superMode
    ensures GameWin in s.notices
    ensures s.spawnTimer == SpawnTimer(600, true)
  {
    s := new Session();
    var star := s.SpawnItem(1200, 0.9, 0.0);
    assert s.items[star].kind == Star;
    s.CollectItem(star, 1300);
    assert s.superMode && s.superEnd == Some(6300);

    var a := s.SpawnItem(1700, 0.0, 0.0);
    s.CollectItem(a, 1800);
    a := s.SpawnItem(2100, 0.0, 0.0);
    s.CollectItem(a, 2200);
    a := s.SpawnItem(2500, 0.0, 0.0);
    s.CollectItem(a, 2600);
    a := s.SpawnItem(2900, 0.0, 0.0);
    s.CollectItem(a, 3000);
    a := s.SpawnItem(3300, 0.0, 0.0);
    s.CollectItem(a, 3400);
    assert s.score == 250 && s.superMode;
    a := s.SpawnItem(3700, 0.0, 0.0);
    s.CollectItem(a, 3800);

    assert s.score == 300 && GameWin in s.notices;
    assert !s.spawnTimer.running && s.superEnd == Some(6300);
    s.EndSuperMode();
  }

  /** A bomb at 295 costs 20 and does not win; a fast fruit at 280 does. */
  lemma NearTheGoal(bomb: Item, fruit: Item)
    requires WellFormed(bomb) && bomb.kind == Bomb
    requires WellFormed(fruit) && fruit.kind == Cherry && fruit.spawnTime == 4000
    ensures ScoreAfter(295, CollectPoints(bomb, 9000)) == 275 < WinScore
    ensures ScoreAfter(280, CollectPoints(fruit, 4100)) == 330 >= WinScore
  {
  }

  /** A fruit whose spawn time reads 0 scores the 5-point fallback however fast it is caught. */
  lemma FalsySpawnTime(fruit: Item, now: int)
    requires WellFormed(fruit) && IsFruit(fruit.kind) && fruit.spawnTime == 0
    ensures CollectPoints(fruit, now) == 5
  {
  }
}
