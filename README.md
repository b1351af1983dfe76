# Catcher game rules engine

A Dafny model of the game rules inside the game scene of a small browser
catcher game (`src/scenes/GameScene.js`). The player catches items that
spawn on the field. A fruit scores by reaction time: 50, 25, 10 or 5 points.
A bomb costs 20 and a skull 15. The score never drops below 0. A star starts
a five-second super mode in which items spawn every 400 ms and are always
fruit. The score drives three difficulty parameters: spawn delay, bad-item
chance and item lifetime. A non-star collection that brings the score to 300
triggers the win.

Modules:

- `Wrappers`: `Option`.
- `Items`: the item types, the constants `Fruits`, `BadItems` and
  `ItemPoints`, and the item record. The record holds the type, the fixed
  points (bad types only), the spawn time, the lifetime captured at spawn,
  and the `active` and `fading` flags.
- `Scoring`: the reaction-time ladder, the falsy-spawn-time fallback,
  points per item, the floor at 0, and lemmas over runs of collections.
- `Difficulty`: the three formulas of `min(score, 300)`.
- `Selection`: how the random draws pick the item type. Normal mode uses a
  threshold test on the roll. Super mode picks uniformly from the 13-entry
  pool.
- `Game`: the `Session` class. It holds the scene's rule state and one
  method per callback: spawn tick, overlap (`CollectItem`), expiry timer,
  end of super mode, `removeItem`, `updateDifficulty`,
  `activateSuperMode` and `triggerWin`.
- `Scenarios`: client code that drives a `Session` and checks the outcome
  using only the methods' contracts.

Conventions:

- Clock readings (`now`, in ms) and random draws are parameters.
- `roll` is the `Math.random()` draw in [0, 1).
- `pick` is the engine generator's fraction in [0, 1). A uniform pick from a
  list of length n takes the entry at index floor(pick · n).
- The spawn timer is a record of its delay and whether it is still
  scheduled. The pending end of super mode is an optional deadline, so at
  most one is ever pending.
- Items are never deleted from `items`. Taking an item off the field clears
  its `active` flag, just as a destroyed sprite reads as inactive.

Behaviour of the code that the model keeps as written:

- **Winning during super mode does not end the game.** `triggerWin`
  (`GameScene.js:473`) removes `superTimer`. That field is always null. The
  real super-end handle is `superEndEvent` (line 387), and it stays pending.
  When that event fires, it starts a new spawn loop at the current normal
  delay. `Scenarios.WinDuringSuperMode` shows this.
- **Spawn time 0 counts as missing.** The fruit branch tests
  `if (spawnTime)`, so a spawn time of 0 takes the 5-point fallback.
- **Fading items can still be caught.** An expired item keeps `active` set
  while it fades. Only `removeItem` clears it.
- **The win can fire again.** `triggerWin` runs on every non-star
  collection that leaves the score at 300 or more, not only the first.

The super-mode pool is 4 apple and 3 each of banana, cherry and grape
(line 201), so an apple is 4 of 13 super-mode spawns and each other fruit 3
of 13.

The clamps in the three difficulty formulas never take effect for a
non-negative score. For `min(score, 300)` in [0, 300], the linear formulas
already stay inside their bounds. The contracts of `SpawnDelay`,
`BadItemChance` and `ItemLifetime` state this.

## Model

| member | source | states |
|---|---|---|
| Items.KindsPartition | src/scenes/GameScene.js:3-4 | every item type is exactly one of fruit, bad item, star |
| Items.NewItem | src/scenes/GameScene.js:224-229 | a spawned record carries its type and spawn time, points -20 for a bomb and -15 for a skull, no points for fruit or star, and starts active and not fading |
| Items.Deactivated | src/scenes/GameScene.js:463-467 | removal clears the active and fading flags and keeps the item's data |
| Scoring.TierPoints | src/scenes/GameScene.js:317-329 | both directions of the ladder: 50 iff under 500 ms, 25 iff 500 to 999, 10 iff 1000 to 1999, 5 iff 2000 or more |
| Scoring.TierPointsNonIncreasing | src/scenes/GameScene.js:317-329 | a later collection never scores more |
| Scoring.TierBoundaries | src/scenes/GameScene.js:317-329 | 499→50, 500→25, 999→25, 1000→10, 1999→10, 2000→5 |
| Scoring.FruitPoints | src/scenes/GameScene.js:314-332 | fruit points are one of 5, 10, 25, 50; a falsy (0) spawn time gives 5; otherwise the ladder of the elapsed time |
| Scoring.CollectPoints | src/scenes/GameScene.js:307-333 | a bad item yields its stored constant, a fruit its reaction-time points; points are negative exactly for bad items |
| Scoring.BadPointsFixed | src/scenes/GameScene.js:309-311 | a bomb yields -20 and a skull -15 whatever the collection time |
| Scoring.ScoreAfter | src/scenes/GameScene.js:336-337 | the new score is score + points when that is non-negative, else 0; never negative |
| Scoring.ScoreNeverNegative | src/scenes/GameScene.js:335-337 | any run of collections from a non-negative score ends non-negative |
| Scoring.FruitRunGainsAtLeastFive | src/scenes/GameScene.js:314-337 | n fruit collections raise the score by at least 5n |
| Difficulty.Progress | src/scenes/GameScene.js:487 | progress is the score capped at 300 |
| Difficulty.SpawnDelay | src/scenes/GameScene.js:489-491 | delay is at least 600, at most 1200 for a non-negative score, 600 from score 300, and 1200 - 2·score in between |
| Difficulty.BadItemChance | src/scenes/GameScene.js:493-495 | chance is at most 0.5, at least 0.25 for a non-negative score, 0.5 from score 300, and 0.25 + score/1200 in between |
| Difficulty.ItemLifetime | src/scenes/GameScene.js:497-499 | lifetime is at least 3000, at most 6000 for a non-negative score, 3000 from score 300, and 6000 - 10·score in between |
| Difficulty.DifficultyMonotone | src/scenes/GameScene.js:485-499 | delay and lifetime are non-increasing and chance non-decreasing in the score |
| Difficulty.DifficultyConstantFromCap | src/scenes/GameScene.js:487 | all three parameters are the same for every score of 300 or more |
| Difficulty.DifficultyExamples | src/scenes/GameScene.js:92-94 | the start values 1200, 0.25, 6000 agree with the formulas at score 0; score 50 gives 1100, 0.25 + 50/1200, 5500 |
| Selection.PickIndex | src/scenes/GameScene.js:208 | the pick index lies in range, and the draw falls in the index-th of n equal slices of [0, 1) |
| Selection.Pick | src/scenes/GameScene.js:210 | a uniform pick returns the list entry at the pick index |
| Selection.NormalKind | src/scenes/GameScene.js:204-213 | a fruit roll gives the uniform pick from the fruit list and a bad roll the uniform pick from the bad list; fruit iff roll < 0.85 - chance; bad item iff 0.85 - chance ≤ roll < 0.85; star iff roll ≥ 0.85 (for a non-negative chance) |
| Selection.StarShareFixed | src/scenes/GameScene.js:205-213 | whether a roll gives the star does not depend on the bad-item chance |
| Selection.HigherChanceFewerFruit | src/scenes/GameScene.js:205-210 | raising the chance only turns fruit rolls into bad-item rolls |
| Selection.FruitShareRange | src/scenes/GameScene.js:205 | with the controller's chance, fruit gets 35% to 60% of the rolls and bad items 25% to 50% |
| Selection.SuperPoolWeights | src/scenes/GameScene.js:201 | the super pool has 13 entries: 4 apple and 3 each of banana, cherry, grape, all fruit |
| Selection.SuperKind | src/scenes/GameScene.js:199-201 | super mode yields the pool entry at the pick index: apple exactly at indices 0, 4, 8, 12, banana at 1, 5, 9, cherry at 2, 6, 10, grape at 3, 7, 11 |
| Selection.SpawnKind | src/scenes/GameScene.js:198-214 | super mode yields the super-pool pick (always a fruit); normal mode follows the threshold test |
| Game.Cleared | src/scenes/GameScene.js:480 | clearing the group deactivates every item |
| Game.Removed | src/scenes/GameScene.js:463-467 | removal deactivates the item if present and touches no other item; an inactive item is left as is |
| Game.RemovedIdempotent | src/scenes/GameScene.js:463-467 | removing an item twice equals removing it once |
| Game.RemovedCommute | src/scenes/GameScene.js:463-467 | removals of two items commute |
| Game.Session.constructor | src/scenes/GameScene.js:17-101 | score 0, normal mode, 1200 ms spawn loop running, start difficulty, empty field, input on, one score notice |
| Game.Session.SpawnItem | src/scenes/GameScene.js:195-231 | adds one fresh active item with the selected type, its fixed points, the clock reading and the lifetime in force at spawn; nothing else changes |
| Game.Session.ExpireItem | src/scenes/GameScene.js:283-296 | expiry of an active item only starts its fade, so it stays active; an inactive item is untouched |
| Game.Session.RemoveItem | src/scenes/GameScene.js:463-467 | the field becomes Removed(old field, id); nothing else changes |
| Game.Session.UpdateDifficulty | src/scenes/GameScene.js:485-505 | the parameters become the formulas of the score; the spawn timer takes the new delay only outside super mode, and stays at 400 ms in super mode |
| Game.Session.ActivateSuperMode | src/scenes/GameScene.js:357-399 | super mode on, exactly one pending end 5000 ms after this activation (a previous one is cancelled), spawn loop replaced by the 400 ms loop, notice (true, 5000) |
| Game.Session.EndSuperMode | src/scenes/GameScene.js:387-399 | super mode off, no end pending, new running spawn loop at the current normal delay, notice (false) |
| Game.Session.TriggerWin | src/scenes/GameScene.js:470-483 | spawn timer stopped, every item cleared, input off, win notice; the pending super-mode end is kept |
| Game.Session.CollectItem | src/scenes/GameScene.js:299-355 | an inactive item changes nothing; a star keeps the score and (re)starts super mode; any other item floors the new score at 0, recomputes difficulty, emits the score, and wins (timer stopped, field cleared, input off) iff the score is at least 300 |
| Scenarios.FirstFastFruit | src/scenes/GameScene.js:299-346 | from a fresh session a fruit caught after 300 ms gives score 50, delay 1100, lifetime 5500, chance 0.25 + 50/1200 |
| Scenarios.WinDuringSuperMode | src/scenes/GameScene.js:470-474 | a win in super mode leaves a pending super-mode end; when it fires, the spawn loop runs again after the win |
| Scenarios.NearTheGoal | src/scenes/GameScene.js:335-345 | a bomb at 295 gives 275 (no win); a fast fruit at 280 gives 330 (win) |
| Scenarios.FalsySpawnTime | src/scenes/GameScene.js:314-332 | a fruit with spawn time 0 scores 5 whenever it is caught |

## Left out

- Rendering and physics are not modelled: sprites, overlap detection, tweens (pop, wobble, float, glow, fade animation), particles, the screen flash and the points popup with its bonus label. The model keeps only their effect on the rules: which item was touched, and that an item stays active while it fades.
- Player movement is not modelled. Its smooth follow and clamping are floating-point frame interpolation. Off-screen culling is a call to `RemoveItem` by the caller.
- Input listeners are reduced to the `inputEnabled` flag, which the win switches off.
- The bad-item chance and the draws are exact reals, not IEEE doubles, so rounding at the 0.85 - chance boundary is not captured. The clock is whole milliseconds; the engine's clock can be fractional.
- Timer scheduling is the caller's. `SpawnItem` requires the spawn timer to be running. `EndSuperMode` requires an end to be pending, and it does not check the clock against the deadline. `ExpireItem` requires the clock to have reached the captured lifetime. The 400 ms fade duration is not modelled: the fade's completion is a call to `RemoveItem`.
- `superTimer` is not a field of the model. It is always null, so removing it in `triggerWin` is a no-op.
- The collection-feedback notification is not modelled; it is cosmetic. Score, super-mode and win notices are logged in `notices`.
- Nothing guarantees that the clock passed to successive calls increases.
- `src/scenes/UIScene.js` only draws the HUD, including its display-only countdown, and is not modelled. `src/scenes/BootScene.js` (textures, loading bar), `src/main.js` and `vite.config.js` (configuration) are not part of this model.
