/**
 * One game session: the rule-relevant state of the game scene and the
 * callbacks that change it (spawn timer tick, player/item overlap, item
 * expiry, end of super mode, removal of an item from the field).
 *
 * Clock readings and random draws are parameters. Timers are explicit:
 * the spawn timer is a record of its delay and whether it is still
 * scheduled, and the pending end of super mode is an optional deadline.
 */
module Game {
  import opened Wrappers
  import opened Items
  import opened Scoring
  import opened Difficulty
  import opened Selection

  /** Spawn cadence (ms) while super mode is on. */
  const SuperSpawnDelay: int := 400

  /** Length of super mode (ms) from its latest activation. */
  const SuperDuration: int := 5000

  /** The looping spawn timer: its delay and whether it is still scheduled. */
  datatype SpawnTimer = SpawnTimer(delay: int, running: bool)

  /** Notifications the scene emits to the presentation layer. */
  datatype Notice =
    | ScoreChanged(score: int)
    | SuperModeChanged(active: bool, durationMs: Option<int>)
    | GameWin

  /** The field after the whole item group is cleared: every item destroyed. */
  function Cleared(items: map<nat, Item>): (r: map<nat, Item>)
    ensures r.Keys == items.Keys
    ensures forall id :: id in r ==> r[id] == Deactivated(items[id])
  {
    map id | id in items :: Deactivated(items[id])
  }

  /** The field after `removeItem`: an active item is destroyed, anything else is left alone. */
  function Removed(items: map<nat, Item>, id: nat): (r: map<nat, Item>)
    ensures r.Keys == items.Keys
    ensures forall j :: j in items && j != id ==> r[j] == items[j]
    ensures id in items ==> !r[id].active
    ensures id in items && !items[id].active ==> r == items
  {
    if id in items && items[id].active then items[id := Deactivated(items[id])] else items
  }

  /** Removing twice is removing once. */
  lemma RemovedIdempotent(items: map<nat, Item>, id: nat)
    ensures Removed(Removed(items, id), id) == Removed(items, id)
  {
  }

  /** Removals of different items commute. */
  lemma RemovedCommute(items: map<nat, Item>, a: nat, b: nat)
    ensures Removed(Removed(items, a), b) == Removed(Removed(items, b), a)
  {
  }

  class Session {
    var score: int
    var superMode: bool
    var spawnTimer: SpawnTimer
    /** The deadline of the pending end-of-super-mode event, if one is scheduled. */
    var superEnd: Option<int>
    var currentSpawnDelay: int
    var badItemChance: real
    var itemLifetime: int
    /** Every item ever spawned, by id; the field is the active ones. */
    var items: map<nat, Item>
    var nextId: nat
    /** Whether the pointer listeners that steer the player are attached. */
    var inputEnabled: bool
    /** Notifications emitted so far, oldest first. */
    var notices: seq<Notice>

    /** Item records are as spawning made them, with ids below the next one. */
    ghost predicate ItemsValid()
      reads this
    {
      forall id :: id in items ==>
        id < nextId && WellFormed(items[id]) && 3000 <= items[id].lifetime <= 6000
    }

    /** A pending super-mode end exists exactly in super mode, which runs the fast cadence. */
    ghost predicate ModeValid()
      reads this
    {
      && (superMode <==> superEnd.Some?)
      && (superMode ==> spawnTimer.delay == SuperSpawnDelay)
    }

    /** The difficulty parameters follow the score; outside super mode, so does the timer. */
    ghost predicate DifficultyValid()
      reads this
    {
      && currentSpawnDelay == SpawnDelay(score)
      && badItemChance == BadItemChance(score)
      && itemLifetime == ItemLifetime(score)
      && (!superMode ==> spawnTimer.delay == currentSpawnDelay)
    }

    ghost predicate Valid()
      reads this
    {
      score >= 0 && ItemsValid() && ModeValid() && DifficultyValid()
    }

    /** The scene's `create`: score 0, normal mode, the 1200 ms spawn loop, an empty field. */
    constructor ()
      ensures Valid()
      ensures score == 0 && !superMode && superEnd == None
      ensures spawnTimer == SpawnTimer(1200, true)
      ensures currentSpawnDelay == 1200 && badItemChance == 0.25 && itemLifetime == 6000
      ensures items == map[] && nextId == 0 && inputEnabled
      ensures notices == [ScoreChanged(0)]
    {
      score := 0;
      superMode := false;
      superEnd := None;
      items := map[];
      nextId := 0;
      inputEnabled := true;
      currentSpawnDelay := 1200;
      badItemChance := 0.25;
      itemLifetime := 6000;
      spawnTimer := SpawnTimer(1200, true);
      notices := [ScoreChanged(0)];
    }

    /**
     * A tick of the spawn timer: the type comes from the draws, the record
     * stores its fixed points (bad types only), the clock reading and the
     * item lifetime in force now.
     */
    method SpawnItem(now: int, roll: real, pick: real) returns (id: nat)
      requires Valid() && spawnTimer.running
      requires 0.0 <= roll < 1.0 && 0.0 <= pick < 1.0
      modifies this
      ensures Valid()
      ensures id == old(nextId) && id !in old(items) && nextId == id + 1
      ensures items == old(items)[id := NewItem(SpawnKind(superMode, badItemChance, roll, pick), now, itemLifetime)]
      ensures unchanged(this`score, this`superMode, this`spawnTimer, this`superEnd)
      ensures unchanged(this`currentSpawnDelay, this`badItemChance, this`itemLifetime)
      ensures unchanged(this`inputEnabled, this`notices)
    {
      var kind := SpawnKind(superMode, badItemChance, roll, pick);
      id := nextId;
      items := items[id := NewItem(kind, now, itemLifetime)];
      nextId := nextId + 1;
    }

    /**
     * The expiry timer of item `id`, which fires no earlier than the
     * lifetime captured at spawn: an item still on the field starts to fade
     * out, and stays active (and collectable) until the fade completes and
     * removes it.
     */
    method ExpireItem(id: nat, now: int)
      requires Valid() && id in items
      requires now >= items[id].spawnTime + items[id].lifetime
      modifies this
      ensures Valid()
      ensures old(items[id].active) ==> items == old(items)[id := old(items[id]).(fading := true)]
      ensures !old(items[id].active) ==> items == old(items)
      ensures items[id].active == old(items[id].active)
      ensures unchanged(this`score, this`superMode, this`spawnTimer, this`superEnd, this`nextId)
      ensures unchanged(this`currentSpawnDelay, this`badItemChance, this`itemLifetime)
      ensures unchanged(this`inputEnabled, this`notices)
    {
      if items[id].active {
        items := items[id := items[id].(fading := true)];
      }
    }

    /** `removeItem`: takes an active item off the field; nothing else changes. */
    method RemoveItem(id: nat)
      requires Valid()
      modifies this
      ensures Valid()
      ensures items == Removed(old(items), id)
      ensures unchanged(this`score, this`superMode, this`spawnTimer, this`superEnd, this`nextId)
      ensures unchanged(this`currentSpawnDelay, this`badItemChance, this`itemLifetime)
      ensures unchanged(this`inputEnabled, this`notices)
    {
      if id in items && items[id].active {
        items := items[id := Deactivated(items[id])];
      }
    }

    /**
     * `updateDifficulty`: recompute the three parameters from the score;
     * the live spawn timer takes the new delay only outside super mode.
     */
    method UpdateDifficulty()
      requires score >= 0 && ItemsValid() && ModeValid()
      modifies this
      ensures Valid()
      ensures currentSpawnDelay == SpawnDelay(score)
      ensures badItemChance == BadItemChance(score)
      ensures itemLifetime == ItemLifetime(score)
      ensures spawnTimer == if superMode then old(spawnTimer) else old(spawnTimer).(delay := SpawnDelay(score))
      ensures unchanged(this`score, this`superMode, this`superEnd, this`items, this`nextId)
      ensures unchanged(this`inputEnabled, this`notices)
    {
      var progress := Progress(score);
      currentSpawnDelay := 1200 - progress * 2;
      currentSpawnDelay := if currentSpawnDelay < 600 then 600 else currentSpawnDelay;
      badItemChance := 0.25 + progress as real / 1200.0;
      badItemChance := if 0.5 < badItemChance then 0.5 else badItemChance;
      itemLifetime := 6000 - progress * 10;
      itemLifetime := if itemLifetime < 3000 then 3000 else itemLifetime;
      if !superMode {
        spawnTimer := spawnTimer.(delay := currentSpawnDelay);
      }
    }

    /**
     * `activateSuperMode` at clock `now`: cancel the pending end (if super
     * mode is already on), replace the spawn timer by the 400 ms loop and
     * schedule the end 5000 ms from now.
     */
    method ActivateSuperMode(now: int)
      requires Valid()
      modifies this
      ensures Valid()
      ensures superMode && superEnd == Some(now + SuperDuration)
      ensures spawnTimer == SpawnTimer(SuperSpawnDelay, true)
      ensures notices == old(notices) + [SuperModeChanged(true, Some(SuperDuration))]
      ensures unchanged(this`score, this`items, this`nextId, this`inputEnabled)
      ensures unchanged(this`currentSpawnDelay, this`badItemChance, this`itemLifetime)
    {
      if superMode {
        if superEnd.Some? {
          superEnd := None;
        }
      }
      superMode := true;
      notices := notices + [SuperModeChanged(true, Some(SuperDuration))];
      spawnTimer := SpawnTimer(SuperSpawnDelay, true);
      superEnd := Some(now + SuperDuration);
    }

    /**
     * The pending end of super mode fires: normal mode, and a fresh spawn
     * loop at the current normal delay (even after a win).
     */
    method EndSuperMode()
      requires Valid() && superEnd.Some?
      modifies this
      ensures Valid()
      ensures !superMode && superEnd == None
      ensures spawnTimer == SpawnTimer(currentSpawnDelay, true)
      ensures notices == old(notices) + [SuperModeChanged(false, None)]
      ensures unchanged(this`score, this`items, this`nextId, this`inputEnabled)
      ensures unchanged(this`currentSpawnDelay, this`badItemChance, this`itemLifetime)
    {
      superMode := false;
      notices := notices + [SuperModeChanged(false, None)];
      spawnTimer := SpawnTimer(currentSpawnDelay, true);
      superEnd := None;
    }

    /**
     * `triggerWin`: stop the spawn timer, detach the steering input, clear
     * the field and announce the win. The pending end of super mode is not
     * cancelled (the handle this code removes is always null).
     */
    method TriggerWin()
      requires Valid()
      modifies this
      ensures Valid()
      ensures spawnTimer == old(spawnTimer).(running := false)
      ensures items == Cleared(old(items))
      ensures !inputEnabled
      ensures superEnd == old(superEnd)
      ensures notices == old(notices) + [GameWin]
      ensures unchanged(this`score, this`superMode, this`superEnd, this`nextId)
      ensures unchanged(this`currentSpawnDelay, this`badItemChance, this`itemLifetime)
    {
      spawnTimer := spawnTimer.(running := false);
      inputEnabled := false;
      items := Cleared(items);
      notices := notices + [GameWin];
    }

    /**
     * `collectItem`: the player touched item `id` at clock `now`. An item
     * that is no longer active is ignored. A star starts super mode and
     * leaves the score alone; any other item adds its points (floored at
     * 0), recomputes difficulty, reports the score and wins at 300.
     */
    method CollectItem(id: nat, now: int)
      requires Valid()
      modifies this
      ensures Valid()
      ensures old(id !in items || !items[id].active) ==> unchanged(this)
      ensures old(id in items && items[id].active && items[id].kind == Star) ==>
        && score == old(score)
        && superMode && superEnd == Some(now + SuperDuration)
        && spawnTimer == SpawnTimer(SuperSpawnDelay, true)
        && notices == old(notices) + [SuperModeChanged(true, Some(SuperDuration))]
        && items == Removed(old(items), id)
        && nextId == old(nextId) && inputEnabled == old(inputEnabled)
        && currentSpawnDelay == old(currentSpawnDelay)
        && badItemChance == old(badItemChance) && itemLifetime == old(itemLifetime)
      ensures old(id in items && items[id].active && items[id].kind != Star) ==>
        && score == ScoreAfter(old(score), CollectPoints(old(items[id]), now))
        && currentSpawnDelay == SpawnDelay(score)
        && badItemChance == BadItemChance(score)
        && itemLifetime == ItemLifetime(score)
        && superMode == old(superMode) && superEnd == old(superEnd)
        && spawnTimer.delay == (if superMode then SuperSpawnDelay else currentSpawnDelay)
        && spawnTimer.running == (old(spawnTimer.running) && score < WinScore)
        && items == (if score < WinScore then Removed(old(items), id) else Cleared(old(items)))
        && inputEnabled == (old(inputEnabled) && score < WinScore)
        && notices == old(notices) + [ScoreChanged(score)] + (if score < WinScore then [] else [GameWin])
        && nextId == old(nextId)
    {
      if id !in items || !items[id].active {
        return;
      }
      var it := items[id];
      if it.kind == Star {
        ActivateSuperMode(now);
      } else {
        var points := CollectPoints(it, now);
        score := ScoreAfter(score, points);
        UpdateDifficulty();
        notices := notices + [ScoreChanged(score)];
        if score >= WinScore {
          TriggerWin();
        }
      }
      RemoveItem(id);
    }
  }
}
