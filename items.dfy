/**
 * The item types of the game and the per-item record kept while an item
 * is on the field (the sprite's data slots 'type', 'points' and 'spawnTime',
 * the lifetime its expiry timer was scheduled with, and its active flag).
 */
module Items {
  import opened Wrappers

  /** The closed set of item types a spawn can produce. */
  datatype Kind = Apple | Banana | Cherry | Grape | Bomb | Skull | Star

  /** The fruit types, in the order the super-mode pool is built from. */
  const Fruits: seq<Kind> := [Apple, Banana, Cherry, Grape]

  /** The bad types; only these carry fixed points. */
  const BadItems: seq<Kind> := [Bomb, Skull]

  /** Fixed points per type; the star entry exists but is never stored on an item. */
  const ItemPoints: map<Kind, int> := map[Bomb := -20, Skull := -15, Star := 0]

  predicate IsFruit(k: Kind) { k in Fruits }

  predicate IsBad(k: Kind) { k in BadItems }

  /** Every type is exactly one of: a fruit, a bad item, the star. */
  lemma KindsPartition(k: Kind)
    ensures IsFruit(k) || IsBad(k) || k == Star
    ensures !(IsFruit(k) && IsBad(k)) && !(IsFruit(k) && k == Star) && !(IsBad(k) && k == Star)
  {
  }

  /**
   * One spawned item. `spawnTime` is the clock reading at spawn, `points`
   * is present only for bad types, `lifetime` is the item lifetime that was
   * in force when the item spawned (its expiry timer's delay). `active` is
   * false once the item has been removed from the field; `fading` is true
   * once its expiry timer has started the fade-out (the item is still
   * active, and collectable, while it fades).
   */
  datatype Item = Item(kind: Kind, points: Option<int>, spawnTime: int, lifetime: int,
                       active: bool, fading: bool)

  /** An item record as spawning produces it: fixed points exactly for bad types. */
  predicate WellFormed(it: Item)
  {
    it.points == if IsBad(it.kind) then Some(ItemPoints[it.kind]) else None
  }

  /** The record of an item of type `kind` spawned at `now` with expiry delay `lifetime`. */
  function NewItem(kind: Kind, now: int, lifetime: int): (it: Item)
    ensures WellFormed(it) && it.active && !it.fading
    ensures it.kind == kind && it.spawnTime == now && it.lifetime == lifetime
    ensures kind == Bomb ==> it.points == Some(-20)
    ensures kind == Skull ==> it.points == Some(-15)
    ensures IsFruit(kind) || kind == Star ==> it.points == None
  {
    Item(kind, if IsBad(kind) then Some(ItemPoints[kind]) else None, now, lifetime, true, false)
  }

  /** The record after the item left the field (sprite destroyed, tweens killed). */
  function Deactivated(it: Item): (r: Item)
    ensures !r.active && !r.fading
    ensures r.kind == it.kind && r.points == it.points
    ensures r.spawnTime == it.spawnTime && r.lifetime == it.lifetime
  {
    it.(active := false, fading := false)
  }
}
