/**
 * Choosing the type of a spawned item from the random draws. `roll` is the
 * uniform draw in [0, 1) used by the normal-mode threshold test; `pick` is
 * the uniform fraction in [0, 1) behind a uniform pick from a list, which
 * takes the entry at index floor(pick * length).
 */
module Selection {
  import opened Items
  import opened Difficulty

  /** The slice of [0, 1) that `u` falls into when it is cut into `n` equal slices. */
  function PickIndex(n: nat, u: real): (i: nat)
    requires n > 0 && 0.0 <= u < 1.0
    ensures i < n
    ensures i as real <= u * n as real < (i + 1) as real
  {
    (u * n as real).Floor
  }

  /** A uniform pick from a non-empty list. */
  function Pick<T>(s: seq<T>, u: real): (r: T)
    requires |s| > 0 && 0.0 <= u < 1.0
    ensures r in s
    ensures r == s[PickIndex(|s|, u)]
  {
    s[PickIndex(|s|, u)]
  }

  /** Normal-mode selection: fruit below 0.85 - chance, bad item below 0.85, star otherwise. */
  function NormalKind(badItemChance: real, roll: real, pick: real): (k: Kind)
    requires 0.0 <= pick < 1.0
    ensures roll < 0.85 - badItemChance ==> k == Pick(Fruits, pick)
    ensures 0.85 - badItemChance <= roll < 0.85 ==> k == Pick(BadItems, pick)
    ensures IsFruit(k) <==> roll < 0.85 - badItemChance
    ensures IsBad(k) <==> 0.85 - badItemChance <= roll < 0.85
    ensures k == Star <==> 0.85 <= roll && 0.85 - badItemChance <= roll
    ensures 0.0 <= badItemChance ==> (k == Star <==> 0.85 <= roll)
  {
    if roll < 0.85 - badItemChance then Pick(Fruits, pick)
    else if roll < 0.85 then Pick(BadItems, pick)
    else Star
  }

  /** The star's share does not depend on the difficulty: it is the top 15% of rolls. */
  lemma StarShareFixed(c1: real, c2: real, roll: real, p1: real, p2: real)
    requires 0.0 <= c1 && 0.0 <= c2
    requires 0.0 <= p1 < 1.0 && 0.0 <= p2 < 1.0
    ensures NormalKind(c1, roll, p1) == Star <==> NormalKind(c2, roll, p2) == Star
  {
  }

  /** A higher bad-item chance can only turn a fruit roll into a bad-item roll. */
  lemma HigherChanceFewerFruit(c1: real, c2: real, roll: real, pick: real)
    requires c1 <= c2 && 0.0 <= pick < 1.0
    ensures IsFruit(NormalKind(c2, roll, pick)) ==> IsFruit(NormalKind(c1, roll, pick))
    ensures IsBad(NormalKind(c1, roll, pick)) ==> IsBad(NormalKind(c2, roll, pick))
  {
  }

  /**
   * With the chance the difficulty controller produces, fruit takes between
   * 35% and 60% of the rolls, bad items between 25% and 50%.
   */
  lemma FruitShareRange(score: int)
    requires score >= 0
    ensures 0.35 <= 0.85 - BadItemChance(score) <= 0.6
    ensures 0.25 <= BadItemChance(score) <= 0.5
  {
  }

  /** The super-mode pool: the fruit list three times, then the first fruit once more. */
  const SuperPool: seq<Kind> := Fruits + Fruits + Fruits + [Fruits[0]]

  /** The pool has 13 entries: 4 apples and 3 each of banana, cherry and grape. */
  lemma SuperPoolWeights()
    ensures |SuperPool| == 13
    ensures multiset(SuperPool)[Apple] == 4
    ensures multiset(SuperPool)[Banana] == 3
    ensures multiset(SuperPool)[Cherry] == 3
    ensures multiset(SuperPool)[Grape] == 3
    ensures forall k :: k in SuperPool ==> IsFruit(k)
  {
  }

  /** Super-mode selection: a uniform pick from the pool, so always a fruit. */
  function SuperKind(pick: real): (k: Kind)
    requires 0.0 <= pick < 1.0
    ensures k == SuperPool[PickIndex(13, pick)]
    ensures IsFruit(k)
    ensures k == Apple <==> PickIndex(13, pick) in {0, 4, 8, 12}
    ensures k == Banana <==> PickIndex(13, pick) in {1, 5, 9}
    ensures k == Cherry <==> PickIndex(13, pick) in {2, 6, 10}
    ensures k == Grape <==> PickIndex(13, pick) in {3, 7, 11}
  {
    SuperPoolWeights();
    Pick(SuperPool, pick)
  }

  /** The type of the next spawned item. */
  function SpawnKind(superMode: bool, badItemChance: real, roll: real, pick: real): (k: Kind)
    requires 0.0 <= pick < 1.0
    ensures superMode ==> k == SuperKind(pick) && IsFruit(k)
    ensures !superMode ==> k == NormalKind(badItemChance, roll, pick)
  {
    if superMode then SuperKind(pick) else NormalKind(badItemChance, roll, pick)
  }
}
