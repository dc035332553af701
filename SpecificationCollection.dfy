/**
 * The concrete leaf specifications of the example game: item rarity, item
 * name keyword, and aggressive enemies. Each is a plain predicate over a small
 * record, wrapped as an `Atom` so that it composes with AND, OR and NOT.
 */
module SpecificationCollection {
  import opened Strings
  import opened Specification

  datatype Item = Item(name: string, rarity: int)

  datatype Enemy = Enemy(aggroRange: int, damage: int)

  /** ItemRaritySpec: rarity at least `minRarity`. */
  function ItemRaritySpec(minRarity: int): (r: Spec<Item>)
    ensures forall item :: Eval(r, item) <==> item.rarity >= minRarity
  {
    Atom((item: Item) => item.rarity >= minRarity)
  }

  /** ItemNameContainsSpec: `keyword` occurs in the name (ordinal, case-sensitive). */
  function ItemNameContainsSpec(keyword: string): (r: Spec<Item>)
    ensures forall item :: Eval(r, item) <==> IsSubstring(keyword, item.name)
  {
    Atom((item: Item) => IsSubstring(keyword, item.name))
  }

  /** EnemyIsAggressiveSpec: aggro range above 10 and damage above 50, both strict. */
  function EnemyIsAggressiveSpec(): (r: Spec<Enemy>)
    ensures forall enemy :: Eval(r, enemy) <==> enemy.aggroRange > 10 && enemy.damage > 50
  {
    Atom((enemy: Enemy) => enemy.aggroRange > 10 && enemy.damage > 50)
  }

  /** Lowering the rarity threshold never rejects an item the higher one accepted. */
  lemma RarityMonotone(high: int, low: int, item: Item)
    requires low <= high && Eval(ItemRaritySpec(high), item)
    ensures Eval(ItemRaritySpec(low), item)
  {
  }

  /** The empty keyword matches every name. */
  lemma EmptyKeywordMatchesAll(item: Item)
    ensures Eval(ItemNameContainsSpec(""), item)
  {
    EmptyIsSubstring(item.name);
  }

  /** The thresholds are strict: an enemy at exactly 10 range or 50 damage is not aggressive. */
  lemma AggressiveThresholdsStrict(enemy: Enemy)
    requires enemy.aggroRange == 10 || enemy.damage == 50
    ensures !Eval(EnemyIsAggressiveSpec(), enemy)
  {
  }

  /** The auto-loot filter: rare enough and not cursed. */
  function LootSpec(): Spec<Item>
  {
    And(ItemRaritySpec(4), Not(ItemNameContainsSpec("Cursed")))
  }

  /** Every item whose name contains "Cursed" fails the loot filter, however rare. */
  lemma CursedItemsRejected(item: Item)
    requires IsSubstring("Cursed", item.name)
    ensures !Eval(LootSpec(), item)
  {
  }

  lemma HolySwordNotCursed()
    ensures !IsSubstring("Cursed", "Holy Sword")
  {
    var hay := "Holy Sword";
    assert forall k :: 0 <= k < |hay| ==> hay[k] != 'C';
    forall i: nat | i <= |hay|
      ensures !OccursAt("Cursed", hay, i)
    {
      if i + 6 <= |hay| {
        assert hay[i..i + 6][0] == hay[i];
      }
    }
  }

  /**
   * Over the inventory [Cursed Blade (5), Cursed Dagger (2), Holy Sword (5)]
   * only the Holy Sword passes the loot filter.
   */
  lemma LootScenario()
    ensures Eval(LootSpec(), Item("Holy Sword", 5))
    ensures !Eval(LootSpec(), Item("Cursed Blade", 5))
    ensures !Eval(LootSpec(), Item("Cursed Dagger", 2))
  {
    HolySwordNotCursed();
    SliceIsSubstring("Cursed Blade", 0, 6);
    assert "Cursed Blade"[0..6] == "Cursed";
  }
}
