/** What opened crates yield: each crate is opened with its own pair of
    secure draws, and the Bits and items of all of them are added up. */
module Crates {
  import opened Catalog
  import opened Accounts
  import opened Rewards

  /** The prize of the n-th crate (counting from 1), opened with the n-th
      pair of draws. */
  function NthPrize(box: Lootbox, draws: seq<(U32, U32)>, n: nat): Prize
    requires 0 < n <= |draws|
  {
    LootboxPrize(box, draws[n - 1].0, draws[n - 1].1)
  }

  /** The Bits that the first n crates, opened with the given draws, yield
      together. */
  function CrateBits(box: Lootbox, draws: seq<(U32, U32)>, n: nat): (b: int)
    requires n <= |draws|
    ensures b >= 0
  {
    if n == 0 then 0
    else
      var p := NthPrize(box, draws, n);
      CrateBits(box, draws, n - 1) + (if p.grant == Bits then p.amount else 0)
  }

  /** The items that the first n crates, opened with the given draws, yield
      together. */
  function CrateItems(box: Lootbox, draws: seq<(U32, U32)>, n: nat): (m: map<Item, int>)
    requires n <= |draws|
    ensures forall i :: Qty(m, i) >= 0
  {
    if n == 0 then map[]
    else
      var p := NthPrize(box, draws, n);
      var before := CrateItems(box, draws, n - 1);
      if p.grant.Goods? then Add(before, p.grant.item, p.amount) else before
  }

  /** The loop that opens the crates one by one and totals the rewards. */
  method OpenCrates(box: Lootbox, draws: seq<(U32, U32)>) returns (bits: int, items: map<Item, int>)
    ensures bits == CrateBits(box, draws, |draws|) && items == CrateItems(box, draws, |draws|)
  {
    bits, items := 0, map[];
    for k := 0 to |draws|
      invariant bits == CrateBits(box, draws, k)
      invariant items == CrateItems(box, draws, k)
    {
      var p := OpenLootbox(box, draws[k].0, draws[k].1);
      if p.grant.Goods? {
        items := Add(items, p.grant.item, p.amount);
      } else {
        bits := bits + p.amount;
      }
    }
  }
}
