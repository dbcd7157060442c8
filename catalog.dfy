/** The game's static definitions from the top of index.js: items, traits,
    buildings, the gather table, lootboxes, global events, clan levels, clan-war
    rewards, vendors and the economy constants. The source keys these tables by
    string ids; here each table is a closed enumeration with a lookup function. */
module Catalog {
  import opened Common

  // ---------------------------------------------------------------- constants

  const StartingBalance := 30
  const DailyRewardBase := 1500
  const DailyStreakBonus := 250
  const HourlyRewardBase := 25
  const HourlyStreakBonus := 25
  const WorkRewardMin := 5
  const WorkRewardMax := 35
  const WorkCooldownMs := 60 * 1000
  const GatherCooldownMs := 3 * 60 * 1000
  const HourlyCooldownMs := 60 * 60 * 1000
  const DailyCooldownMs := 22 * 60 * 60 * 1000
  const DailyStreakBreakMs := 2 * 24 * 60 * 60 * 1000
  const MaxGatherTypesBase := 2
  const MarketTaxRate: real := 0.05
  const MarketMinPrice: real := 1.0
  const MarketMaxPrice: real := 10000.0
  const SlotsMaxBet := 1500
  const SmeltMsPerOre := 30 * 1000
  const SmeltCoalPerOre := 1
  const MinimumActionCooldownMs := 1000
  const ZealotDecayWindowMs := 10 * 60 * 1000
  const EventChance: real := 0.15
  const MaxLootboxListings := 5
  const VendorListingCap := 3
  const ClanMemberLimit := 10
  const ClanJoinCooldownMs := 60 * 60 * 1000
  const ClanWarDurationMs := 7 * 24 * 60 * 60 * 1000
  const MaxClanLevel := 10
  const GridSlotCount := 3

  // -------------------------------------------------------------------- items

  datatype Item =
    | TraitReforger | IronOre | CopperOre | Wood | Stone | Coal | RawCrystal
    | IronIngot | CopperIngot | CopperWire | IronStick
    | BasicPickaxe | SturdyPickaxe | IronPickaxe | CrystalPickaxe | GatheringBasket | Smelter
    | WildBerries | GlowMushroom | RawMeat | SmokedMeat | SpicyPepper
    | SolarPanel | AutoMiner | Tower
      // Not an item definition: the clan-war reward credits the lootbox id
      // 'crystal_crate' straight into inventories.
    | CrystalCrate

  /** Every inventory key, in the order of the item table. */
  const AllItems: seq<Item> := [
    TraitReforger, IronOre, CopperOre, Wood, Stone, Coal, RawCrystal,
    IronIngot, CopperIngot, CopperWire, IronStick,
    BasicPickaxe, SturdyPickaxe, IronPickaxe, CrystalPickaxe, GatheringBasket, Smelter,
    WildBerries, GlowMushroom, RawMeat, SmokedMeat, SpicyPepper,
    SolarPanel, AutoMiner, Tower, CrystalCrate]

  lemma AllItemsComplete(i: Item)
    ensures i in AllItems
  {
    match i
    case TraitReforger => assert AllItems[0] == i;
    case IronOre => assert AllItems[1] == i;
    case CopperOre => assert AllItems[2] == i;
    case Wood => assert AllItems[3] == i;
    case Stone => assert AllItems[4] == i;
    case Coal => assert AllItems[5] == i;
    case RawCrystal => assert AllItems[6] == i;
    case IronIngot => assert AllItems[7] == i;
    case CopperIngot => assert AllItems[8] == i;
    case CopperWire => assert AllItems[9] == i;
    case IronStick => assert AllItems[10] == i;
    case BasicPickaxe => assert AllItems[11] == i;
    case SturdyPickaxe => assert AllItems[12] == i;
    case IronPickaxe => assert AllItems[13] == i;
    case CrystalPickaxe => assert AllItems[14] == i;
    case GatheringBasket => assert AllItems[15] == i;
    case Smelter => assert AllItems[16] == i;
    case WildBerries => assert AllItems[17] == i;
    case GlowMushroom => assert AllItems[18] == i;
    case RawMeat => assert AllItems[19] == i;
    case SmokedMeat => assert AllItems[20] == i;
    case SpicyPepper => assert AllItems[21] == i;
    case SolarPanel => assert AllItems[22] == i;
    case AutoMiner => assert AllItems[23] == i;
    case Tower => assert AllItems[24] == i;
    case CrystalCrate => assert AllItems[25] == i;
  }

  datatype ItemKind = Resource | Tool | Food | Building

  function KindOf(i: Item): ItemKind {
    match i
    case BasicPickaxe | SturdyPickaxe | IronPickaxe | CrystalPickaxe | GatheringBasket | Smelter => Tool
    case WildBerries | GlowMushroom | RawMeat | SmokedMeat | SpicyPepper => Food
    case SolarPanel | AutoMiner | Tower => Building
    case _ => Resource
  }

  /** effects.work_bonus_flat of a tool, per unit held. */
  function ToolFlatBonus(i: Item): nat {
    match i
    case BasicPickaxe => 1
    case IronPickaxe => 5
    case _ => 0
  }

  /** effects.work_bonus_percent of a tool (0.10, 0.30) times 100, per unit held. */
  function ToolPercentBonus(i: Item): nat {
    match i
    case SturdyPickaxe => 10
    case CrystalPickaxe => 30
    case _ => 0
  }

  /** The one effect a food buff carries. */
  datatype BuffEffect = GatherCooldownCut(ms: nat) | WorkCooldownCut(ms: nat) | WorkDoubleOrNothing

  datatype FoodBuff = FoodBuff(durationMs: nat, effect: BuffEffect)

  /** The buff a food grants when eaten; Raw Meat is a food without one. */
  function FoodBuffOf(i: Item): (b: Option<FoodBuff>)
    ensures b.Some? ==> b.value.durationMs > 0
  {
    match i
    case WildBerries => Some(FoodBuff(5 * 60 * 1000, GatherCooldownCut(10 * 1000)))
    case GlowMushroom => Some(FoodBuff(10 * 60 * 1000, GatherCooldownCut(5 * 1000)))
    case SmokedMeat => Some(FoodBuff(5 * 60 * 1000, WorkCooldownCut(15 * 1000)))
    case SpicyPepper => Some(FoodBuff(3 * 60 * 1000, WorkDoubleOrNothing))
    case _ => None
  }

  /** The crafting recipe of an item, as (ingredient, count) pairs; None when
      the item is not craftable. */
  function Recipe(i: Item): Option<seq<(Item, nat)>> {
    match i
    case CopperWire => Some([(CopperIngot, 1)])
    case IronStick => Some([(IronIngot, 2)])
    case BasicPickaxe => Some([(Stone, 5), (Wood, 2)])
    case SturdyPickaxe => Some([(IronOre, 10), (Wood, 3), (Coal, 2)])
    case IronPickaxe => Some([(IronIngot, 5), (Wood, 2)])
    case CrystalPickaxe => Some([(SturdyPickaxe, 1), (RawCrystal, 3), (IronOre, 5)])
    case GatheringBasket => Some([(Wood, 15), (Stone, 5)])
    case Smelter => Some([(Stone, 9)])
    case SolarPanel => Some([(CopperWire, 9), (IronIngot, 4), (CopperIngot, 5)])
    case AutoMiner => Some([(CopperWire, 20), (IronStick, 5)])
    case Tower => Some([(CopperWire, 30), (IronStick, 5), (RawCrystal, 5)])
    case _ => None
  }

  /** SMELTABLE_ORES and COOKABLE_FOODS together: the input of a smelter job and its product. */
  function ProcessResult(i: Item): Option<Item> {
    match i
    case IronOre => Some(IronIngot)
    case CopperOre => Some(CopperIngot)
    case RawMeat => Some(SmokedMeat)
    case _ => None
  }

  // ---------------------------------------------------------------- buildings

  predicate IsBuilding(i: Item) { i == SolarPanel || i == AutoMiner || i == Tower }

  function PowerGeneration(b: Item): nat { if b == SolarPanel then 10 else 0 }

  function PowerConsumption(b: Item): nat {
    match b
    case AutoMiner => 15
    case Tower => 20
    case _ => 0
  }

  function BitsGeneration(b: Item): nat { if b == AutoMiner then 25 else 0 }

  // ------------------------------------------------------------- gather table

  datatype GatherEntry = GatherEntry(item: Item, baseChance: real, minQty: nat, maxQty: nat)

  const GatherTable: seq<GatherEntry> := [
    GatherEntry(IronOre, 0.60, 1, 3), GatherEntry(CopperOre, 0.40, 1, 2),
    GatherEntry(Stone, 0.70, 2, 5), GatherEntry(Wood, 0.50, 1, 4),
    GatherEntry(Coal, 0.30, 1, 2), GatherEntry(RawCrystal, 0.05, 1, 1),
    GatherEntry(WildBerries, 0.15, 1, 1), GatherEntry(GlowMushroom, 0.10, 1, 1),
    GatherEntry(RawMeat, 0.20, 1, 1), GatherEntry(SpicyPepper, 0.03, 1, 1),
    GatherEntry(TraitReforger, 0.015, 1, 1)]

  // ------------------------------------------------------------------- traits

  datatype TraitKind = Scavenger | Prodigy | Wealth | Surveyor | Collector | TheAddict | Zealot

  /** The trait table in its declaration order, which the weighted draw walks. */
  const TraitKinds: seq<TraitKind> := [Scavenger, Prodigy, Wealth, Surveyor, Collector, TheAddict, Zealot]

  function TraitWeight(k: TraitKind): nat {
    match k
    case Scavenger => 30
    case Prodigy => 30
    case Wealth => 15
    case Surveyor => 10
    case Collector => 7
    case TheAddict => 7
    case Zealot => 1
  }

  const TraitMaxLevel := 5

  /** One rolled trait slot. */
  datatype Trait = Trait(kind: TraitKind, level: int)

  // ---------------------------------------------------------------- lootboxes

  datatype Lootbox = MinersCrate | BuildersCrate | GamblersCrate | CrystalCrateBox | DnaCrate

  /** The lootbox table in its declaration order. */
  const AllLootboxes: seq<Lootbox> := [MinersCrate, BuildersCrate, GamblersCrate, CrystalCrateBox, DnaCrate]

  /** One line of a crate's contents: Bits or an item, an inclusive amount range and a weight. */
  datatype Reward = Reward(grant: Grant, min: nat, max: nat, weight: nat)
  datatype Grant = Bits | Goods(item: Item)

  function CratePrice(b: Lootbox): nat {
    match b
    case MinersCrate => 250
    case BuildersCrate => 300
    case GamblersCrate => 400
    case CrystalCrateBox => 500
    case DnaCrate => 100
  }

  function CrateContents(b: Lootbox): (c: seq<Reward>)
    ensures |c| > 0
    ensures forall k :: 0 <= k < |c| ==> 1 <= c[k].min <= c[k].max
  {
    match b
    case MinersCrate => [Reward(Goods(IronOre), 10, 25, 40), Reward(Goods(CopperOre), 8, 20, 30),
                         Reward(Goods(Coal), 15, 30, 20), Reward(Goods(BasicPickaxe), 1, 1, 9),
                         Reward(Goods(SturdyPickaxe), 1, 1, 1)]
    case BuildersCrate => [Reward(Goods(Wood), 20, 50, 50), Reward(Goods(Stone), 20, 50, 45),
                           Reward(Goods(Smelter), 1, 1, 5)]
    case GamblersCrate => [Reward(Bits, 1, 200, 60), Reward(Bits, 201, 600, 35), Reward(Bits, 601, 1500, 5)]
    case CrystalCrateBox => [Reward(Goods(RawCrystal), 1, 3, 80), Reward(Goods(RawCrystal), 4, 8, 18),
                             Reward(Goods(CrystalPickaxe), 1, 1, 2)]
    case DnaCrate => [Reward(Goods(TraitReforger), 2, 15, 100)]
  }

  // ------------------------------------------------------------------- events

  datatype EventKind = BitRush | SurgingResources | GoldenHour | MarketMadness | SuperSmelter

  /** The event table in its declaration order, from which a new event is drawn. */
  const AllEvents: seq<EventKind> := [BitRush, SurgingResources, GoldenHour, MarketMadness, SuperSmelter]

  function EventDurationMs(k: EventKind): nat {
    match k
    case BitRush => 5 * 60 * 1000
    case SurgingResources => 10 * 60 * 1000
    case GoldenHour => 5 * 60 * 1000
    case MarketMadness => 15 * 60 * 1000
    case SuperSmelter => 10 * 60 * 1000
  }

  // -------------------------------------------------------------------- clans

  /** CLAN_LEVELS: the vault cost of reaching level k + 1 is ClanLevelCosts[k]. */
  const ClanLevelCosts: seq<int> := [0, 500, 1000, 3500, 7500, 15000, 27000, 40000, 70000, 100000]

  /** CLAN_LEVELS.find(l => l.level === level + 1)?.cost */
  function NextLevelCost(level: int): (c: Option<int>)
    ensures c.Some? <==> 1 <= level + 1 <= MaxClanLevel
    ensures c.Some? ==> c.value == ClanLevelCosts[level]
  {
    if 1 <= level + 1 <= MaxClanLevel then Some(ClanLevelCosts[level]) else None
  }

  /** CLAN_WAR_REWARDS by final rank (1-based); ranks past 3 receive nothing. */
  function WarReward(rank: nat): seq<(Item, nat)> {
    if rank == 1 then [(TraitReforger, 5), (CrystalCrate, 3)]
    else if rank == 2 then [(TraitReforger, 3), (CrystalCrate, 1)]
    else if rank == 3 then [(TraitReforger, 1)]
    else []
  }

  // ------------------------------------------------------------------ vendors

  datatype StockItem = StockItem(item: Item, quantity: nat, fixedPrice: Option<nat>)
  datatype Vendor = Vendor(sellerId: string, stock: seq<StockItem>, chance: real)

  const Vendors: seq<Vendor> := [
    Vendor("NPC_TERRA", [StockItem(Wood, 20, None), StockItem(Stone, 20, None)], 0.5),
    Vendor("NPC_NEXUS", [StockItem(BasicPickaxe, 1, Some(15)), StockItem(SturdyPickaxe, 1, Some(75))], 0.3),
    Vendor("NPC_BLACKROCK", [StockItem(Coal, 15, None), StockItem(IronOre, 10, None), StockItem(CopperOre, 10, None)], 0.4),
    Vendor("NPC_JUNK", [StockItem(Stone, 5, None), StockItem(Wood, 5, None)], 0.6)]

  /** FALLBACK_PRICES: the inclusive price range used when no player listing exists. */
  function FallbackPrice(i: Item): (r: (nat, nat))
    ensures 1 <= r.0 <= r.1
  {
    match i
    case Wood => (1, 5)
    case Stone => (1, 5)
    case Coal => (2, 8)
    case IronOre => (3, 10)
    case CopperOre => (4, 12)
    case RawCrystal => (50, 150)
    case RawMeat => (2, 6)
    case _ => (1, 50)
  }

  /** Vendor seller ids carry the NPC_ prefix that player ids never have. */
  predicate IsNpc(id: string) { |id| >= 4 && id[..4] == "NPC_" }

  /** Every vendor sells under an NPC_ id, has stock, and offers each stock
      entry in a positive quantity. */
  lemma VendorsSound()
    ensures forall k :: 0 <= k < |Vendors| ==>
              IsNpc(Vendors[k].sellerId) && |Vendors[k].stock| > 0 &&
              forall j :: 0 <= j < |Vendors[k].stock| ==> Vendors[k].stock[j].quantity > 0
  {
    assert "NPC_TERRA"[..4] == "NPC_";
    assert "NPC_NEXUS"[..4] == "NPC_";
    assert "NPC_BLACKROCK"[..4] == "NPC_";
    assert "NPC_JUNK"[..4] == "NPC_";
  }
}
