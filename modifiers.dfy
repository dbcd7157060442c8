/** The modifier resolver: how clan level, traits, zeal, tools and active
    buffs combine into the cooldowns and rewards of work and gather, the
    timers view of those cooldowns, the slots bet cap and the market tax.
    Percentages are exact reals: the 2.5 per zeal level and the addict rush
    are fractions, the rest are whole numbers. */
module Modifiers {
  import opened Common
  import opened Catalog
  import opened Rewards
  import opened Accounts

  // ------------------------------------------------------------ clan perks

  /** Work bonus percent a clan of this level grants its members. */
  function ClanWorkBonus(level: int): (p: int)
    ensures 0 <= p <= 15
    ensures p == 0 <==> level < 2
  {
    if level >= 8 then 15 else if level >= 4 then 10 else if level >= 2 then 5 else 0
  }

  /** Percent chance that a work or gather leaves the cooldown untouched (Momentum). */
  function MomentumChance(level: int): (p: real)
    ensures 0.0 <= p <= 5.0
    ensures p == 0.0 <==> level < 3
  {
    if level >= 7 then 5.0 else if level >= 3 then 2.5 else 0.0
  }

  /** Extra units per gathered item a clan of this level grants (Abundance). */
  function ClanAbundance(level: int): (n: int)
    ensures 0 <= n <= 5
    ensures n == 0 <==> level < 6
  {
    if level >= 10 then 5 else if level >= 9 then 2 else if level >= 6 then 1 else 0
  }

  /** The slots bet cap: doubled for members of a clan of level 5 or more. */
  function MaxBet(clanLevel: Option<int>): (m: int)
    ensures m == SlotsMaxBet || m == 2 * SlotsMaxBet
    ensures m == 2 * SlotsMaxBet <==> clanLevel.Some? && clanLevel.value >= 5
  {
    if clanLevel.Some? && clanLevel.value >= 5 then SlotsMaxBet * 2 else SlotsMaxBet
  }

  /** The share of a sale the market keeps: 5%, or none while Market Madness runs. */
  function TaxRate(event: Option<EventKind>): (t: real)
    ensures 0.0 <= t <= MarketTaxRate
    ensures t == 0.0 <==> event == Some(MarketMadness)
  {
    if event == Some(MarketMadness) then 0.0 else MarketTaxRate
  }

  // ---------------------------------------------------------------- traits

  /** Sum of the levels of the traits of one kind (getActiveTraits then forEach). */
  function LevelSum(traits: seq<Trait>, kind: TraitKind): int {
    if traits == [] then 0
    else LevelSum(traits[..|traits| - 1], kind) +
         (if traits[|traits| - 1].kind == kind then traits[|traits| - 1].level else 0)
  }

  lemma {:induction false} LevelSumBounds(traits: seq<Trait>, kind: TraitKind)
    requires TraitsValid(traits)
    ensures 0 <= LevelSum(traits, kind) <= TraitMaxLevel * |traits|
  {
    if traits != [] {
      LevelSumBounds(traits[..|traits| - 1], kind);
    }
  }

  /** Work bonus percent from zeal: each Zealot trait adds stacks x 2.5 x level. */
  function ZealPercent(traits: seq<Trait>, stacks: int): real {
    if traits == [] then 0.0
    else ZealPercent(traits[..|traits| - 1], stacks) +
         (if traits[|traits| - 1].kind == Zealot then stacks as real * (2.5 * traits[|traits| - 1].level as real) else 0.0)
  }

  /** Gather abundance from zeal: each Zealot trait adds floor(stacks x 2.5 x level / 10). */
  function ZealAbundance(traits: seq<Trait>, stacks: int): int {
    if traits == [] then 0
    else ZealAbundance(traits[..|traits| - 1], stacks) +
         (if traits[|traits| - 1].kind == Zealot then Floor(stacks as real * (2.5 * traits[|traits| - 1].level as real) / 10.0) else 0)
  }

  // ----------------------------------------------------------------- tools

  /** Flat and percent work bonus of the tools held, per unit held. */
  datatype ToolBonus = ToolBonus(flat: int, percent: int)

  /** The bonus of the tools among `items`, counting only items held in a
      positive number. */
  function ToolsOver(items: seq<Item>, inv: map<Item, int>): (t: ToolBonus)
    ensures Stocked(inv) ==> t.flat >= 0 && t.percent >= 0
  {
    if items == [] then ToolBonus(0, 0)
    else
      var rest := ToolsOver(items[..|items| - 1], inv);
      var i := items[|items| - 1];
      if Qty(inv, i) > 0 && KindOf(i) == Tool
      then ToolBonus(rest.flat + ToolFlatBonus(i) * Qty(inv, i), rest.percent + ToolPercentBonus(i) * Qty(inv, i))
      else rest
  }

  /** The loop over the inventory that sums the tool bonuses; every item an
      inventory can hold is in AllItems. */
  method SumTools(inv: map<Item, int>) returns (t: ToolBonus)
    ensures t == ToolsOver(AllItems, inv)
  {
    var flat, percent := 0, 0;
    var k := 0;
    while k < |AllItems|
      invariant 0 <= k <= |AllItems|
      invariant ToolBonus(flat, percent) == ToolsOver(AllItems[..k], inv)
    {
      assert AllItems[..k + 1][..k] == AllItems[..k];
      var i := AllItems[k];
      if Qty(inv, i) > 0 && KindOf(i) == Tool {
        flat := flat + ToolFlatBonus(i) * Qty(inv, i);
        percent := percent + ToolPercentBonus(i) * Qty(inv, i);
      }
      k := k + 1;
    }
    assert AllItems[..k] == AllItems;
    t := ToolBonus(flat, percent);
  }

  // ----------------------------------------------------------------- buffs

  /** The food effect a buff carries, if any. */
  function EffectOf(b: Buff): Option<BuffEffect> {
    match b.source
    case Meal(food) => if FoodBuffOf(food).Some? then Some(FoodBuffOf(food).value.effect) else None
    case AddictRush(_) => None
  }

  /** What the active buffs contribute to work. */
  datatype WorkBuffs = WorkBuffs(doubleOrNothing: bool, rushPercent: real, cutMs: int)

  function WorkBuffsOver(buffs: seq<Buff>): (w: WorkBuffs)
    ensures w.cutMs >= 0
    ensures w.doubleOrNothing <==> exists k :: 0 <= k < |buffs| && EffectOf(buffs[k]) == Some(WorkDoubleOrNothing)
  {
    if buffs == [] then WorkBuffs(false, 0.0, 0)
    else
      var rest := WorkBuffsOver(buffs[..|buffs| - 1]);
      var b := buffs[|buffs| - 1];
      assert forall k :: 0 <= k < |buffs| - 1 ==> buffs[..|buffs| - 1][k] == buffs[k];
      WorkBuffs(rest.doubleOrNothing || EffectOf(b) == Some(WorkDoubleOrNothing),
                rest.rushPercent + (if b.source.AddictRush? then b.source.workBonusPercent else 0.0),
                rest.cutMs + (if EffectOf(b).Some? && EffectOf(b).value.WorkCooldownCut? then EffectOf(b).value.ms else 0))
  }

  /** The gather cooldown cut of the active buffs. */
  function GatherCutOver(buffs: seq<Buff>): (ms: int)
    ensures ms >= 0
  {
    if buffs == [] then 0
    else
      var b := buffs[|buffs| - 1];
      GatherCutOver(buffs[..|buffs| - 1]) +
        (if EffectOf(b).Some? && EffectOf(b).value.GatherCooldownCut? then EffectOf(b).value.ms else 0)
  }

  // ------------------------------------------------------------- cooldowns

  /** An action cooldown: the base shortened by the summed prodigy percent,
      less the flat buff cuts, never below the one-second floor. */
  function Cooldown(baseMs: int, prodigyPercent: int, cutMs: int): (c: int)
    ensures c >= MinimumActionCooldownMs
    ensures c == MinimumActionCooldownMs || c == baseMs / 100 * (100 - prodigyPercent) - cutMs
    ensures prodigyPercent >= 0 && cutMs >= 0 && baseMs >= MinimumActionCooldownMs && baseMs % 100 == 0 ==> c <= baseMs
  {
    Max(MinimumActionCooldownMs, baseMs / 100 * (100 - prodigyPercent) - cutMs)
  }

  /** A cooldown grows when the prodigy percent or the buff cuts shrink. */
  lemma CooldownMonotone(baseMs: nat, p1: int, p2: int, cut1: int, cut2: int)
    requires p1 <= p2 && cut1 <= cut2
    ensures Cooldown(baseMs, p2, cut2) <= Cooldown(baseMs, p1, cut1)
  {
    assert baseMs / 100 * (100 - p2) <= baseMs / 100 * (100 - p1) by {
      assert baseMs / 100 * (100 - p1) - baseMs / 100 * (100 - p2) == baseMs / 100 * (p2 - p1);
    }
  }

  /** A timed action is on cooldown when it was done before (a zero time
      stands for never) and less than the cooldown ago. */
  predicate OnCooldown(last: int, cooldown: int, now: int) {
    last != 0 && now - last < cooldown
  }

  // ----------------------------------------------------------------- work

  /** Everything handleWork adds up before it draws the earnings. */
  datatype WorkModifiers = WorkModifiers(
    bonusPercent: real,
    scavengerChance: int,
    prodigyPercent: int,
    cutMs: int,
    momentumChance: real,
    doubleOrNothing: bool,
    tools: ToolBonus)

  /** The reference definition of the work modifiers of an account whose clan
      (if it still exists) has level `clanLevel`. */
  function WorkModifiersOf(a: Account, clanLevel: Option<int>, now: int): WorkModifiers {
    var level := if clanLevel.Some? then clanLevel.value else 0;
    var buffs := WorkBuffsOver(Unexpired(a.activeBuffs, now));
    WorkModifiers(
      ClanWorkBonus(level) as real + (5 * LevelSum(a.traits, Wealth)) as real + ZealPercent(a.traits, a.zeal.stacks) + buffs.rushPercent,
      5 * LevelSum(a.traits, Scavenger),
      5 * LevelSum(a.traits, Prodigy),
      buffs.cutMs,
      MomentumChance(level),
      buffs.doubleOrNothing,
      ToolsOver(AllItems, a.inventory))
  }

  /** The accumulator loops at the head of handleWork: clan perks, then the
      wealth, scavenger, prodigy and zealot traits, then the tools held, then
      the unexpired buffs. */
  method ResolveWork(a: Account, clanLevel: Option<int>, now: int) returns (m: WorkModifiers)
    ensures m == WorkModifiersOf(a, clanLevel, now)
  {
    var level := if clanLevel.Some? then clanLevel.value else 0;
    var wealth, scavenger, prodigy, zeal := SumWorkTraits(a.traits, a.zeal.stacks);
    var tools := SumTools(a.inventory);
    var buffs := SumWorkBuffs(Unexpired(a.activeBuffs, now));
    m := WorkModifiers(ClanWorkBonus(level) as real + (5 * wealth) as real + zeal + buffs.rushPercent,
                       5 * scavenger, 5 * prodigy, buffs.cutMs, MomentumChance(level), buffs.doubleOrNothing, tools);
  }

  /** The trait loops of handleWork. */
  method SumWorkTraits(traits: seq<Trait>, stacks: int) returns (wealth: int, scavenger: int, prodigy: int, zeal: real)
    ensures wealth == LevelSum(traits, Wealth) && scavenger == LevelSum(traits, Scavenger)
    ensures prodigy == LevelSum(traits, Prodigy) && zeal == ZealPercent(traits, stacks)
  {
    wealth, scavenger, prodigy, zeal := 0, 0, 0, 0.0;
    var k := 0;
    while k < |traits|
      invariant 0 <= k <= |traits|
      invariant wealth == LevelSum(traits[..k], Wealth)
      invariant scavenger == LevelSum(traits[..k], Scavenger)
      invariant prodigy == LevelSum(traits[..k], Prodigy)
      invariant zeal == ZealPercent(traits[..k], stacks)
    {
      assert traits[..k + 1][..k] == traits[..k];
      var t := traits[k];
      if t.kind == Wealth { wealth := wealth + t.level; }
      if t.kind == Scavenger { scavenger := scavenger + t.level; }
      if t.kind == Prodigy { prodigy := prodigy + t.level; }
      if t.kind == Zealot { zeal := zeal + stacks as real * (2.5 * t.level as real); }
      k := k + 1;
    }
    assert traits[..k] == traits;
  }

  /** The loop of handleWork over the unexpired buffs. */
  method SumWorkBuffs(live: seq<Buff>) returns (w: WorkBuffs)
    ensures w == WorkBuffsOver(live)
  {
    var don, rush, cut := false, 0.0, 0;
    var j := 0;
    while j < |live|
      invariant 0 <= j <= |live|
      invariant WorkBuffs(don, rush, cut) == WorkBuffsOver(live[..j])
    {
      assert live[..j + 1][..j] == live[..j];
      var b := live[j];
      if EffectOf(b) == Some(WorkDoubleOrNothing) { don := true; }
      if b.source.AddictRush? { rush := rush + b.source.workBonusPercent; }
      if EffectOf(b).Some? && EffectOf(b).value.WorkCooldownCut? { cut := cut + EffectOf(b).value.ms; }
      j := j + 1;
    }
    assert live[..j] == live;
    w := WorkBuffs(don, rush, cut);
  }

  /** The effective work cooldown. */
  function WorkCooldown(m: WorkModifiers): (c: int)
    ensures MinimumActionCooldownMs <= c
    ensures m.prodigyPercent >= 0 && m.cutMs >= 0 ==> c <= WorkCooldownMs
  {
    Cooldown(WorkCooldownMs, m.prodigyPercent, m.cutMs)
  }

  /** With valid traits the prodigy percent is never negative, so the work
      cooldown stays between one second and one minute. */
  lemma WorkCooldownBounds(a: Account, clanLevel: Option<int>, now: int)
    requires TraitsValid(a.traits)
    ensures MinimumActionCooldownMs <= WorkCooldown(WorkModifiersOf(a, clanLevel, now)) <= WorkCooldownMs
  {
    LevelSumBounds(a.traits, Prodigy);
  }

  /** The base pay of a work: a whole number in [5, 35]. */
  function WorkBase(bytes: U32): (b: int)
    ensures WorkRewardMin <= b <= WorkRewardMax
  {
    UniformInt(SecureRandomFloat(bytes), WorkRewardMin, WorkRewardMax)
  }

  /** With the source's secure float the top draw pays 36, one above the maximum. */
  lemma WorkBaseAsWrittenReachesMaxPlusOne()
    ensures Floor(SecureRandomFloatAsWritten((U32Count - 1) as U32) * (WorkRewardMax - WorkRewardMin + 1) as real) + WorkRewardMin
            == WorkRewardMax + 1
  {
  }

  /** The earnings before the double-or-nothing, event and tower stages:
      the base, the floored percent bonus (tool percent included) and the
      flat tool bonus. */
  function PreEarnings(base: int, m: WorkModifiers): (e: int)
    ensures base >= 0 && m.bonusPercent + m.tools.percent as real >= 0.0 ==> e >= base + m.tools.flat
  {
    base + Floor(base as real * ((m.bonusPercent + m.tools.percent as real) / 100.0)) + m.tools.flat
  }

  /** The work payout: the pre-earnings, then double-or-nothing (a lost
      coin pays nothing, a won one twice), then the Bit Rush multiplier, then
      the tower surge doubling. */
  function WorkEarnings(base: int, m: WorkModifiers, donWon: bool, event: Option<EventKind>, surge: bool): (e: int)
  {
    var pre := PreEarnings(base, m);
    var afterCoin := if m.doubleOrNothing then (if donWon then 2 * pre else 0) else pre;
    var afterEvent := if event == Some(BitRush) then afterCoin * 2 else afterCoin;
    if surge then afterEvent * 2 else afterEvent
  }

  /** Double-or-nothing pays either nothing or exactly twice what the same
      work pays without it, whatever the event and the surge. */
  lemma DoubleOrNothingOutcomes(base: int, m: WorkModifiers, donWon: bool, event: Option<EventKind>, surge: bool)
    requires m.doubleOrNothing
    ensures var plain := WorkEarnings(base, m.(doubleOrNothing := false), donWon, event, surge);
            var e := WorkEarnings(base, m, donWon, event, surge);
            (donWon ==> e == 2 * plain) && (!donWon ==> e == 0)
  {
    assert PreEarnings(base, m.(doubleOrNothing := false)) == PreEarnings(base, m);
  }

  /** The Bit Rush multiplier is applied to the amount double-or-nothing left. */
  lemma BitRushDoublesPayout(base: int, m: WorkModifiers, donWon: bool, surge: bool)
    ensures WorkEarnings(base, m, donWon, Some(BitRush), surge) == 2 * WorkEarnings(base, m, donWon, None, surge)
  {
  }

  /** With non-negative bonuses a work never pays less than nothing. */
  lemma EarningsNonNegative(base: int, m: WorkModifiers, donWon: bool, event: Option<EventKind>, surge: bool)
    requires base >= 0 && m.tools.flat >= 0 && m.bonusPercent + m.tools.percent as real >= 0.0
    ensures WorkEarnings(base, m, donWon, event, surge) >= 0
  {
  }

  // --------------------------------------------------------------- gather

  /** Everything handleGather adds up before it draws the haul. */
  datatype GatherModifiers = GatherModifiers(
    prodigyPercent: int,
    surveyorChance: int,
    abundance: int,
    cutMs: int,
    momentumChance: real,
    maxTypes: int)

  /** The reference definition of the gather modifiers. */
  function GatherModifiersOf(a: Account, clanLevel: Option<int>, now: int): GatherModifiers {
    var level := if clanLevel.Some? then clanLevel.value else 0;
    GatherModifiers(
      5 * LevelSum(a.traits, Prodigy),
      2 * LevelSum(a.traits, Surveyor),
      ClanAbundance(level) + ZealAbundance(a.traits, a.zeal.stacks),
      GatherCutOver(Unexpired(a.activeBuffs, now)),
      MomentumChance(level),
      MaxGatherTypesBase + Qty(a.inventory, GatheringBasket))
  }

  /** The accumulator loops at the head of handleGather. */
  method ResolveGather(a: Account, clanLevel: Option<int>, now: int) returns (m: GatherModifiers)
    ensures m == GatherModifiersOf(a, clanLevel, now)
  {
    var level := if clanLevel.Some? then clanLevel.value else 0;
    var prodigy, surveyor, zeal := SumGatherTraits(a.traits, a.zeal.stacks);
    var cut := SumGatherCut(Unexpired(a.activeBuffs, now));
    m := GatherModifiers(5 * prodigy, 2 * surveyor, ClanAbundance(level) + zeal, cut, MomentumChance(level),
                         MaxGatherTypesBase + Qty(a.inventory, GatheringBasket));
  }

  /** handleGather's trait loop: the prodigy and surveyor level sums and the
      zeal abundance. */
  method SumGatherTraits(traits: seq<Trait>, stacks: int) returns (prodigy: int, surveyor: int, zeal: int)
    ensures prodigy == LevelSum(traits, Prodigy) && surveyor == LevelSum(traits, Surveyor)
    ensures zeal == ZealAbundance(traits, stacks)
  {
    prodigy, surveyor, zeal := 0, 0, 0;
    var k := 0;
    while k < |traits|
      invariant 0 <= k <= |traits|
      invariant prodigy == LevelSum(traits[..k], Prodigy)
      invariant surveyor == LevelSum(traits[..k], Surveyor)
      invariant zeal == ZealAbundance(traits[..k], stacks)
    {
      assert traits[..k + 1][..k] == traits[..k];
      var t := traits[k];
      if t.kind == Prodigy { prodigy := prodigy + t.level; }
      if t.kind == Surveyor { surveyor := surveyor + t.level; }
      if t.kind == Zealot { zeal := zeal + Floor(stacks as real * (2.5 * t.level as real) / 10.0); }
      k := k + 1;
    }
    assert traits[..k] == traits;
  }

  /** handleGather's buff loop: the cooldown cut of the live buffs. */
  method SumGatherCut(live: seq<Buff>) returns (cut: int)
    ensures cut == GatherCutOver(live)
  {
    cut := 0;
    var j := 0;
    while j < |live|
      invariant 0 <= j <= |live|
      invariant cut == GatherCutOver(live[..j])
    {
      assert live[..j + 1][..j] == live[..j];
      var b := live[j];
      if EffectOf(b).Some? && EffectOf(b).value.GatherCooldownCut? { cut := cut + EffectOf(b).value.ms; }
      j := j + 1;
    }
    assert live[..j] == live;
  }

  /** The effective gather cooldown. */
  function GatherCooldown(m: GatherModifiers): (c: int)
    ensures MinimumActionCooldownMs <= c
    ensures m.prodigyPercent >= 0 && m.cutMs >= 0 ==> c <= GatherCooldownMs
  {
    Cooldown(GatherCooldownMs, m.prodigyPercent, m.cutMs)
  }

  /** The chance an item of the gather table is found: the Surging Resources
      event multiplies every chance by 1.5, Golden Hour the Trait Reforger's by 3. */
  function GatherChance(e: GatherEntry, event: Option<EventKind>): (c: real)
    ensures event != Some(SurgingResources) && (event != Some(GoldenHour) || e.item != TraitReforger) ==> c == e.baseChance
  {
    var surge := if event == Some(SurgingResources) then e.baseChance * 1.5 else e.baseChance;
    if event == Some(GoldenHour) && e.item == TraitReforger then surge * 3.0 else surge
  }

  /** The secure draws one entry of the gather table consumes: the hit
      draw, the quantity draw and one draw per Gathering Basket held. */
  datatype GatherRoll = GatherRoll(hit: U32, qty: U32, basket: seq<U32>)

  /** The basket bonus: one unit per basket draw below one half. */
  function BasketBonus(draws: seq<U32>): (n: nat)
    ensures n <= |draws|
  {
    if draws == [] then 0
    else BasketBonus(draws[1..]) + (if SecureRandomFloat(draws[0]) < 0.5 then 1 else 0)
  }

  /** What one entry of the table yields: nothing when its hit draw is not
      below its chance, else the item with a quantity drawn from its range,
      raised by the basket bonus and the abundance bonus. */
  function EntryFind(e: GatherEntry, r: GatherRoll, event: Option<EventKind>, abundance: int): (f: Option<(Item, int)>)
    requires e.minQty <= e.maxQty
    ensures f.Some? <==> SecureRandomFloat(r.hit) < GatherChance(e, event)
    ensures f.Some? ==> f.value.0 == e.item && e.minQty + abundance <= f.value.1 <= e.maxQty + |r.basket| + abundance
  {
    if SecureRandomFloat(r.hit) < GatherChance(e, event)
    then Some((e.item, UniformInt(SecureRandomFloat(r.qty), e.minQty, e.maxQty) + BasketBonus(r.basket) + abundance))
    else None
  }

  /** EntryFind as the source writes it, with every draw divided by
      0xffffffff. The basket draws are compared with one half, where both
      divisions agree (BasketDrawAgrees), so the basket bonus is shared. */
  function EntryFindAsWritten(e: GatherEntry, r: GatherRoll, event: Option<EventKind>, abundance: int): (f: Option<(Item, int)>)
    requires e.minQty <= e.maxQty
    ensures f.Some? <==> SecureRandomFloatAsWritten(r.hit) < GatherChance(e, event)
    ensures f.Some? ==> f.value.0 == e.item && e.minQty + abundance <= f.value.1 <= e.maxQty + 1 + |r.basket| + abundance
  {
    if SecureRandomFloatAsWritten(r.hit) < GatherChance(e, event)
    then
      var u, n := SecureRandomFloatAsWritten(r.qty), e.maxQty - e.minQty + 1;
      assert u * n as real <= n as real by {
        assert (1.0 - u) * n as real >= 0.0;
      }
      Some((e.item, Floor(u * n as real) + e.minQty + BasketBonus(r.basket) + abundance))
    else None
  }

  /** A basket draw is below one half under either division. */
  lemma BasketDrawAgrees(d: U32)
    ensures SecureRandomFloatAsWritten(d) < 0.5 <==> SecureRandomFloat(d) < 0.5
  {
    var n := d as real;
    var top := (U32Count - 1) as real;
    assert SecureRandomFloatAsWritten(d) == n / top && SecureRandomFloat(d) == n / U32Count as real;
    if n < top / 2.0 {
      assert n <= top / 2.0 - 0.5 by {
        assert d as int <= (U32Count - 2) / 2;
      }
    }
  }

  /** As written, a hit with the top quantity draw yields one unit more than
      the entry's maximum, where EntryFind never exceeds it. */
  lemma EntryFindAsWrittenReachesMaxPlusOne(e: GatherEntry, r: GatherRoll, event: Option<EventKind>, abundance: int)
    requires e.minQty <= e.maxQty && r.qty as int == U32Count - 1
    requires SecureRandomFloatAsWritten(r.hit) < GatherChance(e, event)
    ensures EntryFindAsWritten(e, r, event, abundance) == Some((e.item, e.maxQty + 1 + BasketBonus(r.basket) + abundance))
    ensures EntryFind(e, r, event, abundance).None? ||
            EntryFind(e, r, event, abundance).value.1 < EntryFindAsWritten(e, r, event, abundance).value.1
  {
    var n := e.maxQty - e.minQty + 1;
    assert SecureRandomFloatAsWritten(r.qty) * n as real == n as real;
    assert Floor(n as real) == n;
  }

  /** Every entry of the table has a non-empty quantity range. */
  predicate RangesValid(order: seq<GatherEntry>) {
    forall k :: 0 <= k < |order| ==> order[k].minQty <= order[k].maxQty
  }

  /** The haul of a gather before the surveyor and tower doublings: the
      table is walked in the given (shuffled) order and the walk stops once
      maxTypes items were found. */
  function Haul(order: seq<GatherEntry>, rolls: seq<GatherRoll>, maxTypes: int, event: Option<EventKind>, abundance: int): (h: seq<(Item, int)>)
    requires |rolls| == |order| && RangesValid(order)
    ensures |h| <= |order|
    ensures maxTypes >= 0 ==> |h| <= maxTypes
  {
    if order == [] || maxTypes <= 0 then []
    else
      var f := EntryFind(order[0], rolls[0], event, abundance);
      var rest := Haul(order[1..], rolls[1..], if f.Some? then maxTypes - 1 else maxTypes, event, abundance);
      if f.Some? then [f.value] + rest else rest
  }

  /** Every item of a haul comes from the table walked, with a quantity in
      that entry's range raised by the basket and abundance bonuses. */
  lemma {:induction false} HaulFound(order: seq<GatherEntry>, rolls: seq<GatherRoll>, maxTypes: int, event: Option<EventKind>, abundance: int)
    requires |rolls| == |order| && RangesValid(order)
    ensures var h := Haul(order, rolls, maxTypes, event, abundance);
            forall k :: 0 <= k < |h| ==> Found(order, rolls, abundance, h[k])
  {
    if order != [] && maxTypes > 0 {
      HaulStep(order, rolls, maxTypes, event, abundance);
      var f := EntryFind(order[0], rolls[0], event, abundance);
      var rest := Haul(order[1..], rolls[1..], if f.Some? then maxTypes - 1 else maxTypes, event, abundance);
      HaulFound(order[1..], rolls[1..], if f.Some? then maxTypes - 1 else maxTypes, event, abundance);
      forall k | 0 <= k < |rest|
        ensures Found(order, rolls, abundance, rest[k])
      {
        FoundInTail(order, rolls, abundance, rest[k]);
      }
      if f.Some? {
        var h := [f.value] + rest;
        assert Found(order, rolls, abundance, f.value) by {
          assert 0 < |order|;
        }
        assert forall k :: 1 <= k < |h| ==> h[k] == rest[k - 1];
      }
    }
  }

  /** An entry of a haul comes from an entry of the table walked, with a
      quantity between its minimum and its maximum plus every basket draw,
      both raised by the abundance bonus. */
  predicate Found(order: seq<GatherEntry>, rolls: seq<GatherRoll>, abundance: int, found: (Item, int))
    requires |rolls| == |order|
  {
    exists j :: (0 <= j < |order| && order[j].item == found.0 &&
                 order[j].minQty + abundance <= found.1 <= order[j].maxQty + |rolls[j].basket| + abundance)
  }

  lemma FoundInTail(order: seq<GatherEntry>, rolls: seq<GatherRoll>, abundance: int, found: (Item, int))
    requires |rolls| == |order| && order != []
    requires Found(order[1..], rolls[1..], abundance, found)
    ensures Found(order, rolls, abundance, found)
  {
    var j :| (0 <= j < |order| - 1 && order[1..][j].item == found.0 &&
              order[1..][j].minQty + abundance <= found.1 <= order[1..][j].maxQty + |rolls[1..][j].basket| + abundance);
    assert order[j + 1] == order[1..][j] && rolls[j + 1] == rolls[1..][j];
  }

  /** The basket loop: one unit per draw below one half. */
  method CountBasket(draws: seq<U32>) returns (bonus: nat)
    ensures bonus == BasketBonus(draws)
  {
    bonus := 0;
    var b := |draws|;
    while b > 0
      invariant 0 <= b <= |draws|
      invariant bonus == BasketBonus(draws[b..])
    {
      assert draws[b - 1..][1..] == draws[b..];
      if SecureRandomFloat(draws[b - 1]) < 0.5 { bonus := bonus + 1; }
      b := b - 1;
    }
    assert draws[0..] == draws;
  }

  lemma RangesSuffix(order: seq<GatherEntry>, k: nat)
    requires RangesValid(order) && k <= |order|
    ensures RangesValid(order[k..])
  {
    forall j | 0 <= j < |order| - k
      ensures order[k..][j].minQty <= order[k..][j].maxQty
    {
      assert order[k..][j] == order[k + j];
    }
  }

  /** One step of the walk: the first entry is tried, then the rest. */
  lemma HaulStep(order: seq<GatherEntry>, rolls: seq<GatherRoll>, maxTypes: int, event: Option<EventKind>, abundance: int)
    requires |rolls| == |order| && RangesValid(order) && order != [] && maxTypes > 0
    ensures RangesValid(order[1..])
    ensures var f := EntryFind(order[0], rolls[0], event, abundance);
            Haul(order, rolls, maxTypes, event, abundance) ==
            if f.Some? then [f.value] + Haul(order[1..], rolls[1..], maxTypes - 1, event, abundance)
            else Haul(order[1..], rolls[1..], maxTypes, event, abundance)
  {
    RangesSuffix(order, 1);
  }

  /** One entry of the walk in handleGather. */
  method TryEntry(e: GatherEntry, r: GatherRoll, event: Option<EventKind>, abundance: int) returns (f: Option<(Item, int)>)
    requires e.minQty <= e.maxQty
    ensures f == EntryFind(e, r, event, abundance)
  {
    if SecureRandomFloat(r.hit) < GatherChance(e, event) {
      var bonus := CountBasket(r.basket);
      f := Some((e.item, UniformInt(SecureRandomFloat(r.qty), e.minQty, e.maxQty) + bonus + abundance));
    } else {
      f := None;
    }
  }

  /** The walk over the shuffled gather table in handleGather. */
  method GatherHaul(order: seq<GatherEntry>, rolls: seq<GatherRoll>, maxTypes: int, event: Option<EventKind>, abundance: int)
    returns (haul: seq<(Item, int)>)
    requires |rolls| == |order| && RangesValid(order)
    ensures haul == Haul(order, rolls, maxTypes, event, abundance)
  {
    haul := [];
    var k, left := 0, maxTypes;
    while k < |order| && 0 < left
      invariant 0 <= k <= |order|
      invariant RangesValid(order[k..])
      invariant haul + Haul(order[k..], rolls[k..], left, event, abundance) == Haul(order, rolls, maxTypes, event, abundance)
    {
      HaulStep(order[k..], rolls[k..], left, event, abundance);
      assert order[k..][1..] == order[k + 1..] && rolls[k..][1..] == rolls[k + 1..];
      var f := TryEntry(order[k], rolls[k], event, abundance);
      if f.Some? {
        haul, left := haul + [f.value], left - 1;
      }
      k := k + 1;
    }
    if k == |order| {
      assert order[k..] == [];
    }
  }

  // --------------------------------------------------------------- timers

  /** What handleTimers shows for work and gather: the time left, or
      nothing when the action is ready. */
  function TimeLeft(last: int, cooldown: int, now: int): (t: Option<int>)
    ensures t.None? <==> !OnCooldown(last, cooldown, now)
    ensures t.Some? ==> 0 < t.value && (now >= last ==> t.value <= cooldown)
  {
    if OnCooldown(last, cooldown, now) then Some(last + cooldown - now) else None
  }

  /** handleTimers as written: each prodigy trait multiplies the cooldown by
      (1 - 5 x level / 100) in turn, where handleWork and handleGather
      subtract the summed percent once. */
  function ProdigyFactorAsWritten(traits: seq<Trait>): real {
    if traits == [] then 1.0
    else ProdigyFactorAsWritten(traits[..|traits| - 1]) *
         (if traits[|traits| - 1].kind == Prodigy then 1.0 - (5 * traits[|traits| - 1].level) as real / 100.0 else 1.0)
  }

  /** The work cooldown the timers view shows, as written. */
  function TimersWorkCooldownAsWritten(a: Account, now: int): real {
    var raw := WorkCooldownMs as real * ProdigyFactorAsWritten(a.traits) - WorkBuffsOver(Unexpired(a.activeBuffs, now)).cutMs as real;
    if raw < MinimumActionCooldownMs as real then MinimumActionCooldownMs as real else raw
  }

  /** Two level-5 Prodigy traits: the work handler waits 30 s, the timers view
      announces 33.75 s, so "Ready!" is shown late. */
  lemma TimersDisagreeWithWork()
    ensures var a := NewAccount("pilot", false, Trait(Prodigy, 5), Trait(Prodigy, 5), 0);
            TimersWorkCooldownAsWritten(a, 0) == 33750.0 &&
            WorkCooldown(WorkModifiersOf(a, None, 0)) == 30000
  {
    var t := Trait(Prodigy, 5);
    var a := NewAccount("pilot", false, t, t, 0);
    assert a.traits == [t, t];
    assert [t, t][..1] == [t] && [t][..0] == [];
    assert ProdigyFactorAsWritten([t, t]) == 0.5625 by {
      assert ProdigyFactorAsWritten([t]) == 0.75;
    }
    assert LevelSum([t, t], Prodigy) == 10 by {
      assert LevelSum([t], Prodigy) == 5;
    }
    assert Unexpired(a.activeBuffs, 0) == [];
    assert WorkBuffsOver([]).cutMs == 0;
  }

  /** The countdowns of the timers view, computed with the cooldowns the
      handlers enforce. */
  datatype TimersView = TimersView(work: Option<int>, gather: Option<int>, hourly: Option<int>, daily: Option<int>,
                                   slots: Option<int>, smelting: Option<real>, clanJoin: Option<int>)

  /** The slots cooldown in ms. */
  const SlotsCooldownMs := 5 * 1000

  function Timers(a: Account, clanLevel: Option<int>, now: int): (v: TimersView)
    // the view says "Ready!" for work and gather exactly when the handler
    // lets the action through without a Momentum reset
    ensures v.work.None? <==> !OnCooldown(a.lastWork, WorkCooldown(WorkModifiersOf(a, clanLevel, now)), now)
    ensures v.gather.None? <==> !OnCooldown(a.lastGather, GatherCooldown(GatherModifiersOf(a, clanLevel, now)), now)
    ensures v.hourly.None? <==> a.lastHourly + HourlyCooldownMs - now <= 0
    ensures v.daily.None? <==> a.lastDaily + DailyCooldownMs - now <= 0
    ensures v.smelting.Some? <==> a.smelting.Some? && a.smelting.value.finishTime > now as real
  {
    var left := (t: int) => if t > 0 then Some(t) else None;
    TimersView(
      TimeLeft(a.lastWork, WorkCooldown(WorkModifiersOf(a, clanLevel, now)), now),
      TimeLeft(a.lastGather, GatherCooldown(GatherModifiersOf(a, clanLevel, now)), now),
      left(a.lastHourly + HourlyCooldownMs - now),
      left(a.lastDaily + DailyCooldownMs - now),
      left(a.lastSlots + SlotsCooldownMs - now),
      if a.smelting.Some? && a.smelting.value.finishTime > now as real then Some(a.smelting.value.finishTime - now as real) else None,
      if a.clanJoinCooldown != 0 && now < a.clanJoinCooldown then Some(a.clanJoinCooldown - now) else None)
  }
}
