/** The pure parts of the two timed actions, handleWork and handleGather:
    the random values each one draws, the payout and haul they compute from
    them, and the account each one writes back. The handlers themselves,
    which read the clan and the clan-war clock, live in Economy. */
module Actions {
  import opened Common
  import opened Catalog
  import opened Accounts
  import opened Rewards
  import opened Modifiers

  /** A `Math.random()` value. */
  predicate Unit(r: real) {
    0.0 <= r < 1.0
  }

  /** `Math.random() * 100 < momentumChance`: the clan's Momentum perk
      lets the action ignore its cooldown and leaves the timer alone. */
  predicate MomentumReset(roll: real, chance: real) {
    roll * 100.0 < chance
  }

  /** Whether the account holds any Zealot trait: each work or gather then
      adds a zeal stack and restarts the decay window. */
  predicate HasZealot(traits: seq<Trait>) {
    exists k :: 0 <= k < |traits| && traits[k].kind == Zealot
  }

  /** The zeal after a work or gather. */
  function ZealAfter(traits: seq<Trait>, zeal: Zeal, now: int): (z: Zeal)
    ensures HasZealot(traits) ==> z.stacks == zeal.stacks + 1 && z.lastAction == now
    ensures !HasZealot(traits) ==> z == zeal
  {
    if HasZealot(traits) then Zeal(zeal.stacks + 1, now) else zeal
  }

  /** A tower surge: the grid is online, holds a Tower, and a secure draw
      falls under 10%. */
  predicate TowerSurges(slots: seq<Option<Item>>, bytes: U32) {
    Online(GridTotals(slots)) && Some(Tower) in slots && SecureRandomFloat(bytes) < 0.10
  }

  /** A grid without a Solar Panel never surges. */
  lemma NoPanelNoSurge(slots: seq<Option<Item>>, bytes: U32)
    requires Some(SolarPanel) !in slots
    ensures !TowerSurges(slots, bytes)
  {
    if Some(Tower) in slots {
      NoPanelNoPower(slots);
    }
  }

  // ------------------------------------------------------------------ work

  /** The values handleWork draws, in the order it draws them: the Momentum
      roll, the base earnings, the double-or-nothing coin, the tower surge,
      the Scavenger roll, and the Scavenger's loot and quantity. A value the
      handler never reaches is ignored. */
  datatype WorkDraws = WorkDraws(momentum: real, base: U32, coin: U32, surge: U32,
                                 scavenge: U32, lootPick: real, lootQty: real)

  predicate WorkDrawsValid(d: WorkDraws) {
    Unit(d.momentum) && Unit(d.lootPick) && Unit(d.lootQty)
  }

  /** The Scavenger trait's find: with a positive chance and a secure draw
      under it, one to three Wood or Stone. */
  function ScavengerLoot(chance: int, roll: U32, pick: real, qty: real): (loot: Option<(Item, int)>)
    requires Unit(pick) && Unit(qty)
    ensures loot.Some? <==> chance > 0 && SecureRandomFloat(roll) * 100.0 < chance as real
    ensures loot.Some? ==> (loot.value.0 == Wood || loot.value.0 == Stone) && 1 <= loot.value.1 <= 3
  {
    if chance > 0 && SecureRandomFloat(roll) * 100.0 < chance as real then
      Some(([Wood, Stone][Floor(pick * 2.0)], Floor(qty * 3.0) + 1))
    else None
  }

  /** What a work pays, given the account's modifiers and the running event. */
  function WorkPay(a: Account, m: WorkModifiers, d: WorkDraws, event: Option<EventKind>): int {
    WorkEarnings(WorkBase(d.base), m, SecureRandomFloat(d.coin) < 0.5, event, TowerSurges(a.powerGrid.slots, d.surge))
  }

  /** `$pull: { activeBuffs: { itemId: 'the_addict_rush' } }`: every rush
      buff goes, expired or not, and nothing else. */
  function DropRush(buffs: seq<Buff>): (r: seq<Buff>)
    ensures forall b :: b in r <==> b in buffs && !b.source.AddictRush?
    ensures |r| <= |buffs|
  {
    if buffs == [] then []
    else
      var rest := DropRush(buffs[..|buffs| - 1]);
      var b := buffs[|buffs| - 1];
      assert buffs == buffs[..|buffs| - 1] + [b];
      if b.source.AddictRush? then rest else rest + [b]
  }

  /** The account a successful work writes back: the pay credited, the
      rush buffs dropped, the work timer restarted unless Momentum reset it,
      the Scavenger's find added and a zeal stack gained. */
  function Worked(a: Account, pay: int, reset: bool, loot: Option<(Item, int)>, now: int): (b: Account)
    ensures b.balance == a.balance + pay && b.kind == a.kind
    ensures forall x :: x in b.activeBuffs <==> x in a.activeBuffs && !x.source.AddictRush?
    ensures b.lastWork == (if reset then a.lastWork else now)
    ensures forall i :: Qty(b.inventory, i) == Qty(a.inventory, i) + (if loot.Some? && i == loot.value.0 then loot.value.1 else 0)
    ensures b == a.(balance := b.balance, activeBuffs := b.activeBuffs, lastWork := b.lastWork,
                    inventory := b.inventory, zeal := ZealAfter(a.traits, a.zeal, now))
  {
    a.(balance := a.balance + pay,
       activeBuffs := DropRush(a.activeBuffs),
       lastWork := if reset then a.lastWork else now,
       inventory := if loot.Some? then Add(a.inventory, loot.value.0, loot.value.1) else a.inventory,
       zeal := ZealAfter(a.traits, a.zeal, now))
  }

  /** A work keeps the account well formed when the find is not negative. */
  lemma WorkedWellFormed(a: Account, pay: int, reset: bool, loot: Option<(Item, int)>, now: int)
    requires WellFormed(a) && (loot.Some? ==> loot.value.1 >= 0)
    ensures WellFormed(Worked(a, pay, reset, loot, now))
  {
    var b := Worked(a, pay, reset, loot, now);
    StockedByQty(a.inventory);
    StockedByQty(b.inventory);
  }

  /** A work that the timer allowed, without a Momentum reset, makes the
      next work wait out the cooldown: any work before `now + cooldown` is
      refused unless Momentum resets it. */
  lemma WorkRestartsTimer(a: Account, pay: int, loot: Option<(Item, int)>, now: int, cooldown: int, later: int)
    requires now != 0 && now <= later < now + cooldown
    ensures OnCooldown(Worked(a, pay, false, loot, now).lastWork, cooldown, later)
  {
  }

  /** With the flat and percent tool bonuses and the percent bonus not
      negative (a Stocked inventory and valid traits give the first two),
      a work never pays less than nothing. */
  lemma WorkPayNonNegative(a: Account, clanLevel: Option<int>, d: WorkDraws, event: Option<EventKind>, now: int)
    requires WellFormed(a)
    requires WorkModifiersOf(a, clanLevel, now).bonusPercent >= 0.0
    ensures WorkPay(a, WorkModifiersOf(a, clanLevel, now), d, event) >= 0
  {
    var m := WorkModifiersOf(a, clanLevel, now);
    assert m.tools.flat >= 0 && m.tools.percent >= 0;
    EarningsNonNegative(WorkBase(d.base), m, SecureRandomFloat(d.coin) < 0.5, event, TowerSurges(a.powerGrid.slots, d.surge));
  }

  // ---------------------------------------------------------------- gather

  /** The values handleGather draws: the Momentum roll, the shuffled order
      of the gather table, one roll per entry walked, the Surveyor roll and
      the tower surge. */
  datatype GatherDraws = GatherDraws(momentum: real, order: seq<GatherEntry>, rolls: seq<GatherRoll>,
                                     surveyor: U32, surge: U32)

  /** The draws fit the account: the order is the gather table shuffled,
      there is one roll per entry and each roll draws once per basket held. */
  predicate GatherDrawsFit(d: GatherDraws, baskets: int) {
    && Unit(d.momentum)
    && multiset(d.order) == multiset(GatherTable)
    && |d.rolls| == |d.order|
    && (forall k :: 0 <= k < |d.rolls| ==> |d.rolls[k].basket| == baskets)
  }

  lemma TableRanges()
    ensures RangesValid(GatherTable)
  {
  }

  /** Every shuffle of the gather table has non-empty quantity ranges and
      holds only items of the table. */
  lemma Shuffled(order: seq<GatherEntry>)
    requires multiset(order) == multiset(GatherTable)
    ensures RangesValid(order)
    ensures forall k :: 0 <= k < |order| ==> InTable(order[k].item)
  {
    TableRanges();
    forall k | 0 <= k < |order|
      ensures order[k].minQty <= order[k].maxQty && InTable(order[k].item)
    {
      assert order[k] in multiset(order);
      assert order[k] in GatherTable;
      var j :| 0 <= j < |GatherTable| && GatherTable[j] == order[k];
    }
  }

  /** The total quantity of one item in a haul. */
  function HaulQty(haul: seq<(Item, int)>, i: Item): int {
    if haul == [] then 0
    else HaulQty(haul[..|haul| - 1], i) + (if haul[|haul| - 1].0 == i then haul[|haul| - 1].1 else 0)
  }

  lemma {:induction false} HaulQtyNonNegative(haul: seq<(Item, int)>, i: Item)
    requires forall k :: 0 <= k < |haul| ==> haul[k].1 >= 0
    ensures HaulQty(haul, i) >= 0
  {
    if haul != [] {
      HaulQtyNonNegative(haul[..|haul| - 1], i);
    }
  }

  /** An item that is not in the haul has no quantity in it. */
  lemma {:induction false} HaulQtyAbsent(haul: seq<(Item, int)>, i: Item)
    requires forall k :: 0 <= k < |haul| ==> haul[k].0 != i
    ensures HaulQty(haul, i) == 0
  {
    if haul != [] {
      HaulQtyAbsent(haul[..|haul| - 1], i);
    }
  }

  /** How many times the haul is credited: twice when the Surveyor trait
      triggers, twice again when the tower surges (the surge doubles every
      inventory increment, the Surveyor's included). Neither is drawn for an
      empty haul. */
  function HaulFactor(found: bool, surveyorChance: int, surveyorRoll: U32, slots: seq<Option<Item>>, surge: U32): (f: int)
    ensures f == 1 || f == 2 || f == 4
    ensures !found ==> f == 1
    ensures found && TowerSurges(slots, surge) ==> f == 2 || f == 4
    ensures found && !TowerSurges(slots, surge) ==> f == 1 || f == 2
    ensures surveyorChance <= 0 ==> f == (if found && TowerSurges(slots, surge) then 2 else 1)
  {
    if !found then 1
    else
      var surveyed := if surveyorChance > 0 && SecureRandomFloat(surveyorRoll) * 100.0 < surveyorChance as real then 2 else 1;
      if TowerSurges(slots, surge) then 2 * surveyed else surveyed
  }

  /** The haul added to an inventory `factor` times. */
  function CreditHaul(inv: map<Item, int>, haul: seq<(Item, int)>, factor: int): (r: map<Item, int>)
    ensures forall i :: Qty(r, i) == Qty(inv, i) + factor * HaulQty(haul, i)
  {
    if haul == [] then inv
    else
      var e := haul[|haul| - 1];
      CreditStep(haul, factor);
      Add(CreditHaul(inv, haul[..|haul| - 1], factor), e.0, factor * e.1)
  }

  lemma CreditStep(haul: seq<(Item, int)>, factor: int)
    requires haul != []
    ensures forall i :: factor * HaulQty(haul, i) ==
                        factor * HaulQty(haul[..|haul| - 1], i) + (if haul[|haul| - 1].0 == i then factor * haul[|haul| - 1].1 else 0)
  {
    forall i
      ensures factor * HaulQty(haul, i) ==
              factor * HaulQty(haul[..|haul| - 1], i) + (if haul[|haul| - 1].0 == i then factor * haul[|haul| - 1].1 else 0)
    {
      var x, y := HaulQty(haul[..|haul| - 1], i), (if haul[|haul| - 1].0 == i then haul[|haul| - 1].1 else 0);
      assert HaulQty(haul, i) == x + y;
      Distribute(factor, x, y);
    }
  }

  lemma Distribute(f: int, x: int, y: int)
    ensures f * (x + y) == f * x + f * y
  {
  }

  /** The expired buffs handleGather writes back before it checks the
      cooldown, and only when some buff has expired. */
  function Pruned(a: Account, now: int): (b: Account)
    ensures forall x :: x in b.activeBuffs <==> x in a.activeBuffs && x.expiresAt > now
    ensures b == a.(activeBuffs := b.activeBuffs)
  {
    var live := Unexpired(a.activeBuffs, now);
    if |live| < |a.activeBuffs| then a.(activeBuffs := live)
    else
      UnexpiredAll(a.activeBuffs, now);
      a
  }

  /** The account a successful gather writes back: the haul credited
      `factor` times, the gather timer restarted unless Momentum reset it and
      a zeal stack gained. */
  function Gathered(a: Account, haul: seq<(Item, int)>, factor: int, reset: bool, now: int): (b: Account)
    ensures forall i :: Qty(b.inventory, i) == Qty(a.inventory, i) + factor * HaulQty(haul, i)
    ensures b.lastGather == (if reset then a.lastGather else now)
    ensures b == a.(inventory := b.inventory, lastGather := b.lastGather, zeal := ZealAfter(a.traits, a.zeal, now))
  {
    a.(inventory := CreditHaul(a.inventory, haul, factor),
       lastGather := if reset then a.lastGather else now,
       zeal := ZealAfter(a.traits, a.zeal, now))
  }

  /** The haul of an account with the given modifiers. */
  function GatherHaulOf(m: GatherModifiers, d: GatherDraws, event: Option<EventKind>): (h: seq<(Item, int)>)
    requires |d.rolls| == |d.order| && RangesValid(d.order)
    ensures m.maxTypes >= 0 ==> |h| <= m.maxTypes
  {
    Haul(d.order, d.rolls, m.maxTypes, event, m.abundance)
  }

  /** Zeal adds no negative abundance: stacks and trait levels are not negative. */
  lemma {:induction false} ZealAbundanceNonNegative(traits: seq<Trait>, stacks: int)
    requires TraitsValid(traits) && stacks >= 0
    ensures ZealAbundance(traits, stacks) >= 0
  {
    if traits != [] {
      var init := traits[..|traits| - 1];
      assert TraitsValid(init) by {
        assert forall k :: 0 <= k < |init| ==> init[k] == traits[k];
      }
      ZealAbundanceNonNegative(init, stacks);
      var t := traits[|traits| - 1];
      assert 0.0 <= stacks as real * (2.5 * t.level as real) by {
        assert t.level >= 1;
        ProductNonNegative(stacks as real, 2.5 * t.level as real);
      }
    }
  }

  lemma ProductNonNegative(x: real, y: real)
    requires x >= 0.0 && y >= 0.0
    ensures x * y >= 0.0
  {
  }

  /** An item of the gather table. */
  predicate InTable(i: Item) {
    exists j :: 0 <= j < |GatherTable| && GatherTable[j].item == i
  }

  /** The abundance bonus of a well-formed account is not negative. */
  lemma AbundanceNonNegative(a: Account, clanLevel: Option<int>, now: int)
    requires WellFormed(a)
    ensures GatherModifiersOf(a, clanLevel, now).abundance >= 0
  {
    ZealAbundanceNonNegative(a.traits, a.zeal.stacks);
  }

  /** Every entry of a haul walked over table entries is an item of the
      table, in a quantity no lower than the abundance bonus. */
  lemma HaulFromTable(order: seq<GatherEntry>, rolls: seq<GatherRoll>, maxTypes: int, event: Option<EventKind>, abundance: int)
    requires RangesValid(order) && |rolls| == |order|
    requires forall k :: 0 <= k < |order| ==> InTable(order[k].item)
    ensures forall k :: 0 <= k < |Haul(order, rolls, maxTypes, event, abundance)| ==>
              Haul(order, rolls, maxTypes, event, abundance)[k].1 >= abundance &&
              InTable(Haul(order, rolls, maxTypes, event, abundance)[k].0)
  {
    forall k | 0 <= k < |Haul(order, rolls, maxTypes, event, abundance)|
      ensures Haul(order, rolls, maxTypes, event, abundance)[k].1 >= abundance
      ensures InTable(Haul(order, rolls, maxTypes, event, abundance)[k].0)
    {
      HaulFound(order, rolls, maxTypes, event, abundance);
      var found := Haul(order, rolls, maxTypes, event, abundance)[k];
      assert Found(order, rolls, abundance, found);
      var j :| 0 <= j < |order| && order[j].item == found.0 &&
               order[j].minQty + abundance <= found.1 <= order[j].maxQty + |rolls[j].basket| + abundance;
    }
  }

  /** A gather keeps the account well formed when the haul is not negative. */
  lemma GatheredWellFormed(a: Account, haul: seq<(Item, int)>, factor: int, reset: bool, now: int)
    requires WellFormed(a) && factor >= 0 && forall k :: 0 <= k < |haul| ==> haul[k].1 >= 0
    ensures WellFormed(Gathered(a, haul, factor, reset, now))
  {
    var b := Gathered(a, haul, factor, reset, now);
    StockedByQty(a.inventory);
    forall i
      ensures Qty(b.inventory, i) >= 0
    {
      HaulQtyNonNegative(haul, i);
      ProductNonNegative(factor as real, HaulQty(haul, i) as real);
    }
    StockedByQty(b.inventory);
  }

  /** A gather changes only the counts of items of the gather table. */
  lemma GatherOnlyTableItems(a: Account, haul: seq<(Item, int)>, factor: int, reset: bool, now: int, i: Item)
    requires forall k :: 0 <= k < |haul| ==> InTable(haul[k].0)
    requires !InTable(i)
    ensures Qty(Gathered(a, haul, factor, reset, now).inventory, i) == Qty(a.inventory, i)
  {
    HaulQtyAbsent(haul, i);
  }

  // ------------------------------------------------------------- handlers

  /** handleWork on one account whose clan, if it still exists, has level
      `clanLevel`: refused, with nothing written, while the work timer runs
      unless Momentum resets it; otherwise paid and written back. */
  function Work(a: Account, clanLevel: Option<int>, event: Option<EventKind>, d: WorkDraws, now: int): (s: Step)
    requires WorkDrawsValid(d)
    ensures var m := WorkModifiersOf(a, clanLevel, now);
            s.ok <==> MomentumReset(d.momentum, m.momentumChance) || !OnCooldown(a.lastWork, WorkCooldown(m), now)
    ensures !s.ok ==> s.account == a
    ensures s.ok ==> var m := WorkModifiersOf(a, clanLevel, now);
                     s.account == Worked(a, WorkPay(a, m, d, event), MomentumReset(d.momentum, m.momentumChance),
                                         ScavengerLoot(m.scavengerChance, d.scavenge, d.lootPick, d.lootQty), now)
    ensures s.account.id == a.id && s.account.clanId == a.clanId
    ensures WellFormed(a) ==> WellFormed(s.account)
  {
    var m := WorkModifiersOf(a, clanLevel, now);
    var reset := MomentumReset(d.momentum, m.momentumChance);
    if !reset && OnCooldown(a.lastWork, WorkCooldown(m), now) then Step(false, a)
    else
      var loot := ScavengerLoot(m.scavengerChance, d.scavenge, d.lootPick, d.lootQty);
      var b := Worked(a, WorkPay(a, m, d, event), reset, loot, now);
      WorkedWellFormedIf(a, WorkPay(a, m, d, event), reset, loot, now);
      Step(true, b)
  }

  lemma WorkedWellFormedIf(a: Account, pay: int, reset: bool, loot: Option<(Item, int)>, now: int)
    requires loot.Some? ==> loot.value.1 >= 0
    ensures WellFormed(a) ==> WellFormed(Worked(a, pay, reset, loot, now))
  {
    if WellFormed(a) {
      WorkedWellFormed(a, pay, reset, loot, now);
    }
  }

  /** The haul of a gather with the given draws. */
  function GatherFind(a: Account, clanLevel: Option<int>, event: Option<EventKind>, d: GatherDraws, now: int): (h: seq<(Item, int)>)
    requires GatherDrawsFit(d, Qty(a.inventory, GatheringBasket))
    ensures |h| <= GatherModifiersOf(a, clanLevel, now).maxTypes || GatherModifiersOf(a, clanLevel, now).maxTypes < 0
    ensures forall k :: 0 <= k < |h| ==> InTable(h[k].0)
    ensures forall k :: 0 <= k < |h| ==> h[k].1 >= GatherModifiersOf(a, clanLevel, now).abundance
  {
    var m := GatherModifiersOf(a, clanLevel, now);
    Shuffled(d.order);
    HaulFromTable(d.order, d.rolls, m.maxTypes, event, m.abundance);
    GatherHaulOf(m, d, event)
  }

  /** The account a gather that goes through writes back: the haul
      credited `factor` times onto the account with its expired buffs
      dropped. */
  function GatherSucceeded(a: Account, clanLevel: Option<int>, haul: seq<(Item, int)>, factor: int, reset: bool, now: int): (b: Account)
    requires factor >= 0
    requires forall k :: 0 <= k < |haul| ==> haul[k].1 >= GatherModifiersOf(a, clanLevel, now).abundance
    ensures b.id == a.id && b.clanId == a.clanId
    ensures WellFormed(a) ==> WellFormed(b)
  {
    GatheredWellFormedIf(a, clanLevel, haul, factor, reset, now);
    Gathered(Pruned(a, now), haul, factor, reset, now)
  }

  /** handleGather on one account: expired buffs are written back first,
      even when the gather timer then refuses; otherwise the haul is
      credited as many times as the Surveyor and the tower say. */
  function Gather(a: Account, clanLevel: Option<int>, event: Option<EventKind>, d: GatherDraws, now: int): (s: Step)
    requires GatherDrawsFit(d, Qty(a.inventory, GatheringBasket))
    ensures var m := GatherModifiersOf(a, clanLevel, now);
            s.ok <==> MomentumReset(d.momentum, m.momentumChance) || !OnCooldown(a.lastGather, GatherCooldown(m), now)
  {
    var m := GatherModifiersOf(a, clanLevel, now);
    var reset := MomentumReset(d.momentum, m.momentumChance);
    if !reset && OnCooldown(a.lastGather, GatherCooldown(m), now) then Step(false, Pruned(a, now))
    else Step(true, GatherThrough(a, clanLevel, event, d, reset, now))
  }

  /** The account a gather that is off cooldown, or reset, writes back:
      the haul found on the draws, credited by the Surveyor and tower factor. */
  function GatherThrough(a: Account, clanLevel: Option<int>, event: Option<EventKind>, d: GatherDraws, reset: bool, now: int): Account
    requires GatherDrawsFit(d, Qty(a.inventory, GatheringBasket))
  {
    CreditFind(a, clanLevel, GatherFind(a, clanLevel, event, d, now), d, reset, now)
  }

  /** A found haul credited by the Surveyor and tower factor. */
  function CreditFind(a: Account, clanLevel: Option<int>, haul: seq<(Item, int)>, d: GatherDraws, reset: bool, now: int): Account
    requires forall k :: 0 <= k < |haul| ==> haul[k].1 >= GatherModifiersOf(a, clanLevel, now).abundance
  {
    var m := GatherModifiersOf(a, clanLevel, now);
    GatherSucceeded(a, clanLevel, haul, HaulFactor(haul != [], m.surveyorChance, d.surveyor, a.powerGrid.slots, d.surge), reset, now)
  }

  /** What a gather writes back: a refused gather only the account with
      its expired buffs dropped; one that goes through also the haul,
      credited as many times as the Surveyor and the tower say, the timer
      and the zeal. */
  lemma GatherOutcome(a: Account, clanLevel: Option<int>, event: Option<EventKind>, d: GatherDraws, now: int)
    requires GatherDrawsFit(d, Qty(a.inventory, GatheringBasket))
    ensures !Gather(a, clanLevel, event, d, now).ok ==> Gather(a, clanLevel, event, d, now).account == Pruned(a, now)
    ensures Gather(a, clanLevel, event, d, now).ok ==>
              var m := GatherModifiersOf(a, clanLevel, now);
              var haul := GatherFind(a, clanLevel, event, d, now);
              Gather(a, clanLevel, event, d, now).account ==
                Gathered(Pruned(a, now), haul, HaulFactor(haul != [], m.surveyorChance, d.surveyor, a.powerGrid.slots, d.surge),
                         MomentumReset(d.momentum, m.momentumChance), now)
  {
  }

  /** A gather keeps the account under its own id, in its own clan and
      well formed. */
  lemma GatherKeepsAccount(a: Account, clanLevel: Option<int>, event: Option<EventKind>, d: GatherDraws, now: int)
    requires GatherDrawsFit(d, Qty(a.inventory, GatheringBasket))
    ensures Gather(a, clanLevel, event, d, now).account.id == a.id
    ensures Gather(a, clanLevel, event, d, now).account.clanId == a.clanId
    ensures WellFormed(a) ==> WellFormed(Gather(a, clanLevel, event, d, now).account)
  {
  }

  lemma GatheredWellFormedIf(a: Account, clanLevel: Option<int>, haul: seq<(Item, int)>, factor: int, reset: bool, now: int)
    requires factor >= 0
    requires forall k :: 0 <= k < |haul| ==> haul[k].1 >= GatherModifiersOf(a, clanLevel, now).abundance
    ensures WellFormed(a) ==> WellFormed(Gathered(Pruned(a, now), haul, factor, reset, now))
  {
    if WellFormed(a) {
      AbundanceNonNegative(a, clanLevel, now);
      GatheredWellFormed(Pruned(a, now), haul, factor, reset, now);
    }
  }
}
