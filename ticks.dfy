/** What the background ticks do to one record: zeal decay, finished
    smelting, grid production, the clan-war prizes and reset, and the refunds
    of the market price correction. The ticks themselves, which walk the
    whole store, are methods of Economy.Store. */
module Ticks {
  import opened Common
  import opened Catalog
  import opened Accounts
  import opened Modifiers
  import opened Market
  import opened Clans

  // ------------------------------------------------------------ zeal decay

  /** processZealotDecayTick on one account: positive stacks of an account
      idle for longer than the decay window drop to zero. */
  function ZealDecayed(a: Account, now: int): (b: Account)
    ensures b == a.(zeal := b.zeal) && b.zeal.lastAction == a.zeal.lastAction
    ensures a.zeal.lastAction >= now - ZealotDecayWindowMs ==> b == a
    ensures a.zeal.lastAction < now - ZealotDecayWindowMs ==> b.zeal.stacks <= 0
    ensures b.zeal.stacks == a.zeal.stacks || (a.zeal.stacks > 0 && b.zeal.stacks == 0)
    ensures WellFormed(a) ==> WellFormed(b)
  {
    if a.zeal.stacks > 0 && a.zeal.lastAction < now - ZealotDecayWindowMs then a.(zeal := a.zeal.(stacks := 0))
    else a
  }

  /** No stacks, no zeal bonus: neither to work pay nor to gather abundance. */
  lemma {:induction false} NoStacksNoZeal(traits: seq<Trait>)
    ensures ZealPercent(traits, 0) == 0.0 && ZealAbundance(traits, 0) == 0
  {
    if traits != [] {
      NoStacksNoZeal(traits[..|traits| - 1]);
    }
  }

  /** After the decay tick an account idle for longer than the window gets
      no zeal bonus, whatever its Zealot traits. */
  lemma IdleZealDecays(a: Account, now: int)
    requires WellFormed(a) && a.zeal.lastAction < now - ZealotDecayWindowMs
    ensures ZealPercent(a.traits, ZealDecayed(a, now).zeal.stacks) == 0.0
    ensures ZealAbundance(a.traits, ZealDecayed(a, now).zeal.stacks) == 0
  {
    NoStacksNoZeal(a.traits);
  }

  // ------------------------------------------------------- finished smelting

  /** The smelting query: a job whose finish time has come. */
  predicate SmeltDue(a: Account, now: int) {
    a.smelting.Some? && a.smelting.value.finishTime <= now as real
  }

  /** processFinishedSmelting on one account: a due job's products go into
      the inventory and the job is cleared; a job still running is left. */
  function SmeltCollected(a: Account, now: int): (b: Account)
    ensures !SmeltDue(b, now)
    ensures !SmeltDue(a, now) ==> b == a
    ensures SmeltDue(a, now) ==> b == a.(inventory := b.inventory, smelting := None)
    ensures SmeltDue(a, now) ==>
              forall i :: Qty(b.inventory, i) == Qty(a.inventory, i) +
                          (if i == a.smelting.value.result then a.smelting.value.quantity else 0)
    ensures WellFormed(a) ==> WellFormed(b)
  {
    if SmeltDue(a, now) then
      var b := CollectSmelting(a);
      StockedByQty(a.inventory);
      StockedByQty(b.inventory);
      b
    else a
  }

  // -------------------------------------------------------- grid production

  /** processGridTick on one account: the tick time is stamped, and a grid
      that is online (net power not negative) pays its Bits output. */
  function GridTicked(a: Account, now: int): (b: Account)
    ensures b == a.(balance := b.balance, powerGrid := a.powerGrid.(lastTick := now))
    ensures Online(GridTotals(a.powerGrid.slots)) ==> b.balance == a.balance + GridTotals(a.powerGrid.slots).bits
    ensures !Online(GridTotals(a.powerGrid.slots)) ==> b.balance == a.balance
    ensures WellFormed(a) ==> WellFormed(b)
  {
    var o := GridTotals(a.powerGrid.slots);
    var balance := if o.generation - o.consumption >= 0 && o.bits > 0 then a.balance + o.bits else a.balance;
    a.(balance := balance, powerGrid := a.powerGrid.(lastTick := now))
  }

  /** Only an Auto Miner produces Bits. */
  lemma {:induction false} NoMinerNoBits(slots: seq<Option<Item>>)
    requires Some(AutoMiner) !in slots
    ensures GridTotals(slots).bits == 0
  {
    if slots != [] {
      var init := slots[..|slots| - 1];
      assert forall x :: x in init ==> x in slots;
      NoMinerNoBits(init);
    }
  }

  /** A grid without a Solar Panel never earns anything: an Auto Miner
      there has no power, and without one there is no output. */
  lemma NoPanelNoIncome(a: Account, now: int)
    requires Some(SolarPanel) !in a.powerGrid.slots
    ensures GridTicked(a, now).balance == a.balance
  {
    NoPanelNoPower(a.powerGrid.slots);
    if Some(AutoMiner) !in a.powerGrid.slots {
      NoMinerNoBits(a.powerGrid.slots);
    }
  }

  // --------------------------------------------------------------- clan war

  /** The 1-based place of a clan in the final standings, 0 when it is not there. */
  function RankOf(top: seq<ClanCode>, code: ClanCode): (r: nat)
    ensures r <= |top|
    ensures r == 0 <==> code !in top
    ensures r > 0 ==> top[r - 1] == code && code !in top[..r - 1]
  {
    if top == [] then 0
    else if top[0] == code then 1
    else
      var k := RankOf(top[1..], code);
      assert top == [top[0]] + top[1..];
      if k == 0 then 0
      else
        assert top[..k] == [top[0]] + top[1..][..k - 1];
        k + 1
  }

  /** The war prize of an account: the CLAN_WAR_REWARDS items of its clan's
      place, nothing outside the top three. */
  function WarPrize(a: Account, top: seq<ClanCode>): (b: Account)
    ensures b == a.(inventory := b.inventory)
    ensures forall i :: Qty(b.inventory, i) == Qty(a.inventory, i) +
                        (if a.clanId.Some? then Need(WarReward(RankOf(top, a.clanId.value)), i, 1) else 0)
    ensures WellFormed(a) ==> WellFormed(b)
  {
    if a.clanId.Some? then
      var b := a.(inventory := GrantAll(a.inventory, WarReward(RankOf(top, a.clanId.value))));
      StockedByQty(a.inventory);
      WarRewardNonNegative(RankOf(top, a.clanId.value));
      StockedByQty(b.inventory);
      b
    else a
  }

  /** War prizes only ever add items. */
  lemma WarRewardNonNegative(rank: nat)
    ensures forall i :: Need(WarReward(rank), i, 1) >= 0
  {
    var r := WarReward(rank);
    forall i
      ensures Need(r, i, 1) >= 0
    {
      if |r| == 2 {
        assert Need(r[1..], i, 1) == (if r[1].0 == i then r[1].1 else 0) + Need(r[2..], i, 1);
      }
    }
  }

  /** Members of the winning clan receive five Trait Reforgers and three
      Crystal Crates; an account outside the final standings gets nothing. */
  lemma PrizeByRank(a: Account, top: seq<ClanCode>)
    ensures a.clanId.None? || a.clanId.value !in top ==> WarPrize(a, top) == a
    ensures a.clanId.Some? && top != [] && top[0] == a.clanId.value ==>
              Qty(WarPrize(a, top).inventory, TraitReforger) == Qty(a.inventory, TraitReforger) + 5 &&
              Qty(WarPrize(a, top).inventory, CrystalCrate) == Qty(a.inventory, CrystalCrate) + 3
  {
    if a.clanId.Some? && top != [] && top[0] == a.clanId.value {
      var r := WarReward(1);
      assert Need(r[1..], TraitReforger, 1) == Need(r[2..], TraitReforger, 1);
    }
  }

  /** `updateMany({}, { $set: { warPoints: 0 } })`: every clan's war points
      go to zero and nothing else of any clan changes. */
  function WarReset(clans: map<ClanCode, Clan>): (r: map<ClanCode, Clan>)
    ensures r.Keys == clans.Keys
    ensures forall c :: c in clans ==> r[c] == clans[c].(warPoints := r[c].warPoints) && r[c].warPoints == 0
  {
    map c | c in clans :: clans[c].(warPoints := 0)
  }

  /** After the reset a new war starts from empty standings: the empty
      podium is the only one. */
  lemma ResetPodiumEmpty(clans: map<ClanCode, Clan>, top: seq<ClanCode>)
    ensures IsPodium(WarReset(clans), top) <==> top == []
  {
    if top != [] {
      assert top[0] !in clans || WarReset(clans)[top[0]].warPoints == 0;
    }
  }

  // -------------------------------------------------------- price correction

  /** How many units of `item` the given listings hold for the account `h`:
      each listing counts for the account its seller id resolves to. */
  function Units(accounts: map<AccountId, Account>, listings: seq<Listing>, h: AccountId, item: Item): int {
    if listings == [] then 0
    else
      var l := listings[|listings| - 1];
      Units(accounts, listings[..|listings| - 1], h, item)
        + (if Holder(accounts, l.sellerId) == Some(h) && l.item == item then l.quantity else 0)
  }

  /** The accounts after the correction sweep has handed back the items of
      the given listings, in order: only inventories change, and each
      account receives every unit listed under an id that resolves to it. */
  function Refunded(accounts: map<AccountId, Account>, listings: seq<Listing>): (r: map<AccountId, Account>)
    ensures r.Keys == accounts.Keys
    ensures forall id :: id in accounts ==> r[id] == accounts[id].(inventory := r[id].inventory)
    ensures forall id, i :: id in accounts ==>
              Qty(r[id].inventory, i) == Qty(accounts[id].inventory, i) + Units(accounts, listings, id, i)
  {
    if listings == [] then accounts
    else
      var before := Refunded(accounts, listings[..|listings| - 1]);
      var l := listings[|listings| - 1];
      HolderKept(accounts, before, l.sellerId);
      match Holder(before, l.sellerId)
      case Some(h) => before[h := before[h].(inventory := Add(before[h].inventory, l.item, l.quantity))]
      case None => before
  }

  /** The sweep divides every account's listed units between the listings it
      keeps and the ones it cancels. */
  lemma {:induction false} SweepUnits(accounts: map<AccountId, Account>, market: seq<Listing>, h: AccountId, item: Item)
    ensures Units(accounts, Allowed(market), h, item) + Units(accounts, Disallowed(market), h, item) == Units(accounts, market, h, item)
  {
    if market != [] {
      var init := market[..|market| - 1];
      var l := market[|market| - 1];
      SweepUnits(accounts, init, h, item);
      var u := if Holder(accounts, l.sellerId) == Some(h) && l.item == item then l.quantity else 0;
      assert Units(accounts, market, h, item) == Units(accounts, init, h, item) + u;
      if PriceAllowed(l.price) {
        var kept := Allowed(init) + [l];
        assert Allowed(market) == kept && Disallowed(market) == Disallowed(init);
        assert kept[..|kept| - 1] == Allowed(init);
        assert Units(accounts, kept, h, item) == Units(accounts, Allowed(init), h, item) + u;
      } else {
        var dropped := Disallowed(init) + [l];
        assert Disallowed(market) == dropped && Allowed(market) == Allowed(init);
        assert dropped[..|dropped| - 1] == Disallowed(init);
        assert Units(accounts, dropped, h, item) == Units(accounts, Disallowed(init), h, item) + u;
      }
    }
  }

  /** The correction neither destroys nor creates items: for every account
      and item, what it holds plus what it has listed is the same before
      and after the sweep. */
  lemma CorrectionConserves(accounts: map<AccountId, Account>, market: seq<Listing>, id: AccountId, i: Item)
    requires id in accounts
    ensures Qty(Refunded(accounts, Disallowed(market))[id].inventory, i) + Units(accounts, Allowed(market), id, i) ==
            Qty(accounts[id].inventory, i) + Units(accounts, market, id, i)
  {
    SweepUnits(accounts, market, id, i);
  }
}
