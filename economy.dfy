/** The store every handler and tick works on: the accounts, the market
    listings, the crate shop, the clans, the clan-war clock and the running
    global event. Each handler is one sequential, guard-checked step on the
    store, with each guarded database update taken as an atomic
    check-then-act; each handler keeps the store's invariant. */
module Economy {
  import opened Common
  import opened Catalog
  import opened Accounts
  import opened Rewards
  import opened Crates
  import opened Modifiers
  import opened Streaks
  import opened Market
  import opened Clans
  import opened Actions
  import opened Ticks

  /** The running global event and when it ends. */
  datatype ActiveEvent = ActiveEvent(kind: EventKind, expiresAt: int)

  /** A crate shop listing: which crate, how many are left and the price of one. */
  datatype CrateListing = CrateListing(box: Lootbox, quantity: int, price: int)

  /** Every account is filed under its own key and well formed. */
  ghost predicate AccountsValid(accounts: map<AccountId, Account>) {
    forall id :: id in accounts ==> accounts[id].id == id && WellFormed(accounts[id])
  }

  /** Listing ids are distinct and positive, and every listing offers something. */
  ghost predicate ListingsValid(market: seq<Listing>) {
    && Unique(Ids(market))
    && Positive(Ids(market))
    && (forall k :: 0 <= k < |market| ==> market[k].quantity > 0)
  }

  /** Crate listings are in stock and no crate is listed twice. */
  ghost predicate CratesValid(crates: seq<CrateListing>) {
    && (forall k :: 0 <= k < |crates| ==> crates[k].quantity > 0)
    && (forall i, j :: 0 <= i < j < |crates| ==> crates[i].box != crates[j].box)
  }

  ghost predicate ClansValid(clans: map<ClanCode, Clan>) {
    forall c :: c in clans ==> ClanSound(c, clans[c])
  }

  class Store {
    var accounts: map<AccountId, Account>
    var market: seq<Listing>
    var crates: seq<CrateListing>
    var clans: map<ClanCode, Clan>
    /** The end of the running clan war; None before the first war tick. */
    var warEnd: Option<int>
    var event: Option<ActiveEvent>

    ghost predicate Valid()
      reads this
    {
      && AccountsValid(accounts)
      && ListingsValid(market)
      && CratesValid(crates)
      && ClansValid(clans)
      && RosterAgrees(accounts, clans)
    }

    /** Nothing but the accounts changed. */
    twostate predicate OnlyAccounts()
      reads this
    {
      market == old(market) && crates == old(crates) && clans == old(clans) &&
      warEnd == old(warEnd) && event == old(event)
    }

    /** Nothing but the accounts and the market changed. */
    twostate predicate OnlyAccountsAndMarket()
      reads this
    {
      crates == old(crates) && clans == old(clans) && warEnd == old(warEnd) && event == old(event)
    }

    /** Nothing but the accounts and the crate shop changed. */
    twostate predicate OnlyAccountsAndCrates()
      reads this
    {
      market == old(market) && clans == old(clans) && warEnd == old(warEnd) && event == old(event)
    }

    /** Nothing but the accounts and the clans changed. */
    twostate predicate OnlyAccountsAndClans()
      reads this
    {
      market == old(market) && crates == old(crates) && warEnd == old(warEnd) && event == old(event)
    }

    constructor()
      ensures Valid()
      ensures accounts == map[] && market == [] && crates == [] && clans == map[]
      ensures warEnd.None? && event.None?
    {
      accounts, market, crates, clans := map[], [], [], map[];
      warEnd, event := None, None;
    }

    /** The kind of the running event (`currentGlobalEvent.effect.type`); an
        expired event counts until the event tick clears it. */
    function EventKindNow(): (k: Option<EventKind>)
      reads this
      ensures k.Some? <==> event.Some?
    {
      if event.Some? then Some(event.value.kind) else None
    }

    /** The level of the account's clan, when it still exists. */
    function ClanLevelOf(a: Account): (l: Option<int>)
      reads this
      ensures l.Some? <==> a.clanId.Some? && a.clanId.value in clans
    {
      if a.clanId.Some? && a.clanId.value in clans then Some(clans[a.clanId.value].level) else None
    }

    /** Writes one account back, keeping its clan. */
    method Put(a: Account)
      requires Valid() && a.id in accounts && WellFormed(a) && a.clanId == accounts[a.id].clanId
      modifies this
      ensures Valid() && OnlyAccounts()
      ensures accounts == old(accounts)[a.id := a]
    {
      RosterUpdate(accounts, clans, a.id, a);
      accounts := accounts[a.id := a];
    }

    /** `$inc: { balance: n }` on one account. */
    method Credit(id: AccountId, n: int)
      requires Valid() && id in accounts
      modifies this
      ensures Valid() && OnlyAccounts()
      ensures accounts == old(accounts)[id := old(accounts[id]).(balance := old(accounts[id]).balance + n)]
    {
      var a := accounts[id];
      Put(a.(balance := a.balance + n));
    }

    // ------------------------------------------------------------- ledger

    /** handlePay: the amount is floored; a non-positive amount or a payment
        to oneself is refused; the sender is debited only when the balance
        covers the amount, and only then is the recipient credited. */
    method Pay(sender: AccountId, recipient: AccountId, amount: real) returns (ok: bool)
      requires Valid() && sender in accounts && recipient in accounts
      modifies this
      ensures Valid() && OnlyAccounts()
      ensures ok <==> Floor(amount) > 0 && sender != recipient &&
                      old(accounts[sender].kind) == Finite && old(accounts[sender].balance) >= Floor(amount)
      ensures !ok ==> accounts == old(accounts)
      ensures ok ==> accounts == old(accounts)[sender := old(accounts[sender]).(balance := old(accounts[sender].balance) - Floor(amount))]
                                              [recipient := old(accounts[recipient]).(balance := old(accounts[recipient].balance) + Floor(amount))]
      ensures ok ==> accounts[sender].balance + accounts[recipient].balance ==
                     old(accounts[sender].balance) + old(accounts[recipient].balance)
      ensures ok ==> accounts[sender].balance >= 0
    {
      var n := Floor(amount);
      if n <= 0 || sender == recipient {
        return false;
      }
      var s := accounts[sender];
      if s.kind != Finite || s.balance < n {
        return false;
      }
      Credit(sender, -n);
      Credit(recipient, n);
      ok := true;
    }

    /** handleCraft on the account `id`. */
    method Craft(id: AccountId, item: Item, quantity: int) returns (ok: bool)
      requires Valid() && id in accounts
      modifies this
      ensures Valid() && OnlyAccounts()
      ensures ok <==> quantity > 0 && Recipe(item).Some? &&
                      forall j :: 0 <= j < |Recipe(item).value| ==>
                        Qty(old(accounts[id]).inventory, Recipe(item).value[j].0) >= Recipe(item).value[j].1 * quantity
      ensures !ok ==> accounts == old(accounts)
      ensures id in accounts
      ensures ok ==> accounts == old(accounts)[id := old(accounts[id]).(inventory := accounts[id].inventory)]
      ensures ok ==> forall i :: Qty(accounts[id].inventory, i) ==
                       Qty(old(accounts[id]).inventory, i) - Need(Recipe(item).value, i, quantity) + (if i == item then quantity else 0)
    {
      var a := accounts[id];
      var b;
      ok, b := Accounts.Craft(a, item, quantity);
      if ok {
        CraftKeepsStock(a, item, quantity, b);
        Put(b);
      }
    }

    /** handleSmelt on the account `id`, with a finished job delivered first;
        the Super Smelter event halves the time. */
    method Smelt(id: AccountId, input: Item, quantity: int, now: int) returns (ok: bool)
      requires Valid() && id in accounts
      modifies this
      ensures Valid() && OnlyAccounts()
      ensures ok <==> !SmeltRefused(old(accounts[id]), input, quantity, now)
      ensures accounts == old(accounts)[id := StartSmelt(old(accounts[id]), input, quantity, now, old(EventKindNow()) == Some(SuperSmelter)).account]
    {
      var s := StartSmelt(accounts[id], input, quantity, now, EventKindNow() == Some(SuperSmelter));
      StartSmeltKeepsStock(accounts[id], input, quantity, now, EventKindNow() == Some(SuperSmelter));
      ok := s.ok;
      Put(s.account);
    }

    /** handleEat on the account `id`, with the food's buff checked before
        anything is eaten. */
    method Eat(id: AccountId, food: Item, now: int) returns (ok: bool)
      requires Valid() && id in accounts
      modifies this
      ensures Valid() && OnlyAccounts()
      ensures ok <==> KindOf(food) == Food && FoodBuffOf(food).Some? && Qty(old(accounts[id]).inventory, food) >= 1
      ensures accounts == old(accounts)[id := Accounts.Eat(old(accounts[id]), food, now).account]
    {
      var s := Accounts.Eat(accounts[id], food, now);
      ok := s.ok;
      Put(s.account);
    }

    /** The grid place command on the account `id`. */
    method PlaceBuilding(id: AccountId, slot: int, building: Item) returns (ok: bool)
      requires Valid() && id in accounts
      modifies this
      ensures Valid() && OnlyAccounts()
      ensures ok <==> 1 <= slot <= GridSlotCount && IsBuilding(building) && Qty(old(accounts[id]).inventory, building) >= 1
      ensures accounts == old(accounts)[id := Accounts.PlaceBuilding(old(accounts[id]), slot, building).account]
    {
      var a := accounts[id];
      var s := Accounts.PlaceBuilding(a, slot, building);
      ok := s.ok;
      if ok {
        forall i | i in s.account.inventory
          ensures s.account.inventory[i] >= 0
        {
          assert Qty(s.account.inventory, i) == s.account.inventory[i];
        }
      }
      Put(s.account);
    }

    /** The grid remove command on the account `id`. */
    method RemoveBuilding(id: AccountId, slot: int) returns (ok: bool)
      requires Valid() && id in accounts
      modifies this
      ensures Valid() && OnlyAccounts()
      ensures ok <==> 1 <= slot <= GridSlotCount && old(accounts[id]).powerGrid.slots[slot - 1].Some?
      ensures accounts == old(accounts)[id := Accounts.RemoveBuilding(old(accounts[id]), slot).account]
    {
      var a := accounts[id];
      var s := Accounts.RemoveBuilding(a, slot);
      ok := s.ok;
      if ok {
        forall i | i in s.account.inventory
          ensures s.account.inventory[i] >= 0
        {
          assert Qty(s.account.inventory, i) == s.account.inventory[i];
        }
      }
      Put(s.account);
    }

    /** handleHourly on the account `id`. */
    method Hourly(id: AccountId, now: int) returns (ok: bool)
      requires Valid() && id in accounts
      modifies this
      ensures Valid() && OnlyAccounts()
      ensures var c := ClaimReward(Streaks.Hourly, old(accounts[id].lastHourly), old(accounts[id].hourlyStreak), now);
              && (ok <==> c.Granted?)
              && (!ok ==> accounts == old(accounts))
              && (ok ==> accounts == old(accounts)[id := old(accounts[id]).(balance := old(accounts[id].balance) + c.reward,
                                                                         lastHourly := now, hourlyStreak := c.streak)])
    {
      var a := accounts[id];
      var c := ClaimReward(Streaks.Hourly, a.lastHourly, a.hourlyStreak, now);
      if c.Refused? {
        return false;
      }
      Put(a.(balance := a.balance + c.reward, lastHourly := now, hourlyStreak := c.streak));
      ok := true;
    }

    /** handleDaily on the account `id`. */
    method Daily(id: AccountId, now: int) returns (ok: bool)
      requires Valid() && id in accounts
      modifies this
      ensures Valid() && OnlyAccounts()
      ensures var c := ClaimReward(Streaks.Daily, old(accounts[id].lastDaily), old(accounts[id].dailyStreak), now);
              && (ok <==> c.Granted?)
              && (!ok ==> accounts == old(accounts))
              && (ok ==> accounts == old(accounts)[id := old(accounts[id]).(balance := old(accounts[id].balance) + c.reward,
                                                                         lastDaily := now, dailyStreak := c.streak)])
    {
      var a := accounts[id];
      var c := ClaimReward(Streaks.Daily, a.lastDaily, a.dailyStreak, now);
      if c.Refused? {
        return false;
      }
      Put(a.(balance := a.balance + c.reward, lastDaily := now, dailyStreak := c.streak));
      ok := true;
    }

    // ------------------------------------------------------ timed actions

    /** handleWork on the account `id`; a work that goes through scores a
        war point for the account's clan while a war runs. */
    method Work(id: AccountId, now: int, d: WorkDraws) returns (ok: bool)
      requires Valid() && id in accounts && WorkDrawsValid(d)
      modifies this
      ensures Valid() && OnlyAccountsAndClans()
      ensures var s := Actions.Work(old(accounts[id]), old(ClanLevelOf(accounts[id])), old(EventKindNow()), d, now);
              ok == s.ok && accounts == old(accounts)[id := s.account]
      ensures clans == if ok then WarPoint(old(clans), old(accounts[id].clanId), warEnd, now) else old(clans)
    {
      var a := accounts[id];
      var s := Actions.Work(a, ClanLevelOf(a), EventKindNow(), d, now);
      ok := s.ok;
      if ok {
        Put(s.account);
        ScoreWarPoint(a.clanId, now);
      }
    }

    /** handleGather on the account `id`: the expired buffs are written
        back even when the gather is refused; a gather that goes through
        scores a war point for the account's clan while a war runs. */
    method Gather(id: AccountId, now: int, d: GatherDraws) returns (ok: bool)
      requires Valid() && id in accounts && GatherDrawsFit(d, Qty(accounts[id].inventory, GatheringBasket))
      modifies this
      ensures Valid() && OnlyAccountsAndClans()
      ensures var s := Actions.Gather(old(accounts[id]), old(ClanLevelOf(accounts[id])), old(EventKindNow()), d, now);
              ok == s.ok && accounts == old(accounts)[id := s.account]
      ensures clans == if ok then WarPoint(old(clans), old(accounts[id].clanId), warEnd, now) else old(clans)
    {
      var a := accounts[id];
      var s := Actions.Gather(a, ClanLevelOf(a), EventKindNow(), d, now);
      GatherKeepsAccount(a, ClanLevelOf(a), EventKindNow(), d, now);
      ok := s.ok;
      Put(s.account);
      if ok {
        ScoreWarPoint(a.clanId, now);
      }
    }

    /** The war point of a work or gather. */
    method ScoreWarPoint(clanId: Option<ClanCode>, now: int)
      requires Valid()
      modifies this
      ensures Valid() && OnlyAccountsAndClans() && accounts == old(accounts)
      ensures clans == WarPoint(old(clans), clanId, warEnd, now)
    {
      var r := WarPoint(clans, clanId, warEnd, now);
      RosterKeepsMembers(accounts, clans, r);
      clans := r;
    }

    // -------------------------------------------------------------- clans

    /** The clan the account `id` names, when it still exists. */
    function ClanOf(id: AccountId): (c: Option<ClanCode>)
      reads this
      requires id in accounts
      ensures c.Some? <==> accounts[id].clanId.Some? && accounts[id].clanId.value in clans
      ensures c.Some? ==> c == accounts[id].clanId
    {
      var a := accounts[id];
      if a.clanId.Some? && a.clanId.value in clans then a.clanId else None
    }

    /** The account `id` owns a clan that still exists. */
    predicate OwnsClan(id: AccountId)
      reads this
      requires id in accounts
    {
      ClanOf(id).Some? && clans[ClanOf(id).value].ownerId == id
    }

    /** Writes one clan back with its roster unchanged. */
    method PutClan(code: ClanCode, c: Clan)
      requires Valid() && code in clans && ClanSound(code, c) && c.members == clans[code].members
      modifies this
      ensures Valid() && OnlyAccountsAndClans() && accounts == old(accounts)
      ensures clans == old(clans)[code := c]
    {
      RosterKeepsMembers(accounts, clans, clans[code := c]);
      clans := clans[code := c];
    }

    /** handleClanCreate: refused to an account that names a clan, for a
        name of the wrong length and for a name another clan has, compared
        without case; otherwise the new clan is filed under `code`, drawn by
        the caller until it is free, and its founder joins it. */
    method ClanCreate(id: AccountId, name: string, code: ClanCode) returns (ok: bool)
      requires Valid() && id in accounts
      requires code !in clans && forall m :: m in accounts ==> accounts[m].clanId != Some(code)
      modifies this
      ensures Valid() && OnlyAccountsAndClans()
      ensures ok <==> old(accounts[id].clanId).None? && NameLengthOk(name) && !NameTaken(old(clans), name)
      ensures !ok ==> accounts == old(accounts) && clans == old(clans)
      ensures ok ==> clans == old(clans)[code := NewClan(name, code, id)]
      ensures ok ==> accounts == old(accounts)[id := old(accounts[id]).(clanId := Some(code))]
    {
      var a := accounts[id];
      if a.clanId.Some? || !NameLengthOk(name) || NameTaken(clans, name) {
        return false;
      }
      var c := NewClan(name, code, id);
      Founded(accounts, clans, id, code, c);
      clans := clans[code := c];
      accounts := accounts[id := a.(clanId := Some(code))];
      ok := true;
    }

    /** handleClanLeave: a member other than the owner is pulled from the
        roster, leaves the clan and may not join another for an hour. An
        account whose clan no longer exists is cleared of it and told so. */
    method ClanLeave(id: AccountId, now: int) returns (ok: bool)
      requires Valid() && id in accounts
      modifies this
      ensures Valid() && OnlyAccountsAndClans()
      ensures ok <==> old(ClanOf(id)).Some? && !old(OwnsClan(id))
      ensures old(ClanOf(id)).None? ==>
                clans == old(clans) && accounts == old(accounts)[id := old(accounts[id]).(clanId := None)]
      ensures old(OwnsClan(id)) ==> clans == old(clans) && accounts == old(accounts)
      ensures ok ==> var code := old(accounts[id].clanId.value);
                     && clans == old(clans)[code := old(clans[code]).(members := Pull(old(clans[code].members), id))]
                     && accounts == old(accounts)[id := old(accounts[id]).(clanId := None, clanJoinCooldown := now + ClanJoinCooldownMs)]
    {
      var a := accounts[id];
      if ClanOf(id).None? {
        ClearClan(id, a.(clanId := None));
        return false;
      }
      var code := a.clanId.value;
      var c := clans[code];
      if c.ownerId == id {
        return false;
      }
      var b := a.(clanId := None, clanJoinCooldown := now + ClanJoinCooldownMs);
      Dismiss(accounts, clans, id, code, b);
      clans := clans[code := c.(members := Pull(c.members, id))];
      accounts := accounts[id := b];
      ok := true;
    }

    /** Clears the clan of an account whose clan does not exist. */
    method ClearClan(id: AccountId, b: Account)
      requires Valid() && id in accounts && WellFormed(b) && b.id == id && b.clanId.None?
      requires accounts[id].clanId.None? || accounts[id].clanId.value !in clans
      modifies this
      ensures Valid() && OnlyAccounts()
      ensures accounts == old(accounts)[id := b]
    {
      forall c, m | c in clans && m in clans[c].members && m in accounts[id := b]
        ensures accounts[id := b][m].clanId == Some(c)
      {
        if m == id {
          assert accounts[id].clanId == Some(c);
        }
      }
      accounts := accounts[id := b];
    }

    /** handleClanKick: the owner pulls another member of the clan from the
        roster; the kicked account leaves the clan and may not join another
        for an hour. */
    method ClanKick(id: AccountId, target: AccountId, now: int) returns (ok: bool)
      requires Valid() && id in accounts
      modifies this
      ensures Valid() && OnlyAccountsAndClans()
      ensures ok <==> old(OwnsClan(id)) && target in old(accounts) && target != id &&
                      old(accounts[target].clanId) == old(accounts[id].clanId)
      ensures !ok ==> accounts == old(accounts) && clans == old(clans)
      ensures ok ==> var code := old(accounts[id].clanId.value);
                     && clans == old(clans)[code := old(clans[code]).(members := Pull(old(clans[code].members), target))]
                     && accounts == old(accounts)[target := old(accounts[target]).(clanId := None, clanJoinCooldown := now + ClanJoinCooldownMs)]
    {
      if !OwnsClan(id) {
        return false;
      }
      var code := accounts[id].clanId.value;
      var c := clans[code];
      if target !in accounts || accounts[target].clanId != Some(code) || target == id {
        return false;
      }
      var b := accounts[target].(clanId := None, clanJoinCooldown := now + ClanJoinCooldownMs);
      Dismiss(accounts, clans, target, code, b);
      clans := clans[code := c.(members := Pull(c.members, target))];
      accounts := accounts[target := b];
      ok := true;
    }

    /** handleClanDisband: the owner deletes the clan and every account that
        names it leaves it. */
    method ClanDisband(id: AccountId) returns (ok: bool)
      requires Valid() && id in accounts
      modifies this
      ensures Valid() && OnlyAccountsAndClans()
      ensures ok <==> old(OwnsClan(id))
      ensures !ok ==> accounts == old(accounts) && clans == old(clans)
      ensures ok ==> var code := old(accounts[id].clanId.value);
                     clans == old(clans) - {code} && accounts == Disbanded(old(accounts), code)
    {
      if !OwnsClan(id) {
        return false;
      }
      var code := accounts[id].clanId.value;
      DisbandAgrees(accounts, clans, code);
      accounts := Disbanded(accounts, code);
      clans := clans - {code};
      ok := true;
    }

    /** handleClanRecruit: the owner sets recruitment to 1 (open) or 2 (by application). */
    method ClanRecruit(id: AccountId, status: int) returns (ok: bool)
      requires Valid() && id in accounts
      modifies this
      ensures Valid() && OnlyAccountsAndClans() && accounts == old(accounts)
      ensures ok <==> old(OwnsClan(id)) && (status == OpenRecruitment || status == ClosedRecruitment)
      ensures !ok ==> clans == old(clans)
      ensures ok ==> var code := old(accounts[id].clanId.value);
                     clans == old(clans)[code := old(clans[code]).(recruitment := status)]
    {
      if !OwnsClan(id) || (status != OpenRecruitment && status != ClosedRecruitment) {
        return false;
      }
      var code := accounts[id].clanId.value;
      PutClan(code, clans[code].(recruitment := status));
      ok := true;
    }

    /** handleClanDonate: a member with the Bits moves a positive amount
        from the balance into the vault; there is no isFinite test, so a
        balance of +Infinity donates any amount. Only the membership field is
        checked: when the clan no longer exists the Bits leave the balance
        and reach no vault. */
    method ClanDonate(id: AccountId, amount: int) returns (ok: bool)
      requires Valid() && id in accounts
      modifies this
      ensures Valid() && OnlyAccountsAndClans()
      ensures ok <==> old(accounts[id].clanId).Some? && amount > 0 && Covers(old(accounts[id]), amount)
      ensures !ok ==> accounts == old(accounts) && clans == old(clans)
      ensures ok ==> accounts == old(accounts)[id := old(accounts[id]).(balance := old(accounts[id].balance) - amount)]
      ensures ok && old(ClanOf(id)).Some? ==> var code := old(accounts[id].clanId.value);
                clans == old(clans)[code := old(clans[code]).(vault := old(clans[code].vault) + amount)]
      ensures ok && old(ClanOf(id)).None? ==> clans == old(clans)
    {
      var a := accounts[id];
      if a.clanId.None? || amount <= 0 || !Covers(a, amount) {
        return false;
      }
      var target := ClanOf(id);
      Credit(id, -amount);
      if target.Some? {
        var c := clans[target.value];
        PutClan(target.value, c.(vault := c.vault + amount));
      }
      ok := true;
    }

    /** handleClanUpgrade: the owner buys the next level from the vault. */
    method ClanUpgrade(id: AccountId) returns (ok: bool)
      requires Valid() && id in accounts
      modifies this
      ensures Valid() && OnlyAccountsAndClans() && accounts == old(accounts)
      ensures ok <==> old(OwnsClan(id)) && Upgrade(old(clans[accounts[id].clanId.value])).Some?
      ensures !ok ==> clans == old(clans)
      ensures ok ==> var code := old(accounts[id].clanId.value);
                     clans == old(clans)[code := Upgrade(old(clans[code])).value]
    {
      if !OwnsClan(id) {
        return false;
      }
      var code := accounts[id].clanId.value;
      var up := Upgrade(clans[code]);
      if up.None? {
        return false;
      }
      UpgradeKeepsSound(code, clans[code]);
      PutClan(code, up.value);
      ok := true;
    }

    /** handleClanJoin: an account outside any clan whose join cooldown has
        run out joins an open clan with room at once, and applies to one
        that takes applications, once. */
    method ClanJoin(id: AccountId, code: ClanCode, now: int) returns (ok: bool)
      requires Valid() && id in accounts
      modifies this
      ensures Valid() && OnlyAccountsAndClans()
      ensures ok <==> && old(accounts[id].clanId).None?
                      && !(old(accounts[id].clanJoinCooldown) != 0 && now < old(accounts[id].clanJoinCooldown))
                      && code in old(clans) && !Full(old(clans[code]))
                      && (old(clans[code].recruitment) == OpenRecruitment || id !in old(clans[code].applicants))
      ensures !ok ==> accounts == old(accounts) && clans == old(clans)
      ensures ok && old(clans[code].recruitment) == OpenRecruitment ==>
                && clans == old(clans)[code := old(clans[code]).(members := old(clans[code].members) + [id])]
                && accounts == old(accounts)[id := old(accounts[id]).(clanId := Some(code))]
      ensures ok && old(clans[code].recruitment) != OpenRecruitment ==>
                && clans == old(clans)[code := old(clans[code]).(applicants := old(clans[code].applicants) + [id])]
                && accounts == old(accounts)
    {
      var a := accounts[id];
      if a.clanId.Some? || (a.clanJoinCooldown != 0 && now < a.clanJoinCooldown) || code !in clans || Full(clans[code]) {
        return false;
      }
      var c := clans[code];
      if c.recruitment == OpenRecruitment {
        Enrol(accounts, clans, clans, id, code);
        clans := clans[code := c.(members := c.members + [id])];
        accounts := accounts[id := a.(clanId := Some(code))];
        return true;
      }
      if id in c.applicants {
        return false;
      }
      PutClan(code, c.(applicants := c.applicants + [id]));
      ok := true;
    }

    /** handleClanInvite with a target: the owner of a clan with room invites
        an account outside any clan, once. */
    method ClanInvite(id: AccountId, target: AccountId) returns (ok: bool)
      requires Valid() && id in accounts && target in accounts
      modifies this
      ensures Valid() && OnlyAccountsAndClans() && accounts == old(accounts)
      ensures ok <==> old(OwnsClan(id)) && !Full(old(clans[accounts[id].clanId.value])) &&
                      old(accounts[target].clanId).None? && target !in old(clans[accounts[id].clanId.value].pendingInvites)
      ensures !ok ==> clans == old(clans)
      ensures ok ==> var code := old(accounts[id].clanId.value);
                     clans == old(clans)[code := old(clans[code]).(pendingInvites := old(clans[code].pendingInvites) + [target])]
    {
      if !OwnsClan(id) {
        return false;
      }
      var code := accounts[id].clanId.value;
      var c := clans[code];
      if Full(c) || accounts[target].clanId.Some? || target in c.pendingInvites {
        return false;
      }
      PutClan(code, c.(pendingInvites := c.pendingInvites + [target]));
      ok := true;
    }

    /** handleClanAccept with a clan code, which is what a five-character
        identifier is read as: an invited account outside any clan joins
        the clan if it has room, and its invitations and applications
        everywhere are withdrawn. */
    method ClanAcceptInvite(id: AccountId, code: ClanCode) returns (ok: bool)
      requires Valid() && id in accounts && |code| == ClanCodeLength
      modifies this
      ensures Valid() && OnlyAccountsAndClans()
      ensures ok <==> old(accounts[id].clanId).None? && code in old(clans) &&
                      id in old(clans[code].pendingInvites) && !Full(old(clans[code]))
      ensures !ok ==> accounts == old(accounts) && clans == old(clans)
      ensures ok ==> && clans == PullEverywhere(old(clans), id)[code := PullEverywhere(old(clans), id)[code].(members := old(clans[code].members) + [id])]
                     && accounts == old(accounts)[id := old(accounts[id]).(clanId := Some(code))]
    {
      var a := accounts[id];
      if a.clanId.Some? || code !in clans || id !in clans[code].pendingInvites || Full(clans[code]) {
        return false;
      }
      Admit(id, code);
      ok := true;
    }

    /** handleClanAccept with a player name, as intended: the owner of a
        clan with room accepts an applicant who is not in a clan meanwhile;
        the applicant's invitations and applications everywhere are
        withdrawn. A five-character name is read as a clan code instead,
        which an owner is refused. Where the applicant is outside every
        clan this is the accept as written; otherwise it refuses. */
    method ClanAcceptApplicant(id: AccountId, target: AccountId) returns (ok: bool)
      requires Valid() && id in accounts
      modifies this
      ensures Valid() && OnlyAccountsAndClans()
      ensures |target| == ClanCodeLength ==> !ok && accounts == old(accounts) && clans == old(clans)
      ensures target in old(accounts) && old(accounts[target].clanId).Some? ==>
                !ok && accounts == old(accounts) && clans == old(clans)
      ensures target !in old(accounts) || old(accounts[target].clanId).None? ==>
                var r := AcceptApplicantAsWritten(old(accounts), old(clans), id, target);
                ok == r.0 && accounts == r.1 && clans == r.2
    {
      if |target| == ClanCodeLength || !OwnsClan(id) {
        return false;
      }
      var code := accounts[id].clanId.value;
      if target !in accounts || target !in clans[code].applicants || Full(clans[code]) {
        return false;
      }
      if accounts[target].clanId.Some? {
        return false;
      }
      Admit(target, code);
      ok := true;
    }

    /** An account outside any clan joins the clan `code`, which has room,
        and is pulled from every invitation and application list. */
    method Admit(id: AccountId, code: ClanCode)
      requires Valid() && id in accounts && accounts[id].clanId.None? && code in clans && !Full(clans[code])
      modifies this
      ensures Valid() && OnlyAccountsAndClans()
      ensures clans == PullEverywhere(old(clans), id)[code := PullEverywhere(old(clans), id)[code].(members := old(clans[code].members) + [id])]
      ensures accounts == old(accounts)[id := old(accounts[id]).(clanId := Some(code))]
    {
      var pulled := PullEverywhere(clans, id);
      Enrol(accounts, clans, pulled, id, code);
      JoinedClansValid(clans, pulled, id, code);
      JoinedAccountsValid(accounts, id, code);
      clans := pulled[code := pulled[code].(members := clans[code].members + [id])];
      accounts := accounts[id := accounts[id].(clanId := Some(code))];
    }

    /** handleClanDecline: an account outside any clan withdraws its
        invitation to, or application for, the clan; refused when it has
        neither. */
    method ClanDecline(id: AccountId, code: ClanCode) returns (ok: bool)
      requires Valid() && id in accounts
      modifies this
      ensures Valid() && OnlyAccountsAndClans() && accounts == old(accounts)
      ensures ok <==> old(accounts[id].clanId).None? && code in old(clans) &&
                      (id in old(clans[code].pendingInvites) || id in old(clans[code].applicants))
      ensures !ok ==> clans == old(clans)
      ensures ok ==> clans == old(clans)[code := old(clans[code]).(pendingInvites := Pull(old(clans[code].pendingInvites), id),
                                                                  applicants := Pull(old(clans[code].applicants), id))]
    {
      if accounts[id].clanId.Some? || code !in clans {
        return false;
      }
      var c := clans[code];
      ok := id in c.pendingInvites || id in c.applicants;
      if ok {
        PutClan(code, c.(pendingInvites := Pull(c.pendingInvites, id), applicants := Pull(c.applicants, id)));
      }
    }

    // -------------------------------------------------------------- merge

    /** handleAccountMerge: links the Discord id `discordId` to the Drednot
        name `drednotName`. Without a Drednot account a new one is created
        under the name (with the two traits rolled for it) and linked;
        without a Discord account the Drednot account is linked; otherwise
        the Drednot account absorbs the Discord account, which is deleted,
        unless a balance is corrupt or both accounts are smelting. */
    method Merge(discordId: AccountId, drednotName: string, t1: Trait, t2: Trait, now: int) returns (ok: bool)
      requires Valid() && TraitsValid([t1, t2])
      requires Lower(drednotName) !in accounts ==> forall c :: c in clans ==> Lower(drednotName) !in clans[c].members
      modifies this
      ensures Valid() && OnlyAccounts()
      ensures Lower(drednotName) !in old(accounts) ==>
                ok && accounts == old(accounts)[Lower(drednotName) := NewAccount(drednotName, false, t1, t2, now).(discordId := Some(discordId))]
      ensures Lower(drednotName) in old(accounts) && discordId !in old(accounts) ==>
                ok && accounts == old(accounts)[Lower(drednotName) := old(accounts[Lower(drednotName)]).(discordId := Some(discordId))]
      ensures Lower(drednotName) in old(accounts) && discordId in old(accounts) ==>
                (ok <==> MergeCheck(old(accounts[Lower(drednotName)]), old(accounts[discordId])).None?)
      ensures !ok ==> accounts == old(accounts)
      ensures ok && Lower(drednotName) in old(accounts) && discordId in old(accounts) ==>
                && accounts.Keys == old(accounts).Keys - {discordId}
                && (forall x :: x in accounts && x != Lower(drednotName) ==> accounts[x] == old(accounts[x]))
                && (Lower(drednotName) != discordId ==>
                      && accounts[Lower(drednotName)] == MergedAccount(old(accounts[Lower(drednotName)]), old(accounts[discordId]),
                                                                       accounts[Lower(drednotName)].inventory, discordId, drednotName)
                      && forall i :: Qty(accounts[Lower(drednotName)].inventory, i) ==
                                     Qty(old(accounts[Lower(drednotName)].inventory), i) + Qty(old(accounts[discordId].inventory), i))
    {
      var key := Lower(drednotName);
      if key !in accounts {
        Create(NewAccount(drednotName, false, t1, t2, now).(discordId := Some(discordId)));
        return true;
      }
      if discordId !in accounts {
        Put(accounts[key].(discordId := Some(discordId)));
        return true;
      }
      var drednot, discord := accounts[key], accounts[discordId];
      if MergeCheck(drednot, discord).Some? {
        return false;
      }
      var inventory := MergeInventories(drednot.inventory, discord.inventory);
      MergedWellFormed(drednot, discord, inventory, discordId, drednotName);
      Absorb(discordId, MergedAccount(drednot, discord, inventory, discordId, drednotName));
      ok := true;
    }

    /** Files a new account, outside any clan and on no roster. */
    method Create(a: Account)
      requires Valid() && a.id !in accounts && WellFormed(a) && a.clanId.None?
      requires forall c :: c in clans ==> a.id !in clans[c].members
      modifies this
      ensures Valid() && OnlyAccounts()
      ensures accounts == old(accounts)[a.id := a]
    {
      accounts := accounts[a.id := a];
    }

    /** Writes the merged account back and deletes the absorbed one. */
    method Absorb(absorbed: AccountId, m: Account)
      requires Valid() && m.id in accounts && absorbed in accounts && WellFormed(m)
      requires m.clanId == accounts[m.id].clanId
      modifies this
      ensures Valid() && OnlyAccounts()
      ensures accounts == old(accounts)[m.id := m] - {absorbed}
    {
      Put(m);
      accounts := accounts - {absorbed};
    }

    // ------------------------------------------------------------- market

    /** handleMarketSell: the price must lie in the allowed range, the
        quantity and price must be positive and the seller must hold the
        items; the items leave the inventory and a listing under the
        smallest free id is appended. */
    method MarketSell(id: AccountId, item: Item, quantity: int, price: real) returns (ok: bool, listingId: int)
      requires Valid() && id in accounts
      modifies this
      ensures Valid() && OnlyAccountsAndMarket()
      ensures ok <==> PriceAllowed(price) && quantity > 0 && Qty(old(accounts[id]).inventory, item) >= quantity
      ensures !ok ==> accounts == old(accounts) && market == old(market)
      ensures ok ==> market == old(market) + [Listing(listingId, id, item, quantity, price)]
      ensures ok ==> listingId >= 1 && listingId !in Ids(old(market)) && forall v :: 1 <= v < listingId ==> v in Ids(old(market))
      ensures ok ==> accounts == old(accounts)[id := old(accounts[id]).(inventory := Add(old(accounts[id]).inventory, item, -quantity))]
    {
      listingId := 0;
      if !PriceAllowed(price) {
        return false, listingId;
      }
      if quantity <= 0 || price <= 0.0 {
        return false, listingId;
      }
      var a := accounts[id];
      if Qty(a.inventory, item) < quantity {
        return false, listingId;
      }
      AddKeepsWellFormed(a, item, -quantity);
      Put(a.(inventory := Add(a.inventory, item, -quantity)));
      listingId := NextListingId(Ids(market));
      var l := Listing(listingId, id, item, quantity, price);
      AppendListing(market, l);
      market := market + [l];
      ok := true;
    }

    /** The outcome of buying the k-th listing: a refused purchase puts the
        listing back at the end of the collection and changes no account; a
        purchase takes it off the market and settles the sale. */
    twostate predicate Purchased(id: AccountId, k: nat, ok: bool)
      reads this
    {
      && k < |old(market)| && id in old(accounts)
      && var l := old(market)[k];
         var a := old(accounts)[id];
         && (ok <==> l.sellerId != id && a.kind == Finite && a.balance >= ListingCost(l))
         && (!ok ==> accounts == old(accounts) && market == RemoveAt(old(market), k) + [l])
         && (ok ==> market == RemoveAt(old(market), k) && accounts == Settle(old(accounts), id, l, old(EventKindNow())))
    }

    /** handleMarketBuy: the listing is taken off the market; a purchase of
        one's own listing, by a corrupted balance or without the Bits puts it
        back. Otherwise the buyer pays and the seller is paid (Settle). */
    method MarketBuy(id: AccountId, listingId: int) returns (ok: bool)
      requires Valid() && id in accounts
      modifies this
      ensures Valid() && OnlyAccountsAndMarket()
      ensures FindListing(old(market), listingId).None? ==> !ok && accounts == old(accounts) && market == old(market)
      ensures FindListing(old(market), listingId).Some? ==> Purchased(id, FindListing(old(market), listingId).value, ok)
    {
      var k := FindListing(market, listingId);
      if k.None? {
        return false;
      }
      ok := BuyAt(id, k.value);
    }

    /** The purchase of the k-th listing. */
    method BuyAt(id: AccountId, k: nat) returns (ok: bool)
      requires Valid() && id in accounts && k < |market|
      modifies this
      ensures Valid() && OnlyAccountsAndMarket()
      ensures Purchased(id, k, ok)
    {
      var l := market[k];
      TakeListing(market, k);
      var a := accounts[id];
      if l.sellerId == id || a.kind != Finite || a.balance < ListingCost(l) {
        PutBackListing(market, k);
        market := RemoveAt(market, k) + [l];
        return false;
      }
      market := RemoveAt(market, k);
      SettleSale(id, l);
      ok := true;
    }

    /** The buyer pays for listing `l` and receives its items; the seller, if
        it is an account, is paid the proceeds. */
    method SettleSale(id: AccountId, l: Listing)
      requires Valid() && id in accounts && l.sellerId != id && l.quantity > 0
      modifies this
      ensures Valid() && OnlyAccounts()
      ensures accounts == Settle(old(accounts), id, l, EventKindNow())
    {
      var event := EventKindNow();
      SettleKeepsValid(accounts, clans, id, l, event);
      accounts := Settle(accounts, id, l, event);
    }

    /** handleMarketCancel: the seller's own listing is taken off the market
        and its items return to the seller. */
    method MarketCancel(id: AccountId, listingId: int) returns (ok: bool)
      requires Valid() && id in accounts
      modifies this
      ensures Valid() && OnlyAccountsAndMarket()
      ensures ok <==> FindOwnListing(old(market), listingId, id).Some?
      ensures !ok ==> accounts == old(accounts) && market == old(market)
      ensures ok ==> var k := FindOwnListing(old(market), listingId, id).value;
                     var l := old(market)[k];
                     && market == RemoveAt(old(market), k)
                     && accounts == old(accounts)[id := old(accounts[id]).(inventory := Add(old(accounts[id]).inventory, l.item, l.quantity))]
    {
      var k := FindOwnListing(market, listingId, id);
      if k.None? {
        return false;
      }
      var l := market[k.value];
      TakeListing(market, k.value);
      market := RemoveAt(market, k.value);
      var a := accounts[id];
      AddKeepsWellFormed(a, l.item, l.quantity);
      Put(a.(inventory := Add(a.inventory, l.item, l.quantity)));
      ok := true;
    }

    // --------------------------------------------------------- crate shop

    /** handleCrateShopBuy: `amount` crates of one kind are taken from the
        first listing that has that many; the buyer pays the price of each
        (the stock is restored when the balance does not cover it), opens
        them one at a time with a pair of secure draws each, and receives
        the Bits and items. A listing left empty is deleted. */
    method CrateBuy(id: AccountId, box: Lootbox, amount: int, draws: seq<(U32, U32)>) returns (ok: bool)
      requires Valid() && id in accounts
      requires amount > 0 ==> |draws| == amount
      modifies this
      ensures Valid() && OnlyAccountsAndCrates()
      ensures amount <= 0 || FindCrate(old(crates), box, amount).None? ==> !ok && accounts == old(accounts) && crates == old(crates)
      ensures id in accounts
      ensures amount > 0 && FindCrate(old(crates), box, amount).Some? ==> CratesBought(old(accounts), old(crates), accounts, crates, id, FindCrate(old(crates), box, amount).value, amount, draws, ok)
    {
      if amount <= 0 {
        return false;
      }
      var k := FindCrate(crates, box, amount);
      if k.None? {
        return false;
      }
      ok := BuyFrom(id, k.value, amount, draws);
    }

    /** handleCrateShopBuy once a listing with enough stock is found. */
    method BuyFrom(id: AccountId, k: nat, amount: int, draws: seq<(U32, U32)>) returns (ok: bool)
      requires Valid() && id in accounts && k < |crates| && 0 < amount <= crates[k].quantity
      modifies this
      ensures Valid() && OnlyAccountsAndCrates()
      ensures CratesBought(old(accounts), old(crates), accounts, crates, id, k, amount, draws, ok)
    {
      ok := Covers(accounts[id], crates[k].price * amount);
      ghost var accounts0, crates0 := accounts, crates;
      if ok {
        Purchase(id, k, amount, draws);
      }
      Bought(accounts0, crates0, accounts, crates, id, k, amount, draws, ok);
    }

    /** A purchase the buyer can afford: the crates leave the listing and are opened. */
    method Purchase(id: AccountId, k: nat, amount: int, draws: seq<(U32, U32)>)
      requires Valid() && id in accounts && k < |crates| && 0 < amount <= crates[k].quantity
      modifies this
      ensures Valid() && OnlyAccountsAndCrates() && id in accounts
      ensures crates == if old(crates[k]).quantity == amount then RemoveAt(old(crates), k)
                        else old(crates)[k := old(crates[k]).(quantity := old(crates[k]).quantity - amount)]
      ensures accounts == old(accounts)[id := old(accounts[id]).(
                balance := old(accounts[id]).balance - old(crates[k]).price * amount + CrateBits(old(crates[k]).box, draws, |draws|),
                inventory := accounts[id].inventory)]
      ensures forall i :: Qty(accounts[id].inventory, i) == Qty(old(accounts[id]).inventory, i) + Qty(CrateItems(old(crates[k]).box, draws, |draws|), i)
    {
      var l := crates[k];
      TakeCrates(k, amount);
      OpenAndGrant(id, l.price * amount, l.box, draws);
    }

    /** `amount` crates leave the k-th listing, which is deleted once empty. */
    method TakeCrates(k: nat, amount: int)
      requires Valid() && k < |crates| && 0 < amount <= crates[k].quantity
      modifies this
      ensures Valid()
      ensures accounts == old(accounts) && market == old(market) && clans == old(clans) && warEnd == old(warEnd) && event == old(event)
      ensures crates == if old(crates[k]).quantity == amount then RemoveAt(old(crates), k)
                        else old(crates)[k := old(crates[k]).(quantity := old(crates[k]).quantity - amount)]
    {
      CrateTaken(crates, k, amount);
      if crates[k].quantity == amount {
        crates := RemoveAt(crates, k);
      } else {
        crates := crates[k := crates[k].(quantity := crates[k].quantity - amount)];
      }
    }

    /** The buyer pays `cost`, opens one crate per pair of draws and
        receives what they yield. */
    method OpenAndGrant(id: AccountId, cost: int, box: Lootbox, draws: seq<(U32, U32)>)
      requires Valid() && id in accounts
      modifies this
      ensures Valid() && OnlyAccounts() && id in accounts
      ensures accounts == old(accounts)[id := old(accounts[id]).(
                balance := old(accounts[id]).balance - cost + CrateBits(box, draws, |draws|),
                inventory := accounts[id].inventory)]
      ensures forall i :: Qty(accounts[id].inventory, i) == Qty(old(accounts[id]).inventory, i) + Qty(CrateItems(box, draws, |draws|), i)
    {
      var a := accounts[id];
      var bits, items := OpenCrates(box, draws);
      var inventory := MergeInventories(a.inventory, items);
      StockedByQty(a.inventory);
      StockedByQty(inventory);
      Put(a.(balance := a.balance - cost + bits, inventory := inventory));
    }

    // ------------------------------------------------------------- the ticks

    /** Rewrites every account with `f`, one document at a time, as the
        ticks' loops and bulk writes do; `f` keeps each account well formed,
        under its own key and in its own clan. */
    method UpdateEach(f: Account -> Account)
      requires Valid()
      requires forall a :: WellFormed(a) ==> WellFormed(f(a))
      requires forall a :: f(a).id == a.id && f(a).clanId == a.clanId
      modifies this
      ensures Valid() && OnlyAccounts()
      ensures accounts == map id | id in old(accounts) :: f(old(accounts[id]))
    {
      var r := RewriteAll(accounts, f);
      RosterKeepsClanFields(accounts, r, clans);
      accounts := r;
    }

    /** processZealotDecayTick: idle accounts lose their zeal stacks. */
    method ZealDecayTick(now: int)
      requires Valid()
      modifies this
      ensures Valid() && OnlyAccounts()
      ensures accounts == map id | id in old(accounts) :: ZealDecayed(old(accounts[id]), now)
    {
      UpdateEach(a => ZealDecayed(a, now));
    }

    /** processFinishedSmelting: every job that is due is collected. */
    method SmeltingTick(now: int)
      requires Valid()
      modifies this
      ensures Valid() && OnlyAccounts()
      ensures accounts == map id | id in old(accounts) :: SmeltCollected(old(accounts[id]), now)
    {
      UpdateEach(a => SmeltCollected(a, now));
    }

    /** processGridTick: every grid is stamped and the online ones pay out. */
    method GridTick(now: int)
      requires Valid()
      modifies this
      ensures Valid() && OnlyAccounts()
      ensures accounts == map id | id in old(accounts) :: GridTicked(old(accounts[id]), now)
    {
      UpdateEach(a => GridTicked(a, now));
    }

    /** processClanWarTick: once the war clock has run out the top three
        clans' members receive their prizes and every clan's points are
        reset; without a clock, or once it has run out, a new war of
        CLAN_WAR_DURATION_DAYS starts. The standings are returned. */
    method WarTick(now: int) returns (top: seq<ClanCode>)
      requires Valid()
      modifies this
      ensures Valid() && market == old(market) && crates == old(crates) && event == old(event)
      ensures old(warEnd).Some? && now <= old(warEnd).value ==>
                top == [] && accounts == old(accounts) && clans == old(clans) && warEnd == old(warEnd)
      ensures old(warEnd).None? ==>
                top == [] && accounts == old(accounts) && clans == old(clans) && warEnd == Some(now + ClanWarDurationMs)
      ensures old(warEnd).Some? && now > old(warEnd).value ==>
                && IsPodium(old(clans), top)
                && accounts == (map id | id in old(accounts) :: WarPrize(old(accounts[id]), top))
                && clans == WarReset(old(clans))
                && warEnd == Some(now + ClanWarDurationMs)
    {
      top := [];
      if warEnd.Some? && now <= warEnd.value {
        return;
      }
      if warEnd.Some? {
        top := Podium(clans);
        var standings := top;
        UpdateEach(a => WarPrize(a, standings));
        var reset := WarReset(clans);
        RosterKeepsMembers(accounts, clans, reset);
        clans := reset;
      }
      warEnd := Some(now + ClanWarDurationMs);
    }

    /** processGlobalEventTick. */
    method EventTick(now: int, startRoll: real, kindPick: real)
      requires Valid() && Unit(startRoll) && Unit(kindPick)
      modifies this
      ensures Valid()
      ensures accounts == old(accounts) && market == old(market) && crates == old(crates) && clans == old(clans) && warEnd == old(warEnd)
      ensures event == NextEvent(old(event), now, startRoll, kindPick)
    {
      if event.Some? && now > event.value.expiresAt {
        event := None;
      }
      if event.None? && startRoll < EventChance {
        var kind := AllEvents[Floor(kindPick * |AllEvents| as real)];
        event := Some(ActiveEvent(kind, now + EventDurationMs(kind)));
      }
    }

    /** processVendorTicks: the drawn vendor lists its offer, if any, under
        the smallest free listing id. */
    method VendorTick(pick: real, chanceRoll: real, stockPick: real, priceRoll: real) returns (listingId: Option<int>)
      requires Valid() && Unit(pick) && Unit(chanceRoll) && Unit(stockPick) && Unit(priceRoll)
      modifies this
      ensures Valid() && OnlyAccountsAndMarket() && accounts == old(accounts)
      ensures var o := VendorOffer(old(market), pick, chanceRoll, stockPick, priceRoll);
              && (o.None? ==> listingId.None? && market == old(market))
              && (o.Some? ==>
                    listingId.Some? &&
                    market == old(market) + [Listing(listingId.value, o.value.sellerId, o.value.item, o.value.quantity, o.value.price)])
      ensures listingId.Some? ==>
                listingId.value !in Ids(old(market)) && forall k :: 1 <= k < listingId.value ==> k in Ids(old(market))
      ensures forall s :: CountBy(old(market), s) <= VendorListingCap ==> CountBy(market, s) <= VendorListingCap
    {
      listingId := None;
      var o := VendorOffer(market, pick, chanceRoll, stockPick, priceRoll);
      if o.Some? {
        var id := NextListingId(Ids(market));
        var l := Listing(id, o.value.sellerId, o.value.item, o.value.quantity, o.value.price);
        AppendListing(market, l);
        forall s | CountBy(market, s) <= VendorListingCap
          ensures CountBy(market + [l], s) <= VendorListingCap
        {
          CountByAppend(market, l, s);
        }
        market := market + [l];
        listingId := Some(id);
      }
    }

    /** processLootboxVendorTick: the Collector's crate shop moves to
        NextCrates. */
    method LootboxTick(removeRoll: real, removePick: real, crateRoll: real, quantityRoll: real)
      requires Valid() && Unit(removeRoll) && Unit(removePick) && Unit(crateRoll) && Unit(quantityRoll)
      modifies this
      ensures Valid()
      ensures accounts == old(accounts) && market == old(market) && clans == old(clans) && warEnd == old(warEnd) && event == old(event)
      ensures crates == NextCrates(old(crates), removeRoll, removePick, crateRoll, quantityRoll)
    {
      crates := NextCrates(crates, removeRoll, removePick, crateRoll, quantityRoll);
    }

    /** processMarketPriceCorrection: every listing priced outside the
        allowed range is deleted and its items go back to its seller. */
    method PriceCorrection()
      requires Valid()
      modifies this
      ensures Valid() && OnlyAccountsAndMarket()
      ensures market == Allowed(old(market))
      ensures accounts == Refunded(old(accounts), Disallowed(old(market)))
    {
      var bad := Disallowed(market);
      KeptListingsValid(market);
      CancelledInStock(market);
      var refunded := RefundAll(accounts, bad);
      RefundsKeepValid(accounts, bad);
      RosterKeepsClanFields(accounts, refunded, clans);
      market := Allowed(market);
      accounts := refunded;
    }
  }

  /** The outcome of buying `amount` crates from the k-th listing: the
      purchase goes through exactly when the database's balance filter
      matches the total price (an account at +Infinity always passes); then the stock goes down (the listing is deleted once
      empty) and the buyer pays and receives what the crates yield. */
  ghost predicate CratesBought(accounts0: map<AccountId, Account>, crates0: seq<CrateListing>,
                               accounts1: map<AccountId, Account>, crates1: seq<CrateListing>,
                               id: AccountId, k: nat, amount: int, draws: seq<(U32, U32)>, ok: bool)
  {
    && k < |crates0| && id in accounts0 && id in accounts1
    && var l := crates0[k];
       var a := accounts0[id];
       && (ok <==> Covers(a, l.price * amount))
       && (!ok ==> accounts1 == accounts0 && crates1 == crates0)
       && (ok ==> crates1 == if l.quantity == amount then RemoveAt(crates0, k)
                            else crates0[k := l.(quantity := l.quantity - amount)])
       && (ok ==> accounts1 == accounts0[id := a.(balance := a.balance - l.price * amount + CrateBits(l.box, draws, |draws|),
                                                  inventory := accounts1[id].inventory)])
       && (ok ==> forall i :: Qty(accounts1[id].inventory, i) == Qty(a.inventory, i) + Qty(CrateItems(l.box, draws, |draws|), i))
  }

  /** Pushing a member on a clan with room, whatever happened to the
      invitation and application lists, keeps every clan sound. */
  lemma JoinedClansValid(clans: map<ClanCode, Clan>, pulled: map<ClanCode, Clan>, id: AccountId, code: ClanCode)
    requires ClansValid(clans) && code in clans && !Full(clans[code])
    requires pulled.Keys == clans.Keys
    requires forall c :: c in clans ==> pulled[c] == clans[c].(pendingInvites := pulled[c].pendingInvites, applicants := pulled[c].applicants)
    ensures ClansValid(pulled[code := pulled[code].(members := clans[code].members + [id])])
  {
    var r := pulled[code := pulled[code].(members := clans[code].members + [id])];
    forall c | c in r
      ensures ClanSound(c, r[c])
    {
      assert ClanSound(c, clans[c]);
    }
  }

  /** Pointing one account at a clan keeps the accounts valid. */
  lemma JoinedAccountsValid(accounts: map<AccountId, Account>, id: AccountId, code: ClanCode)
    requires AccountsValid(accounts) && id in accounts
    ensures AccountsValid(accounts[id := accounts[id].(clanId := Some(code))])
  {
  }

  /** The steps of a crate purchase give its outcome. */
  lemma Bought(accounts0: map<AccountId, Account>, crates0: seq<CrateListing>,
               accounts1: map<AccountId, Account>, crates1: seq<CrateListing>,
               id: AccountId, k: nat, amount: int, draws: seq<(U32, U32)>, ok: bool)
    requires k < |crates0| && id in accounts0 && id in accounts1
    requires ok == Covers(accounts0[id], crates0[k].price * amount)
    requires !ok ==> accounts1 == accounts0 && crates1 == crates0
    requires ok ==> crates1 == if crates0[k].quantity == amount then RemoveAt(crates0, k)
                               else crates0[k := crates0[k].(quantity := crates0[k].quantity - amount)]
    requires ok ==> accounts1 == accounts0[id := accounts0[id].(
                      balance := accounts0[id].balance - crates0[k].price * amount + CrateBits(crates0[k].box, draws, |draws|),
                      inventory := accounts1[id].inventory)]
    requires ok ==> forall i :: Qty(accounts1[id].inventory, i) == Qty(accounts0[id].inventory, i) + Qty(CrateItems(crates0[k].box, draws, |draws|), i)
    ensures CratesBought(accounts0, crates0, accounts1, crates1, id, k, amount, draws, ok)
  {
  }

  /** Rewriting one account without changing its clan keeps the rosters in agreement. */
  lemma RosterUpdate(accounts: map<AccountId, Account>, clans: map<ClanCode, Clan>, id: AccountId, a: Account)
    requires RosterAgrees(accounts, clans) && id in accounts && a.clanId == accounts[id].clanId
    ensures RosterAgrees(accounts[id := a], clans)
  {
    RosterKeepsClanFields(accounts, accounts[id := a], clans);
  }

  // ------------------------------------------------------ market validity

  /** A listing under a fresh positive id keeps the market valid. */
  lemma AppendListing(market: seq<Listing>, l: Listing)
    requires ListingsValid(market) && l.id >= 1 && l.id !in Ids(market) && l.quantity > 0
    ensures ListingsValid(market + [l])
  {
    AppendIds(market, l);
    var ids := Ids(market);
    assert l.id !in multiset(ids);
    forall x
      ensures multiset(ids + [l.id])[x] <= 1
    {
      assert multiset(ids + [l.id]) == multiset(ids) + multiset{l.id};
    }
  }

  /** Taking a listing out keeps the market valid. */
  lemma TakeListing(market: seq<Listing>, k: nat)
    requires ListingsValid(market) && k < |market|
    ensures ListingsValid(RemoveAt(market, k))
  {
    var r := RemoveAt(market, k);
    RemoveKeepsIds(market, k);
    SubMarket(market, r);
  }

  /** Taking a listing out and appending it again keeps the market valid. */
  lemma PutBackListing(market: seq<Listing>, k: nat)
    requires ListingsValid(market) && k < |market|
    ensures ListingsValid(RemoveAt(market, k) + [market[k]])
  {
    var r := RemoveAt(market, k) + [market[k]];
    RemoveKeepsIds(market, k);
    AppendIds(RemoveAt(market, k), market[k]);
    assert multiset(Ids(r)) == multiset(Ids(market));
    SubMarket(market, r);
  }

  /** A market made of listings of a valid market, with no id more often
      than there, is valid. */
  lemma SubMarket(market: seq<Listing>, r: seq<Listing>)
    requires ListingsValid(market)
    requires multiset(Ids(r)) <= multiset(Ids(market))
    requires forall j :: 0 <= j < |r| ==> r[j] in market
    ensures ListingsValid(r)
  {
    forall x
      ensures multiset(Ids(r))[x] <= 1
    {
      assert multiset(Ids(r))[x] <= multiset(Ids(market))[x];
    }
    forall j | 0 <= j < |r|
      ensures Ids(r)[j] >= 1 && r[j].quantity > 0
    {
      var i :| 0 <= i < |market| && market[i] == r[j];
      assert Ids(market)[i] == r[j].id;
    }
  }

  // ------------------------------------------------------------- the sale

  /** `Math.round(quantity * price)`: what buying a listing costs. */
  function ListingCost(l: Listing): int {
    Round(l.quantity as real * l.price)
  }

  /** What the seller receives of a sale: the total less the market tax,
      rounded. Never more than the total and never negative; the whole
      total under Market Madness. */
  function Proceeds(cost: int, event: Option<EventKind>): (p: int)
    ensures cost >= 0 ==> 0 <= p <= cost
    ensures event == Some(MarketMadness) ==> p == cost
  {
    var t := TaxRate(event);
    var x := Taxed(cost, t);
    Round(x)
  }

  /** `totalCost * (1 - taxRate)` */
  function Taxed(cost: int, t: real): (x: real)
    requires 0.0 <= t <= 1.0
    ensures cost >= 0 ==> 0.0 <= x <= cost as real
    ensures t == 0.0 ==> x == cost as real
  {
    cost as real * (1.0 - t)
  }

  /** The accounts after the buyer `id` buys listing `l`: the buyer pays the
      cost and receives the items; the account the seller id resolves to, if
      any, is paid the proceeds. That can be the buyer itself, when it has
      absorbed the Discord account that listed the items. */
  function Settle(accounts: map<AccountId, Account>, id: AccountId, l: Listing, event: Option<EventKind>): (r: map<AccountId, Account>)
    requires id in accounts && l.sellerId != id
    ensures r.Keys == accounts.Keys
    ensures r[id].balance == accounts[id].balance - ListingCost(l)
                             + (if Holder(accounts, l.sellerId) == Some(id) then Proceeds(ListingCost(l), event) else 0)
    ensures forall i :: Qty(r[id].inventory, i) == Qty(accounts[id].inventory, i) + (if i == l.item then l.quantity else 0)
    ensures forall h :: Holder(accounts, l.sellerId) == Some(h) && h != id ==>
              r[h] == accounts[h].(balance := accounts[h].balance + Proceeds(ListingCost(l), event))
    ensures forall x :: x in accounts && x != id && Holder(accounts, l.sellerId) != Some(x) ==> r[x] == accounts[x]
  {
    Credited(Charged(accounts, id, l), Holder(accounts, l.sellerId), Proceeds(ListingCost(l), event))
  }

  /** The buyer's write: it pays the listing's cost and receives its items. */
  function Charged(accounts: map<AccountId, Account>, id: AccountId, l: Listing): (r: map<AccountId, Account>)
    requires id in accounts
    ensures r.Keys == accounts.Keys
    ensures forall x :: x in accounts && x != id ==> r[x] == accounts[x]
  {
    var a := accounts[id];
    accounts[id := a.(balance := a.balance - ListingCost(l), inventory := Add(a.inventory, l.item, l.quantity))]
  }

  /** `$inc: { balance: n }` on the account found, when one was found. */
  function Credited(accounts: map<AccountId, Account>, x: Option<AccountId>, n: int): (r: map<AccountId, Account>)
    ensures r.Keys == accounts.Keys
    ensures forall y :: y in accounts && x != Some(y) ==> r[y] == accounts[y]
  {
    if x.Some? && x.value in accounts then accounts[x.value := accounts[x.value].(balance := accounts[x.value].balance + n)] else accounts
  }

  /** The two writes of a sale keep every account well formed and in its
      clan. */
  lemma SettleKeepsValid(accounts: map<AccountId, Account>, clans: map<ClanCode, Clan>, id: AccountId, l: Listing, event: Option<EventKind>)
    requires AccountsValid(accounts) && RosterAgrees(accounts, clans) && id in accounts && l.sellerId != id && l.quantity > 0
    ensures AccountsValid(Settle(accounts, id, l, event)) && RosterAgrees(Settle(accounts, id, l, event), clans)
  {
    ChargedKeepsValid(accounts, clans, id, l);
    CreditedKeepsValid(Charged(accounts, id, l), clans, Holder(accounts, l.sellerId), Proceeds(ListingCost(l), event));
  }

  /** The buyer's write keeps the accounts valid. */
  lemma ChargedKeepsValid(accounts: map<AccountId, Account>, clans: map<ClanCode, Clan>, id: AccountId, l: Listing)
    requires AccountsValid(accounts) && RosterAgrees(accounts, clans) && id in accounts && l.quantity > 0
    ensures AccountsValid(Charged(accounts, id, l)) && RosterAgrees(Charged(accounts, id, l), clans)
  {
    var a := accounts[id];
    AddKeepsWellFormed(a, l.item, l.quantity);
    AccountPut(accounts, clans, a.(balance := a.balance - ListingCost(l), inventory := Add(a.inventory, l.item, l.quantity)));
  }

  /** A credit keeps the accounts valid: only a balance changes. */
  lemma CreditedKeepsValid(accounts: map<AccountId, Account>, clans: map<ClanCode, Clan>, x: Option<AccountId>, n: int)
    requires AccountsValid(accounts) && RosterAgrees(accounts, clans)
    ensures AccountsValid(Credited(accounts, x, n)) && RosterAgrees(Credited(accounts, x, n), clans)
  {
    if x.Some? && x.value in accounts {
      AccountPut(accounts, clans, accounts[x.value].(balance := accounts[x.value].balance + n));
    }
  }

  /** Writing back a well-formed account under its own key and in its own
      clan keeps the accounts valid and the rosters in agreement. */
  lemma AccountPut(accounts: map<AccountId, Account>, clans: map<ClanCode, Clan>, a: Account)
    requires AccountsValid(accounts) && RosterAgrees(accounts, clans)
    requires a.id in accounts && WellFormed(a) && a.clanId == accounts[a.id].clanId
    ensures AccountsValid(accounts[a.id := a]) && RosterAgrees(accounts[a.id := a], clans)
  {
    RosterUpdate(accounts, clans, a.id, a);
  }

  /** A sale between two accounts moves Bits from buyer to seller and
      destroys exactly the market tax: the pair's balances fall by the cost
      less the proceeds, which is nothing under Market Madness. */
  lemma SaleBurnsTax(accounts: map<AccountId, Account>, id: AccountId, l: Listing, event: Option<EventKind>, h: AccountId)
    requires id in accounts && l.sellerId != id && Holder(accounts, l.sellerId) == Some(h) && h != id
    ensures var r := Settle(accounts, id, l, event);
            r[id].balance + r[h].balance ==
            accounts[id].balance + accounts[h].balance - (ListingCost(l) - Proceeds(ListingCost(l), event))
    ensures event == Some(MarketMadness) ==>
              Settle(accounts, id, l, event)[id].balance + Settle(accounts, id, l, event)[h].balance ==
              accounts[id].balance + accounts[h].balance
  {
  }

  // ---------------------------------------------------------- crate shop

  /** The first crate listing of the given crate with at least `amount` left. */
  function FindCrate(crates: seq<CrateListing>, box: Lootbox, amount: int): (k: Option<nat>)
    ensures k.Some? ==> k.value < |crates| && crates[k.value].box == box && crates[k.value].quantity >= amount
    ensures k.Some? ==> forall j :: 0 <= j < k.value ==> !(crates[j].box == box && crates[j].quantity >= amount)
    ensures k.None? ==> forall j :: 0 <= j < |crates| ==> !(crates[j].box == box && crates[j].quantity >= amount)
  {
    if crates == [] then None
    else if crates[0].box == box && crates[0].quantity >= amount then Some(0)
    else
      match FindCrate(crates[1..], box, amount)
      case None => None
      case Some(j) => Some(j + 1)
  }

  /** Taking `amount` crates from a listing that has them keeps the shop
      valid, whether the listing is left with some or deleted. */
  lemma CrateTaken(crates: seq<CrateListing>, k: nat, amount: int)
    requires CratesValid(crates) && k < |crates| && 0 < amount <= crates[k].quantity
    ensures crates[k].quantity == amount ==> CratesValid(RemoveAt(crates, k))
    ensures crates[k].quantity > amount ==> CratesValid(crates[k := crates[k].(quantity := crates[k].quantity - amount)])
  {
    var r := RemoveAt(crates, k);
    forall i, j | 0 <= i < j < |r|
      ensures r[i].box != r[j].box
    {
      var i' := if i < k then i else i + 1;
      var j' := if j < k then j else j + 1;
      assert r[i] == crates[i'] && r[j] == crates[j'];
    }
  }

  /** Appending a listing for a crate not yet on sale keeps the shop valid. */
  lemma CrateListed(crates: seq<CrateListing>, l: CrateListing)
    ensures (crates + [l])[..|crates|] == crates && (crates + [l])[|crates|] == l
    ensures CratesValid(crates) && l.quantity > 0 && (forall k :: 0 <= k < |crates| ==> crates[k].box != l.box) ==>
              CratesValid(crates + [l])
  {
    assert (crates + [l])[..|crates|] == crates;
  }

  // ----------------------------------------------------------- tick helpers

  /** The accounts half way through a rewrite: those still to do as they
      were, the others rewritten with `f`. */
  ghost function PartlyRewritten(start: map<AccountId, Account>, todo: set<AccountId>, f: Account -> Account): map<AccountId, Account>
  {
    map id | id in start :: if id in todo then start[id] else f(start[id])
  }

  /** The correction's loop over the cancelled listings: each one's items
      go back to the account its seller id resolves to, when there is one. */
  method RefundAll(accounts: map<AccountId, Account>, bad: seq<Listing>) returns (r: map<AccountId, Account>)
    ensures r == Refunded(accounts, bad)
  {
    r := accounts;
    for k := 0 to |bad|
      invariant r == Refunded(accounts, bad[..k])
    {
      assert bad[..k + 1][..k] == bad[..k];
      var l := bad[k];
      var h := Holder(r, l.sellerId);
      if h.Some? {
        r := r[h.value := r[h.value].(inventory := Add(r[h.value].inventory, l.item, l.quantity))];
      }
    }
    assert bad[..|bad|] == bad;
  }

  /** Handing back listed units keeps every account well formed, under its
      key and in its clan. */
  lemma RefundsKeepValid(accounts: map<AccountId, Account>, bad: seq<Listing>)
    requires AccountsValid(accounts)
    requires forall k :: 0 <= k < |bad| ==> bad[k].quantity > 0
    ensures AccountsValid(Refunded(accounts, bad))
    ensures forall id :: id in accounts ==> Refunded(accounts, bad)[id].clanId == accounts[id].clanId
  {
    var r := Refunded(accounts, bad);
    forall id | id in accounts
      ensures WellFormed(r[id])
    {
      UnitsNonNegative(accounts, bad, id);
      StockedByQty(accounts[id].inventory);
      StockedByQty(r[id].inventory);
    }
  }

  lemma {:induction false} UnitsNonNegative(accounts: map<AccountId, Account>, bad: seq<Listing>, h: AccountId)
    requires forall k :: 0 <= k < |bad| ==> bad[k].quantity > 0
    ensures forall i :: Units(accounts, bad, h, i) >= 0
  {
    if bad != [] {
      UnitsNonNegative(accounts, bad[..|bad| - 1], h);
    }
  }

  /** Applies `f` to every account, one key at a time. */
  method RewriteAll(accounts: map<AccountId, Account>, f: Account -> Account) returns (r: map<AccountId, Account>)
    ensures r == map id | id in accounts :: f(accounts[id])
  {
    r := accounts;
    var todo := accounts.Keys;
    assert r == PartlyRewritten(accounts, todo, f);
    while todo != {}
      invariant todo <= accounts.Keys && r == PartlyRewritten(accounts, todo, f)
      decreases todo
    {
      var id :| id in todo;
      RewriteOne(accounts, todo, f, id);
      r := r[id := f(r[id])];
      todo := todo - {id};
    }
    assert r == PartlyRewritten(accounts, {}, f);
  }

  /** Rewriting one more account moves it from the to-do part to the done part. */
  lemma RewriteOne(start: map<AccountId, Account>, todo: set<AccountId>, f: Account -> Account, id: AccountId)
    requires id in todo && todo <= start.Keys
    ensures id in PartlyRewritten(start, todo, f) && PartlyRewritten(start, todo, f)[id] == start[id]
    ensures PartlyRewritten(start, todo - {id}, f) == PartlyRewritten(start, todo, f)[id := f(start[id])]
  {
  }

  /** A market of the listings the correction keeps is valid. */
  lemma KeptListingsValid(market: seq<Listing>)
    requires ListingsValid(market)
    ensures ListingsValid(Allowed(market))
  {
    var kept := Allowed(market);
    AllowedIds(market);
    SweepSplits(market);
    forall j | 0 <= j < |kept|
      ensures kept[j] in market
    {
      assert kept[j] in multiset(kept);
      assert kept[j] in multiset(market);
    }
    SubMarket(market, kept);
  }

  /** Every listing the correction cancels holds something. */
  lemma CancelledInStock(market: seq<Listing>)
    requires ListingsValid(market)
    ensures forall k :: 0 <= k < |Disallowed(market)| ==> Disallowed(market)[k].quantity > 0
  {
    var bad := Disallowed(market);
    SweepSplits(market);
    forall k | 0 <= k < |bad|
      ensures bad[k].quantity > 0
    {
      assert bad[k] in multiset(bad);
      assert bad[k] in multiset(market);
    }
  }

  /** The correction keeps no id more often than the market had it. */
  lemma {:induction false} AllowedIds(market: seq<Listing>)
    ensures multiset(Ids(Allowed(market))) <= multiset(Ids(market))
  {
    if market != [] {
      var init := market[..|market| - 1];
      var l := market[|market| - 1];
      AllowedIds(init);
      assert market == init + [l];
      AppendIds(init, l);
      if PriceAllowed(l.price) {
        AppendIds(Allowed(init), l);
      }
    }
  }

  /** One more listing counts once more for its seller only. */
  lemma CountByAppend(market: seq<Listing>, l: Listing, s: AccountId)
    ensures CountBy(market + [l], s) == CountBy(market, s) + (if l.sellerId == s then 1 else 0)
  {
    assert (market + [l])[..|market|] == market;
  }

  /** The global event after an event tick: an expired event ends, and when
      none runs a new one starts with chance EVENT_CHANCE, of a kind drawn
      uniformly, lasting that kind's duration. No expired event survives
      the tick. */
  function NextEvent(event: Option<ActiveEvent>, now: int, startRoll: real, kindPick: real): (e: Option<ActiveEvent>)
    requires Unit(startRoll) && Unit(kindPick)
    ensures event.Some? && now <= event.value.expiresAt ==> e == event
    ensures event.None? || now > event.value.expiresAt ==> (e.Some? <==> startRoll < EventChance)
    ensures e.Some? && e != event ==>
              e.value.kind == AllEvents[Floor(kindPick * |AllEvents| as real)] &&
              e.value.expiresAt == now + EventDurationMs(e.value.kind)
    ensures e.Some? ==> e.value.expiresAt >= now
  {
    var live := if event.Some? && now > event.value.expiresAt then None else event;
    if live.None? && startRoll < EventChance then
      var kind := AllEvents[Floor(kindPick * |AllEvents| as real)];
      Some(ActiveEvent(kind, now + EventDurationMs(kind)))
    else live
  }

  /** What a vendor puts up for sale, before it takes a listing id. */
  datatype Offer = Offer(sellerId: AccountId, item: Item, quantity: int, price: real)

  /** The vendor tick's choice: a vendor is drawn; it lists only while it
      has fewer than three listings and its chance roll succeeds, and then
      offers one of its stock entries, priced as VendorPrice says. */
  function VendorOffer(market: seq<Listing>, pick: real, chanceRoll: real, stockPick: real, priceRoll: real): (o: Option<Offer>)
    requires Unit(pick) && Unit(chanceRoll) && Unit(stockPick) && Unit(priceRoll)
    ensures 0 <= Floor(pick * |Vendors| as real) < |Vendors|
    ensures var v := Vendors[Floor(pick * |Vendors| as real)];
            && (o.Some? <==> CountBy(market, v.sellerId) < VendorListingCap && chanceRoll < v.chance)
            && (o.Some? ==>
                  o.value.sellerId == v.sellerId &&
                  exists k :: 0 <= k < |v.stock| && o.value.item == v.stock[k].item && o.value.quantity == v.stock[k].quantity &&
                              o.value.price == VendorPrice(v.stock[k], AveragePlayerPrice(market, v.stock[k].item), priceRoll))
    ensures o.Some? ==> IsNpc(o.value.sellerId) && o.value.quantity > 0
  {
    PickInRange(pick, |Vendors|);
    VendorsSound();
    var v := Vendors[Floor(pick * |Vendors| as real)];
    if CountBy(market, v.sellerId) >= VendorListingCap || chanceRoll >= v.chance then None
    else
      PickInRange(stockPick, |v.stock|);
      var k := Floor(stockPick * |v.stock| as real);
      var s := v.stock[k];
      Some(Offer(v.sellerId, s.item, s.quantity, VendorPrice(s, AveragePlayerPrice(market, s.item), priceRoll)))
  }

  /** The chance that the Collector empties one crate listing on a tick. */
  const CollectorRemoveChance: real := 0.25

  /** The crates of the given ones that are not on sale, in order. */
  function UnlistedOf(boxes: seq<Lootbox>, crates: seq<CrateListing>): (r: seq<Lootbox>)
    ensures forall b :: b in r <==> b in boxes && forall k :: 0 <= k < |crates| ==> crates[k].box != b
  {
    if boxes == [] then []
    else
      var rest := UnlistedOf(boxes[1..], crates);
      assert forall b :: b in boxes <==> b == boxes[0] || b in boxes[1..];
      if exists k :: 0 <= k < |crates| && crates[k].box == boxes[0] then rest else [boxes[0]] + rest
  }

  /** The crates of the catalogue that are not on sale. */
  function Unlisted(crates: seq<CrateListing>): (r: seq<Lootbox>)
    ensures forall b :: b in r <==> b in AllLootboxes && forall k :: 0 <= k < |crates| ==> crates[k].box != b
  {
    UnlistedOf(AllLootboxes, crates)
  }

  /** A lootbox tick's removal: the listing at the picked place goes. */
  function CrateDelisted(crates: seq<CrateListing>, removePick: real): (r: seq<CrateListing>)
    requires Unit(removePick) && |crates| > 0
    ensures 0 <= Floor(removePick * |crates| as real) < |crates|
    ensures r == RemoveAt(crates, Floor(removePick * |crates| as real))
    ensures CratesValid(crates) ==> CratesValid(r)
  {
    PickInRange(removePick, |crates|);
    var k := Floor(removePick * |crates| as real);
    assert CratesValid(crates) ==> CratesValid(RemoveAt(crates, k)) by {
      if CratesValid(crates) {
        CrateTaken(crates, k, crates[k].quantity);
      }
    }
    RemoveAt(crates, k)
  }

  /** A lootbox tick's addition: one picked crate not on sale is listed in
      a quantity from one to five at its catalogue price. */
  function CrateRestocked(crates: seq<CrateListing>, crateRoll: real, quantityRoll: real): (r: seq<CrateListing>)
    requires Unit(crateRoll) && Unit(quantityRoll) && Unlisted(crates) != []
    ensures |r| == |crates| + 1 && r[..|crates|] == crates
    ensures r[|crates|].box in Unlisted(crates)
    ensures 1 <= r[|crates|].quantity <= 5
    ensures r[|crates|].price == CratePrice(r[|crates|].box)
    ensures CratesValid(crates) ==> CratesValid(r)
  {
    var available := Unlisted(crates);
    PickInRange(crateRoll, |available|);
    PickInRange(quantityRoll, 5);
    var box := available[Floor(crateRoll * |available| as real)];
    var l := CrateListing(box, Floor(quantityRoll * 5.0) + 1, CratePrice(box));
    CrateListed(crates, l);
    crates + [l]
  }

  /** The crate shop after a lootbox tick: with chance one in four a
      listing is taken down; otherwise, while fewer than five are up, one
      crate not on sale is listed. The shop stays valid and never grows
      past five. */
  function NextCrates(crates: seq<CrateListing>, removeRoll: real, removePick: real, crateRoll: real, quantityRoll: real): (r: seq<CrateListing>)
    requires Unit(removeRoll) && Unit(removePick) && Unit(crateRoll) && Unit(quantityRoll)
    ensures |crates| > 0 && removeRoll < CollectorRemoveChance ==> r == CrateDelisted(crates, removePick)
    ensures !(|crates| > 0 && removeRoll < CollectorRemoveChance) ==>
              r == if |crates| < MaxLootboxListings && Unlisted(crates) != [] then CrateRestocked(crates, crateRoll, quantityRoll) else crates
    ensures CratesValid(crates) ==> CratesValid(r)
    ensures |crates| <= MaxLootboxListings ==> |r| <= MaxLootboxListings
  {
    if |crates| > 0 && removeRoll < CollectorRemoveChance then CrateDelisted(crates, removePick)
    else if |crates| < MaxLootboxListings && Unlisted(crates) != [] then CrateRestocked(crates, crateRoll, quantityRoll)
    else crates
  }
}
