/** The account record and the operations that read and rewrite one account:
    inventory arithmetic, account creation, the self-heal of old documents,
    crafting, eating, smelting, the power grid and the account merge. */
module Accounts {
  import opened Common
  import opened Catalog

  type AccountId = string
  type ClanCode = string

  /** Where an active buff came from: a food, or the rush the_addict trait
      grants after a lost bet. */
  datatype BuffSource = Meal(food: Item) | AddictRush(workBonusPercent: real)
  datatype Buff = Buff(source: BuffSource, expiresAt: int)

  datatype Zeal = Zeal(stacks: int, lastAction: int)

  /** A smelter job: what it yields, how many, and when (in ms) it is done. */
  datatype SmeltJob = SmeltJob(result: Item, quantity: int, finishTime: real)

  /** The power grid: three building slots and the time of the last production tick. */
  datatype Grid = Grid(slots: seq<Option<Item>>, lastTick: int)

  /** What a JavaScript number holding a balance is: an ordinary finite
      number, or one of the three values that are not. Arithmetic on a
      balance that is not finite leaves it as it is. */
  datatype NumberKind = Finite | PlusInfinity | MinusInfinity | NotANumber

  /** One account document. Timestamps are milliseconds, and 0 stands for
      the source's null ("never"). The balance is `balance` when its `kind`
      is Finite; otherwise `balance` carries no meaning. */
  datatype Account = Account(
    id: AccountId,
    drednotName: Option<string>,
    discordId: Option<string>,
    balance: int,
    kind: NumberKind,
    lastWork: int,
    lastGather: int,
    lastDaily: int,
    dailyStreak: int,
    lastHourly: int,
    hourlyStreak: int,
    lastSlots: int,
    inventory: map<Item, int>,
    smelting: Option<SmeltJob>,
    activeBuffs: seq<Buff>,
    clanId: Option<ClanCode>,
    clanJoinCooldown: int,
    traits: seq<Trait>,
    zeal: Zeal,
    powerGrid: Grid)

  /** The database filter `balance: { $gte: cost }` matches the account:
      its balance is finite and covers the cost, or it is +Infinity.
      MongoDB orders NaN below every number, so NaN, like -Infinity, fails
      it. A handler's own `balance < cost` test, where there is one, refuses
      exactly the accounts this filter does not match, except NaN, which it
      lets through to the filter. */
  predicate Covers(a: Account, cost: int) {
    a.kind == PlusInfinity || (a.kind == Finite && a.balance >= cost)
  }

  // ------------------------------------------------------------- inventory

  /** `account.inventory[itemId] || 0` */
  function Qty(inv: map<Item, int>, i: Item): int {
    if i in inv then inv[i] else 0
  }

  /** `$inc: { inventory.<item>: n }` */
  function Add(inv: map<Item, int>, i: Item, n: int): (r: map<Item, int>)
    ensures Qty(r, i) == Qty(inv, i) + n
    ensures forall j :: j != i ==> Qty(r, j) == Qty(inv, j)
  {
    inv[i := Qty(inv, i) + n]
  }

  /** No item count is negative. */
  predicate Stocked(inv: map<Item, int>) {
    forall i :: i in inv ==> inv[i] >= 0
  }

  /** An inventory change that leaves the item's count non-negative keeps the
      account well formed. */
  lemma AddKeepsWellFormed(a: Account, i: Item, n: int)
    requires WellFormed(a) && Qty(a.inventory, i) + n >= 0
    ensures WellFormed(a.(inventory := Add(a.inventory, i, n)))
  {
    StockedByQty(a.inventory);
    StockedByQty(Add(a.inventory, i, n));
  }

  /** Stocked said through Qty: no item is counted below zero. */
  lemma StockedByQty(inv: map<Item, int>)
    ensures Stocked(inv) <==> forall i :: Qty(inv, i) >= 0
  {
    if Stocked(inv) {
      forall i
        ensures Qty(inv, i) >= 0
      {
      }
    } else {
      var i :| i in inv && inv[i] < 0;
      assert Qty(inv, i) < 0;
    }
  }

  /** Traits carry levels between 1 and the maximum. */
  predicate TraitsValid(traits: seq<Trait>) {
    forall k :: 0 <= k < |traits| ==> 1 <= traits[k].level <= TraitMaxLevel
  }

  /** The invariant every handler keeps on an account: no negative item
      count, stack or streak, traits of valid levels, a three-slot grid
      holding only buildings, and a smelting job of at least one unit. The
      balance is not part of it: the source lets a corrupted balance stand. */
  predicate WellFormed(a: Account) {
    && Stocked(a.inventory)
    && TraitsValid(a.traits)
    && a.zeal.stacks >= 0
    && a.dailyStreak >= 0
    && a.hourlyStreak >= 0
    && |a.powerGrid.slots| == GridSlotCount
    && (forall k :: 0 <= k < |a.powerGrid.slots| && a.powerGrid.slots[k].Some? ==> IsBuilding(a.powerGrid.slots[k].value))
    && (a.smelting.Some? ==> a.smelting.value.quantity > 0)
  }

  // ---------------------------------------------------------------- lookup

  /** The accounts whose linked Discord id is `x`. */
  function LinkedTo(accounts: map<AccountId, Account>, x: string): set<AccountId> {
    set k | k in accounts && accounts[k].discordId == Some(x)
  }

  /** getAccount and modifyInventory: the `$or` query that matches the
      lower-cased id as a key or `x` itself as a linked Discord id. A key
      wins; otherwise it is the account linked to `x`, and nobody when no
      account or more than one is linked to it. */
  function Holder(accounts: map<AccountId, Account>, x: string): (h: Option<AccountId>)
    ensures h.Some? ==> h.value in accounts && (h.value == Lower(x) || accounts[h.value].discordId == Some(x))
    ensures Lower(x) in accounts ==> h == Some(Lower(x))
    ensures Lower(x) !in accounts ==> (h.Some? <==> |LinkedTo(accounts, x)| == 1)
    ensures h.Some? && h.value != Lower(x) ==> LinkedTo(accounts, x) == {h.value}
  {
    if Lower(x) in accounts then Some(Lower(x))
    else
      var linked := LinkedTo(accounts, x);
      if |linked| == 1 then
        var k :| k in linked;
        SingletonIs(linked, k);
        Some(k)
      else None
  }

  /** A set of one element holds that element and nothing else. */
  lemma SingletonIs<T>(s: set<T>, k: T)
    requires |s| == 1 && k in s
    ensures s == {k}
  {
    var rest := s - {k};
    assert |rest| == 0;
  }

  /** The lookup reads only the keys and the linked Discord ids, so
      rewriting other fields keeps every id resolving to the same account. */
  lemma HolderKept(a: map<AccountId, Account>, b: map<AccountId, Account>, x: string)
    requires a.Keys == b.Keys && forall k :: k in a ==> b[k].discordId == a[k].discordId
    ensures Holder(b, x) == Holder(a, x)
  {
    assert LinkedTo(a, x) == LinkedTo(b, x);
  }

  // -------------------------------------------------------------- creation

  /** createNewAccount: the identifier lower-cased as the key, the starting
      balance, two freshly rolled traits, no zeal and an empty grid. */
  function NewAccount(identifier: string, viaDiscord: bool, t1: Trait, t2: Trait, now: int): (a: Account)
    ensures a.id == Lower(identifier)
    ensures a.balance == StartingBalance && a.kind == Finite
    ensures a.inventory == map[] && a.activeBuffs == [] && a.smelting.None? && a.clanId.None?
    ensures a.traits == [t1, t2]
    ensures viaDiscord ==> a.discordId == Some(identifier) && a.drednotName.None?
    ensures !viaDiscord ==> a.drednotName == Some(identifier) && a.discordId.None?
    ensures TraitsValid([t1, t2]) ==> WellFormed(a)
  {
    Account(
      id := Lower(identifier),
      drednotName := if viaDiscord then None else Some(identifier),
      discordId := if viaDiscord then Some(identifier) else None,
      balance := StartingBalance, kind := Finite,
      lastWork := 0, lastGather := 0, lastDaily := 0, dailyStreak := 0,
      lastHourly := 0, hourlyStreak := 0, lastSlots := 0,
      inventory := map[], smelting := None, activeBuffs := [],
      clanId := None, clanJoinCooldown := 0,
      traits := [t1, t2], zeal := Zeal(0, now),
      powerGrid := Grid([None, None, None], now))
  }

  // ------------------------------------------------------------- self-heal

  /** An account document as an older release may have stored it: each
      field the self-heal inspects may be absent, in which case the value
      held for it in `core` is meaningless. */
  datatype StoredAccount = StoredAccount(
    core: Account,
    hasTraits: bool,
    hasDailyStreak: bool,
    hasLastHourly: bool,
    hasHourlyStreak: bool,
    hasClanId: bool,
    hasClanJoinCooldown: bool,
    hasZeal: bool,
    hasPowerGrid: bool)

  /** A JavaScript-truthy name: present and not the empty string. */
  predicate Named(s: Option<string>) {
    s.Some? && s.value != ""
  }

  /** A document the self-heal has nothing to add to. */
  predicate Complete(d: StoredAccount) {
    && d.hasTraits && d.hasDailyStreak && d.hasLastHourly && d.hasHourlyStreak
    && d.hasClanId && d.hasClanJoinCooldown && d.hasZeal && d.hasPowerGrid
    && (Named(d.core.drednotName) || Named(d.core.discordId))
  }

  /** selfHealAccount: each absent field is given the value a new account
      gets, a nameless account is named after its key, and the document is
      written back only when something was added. */
  function SelfHeal(d: StoredAccount, t1: Trait, t2: Trait, now: int): (h: StoredAccount)
    // nothing is written when nothing is missing, something is when anything
    // is, and then the document is complete (a key is never empty)
    ensures Complete(d) ==> h == d
    ensures !Complete(d) && d.core.id != "" ==> h != d
    ensures d.core.id != "" ==> Complete(h)
    // a field already present keeps its value ...
    ensures d.hasTraits ==> h.core.traits == d.core.traits
    ensures d.hasDailyStreak ==> h.core.dailyStreak == d.core.dailyStreak
    ensures d.hasLastHourly ==> h.core.lastHourly == d.core.lastHourly
    ensures d.hasHourlyStreak ==> h.core.hourlyStreak == d.core.hourlyStreak
    ensures d.hasClanId ==> h.core.clanId == d.core.clanId
    ensures d.hasClanJoinCooldown ==> h.core.clanJoinCooldown == d.core.clanJoinCooldown
    ensures d.hasZeal ==> h.core.zeal == d.core.zeal
    ensures d.hasPowerGrid ==> h.core.powerGrid == d.core.powerGrid
    // ... an absent one takes the value createNewAccount would give it ...
    ensures !d.hasTraits ==> h.core.traits == NewAccount(d.core.id, false, t1, t2, now).traits
    ensures !d.hasDailyStreak ==> h.core.dailyStreak == NewAccount(d.core.id, false, t1, t2, now).dailyStreak
    ensures !d.hasLastHourly ==> h.core.lastHourly == NewAccount(d.core.id, false, t1, t2, now).lastHourly
    ensures !d.hasHourlyStreak ==> h.core.hourlyStreak == NewAccount(d.core.id, false, t1, t2, now).hourlyStreak
    ensures !d.hasClanId ==> h.core.clanId == NewAccount(d.core.id, false, t1, t2, now).clanId
    ensures !d.hasClanJoinCooldown ==> h.core.clanJoinCooldown == NewAccount(d.core.id, false, t1, t2, now).clanJoinCooldown
    ensures !d.hasZeal ==> h.core.zeal == NewAccount(d.core.id, false, t1, t2, now).zeal
    ensures !d.hasPowerGrid ==> h.core.powerGrid == NewAccount(d.core.id, false, t1, t2, now).powerGrid
    // ... a nameless account is named after its key, and nothing else is touched
    ensures h.core.drednotName == (if Named(d.core.drednotName) || Named(d.core.discordId)
                                   then d.core.drednotName else Some(d.core.id))
    ensures h.core.(traits := d.core.traits, dailyStreak := d.core.dailyStreak, lastHourly := d.core.lastHourly,
                    hourlyStreak := d.core.hourlyStreak, clanId := d.core.clanId,
                    clanJoinCooldown := d.core.clanJoinCooldown, zeal := d.core.zeal,
                    powerGrid := d.core.powerGrid, drednotName := d.core.drednotName) == d.core
  {
    var c := d.core;
    var blank := NewAccount(c.id, false, t1, t2, now);
    var named := Named(c.drednotName) || Named(c.discordId);
    if Complete(d) then d
    else
      StoredAccount(
        c.(traits := Fill(d.hasTraits, c.traits, blank.traits),
           drednotName := Fill(named, c.drednotName, Some(c.id)),
           dailyStreak := Fill(d.hasDailyStreak, c.dailyStreak, blank.dailyStreak),
           lastHourly := Fill(d.hasLastHourly, c.lastHourly, blank.lastHourly),
           hourlyStreak := Fill(d.hasHourlyStreak, c.hourlyStreak, blank.hourlyStreak),
           clanId := Fill(d.hasClanId, c.clanId, blank.clanId),
           clanJoinCooldown := Fill(d.hasClanJoinCooldown, c.clanJoinCooldown, blank.clanJoinCooldown),
           zeal := Fill(d.hasZeal, c.zeal, blank.zeal),
           powerGrid := Fill(d.hasPowerGrid, c.powerGrid, blank.powerGrid)),
        true, true, true, true, true, true, true, true)
  }

  /** A stored field when it is present, the given default when it is not. */
  function Fill<T>(present: bool, stored: T, default: T): T {
    if present then stored else default
  }

  // ----------------------------------------------------------------- craft

  /** How many of item i a recipe asks for, `times` times over. */
  function Need(r: seq<(Item, nat)>, i: Item, times: int): int {
    if r == [] then 0
    else (if r[0].0 == i then r[0].1 * times else 0) + Need(r[1..], i, times)
  }

  /** The inventory with every ingredient of r taken `times` times. */
  function Consume(inv: map<Item, int>, r: seq<(Item, nat)>, times: int): (out: map<Item, int>)
    decreases r
  {
    if r == [] then inv
    else Consume(Add(inv, r[0].0, -(r[0].1 * times)), r[1..], times)
  }

  lemma {:induction false} ConsumeQty(inv: map<Item, int>, r: seq<(Item, nat)>, times: int, i: Item)
    ensures Qty(Consume(inv, r, times), i) == Qty(inv, i) - Need(r, i, times)
    decreases r
  {
    if r != [] {
      ConsumeQty(Add(inv, r[0].0, -(r[0].1 * times)), r[1..], times, i);
    }
  }

  lemma {:induction false} ConsumeSnoc(inv: map<Item, int>, r: seq<(Item, nat)>, e: (Item, nat), times: int)
    ensures Consume(inv, r + [e], times) == Add(Consume(inv, r, times), e.0, -(e.1 * times))
    decreases r
  {
    if r == [] {
      assert [] + [e] == [e];
      assert [e][1..] == [];
    } else {
      assert (r + [e])[1..] == r[1..] + [e];
      ConsumeSnoc(Add(inv, r[0].0, -(r[0].1 * times)), r[1..], e, times);
    }
  }

  /** No item appears in two entries of r. */
  predicate DistinctKeys(r: seq<(Item, nat)>) {
    forall j, k :: 0 <= j < k < |r| ==> r[j].0 != r[k].0
  }

  /** Every recipe lists each ingredient once. */
  lemma RecipesDistinct(item: Item)
    ensures Recipe(item).Some? ==> DistinctKeys(Recipe(item).value)
  {
  }

  /** With distinct entries, the need for an ingredient is the count of its entry. */
  lemma {:induction false} NeedOfEntry(r: seq<(Item, nat)>, j: nat, times: int)
    requires DistinctKeys(r) && j < |r|
    ensures Need(r, r[j].0, times) == r[j].1 * times
  {
    if j == 0 {
      NeedAbsent(r[1..], r[0].0, times);
    } else {
      NeedOfEntry(r[1..], j - 1, times);
    }
  }

  lemma {:induction false} NeedAbsent(r: seq<(Item, nat)>, i: Item, times: int)
    requires forall j :: 0 <= j < |r| ==> r[j].0 != i
    ensures Need(r, i, times) == 0
  {
    if r != [] {
      NeedAbsent(r[1..], i, times);
    }
  }

  /** The loop of handleCraft over the recipe's entries: it notes every
      ingredient held in too small a number and collects the deductions. */
  method CheckRecipe(inv: map<Item, int>, recipe: seq<(Item, nat)>, quantity: int) returns (enough: bool, out: map<Item, int>)
    ensures enough <==> forall j :: 0 <= j < |recipe| ==> Qty(inv, recipe[j].0) >= recipe[j].1 * quantity
    ensures forall i :: Qty(out, i) == Qty(inv, i) - Need(recipe, i, quantity)
  {
    var missing := 0;
    out := inv;
    var k := 0;
    while k < |recipe|
      invariant 0 <= k <= |recipe|
      invariant out == Consume(inv, recipe[..k], quantity)
      invariant missing == 0 <==> forall j :: 0 <= j < k ==> Qty(inv, recipe[j].0) >= recipe[j].1 * quantity
    {
      var entry := recipe[k];
      if Qty(inv, entry.0) < entry.1 * quantity {
        missing := missing + 1;
      }
      assert recipe[..k + 1] == recipe[..k] + [entry];
      ConsumeSnoc(inv, recipe[..k], entry, quantity);
      out := Add(out, entry.0, -(entry.1 * quantity));
      k := k + 1;
    }
    assert recipe[..k] == recipe;
    enough := missing == 0;
    forall i
      ensures Qty(out, i) == Qty(inv, i) - Need(recipe, i, quantity)
    {
      ConsumeQty(inv, recipe, quantity, i);
    }
  }

  /** handleCraft: a positive quantity of a craftable item is made when every
      ingredient is held `quantity` times over; the ingredients are taken
      and the product added, and nothing else changes. */
  method Craft(a: Account, item: Item, quantity: int) returns (ok: bool, b: Account)
    ensures ok <==> quantity > 0 && Recipe(item).Some? &&
                    forall j :: 0 <= j < |Recipe(item).value| ==>
                      Qty(a.inventory, Recipe(item).value[j].0) >= Recipe(item).value[j].1 * quantity
    ensures !ok ==> b == a
    ensures ok ==> b == a.(inventory := b.inventory)
    ensures ok ==> forall i :: Qty(b.inventory, i) ==
                     Qty(a.inventory, i) - Need(Recipe(item).value, i, quantity) + (if i == item then quantity else 0)
  {
    if quantity <= 0 || Recipe(item).None? {
      return false, a;
    }
    var enough, inv := CheckRecipe(a.inventory, Recipe(item).value, quantity);
    if !enough {
      return false, a;
    }
    return true, a.(inventory := Add(inv, item, quantity));
  }

  /** A craft that goes through leaves no item count negative. */
  lemma CraftKeepsStock(a: Account, item: Item, quantity: int, b: Account)
    requires Stocked(a.inventory) && quantity > 0 && Recipe(item).Some?
    requires forall j :: 0 <= j < |Recipe(item).value| ==>
               Qty(a.inventory, Recipe(item).value[j].0) >= Recipe(item).value[j].1 * quantity
    requires forall i :: Qty(b.inventory, i) ==
               Qty(a.inventory, i) - Need(Recipe(item).value, i, quantity) + (if i == item then quantity else 0)
    ensures Stocked(b.inventory)
  {
    var r := Recipe(item).value;
    RecipesDistinct(item);
    forall i | i in b.inventory
      ensures b.inventory[i] >= 0
    {
      if j :| 0 <= j < |r| && r[j].0 == i {
        NeedOfEntry(r, j, quantity);
      } else {
        NeedAbsent(r, i, quantity);
      }
      assert Qty(b.inventory, i) == b.inventory[i];
    }
  }

  // ------------------------------------------------------------------- eat

  /** The buffs whose expiry lies after now. */
  function Unexpired(buffs: seq<Buff>, now: int): (r: seq<Buff>)
    ensures forall b :: b in r <==> b in buffs && b.expiresAt > now
    ensures |r| <= |buffs|
  {
    if buffs == [] then []
    else (if buffs[0].expiresAt > now then [buffs[0]] else []) + Unexpired(buffs[1..], now)
  }

  /** When the filter keeps as many buffs as there are, none has expired. */
  lemma {:induction false} UnexpiredAll(buffs: seq<Buff>, now: int)
    requires |Unexpired(buffs, now)| == |buffs|
    ensures forall b :: b in buffs ==> b.expiresAt > now
  {
    if buffs != [] {
      assert |Unexpired(buffs[1..], now)| <= |buffs[1..]|;
      UnexpiredAll(buffs[1..], now);
      assert buffs == [buffs[0]] + buffs[1..];
    }
  }

  /** activeBuffs.findIndex(b => b.itemId === food) */
  function FindMeal(buffs: seq<Buff>, food: Item): (k: Option<nat>)
    ensures k.Some? ==> (k.value < |buffs| && buffs[k.value].source == Meal(food) &&
                         forall j :: 0 <= j < k.value ==> buffs[j].source != Meal(food))
    ensures k.None? ==> forall j :: 0 <= j < |buffs| ==> buffs[j].source != Meal(food)
  {
    if buffs == [] then None
    else if buffs[0].source == Meal(food) then Some(0)
    else match FindMeal(buffs[1..], food)
      case None => None
      case Some(j) => Some(j + 1)
  }

  /** The outcome of a handler on one account: whether it reports success,
      and the account afterwards (a refused call may still have written). */
  datatype Step = Step(ok: bool, account: Account)

  /** handleEat as written. A food without a buff (Raw Meat) is taken out of
      the inventory and the handler then fails on the missing buff. */
  function EatAsWritten(a: Account, food: Item, now: int): (s: Step)
    ensures KindOf(food) == Food && Qty(a.inventory, food) >= 1 && FoodBuffOf(food).None? ==>
              !s.ok && Qty(s.account.inventory, food) == Qty(a.inventory, food) - 1
  {
    if KindOf(food) != Food || Qty(a.inventory, food) < 1 then Step(false, a)
    else
      var consumed := a.(inventory := Add(a.inventory, food, -1));
      if FoodBuffOf(food).None? then Step(false, consumed)
      else Step(true, consumed.(activeBuffs := EatenBuffs(a.activeBuffs, food, FoodBuffOf(food).value.durationMs, now)))
  }

  /** A buff from the food that is still running at `now`. */
  predicate LiveMeal(b: Buff, food: Item, now: int) {
    b.source == Meal(food) && b.expiresAt > now
  }

  /** How many buffs from the food are still running at `now`. */
  function LiveMeals(buffs: seq<Buff>, food: Item, now: int): (n: nat)
    ensures n <= |buffs|
    ensures n == 0 <==> forall j :: 0 <= j < |buffs| ==> !LiveMeal(buffs[j], food, now)
  {
    if buffs == [] then 0
    else (if LiveMeal(buffs[0], food, now) then 1 else 0) + LiveMeals(buffs[1..], food, now)
  }

  /** Dropping the expired buffs leaves every running buff counted. */
  lemma {:induction false} LiveMealsUnexpired(buffs: seq<Buff>, food: Item, now: int)
    ensures LiveMeals(Unexpired(buffs, now), food, now) == LiveMeals(buffs, food, now)
  {
    if buffs != [] {
      LiveMealsUnexpired(buffs[1..], food, now);
      var head := if buffs[0].expiresAt > now then [buffs[0]] else [];
      LiveMealsAppend(head, Unexpired(buffs[1..], now), food, now);
    }
  }

  /** Counting running buffs from the food distributes over concatenation. */
  lemma {:induction false} LiveMealsAppend(s: seq<Buff>, t: seq<Buff>, food: Item, now: int)
    ensures LiveMeals(s + t, food, now) == LiveMeals(s, food, now) + LiveMeals(t, food, now)
  {
    if s == [] {
      assert s + t == t;
    } else {
      assert (s + t)[0] == s[0] && (s + t)[1..] == s[1..] + t;
      LiveMealsAppend(s[1..], t, food, now);
    }
  }

  /** Overwriting a running buff from the food with another one keeps the count. */
  lemma {:induction false} LiveMealsUpdate(s: seq<Buff>, k: nat, x: Buff, food: Item, now: int)
    requires k < |s| && LiveMeal(s[k], food, now) && LiveMeal(x, food, now)
    ensures LiveMeals(s[k := x], food, now) == LiveMeals(s, food, now)
  {
    if k > 0 {
      assert s[k := x][1..] == s[1..][k - 1 := x];
      LiveMealsUpdate(s[1..], k - 1, x, food, now);
    } else {
      assert s[k := x][1..] == s[1..];
    }
  }

  /** Overwriting one buff keeps every other buff of the list and brings
      in no buff but the new one. */
  lemma UpdateKeeps(s: seq<Buff>, k: nat, x: Buff)
    requires k < |s|
    ensures forall b :: b in s && b != s[k] ==> b in s[k := x]
    ensures forall b :: b in s[k := x] ==> b in s || b == x
  {
    forall b | b in s && b != s[k]
      ensures b in s[k := x]
    {
      var i :| 0 <= i < |s| && s[i] == b;
      assert s[k := x][i] == b;
    }
  }

  /** The buff list after eating: an unexpired buff from the same food is
      extended by the buff's duration (and expired buffs are dropped with
      it); otherwise a new buff is appended to the stored list. */
  function EatenBuffs(buffs: seq<Buff>, food: Item, duration: nat, now: int): (r: seq<Buff>)
    requires duration > 0
    // every other running buff is kept, and no other buff appears
    ensures forall b :: b in buffs && b.expiresAt > now && b.source != Meal(food) ==> b in r
    ensures forall b :: b in r && b.source != Meal(food) ==> b in buffs
    // a running buff from the food runs `duration` longer ...
    ensures LiveMeals(buffs, food, now) > 0 ==>
              exists b :: b in buffs && LiveMeal(b, food, now) && Buff(Meal(food), b.expiresAt + duration) in r
    // ... and with none running a new one runs for `duration` from now
    ensures LiveMeals(buffs, food, now) == 0 ==> Buff(Meal(food), now + duration) in r
    // the food never gives a second running buff
    ensures LiveMeals(r, food, now) == Max(1, LiveMeals(buffs, food, now))
  {
    var live := Unexpired(buffs, now);
    LiveMealsUnexpired(buffs, food, now);
    match FindMeal(live, food)
    case Some(k) =>
      var x := Buff(Meal(food), live[k].expiresAt + duration);
      LiveMealsUpdate(live, k, x, food, now);
      UpdateKeeps(live, k, x);
      assert live[k] in buffs && x == live[k := x][k];
      live[k := x]
    case None =>
      var x := Buff(Meal(food), now + duration);
      LiveMealsAppend(buffs, [x], food, now);
      assert [x][1..] == [] && LiveMeals([x], food, now) == 1;
      assert x == (buffs + [x])[|buffs|];
      buffs + [x]
  }

  /** After eating, the buff list holds a buff from that food lasting at
      least the buff's duration from now. */
  lemma MealBuffLasts(buffs: seq<Buff>, food: Item, duration: nat, now: int)
    requires duration > 0
    ensures var r := EatenBuffs(buffs, food, duration, now);
            exists k :: 0 <= k < |r| && r[k].source == Meal(food) && r[k].expiresAt >= now + duration
  {
    var live := Unexpired(buffs, now);
    var r := EatenBuffs(buffs, food, duration, now);
    match FindMeal(live, food)
    case Some(k) =>
      assert live[k] in buffs;
      assert r[k].source == Meal(food) && r[k].expiresAt >= now + duration;
    case None =>
      assert r[|buffs|].source == Meal(food);
  }

  /** handleEat with the food's buff checked before anything is consumed:
      one unit of the food is eaten exactly when the handler succeeds, and
      the buff list becomes EatenBuffs of the old one, which holds a buff
      from the food lasting at least the buff's duration from now. */
  function Eat(a: Account, food: Item, now: int): (s: Step)
    ensures s.ok <==> KindOf(food) == Food && FoodBuffOf(food).Some? && Qty(a.inventory, food) >= 1
    ensures !s.ok ==> s.account == a
    ensures s.ok ==> Qty(s.account.inventory, food) == Qty(a.inventory, food) - 1
    ensures s.ok ==> forall i :: i != food ==> Qty(s.account.inventory, i) == Qty(a.inventory, i)
    ensures s.ok ==> exists k :: (0 <= k < |s.account.activeBuffs| && s.account.activeBuffs[k].source == Meal(food) &&
                                 s.account.activeBuffs[k].expiresAt >= now + FoodBuffOf(food).value.durationMs)
    ensures s.ok ==> s.account.activeBuffs == EatenBuffs(a.activeBuffs, food, FoodBuffOf(food).value.durationMs, now)
    ensures s.ok ==> s.account == a.(inventory := s.account.inventory, activeBuffs := s.account.activeBuffs)
    ensures Stocked(a.inventory) ==> Stocked(s.account.inventory)
  {
    if KindOf(food) != Food || FoodBuffOf(food).None? || Qty(a.inventory, food) < 1 then Step(false, a)
    else
      MealBuffLasts(a.activeBuffs, food, FoodBuffOf(food).value.durationMs, now);
      Step(true, a.(inventory := Add(a.inventory, food, -1),
                    activeBuffs := EatenBuffs(a.activeBuffs, food, FoodBuffOf(food).value.durationMs, now)))
  }

  // --------------------------------------------------------------- smelting

  /** The smelting time per unit in ms: 30 s split across the smelters held,
      halved while the Super Smelter event runs. */
  function SmeltTimePerItem(smelters: int, superSmelter: bool): (t: real)
    requires smelters >= 1
    ensures 0.0 < t <= SmeltMsPerOre as real
    ensures superSmelter ==> t == SmeltTimePerItem(smelters, false) / 2.0
  {
    var base := (30.0 / smelters as real) * 1000.0;
    if superSmelter then base / 2.0 else base
  }

  /** When a job of `quantity` units started at `now` is done. */
  function SmeltFinish(now: int, smelters: int, superSmelter: bool, quantity: int): (t: real)
    requires smelters >= 1 && quantity >= 1
    ensures t > now as real
  {
    var perItem := SmeltTimePerItem(smelters, superSmelter);
    assert perItem * quantity as real >= perItem by {
      assert perItem * quantity as real == perItem + perItem * (quantity - 1) as real;
    }
    now as real + perItem * quantity as real
  }

  /** Why a smelt request is refused, in the order the source checks. */
  predicate SmeltRefused(a: Account, input: Item, quantity: int, now: int) {
    || Qty(a.inventory, Smelter) < 1
    || (a.smelting.Some? && a.smelting.value.finishTime > now as real)
    || ProcessResult(input).None?
    || quantity <= 0
    || Qty(a.inventory, input) < quantity
    || Qty(a.inventory, Coal) < quantity * SmeltCoalPerOre
  }

  /** handleSmelt as written: the busy test only looks at jobs still running,
      so a job that has finished but not yet been collected by the smelting
      tick is overwritten by the new one. */
  function StartSmeltAsWritten(a: Account, input: Item, quantity: int, now: int, superSmelter: bool): (s: Step)
    ensures s.ok <==> !SmeltRefused(a, input, quantity, now)
    ensures s.ok ==> s.account.smelting.Some? && s.account.smelting.value.result == ProcessResult(input).value
  {
    if SmeltRefused(a, input, quantity, now) then Step(false, a)
    else
      var inv := Add(Add(a.inventory, input, -quantity), Coal, -(quantity * SmeltCoalPerOre));
      var finish := SmeltFinish(now, Qty(a.inventory, Smelter), superSmelter, quantity);
      Step(true, a.(inventory := inv, smelting := Some(SmeltJob(ProcessResult(input).value, quantity, finish))))
  }

  /** handleSmelt with a finished job delivered before the new one starts:
      the input and the coal leave the inventory, a job for the processed
      product starts and ends after now, and the output of a finished job is
      credited instead of being overwritten. */
  function StartSmelt(a: Account, input: Item, quantity: int, now: int, superSmelter: bool): (s: Step)
    ensures s.ok <==> !SmeltRefused(a, input, quantity, now)
    ensures !s.ok ==> s.account == a
    ensures s.ok ==>
              s.account.smelting ==
                Some(SmeltJob(ProcessResult(input).value, quantity,
                              SmeltFinish(now, Qty(a.inventory, Smelter), superSmelter, quantity)))
    ensures s.ok ==> s.account.smelting.value.finishTime > now as real
    ensures s.ok ==> (forall i :: Qty(s.account.inventory, i) ==
                        Qty(CollectSmelting(a).inventory, i)
                        - (if i == input then quantity else 0)
                        - (if i == Coal then quantity * SmeltCoalPerOre else 0))
    ensures s.ok ==> s.account == a.(inventory := s.account.inventory, smelting := s.account.smelting)
  {
    if SmeltRefused(a, input, quantity, now) then Step(false, a)
    else
      var collected := CollectSmelting(a);
      var inv := Add(Add(collected.inventory, input, -quantity), Coal, -(quantity * SmeltCoalPerOre));
      var finish := SmeltFinish(now, Qty(a.inventory, Smelter), superSmelter, quantity);
      Step(true, collected.(inventory := inv, smelting := Some(SmeltJob(ProcessResult(input).value, quantity, finish))))
  }

  /** A smelt that starts leaves no item count negative: the input and the
      coal were held, and collecting the old job only adds. */
  lemma StartSmeltKeepsStock(a: Account, input: Item, quantity: int, now: int, superSmelter: bool)
    requires Stocked(a.inventory) && (a.smelting.Some? ==> a.smelting.value.quantity > 0)
    ensures Stocked(StartSmelt(a, input, quantity, now, superSmelter).account.inventory)
  {
    var s := StartSmelt(a, input, quantity, now, superSmelter);
    if s.ok {
      forall i | i in s.account.inventory
        ensures s.account.inventory[i] >= 0
      {
        assert Qty(s.account.inventory, i) == s.account.inventory[i];
      }
    }
  }

  /** A job that has finished but has not been collected yet is lost when a
      new smelt starts as written: its product never reaches the inventory,
      while the corrected handler delivers it. */
  lemma SmeltAsWrittenLosesFinishedJob(a: Account, input: Item, quantity: int, now: int, superSmelter: bool)
    requires a.smelting.Some? && a.smelting.value.finishTime <= now as real && a.smelting.value.quantity > 0
    requires !SmeltRefused(a, input, quantity, now)
    requires a.smelting.value.result != input && a.smelting.value.result != Coal
    ensures var r := a.smelting.value.result;
            && StartSmeltAsWritten(a, input, quantity, now, superSmelter).ok
            && Qty(StartSmeltAsWritten(a, input, quantity, now, superSmelter).account.inventory, r) == Qty(a.inventory, r)
            && Qty(StartSmelt(a, input, quantity, now, superSmelter).account.inventory, r) == Qty(a.inventory, r) + a.smelting.value.quantity
  {
  }

  /** processFinishedSmelting for one account: the job's products are added
      and the job is cleared. */
  function CollectSmelting(a: Account): (b: Account)
    ensures b.smelting.None?
    ensures forall i :: (Qty(b.inventory, i) == Qty(a.inventory, i) +
                         (if a.smelting.Some? && i == a.smelting.value.result then a.smelting.value.quantity else 0))
    ensures b == a.(inventory := b.inventory, smelting := None)
  {
    if a.smelting.None? then a
    else a.(inventory := Add(a.inventory, a.smelting.value.result, a.smelting.value.quantity), smelting := None)
  }

  // ------------------------------------------------------------ power grid

  /** The grid place command: a building held in the inventory goes into
      slot 1..3, and a building already there returns to the inventory. */
  function PlaceBuilding(a: Account, slot: int, building: Item): (s: Step)
    requires |a.powerGrid.slots| == GridSlotCount
    ensures s.ok <==> 1 <= slot <= GridSlotCount && IsBuilding(building) && Qty(a.inventory, building) >= 1
    ensures !s.ok ==> s.account == a
    ensures s.ok ==> s.account.powerGrid.slots == a.powerGrid.slots[slot - 1 := Some(building)]
    ensures s.ok ==> (forall i :: Qty(s.account.inventory, i) ==
                        Qty(a.inventory, i) - (if i == building then 1 else 0) +
                        (if a.powerGrid.slots[slot - 1] == Some(i) then 1 else 0))
    ensures s.ok ==> s.account == a.(inventory := s.account.inventory, powerGrid := s.account.powerGrid)
    ensures s.ok ==> s.account.powerGrid.lastTick == a.powerGrid.lastTick
  {
    if !(1 <= slot <= GridSlotCount) || !IsBuilding(building) || Qty(a.inventory, building) < 1 then Step(false, a)
    else
      var k := slot - 1;
      var returned := if a.powerGrid.slots[k].Some? then Add(a.inventory, a.powerGrid.slots[k].value, 1) else a.inventory;
      Step(true, a.(inventory := Add(returned, building, -1),
                    powerGrid := a.powerGrid.(slots := a.powerGrid.slots[k := Some(building)])))
  }

  /** The grid remove command: the building in the slot returns to the
      inventory; an empty slot, or one outside 1..3, is reported empty. */
  function RemoveBuilding(a: Account, slot: int): (s: Step)
    requires |a.powerGrid.slots| == GridSlotCount
    ensures s.ok <==> 1 <= slot <= GridSlotCount && a.powerGrid.slots[slot - 1].Some?
    ensures !s.ok ==> s.account == a
    ensures s.ok ==> s.account.powerGrid.slots == a.powerGrid.slots[slot - 1 := None]
    ensures s.ok ==> Qty(s.account.inventory, a.powerGrid.slots[slot - 1].value) ==
                     Qty(a.inventory, a.powerGrid.slots[slot - 1].value) + 1
    ensures s.ok ==> forall i :: i != a.powerGrid.slots[slot - 1].value ==> Qty(s.account.inventory, i) == Qty(a.inventory, i)
  {
    if !(1 <= slot <= GridSlotCount) || a.powerGrid.slots[slot - 1].None? then Step(false, a)
    else
      var b := a.powerGrid.slots[slot - 1].value;
      Step(true, a.(inventory := Add(a.inventory, b, 1),
                    powerGrid := a.powerGrid.(slots := a.powerGrid.slots[slot - 1 := None])))
  }

  /** Placing a building and removing it again gives the same inventory back
      when the slot was empty. */
  lemma PlaceThenRemoveRestores(a: Account, slot: int, building: Item)
    requires |a.powerGrid.slots| == GridSlotCount
    requires PlaceBuilding(a, slot, building).ok && a.powerGrid.slots[slot - 1].None?
    ensures RemoveBuilding(PlaceBuilding(a, slot, building).account, slot).ok
    ensures forall i :: Qty(RemoveBuilding(PlaceBuilding(a, slot, building).account, slot).account.inventory, i) == Qty(a.inventory, i)
    ensures RemoveBuilding(PlaceBuilding(a, slot, building).account, slot).account.powerGrid == a.powerGrid
  {
    var placed := PlaceBuilding(a, slot, building).account;
    assert placed.powerGrid.slots[slot - 1 := None] == a.powerGrid.slots;
  }

  /** What the buildings in a grid add up to. */
  datatype GridOutput = GridOutput(generation: int, consumption: int, bits: int)

  /** The sums the grid view, the production tick, work and gather compute
      over the slots, as a reference definition. */
  function GridTotals(slots: seq<Option<Item>>): (o: GridOutput)
    ensures o.generation >= 0 && o.consumption >= 0 && o.bits >= 0
  {
    if slots == [] then GridOutput(0, 0, 0)
    else
      var rest := GridTotals(slots[..|slots| - 1]);
      var last := slots[|slots| - 1];
      if last.None? then rest
      else GridOutput(rest.generation + PowerGeneration(last.value),
                      rest.consumption + PowerConsumption(last.value),
                      rest.bits + BitsGeneration(last.value))
  }

  /** The forEach over the grid slots that sums generation, consumption and
      Bits output. */
  method SumGrid(slots: seq<Option<Item>>) returns (o: GridOutput)
    ensures o == GridTotals(slots)
  {
    var generation, consumption, bits := 0, 0, 0;
    var k := 0;
    while k < |slots|
      invariant 0 <= k <= |slots|
      invariant GridOutput(generation, consumption, bits) == GridTotals(slots[..k])
    {
      assert slots[..k + 1][..k] == slots[..k];
      if slots[k].Some? {
        generation := generation + PowerGeneration(slots[k].value);
        consumption := consumption + PowerConsumption(slots[k].value);
        bits := bits + BitsGeneration(slots[k].value);
      }
      k := k + 1;
    }
    assert slots[..k] == slots;
    o := GridOutput(generation, consumption, bits);
  }

  /** A grid is online when it generates at least the power it consumes. */
  predicate Online(o: GridOutput) { o.generation >= o.consumption }

  /** Without a Solar Panel nothing generates power, so a grid holding any
      consumer is offline. */
  lemma {:induction false} NoPanelNoPower(slots: seq<Option<Item>>)
    requires Some(SolarPanel) !in slots
    ensures GridTotals(slots).generation == 0
    ensures (Some(AutoMiner) in slots || Some(Tower) in slots) ==> !Online(GridTotals(slots))
  {
    if slots != [] {
      var init := slots[..|slots| - 1];
      assert forall x :: x in init ==> x in slots;
      NoPanelNoPower(init);
      if Some(AutoMiner) in slots || Some(Tower) in slots {
        if slots[|slots| - 1] != Some(AutoMiner) && slots[|slots| - 1] != Some(Tower) {
          assert Some(AutoMiner) in init || Some(Tower) in init by {
            assert slots == init + [slots[|slots| - 1]];
          }
        }
        ConsumptionPositive(slots);
      }
    }
  }

  lemma {:induction false} ConsumptionPositive(slots: seq<Option<Item>>)
    requires Some(AutoMiner) in slots || Some(Tower) in slots
    ensures GridTotals(slots).consumption > 0
  {
    var init := slots[..|slots| - 1];
    var last := slots[|slots| - 1];
    assert slots == init + [last];
    if last != Some(AutoMiner) && last != Some(Tower) {
      assert Some(AutoMiner) in init || Some(Tower) in init;
      ConsumptionPositive(init);
    }
  }

  // ------------------------------------------------------------------ merge

  /** Why handleAccountMerge refuses to combine two existing accounts. */
  datatype MergeConflict = CorruptBalance | BothSmelting

  /** The merged inventory: every count is the sum of the two. */
  method MergeInventories(kept: map<Item, int>, absorbed: map<Item, int>) returns (m: map<Item, int>)
    ensures forall i :: Qty(m, i) == Qty(kept, i) + Qty(absorbed, i)
  {
    m := kept;
    var todo := absorbed.Keys;
    ghost var done: set<Item> := {};
    while todo != {}
      invariant todo + done == absorbed.Keys && todo !! done
      invariant forall i :: Qty(m, i) == Qty(kept, i) + (if i in done then Qty(absorbed, i) else 0)
      decreases todo
    {
      var i :| i in todo;
      m := Add(m, i, absorbed[i]);
      todo := todo - {i};
      done := done + {i};
    }
  }

  /** The record handleAccountMerge writes over the Drednot account: summed
      balance and inventory, the later of each timer, the larger of each
      streak, one smelting job, both buff lists, and the Drednot account's
      traits, zeal, clan and grid. */
  function MergedAccount(drednot: Account, discord: Account, inventory: map<Item, int>,
                         discordId: string, drednotName: string): (m: Account)
    requires drednot.kind == Finite && discord.kind == Finite
    requires drednot.smelting.None? || discord.smelting.None?
    ensures m.id == drednot.id && m.kind == Finite
    ensures m.balance == drednot.balance + discord.balance
    ensures m.lastWork >= drednot.lastWork && m.lastWork >= discord.lastWork
    ensures m.lastWork == drednot.lastWork || m.lastWork == discord.lastWork
    ensures m.dailyStreak >= drednot.dailyStreak && m.dailyStreak >= discord.dailyStreak
    ensures m.hourlyStreak >= drednot.hourlyStreak && m.hourlyStreak >= discord.hourlyStreak
    ensures m.smelting == (if drednot.smelting.Some? then drednot.smelting else discord.smelting)
    ensures multiset(m.activeBuffs) == multiset(drednot.activeBuffs) + multiset(discord.activeBuffs)
    ensures m.traits == drednot.traits && m.zeal == drednot.zeal
    ensures m.clanId == drednot.clanId && m.powerGrid == drednot.powerGrid
    ensures m.discordId == Some(discordId) && m.drednotName == Some(drednotName)
  {
    drednot.(
      balance := drednot.balance + discord.balance,
      inventory := inventory,
      lastWork := Max(discord.lastWork, drednot.lastWork),
      lastGather := Max(discord.lastGather, drednot.lastGather),
      lastDaily := Max(discord.lastDaily, drednot.lastDaily),
      dailyStreak := Max(discord.dailyStreak, drednot.dailyStreak),
      lastHourly := Max(discord.lastHourly, drednot.lastHourly),
      hourlyStreak := Max(discord.hourlyStreak, drednot.hourlyStreak),
      lastSlots := Max(discord.lastSlots, drednot.lastSlots),
      smelting := if drednot.smelting.Some? then drednot.smelting else discord.smelting,
      activeBuffs := drednot.activeBuffs + discord.activeBuffs,
      discordId := Some(discordId),
      drednotName := Some(drednotName))
  }

  /** Merging two well-formed accounts with the summed inventory gives a
      well-formed account. */
  lemma MergedWellFormed(drednot: Account, discord: Account, inventory: map<Item, int>,
                         discordId: string, drednotName: string)
    requires WellFormed(drednot) && WellFormed(discord)
    requires drednot.kind == Finite && discord.kind == Finite
    requires drednot.smelting.None? || discord.smelting.None?
    requires forall i :: Qty(inventory, i) == Qty(drednot.inventory, i) + Qty(discord.inventory, i)
    ensures WellFormed(MergedAccount(drednot, discord, inventory, discordId, drednotName))
  {
    StockedByQty(drednot.inventory);
    StockedByQty(discord.inventory);
    StockedByQty(inventory);
  }

  /** The two checks that abort a merge of two existing accounts. */
  function MergeCheck(drednot: Account, discord: Account): (c: Option<MergeConflict>)
    ensures c.None? <==> drednot.kind == Finite && discord.kind == Finite && (drednot.smelting.None? || discord.smelting.None?)
  {
    if discord.kind != Finite || drednot.kind != Finite then Some(CorruptBalance)
    else if discord.smelting.Some? && drednot.smelting.Some? then Some(BothSmelting)
    else None
  }
}
