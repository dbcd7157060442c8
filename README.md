# Drednot economy bot: a verified model of the game rules

The bot runs an in-game economy for Drednot players, reached both from Discord and through an HTTP
bridge. Its currency is the Bit. This project models the rules of `index.js` against one sequential
in-memory store. The store is the class `Economy.Store` and holds:

- accounts, keyed by lower-cased name;
- the player market's listings;
- the Collector's crate listings;
- the clans, keyed by their five-character code;
- the end of the current clan war;
- the running global event.

Every MongoDB `updateOne`, `findOneAndUpdate` or `findOneAndDelete` becomes one atomic step of a
method, guarded by the same check. Every random draw (`Math.random`, `crypto.randomBytes`) becomes a
parameter.

Here is what each module covers.

- `Common` covers the JavaScript arithmetic the rules lean on, and the list edits Mongo performs:
  - `Math.floor`, `Math.ceil`, `Math.round`;
  - ASCII lower-casing;
  - `$pull` and removal at a position.
- `Catalog` holds the constant tables:
  - items, recipes, food buffs and buildings;
  - the gather table and the trait weights;
  - crates, the clan level costs and the clan-war rewards;
  - the vendors and the fallback prices.
- `Rewards` is the weighted draw shared by `rollNewTrait` and `openLootbox`, and `secureRandomFloat`.
- `Crates` opens the crates bought in the crate shop and totals their rewards.
- `Accounts` holds the account record and the rules that touch one account:
  - account creation and self-heal;
  - crafting, eating, smelting and collecting;
  - placing and removing grid buildings, and grid output;
  - the merge of a Discord account into a Drednot account.
- `Modifiers` resolves the bonuses of `/work` and `/gather`:
  - the clan tiers, traits, zeal, tools and buffs;
  - the cooldowns and earnings;
  - the gather haul;
  - the timers view;
  - the slots max-bet cap and the market tax.
- `Actions` is what `/work` and `/gather` do to an account.
- `Streaks` holds the hourly and daily claims.
- `Market` covers the market engine:
  - the listing-id allocator;
  - listing lookups;
  - the trimmed-mean player price and the vendor price;
  - the price-bounds sweep.
- `Clans` holds the clan records, the roster invariant, level-ups and the clan-war standings.
- `Ticks` holds the background ticks as functions on one record:
  - zeal decay, smelting completion and grid output;
  - war prizes and the war-point reset;
  - market refunds.
- `Economy` holds the store and its handlers and ticks as methods. Their contracts preserve the
  store invariant `Valid()`:
  - every account is well formed (inventories never negative, three grid slots, valid traits);
  - clan rosters and account `clanId`s agree;
  - listing ids are positive and distinct;
  - crate listings are in stock, one per crate.
- `Pagination` is the paged listings (`getPaginatedResponse`).
- `Scenarios` runs handlers in sequence, for example selling and then cancelling.

## Modelling choices

- **Time and nulls.** Timestamps are integers in milliseconds. The source's `null` timestamp is 0,
  which matches the source's truthiness tests (`account.lastWork && …`).
- **Numbers.**
  - Percentages and prices are `real`: zeal's 2.5 per level, tool bonuses of 0.10, and listing
    prices parsed with `parseFloat`.
  - Amounts of Bits and items are `int`.
  - JavaScript floating point is not modelled.
  - A balance carries its kind (`NumberKind`): a finite number, +Infinity, -Infinity or NaN.
    Arithmetic leaves a non-finite kind as it is.
  - Handlers that test `isFinite` (pay, market buy, merge) refuse every non-finite kind. The
    others (clan donate, crate buy) only compare. Their database filter `balance: { $gte: cost }`
    lets +Infinity through and stops -Infinity and NaN (`Accounts.Covers`).
- **Random draws.**
  - Secure draws are 32-bit unsigned values (`U32`).
  - `Math.random()` draws are reals in [0, 1).
- **Looking accounts up.** An id stored in a record is looked up as `getAccount` and
  `modifyInventory` look it up (`Accounts.Holder`): by key, or by a linked Discord id. The only
  such id in the model is a listing's seller, used when a sale pays the seller and when the price
  correction refunds one. It matters after a merge, when a deleted Discord account's listings still
  name its id. A handler's own arguments are keys already looked up.
- **Handlers run on the corrected members.** Each defect under "## Findings" has an as-written
  member, but the store's handlers use the corrected one:
  - every secure draw divides by 2^32 (`Rewards.SecureRandomFloat`);
  - `Actions.Work` pays its base through `Modifiers.WorkBase`;
  - `Actions.Gather` draws its quantities through `Modifiers.EntryFind`;
  - `Economy.Store.CrateBuy` opens crates through `Rewards.OpenLootbox`;
  - `Economy.Store.Smelt` applies `Accounts.StartSmelt`, and `Economy.Store.Eat` applies `Accounts.Eat`;
  - `Economy.Store.ClanAcceptApplicant` refuses an applicant already in a clan;
  - `Economy.Store.Create` and `Economy.Store.Merge` take traits of level 1 to 5 (`Accounts.TraitsValid`),
    which `Rewards.RollNewTrait` always gives;
  - `Modifiers.Timers` shows the cooldowns `/work` and `/gather` apply.
- **Three behaviours are modelled as the code has them:**
  - Eating a food whose buff is still running extends that buff by the buff's duration rather than
    restarting it.
  - The Collector's rotation removes one random crate listing rather than clearing the shop.
  - The grid tick stamps `lastTick` on every account that has a grid. It pays Bits only when net
    power is not negative and the grid produces Bits.

## Model

| member | source | states |
|---|---|---|
| Common.Lower | index.js:181 | keeps the length, lower-cases the ASCII capitals A-Z and keeps every other character; JavaScript's `toLowerCase` also folds other capitals (see Left out) |
| Common.Pull | index.js:269 | `$pull` removes every copy of the value and keeps everything else |
| Catalog.CrateContents | index.js:141-147 | every crate has at least one entry, and each entry's amount range satisfies 1 <= min <= max |
| Catalog.NextLevelCost | index.js:155-166 | the next level's cost exists exactly below level 10 and is the `CLAN_LEVELS` cost of that level |
| Catalog.FallbackPrice | index.js:135 | each fallback price range satisfies 1 <= min <= max |
| Catalog.FoodBuffOf | index.js:114 | every food buff lasts a positive time; Raw Meat has none |
| Catalog.VendorsSound | index.js:134 | every vendor sells under an `NPC_` id and has stock; each stock entry has a positive quantity |
| Rewards.SecureRandomFloatAsWritten | index.js:178 | `u32 / 0xffffffff` lies in [0, 1] and equals 1.0 exactly for the largest draw |
| Rewards.SecureRandomFloat | index.js:178 | the corrected draw lies in [0, 1) and is 0 only for the zero draw |
| Rewards.UniformInt | index.js:249 | `floor(u * (max - min + 1)) + min` lies in [min, max] for u in [0, 1) |
| Rewards.WalkPicksSpan | index.js:177 | the `random -= weight` walk picks the entry whose cumulative weight span holds the draw; it falls off the end exactly when the draw reaches the total weight |
| Rewards.SpanUnique | index.js:249 | at most one entry's span holds a draw, so the picked entry is the first and only one |
| Rewards.WeightedIndex | index.js:249 | the weighted loop computes the walk's pick: the index whose span holds the draw, or none past the total |
| Rewards.RollNewTraitAsWritten | index.js:177 | as written, the largest kind draw produces no trait; a level draw of 0 gives level 0 and otherwise the level is in [0, 5] |
| Rewards.RollNewTrait | index.js:177 | with the corrected draw a trait always results; its kind's weight span holds the scaled draw and its level is in [1, 5] |
| Rewards.PickPoint | index.js:249 | the scaled draw lies in [0, total weight) |
| Rewards.LootboxPrize | index.js:249 | a crate prize is at least one unit |
| Rewards.PrizeFromTable | index.js:249 | a crate prize comes from the entry whose weight span holds the scaled draw, with an amount within that entry's range |
| Rewards.CratesWeighed | index.js:141-147 | every crate's total weight is positive |
| Rewards.OpenLootbox | index.js:249 | the corrected weighted loop returns the table prize of `LootboxPrize` |
| Rewards.OpenLootboxAsWritten | index.js:249 | as written, the largest amount draw gives one more than the entry's maximum; smaller draws stay within it |
| Crates.CrateBits | index.js:920-925 | the Bits that a run of opened crates yields is never negative |
| Crates.CrateItems | index.js:920-931 | the items that a run of opened crates yields are never negative in any count |
| Crates.OpenCrates | index.js:918-931 | the opening loop totals exactly the Bits and items of every crate opened |
| Accounts.Add | index.js:215 | `modifyInventory` changes the count of one item by n and leaves every other count alone |
| Accounts.Holder | index.js:179 | the `$or` lookup: a lower-cased key wins; otherwise the one account linked to the id by `discordId`, and none when no account or several are linked |
| Accounts.HolderKept | index.js:179 | an id resolves to the same account after any rewrite that keeps the keys and linked Discord ids |
| Accounts.NewAccount | index.js:180-213 | a new account has id = lower-cased name, 30 Bits, empty inventory, buffs, smelting and clan, and the two rolled traits; it records the Discord or Drednot name by account type and is well formed |
| Accounts.SelfHeal | index.js:228-247 | a complete record is unchanged; a missing field takes `createNewAccount`'s default and a present one is kept; a nameless account is named after its key; nothing else changes; the result is complete |
| Accounts.CheckRecipe | index.js:288 | the ingredient loop succeeds exactly when every ingredient is held times the quantity, and yields the inventory minus all ingredients |
| Accounts.Craft | index.js:288 | crafting succeeds iff the quantity is positive, the item has a recipe and every ingredient is held; it then removes the ingredients and adds the product, otherwise nothing changes |
| Accounts.CraftKeepsStock | index.js:288 | a successful craft leaves no item count negative |
| Accounts.Unexpired | index.js:828 | keeps exactly the buffs not yet expired |
| Accounts.FindMeal | index.js:828 | `findIndex`: the first buff from that food, or none when no buff comes from it |
| Accounts.EatAsWritten | index.js:828 | as written, eating a food without a buff (Raw Meat) fails after consuming one unit |
| Accounts.LiveMeals | index.js:828 | the count of running buffs from a food is 0 exactly when none of the list's buffs is one |
| Accounts.EatenBuffs | index.js:828 | every other running buff is kept and no other buff appears; a running buff from the food is extended by the duration, or with none running a new one runs for the duration from now; the food never ends up with a second running buff |
| Accounts.MealBuffLasts | index.js:828 | after eating, some buff from that food lasts at least the buff's duration from now |
| Accounts.Eat | index.js:828 | eating succeeds iff the item is a food with a buff and is held; exactly one unit is eaten; the new buff list is `EatenBuffs` of the old one, so a buff from the food lasts at least its duration; on failure nothing changes |
| Accounts.SmeltTimePerItem | index.js:289 | the time per unit is positive, at most 30 s, and halved by the Super Smelter event |
| Accounts.SmeltFinish | index.js:289 | a started job always finishes after now |
| Accounts.StartSmeltAsWritten | index.js:289 | the handler's guards: success iff none of the refusals apply, and the job then produces the processed item |
| Accounts.StartSmelt | index.js:289 | a smelt starts iff none of the refusals apply; it then takes the input and one coal per unit and starts the job; a finished, uncollected job is delivered first; on refusal nothing changes |
| Accounts.StartSmeltKeepsStock | index.js:289 | starting a smelt leaves no item count negative |
| Accounts.SmeltAsWrittenLosesFinishedJob | index.js:289 | as written, a finished job not yet collected is overwritten and its product never arrives; the corrected handler delivers it |
| Accounts.CollectSmelting | index.js:943 | the job's product is added to the inventory and the job is cleared |
| Accounts.PlaceBuilding | index.js:1076-1100 | placing succeeds iff the slot is 1..3, the item is a building and one is held; it moves the building into the slot, and a building already there returns to the inventory |
| Accounts.RemoveBuilding | index.js:1102-1117 | removing succeeds iff the slot holds a building; it empties the slot and returns the building to the inventory |
| Accounts.PlaceThenRemoveRestores | index.js:1076-1117 | placing into an empty slot and then removing restores both the inventory and the grid |
| Accounts.GridTotals | index.js:1313-1325 | generation, consumption and Bits output of a grid are never negative |
| Accounts.SumGrid | index.js:1318-1325 | the loop over the slots computes the grid totals |
| Accounts.NoPanelNoPower | index.js:1318-1328 | without a Solar Panel a grid generates nothing, and one with an Auto-Miner or Tower is offline |
| Accounts.MergeInventories | index.js:803-804 | every merged item count is the sum of the two accounts' counts |
| Accounts.MergedAccount | index.js:803-804 | the merged record sums the balances, takes the later work time and the longer streaks, keeps one smelting job, joins the buffs, and records both names |
| Accounts.MergedWellFormed | index.js:803-805 | merging two well-formed accounts yields a well-formed account |
| Accounts.MergeCheck | index.js:801-802 | a merge is refused exactly on a non-finite balance or two smelting jobs |
| Modifiers.ClanWorkBonus | index.js:303 | the clan work bonus is between 0 and 15 percent, and 0 exactly below level 2 |
| Modifiers.MomentumChance | index.js:304 | the momentum chance is between 0 and 5 percent, and 0 exactly below level 3 |
| Modifiers.ClanAbundance | index.js:460 | the clan abundance is between 0 and 5, and 0 exactly below level 6 |
| Modifiers.MaxBet | index.js:723-730 | the slots cap is 1500, doubled exactly for a clan of level 5 or more |
| Modifiers.TaxRate | index.js:887-888 | the market tax is at most 5 percent and 0 exactly during Market Madness |
| Modifiers.LevelSumBounds | index.js:309-311 | summed trait levels are between 0 and 5 per trait slot |
| Modifiers.ToolsOver | index.js:324-335 | tool bonuses are never negative for a stocked inventory |
| Modifiers.SumTools | index.js:324-335 | the inventory loop computes the flat and percent tool bonuses |
| Modifiers.WorkBuffsOver | index.js:337-346 | the buff cut is never negative, and double-or-nothing is on iff some live buff grants it |
| Modifiers.Cooldown | index.js:321 | the cooldown is at least 1000 ms, equals the reduced value or the floor, and never exceeds the base |
| Modifiers.CooldownMonotone | index.js:321 | more prodigy or a larger buff cut never lengthens a cooldown |
| Modifiers.SumWorkTraits | index.js:308-319 | the trait loop computes the wealth, scavenger and prodigy sums and the zeal percent |
| Modifiers.SumWorkBuffs | index.js:337-346 | the buff loop computes the work buff effects |
| Modifiers.ResolveWork | index.js:295-346 | the accumulators of `/work` compute its modifiers |
| Modifiers.WorkCooldown | index.js:321-348 | the work cooldown is at least 1000 ms and at most 60 s |
| Modifiers.WorkCooldownBounds | index.js:321-348 | for any account with valid traits the work cooldown lies in [1000 ms, 60 s] |
| Modifiers.WorkBase | index.js:353 | with the corrected draw the base pay lies in [5, 35] |
| Modifiers.WorkBaseAsWrittenReachesMaxPlusOne | index.js:353 | as written, the largest draw pays a base of 36 |
| Modifiers.PreEarnings | index.js:355-357 | with non-negative bonuses the pay is at least base plus the flat tool bonus |
| Modifiers.DoubleOrNothingOutcomes | index.js:365-373 | double-or-nothing doubles the pay on a win and zeroes it on a loss |
| Modifiers.BitRushDoublesPayout | index.js:376-379 | Bit Rush doubles the pay |
| Modifiers.EarningsNonNegative | index.js:353-399 | with non-negative bonuses the pay is never negative |
| Modifiers.ResolveGather | index.js:449-482 | the accumulators of `/gather` compute its modifiers |
| Modifiers.SumGatherTraits | index.js:466-472 | the trait loops compute the prodigy and surveyor level sums and the zeal abundance |
| Modifiers.SumGatherCut | index.js:478-480 | the buff loop computes the cooldown cut of the live buffs |
| Modifiers.GatherCooldown | index.js:477-482 | the gather cooldown is at least 1000 ms and at most 3 min |
| Modifiers.GatherChance | index.js:494-496 | without Surging Resources, and except for the Trait Reforger during Golden Hour, the chance is the table's |
| Modifiers.BasketBonus | index.js:501 | the basket bonus is at most the number of basket draws |
| Modifiers.EntryFind | index.js:498-504 | an entry is found iff its draw is below the chance; the amount is then between min + abundance and max + baskets + abundance |
| Modifiers.EntryFindAsWritten | index.js:498-504 | as written, an entry is found iff its draw divided by 0xffffffff is below the chance; the amount then lies between min + abundance and max + 1 + baskets + abundance |
| Modifiers.BasketDrawAgrees | index.js:501 | a basket draw is below one half under the written division exactly when it is under the corrected one |
| Modifiers.EntryFindAsWrittenReachesMaxPlusOne | index.js:499 | as written, a hit with the quantity draw 0xffffffff yields max + 1 (plus baskets and abundance), more than `EntryFind` ever yields |
| Modifiers.Haul | index.js:492-514 | the haul has at most as many finds as entries, and at most max-types |
| Modifiers.HaulFound | index.js:492-514 | every find in the haul is a find of some table entry on its draws |
| Modifiers.CountBasket | index.js:501 | the basket loop counts the basket bonus |
| Modifiers.TryEntry | index.js:494-504 | one iteration of the gather loop computes that entry's find |
| Modifiers.GatherHaul | index.js:491-514 | the gather loop, with its early exit at max-types, computes the haul |
| Modifiers.TimeLeft | index.js:290 | a timer shows iff the action is on cooldown, and then a positive time of at most the cooldown |
| Modifiers.TimersDisagreeWithWork | index.js:290 | as written, the timers view gives two level-5 prodigies a 33.75 s work cooldown while `/work` applies 30 s |
| Modifiers.Timers | index.js:290 | each timer shows iff that action is still on its cooldown, using the cooldowns `/work` and `/gather` apply |
| Actions.ZealAfter | index.js:425-433 | a Zealot gains one stack stamped now; others keep their zeal |
| Actions.NoPanelNoSurge | index.js:393 | without a Solar Panel the Tower never surges |
| Actions.ScavengerLoot | index.js:416-423 | scavenger loot is found iff the chance is positive and the draw is below it; it is then 1 to 3 Wood or Stone |
| Actions.DropRush | index.js:408 | the Addict's rush buffs are removed and every other buff kept |
| Actions.Worked | index.js:408-433 | work adds the pay and the loot, drops the rush buffs, restarts the timer unless reset, and advances zeal; nothing else changes |
| Actions.WorkedWellFormed | index.js:408-433 | work keeps an account well formed |
| Actions.WorkRestartsTimer | index.js:351 | after work without a reset, a new attempt inside the cooldown is refused |
| Actions.WorkPayNonNegative | index.js:353-399 | with a non-negative bonus, work pay is never negative |
| Actions.Shuffled | index.js:491 | any shuffle of the gather table has valid ranges and only table items |
| Actions.HaulFactor | index.js:523-551 | the haul is multiplied by 1, 2 or 4; by 1 when nothing was found; a tower surge makes the factor 2 or 4, no surge 1 or 2; without the Surveyor trait it is 2 exactly on a surge |
| Actions.CreditHaul | index.js:504-548 | every item count rises by the factor times the haul's amount of that item |
| Actions.Pruned | index.js:478-479 | expired buffs are dropped and nothing else changes |
| Actions.Gathered | index.js:516-587 | gathering adds the factored haul, restarts the timer unless reset, and advances zeal; nothing else changes |
| Actions.HaulFromTable | index.js:491-514 | every find is a table item with at least the abundance |
| Actions.GatheredWellFormed | index.js:516-587 | gathering keeps an account well formed |
| Actions.GatherOnlyTableItems | index.js:491-514 | gathering never changes the count of an item outside the gather table |
| Actions.Work | index.js:292-445 | `/work` runs iff the momentum draw resets or the cooldown is over; it then applies `Worked`, otherwise nothing changes; the account stays well formed |
| Actions.GatherFind | index.js:487-514 | the haul respects max-types, holds table items only and gives each at least the abundance |
| Actions.Gather | index.js:447-598 | `/gather` runs iff the momentum draw resets or the cooldown is over |
| Actions.GatherOutcome | index.js:447-598 | a refused gather only drops expired buffs; a successful one applies `Gathered` with the haul and its factor |
| Actions.GatherKeepsAccount | index.js:447-598 | `/gather` keeps the account's id and clan, and keeps it well formed |
| Streaks.ClaimReward | index.js:599-685 | a claim is refused exactly inside the cooldown, with a positive wait; a granted reward is base + (streak - 1) x bonus; the streak grows by one or restarts at 1 |
| Streaks.ClaimContinues | index.js:612-613 | a claim inside the break window continues the streak and pays its bonus |
| Streaks.ClaimResets | index.js:614-619 | a first claim or one after the break window restarts at streak 1 and pays the base |
| Streaks.RewardAtLeastBase | index.js:621-622 | a granted reward is never below the base |
| Streaks.PunctualRun | index.js:621-628 | n punctual claims give streak n and pay n x base + n(n-1)/2 x bonus |
| Market.InsertId | index.js:226 | insertion keeps ids ascending and adds exactly one id |
| Market.SortIds | index.js:226 | the ids are sorted ascending, a permutation of the stored ones |
| Market.UniqueAscending | index.js:226 | distinct ascending ids are strictly ascending |
| Market.NextListingId | index.js:226 | the allocator returns an id >= 1; for distinct positive ids, the smallest one not in use |
| Market.NoGap | index.js:226 | when the ids are exactly 1..n the next id is n + 1 |
| Market.GapFound | index.js:226 | the first position where the sorted ids skip a value gives the smallest unused id |
| Market.FindListing | index.js:871 | finds the first listing with that id, or reports none |
| Market.FindOwnListing | index.js:896 | finds a listing with that id and seller, or reports none |
| Market.FoundIsOnly | index.js:871 | with distinct ids at most one listing has a given id |
| Market.OwnListingFound | index.js:896 | a seller's listing is found by its id |
| Market.PlayerPrices | index.js:820 | the prices of the non-`NPC_` listings of the item, and only those |
| Market.SortPrices | index.js:820 | prices sorted ascending, a permutation of the input |
| Market.TrimCount | index.js:822 | 10 percent of the count, floored; twice it is less than the count |
| Market.TrimmedMean | index.js:821-826 | none for no prices; the mean below 10 prices, otherwise the mean without the top and bottom tenth |
| Market.AveragePlayerPrice | index.js:819-827 | there is an average iff some player listing exists |
| Market.AverageWithin | index.js:819-827 | the average lies within any bounds all player prices of the item lie within |
| Market.TrimmedWithin | index.js:821-826 | the trimmed mean lies within any bounds its prices lie within |
| Market.VendorPrice | index.js:941 | the vendor uses the fixed price if set, otherwise ceil(avg x 1.15), otherwise a price in the fallback range |
| Market.CountBy | index.js:941 | a seller's listing count is at most the market size |
| Market.Allowed | index.js:969-974 | the kept listings all have prices in [1, 10000] |
| Market.Disallowed | index.js:969-974 | the cancelled listings all have prices outside [1, 10000] |
| Market.SweepSplits | index.js:967-1005 | kept and cancelled listings together are a permutation of the market |
| Market.SweepIdle | index.js:976-979 | a market whose prices are all allowed is left untouched |
| Clans.NewClan | index.js:268 | a new clan is sound, has the founder as sole member and owner, level 1, empty vault, open recruitment, and no applicants or invites |
| Clans.Upgrade | index.js:276 | an upgrade succeeds iff below level 10 with the next cost in the vault; it then raises the level by one and spends the cost |
| Clans.UpgradeKeepsSound | index.js:276 | an upgrade keeps a clan sound |
| Clans.ClimbCost | index.js:155-166 | climbing n levels succeeds iff the vault holds the summed costs; it then spends exactly that sum |
| Clans.PullEverywhere | index.js:279 | the player is removed from every clan's invites and applications; nothing else changes |
| Clans.OneRoster | index.js:277 | while rosters agree with accounts, a player is on at most one roster |
| Clans.Enrol | index.js:277 | adding a clanless player to a roster and setting their clan keeps rosters in agreement |
| Clans.Founded | index.js:268 | founding a clan with its creator keeps rosters in agreement |
| Clans.Dismiss | index.js:269-270 | removing a member from roster and account keeps rosters in agreement |
| Clans.Disbanded | index.js:271 | disbanding clears the clan of its members only |
| Clans.DisbandAgrees | index.js:271 | disbanding keeps rosters in agreement |
| Clans.AcceptApplicantAsWritten | index.js:279 | as written, a five-character name is read as a clan code, so the owner is refused; otherwise the owner's accept adds any applicant and sets their clan, whatever clan they are in |
| Clans.AcceptAsWrittenSplitsRoster | index.js:279 | as written, accepting an applicant (named "rovers", not five characters) who joined another clan leaves them on two rosters |
| Clans.Disagree | index.js:279 | a roster that lists an account whose clan field names another clan breaks the roster invariant |
| Clans.Podium | index.js:945 | the war standings are at most three distinct clans with points, best first, and no clan left out beats one of them |
| Clans.BestExists | index.js:945 | a non-empty set of clans has a clan with the most war points |
| Clans.GrantAll | index.js:945 | the reward loop adds each reward item's quantity |
| Clans.WarPoint | index.js:437-442 | a clan gains one war point exactly when it is the actor's clan and the war is running |
| Ticks.ZealDecayed | index.js:946-966 | positive stacks of an account idle past the 10-minute window drop to zero; otherwise the account is unchanged |
| Ticks.NoStacksNoZeal | index.js:313-318 | zero stacks give no zeal pay bonus or abundance |
| Ticks.IdleZealDecays | index.js:946-966 | after the decay tick an idle account gets no zeal bonus |
| Ticks.SmeltCollected | index.js:943 | a due job is delivered and cleared; a job still running stays |
| Ticks.GridTicked | index.js:1313-1345 | the tick stamps now; an online grid earns its Bits output, an offline one nothing |
| Ticks.NoMinerNoBits | index.js:1318-1323 | a grid without an Auto-Miner produces no Bits |
| Ticks.NoPanelNoIncome | index.js:1318-1328 | a grid without a Solar Panel never earns |
| Ticks.RankOf | index.js:945 | a clan's place is its first position in the standings, or 0 outside them |
| Ticks.WarPrize | index.js:945 | a member receives exactly the reward items of its clan's place |
| Ticks.PrizeByRank | index.js:167-171 | outside the standings nothing is granted; the winner's members receive 5 Trait Reforgers and 3 Crystal Crates |
| Ticks.WarReset | index.js:945 | every clan's war points drop to 0 and nothing else changes |
| Ticks.ResetPodiumEmpty | index.js:945 | after the reset the standings are empty |
| Ticks.Refunded | index.js:983-988 | each account gets back every unit of the cancelled listings whose seller id resolves to it (by key or linked Discord id); only inventories change |
| Ticks.SweepUnits | index.js:967-1005 | each account's listed units split between kept and cancelled listings |
| Ticks.CorrectionConserves | index.js:967-1005 | for each account and item, held units plus units listed under ids resolving to it are the same before and after the sweep, so a merged account recovers its Discord listings |
| Economy.Proceeds | index.js:887-889 | the seller's proceeds are between 0 and the cost, and the whole cost during Market Madness |
| Economy.Taxed | index.js:889 | the taxed amount lies between 0 and the cost, and is the whole cost at a zero rate |
| Economy.Settle | index.js:876-891 | the buyer pays round(qty x price) and gains the items; the account the seller id resolves to gains the taxed proceeds, even when that is the buyer; nothing else changes |
| Economy.SaleBurnsTax | index.js:876-891 | a sale to another account removes exactly the tax from the buyer's and the resolved seller's balances; none during Market Madness |
| Economy.SettleKeepsValid | index.js:876-891 | settling keeps accounts well formed and rosters agreeing |
| Economy.FindCrate | index.js:906 | finds the first crate listing of the crate with enough stock, or none |
| Economy.RefundAll | index.js:983-988 | the refund loop, resolving each seller id on the current accounts, computes `Refunded` |
| Economy.KeptListingsValid | index.js:967-1005 | the kept listings keep distinct positive ids and positive quantities |
| Economy.NextEvent | index.js:944 | a running event stays; otherwise one starts iff the draw is below 15 percent, the chosen kind, ending after its duration |
| Economy.VendorOffer | index.js:941 | a vendor lists iff under its cap of 3 and the chance draw succeeds; the offer is a stock entry at the vendor price |
| Economy.Unlisted | index.js:942 | the crates not listed, and only those |
| Economy.CrateDelisted | index.js:942 | the rotation removes the chosen listing and keeps the shop valid |
| Economy.CrateRestocked | index.js:942 | a restock appends an unlisted crate in quantity 1..5 at its list price |
| Economy.NextCrates | index.js:942 | with a 25 percent draw one listing goes; otherwise an unlisted crate is added below 5 listings; the shop stays valid and at most 5 long |
| Economy.Store.Pay | index.js:779-791 | payment succeeds iff the floored amount is positive, the accounts differ and the sender is finite and can pay; it moves exactly that amount and keeps the sum of the two balances; on failure nothing changes |
| Economy.Store.Craft | index.js:288 | the store applies `Accounts.Craft` to the caller |
| Economy.Store.Smelt | index.js:289 | the store applies `Accounts.StartSmelt`, halved during Super Smelter |
| Economy.Store.Eat | index.js:828 | the store applies `Accounts.Eat` |
| Economy.Store.PlaceBuilding | index.js:1076-1100 | the store applies `Accounts.PlaceBuilding` |
| Economy.Store.RemoveBuilding | index.js:1102-1117 | the store applies `Accounts.RemoveBuilding` |
| Economy.Store.Hourly | index.js:599-641 | the hourly claim pays the streak reward and stamps the claim; a refused claim changes nothing |
| Economy.Store.Daily | index.js:643-685 | the daily claim pays the streak reward and stamps the claim; a refused claim changes nothing |
| Economy.Store.Work | index.js:292-445 | the store applies `Actions.Work`, and a successful work scores a war point |
| Economy.Store.Gather | index.js:447-597 | the store applies `Actions.Gather`, and a successful gather scores a war point |
| Economy.Store.ScoreWarPoint | index.js:437-442 | the actor's clan gains one war point while a war runs, by `Clans.WarPoint`; accounts are untouched |
| Economy.Store.ClanCreate | index.js:268 | creation succeeds iff the player is clanless and the name is 3..24 characters and no clan has it, ignoring ASCII case (see Left out); it files the new clan under the fresh code and sets the founder's clan; on refusal nothing changes |
| Economy.Store.ClanLeave | index.js:269 | leaving succeeds iff the account is in an existing clan it does not own; it is pulled from the roster and may not join for an hour; an owner changes nothing; a stale clan field is cleared |
| Economy.Store.ClanKick | index.js:270 | only the owner kicks another member of the clan, who is pulled and gets the join cooldown |
| Economy.Store.ClanDisband | index.js:271 | only the owner disbands; the clan is deleted and its members left clanless |
| Economy.Store.ClanRecruit | index.js:274 | only the owner sets the recruitment mode to open or closed |
| Economy.Store.ClanDonate | index.js:275 | donation succeeds iff the account names a clan, the amount is positive and the balance covers it: finite and at least the amount, or +Infinity; the balance drops by the amount and the vault rises by it; a clan that no longer exists receives nothing |
| Economy.Store.ClanUpgrade | index.js:276 | only the owner upgrades, by `Clans.Upgrade` |
| Economy.Store.ClanJoin | index.js:277 | join iff clanless, off cooldown, the clan exists and is not full; an open clan admits, a closed one records an application |
| Economy.Store.ClanInvite | index.js:278 | only the owner of a non-full clan invites a clanless, not yet invited player |
| Economy.Store.ClanAcceptInvite | index.js:279 | for a five-character identifier, read as a clan code, an invited clanless player joins a non-full clan and is pulled from all other invites and applications |
| Economy.Store.ClanAcceptApplicant | index.js:279 | the owner's accept refuses a five-character name and an applicant already in a clan, and otherwise is the as-written accept |
| Economy.Store.Admit | index.js:279 | admission adds the player to the roster, sets their clan and clears their pending entries everywhere |
| Economy.Store.ClanDecline | index.js:280 | a clanless player removes their invite or application |
| Economy.Store.Create | index.js:799 | a new clanless account is filed and nothing else changes |
| Economy.Store.Absorb | index.js:805-806 | the merged account replaces the kept one and the absorbed account is deleted |
| Economy.Store.Merge | index.js:792-818 | a missing Drednot account is created with the Discord link; a missing Discord account is just linked; otherwise the merge sums inventories, removes the Discord account, or aborts without change |
| Economy.Store.MarketSell | index.js:849-869 | a sale is listed iff the price is in [1, 10000], the quantity is positive and held; the items leave the inventory and the listing gets the smallest free id |
| Economy.Store.MarketBuy | index.js:870-894 | an unknown id changes nothing; otherwise the outcome of `BuyAt` |
| Economy.Store.BuyAt | index.js:871-894 | the listing is removed; self-purchase, a non-finite or short balance re-inserts it unchanged; otherwise `Settle` |
| Economy.Store.SettleSale | index.js:884-891 | the accounts become `Settle` of the sale |
| Economy.Store.MarketCancel | index.js:895-900 | only the seller cancels a listing; it is removed and its items return |
| Economy.Store.CrateBuy | index.js:901-936 | buying crates fails on a non-positive amount or no listing with stock; otherwise the outcome of `BuyFrom` |
| Economy.Store.BuyFrom | index.js:906-936 | the purchase goes through iff the balance covers the total price: finite and at least the price, or +Infinity; stock is refunded when it does not; otherwise the stock drops (the listing goes at 0), the price is paid and the crates' rewards are granted |
| Economy.Store.Purchase | index.js:906-933 | an affordable purchase takes the crates off the listing, charges the total price and grants the crates' Bits and items; the market, clans, war and event stay as they were |
| Economy.Store.TakeCrates | index.js:906 | the crate listing's stock drops by the amount, and a listing left at zero is removed |
| Economy.Store.OpenAndGrant | index.js:918-933 | the buyer pays the cost and receives the crates' Bits and items |
| Economy.Store.ZealDecayTick | index.js:946-966 | every account decays by `Ticks.ZealDecayed` |
| Economy.Store.SmeltingTick | index.js:943 | every account collects by `Ticks.SmeltCollected` |
| Economy.Store.GridTick | index.js:1304-1356 | every account ticks by `Ticks.GridTicked` |
| Economy.Store.WarTick | index.js:945 | with no war one starts; a running war is left; an ended war pays the top three, resets points and restarts |
| Economy.Store.EventTick | index.js:944 | the event becomes `NextEvent` and nothing else changes |
| Economy.Store.VendorTick | index.js:941 | a vendor offer is listed under the smallest free id, keeping every seller's count under the cap |
| Economy.Store.LootboxTick | index.js:942 | the crate shop becomes `NextCrates` and nothing else changes |
| Economy.Store.PriceCorrection | index.js:967-1005 | out-of-range listings are removed and their items go to the accounts their seller ids resolve to (`Refunded`) |
| Pagination.PageCount | index.js:227 | the fewest pages of 10 that hold the lines |
| Pagination.Clamp | index.js:227 | the page is clamped into [0, pages - 1]; a page in range is kept |
| Pagination.Window | index.js:227 | a page shows at most 10 lines, the lines from page x 10 on |
| Pagination.ClampedPageNotEmpty | index.js:227 | a non-empty listing never shows an empty page |
| Pagination.Pager.Show | index.js:227 | a new call or listing restarts on page 0; navigation moves and clamps the page; the view reflects the session |
| Scenarios.SellThenCancel | index.js:849-900 | selling and then cancelling restores the seller's inventory and the market |

## Left out

- Discord, Express and MongoDB plumbing is not modelled: commands, embeds, buttons, DMs, channel
  posts, the HTTP route and its API key. These are input and output.
- The slash-command and prefix-command dispatchers are not modelled. The grid place and remove
  branches inside them are modelled through `Accounts.PlaceBuilding` and `Accounts.RemoveBuilding`.
- The `traits reroll` branch of the slash-command dispatcher is not modelled. `rollNewTrait`, which
  it calls, is.
- Concurrency is not modelled. Each handler and tick is one atomic step on the store, so races
  between concurrent commands are outside the model. That includes the duplicate-key retry of the
  vendor tick and two sales claiming the same listing id.
- The `setInterval` timers are not modelled. Each tick is a transition called on demand with `now`
  as a parameter.
- Randomness sources are not modelled. `Math.random` and `crypto.randomBytes` become parameters:
  - `shuffleArray` and the gather table's random sort become a given order, proved to be a
    permutation of the table;
  - `generateClanCode` becomes a given code not yet in use.
- Floating point is not modelled. Prices and percentages are exact `real`s, and `NaN` and
  overflow are not modelled except as the balance's `kind`.
- `handleFlip` and `handleSlots` are not modelled, apart from the slots max-bet cap
  (`Modifiers.MaxBet`). The Addict's rush buff they create is taken as already present in the
  buff list.
- Presentation is not modelled: `formatDuration`, `toBoldFont`, `handleItemInfo`, `handleRecipes`,
  `handleInventory`, `handleLeaderboard`, `handleMarket` listing text, `handleClanInfo`,
  `handleClanList`, `handleClanWar` and `handleCrateShop` listing text.
- The clan-war announcement is not modelled.
- `handleMarket` repairs listings that lack an id. This is not modelled: the store invariant keeps
  every listing's id positive and distinct.
- commands.js is not part of this model. It is a static help table.
- Actions.GatherFind: requires that the given draws match the table order and the basket count.
  The source draws them as it goes.
- Modifiers.Haul: the shuffled table order is a parameter, so nothing is said about the
  distribution of the orders that the source's sort-by-random-comparator shuffle produces.
- Economy.Store.Merge: requires that a Drednot name with no account is on no clan roster. The
  source does not check this.
- Common.Lower: folds only the ASCII capitals A-Z. JavaScript's `toLowerCase` and a regular
  expression's `i` flag fold other capitals too (É to é), and `toLowerCase` can lengthen a string
  (İ becomes two code units). Keys and name clashes for such names are not modelled.
- Accounts.NewAccount: the key is `Common.Lower` of the name, so it has the same ASCII-only folding.
- Economy.Store.ClanCreate: the name clash is equality ignoring case. The source builds the
  regular expression `^name$` from the name without escaping it. A name with pattern characters
  therefore also clashes with names it matches: "a.c" clashes with "abc". A malformed pattern such
  as "ab(" makes the handler throw. Neither is modelled.
- Accounts.Holder: when a key matches and another account is linked to the same id, or several
  accounts are linked to it, Mongo takes the first match in its natural order. The model takes the
  key in the first case and finds nobody in the second, because the store keeps no document order.
- Economy.Store.ClanAcceptApplicant: the target is the account itself, and the five-character test
  is made on its key, which is as long as the lower-cased name typed. The source can also find the
  account by a Discord id typed instead. That lookup is not modelled, and so neither is the case
  where the typed id and the key differ in length.
- Economy.Store.ClanCreate: requires a fresh clan code, because the source's retry loop for
  generating one is not modelled.
- Economy.Store.WarTick: ranks the clans by war points. Ties are broken in one valid order; the
  source takes Mongo's order.

## Findings

| source | as written | input that shows it | evidently intended | confidence | as-written member | corrected member |
|---|---|---|---|---|---|---|
| index.js:178 | `secureRandomFloat` divides a 32-bit value by 0xffffffff, so 1.0 can be drawn | the draw 0xffffffff | a float in [0, 1), dividing by 2^32 | high, not executed | Rewards.SecureRandomFloatAsWritten | Rewards.SecureRandomFloat |
| index.js:249 | `openLootbox` scales the amount with that draw, so the amount can exceed the entry's maximum | amount draw 0xffffffff gives max + 1 | an amount within the entry's range | high, not executed | Rewards.OpenLootboxAsWritten | Rewards.OpenLootbox |
| index.js:177 | `rollNewTrait` walks past every weight when the draw is 1.0, and gives level 0 when the level draw is 0 | kind draw 0xffffffff, or level draw 0 | a trait of level 1..5 for every draw | high, not executed | Rewards.RollNewTraitAsWritten | Rewards.RollNewTrait |
| index.js:353 | the base pay is `floor(f x 31) + 5` with f possibly 1.0 | draw 0xffffffff gives base 36 | base in [5, 35] | high, not executed | Modifiers.WorkBaseAsWrittenReachesMaxPlusOne | Modifiers.WorkBase |
| index.js:499 | the gather quantity is `floor(f x (max - min + 1)) + min` with f possibly 1.0 | quantity draw 0xffffffff gives max + 1 | a quantity in [min, max] before the basket and abundance bonuses | high, not executed | Modifiers.EntryFindAsWrittenReachesMaxPlusOne | Modifiers.EntryFind |
| index.js:290 | the timers view multiplies the prodigy reductions together instead of summing them as `/work` does | two level-5 prodigy traits: timers say 33.75 s, `/work` applies 30 s | the cooldown `/work` and `/gather` apply | high, not executed | Modifiers.TimersDisagreeWithWork | Modifiers.Timers |
| index.js:828 | `handleEat` takes the food out of the inventory before reading its buff | eating Raw Meat, a food without a buff, loses it and the handler fails | refuse a food without a buff before consuming it | high, not executed | Accounts.EatAsWritten | Accounts.Eat |
| index.js:279 | the owner's accept never checks whether the applicant has since joined another clan | an applicant named "rovers" (not five characters, so not read as a clan code) applies to a closed clan, joins an open clan, then the closed clan's owner accepts them | refuse an applicant already in a clan | medium, not executed | Clans.AcceptAsWrittenSplitsRoster | Economy.Store.ClanAcceptApplicant |
| index.js:289 | the busy test only looks at jobs still running, so a finished job not yet collected is overwritten | smelt again after the job's finish time and before the smelting tick | deliver the finished job first | medium, not executed | Accounts.SmeltAsWrittenLosesFinishedJob | Accounts.StartSmelt |
