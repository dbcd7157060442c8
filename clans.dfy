/** The clan records and the pure parts of the clan state machine: names,
    the level-up against the cost table, the roster agreement between clan
    rosters and account clan fields, the war podium, and the owner's accept
    of an applicant as the source writes it. The handlers that change the
    store live in Economy. */
module Clans {
  import opened Common
  import opened Catalog
  import opened Accounts

  /** Recruitment modes: 1 lets anyone join, 2 takes applications. */
  const OpenRecruitment := 1
  const ClosedRecruitment := 2

  /** A clan document. Clans are keyed by their five-character code, which
      stands in for the database id the account's clanId refers to. */
  datatype Clan = Clan(
    name: string,
    code: ClanCode,
    ownerId: AccountId,
    members: seq<AccountId>,
    level: int,
    vault: int,
    warPoints: int,
    recruitment: int,
    applicants: seq<AccountId>,
    pendingInvites: seq<AccountId>)

  /** A clan name of 3 to 24 characters. */
  predicate NameLengthOk(name: string) {
    3 <= |name| <= 24
  }

  /** Another clan already has the name, compared without case. */
  predicate NameTaken(clans: map<ClanCode, Clan>, name: string) {
    exists c :: c in clans && SameIgnoringCase(clans[c].name, name)
  }

  predicate Full(c: Clan) {
    |c.members| >= ClanMemberLimit
  }

  /** The shape every stored clan keeps: filed under its own code, its
      owner on its roster, at most ten members, a level of the cost table
      and a vault that never went negative. */
  predicate ClanSound(code: ClanCode, c: Clan) {
    && c.code == code
    && c.ownerId in c.members
    && |c.members| <= ClanMemberLimit
    && 1 <= c.level <= MaxClanLevel
    && c.vault >= 0
  }

  /** The clan handleClanCreate inserts: the founder alone on the roster, at
      level 1, with an empty vault, no war points and open recruitment. */
  function NewClan(name: string, code: ClanCode, owner: AccountId): (c: Clan)
    ensures ClanSound(code, c)
    ensures c.members == [owner] && c.ownerId == owner && c.name == name
    ensures c.level == 1 && c.vault == 0 && c.warPoints == 0
    ensures c.recruitment == OpenRecruitment && c.applicants == [] && c.pendingInvites == []
  {
    Clan(name, code, owner, [owner], 1, 0, 0, OpenRecruitment, [], [])
  }

  // -------------------------------------------------------------- level up

  /** handleClanUpgrade past its ownership check: refused at the top level or
      when the vault is short of the next level's cost, otherwise one level
      up paid from the vault. */
  function Upgrade(c: Clan): (r: Option<Clan>)
    ensures r.Some? <==> 0 <= c.level < MaxClanLevel && c.vault >= ClanLevelCosts[c.level]
    ensures r.Some? ==> r.value.level == c.level + 1 && r.value.vault == c.vault - ClanLevelCosts[c.level]
    ensures r.Some? ==> r.value == c.(level := r.value.level, vault := r.value.vault)
  {
    match NextLevelCost(c.level)
    case None => None
    case Some(cost) => if c.vault < cost then None else Some(c.(level := c.level + 1, vault := c.vault - cost))
  }

  /** An upgrade keeps a clan sound: the level stays within the table and
      the vault pays exactly what it holds at most. */
  lemma UpgradeKeepsSound(code: ClanCode, c: Clan)
    requires ClanSound(code, c)
    ensures Upgrade(c).Some? ==> ClanSound(code, Upgrade(c).value)
  {
  }

  /** Upgrades applied n times in a row. */
  function Climb(c: Clan, n: nat): Option<Clan> {
    if n == 0 then Some(c)
    else
      match Climb(c, n - 1)
      case None => None
      case Some(d) => Upgrade(d)
  }

  /** The summed costs of the levels from `from` + 1 to `to`. */
  function CostBetween(from: nat, to: nat): int
    requires from <= to <= |ClanLevelCosts|
    decreases (to as int) - (from as int)
  {
    if from == to then 0 else ClanLevelCosts[from] + CostBetween(from + 1, to)
  }

  /** Climbing n levels succeeds exactly when the vault covers the summed
      costs of those levels, and then spends exactly that sum. */
  lemma {:induction false} ClimbCost(c: Clan, n: nat)
    requires 0 <= c.level && c.level + n <= MaxClanLevel
    ensures Climb(c, n).Some? <==> c.vault >= CostBetween(c.level, c.level + n) || n == 0
    ensures Climb(c, n).Some? ==> Climb(c, n).value.level == c.level + n &&
                                  Climb(c, n).value.vault == c.vault - CostBetween(c.level, c.level + n)
  {
    if n > 0 {
      ClimbCost(c, n - 1);
      CostSplit(c.level, c.level + n - 1);
    }
  }

  /** The cost of one more level adds to the end of the sum. */
  lemma {:induction false} CostSplit(from: nat, to: nat)
    requires from <= to < |ClanLevelCosts|
    ensures CostBetween(from, to + 1) == CostBetween(from, to) + ClanLevelCosts[to]
    decreases (to as int) - (from as int)
  {
    if from < to {
      CostSplit(from + 1, to);
    }
  }

  // ------------------------------------------------------------- invitations

  /** `clansCollection.updateMany({}, { $pull: { pendingInvites: id, applicants: id } })`:
      the id leaves every invitation and application list and nothing else changes. */
  function PullEverywhere(clans: map<ClanCode, Clan>, id: AccountId): (r: map<ClanCode, Clan>)
    ensures r.Keys == clans.Keys
    ensures forall c :: c in r ==> id !in r[c].pendingInvites && id !in r[c].applicants
    ensures forall c :: c in r ==> r[c] == clans[c].(pendingInvites := r[c].pendingInvites, applicants := r[c].applicants)
    ensures forall c, x :: c in r && x != id ==> (x in r[c].applicants <==> x in clans[c].applicants)
    ensures forall c, x :: c in r && x != id ==> (x in r[c].pendingInvites <==> x in clans[c].pendingInvites)
  {
    map c | c in clans :: clans[c].(pendingInvites := Pull(clans[c].pendingInvites, id), applicants := Pull(clans[c].applicants, id))
  }

  // ----------------------------------------------------------------- roster

  /** The two directions of clan membership agree: an account named on a
      roster belongs to that clan, and an account whose clan exists is on
      that clan's roster. Roster entries that name no account are allowed. */
  ghost predicate RosterAgrees(accounts: map<AccountId, Account>, clans: map<ClanCode, Clan>) {
    && (forall c, m :: c in clans && m in clans[c].members && m in accounts ==> accounts[m].clanId == Some(c))
    && (forall m :: m in accounts && accounts[m].clanId.Some? && accounts[m].clanId.value in clans ==>
          m in clans[accounts[m].clanId.value].members)
  }

  /** Under roster agreement an account sits on at most one roster. */
  lemma OneRoster(accounts: map<AccountId, Account>, clans: map<ClanCode, Clan>, m: AccountId, c1: ClanCode, c2: ClanCode)
    requires RosterAgrees(accounts, clans) && m in accounts
    requires c1 in clans && c2 in clans && m in clans[c1].members && m in clans[c2].members
    ensures c1 == c2
  {
  }

  /** Changing accounts without touching any clan field or the key set keeps
      the rosters in agreement. */
  lemma RosterKeepsClanFields(accounts: map<AccountId, Account>, accounts': map<AccountId, Account>, clans: map<ClanCode, Clan>)
    requires RosterAgrees(accounts, clans)
    requires accounts'.Keys == accounts.Keys
    requires forall m :: m in accounts ==> accounts'[m].clanId == accounts[m].clanId
    ensures RosterAgrees(accounts', clans)
  {
  }

  /** Changing clans without touching any roster or the key set keeps the
      rosters in agreement. */
  lemma RosterKeepsMembers(accounts: map<AccountId, Account>, clans: map<ClanCode, Clan>, clans': map<ClanCode, Clan>)
    requires RosterAgrees(accounts, clans)
    requires clans'.Keys == clans.Keys
    requires forall c :: c in clans ==> clans'[c].members == clans[c].members
    ensures RosterAgrees(accounts, clans')
  {
  }

  /** An account outside every clan that is pushed on one roster and
      pointed at that clan keeps the rosters in agreement, whatever happened
      to the invitation and application lists on the way. */
  lemma Enrol(accounts: map<AccountId, Account>, clans: map<ClanCode, Clan>, clans': map<ClanCode, Clan>,
              id: AccountId, code: ClanCode)
    requires RosterAgrees(accounts, clans) && id in accounts && accounts[id].clanId.None? && code in clans
    requires clans'.Keys == clans.Keys && forall c :: c in clans ==> clans'[c].members == clans[c].members
    ensures RosterAgrees(accounts[id := accounts[id].(clanId := Some(code))],
                         clans'[code := clans'[code].(members := clans[code].members + [id])])
  {
    var accounts2 := accounts[id := accounts[id].(clanId := Some(code))];
    var clans2 := clans'[code := clans'[code].(members := clans[code].members + [id])];
    forall c, m | c in clans2 && m in clans2[c].members && m in accounts2
      ensures accounts2[m].clanId == Some(c)
    {
      if m != id {
        assert m in clans[c].members;
      }
    }
  }

  /** A new clan under a fresh code with the founder alone on its roster
      keeps the rosters in agreement once the founder points at it. */
  lemma Founded(accounts: map<AccountId, Account>, clans: map<ClanCode, Clan>, id: AccountId, code: ClanCode, c: Clan)
    requires RosterAgrees(accounts, clans) && id in accounts && accounts[id].clanId.None?
    requires code !in clans && forall m :: m in accounts ==> accounts[m].clanId != Some(code)
    requires c.members == [id]
    ensures RosterAgrees(accounts[id := accounts[id].(clanId := Some(code))], clans[code := c])
  {
  }

  /** A member who is pulled from the roster and whose clan is cleared
      keeps the rosters in agreement. */
  lemma Dismiss(accounts: map<AccountId, Account>, clans: map<ClanCode, Clan>, id: AccountId, code: ClanCode, b: Account)
    requires RosterAgrees(accounts, clans) && id in accounts && accounts[id].clanId == Some(code) && code in clans
    requires b.clanId.None?
    ensures RosterAgrees(accounts[id := b], clans[code := clans[code].(members := Pull(clans[code].members, id))])
  {
  }

  /** `economyCollection.updateMany({ clanId }, { $set: { clanId: null } })`:
      every member of the clan leaves it and no other account changes. */
  function Disbanded(accounts: map<AccountId, Account>, code: ClanCode): (r: map<AccountId, Account>)
    ensures r.Keys == accounts.Keys
    ensures forall m :: m in accounts && accounts[m].clanId == Some(code) ==> r[m] == accounts[m].(clanId := None)
    ensures forall m :: m in accounts && accounts[m].clanId != Some(code) ==> r[m] == accounts[m]
  {
    map m | m in accounts :: if accounts[m].clanId == Some(code) then accounts[m].(clanId := None) else accounts[m]
  }

  /** Disbanding a clan keeps the remaining rosters in agreement. */
  lemma DisbandAgrees(accounts: map<AccountId, Account>, clans: map<ClanCode, Clan>, code: ClanCode)
    requires RosterAgrees(accounts, clans)
    ensures RosterAgrees(Disbanded(accounts, code), clans - {code})
  {
  }

  /** handleClanAccept reads an identifier of this length as a clan code. */
  const ClanCodeLength := 5

  /** The owner's accept of an applicant as the source writes it. A target
      name of five characters never gets here: it is read as a clan code,
      and an owner, being in a clan, is refused on that path. Otherwise the
      target must have applied and the clan must have room, but the target's
      own clan is never checked; the target is pulled from every invitation
      and application list, pushed on the roster and given this clan.
      Returns whether it went through, and the new accounts and clans. The
      target is the account key, the lower-cased name, as long as the name. */
  function AcceptApplicantAsWritten(accounts: map<AccountId, Account>, clans: map<ClanCode, Clan>,
                                    owner: AccountId, target: AccountId): (r: (bool, map<AccountId, Account>, map<ClanCode, Clan>))
    requires owner in accounts
    ensures !r.0 ==> r.1 == accounts && r.2 == clans
    ensures |target| == ClanCodeLength ==> !r.0
    ensures r.0 ==> target in accounts && accounts[owner].clanId.Some? && accounts[owner].clanId.value in clans
    ensures r.0 ==> var code := accounts[owner].clanId.value;
                    r.1 == accounts[target := accounts[target].(clanId := Some(code))] &&
                    r.2.Keys == clans.Keys &&
                    r.2[code].members == clans[code].members + [target] &&
                    forall c :: c in clans && c != code ==> r.2[c].members == clans[c].members
  {
    var a := accounts[owner];
    if |target| == ClanCodeLength || a.clanId.None? || a.clanId.value !in clans then (false, accounts, clans)
    else
      var code := a.clanId.value;
      var clan := clans[code];
      if clan.ownerId != owner || target !in accounts || target !in clan.applicants || Full(clan) then (false, accounts, clans)
      else
        var pulled := PullEverywhere(clans, target);
        (true, accounts[target := accounts[target].(clanId := Some(code))],
         pulled[code := pulled[code].(members := clan.members + [target])])
  }

  /** An applicant who joined another, open clan while the application was
      pending ends up on two rosters once the owner accepts: the accepted
      account points at the accepting clan, yet the roster of the clan it
      joined first still lists it. */
  lemma AcceptAsWrittenSplitsRoster()
    ensures var owner := AcceptExample("owner", "AAAAA");
            var accounts := map["owner" := owner, "rovers" := AcceptExample("rovers", "BBBBB"), "host" := AcceptExample("host", "BBBBB")];
            var closed := Clan("Closed", "AAAAA", "owner", ["owner"], 1, 0, 0, ClosedRecruitment, ["rovers"], []);
            var open := Clan("Open", "BBBBB", "host", ["host", "rovers"], 1, 0, 0, OpenRecruitment, [], []);
            var clans := map["AAAAA" := closed, "BBBBB" := open];
            var r := AcceptApplicantAsWritten(accounts, clans, "owner", "rovers");
            r.0 && "rovers" in r.2["BBBBB"].members && r.1["rovers"].clanId == Some("AAAAA") && !RosterAgrees(r.1, r.2)
  {
    var owner := AcceptExample("owner", "AAAAA");
    var accounts := map["owner" := owner, "rovers" := AcceptExample("rovers", "BBBBB"), "host" := AcceptExample("host", "BBBBB")];
    var closed := Clan("Closed", "AAAAA", "owner", ["owner"], 1, 0, 0, ClosedRecruitment, ["rovers"], []);
    var open := Clan("Open", "BBBBB", "host", ["host", "rovers"], 1, 0, 0, OpenRecruitment, [], []);
    var clans := map["AAAAA" := closed, "BBBBB" := open];
    var r := AcceptApplicantAsWritten(accounts, clans, "owner", "rovers");
    assert "rovers" in closed.applicants;
    assert r.0;
    assert r.2["BBBBB"].members == open.members;
    assert "rovers" in r.2["BBBBB"].members;
    assert "rovers" in r.1 && r.1["rovers"].clanId == Some("AAAAA");
    Disagree(r.1, r.2, "rovers", "BBBBB");
  }

  /** A blank account in the given clan, for the example above. */
  function AcceptExample(id: AccountId, code: ClanCode): (a: Account)
    ensures a.id == id && a.clanId == Some(code)
  {
    Account(id, Some(id), None, 0, Finite, 0, 0, 0, 0, 0, 0, 0, map[], None, [],
            Some(code), 0, [], Zeal(0, 0), Grid([None, None, None], 0))
  }

  /** An account on a roster that points elsewhere breaks roster agreement. */
  lemma Disagree(accounts: map<AccountId, Account>, clans: map<ClanCode, Clan>, m: AccountId, c: ClanCode)
    requires m in accounts && c in clans && m in clans[c].members && accounts[m].clanId != Some(c)
    ensures !RosterAgrees(accounts, clans)
  {
  }

  // -------------------------------------------------------------- clan war

  /** The result of the war tick's query: up to three distinct clans with war
      points, best first, and no clan left out that beats one of them or
      that would fit in a podium of fewer than three. */
  ghost predicate IsPodium(clans: map<ClanCode, Clan>, top: seq<ClanCode>) {
    && |top| <= 3
    && (forall i :: 0 <= i < |top| ==> top[i] in clans && clans[top[i]].warPoints > 0)
    && (forall i, j :: 0 <= i < j < |top| ==> top[i] != top[j] && clans[top[i]].warPoints >= clans[top[j]].warPoints)
    && (forall c :: c in clans && clans[c].warPoints > 0 && c !in top ==>
          |top| == 3 && forall i :: 0 <= i < |top| ==> clans[c].warPoints <= clans[top[i]].warPoints)
  }

  /** `find({ warPoints: { $gt: 0 } }).sort({ warPoints: -1 }).limit(3)`:
      the best remaining clan is taken three times; ties go either way, as
      the query leaves their order open. */
  method Podium(clans: map<ClanCode, Clan>) returns (top: seq<ClanCode>)
    ensures IsPodium(clans, top)
  {
    top := [];
    var pool := set c | c in clans && clans[c].warPoints > 0;
    while |top| < 3 && pool != {}
      invariant pool == set c | c in clans && clans[c].warPoints > 0 && c !in top
      invariant |top| <= 3
      invariant forall i :: 0 <= i < |top| ==> top[i] in clans && clans[top[i]].warPoints > 0
      invariant forall i, j :: 0 <= i < j < |top| ==> top[i] != top[j] && clans[top[i]].warPoints >= clans[top[j]].warPoints
      invariant forall c, i :: c in pool && 0 <= i < |top| ==> clans[c].warPoints <= clans[top[i]].warPoints
      decreases pool
    {
      BestExists(clans, pool);
      var best :| best in pool && forall d :: d in pool ==> clans[d].warPoints <= clans[best].warPoints;
      top := top + [best];
      pool := pool - {best};
    }
    forall c | c in clans && clans[c].warPoints > 0 && c !in top
      ensures |top| == 3 && forall i :: 0 <= i < |top| ==> clans[c].warPoints <= clans[top[i]].warPoints
    {
      assert c in pool;
    }
  }

  /** A finite, non-empty set of clans has one with the most war points. */
  lemma {:induction false} BestExists(clans: map<ClanCode, Clan>, pool: set<ClanCode>)
    requires pool != {} && pool <= clans.Keys
    ensures exists b :: b in pool && forall d :: d in pool ==> clans[d].warPoints <= clans[b].warPoints
  {
    var x :| x in pool;
    if pool != {x} {
      BestExists(clans, pool - {x});
      var b :| b in pool - {x} && forall d :: d in pool - {x} ==> clans[d].warPoints <= clans[b].warPoints;
      if clans[x].warPoints > clans[b].warPoints {
        assert forall d :: d in pool ==> clans[d].warPoints <= clans[x].warPoints;
      } else {
        assert forall d :: d in pool ==> clans[d].warPoints <= clans[b].warPoints;
      }
    } else {
      assert forall d :: d in pool ==> d == x;
    }
  }

  /** The war prize of one rank added to an inventory. */
  function GrantAll(inv: map<Item, int>, items: seq<(Item, nat)>): (r: map<Item, int>)
    ensures forall i :: Qty(r, i) == Qty(inv, i) + Need(items, i, 1)
  {
    if items == [] then inv
    else Add(GrantAll(inv, items[1..]), items[0].0, items[0].1)
  }

  /** `$inc: { warPoints: 1 }` on the actor's clan after a work or a gather
      that went through: only when the clan exists and a war runs, that is
      a war end has been set and lies after `now`. */
  function WarPoint(clans: map<ClanCode, Clan>, clanId: Option<ClanCode>, warEnd: Option<int>, now: int): (r: map<ClanCode, Clan>)
    ensures r.Keys == clans.Keys
    ensures forall c :: c in clans ==> r[c] == clans[c].(warPoints := r[c].warPoints)
    ensures forall c :: c in clans ==>
              r[c].warPoints == clans[c].warPoints + (if clanId == Some(c) && warEnd.Some? && now < warEnd.value then 1 else 0)
  {
    if clanId.Some? && clanId.value in clans && warEnd.Some? && now < warEnd.value then
      clans[clanId.value := clans[clanId.value].(warPoints := clans[clanId.value].warPoints + 1)]
    else clans
  }
}
