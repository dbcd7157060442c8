/** The hourly and daily claims: a cooldown that refuses early claims, and
    a streak that grows when the next claim comes before the break time and
    starts again at one otherwise. Both handlers follow the same rule with
    different constants. */
module Streaks {
  import opened Catalog

  /** The constants of one claim: cooldown, streak break time, base reward
      and the bonus per streak step. */
  datatype StreakRule = StreakRule(cooldownMs: int, breakMs: int, base: int, bonus: int)

  /** handleHourly: the streak breaks after twice the cooldown. */
  const Hourly := StreakRule(HourlyCooldownMs, 2 * HourlyCooldownMs, HourlyRewardBase, HourlyStreakBonus)

  /** handleDaily: a 22-hour cooldown and a 48-hour break time. */
  const Daily := StreakRule(DailyCooldownMs, DailyStreakBreakMs, DailyRewardBase, DailyStreakBonus)

  /** A rule whose break time comes after its cooldown, so that a streak
      can be kept at all, and whose rewards are positive. */
  predicate Sound(rule: StreakRule) {
    0 < rule.cooldownMs < rule.breakMs && rule.base > 0 && rule.bonus >= 0
  }

  /** The outcome of a claim: refused with the time still to wait, or
      granted with the new streak, the reward paid and whether a streak
      longer than one was broken. */
  datatype Claim = Refused(waitMs: int) | Granted(streak: int, reward: int, broken: bool)

  /** A claim at `now` by an account that last claimed at `last` (0: never)
      with stored streak `streak` (0 when the field is missing). */
  function ClaimReward(rule: StreakRule, last: int, streak: int, now: int): (c: Claim)
    ensures c.Refused? <==> last != 0 && now - last < rule.cooldownMs
    ensures c.Refused? ==> 0 < c.waitMs && (now >= last ==> c.waitMs <= rule.cooldownMs)
    ensures c.Granted? ==> c.reward == rule.base + (c.streak - 1) * rule.bonus
    ensures c.Granted? ==> c.streak == 1 || c.streak == streak + 1
    ensures c.Granted? && streak >= 0 ==> c.streak >= 1
    ensures c.Granted? && c.broken ==> c.streak == 1 && streak > 1
  {
    if last != 0 && now - last < rule.cooldownMs then Refused(rule.cooldownMs - (now - last))
    else
      var continues := last != 0 && now - last < rule.breakMs;
      var next := if continues then streak + 1 else 1;
      Granted(next, rule.base + (next - 1) * rule.bonus, !continues && streak > 1)
  }

  /** A claim made after the cooldown and before the break time extends the
      streak by one and pays one bonus more than the previous claim. */
  lemma ClaimContinues(rule: StreakRule, last: int, streak: int, now: int)
    requires last != 0 && rule.cooldownMs <= now - last < rule.breakMs
    ensures ClaimReward(rule, last, streak, now) == Granted(streak + 1, rule.base + streak * rule.bonus, false)
  {
  }

  /** A first claim, or one made at or after the break time, starts the
      streak again at one and pays the base reward. */
  lemma ClaimResets(rule: StreakRule, last: int, streak: int, now: int)
    requires rule.cooldownMs <= rule.breakMs
    requires last == 0 || now - last >= rule.breakMs
    ensures ClaimReward(rule, last, streak, now).Granted?
    ensures ClaimReward(rule, last, streak, now).streak == 1
    ensures ClaimReward(rule, last, streak, now).reward == rule.base
  {
  }

  /** The reward never falls below the base once the stored streak is not negative. */
  lemma RewardAtLeastBase(rule: StreakRule, last: int, streak: int, now: int)
    requires Sound(rule) && streak >= 0
    ensures ClaimReward(rule, last, streak, now).Granted? ==> ClaimReward(rule, last, streak, now).reward >= rule.base
  {
  }

  // ------------------------------------------------------------ claim runs

  /** The stored fields a claim reads and writes, and the total paid so far. */
  datatype Ledger = Ledger(last: int, streak: int, paid: int)

  /** Claims at each of the given times in turn; refused claims change nothing. */
  function Run(rule: StreakRule, start: Ledger, times: seq<int>): Ledger {
    if times == [] then start
    else
      var before := Run(rule, start, times[..|times| - 1]);
      match ClaimReward(rule, before.last, before.streak, times[|times| - 1])
      case Refused(_) => before
      case Granted(s, r, _) => Ledger(times[|times| - 1], s, before.paid + r)
  }

  /** Claim times a positive distance apart, each after the cooldown and
      before the break time of the previous one. */
  predicate Punctual(rule: StreakRule, times: seq<int>) {
    (forall i :: 0 <= i < |times| ==> times[i] != 0) &&
    (forall i :: 0 < i < |times| ==> rule.cooldownMs <= times[i] - times[i - 1] < rule.breakMs)
  }

  /** Starting from a fresh account, n punctual claims leave a streak of n
      and pay n base rewards plus bonus x (0 + 1 + ... + (n - 1)). */
  lemma {:induction false} PunctualRun(rule: StreakRule, times: seq<int>)
    requires Punctual(rule, times)
    ensures var l := Run(rule, Ledger(0, 0, 0), times);
            l.streak == |times| &&
            2 * l.paid == 2 * |times| * rule.base + |times| * (|times| - 1) * rule.bonus &&
            (times != [] ==> l.last == times[|times| - 1])
  {
    var n := |times|;
    if n == 1 {
      assert times[..0] == [];
    } else if n > 1 {
      var prefix := times[..n - 1];
      assert Punctual(rule, prefix) by {
        assert forall i :: 0 <= i < n - 1 ==> prefix[i] == times[i];
      }
      PunctualRun(rule, prefix);
      var before := Run(rule, Ledger(0, 0, 0), prefix);
      assert before.last == times[n - 2];
      ClaimContinues(rule, before.last, before.streak, times[n - 1]);
      var l := Run(rule, Ledger(0, 0, 0), times);
      assert l.paid == before.paid + rule.base + (n - 1) * rule.bonus;
      PaidStep(n, rule.base, rule.bonus, before.paid);
    }
  }

  /** The arithmetic of one more punctual claim. */
  lemma PaidStep(n: int, base: int, bonus: int, paid: int)
    requires 2 * paid == 2 * (n - 1) * base + (n - 1) * (n - 2) * bonus
    ensures 2 * (paid + base + (n - 1) * bonus) == 2 * n * base + n * (n - 1) * bonus
  {
    assert (n - 1) * (n - 2) * bonus + 2 * (n - 1) * bonus == ((n - 1) * (n - 2) + 2 * (n - 1)) * bonus;
    assert (n - 1) * (n - 2) + 2 * (n - 1) == n * (n - 1);
  }
}
