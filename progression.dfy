/**
 * The experience update of `POST /api/user/updateExperience`: the stored
 * experience plus the gained (or lost) amount is moved across the level
 * thresholds `level * levelUpMultiplier` by two loops, one per sign, and the
 * four combat stats then grow (or shrink) with the level difference and with
 * the multiples of ten the level passes.
 *
 * Experience is kept in integer tenths of a point: the battle settlement
 * sends `difficulty * floor * 1.3` or `* 1.2`, which are whole numbers of
 * tenths. The threshold multiplier of 15 points is therefore 150 tenths.
 */
module Progression {
  import opened Wrappers

  /** The stored user row: the fields the route reads and writes. */
  datatype User = User(
    level: int, experience: int, hp: int, maxHp: int, attackPower: int, healingPower: int)

  /**
   * The constants of the battle configuration the route reads. The shipped
   * configuration sets the multiplier to 15 points (150 tenths) and the HP
   * increment to 1; it defines no attack or healing increment, so those two
   * are left as parameters.
   */
  datatype Config = Config(
    levelUpMultiplier: int,
    hpIncreasePerLevel: int,
    attackPowerIncreasePerLevel: int,
    healingPowerIncreasePerLevel: int)

  /** The shipped configuration, in tenths of an experience point. */
  function ShippedConfig(attackPowerIncrease: int, healingPowerIncrease: int): (c: Config)
    ensures c.levelUpMultiplier == 15 * 10 && c.hpIncreasePerLevel == 1
  {
    Config(150, 1, attackPowerIncrease, healingPowerIncrease)
  }

  /** A level together with the experience held inside it. */
  datatype Progress = Progress(level: int, experience: int)

  /** The experience a user at level 1 with none must gain to reach `level` with none. */
  function LevelBase(level: int, k: int): (base: int)
    requires level >= 1
  {
    if level == 1 then 0 else LevelBase(level - 1, k) + (level - 1) * k
  }

  /** Reaching a higher level takes strictly more experience. */
  lemma {:induction false} LevelBaseIncreases(low: int, high: int, k: int)
    requires 1 <= low <= high && k > 0
    ensures LevelBase(high, k) >= LevelBase(low, k) + (high - low) * k
  {
    if low < high {
      LevelBaseIncreases(low, high - 1, k);
      assert (high - 1) * k >= k;
    }
  }

  /** The level-up loop: while the total reaches `level * k`, pay it and go up one level. */
  function LevelUp(total: int, level: int, k: int): (p: Progress)
    requires level >= 1 && k > 0
    decreases total
  {
    if total >= level * k then
      assert level * k >= k;
      LevelUp(total - level * k, level + 1, k)
    else Progress(level, total)
  }

  /** The level-down loop: while above level 1 and under `(level - 1) * k`, go down and get that back. */
  function LevelDown(total: int, level: int, k: int): (p: Progress)
    requires level >= 1
    decreases level
  {
    if level > 1 && total < (level - 1) * k then LevelDown(total + (level - 1) * k, level - 1, k)
    else Progress(level, total)
  }

  /** Which loop runs depends only on the sign of the change; a zero change runs neither. */
  function Settle(level: int, total: int, delta: int, k: int): (p: Progress)
    requires level >= 1 && k > 0
  {
    if delta > 0 then LevelUp(total, level, k)
    else if delta < 0 then LevelDown(total, level, k)
    else Progress(level, total)
  }

  /**
   * Levelling up never lowers the level, conserves the experience counted
   * from level 1, and leaves the total under the new level's threshold; a
   * total that paid at least one threshold is not negative.
   */
  lemma {:induction false} LevelUpSpec(total: int, level: int, k: int)
    requires level >= 1 && k > 0
    ensures var p := LevelUp(total, level, k);
      && p.level >= level
      && LevelBase(p.level, k) + p.experience == LevelBase(level, k) + total
      && p.experience < p.level * k
      && (p.level > level ==> p.experience >= 0)
    decreases total
  {
    if total >= level * k {
      assert level * k >= k;
      LevelUpSpec(total - level * k, level + 1, k);
    }
  }

  /**
   * The level-up result is the only state with the same experience counted
   * from level 1 that lies inside its level's band `[0, level * k)`: the
   * loop stops exactly where the thresholds say it must.
   */
  lemma {:induction false} LevelUpUnique(total: int, level: int, k: int, p: Progress)
    requires level >= 1 && k > 0 && total >= 0
    requires p.level >= level && 0 <= p.experience < p.level * k
    requires LevelBase(p.level, k) + p.experience == LevelBase(level, k) + total
    ensures p == LevelUp(total, level, k)
    decreases total
  {
    var threshold := level * k;
    assert threshold >= k;
    assert LevelBase(level + 1, k) == LevelBase(level, k) + threshold;
    if total >= threshold {
      if p.level == level {
        assert false;
      }
      LevelUpUnique(total - threshold, level + 1, k, p);
    } else if p.level > level {
      LevelBaseIncreases(level + 1, p.level, k);
      assert false;
    }
  }

  /**
   * Levelling down never raises the level nor goes below 1, conserves the
   * experience counted from level 1, and stops at level 1 or once the
   * total reaches `(level - 1) * k`.
   */
  lemma {:induction false} LevelDownSpec(total: int, level: int, k: int)
    requires level >= 1
    ensures var p := LevelDown(total, level, k);
      && 1 <= p.level <= level
      && LevelBase(p.level, k) + p.experience == LevelBase(level, k) + total
      && (p.level == 1 || p.experience >= (p.level - 1) * k)
    decreases level
  {
    if level > 1 && total < (level - 1) * k {
      LevelDownSpec(total + (level - 1) * k, level - 1, k);
    }
  }

  /**
   * The level-down test compares with `(level - 1) * k`, not with 0: a loss
   * that leaves a total in `[0, (level - 1) * k)` still costs a level, and
   * the experience given back lifts the total to the new level's own
   * threshold or beyond, so the next gain of any size levels straight up.
   */
  lemma LevelDownOverfills(total: int, level: int, k: int)
    requires level >= 2 && k > 0 && 0 <= total < (level - 1) * k
    ensures LevelDown(total, level, k).level < level
    ensures var p := LevelDown(total, level, k); p.experience >= p.level * k
  {
    var once := LevelDown(total + (level - 1) * k, level - 1, k);
    if level - 1 > 1 && total + (level - 1) * k < (level - 2) * k {
      assert false;
    }
    assert once == Progress(level - 1, total + (level - 1) * k);
  }

  /** A concrete instance: at level 5 holding 1.0 point, losing 0.1 point drops to level 4 holding 60.9 points. */
  lemma SmallLossDropsALevel()
    ensures Settle(5, 10 - 1, -1, 150) == Progress(4, 609)
    ensures 609 >= 4 * 150
  {
    assert LevelDown(609, 4, 150) == Progress(4, 609);
  }

  /** The number of multiples of ten in `(low, high]`. */
  function MilestonesCrossed(low: int, high: int): (count: nat)
    decreases high - low
  {
    if high <= low then 0
    else MilestonesCrossed(low, high - 1) + (if high % 10 == 0 then 1 else 0)
  }

  /**
   * The milestone term `floor(new / 10) - floor(old / 10)` counts the
   * multiples of ten passed going up, and minus those passed going down.
   */
  lemma {:induction false} MilestoneTermCounts(oldLevel: int, newLevel: int)
    ensures newLevel >= oldLevel ==> newLevel / 10 - oldLevel / 10 == MilestonesCrossed(oldLevel, newLevel)
    ensures newLevel < oldLevel ==> newLevel / 10 - oldLevel / 10 == -(MilestonesCrossed(newLevel, oldLevel) as int)
    decreases if newLevel >= oldLevel then newLevel - oldLevel else oldLevel - newLevel
  {
    if newLevel > oldLevel {
      MilestoneTermCounts(oldLevel, newLevel - 1);
    } else if newLevel < oldLevel {
      MilestoneTermCounts(oldLevel - 1, newLevel);
      MilestonesShiftTop(newLevel, oldLevel);
    }
  }

  /** Moving the upper end of `(low, high]` down by one removes `high` if it is a multiple of ten. */
  lemma MilestonesShiftTop(low: int, high: int)
    requires low < high
    ensures MilestonesCrossed(low, high) == MilestonesCrossed(low, high - 1) + (if high % 10 == 0 then 1 else 0)
  {
  }

  /** The amount one stat changes by: per level, plus 2 for each multiple of ten passed. */
  function StatIncrement(oldLevel: int, newLevel: int, perLevel: int): (inc: int) {
    (newLevel - oldLevel) * perLevel + (newLevel / 10 - oldLevel / 10) * 2
  }

  /** The stored row after the loops: new level and experience, each stat moved by its increment. */
  function GrowStats(user: User, p: Progress, cfg: Config): (grown: User) {
    User(
      p.level, p.experience,
      user.hp + StatIncrement(user.level, p.level, cfg.hpIncreasePerLevel),
      user.maxHp + StatIncrement(user.level, p.level, cfg.hpIncreasePerLevel),
      user.attackPower + StatIncrement(user.level, p.level, cfg.attackPowerIncreasePerLevel),
      user.healingPower + StatIncrement(user.level, p.level, cfg.healingPowerIncreasePerLevel))
  }

  /**
   * `hp` and `maxHp` receive the same increment, so the missing HP
   * `maxHp - hp` survives every experience update; a user at full HP stays
   * at full HP.
   */
  lemma GrowStatsKeepsMissingHp(user: User, p: Progress, cfg: Config)
    ensures var r := GrowStats(user, p, cfg);
      r.maxHp - r.hp == user.maxHp - user.hp
      && r.level == p.level && r.experience == p.experience
  {
  }

  /**
   * A level gained or lost moves each stat by its per-level increment and,
   * for each multiple of ten passed, by 2 more in the same direction.
   */
  lemma GrowStatsByMilestones(user: User, p: Progress, cfg: Config)
    ensures var r := GrowStats(user, p, cfg);
      p.level >= user.level ==>
        && r.attackPower - user.attackPower
           == (p.level - user.level) * cfg.attackPowerIncreasePerLevel + 2 * MilestonesCrossed(user.level, p.level)
        && r.healingPower - user.healingPower
           == (p.level - user.level) * cfg.healingPowerIncreasePerLevel + 2 * MilestonesCrossed(user.level, p.level)
        && r.hp - user.hp
           == (p.level - user.level) * cfg.hpIncreasePerLevel + 2 * MilestonesCrossed(user.level, p.level)
    ensures var r := GrowStats(user, p, cfg);
      p.level < user.level ==>
        && r.attackPower - user.attackPower
           == (p.level - user.level) * cfg.attackPowerIncreasePerLevel - 2 * MilestonesCrossed(p.level, user.level)
        && r.healingPower - user.healingPower
           == (p.level - user.level) * cfg.healingPowerIncreasePerLevel - 2 * MilestonesCrossed(p.level, user.level)
        && r.hp - user.hp
           == (p.level - user.level) * cfg.hpIncreasePerLevel - 2 * MilestonesCrossed(p.level, user.level)
  {
    MilestoneTermCounts(user.level, p.level);
  }

  /**
   * The two loops of the route, step by step, on the running total (the
   * stored experience plus the change) and the running level.
   */
  method CrossThresholds(level: int, total: int, experienceGained: int, k: int) returns (p: Progress)
    requires level >= 1 && k > 0
    ensures p == Settle(level, total, experienceGained, k)
  {
    if experienceGained > 0 {
      p := LevelUpLoop(level, total, k);
    } else if experienceGained < 0 {
      p := LevelDownLoop(level, total, k);
    } else {
      p := Progress(level, total);
    }
  }

  /** The level-up loop: while the total reaches the level's threshold, pay it and go up one level. */
  method LevelUpLoop(level: int, total: int, k: int) returns (p: Progress)
    requires level >= 1 && k > 0
    ensures p == LevelUp(total, level, k)
  {
    var totalExperience := total;
    var newLevel := level;
    while totalExperience >= newLevel * k
      invariant newLevel >= 1
      invariant LevelUp(totalExperience, newLevel, k) == LevelUp(total, level, k)
      decreases totalExperience
    {
      var levelThreshold := newLevel * k;
      assert levelThreshold >= k;
      totalExperience := totalExperience - levelThreshold;
      newLevel := newLevel + 1;
    }
    p := Progress(newLevel, totalExperience);
  }

  /** The level-down loop: while above level 1 and under the previous threshold, go down and get it back. */
  method LevelDownLoop(level: int, total: int, k: int) returns (p: Progress)
    requires level >= 1 && k > 0
    ensures p == LevelDown(total, level, k)
  {
    var totalExperience := total;
    var newLevel := level;
    while newLevel > 1 && totalExperience < (newLevel - 1) * k
      invariant newLevel >= 1
      invariant LevelDown(totalExperience, newLevel, k) == LevelDown(total, level, k)
      decreases newLevel
    {
      newLevel := newLevel - 1;
      var levelThreshold := newLevel * k;
      totalExperience := totalExperience + levelThreshold;
    }
    p := Progress(newLevel, totalExperience);
  }

  /**
   * The route's update of the stored row. The total is the stored
   * experience plus the change, never clamped: a loss at level 1 larger
   * than the stored experience stores a negative value.
   */
  method ApplyExperience(user: User, experienceGained: int, cfg: Config) returns (r: User)
    requires user.level >= 1 && cfg.levelUpMultiplier > 0
    ensures Progress(r.level, r.experience)
      == Settle(user.level, user.experience + experienceGained, experienceGained, cfg.levelUpMultiplier)
    ensures r == GrowStats(user, Progress(r.level, r.experience), cfg)
    ensures experienceGained == 0 ==> r == user
  {
    var p := CrossThresholds(user.level, user.experience + experienceGained, experienceGained, cfg.levelUpMultiplier);
    var newLevel, totalExperience := p.level, p.experience;
    var levelDifference := newLevel - user.level;
    var additionalMultiplier := newLevel / 10 - user.level / 10;
    r := User(
      newLevel, totalExperience,
      user.hp + levelDifference * cfg.hpIncreasePerLevel + additionalMultiplier * 2,
      user.maxHp + levelDifference * cfg.hpIncreasePerLevel + additionalMultiplier * 2,
      user.attackPower + levelDifference * cfg.attackPowerIncreasePerLevel + additionalMultiplier * 2,
      user.healingPower + levelDifference * cfg.healingPowerIncreasePerLevel + additionalMultiplier * 2);
  }

  /** What the route answers: 403, 404, or the updated row. */
  datatype Response = Forbidden | NotFound | Updated(user: User)

  /**
   * The route: no session is refused with 403 and an unknown user with 404,
   * both before any level computation; otherwise the row is updated.
   */
  method UpdateExperience(hasSession: bool, stored: Option<User>, experienceGained: int, cfg: Config)
    returns (response: Response)
    requires cfg.levelUpMultiplier > 0
    requires stored.Some? ==> stored.value.level >= 1
    ensures !hasSession ==> response == Forbidden
    ensures hasSession && stored.None? ==> response == NotFound
    ensures hasSession && stored.Some? ==>
      var user := stored.value;
      var p := Settle(user.level, user.experience + experienceGained, experienceGained, cfg.levelUpMultiplier);
      response == Updated(GrowStats(user, p, cfg))
  {
    if !hasSession {
      return Forbidden;
    }
    if stored.None? {
      return NotFound;
    }
    var updated := ApplyExperience(stored.value, experienceGained, cfg);
    response := Updated(updated);
  }
}
