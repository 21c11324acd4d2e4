/**
 * The reset decision: the effective chance for a level and the rule that
 * decides, from the bot checks and one roll, whether a bot is reset.
 */
module ResetRule {
  import opened BotResetConfig

  /** A value of `urand(0, 99)`. */
  type Roll = x: int | 0 <= x < 100

  /**
   * The scaled chance `level / maxLevel * percent`, cast to a byte. The float
   * product is taken as the exact quotient rounded down; above 255 (only
   * possible when `level > maxLevel`) the low byte is kept.
   */
  function ScaledChance(level: UInt8, maxLevel: UInt8, percent: UInt8): UInt8
    requires maxLevel > 0
  {
    Truncate8(level * percent / maxLevel)
  }

  /** The chance actually rolled against: the configured one, or the scaled one. */
  function ResetChance(cfg: Config, level: UInt8): (r: UInt8)
    requires cfg.Valid()
    ensures !cfg.scaledChance ==> r == cfg.resetChancePercent
    ensures r <= 100 || (cfg.scaledChance && level > cfg.maxLevel)
  {
    var chance := cfg.resetChancePercent;
    if cfg.scaledChance then
      ScaledChanceAtMost(level, cfg.maxLevel, chance);
      ScaledChance(level, cfg.maxLevel, chance)
    else
      chance
  }

  /**
   * Whether a bot that reached `level` is reset, given the two bot checks and
   * the roll. Early exits follow the order of the level-change hook.
   */
  function ShouldReset(cfg: Config, level: UInt8, isBot: bool, isRandomBot: bool, roll: Roll): bool
    requires cfg.Valid()
  {
    if level == 1 then false
    else if !isBot then false
    else if !isRandomBot then false
    else
      var chance := ResetChance(cfg, level);
      (cfg.scaledChance || level >= cfg.maxLevel) && roll < chance
  }

  // ---------------------------------------------------------------------------
  // The scaled chance
  // ---------------------------------------------------------------------------

  /** Up to the cap, the scaled chance is the quotient rounded down, with no byte wrap. */
  lemma ScaledChanceIsFloor(level: UInt8, maxLevel: UInt8, percent: UInt8)
    requires 0 < maxLevel && level <= maxLevel
    ensures ScaledChance(level, maxLevel, percent) * maxLevel <= level * percent
    ensures level * percent < (ScaledChance(level, maxLevel, percent) + 1) * maxLevel
  {
    ScaledChanceAtMost(level, maxLevel, percent);
    var q := level * percent / maxLevel;
    assert q * maxLevel + (level * percent) % maxLevel == level * percent;
  }

  /** Up to the cap, the scaled chance never exceeds the configured one. */
  lemma ScaledChanceAtMost(level: UInt8, maxLevel: UInt8, percent: UInt8)
    requires 0 < maxLevel
    ensures level <= maxLevel ==> ScaledChance(level, maxLevel, percent) <= percent
    ensures level <= maxLevel ==> ScaledChance(level, maxLevel, percent) == level * percent / maxLevel
  {
    if level <= maxLevel {
      var p := level * percent;
      MulMonotone(0, level, percent);
      MulMonotone(level, maxLevel, percent);
      QuotientAtMost(p, maxLevel, percent);
      var q := p / maxLevel;
      assert 0 <= q < 0x100;
      assert Truncate8(q) == q;
    }
  }

  /** A quotient of a value at most `m * bound` by `m` is at most `bound`. */
  lemma QuotientAtMost(p: nat, m: nat, bound: nat)
    requires 0 < m && p <= m * bound
    ensures 0 <= p / m <= bound
  {
    var q := p / m;
    assert q * m + p % m == p;
    if q > bound {
      MulMonotone(bound + 1, q, m);
      assert false;
    }
  }

  /** At the cap the scaled chance is exactly the configured one. */
  lemma ScaledChanceAtCap(maxLevel: UInt8, percent: UInt8)
    requires 0 < maxLevel
    ensures ScaledChance(maxLevel, maxLevel, percent) == percent
  {
    ScaledChanceAtMost(maxLevel, maxLevel, percent);
    var p := maxLevel * percent;
    var q := p / maxLevel;
    assert q * maxLevel + p % maxLevel == p;
    if q < percent {
      MulMonotone(q + 1, percent, maxLevel);
      assert false;
    }
  }

  /** Up to the cap, a higher level never gets a lower scaled chance. */
  lemma ScaledChanceMonotonic(low: UInt8, high: UInt8, maxLevel: UInt8, percent: UInt8)
    requires 0 < maxLevel && low <= high <= maxLevel
    ensures ScaledChance(low, maxLevel, percent) <= ScaledChance(high, maxLevel, percent)
  {
    ScaledChanceIsFloor(low, maxLevel, percent);
    ScaledChanceIsFloor(high, maxLevel, percent);
    var a := ScaledChance(low, maxLevel, percent);
    var b := ScaledChance(high, maxLevel, percent);
    MulMonotone(low, high, percent);
    if a > b {
      MulMonotone(b + 1, a, maxLevel);
      assert false;
    }
  }

  /** Multiplication by a non-negative factor preserves order. */
  lemma MulMonotone(x: int, y: int, k: nat)
    requires x <= y
    ensures x * k <= y * k
  {
    var d := y - x;
    assert y * k == x * k + d * k;
  }

  // ---------------------------------------------------------------------------
  // The reset rule
  // ---------------------------------------------------------------------------

  /**
   * Wherever the chance is defined without the byte wrap, a reset happens
   * exactly for an eligible random bot that passes the gate: with scaling,
   * a roll under level * percent / maxLevel rounded down; without it, a level
   * at or above the cap and a roll under the configured percent.
   */
  lemma ShouldResetExactly(cfg: Config, level: UInt8, isBot: bool, isRandomBot: bool, roll: Roll)
    requires cfg.Valid() && (!cfg.scaledChance || level <= cfg.maxLevel)
    ensures ShouldReset(cfg, level, isBot, isRandomBot, roll) <==>
      level != 1 && isBot && isRandomBot &&
      (if cfg.scaledChance then roll < level * cfg.resetChancePercent / cfg.maxLevel
       else level >= cfg.maxLevel && roll < cfg.resetChancePercent)
  {
    if cfg.scaledChance {
      ScaledChanceAtMost(level, cfg.maxLevel, cfg.resetChancePercent);
    }
  }

  /** Level 1, a player that is not a bot, and a bot that is not a random bot are never reset. */
  lemma IneligibleNeverReset(cfg: Config, level: UInt8, isBot: bool, isRandomBot: bool, roll: Roll)
    requires cfg.Valid()
    requires level == 1 || !isBot || !isRandomBot
    ensures !ShouldReset(cfg, level, isBot, isRandomBot, roll)
  {
  }

  /** Without scaling, a bot below the cap is never reset, whatever the roll. */
  lemma UnscaledBelowCapNeverReset(cfg: Config, level: UInt8, isBot: bool, isRandomBot: bool, roll: Roll)
    requires cfg.Valid() && !cfg.scaledChance && level < cfg.maxLevel
    ensures !ShouldReset(cfg, level, isBot, isRandomBot, roll)
  {
  }

  /** Without scaling, a random bot at or above the cap is reset exactly when the roll is under the configured chance. */
  lemma UnscaledAtCapRollsConfiguredChance(cfg: Config, level: UInt8, roll: Roll)
    requires cfg.Valid() && !cfg.scaledChance && level >= cfg.maxLevel
    ensures ShouldReset(cfg, level, true, true, roll) <==> roll < cfg.resetChancePercent
  {
  }

  /** With scaling, a random bot up to the cap is reset exactly when the roll is under level * percent / maxLevel, rounded down. */
  lemma ScaledRollsProportionalChance(cfg: Config, level: UInt8, roll: Roll)
    requires cfg.Valid() && cfg.scaledChance && 1 < level <= cfg.maxLevel
    ensures ShouldReset(cfg, level, true, true, roll) <==>
      roll < level * cfg.resetChancePercent / cfg.maxLevel
  {
    ScaledChanceAtMost(level, cfg.maxLevel, cfg.resetChancePercent);
  }

  /** A chance of 100 at the cap resets every random bot, whatever the roll. */
  lemma FullChanceAtCapAlwaysResets(cfg: Config, level: UInt8, roll: Roll)
    requires cfg.Valid() && cfg.resetChancePercent == 100
    requires level == cfg.maxLevel || (!cfg.scaledChance && level > cfg.maxLevel)
    ensures ShouldReset(cfg, level, true, true, roll)
  {
    if cfg.scaledChance {
      ScaledChanceAtCap(cfg.maxLevel, 100);
    }
  }

  /** A configured chance of 0 never resets anyone, scaled or not. */
  lemma ZeroChanceNeverResets(cfg: Config, level: UInt8, isBot: bool, isRandomBot: bool, roll: Roll)
    requires cfg.Valid() && cfg.resetChancePercent == 0
    ensures !ShouldReset(cfg, level, isBot, isRandomBot, roll)
  {
    assert level * cfg.resetChancePercent == 0;
    assert ResetChance(cfg, level) == 0;
  }

  /** With scaling, raising the level up to the cap never turns a reset into no reset for the same roll. */
  lemma ScaledResetMonotonic(cfg: Config, low: UInt8, high: UInt8, roll: Roll)
    requires cfg.Valid() && cfg.scaledChance && 1 < low <= high <= cfg.maxLevel
    requires ShouldReset(cfg, low, true, true, roll)
    ensures ShouldReset(cfg, high, true, true, roll)
  {
    ScaledChanceMonotonic(low, high, cfg.maxLevel, cfg.resetChancePercent);
  }
}
