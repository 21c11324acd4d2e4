/**
 * Configuration of the bot-reset module: the four process-wide settings,
 * their defaults, and the validation applied when they are loaded.
 */
module BotResetConfig {

  /** Unsigned integer widths used by the host. */
  type UInt8 = x: int | 0 <= x < 0x100
  type UInt32 = x: int | 0 <= x < 0x1_0000_0000

  /** The conversion `static_cast<uint8>`: the low byte of the value. */
  function Truncate8(x: int): UInt8
  {
    x % 0x100
  }

  /** Immutable snapshot of the module's settings. */
  datatype Config = Config(
    maxLevel: UInt8,            // level at or above which the unscaled reset roll happens
    resetChancePercent: UInt8,  // base reset probability, in percent
    debugMode: bool,            // verbose logging only
    scaledChance: bool)         // scale the chance by level / maxLevel
  {
    /** What loading guarantees: a usable divisor and a percentage. */
    predicate Valid()
    {
      2 <= maxLevel <= 80 && resetChancePercent <= 100
    }
  }

  /** The values the globals hold before loading (their static initialisers). */
  const DefaultConfig := Config(80, 100, false, false)

  /** `ResetBotLevel.MaxLevel`: truncated to a byte, then replaced by 80 when outside [2,80]. */
  function ClampMaxLevel(raw: UInt32): (r: UInt8)
    ensures 2 <= r <= 80
    ensures r == raw % 0x100 <==> 2 <= raw % 0x100 <= 80
    ensures !(2 <= raw % 0x100 <= 80) ==> r == 80
  {
    var b := Truncate8(raw);
    if b < 2 || b > 80 then 80 else b
  }

  /** `ResetBotLevel.ResetChance`: truncated to a byte, then lowered to 100 when above it. */
  function ClampResetChance(raw: UInt32): (r: UInt8)
    ensures r <= 100
    ensures r == raw % 0x100 <==> raw % 0x100 <= 100
    ensures raw % 0x100 > 100 ==> r == 100
  {
    var b := Truncate8(raw);
    if b > 100 then 100 else b
  }

  /** The settings that loading produces from the raw configuration values. */
  function LoadConfig(rawMaxLevel: UInt32, rawResetChance: UInt32, debugMode: bool, scaledChance: bool): (c: Config)
    ensures c.Valid()
    ensures c.debugMode == debugMode && c.scaledChance == scaledChance
    ensures 2 <= rawMaxLevel <= 80 ==> c.maxLevel == rawMaxLevel
    ensures rawResetChance <= 100 ==> c.resetChancePercent == rawResetChance
  {
    Config(ClampMaxLevel(rawMaxLevel), ClampResetChance(rawResetChance), debugMode, scaledChance)
  }

  /**
   * Truncation happens before the range check: raw 256 becomes 0 and is
   * replaced by 80, but raw 260 becomes 4 and is kept; a raw chance of 300
   * becomes 44 and is kept.
   */
  lemma TruncationBeforeClamp()
    ensures ClampMaxLevel(256) == 80
    ensures ClampMaxLevel(260) == 4
    ensures ClampMaxLevel(1) == 80 && ClampMaxLevel(81) == 80
    ensures ClampResetChance(300) == 44
    ensures ClampResetChance(101) == 100
  {
  }

  /** The four globals of the module, updated in place by loading. */
  class Settings {
    var maxLevel: UInt8
    var resetChancePercent: UInt8
    var debugMode: bool
    var scaledChance: bool

    /** The current values as a snapshot. */
    function Current(): Config
      reads this
    {
      Config(maxLevel, resetChancePercent, debugMode, scaledChance)
    }

    ghost predicate Valid()
      reads this
    {
      Current().Valid()
    }

    /** The globals with their static initialisers. */
    constructor ()
      ensures Current() == DefaultConfig
      ensures Valid()
    {
      maxLevel := 80;
      resetChancePercent := 100;
      debugMode := false;
      scaledChance := false;
    }

    /** Reads the four keys and validates them, one assignment at a time. */
    method Load(rawMaxLevel: UInt32, rawResetChance: UInt32, debug: bool, scaled: bool)
      modifies this
      ensures Current() == LoadConfig(rawMaxLevel, rawResetChance, debug, scaled)
      ensures Valid()
    {
      maxLevel := Truncate8(rawMaxLevel);
      if maxLevel < 2 || maxLevel > 80 {
        maxLevel := 80;
      }
      resetChancePercent := Truncate8(rawResetChance);
      if resetChancePercent > 100 {
        resetChancePercent := 100;
      }
      debugMode := debug;
      scaledChance := scaled;
    }
  }
}
