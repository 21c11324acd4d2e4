# mod-player-bot-reset — a Dafny model of the reset rule

This module is for a game server with automated players ("bots"). When a
random bot levels up, it may throw the bot back to level 1. The settings are
read once at startup. `ResetBotLevel.MaxLevel` is the level at or above
which the reset roll happens. `ResetBotLevel.ResetChance` is the chance in percent.
`ResetBotLevel.ScaledChance` turns on a chance that grows with the level and
is rolled at every level-up. `ResetBotLevel.DebugMode` only adds logging.

The model has three modules:

- `BotResetConfig` (config.dfy) models the four globals and how they are
  loaded. `Settings` is a class whose `Load` method assigns and clamps the
  fields one at a time, as the source does. `LoadConfig` says the same thing
  as a pure function. Each raw `uint32` value is first cut to `uint8`
  (`% 256`) and only then checked against its range. So a raw `MaxLevel` of
  256 becomes 0 and is replaced by 80, but a raw 260 becomes 4 and is kept.
- `ResetRule` (reset_rule.dfy) holds the decision. `ScaledChance` is
  `level * percent / maxLevel`, rounded down and cast to a byte.
  `ResetChance` is the chance actually rolled against. `ShouldReset` is the
  level-change rule, with the roll `urand(0, 99)` passed in as a parameter.
  The lemmas state what this rule guarantees.
- `ResetPlayerScript` (player_script.dfy) holds the player hooks. `Player`
  is a class with `level`, `xp` and the main bag (`INVENTORY_SLOT_BAG_0`) as
  an array of slots. `ResetToLevelOne` sets level 1 and XP 0, then empties
  the equipment slots `EQUIPMENT_SLOT_START .. EQUIPMENT_SLOT_END - 1` in a
  loop (`DestroyEquippedItems`). The loop is proved against
  `DestroyEquipment`, a slot-by-slot function. An induction lemma shows that
  this function gives the reference `StripEquipment`. `OnLevelChanged` runs
  the checks in the source's order and is proved against `ShouldReset`.
  `OnLogin` changes no state: it has no `modifies` clause, and it returns
  whether the notice was sent.

`EQUIPMENT_SLOT_START` and `EQUIPMENT_SLOT_END` are host constants. The
model uses the host's values, 0 and 19, and requires the bag to have at least
19 slots. Two answers come from outside collaborators:
`sPlayerbotsMgr->GetPlayerbotAI` and `sRandomPlayerbotMgr->IsRandomBot`. Each
answer is a constant field of `Player` (`botAI`, `randomBot`). The bot checks
`IsPlayerBot` and `IsPlayerRandomBot` are functions of those fields, and both
return false for a null player.

This revision of `src/mod-player-bot-reset.cpp` always resets to level 1
and always clamps `MaxLevel` to [2,80]. It has no skip levels, no Death
Knight floor, no played-time gate and no periodic scan. On a reset it strips
the equipment slot by slot and then runs the maintenance action
(lines 165-187).

## Model

| member | source | states |
|---|---|---|
| `BotResetConfig.Truncate8` | src/mod-player-bot-reset.cpp:30-38 | no ensures of its own: the `static_cast<uint8>` of the two raw values, its result typed as a byte; `ClampMaxLevel`, `ClampResetChance` and `TruncationBeforeClamp` state what it does to the loaded values |
| `BotResetConfig.ClampMaxLevel` | src/mod-player-bot-reset.cpp:30-36 | the result is in [2,80]; it equals the low byte of the raw value exactly when that byte is in [2,80], and is 80 otherwise |
| `BotResetConfig.ClampResetChance` | src/mod-player-bot-reset.cpp:38-44 | the result is at most 100; it equals the low byte of the raw value exactly when that byte is at most 100, and is 100 otherwise |
| `BotResetConfig.LoadConfig` | src/mod-player-bot-reset.cpp:28-49 | loaded settings are valid (2 <= maxLevel <= 80, chance <= 100); the two flags are copied unchanged; in-range raw values are kept |
| `BotResetConfig.TruncationBeforeClamp` | src/mod-player-bot-reset.cpp:30-44 | the byte cast comes before the range check: raw 256 gives 80, raw 260 gives 4, 1 and 81 give 80; a raw chance of 300 gives 44 and 101 gives 100 |
| `BotResetConfig.Settings.constructor` | src/mod-player-bot-reset.cpp:20-23 | the globals start at their static initial values, which are valid |
| `BotResetConfig.Settings.Load` | src/mod-player-bot-reset.cpp:28-49 | after the step-by-step assignments the globals equal `LoadConfig` of the raw values, so they are valid |
| `ResetRule.ScaledChance` | src/mod-player-bot-reset.cpp:147 | no ensures of its own: the scaled chance as a rounded-down quotient cast to a byte; `ScaledChanceIsFloor`, `ScaledChanceAtMost`, `ScaledChanceAtCap` and `ScaledChanceMonotonic` state its properties |
| `ResetRule.ResetChance` | src/mod-player-bot-reset.cpp:143-152 | without scaling the chance is the configured percent; it is at most 100 except when scaling is on and the level is above maxLevel |
| `ResetRule.ScaledChanceAtMost` | src/mod-player-bot-reset.cpp:145-147 | up to maxLevel the scaled chance is the exact quotient level*percent/maxLevel (no byte wrap) and is at most the configured percent |
| `ResetRule.ScaledChanceIsFloor` | src/mod-player-bot-reset.cpp:147 | up to maxLevel the scaled chance r is the rounded-down quotient: r*maxLevel <= level*percent < (r+1)*maxLevel |
| `ResetRule.ScaledChanceAtCap` | src/mod-player-bot-reset.cpp:147 | at level == maxLevel the scaled chance equals the configured percent |
| `ResetRule.ScaledChanceMonotonic` | src/mod-player-bot-reset.cpp:147 | up to maxLevel the scaled chance never decreases as the level rises |
| `ResetRule.ShouldReset` | src/mod-player-bot-reset.cpp:119-158 | no ensures of its own: the decision, with the early exits, the gate and the roll in the source's order; `ShouldResetExactly` and the case lemmas below state its properties |
| `ResetRule.ShouldResetExactly` | src/mod-player-bot-reset.cpp:119-158 | with scaling off, or at any level up to maxLevel, a reset happens if and only if the level is not 1, the player is a bot and a random bot, and either scaling is on and roll < floor(level*percent/maxLevel), or scaling is off, level >= maxLevel and roll < percent |
| `ResetRule.IneligibleNeverReset` | src/mod-player-bot-reset.cpp:119-141 | level 1, a non-bot or a bot that is not a random bot is never reset, whatever the settings and roll |
| `ResetRule.UnscaledBelowCapNeverReset` | src/mod-player-bot-reset.cpp:144-156 | with scaling off, no level below maxLevel is reset, whatever the roll |
| `ResetRule.UnscaledAtCapRollsConfiguredChance` | src/mod-player-bot-reset.cpp:144-158 | with scaling off and level >= maxLevel, a random bot is reset exactly when roll < configured percent |
| `ResetRule.ScaledRollsProportionalChance` | src/mod-player-bot-reset.cpp:145-158 | with scaling on and 1 < level <= maxLevel, a random bot is reset exactly when roll < floor(level*percent/maxLevel) |
| `ResetRule.FullChanceAtCapAlwaysResets` | src/mod-player-bot-reset.cpp:156-158 | with chance 100, a random bot at maxLevel (or above it with scaling off) is reset for every roll in [0,99] |
| `ResetRule.ZeroChanceNeverResets` | src/mod-player-bot-reset.cpp:143-158 | with chance 0 no bot is ever reset, scaled or not, at any level |
| `ResetRule.ScaledResetMonotonic` | src/mod-player-bot-reset.cpp:145-158 | with scaling on, a roll that resets a bot at some level up to maxLevel also resets it at every higher level up to maxLevel |
| `ResetPlayerScript.DestroyItem` | src/mod-player-bot-reset.cpp:167-170 | no ensures of its own: one slot becomes empty when it holds an item; its effect over the loop is stated by `DestroyEquipmentEffect` |
| `ResetPlayerScript.DestroyEquipment` | src/mod-player-bot-reset.cpp:165-176 | no ensures of its own: the equipment loop described slot by slot; `DestroyEquipmentEffect` and `DestroyEquipmentStrips` state its properties |
| `ResetPlayerScript.StripEquipment` | src/mod-player-bot-reset.cpp:165-176 | the bag keeps its size, every equipment slot becomes empty, and every other slot is unchanged |
| `ResetPlayerScript.DestroyEquipmentEffect` | src/mod-player-bot-reset.cpp:165-176 | running the slot loop from a given slot empties every equipment slot from there to `EQUIPMENT_SLOT_END` and leaves every other slot as it was (proved by induction over the slots) |
| `ResetPlayerScript.DestroyEquipmentStrips` | src/mod-player-bot-reset.cpp:165-176 | destroying the items slot by slot from `EQUIPMENT_SLOT_START` gives exactly the stripped bag |
| `ResetPlayerScript.Player.DestroyEquippedItems` | src/mod-player-bot-reset.cpp:165-176 | the in-place loop leaves the bag equal to the slot-by-slot destruction of the old bag |
| `ResetPlayerScript.ResetView` | src/mod-player-bot-reset.cpp:160-176 | no ensures of its own: the player state after a reset (level 1, XP 0, stripped bag); `ResetIdempotent` and `ResetIsFinal` state its properties |
| `ResetPlayerScript.ResetIdempotent` | src/mod-player-bot-reset.cpp:160-176 | a second reset leaves the state of the first unchanged (the reset sets values, it applies no delta) |
| `ResetPlayerScript.ResetIsFinal` | src/mod-player-bot-reset.cpp:119-123 | after a reset the level is 1, and the rule never fires at level 1 |
| `ResetPlayerScript.Player.ResetToLevelOne` | src/mod-player-bot-reset.cpp:160-197 | afterwards level is 1, XP is 0, equipment slots are empty, other bag slots are unchanged; maintenance is requested once when the player has a playerbot AI |
| `ResetPlayerScript.IsPlayerBot` | src/mod-player-bot-reset.cpp:54-64 | a null player is never a bot |
| `ResetPlayerScript.IsPlayerRandomBot` | src/mod-player-bot-reset.cpp:66-75 | a null player is never a random bot |
| `ResetPlayerScript.OnLogin` | src/mod-player-bot-reset.cpp:103-109 | the notice is sent exactly when the player is not null; no player state is modified |
| `ResetPlayerScript.OnLevelChanged` | src/mod-player-bot-reset.cpp:111-200 | returns whether a reset happened, which is exactly `ShouldReset` of the new level, the bot checks and the roll; on a reset the player's state is the reset state, otherwise level, XP and the whole bag are unchanged |

## Left out

- Logging (`LOG_INFO`, `LOG_ERROR`, every `g_DebugMode` branch) and chat messages (`ChatHandler::SendSysMessage`) are output only. `OnLogin` reports the notice as its return value. The reset message is not modelled.
- `sConfigMgr->GetOption` is modelled by the raw values it returns, passed to `Settings.Load`. How configuration files are parsed is not modelled.
- `urand(0, 99)` is modelled as the parameter `roll` of type `Roll` (0..99). The source draws it only when the level gate passes. That is not observable in the model.
- `ResetRule.ScaledChance`: the source computes `(float)level / maxLevel * percent` in single-precision floating point and truncates it. The model uses the exact integer quotient rounded down. The two may differ by one where floating-point rounding falls just below an integer. For example, at level 3, maxLevel 19 and percent 95, the float product is 14.999999, so the source rolls against 14 while the model rolls against 15. The float result is never higher than the model's. At level == maxLevel the two agree.
- `ResetRule.ResetChance`: above `maxLevel` with scaling on, the product can exceed 255, and the C++ float-to-`uint8` cast is then undefined. The model keeps the low byte, as common x86-64 code does. No bound is stated for that case, and the scaled-chance lemmas are limited to `level <= maxLevel`.
- `AutoMaintenanceOnLevelupAction::Execute` re-gears the bot. The model only counts the requests in the ghost field `maintenanceRequests`. Its effect on level and equipment is not modelled, so the reset state is the state before maintenance runs. The "Failed to retrieve PlayerbotAI" branch cannot occur with a constant `botAI` field: the bot check has already found the AI.
- `DestroyItem` internals (item templates, the item's own storage) are not modelled. Destroying an item means that its slot becomes `Empty`.
- `ResetBotLevelWorldScript::OnStartup` and `Addmod_player_bot_resetScripts` only register the scripts with the host: they are not modelled. `Settings.Load` stands for the startup load.
- The SetLevel/XP writes go straight to the fields. Host side effects of `Player::SetLevel` (stats, updates to the client) are not modelled.
