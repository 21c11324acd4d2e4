/**
 * The player hooks: the bot checks, the login notice, and the level-change
 * hook that applies the reset rule and resets a bot in place.
 */
module ResetPlayerScript {
  import opened BotResetConfig
  import opened ResetRule

  /** Range of the equipment slots in the player's main bag (host constants). */
  const EQUIPMENT_SLOT_START: nat := 0
  const EQUIPMENT_SLOT_END: nat := 19

  /** One position of the main bag: empty, or holding an item (by template entry). */
  datatype Slot = Empty | Holds(itemEntry: nat)

  /** What the playerbot manager returns for a player: no AI, or an AI that may or may not be a bot AI. */
  datatype PlayerbotAI = NoPlayerbotAI | PlayerbotAI(isBotAI: bool)

  /** The part of a player that the reset changes. */
  datatype PlayerView = PlayerView(level: UInt8, xp: UInt32, bag: seq<Slot>)

  /** The main bag with every equipment slot emptied and every other slot kept. */
  function StripEquipment(bag: seq<Slot>): (r: seq<Slot>)
    ensures |r| == |bag|
    ensures forall i :: EQUIPMENT_SLOT_START <= i < EQUIPMENT_SLOT_END && i < |bag| ==> r[i] == Empty
    ensures forall i :: 0 <= i < |bag| && !(EQUIPMENT_SLOT_START <= i < EQUIPMENT_SLOT_END) ==> r[i] == bag[i]
  {
    seq(|bag|, i requires 0 <= i < |bag| =>
      if EQUIPMENT_SLOT_START <= i < EQUIPMENT_SLOT_END then Empty else bag[i])
  }

  /** `DestroyItem` on one bag slot when `GetItemByPos` finds an item there. */
  function DestroyItem(bag: seq<Slot>, slot: nat): seq<Slot>
    requires slot < |bag|
  {
    if bag[slot].Holds? then bag[slot := Empty] else bag
  }

  /** The equipment loop from `slot` on, one slot at a time. */
  function DestroyEquipment(bag: seq<Slot>, slot: nat): seq<Slot>
    requires EQUIPMENT_SLOT_END <= |bag|
    decreases EQUIPMENT_SLOT_END - slot
  {
    if slot >= EQUIPMENT_SLOT_END then bag
    else DestroyEquipment(DestroyItem(bag, slot), slot + 1)
  }

  /** The loop from `slot` on empties the equipment slots from `slot` and keeps every other slot. */
  lemma {:induction false} DestroyEquipmentEffect(bag: seq<Slot>, slot: nat)
    requires EQUIPMENT_SLOT_END <= |bag|
    ensures |DestroyEquipment(bag, slot)| == |bag|
    ensures forall i :: slot <= i < EQUIPMENT_SLOT_END ==> DestroyEquipment(bag, slot)[i] == Empty
    ensures forall i :: 0 <= i < |bag| && !(slot <= i < EQUIPMENT_SLOT_END) ==> DestroyEquipment(bag, slot)[i] == bag[i]
    decreases EQUIPMENT_SLOT_END - slot
  {
    if slot < EQUIPMENT_SLOT_END {
      DestroyEquipmentEffect(DestroyItem(bag, slot), slot + 1);
    }
  }

  /** The whole loop, slot by slot, yields exactly the stripped bag. */
  lemma DestroyEquipmentStrips(bag: seq<Slot>)
    requires EQUIPMENT_SLOT_END <= |bag|
    ensures DestroyEquipment(bag, EQUIPMENT_SLOT_START) == StripEquipment(bag)
  {
    DestroyEquipmentEffect(bag, EQUIPMENT_SLOT_START);
    var r := DestroyEquipment(bag, EQUIPMENT_SLOT_START);
    assert forall i :: 0 <= i < |bag| ==> r[i] == StripEquipment(bag)[i];
  }

  /** The state a reset leaves: level 1, no experience, no equipment. */
  function ResetView(v: PlayerView): PlayerView
  {
    PlayerView(1, 0, StripEquipment(v.bag))
  }

  /** A reset sets values rather than applying a delta: a second reset changes nothing more. */
  lemma ResetIdempotent(v: PlayerView)
    ensures ResetView(ResetView(v)) == ResetView(v)
  {
    var once := StripEquipment(v.bag);
    var twice := StripEquipment(once);
    assert forall i :: 0 <= i < |once| ==> twice[i] == once[i];
  }

  /** A reset player is at level 1, where the rule can never fire again. */
  lemma ResetIsFinal(cfg: Config, v: PlayerView, isBot: bool, isRandomBot: bool, roll: Roll)
    requires cfg.Valid()
    ensures !ShouldReset(cfg, ResetView(v).level, isBot, isRandomBot, roll)
  {
    IneligibleNeverReset(cfg, ResetView(v).level, isBot, isRandomBot, roll);
  }

  class Player {
    var level: UInt8
    var xp: UInt32
    /** The main bag (`INVENTORY_SLOT_BAG_0`); its first slots are the equipment. */
    const bag: array<Slot>
    /** The answer of the playerbot manager for this player. */
    const botAI: PlayerbotAI
    /** Whether the random-bot manager lists this player. */
    const randomBot: bool
    /** How many times the level-up maintenance action was run for this player. */
    ghost var maintenanceRequests: nat

    ghost predicate Valid()
      reads this
    {
      EQUIPMENT_SLOT_END <= bag.Length
    }

    ghost function View(): PlayerView
      reads this, bag
    {
      PlayerView(level, xp, bag[..])
    }

    constructor (level: UInt8, xp: UInt32, bag: array<Slot>, botAI: PlayerbotAI, randomBot: bool)
      requires EQUIPMENT_SLOT_END <= bag.Length
      ensures Valid()
      ensures this.level == level && this.xp == xp && this.bag == bag
      ensures this.botAI == botAI && this.randomBot == randomBot
      ensures maintenanceRequests == 0
    {
      this.level := level;
      this.xp := xp;
      this.bag := bag;
      this.botAI := botAI;
      this.randomBot := randomBot;
      maintenanceRequests := 0;
    }

    /** Sets level 1 and zero experience, destroys every equipped item, then asks for maintenance. */
    method ResetToLevelOne()
      requires Valid()
      modifies this, bag
      ensures Valid()
      ensures View() == ResetView(old(View()))
      ensures maintenanceRequests == old(maintenanceRequests) + (if botAI.PlayerbotAI? then 1 else 0)
    {
      ghost var oldBag := bag[..];
      level := 1;
      xp := 0;
      DestroyEquippedItems();
      DestroyEquipmentStrips(oldBag);
      assert View() == PlayerView(1, 0, StripEquipment(oldBag));
      if botAI.PlayerbotAI? {
        maintenanceRequests := maintenanceRequests + 1;
      }
    }

    /** The loop over the equipment slots, destroying the item in each occupied one. */
    method DestroyEquippedItems()
      requires Valid()
      modifies bag
      ensures bag[..] == DestroyEquipment(old(bag[..]), EQUIPMENT_SLOT_START)
    {
      var slot := EQUIPMENT_SLOT_START;
      while slot < EQUIPMENT_SLOT_END
        invariant EQUIPMENT_SLOT_START <= slot <= EQUIPMENT_SLOT_END
        invariant DestroyEquipment(bag[..], slot) == DestroyEquipment(old(bag[..]), EQUIPMENT_SLOT_START)
      {
        ghost var before := bag[..];
        if bag[slot] != Empty {
          bag[slot] := Empty;
        }
        assert bag[..] == DestroyItem(before, slot);
        slot := slot + 1;
      }
    }
  }

  /** A null player is not a bot; otherwise it is one when it has a playerbot AI that is a bot AI. */
  function IsPlayerBot(player: Player?): (r: bool)
    ensures r ==> player != null
  {
    if player == null then false
    else player.botAI.PlayerbotAI? && player.botAI.isBotAI
  }

  /** A null player is not a random bot; otherwise the random-bot manager decides. */
  function IsPlayerRandomBot(player: Player?): (r: bool)
    ensures r ==> player != null
  {
    if player == null then false
    else player.randomBot
  }

  /** The login hook only sends the "module active" notice, and only to a real player. */
  method OnLogin(player: Player?) returns (noticeSent: bool)
    ensures noticeSent <==> player != null
  {
    if player == null {
      return false;
    }
    noticeSent := true;
  }

  /**
   * The level-change hook. `roll` is the value `urand(0, 99)` would return;
   * `oldLevel` is accepted and ignored, as by the host hook.
   */
  method OnLevelChanged(settings: Settings, player: Player?, oldLevel: UInt8, roll: Roll) returns (reset: bool)
    requires settings.Valid()
    requires player != null ==> player.Valid()
    modifies player, if player != null then {player.bag} else {}
    ensures reset <==> (player != null &&
      ShouldReset(settings.Current(), old(player.level), IsPlayerBot(player), IsPlayerRandomBot(player), roll))
    ensures player != null ==> player.Valid()
    ensures player != null ==> player.View() == if reset then ResetView(old(player.View())) else old(player.View())
    ensures player != null ==>
      player.maintenanceRequests == old(player.maintenanceRequests) + (if reset && player.botAI.PlayerbotAI? then 1 else 0)
  {
    reset := false;
    if player == null {
      return;
    }
    var newLevel := player.level;
    if newLevel == 1 {
      return;
    }
    if !IsPlayerBot(player) {
      return;
    }
    if !IsPlayerRandomBot(player) {
      return;
    }
    var resetChance := settings.resetChancePercent;
    if settings.scaledChance {
      resetChance := ScaledChance(newLevel, settings.maxLevel, settings.resetChancePercent);
    }
    if settings.scaledChance || newLevel >= settings.maxLevel {
      if roll < resetChance {
        player.ResetToLevelOne();
        reset := true;
      }
    }
  }
}
