/** Picking an item off a shelf slot with the F key: a range flag, and a
    pickup whose success chance improves with the player's stealth and
    pickpocket skills. The slot visual itself is presentation; only what
    the pickup reads from it (empty, being picked up, its goods) is kept. */
module ShelfInteraction {
  import opened Common
  import opened GoodsData
  import opened Players

  /** The pickup chance: 1 − 0.1·difficulty, plus the stealth bonus and half
      the pickpocket chance, less the goods' stealth penalty, clamped to
      [0, 1]. */
  function PickupChance(g: Goods, stealthBonus: real, pickpocketChance: real): (r: real)
    ensures 0.0 <= r <= 1.0
  {
    Clamp01(1.0 - (g.stealingDifficulty as real) * 0.1 + stealthBonus + pickpocketChance * 0.5 - StealthPenalty(g))
  }

  /** Better skills never lower the chance, and a harder item never raises
      it. */
  lemma PickupChanceMonotone(g: Goods, h: Goods, b1: real, b2: real, p1: real, p2: real)
    requires b1 <= b2 && p1 <= p2
    requires h == g.(stealingDifficulty := h.stealingDifficulty) && g.stealingDifficulty <= h.stealingDifficulty
    ensures PickupChance(g, b1, p1) <= PickupChance(g, b2, p2)
    ensures PickupChance(h, b1, p1) <= PickupChance(g, b1, p1)
  {
    assert StealthPenalty(h) == StealthPenalty(g);
    assert (g.stealingDifficulty as real) * 0.1 <= (h.stealingDifficulty as real) * 0.1;
  }

  /** What the pickup reads from the slot it is attached to. */
  datatype Slot = Slot(isEmpty: bool, isBeingPickedUp: bool, goods: Option<Goods>)

  /** PickupItem on the slot visual: a slot that holds an item and is not
      already being picked up starts its pickup animation; any other slot
      is left as it is. */
  function PickupItem(s: Slot): (r: Slot)
    ensures r.isEmpty == s.isEmpty && r.goods == s.goods
    ensures r.isBeingPickedUp <==> s.isBeingPickedUp || !s.isEmpty
  {
    if s.isEmpty || s.isBeingPickedUp then s else s.(isBeingPickedUp := true)
  }

  /** The end of the pickup animation: the item is gone and the latch is
      released. */
  function FinishPickup(s: Slot): (r: Slot)
    ensures r.isEmpty && !r.isBeingPickedUp && r.goods == s.goods
  {
    s.(isEmpty := true, isBeingPickedUp := false)
  }

  /** Starting a pickup twice is starting it once, and a slot whose pickup
      has started or finished is no longer offered to a new pickup. */
  lemma PickupLatches(s: Slot)
    ensures PickupItem(PickupItem(s)) == PickupItem(s)
    ensures PickupItem(s).isEmpty || PickupItem(s).isBeingPickedUp
    ensures PickupItem(FinishPickup(s)) == FinishPickup(s)
  {
  }

  /** How a pickup attempt ended: it did not apply, the inventory refused
      the goods, the roll failed, or the goods were taken. */
  datatype Pickup = Ignored | Refused | Failed | Taken

  class ShelfItemInteraction {
    var interactionRange: real
    var showOutline: bool
    var isPlayerInRange: bool
    /** How many times the visuals were refreshed. */
    var visualRefreshes: nat

    constructor ()
      ensures interactionRange == 2.0 && showOutline && !isPlayerInRange && visualRefreshes == 0
    {
      interactionRange := 2.0;
      showOutline := true;
      isPlayerInRange := false;
      visualRefreshes := 0;
    }

    /** CheckPlayerDistance with the player's distance, if there is a
        player: the flag becomes "distance ≤ range" and the visuals refresh
        exactly when it changes. */
    method CheckPlayerDistance(distance: Option<real>)
      modifies this`isPlayerInRange, this`visualRefreshes
      ensures distance.None? ==> isPlayerInRange == old(isPlayerInRange) && visualRefreshes == old(visualRefreshes)
      ensures distance.Some? ==> (isPlayerInRange <==> distance.value <= interactionRange)
      ensures distance.Some? ==>
        visualRefreshes == old(visualRefreshes) + (if isPlayerInRange != old(isPlayerInRange) then 1 else 0)
    {
      if distance.None? {
        return;
      }
      var wasInRange := isPlayerInRange;
      isPlayerInRange := distance.value <= interactionRange;
      if wasInRange != isPlayerInRange {
        visualRefreshes := visualRefreshes + 1;
      }
    }

    /** HandleInput: a pickup is attempted only in range, on a slot with an
        item, and when F went down this frame; its outcome is then that of
        TryPickupItem. `after` is the slot afterwards. */
    method HandleInput(fPressed: bool, slot: Option<Slot>, player: Player?, inventory: PlayerInventory?, roll: real)
      returns (result: Pickup, after: Option<Slot>)
      requires inventory != null ==> inventory.Valid()
      modifies if player != null then {player} else {}, inventory, if inventory != null then {inventory.mover} else {}
      ensures inventory != null ==> inventory.Valid()
      ensures !isPlayerInRange || slot.None? || slot.value.isEmpty || !fPressed ==>
        result == Ignored && after == slot
        && (player != null ==> player.crimeRate == old(player.crimeRate))
        && (inventory != null ==> inventory.goods == old(inventory.goods) && inventory.Untouched())
      ensures isPlayerInRange && slot.Some? && !slot.value.isEmpty && fPressed ==>
        (result == Ignored <==>
           slot.value.isBeingPickedUp || player == null || inventory == null || slot.value.goods.None?)
        && (result == Taken ==> after == Some(PickupItem(slot.value)))
        && (result != Taken ==> after == slot)
        && (result in {Ignored, Refused, Failed} ==> (inventory != null ==> inventory.Untouched()))
        && (result in {Ignored, Refused} ==>
              (player != null ==> player.crimeRate == old(player.crimeRate))
              && (inventory != null ==> inventory.goods == old(inventory.goods)))
        && (result != Ignored ==>
              var g := slot.value.goods.value;
              (result == Refused <==> !old(inventory.CanAddItem(Some(g))))
              && (result == Failed <==>
                    old(inventory.CanAddItem(Some(g)))
                    && roll > PickupChance(g, StealthBonus(player.stealthLevel), PickpocketChance(player.pickpocketLevel)))
              && (result == Failed ==>
                    player.crimeRate == CrimeAfter(old(player.crimeRate), 10) && inventory.goods == old(inventory.goods))
              && (result == Taken ==>
                    player.crimeRate == CrimeAfter(old(player.crimeRate), g.stealingDifficulty * 5)
                    && inventory.goods == old(inventory.goods) + [g]
                    && inventory.State() == old(inventory.State()).(goods := inventory.goods,
                         currentWeight := old(inventory.currentWeight) + inventory.WeightOf(g))
                    && inventory.MoverFollowsLoad()))
      ensures player != null ==> player.State() == old(player.State()).(crimeRate := player.crimeRate)
    {
      if !isPlayerInRange || slot.None? || slot.value.isEmpty {
        return Ignored, slot;
      }
      if fPressed {
        result, after := TryPickupItem(slot, player, inventory, roll);
      } else {
        result, after := Ignored, slot;
      }
    }

    /** TryPickupItem with the slot, the player and its inventory component,
        and the drawn roll. Nothing happens without a slot holding goods
        that is not already being picked up, without a player or an
        inventory, or when the inventory cannot take the goods. A failed
        roll adds 10 crime points and takes nothing; a success adds the goods
        to the inventory and difficulty × 5 crime points, and starts the
        slot's pickup (PickupItem); `after` is the slot afterwards. */
    method TryPickupItem(slot: Option<Slot>, player: Player?, inventory: PlayerInventory?, roll: real)
      returns (result: Pickup, after: Option<Slot>)
      requires inventory != null ==> inventory.Valid()
      modifies if player != null then {player} else {}, inventory, if inventory != null then {inventory.mover} else {}
      ensures inventory != null ==> inventory.Valid()
      ensures result == Ignored <==>
        slot.None? || slot.value.isEmpty || slot.value.isBeingPickedUp || player == null || inventory == null
        || slot.value.goods.None?
      ensures result == Taken ==> after == Some(PickupItem(slot.value)) && after.value.isBeingPickedUp
      ensures result != Taken ==> after == slot
      ensures result in {Ignored, Refused, Failed} ==> (inventory != null ==> inventory.Untouched())
      ensures result in {Ignored, Refused} ==>
        (player != null ==> player.crimeRate == old(player.crimeRate))
        && (inventory != null ==> inventory.goods == old(inventory.goods))
      ensures result != Ignored ==>
        var g := slot.value.goods.value;
        (result == Refused <==> !old(inventory.CanAddItem(Some(g))))
        && (result == Failed <==>
              old(inventory.CanAddItem(Some(g)))
              && roll > PickupChance(g, StealthBonus(player.stealthLevel), PickpocketChance(player.pickpocketLevel)))
        && (result == Failed ==>
              player.crimeRate == CrimeAfter(old(player.crimeRate), 10) && inventory.goods == old(inventory.goods))
        && (result == Taken ==>
              player.crimeRate == CrimeAfter(old(player.crimeRate), g.stealingDifficulty * 5)
              && inventory.goods == old(inventory.goods) + [g]
              && inventory.State() == old(inventory.State()).(goods := inventory.goods,
                   currentWeight := old(inventory.currentWeight) + inventory.WeightOf(g))
              && inventory.MoverFollowsLoad())
      ensures player != null ==> player.State() == old(player.State()).(crimeRate := player.crimeRate)
    {
      after := slot;
      if slot.None? || slot.value.isEmpty || slot.value.isBeingPickedUp {
        return Ignored, after;
      }
      if player == null || inventory == null {
        return Ignored, after;
      }
      var goods := slot.value.goods;
      if goods.None? {
        return Ignored, after;
      }
      if !inventory.CanAddItem(goods) {
        return Refused, after;
      }
      var chance := PickupChance(goods.value, player.GetStealthBonus(), PickpocketChance(player.pickpocketLevel));
      if roll > chance {
        player.AddCrimeRate(10);
        return Failed, after;
      }
      Take(player, inventory, goods.value);
      after := Some(PickupItem(slot.value));
      result := Taken;
    }

    /** A successful pickup: the goods go into the inventory, which takes
        them, and the player gains difficulty × 5 crime points; nothing else
        about either changes. */
    method Take(player: Player, inventory: PlayerInventory, g: Goods)
      requires inventory.Valid() && inventory.CanAddItem(Some(g))
      modifies player`crimeRate, inventory, inventory.mover
      ensures inventory.Valid()
      ensures player.crimeRate == CrimeAfter(old(player.crimeRate), g.stealingDifficulty * 5)
      ensures inventory.goods == old(inventory.goods) + [g]
      ensures inventory.State() == old(inventory.State()).(goods := inventory.goods,
                currentWeight := old(inventory.currentWeight) + inventory.WeightOf(g))
      ensures inventory.MoverFollowsLoad()
    {
      var outcome := inventory.TryAddItem(Some(g));
      assert outcome == Added;
      player.AddCrimeRate(g.stealingDifficulty * 5);
    }
  }
}
