/** A shop shelf: the items standing on it and the theft attempt made on
    one of them. The attempt is broadcast before the outcome is rolled, so
    even a failed attempt can be witnessed. */
module Shelves {
  import opened Common
  import opened GoodsData
  import opened SuspicionEvents
  import opened StorableItems
  import opened Players

  /** The chance that a theft from a shelf succeeds: 1 − 0.1·difficulty,
      less 0.2 for fragile goods, 0.3 for valuables and 0.2 for goods over
      2 kg, clamped to [0, 1]. */
  function StealChance(g: Goods): (r: real)
    ensures 0.0 <= r <= 1.0
  {
    Clamp01(1.0 - (g.stealingDifficulty as real) * 0.1 - ShelfPenalty(g))
  }

  /** The penalties a shelf theft pays for the goods' attributes. */
  function ShelfPenalty(g: Goods): (r: real)
    ensures 0.0 <= r <= 0.7
  {
    (if g.isFragile then 0.2 else 0.0) + (if g.isValuable then 0.3 else 0.0) + (if g.weight > 2.0 then 0.2 else 0.0)
  }

  /** A roll succeeds when it does not exceed the chance. */
  predicate StealSucceeds(g: Goods, roll: real)
  {
    roll <= StealChance(g)
  }

  /** The chance never rises with the difficulty, and plain light goods of
      difficulty 0 always succeed for a roll in [0, 1]. */
  lemma StealChanceRules(g: Goods, h: Goods, roll: real)
    requires h == g.(stealingDifficulty := h.stealingDifficulty)
    requires g.stealingDifficulty <= h.stealingDifficulty
    ensures StealChance(h) <= StealChance(g)
    ensures g.stealingDifficulty == 0 && !g.isFragile && !g.isValuable && g.weight <= 2.0 && 0.0 <= roll <= 1.0
      ==> StealSucceeds(g, roll)
  {
    assert ShelfPenalty(h) == ShelfPenalty(g);
    assert (g.stealingDifficulty as real) * 0.1 <= (h.stealingDifficulty as real) * 0.1;
  }

  /** What a shelf announces: a stolen item, and that it became empty. */
  datatype ShelfEvent = ItemStolen(goods: Goods) | ShelfEmptied

  class Shelf {
    var shelfName: string
    var isLocked: bool
    var items: seq<StorableItem>
    /** The ItemStolen and ShelfEmptied notifications, in order. */
    var events: seq<ShelfEvent>

    constructor ()
      ensures shelfName == "Полка" && !isLocked && items == [] && events == []
    {
      shelfName := "Полка";
      isLocked := false;
      items := [];
      events := [];
    }

    /** CurrentItems: the goods of the items on the shelf, in list order. */
    function CurrentItems(): (r: seq<Option<Goods>>)
      reads this, set i | 0 <= i < |items| :: items[i]
      ensures |r| == |items|
      ensures forall i :: 0 <= i < |items| ==> r[i] == items[i].goods
    {
      seq(|items|, i reads this, items requires 0 <= i < |items| => items[i].goods)
    }

    /** TryStealItem with the player's inventory (if it has one) and the
        drawn roll. A missing item, one not on this shelf or a missing
        player is refused, as is goods the inventory cannot take; neither
        broadcasts. Otherwise the attempt is broadcast first; a failed roll
        then changes nothing, and a success moves the goods into the
        inventory, takes the item off the shelf and announces the theft, and
        the emptying when the shelf has no item left. */
    method TryStealItem<L(==)>(item: StorableItem?, player: Player?, inventory: PlayerInventory?, roll: real,
                               bus: SuspicionBus<L>)
      returns (ok: bool, ds: seq<Delivery<L>>)
      requires inventory != null ==> inventory.Valid()
      modifies this`items, this`events, inventory, if inventory != null then {inventory.mover} else {}
      ensures inventory != null ==> inventory.Valid()
      ensures item == null || item !in old(items) || player == null || inventory == null
              || !old(inventory.CanAddItem(item.goods)) ==>
        !ok && ds == [] && items == old(items) && events == old(events)
        && (inventory != null ==> inventory.goods == old(inventory.goods) && inventory.Untouched())
      ensures item != null && item in old(items) && player != null && inventory != null
              && old(inventory.CanAddItem(item.goods)) ==>
        item.goods.Some?
        && ds == Fanout(bus.subscribers, SuspicionEvent(item.position, TheftAmount(item.goods.value), Theft))
        && (ok <==> StealSucceeds(item.goods.value, roll))
      ensures item != null && item in old(items) && player != null && inventory != null
              && old(inventory.CanAddItem(item.goods)) ==>
        !ok ==> items == old(items) && events == old(events) && inventory.goods == old(inventory.goods)
                && inventory.Untouched()
      ensures item != null && item in old(items) && player != null && inventory != null
              && old(inventory.CanAddItem(item.goods)) ==>
        ok ==> inventory.goods == old(inventory.goods) + [item.goods.value]
               && inventory.State() == old(inventory.State()).(goods := inventory.goods,
                    currentWeight := old(inventory.currentWeight) + inventory.WeightOf(item.goods.value))
               && inventory.MoverFollowsLoad()
      ensures item != null && item in old(items) && player != null && inventory != null
              && old(inventory.CanAddItem(item.goods)) ==>
        ok ==> items == RemoveFirst<StorableItem>(old(items), item)
               && events == old(events) + [ItemStolen(item.goods.value)] + (if items == [] then [ShelfEmptied] else [])
    {
      ds := [];
      if item == null || item !in items || player == null {
        return false, ds;
      }
      if inventory == null || !inventory.CanAddItem(item.goods) {
        return false, ds;
      }
      var it: StorableItem := item;
      var g := it.goods.value;
      ds := it.OnStolen(bus);
      if !StealSucceeds(g, roll) {
        return false, ds;
      }
      Receive(it, g, inventory);
      ok := true;
    }

    /** A successful theft: the inventory takes the goods, then the item
        leaves the shelf as TakeOff says; nothing else about the inventory
        changes. */
    method Receive(item: StorableItem, g: Goods, inventory: PlayerInventory)
      requires inventory.Valid() && inventory.CanAddItem(Some(g))
      modifies this`items, this`events, inventory, inventory.mover
      ensures inventory.Valid()
      ensures inventory.goods == old(inventory.goods) + [g]
      ensures inventory.State() == old(inventory.State()).(goods := inventory.goods,
                currentWeight := old(inventory.currentWeight) + inventory.WeightOf(g))
      ensures inventory.MoverFollowsLoad()
      ensures items == RemoveFirst(old(items), item)
      ensures events == old(events) + [ItemStolen(g)] + (if items == [] then [ShelfEmptied] else [])
    {
      var outcome := inventory.TryAddItem(Some(g));
      assert outcome == Added;
      TakeOff(item, g);
    }

    /** A successful theft's bookkeeping: the item leaves the list, the
        theft is announced, and the emptying when no item is left. */
    method TakeOff(item: StorableItem, g: Goods)
      modifies this`items, this`events
      ensures items == RemoveFirst(old(items), item)
      ensures events == old(events) + [ItemStolen(g)] + (if items == [] then [ShelfEmptied] else [])
    {
      events := events + [ItemStolen(g)];
      items := RemoveFirst(items, item);
      if |items| == 0 {
        events := events + [ShelfEmptied];
      }
    }
  }
}
