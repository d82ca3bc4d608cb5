/** A piece of merchandise standing on a shelf. Stealing it (or trying to)
    broadcasts a theft whose magnitude grows with the price and the
    difficulty of the goods. */
module StorableItems {
  import opened Common
  import opened GoodsData
  import opened SuspicionEvents

  /** The magnitude of the theft event for these goods: 15, plus a fifth of
      the price, plus five per difficulty point. */
  function TheftAmount(g: Goods): (r: real)
    ensures g.price >= 0 && g.stealingDifficulty >= 0 ==> r >= 15.0
  {
    15.0 + (g.price as real) / 5.0 + (g.stealingDifficulty as real) * 5.0
  }

  /** Pricier or harder goods never make a smaller event: a unit of price
      adds a fifth, a difficulty point adds five. */
  lemma TheftAmountGrows(g: Goods, h: Goods)
    requires g.price <= h.price && g.stealingDifficulty <= h.stealingDifficulty
    ensures TheftAmount(g) <= TheftAmount(h)
    ensures TheftAmount(h) - TheftAmount(g)
      == ((h.price - g.price) as real) / 5.0 + ((h.stealingDifficulty - g.stealingDifficulty) as real) * 5.0
  {
  }

  class StorableItem {
    var goods: Option<Goods>
    /** The shelf the item stands on (a Shelf, or none). */
    var parentShelf: object?
    var highlightMaterial: object?
    /** The item's world position. */
    var position: Vec3

    constructor (position: Vec3)
      ensures goods == None && parentShelf == null && highlightMaterial == null
      ensures this.position == position
    {
      goods := None;
      parentShelf := null;
      highlightMaterial := null;
      this.position := position;
    }

    /** Initialize records the goods, the shelf and the highlight material. */
    method Initialize(goods: Option<Goods>, parentShelf: object?, highlightMaterial: object?)
      modifies this`goods, this`parentShelf, this`highlightMaterial
      ensures this.goods == goods && this.parentShelf == parentShelf && this.highlightMaterial == highlightMaterial
    {
      this.goods := goods;
      this.parentShelf := parentShelf;
      this.highlightMaterial := highlightMaterial;
    }

    /** OnStolen: nothing without goods; otherwise one Theft event at the
        item's position with TheftAmount, handed to every subscriber. There
        is no latch: every call raises a new event. */
    method OnStolen<L(==)>(bus: SuspicionBus<L>) returns (ds: seq<Delivery<L>>)
      ensures goods.None? ==> ds == []
      ensures goods.Some? ==> ds == Fanout(bus.subscribers, SuspicionEvent(position, TheftAmount(goods.value), Theft))
    {
      if goods.None? {
        return [];
      }
      var amount := TheftAmount(goods.value);
      ds := bus.Raise(SuspicionEvent(position, amount, Theft));
    }
  }
}

/** The simple one-shot stealable object: the first theft broadcasts an
    event of a configured size and destroys the object. */
module StealableItems {
  import opened Common
  import opened SuspicionEvents

  class StealableItem {
    var suspicionAmount: real
    var isStolen: bool
    /** The game object has been destroyed. */
    var destroyed: bool
    var position: Vec3

    constructor (position: Vec3)
      ensures suspicionAmount == 30.0 && !isStolen && !destroyed && this.position == position
    {
      suspicionAmount := 30.0;
      isStolen := false;
      destroyed := false;
      this.position := position;
    }

    /** OnStolen: only the first call acts. It latches the stolen flag,
        hands one Theft event with the configured amount at the item's
        position to every subscriber, and then destroys the object. */
    method OnStolen<L(==)>(bus: SuspicionBus<L>) returns (ds: seq<Delivery<L>>)
      modifies this`isStolen, this`destroyed
      ensures isStolen
      ensures old(isStolen) ==> ds == [] && destroyed == old(destroyed)
      ensures !old(isStolen) ==>
        destroyed && ds == Fanout(bus.subscribers, SuspicionEvent(position, suspicionAmount, Theft))
    {
      if isStolen {
        return [];
      }
      isStolen := true;
      ds := bus.Raise(SuspicionEvent(position, suspicionAmount, Theft));
      destroyed := true;
    }

    /** A click only delegates to OnStolen. */
    method OnMouseDown<L(==)>(bus: SuspicionBus<L>) returns (ds: seq<Delivery<L>>)
      modifies this`isStolen, this`destroyed
      ensures isStolen
      ensures old(isStolen) ==> ds == [] && destroyed == old(destroyed)
      ensures !old(isStolen) ==>
        destroyed && ds == Fanout(bus.subscribers, SuspicionEvent(position, suspicionAmount, Theft))
    {
      ds := OnStolen(bus);
    }
  }
}
