/** The cash register where stolen goods are sold: a transaction takes at
    most a fixed number of the player's stolen items, runs a timed minigame
    in which holding Space fills a progress bar faster, and pays out the
    items' prices only when the bar reached the success threshold.
    Where the stolen items come from (GetStolenItems) and how one is removed
    (RemoveItem) are not defined by the inventory; the first is an input and
    the second is recorded as a request. */
module Registers {
  import opened Common
  import opened GoodsData
  import opened Players

  /** The minigame's fill rate per second: 2 with Space held, else 0.5. */
  function FillRate(spaceHeld: bool): real
  {
    if spaceHeld then 2.0 else 0.5
  }

  /** What one frame of length dt adds to the bar. */
  function FrameFill(dt: real, spaceHeld: bool): real
  {
    dt * FillRate(spaceHeld)
  }

  /** One minigame frame of the progress bar: filled at the rate, clamped to
      [0, 1]. */
  function ProgressStep(p: real, dt: real, spaceHeld: bool): (r: real)
    ensures 0.0 <= r <= 1.0
    ensures 0.0 <= p + FrameFill(dt, spaceHeld) <= 1.0 ==> r == p + FrameFill(dt, spaceHeld)
  {
    Clamp01(p + FrameFill(dt, spaceHeld))
  }

  /** n frames of the same length with Space in the same position. */
  function Progresses(p: real, dt: real, spaceHeld: bool, n: nat): real
  {
    if n == 0 then p else ProgressStep(Progresses(p, dt, spaceHeld, n - 1), dt, spaceHeld)
  }

  /** n equal increments s, added one at a time. */
  function Ramp(n: nat, s: real): (r: real)
    ensures s >= 0.0 ==> r >= 0.0
  {
    if n == 0 then 0.0 else Ramp(n - 1, s) + s
  }

  lemma {:induction false} RampIsProduct(n: nat, s: real)
    ensures Ramp(n, s) == (n as real) * s
  {
    if n > 0 {
      RampIsProduct(n - 1, s);
      assert (n as real) * s == ((n - 1) as real) * s + s;
    }
  }

  /** n frames each adding `step` to the bar, clamped to [0, 1]. */
  function Fill(p: real, step: real, n: nat): real
  {
    if n == 0 then p else Clamp01(Fill(p, step, n - 1) + step)
  }

  /** Filling an empty bar by a non-negative step n times gives min(1, n
      increments). */
  lemma {:induction false} FillRamps(step: real, n: nat)
    requires step >= 0.0
    ensures Fill(0.0, step, n) == Min(1.0, Ramp(n, step))
  {
    if n > 0 {
      FillRamps(step, n - 1);
      ClampedStep(Ramp(n - 1, step), step);
    }
  }

  /** The minigame's frames are Fill with the step dt·rate. */
  lemma {:induction false} ProgressesFill(p: real, dt: real, spaceHeld: bool, n: nat)
    ensures Progresses(p, dt, spaceHeld, n) == Fill(p, FrameFill(dt, spaceHeld), n)
  {
    if n > 0 {
      ProgressesFill(p, dt, spaceHeld, n - 1);
    }
  }

  /** From an empty bar, n frames of length dt ≥ 0 fill it to
      min(1, n·dt·rate): the bar grows linearly and then stays full. */
  lemma {:induction false} ProgressFills(dt: real, spaceHeld: bool, n: nat)
    requires dt >= 0.0
    ensures Progresses(0.0, dt, spaceHeld, n) == Min(1.0, (n as real) * (FrameFill(dt, spaceHeld)))
  {
    ProgressesFill(0.0, dt, spaceHeld, n);
    FrameFillLinear(dt, spaceHeld, n);
  }

  /** FillLinear at the step of a frame. */
  lemma FrameFillLinear(dt: real, spaceHeld: bool, n: nat)
    requires dt >= 0.0
    ensures Fill(0.0, FrameFill(dt, spaceHeld), n) == Min(1.0, (n as real) * FrameFill(dt, spaceHeld))
  {
    var step := FrameFill(dt, spaceHeld);
    StepNonNegative(dt, spaceHeld);
    FillLinear(step, n);
    assert (n as real) * step == (n as real) * FrameFill(dt, spaceHeld);
  }

  /** A frame of non-negative length never drains the bar. */
  lemma StepNonNegative(dt: real, spaceHeld: bool)
    requires dt >= 0.0
    ensures FrameFill(dt, spaceHeld) >= 0.0
  {
  }

  /** Filling an empty bar by a non-negative step n times gives min(1, n·step). */
  lemma FillLinear(step: real, n: nat)
    requires step >= 0.0
    ensures Fill(0.0, step, n) == Min(1.0, (n as real) * step)
  {
    FillRamps(step, n);
    RampIsProduct(n, step);
  }

  /** Adding a non-negative step to a bar already clamped at 1 and clamping
      again is clamping the unclamped sum. */
  lemma ClampedStep(before: real, step: real)
    requires before >= 0.0 && step >= 0.0
    ensures Clamp01(Min(1.0, before) + step) == Min(1.0, before + step)
  {
  }

  /** The items a transaction takes: the first `max` of the stolen ones, in
      order. */
  function Batch(stolen: seq<Goods>, max: nat): (r: seq<Goods>)
    ensures r <= stolen && |r| <= max
    ensures |r| < max ==> r == stolen
  {
    if |stolen| > max then stolen[..max] else stolen
  }

  /** What the register announces. */
  datatype RegisterEvent =
    | TransactionStarted
    | TransactionCompleted(success: bool, totalValue: int)
    | PlayerInRangeChanged(inRange: bool)

  class CashRegister {
    var registerName: string
    var interactionRange: real
    var isPlayerInRange: bool
    var isTransactionActive: bool
    var minigameDuration: real
    var successThreshold: real
    var maxItemsPerTransaction: nat
    var itemsToSell: seq<Goods>
    var transactionProgress: real
    var transactionTimer: real
    /** The player found at Start, and whether it has an inventory. */
    var player: Player?
    var hasInventory: bool
    var events: seq<RegisterEvent>
    /** The RemoveItem calls made on the inventory, in order. */
    var removals: seq<Goods>

    /** An inventory is only ever found on a player, only a register with
        an inventory runs a transaction, and the minigame lasts a positive
        time (with none, the coroutine would settle the transaction before
        StartTransaction announces it). */
    ghost predicate Valid()
      reads this
    {
      (hasInventory ==> player != null) && (isTransactionActive ==> hasInventory)
      && minigameDuration > 0.0
    }

    /** The serialized settings and Start: the player and whether it has an
        inventory. */
    constructor (player: Player?, hasInventory: bool)
      requires hasInventory ==> player != null
      ensures Valid()
      ensures registerName == "Касса" && interactionRange == 2.0 && !isPlayerInRange && !isTransactionActive
      ensures minigameDuration == 5.0 && successThreshold == 0.7 && maxItemsPerTransaction == 5
      ensures itemsToSell == [] && transactionProgress == 0.0 && transactionTimer == 0.0
      ensures this.player == player && this.hasInventory == hasInventory && events == [] && removals == []
    {
      registerName := "Касса";
      interactionRange := 2.0;
      isPlayerInRange := false;
      isTransactionActive := false;
      minigameDuration := 5.0;
      successThreshold := 0.7;
      maxItemsPerTransaction := 5;
      itemsToSell := [];
      transactionProgress := 0.0;
      transactionTimer := 0.0;
      this.player := player;
      this.hasInventory := hasInventory;
      events := [];
      removals := [];
    }

    /** CheckPlayerDistance with the player's distance (none without a
        player): the range flag becomes "distance ≤ range", announced only
        when it changes. */
    method CheckPlayerDistance(distance: Option<real>)
      modifies this`isPlayerInRange, this`events
      ensures distance.None? ==> isPlayerInRange == old(isPlayerInRange) && events == old(events)
      ensures distance.Some? ==> (isPlayerInRange <==> distance.value <= interactionRange)
      ensures distance.Some? ==>
        events == old(events) + (if isPlayerInRange != old(isPlayerInRange) then [PlayerInRangeChanged(isPlayerInRange)] else [])
    {
      if distance.None? {
        return;
      }
      var wasInRange := isPlayerInRange;
      isPlayerInRange := distance.value <= interactionRange;
      if wasInRange != isPlayerInRange {
        events := events + [PlayerInRangeChanged(isPlayerInRange)];
      }
    }

    /** StartTransaction with the inventory's stolen items, the frame length
        and the Space key. Nothing happens while a transaction runs or
        without an inventory. The batch is taken; an empty batch starts
        nothing. Otherwise the transaction starts with progress and timer at
        zero, the minigame runs its first frame at once, and the start is
        announced. */
    method StartTransaction(stolen: seq<Goods>, dt: real, spaceHeld: bool)
      requires Valid()
      modifies this`itemsToSell, this`isTransactionActive, this`transactionProgress, this`transactionTimer, this`events
      ensures Valid()
      ensures old(isTransactionActive) || !hasInventory ==>
        itemsToSell == old(itemsToSell) && isTransactionActive == old(isTransactionActive)
        && transactionProgress == old(transactionProgress) && transactionTimer == old(transactionTimer)
        && events == old(events)
      ensures !old(isTransactionActive) && hasInventory ==>
        itemsToSell == Batch(stolen, maxItemsPerTransaction)
        && (isTransactionActive <==> stolen != [])
        && (stolen == [] ==> events == old(events)
                             && transactionProgress == old(transactionProgress) && transactionTimer == old(transactionTimer))
        && (stolen != [] ==> events == old(events) + [TransactionStarted]
                             && transactionTimer == 0.0 && transactionProgress == ProgressStep(0.0, dt, spaceHeld))
    {
      if isTransactionActive || !hasInventory {
        return;
      }
      itemsToSell := stolen;
      if |itemsToSell| == 0 {
        return;
      }
      if |itemsToSell| > maxItemsPerTransaction {
        itemsToSell := itemsToSell[..maxItemsPerTransaction];
      }
      isTransactionActive := true;
      transactionProgress := 0.0;
      transactionTimer := 0.0;
      // the coroutine's first frame runs inside StartCoroutine, with no time elapsed
      transactionTimer := 0.0;
      transactionProgress := ProgressStep(transactionProgress, dt, spaceHeld);
      events := events + [TransactionStarted];
    }

    /** One later frame of the minigame coroutine, `elapsed` seconds after
        it started: while the timer (as of the previous frame) is below the
        duration, the timer is refreshed and the bar fills; otherwise the
        transaction completes. */
    method MinigameFrame(elapsed: real, dt: real, spaceHeld: bool)
      requires Valid() && isTransactionActive
      modifies this`transactionTimer, this`transactionProgress, this`isTransactionActive, this`itemsToSell,
               this`events, this`removals, player`money
      ensures Valid()
      ensures old(transactionTimer) < minigameDuration ==>
        isTransactionActive && transactionTimer == elapsed
        && transactionProgress == ProgressStep(old(transactionProgress), dt, spaceHeld)
        && itemsToSell == old(itemsToSell) && events == old(events) && removals == old(removals)
        && player.money == old(player.money)
      ensures old(transactionTimer) >= minigameDuration ==>
        !isTransactionActive && itemsToSell == []
        && Settled(old(transactionProgress), old(itemsToSell), old(player.money), old(events), old(removals))
    {
      if transactionTimer < minigameDuration {
        transactionTimer := elapsed;
        transactionProgress := ProgressStep(transactionProgress, dt, spaceHeld);
      } else {
        CompleteTransaction();
      }
    }

    /** The outcome of completing with bar `progress` and batch `items`,
        from the given money, announcements and removals: success exactly
        when the bar reached the threshold; then the money rises by the sum
        of the prices and every item of the batch is removed, in order;
        otherwise the total is 0 and nothing is removed. */
    ghost predicate Settled(progress: real, items: seq<Goods>, money0: int, events0: seq<RegisterEvent>,
                            removals0: seq<Goods>)
      requires player != null
      reads this, player
    {
      var success := progress >= successThreshold;
      var total := if success then SumPrices(items) else 0;
      player.money == money0 + total
      && events == events0 + [TransactionCompleted(success, total)]
      && removals == removals0 + (if success then items else [])
    }

    /** CompleteTransaction: settles the batch (see Settled) and ends the
        transaction with an empty batch. */
    method CompleteTransaction()
      requires Valid() && isTransactionActive
      modifies this`isTransactionActive, this`itemsToSell, this`events, this`removals, player`money
      ensures Valid()
      ensures !isTransactionActive && itemsToSell == []
      ensures Settled(transactionProgress, old(itemsToSell), old(player.money), old(events), old(removals))
    {
      var success := transactionProgress >= successThreshold;
      var totalValue := 0;
      if success {
        var i := 0;
        while i < |itemsToSell|
          invariant 0 <= i <= |itemsToSell|
          invariant totalValue == SumPrices(itemsToSell[..i])
        {
          assert itemsToSell[..i + 1][..i] == itemsToSell[..i];
          totalValue := totalValue + itemsToSell[i].price;
          i := i + 1;
        }
        assert itemsToSell[..i] == itemsToSell;
        player.AddMoney(totalValue);
        removals := removals + itemsToSell;
      }
      isTransactionActive := false;
      itemsToSell := [];
      events := events + [TransactionCompleted(success, totalValue)];
    }

    /** CancelTransaction: ends a running transaction with an empty batch,
        without paying or announcing; a no-op otherwise. */
    method CancelTransaction()
      requires Valid()
      modifies this`isTransactionActive, this`itemsToSell
      ensures Valid()
      ensures old(isTransactionActive) ==> !isTransactionActive && itemsToSell == []
      ensures !old(isTransactionActive) ==> isTransactionActive == old(isTransactionActive) && itemsToSell == old(itemsToSell)
    {
      if !isTransactionActive {
        return;
      }
      isTransactionActive := false;
      itemsToSell := [];
    }

    /** HandleInput: E starts a transaction, only in range and when none is
        running. */
    method HandleInput(ePressed: bool, stolen: seq<Goods>, dt: real, spaceHeld: bool)
      requires Valid()
      modifies this`itemsToSell, this`isTransactionActive, this`transactionProgress, this`transactionTimer, this`events
      ensures Valid()
      ensures !isPlayerInRange || old(isTransactionActive) || !ePressed || !hasInventory ==>
        itemsToSell == old(itemsToSell) && isTransactionActive == old(isTransactionActive) && events == old(events)
        && transactionProgress == old(transactionProgress) && transactionTimer == old(transactionTimer)
      ensures isPlayerInRange && !old(isTransactionActive) && ePressed && hasInventory ==>
        itemsToSell == Batch(stolen, maxItemsPerTransaction)
        && (isTransactionActive <==> stolen != [])
        && (stolen != [] ==> events == old(events) + [TransactionStarted]
                             && transactionTimer == 0.0 && transactionProgress == ProgressStep(0.0, dt, spaceHeld))
    {
      if !isPlayerInRange || isTransactionActive {
        return;
      }
      if ePressed {
        StartTransaction(stolen, dt, spaceHeld);
      }
    }
  }
}
