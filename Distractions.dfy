/** The player's two distractions: throwing a coin (costs money, range 5)
    and shouting about a sale (free, range 8). Each distracts every cashier
    in its range and then locks itself for the same cooldown. The cashiers
    found in the scene and their distances from the player are inputs. */
module Distractions {
  import opened Common
  import opened Enemies
  import opened Cashier
  import opened Players

  /** One distraction's availability: whether it can be used, and the time
      left until it can. */
  datatype Cooldown = Cooldown(ready: bool, timer: real)

  const Ready := Cooldown(true, 0.0)

  /** A ready cooldown has nothing left to wait, and a locked one at most
      `length`. */
  predicate WellFormed(c: Cooldown, length: real)
  {
    0.0 <= c.timer <= length && (c.ready ==> c.timer == 0.0)
  }

  /** One frame of UpdateCooldowns for one distraction: a locked cooldown
      counts down and is released, with its timer zeroed, once the timer is
      at or below zero. */
  function CooldownTick(c: Cooldown, dt: real): (r: Cooldown)
    ensures c.ready ==> r == c
    ensures !c.ready ==> (r.ready <==> c.timer - dt <= 0.0)
    ensures r.ready ==> r.timer == 0.0 || r == c
  {
    if c.ready then c
    else if c.timer - dt <= 0.0 then Ready
    else c.(timer := c.timer - dt)
  }

  /** A frame never breaks a well-formed cooldown. */
  lemma TickKeepsWellFormed(c: Cooldown, length: real, dt: real)
    requires WellFormed(c, length) && dt >= 0.0
    ensures WellFormed(CooldownTick(c, dt), length)
  {
  }

  /** n frames of length dt. */
  function CooldownTicks(c: Cooldown, dt: real, n: nat): Cooldown
  {
    if n == 0 then c else CooldownTick(CooldownTicks(c, dt, n - 1), dt)
  }

  /** With a constant positive frame length, a cooldown locked for t is
      still locked after n frames exactly when t − n·dt > 0, and then reads
      t − n·dt; once released it stays released. */
  lemma {:induction false} CooldownLasts(c: Cooldown, dt: real, n: nat)
    requires !c.ready && c.timer > 0.0 && dt > 0.0
    ensures !CooldownTicks(c, dt, n).ready <==> c.timer - (n as real) * dt > 0.0
    ensures !CooldownTicks(c, dt, n).ready ==> CooldownTicks(c, dt, n).timer == c.timer - (n as real) * dt
    ensures CooldownTicks(c, dt, n).ready ==> CooldownTicks(c, dt, n) == Ready
  {
    if n > 0 {
      CooldownLasts(c, dt, n - 1);
      var prev := CooldownTicks(c, dt, n - 1);
      assert (n as real) * dt == ((n - 1) as real) * dt + dt;
      if prev.ready {
        assert c.timer - ((n - 1) as real) * dt <= 0.0;
      }
    }
  }

  /** With the shipped 3-second cooldown and 0.1 s frames, a used
      distraction is still locked after 29 frames and free after 30. */
  lemma DefaultCooldownLength()
    ensures !CooldownTicks(Cooldown(false, 3.0), 0.1, 29).ready
    ensures CooldownTicks(Cooldown(false, 3.0), 0.1, 30) == Ready
  {
    CooldownLasts(Cooldown(false, 3.0), 0.1, 29);
    CooldownLasts(Cooldown(false, 3.0), 0.1, 30);
  }

  /** OnMoneyChanged locks the coin throw without setting a timer, so a
      lock taken from a well-formed ready cooldown is released by the very
      next frame, whatever its length. */
  lemma {:induction false} MoneyLockLastsOneFrame(c: Cooldown, length: real, dt: real)
    requires WellFormed(c, length) && c.ready && dt >= 0.0
    ensures !c.(ready := false).ready
    ensures CooldownTick(c.(ready := false), dt) == Ready
  {
    assert c.timer == 0.0;
  }

  /** What a cashier's distraction state becomes when a distraction that
      reached her (`reached`) calls DistractWithMoney or DistractWithSale. */
  function Reached(d: Distraction, reached: bool, duration: real, resistance: real): (r: Distraction)
    ensures !reached || d.distracted ==> r == d
    ensures reached ==> r.distracted
  {
    if reached && !d.distracted then Start(duration, resistance) else d
  }

  /** A cashier distracted twice in one frame is distracted once: the
      second call finds her distracted. */
  lemma ReachedTwice(d: Distraction, a: bool, b: bool, duration: real, resistance: real)
    ensures Reached(Reached(d, a, duration, resistance), b, duration, resistance)
         == Reached(d, a || b, duration, resistance)
  {
  }

  /** Whether some cashier is within `range`. */
  predicate AnyWithin(dists: seq<real>, range: real)
  {
    exists i :: 0 <= i < |dists| && dists[i] <= range
  }

  /** The cashiers are distinct objects, each with her own enemy component. */
  predicate Separate(cashiers: seq<CashierGalya>)
    reads (set c | c in cashiers)
  {
    forall i, j :: 0 <= i < |cashiers| && 0 <= j < |cashiers| && i != j ==>
      cashiers[i] != cashiers[j] && (cashiers[i].enemy == null || cashiers[i].enemy != cashiers[j].enemy)
  }

  /** The enemy components of the cashiers. */
  function EnemiesOf(cashiers: seq<CashierGalya>): set<Enemy>
    reads (set c | c in cashiers)
  {
    set c | c in cashiers && c.enemy != null :: c.enemy
  }

  /** What the component announces, in order: the cooldown readings, the
      visual effects and the uses. */
  datatype DistractionEvent =
    | MoneyCooldownChanged(moneyTimer: real)
    | ShoutCooldownChanged(shoutTimer: real)
    | MoneyEffect
    | ShoutEffect
    | MoneyThrown
    | ShoutUsed

  /** How one cashier ends a distraction call that did (`reached`) or did
      not reach her: her settings and enemy stay, a reached cashier that
      was not distracted starts a distraction and her enemy's suspicion is
      reduced by 1; otherwise nothing about her changes. */
  twostate predicate Handled(c: CashierGalya, reached: bool)
    reads c, if c.enemy != null then {c.enemy} else {}
  {
    c.enemy == old(c.enemy)
    && c.distractionDuration == old(c.distractionDuration)
    && c.distractionResistance == old(c.distractionResistance)
    && c.DistractionState() == Reached(old(c.DistractionState()), reached, c.distractionDuration, c.distractionResistance)
    && (c.enemy != null ==>
          EnemyOutcome(old(c.isDistracted), reached, old(c.enemy.State()), old(c.enemy.events),
                       c.enemy.State(), c.enemy.events))
  }

  /** The cashier's enemy after the call: reduced by 1 (with the events of
      that reduction) exactly when the call started a distraction. */
  predicate EnemyOutcome(wasDistracted: bool, reached: bool, before: Alertness, eventsBefore: seq<EnemyEvent>,
                         after: Alertness, eventsAfter: seq<EnemyEvent>)
  {
    var started := reached && !wasDistracted;
    after == (if started then Reduce(before, 1.0) else before)
    && eventsAfter == eventsBefore + (if started then ReduceEvents(before, 1.0) else [])
  }

  /** Two calls in a row reduce the enemy at most once: a call that started
      a distraction leaves the cashier distracted for the next one. */
  lemma ComposeOutcomes(d: Distraction, a: bool, b: bool, duration: real, resistance: real,
                        s0: Alertness, e0: seq<EnemyEvent>, s1: Alertness, e1: seq<EnemyEvent>,
                        s2: Alertness, e2: seq<EnemyEvent>)
    requires EnemyOutcome(d.distracted, a, s0, e0, s1, e1)
    requires EnemyOutcome(Reached(d, a, duration, resistance).distracted, b, s1, e1, s2, e2)
    ensures EnemyOutcome(d.distracted, a || b, s0, e0, s2, e2)
  {
    if a && !d.distracted {
      assert Reached(d, a, duration, resistance).distracted;
    }
  }

  /** The foreach over the cashiers shared by ThrowMoney and
      ShoutAboutSale (DistractWithMoney and DistractWithSale act alike):
      every cashier within `range` is handled as reached, the rest as not
      reached. The result says whether any cashier was within range. */
  method DistractAll(cashiers: seq<CashierGalya>, dists: seq<real>, range: real) returns (any: bool)
    requires |dists| == |cashiers| && Separate(cashiers)
    modifies (set c | c in cashiers), EnemiesOf(cashiers)
    ensures any <==> AnyWithin(dists, range)
    ensures forall k :: 0 <= k < |cashiers| ==> Handled(cashiers[k], dists[k] <= range)
  {
    any := false;
    var i := 0;
    while i < |cashiers|
      invariant 0 <= i <= |cashiers|
      invariant any <==> exists k :: 0 <= k < i && dists[k] <= range
      invariant forall k :: 0 <= k < |cashiers| ==> Handled(cashiers[k], k < i && dists[k] <= range)
    {
      if dists[i] <= range {
        cashiers[i].DistractInPlace();
        any := true;
      }
      i := i + 1;
    }
  }

  class PlayerDistractions {
    var moneyThrowRange: real
    var shoutRange: real
    var moneyThrowCost: int
    var distractionCooldown: real
    var canThrowMoney: bool
    var canShout: bool
    var moneyCooldownTimer: real
    var shoutCooldownTimer: real
    /** The Player component the object is required to carry. */
    var player: Player
    var events: seq<DistractionEvent>

    function MoneyCooldown(): Cooldown
      reads this`canThrowMoney, this`moneyCooldownTimer
    {
      Cooldown(canThrowMoney, moneyCooldownTimer)
    }

    function ShoutCooldown(): Cooldown
      reads this`canShout, this`shoutCooldownTimer
    {
      Cooldown(canShout, shoutCooldownTimer)
    }

    /** Both cooldowns stay well formed for the configured length. */
    ghost predicate Valid()
      reads this
    {
      distractionCooldown >= 0.0
      && WellFormed(MoneyCooldown(), distractionCooldown)
      && WellFormed(ShoutCooldown(), distractionCooldown)
    }

    /** The inspector defaults: both distractions ready. */
    constructor (player: Player)
      ensures Valid()
      ensures moneyThrowRange == 5.0 && shoutRange == 8.0 && moneyThrowCost == 1 && distractionCooldown == 3.0
      ensures MoneyCooldown() == Ready && ShoutCooldown() == Ready
      ensures this.player == player && events == []
    {
      moneyThrowRange := 5.0;
      shoutRange := 8.0;
      moneyThrowCost := 1;
      distractionCooldown := 3.0;
      canThrowMoney := true;
      canShout := true;
      moneyCooldownTimer := 0.0;
      shoutCooldownTimer := 0.0;
      this.player := player;
      events := [];
    }

    /** UpdateCooldowns: each locked distraction counts down, announcing its
        new reading, and is released at or below zero. */
    method UpdateCooldowns(dt: real)
      requires Valid() && dt >= 0.0
      modifies this`canThrowMoney, this`moneyCooldownTimer, this`canShout, this`shoutCooldownTimer, this`events
      ensures Valid()
      ensures MoneyCooldown() == CooldownTick(old(MoneyCooldown()), dt)
      ensures ShoutCooldown() == CooldownTick(old(ShoutCooldown()), dt)
      ensures events == old(events)
        + (if old(canThrowMoney) then [] else [MoneyCooldownChanged(old(moneyCooldownTimer) - dt)])
        + (if old(canShout) then [] else [ShoutCooldownChanged(old(shoutCooldownTimer) - dt)])
    {
      if !canThrowMoney {
        moneyCooldownTimer := moneyCooldownTimer - dt;
        events := events + [MoneyCooldownChanged(moneyCooldownTimer)];
        if moneyCooldownTimer <= 0.0 {
          canThrowMoney := true;
          moneyCooldownTimer := 0.0;
        }
      }
      if !canShout {
        shoutCooldownTimer := shoutCooldownTimer - dt;
        events := events + [ShoutCooldownChanged(shoutCooldownTimer)];
        if shoutCooldownTimer <= 0.0 {
          canShout := true;
          shoutCooldownTimer := 0.0;
        }
      }
    }

    /** OnMoneyChanged: a balance below the throw cost locks the throw; no
        timer is set (see MoneyLockLastsOneFrame). */
    method OnMoneyChanged(money: int)
      requires Valid()
      modifies this`canThrowMoney
      ensures Valid()
      ensures canThrowMoney <==> old(canThrowMoney) && money >= moneyThrowCost
    {
      if money < moneyThrowCost {
        canThrowMoney := false;
      }
    }

    /** The payment of a throw: SpendMoney takes the cost, and the balance
        change reaches OnMoneyChanged. */
    method PayForThrow()
      requires Valid() && player.money >= moneyThrowCost
      modifies this`canThrowMoney, player`money
      ensures Valid()
      ensures player.money == old(player.money) - moneyThrowCost
      ensures canThrowMoney <==> old(canThrowMoney) && player.money >= moneyThrowCost
    {
      var paid := player.SpendMoney(moneyThrowCost);
      OnMoneyChanged(player.money);
    }

    /** ThrowMoney: refused while locked or when the player cannot pay the
        cost; then nothing changes. Otherwise the cost is paid (the balance
        change reaches OnMoneyChanged), every cashier within the throw range
        is distracted, the coin effect appears when any was, and the throw
        locks for the cooldown whether or not anyone was reached. */
    method ThrowMoney(cashiers: seq<CashierGalya>, dists: seq<real>) returns (thrown: bool)
      requires Valid() && |dists| == |cashiers| && Separate(cashiers)
      modifies this`canThrowMoney, this`moneyCooldownTimer, this`events, player`money
      modifies (set c | c in cashiers), EnemiesOf(cashiers)
      ensures Valid()
      ensures thrown <==> old(canThrowMoney) && old(player.money) >= moneyThrowCost
      ensures forall k :: 0 <= k < |cashiers| ==> Handled(cashiers[k], thrown && dists[k] <= moneyThrowRange)
      ensures !thrown ==>
        MoneyCooldown() == old(MoneyCooldown()) && player.money == old(player.money) && events == old(events)
      ensures thrown ==>
        player.money == old(player.money) - moneyThrowCost
        && MoneyCooldown() == Cooldown(false, distractionCooldown)
        && events == old(events) + (if AnyWithin(dists, moneyThrowRange) then [MoneyEffect] else []) + [MoneyThrown]
    {
      if !canThrowMoney || player.money < moneyThrowCost {
        return false;
      }
      PayForThrow();
      LaunchThrow(cashiers, dists);
      thrown := true;
    }

    /** The paid throw itself: the cashiers within range are distracted,
        the coin effect appears when any was, and the throw locks. */
    method LaunchThrow(cashiers: seq<CashierGalya>, dists: seq<real>)
      requires Valid() && |dists| == |cashiers| && Separate(cashiers)
      modifies this`canThrowMoney, this`moneyCooldownTimer, this`events
      modifies (set c | c in cashiers), EnemiesOf(cashiers)
      ensures Valid()
      ensures forall k :: 0 <= k < |cashiers| ==> Handled(cashiers[k], dists[k] <= moneyThrowRange)
      ensures MoneyCooldown() == Cooldown(false, distractionCooldown)
      ensures events == old(events) + (if AnyWithin(dists, moneyThrowRange) then [MoneyEffect] else []) + [MoneyThrown]
    {
      var any := DistractAll(cashiers, dists, moneyThrowRange);
      if any {
        events := events + [MoneyEffect];
      }
      canThrowMoney := false;
      moneyCooldownTimer := distractionCooldown;
      events := events + [MoneyThrown];
    }

    /** ShoutAboutSale: refused while locked. Otherwise, with no cost,
        every cashier within the shout range is distracted, the shout
        effect appears when any was, and the shout locks for the cooldown. */
    method ShoutAboutSale(cashiers: seq<CashierGalya>, dists: seq<real>) returns (shouted: bool)
      requires Valid() && |dists| == |cashiers| && Separate(cashiers)
      modifies this`canShout, this`shoutCooldownTimer, this`events
      modifies (set c | c in cashiers), EnemiesOf(cashiers)
      ensures Valid()
      ensures shouted <==> old(canShout)
      ensures forall k :: 0 <= k < |cashiers| ==> Handled(cashiers[k], shouted && dists[k] <= shoutRange)
      ensures !shouted ==>
        ShoutCooldown() == old(ShoutCooldown()) && events == old(events)
      ensures shouted ==>
        ShoutCooldown() == Cooldown(false, distractionCooldown)
        && events == old(events) + (if AnyWithin(dists, shoutRange) then [ShoutEffect] else []) + [ShoutUsed]
    {
      if !canShout {
        return false;
      }
      var any := DistractAll(cashiers, dists, shoutRange);
      if any {
        events := events + [ShoutEffect];
      }
      canShout := false;
      shoutCooldownTimer := distractionCooldown;
      events := events + [ShoutUsed];
      shouted := true;
    }

    /** Update: the cooldowns tick first, so a distraction released this
        frame can already be used by this frame's key press. */
    method Update(dt: real, ePressed: bool, qPressed: bool, cashiers: seq<CashierGalya>, dists: seq<real>)
      returns (thrown: bool, shouted: bool)
      requires Valid() && dt >= 0.0 && |dists| == |cashiers| && Separate(cashiers)
      modifies this`canThrowMoney, this`moneyCooldownTimer, this`canShout, this`shoutCooldownTimer, this`events
      modifies player`money, (set c | c in cashiers), EnemiesOf(cashiers)
      ensures Valid()
      ensures thrown <==> ePressed && CooldownTick(old(MoneyCooldown()), dt).ready && old(player.money) >= moneyThrowCost
      ensures shouted <==> qPressed && CooldownTick(old(ShoutCooldown()), dt).ready
      ensures forall k :: 0 <= k < |cashiers| ==>
        Handled(cashiers[k], (thrown && dists[k] <= moneyThrowRange) || (shouted && dists[k] <= shoutRange))
      ensures player.money == old(player.money) - (if thrown then moneyThrowCost else 0)
      ensures MoneyCooldown()
        == if thrown then Cooldown(false, distractionCooldown) else CooldownTick(old(MoneyCooldown()), dt)
      ensures ShoutCooldown()
        == if shouted then Cooldown(false, distractionCooldown) else CooldownTick(old(ShoutCooldown()), dt)
      ensures events == old(events)
        + (if old(canThrowMoney) then [] else [MoneyCooldownChanged(old(moneyCooldownTimer) - dt)])
        + (if old(canShout) then [] else [ShoutCooldownChanged(old(shoutCooldownTimer) - dt)])
        + (if thrown then (if AnyWithin(dists, moneyThrowRange) then [MoneyEffect] else []) + [MoneyThrown] else [])
        + (if shouted then (if AnyWithin(dists, shoutRange) then [ShoutEffect] else []) + [ShoutUsed] else [])
    {
      UpdateCooldowns(dt);
      thrown, shouted := HandleInput(ePressed, qPressed, cashiers, dists);
    }

    /** The E half of HandleInput: a throw when E is pressed and the throw
        is free. */
    method PressThrow(ePressed: bool, cashiers: seq<CashierGalya>, dists: seq<real>) returns (thrown: bool)
      requires Valid() && |dists| == |cashiers| && Separate(cashiers)
      modifies this`canThrowMoney, this`moneyCooldownTimer, this`events, player`money
      modifies (set c | c in cashiers), EnemiesOf(cashiers)
      ensures Valid()
      ensures thrown <==> ePressed && old(canThrowMoney) && old(player.money) >= moneyThrowCost
      ensures forall k :: 0 <= k < |cashiers| ==> Handled(cashiers[k], thrown && dists[k] <= moneyThrowRange)
      ensures player.money == old(player.money) - (if thrown then moneyThrowCost else 0)
      ensures MoneyCooldown() == if thrown then Cooldown(false, distractionCooldown) else old(MoneyCooldown())
      ensures events == old(events)
        + (if thrown then (if AnyWithin(dists, moneyThrowRange) then [MoneyEffect] else []) + [MoneyThrown] else [])
    {
      thrown := false;
      if ePressed && canThrowMoney {
        thrown := ThrowMoney(cashiers, dists);
      }
    }

    /** The Q half of HandleInput: a shout when Q is pressed and the shout
        is free. */
    method PressShout(qPressed: bool, cashiers: seq<CashierGalya>, dists: seq<real>) returns (shouted: bool)
      requires Valid() && |dists| == |cashiers| && Separate(cashiers)
      modifies this`canShout, this`shoutCooldownTimer, this`events
      modifies (set c | c in cashiers), EnemiesOf(cashiers)
      ensures Valid()
      ensures shouted <==> qPressed && old(canShout)
      ensures forall k :: 0 <= k < |cashiers| ==> Handled(cashiers[k], shouted && dists[k] <= shoutRange)
      ensures ShoutCooldown() == if shouted then Cooldown(false, distractionCooldown) else old(ShoutCooldown())
      ensures events == old(events)
        + (if shouted then (if AnyWithin(dists, shoutRange) then [ShoutEffect] else []) + [ShoutUsed] else [])
    {
      shouted := false;
      if qPressed && canShout {
        shouted := ShoutAboutSale(cashiers, dists);
      }
    }

    /** HandleInput: E throws a coin when the throw is free, then Q shouts
        when the shout is free. A cashier reached by both is distracted
        once. */
    method HandleInput(ePressed: bool, qPressed: bool, cashiers: seq<CashierGalya>, dists: seq<real>)
      returns (thrown: bool, shouted: bool)
      requires Valid() && |dists| == |cashiers| && Separate(cashiers)
      modifies this`canThrowMoney, this`moneyCooldownTimer, this`canShout, this`shoutCooldownTimer, this`events
      modifies player`money, (set c | c in cashiers), EnemiesOf(cashiers)
      ensures Valid()
      ensures thrown <==> ePressed && old(canThrowMoney) && old(player.money) >= moneyThrowCost
      ensures shouted <==> qPressed && old(canShout)
      ensures forall k :: 0 <= k < |cashiers| ==>
        Handled(cashiers[k], (thrown && dists[k] <= moneyThrowRange) || (shouted && dists[k] <= shoutRange))
      ensures player.money == old(player.money) - (if thrown then moneyThrowCost else 0)
      ensures MoneyCooldown() == if thrown then Cooldown(false, distractionCooldown) else old(MoneyCooldown())
      ensures ShoutCooldown() == if shouted then Cooldown(false, distractionCooldown) else old(ShoutCooldown())
      ensures events == old(events)
        + (if thrown then (if AnyWithin(dists, moneyThrowRange) then [MoneyEffect] else []) + [MoneyThrown] else [])
        + (if shouted then (if AnyWithin(dists, shoutRange) then [ShoutEffect] else []) + [ShoutUsed] else [])
    {
      thrown := PressThrow(ePressed, cashiers, dists);
      label BeforeShout:
      shouted := PressShout(qPressed, cashiers, dists);
      forall k | 0 <= k < |cashiers|
        ensures Handled(cashiers[k], (thrown && dists[k] <= moneyThrowRange) || (shouted && dists[k] <= shoutRange))
      {
        var c := cashiers[k];
        var a, b := thrown && dists[k] <= moneyThrowRange, shouted && dists[k] <= shoutRange;
        assert Handled@BeforeShout(c, b);
        assert old@BeforeShout(c.DistractionState())
            == Reached(old(c.DistractionState()), a, c.distractionDuration, c.distractionResistance);
        ReachedTwice(old(c.DistractionState()), a, b, c.distractionDuration, c.distractionResistance);
        if c.enemy != null {
          ComposeOutcomes(old(c.DistractionState()), a, b, c.distractionDuration, c.distractionResistance,
                          old(c.enemy.State()), old(c.enemy.events),
                          old@BeforeShout(c.enemy.State()), old@BeforeShout(c.enemy.events),
                          c.enemy.State(), c.enemy.events);
        }
      }
    }
  }
}
