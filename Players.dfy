/** The player character: its economy and skills (Player), what it carries
    (PlayerInventory) and how it moves (PlayerMover). The three components
    hold references to one another, so they share one module. */
module Players {
  import opened Common
  import opened GoodsData
  import Text

  // ------------------------------------------------------------ Player rules

  /** The crime rate after adding `points`: reaching 100 calls the police,
      which resets the rate to 0. */
  function CrimeAfter(rate: int, points: int): (r: int)
    ensures rate + points >= 100 ==> r == 0
    ensures rate + points < 100 ==> r == rate + points
    ensures rate >= 0 && points >= 0 ==> 0 <= r < 100
  {
    if rate + points >= 100 then 0 else rate + points
  }

  function StealthUpgradeCost(level: int): int { level * 100 }
  function PickpocketUpgradeCost(level: int): int { level * 150 }
  function DistractionUpgradeCost(level: int): int { level * 120 }

  /** Each upgrade costs more than the one before it, and at any level a
      pickpocket upgrade is dearer than a distraction upgrade, which is
      dearer than a stealth upgrade. */
  lemma UpgradeCostsRise(level: int)
    requires level >= 1
    ensures StealthUpgradeCost(level) < StealthUpgradeCost(level + 1)
    ensures PickpocketUpgradeCost(level) < PickpocketUpgradeCost(level + 1)
    ensures DistractionUpgradeCost(level) < DistractionUpgradeCost(level + 1)
    ensures StealthUpgradeCost(level) < DistractionUpgradeCost(level) < PickpocketUpgradeCost(level)
  {
  }

  /** GetStealthBonus: +10% per stealth level. */
  function StealthBonus(level: int): (r: real)
    ensures level >= 0 ==> r >= 0.0
    ensures level >= 10 ==> r >= 1.0
  {
    level as real * 0.1
  }

  /** GetPickpocketChance: 15% per level, at most 90%. */
  function PickpocketChance(level: int): (r: real)
    ensures r <= 0.9
    ensures level >= 0 ==> r >= 0.0
    ensures level <= 6 ==> r == level as real * 0.15
  {
    Min(0.9, level as real * 0.15)
  }

  /** GetDistractionEffectiveness: +20% per level. */
  function DistractionEffectiveness(level: int): (r: real)
    ensures level >= 1 ==> r >= 0.2
  {
    level as real * 0.2
  }

  /** The inventory capacity a stealth level grants: 10, plus 2 per level above 1. */
  function CapacityFor(stealthLevel: int): (r: int)
    ensures stealthLevel >= 1 ==> r >= 10
    ensures r == 10 <==> stealthLevel == 1
  {
    10 + (stealthLevel - 1) * 2
  }

  // --------------------------------------------------------- Inventory rules

  /** Mathf.RoundToInt: the nearest integer, halves going to the even one. */
  function RoundToInt(x: real): (r: int)
    ensures x - 0.5 <= r as real <= x + 0.5
    ensures (r as real - x == 0.5 || x - r as real == 0.5) ==> r % 2 == 0
  {
    var f := x.Floor;
    var frac := x - f as real;
    if frac < 0.5 then f
    else if frac > 0.5 then f + 1
    else if f % 2 == 0 then f
    else f + 1
  }

  const FragileWords: seq<string> := ["яйцо", "огурец", "помидор"]
  const HeavyWords: seq<string> := ["водка", "пиво", "консерв"]

  predicate ContainsAny(s: string, words: seq<string>)
  {
    exists i :: 0 <= i < |words| && Text.Contains(s, words[i])
  }

  /** GetItemWeight: by the lower-cased label, fragile words first, then heavy
      words, otherwise the per-item weight; each rounded to an integer. */
  function ItemWeight(g: Goods, perItem: real, fragile: real, heavy: real): (r: int)
    ensures ContainsAny(Text.ToLower(g.name), FragileWords) ==> r == RoundToInt(fragile)
    ensures !ContainsAny(Text.ToLower(g.name), FragileWords) && ContainsAny(Text.ToLower(g.name), HeavyWords) ==> r == RoundToInt(heavy)
    ensures !ContainsAny(Text.ToLower(g.name), FragileWords) && !ContainsAny(Text.ToLower(g.name), HeavyWords) ==> r == RoundToInt(perItem)
  {
    var s := Text.ToLower(g.name);
    ContainsAnyOfThree(s, FragileWords);
    ContainsAnyOfThree(s, HeavyWords);
    if Text.Contains(s, "яйцо") || Text.Contains(s, "огурец") || Text.Contains(s, "помидор") then
      RoundToInt(fragile)
    else if Text.Contains(s, "водка") || Text.Contains(s, "пиво") || Text.Contains(s, "консерв") then
      RoundToInt(heavy)
    else
      RoundToInt(perItem)
  }

  lemma ContainsAnyOfThree(s: string, words: seq<string>)
    requires |words| == 3
    ensures ContainsAny(s, words) <==>
      Text.Contains(s, words[0]) || Text.Contains(s, words[1]) || Text.Contains(s, words[2])
  {
    if ContainsAny(s, words) {
      var i :| 0 <= i < |words| && Text.Contains(s, words[i]);
      assert i == 0 || i == 1 || i == 2;
    }
  }

  /** Sum of the item weights of a list. */
  function TotalWeight(gs: seq<Goods>, perItem: real, fragile: real, heavy: real): int
  {
    if gs == [] then 0 else TotalWeight(gs[..|gs| - 1], perItem, fragile, heavy) + ItemWeight(gs[|gs| - 1], perItem, fragile, heavy)
  }

  /** Sum of prices. */
  function SumPrices(gs: seq<Goods>): int
  {
    if gs == [] then 0 else SumPrices(gs[..|gs| - 1]) + gs[|gs| - 1].price
  }

  /** Why TryAddItem refused, or that it accepted. */
  datatype AddOutcome = Added | NullItem | Overloaded | Full

  /** TryAddItem's decision: null first, then weight, then count. */
  function AddVerdict(item: Option<Goods>, currentWeight: int, maxWeight: int, count: int, maxItems: int,
                      perItem: real, fragile: real, heavy: real): (r: AddOutcome)
    ensures r == Added <==> item.Some? && currentWeight + ItemWeight(item.value, perItem, fragile, heavy) <= maxWeight && count < maxItems
    ensures r == NullItem <==> item.None?
    ensures item.Some? && currentWeight + ItemWeight(item.value, perItem, fragile, heavy) > maxWeight ==> r == Overloaded
  {
    if item.None? then NullItem
    else if currentWeight + ItemWeight(item.value, perItem, fragile, heavy) > maxWeight then Overloaded
    else if count >= maxItems then Full
    else Added
  }

  // ------------------------------------------------------------- Mover rules

  /** The movement mode flags. */
  datatype MoveFlags = MoveFlags(crouching: bool, running: bool, stealth: bool)

  function ToggleCrouchFlags(f: MoveFlags): (r: MoveFlags)
    ensures r.crouching == !f.crouching && r.running == f.running
    ensures r.stealth == (f.stealth || r.crouching)
  {
    var c := !f.crouching;
    MoveFlags(c, f.running, if c && !f.stealth then true else f.stealth)
  }

  function ToggleRunFlags(f: MoveFlags): (r: MoveFlags)
    ensures f.crouching ==> r == f
    ensures !f.crouching ==> r == f.(running := !f.running)
  {
    if !f.crouching then f.(running := !f.running) else f
  }

  function ToggleStealthFlags(f: MoveFlags): (r: MoveFlags)
    ensures r.stealth == !f.stealth && r.running == f.running
    ensures r.crouching == (f.crouching && r.stealth)
  {
    var s := !f.stealth;
    MoveFlags(if !s && f.crouching then false else f.crouching, f.running, s)
  }

  /** A key press that changes the movement mode. */
  datatype Toggle = Crouch | Run | StealthMode

  function ApplyToggle(f: MoveFlags, t: Toggle): MoveFlags
  {
    match t
    case Crouch => ToggleCrouchFlags(f)
    case Run => ToggleRunFlags(f)
    case StealthMode => ToggleStealthFlags(f)
  }

  function ApplyToggles(f: MoveFlags, ts: seq<Toggle>): MoveFlags
    decreases |ts|
  {
    if ts == [] then f else ApplyToggles(ApplyToggle(f, ts[0]), ts[1..])
  }

  /** The speed before multipliers: run (not while crouching), crouch, or walk. */
  function BaseSpeed(walk: real, run: real, crouch: real, f: MoveFlags): (r: real)
    ensures f.crouching ==> r == crouch
    ensures !f.crouching && f.running ==> r == run
    ensures !f.crouching && !f.running ==> r == walk
  {
    if f.running && !f.crouching then run else if f.crouching then crouch else walk
  }

  /** The multiplier UpdateSpeed applies: the overload and stealth
      multipliers, plus the stealth bonus (0 without a player). */
  function SpeedMultiplier(overloadMult: real, stealthMult: real, stealth: bool, overloaded: bool, bonus: real): real
  {
    (if overloaded then overloadMult else 1.0) * (if stealth then stealthMult else 1.0) + bonus
  }

  /** UpdateSpeed: the base speed times the multiplier. */
  function Speed(walk: real, run: real, crouch: real, overloadMult: real, stealthMult: real,
                 f: MoveFlags, overloaded: bool, bonus: Option<real>): real
  {
    BaseSpeed(walk, run, crouch, f) * SpeedMultiplier(overloadMult, stealthMult, f.stealth, overloaded,
                                                      if bonus.Some? then bonus.value else 0.0)
  }

  /** UpdateNoiseLevel: 1 (2 when running), times 0.3 when crouching or in
      stealth, times 1.5 when overloaded. */
  function Noise(f: MoveFlags, overloaded: bool): (r: real)
    ensures 0.3 <= r <= 3.0
    ensures f.crouching || f.stealth ==> r <= 0.9
  {
    var b := if f.running then 2.0 else 1.0;
    var c := if f.crouching || f.stealth then b * 0.3 else b;
    if overloaded then c * 1.5 else c
  }

  /** UpdateOverloadStatus: overloaded when the float ratio current/max
      exceeds 0.8; a zero maximum gives an infinite ratio for a positive
      weight and NaN (never greater) for zero. */
  function IsOverloaded(currentWeight: int, maxWeight: int): (r: bool)
    ensures maxWeight > 0 ==> (r <==> 5 * currentWeight > 4 * maxWeight)
    ensures maxWeight == 0 ==> (r <==> currentWeight > 0)
  {
    if maxWeight == 0 then currentWeight > 0
    else
      RatioAboveFourFifths(currentWeight as real, maxWeight as real);
      currentWeight as real / maxWeight as real > 0.8
  }

  lemma RatioAboveFourFifths(c: real, m: real)
    ensures m > 0.0 ==> (c / m > 0.8 <==> 5.0 * c > 4.0 * m)
  {
    if m > 0.0 {
      var q := c / m;
      assert c == q * m;
      if q > 0.8 {
        assert (q - 0.8) * m > 0.0;
      } else {
        assert (0.8 - q) * m >= 0.0;
      }
    }
  }

  // ------------------------------------------------------------ lemmas

  /** Mathf.RoundToInt on the three default weights: 0.5 rounds to 0. */
  lemma DefaultRounding()
    ensures RoundToInt(0.5) == 0 && RoundToInt(1.0) == 1 && RoundToInt(2.0) == 2
  {
  }

  /** With the default weights, fragile labels weigh 0, heavy labels 2 and
      the rest 1; a label with both kinds of word counts as fragile. */
  lemma DefaultItemWeights(g: Goods)
    ensures var w := ItemWeight(g, 1.0, 0.5, 2.0);
      (ContainsAny(Text.ToLower(g.name), FragileWords) ==> w == 0) &&
      (!ContainsAny(Text.ToLower(g.name), FragileWords) && ContainsAny(Text.ToLower(g.name), HeavyWords) ==> w == 2) &&
      (!ContainsAny(Text.ToLower(g.name), FragileWords) && !ContainsAny(Text.ToLower(g.name), HeavyWords) ==> w == 1) &&
      0 <= w <= 2
  {
    DefaultRounding();
  }

  /** The weight of a list is additive, and removing one occurrence removes
      exactly that item's weight. */
  lemma {:induction false} TotalWeightAppend(gs: seq<Goods>, hs: seq<Goods>, p: real, f: real, h: real)
    ensures TotalWeight(gs + hs, p, f, h) == TotalWeight(gs, p, f, h) + TotalWeight(hs, p, f, h)
    decreases |hs|
  {
    if hs == [] {
      assert gs + hs == gs;
    } else {
      var n := |hs|;
      assert (gs + hs)[..|gs + hs| - 1] == gs + hs[..n - 1];
      TotalWeightAppend(gs, hs[..n - 1], p, f, h);
    }
  }

  /** The sum of prices is additive over concatenation. */
  lemma {:induction false} SumPricesAppend(gs: seq<Goods>, hs: seq<Goods>)
    ensures SumPrices(gs + hs) == SumPrices(gs) + SumPrices(hs)
    decreases |hs|
  {
    if hs == [] {
      assert gs + hs == gs;
    } else {
      var n := |hs|;
      assert (gs + hs)[..|gs + hs| - 1] == gs + hs[..n - 1];
      SumPricesAppend(gs, hs[..n - 1]);
    }
  }

  lemma {:induction false} TotalWeightRemoveFirst(gs: seq<Goods>, g: Goods, p: real, f: real, h: real)
    requires g in gs
    ensures TotalWeight(RemoveFirst(gs, g), p, f, h) == TotalWeight(gs, p, f, h) - ItemWeight(g, p, f, h)
  {
    assert gs == [gs[0]] + gs[1..];
    TotalWeightAppend([gs[0]], gs[1..], p, f, h);
    assert TotalWeight([gs[0]], p, f, h) == ItemWeight(gs[0], p, f, h) by {
      assert [gs[0]][..0] == [];
    }
    if gs[0] != g {
      TotalWeightRemoveFirst(gs[1..], g, p, f, h);
      TotalWeightAppend([gs[0]], RemoveFirst(gs[1..], g), p, f, h);
    }
  }

  /** The toggles keep "crouching implies stealth mode": crouching switches
      stealth on, leaving stealth switches crouching off, and running cannot
      be toggled while crouching. */
  lemma {:induction false} TogglesKeepCrouchInStealth(f: MoveFlags, ts: seq<Toggle>)
    requires f.crouching ==> f.stealth
    ensures ApplyToggles(f, ts).crouching ==> ApplyToggles(f, ts).stealth
    decreases |ts|
  {
    if ts != [] {
      TogglesKeepCrouchInStealth(ApplyToggle(f, ts[0]), ts[1..]);
    }
  }

  /** Crouching does not clear running: a crouch press leaves the running flag
      as it was, and while crouched a run press changes nothing. */
  lemma CrouchKeepsRunning(f: MoveFlags)
    ensures ToggleCrouchFlags(f).running == f.running
    ensures ToggleCrouchFlags(f).crouching ==> ToggleRunFlags(ToggleCrouchFlags(f)) == ToggleCrouchFlags(f)
  {
  }

  /** Crouching selects the crouch speed even while running; the stealth
      bonus is added to the multiplier, so with a bonus an overloaded,
      stealthy player moves at base × (0.35 + bonus) with the defaults. */
  lemma SpeedRules(f: MoveFlags, bonus: real)
    ensures f.crouching && f.running ==> Speed(3.0, 6.0, 1.5, 0.5, 0.7, f, false, None) == 1.5 * (if f.stealth then 0.7 else 1.0)
    ensures f.stealth ==> (Speed(3.0, 6.0, 1.5, 0.5, 0.7, f, true, Some(bonus)) ==
      BaseSpeed(3.0, 6.0, 1.5, f) * (0.35 + bonus))
    ensures !f.stealth ==> (Speed(3.0, 6.0, 1.5, 0.5, 0.7, f, false, Some(bonus)) ==
      BaseSpeed(3.0, 6.0, 1.5, f) * (1.0 + bonus))
  {
  }

  /** Overload and stealth never make the player faster, for non-negative
      speeds, multipliers at most 1 and any bonus. */
  lemma OverloadNeverFaster(walk: real, run: real, crouch: real, om: real, sm: real, f: MoveFlags, bonus: Option<real>)
    requires walk >= 0.0 && run >= 0.0 && crouch >= 0.0
    requires 0.0 <= om <= 1.0 && 0.0 <= sm <= 1.0
    ensures Speed(walk, run, crouch, om, sm, f, true, bonus) <= Speed(walk, run, crouch, om, sm, f, false, bonus)
  {
    var bn := if bonus.Some? then bonus.value else 0.0;
    var b := BaseSpeed(walk, run, crouch, f);
    var lo := SpeedMultiplier(om, sm, f.stealth, true, bn);
    var hi := SpeedMultiplier(om, sm, f.stealth, false, bn);
    OverloadLowersMultiplier(om, sm, f.stealth, bn);
    MulMono(b, lo, hi);
    assert Speed(walk, run, crouch, om, sm, f, true, bonus) == b * lo;
    assert Speed(walk, run, crouch, om, sm, f, false, bonus) == b * hi;
    assert Speed(walk, run, crouch, om, sm, f, true, bonus) <= Speed(walk, run, crouch, om, sm, f, false, bonus);
  }

  lemma OverloadLowersMultiplier(om: real, sm: real, stealth: bool, bonus: real)
    requires 0.0 <= om <= 1.0 && 0.0 <= sm <= 1.0
    ensures SpeedMultiplier(om, sm, stealth, true, bonus) <= SpeedMultiplier(om, sm, stealth, false, bonus)
  {
    var s := if stealth then sm else 1.0;
    MulMono(s, om, 1.0);
    assert SpeedMultiplier(om, sm, stealth, true, bonus) == om * s + bonus;
    assert SpeedMultiplier(om, sm, stealth, false, bonus) == 1.0 * s + bonus;
  }

  lemma StealthNeverFaster(walk: real, run: real, crouch: real, om: real, sm: real, crouching: bool, running: bool, bonus: Option<real>)
    requires walk >= 0.0 && run >= 0.0 && crouch >= 0.0
    requires 0.0 <= sm <= 1.0
    ensures Speed(walk, run, crouch, om, sm, MoveFlags(crouching, running, true), false, bonus)
         <= Speed(walk, run, crouch, om, sm, MoveFlags(crouching, running, false), false, bonus)
  {
    var bn := if bonus.Some? then bonus.value else 0.0;
    var b := BaseSpeed(walk, run, crouch, MoveFlags(crouching, running, false));
    assert BaseSpeed(walk, run, crouch, MoveFlags(crouching, running, true)) == b;
    var lo := SpeedMultiplier(om, sm, true, false, bn);
    var hi := SpeedMultiplier(om, sm, false, false, bn);
    assert lo <= hi;
    MulMono(b, lo, hi);
    assert b * lo <= b * hi;
    assert Speed(walk, run, crouch, om, sm, MoveFlags(crouching, running, true), false, bonus) == b * lo;
    assert Speed(walk, run, crouch, om, sm, MoveFlags(crouching, running, false), false, bonus) == b * hi;
    assert Speed(walk, run, crouch, om, sm, MoveFlags(crouching, running, true), false, bonus)
        <= Speed(walk, run, crouch, om, sm, MoveFlags(crouching, running, false), false, bonus);
  }

  lemma MulMono(b: real, x: real, y: real)
    requires b >= 0.0 && x <= y
    ensures x * b <= y * b && b * x <= b * y
  {
    assert b * (y - x) >= 0.0;
  }

  /** Running doubles the noise, and overload multiplies it by 1.5, whatever
      the other flags. */
  lemma NoiseRules(f: MoveFlags, overloaded: bool)
    ensures Noise(f.(running := true), overloaded) == 2.0 * Noise(f.(running := false), overloaded)
    ensures Noise(f, true) == 1.5 * Noise(f, false)
  {
  }

  // ============================================================== classes

  /** Events the mover publishes. */
  datatype MoverEvent = OverloadChanged(on: bool) | CrouchChanged(on: bool) | RunChanged(on: bool)
                      | StealthModeChanged(on: bool) | SpeedChanged(speed: real)

  /** Every field of a Player, as a value. */
  datatype PlayerState = PlayerState(maxInventoryWeight: int, stealthLevel: int, pickpocketLevel: int,
                                     distractionLevel: int, money: int, fine: int, crimeRate: int,
                                     isStealing: bool, inventory: PlayerInventory?, mover: PlayerMover?)

  /** Every field of a PlayerInventory, as a value. */
  datatype InventoryState = InventoryState(maxWeight: int, currentWeight: int, maxItems: int,
                                           weightPerItem: real, fragileItemWeight: real, heavyItemWeight: real,
                                           goods: seq<Goods>, player: Player?, mover: PlayerMover?)

  /** Every field of a PlayerMover, as a value. */
  datatype MoverState = MoverState(walkSpeed: real, runSpeed: real, crouchSpeed: real,
                                   overloadSpeedMultiplier: real, stealthSpeedMultiplier: real,
                                   noiseLevel: real, currentSpeed: real, isOverloaded: bool,
                                   isCrouching: bool, isRunning: bool, isStealthMode: bool,
                                   moveDirection: Vec3, player: Player?, events: seq<MoverEvent>)

  /** SetOverloaded on a mover, given its owner's stealth bonus if it has an
      owner: a new flag value is announced, then the speed is recomputed for
      it and announced; the same value changes nothing. */
  function Overload(m: MoverState, overloaded: bool, bonus: Option<real>): MoverState
  {
    if m.isOverloaded == overloaded then m
    else
      var speed := Speed(m.walkSpeed, m.runSpeed, m.crouchSpeed, m.overloadSpeedMultiplier,
                         m.stealthSpeedMultiplier, MoveFlags(m.isCrouching, m.isRunning, m.isStealthMode),
                         overloaded, bonus);
      m.(isOverloaded := overloaded, currentSpeed := speed,
         events := m.events + [OverloadChanged(overloaded), SpeedChanged(speed)])
  }

  /** The overload update sets the flag, is idempotent, changes the mover
      exactly when the flag flips, and then touches only the flag, the
      speed and the event list, to which it appends two events. */
  lemma OverloadRules(m: MoverState, overloaded: bool, bonus: Option<real>)
    ensures Overload(m, overloaded, bonus).isOverloaded == overloaded
    ensures Overload(Overload(m, overloaded, bonus), overloaded, bonus) == Overload(m, overloaded, bonus)
    ensures Overload(m, overloaded, bonus) == m <==> m.isOverloaded == overloaded
    ensures var r := Overload(m, overloaded, bonus);
      r.(isOverloaded := m.isOverloaded, currentSpeed := m.currentSpeed, events := m.events) == m
    ensures m.isOverloaded != overloaded ==>
      var r := Overload(m, overloaded, bonus);
      |r.events| == |m.events| + 2 && r.events[..|m.events|] == m.events
  {
  }

  class Player {
    var maxInventoryWeight: int
    var stealthLevel: int
    var pickpocketLevel: int
    var distractionLevel: int
    var money: int
    var fine: int
    var crimeRate: int
    var isStealing: bool
    var inventory: PlayerInventory?
    var mover: PlayerMover?

    /** Inspector defaults; the sibling components are attached later. */
    constructor ()
      ensures maxInventoryWeight == 10 && stealthLevel == 1 && pickpocketLevel == 1 && distractionLevel == 1
      ensures money == 0 && fine == 0 && crimeRate == 0 && !isStealing
      ensures inventory == null && mover == null
    {
      maxInventoryWeight := 10;
      stealthLevel := 1;
      pickpocketLevel := 1;
      distractionLevel := 1;
      money := 0;
      fine := 0;
      crimeRate := 0;
      isStealing := false;
      inventory := null;
      mover := null;
    }

    function State(): PlayerState
      reads this
    {
      PlayerState(maxInventoryWeight, stealthLevel, pickpocketLevel, distractionLevel, money, fine, crimeRate,
                  isStealing, inventory, mover)
    }

    /** The objects an upgrade of the stealth skill may write. */
    function InventoryFrame(): set<object>
      reads this, inventory
    {
      if inventory == null then {} else if inventory.mover == null then {inventory} else {inventory, inventory.mover}
    }

    function GetStealthBonus(): (r: real)
      reads this
      ensures stealthLevel >= 0 ==> r >= 0.0
      ensures r >= 1.0 <==> stealthLevel >= 10
    {
      StealthBonus(stealthLevel)
    }

    method AddMoney(amount: int)
      modifies this`money
      ensures money == old(money) + amount
    {
      money := money + amount;
    }

    /** Succeeds and pays exactly when the money suffices. */
    method SpendMoney(amount: int) returns (ok: bool)
      modifies this`money
      ensures ok <==> old(money) >= amount
      ensures money == if ok then old(money) - amount else old(money)
    {
      ok := money >= amount;
      if ok {
        money := money - amount;
      }
    }

    /** Clears the fine when it is affordable; otherwise nothing changes. */
    method PayFine()
      modifies this`money, this`fine
      ensures old(money) >= old(fine) ==> money == old(money) - old(fine) && fine == 0
      ensures old(money) < old(fine) ==> money == old(money) && fine == old(fine)
    {
      if money >= fine {
        money := money - fine;
        fine := 0;
      }
    }

    /** Adds to the fine and pays the whole fine at once when affordable. */
    method AddFine(amount: int)
      modifies this`money, this`fine
      ensures old(money) >= old(fine) + amount ==> money == old(money) - (old(fine) + amount) && fine == 0
      ensures old(money) < old(fine) + amount ==> money == old(money) && fine == old(fine) + amount
    {
      fine := fine + amount;
      if money >= fine {
        PayFine();
      }
    }

    /** Adds crime points; at 100 or more the police are called and the rate
        returns to 0. */
    method AddCrimeRate(points: int)
      modifies this`crimeRate
      ensures crimeRate == CrimeAfter(old(crimeRate), points)
    {
      crimeRate := crimeRate + points;
      if crimeRate >= 100 {
        CallPolice();
      }
    }

    /** The police call itself is not modelled; the rate is reset. */
    method CallPolice()
      modifies this`crimeRate
      ensures crimeRate == 0
    {
      crimeRate := 0;
    }

    method ReduceCrimeRate(reduction: int)
      modifies this`crimeRate
      ensures crimeRate == PositivePart(old(crimeRate) - reduction)
    {
      crimeRate := PositivePart(crimeRate - reduction);
    }

    method OnEnemyDied(points: int)
      modifies this`crimeRate
      ensures crimeRate == CrimeAfter(old(crimeRate), points)
    {
      AddCrimeRate(points);
    }

    /** Recomputes the capacity from the stealth level and hands it to the
        inventory, when there is one. */
    method UpdateInventoryWeight()
      modifies this`maxInventoryWeight, InventoryFrame()
      ensures inventory == old(inventory)
      ensures inventory == null ==> maxInventoryWeight == old(maxInventoryWeight)
      ensures inventory != null ==> (maxInventoryWeight == CapacityFor(stealthLevel)
        && inventory.maxWeight == maxInventoryWeight
        && inventory.goods == old(inventory.goods) && inventory.currentWeight == old(inventory.currentWeight)
        && inventory.mover == old(inventory.mover)
        && (inventory.mover != null ==> inventory.mover.isOverloaded == IsOverloaded(inventory.currentWeight, inventory.maxWeight)))
      ensures inventory != null ==>
        inventory.State() == old(inventory.State()).(maxWeight := maxInventoryWeight) && inventory.MoverFollowsLoad()
    {
      if inventory != null {
        maxInventoryWeight := CapacityFor(stealthLevel);
        inventory.UpdateMaxWeight(maxInventoryWeight);
      }
    }

    /** Raises the stealth level by one iff the cost (level × 100) is paid;
        the capacity follows the new level. */
    method TryUpgradeStealth() returns (ok: bool)
      modifies this`money, this`stealthLevel, this`maxInventoryWeight, InventoryFrame()
      ensures ok <==> old(money) >= StealthUpgradeCost(old(stealthLevel))
      ensures ok ==> money == old(money) - StealthUpgradeCost(old(stealthLevel)) && stealthLevel == old(stealthLevel) + 1
      ensures !ok ==> money == old(money) && stealthLevel == old(stealthLevel) && maxInventoryWeight == old(maxInventoryWeight)
      ensures ok && inventory != null ==> maxInventoryWeight == CapacityFor(stealthLevel) && inventory.maxWeight == maxInventoryWeight
      ensures inventory == old(inventory)
      ensures ok && inventory != null ==>
        inventory.State() == old(inventory.State()).(maxWeight := maxInventoryWeight) && inventory.MoverFollowsLoad()
      ensures !ok && inventory != null ==> inventory.Untouched()
    {
      var cost := StealthUpgradeCost(stealthLevel);
      ok := SpendMoney(cost);
      if ok {
        stealthLevel := stealthLevel + 1;
        UpdateInventoryWeight();
      }
    }

    method TryUpgradePickpocket() returns (ok: bool)
      modifies this`money, this`pickpocketLevel
      ensures ok <==> old(money) >= PickpocketUpgradeCost(old(pickpocketLevel))
      ensures money == if ok then old(money) - PickpocketUpgradeCost(old(pickpocketLevel)) else old(money)
      ensures pickpocketLevel == if ok then old(pickpocketLevel) + 1 else old(pickpocketLevel)
    {
      var cost := PickpocketUpgradeCost(pickpocketLevel);
      ok := SpendMoney(cost);
      if ok {
        pickpocketLevel := pickpocketLevel + 1;
      }
    }

    method TryUpgradeDistraction() returns (ok: bool)
      modifies this`money, this`distractionLevel
      ensures ok <==> old(money) >= DistractionUpgradeCost(old(distractionLevel))
      ensures money == if ok then old(money) - DistractionUpgradeCost(old(distractionLevel)) else old(money)
      ensures distractionLevel == if ok then old(distractionLevel) + 1 else old(distractionLevel)
    {
      var cost := DistractionUpgradeCost(distractionLevel);
      ok := SpendMoney(cost);
      if ok {
        distractionLevel := distractionLevel + 1;
      }
    }

    /** Marks the player as stealing; the reset half a second later is a
        separate call. */
    method TrySteal()
      modifies this`isStealing
      ensures isStealing
    {
      isStealing := true;
    }

    method ResetStealing()
      modifies this`isStealing
      ensures !isStealing
    {
      isStealing := false;
    }
  }

  class PlayerInventory {
    var maxWeight: int
    var currentWeight: int
    var maxItems: int
    var weightPerItem: real
    var fragileItemWeight: real
    var heavyItemWeight: real
    var goods: seq<Goods>
    var player: Player?
    var mover: PlayerMover?

    /** The running weight is the sum of the item weights. */
    ghost predicate Valid()
      reads this
    {
      currentWeight == TotalWeight(goods, weightPerItem, fragileItemWeight, heavyItemWeight)
    }

    constructor ()
      ensures Valid() && goods == [] && currentWeight == 0
      ensures maxWeight == 10 && maxItems == 20
      ensures weightPerItem == 1.0 && fragileItemWeight == 0.5 && heavyItemWeight == 2.0
      ensures player == null && mover == null
    {
      maxWeight := 10;
      currentWeight := 0;
      maxItems := 20;
      weightPerItem := 1.0;
      fragileItemWeight := 0.5;
      heavyItemWeight := 2.0;
      goods := [];
      player := null;
      mover := null;
    }

    function State(): InventoryState
      reads this
    {
      InventoryState(maxWeight, currentWeight, maxItems, weightPerItem, fragileItemWeight, heavyItemWeight,
                     goods, player, mover)
    }

    /** The objects the overload update reads. */
    function MoverFrame(): set<object?>
      reads this, mover
    {
      if mover == null then {} else {mover, mover.player}
    }

    /** The inventory and its mover are as they were. */
    twostate predicate Untouched()
      reads this, mover
    {
      State() == old(State()) && (mover != null ==> mover.State() == old(mover.State()))
    }

    /** The mover, if there is one, has had the overload update for the
        current load (SetOverloaded with IsOverloaded), and nothing else. */
    twostate predicate MoverFollowsLoad()
      reads this, MoverFrame()
    {
      mover == old(mover)
      && (mover != null ==>
            mover.State() == Overload(old(mover.State()), IsOverloaded(currentWeight, maxWeight), mover.Bonus()))
    }

    /** With the default weights an item weighs 0, 1 or 2. */
    function WeightOf(g: Goods): (r: int)
      reads this
      ensures weightPerItem == 1.0 && fragileItemWeight == 0.5 && heavyItemWeight == 2.0 ==> 0 <= r <= 2
    {
      DefaultItemWeights(g);
      ItemWeight(g, weightPerItem, fragileItemWeight, heavyItemWeight)
    }

    /** True exactly when TryAddItem would accept the item. */
    function CanAddItem(item: Option<Goods>): (r: bool)
      reads this
      ensures r <==> AddVerdict(item, currentWeight, maxWeight, |goods|, maxItems,
                                weightPerItem, fragileItemWeight, heavyItemWeight) == Added
    {
      item.Some? && currentWeight + WeightOf(item.value) <= maxWeight && |goods| < maxItems
    }

    function GetFreeWeight(): (r: int)
      reads this
      ensures r >= 0 <==> currentWeight <= maxWeight
    {
      maxWeight - currentWeight
    }

    function GetFreeSlots(): (r: int)
      reads this
      ensures r > 0 <==> |goods| < maxItems
    {
      maxItems - |goods|
    }

    function HasItem(item: Goods): (r: bool)
      reads this
      ensures r <==> multiset(goods)[item] > 0
    {
      item in goods
    }

    function GetItemByIndex(index: int): (r: Option<Goods>)
      reads this
      ensures r.Some? <==> 0 <= index < |goods|
      ensures r.Some? ==> r.value == goods[index]
    {
      if index < 0 || index >= |goods| then None else Some(goods[index])
    }

    /** Start: the capacity is copied from the owning player, when there is
        one, and the overload flag is re-evaluated. */
    method Start()
      modifies this`maxWeight, mover
      ensures maxWeight == if player != null then player.maxInventoryWeight else old(maxWeight)
      ensures State() == old(State()).(maxWeight := maxWeight)
      ensures MoverFollowsLoad()
    {
      if player != null {
        maxWeight := player.maxInventoryWeight;
      }
      UpdateOverloadStatus();
    }

    /** Tells the mover (if any) whether the current load overloads it. */
    method UpdateOverloadStatus()
      modifies mover
      ensures mover != null ==> mover.isOverloaded == IsOverloaded(currentWeight, maxWeight)
      ensures mover != null ==> mover.Flags() == old(mover.Flags()) && mover.player == old(mover.player)
      ensures MoverFollowsLoad()
    {
      if mover != null {
        mover.UpdateOverloadStatus(currentWeight, maxWeight);
      }
    }

    /** Adds the item when it is not null, fits by weight and fits by count,
        in that order; a refusal changes nothing. */
    method TryAddItem(item: Option<Goods>) returns (outcome: AddOutcome)
      requires Valid()
      modifies this`goods, this`currentWeight, mover
      ensures Valid()
      ensures outcome == AddVerdict(item, old(currentWeight), maxWeight, |old(goods)|, maxItems,
                                    weightPerItem, fragileItemWeight, heavyItemWeight)
      ensures outcome == Added ==> goods == old(goods) + [item.value] && currentWeight == old(currentWeight) + WeightOf(item.value)
      ensures outcome != Added ==> goods == old(goods) && currentWeight == old(currentWeight)
      ensures outcome == Added && mover != null ==> mover.isOverloaded == IsOverloaded(currentWeight, maxWeight)
      ensures outcome == Added ==>
        State() == old(State()).(goods := goods, currentWeight := currentWeight) && MoverFollowsLoad()
      ensures outcome != Added ==> Untouched()
    {
      if item.None? {
        return NullItem;
      }
      var w := WeightOf(item.value);
      if currentWeight + w > maxWeight {
        return Overloaded;
      }
      if |goods| >= maxItems {
        return Full;
      }
      TotalWeightAppend(goods, [item.value], weightPerItem, fragileItemWeight, heavyItemWeight);
      assert TotalWeight([item.value], weightPerItem, fragileItemWeight, heavyItemWeight) == w by {
        assert [item.value][..0] == [];
      }
      goods := goods + [item.value];
      currentWeight := currentWeight + w;
      UpdateOverloadStatus();
      outcome := Added;
    }

    /** Removes the first occurrence of a present item and subtracts its
        weight; a null or absent item is refused. */
    method TryRemoveItem(item: Option<Goods>) returns (ok: bool)
      requires Valid()
      modifies this`goods, this`currentWeight, mover
      ensures Valid()
      ensures ok <==> item.Some? && item.value in old(goods)
      ensures ok ==> goods == RemoveFirst(old(goods), item.value) && currentWeight == old(currentWeight) - WeightOf(item.value)
      ensures !ok ==> goods == old(goods) && currentWeight == old(currentWeight)
      ensures ok && mover != null ==> mover.isOverloaded == IsOverloaded(currentWeight, maxWeight)
      ensures ok ==> MoverFollowsLoad()
      ensures !ok ==> Untouched()
    {
      if item.None? || item.value !in goods {
        return false;
      }
      var w := WeightOf(item.value);
      TotalWeightRemoveFirst(goods, item.value, weightPerItem, fragileItemWeight, heavyItemWeight);
      goods := RemoveFirst(goods, item.value);
      currentWeight := currentWeight - w;
      assert Valid() && currentWeight == old(currentWeight) - WeightOf(item.value);
      UpdateOverloadStatus();
      ok := true;
    }

    method TryRemoveItemByIndex(index: int) returns (ok: bool)
      requires Valid()
      modifies this`goods, this`currentWeight, mover
      ensures Valid()
      ensures ok <==> 0 <= index < |old(goods)|
      ensures ok ==>
        goods == RemoveFirst(old(goods), old(goods)[index])
        && currentWeight == old(currentWeight) - WeightOf(old(goods)[index])
      ensures ok ==> MoverFollowsLoad()
      ensures !ok ==> Untouched()
    {
      if index < 0 || index >= |goods| {
        return false;
      }
      ok := TryRemoveItem(Some(goods[index]));
    }

    /** Empties the list and zeroes the weight. */
    method RemoveAllItems()
      modifies this`goods, this`currentWeight, mover
      ensures Valid() && goods == [] && currentWeight == 0
      ensures mover != null ==> mover.isOverloaded == IsOverloaded(0, maxWeight)
      ensures MoverFollowsLoad()
    {
      goods := [];
      currentWeight := 0;
      UpdateOverloadStatus();
    }

    /** Counts occurrences of `item`. */
    method GetItemCount(item: Goods) returns (count: nat)
      ensures count == multiset(goods)[item]
    {
      count := 0;
      var i := 0;
      while i < |goods|
        invariant 0 <= i <= |goods|
        invariant count == multiset(goods[..i])[item]
      {
        assert goods[..i + 1] == goods[..i] + [goods[i]];
        if goods[i] == item {
          count := count + 1;
        }
        i := i + 1;
      }
      assert goods[..i] == goods;
    }

    /** Sums the prices of the carried goods. */
    method GetTotalValue() returns (total: int)
      ensures total == SumPrices(goods)
      ensures (forall i :: 0 <= i < |goods| ==> goods[i].price >= 0) ==> total >= 0
    {
      total := 0;
      var i := 0;
      while i < |goods|
        invariant 0 <= i <= |goods|
        invariant total == SumPrices(goods[..i])
        invariant (forall k :: 0 <= k < |goods| ==> goods[k].price >= 0) ==> total >= 0
      {
        assert goods[..i + 1][..i] == goods[..i];
        total := total + goods[i].price;
        i := i + 1;
      }
      assert goods[..i] == goods;
    }

    /** Sells everything: the player earns the sum of prices and the list empties. */
    method SellAllItems()
      requires player != null
      modifies this`goods, this`currentWeight, mover, player`money
      ensures player.money == old(player.money) + SumPrices(old(goods))
      ensures Valid() && goods == [] && currentWeight == 0
      ensures MoverFollowsLoad()
    {
      var total := GetTotalValue();
      player.AddMoney(total);
      RemoveAllItems();
    }

    /** Sells one item: on a successful removal the player earns its price. */
    method SellItem(item: Option<Goods>)
      requires Valid() && player != null
      modifies this`goods, this`currentWeight, mover, player`money
      ensures Valid()
      ensures item.Some? && item.value in old(goods) ==>
        goods == RemoveFirst(old(goods), item.value) && player.money == old(player.money) + item.value.price
      ensures !(item.Some? && item.value in old(goods)) ==> goods == old(goods) && player.money == old(player.money)
      ensures item.Some? && item.value in old(goods) ==> MoverFollowsLoad()
      ensures !(item.Some? && item.value in old(goods)) ==> Untouched()
    {
      var ok := TryRemoveItem(item);
      if ok {
        player.AddMoney(item.value.price);
      }
    }

    method SellItemByIndex(index: int)
      requires Valid() && player != null
      modifies this`goods, this`currentWeight, mover, player`money
      ensures Valid()
      ensures 0 <= index < |old(goods)| ==>
        goods == RemoveFirst(old(goods), old(goods)[index]) && player.money == old(player.money) + old(goods)[index].price
      ensures !(0 <= index < |old(goods)|) ==> goods == old(goods) && player.money == old(player.money)
      ensures 0 <= index < |old(goods)| ==> MoverFollowsLoad()
      ensures !(0 <= index < |old(goods)|) ==> Untouched()
    {
      var item := GetItemByIndex(index);
      if item.Some? {
        SellItem(item);
      }
    }

    /** Sets the capacity and re-evaluates the overload flag. */
    method UpdateMaxWeight(newMaxWeight: int)
      modifies this`maxWeight, mover
      ensures maxWeight == newMaxWeight
      ensures mover != null ==> mover.isOverloaded == IsOverloaded(currentWeight, maxWeight)
      ensures mover != null ==> mover.Flags() == old(mover.Flags()) && mover.player == old(mover.player)
      ensures MoverFollowsLoad()
    {
      maxWeight := newMaxWeight;
      UpdateOverloadStatus();
    }
  }

  class PlayerMover {
    var walkSpeed: real
    var runSpeed: real
    var crouchSpeed: real
    var overloadSpeedMultiplier: real
    var stealthSpeedMultiplier: real
    var noiseLevel: real
    var currentSpeed: real
    var isOverloaded: bool
    var isCrouching: bool
    var isRunning: bool
    var isStealthMode: bool
    /** The input direction (normalised, so of length 0 or 1). */
    var moveDirection: Vec3
    var player: Player?
    var events: seq<MoverEvent>

    constructor ()
      ensures walkSpeed == 3.0 && runSpeed == 6.0 && crouchSpeed == 1.5
      ensures overloadSpeedMultiplier == 0.5 && stealthSpeedMultiplier == 0.7 && noiseLevel == 1.0
      ensures !isOverloaded && !isCrouching && !isRunning && !isStealthMode
      ensures player == null && events == []
    {
      walkSpeed := 3.0;
      runSpeed := 6.0;
      crouchSpeed := 1.5;
      overloadSpeedMultiplier := 0.5;
      stealthSpeedMultiplier := 0.7;
      noiseLevel := 1.0;
      currentSpeed := 0.0;
      isOverloaded := false;
      isCrouching := false;
      isRunning := false;
      isStealthMode := false;
      moveDirection := Vec3(0.0, 0.0, 0.0);
      player := null;
      events := [];
    }

    function Flags(): MoveFlags
      reads this
    {
      MoveFlags(isCrouching, isRunning, isStealthMode)
    }

    function State(): MoverState
      reads this
    {
      MoverState(walkSpeed, runSpeed, crouchSpeed, overloadSpeedMultiplier, stealthSpeedMultiplier,
                 noiseLevel, currentSpeed, isOverloaded, isCrouching, isRunning, isStealthMode,
                 moveDirection, player, events)
    }

    /** The owner's stealth bonus, when the mover has an owner. */
    function Bonus(): Option<real>
      reads this, player
    {
      if player != null then Some(player.GetStealthBonus()) else None
    }

    /** The speed UpdateSpeed would store now. */
    function SpeedNow(): (r: real)
      reads this, player
      ensures player == null && !isOverloaded && !isStealthMode ==>
        r == BaseSpeed(walkSpeed, runSpeed, crouchSpeed, Flags())
    {
      Speed(walkSpeed, runSpeed, crouchSpeed, overloadSpeedMultiplier, stealthSpeedMultiplier,
            Flags(), isOverloaded, Bonus())
    }

    /** IsMoving: the direction is longer than 0.1 (compared squared). */
    function IsMoving(): (r: bool)
      reads this
      ensures moveDirection == Vec3(0.0, 0.0, 0.0) ==> !r
      ensures r <==> moveDirection.x * moveDirection.x + moveDirection.y * moveDirection.y + moveDirection.z * moveDirection.z > 0.01
    {
      var d := moveDirection;
      d.x * d.x + d.y * d.y + d.z * d.z > 0.01
    }

    method UpdateSpeed()
      modifies this`currentSpeed, this`events
      ensures currentSpeed == SpeedNow()
      ensures events == old(events) + [SpeedChanged(currentSpeed)]
    {
      currentSpeed := SpeedNow();
      events := events + [SpeedChanged(currentSpeed)];
    }

    method UpdateNoiseLevel()
      modifies this`noiseLevel
      ensures noiseLevel == Noise(Flags(), isOverloaded)
    {
      noiseLevel := Noise(Flags(), isOverloaded);
    }

    /** Changes the flag, announces it and recomputes the speed only when
        the value differs. */
    method SetOverloaded(overloaded: bool)
      modifies this`isOverloaded, this`currentSpeed, this`events
      ensures isOverloaded == overloaded
      ensures old(isOverloaded) == overloaded ==> events == old(events) && currentSpeed == old(currentSpeed)
      ensures old(isOverloaded) != overloaded ==>
        currentSpeed == SpeedNow() && events == old(events) + [OverloadChanged(overloaded), SpeedChanged(currentSpeed)]
      ensures State() == Overload(old(State()), overloaded, Bonus())
    {
      if isOverloaded != overloaded {
        isOverloaded := overloaded;
        events := events + [OverloadChanged(isOverloaded)];
        UpdateSpeed();
      }
    }

    method UpdateOverloadStatus(currentWeight: int, maxWeight: int)
      modifies this`isOverloaded, this`currentSpeed, this`events
      ensures isOverloaded == IsOverloaded(currentWeight, maxWeight)
      ensures old(isOverloaded) == isOverloaded ==> events == old(events)
      ensures State() == Overload(old(State()), IsOverloaded(currentWeight, maxWeight), Bonus())
    {
      var should := if maxWeight == 0 then currentWeight > 0 else currentWeight as real / maxWeight as real > 0.8;
      SetOverloaded(should);
    }

    method ToggleCrouch()
      modifies this`isCrouching, this`isStealthMode, this`events
      ensures Flags() == ToggleCrouchFlags(old(Flags()))
      ensures events == old(events) + [CrouchChanged(isCrouching)] +
        (if isCrouching && !old(isStealthMode) then [StealthModeChanged(true)] else [])
    {
      isCrouching := !isCrouching;
      events := events + [CrouchChanged(isCrouching)];
      if isCrouching && !isStealthMode {
        isStealthMode := true;
        events := events + [StealthModeChanged(isStealthMode)];
      }
    }

    method ToggleRun()
      modifies this`isRunning, this`events
      ensures Flags() == ToggleRunFlags(old(Flags()))
      ensures events == if old(isCrouching) then old(events) else old(events) + [RunChanged(isRunning)]
    {
      if !isCrouching {
        isRunning := !isRunning;
        events := events + [RunChanged(isRunning)];
      }
    }

    method ToggleStealthMode()
      modifies this`isCrouching, this`isStealthMode, this`events
      ensures Flags() == ToggleStealthFlags(old(Flags()))
      ensures events == old(events) + [StealthModeChanged(isStealthMode)] +
        (if !isStealthMode && old(isCrouching) then [CrouchChanged(false)] else [])
    {
      isStealthMode := !isStealthMode;
      events := events + [StealthModeChanged(isStealthMode)];
      if !isStealthMode && isCrouching {
        isCrouching := false;
        events := events + [CrouchChanged(isCrouching)];
      }
    }
  }
}
