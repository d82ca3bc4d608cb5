/** The base enemy (Enemy.cs): a suspicion score in [0, 1] with a
    "suspicious" flag above 0.1, an alert latch at a threshold, a 10-second
    alert timer and passive decay; plus the detection and hearing chances.
    The two security-guard subclasses override the sight and hearing
    reactions; their overrides are selected by `kind`. */
module Enemies {
  import opened Common
  import opened Players
  import opened MachineRequests
  import EnemySecurityGuard
  import GuardsSecurityGuard

  /** Which class the agent is: the base enemy or one of the two guards. */
  datatype EnemyKind =
    | PlainEnemy
    | BackupGuard(guard: EnemySecurityGuard.Config)
    | FloorGuard(floor: GuardsSecurityGuard.Config)

  /** The enemy's public events, in the order it raises them. */
  datatype EnemyEvent =
    | AlertedChanged(alerted: bool)
    | SuspiciousChanged(suspicious: bool)
    | SuspicionLevelChanged(level: real)
    | PlayerDetected
    | PlayerLost

  /** Score, suspicious flag, alert latch and alert timer. */
  datatype Alertness = Alertness(level: real, suspicious: bool, alerted: bool, timer: real)

  const AlertDuration: real := 10.0
  const SuspiciousAbove: real := 0.1
  const Calm := Alertness(0.0, false, false, 0.0)

  predicate InRange(a: Alertness) { 0.0 <= a.level <= 1.0 }

  // ------------------------------------------------------ the score rules

  /** DetectPlayer. A no-op while alerted. Otherwise it latches the alert,
      clears the flag and sets the score to 1; the timer is set only when
      there is a target, because the missing target is dereferenced first. */
  function Detect(a: Alertness, hasTarget: bool): (r: Alertness)
    ensures a.alerted ==> r == a
    ensures !a.alerted ==> r.alerted && !r.suspicious && r.level == 1.0
    ensures !a.alerted ==> r.timer == if hasTarget then AlertDuration else a.timer
  {
    if a.alerted then a
    else Alertness(1.0, false, true, if hasTarget then AlertDuration else a.timer)
  }

  /** Whether an AddSuspicion of `amount` reaches the threshold while not alerted. */
  predicate Alerts(a: Alertness, amount: real, threshold: real)
  {
    !a.alerted && Clamp01(a.level + amount) >= threshold
  }

  /** AddSuspicion's effect on the score, flag, latch and timer. */
  function Add(a: Alertness, amount: real, threshold: real, hasTarget: bool): (r: Alertness)
    ensures InRange(r)
    ensures r.alerted <==> a.alerted || Clamp01(a.level + amount) >= threshold
    ensures Alerts(a, amount, threshold) ==>
      r.level == 1.0 && !r.suspicious && r.timer == (if hasTarget then AlertDuration else a.timer)
    ensures !Alerts(a, amount, threshold) ==>
      r.level == Clamp01(a.level + amount) && r.suspicious == (r.level > SuspiciousAbove) && r.timer == a.timer
  {
    var l := Clamp01(a.level + amount);
    var b := a.(level := l, suspicious := l > SuspiciousAbove);
    if l >= threshold && !a.alerted then Detect(b, hasTarget) else b
  }

  /** The events AddSuspicion raises: the flag change, DetectPlayer's four
      events (none without a target, whose dereference throws), and the
      level change, which a throwing DetectPlayer skips. */
  function AddEvents(a: Alertness, amount: real, threshold: real, hasTarget: bool): seq<EnemyEvent>
  {
    var l := Clamp01(a.level + amount);
    var s := l > SuspiciousAbove;
    var flagEvents := if s != a.suspicious then [SuspiciousChanged(s)] else [];
    var detecting := l >= threshold && !a.alerted;
    var detectEvents := if detecting && hasTarget
      then [AlertedChanged(true), SuspiciousChanged(false), SuspicionLevelChanged(1.0), PlayerDetected] else [];
    var finalLevel := if detecting then 1.0 else l;
    var levelEvents := if (!detecting || hasTarget) && a.level != finalLevel then [SuspicionLevelChanged(finalLevel)] else [];
    flagEvents + detectEvents + levelEvents
  }

  /** ReduceSuspicion: floors at 0 (no upper clamp), recomputes the flag and
      leaves the latch and timer alone. */
  function Reduce(a: Alertness, amount: real): (r: Alertness)
    ensures r.level == Max(0.0, a.level - amount)
    ensures r.suspicious == (r.level > SuspiciousAbove)
    ensures r.alerted == a.alerted && r.timer == a.timer
    ensures amount >= 0.0 && InRange(a) ==> InRange(r)
  {
    var l := Max(0.0, a.level - amount);
    a.(level := l, suspicious := l > SuspiciousAbove)
  }

  function ReduceEvents(a: Alertness, amount: real): seq<EnemyEvent>
  {
    var l := Max(0.0, a.level - amount);
    var s := l > SuspiciousAbove;
    (if s != a.suspicious then [SuspiciousChanged(s)] else []) + (if l != a.level then [SuspicionLevelChanged(l)] else [])
  }

  /** LosePlayer: clears the latch and the timer; a no-op when not alerted. */
  function Lose(a: Alertness): (r: Alertness)
    ensures !a.alerted ==> r == a
    ensures a.alerted ==> !r.alerted && r.timer == 0.0 && r.level == a.level && r.suspicious == a.suspicious
  {
    if a.alerted then a.(alerted := false, timer := 0.0) else a
  }

  /** UpdateAlertTimer: counts down only while alerted with time left; at
      or below 0 the player is lost. */
  function TimerTick(a: Alertness, dt: real): (r: Alertness)
    ensures !a.alerted || a.timer <= 0.0 ==> r == a
    ensures a.alerted && a.timer > 0.0 && a.timer - dt <= 0.0 ==> !r.alerted && r.timer == 0.0
    ensures a.alerted && a.timer > 0.0 && a.timer - dt > 0.0 ==> r.alerted && r.timer == a.timer - dt
    ensures r.level == a.level && r.suspicious == a.suspicious
  {
    if a.alerted && a.timer > 0.0 then
      var t := a.timer - dt;
      if t <= 0.0 then Lose(a.(timer := t)) else a.(timer := t)
    else a
  }

  /** UpdateSuspicionDecay: a reduction by rate × dt, only with a positive
      score and no alert. */
  function Decay(a: Alertness, rate: real, dt: real): (r: Alertness)
    ensures a.alerted || a.level <= 0.0 ==> r == a
    ensures !a.alerted && a.level > 0.0 ==> r == Reduce(a, rate * dt)
    ensures r.alerted == a.alerted
  {
    if a.level > 0.0 && !a.alerted then Reduce(a, rate * dt) else a
  }

  /** The events UpdateAlertTimer raises: LosePlayer's two when the timer runs out. */
  function TimerEvents(a: Alertness, dt: real): seq<EnemyEvent>
  {
    if a.alerted && !TimerTick(a, dt).alerted then [AlertedChanged(false), PlayerLost] else []
  }

  /** The events UpdateSuspicionDecay raises. */
  function DecayEvents(a: Alertness, rate: real, dt: real): seq<EnemyEvent>
  {
    if a.level > 0.0 && !a.alerted then ReduceEvents(a, rate * dt) else []
  }

  /** One operation on the score, as a caller performs it. */
  datatype Op = AddOp(amount: real) | ReduceOp(amount: real) | TimerOp(dt: real) | DecayOp(rate: real, dt: real)

  function Apply(a: Alertness, op: Op, threshold: real, hasTarget: bool): Alertness
  {
    match op
    case AddOp(x) => Add(a, x, threshold, hasTarget)
    case ReduceOp(x) => Reduce(a, x)
    case TimerOp(dt) => TimerTick(a, dt)
    case DecayOp(rate, dt) => Decay(a, rate, dt)
  }

  function Run(a: Alertness, ops: seq<Op>, threshold: real, hasTarget: bool): Alertness
    decreases |ops|
  {
    if ops == [] then a else Run(Apply(a, ops[0], threshold, hasTarget), ops[1..], threshold, hasTarget)
  }

  predicate NonNegative(op: Op)
  {
    match op
    case AddOp(_) => true
    case ReduceOp(x) => x >= 0.0
    case TimerOp(_) => true
    case DecayOp(rate, dt) => rate >= 0.0 && dt >= 0.0
  }

  predicate NotTimer(op: Op) { !op.TimerOp? }

  // ------------------------------------------------------ lemmas

  /** Whatever amounts are added, and whatever non-negative amounts are
      removed, the score stays in [0, 1]. */
  lemma {:induction false} ScoreStaysInRange(a: Alertness, ops: seq<Op>, threshold: real, hasTarget: bool)
    requires InRange(a)
    requires forall i :: 0 <= i < |ops| ==> NonNegative(ops[i])
    ensures InRange(Run(a, ops, threshold, hasTarget))
    decreases |ops|
  {
    if ops != [] {
      var b := Apply(a, ops[0], threshold, hasTarget);
      if ops[0].DecayOp? {
        assert ops[0].rate * ops[0].dt >= 0.0 by {
          MulNonNegative(ops[0].rate, ops[0].dt);
        }
      }
      assert InRange(b);
      ScoreStaysInRange(b, ops[1..], threshold, hasTarget);
    }
  }

  lemma MulNonNegative(x: real, y: real)
    requires x >= 0.0 && y >= 0.0
    ensures x * y >= 0.0
  {
  }

  /** Only the alert timer ends an alert: additions, reductions and decay
      never clear the latch. */
  lemma {:induction false} AlertLatches(a: Alertness, ops: seq<Op>, threshold: real, hasTarget: bool)
    requires a.alerted
    requires forall i :: 0 <= i < |ops| ==> NotTimer(ops[i])
    ensures Run(a, ops, threshold, hasTarget).alerted
    decreases |ops|
  {
    if ops != [] {
      AlertLatches(Apply(a, ops[0], threshold, hasTarget), ops[1..], threshold, hasTarget);
    }
  }

  /** While alerted, decay leaves the score as it is. */
  lemma {:induction false} AlertedNeverDecays(a: Alertness, rates: seq<real>, dts: seq<real>)
    requires a.alerted && |rates| == |dts|
    ensures DecayAll(a, rates, dts) == a
    decreases |rates|
  {
    if rates != [] {
      AlertedNeverDecays(a, rates[1..], dts[1..]);
    }
  }

  function DecayAll(a: Alertness, rates: seq<real>, dts: seq<real>): Alertness
    requires |rates| == |dts|
    decreases |rates|
  {
    if rates == [] then a else DecayAll(Decay(a, rates[0], dts[0]), rates[1..], dts[1..])
  }

  /** With the default threshold 0.8, three additions of 0.3 from calm
      alert the enemy on the third (0.3, 0.6, 0.9): the score becomes 1,
      the flag is off and ten seconds of alert start. */
  lemma ThreeSightingsAlert()
    ensures var a3 := Run(Calm, [AddOp(0.3), AddOp(0.3), AddOp(0.3)], 0.8, true);
      a3 == Alertness(1.0, false, true, AlertDuration)
    ensures Run(Calm, [AddOp(0.3), AddOp(0.3)], 0.8, true) == Alertness(0.6, true, false, 0.0)
  {
    var a1 := Add(Calm, 0.3, 0.8, true);
    assert a1 == Alertness(0.3, true, false, 0.0);
    var a2 := Add(a1, 0.3, 0.8, true);
    assert a2 == Alertness(0.6, true, false, 0.0);
    var a3 := Add(a2, 0.3, 0.8, true);
    assert a3 == Alertness(1.0, false, true, AlertDuration);
    assert [AddOp(0.3), AddOp(0.3), AddOp(0.3)][1..] == [AddOp(0.3), AddOp(0.3)];
    assert [AddOp(0.3), AddOp(0.3)][1..] == [AddOp(0.3)];
    assert [AddOp(0.3)][1..] == [];
  }

  /** An alert without a target keeps the old timer; from a calm start that
      timer is 0, so the alert timer never counts down and the alert never
      ends. */
  lemma TargetlessAlertNeverExpires(dt: real)
    ensures var a := Add(Calm, 1.0, 0.8, false);
      a.alerted && a.timer == 0.0 && TimerTick(a, dt) == a
  {
  }

  /** AddSuspicion's flag event: without an alert, SuspiciousChanged is
      raised exactly when the flag flips, carrying the new value. */
  lemma AddFlagEvent(a: Alertness, amount: real, threshold: real, hasTarget: bool)
    requires !Alerts(a, amount, threshold)
    ensures var r := Add(a, amount, threshold, hasTarget);
      (SuspiciousChanged(r.suspicious) in AddEvents(a, amount, threshold, hasTarget) <==> r.suspicious != a.suspicious)
      && SuspiciousChanged(a.suspicious) !in AddEvents(a, amount, threshold, hasTarget)
      && AlertedChanged(true) !in AddEvents(a, amount, threshold, hasTarget)
  {
  }

  /** A detecting AddSuspicion with a target raises AlertedChanged(true),
      SuspiciousChanged(false), the level 1 and PlayerDetected, in order,
      after any flag flip of its own. */
  lemma DetectEvents(a: Alertness, amount: real, threshold: real)
    requires Alerts(a, amount, threshold)
    ensures var ev := AddEvents(a, amount, threshold, true);
      var k := if Add(a.(alerted := false), amount, 2.0, true).suspicious != a.suspicious then 1 else 0;
      |ev| >= k + 4 && ev[k..k + 4] == [AlertedChanged(true), SuspiciousChanged(false), SuspicionLevelChanged(1.0), PlayerDetected]
  {
  }

  // ------------------------------------------------------ chances

  /** CalculateDetectionChance: (1 − d/range), times the stealth multiplier
      in stealth mode, times (1 − stealth bonus), clamped to [0, 1]. */
  function DetectionChance(distance: real, range: real, stealthMode: bool, stealthMultiplier: real, stealthBonus: real): (r: real)
    requires range > 0.0
    ensures 0.0 <= r <= 1.0
    ensures distance == range ==> r == 0.0
    ensures distance == 0.0 && !stealthMode && stealthBonus == 0.0 ==> r == 1.0
  {
    var c := (1.0 - distance / range) * (if stealthMode then stealthMultiplier else 1.0);
    Clamp01(c * (1.0 - stealthBonus))
  }

  /** CalculateHearingChance: 0 beyond the hearing range, otherwise
      noise × multiplier × (1 − d/range), clamped. At a zero range and zero
      distance the float division gives NaN, which no roll is at or below:
      that case is None. */
  function HearingChance(distance: real, noiseLevel: real, hearingRange: real, noiseMultiplier: real): (r: Option<real>)
    ensures distance > hearingRange ==> r == Some(0.0)
    ensures r.None? <==> distance <= hearingRange && hearingRange == 0.0
    ensures r.Some? ==> 0.0 <= r.value <= 1.0
    ensures r.Some? && distance == hearingRange ==> r.value == 0.0
    ensures r.Some? && noiseLevel == 0.0 ==> r.value == 0.0
  {
    if distance > hearingRange then Some(0.0)
    else if hearingRange == 0.0 then None
    else
      var baseChance := noiseLevel * noiseMultiplier;
      assert noiseLevel == 0.0 ==> baseChance == 0.0;
      Some(Clamp01(baseChance * (1.0 - distance / hearingRange)))
  }

  /** A roll succeeds when it is at or below the chance scaled by `factor`. */
  predicate RollSucceeds(roll: real, chance: Option<real>, factor: real)
  {
    chance.Some? && roll <= chance.value * factor
  }

  /** IsPlayerInFieldOfView: within half the field of view, and no hit along
      the ray is a customer blocking vision. */
  function InFieldOfView(angle: real, fieldOfView: real, hitsBlocking: seq<bool>): (r: bool)
    ensures r <==> angle <= fieldOfView * 0.5 && forall i :: 0 <= i < |hitsBlocking| ==> !hitsBlocking[i]
  {
    angle <= fieldOfView * 0.5 && true !in hitsBlocking
  }

  /** The test splits over the ray's hits, a wider field of view never
      loses the player, and any blocking hit hides the player. */
  lemma FieldOfViewRules(angle: real, fieldOfView: real, wider: real, hits: seq<bool>, more: seq<bool>)
    ensures InFieldOfView(angle, fieldOfView, hits + more) <==>
      InFieldOfView(angle, fieldOfView, hits) && InFieldOfView(angle, fieldOfView, more)
    ensures fieldOfView <= wider && InFieldOfView(angle, fieldOfView, hits) ==> InFieldOfView(angle, wider, hits)
    ensures true in hits ==> !InFieldOfView(angle, fieldOfView, hits)
  {
  }

  /** Applies an optional addition (None: the call did not happen). */
  function AddOpt(a: Alertness, inc: Option<real>, threshold: real, hasTarget: bool): Alertness
  {
    if inc.Some? then Add(a, inc.value, threshold, hasTarget) else a
  }

  function AddOptEvents(a: Alertness, inc: Option<real>, threshold: real, hasTarget: bool): seq<EnemyEvent>
  {
    if inc.Some? then AddEvents(a, inc.value, threshold, hasTarget) else []
  }

  predicate AlertsOpt(a: Alertness, inc: Option<real>, threshold: real)
  {
    inc.Some? && Alerts(a, inc.value, threshold)
  }

  // ------------------------------------------------------ the component

  class Enemy {
    var kind: EnemyKind
    var detectionRange: real
    var fieldOfView: real
    var hearingRange: real
    var stealthDetectionMultiplier: real
    var noiseDetectionMultiplier: real
    var suspicionThreshold: real
    var suspicionGrowthSpeed: real
    var suspicionDecaySpeed: real
    var suspicionLevel: real
    var isSuspicious: bool
    var isAlerted: bool
    var alertTimer: real
    var target: Player?
    var playerMover: PlayerMover?
    /** The last known position is the target's own (live) transform. */
    var lastKnownPosition: Player?
    var hasStateMachine: bool
    var machineRequests: seq<MachineRequest>
    var events: seq<EnemyEvent>

    /** The target, as a frame: empty when there is none. */
    function TargetSet(): set<Player>
      reads this`target
    {
      if target == null then {} else {target}
    }

    function State(): Alertness
      reads this
    {
      Alertness(suspicionLevel, isSuspicious, isAlerted, alertTimer)
    }

    /** The inspector defaults, with the target found at Awake and its mover. */
    constructor (kind: EnemyKind, target: Player?, targetMover: PlayerMover?, hasStateMachine: bool)
      ensures this.kind == kind && this.target == target && this.hasStateMachine == hasStateMachine
      ensures playerMover == (if target != null then targetMover else null)
      ensures detectionRange == 10.0 && fieldOfView == 90.0 && hearingRange == 8.0
      ensures stealthDetectionMultiplier == 0.5 && noiseDetectionMultiplier == 1.5
      ensures suspicionThreshold == 0.8 && suspicionGrowthSpeed == 0.2 && suspicionDecaySpeed == 0.1
      ensures State() == Calm && lastKnownPosition == null
      ensures machineRequests == [] && events == []
    {
      this.kind := kind;
      detectionRange := 10.0;
      fieldOfView := 90.0;
      hearingRange := 8.0;
      stealthDetectionMultiplier := 0.5;
      noiseDetectionMultiplier := 1.5;
      suspicionThreshold := 0.8;
      suspicionGrowthSpeed := 0.2;
      suspicionDecaySpeed := 0.1;
      suspicionLevel := 0.0;
      isSuspicious := false;
      isAlerted := false;
      alertTimer := 0.0;
      this.target := target;
      playerMover := if target != null then targetMover else null;
      lastKnownPosition := null;
      this.hasStateMachine := hasStateMachine;
      machineRequests := [];
      events := [];
    }

    /** DetectPlayer; `completed` is false when the missing target made it
        throw after the flags and score were written. */
    method DetectPlayer() returns (completed: bool)
      modifies this`isAlerted, this`isSuspicious, this`suspicionLevel, this`alertTimer,
               this`lastKnownPosition, this`events, TargetSet()`crimeRate
      ensures State() == Detect(old(State()), target != null)
      ensures completed <==> old(isAlerted) || target != null
      ensures !old(isAlerted) && target != null ==>
        (lastKnownPosition == target && target.crimeRate == CrimeAfter(old(target.crimeRate), 50)
         && events == old(events) + [AlertedChanged(true), SuspiciousChanged(false), SuspicionLevelChanged(1.0), PlayerDetected])
      ensures old(isAlerted) || target == null ==> lastKnownPosition == old(lastKnownPosition) && events == old(events)
      ensures target != null && old(isAlerted) ==> target.crimeRate == old(target.crimeRate)
    {
      completed := true;
      if !isAlerted {
        isAlerted := true;
        isSuspicious := false;
        suspicionLevel := 1.0;
        if target == null {
          return false;
        }
        lastKnownPosition := target;
        alertTimer := AlertDuration;
        events := events + [AlertedChanged(true), SuspiciousChanged(false), SuspicionLevelChanged(1.0), PlayerDetected];
        target.AddCrimeRate(50);
      }
    }

    /** AddSuspicion's first half: the clamped sum and the recomputed flag,
        with the flag's change event. */
    method RaiseLevel(amount: real)
      modifies this`isSuspicious, this`suspicionLevel, this`events
      ensures suspicionLevel == Clamp01(old(suspicionLevel) + amount)
      ensures isSuspicious == (suspicionLevel > SuspiciousAbove)
      ensures events == old(events) + (if isSuspicious != old(isSuspicious) then [SuspiciousChanged(isSuspicious)] else [])
    {
      suspicionLevel := Clamp01(suspicionLevel + amount);
      var wasSuspicious := isSuspicious;
      isSuspicious := suspicionLevel > SuspiciousAbove;
      if isSuspicious != wasSuspicious {
        events := events + [SuspiciousChanged(isSuspicious)];
      }
    }

    /** AddSuspicion: clamps the sum into [0, 1], recomputes the flag and
        latches the alert at the threshold. */
    method AddSuspicion(amount: real)
      modifies this`isAlerted, this`isSuspicious, this`suspicionLevel, this`alertTimer,
               this`lastKnownPosition, this`events, TargetSet()`crimeRate
      ensures State() == Add(old(State()), amount, suspicionThreshold, target != null)
      ensures events == old(events) + AddEvents(old(State()), amount, suspicionThreshold, target != null)
      ensures Alerts(old(State()), amount, suspicionThreshold) && target != null ==>
        lastKnownPosition == target && target.crimeRate == CrimeAfter(old(target.crimeRate), 50)
      ensures !(Alerts(old(State()), amount, suspicionThreshold) && target != null) ==> lastKnownPosition == old(lastKnownPosition)
      ensures target != null && !Alerts(old(State()), amount, suspicionThreshold) ==> target.crimeRate == old(target.crimeRate)
    {
      var oldLevel := suspicionLevel;
      ghost var a := State();
      RaiseLevel(amount);
      ghost var b := State();
      assert b == a.(level := b.level, suspicious := b.suspicious);
      if suspicionLevel >= suspicionThreshold && !isAlerted {
        var completed := DetectPlayer();
        if !completed {
          return;
        }
      }
      if oldLevel != suspicionLevel {
        events := events + [SuspicionLevelChanged(suspicionLevel)];
      }
    }

    /** ReduceSuspicion: floors at 0, recomputes the flag, never touches the latch. */
    method ReduceSuspicion(amount: real)
      modifies this`isSuspicious, this`suspicionLevel, this`events
      ensures State() == Reduce(old(State()), amount)
      ensures events == old(events) + ReduceEvents(old(State()), amount)
    {
      var oldLevel := suspicionLevel;
      suspicionLevel := Max(0.0, suspicionLevel - amount);
      var wasSuspicious := isSuspicious;
      isSuspicious := suspicionLevel > SuspiciousAbove;
      if isSuspicious != wasSuspicious {
        events := events + [SuspiciousChanged(isSuspicious)];
      }
      if oldLevel != suspicionLevel {
        events := events + [SuspicionLevelChanged(suspicionLevel)];
      }
    }

    method LosePlayer()
      modifies this`isAlerted, this`alertTimer, this`events
      ensures State() == Lose(old(State()))
      ensures events == old(events) + (if old(isAlerted) then [AlertedChanged(false), PlayerLost] else [])
    {
      if isAlerted {
        isAlerted := false;
        alertTimer := 0.0;
        events := events + [AlertedChanged(false), PlayerLost];
      }
    }

    method UpdateAlertTimer(dt: real)
      modifies this`isAlerted, this`alertTimer, this`events
      ensures State() == TimerTick(old(State()), dt)
      ensures events == old(events) + TimerEvents(old(State()), dt)
    {
      if isAlerted && alertTimer > 0.0 {
        alertTimer := alertTimer - dt;
        if alertTimer <= 0.0 {
          LosePlayer();
        }
      }
    }

    method UpdateSuspicionDecay(dt: real)
      modifies this`isSuspicious, this`suspicionLevel, this`events
      ensures State() == Decay(old(State()), suspicionDecaySpeed, dt)
      ensures events == old(events) + DecayEvents(old(State()), suspicionDecaySpeed, dt)
    {
      if suspicionLevel > 0.0 && !isAlerted {
        ReduceSuspicion(suspicionDecaySpeed * dt);
      }
    }

    /** The addition OnPlayerSeen makes (None: it adds nothing). The base
        enemy rolls against the detection chance (a zero range divides 0 by
        0 and no roll passes); the first guard adds its rate with no roll;
        the second guard adds nothing. */
    function SeenIncrement(distance: real, roll: real, dt: real): (r: Option<real>)
      requires target != null
      reads this, target, playerMover
      ensures kind.FloorGuard? ==> r.None?
      ensures kind.BackupGuard? ==> r.Some?
    {
      var sneaking := playerMover != null && playerMover.isStealthMode;
      match kind
      case PlainEnemy =>
        if detectionRange > 0.0
           && roll <= DetectionChance(distance, detectionRange, sneaking, stealthDetectionMultiplier, target.GetStealthBonus())
        then Some(suspicionGrowthSpeed * dt) else None
      case BackupGuard(c) => Some(EnemySecurityGuard.SeenRate(c, sneaking, target.isStealing) * dt)
      case FloorGuard(_) => None
    }

    /** The addition OnPlayerHeard makes (None: the roll failed). The guards
        scale the base chance by 1.5 and add 0.7 × their enhanced rate. A
        roll of exactly 0 passes even a zero chance. */
    function HeardIncrement(distance: real, noiseLevel: real, roll: real, dt: real): (r: Option<real>)
      reads this`kind, this`hearingRange, this`noiseDetectionMultiplier, this`suspicionGrowthSpeed
      ensures distance > hearingRange && roll > 0.0 ==> r.None?
      ensures r.Some? <==> RollSucceeds(roll, HearingChance(distance, noiseLevel, hearingRange, noiseDetectionMultiplier),
                                        if kind.PlainEnemy? then 1.0 else 1.5)
    {
      var chance := HearingChance(distance, noiseLevel, hearingRange, noiseDetectionMultiplier);
      match kind
      case PlainEnemy =>
        if RollSucceeds(roll, chance, 1.0) then Some(suspicionGrowthSpeed * 0.5 * dt) else None
      case BackupGuard(c) =>
        if RollSucceeds(roll, chance, 1.5) then Some(EnemySecurityGuard.HeardRate(c) * dt) else None
      case FloorGuard(c) =>
        if RollSucceeds(roll, chance, 1.5) then Some(GuardsSecurityGuard.HeardRate(c) * dt) else None
    }

    /** A backup guard hears every roll in [0, 1] once the base hearing
        chance reaches 2/3 (its chance is scaled by 1.5). */
    lemma LoudNoiseAlwaysHeard(distance: real, noiseLevel: real, roll: real, dt: real)
      requires kind.BackupGuard? && 0.0 <= roll <= 1.0
      requires HearingChance(distance, noiseLevel, hearingRange, noiseDetectionMultiplier).Some?
      requires HearingChance(distance, noiseLevel, hearingRange, noiseDetectionMultiplier).value >= 2.0 / 3.0
      ensures HeardIncrement(distance, noiseLevel, roll, dt).Some?
    {
      var chance := HearingChance(distance, noiseLevel, hearingRange, noiseDetectionMultiplier).value;
      EnemySecurityGuard.LoudEnoughAlwaysHeard(chance, roll);
    }

    /** The two additions CheckForPlayer makes within the detection range:
        sight (only in the field of view) and hearing (only with a mover). */
    function Sighting(distance: real, inFieldOfView: bool, seenRoll: real, heardRoll: real, dt: real): (r: (Option<real>, Option<real>))
      requires target != null
      reads this, target, playerMover
      ensures !inFieldOfView ==> r.0.None?
      ensures playerMover == null ==> r.1.None?
    {
      (if inFieldOfView then SeenIncrement(distance, seenRoll, dt) else None,
       if playerMover != null then HeardIncrement(distance, playerMover.noiseLevel, heardRoll, dt) else None)
    }

    method OnPlayerSeen(distance: real, roll: real, dt: real)
      requires target != null
      modifies this`isAlerted, this`isSuspicious, this`suspicionLevel, this`alertTimer,
               this`lastKnownPosition, this`events, TargetSet()`crimeRate
      ensures State() == AddOpt(old(State()), old(SeenIncrement(distance, roll, dt)), suspicionThreshold, true)
      ensures events == old(events) + AddOptEvents(old(State()), old(SeenIncrement(distance, roll, dt)), suspicionThreshold, true)
      ensures AlertsOpt(old(State()), old(SeenIncrement(distance, roll, dt)), suspicionThreshold) ==>
        lastKnownPosition == target && target.crimeRate == CrimeAfter(old(target.crimeRate), 50)
      ensures !AlertsOpt(old(State()), old(SeenIncrement(distance, roll, dt)), suspicionThreshold) ==>
        lastKnownPosition == old(lastKnownPosition) && target.crimeRate == old(target.crimeRate)
    {
      var inc := SeenIncrement(distance, roll, dt);
      if inc.Some? {
        AddSuspicion(inc.value);
      }
    }

    method OnPlayerHeard(distance: real, noiseLevel: real, roll: real, dt: real)
      requires target != null
      modifies this`isAlerted, this`isSuspicious, this`suspicionLevel, this`alertTimer,
               this`lastKnownPosition, this`events, TargetSet()`crimeRate
      ensures State() == AddOpt(old(State()), old(HeardIncrement(distance, noiseLevel, roll, dt)), suspicionThreshold, true)
      ensures events == old(events) + AddOptEvents(old(State()), old(HeardIncrement(distance, noiseLevel, roll, dt)), suspicionThreshold, true)
      ensures AlertsOpt(old(State()), old(HeardIncrement(distance, noiseLevel, roll, dt)), suspicionThreshold) ==>
        lastKnownPosition == target && target.crimeRate == CrimeAfter(old(target.crimeRate), 50)
      ensures !AlertsOpt(old(State()), old(HeardIncrement(distance, noiseLevel, roll, dt)), suspicionThreshold) ==>
        lastKnownPosition == old(lastKnownPosition) && target.crimeRate == old(target.crimeRate)
    {
      var inc := HeardIncrement(distance, noiseLevel, roll, dt);
      if inc.Some? {
        AddSuspicion(inc.value);
      }
    }

    /** CheckForPlayer: nothing without a target or beyond the detection
        range; otherwise sight (when in the field of view), then hearing
        (when the target has a mover, whatever the field of view). */
    method CheckForPlayer(distance: real, inFieldOfView: bool, seenRoll: real, heardRoll: real, dt: real)
      modifies this`isAlerted, this`isSuspicious, this`suspicionLevel, this`alertTimer,
               this`lastKnownPosition, this`events, TargetSet()`crimeRate
      ensures target == null || distance > detectionRange ==>
        State() == old(State()) && events == old(events) && lastKnownPosition == old(lastKnownPosition)
        && (target != null ==> target.crimeRate == old(target.crimeRate))
      ensures target != null && distance <= detectionRange ==>
        var (s, h) := old(Sighting(distance, inFieldOfView, seenRoll, heardRoll, dt));
        var a0 := old(State());
        var a1 := AddOpt(a0, s, suspicionThreshold, true);
        State() == AddOpt(a1, h, suspicionThreshold, true)
        && events == old(events) + AddOptEvents(a0, s, suspicionThreshold, true) + AddOptEvents(a1, h, suspicionThreshold, true)
        && target.crimeRate == (if AlertsOpt(a0, s, suspicionThreshold) || AlertsOpt(a1, h, suspicionThreshold)
                                then CrimeAfter(old(target.crimeRate), 50) else old(target.crimeRate))
        && lastKnownPosition == (if AlertsOpt(a0, s, suspicionThreshold) || AlertsOpt(a1, h, suspicionThreshold)
                                 then target else old(lastKnownPosition))
    {
      if target == null {
        return;
      }
      if distance <= detectionRange {
        ghost var h := if playerMover != null then HeardIncrement(distance, playerMover.noiseLevel, heardRoll, dt) else None;
        if inFieldOfView {
          OnPlayerSeen(distance, seenRoll, dt);
        }
        assert h == if playerMover != null then HeardIncrement(distance, playerMover.noiseLevel, heardRoll, dt) else None;
        if playerMover != null {
          OnPlayerHeard(distance, playerMover.noiseLevel, heardRoll, dt);
        }
      }
    }

    /** One frame: nothing without a target; otherwise the player check,
        then the alert timer, then decay. */
    method Update(distance: real, inFieldOfView: bool, seenRoll: real, heardRoll: real, dt: real)
      modifies this`isAlerted, this`isSuspicious, this`suspicionLevel, this`alertTimer,
               this`lastKnownPosition, this`events, TargetSet()`crimeRate
      ensures target == null ==>
        State() == old(State()) && events == old(events) && lastKnownPosition == old(lastKnownPosition)
      ensures target != null && distance > detectionRange ==>
        State() == Decay(TimerTick(old(State()), dt), suspicionDecaySpeed, dt)
        && events == old(events) + TimerEvents(old(State()), dt)
                     + DecayEvents(TimerTick(old(State()), dt), suspicionDecaySpeed, dt)
        && lastKnownPosition == old(lastKnownPosition) && target.crimeRate == old(target.crimeRate)
      ensures target != null && distance <= detectionRange ==>
        var (s, h) := old(Sighting(distance, inFieldOfView, seenRoll, heardRoll, dt));
        var a0 := old(State());
        var a1 := AddOpt(a0, s, suspicionThreshold, true);
        var a2 := AddOpt(a1, h, suspicionThreshold, true);
        var spotted := AlertsOpt(a0, s, suspicionThreshold) || AlertsOpt(a1, h, suspicionThreshold);
        State() == Decay(TimerTick(a2, dt), suspicionDecaySpeed, dt)
        && events == old(events) + AddOptEvents(a0, s, suspicionThreshold, true) + AddOptEvents(a1, h, suspicionThreshold, true)
                     + TimerEvents(a2, dt) + DecayEvents(TimerTick(a2, dt), suspicionDecaySpeed, dt)
        && lastKnownPosition == (if spotted then target else old(lastKnownPosition))
        && target.crimeRate == (if spotted then CrimeAfter(old(target.crimeRate), 50) else old(target.crimeRate))
    {
      if target == null {
        return;
      }
      CheckForPlayer(distance, inFieldOfView, seenRoll, heardRoll, dt);
      UpdateAlertTimer(dt);
      UpdateSuspicionDecay(dt);
    }

    /** Distract, which only the two guard variants define: the first
        forwards the point to its state machine, the second ignores it. */
    method Distract(point: Vec3)
      requires !kind.PlainEnemy?
      modifies this`machineRequests
      ensures machineRequests == old(machineRequests) +
        (if kind.BackupGuard? then EnemySecurityGuard.Distract(hasStateMachine, point) else GuardsSecurityGuard.Distract(point))
    {
      if kind.BackupGuard? {
        machineRequests := machineRequests + EnemySecurityGuard.Distract(hasStateMachine, point);
      }
    }

    /** SetTarget: the mover is looked up only for a non-null target. */
    method SetTarget(newTarget: Player?, targetMover: PlayerMover?)
      modifies this`target, this`playerMover
      ensures target == newTarget
      ensures playerMover == if newTarget != null then targetMover else old(playerMover)
    {
      target := newTarget;
      if target != null {
        playerMover := targetMover;
      }
    }

    /** ResetToStartPosition: calm state, a reset request to the state
        machine when there is one, and the three change events. */
    method ResetToStartPosition()
      modifies this`isAlerted, this`isSuspicious, this`suspicionLevel, this`alertTimer, this`events, this`machineRequests
      ensures State() == Calm
      ensures machineRequests == old(machineRequests) + (if hasStateMachine then [ResetToFirstState] else [])
      ensures events == old(events) + [AlertedChanged(false), SuspiciousChanged(false), SuspicionLevelChanged(0.0)]
    {
      isAlerted := false;
      isSuspicious := false;
      suspicionLevel := 0.0;
      alertTimer := 0.0;
      if hasStateMachine {
        machineRequests := machineRequests + [ResetToFirstState];
      }
      events := events + [AlertedChanged(false), SuspiciousChanged(false), SuspicionLevelChanged(0.0)];
    }

    method SetDetectionRange(newRange: real)
      modifies this`detectionRange
      ensures detectionRange == newRange
    {
      detectionRange := newRange;
    }

    method SetFieldOfView(newFieldOfView: real)
      modifies this`fieldOfView
      ensures fieldOfView == newFieldOfView
    {
      fieldOfView := newFieldOfView;
    }

    method SetHearingRange(newRange: real)
      modifies this`hearingRange
      ensures hearingRange == newRange
    {
      hearingRange := newRange;
    }

    method SetSuspicionThreshold(newThreshold: real)
      modifies this`suspicionThreshold
      ensures suspicionThreshold == newThreshold
    {
      suspicionThreshold := newThreshold;
    }

    method SetSuspicionGrowthSpeed(newSpeed: real)
      modifies this`suspicionGrowthSpeed
      ensures suspicionGrowthSpeed == newSpeed
    {
      suspicionGrowthSpeed := newSpeed;
    }

    method SetSuspicionDecaySpeed(newSpeed: real)
      modifies this`suspicionDecaySpeed
      ensures suspicionDecaySpeed == newSpeed
    {
      suspicionDecaySpeed := newSpeed;
    }
  }
}
