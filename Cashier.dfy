/** The cashier: an enemy with a wider, longer sight and a distraction timer
    during which her suspicion has been wiped. */
module Cashier {
  import opened Common
  import opened MachineRequests
  import opened Enemies

  /** The distraction part of the cashier's state. */
  datatype Distraction = Distraction(distracted: bool, timer: real)

  const NotDistracted := Distraction(false, 0.0)

  /** StartDistraction: the timer runs for duration × resistance. */
  function Start(duration: real, resistance: real): (r: Distraction)
    ensures r.distracted
    ensures duration > 0.0 && 0.0 < resistance <= 1.0 ==> 0.0 < r.timer <= duration
  {
    assert resistance <= 1.0 && duration > 0.0 ==> duration * resistance <= duration * 1.0;
    Distraction(true, duration * resistance)
  }

  /** UpdateDistraction: while distracted the timer counts down, and the
      distraction ends (timer zeroed) once it is at or below zero. */
  function Tick(d: Distraction, dt: real): (r: Distraction)
    ensures !d.distracted ==> r == d
    ensures d.distracted ==> (r.distracted <==> d.timer - dt > 0.0)
    ensures !r.distracted ==> (r.timer == 0.0 || r == d)
  {
    if !d.distracted then d
    else if d.timer - dt <= 0.0 then NotDistracted
    else d.(timer := d.timer - dt)
  }

  /** n frames of length dt. */
  function Ticks(d: Distraction, dt: real, n: nat): Distraction
  {
    if n == 0 then d else Tick(Ticks(d, dt, n - 1), dt)
  }

  /** With a constant positive frame length, a distraction with timer t is
      still running after n frames exactly when t − n·dt > 0, and then its
      timer reads t − n·dt; once over it stays over. */
  lemma {:induction false} DistractionLasts(d: Distraction, dt: real, n: nat)
    requires d.distracted && d.timer > 0.0 && dt > 0.0
    ensures Ticks(d, dt, n).distracted <==> d.timer - (n as real) * dt > 0.0
    ensures Ticks(d, dt, n).distracted ==> Ticks(d, dt, n).timer == d.timer - (n as real) * dt
    ensures !Ticks(d, dt, n).distracted ==> Ticks(d, dt, n) == NotDistracted
  {
    if n > 0 {
      DistractionLasts(d, dt, n - 1);
      var prev := Ticks(d, dt, n - 1);
      assert (n as real) * dt == ((n - 1) as real) * dt + dt;
      if !prev.distracted {
        assert d.timer - ((n - 1) as real) * dt <= 0.0;
      }
    }
  }

  /** With the shipped settings the distraction lasts 2.4 seconds: at 0.1 s
      frames it is still running after 23 frames and over after 24. */
  lemma DefaultDistractionLength()
    ensures Start(3.0, 0.8).timer == 2.4
    ensures Ticks(Start(3.0, 0.8), 0.1, 23).distracted
    ensures !Ticks(Start(3.0, 0.8), 0.1, 24).distracted
  {
    DistractionLasts(Start(3.0, 0.8), 0.1, 23);
    DistractionLasts(Start(3.0, 0.8), 0.1, 24);
  }

  /** The 1.0 reduction a distraction applies wipes any score in [0,1] and
      the suspicious flag, but leaves an alert (and its timer) in place. */
  lemma DistractionClearsSuspicion(a: Alertness)
    requires InRange(a)
    ensures Reduce(a, 1.0).level == 0.0 && !Reduce(a, 1.0).suspicious
    ensures Reduce(a, 1.0).alerted == a.alerted && Reduce(a, 1.0).timer == a.timer
  {
  }

  class CashierGalya {
    var xrayVisionRange: real
    var xrayDetectionMultiplier: real
    var canSeeThroughWalls: bool
    var distractionResistance: real
    var isDistracted: bool
    var distractionDuration: real
    var distractionTimer: real
    var enemy: Enemy?
    /** Whether the object carries a state machine component. */
    var hasStateMachine: bool
    /** Calls made on the state machine component. */
    var machineRequests: seq<MachineRequest>

    function DistractionState(): Distraction
      reads this
    {
      Distraction(isDistracted, distractionTimer)
    }

    /** Awake: the shipped settings, then SetupValentinaParameters, which
        widens the enemy's detection range to the X-ray range and its field
        of view to 120. */
    constructor (enemy: Enemy?, hasStateMachine: bool)
      modifies enemy
      ensures this.enemy == enemy && this.hasStateMachine == hasStateMachine
      ensures xrayVisionRange == 12.0 && xrayDetectionMultiplier == 1.2 && !canSeeThroughWalls
      ensures distractionResistance == 0.8 && distractionDuration == 3.0
      ensures DistractionState() == NotDistracted && machineRequests == []
      ensures enemy != null ==> enemy.detectionRange == 12.0 && enemy.fieldOfView == 120.0
      ensures enemy != null ==> enemy.State() == old(enemy.State()) && enemy.events == old(enemy.events)
    {
      xrayVisionRange := 12.0;
      xrayDetectionMultiplier := 1.2;
      canSeeThroughWalls := false;
      distractionResistance := 0.8;
      isDistracted := false;
      distractionDuration := 3.0;
      distractionTimer := 0.0;
      this.enemy := enemy;
      this.hasStateMachine := hasStateMachine;
      machineRequests := [];
      new;
      if enemy != null {
        enemy.SetDetectionRange(xrayVisionRange);
        enemy.SetFieldOfView(120.0);
      }
    }

    /** Update, which only runs UpdateDistraction. */
    method UpdateDistraction(dt: real)
      modifies this`isDistracted, this`distractionTimer
      ensures DistractionState() == Tick(old(DistractionState()), dt)
    {
      if isDistracted {
        distractionTimer := distractionTimer - dt;
        if distractionTimer <= 0.0 {
          EndDistraction();
        }
      }
    }

    /** Distract: ignored while distracted; otherwise a patrol-destination
        request to the state machine (when there is one), then the
        distraction starts. */
    method Distract(point: Vec3)
      modifies this`isDistracted, this`distractionTimer, this`machineRequests, enemy
      ensures old(isDistracted) ==>
        DistractionState() == old(DistractionState()) && machineRequests == old(machineRequests)
        && (enemy != null ==> enemy.State() == old(enemy.State()) && enemy.events == old(enemy.events))
      ensures !old(isDistracted) ==>
        DistractionState() == Start(distractionDuration, distractionResistance)
        && machineRequests == old(machineRequests) + (if hasStateMachine then [SetPatrolDestination(point)] else [])
        && (enemy != null ==> enemy.State() == Reduce(old(enemy.State()), 1.0)
                               && enemy.events == old(enemy.events) + ReduceEvents(old(enemy.State()), 1.0))
    {
      if isDistracted {
        return;
      }
      if hasStateMachine {
        machineRequests := machineRequests + [SetPatrolDestination(point)];
      }
      StartDistraction();
    }

    /** StartDistraction: timer = duration × resistance, and the enemy's
        suspicion is reduced by 1. */
    method StartDistraction()
      modifies this`isDistracted, this`distractionTimer, enemy
      ensures DistractionState() == Start(distractionDuration, distractionResistance)
      ensures enemy != null ==> enemy.State() == Reduce(old(enemy.State()), 1.0)
                                && enemy.events == old(enemy.events) + ReduceEvents(old(enemy.State()), 1.0)
    {
      isDistracted := true;
      distractionTimer := distractionDuration * distractionResistance;
      if enemy != null {
        enemy.ReduceSuspicion(1.0);
      }
    }

    method EndDistraction()
      modifies this`isDistracted, this`distractionTimer
      ensures DistractionState() == NotDistracted
    {
      isDistracted := false;
      distractionTimer := 0.0;
    }

    /** The two obsolete entry points (money, sale): they differ only in the
        logged message; they start a distraction without a destination. */
    method DistractInPlace()
      modifies this`isDistracted, this`distractionTimer, enemy
      ensures old(isDistracted) ==>
        DistractionState() == old(DistractionState())
        && (enemy != null ==> enemy.State() == old(enemy.State()) && enemy.events == old(enemy.events))
      ensures !old(isDistracted) ==>
        DistractionState() == Start(distractionDuration, distractionResistance)
        && (enemy != null ==> enemy.State() == Reduce(old(enemy.State()), 1.0)
                               && enemy.events == old(enemy.events) + ReduceEvents(old(enemy.State()), 1.0))
    {
      if !isDistracted {
        StartDistraction();
      }
    }
  }
}
