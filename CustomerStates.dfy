/** The customer's behaviour states: Patrol (a cyclic walk with a wait at
    each point), Flee, Promo and Report. Navigation is usable when the agent
    exists, is active and is on the navigation mesh; that readiness and the
    agent's path state are inputs. Requests back to the customer (CalmDown,
    LoseInterestInPromo) are returned as booleans. */
module CustomerStates {
  import opened Common
  import opened Navigation
  import opened Enemies
  import opened Guards

  // ------------------------------------------------------------ patrol

  /** The patrol state's own memory: the point index and the wait timer. */
  datatype Walk = Walk(index: nat, waitTimer: real)

  /** The arrival test of the customer patrol: it also needs a path. */
  predicate Reached(pathPending: bool, hasPath: bool, remainingDistance: real)
  {
    !pathPending && hasPath && remainingDistance < 0.5
  }

  /** One patrol Update on the memory: nothing without points or usable
      navigation; while waiting the timer runs and, when it runs out, the
      index advances; otherwise an arrival starts a wait of `waitTime`. */
  function WalkStep(w: Walk, n: nat, ready: bool, reached: bool, waitTime: real, dt: real): (r: Walk)
    ensures n == 0 || !ready ==> r == w
    ensures w.waitTimer <= 0.0 ==> r.index == w.index
    ensures n > 0 && ready && w.waitTimer > 0.0 && w.waitTimer - dt <= 0.0 ==> r.index == (w.index + 1) % n
  {
    if n == 0 || !ready then w
    else if w.waitTimer > 0.0 then
      var t := w.waitTimer - dt;
      if t <= 0.0 then Walk((w.index + 1) % n, t) else w.(waitTimer := t)
    else if reached then w.(waitTimer := waitTime)
    else w
  }

  /** Where the agent heads for the point at index `i`: there when the
      point exists, otherwise where it was already heading. */
  function Heading(points: seq<Option<Vec3>>, i: nat, current: Option<Vec3>): (r: Option<Vec3>)
    requires i < |points|
    ensures points[i].None? ==> r == current
    ensures points[i].Some? ==> r == Some(points[i].value)
  {
    if points[i].Some? then Some(points[i].value) else current
  }

  /** The agent's motion after the patrol Update whose memory step is
      WalkStep: it stops on arrival, and resumes towards the new point
      when the wait runs out. */
  function WalkMotion(m: Motion, w: Walk, points: seq<Option<Vec3>>, ready: bool, reached: bool, dt: real): Motion
  {
    if |points| == 0 || !ready then m
    else if w.waitTimer > 0.0 then
      if w.waitTimer - dt <= 0.0 then
        m.(stopped := false, destination := Heading(points, (w.index + 1) % |points|, m.destination))
      else m
    else if reached then m.(stopped := true)
    else m
  }

  /** When a wait starts and ends: a wait starts only on an arrival with a
      positive wait time and usable navigation, and a running wait ends on
      the tick its timer runs out. */
  lemma WaitingRules(w: Walk, n: nat, ready: bool, reached: bool, waitTime: real, dt: real)
    ensures w.waitTimer <= 0.0 && WalkStep(w, n, ready, reached, waitTime, dt).waitTimer > 0.0 ==>
      n > 0 && ready && reached && waitTime > 0.0
    ensures n > 0 && ready && w.waitTimer > 0.0 ==>
      (WalkStep(w, n, ready, reached, waitTime, dt).waitTimer > 0.0 <==> w.waitTimer - dt > 0.0)
  {
  }

  /** With a positive wait time, a patrol tick keeps the agent standing
      still exactly while the customer waits (IsWaiting). */
  lemma StillExactlyWhileWaiting(m: Motion, w: Walk, points: seq<Option<Vec3>>, ready: bool, reached: bool,
                                 waitTime: real, dt: real)
    requires waitTime > 0.0 && |points| > 0 && ready
    requires m.stopped <==> w.waitTimer > 0.0
    ensures WalkMotion(m, w, points, ready, reached, dt).stopped <==>
      WalkStep(w, |points|, ready, reached, waitTime, dt).waitTimer > 0.0
  {
  }

  /** The inputs of one patrol tick. */
  datatype WalkInput = WalkInput(ready: bool, reached: bool, dt: real)

  function WalkRun(w: Walk, n: nat, waitTime: real, inputs: seq<WalkInput>): Walk
    decreases |inputs|
  {
    if inputs == [] then w
    else WalkRun(WalkStep(w, n, inputs[0].ready, inputs[0].reached, waitTime, inputs[0].dt), n, waitTime, inputs[1..])
  }

  /** With a wait time of zero or less an arrival never starts a wait, so
      from a state that is not waiting the index never moves, however many
      ticks run. */
  lemma {:induction false} NoWaitNoProgress(w: Walk, n: nat, waitTime: real, inputs: seq<WalkInput>)
    requires waitTime <= 0.0 && w.waitTimer <= 0.0
    ensures WalkRun(w, n, waitTime, inputs).index == w.index
    ensures WalkRun(w, n, waitTime, inputs).waitTimer <= 0.0
    decreases |inputs|
  {
    if inputs != [] {
      var next := WalkStep(w, n, inputs[0].ready, inputs[0].reached, waitTime, inputs[0].dt);
      assert next.index == w.index && next.waitTimer <= 0.0;
      NoWaitNoProgress(next, n, waitTime, inputs[1..]);
    }
  }

  class CustomerPatrolState {
    var index: nat
    var waitTimer: real

    constructor ()
      ensures index == 0 && waitTimer == 0.0
    {
      index := 0;
      waitTimer := 0.0;
    }

    function Memory(): Walk
      reads this
    {
      Walk(index, waitTimer)
    }

    /** IsWaiting. */
    predicate IsWaiting()
      reads this
    {
      waitTimer > 0.0
    }

    /** Enter: with points and usable navigation the agent resumes at patrol
        speed and heads for the next point; otherwise nothing. */
    method Enter(agent: NavAgent?, ready: bool, patrolSpeed: real, points: seq<Option<Vec3>>)
      modifies this`index, agent
      ensures waitTimer == old(waitTimer)
      ensures |points| == 0 || agent == null || !ready ==>
        index == old(index)
        && (agent != null ==>
              agent.isStopped == old(agent.isStopped) && agent.speed == old(agent.speed)
              && agent.destination == old(agent.destination))
      ensures |points| > 0 && agent != null && ready ==>
        !agent.isStopped && agent.speed == patrolSpeed && index == (old(index) + 1) % |points|
        && agent.destination == (if points[index].Some? then Some(points[index].value) else old(agent.destination))
    {
      if |points| == 0 {
        return;
      }
      if agent != null && ready {
        agent.isStopped := false;
        agent.speed := patrolSpeed;
        GoToNextPoint(agent, ready, points);
      }
    }

    /** Update, as WalkStep; the agent stops on arrival and resumes when the
        wait runs out, heading for the new point (a missing point is skipped
        but still counted). */
    method Update(agent: NavAgent?, ready: bool, points: seq<Option<Vec3>>, pathPending: bool, hasPath: bool,
                  remainingDistance: real, waitTime: real, dt: real)
      modifies this, agent
      ensures Memory() == WalkStep(old(Memory()), |points|, agent != null && ready,
                                   Reached(pathPending, hasPath, remainingDistance), waitTime, dt)
      ensures agent != null ==>
        agent.State() == WalkMotion(old(agent.State()), old(Memory()), points, ready,
                                    Reached(pathPending, hasPath, remainingDistance), dt)
    {
      if |points| == 0 {
        return;
      }
      if agent == null || !ready {
        return;
      }
      if IsWaiting() {
        waitTimer := waitTimer - dt;
        if waitTimer <= 0.0 {
          agent.isStopped := false;
          GoToNextPoint(agent, ready, points);
        }
        return;
      }
      if Reached(pathPending, hasPath, remainingDistance) {
        agent.isStopped := true;
        waitTimer := waitTime;
      }
    }

    method Exit()
    {
    }

    /** Advances the index first, then heads for that point if it exists. */
    method GoToNextPoint(agent: NavAgent?, ready: bool, points: seq<Option<Vec3>>)
      requires |points| > 0
      modifies this`index, agent
      ensures agent != null ==> agent.isStopped == old(agent.isStopped) && agent.speed == old(agent.speed)
      ensures agent == null || !ready ==>
        index == old(index) && (agent != null ==> agent.destination == old(agent.destination))
      ensures agent != null && ready ==>
        index == (old(index) + 1) % |points|
        && agent.destination == (if points[index].Some? then Some(points[index].value) else old(agent.destination))
    {
      if agent == null || !ready {
        return;
      }
      index := (index + 1) % |points|;
      var destination := points[index];
      if destination.Some? {
        agent.destination := Some(destination.value);
      }
    }
  }

  // ------------------------------------------------------------ flee

  const FleeDuration := 10.0
  const FleeDistance := 15.0

  /** The point 15 units from the customer along the flee direction (the
      normalised vector away from the theft). */
  function FleePoint(position: Vec3, direction: Vec3): (r: Vec3)
    ensures direction == Vec3(0.0, 0.0, 0.0) ==> r == position
  {
    Vec3(position.x + direction.x * FleeDistance,
         position.y + direction.y * FleeDistance,
         position.z + direction.z * FleeDistance)
  }

  class CustomerFleeState {
    var fleeTimer: real

    constructor ()
      ensures fleeTimer == 0.0
    {
      fleeTimer := 0.0;
    }

    /** Enter: a 10-second timer, set whether or not navigation is usable;
        with usable navigation the agent runs at flee speed towards the mesh
        point `sample` finds near the flee point, if it finds one. */
    method Enter(agent: NavAgent?, ready: bool, fleeSpeed: real, position: Vec3, direction: Vec3,
                 sample: Vec3 -> Option<Vec3>)
      modifies this, agent
      ensures fleeTimer == FleeDuration
      ensures agent != null && !ready ==>
        agent.isStopped == old(agent.isStopped) && agent.speed == old(agent.speed)
        && agent.destination == old(agent.destination)
      ensures agent != null && ready ==>
        !agent.isStopped && agent.speed == fleeSpeed
        && agent.destination == (if sample(FleePoint(position, direction)).Some?
                                 then sample(FleePoint(position, direction)) else old(agent.destination))
    {
      fleeTimer := FleeDuration;
      if agent != null && ready {
        agent.isStopped := false;
        agent.speed := fleeSpeed;
        var hit := sample(FleePoint(position, direction));
        if hit.Some? {
          agent.destination := hit;
        }
      }
    }

    /** Update: the timer runs; once it is out, every tick asks to calm down. */
    method Update(dt: real) returns (calmDown: bool)
      modifies this
      ensures fleeTimer == old(fleeTimer) - dt
      ensures calmDown <==> fleeTimer <= 0.0
    {
      fleeTimer := fleeTimer - dt;
      calmDown := fleeTimer <= 0.0;
    }

    method Exit()
    {
    }
  }

  // ------------------------------------------------------------ promo

  const PromoInterest := 15.0

  class CustomerPromoState {
    var interestTimer: real

    constructor ()
      ensures interestTimer == 0.0
    {
      interestTimer := 0.0;
    }

    /** Enter: a 15-second timer, set even when navigation is unusable; with
        usable navigation the agent runs at promo speed to the promo spot. */
    method Enter(agent: NavAgent?, ready: bool, promoSpeed: real, promoTarget: Vec3)
      modifies this, agent
      ensures interestTimer == PromoInterest
      ensures agent != null && !ready ==>
        agent.isStopped == old(agent.isStopped) && agent.speed == old(agent.speed)
        && agent.destination == old(agent.destination)
      ensures agent != null && ready ==>
        !agent.isStopped && agent.speed == promoSpeed && agent.destination == Some(promoTarget)
    {
      interestTimer := PromoInterest;
      if agent != null && ready {
        agent.isStopped := false;
        agent.speed := promoSpeed;
        agent.destination := Some(promoTarget);
      }
    }

    /** Update: the timer runs; once it is out, every tick asks to lose
        interest. */
    method Update(dt: real) returns (loseInterest: bool)
      modifies this
      ensures interestTimer == old(interestTimer) - dt
      ensures loseInterest <==> interestTimer <= 0.0
    {
      interestTimer := interestTimer - dt;
      loseInterest := interestTimer <= 0.0;
    }

    method Exit()
    {
    }
  }

  // ------------------------------------------------------------ report

  const ReportDuration := 15.0
  /** A report is made strictly within this distance of the guard. */
  const ReportReach := 2.0

  /** FindNearestGuard over the guards' distances: none without guards,
      otherwise the first guard at the smallest distance. */
  method FindNearestGuard(dists: seq<real>) returns (k: Option<nat>)
    ensures k.None? <==> dists == []
    ensures k.Some? ==> IsFirstNearest(dists, k.value)
  {
    if |dists| == 0 {
      return None;
    }
    var best := 0;
    var i := 1;
    while i < |dists|
      invariant 1 <= i <= |dists|
      invariant 0 <= best < i
      invariant forall j :: 0 <= j < i ==> dists[best] <= dists[j]
      invariant forall j :: 0 <= j < best ==> dists[j] > dists[best]
    {
      if dists[i] < dists[best] {
        best := i;
      }
      i := i + 1;
    }
    return Some(best);
  }

  class CustomerReportState {
    var targetGuard: Enemy?
    var reportTimer: real

    constructor ()
      ensures targetGuard == null && reportTimer == 0.0
    {
      targetGuard := null;
      reportTimer := 0.0;
    }

    /** Enter: a 15-second timer and the nearest guard as target; only with
        a target and usable navigation does the agent run to it. */
    method Enter(agent: NavAgent?, ready: bool, fleeSpeed: real, guards: seq<Enemy>, guardPositions: seq<Vec3>,
                 guardDists: seq<real>)
      requires |guardPositions| == |guards| == |guardDists|
      modifies this, agent
      ensures reportTimer == ReportDuration
      ensures guards == [] <==> targetGuard == null
      ensures guards != [] ==> exists k: nat :: IsFirstNearest(guardDists, k) && targetGuard == guards[k]
                                               && (agent != null && ready ==> agent.destination == Some(guardPositions[k]))
      ensures agent != null && (guards == [] || !ready) ==>
        agent.isStopped == old(agent.isStopped) && agent.speed == old(agent.speed)
        && agent.destination == old(agent.destination)
      ensures agent != null && guards != [] && ready ==> !agent.isStopped && agent.speed == fleeSpeed
    {
      reportTimer := ReportDuration;
      var k := FindNearestGuard(guardDists);
      if k.None? {
        targetGuard := null;
        return;
      }
      targetGuard := guards[k.value];
      if agent != null && ready {
        agent.isStopped := false;
        agent.speed := fleeSpeed;
        agent.destination := Some(guardPositions[k.value]);
      }
    }

    /** Update: the timer runs; when it is out the customer calms down and
        nothing else happens that tick. Otherwise, with a target and an
        active agent, being strictly within 2 of the guard makes the report
        (which also calms the customer down). `logic` is the target guard's
        controller, if it has one. */
    method Update(dt: real, agentActive: bool, guardDistance: real, logic: GuardLogic?, theftLocation: Vec3)
      returns (calmDown: bool)
      requires targetGuard != null ==> !targetGuard.kind.PlainEnemy?
      modifies this`reportTimer, targetGuard, logic
      ensures reportTimer == old(reportTimer) - dt
      ensures reportTimer <= 0.0 ==> calmDown
      ensures reportTimer > 0.0 ==>
        (calmDown <==> targetGuard != null && agentActive && guardDistance < ReportReach)
      ensures !calmDown || reportTimer <= 0.0 ==>
        (targetGuard != null ==> targetGuard.machineRequests == old(targetGuard.machineRequests))
        && (logic != null ==> logic.suspicionLevel == old(logic.suspicionLevel))
      ensures calmDown && reportTimer > 0.0 ==>
        targetGuard.machineRequests == old(targetGuard.machineRequests) +
          (if targetGuard.kind.BackupGuard? then EnemySecurityGuard.Distract(targetGuard.hasStateMachine, theftLocation)
           else GuardsSecurityGuard.Distract(theftLocation))
        && (logic != null ==> logic.suspicionLevel == Clamp(old(logic.suspicionLevel) + 50.0, 0.0, 100.0)
                              && logic.lastKnownPosition == theftLocation)
    {
      reportTimer := reportTimer - dt;
      if reportTimer <= 0.0 {
        return true;
      }
      calmDown := false;
      if targetGuard != null && agentActive && guardDistance < ReportReach {
        calmDown := ReportToGuard(logic, theftLocation);
      }
    }

    /** Exit forgets the target. */
    method Exit()
      modifies this`targetGuard
      ensures targetGuard == null
    {
      targetGuard := null;
    }

    /** ReportToGuard: distracts the guard at the theft location, adds 50 to
        its controller's score when it has one, then asks to calm down;
        without a guard it does nothing. */
    method ReportToGuard(logic: GuardLogic?, theftLocation: Vec3) returns (calmDown: bool)
      requires targetGuard != null ==> !targetGuard.kind.PlainEnemy?
      modifies targetGuard, logic
      ensures calmDown <==> targetGuard != null
      ensures targetGuard == null ==> logic != null ==>
        logic.suspicionLevel == old(logic.suspicionLevel) && logic.lastKnownPosition == old(logic.lastKnownPosition)
      ensures targetGuard != null ==>
        targetGuard.machineRequests == old(targetGuard.machineRequests) +
          (if targetGuard.kind.BackupGuard? then EnemySecurityGuard.Distract(targetGuard.hasStateMachine, theftLocation)
           else GuardsSecurityGuard.Distract(theftLocation))
        && (logic != null ==> logic.suspicionLevel == Clamp(old(logic.suspicionLevel) + 50.0, 0.0, 100.0)
                              && logic.lastKnownPosition == theftLocation)
    {
      if targetGuard == null {
        return false;
      }
      targetGuard.Distract(theftLocation);
      if logic != null {
        logic.AddSuspicion(50.0, theftLocation);
      }
      return true;
    }
  }
}
