/** The security guard's behaviour states: Idle, Patrol, Investigate and
    Chase. Each acts on the guard's navigation agent; the values it reads
    from its owner (speeds, patrol points, last known position, the player)
    and the path state of the agent are passed in. */
module GuardStates {
  import opened Common
  import opened Navigation
  import opened Enemies

  /** Arrival test used by Patrol and Investigate. */
  predicate Arrived(pathPending: bool, remainingDistance: real)
  {
    !pathPending && remainingDistance < 0.5
  }

  // ------------------------------------------------------------ patrol

  /** The patrol-point index a patrol round with n points visits after k
      steps from index i. */
  function PatrolIndex(i: nat, k: nat, n: nat): (r: nat)
    requires n > 0
    ensures r < n
  {
    (i + k) % n
  }

  /** From any starting index, the next n destinations visit every point. */
  lemma PatrolVisitsEveryPoint(i: nat, n: nat, p: nat)
    requires 0 < n && i < n && p < n
    ensures exists k :: 0 <= k < n && PatrolIndex(i, k, n) == p
  {
    if p >= i {
      ModBelow(p, n);
      assert PatrolIndex(i, p - i, n) == p;
    } else {
      ModWrap(p, n);
      assert PatrolIndex(i, p + n - i, n) == p;
    }
  }

  lemma ModBelow(x: nat, n: nat)
    requires x < n
    ensures x % n == x
  {
  }

  lemma ModWrap(x: nat, n: nat)
    requires x < n
    ensures (x + n) % n == x
  {
    var q, r := (x + n) / n, (x + n) % n;
    assert x + n == q * n + r && 0 <= r < n;
    QuotientOne(q, n, x + n - r);
  }

  lemma QuotientOne(q: int, n: int, m: int)
    requires 0 < n && m == q * n && 0 < m < 2 * n
    ensures q == 1
  {
  }

  class PatrolState {
    /** The index of the next patrol point to head for. */
    var index: int

    constructor ()
      ensures index == 0
    {
      index := 0;
    }

    /** Enter: the agent moves at patrol speed towards the nearest patrol
        point (the first on ties); the index then points past it. */
    method Enter(agent: NavAgent, patrolSpeed: real, points: seq<Vec3>, dists: seq<real>)
      requires |dists| == |points|
      requires |points| > 0 ==> 0 <= index < |points|
      modifies this, agent
      ensures !agent.isStopped && agent.speed == patrolSpeed
      ensures |points| == 0 ==> index == old(index) && agent.destination == old(agent.destination)
      ensures |points| > 0 ==>
        agent.destination == Some(points[FirstNearest(dists)]) && index == (FirstNearest(dists) + 1) % |points|
    {
      agent.isStopped := false;
      agent.speed := patrolSpeed;
      var i := 0;
      var closest := 0.0;
      while i < |dists|
        invariant 0 <= i <= |dists|
        invariant i > 0 ==> 0 <= index < i && closest == dists[index]
        invariant i > 0 ==> forall j :: 0 <= j < i ==> closest <= dists[j]
        invariant i > 0 ==> forall j :: 0 <= j < index ==> dists[j] > closest
        invariant i == 0 ==> index == old(index)
        invariant !agent.isStopped && agent.speed == patrolSpeed
        invariant agent.destination == old(agent.destination)
      {
        if i == 0 || dists[i] < closest {
          closest := dists[i];
          index := i;
        }
        i := i + 1;
      }
      ghost var k := index;
      SetNextDestination(agent, points);
      if |points| > 0 {
        FirstNearestUnique(dists, k);
      }
    }

    /** Per tick: the next point is requested once the agent has arrived. */
    method Update(agent: NavAgent, points: seq<Vec3>, pathPending: bool, remainingDistance: real)
      requires |points| > 0 ==> 0 <= index < |points|
      modifies this, agent
      ensures |points| > 0 ==> 0 <= index < |points|
      ensures agent.isStopped == old(agent.isStopped) && agent.speed == old(agent.speed)
      ensures !Arrived(pathPending, remainingDistance) || |points| == 0 ==>
        index == old(index) && agent.destination == old(agent.destination)
      ensures Arrived(pathPending, remainingDistance) && |points| > 0 ==>
        agent.destination == Some(points[old(index)]) && index == PatrolIndex(old(index), 1, |points|)
    {
      if Arrived(pathPending, remainingDistance) {
        SetNextDestination(agent, points);
      }
    }

    method Exit()
    {
    }

    /** Heads for the current point and advances the index cyclically;
        nothing happens without patrol points. */
    method SetNextDestination(agent: NavAgent, points: seq<Vec3>)
      requires |points| > 0 ==> 0 <= index < |points|
      modifies this`index, agent`destination
      ensures |points| == 0 ==> index == old(index) && agent.destination == old(agent.destination)
      ensures |points| > 0 ==>
        agent.destination == Some(points[old(index)]) && index == (old(index) + 1) % |points|
        && 0 <= index < |points|
    {
      if |points| == 0 {
        return;
      }
      agent.destination := Some(points[index]);
      index := (index + 1) % |points|;
    }
  }

  // ------------------------------------------------------------ investigate

  /** Seconds the guard waits at the investigated spot before calming. */
  const WaitTimeAtDestination := 4.0

  /** The wait timer after n arrived ticks of length dt. */
  function Dwell(timer: real, dt: real, n: nat): (r: real)
  {
    if n == 0 then timer else Dwell(timer, dt, n - 1) - dt
  }

  /** After n arrived ticks of length dt the timer reads 4 − n·dt, so the
      enemy's suspicion starts being reduced on the first tick with
      n·dt ≥ 4, and on every arrived tick after it. */
  lemma {:induction false} DwellCountsDown(dt: real, n: nat)
    ensures Dwell(WaitTimeAtDestination, dt, n) == WaitTimeAtDestination - (n as real) * dt
    ensures Dwell(WaitTimeAtDestination, dt, n) <= 0.0 <==> (n as real) * dt >= WaitTimeAtDestination
  {
    if n > 0 {
      DwellCountsDown(dt, n - 1);
      assert (n as real) * dt == ((n - 1) as real) * dt + dt;
    }
  }

  class InvestigateState {
    var waitTimer: real

    constructor ()
      ensures waitTimer == 0.0
    {
      waitTimer := 0.0;
    }

    /** Enter: moving at investigate speed towards the last known position,
        with a fresh 4-second wait. */
    method Enter(agent: NavAgent, investigateSpeed: real, lastKnownPosition: Vec3)
      modifies this, agent
      ensures !agent.isStopped && agent.speed == investigateSpeed
      ensures waitTimer == WaitTimeAtDestination
      ensures agent.destination == Some(lastKnownPosition)
    {
      agent.isStopped := false;
      agent.speed := investigateSpeed;
      waitTimer := WaitTimeAtDestination;
      agent.destination := Some(lastKnownPosition);
    }

    /** Per tick: only on arrival, the agent stops and the timer runs; once
        it has run out, each such tick reduces the enemy's own [0,1] score
        by 0.3. */
    method Update(agent: NavAgent, enemy: Enemy, pathPending: bool, remainingDistance: real, dt: real)
      modifies this, agent`isStopped, enemy`isSuspicious, enemy`suspicionLevel, enemy`events
      ensures !Arrived(pathPending, remainingDistance) ==>
        waitTimer == old(waitTimer) && agent.isStopped == old(agent.isStopped)
        && enemy.State() == old(enemy.State()) && enemy.events == old(enemy.events)
      ensures Arrived(pathPending, remainingDistance) ==>
        agent.isStopped && waitTimer == old(waitTimer) - dt
        && enemy.State() == (if waitTimer <= 0.0 then Reduce(old(enemy.State()), 0.3) else old(enemy.State()))
        && enemy.events == old(enemy.events) + (if waitTimer <= 0.0 then ReduceEvents(old(enemy.State()), 0.3) else [])
    {
      if Arrived(pathPending, remainingDistance) {
        agent.isStopped := true;
        waitTimer := waitTimer - dt;
        if waitTimer <= 0.0 {
          enemy.ReduceSuspicion(0.3);
        }
      }
    }

    /** Exit: the agent is released only when it exists and is on the mesh. */
    method Exit(agent: NavAgent?, onNavMesh: bool)
      modifies agent
      ensures agent != null ==>
        agent.isStopped == (if onNavMesh then false else old(agent.isStopped))
        && agent.speed == old(agent.speed) && agent.destination == old(agent.destination)
    {
      if agent != null && onNavMesh {
        agent.isStopped := false;
      }
    }
  }

  // ------------------------------------------------------------ chase

  class ChaseState {
    constructor ()
    {
    }

    method Enter(agent: NavAgent, chaseSpeed: real)
      modifies agent
      ensures !agent.isStopped && agent.speed == chaseSpeed
      ensures agent.destination == old(agent.destination)
    {
      agent.isStopped := false;
      agent.speed := chaseSpeed;
    }

    /** Per tick: nothing without a player; otherwise the destination is the
        player's current position, and the player is caught (the agent
        stops and the player object is destroyed) only when strictly closer
        than the catch distance. */
    method Update(agent: NavAgent, player: Option<Vec3>, distance: real, catchDistance: real) returns (caught: bool)
      modifies agent
      ensures caught <==> player.Some? && distance < catchDistance
      ensures player.None? ==>
        agent.destination == old(agent.destination) && agent.isStopped == old(agent.isStopped)
      ensures player.Some? ==>
        agent.destination == Some(player.value)
        && agent.isStopped == (if caught then true else old(agent.isStopped))
      ensures agent.speed == old(agent.speed)
    {
      caught := false;
      if player.None? {
        return;
      }
      agent.destination := Some(player.value);
      if distance < catchDistance {
        agent.isStopped := true;
        caught := true;
      }
    }

    method Exit()
    {
    }
  }

  // ------------------------------------------------------------ idle

  class IdleState {
    constructor ()
    {
    }

    method Enter(agent: NavAgent)
      modifies agent`isStopped
      ensures agent.isStopped
    {
      agent.isStopped := true;
    }

    method Update()
    {
    }

    method Exit()
    {
    }
  }
}
