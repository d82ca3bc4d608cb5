/** The guard controller: a [0,100] suspicion score fed by suspicion events
    within its sight radius, drained by 2 per second, and a state machine
    whose six transitions move the guard between Idle, Patrol, Investigate
    and Chase at the thresholds 15, 50 and 80. */
module Guards {
  import opened Common
  import opened Navigation
  import opened Fsm
  import opened SuspicionEvents
  import opened Enemies
  import opened GuardStates

  datatype GuardState = Idle | Patrol | Investigate | Chase

  /** A guard on the score: at or above `t`. */
  function AtLeast(t: real): (g: real -> bool)
    ensures forall l :: g(l) <==> l >= t
  {
    l => l >= t
  }

  /** A guard on the score: below `t`. */
  function Below(t: real): (g: real -> bool)
    ensures forall l :: g(l) <==> l < t
  {
    l => l < t
  }

  /** InitializeStateMachine's table, in registration order: three upward
      edges, then three downward edges. */
  function GuardTable(): seq<Transition<GuardState, real>>
  {
    [ Transition(Some(Idle), Patrol, AtLeast(15.0)),
      Transition(Some(Patrol), Investigate, AtLeast(50.0)),
      Transition(Some(Investigate), Chase, AtLeast(80.0)),
      Transition(Some(Chase), Investigate, Below(80.0)),
      Transition(Some(Investigate), Patrol, Below(50.0)),
      Transition(Some(Patrol), Idle, Below(15.0)) ]
  }

  /** The band a score belongs to. */
  function Band(l: real): GuardState
  {
    if l < 15.0 then Idle else if l < 50.0 then Patrol else if l < 80.0 then Investigate else Chase
  }

  function Rank(s: GuardState): int
  {
    match s
    case Idle => 0
    case Patrol => 1
    case Investigate => 2
    case Chase => 3
  }

  /** The state after one tick, written band by band: a step towards the
      score's band when the score lies beyond the current state's edge. */
  function NextBand(s: GuardState, l: real): (r: GuardState)
    ensures -1 <= Rank(r) - Rank(s) <= 1
  {
    match s
    case Idle => if l >= 15.0 then Patrol else Idle
    case Patrol => if l >= 50.0 then Investigate else if l < 15.0 then Idle else Patrol
    case Investigate => if l >= 80.0 then Chase else if l < 50.0 then Patrol else Investigate
    case Chase => if l < 80.0 then Investigate else Chase
  }

  /** The runtime's choice over the guard table is exactly NextBand. */
  lemma StepIsNextBand(s: GuardState, l: real)
    ensures StepState([], GuardTable(), Some(s), l) == Some(NextBand(s, l))
  {
    assert FirstEnabled([], true, Some(s), l, 0) == None;
    GuardConditions(l);
    match s
    case Idle => FirstFromIdle(l);
    case Patrol => FirstFromPatrol(l);
    case Investigate => FirstFromInvestigate(l);
    case Chase => FirstFromChase(l);
  }

  lemma GuardConditions(l: real)
    ensures var ts := GuardTable();
      ts[0].condition(l) == (l >= 15.0) && ts[1].condition(l) == (l >= 50.0)
      && ts[2].condition(l) == (l >= 80.0) && ts[3].condition(l) == (l < 80.0)
      && ts[4].condition(l) == (l < 50.0) && ts[5].condition(l) == (l < 15.0)
  {
  }

  lemma FirstFromIdle(l: real)
    requires GuardTable()[0].condition(l) == (l >= 15.0)
    ensures FirstEnabled(GuardTable(), false, Some(Idle), l, 0) == if l >= 15.0 then Some(0) else None
  {
  }

  lemma FirstFromPatrol(l: real)
    requires GuardTable()[1].condition(l) == (l >= 50.0) && GuardTable()[5].condition(l) == (l < 15.0)
    ensures FirstEnabled(GuardTable(), false, Some(Patrol), l, 0) ==
      if l >= 50.0 then Some(1) else if l < 15.0 then Some(5) else None
  {
  }

  lemma FirstFromInvestigate(l: real)
    requires GuardTable()[2].condition(l) == (l >= 80.0) && GuardTable()[4].condition(l) == (l < 50.0)
    ensures FirstEnabled(GuardTable(), false, Some(Investigate), l, 0) ==
      if l >= 80.0 then Some(2) else if l < 50.0 then Some(4) else None
  {
  }

  lemma FirstFromChase(l: real)
    requires GuardTable()[3].condition(l) == (l < 80.0)
    ensures FirstEnabled(GuardTable(), false, Some(Chase), l, 0) == if l < 80.0 then Some(3) else None
  {
  }

  /** A state stays put exactly when it is the score's band: entry and exit
      share each threshold, so there is no hysteresis gap. */
  lemma StaysExactlyInBand(s: GuardState, l: real)
    ensures NextBand(s, l) == s <==> s == Band(l)
  {
  }

  /** At a fixed score, three ticks from any state reach the score's band. */
  lemma SettlesWithinThreeTicks(s: GuardState, l: real)
    ensures NextBand(NextBand(NextBand(s, l), l), l) == Band(l)
  {
  }

  /** The per-frame inputs the guard and its states read: the frame length,
      the agent's path state, the distances from the guard to each patrol
      point, and the player's position and distance. */
  datatype GuardFrame = GuardFrame(
    dt: real,
    pathPending: bool,
    remainingDistance: real,
    onNavMesh: bool,
    pointDistances: seq<real>,
    playerPosition: Vec3,
    playerDistance: real)

  // ------------------------------------------------------ state hooks

  /** Everything the guard's state hooks write: the agent, the patrol index,
      the investigate timer, the Enemy component's score and events, and
      whether the player object still exists. */
  datatype GuardBody = GuardBody(motion: Motion, index: int, waitTimer: real,
                                 alert: Alertness, events: seq<EnemyEvent>, playerPresent: bool)

  /** What the hooks read from the guard: its speeds, the catch distance,
      the patrol points and the last known position. */
  datatype GuardSetup = GuardSetup(patrolSpeed: real, investigateSpeed: real, chaseSpeed: real,
                                   catchDistance: real, points: seq<Vec3>, lastKnownPosition: Vec3)

  /** The effect of one hook call on the guard. */
  function HookEffect(h: Hook<GuardState>, b: GuardBody, s: GuardSetup, f: GuardFrame): GuardBody
    requires |f.pointDistances| == |s.points|
  {
    match h
    case Exit(st) => ExitEffect(st, b, f)
    case StateChanged(_) => b
    case Enter(st) => EnterEffect(st, b, s, f)
    case Tick(st) => TickEffect(st, b, s, f)
  }

  /** Exit: only Investigate's releases the agent, when it is on the mesh. */
  function ExitEffect(st: GuardState, b: GuardBody, f: GuardFrame): GuardBody
  {
    if st == Investigate && f.onNavMesh then b.(motion := b.motion.(stopped := false)) else b
  }

  /** Enter: Idle stops the agent; the others set it moving at their speed,
      Patrol towards the nearest patrol point (the index then points past
      it), Investigate towards the last known position with a fresh wait. */
  function EnterEffect(st: GuardState, b: GuardBody, s: GuardSetup, f: GuardFrame): GuardBody
    requires |f.pointDistances| == |s.points|
  {
    var n := |s.points|;
    match st
    case Idle => b.(motion := b.motion.(stopped := true))
    case Patrol =>
      if n == 0 then b.(motion := Motion(false, s.patrolSpeed, b.motion.destination))
      else
        var k := FirstNearest(f.pointDistances);
        b.(motion := Motion(false, s.patrolSpeed, Some(s.points[k])), index := (k + 1) % n)
    case Investigate =>
      b.(motion := Motion(false, s.investigateSpeed, Some(s.lastKnownPosition)), waitTimer := WaitTimeAtDestination)
    case Chase => b.(motion := Motion(false, s.chaseSpeed, b.motion.destination))
  }

  /** Tick: Patrol heads for the next point on arrival; Investigate stops on
      arrival and runs its wait down, reducing the Enemy's score by 0.3 once
      it is out; Chase follows a present player and catches one strictly
      within the catch distance; Idle does nothing. */
  function TickEffect(st: GuardState, b: GuardBody, s: GuardSetup, f: GuardFrame): GuardBody
  {
    var m := b.motion;
    var n := |s.points|;
    match st
    case Idle => b
    case Patrol =>
      if Arrived(f.pathPending, f.remainingDistance) && 0 <= b.index < n then
        b.(motion := m.(destination := Some(s.points[b.index])), index := PatrolIndex(b.index, 1, n))
      else b
    case Investigate =>
      if !Arrived(f.pathPending, f.remainingDistance) then b
      else
        var t := b.waitTimer - f.dt;
        if t <= 0.0 then
          b.(motion := m.(stopped := true), waitTimer := t,
             alert := Reduce(b.alert, 0.3), events := b.events + ReduceEvents(b.alert, 0.3))
        else b.(motion := m.(stopped := true), waitTimer := t)
    case Chase =>
      if !b.playerPresent then b
      else if f.playerDistance < s.catchDistance then
        b.(motion := m.(stopped := true, destination := Some(f.playerPosition)), playerPresent := false)
      else b.(motion := m.(destination := Some(f.playerPosition)))
  }

  /** The hook calls of a trace, run in order. */
  function RunHooks(hs: seq<Hook<GuardState>>, b: GuardBody, s: GuardSetup, f: GuardFrame): GuardBody
    requires |f.pointDistances| == |s.points|
    decreases |hs|
  {
    if hs == [] then b else HookEffect(hs[|hs| - 1], RunHooks(hs[..|hs| - 1], b, s, f), s, f)
  }

  /** The patrol index stays within the patrol points whatever hooks run. */
  lemma {:induction false} HooksKeepIndex(hs: seq<Hook<GuardState>>, b: GuardBody, s: GuardSetup, f: GuardFrame)
    requires |f.pointDistances| == |s.points|
    requires |s.points| > 0 ==> 0 <= b.index < |s.points|
    ensures |s.points| > 0 ==> 0 <= RunHooks(hs, b, s, f).index < |s.points|
    decreases |hs|
  {
    if hs != [] {
      HooksKeepIndex(hs[..|hs| - 1], b, s, f);
    }
  }

  /** The hooks act on the Enemy component only through Investigate's 0.3
      reduction: its score never rises and stays non-negative, and its
      alert latch and timer are never touched. */
  lemma {:induction false} HooksOnlyLowerEnemy(hs: seq<Hook<GuardState>>, b: GuardBody, s: GuardSetup, f: GuardFrame)
    requires |f.pointDistances| == |s.points|
    requires 0.0 <= b.alert.level
    ensures var r := RunHooks(hs, b, s, f);
      0.0 <= r.alert.level <= b.alert.level
      && r.alert.alerted == b.alert.alerted && r.alert.timer == b.alert.timer
    decreases |hs|
  {
    if hs != [] {
      HooksOnlyLowerEnemy(hs[..|hs| - 1], b, s, f);
    }
  }

  /** Only a Chase tick removes the player, and only strictly within the
      catch distance; a removed player never comes back. */
  lemma {:induction false} OnlyChaseCatches(hs: seq<Hook<GuardState>>, b: GuardBody, s: GuardSetup, f: GuardFrame)
    requires |f.pointDistances| == |s.points|
    ensures RunHooks(hs, b, s, f).playerPresent ==> b.playerPresent
    ensures Tick(Chase) !in hs || !(f.playerDistance < s.catchDistance) ==>
      RunHooks(hs, b, s, f).playerPresent == b.playerPresent
    decreases |hs|
  {
    if hs != [] {
      assert Tick(Chase) !in hs ==> Tick(Chase) !in hs[..|hs| - 1];
      OnlyChaseCatches(hs[..|hs| - 1], b, s, f);
    }
  }

  /** A band change followed by the new state's tick leaves the agent as the
      new state wants it: stopped in Idle; moving at patrol speed in Patrol;
      at investigate speed with a fresh wait (already run down by one frame
      on arrival) in Investigate; at chase speed, stopped only on a catch,
      in Chase. */
  lemma ChangeSetsMotion(from: GuardState, to: GuardState, b: GuardBody, s: GuardSetup, f: GuardFrame)
    requires |f.pointDistances| == |s.points|
    requires from != to
    ensures var r := RunHooks([Exit(from), StateChanged(to), Enter(to), Tick(to)], b, s, f);
      (to == Idle ==> r.motion.stopped)
      && (to == Patrol ==> !r.motion.stopped && r.motion.speed == s.patrolSpeed)
      && (to == Investigate ==>
            r.motion.speed == s.investigateSpeed
            && r.waitTimer == (if Arrived(f.pathPending, f.remainingDistance)
                               then WaitTimeAtDestination - f.dt else WaitTimeAtDestination))
      && (to == Chase ==>
            r.motion.speed == s.chaseSpeed
            && (r.motion.stopped <==> b.playerPresent && f.playerDistance < s.catchDistance))
  {
    var hs := [Exit(from), StateChanged(to), Enter(to), Tick(to)];
    var b1 := HookEffect(Exit(from), b, s, f);
    var b2 := HookEffect(StateChanged(to), b1, s, f);
    var b3 := HookEffect(Enter(to), b2, s, f);
    assert hs[..1][..0] == [] && hs[..2][..1] == hs[..1] && hs[..3][..2] == hs[..2] && hs[..3] == hs[..|hs| - 1];
    assert RunHooks(hs[..1], b, s, f) == b1;
    assert RunHooks(hs[..2], b, s, f) == b2;
    assert RunHooks(hs[..3], b, s, f) == b3;
    assert b3.playerPresent == b.playerPresent && (to != Idle ==> !b3.motion.stopped);
  }

  /** InitializeStateMachine's machine: the six edges in registration
      order, no any-state edge, and Idle entered. */
  method NewGuardMachine() returns (m: EnemyStateMachine<GuardState, real>)
    ensures fresh(m)
    ensures m.transitions == GuardTable() && m.anyTransitions == []
    ensures m.current == Some(Idle) && m.calls == [StateChanged(Idle), Enter(Idle)]
  {
    m := new EnemyStateMachine<GuardState, real>();
    m.AddTransition(Some(Idle), Patrol, AtLeast(15.0));
    m.AddTransition(Some(Patrol), Investigate, AtLeast(50.0));
    m.AddTransition(Some(Investigate), Chase, AtLeast(80.0));
    m.AddTransition(Some(Chase), Investigate, Below(80.0));
    m.AddTransition(Some(Investigate), Patrol, Below(50.0));
    m.AddTransition(Some(Patrol), Idle, Below(15.0));
    m.SetState(Idle);
  }

  class GuardLogic {
    var sightRadius: real
    var patrolSpeed: real
    var investigateSpeed: real
    var chaseSpeed: real
    var catchDistance: real
    var suspicionLevel: real
    var lastKnownPosition: Vec3
    /** False when the component disabled itself for lack of an Enemy. */
    var enabled: bool
    var patrolPoints: seq<Vec3>
    /** Whether the player object still exists (a catch destroys it). */
    var playerPresent: bool
    var agent: NavAgent
    var enemy: Enemy?
    var machine: EnemyStateMachine?<GuardState, real>
    var idle: IdleState
    var patrol: PatrolState
    var investigate: InvestigateState
    var chase: ChaseState

    /** What the hooks write, as a value. */
    function Body(): GuardBody
      requires enemy != null
      reads this`agent, this`patrol, this`investigate, this`enemy, this`playerPresent,
            agent, patrol, investigate, enemy
    {
      GuardBody(agent.State(), patrol.index, investigate.waitTimer, enemy.State(), enemy.events, playerPresent)
    }

    /** What the hooks read, as a value. */
    function Setup(): GuardSetup
      reads this`patrolSpeed, this`investigateSpeed, this`chaseSpeed, this`catchDistance,
            this`patrolPoints, this`lastKnownPosition
    {
      GuardSetup(patrolSpeed, investigateSpeed, chaseSpeed, catchDistance, patrolPoints, lastKnownPosition)
    }

    /** Enabled exactly when the machine was built, over the guard table, and
        never without a state; the patrol index stays within the points. */
    ghost predicate Valid()
      reads this, patrol, machine
    {
      (enabled <==> machine != null)
      && (enabled ==> enemy != null && machine.transitions == GuardTable()
                      && machine.anyTransitions == [] && machine.current.Some?)
      && (|patrolPoints| > 0 ==> 0 <= patrol.index < |patrolPoints|)
      && 0.0 <= suspicionLevel <= 100.0
    }

    /** Awake: without an Enemy the component disables itself and builds no
        machine; otherwise InitializeStateMachine registers the six edges
        and enters Idle, which stops the agent. */
    constructor (agent: NavAgent, enemy: Enemy?, patrolPoints: seq<Vec3>, playerPresent: bool)
      modifies agent
      ensures Valid()
      ensures this.agent == agent && this.enemy == enemy && this.patrolPoints == patrolPoints
      ensures this.playerPresent == playerPresent
      ensures sightRadius == 20.0 && patrolSpeed == 2.0 && investigateSpeed == 3.0
      ensures chaseSpeed == 5.0 && catchDistance == 1.5 && suspicionLevel == 0.0
      ensures enabled <==> enemy != null
      ensures enemy != null ==>
        machine.current == Some(Idle) && machine.calls == [StateChanged(Idle), Enter(Idle)] && agent.isStopped
      ensures enemy == null ==> agent.isStopped == old(agent.isStopped)
      ensures fresh(idle) && fresh(patrol) && fresh(investigate) && fresh(chase)
      ensures machine != null ==> fresh(machine)
    {
      sightRadius := 20.0;
      patrolSpeed := 2.0;
      investigateSpeed := 3.0;
      chaseSpeed := 5.0;
      catchDistance := 1.5;
      suspicionLevel := 0.0;
      lastKnownPosition := Vec3(0.0, 0.0, 0.0);
      this.patrolPoints := patrolPoints;
      this.playerPresent := playerPresent;
      this.agent := agent;
      this.enemy := enemy;
      idle := new IdleState();
      patrol := new PatrolState();
      investigate := new InvestigateState();
      chase := new ChaseState();
      var m: EnemyStateMachine?<GuardState, real> := null;
      if enemy != null {
        m := NewGuardMachine();
      }
      enabled := enemy != null;
      machine := m;
      new;
      if enemy != null {
        idle.Enter(agent);
      }
    }

    /** An event farther than the sight radius is ignored; any other event,
        whatever its type, adds its full amount at its position. */
    method HandleSuspicionEvent(e: SuspicionEvent, distance: real)
      modifies this`suspicionLevel, this`lastKnownPosition
      ensures distance > sightRadius ==>
        suspicionLevel == old(suspicionLevel) && lastKnownPosition == old(lastKnownPosition)
      ensures distance <= sightRadius ==>
        suspicionLevel == Clamp(old(suspicionLevel) + e.amount, 0.0, 100.0) && lastKnownPosition == e.position
    {
      if distance > sightRadius {
        return;
      }
      AddSuspicion(e.amount, e.position);
    }

    /** The score moves by `amount`, clamped to [0,100]; the position is
        always recorded. */
    method AddSuspicion(amount: real, position: Vec3)
      modifies this`suspicionLevel, this`lastKnownPosition
      ensures 0.0 <= suspicionLevel <= 100.0
      ensures suspicionLevel == Clamp(old(suspicionLevel) + amount, 0.0, 100.0)
      ensures lastKnownPosition == position
    {
      suspicionLevel := Clamp(suspicionLevel + amount, 0.0, 100.0);
      lastKnownPosition := position;
    }

    /** The score drops by `amount`, clamped to [0,100]. */
    method DecreaseSuspicion(amount: real)
      modifies this`suspicionLevel
      ensures 0.0 <= suspicionLevel <= 100.0
      ensures suspicionLevel == Clamp(old(suspicionLevel) - amount, 0.0, 100.0)
    {
      suspicionLevel := Clamp(suspicionLevel - amount, 0.0, 100.0);
    }

    /** Runs one call the machine made on a state object: the guard
        changes as HookEffect says. */
    method RunHook(h: Hook<GuardState>, f: GuardFrame)
      requires enemy != null
      requires |f.pointDistances| == |patrolPoints|
      requires |patrolPoints| > 0 ==> 0 <= patrol.index < |patrolPoints|
      modifies this`playerPresent, patrol, investigate, agent,
               enemy`isSuspicious, enemy`suspicionLevel, enemy`events
      ensures Body() == HookEffect(h, old(Body()), Setup(), f)
      ensures |patrolPoints| > 0 ==> 0 <= patrol.index < |patrolPoints|
    {
      match h
      case Exit(s) =>
        if s == Investigate {
          investigate.Exit(agent, f.onNavMesh);
        }
      case StateChanged(_) =>
      case Enter(s) => RunEnter(s, f);
      case Tick(s) => RunTick(s, f);
    }

    /** The Enter hook of state `st`, as EnterEffect says. */
    method RunEnter(st: GuardState, f: GuardFrame)
      requires enemy != null
      requires |f.pointDistances| == |patrolPoints|
      requires |patrolPoints| > 0 ==> 0 <= patrol.index < |patrolPoints|
      modifies patrol, investigate, agent
      ensures Body() == EnterEffect(st, old(Body()), Setup(), f)
      ensures |patrolPoints| > 0 ==> 0 <= patrol.index < |patrolPoints|
    {
      match st {
        case Idle => idle.Enter(agent);
        case Patrol => patrol.Enter(agent, patrolSpeed, patrolPoints, f.pointDistances);
        case Investigate => investigate.Enter(agent, investigateSpeed, lastKnownPosition);
        case Chase => chase.Enter(agent, chaseSpeed);
      }
    }

    /** The Tick hook of state `st`, as TickEffect says. */
    method RunTick(st: GuardState, f: GuardFrame)
      requires enemy != null
      requires |patrolPoints| > 0 ==> 0 <= patrol.index < |patrolPoints|
      modifies this`playerPresent, patrol, investigate, agent,
               enemy`isSuspicious, enemy`suspicionLevel, enemy`events
      ensures Body() == TickEffect(st, old(Body()), Setup(), f)
      ensures |patrolPoints| > 0 ==> 0 <= patrol.index < |patrolPoints|
    {
      match st {
        case Idle =>
        case Patrol => patrol.Update(agent, patrolPoints, f.pathPending, f.remainingDistance);
        case Investigate => investigate.Update(agent, enemy, f.pathPending, f.remainingDistance, f.dt);
        case Chase =>
          var player := if playerPresent then Some(f.playerPosition) else None;
          var caught := chase.Update(agent, player, f.playerDistance, catchDistance);
          if caught {
            playerPresent := false;
          }
      }
    }

    /** Runs a trace of hook calls in order. */
    method RunTrace(hs: seq<Hook<GuardState>>, f: GuardFrame)
      requires enemy != null
      requires |f.pointDistances| == |patrolPoints|
      requires |patrolPoints| > 0 ==> 0 <= patrol.index < |patrolPoints|
      modifies this`playerPresent, patrol, investigate, agent,
               enemy`isSuspicious, enemy`suspicionLevel, enemy`events
      ensures Body() == RunHooks(hs, old(Body()), Setup(), f)
      ensures |patrolPoints| > 0 ==> 0 <= patrol.index < |patrolPoints|
    {
      var i := 0;
      while i < |hs|
        invariant 0 <= i <= |hs|
        invariant |patrolPoints| > 0 ==> 0 <= patrol.index < |patrolPoints|
        invariant Body() == RunHooks(hs[..i], old(Body()), Setup(), f)
      {
        RunHook(hs[i], f);
        assert hs[..i + 1][..i] == hs[..i];
        i := i + 1;
      }
      assert hs[..i] == hs;
    }

    /** The machine's own step over the guard table: at most one band step. */
    method StepMachine() returns (emitted: seq<Hook<GuardState>>)
      requires Valid() && enabled
      modifies machine
      ensures machine.transitions == old(machine.transitions) && machine.anyTransitions == old(machine.anyTransitions)
      ensures machine.current == Some(NextBand(old(machine.current).value, suspicionLevel))
      ensures emitted == StepHooks([], GuardTable(), old(machine.current), suspicionLevel)
    {
      StepIsNextBand(machine.current.value, suspicionLevel);
      emitted := machine.Update(suspicionLevel);
    }

    /** One frame: the machine first (at most one band step, then the
        current state's update, each hook acting as HookEffect says), then
        the score drains by 2·dt. */
    method Update(f: GuardFrame) returns (emitted: seq<Hook<GuardState>>)
      requires Valid() && enabled
      requires |f.pointDistances| == |patrolPoints|
      modifies this`suspicionLevel, this`playerPresent, machine, patrol, investigate, agent,
               enemy`isSuspicious, enemy`suspicionLevel, enemy`events
      ensures Valid() && enabled
      ensures machine.current == Some(NextBand(old(machine.current).value, old(suspicionLevel)))
      ensures emitted == StepHooks([], GuardTable(), old(machine.current), old(suspicionLevel))
      ensures Body() == RunHooks(emitted, old(Body()), Setup(), f)
      ensures suspicionLevel == Clamp(old(suspicionLevel) - f.dt * 2.0, 0.0, 100.0)
    {
      emitted := StepMachine();
      ghost var m := machine.current;
      RunTrace(emitted, f);
      assert machine.current == m;
      DecreaseSuspicion(f.dt * 2.0);
    }
  }
}
