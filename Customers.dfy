/** The customer controller: two flags (a witnessed theft, a promo lure), a
    state machine over Patrol, Flee and Promo, and the witness handler that
    re-raises a theft it sees on the suspicion channel. The module also
    models the nested dispatch those re-raises cause across all customers. */
module Customers {
  import opened Common
  import opened Navigation
  import opened Fsm
  import opened SuspicionEvents
  import opened CustomerStates

  /** The three states the controller registers; the report state is not
      among them. */
  datatype CustomerState = Patrolling | Fleeing | AtPromo

  /** The snapshot the transition guards read. */
  datatype Flags = Flags(witnessed: bool, lured: bool)

  predicate Witnessed(f: Flags) { f.witnessed }
  predicate NotWitnessed(f: Flags) { !f.witnessed }
  predicate Lured(f: Flags) { f.lured }
  predicate NotLured(f: Flags) { !f.lured }

  /** The any-state list: a witnessed theft leads to Flee from anywhere. */
  function AnyTable(): seq<Transition<CustomerState, Flags>>
  {
    [Transition(None, Fleeing, Witnessed)]
  }

  /** The ordinary list, in registration order. */
  function Table(): seq<Transition<CustomerState, Flags>>
  {
    [ Transition(Some(Patrolling), AtPromo, Lured),
      Transition(Some(Fleeing), Patrolling, NotWitnessed),
      Transition(Some(AtPromo), Patrolling, NotLured) ]
  }

  /** The state after one tick, written case by case. */
  function Next(s: CustomerState, f: Flags): CustomerState
  {
    if f.witnessed then Fleeing
    else match s
      case Patrolling => if f.lured then AtPromo else Patrolling
      case Fleeing => Patrolling
      case AtPromo => if f.lured then AtPromo else Patrolling
  }

  /** The runtime's choice over the customer table is exactly Next: a
      witnessed theft wins over everything (the promo included), and the
      flee and promo states return to patrol when their flag clears. */
  lemma StepIsNext(s: CustomerState, f: Flags)
    ensures StepState(AnyTable(), Table(), Some(s), f) == Some(Next(s, f))
    ensures f.witnessed ==> Next(s, f) == Fleeing
  {
    var any := AnyTable();
    var ts := Table();
    if f.witnessed {
      assert Fires(any[0], true, Some(s), f);
      assert FirstEnabled(any, true, Some(s), f, 0) == Some(0);
    } else {
      assert !Fires(any[0], true, Some(s), f);
      assert FirstEnabled(any, true, Some(s), f, 1) == None;
      assert FirstEnabled(any, true, Some(s), f, 0) == None;
      var r := FirstEnabled(ts, false, Some(s), f, 0);
      if r.Some? {
        assert ts[r.value].from == Some(s);
      } else {
        assert forall k :: 0 <= k < 3 ==> !Fires(ts[k], false, Some(s), f);
      }
    }
  }

  /** Fleeing wins: a witnessed theft always leads to Flee and nothing
      else does; the promo is reached (or kept) exactly when the customer
      is lured without a witnessed theft and is not fleeing. */
  lemma FleePreempts(s: CustomerState, f: Flags)
    ensures Next(s, f) == Fleeing <==> f.witnessed
    ensures Next(s, f) == AtPromo <==> !f.witnessed && f.lured && s != Fleeing
  {
  }

  /** While fleeing, a theft flag that is still set re-selects Flee through
      the any-state list, which is a plain update: the flee state is not
      re-entered and its timer is not restarted. */
  lemma FleeIsNotReentered(f: Flags)
    requires f.witnessed
    ensures StepHooks(AnyTable(), Table(), Some(Fleeing), f) == [Tick(Fleeing)]
  {
    AnyToCurrentIsQuiet(AnyTable(), Table(), Fleeing, f, 0);
  }

  /** CanSeeLocation: within the view radius, within half the view angle of
      the facing direction, and with no wall or default-layer hit in
      between. */
  function CanSee(distance: real, angle: real, viewRadius: real, viewAngle: real, blocked: bool): (r: bool)
    ensures r ==> distance <= viewRadius && angle <= viewAngle * 0.5
    ensures blocked ==> !r
    ensures distance <= viewRadius && angle <= viewAngle * 0.5 && !blocked ==> r
  {
    !(distance > viewRadius) && !(angle > viewAngle * 0.5) && !blocked
  }

  // --------------------------------------------------- nested dispatch

  /** The report a witness raises: a theft of magnitude 75 at the same place. */
  function Report(position: Vec3): (e: SuspicionEvent)
    ensures e.kind == Theft && e.amount == 75.0 && e.position == position
  {
    SuspicionEvent(position, 75.0, Theft)
  }

  /** The number of customers whose theft flag is clear. */
  function Unlatched(l: seq<bool>): (n: nat)
    ensures n <= |l|
  {
    if l == [] then 0 else (if l[0] then 0 else 1) + Unlatched(l[1..])
  }

  lemma {:induction false} UnlatchOne(l: seq<bool>, i: nat)
    requires i < |l| && !l[i]
    ensures Unlatched(l[i := true]) == Unlatched(l) - 1
  {
    if i > 0 {
      UnlatchOne(l[1..], i - 1);
      assert l[i := true][1..] == l[1..][i - 1 := true];
    }
  }

  /** Delivering `e` to the customers from index `i` on, in subscription
      order, where `latched[k]` is customer k's theft flag and `sees[k]`
      whether customer k can see the event's position (every report is
      raised at the same position, so this is fixed for the whole
      cascade). A customer that reacts sets its flag first and then raises
      its report, which is delivered to every customer before delivery of
      `e` continues. Returns the final flags and the customers that raised
      a report, in order. Each report needs a clear flag and sets it, which
      bounds the nesting. */
  function Cascade(latched: seq<bool>, sees: seq<bool>, e: SuspicionEvent, i: nat): (r: (seq<bool>, seq<nat>))
    requires |sees| == |latched| && i <= |latched|
    ensures |r.0| == |latched|
    ensures Unlatched(r.0) <= Unlatched(latched)
    ensures forall k :: 0 <= k < |latched| && latched[k] ==> r.0[k]
    decreases Unlatched(latched), |latched| - i
  {
    if i == |latched| then (latched, [])
    else if !latched[i] && e.kind == Theft && sees[i] then
      UnlatchOne(latched, i);
      var l1 := latched[i := true];
      var (l2, r2) := Cascade(l1, sees, Report(e.position), 0);
      var (l3, r3) := Cascade(l2, sees, e, i + 1);
      (l3, [i] + r2 + r3)
    else Cascade(latched, sees, e, i + 1)
  }

  /** Whether some customer from index `i` on reacts to a theft. */
  predicate Triggers(latched: seq<bool>, sees: seq<bool>, e: SuspicionEvent, i: nat)
    requires |sees| == |latched|
  {
    e.kind == Theft && exists j :: i <= j < |latched| && !latched[j] && sees[j]
  }

  /** The flags after a dispatch. When some customer reacts, every customer
      that can see the spot ends with its flag set; otherwise nothing
      changes and nothing is raised. In particular the nesting always ends. */
  lemma {:induction false} CascadeFlags(latched: seq<bool>, sees: seq<bool>, e: SuspicionEvent, i: nat)
    requires |sees| == |latched| && i <= |latched|
    ensures Triggers(latched, sees, e, i) ==>
      forall k :: 0 <= k < |latched| ==> Cascade(latched, sees, e, i).0[k] == (latched[k] || sees[k])
    ensures !Triggers(latched, sees, e, i) ==> Cascade(latched, sees, e, i) == (latched, [])
    decreases Unlatched(latched), |latched| - i
  {
    var n := |latched|;
    if i == n {
      return;
    }
    if !latched[i] && e.kind == Theft && sees[i] {
      UnlatchOne(latched, i);
      var l1 := latched[i := true];
      var rep := Report(e.position);
      CascadeFlags(l1, sees, rep, 0);
      var l2 := Cascade(l1, sees, rep, 0).0;
      assert forall k :: 0 <= k < n ==> l2[k] == (latched[k] || sees[k]) by {
        if !Triggers(l1, sees, rep, 0) {
          assert forall j :: 0 <= j < n ==> l1[j] || !sees[j];
        }
      }
      assert !Triggers(l2, sees, e, i + 1);
      CascadeFlags(l2, sees, e, i + 1);
      assert Triggers(latched, sees, e, i);
    } else {
      CascadeFlags(latched, sees, e, i + 1);
      assert Triggers(latched, sees, e, i) == Triggers(latched, sees, e, i + 1);
    }
  }

  /** Who raises a report: only customers that could see the spot and had a
      clear flag, and whose flag is set at the end. */
  lemma {:induction false} CascadeRaisers(latched: seq<bool>, sees: seq<bool>, e: SuspicionEvent, i: nat)
    requires |sees| == |latched| && i <= |latched|
    ensures forall a :: 0 <= a < |Cascade(latched, sees, e, i).1| ==>
      var k := Cascade(latched, sees, e, i).1[a];
      k < |latched| && !latched[k] && sees[k] && Cascade(latched, sees, e, i).0[k]
    decreases Unlatched(latched), |latched| - i
  {
    var n := |latched|;
    if i == n {
      return;
    }
    if !latched[i] && e.kind == Theft && sees[i] {
      UnlatchOne(latched, i);
      var l1 := latched[i := true];
      var rep := Report(e.position);
      CascadeRaisers(l1, sees, rep, 0);
      var l2 := Cascade(l1, sees, rep, 0).0;
      var r2 := Cascade(l1, sees, rep, 0).1;
      CascadeRaisers(l2, sees, e, i + 1);
      var l3 := Cascade(l2, sees, e, i + 1).0;
      var r3 := Cascade(l2, sees, e, i + 1).1;
      var raised := [i] + r2 + r3;
      assert Cascade(latched, sees, e, i) == (l3, raised);
      forall a | 0 <= a < |raised|
        ensures raised[a] < n && !latched[raised[a]] && sees[raised[a]] && l3[raised[a]]
      {
        if 0 < a <= |r2| {
          assert raised[a] == r2[a - 1];
        } else if a > |r2| {
          assert raised[a] == r3[a - 1 - |r2|];
        }
      }
    } else {
      CascadeRaisers(latched, sees, e, i + 1);
    }
  }

  /** Every customer whose flag the dispatch set raised a report. */
  lemma {:induction false} CascadeRaisesAll(latched: seq<bool>, sees: seq<bool>, e: SuspicionEvent, i: nat)
    requires |sees| == |latched| && i <= |latched|
    ensures forall k :: 0 <= k < |latched| && Cascade(latched, sees, e, i).0[k] && !latched[k] ==>
      k in Cascade(latched, sees, e, i).1
    decreases Unlatched(latched), |latched| - i
  {
    var n := |latched|;
    if i == n {
      return;
    }
    if !latched[i] && e.kind == Theft && sees[i] {
      UnlatchOne(latched, i);
      var l1 := latched[i := true];
      var rep := Report(e.position);
      CascadeRaisesAll(l1, sees, rep, 0);
      var l2 := Cascade(l1, sees, rep, 0).0;
      var r2 := Cascade(l1, sees, rep, 0).1;
      CascadeRaisesAll(l2, sees, e, i + 1);
      var l3 := Cascade(l2, sees, e, i + 1).0;
      var r3 := Cascade(l2, sees, e, i + 1).1;
      var raised := [i] + r2 + r3;
      assert Cascade(latched, sees, e, i) == (l3, raised);
      forall k | 0 <= k < n && l3[k] && !latched[k]
        ensures k in raised
      {
        if k != i {
          if l2[k] {
            assert k in r2;
          } else {
            assert k in r3;
          }
        }
      }
    } else {
      CascadeRaisesAll(latched, sees, e, i + 1);
    }
  }

  /** No customer raises more than one report in a dispatch. */
  lemma {:induction false} CascadeRaisesOnce(latched: seq<bool>, sees: seq<bool>, e: SuspicionEvent, i: nat)
    requires |sees| == |latched| && i <= |latched|
    ensures forall a, b :: 0 <= a < b < |Cascade(latched, sees, e, i).1| ==>
      Cascade(latched, sees, e, i).1[a] != Cascade(latched, sees, e, i).1[b]
    decreases Unlatched(latched), |latched| - i
  {
    var n := |latched|;
    if i == n {
      return;
    }
    if !latched[i] && e.kind == Theft && sees[i] {
      UnlatchOne(latched, i);
      var l1 := latched[i := true];
      var rep := Report(e.position);
      CascadeRaisers(l1, sees, rep, 0);
      CascadeRaisesOnce(l1, sees, rep, 0);
      var l2 := Cascade(l1, sees, rep, 0).0;
      var r2 := Cascade(l1, sees, rep, 0).1;
      CascadeRaisers(l2, sees, e, i + 1);
      CascadeRaisesOnce(l2, sees, e, i + 1);
      var l3 := Cascade(l2, sees, e, i + 1).0;
      var r3 := Cascade(l2, sees, e, i + 1).1;
      var raised := [i] + r2 + r3;
      assert Cascade(latched, sees, e, i) == (l3, raised);
      forall a, b | 0 <= a < b < |raised|
        ensures raised[a] != raised[b]
      {
        if a == 0 && b <= |r2| {
          assert !l1[r2[b - 1]];
        } else if a == 0 {
          assert !l2[r3[b - 1 - |r2|]];
        } else if a <= |r2| && b > |r2| {
          assert l2[r2[a - 1]] && !l2[r3[b - 1 - |r2|]];
        } else if a <= |r2| {
          assert raised[a] == r2[a - 1] && raised[b] == r2[b - 1];
        } else {
          assert raised[a] == r3[a - 1 - |r2|] && raised[b] == r3[b - 1 - |r2|];
        }
      }
    } else {
      CascadeRaisesOnce(latched, sees, e, i + 1);
    }
  }

  // --------------------------------------------------- the controller

  /** The per-frame inputs of a customer: frame length, whether navigation
      is usable, the agent's path state, the customer's position, the
      normalised direction away from the theft, and the mesh sampler. */
  datatype CustomerFrame = CustomerFrame(
    dt: real,
    ready: bool,
    pathPending: bool,
    hasPath: bool,
    remainingDistance: real,
    position: Vec3,
    fleeDirection: Vec3,
    sample: Vec3 -> Option<Vec3>)

  /** What the state hooks act on: the agent's motion, the patrol memory,
      the flee and interest timers, and the two flags. */
  datatype CustomerBody = CustomerBody(motion: Motion, walk: Walk, fleeTimer: real, interestTimer: real, flags: Flags)

  /** The customer settings the state hooks read. */
  datatype CustomerSetup = CustomerSetup(patrolSpeed: real, promoSpeed: real, fleeSpeed: real, waitTime: real,
                                         points: seq<Option<Vec3>>, promoTarget: Vec3)

  /** The effect of one call the machine makes on a state object. The
      exits do nothing; the flee and promo ticks clear their flag once
      their timer is out (CalmDown, LoseInterestInPromo). */
  function HookEffect(h: Hook<CustomerState>, b: CustomerBody, s: CustomerSetup, f: CustomerFrame): CustomerBody
  {
    match h
    case Exit(_) => b
    case StateChanged(_) => b
    case Enter(st) => EnterEffect(st, b, s, f)
    case Tick(st) => TickEffect(st, b, s, f)
  }

  function EnterEffect(st: CustomerState, b: CustomerBody, s: CustomerSetup, f: CustomerFrame): CustomerBody
  {
    match st
    case Patrolling =>
      if |s.points| == 0 || !f.ready then b
      else
        var i := (b.walk.index + 1) % |s.points|;
        b.(motion := Motion(false, s.patrolSpeed, Heading(s.points, i, b.motion.destination)),
           walk := b.walk.(index := i))
    case Fleeing =>
      var timed := b.(fleeTimer := FleeDuration);
      if !f.ready then timed
      else
        var hit := f.sample(FleePoint(f.position, f.fleeDirection));
        timed.(motion := Motion(false, s.fleeSpeed, if hit.Some? then hit else b.motion.destination))
    case AtPromo =>
      var timed := b.(interestTimer := PromoInterest);
      if !f.ready then timed
      else timed.(motion := Motion(false, s.promoSpeed, Some(s.promoTarget)))
  }

  function TickEffect(st: CustomerState, b: CustomerBody, s: CustomerSetup, f: CustomerFrame): CustomerBody
  {
    match st
    case Patrolling =>
      var reached := Reached(f.pathPending, f.hasPath, f.remainingDistance);
      b.(motion := WalkMotion(b.motion, b.walk, s.points, f.ready, reached, f.dt),
         walk := WalkStep(b.walk, |s.points|, f.ready, reached, s.waitTime, f.dt))
    case Fleeing =>
      var t := b.fleeTimer - f.dt;
      b.(fleeTimer := t, flags := if t <= 0.0 then b.flags.(witnessed := false) else b.flags)
    case AtPromo =>
      var t := b.interestTimer - f.dt;
      b.(interestTimer := t, flags := if t <= 0.0 then b.flags.(lured := false) else b.flags)
  }

  /** The effect of a sequence of hook calls, in order. */
  function RunHooks(hs: seq<Hook<CustomerState>>, b: CustomerBody, s: CustomerSetup, f: CustomerFrame): CustomerBody
    decreases |hs|
  {
    if hs == [] then b
    else HookEffect(hs[|hs| - 1], RunHooks(hs[..|hs| - 1], b, s, f), s, f)
  }

  /** No hook sets a flag; the theft flag is cleared only by a flee tick and
      the lure only by a promo tick. */
  lemma {:induction false} HooksOnlyClearFlags(hs: seq<Hook<CustomerState>>, b: CustomerBody, s: CustomerSetup,
                                               f: CustomerFrame)
    ensures RunHooks(hs, b, s, f).flags.witnessed ==> b.flags.witnessed
    ensures RunHooks(hs, b, s, f).flags.lured ==> b.flags.lured
    ensures Tick(Fleeing) !in hs ==> RunHooks(hs, b, s, f).flags.witnessed == b.flags.witnessed
    ensures Tick(AtPromo) !in hs ==> RunHooks(hs, b, s, f).flags.lured == b.flags.lured
    decreases |hs|
  {
    if hs != [] {
      var init := hs[..|hs| - 1];
      HooksOnlyClearFlags(init, b, s, f);
      assert Tick(Fleeing) !in hs ==> Tick(Fleeing) !in init;
      assert Tick(AtPromo) !in hs ==> Tick(AtPromo) !in init;
    }
  }

  /** A witnessed theft seen while patrolling: the customer runs at flee
      speed (with usable navigation) on a fresh 10-second timer, which the
      same frame's tick already runs down; the patrol memory, a running
      wait included, is kept for the return to Patrol. */
  lemma PatrolToFlee(b: CustomerBody, s: CustomerSetup, f: CustomerFrame)
    requires b.flags.witnessed
    ensures var r := RunHooks(StepHooks(AnyTable(), Table(), Some(Patrolling), b.flags), b, s, f);
      r.fleeTimer == FleeDuration - f.dt && r.walk == b.walk
      && (f.ready ==> !r.motion.stopped && r.motion.speed == s.fleeSpeed)
      && (r.flags.witnessed <==> FleeDuration - f.dt > 0.0)
  {
    PatrolToFleeHooks(b.flags);
    FleeHooksEffect(b, s, f);
  }

  /** The calls of that step: Patrol exits and Flee is entered and ticked. */
  lemma PatrolToFleeHooks(fl: Flags)
    requires fl.witnessed
    ensures StepHooks(AnyTable(), Table(), Some(Patrolling), fl)
      == [Exit(Patrolling), StateChanged(Fleeing), Enter(Fleeing), Tick(Fleeing)]
  {
    StepIsNext(Patrolling, fl);
  }

  lemma FleeHooksEffect(b: CustomerBody, s: CustomerSetup, f: CustomerFrame)
    ensures var r := RunHooks([Exit(Patrolling), StateChanged(Fleeing), Enter(Fleeing), Tick(Fleeing)], b, s, f);
      r.fleeTimer == FleeDuration - f.dt && r.walk == b.walk
      && (f.ready ==> !r.motion.stopped && r.motion.speed == s.fleeSpeed)
      && (r.flags.witnessed <==> b.flags.witnessed && FleeDuration - f.dt > 0.0)
  {
    var hs := [Exit(Patrolling), StateChanged(Fleeing), Enter(Fleeing), Tick(Fleeing)];
    assert hs[..1] == [Exit(Patrolling)] && hs[..1][..0] == [];
    assert RunHooks(hs[..1], b, s, f) == b;
    assert hs[..2][..1] == hs[..1];
    assert RunHooks(hs[..2], b, s, f) == b;
    assert hs[..3][..2] == hs[..2];
    assert RunHooks(hs[..3], b, s, f) == EnterEffect(Fleeing, b, s, f);
    assert hs[..4][..3] == hs[..3] && hs[..4] == hs;
  }

  /** InitializeStateMachine's machine: the any-state edge to Flee, the
      three ordinary edges, and Patrol entered. */
  method NewCustomerMachine() returns (m: EnemyStateMachine<CustomerState, Flags>)
    ensures fresh(m)
    ensures m.anyTransitions == AnyTable() && m.transitions == Table()
    ensures m.current == Some(Patrolling) && m.calls == [StateChanged(Patrolling), Enter(Patrolling)]
  {
    m := new EnemyStateMachine<CustomerState, Flags>();
    m.AddAnyTransition(Fleeing, Witnessed);
    m.AddTransition(Some(Patrolling), AtPromo, Lured);
    m.AddTransition(Some(Fleeing), Patrolling, NotWitnessed);
    m.AddTransition(Some(AtPromo), Patrolling, NotLured);
    m.SetState(Patrolling);
  }

  class Customer {
    var patrolPoints: seq<Option<Vec3>>
    var patrolSpeed: real
    var promoSpeed: real
    var fleeSpeed: real
    var waitTime: real
    var viewRadius: real
    var viewAngle: real
    var eyeHeight: real
    var hasWitnessedTheft: bool
    var isLuredByPromo: bool
    var theftLocation: Vec3
    var promoTargetLocation: Vec3
    var agent: NavAgent?
    var machine: EnemyStateMachine?<CustomerState, Flags>
    var patrol: CustomerPatrolState
    var flee: CustomerFleeState
    var promo: CustomerPromoState

    function CurrentFlags(): Flags
      reads this`hasWitnessedTheft, this`isLuredByPromo
    {
      Flags(hasWitnessedTheft, isLuredByPromo)
    }

    /** The state the hooks act on, as a value. */
    function Body(): CustomerBody
      requires agent != null
      reads this`agent, this`patrol, this`flee, this`promo, this`hasWitnessedTheft, this`isLuredByPromo,
            agent, patrol, flee, promo
    {
      CustomerBody(agent.State(), patrol.Memory(), flee.fleeTimer, promo.interestTimer, CurrentFlags())
    }

    function Setup(): CustomerSetup
      reads this`patrolSpeed, this`promoSpeed, this`fleeSpeed, this`waitTime, this`patrolPoints,
            this`promoTargetLocation
    {
      CustomerSetup(patrolSpeed, promoSpeed, fleeSpeed, waitTime, patrolPoints, promoTargetLocation)
    }

    /** The machine exists exactly when the agent does, and is built over
        the customer table. */
    ghost predicate Valid()
      reads this, machine
    {
      (agent == null <==> machine == null)
      && (machine != null ==>
        machine.anyTransitions == AnyTable() && machine.transitions == Table() && machine.current.Some?)
    }

    /** Awake: without an agent nothing is built; otherwise the machine gets
        its four transitions and starts in Patrol (whose Enter runs). */
    constructor (agent: NavAgent?, ready: bool, patrolPoints: seq<Option<Vec3>>)
      modifies agent
      ensures Valid()
      ensures this.agent == agent && this.patrolPoints == patrolPoints
      ensures patrolSpeed == 1.5 && promoSpeed == 3.0 && fleeSpeed == 4.0 && waitTime == 2.0
      ensures viewRadius == 10.0 && viewAngle == 90.0 && eyeHeight == 1.6
      ensures !hasWitnessedTheft && !isLuredByPromo
      ensures agent == null <==> machine == null
      ensures agent != null ==>
        machine.current == Some(Patrolling) && machine.calls == [StateChanged(Patrolling), Enter(Patrolling)]
      ensures agent != null && ready && |patrolPoints| > 0 ==> !agent.isStopped && agent.speed == 1.5
      ensures fresh(patrol) && fresh(flee) && fresh(promo)
      ensures machine != null ==> fresh(machine)
    {
      this.patrolPoints := patrolPoints;
      patrolSpeed := 1.5;
      promoSpeed := 3.0;
      fleeSpeed := 4.0;
      waitTime := 2.0;
      viewRadius := 10.0;
      viewAngle := 90.0;
      eyeHeight := 1.6;
      hasWitnessedTheft := false;
      isLuredByPromo := false;
      theftLocation := Vec3(0.0, 0.0, 0.0);
      promoTargetLocation := Vec3(0.0, 0.0, 0.0);
      this.agent := agent;
      patrol := new CustomerPatrolState();
      flee := new CustomerFleeState();
      promo := new CustomerPromoState();
      var m: EnemyStateMachine?<CustomerState, Flags> := null;
      if agent != null {
        m := NewCustomerMachine();
      }
      machine := m;
      new;
      if agent != null {
        patrol.Enter(agent, ready, patrolSpeed, patrolPoints);
      }
    }

    /** AnnouncePromo: ignored once a theft has been witnessed; otherwise it
        records the spot and sets the lure. */
    method AnnouncePromo(location: Vec3)
      modifies this`promoTargetLocation, this`isLuredByPromo
      ensures old(hasWitnessedTheft) ==>
        isLuredByPromo == old(isLuredByPromo) && promoTargetLocation == old(promoTargetLocation)
      ensures !old(hasWitnessedTheft) ==> isLuredByPromo && promoTargetLocation == location
    {
      if hasWitnessedTheft {
        return;
      }
      promoTargetLocation := location;
      isLuredByPromo := true;
    }

    /** Clears only the lure. */
    method LoseInterestInPromo()
      modifies this`isLuredByPromo
      ensures !isLuredByPromo
    {
      isLuredByPromo := false;
    }

    /** Clears only the theft flag. */
    method CalmDown()
      modifies this`hasWitnessedTheft
      ensures !hasWitnessedTheft
    {
      hasWitnessedTheft := false;
    }

    /** The witness handler (one step of Cascade): nothing once the flag is
        set; a theft the customer can see (CanSee with its own view radius
        and angle, from the event's distance, angle off its facing and
        whether a wall is in between) sets the location and the flag, and
        the report to raise is returned. */
    method HandleSuspicionEvent(e: SuspicionEvent, distance: real, angle: real, blocked: bool)
      returns (report: Option<SuspicionEvent>)
      modifies this`theftLocation, this`hasWitnessedTheft
      ensures report.Some? <==>
        !old(hasWitnessedTheft) && e.kind == Theft && CanSee(distance, angle, viewRadius, viewAngle, blocked)
      ensures report.Some? ==> report.value == Report(e.position) && theftLocation == e.position
      ensures report.None? ==> theftLocation == old(theftLocation)
      ensures hasWitnessedTheft ==
        (old(hasWitnessedTheft) || (e.kind == Theft && CanSee(distance, angle, viewRadius, viewAngle, blocked)))
    {
      if hasWitnessedTheft {
        return None;
      }
      if e.kind == Theft && CanSee(distance, angle, viewRadius, viewAngle, blocked) {
        theftLocation := e.position;
        hasWitnessedTheft := true;
        return Some(Report(e.position));
      }
      return None;
    }

    /** IsBlockingVision: in Patrol and waiting. */
    predicate IsBlockingVision()
      requires machine != null
      reads this, machine, patrol
    {
      machine.current == Some(Patrolling) && patrol.IsWaiting()
    }

    /** Runs one call the machine made on a state object, as HookEffect
        says; the flee and promo updates ask the customer to calm down or
        lose interest. */
    method RunHook(h: Hook<CustomerState>, f: CustomerFrame)
      requires agent != null
      modifies this`hasWitnessedTheft, this`isLuredByPromo, patrol, flee, promo, agent
      ensures Body() == HookEffect(h, old(Body()), Setup(), f)
    {
      match h
      case Exit(_) =>
      case StateChanged(_) =>
      case Enter(s) => RunEnter(s, f);
      case Tick(s) => RunTick(s, f);
    }

    /** The Enter hook of state `st`, as EnterEffect says. */
    method RunEnter(st: CustomerState, f: CustomerFrame)
      requires agent != null
      modifies patrol, flee, promo, agent
      ensures Body() == EnterEffect(st, old(Body()), Setup(), f)
    {
      match st {
        case Patrolling => patrol.Enter(agent, f.ready, patrolSpeed, patrolPoints);
        case Fleeing => flee.Enter(agent, f.ready, fleeSpeed, f.position, f.fleeDirection, f.sample);
        case AtPromo => promo.Enter(agent, f.ready, promoSpeed, promoTargetLocation);
      }
    }

    /** The Tick hook of state `st`, as TickEffect says. */
    method RunTick(st: CustomerState, f: CustomerFrame)
      requires agent != null
      modifies this`hasWitnessedTheft, this`isLuredByPromo, patrol, flee, promo, agent
      ensures Body() == TickEffect(st, old(Body()), Setup(), f)
    {
      match st {
        case Patrolling =>
          patrol.Update(agent, f.ready, patrolPoints, f.pathPending, f.hasPath, f.remainingDistance, waitTime, f.dt);
        case Fleeing =>
          var calm := flee.Update(f.dt);
          if calm {
            CalmDown();
          }
        case AtPromo =>
          var lose := promo.Update(f.dt);
          if lose {
            LoseInterestInPromo();
          }
      }
    }

    /** Runs a trace of hook calls in order. */
    method RunTrace(hs: seq<Hook<CustomerState>>, f: CustomerFrame)
      requires agent != null
      modifies this`hasWitnessedTheft, this`isLuredByPromo, patrol, flee, promo, agent
      ensures Body() == RunHooks(hs, old(Body()), Setup(), f)
    {
      var i := 0;
      while i < |hs|
        invariant 0 <= i <= |hs|
        invariant Body() == RunHooks(hs[..i], old(Body()), Setup(), f)
      {
        RunHook(hs[i], f);
        assert hs[..i + 1][..i] == hs[..i];
        i := i + 1;
      }
      assert hs[..i] == hs;
    }

    /** The machine's own step over the customer table. */
    method StepMachine() returns (emitted: seq<Hook<CustomerState>>)
      requires Valid() && machine != null
      modifies machine
      ensures machine.transitions == old(machine.transitions) && machine.anyTransitions == old(machine.anyTransitions)
      ensures machine.current == Some(Next(old(machine.current).value, CurrentFlags()))
      ensures emitted == StepHooks(AnyTable(), Table(), old(machine.current), CurrentFlags())
    {
      StepIsNext(machine.current.value, CurrentFlags());
      emitted := machine.Update(CurrentFlags());
    }

    /** Update: nothing without a machine; otherwise one machine step, whose
        calls are then run in order, each as HookEffect says. */
    method Update(f: CustomerFrame) returns (emitted: seq<Hook<CustomerState>>)
      requires Valid()
      modifies machine, this`hasWitnessedTheft, this`isLuredByPromo, patrol, flee, promo, agent
      ensures Valid()
      ensures machine == null ==>
        emitted == [] && CurrentFlags() == old(CurrentFlags()) && unchanged(patrol, flee, promo)
      ensures machine != null ==>
        machine.current == Some(Next(old(machine.current).value, old(CurrentFlags())))
        && emitted == StepHooks(AnyTable(), Table(), old(machine.current), old(CurrentFlags()))
        && Body() == RunHooks(emitted, old(Body()), Setup(), f)
    {
      if machine == null {
        return [];
      }
      emitted := StepMachine();
      ghost var m := machine.current;
      RunTrace(emitted, f);
      assert machine.current == m;
    }
  }
}
