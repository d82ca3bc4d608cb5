/** The older, self-contained customer: it walks a cycle of patrol points by
    itself, stands at each for a wait, follows promo announcements made to
    every registered customer, and calls the nearest guard for backup when
    it sees a theft. Positions are replaced by the distances the source
    computes from them. */
module LegacyCustomers {
  import opened Common
  import EnemySecurityGuard
  import CustomerStates

  /** The patrol part of a customer's state: the current point, whether it
      is standing there, and the wait timer. */
  datatype Stroll = Stroll(point: nat, waiting: bool, waitTimer: real)

  /** A customer counts as arrived within this distance of its target. */
  const ArrivalRadius := 0.2

  /** One patrol tick (no promo running) with `n` points, where `distance`
      is the distance to the current point: a waiting customer's timer runs
      and, once it has run out, the customer moves on to the next point
      cyclically; otherwise an arrival starts a wait of `waitTime`. */
  function StrollStep(s: Stroll, n: nat, distance: real, waitTime: real, dt: real): (r: Stroll)
    requires n > 0
    ensures s.point < n ==> r.point < n
    ensures !s.waiting ==> r.point == s.point
    ensures !s.waiting ==> (r.waiting <==> distance <= ArrivalRadius)
    ensures s.waiting ==> (r.waiting <==> s.waitTimer - dt > 0.0)
    ensures s.waiting && !r.waiting ==> r.point == (s.point + 1) % n
  {
    if s.waiting then
      var t := s.waitTimer - dt;
      if t <= 0.0 then Stroll((s.point + 1) % n, false, t) else s.(waitTimer := t)
    else if distance > ArrivalRadius then s
    else Stroll(s.point, true, waitTime)
  }

  /** k patrol ticks with the same inputs. */
  function Strolls(s: Stroll, n: nat, distance: real, waitTime: real, dt: real, k: nat): Stroll
    requires n > 0
  {
    if k == 0 then s else StrollStep(Strolls(s, n, distance, waitTime, dt, k - 1), n, distance, waitTime, dt)
  }

  /** A wait with timer t lasts through every tick after which t − k·dt is
      still positive, at the same point. */
  lemma {:induction false} WaitLasts(s: Stroll, n: nat, distance: real, waitTime: real, dt: real, k: nat)
    requires n > 0 && s.waiting && dt > 0.0
    requires s.waitTimer - (k as real) * dt > 0.0
    ensures Strolls(s, n, distance, waitTime, dt, k) == s.(waitTimer := s.waitTimer - (k as real) * dt)
  {
    if k > 0 {
      assert ((k - 1) as real) * dt == (k as real) * dt - dt;
      WaitLasts(s, n, distance, waitTime, dt, k - 1);
    }
  }

  /** The tick on which t − k·dt first drops to zero or below ends the wait
      and moves the customer on to the next point. */
  lemma WaitEnds(s: Stroll, n: nat, distance: real, waitTime: real, dt: real, k: nat)
    requires n > 0 && s.waiting && dt > 0.0
    requires s.waitTimer - (k as real) * dt > 0.0 && s.waitTimer - ((k + 1) as real) * dt <= 0.0
    ensures Strolls(s, n, distance, waitTime, dt, k + 1) == Stroll((s.point + 1) % n, false, s.waitTimer - ((k + 1) as real) * dt)
  {
    WaitLasts(s, n, distance, waitTime, dt, k);
    assert ((k + 1) as real) * dt == (k as real) * dt + dt;
  }

  /** What one sight check of the player needs: the distance, the angle off
      the customer's facing direction, and whether the ray from the eyes
      hits the player first. */
  datatype Sight = Sight(distance: real, angle: real, hitsPlayer: bool)

  /** One customer's backup call: the customer, the guard it called (the
      nearest, if there is any guard), and the guards that guard notified. */
  datatype BackupCall<G> = BackupCall(customer: nat, guard: Option<nat>, notified: seq<G>)

  /** A call made by one of n customers: the guard is the first nearest
      one by that customer's distances (none exactly when there are no
      guards), and the guards it notified are CallForBackup's. */
  predicate CallFits<G(==)>(c: BackupCall<G>, n: nat, guards: seq<G>, guardDists: seq<seq<real>>,
                            hits: seq<seq<Option<G>>>)
  {
    c.customer < n && c.customer < |guardDists|
    && (c.guard.None? <==> guards == [])
    && (c.guard.Some? ==>
          IsFirstNearest(guardDists[c.customer], c.guard.value)
          && c.guard.value < |guards| && c.guard.value < |hits|
          && c.notified == EnemySecurityGuard.Others(guards[c.guard.value], hits[c.guard.value]))
  }

  /** Whether customer j made one of the calls. */
  predicate Reports<G>(calls: seq<BackupCall<G>>, j: nat)
  {
    exists a :: 0 <= a < |calls| && calls[a].customer == j
  }

  /** Appending a call adds exactly its customer to those who reported. */
  lemma ReportsAppend<G>(calls: seq<BackupCall<G>>, c: BackupCall<G>, j: nat)
    ensures Reports(calls + [c], j) <==> Reports(calls, j) || c.customer == j
  {
    if Reports(calls + [c], j) && !Reports(calls, j) {
      var a :| 0 <= a < |calls| + 1 && (calls + [c])[a].customer == j;
      assert a == |calls|;
    }
    if Reports(calls, j) {
      var a :| 0 <= a < |calls| && calls[a].customer == j;
      assert (calls + [c])[a].customer == j;
    }
    if c.customer == j {
      assert (calls + [c])[|calls|].customer == j;
    }
  }

  class LegacyCustomer {
    var patrolPoints: seq<Vec3>
    var speed: real
    var waitTime: real
    var viewRadius: real
    var viewAngle: real
    var eyeHeight: real
    var currentPoint: nat
    var waitTimer: real
    var isWaiting: bool
    var promoTarget: Option<Vec3>
    var promoTimer: real

    /** The serialized settings, with the given patrol points. */
    constructor (patrolPoints: seq<Vec3>)
      ensures this.patrolPoints == patrolPoints
      ensures speed == 1.5 && waitTime == 2.0 && viewRadius == 7.0 && viewAngle == 90.0 && eyeHeight == 1.0
      ensures StrollState() == Stroll(0, false, 0.0) && promoTarget == None && promoTimer == 0.0
    {
      this.patrolPoints := patrolPoints;
      speed := 1.5;
      waitTime := 2.0;
      viewRadius := 7.0;
      viewAngle := 90.0;
      eyeHeight := 1.0;
      currentPoint := 0;
      waitTimer := 0.0;
      isWaiting := false;
      promoTarget := None;
      promoTimer := 0.0;
    }

    function StrollState(): Stroll
      reads this`currentPoint, this`isWaiting, this`waitTimer
    {
      Stroll(currentPoint, isWaiting, waitTimer)
    }

    /** The patrol index is usable: there is a point and the index is one
        of them. */
    predicate Ready()
      reads this`patrolPoints, this`currentPoint
    {
      |patrolPoints| > 0 && currentPoint < |patrolPoints|
    }

    /** Start: a customer without patrol points gets a single one at its own
        position, so the patrol index arithmetic never divides by zero. */
    method Start(position: Vec3)
      requires currentPoint == 0
      modifies this`patrolPoints
      ensures Ready()
      ensures old(patrolPoints) == [] ==> patrolPoints == [position]
      ensures old(patrolPoints) != [] ==> patrolPoints == old(patrolPoints)
    {
      if |patrolPoints| == 0 {
        patrolPoints := [position];
      }
    }

    /** GoToPromo: the target and the timer are overwritten. */
    method GoToPromo(point: Vec3, duration: real)
      modifies this`promoTarget, this`promoTimer
      ensures promoTarget == Some(point) && promoTimer == duration
      ensures IsBlockingVision()
    {
      promoTarget := Some(point);
      promoTimer := duration;
    }

    /** Update, with the distances to the promo target and to the current
        patrol point. While a promo target is set the patrol is frozen: the
        customer walks (if farther than 0.2) to the target, and the promo
        timer runs, clearing the target once it is at or below zero.
        Otherwise one patrol tick runs. The result is the walking flag. */
    method Update(dt: real, promoDistance: real, pointDistance: real) returns (isMoving: bool)
      requires Ready()
      modifies this`currentPoint, this`isWaiting, this`waitTimer, this`promoTarget, this`promoTimer
      ensures Ready()
      ensures old(promoTarget).Some? ==>
        StrollState() == old(StrollState())
        && isMoving == (promoDistance > ArrivalRadius)
        && promoTimer == old(promoTimer) - dt
        && promoTarget == (if promoTimer <= 0.0 then None else old(promoTarget))
      ensures old(promoTarget).None? ==>
        promoTarget == None && promoTimer == old(promoTimer)
        && StrollState() == StrollStep(old(StrollState()), |patrolPoints|, pointDistance, waitTime, dt)
        && isMoving == (!old(isWaiting) && pointDistance > ArrivalRadius)
      ensures IsBlockingVision() <==> old(IsBlockingVision()) && promoTimer > 0.0
    {
      if promoTarget.Some? {
        isMoving := promoDistance > ArrivalRadius;
        promoTimer := promoTimer - dt;
        if promoTimer <= 0.0 {
          promoTarget := None;
        }
        return;
      }
      if isWaiting {
        waitTimer := waitTimer - dt;
        if waitTimer <= 0.0 {
          isWaiting := false;
          currentPoint := (currentPoint + 1) % |patrolPoints|;
        }
        isMoving := false;
      } else {
        isMoving := MoveToPoint(pointDistance);
      }
    }

    /** MoveToPoint: walking while farther than 0.2 from the point, else the
        wait starts. */
    method MoveToPoint(distance: real) returns (moving: bool)
      modifies this`isWaiting, this`waitTimer
      ensures moving <==> distance > ArrivalRadius
      ensures moving ==> isWaiting == old(isWaiting) && waitTimer == old(waitTimer)
      ensures !moving ==> isWaiting && waitTimer == waitTime
    {
      if distance > ArrivalRadius {
        return true;
      }
      isWaiting := true;
      waitTimer := waitTime;
      return false;
    }

    /** A customer blocks the view exactly while it has a promo target. */
    predicate IsBlockingVision()
      reads this`promoTarget
    {
      promoTarget.Some?
    }

    /** CanSeePlayer: within the view radius and half the view angle, and
        the first thing the eye ray hits is the player. */
    function CanSeePlayer(s: Sight): (r: bool)
      reads this`viewRadius, this`viewAngle
      ensures r ==> s.distance <= viewRadius && s.angle <= viewAngle * 0.5
      ensures !s.hitsPlayer ==> !r
      ensures s.distance <= viewRadius && s.angle <= viewAngle * 0.5 && s.hitsPlayer ==> r
    {
      !(s.distance > viewRadius) && !(s.angle > viewAngle * 0.5) && s.hitsPlayer
    }

    /** ReportTheft over the guards in the scene, their distances from this
        customer, and for each guard the guards its backup sphere hits: the
        first nearest guard calls for backup; without guards nothing
        happens. */
    method ReportTheft<G(==)>(guards: seq<G>, guardDists: seq<real>, hits: seq<seq<Option<G>>>)
      returns (guard: Option<nat>, notified: seq<G>)
      requires |guardDists| == |guards| && |hits| == |guards|
      ensures guard.None? <==> guards == []
      ensures guard.None? ==> notified == []
      ensures guard.Some? ==>
        IsFirstNearest(guardDists, guard.value)
        && notified == EnemySecurityGuard.Others(guards[guard.value], hits[guard.value])
    {
      guard := CustomerStates.FindNearestGuard(guardDists);
      notified := [];
      if guard.Some? {
        notified := EnemySecurityGuard.CallForBackup(guards[guard.value], hits[guard.value]);
      }
    }
  }

  /** The default arguments of AnnouncePromo (duration) and
      AlertNearbyCustomers (radius). */
  const DefaultPromoDuration: real := 5.0
  const DefaultAlertRadius: real := 8.0

  /** The static list of all live customers. */
  class CustomerRegistry {
    var all: seq<LegacyCustomer>

    constructor ()
      ensures all == []
    {
      all := [];
    }

    /** Awake registers the customer. */
    method Awake(c: LegacyCustomer)
      modifies this
      ensures all == old(all) + [c]
    {
      all := all + [c];
    }

    /** OnDestroy removes its first registration. */
    method OnDestroy(c: LegacyCustomer)
      modifies this
      ensures all == RemoveFirst(old(all), c)
    {
      all := RemoveFirst(all, c);
    }

    /** AnnouncePromo: every registered customer heads for the point, with
        its promo timer overwritten by the duration (DefaultPromoDuration
        when the caller gives none). */
    method AnnouncePromo(point: Vec3, duration: real)
      modifies set i | 0 <= i < |all| :: all[i]
      ensures forall i :: 0 <= i < |all| ==> all[i].promoTarget == Some(point) && all[i].promoTimer == duration
      ensures forall i :: 0 <= i < |all| ==>
        all[i].StrollState() == old(all[i].StrollState()) && all[i].patrolPoints == old(all[i].patrolPoints)
    {
      var i := 0;
      while i < |all|
        invariant 0 <= i <= |all|
        invariant forall j :: 0 <= j < i ==> all[j].promoTarget == Some(point) && all[j].promoTimer == duration
        invariant forall j :: 0 <= j < |all| ==>
          all[j].StrollState() == old(all[j].StrollState()) && all[j].patrolPoints == old(all[j].patrolPoints)
      {
        all[i].GoToPromo(point, duration);
        i := i + 1;
      }
    }

    /** AlertNearbyCustomers: in registration order, every customer within
        the radius (inclusive; DefaultAlertRadius when the caller gives
        none) of the theft that can see the player reports
        the theft. `theftDists[i]` is customer i's distance to the theft,
        `sights[i]` its view of the player and `guardDists[i]` its distances
        to the guards. */
    method AlertNearbyCustomers<G(==)>(theftDists: seq<real>, sights: seq<Sight>, radius: real,
                                       guards: seq<G>, guardDists: seq<seq<real>>, hits: seq<seq<Option<G>>>)
      returns (calls: seq<BackupCall<G>>)
      requires |theftDists| == |all| && |sights| == |all| && |guardDists| == |all|
      requires forall i :: 0 <= i < |all| ==> |guardDists[i]| == |guards|
      requires |hits| == |guards|
      ensures forall a, b :: 0 <= a < b < |calls| ==> calls[a].customer < calls[b].customer
      ensures forall i :: 0 <= i < |all| ==>
        (Reports(calls, i) <==> theftDists[i] <= radius && all[i].CanSeePlayer(sights[i]))
      ensures forall a :: 0 <= a < |calls| ==> CallFits(calls[a], |all|, guards, guardDists, hits)
    {
      calls := [];
      var i := 0;
      while i < |all|
        invariant 0 <= i <= |all|
        invariant forall a, b :: 0 <= a < b < |calls| ==> calls[a].customer < calls[b].customer
        invariant forall a :: 0 <= a < |calls| ==> calls[a].customer < i
        invariant forall j :: 0 <= j < i ==>
          (Reports(calls, j) <==> theftDists[j] <= radius && all[j].CanSeePlayer(sights[j]))
        invariant forall a :: 0 <= a < |calls| ==> CallFits(calls[a], |all|, guards, guardDists, hits)
      {
        if theftDists[i] <= radius && all[i].CanSeePlayer(sights[i]) {
          var g, notified := all[i].ReportTheft(guards, guardDists[i], hits);
          var c := BackupCall(i, g, notified);
          assert CallFits(c, |all|, guards, guardDists, hits);
          forall j | 0 <= j <= i
            ensures Reports(calls + [c], j) <==> Reports(calls, j) || j == i
          {
            ReportsAppend(calls, c, j);
          }
          calls := calls + [c];
        } else {
          assert !Reports(calls, i);
        }
        i := i + 1;
      }
    }
  }
}
