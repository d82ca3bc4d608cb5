/** The security guard that extends the base enemy (Enemy/SecurityGuard.cs):
    its faster suspicion rates and the backup call. The overrides are used
    by module Enemies for agents of this kind. */
module EnemySecurityGuard {
  import opened Common
  import opened MachineRequests

  datatype Config = Config(backupCallRadius: real, enhancedGrowth: real, stealthMultiplier: real, theftMultiplier: real)

  const Default := Config(10.0, 0.3, 2.0, 5.0)

  /** OnPlayerSeen's rate (per second): the enhanced rate, times the stealth
      multiplier when the player sneaks and the theft multiplier while
      stealing. No random roll is involved. */
  function SeenRate(c: Config, stealthMode: bool, stealing: bool): (r: real)
    ensures !stealthMode && !stealing ==> r == c.enhancedGrowth
    ensures stealthMode && !stealing ==> r == c.enhancedGrowth * c.stealthMultiplier
    ensures !stealthMode && stealing ==> r == c.enhancedGrowth * c.theftMultiplier
    ensures stealthMode && stealing ==> r == c.enhancedGrowth * c.stealthMultiplier * c.theftMultiplier
  {
    var s := if stealthMode then c.enhancedGrowth * c.stealthMultiplier else c.enhancedGrowth;
    if stealing then s * c.theftMultiplier else s
  }

  /** OnPlayerHeard's chance: half as large again as the base hearing chance. */
  function HeardChance(baseChance: real): (r: real)
    ensures baseChance >= 2.0 / 3.0 ==> r >= 1.0
    ensures baseChance >= 0.0 ==> r >= baseChance
  {
    baseChance * 1.5
  }

  /** OnPlayerHeard's rate (per second). */
  function HeardRate(c: Config): real
  {
    c.enhancedGrowth * 0.7
  }

  /** With the defaults, sneaking doubles the rate instead of lowering it,
      stealing multiplies it by five, and hearing adds 0.21 per second. */
  lemma DefaultRates()
    ensures SeenRate(Default, false, false) == 0.3
    ensures SeenRate(Default, true, false) == 0.6
    ensures SeenRate(Default, false, true) == 1.5
    ensures SeenRate(Default, true, true) == 3.0
    ensures SeenRate(Default, true, false) > SeenRate(Default, false, false)
    ensures HeardRate(Default) == 0.21
  {
  }

  /** Once the base chance reaches 2/3, every roll in [0, 1] succeeds. */
  lemma LoudEnoughAlwaysHeard(baseChance: real, roll: real)
    requires baseChance >= 2.0 / 3.0 && 0.0 <= roll <= 1.0
    ensures roll <= HeardChance(baseChance)
  {
  }

  /** The guards a backup call reaches: every collider in the sphere that
      carries a guard of this kind, except the caller itself, in hit order. */
  function Others<G(==)>(self: G, hits: seq<Option<G>>): (r: seq<G>)
    ensures forall i :: 0 <= i < |r| ==> r[i] != self
    ensures |r| <= |hits|
  {
    if hits == [] then []
    else
      var rest := Others(self, hits[..|hits| - 1]);
      var h := hits[|hits| - 1];
      if h.Some? && h.value != self then rest + [h.value] else rest
  }

  /** Others reaches every other guard exactly as often as it was hit. */
  lemma {:induction false} OthersCounts<G>(self: G, hits: seq<Option<G>>, g: G)
    ensures g == self ==> multiset(Others(self, hits))[g] == 0
    ensures g != self ==> multiset(Others(self, hits))[g] == multiset(hits)[Some(g)]
  {
    if hits != [] {
      var n := |hits|;
      var rest := Others(self, hits[..n - 1]);
      OthersCounts(self, hits[..n - 1], g);
      assert hits == hits[..n - 1] + [hits[n - 1]];
      CountAppend(hits[..n - 1], hits[n - 1], Some(g));
      if hits[n - 1].Some? && hits[n - 1].value != self {
        CountAppend(rest, hits[n - 1].value, g);
      }
    }
  }

  /** Occurrences after appending y: those before, plus one if y is x. */
  lemma CountAppend<T>(s: seq<T>, y: T, x: T)
    ensures multiset(s + [y])[x] == multiset(s)[x] + (if y == x then 1 else 0)
  {
  }

  /** CallForBackup: notifies (OnBackupCalled, which does nothing) every
      other guard among the hits; returns the guards notified. */
  method CallForBackup<G(==)>(self: G, hits: seq<Option<G>>) returns (notified: seq<G>)
    ensures notified == Others(self, hits)
    ensures self !in notified
  {
    notified := [];
    var i := 0;
    while i < |hits|
      invariant 0 <= i <= |hits|
      invariant notified == Others(self, hits[..i])
    {
      assert hits[..i + 1][..i] == hits[..i];
      var h := hits[i];
      if h.Some? && h.value != self {
        notified := notified + [h.value];
      }
      i := i + 1;
    }
    assert hits[..i] == hits;
  }

  /** Distract only forwards the point as the patrol destination, when a
      state machine is attached. */
  function Distract(hasStateMachine: bool, point: Vec3): (r: seq<MachineRequest>)
    ensures |r| <= 1
    ensures hasStateMachine <==> r == [SetPatrolDestination(point)]
  {
    if hasStateMachine then [SetPatrolDestination(point)] else []
  }
}
