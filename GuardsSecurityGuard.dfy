/** The second security guard variant (Enemy/Guards/SecurityGuard.cs). It
    hears like the first variant but never reacts to sight; its attention
    threshold gates only its own OnPlayerSeen, which does nothing anyway,
    and a private CheckForPlayer that the base class never calls. */
module GuardsSecurityGuard {
  import opened Common
  import opened MachineRequests
  import EnemySecurityGuard

  datatype Config = Config(backupCallRadius: real, enhancedGrowth: real, attentionThreshold: real)

  const Default := Config(10.0, 0.3, 0.12)

  /** OnPlayerHeard's rate: the same formula as the first variant. */
  function HeardRate(c: Config): (r: real)
    ensures r == EnemySecurityGuard.HeardRate(EnemySecurityGuard.Config(c.backupCallRadius, c.enhancedGrowth, 0.0, 0.0))
  {
    c.enhancedGrowth * 0.7
  }

  /** Distract is empty: no request reaches the state machine. */
  function Distract(point: Vec3): (r: seq<MachineRequest>)
    ensures forall p :: SetPatrolDestination(p) !in r
  {
    []
  }
}
