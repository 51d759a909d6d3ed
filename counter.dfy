/**
 * The adapter object: the credential it was built with and the gauge
 * registry it writes. Every gauge operation sets one tuple of one gauge to
 * 1 (a failure, breach, timeout, sync alarm or sent notification) or to 0
 * (success, not breached, reset of one tuple); the whole-gauge resets wipe
 * tuples. The query operations are the functions of module `Query` applied
 * to `credential`.
 */
module Metrics {
  import opened Wrappers
  import opened Gauges
  import opened Registry
  import opened Discovery

  class Counter {
    const credential: Credential
    /** The gauges are process-wide: every counter built over one registry shares them. */
    const registry: GaugeRegistry

    /** The registry is well formed, and every notification it holds reads 1. */
    ghost predicate Valid()
      reads registry
    {
      registry.Valid() && NotificationsSent(registry.state)
    }

    constructor (credential: Credential, registry: GaugeRegistry)
      requires registry.Valid() && NotificationsSent(registry.state)
      ensures this.credential == credential && this.registry == registry
      ensures Valid()
    {
      this.credential := credential;
      this.registry := registry;
    }

    method UpdateMetricValidationFailed(upgradeConfigName: string)
      requires Valid()
      modifies registry
      ensures Valid()
      ensures registry.state == SetGauge(old(registry.state), ValidationFailed, [upgradeConfigName], 1)
    {
      WithLabelsOf(ValidationFailed, [upgradeConfigName]);
      assert LabelsOf(ValidationFailed, [upgradeConfigName]) == map[NameLabel := upgradeConfigName];
      registry.Set(ValidationFailed, map[NameLabel := upgradeConfigName], 1);
    }

    method UpdateMetricValidationSucceeded(upgradeConfigName: string)
      requires Valid()
      modifies registry
      ensures Valid()
      ensures registry.state == SetGauge(old(registry.state), ValidationFailed, [upgradeConfigName], 0)
    {
      WithLabelsOf(ValidationFailed, [upgradeConfigName]);
      assert LabelsOf(ValidationFailed, [upgradeConfigName]) == map[NameLabel := upgradeConfigName];
      registry.Set(ValidationFailed, map[NameLabel := upgradeConfigName], 0);
    }

    method UpdateMetricClusterCheckFailed(upgradeConfigName: string)
      requires Valid()
      modifies registry
      ensures Valid()
      ensures registry.state == SetGauge(old(registry.state), ClusterCheckFailed, [upgradeConfigName], 1)
    {
      WithLabelsOf(ClusterCheckFailed, [upgradeConfigName]);
      assert LabelsOf(ClusterCheckFailed, [upgradeConfigName]) == map[NameLabel := upgradeConfigName];
      registry.Set(ClusterCheckFailed, map[NameLabel := upgradeConfigName], 1);
    }

    method UpdateMetricClusterCheckSucceeded(upgradeConfigName: string)
      requires Valid()
      modifies registry
      ensures Valid()
      ensures registry.state == SetGauge(old(registry.state), ClusterCheckFailed, [upgradeConfigName], 0)
    {
      WithLabelsOf(ClusterCheckFailed, [upgradeConfigName]);
      assert LabelsOf(ClusterCheckFailed, [upgradeConfigName]) == map[NameLabel := upgradeConfigName];
      registry.Set(ClusterCheckFailed, map[NameLabel := upgradeConfigName], 0);
    }

    method ResetMetricClusterCheck(upgradeConfigName: string)
      requires Valid()
      modifies registry
      ensures Valid()
      ensures registry.state == SetGauge(old(registry.state), ClusterCheckFailed, [upgradeConfigName], 0)
    {
      WithLabelsOf(ClusterCheckFailed, [upgradeConfigName]);
      assert LabelsOf(ClusterCheckFailed, [upgradeConfigName]) == map[NameLabel := upgradeConfigName];
      registry.Set(ClusterCheckFailed, map[NameLabel := upgradeConfigName], 0);
    }

    method UpdateMetricScalingFailed(upgradeConfigName: string)
      requires Valid()
      modifies registry
      ensures Valid()
      ensures registry.state == SetGauge(old(registry.state), ScalingFailed, [upgradeConfigName], 1)
    {
      WithLabelsOf(ScalingFailed, [upgradeConfigName]);
      assert LabelsOf(ScalingFailed, [upgradeConfigName]) == map[NameLabel := upgradeConfigName];
      registry.Set(ScalingFailed, map[NameLabel := upgradeConfigName], 1);
    }

    method UpdateMetricScalingSucceeded(upgradeConfigName: string)
      requires Valid()
      modifies registry
      ensures Valid()
      ensures registry.state == SetGauge(old(registry.state), ScalingFailed, [upgradeConfigName], 0)
    {
      WithLabelsOf(ScalingFailed, [upgradeConfigName]);
      assert LabelsOf(ScalingFailed, [upgradeConfigName]) == map[NameLabel := upgradeConfigName];
      registry.Set(ScalingFailed, map[NameLabel := upgradeConfigName], 0);
    }

    method ResetMetricScaling(upgradeConfigName: string)
      requires Valid()
      modifies registry
      ensures Valid()
      ensures registry.state == SetGauge(old(registry.state), ScalingFailed, [upgradeConfigName], 0)
    {
      WithLabelsOf(ScalingFailed, [upgradeConfigName]);
      assert LabelsOf(ScalingFailed, [upgradeConfigName]) == map[NameLabel := upgradeConfigName];
      registry.Set(ScalingFailed, map[NameLabel := upgradeConfigName], 0);
    }

    method UpdateMetricUpgradeConfigSynced(name: string)
      requires Valid()
      modifies registry
      ensures Valid()
      ensures registry.state == SetGauge(old(registry.state), UpgradeConfigSynced, [name], 1)
    {
      WithLabelsOf(UpgradeConfigSynced, [name]);
      assert LabelsOf(UpgradeConfigSynced, [name]) == map[NameLabel := name];
      registry.Set(UpgradeConfigSynced, map[NameLabel := name], 1);
    }

    method ResetMetricUpgradeConfigSynced(name: string)
      requires Valid()
      modifies registry
      ensures Valid()
      ensures registry.state == SetGauge(old(registry.state), UpgradeConfigSynced, [name], 0)
    {
      WithLabelsOf(UpgradeConfigSynced, [name]);
      assert LabelsOf(UpgradeConfigSynced, [name]) == map[NameLabel := name];
      registry.Set(UpgradeConfigSynced, map[NameLabel := name], 0);
    }

    method UpdateMetricUpgradeControlPlaneTimeout(upgradeConfigName: string, version: string)
      requires Valid()
      modifies registry
      ensures Valid()
      ensures registry.state == SetGauge(old(registry.state), ControlPlaneTimeout, [upgradeConfigName, version], 1)
    {
      WithLabelsOf(ControlPlaneTimeout, [upgradeConfigName, version]);
      assert LabelsOf(ControlPlaneTimeout, [upgradeConfigName, version]) == map[VersionLabel := version, NameLabel := upgradeConfigName];
      registry.Set(ControlPlaneTimeout, map[VersionLabel := version, NameLabel := upgradeConfigName], 1);
    }

    method ResetMetricUpgradeControlPlaneTimeout(upgradeConfigName: string, version: string)
      requires Valid()
      modifies registry
      ensures Valid()
      ensures registry.state == SetGauge(old(registry.state), ControlPlaneTimeout, [upgradeConfigName, version], 0)
    {
      WithLabelsOf(ControlPlaneTimeout, [upgradeConfigName, version]);
      assert LabelsOf(ControlPlaneTimeout, [upgradeConfigName, version]) == map[VersionLabel := version, NameLabel := upgradeConfigName];
      registry.Set(ControlPlaneTimeout, map[VersionLabel := version, NameLabel := upgradeConfigName], 0);
    }

    method UpdateMetricUpgradeWorkerTimeout(upgradeConfigName: string, version: string)
      requires Valid()
      modifies registry
      ensures Valid()
      ensures registry.state == SetGauge(old(registry.state), WorkerTimeout, [upgradeConfigName, version], 1)
    {
      WithLabelsOf(WorkerTimeout, [upgradeConfigName, version]);
      assert LabelsOf(WorkerTimeout, [upgradeConfigName, version]) == map[VersionLabel := version, NameLabel := upgradeConfigName];
      registry.Set(WorkerTimeout, map[VersionLabel := version, NameLabel := upgradeConfigName], 1);
    }

    method ResetMetricUpgradeWorkerTimeout(upgradeConfigName: string, version: string)
      requires Valid()
      modifies registry
      ensures Valid()
      ensures registry.state == SetGauge(old(registry.state), WorkerTimeout, [upgradeConfigName, version], 0)
    {
      WithLabelsOf(WorkerTimeout, [upgradeConfigName, version]);
      assert LabelsOf(WorkerTimeout, [upgradeConfigName, version]) == map[VersionLabel := version, NameLabel := upgradeConfigName];
      registry.Set(WorkerTimeout, map[VersionLabel := version, NameLabel := upgradeConfigName], 0);
    }

    method UpdateMetricNodeDrainFailed(nodeName: string)
      requires Valid()
      modifies registry
      ensures Valid()
      ensures registry.state == SetGauge(old(registry.state), NodeDrainFailed, [nodeName], 1)
    {
      WithLabelsOf(NodeDrainFailed, [nodeName]);
      assert LabelsOf(NodeDrainFailed, [nodeName]) == map[NodeLabel := nodeName];
      registry.Set(NodeDrainFailed, map[NodeLabel := nodeName], 1);
    }

    method ResetMetricNodeDrainFailed(nodeName: string)
      requires Valid()
      modifies registry
      ensures Valid()
      ensures registry.state == SetGauge(old(registry.state), NodeDrainFailed, [nodeName], 0)
    {
      WithLabelsOf(NodeDrainFailed, [nodeName]);
      assert LabelsOf(NodeDrainFailed, [nodeName]) == map[NodeLabel := nodeName];
      registry.Set(NodeDrainFailed, map[NodeLabel := nodeName], 0);
    }

    method UpdateMetricClusterVerificationFailed(upgradeConfigName: string)
      requires Valid()
      modifies registry
      ensures Valid()
      ensures registry.state == SetGauge(old(registry.state), ClusterVerificationFailed, [upgradeConfigName], 1)
    {
      WithLabelsOf(ClusterVerificationFailed, [upgradeConfigName]);
      assert LabelsOf(ClusterVerificationFailed, [upgradeConfigName]) == map[NameLabel := upgradeConfigName];
      registry.Set(ClusterVerificationFailed, map[NameLabel := upgradeConfigName], 1);
    }

    method UpdateMetricClusterVerificationSucceeded(upgradeConfigName: string)
      requires Valid()
      modifies registry
      ensures Valid()
      ensures registry.state == SetGauge(old(registry.state), ClusterVerificationFailed, [upgradeConfigName], 0)
    {
      WithLabelsOf(ClusterVerificationFailed, [upgradeConfigName]);
      assert LabelsOf(ClusterVerificationFailed, [upgradeConfigName]) == map[NameLabel := upgradeConfigName];
      registry.Set(ClusterVerificationFailed, map[NameLabel := upgradeConfigName], 0);
    }

    method UpdateMetricUpgradeWindowNotBreached(upgradeConfigName: string)
      requires Valid()
      modifies registry
      ensures Valid()
      ensures registry.state == SetGauge(old(registry.state), UpgradeWindowBreached, [upgradeConfigName], 0)
    {
      WithLabelsOf(UpgradeWindowBreached, [upgradeConfigName]);
      assert LabelsOf(UpgradeWindowBreached, [upgradeConfigName]) == map[NameLabel := upgradeConfigName];
      registry.Set(UpgradeWindowBreached, map[NameLabel := upgradeConfigName], 0);
    }

    method UpdateMetricUpgradeWindowBreached(upgradeConfigName: string)
      requires Valid()
      modifies registry
      ensures Valid()
      ensures registry.state == SetGauge(old(registry.state), UpgradeWindowBreached, [upgradeConfigName], 1)
    {
      WithLabelsOf(UpgradeWindowBreached, [upgradeConfigName]);
      assert LabelsOf(UpgradeWindowBreached, [upgradeConfigName]) == map[NameLabel := upgradeConfigName];
      registry.Set(UpgradeWindowBreached, map[NameLabel := upgradeConfigName], 1);
    }

    method UpdateMetricNotificationEventSent(upgradeConfigName: string, event: string, version: string)
      requires Valid()
      modifies registry
      ensures Valid()
      ensures registry.state == SetGauge(old(registry.state), UpgradeNotification, [upgradeConfigName, event, version], 1)
    {
      WithLabelsOf(UpgradeNotification, [upgradeConfigName, event, version]);
      assert LabelsOf(UpgradeNotification, [upgradeConfigName, event, version]) == map[VersionLabel := version, EventLabel := event, NameLabel := upgradeConfigName];
      registry.Set(UpgradeNotification, map[VersionLabel := version, EventLabel := event, NameLabel := upgradeConfigName], 1);
    }

    /** `ResetMetrics`: wipe every gauge of `metricsList`, one after the other. */
    method ResetMetrics()
      requires Valid()
      modifies registry
      ensures Valid()
      ensures registry.state == Empty()
    {
      for i := 0 to |MetricsList|
        invariant registry.Valid() && NotificationsSent(registry.state)
        invariant forall j :: 0 <= j < i ==> registry.state[MetricsList[j]] == map[]
      {
        ResetGaugeKeepsNotificationsSent(registry.state, MetricsList[i]);
        registry.Reset(MetricsList[i]);
      }
      MetricsListExact();
      forall k: MetricKind ensures registry.state[k] == map[] {
        assert k in MetricsList;
        var j :| 0 <= j < |MetricsList| && MetricsList[j] == k;
      }
    }

    /** `ResetAllMetricNodeDrainFailed`: wipe the node-drain gauge only. */
    method ResetAllMetricNodeDrainFailed()
      requires Valid()
      modifies registry
      ensures Valid()
      ensures registry.state == ResetGauge(old(registry.state), NodeDrainFailed)
    {
      registry.Reset(NodeDrainFailed);
    }
  }

  /**
   * `NewClient`: discover the host, then the token; on success a new counter
   * over the shared registry.
   */
  method NewClient(registry: GaugeRegistry, cluster: Cluster) returns (r: Result<Counter, Error>)
    requires registry.Valid() && NotificationsSent(registry.state)
    ensures r.Failure? <==> Credentials(cluster).Failure?
    ensures r.Failure? ==> r.error == Credentials(cluster).error
    ensures r.Success? ==>
      && fresh(r.value)
      && r.value.credential == Credentials(cluster).value
      && r.value.registry == registry
      && r.value.Valid()
  {
    if cluster.route.Failure? {
      return Failure(RouteReadFailed(cluster.route.error));
    }
    var promHost := cluster.route.value;
    var token := GetPrometheusToken(cluster);
    if token.Failure? {
      return Failure(token.error);
    }
    var c := new Counter(Credential(promHost, token.value), registry);
    return Success(c);
  }

  /**
   * Two counters over one registry: a success recorded through one overwrites
   * a failure recorded through the other, and a full reset through either
   * removes the tuple altogether.
   */
  method SharedRegistryScenario(registry: GaugeRegistry, a: Credential, b: Credential)
    requires registry.Valid() && NotificationsSent(registry.state)
    modifies registry
    ensures registry.Valid() && registry.state == Empty()
  {
    var c1 := new Counter(a, registry);
    var c2 := new Counter(b, registry);
    c1.UpdateMetricValidationFailed("uc1");
    assert Value(registry.state, ValidationFailed, ["uc1"]) == Some(1);
    c2.UpdateMetricValidationSucceeded("uc1");
    assert Value(registry.state, ValidationFailed, ["uc1"]) == Some(0);
    c2.UpdateMetricNotificationEventSent("uc1", "started", "4.10.3");
    assert Value(registry.state, UpgradeNotification, ["uc1", "started", "4.10.3"]) == Some(1);
    c1.ResetMetrics();
    assert Value(registry.state, ValidationFailed, ["uc1"]) == None;
  }
}
