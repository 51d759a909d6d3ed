/**
 * The ten labelled gauges of the upgrade operator and their state as values.
 *
 * A gauge vector maps a label tuple (the label values in the order of the
 * gauge's label schema) to its last set value. The adapter only ever sets 0
 * or 1. A tuple that was never set, or that was wiped by a reset of the whole
 * vector, is absent: it is not the same as a tuple set to 0.
 */
module Gauges {
  import opened Wrappers

  // Label names and the metric-name prefix.
  const EventLabel := "event"
  const MetricsTag := "upgradeoperator"
  const NameLabel := "upgradeconfig_name"
  const NodeLabel := "node_name"
  const VersionLabel := "version"

  /** One constructor per gauge vector. */
  datatype MetricKind =
    | ValidationFailed
    | ClusterCheckFailed
    | ScalingFailed
    | ClusterVerificationFailed
    | UpgradeWindowBreached
    | UpgradeConfigSynced
    | ControlPlaneTimeout
    | WorkerTimeout
    | NodeDrainFailed
    | UpgradeNotification

  /** The `Name` of each gauge's options; the name identifies its gauge. */
  function Name(k: MetricKind): (name: string)
    ensures KindOfName(name) == Some(k)
  {
    match k
    case ValidationFailed => "upgradeconfig_validation_failed"
    case ClusterCheckFailed => "cluster_check_failed"
    case ScalingFailed => "scaling_failed"
    case ClusterVerificationFailed => "cluster_verification_failed"
    case UpgradeWindowBreached => "upgrade_window_breached"
    case UpgradeConfigSynced => "upgradeconfig_synced"
    case ControlPlaneTimeout => "controlplane_timeout"
    case WorkerTimeout => "worker_timeout"
    case NodeDrainFailed => "node_drain_timeout"
    case UpgradeNotification => "upgrade_notification"
  }

  /**
   * The exported metric name: the options set the subsystem to the metrics
   * tag and leave the namespace empty, so the name is `<tag>_<name>`.
   */
  function FullName(k: MetricKind): (name: string)
    ensures |name| > |MetricsTag| + 1
    ensures name[..|MetricsTag| + 1] == MetricsTag + "_" && KindOfName(name[|MetricsTag| + 1..]) == Some(k)
  {
    var name := MetricsTag + "_" + Name(k);
    assert name[|MetricsTag| + 1..] == Name(k);
    name
  }

  /**
   * The ordered label schema of each gauge: the node gauge is labelled by
   * node name, every other gauge first by upgrade config name; the two
   * timeout gauges and the notification gauge add the version, and the
   * notification gauge alone has the event, between the two.
   */
  function Schema(k: MetricKind): (labels: seq<string>)
    ensures |labels| >= 1 && labels[0] == (if k == NodeDrainFailed then NodeLabel else NameLabel)
    ensures forall i :: 0 <= i < |labels| ==> labels[i] in [NameLabel, EventLabel, VersionLabel, NodeLabel]
    ensures EventLabel in labels <==> k == UpgradeNotification
    ensures VersionLabel in labels <==> k in [ControlPlaneTimeout, WorkerTimeout, UpgradeNotification]
    ensures VersionLabel in labels ==> labels[|labels| - 1] == VersionLabel
  {
    match k
    case ControlPlaneTimeout => [NameLabel, VersionLabel]
    case WorkerTimeout => [NameLabel, VersionLabel]
    case NodeDrainFailed => [NodeLabel]
    case UpgradeNotification => [NameLabel, EventLabel, VersionLabel]
    case _ => [NameLabel]
  }

  /** The gauge a `Name` belongs to, if any. */
  function KindOfName(name: string): Option<MetricKind>
  {
    if name == "upgradeconfig_validation_failed" then Some(ValidationFailed)
    else if name == "cluster_check_failed" then Some(ClusterCheckFailed)
    else if name == "scaling_failed" then Some(ScalingFailed)
    else if name == "cluster_verification_failed" then Some(ClusterVerificationFailed)
    else if name == "upgrade_window_breached" then Some(UpgradeWindowBreached)
    else if name == "upgradeconfig_synced" then Some(UpgradeConfigSynced)
    else if name == "controlplane_timeout" then Some(ControlPlaneTimeout)
    else if name == "worker_timeout" then Some(WorkerTimeout)
    else if name == "node_drain_timeout" then Some(NodeDrainFailed)
    else if name == "upgrade_notification" then Some(UpgradeNotification)
    else None
  }

  /** `metricsList`: every gauge, in declaration order. */
  const MetricsList: seq<MetricKind> := [
    ValidationFailed, ClusterCheckFailed, ScalingFailed, ClusterVerificationFailed,
    UpgradeWindowBreached, UpgradeConfigSynced, ControlPlaneTimeout, WorkerTimeout,
    NodeDrainFailed, UpgradeNotification]

  /** `metricsList` holds every gauge exactly once. */
  lemma MetricsListExact()
    ensures forall k: MetricKind :: k in MetricsList
    ensures |MetricsList| == 10
    ensures forall i, j :: 0 <= i < j < |MetricsList| ==> MetricsList[i] != MetricsList[j]
  {
    forall k: MetricKind ensures k in MetricsList {
      match k
      case ValidationFailed => assert MetricsList[0] == k;
      case ClusterCheckFailed => assert MetricsList[1] == k;
      case ScalingFailed => assert MetricsList[2] == k;
      case ClusterVerificationFailed => assert MetricsList[3] == k;
      case UpgradeWindowBreached => assert MetricsList[4] == k;
      case UpgradeConfigSynced => assert MetricsList[5] == k;
      case ControlPlaneTimeout => assert MetricsList[6] == k;
      case WorkerTimeout => assert MetricsList[7] == k;
      case NodeDrainFailed => assert MetricsList[8] == k;
      case UpgradeNotification => assert MetricsList[9] == k;
    }
  }

  /** No two gauges share an exported name, so registering all of them cannot collide. */
  lemma FullNamesDistinct(k1: MetricKind, k2: MetricKind)
    requires FullName(k1) == FullName(k2)
    ensures k1 == k2
  {
    assert Some(k1) == KindOfName(FullName(k1)[|MetricsTag| + 1..]);
  }

  /** The distinct-labels property every schema has. */
  lemma SchemaDistinct(k: MetricKind)
    ensures forall i, j :: 0 <= i < j < |Schema(k)| ==> Schema(k)[i] != Schema(k)[j]
  {
  }

  /**
   * `GaugeVec.With(labels)`: the label tuple a label map selects, in schema
   * order; `None` where the library would panic because the label names are
   * not exactly the schema's.
   */
  function With(k: MetricKind, labels: map<string, string>): (t: Option<seq<string>>)
    ensures t.Some? <==> labels.Keys == set l | l in Schema(k)
    ensures t.Some? ==> |t.value| == |Schema(k)| && LabelsOf(k, t.value) == labels
  {
    if labels.Keys == set l | l in Schema(k) then
      var t := seq(|Schema(k)|, i requires 0 <= i < |Schema(k)| => labels[Schema(k)[i]]);
      LabelsOfWith(k, labels, t);
      Some(t)
    else None
  }

  /** The label map of a tuple: the schema's i-th label name maps to the tuple's i-th value. */
  function LabelsOf(k: MetricKind, t: seq<string>): (labels: map<string, string>)
    requires |t| == |Schema(k)|
    ensures labels.Keys == set l | l in Schema(k)
  {
    map i | 0 <= i < |t| :: Schema(k)[i] := t[i]
  }

  lemma LabelsOfWith(k: MetricKind, labels: map<string, string>, t: seq<string>)
    requires labels.Keys == set l | l in Schema(k)
    requires |t| == |Schema(k)|
    requires forall i :: 0 <= i < |t| ==> t[i] == labels[Schema(k)[i]]
    ensures LabelsOf(k, t) == labels
  {
    var m := LabelsOf(k, t);
    forall l | l in m ensures m[l] == labels[l] {
      var i :| 0 <= i < |t| && Schema(k)[i] == l;
      SchemaDistinct(k);
    }
  }

  /** The tuple's i-th value is found under the schema's i-th label name. */
  lemma LabelsOfAt(k: MetricKind, t: seq<string>, i: nat)
    requires |t| == |Schema(k)| && i < |t|
    ensures Schema(k)[i] in LabelsOf(k, t) && LabelsOf(k, t)[Schema(k)[i]] == t[i]
  {
    SchemaDistinct(k);
  }

  /** Building the label map of a tuple and passing it to `With` gives the tuple back. */
  lemma WithLabelsOf(k: MetricKind, t: seq<string>)
    requires |t| == |Schema(k)|
    ensures With(k, LabelsOf(k, t)) == Some(t)
  {
    var r := With(k, LabelsOf(k, t));
    assert r.Some?;
    var w := r.value;
    assert LabelsOf(k, w) == LabelsOf(k, t);
    forall i | 0 <= i < |t| ensures w[i] == t[i] {
      LabelsOfAt(k, w, i);
      LabelsOfAt(k, t, i);
    }
    assert w == t;
  }

  /** The state of every gauge vector: label tuple to last set value. */
  type Series = map<seq<string>, int>
  type State = map<MetricKind, Series>

  /** Every gauge is present, every tuple fits its schema, every value is 0 or 1. */
  ghost predicate Valid(g: State)
  {
    && (forall k: MetricKind :: k in g)
    && (forall k, t | k in g && t in g[k] :: |t| == |Schema(k)| && (g[k][t] == 0 || g[k][t] == 1))
  }

  /** What the registry shows for one tuple of one gauge: its value, or `None` if absent. */
  function Value(g: State, k: MetricKind, t: seq<string>): Option<int>
    requires Valid(g)
  {
    if t in g[k] then Some(g[k][t]) else None
  }

  /** The registry at process start: every gauge registered, no tuple present. */
  function Empty(): (g: State)
    ensures Valid(g)
    ensures forall k: MetricKind :: k in g && g[k] == map[]
  {
    MetricsListExact();
    map k | k in MetricsList :: map[]
  }

  /** `With(labels).Set(v)`: one tuple of one gauge becomes `v` and is present. */
  function SetGauge(g: State, k: MetricKind, t: seq<string>, v: int): (g': State)
    requires Valid(g)
    requires |t| == |Schema(k)|
    requires v == 0 || v == 1
    ensures Valid(g')
    ensures Value(g', k, t) == Some(v)
    ensures forall k', t' | k' != k || t' != t :: Value(g', k', t') == Value(g, k', t')
  {
    g[k := g[k][t := v]]
  }

  /** `GaugeVec.Reset()`: every tuple of one gauge is removed; the other gauges are unchanged. */
  function ResetGauge(g: State, k: MetricKind): (g': State)
    requires Valid(g)
    ensures Valid(g')
    ensures forall t :: Value(g', k, t) == None
    ensures forall k' | k' != k :: g'[k'] == g[k']
  {
    g[k := map[]]
  }

  /** Of two sets of the same tuple, the later one decides the state. */
  lemma LastSetWins(g: State, k: MetricKind, t: seq<string>, v1: int, v2: int)
    requires Valid(g)
    requires |t| == |Schema(k)|
    requires v1 == 0 || v1 == 1
    requires v2 == 0 || v2 == 1
    ensures SetGauge(SetGauge(g, k, t, v1), k, t, v2) == SetGauge(g, k, t, v2)
  {
    assert g[k][t := v1][t := v2] == g[k][t := v2];
  }

  /** Failed-then-succeeded leaves the tuple present at 0; the reverse order leaves it at 1. */
  lemma FailedThenSucceeded(g: State, k: MetricKind, t: seq<string>)
    requires Valid(g)
    requires |t| == |Schema(k)|
    ensures Value(SetGauge(SetGauge(g, k, t, 1), k, t, 0), k, t) == Some(0)
    ensures Value(SetGauge(SetGauge(g, k, t, 0), k, t, 1), k, t) == Some(1)
  {
  }

  /** Setting a tuple to 0 keeps it present; resetting the gauge removes it. */
  lemma SetZeroIsNotReset(g: State, k: MetricKind, t: seq<string>)
    requires Valid(g)
    requires |t| == |Schema(k)|
    ensures Value(SetGauge(g, k, t, 0), k, t) == Some(0)
    ensures Value(ResetGauge(g, k), k, t) == None
    ensures SetGauge(g, k, t, 0) != ResetGauge(g, k)
  {
    assert Value(SetGauge(g, k, t, 0), k, t) != Value(ResetGauge(g, k), k, t);
  }

  /** Every present notification tuple holds 1: no operation clears a single notification. */
  ghost predicate NotificationsSent(g: State)
    requires Valid(g)
  {
    forall t | t in g[UpgradeNotification] :: g[UpgradeNotification][t] == 1
  }

  /** Setting a tuple keeps `NotificationsSent` unless it writes 0 to the notification gauge. */
  lemma SetGaugeKeepsNotificationsSent(g: State, k: MetricKind, t: seq<string>, v: int)
    requires Valid(g) && NotificationsSent(g)
    requires |t| == |Schema(k)|
    requires v == 0 || v == 1
    requires k == UpgradeNotification ==> v == 1
    ensures NotificationsSent(SetGauge(g, k, t, v))
  {
    var g' := SetGauge(g, k, t, v);
    forall t' | t' in g'[UpgradeNotification] ensures g'[UpgradeNotification][t'] == 1 {
      assert Value(g', UpgradeNotification, t') == Some(g'[UpgradeNotification][t']);
      if k != UpgradeNotification || t' != t {
        assert Value(g', UpgradeNotification, t') == Value(g, UpgradeNotification, t');
      }
    }
  }

  /** Writing 0 to a notification tuple would break `NotificationsSent`. */
  lemma ClearingANotificationBreaksIt(g: State, t: seq<string>)
    requires Valid(g)
    requires |t| == |Schema(UpgradeNotification)|
    ensures !NotificationsSent(SetGauge(g, UpgradeNotification, t, 0))
  {
    var g' := SetGauge(g, UpgradeNotification, t, 0);
    assert Value(g', UpgradeNotification, t) == Some(0);
  }

  /** Wiping any gauge keeps `NotificationsSent`. */
  lemma ResetGaugeKeepsNotificationsSent(g: State, k: MetricKind)
    requires Valid(g) && NotificationsSent(g)
    ensures NotificationsSent(ResetGauge(g, k))
  {
  }
}
