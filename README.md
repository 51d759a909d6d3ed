# Upgrade-metrics adapter of the managed upgrade operator, in Dafny

This project models the metrics adapter of the managed upgrade operator
(`pkg/metrics/metrics.go`): the ten labelled gauges that record upgrade-step
outcomes, the three monitoring queries that answer "is this alert firing?",
"was this notification already sent?" and "is the cluster at version V?", and
the discovery of the monitoring host and bearer token.

Modules, one per part of the adapter:

- `Gauges` (gauges.dfy): the gauge kinds, their exported names and label
  schemas, `metricsList`, `GaugeVec.With` on a label map, and the registry
  state as a value (`map<MetricKind, map<seq<string>, int>>`) with the
  functions `SetGauge` (set one tuple, which stays present) and `ResetGauge`
  (wipe a gauge). Setting a tuple to 0 and wiping it are different states.
- `Registry` (registry.dfy): the process-wide gauge vectors as one class,
  `GaugeRegistry`, updated in place.
- `Metrics` (counter.dfy): the `Counter` class with every `Update*`/`Reset*`
  method, `ResetMetrics` (a loop over `metricsList`),
  `ResetAllMetricNodeDrainFailed`, and `NewClient`. Counters hold a reference to
  the shared registry, as the Go methods all write the same package-level
  gauges; `Counter.Valid` also keeps "every present notification tuple
  reads 1", which holds because no operation writes 0 to that gauge.
- `Discovery` (discovery.dfy): the cluster reads as a `Cluster` value, the
  token-secret scan in `GetPrometheusToken` (a loop that keeps the LAST name
  with the prefix `prometheus-k8s-token`, with no early exit), and the
  specification functions `LastTokenSecret`, `TokenFor` and `Credentials`.
- `Promql` (promql.dfy): the three query templates exactly as formatted in
  the source, each proved to be a general selector text
  `metric{name op "value",...}`, the meaning of equality and inequality
  matchers, and what the unescaped values do to the notification query's text.
- `Query` (query.dfy): the request a query sends (URL `https://<host>/api/v1/query`,
  header `Authorization: Bearer <token>` as in section 2.1 of RFC 6750), the
  decoded response shapes, the reduction to `(bool, error)`, and the three
  `Is*` operations.
- `Strings` (strings.dfy): Go's `strings.HasPrefix`, `strings.Join`, and
  `strings.Split` as the partner of `Join`.

Two facts of the code that the model states as written:

- Exported names: the gauges set `Subsystem: "upgradeoperator"` and no
  `Namespace`, so every exported name is `upgradeoperator_<name>`
  (for example `upgradeoperator_upgrade_notification`, the name the
  notification query uses). The `Namespace`/`Subsystem` constants
  (`upgradeoperator`/`upgrade`) are not used by the gauges.
- Discovery errors: no read distinguishes "not found" from other read
  failures. The route's read error is returned unchanged
  (pkg/metrics/metrics.go:84-87, 363-366); the service-account and secret
  read errors are wrapped into new error texts by `fmt.Errorf` with `%s`
  (pkg/metrics/metrics.go:403-405, 419-421), so only their text survives.
  The model carries each cause as a string inside the constructor of its
  error kind.

Behaviour of the namespace filter in `IsAlertFiring`, preserved as written
and stated as lemmas: with one ignored namespace the `!=` matcher excludes
exactly that namespace; with two or more, the operand is the pipe-joined list,
which equals none of them, so none is excluded
(`MultipleIgnoredNamespacesNotExcluded`); with none, the operand is empty and
`namespace!=""` drops every alert that has no namespace label
(`NoIgnoredNamespacesRejectsUnnamespaced`).

## Model

| member | source | states |
|---|---|---|
| Strings.SplitJoin | pkg/metrics/metrics.go:348-349 | Splitting a pipe-joined non-empty list whose parts contain no pipe gives the list back, so the joined namespace operands carry exactly the given namespaces in order |
| Strings.JoinContainsSeparator | pkg/metrics/metrics.go:349 | Two or more parts joined with a separator contain the separator |
| Gauges.MetricsListExact | pkg/metrics/metrics.go:173-184 | `metricsList` holds each of the ten gauges exactly once |
| Gauges.Name | pkg/metrics/metrics.go:121-171 | Each gauge's `Name` identifies it: `KindOfName`, an independent table from name to gauge, maps it back to that gauge |
| Gauges.FullName | pkg/metrics/metrics.go:121-171 | The exported name is `upgradeoperator_` followed by a name that identifies the gauge (subsystem set, no namespace) |
| Gauges.FullNamesDistinct | pkg/metrics/metrics.go:121-171 | No two gauges share an exported name (`upgradeoperator_<name>`), so registering all of them cannot collide |
| Gauges.Schema | pkg/metrics/metrics.go:121-171 | The node gauge is labelled by node name, every other by upgrade config name first; only the two timeout gauges and the notification gauge carry the version, last; only the notification gauge carries the event |
| Gauges.SchemaDistinct | pkg/metrics/metrics.go:121-171 | No schema repeats a label name |
| Gauges.With | pkg/metrics/metrics.go:194-196 | A label map selects a tuple exactly when its label names are the gauge's schema; the tuple lists the values in schema order, whatever order the map was written in |
| Gauges.WithLabelsOf | pkg/metrics/metrics.go:250-252 | The label map built from a tuple selects that same tuple (round trip with `LabelsOf`) |
| Gauges.Empty | pkg/metrics/metrics.go:121-171 | At registration every gauge is present and holds no tuple |
| Gauges.SetGauge | pkg/metrics/metrics.go:194-196 | `With(labels).Set(v)`: the tuple becomes present with value v; every other tuple of every gauge keeps its value or absence |
| Gauges.ResetGauge | pkg/metrics/metrics.go:443-451 | Resetting one gauge removes all its tuples; every other gauge is unchanged |
| Gauges.LastSetWins | pkg/metrics/metrics.go:193-319 | Two sets of one tuple in a row have the effect of the second alone |
| Gauges.FailedThenSucceeded | pkg/metrics/metrics.go:193-203 | Failed then succeeded leaves the tuple present at 0; the reverse order leaves it at 1 |
| Gauges.SetZeroIsNotReset | pkg/metrics/metrics.go:199-203 | Setting a tuple to 0 keeps it present, a reset removes it; the two states differ |
| Gauges.SetGaugeKeepsNotificationsSent | pkg/metrics/metrics.go:313-319 | Only 1 is ever written to the notification gauge, so every present notification tuple reads 1 |
| Gauges.ClearingANotificationBreaksIt | pkg/metrics/metrics.go:313-319 | Writing 0 to a notification tuple would break that invariant (the source has no such operation) |
| Gauges.ResetGaugeKeepsNotificationsSent | pkg/metrics/metrics.go:443-451 | Wiping any gauge keeps every present notification tuple at 1 |
| Registry.GaugeRegistry.constructor | pkg/metrics/metrics.go:121-191 | The process-wide registry starts with all ten gauges and no tuples |
| Registry.GaugeRegistry.Set | pkg/metrics/metrics.go:194-196 | `gauge.With(labels).Set(v)` changes the state exactly as `SetGauge` of the selected tuple |
| Registry.GaugeRegistry.Reset | pkg/metrics/metrics.go:445 | `gauge.Reset()` changes the state exactly as `ResetGauge` |
| Metrics.Counter.constructor | pkg/metrics/metrics.go:94-101 | A counter holds its credential and the shared registry, and is valid whenever the registry is |
| Metrics.Counter.UpdateMetricValidationFailed | pkg/metrics/metrics.go:193-197 | Sets tuple [upgradeConfigName] of the `ValidationFailed` gauge to 1 and keeps it present; every other tuple of every gauge is unchanged |
| Metrics.Counter.UpdateMetricValidationSucceeded | pkg/metrics/metrics.go:199-203 | Sets tuple [upgradeConfigName] of the `ValidationFailed` gauge to 0 and keeps it present; every other tuple of every gauge is unchanged |
| Metrics.Counter.UpdateMetricClusterCheckFailed | pkg/metrics/metrics.go:205-209 | Sets tuple [upgradeConfigName] of the `ClusterCheckFailed` gauge to 1 and keeps it present; every other tuple of every gauge is unchanged |
| Metrics.Counter.UpdateMetricClusterCheckSucceeded | pkg/metrics/metrics.go:211-215 | Sets tuple [upgradeConfigName] of the `ClusterCheckFailed` gauge to 0 and keeps it present; every other tuple of every gauge is unchanged |
| Metrics.Counter.ResetMetricClusterCheck | pkg/metrics/metrics.go:217-221 | Sets tuple [upgradeConfigName] of the `ClusterCheckFailed` gauge to 0 and keeps it present; every other tuple of every gauge is unchanged; the same new state as `UpdateMetricClusterCheckSucceeded` |
| Metrics.Counter.UpdateMetricScalingFailed | pkg/metrics/metrics.go:223-227 | Sets tuple [upgradeConfigName] of the `ScalingFailed` gauge to 1 and keeps it present; every other tuple of every gauge is unchanged |
| Metrics.Counter.UpdateMetricScalingSucceeded | pkg/metrics/metrics.go:229-233 | Sets tuple [upgradeConfigName] of the `ScalingFailed` gauge to 0 and keeps it present; every other tuple of every gauge is unchanged |
| Metrics.Counter.ResetMetricScaling | pkg/metrics/metrics.go:235-239 | Sets tuple [upgradeConfigName] of the `ScalingFailed` gauge to 0 and keeps it present; every other tuple of every gauge is unchanged; the same new state as `UpdateMetricScalingSucceeded` |
| Metrics.Counter.UpdateMetricUpgradeConfigSynced | pkg/metrics/metrics.go:241-243 | Sets tuple [name] of the `UpgradeConfigSynced` gauge to 1 and keeps it present; every other tuple of every gauge is unchanged |
| Metrics.Counter.ResetMetricUpgradeConfigSynced | pkg/metrics/metrics.go:245-247 | Sets tuple [name] of the `UpgradeConfigSynced` gauge to 0 and keeps it present; every other tuple of every gauge is unchanged |
| Metrics.Counter.UpdateMetricUpgradeControlPlaneTimeout | pkg/metrics/metrics.go:249-254 | Sets tuple [upgradeConfigName, version] of the `ControlPlaneTimeout` gauge to 1 and keeps it present; every other tuple of every gauge is unchanged; labels given out of schema order land in schema order |
| Metrics.Counter.ResetMetricUpgradeControlPlaneTimeout | pkg/metrics/metrics.go:256-261 | Sets tuple [upgradeConfigName, version] of the `ControlPlaneTimeout` gauge to 0 and keeps it present; every other tuple of every gauge is unchanged; labels given out of schema order land in schema order |
| Metrics.Counter.UpdateMetricUpgradeWorkerTimeout | pkg/metrics/metrics.go:263-268 | Sets tuple [upgradeConfigName, version] of the `WorkerTimeout` gauge to 1 and keeps it present; every other tuple of every gauge is unchanged; labels given out of schema order land in schema order |
| Metrics.Counter.ResetMetricUpgradeWorkerTimeout | pkg/metrics/metrics.go:270-275 | Sets tuple [upgradeConfigName, version] of the `WorkerTimeout` gauge to 0 and keeps it present; every other tuple of every gauge is unchanged; labels given out of schema order land in schema order |
| Metrics.Counter.UpdateMetricNodeDrainFailed | pkg/metrics/metrics.go:277-281 | Sets tuple [nodeName] of the `NodeDrainFailed` gauge to 1 and keeps it present; every other tuple of every gauge is unchanged |
| Metrics.Counter.ResetMetricNodeDrainFailed | pkg/metrics/metrics.go:283-287 | Sets tuple [nodeName] of the `NodeDrainFailed` gauge to 0 and keeps it present; every other tuple of every gauge is unchanged |
| Metrics.Counter.UpdateMetricClusterVerificationFailed | pkg/metrics/metrics.go:289-293 | Sets tuple [upgradeConfigName] of the `ClusterVerificationFailed` gauge to 1 and keeps it present; every other tuple of every gauge is unchanged |
| Metrics.Counter.UpdateMetricClusterVerificationSucceeded | pkg/metrics/metrics.go:295-299 | Sets tuple [upgradeConfigName] of the `ClusterVerificationFailed` gauge to 0 and keeps it present; every other tuple of every gauge is unchanged |
| Metrics.Counter.UpdateMetricUpgradeWindowNotBreached | pkg/metrics/metrics.go:301-305 | Sets tuple [upgradeConfigName] of the `UpgradeWindowBreached` gauge to 0 and keeps it present; every other tuple of every gauge is unchanged |
| Metrics.Counter.UpdateMetricUpgradeWindowBreached | pkg/metrics/metrics.go:307-311 | Sets tuple [upgradeConfigName] of the `UpgradeWindowBreached` gauge to 1 and keeps it present; every other tuple of every gauge is unchanged |
| Metrics.Counter.UpdateMetricNotificationEventSent | pkg/metrics/metrics.go:313-319 | Sets tuple [upgradeConfigName, event, version] of the `UpgradeNotification` gauge to 1 and keeps it present; every other tuple of every gauge is unchanged; the tuple is the one the notification query selects (`NotificationQuerySelectsSentTuple`) |
| Metrics.Counter.ResetMetrics | pkg/metrics/metrics.go:443-447 | After the loop over `metricsList` every one of the ten gauges has no tuples |
| Metrics.Counter.ResetAllMetricNodeDrainFailed | pkg/metrics/metrics.go:449-451 | The node-drain gauge has no tuples; the other nine gauges are unchanged |
| Metrics.SharedRegistryScenario | pkg/metrics/metrics.go:193-203 | Two counters over one registry share its gauges: failed through one then succeeded through the other reads 0, and `ResetMetrics` through either leaves every gauge empty |
| Metrics.NewClient | pkg/metrics/metrics.go:83-102 | Fails with the route error, else the token error; otherwise a new, valid counter with the discovered host and token over the shared registry |
| Discovery.LastTokenSecret | pkg/metrics/metrics.go:407-412 | The selected name is the last one with prefix `prometheus-k8s-token`; `None` exactly when no name has the prefix |
| Discovery.SelectedNameNonEmpty | pkg/metrics/metrics.go:413-415 | A selected name is at least as long as the prefix, so the emptiness test after the loop means "nothing matched" |
| Discovery.GetPrometheusToken | pkg/metrics/metrics.go:400-427 | The scan without early exit keeps the last prefixed name; the result is the service-account error, `TokenSecretNotFound`, the secret-read error, or the secret's token |
| Discovery.TokenSecretNotFoundIff | pkg/metrics/metrics.go:407-415 | With a readable service account, discovery fails with `TokenSecretNotFound` iff no secret name has the prefix |
| Discovery.TokenComesFromLastPrefixedSecret | pkg/metrics/metrics.go:417-426 | On success the token is the `token` entry of the last prefixed secret, whose name is non-empty and starts with the prefix |
| Discovery.EmptyTokenPassedThrough | pkg/metrics/metrics.go:423-426 | An empty token, or a secret without the `token` key, gives the empty token, not an error |
| Discovery.TokenField | pkg/metrics/metrics.go:423-424 | The token is the value under the `token` key; a missing key reads as the empty token, and the token is empty exactly when the key is missing or its value is empty |
| Discovery.TokenFor | pkg/metrics/metrics.go:400-427 | A service-account read error is reported first; a secret read error names the selected secret and carries that read's error; a token comes from the selected secret's data |
| Discovery.Credentials | pkg/metrics/metrics.go:83-91 | Succeeds exactly when the route read and token discovery both succeed, with the route's host and the discovered token; a route error is reported as such, otherwise the token's error |
| Discovery.RouteErrorFirst | pkg/metrics/metrics.go:84-87 | A route read error is reported before any token error |
| Discovery.SelectionExamples | pkg/metrics/metrics.go:407-415 | ["prometheus-k8s-token-abc123", "other-secret"] selects the first name; of two prefixed names the later is selected; no prefixed name selects nothing |
| Promql.NotificationMatchers | pkg/metrics/metrics.go:322 | The notification query's matchers are one equality per label of the notification gauge's schema, in schema order, comparing against upgrade config name, event and version in that order |
| Promql.NotificationQuery | pkg/metrics/metrics.go:322 | The formatted query is the selector over the notification gauge's exported name with the equality matchers `NotificationMatchers` |
| Promql.NotificationQueryDeterminesValues | pkg/metrics/metrics.go:322 | For values without a double quote, two notification queries are the same text exactly when their three values are the same |
| Promql.NotificationQueryCollision | pkg/metrics/metrics.go:322 | The values are formatted unescaped: moving `",event="` plus text from the event into the config name gives the same query text for a different triple |
| Promql.NotificationQuerySelectsSentTuple | pkg/metrics/metrics.go:313-322 | Among all series of all gauges the notification query selects exactly the tuple `UpdateMetricNotificationEventSent` writes with the same arguments |
| Promql.ClusterVersionQuery | pkg/metrics/metrics.go:335 | The formatted query is the selector `cluster_version{version="v",type="current"}` |
| Promql.ClusterVersionQueryExample | pkg/metrics/metrics.go:335 | Version 4.10.3 gives exactly `cluster_version{version="4.10.3",type="current"}` |
| Promql.AlertQuery | pkg/metrics/metrics.go:348-349 | The formatted query is the `ALERTS` selector with alertstate, alertname, a namespace regular expression `^$` and the pipe-joined checked namespaces and a namespace inequality against join(ignored) |
| Promql.AlertQueryExample | pkg/metrics/metrics.go:348-349 | ("ClusterOperatorDown", [ns-a], [ns-b]) gives exactly the expected `ALERTS{...}` string |
| Promql.IncludedNamespaceAlternatives | pkg/metrics/metrics.go:348-349 | The namespace regular expression is the alternation of `^$` and each checked namespace, in order; with no checked namespace it is `^$` and an empty alternative |
| Promql.SingleIgnoredNamespaceExcluded | pkg/metrics/metrics.go:348-349 | With one ignored namespace the inequality rejects exactly the series in that namespace |
| Promql.MultipleIgnoredNamespacesNotExcluded | pkg/metrics/metrics.go:348-349 | With two or more ignored namespaces the operand contains the pipe character and a series in any ignored namespace passes the inequality |
| Promql.NoIgnoredNamespacesRejectsUnnamespaced | pkg/metrics/metrics.go:348-349 | With no ignored namespaces the inequality `namespace!=""` rejects every alert without a namespace label |
| Query.QueryUrl | pkg/metrics/metrics.go:372 | The query URL is `https://`, then the host, then `/api/v1/query` |
| Query.BearerHeader | pkg/metrics/metrics.go:109 | The Authorization value starts with `Bearer ` and the rest is exactly the token |
| Query.HostOfUrl | pkg/metrics/metrics.go:372 | Recovers the host from a query URL; whatever it returns rebuilds the URL |
| Query.TokenOfHeader | pkg/metrics/metrics.go:109 | Recovers the token from a bearer Authorization value; whatever it returns rebuilds the value |
| Query.UrlRoundTrip | pkg/metrics/metrics.go:372 | `https://` + host + `/api/v1/query` yields the host back, for every host |
| Query.HeaderRoundTrip | pkg/metrics/metrics.go:109 | `Bearer ` + token yields the token back, for every token including the empty one |
| Query.NewRequest | pkg/metrics/metrics.go:371-379 | The request carries exactly the credential's host in the query URL, the credential's token in the bearer header, and the query text |
| Query.Query | pkg/metrics/metrics.go:371-398 | One round trip: the answer is the transport's answer to the request carrying the credential's host, its token and the query text |
| Query.Reduce | pkg/metrics/metrics.go:323-331 | An error gives `(false, err)`; otherwise `(true, nil)` iff the result sequence is non-empty and `(false, nil)` if it is empty |
| Query.IsMetricNotificationEventSentSet | pkg/metrics/metrics.go:321-332 | The notification query is sent; error wins as `(false, err)`, else true iff the result sequence is non-empty |
| Query.IsClusterVersionAtVersion | pkg/metrics/metrics.go:334-345 | The cluster-version query is sent; error wins as `(false, err)`, else true iff the result sequence is non-empty |
| Query.IsAlertFiring | pkg/metrics/metrics.go:347-359 | The alert query is sent; error wins as `(false, err)`, else true iff the result sequence is non-empty |
| Query.OnlyResultCountMatters | pkg/metrics/metrics.go:429-441 | Status and sample values are never read: responses with equally (non-)empty result sequences give the same answer |

## Left out

- HTTP transport: the `http.Client`, the round tripper's `http.Transport` with its 5-second TLS-handshake timeout, request execution and body reading (pkg/metrics/metrics.go:104-114, 380-389) are network I/O; a `Transport` parameter maps the request to the decoded response or an error. The missing overall request deadline is therefore not modelled either.
- `http.NewRequest` failing on a malformed URL (pkg/metrics/metrics.go:372-375) is library behaviour; that error reaches the caller through the `Transport` error.
- URL query encoding (`q.Encode()`) and JSON decoding (`json.Unmarshal`) are library code; the request carries the raw query text and the transport returns the decoded `AlertResponse`.
- The Kubernetes reads of the route, the service account and the secret are foreign calls; `Cluster` carries what each returns. Bytes of the secret data are taken as characters one for one.
- Error texts built with `fmt.Errorf` are not reproduced; each error kind is a constructor carrying the underlying cause.
- `init` with `MustRegister` and the exporting of metrics are process-wide library wiring; the registry constructor starts with all ten gauges, and `FullNamesDistinct` shows registration cannot collide.
- Gauge values are `float64` in the source; only 0 and 1 are ever written, so they are integers here.
- The thread safety of `GaugeVec` is about concurrency, which the model does not cover; operations are sequential.
- Promql.NotificationQuerySelectsSentTuple: speaks of the matcher list, not of the text sent. The source formats the three values unescaped (pkg/metrics/metrics.go:322; likewise 335 and 348-349), so a value holding `"` can make two triples produce one text (`NotificationQueryCollision`); for values without `"` the text determines the values (`NotificationQueryDeterminesValues`). How the backend reads a `\` escape inside a quoted value is not modelled.
- Registry.GaugeRegistry.Set: requires the label names to be exactly the gauge's schema. `GaugeVec.With` panics otherwise; that panic is not modelled. Every operation of `Counter` passes a map whose names are the schema, so no call in the model reaches it.
- The scraping of this process's gauges by the monitoring backend is outside the adapter; `NotificationQuerySelectsSentTuple` relates the query's labels to the written tuple, not the backend's answer.
- The regular-expression matcher `=~` is not given a matching semantics; `IncludedNamespaceAlternatives` states only its alternatives.
- `NewBuilder`/`MetricsBuilder` and the `Metrics` interface are declarations without logic; `NewClient` is modelled directly.
- The unused constants `StateLabel` and the state values (pkg/metrics/metrics.go:29-38) are not used by the core.
- `pkg/controller/machineconfigpool/worker.go` is event-filter glue around a single name comparison; it is not part of this model.
