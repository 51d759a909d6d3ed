/**
 * The three query strings the adapter sends, and what they select.
 *
 * Each template is written exactly as the source formats it. `Selector`
 * gives the general shape `metric{label op "value",...}`; each template's
 * contract says it is such a selector with the stated matchers, and
 * `Holds` gives the meaning of an equality or inequality matcher on a
 * series' labels (an absent label reads as the empty string).
 */
module Promql {
  import opened Strings
  import opened Gauges

  /**
   * `IsMetricNotificationEventSentSet`'s query: the notification gauge's
   * exported name with one equality matcher per label, in schema order.
   */
  function NotificationQuery(upgradeConfigName: string, event: string, version: string): (q: string)
    ensures q == Selector(FullName(UpgradeNotification), NotificationMatchers(upgradeConfigName, event, version))
  {
    NotificationMatchersList(upgradeConfigName, event, version);
    EqualityTriple(FullName(UpgradeNotification), NameLabel, upgradeConfigName, EventLabel, event, VersionLabel, version);
    NotificationMetricName();
    (MetricsTag + "_upgrade_notification{" + NameLabel + "=\"") + upgradeConfigName + ("\"," + EventLabel + "=\"") +
      event + ("\"," + VersionLabel + "=\"") + version + "\"}"
  }

  /** `IsClusterVersionAtVersion`'s query: the `cluster_version` series with the given version and type "current". */
  function ClusterVersionQuery(version: string): (q: string)
    ensures q == Selector("cluster_version", [Matcher("version", Eq, version), Matcher("type", Eq, "current")])
  {
    SelectorOf2("cluster_version", Matcher("version", Eq, version), Matcher("type", Eq, "current"));
    assert "cluster_version" + "{" + ("version" + "=" + "\"") == "cluster_version{version=\"";
    assert "\"" + "," + ("type" + "=" + "\"" + "current" + "\"") + "}" == "\",type=\"current\"}";
    "cluster_version{version=\"" + version + "\",type=\"current\"}"
  }

  /**
   * `IsAlertFiring`'s query: firing alerts of one name, a namespace regular
   * expression and a namespace inequality; both namespace lists are joined with `|`.
   */
  function AlertQuery(alert: string, checkedNS: seq<string>, ignoredNS: seq<string>): (q: string)
    ensures q == Selector("ALERTS", AlertMatchers(alert, checkedNS, ignoredNS))
  {
    var j1, j2 := Join(checkedNS, "|"), Join(ignoredNS, "|");
    AlertSelectorText(alert, "^$|" + j1, j2);
    var head := "ALERTS{alertstate=\"firing\",alertname=\"" + alert;
    assert head + "\",namespace=~\"" + ("^$|" + j1) == head + "\",namespace=~\"^$|" + j1 by {
      assert "\",namespace=~\"" + "^$|" == "\",namespace=~\"^$|";
    }
    "ALERTS{alertstate=\"firing\",alertname=\"" + alert + "\",namespace=~\"^$|" + Join(checkedNS, "|") +
      "\",namespace!=\"" + Join(ignoredNS, "|") + "\"}"
  }

  datatype MatchOp = Eq | Ne | Re | NotRe

  datatype Matcher = Matcher(name: string, op: MatchOp, value: string)

  function OpText(op: MatchOp): string
  {
    match op
    case Eq => "="
    case Ne => "!="
    case Re => "=~"
    case NotRe => "!~"
  }

  function MatcherText(m: Matcher): string
  {
    m.name + OpText(m.op) + "\"" + m.value + "\""
  }

  function MatcherTexts(ms: seq<Matcher>): seq<string>
  {
    if ms == [] then [] else [MatcherText(ms[0])] + MatcherTexts(ms[1..])
  }

  /** The text of a selector: the metric name, then the matchers in braces, comma-separated. */
  function Selector(metric: string, ms: seq<Matcher>): string
  {
    metric + "{" + Join(MatcherTexts(ms), ",") + "}"
  }

  /** The notification query's matchers: one equality per label of the notification gauge's schema, in schema order. */
  function NotificationMatchers(upgradeConfigName: string, event: string, version: string): (ms: seq<Matcher>)
    ensures |ms| == |Schema(UpgradeNotification)|
    ensures forall i :: 0 <= i < |ms| ==> ms[i].name == Schema(UpgradeNotification)[i] && ms[i].op == Eq
    ensures forall i :: 0 <= i < |ms| ==> ms[i].value == [upgradeConfigName, event, version][i]
  {
    var values := [upgradeConfigName, event, version];
    seq(3, i requires 0 <= i < 3 => Matcher(Schema(UpgradeNotification)[i], Eq, values[i]))
  }

  lemma NotificationMatchersList(upgradeConfigName: string, event: string, version: string)
    ensures NotificationMatchers(upgradeConfigName, event, version) ==
      [Matcher(NameLabel, Eq, upgradeConfigName), Matcher(EventLabel, Eq, event), Matcher(VersionLabel, Eq, version)]
  {
  }

  lemma NotificationMetricName()
    ensures FullName(UpgradeNotification) + "{" == MetricsTag + "_upgrade_notification{"
  {
  }

  function AlertMatchers(alert: string, checkedNS: seq<string>, ignoredNS: seq<string>): seq<Matcher>
  {
    [ Matcher("alertstate", Eq, "firing"),
      Matcher("alertname", Eq, alert),
      Matcher("namespace", Re, "^$|" + Join(checkedNS, "|")),
      Matcher("namespace", Ne, Join(ignoredNS, "|")) ]
  }

  lemma JoinTextsCons(ms: seq<Matcher>)
    requires |ms| >= 2
    ensures Join(MatcherTexts(ms), ",") == MatcherText(ms[0]) + "," + Join(MatcherTexts(ms[1..]), ",")
  {
    assert MatcherTexts(ms)[1..] == MatcherTexts(ms[1..]);
  }

  lemma JoinTextsSingle(m: Matcher)
    ensures Join(MatcherTexts([m]), ",") == MatcherText(m)
  {
    assert [m][1..] == [];
  }

  lemma JoinTextsOf2(m0: Matcher, m1: Matcher)
    ensures Join(MatcherTexts([m0, m1]), ",") == MatcherText(m0) + "," + MatcherText(m1)
  {
    JoinTextsCons([m0, m1]);
    assert [m0, m1][1..] == [m1];
    JoinTextsSingle(m1);
  }

  lemma JoinTextsOf3(m0: Matcher, m1: Matcher, m2: Matcher)
    ensures Join(MatcherTexts([m0, m1, m2]), ",") == MatcherText(m0) + "," + (MatcherText(m1) + "," + MatcherText(m2))
  {
    JoinTextsCons([m0, m1, m2]);
    assert [m0, m1, m2][1..] == [m1, m2];
    JoinTextsOf2(m1, m2);
  }

  lemma JoinTextsOf4(m0: Matcher, m1: Matcher, m2: Matcher, m3: Matcher)
    ensures Join(MatcherTexts([m0, m1, m2, m3]), ",") ==
      MatcherText(m0) + "," + (MatcherText(m1) + "," + (MatcherText(m2) + "," + MatcherText(m3)))
  {
    JoinTextsCons([m0, m1, m2, m3]);
    assert [m0, m1, m2, m3][1..] == [m1, m2, m3];
    JoinTextsOf3(m1, m2, m3);
  }

  lemma SelectorOf2(metric: string, m0: Matcher, m1: Matcher)
    ensures Selector(metric, [m0, m1]) == metric + "{" + MatcherText(m0) + "," + MatcherText(m1) + "}"
  {
    JoinTextsOf2(m0, m1);
  }

  lemma SelectorOf3(metric: string, m0: Matcher, m1: Matcher, m2: Matcher)
    ensures Selector(metric, [m0, m1, m2]) ==
      metric + "{" + MatcherText(m0) + "," + MatcherText(m1) + "," + MatcherText(m2) + "}"
  {
    JoinTextsOf3(m0, m1, m2);
  }

  lemma SelectorOf4(metric: string, m0: Matcher, m1: Matcher, m2: Matcher, m3: Matcher)
    ensures Selector(metric, [m0, m1, m2, m3]) ==
      metric + "{" + MatcherText(m0) + "," + MatcherText(m1) + "," + MatcherText(m2) + "," + MatcherText(m3) + "}"
  {
    JoinTextsOf4(m0, m1, m2, m3);
  }

  /** Three equality matchers, regrouped as a format string with three placeholders writes them. */
  lemma EqualityTriple(f: string, n0: string, v0: string, n1: string, v1: string, n2: string, v2: string)
    ensures Selector(f, [Matcher(n0, Eq, v0), Matcher(n1, Eq, v1), Matcher(n2, Eq, v2)]) ==
      (f + "{" + n0 + "=\"") + v0 + ("\"," + n1 + "=\"") + v1 + ("\"," + n2 + "=\"") + v2 + "\"}"
  {
    SelectorOf3(f, Matcher(n0, Eq, v0), Matcher(n1, Eq, v1), Matcher(n2, Eq, v2));
    assert "=" + "\"" == "=\"";
    assert "\"" + "," == "\",";
    assert "\"" + "}" == "\"}";
    assert f + "{" + n0 + "=\"" + v0 + "\"," + n1 + "=\"" + v1 + "\"," + n2 + "=\"" + v2 + "\"}" ==
      (f + "{" + n0 + "=\"") + v0 + ("\"," + n1 + "=\"") + v1 + ("\"," + n2 + "=\"") + v2 + "\"}";
  }

  /** The alert selector's text for given alertname, regular-expression and inequality operands. */
  lemma AlertSelectorText(alert: string, included: string, excluded: string)
    ensures Selector("ALERTS", [Matcher("alertstate", Eq, "firing"), Matcher("alertname", Eq, alert),
                                Matcher("namespace", Re, included), Matcher("namespace", Ne, excluded)]) ==
      "ALERTS{alertstate=\"firing\",alertname=\"" + alert + "\",namespace=~\"" + included +
        "\",namespace!=\"" + excluded + "\"}"
  {
    var m0, m1 := Matcher("alertstate", Eq, "firing"), Matcher("alertname", Eq, alert);
    var m2, m3 := Matcher("namespace", Re, included), Matcher("namespace", Ne, excluded);
    SelectorOf4("ALERTS", m0, m1, m2, m3);
    assert MatcherText(m0) == "alertstate" + "=" + "\"" + "firing" + "\"";
    assert MatcherText(m1) == "alertname" + "=" + "\"" + alert + "\"";
    assert MatcherText(m2) == "namespace" + "=~" + "\"" + included + "\"";
    assert MatcherText(m3) == "namespace" + "!=" + "\"" + excluded + "\"";
    AlertLiteralPieces();
  }

  lemma AlertLiteralPieces()
    ensures "ALERTS" + "{" + ("alertstate" + "=" + "\"" + "firing" + "\"") + "," + ("alertname" + "=" + "\"")
      == "ALERTS{alertstate=\"firing\",alertname=\""
    ensures "\"" + "," + ("namespace" + "=~" + "\"") == "\",namespace=~\""
    ensures "\"" + "," + ("namespace" + "!=" + "\"") == "\",namespace!=\""
    ensures "\"" + "}" == "\"}"
  {
    assert "alertstate" + "=" + "\"" + "firing" + "\"" == "alertstate=\"firing\"";
    assert "ALERTS" + "{" == "ALERTS{";
    assert "alertname" + "=" + "\"" == "alertname=\"";
    assert "namespace" + "=~" + "\"" == "namespace=~\"";
    assert "namespace" + "!=" + "\"" == "namespace!=\"";
  }

  /** The exact cluster-version query for version 4.10.3. */
  lemma ClusterVersionQueryExample()
    ensures ClusterVersionQuery("4.10.3") == "cluster_version{version=\"4.10.3\",type=\"current\"}"
  {
    var p1 := "cluster_version{version=\"" + "4.10.3";
    assert p1 == "cluster_version{version=\"4.10.3";
    assert p1 + "\",type=\"current\"}" == "cluster_version{version=\"4.10.3\",type=\"current\"}";
  }

  /** The exact alert query for one checked and one ignored namespace. */
  lemma AlertQueryExample()
    ensures AlertQuery("ClusterOperatorDown", ["ns-a"], ["ns-b"]) ==
      "ALERTS{alertstate=\"firing\",alertname=\"ClusterOperatorDown\",namespace=~\"^$|ns-a\",namespace!=\"ns-b\"}"
  {
    assert Join(["ns-a"], "|") == "ns-a";
    assert Join(["ns-b"], "|") == "ns-b";
    var p1 := "ALERTS{alertstate=\"firing\",alertname=\"" + "ClusterOperatorDown";
    assert p1 == "ALERTS{alertstate=\"firing\",alertname=\"ClusterOperatorDown";
    var p2 := p1 + "\",namespace=~\"^$|";
    assert p2 == "ALERTS{alertstate=\"firing\",alertname=\"ClusterOperatorDown\",namespace=~\"^$|";
    var p3 := p2 + "ns-a";
    assert p3 == "ALERTS{alertstate=\"firing\",alertname=\"ClusterOperatorDown\",namespace=~\"^$|ns-a";
    var p4 := p3 + "\",namespace!=\"";
    assert p4 == "ALERTS{alertstate=\"firing\",alertname=\"ClusterOperatorDown\",namespace=~\"^$|ns-a\",namespace!=\"";
    var p5 := p4 + "ns-b";
    assert p5 == "ALERTS{alertstate=\"firing\",alertname=\"ClusterOperatorDown\",namespace=~\"^$|ns-a\",namespace!=\"ns-b";
    assert p5 + "\"}" == "ALERTS{alertstate=\"firing\",alertname=\"ClusterOperatorDown\",namespace=~\"^$|ns-a\",namespace!=\"ns-b\"}";
  }

  /** The value a series has for a label; an absent label reads as "". */
  function LabelValue(labels: map<string, string>, name: string): string
  {
    if name in labels then labels[name] else ""
  }

  /** Whether an equality or inequality matcher accepts a series with these labels. */
  predicate Holds(m: Matcher, labels: map<string, string>)
    requires m.op == Eq || m.op == Ne
  {
    if m.op == Eq then LabelValue(labels, m.name) == m.value else LabelValue(labels, m.name) != m.value
  }

  /** Whether a selector made only of equality matchers selects the series `name{labels}`. */
  predicate SelectsByEquality(metric: string, ms: seq<Matcher>, name: string, labels: map<string, string>)
  {
    name == metric && forall i :: 0 <= i < |ms| ==> ms[i].op == Eq && Holds(ms[i], labels)
  }

  /**
   * Among all series of all gauges, the notification query selects exactly the
   * one that `UpdateMetricNotificationEventSent` with the same arguments writes.
   */
  lemma NotificationQuerySelectsSentTuple(
    upgradeConfigName: string, event: string, version: string, k: MetricKind, t: seq<string>)
    requires |t| == |Schema(k)|
    ensures SelectsByEquality(FullName(UpgradeNotification), NotificationMatchers(upgradeConfigName, event, version),
                              FullName(k), LabelsOf(k, t))
            <==> k == UpgradeNotification && t == [upgradeConfigName, event, version]
  {
    if SelectsByEquality(FullName(UpgradeNotification), NotificationMatchers(upgradeConfigName, event, version),
                         FullName(k), LabelsOf(k, t)) {
      SelectedIsSentTuple(upgradeConfigName, event, version, k, t);
    }
    if k == UpgradeNotification && t == [upgradeConfigName, event, version] {
      SentTupleIsSelected(upgradeConfigName, event, version);
    }
  }

  lemma SelectedIsSentTuple(upgradeConfigName: string, event: string, version: string, k: MetricKind, t: seq<string>)
    requires |t| == |Schema(k)|
    requires SelectsByEquality(FullName(UpgradeNotification), NotificationMatchers(upgradeConfigName, event, version),
                               FullName(k), LabelsOf(k, t))
    ensures k == UpgradeNotification && t == [upgradeConfigName, event, version]
  {
    FullNamesDistinct(k, UpgradeNotification);
    var ms := NotificationMatchers(upgradeConfigName, event, version);
    var values := [upgradeConfigName, event, version];
    forall i | 0 <= i < 3 ensures t[i] == values[i] {
      LabelsOfAt(k, t, i);
      assert Holds(ms[i], LabelsOf(k, t));
    }
  }

  lemma SentTupleIsSelected(upgradeConfigName: string, event: string, version: string)
    ensures var t := [upgradeConfigName, event, version];
      SelectsByEquality(FullName(UpgradeNotification), NotificationMatchers(upgradeConfigName, event, version),
                        FullName(UpgradeNotification), LabelsOf(UpgradeNotification, t))
  {
    var ms := NotificationMatchers(upgradeConfigName, event, version);
    var t := [upgradeConfigName, event, version];
    forall i | 0 <= i < 3 ensures ms[i].op == Eq && Holds(ms[i], LabelsOf(UpgradeNotification, t)) {
      LabelsOfAt(UpgradeNotification, t, i);
    }
  }

  /**
   * With one ignored namespace the inequality operand is that namespace, so
   * the matcher rejects exactly the series in it.
   */
  lemma SingleIgnoredNamespaceExcluded(ns: string, labels: map<string, string>)
    ensures Holds(Matcher("namespace", Ne, Join([ns], "|")), labels) <==> LabelValue(labels, "namespace") != ns
  {
  }

  /**
   * With two or more ignored namespaces (none containing `|`) the inequality
   * operand contains `|` and equals none of them, so a series in any ignored
   * namespace passes the matcher: the exclusion has no effect on them.
   */
  lemma MultipleIgnoredNamespacesNotExcluded(ignoredNS: seq<string>, j: nat, labels: map<string, string>)
    requires |ignoredNS| >= 2 && j < |ignoredNS|
    requires forall i :: 0 <= i < |ignoredNS| ==> '|' !in ignoredNS[i]
    requires LabelValue(labels, "namespace") == ignoredNS[j]
    ensures '|' in Join(ignoredNS, "|")
    ensures Holds(Matcher("namespace", Ne, Join(ignoredNS, "|")), labels)
  {
    JoinContainsSeparator(ignoredNS, '|');
  }

  /**
   * With no ignored namespaces the inequality reads `namespace!=""`, which
   * rejects every alert that has no namespace label, even though the
   * namespace regular expression admits the empty namespace.
   */
  lemma NoIgnoredNamespacesRejectsUnnamespaced(labels: map<string, string>)
    requires "namespace" !in labels
    ensures !Holds(Matcher("namespace", Ne, Join([], "|")), labels)
  {
  }

  /**
   * The namespace regular expression is the alternation of `^$` (the empty
   * namespace) and each checked namespace, in order, when none contains `|`.
   * With no checked namespace the operand is `^$|`: `^$` and an empty alternative.
   */
  lemma IncludedNamespaceAlternatives(checkedNS: seq<string>)
    requires forall i :: 0 <= i < |checkedNS| ==> '|' !in checkedNS[i]
    ensures Split("^$|" + Join(checkedNS, "|"), '|') == ["^$"] + (if checkedNS == [] then [""] else checkedNS)
  {
    if checkedNS == [] {
      NoCheckedAlternatives(checkedNS);
    } else {
      CheckedAlternatives(checkedNS);
    }
  }

  lemma NoCheckedAlternatives(checkedNS: seq<string>)
    requires checkedNS == []
    ensures Split("^$|" + Join(checkedNS, "|"), '|') == ["^$", ""]
  {
    var parts := ["^$", ""];
    assert parts[1..] == [""];
    assert Join(parts, "|") == "^$|";
    SplitJoin(parts, '|');
    assert "^$|" + Join(checkedNS, "|") == "^$|";
  }

  lemma CheckedAlternatives(checkedNS: seq<string>)
    requires |checkedNS| >= 1
    requires forall i :: 0 <= i < |checkedNS| ==> '|' !in checkedNS[i]
    ensures Split("^$|" + Join(checkedNS, "|"), '|') == ["^$"] + checkedNS
  {
    var parts := ["^$"] + checkedNS;
    assert parts[1..] == checkedNS;
    assert Join(parts, "|") == "^$|" + Join(checkedNS, "|");
    SplitJoin(parts, '|');
  }

  /**
   * A text made of a fixed head and three values, each followed by a fixed
   * piece that starts with a double quote, determines the values when none of
   * them contains a double quote.
   */
  lemma ThreeQuotedValues(p: string, q1: string, q2: string, q3: string,
                          a: string, b: string, c: string, a': string, b': string, c': string)
    requires |q1| > 0 && q1[0] == '"' && |q2| > 0 && q2[0] == '"' && |q3| > 0 && q3[0] == '"'
    requires '"' !in a && '"' !in b && '"' !in c && '"' !in a' && '"' !in b' && '"' !in c'
    requires p + a + q1 + b + q2 + c + q3 == p + a' + q1 + b' + q2 + c' + q3
    ensures a == a' && b == b' && c == c'
  {
    var t, t' := b + q2 + c + q3, b' + q2 + c' + q3;
    var s := p + (a + (q1 + t));
    assert s == p + a + q1 + b + q2 + c + q3;
    assert s == p + (a' + (q1 + t'));
    assert s[|p|..] == a + (q1 + t) == a' + (q1 + t');
    DelimitedHeadUnique(a, q1 + t, a', q1 + t', '"');
    assert t == (q1 + t)[|q1|..] && t' == (q1 + t')[|q1|..];
    assert b + (q2 + (c + q3)) == t == t' == b' + (q2 + (c' + q3));
    DelimitedHeadUnique(b, q2 + (c + q3), b', q2 + (c' + q3), '"');
    assert c + q3 == (q2 + (c + q3))[|q2|..] && c' + q3 == (q2 + (c' + q3))[|q2|..];
    DelimitedHeadUnique(c, q3, c', q3, '"');
  }

  /**
   * The notification query's text determines its three values when none of
   * them contains a double quote: each value ends at the first `"` after it.
   */
  lemma NotificationQueryDeterminesValues(
    upgradeConfigName: string, event: string, version: string,
    upgradeConfigName': string, event': string, version': string)
    requires '"' !in upgradeConfigName && '"' !in event && '"' !in version
    requires '"' !in upgradeConfigName' && '"' !in event' && '"' !in version'
    ensures NotificationQuery(upgradeConfigName, event, version) == NotificationQuery(upgradeConfigName', event', version')
      <==> upgradeConfigName == upgradeConfigName' && event == event' && version == version'
  {
    if NotificationQuery(upgradeConfigName, event, version) == NotificationQuery(upgradeConfigName', event', version') {
      var p := MetricsTag + "_upgrade_notification{" + NameLabel + "=\"";
      var q1, q2, q3 := "\"," + EventLabel + "=\"", "\"," + VersionLabel + "=\"", "\"}";
      NotificationQueryPieces(upgradeConfigName, event, version);
      NotificationQueryPieces(upgradeConfigName', event', version');
      ThreeQuotedValues(p, q1, q2, q3, upgradeConfigName, event, version, upgradeConfigName', event', version');
    }
  }

  /**
   * The values are formatted unescaped, so a value holding `",event="` can
   * make two different triples produce one and the same query text.
   */
  lemma NotificationQueryCollision(upgradeConfigName: string, event: string, version: string)
    ensures NotificationQuery(upgradeConfigName + ("\"," + EventLabel + "=\"") + event, "x", version) ==
      NotificationQuery(upgradeConfigName, event + ("\"," + EventLabel + "=\"") + "x", version)
  {
    MovedBoundary(MetricsTag + "_upgrade_notification{" + NameLabel + "=\"", upgradeConfigName, "\"," + EventLabel + "=\"",
                  event, "x", "\"," + VersionLabel + "=\"", version, "\"}");
  }

  /** Moving a value boundary from one value to the next leaves the text unchanged. */
  lemma MovedBoundary(p: string, x: string, q: string, e: string, f: string, q2: string, v: string, q3: string)
    ensures p + (x + q + e) + q + f + q2 + v + q3 == p + x + q + (e + q + f) + q2 + v + q3
  {
  }

  /** The notification query as its fixed pieces around the three values. */
  lemma NotificationQueryPieces(upgradeConfigName: string, event: string, version: string)
    ensures var p := MetricsTag + "_upgrade_notification{" + NameLabel + "=\"";
      var q1, q2, q3 := "\"," + EventLabel + "=\"", "\"," + VersionLabel + "=\"", "\"}";
      NotificationQuery(upgradeConfigName, event, version) == p + upgradeConfigName + q1 + event + q2 + version + q3
  {
  }
}
