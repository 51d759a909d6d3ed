/**
 * Credential and host discovery: the monitoring route's host and the bearer
 * token of the monitoring service account.
 *
 * The three cluster reads (the route, the service account, the token secret)
 * are foreign calls; a `Cluster` value carries what each of them returns.
 */
module Discovery {
  import opened Wrappers
  import opened Strings

  const MonitoringNamespace := "openshift-monitoring"
  const TokenSecretPrefix := "prometheus-k8s-token"
  /** The data key of a service-account token secret. */
  const ServiceAccountTokenKey := "token"

  datatype Error =
    | RouteReadFailed(cause: string)
    | ServiceAccountReadFailed(cause: string)
    | TokenSecretNotFound
    | SecretReadFailed(name: string, cause: string)

  /** What the cluster reads in `MonitoringNamespace` return. */
  datatype Cluster = Cluster(
    // the `prometheus-k8s` route: its `spec.host`, or the read error
    route: Result<string, string>,
    // the `prometheus-k8s` service account: the names of its secret references in order, or the read error
    serviceAccountSecrets: Result<seq<string>, string>,
    // reading a secret by name: its data (bytes taken character for character), or the read error
    secrets: string -> Result<map<string, string>, string>)

  /** The host and token a `Counter` is built with. */
  datatype Credential = Credential(host: string, token: string)

  /**
   * The token secret the scan over the service account's secrets picks:
   * the LAST name with the token prefix, or `None` if no name has it.
   */
  function LastTokenSecret(names: seq<string>): (r: Option<string>)
    ensures r.None? <==> forall i :: 0 <= i < |names| ==> !HasPrefix(names[i], TokenSecretPrefix)
    ensures r.Some? ==>
      exists i :: 0 <= i < |names| && names[i] == r.value && HasPrefix(names[i], TokenSecretPrefix) &&
        forall j :: i < j < |names| ==> !HasPrefix(names[j], TokenSecretPrefix)
  {
    if |names| == 0 then None
    else if HasPrefix(names[|names| - 1], TokenSecretPrefix) then Some(names[|names| - 1])
    else
      var r := LastTokenSecret(names[..|names| - 1]);
      assert forall j :: 0 <= j < |names| - 1 ==> names[..|names| - 1][j] == names[j];
      r
  }

  /** A name that passed the prefix test is never empty, so "no name kept" and "empty name kept" coincide. */
  lemma SelectedNameNonEmpty(names: seq<string>)
    requires LastTokenSecret(names).Some?
    ensures |LastTokenSecret(names).value| >= |TokenSecretPrefix| > 0
  {
  }

  /** The token of a secret: the value under the token key; a missing key reads as the empty token. */
  function TokenField(data: map<string, string>): (token: string)
    ensures ServiceAccountTokenKey in data ==> token == data[ServiceAccountTokenKey]
    ensures token == "" <==> ServiceAccountTokenKey !in data || data[ServiceAccountTokenKey] == ""
  {
    if ServiceAccountTokenKey in data then data[ServiceAccountTokenKey] else ""
  }

  /**
   * What `getPrometheusToken` returns for a cluster: a service-account read
   * error first; a secret read error names the selected secret and carries
   * that read's error; a token comes from the selected secret's data.
   */
  function TokenFor(c: Cluster): (r: Result<string, Error>)
    ensures c.serviceAccountSecrets.Failure? ==> r == Failure(ServiceAccountReadFailed(c.serviceAccountSecrets.error))
    ensures r.Failure? && r.error.SecretReadFailed? ==>
      && c.serviceAccountSecrets.Success?
      && LastTokenSecret(c.serviceAccountSecrets.value) == Some(r.error.name)
      && c.secrets(r.error.name) == Failure(r.error.cause)
    ensures r.Success? ==>
      && c.serviceAccountSecrets.Success?
      && LastTokenSecret(c.serviceAccountSecrets.value).Some?
      && c.secrets(LastTokenSecret(c.serviceAccountSecrets.value).value).Success?
      && r.value == TokenField(c.secrets(LastTokenSecret(c.serviceAccountSecrets.value).value).value)
  {
    match c.serviceAccountSecrets
    case Failure(e) => Failure(ServiceAccountReadFailed(e))
    case Success(names) =>
      match LastTokenSecret(names)
      case None => Failure(TokenSecretNotFound)
      case Some(name) =>
        match c.secrets(name)
        case Failure(e) => Failure(SecretReadFailed(name, e))
        case Success(data) => Success(TokenField(data))
  }

  /**
   * What `NewClient` builds its `Counter` from: the route's host and the
   * discovered token; a route error is reported as such, otherwise the token's error.
   */
  function Credentials(c: Cluster): (r: Result<Credential, Error>)
    ensures r.Success? <==> c.route.Success? && TokenFor(c).Success?
    ensures r.Success? ==> r.value == Credential(c.route.value, TokenFor(c).value)
    ensures c.route.Failure? ==> r == Failure(RouteReadFailed(c.route.error))
    ensures c.route.Success? && TokenFor(c).Failure? ==> r == Failure(TokenFor(c).error)
  {
    match c.route
    case Failure(e) => Failure(RouteReadFailed(e))
    case Success(host) =>
      match TokenFor(c)
      case Failure(e) => Failure(e)
      case Success(token) => Success(Credential(host, token))
  }

  /**
   * `getPrometheusToken`: scan the secret names keeping the last one with the
   * token prefix (no early exit), fail if none was kept, else read that secret.
   */
  method GetPrometheusToken(c: Cluster) returns (r: Result<string, Error>)
    ensures r == TokenFor(c)
  {
    if c.serviceAccountSecrets.Failure? {
      return Failure(ServiceAccountReadFailed(c.serviceAccountSecrets.error));
    }
    var names := c.serviceAccountSecrets.value;
    var tokenSecret := "";
    for i := 0 to |names|
      invariant tokenSecret == match LastTokenSecret(names[..i]) case Some(n) => n case None => ""
    {
      assert names[..i + 1][..i] == names[..i];
      if HasPrefix(names[i], TokenSecretPrefix) {
        tokenSecret := names[i];
      }
    }
    assert names[..|names|] == names;
    if LastTokenSecret(names).Some? {
      SelectedNameNonEmpty(names);
    }
    if |tokenSecret| == 0 {
      return Failure(TokenSecretNotFound);
    }
    var secret := c.secrets(tokenSecret);
    if secret.Failure? {
      return Failure(SecretReadFailed(tokenSecret, secret.error));
    }
    var data := secret.value;
    var token := TokenField(data);
    return Success(token);
  }

  /** When the service account is readable, discovery fails with `TokenSecretNotFound` exactly when no secret name has the prefix. */
  lemma TokenSecretNotFoundIff(c: Cluster)
    requires c.serviceAccountSecrets.Success?
    ensures TokenFor(c) == Failure(TokenSecretNotFound) <==>
      forall i :: 0 <= i < |c.serviceAccountSecrets.value| ==>
        !HasPrefix(c.serviceAccountSecrets.value[i], TokenSecretPrefix)
  {
  }

  /** On success the token was read from the selected secret: the last prefixed name, non-empty. */
  lemma TokenComesFromLastPrefixedSecret(c: Cluster)
    requires TokenFor(c).Success?
    ensures c.serviceAccountSecrets.Success?
    ensures var name := LastTokenSecret(c.serviceAccountSecrets.value).value;
      && HasPrefix(name, TokenSecretPrefix) && name != ""
      && c.secrets(name).Success?
      && TokenFor(c).value == TokenField(c.secrets(name).value)
  {
    SelectedNameNonEmpty(c.serviceAccountSecrets.value);
  }

  /** An empty token, or a secret without the token key, is passed through as the empty token. */
  lemma EmptyTokenPassedThrough(c: Cluster, name: string, data: map<string, string>)
    requires c.serviceAccountSecrets.Success?
    requires LastTokenSecret(c.serviceAccountSecrets.value) == Some(name)
    requires c.secrets(name) == Success(data)
    requires ServiceAccountTokenKey !in data || data[ServiceAccountTokenKey] == ""
    ensures TokenFor(c) == Success("")
  {
  }

  /** A route read error is reported before any token error. */
  lemma RouteErrorFirst(c: Cluster)
    requires c.route.Failure?
    ensures Credentials(c) == Failure(RouteReadFailed(c.route.error))
  {
  }

  /** The selection on two concrete lists: one prefixed name is picked; of two, the later one. */
  lemma SelectionExamples()
    ensures LastTokenSecret(["prometheus-k8s-token-abc123", "other-secret"]) == Some("prometheus-k8s-token-abc123")
    ensures LastTokenSecret(["prometheus-k8s-token-a", "prometheus-k8s-token-b"]) == Some("prometheus-k8s-token-b")
    ensures LastTokenSecret(["other-secret", "prometheus-k8s-dockercfg-x"]) == None
  {
    var a := ["prometheus-k8s-token-abc123", "other-secret"];
    assert !HasPrefix(a[1], TokenSecretPrefix);
    assert a[..1] == ["prometheus-k8s-token-abc123"];
    var b := ["other-secret", "prometheus-k8s-dockercfg-x"];
    assert !HasPrefix(b[1], TokenSecretPrefix) by {
      assert b[1][15] != TokenSecretPrefix[15];
    }
    assert !HasPrefix(b[0], TokenSecretPrefix) by {
      assert b[0][0] != TokenSecretPrefix[0];
    }
    assert b[..1] == ["other-secret"];
    assert b[..1][..0] == [];
  }
}
