/**
 The adapter's configuration (config/config.go): the cloud credential pair, the
 table from logical metric name to upstream metric, and the external labels,
 together with the validation that runs once after the file is loaded.
 */
module Config {
  import opened Wrappers
  import GoSemantics

  /** Environment variables consulted when the file holds no secret key. */
  const EnvSecretId: string := "TENCENTCLOUD_SECRET_ID"
  const EnvSecretKey: string := "TENCENTCLOUD_SECRET_KEY"

  datatype TencentCredential = TencentCredential(secretKey: string, secretId: string)

  /** One upstream metric: its name in the cloud API and its `xxx/product` namespace. */
  datatype TencentMetric = TencentMetric(metricsName: string, namespace: string)

  /** The three ways validation can fail, one per error message of the source. */
  datatype ConfigError =
    | MissingCredential    // "error, missing credential information"
    | MissingMetricName    // "missing tc_metric_name"
    | BadNamespaceFormat   // "tc_namespace should be 'xxxxxx/productName' format"

  /** A namespace is accepted when splitting it on `/` gives exactly two pieces. */
  predicate NamespaceWellFormed(namespace: string)
  {
    |GoSemantics.Split(namespace, '/')| == 2
  }

  predicate MetricValid(metric: TencentMetric)
  {
    metric.metricsName != "" && NamespaceWellFormed(metric.namespace)
  }

  predicate CredentialComplete(credential: TencentCredential)
  {
    credential.secretKey != "" && credential.secretId != ""
  }

  class TencentConfig {
    var credential: TencentCredential
    var metrics: map<string, TencentMetric>
    var externalLabels: map<string, string>

    /** An empty configuration, as before the file is read. */
    constructor ()
      ensures credential == TencentCredential("", "")
      ensures metrics == map[] && externalLabels == map[]
    {
      credential := TencentCredential("", "");
      metrics := map[];
      externalLabels := map[];
    }

    /**
     Validates the loaded configuration. When the file gave no secret key, both
     secrets are taken from the environment (`getenv` stands for os.Getenv).
     The metric table is walked in Go's unspecified map order, so when several
     metrics are invalid for different reasons either error may be reported.
     */
    method Check(getenv: string -> string) returns (err: Option<ConfigError>)
      modifies this`credential
      ensures old(credential).secretKey != "" ==> credential == old(credential)
      ensures old(credential).secretKey == "" ==>
                credential == TencentCredential(getenv(EnvSecretKey), getenv(EnvSecretId))
      ensures metrics == old(metrics) && externalLabels == old(externalLabels)
      ensures err.None? <==>
                CredentialComplete(credential) &&
                forall k :: k in metrics ==> MetricValid(metrics[k])
      ensures !CredentialComplete(credential) <==> err == Some(MissingCredential)
      ensures err == Some(MissingMetricName) ==>
                CredentialComplete(credential) &&
                exists k :: k in metrics && metrics[k].metricsName == ""
      ensures err == Some(BadNamespaceFormat) ==>
                CredentialComplete(credential) &&
                exists k :: k in metrics && metrics[k].metricsName != "" &&
                            !NamespaceWellFormed(metrics[k].namespace)
    {
      if credential.secretKey == "" {
        credential := TencentCredential(getenv(EnvSecretKey), getenv(EnvSecretId));
      }

      if credential.secretKey == "" || credential.secretId == "" {
        return Some(MissingCredential);
      }
      var remaining := metrics.Keys;
      while remaining != {}
        invariant remaining <= metrics.Keys
        invariant forall k :: k in metrics && k !in remaining ==> MetricValid(metrics[k])
        decreases remaining
      {
        var k :| k in remaining;
        var metric := metrics[k];
        if metric.metricsName == "" {
          return Some(MissingMetricName);
        }
        if |GoSemantics.Split(metric.namespace, '/')| != 2 {
          return Some(BadNamespaceFormat);
        }
        remaining := remaining - {k};
      }
      return None;
    }
  }

  /** The namespace shape `xxx/product` is exactly "contains one `/`". */
  lemma NamespaceHasOneSlash(namespace: string)
    ensures NamespaceWellFormed(namespace) <==> multiset(namespace)['/'] == 1
  {
    GoSemantics.SplitCount(namespace, '/');
  }

  /** An accepted namespace is its prefix and product joined by the one `/`. */
  lemma WellFormedNamespaceParts(namespace: string)
    requires NamespaceWellFormed(namespace)
    ensures var parts := GoSemantics.Split(namespace, '/');
            namespace == parts[0] + ['/'] + parts[1] && '/' !in parts[0] && '/' !in parts[1]
  {
    var parts := GoSemantics.Split(namespace, '/');
    GoSemantics.JoinSplit(namespace, '/');
    GoSemantics.SplitPiecesAvoidSeparator(namespace, '/');
    assert parts[1..] == [parts[1]];
  }
}
