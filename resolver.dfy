/** The per-container resolution rules of docker_handler.go: the opt-in test
    (`containerIsManaged`) and `findHostPortAndPathForContainer`, which turns
    the result of inspecting a container into one Prometheus file-based
    service-discovery target group (`targets` and `labels`). */
module Resolver {
  import opened Wrappers
  import opened Utils

  // Container labels the service reads.
  const ScrapeAnnotation := "prometheus.io/scrape"
  const ScrapeAnnotationValue := "true"
  const PortAnnotation := "prometheus.io/port"
  const IpAnnotation := "prometheus.io/ip"
  const PathAnnotation := "prometheus.io/path"
  const SchemeAnnotation := "prometheus.io/scheme"
  const ExtraLabelsAnnotation := "prometheus.io/extra-labels"

  // Target labels of Prometheus's `model` package.
  const MetaLabelPrefix := "__meta_"
  const MetricsPathLabel := "__metrics_path__"
  const SchemeLabel := "__scheme__"
  const ContainerIdLabel := MetaLabelPrefix + "container_id"
  const ContainerNameLabel := MetaLabelPrefix + "container_name"

  /** A key of the container's port map: the container-side port and its protocol. */
  datatype PortKey = PortKey(port: string, proto: string)

  /** A host binding of a container port (never consulted by the resolver). */
  datatype PortBinding = PortBinding(hostIp: string, hostPort: string)

  /** A network the container is attached to, with its address on it. */
  datatype Endpoint = Endpoint(ipAddress: string)

  /** What inspecting a container reports. */
  datatype Container = Container(
    id: string,
    name: string,
    labels: map<string, string>,
    ports: map<PortKey, seq<PortBinding>>,
    networks: map<string, Endpoint>)

  /** The result of `ContainerInspect`: the container, or an error. */
  datatype Inspection = InspectFailed | Inspected(container: Container)

  /** The part of the process configuration the resolver reads. */
  datatype Config = Config(
    networkName: string,
    strict: bool,
    commonLabels: map<string, string>,
    addMetadata: bool)

  /** One target group of the discovery document (`containerScrapeConfig`). */
  datatype ScrapeConfig = ScrapeConfig(targets: seq<string>, labels: map<string, string>)

  /** Why a container that was inspected is not scraped. */
  datatype Skip = NotOptedIn | AmbiguousPort | NonTcpPort | StrictNetwork | NoNetwork

  /** The outcome of resolving one container: `(true, config, nil)`,
      `(false, _, nil)` with the reason, or `(false, _, err)`. */
  datatype Resolution = Managed(config: ScrapeConfig) | Skipped(reason: Skip) | Failed

  /** `containerIsManaged`: the scrape label is present with the exact value "true". */
  function ContainerIsManaged(labels: map<string, string>): (managed: bool)
    ensures managed <==> ScrapeAnnotation in labels && labels[ScrapeAnnotation] == ScrapeAnnotationValue
  {
    var enabled := GetFromMapOrDefault(ScrapeAnnotation, labels, "");
    ScrapeAnnotation in labels && enabled == ScrapeAnnotationValue
  }

  /** The label `key` when it is set to a non-empty value. */
  ghost predicate HasNonEmpty(labels: map<string, string>, key: string)
  {
    key in labels && labels[key] != ""
  }

  /** The port the container is scraped on: a non-empty port label verbatim,
      otherwise the container-side port of its only port key, which must be TCP. */
  ghost function PortOf(c: Container): Result<string, Skip>
  {
    if HasNonEmpty(c.labels, PortAnnotation) then Ok(c.labels[PortAnnotation])
    else if |c.ports| != 1 then Err(AmbiguousPort)
    else
      var k :| k in c.ports;
      if k.proto == "tcp" then Ok(k.port) else Err(NonTcpPort)
  }

  /** The addresses the container may be scraped at: its address on the
      preferred network, else a non-empty IP label, else (unless networking is
      strict) its address on any network it is attached to. */
  ghost function AddressOptions(cfg: Config, c: Container): Result<set<string>, Skip>
  {
    if cfg.networkName in c.networks then Ok({c.networks[cfg.networkName].ipAddress})
    else if HasNonEmpty(c.labels, IpAnnotation) then Ok({c.labels[IpAnnotation]})
    else if cfg.strict then Err(StrictNetwork)
    else if c.networks == map[] then Err(NoNetwork)
    else Ok(set n | n in c.networks :: c.networks[n].ipAddress)
  }

  /** The labels extracted from the extra-labels annotation. */
  function ExtraLabels(c: Container): map<string, string>
  {
    CSLabels(GetFromMapOrDefault(ExtraLabelsAnnotation, c.labels, ""))
  }

  /** `labels` with the container id and name added, when metadata is on. */
  ghost function WithMetadata(cfg: Config, c: Container, labels: map<string, string>): map<string, string>
  {
    if cfg.addMetadata then labels[ContainerIdLabel := c.id][ContainerNameLabel := c.name] else labels
  }

  /** `labels` with the target label `key` set from a non-empty container label `annotation`. */
  ghost function WithOverride(c: Container, annotation: string, key: string, labels: map<string, string>): map<string, string>
  {
    if HasNonEmpty(c.labels, annotation) then labels[key := c.labels[annotation]] else labels
  }

  /** The target's labels: common labels, overwritten by the extra labels, by
      the container id and name (when metadata is on), by a non-empty path
      and by a non-empty scheme, in that order. */
  ghost function LabelsFor(cfg: Config, c: Container): map<string, string>
  {
    var withMeta := WithMetadata(cfg, c, cfg.commonLabels + ExtraLabels(c));
    WithOverride(c, SchemeAnnotation, SchemeLabel, WithOverride(c, PathAnnotation, MetricsPathLabel, withMeta))
  }

  /** The resolutions the source admits for an inspected container; only the
      fallback network is left open, as Go's map iteration leaves it. */
  ghost predicate Resolves(cfg: Config, c: Container, r: Resolution)
  {
    if !ContainerIsManaged(c.labels) then r == Skipped(NotOptedIn)
    else match PortOf(c)
      case Err(e) => r == Skipped(e)
      case Ok(port) =>
        match AddressOptions(cfg, c)
        case Err(e) => r == Skipped(e)
        case Ok(ips) =>
          && r.Managed?
          && r.config.labels == LabelsFor(cfg, c)
          && exists ip :: ip in ips && r.config.targets == [ip + ":" + port]
  }

  /** Whether the container is scraped at all (this does not depend on the fallback). */
  ghost predicate Manageable(cfg: Config, c: Container)
  {
    ContainerIsManaged(c.labels) && PortOf(c).Ok? && AddressOptions(cfg, c).Ok?
  }

  /** Copies every label of `from` into `into`, `from` winning on a clash (a Go `for k, v := range` loop). */
  method MergeLabels<K, V>(into: map<K, V>, from: map<K, V>) returns (r: map<K, V>)
    ensures r.Keys == into.Keys + from.Keys
    ensures forall k :: k in from ==> r[k] == from[k]
    ensures forall k :: k in into && k !in from ==> r[k] == into[k]
  {
    r := into;
    var rest := from.Keys;
    while rest != {}
      invariant rest <= from.Keys
      invariant forall k :: k in r <==> k in into || (k in from && k !in rest)
      invariant forall k :: k in from && k !in rest ==> r[k] == from[k]
      invariant forall k :: k in into && (k !in from || k in rest) ==> r[k] == into[k]
      decreases |rest|
    {
      var k :| k in rest;
      r := r[k := from[k]];
      rest := rest - {k};
    }
  }

  /** Two keys of a one-key map are the same key. */
  lemma OnlyKey<K, V>(m: map<K, V>, a: K, b: K)
    requires |m| == 1 && a in m && b in m
    ensures a == b
  {
    var rest := m.Keys - {a};
    assert |rest| == 0;
    assert b in rest || b == a;
  }

  /** Port selection of `findHostPortAndPathForContainer`. */
  method FindPort(c: Container) returns (r: Result<string, Skip>)
    ensures r == PortOf(c)
  {
    var port := GetFromMapOrDefault(PortAnnotation, c.labels, "");
    if port == "" {
      var containerPorts := MapKeys(c.ports);
      if |containerPorts| != 1 {
        return Err(AmbiguousPort);
      }
      assert containerPorts[0] in c.ports;
      ghost var k :| k in c.ports;
      OnlyKey(c.ports, k, containerPorts[0]);
      if containerPorts[0].proto != "tcp" {
        return Err(NonTcpPort);
      }
      port := containerPorts[0].port;
    }
    r := Ok(port);
  }

  /** Address selection of `findHostPortAndPathForContainer`: the preferred
      network, the IP label, a strict-mode skip, then the first listed network. */
  method FindIp(cfg: Config, c: Container) returns (r: Result<string, Skip>)
    ensures AddressOptions(cfg, c).Err? ==> r == Err(AddressOptions(cfg, c).error)
    ensures AddressOptions(cfg, c).Ok? ==> r.Ok? && r.value in AddressOptions(cfg, c).value
  {
    var ip: string;
    if cfg.networkName in c.networks {
      ip := c.networks[cfg.networkName].ipAddress;
    } else {
      ip := GetFromMapOrDefault(IpAnnotation, c.labels, "");
      if ip == "" {
        if cfg.strict {
          return Err(StrictNetwork);
        }
        var networks := MapKeys(c.networks);
        if |networks| <= 0 {
          return Err(NoNetwork);
        }
        assert networks[0] in c.networks;
        ip := c.networks[networks[0]].ipAddress;
      }
    }
    r := Ok(ip);
  }

  /** Label assembly of `findHostPortAndPathForContainer`. */
  method AssembleLabels(cfg: Config, c: Container) returns (labels: map<string, string>)
    ensures labels == LabelsFor(cfg, c)
  {
    labels := MergeLabels(map[], cfg.commonLabels);
    var extra := ParseCSLabels(GetFromMapOrDefault(ExtraLabelsAnnotation, c.labels, ""));
    labels := MergeLabels(labels, extra);
    assert labels == cfg.commonLabels + ExtraLabels(c);
    if cfg.addMetadata {
      labels := labels[ContainerIdLabel := c.id];
      labels := labels[ContainerNameLabel := c.name];
    }
    ghost var withMeta := labels;
    var path := GetFromMapOrDefault(PathAnnotation, c.labels, "");
    if path != "" {
      labels := labels[MetricsPathLabel := path];
    }
    assert labels == WithOverride(c, PathAnnotation, MetricsPathLabel, withMeta);
    var scheme := GetFromMapOrDefault(SchemeAnnotation, c.labels, "");
    if scheme != "" {
      labels := labels[SchemeLabel := scheme];
    }
  }

  /** `findHostPortAndPathForContainer`, given what inspecting the container reported. */
  method FindHostPortAndPath(cfg: Config, inspection: Inspection) returns (r: Resolution)
    ensures r.Failed? <==> inspection.InspectFailed?
    ensures inspection.Inspected? ==> Resolves(cfg, inspection.container, r)
  {
    if inspection.InspectFailed? {
      return Failed;
    }
    var c := inspection.container;
    if !ContainerIsManaged(c.labels) {
      return Skipped(NotOptedIn);
    }
    var port := FindPort(c);
    if port.Err? {
      return Skipped(port.error);
    }
    var ip := FindIp(cfg, c);
    if ip.Err? {
      return Skipped(ip.error);
    }
    var target := ip.value + ":" + port.value;
    var labels := AssembleLabels(cfg, c);
    r := Managed(ScrapeConfig([target], labels));
  }

  /** Inspection errors are the only errors; every other outcome is managed
      exactly when the container is manageable, whichever network the fallback picks. */
  lemma ResolvesManaged(cfg: Config, c: Container, r: Resolution)
    requires Resolves(cfg, c, r)
    ensures !r.Failed?
    ensures r.Managed? <==> Manageable(cfg, c)
    ensures r.Managed? ==> |r.config.targets| == 1 && r.config.labels == LabelsFor(cfg, c)
  {
  }

  /** A container without the scrape label set to "true" is never scraped. */
  lemma NotOptedInIsSkipped(cfg: Config, c: Container, r: Resolution)
    requires Resolves(cfg, c, r)
    requires ScrapeAnnotation !in c.labels || c.labels[ScrapeAnnotation] != "true"
    ensures r == Skipped(NotOptedIn)
  {
  }

  /** Without a port label, zero or several port keys, or one non-TCP key,
      exclude the container without an error. */
  lemma PortPolicy(cfg: Config, c: Container, r: Resolution)
    requires Resolves(cfg, c, r) && ContainerIsManaged(c.labels)
    requires !HasNonEmpty(c.labels, PortAnnotation)
    ensures |c.ports| != 1 ==> r == Skipped(AmbiguousPort)
    ensures forall k :: k in c.ports && |c.ports| == 1 && k.proto != "tcp" ==> r == Skipped(NonTcpPort)
  {
    forall k | k in c.ports && |c.ports| == 1 && k.proto != "tcp" ensures r == Skipped(NonTcpPort) {
      var k' :| k' in c.ports && PortOf(c) == if k'.proto == "tcp" then Ok(k'.port) else Err(NonTcpPort);
      OnlyKey(c.ports, k, k');
    }
  }

  /** A container attached to the preferred network is scraped at its address
      there, whatever the IP label says, even when that address is empty. */
  lemma PreferredNetworkWins(cfg: Config, c: Container, r: Resolution)
    requires Resolves(cfg, c, r) && r.Managed?
    requires cfg.networkName in c.networks
    ensures PortOf(c).Ok?
    ensures r.config.targets == [c.networks[cfg.networkName].ipAddress + ":" + PortOf(c).value]
  {
  }

  /** Off the preferred network and without an IP label, strict networking
      excludes the container and otherwise any attached network may be used. */
  lemma FallbackNetwork(cfg: Config, c: Container)
    requires cfg.networkName !in c.networks && !HasNonEmpty(c.labels, IpAnnotation)
    ensures cfg.strict ==> AddressOptions(cfg, c) == Err(StrictNetwork)
    ensures !cfg.strict && c.networks == map[] ==> AddressOptions(cfg, c) == Err(NoNetwork)
    ensures !cfg.strict ==> forall n :: n in c.networks ==>
      AddressOptions(cfg, c).Ok? && c.networks[n].ipAddress in AddressOptions(cfg, c).value
  {
  }

  /** The value a target label gets from the last source that sets it: the
      scheme, then the path, then the metadata, then the extra labels, then
      the common labels. */
  ghost function LabelSource(cfg: Config, c: Container, k: string): Option<string>
  {
    if k == SchemeLabel && HasNonEmpty(c.labels, SchemeAnnotation) then Some(c.labels[SchemeAnnotation])
    else if k == MetricsPathLabel && HasNonEmpty(c.labels, PathAnnotation) then Some(c.labels[PathAnnotation])
    else if cfg.addMetadata && k == ContainerNameLabel then Some(c.name)
    else if cfg.addMetadata && k == ContainerIdLabel then Some(c.id)
    else if k in ExtraLabels(c) then Some(ExtraLabels(c)[k])
    else if k in cfg.commonLabels then Some(cfg.commonLabels[k])
    else None
  }

  /** The assembled labels agree, key by key, with the precedence order. */
  lemma LabelPrecedence(cfg: Config, c: Container, k: string)
    ensures k in LabelsFor(cfg, c) <==> LabelSource(cfg, c, k).Some?
    ensures k in LabelsFor(cfg, c) ==> LabelsFor(cfg, c)[k] == LabelSource(cfg, c, k).value
  {
    var base := cfg.commonLabels + ExtraLabels(c);
    var withMeta := WithMetadata(cfg, c, base);
    var withPath := WithOverride(c, PathAnnotation, MetricsPathLabel, withMeta);
    assert LabelsFor(cfg, c) == WithOverride(c, SchemeAnnotation, SchemeLabel, withPath);
  }

  /** The extra-labels annotation `env:staging` yields the one label env=staging. */
  lemma StagingExtraLabel(c: Container)
    requires ExtraLabelsAnnotation in c.labels && c.labels[ExtraLabelsAnnotation] == "env:staging"
    ensures ExtraLabels(c) == map["env" := "staging"]
  {
    var segment := "env:staging";
    assert ',' !in segment && ':' !in "env";
    assert segment == EncodePair(("env", "staging"));
    assert GetFromMapOrDefault(ExtraLabelsAnnotation, c.labels, "") == segment;
    SegmentOfPair(("env", "staging"));
    SingleSegment(segment);
  }

  /** A common label `env:prod` is overridden by the extra label `env:staging`. */
  lemma ExtraLabelOverridesCommon(cfg: Config, c: Container)
    requires cfg.commonLabels == map["env" := "prod"]
    requires c.labels == map[ScrapeAnnotation := "true", ExtraLabelsAnnotation := "env:staging"]
    ensures LabelsFor(cfg, c)["env"] == "staging"
  {
    StagingExtraLabel(c);
    assert "env" != SchemeLabel && "env" != MetricsPathLabel;
    assert "env" != ContainerIdLabel && "env" != ContainerNameLabel;
    assert LabelSource(cfg, c, "env") == Some("staging");
    LabelPrecedence(cfg, c, "env");
  }

  /** An opted-in container with the single TCP port key 8080 (bound to host
      port 32768) on the preferred network at 10.0.0.5 is scraped at
      10.0.0.5:8080: the container-side port, not the host port. */
  lemma SingleTcpPortScenario(cfg: Config, c: Container, r: Resolution)
    requires !cfg.addMetadata
    requires c.labels == map[ScrapeAnnotation := "true"]
    requires c.ports == map[PortKey("8080", "tcp") := [PortBinding("0.0.0.0", "32768")]]
    requires c.networks == map[cfg.networkName := Endpoint("10.0.0.5")]
    requires Resolves(cfg, c, r)
    ensures r == Managed(ScrapeConfig(["10.0.0.5:8080"], cfg.commonLabels))
  {
    assert ContainerIsManaged(c.labels);
    assert !HasNonEmpty(c.labels, PortAnnotation);
    var k :| k in c.ports && PortOf(c) == if k.proto == "tcp" then Ok(k.port) else Err(NonTcpPort);
    OnlyKey(c.ports, k, PortKey("8080", "tcp"));
    assert PortOf(c) == Ok("8080");
    assert AddressOptions(cfg, c) == Ok({"10.0.0.5"});
    assert "10.0.0.5" + ":" + "8080" == "10.0.0.5:8080";
    assert ExtraLabelsAnnotation !in c.labels;
    assert ExtraLabels(c) == map[];
    assert !HasNonEmpty(c.labels, PathAnnotation) && !HasNonEmpty(c.labels, SchemeAnnotation);
    assert LabelsFor(cfg, c) == cfg.commonLabels;
  }
}
