/** The objects of the goflow-kube collector, as the operator builds them from the specification. */
module GoflowObjects {

  import opened Cluster
  import opened Digest
  import opened FlowCollectorTypes
  import opened GoflowConfig
  import Json
  import Numerals
  import opened Wrappers

  const CONFIG_MAP := "goflow-kube-config"
  const CONFIG_FILE := "config.yaml"
  const POD_CONFIGURATION_DIGEST := "flows.netobserv.io/goflow-kube-config"
  const LABELS := map["app" := GOFLOW_KUBE]

  // ---- Keys ----

  function DeploymentKey(ns: string): Key { Key(Deployments, ns, GOFLOW_KUBE) }
  function DaemonSetKey(ns: string): Key { Key(DaemonSets, ns, GOFLOW_KUBE) }
  function ServiceKey(ns: string): Key { Key(Services, ns, GOFLOW_KUBE) }
  function AutoscalerKey(ns: string): Key { Key(Autoscalers, ns, GOFLOW_KUBE) }
  function ServiceAccountKey(ns: string): Key { Key(ServiceAccounts, ns, GOFLOW_KUBE) }
  function ConfigMapKey(ns: string): Key { Key(ConfigMaps, ns, CONFIG_MAP) }
  const CLUSTER_ROLE_KEY := Key(ClusterRoles, "", GOFLOW_KUBE)
  const BINDING_KEY := Key(ClusterRoleBindings, "", GOFLOW_KUBE)

  /** The objects registered with the manager, in the order in which they are fetched and cleaned up. */
  function ManagedKeys(ns: string): seq<Key> {
    [DeploymentKey(ns), DaemonSetKey(ns), ServiceKey(ns), AutoscalerKey(ns), ServiceAccountKey(ns), ConfigMapKey(ns)]
  }

  // ---- Builders ----

  function NewMeta(name: string, ns: string, labels: map<string, string>): Meta {
    Meta(name, ns, labels, map[], 0, None)
  }

  function MainCommand(gf: GoflowKube): string {
    "/goflow-kube -loglevel \"" + gf.logLevel + "\" -config /etc/goflow-kube/config.yaml"
  }

  function BuildPodTemplate(gf: GoflowKube, digest: string): PodTemplate {
    var hostNetwork := gf.kind == DAEMON_SET_KIND;
    PodTemplate(
      LABELS,
      map[POD_CONFIGURATION_DIGEST := digest],
      hostNetwork,
      [Container(GOFLOW_KUBE, gf.image, gf.imagePullPolicy, ["/bin/sh", "-c", MainCommand(gf)], [], gf.resources,
                 if hostNetwork then [ContainerPort(GOFLOW_KUBE, gf.port, gf.port, UDP)] else [])],
      GOFLOW_KUBE)
  }

  function BuildDeployment(gf: GoflowKube, ns: string, digest: string): Object {
    Object(NewMeta(GOFLOW_KUBE, ns, map[]), Deployment(gf.replicas, LABELS, BuildPodTemplate(gf, digest)))
  }

  function BuildDaemonSet(gf: GoflowKube, ns: string, digest: string): Object {
    Object(NewMeta(GOFLOW_KUBE, ns, map[]), DaemonSet(LABELS, BuildPodTemplate(gf, digest)))
  }

  function BuildConfigMap(gf: GoflowKube, loki: Loki, ns: string): Object {
    Object(NewMeta(CONFIG_MAP, ns, LABELS), ConfigMap(map[CONFIG_FILE := ConfigText(gf, loki)]))
  }

  function ConfigDigest(gf: GoflowKube, loki: Loki): string {
    Digest.Digest(ConfigText(gf, loki))
  }

  function CollectorPorts(gf: GoflowKube): seq<ServicePort> {
    [ServicePort(gf.port, UDP)]
  }

  /** An existing Service keeps everything but its ports: its cluster IP is immutable. */
  function BuildService(previous: Option<Object>, gf: GoflowKube, ns: string): Object {
    if previous.Some? && previous.value.body.Service? then
      previous.value.(body := previous.value.body.(ports := CollectorPorts(gf)))
    else
      Object(NewMeta(GOFLOW_KUBE, ns, LABELS), Service(LABELS, CollectorPorts(gf), 0))
  }

  function BuildAutoscaler(hpa: HPA, ns: string): Object {
    Object(NewMeta(GOFLOW_KUBE, ns, LABELS), Autoscaler(GOFLOW_KUBE, hpa.minReplicas, hpa.maxReplicas, hpa.targetCPU))
  }

  function BuildClusterRole(): Object {
    Object(NewMeta(GOFLOW_KUBE, "", LABELS), ClusterRole)
  }

  function BuildServiceAccount(ns: string): Object {
    Object(NewMeta(GOFLOW_KUBE, ns, LABELS), ServiceAccount)
  }

  function BuildClusterRoleBinding(ns: string): Object {
    Object(NewMeta(GOFLOW_KUBE, "", LABELS), ClusterRoleBinding(GOFLOW_KUBE, GOFLOW_KUBE, ns))
  }

  /** The configuration is filled field by field, rendered, and fed to the hasher. */
  method MakeConfigMap(gf: GoflowKube, loki: Loki, ns: string) returns (cm: Object, digest: string)
    ensures cm == BuildConfigMap(gf, loki, ns)
    ensures digest == ConfigDigest(gf, loki)
  {
    var config := Config(Listen(gf.port), LokiConfig("", 0, 0, 0, 0, 0, 0, [], map[]), false, gf.printOutput);
    var l := config.loki;
    l := l.(batchSize := loki.batchSize);
    l := l.(batchWait := loki.batchWait);
    l := l.(maxBackoff := loki.maxBackoff);
    l := l.(maxRetries := loki.maxRetries);
    l := l.(minBackoff := loki.minBackoff);
    l := l.(staticLabels := loki.staticLabels);
    l := l.(timeout := loki.timeout);
    l := l.(url := loki.url);
    l := l.(labels := FLOW_LABELS);
    config := config.(loki := l);
    var text := Json.Render(ConfigJson(config));
    cm := Object(NewMeta(CONFIG_MAP, ns, LABELS), ConfigMap(map[CONFIG_FILE := text]));
    var hasher := new Hasher();
    hasher.Write(Encode(text));
    digest := Numerals.Format(hasher.sum, 36);
  }

}
