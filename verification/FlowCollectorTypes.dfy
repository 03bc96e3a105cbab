/** The FlowCollector custom resource: the specification a user edits and the status the operator commits. */
module FlowCollectorTypes {

  import opened Wrappers

  type int32 = x: int | -0x8000_0000 <= x < 0x8000_0000
  type int64 = x: int | -0x8000_0000_0000_0000 <= x < 0x8000_0000_0000_0000

  const DEPLOYMENT_KIND := "Deployment"
  const DAEMON_SET_KIND := "DaemonSet"
  const GOFLOW_KUBE := "goflow-kube"

  /** Compute resources, compared by value. */
  datatype Resources = Resources(limits: map<string, string>, requests: map<string, string>)

  datatype IPFIX = IPFIX(cacheActiveTimeout: string, cacheMaxFlows: int32, sampling: int32)

  datatype HPA = HPA(minReplicas: Option<int32>, maxReplicas: int32, targetCPU: Option<int32>)

  datatype GoflowKube = GoflowKube(
    kind: string,
    replicas: int32,
    hpa: Option<HPA>,
    port: int32,
    image: string,
    imagePullPolicy: string,
    logLevel: string,
    resources: Resources,
    printOutput: bool)

  /** Durations are counted in nanoseconds, as Go counts them. */
  datatype Loki = Loki(
    url: string,
    querierURL: string,
    batchWait: int64,
    batchSize: int64,
    timeout: int64,
    minBackoff: int64,
    maxBackoff: int64,
    maxRetries: int32,
    staticLabels: map<string, string>)

  datatype ConsolePluginSpec = ConsolePluginSpec(
    replicas: int32,
    port: int32,
    image: string,
    imagePullPolicy: string,
    resources: Resources)

  datatype Spec = Spec(
    namespace: string,
    ipfix: IPFIX,
    goflowKube: GoflowKube,
    loki: Loki,
    consolePlugin: ConsolePluginSpec,
    cnoNamespace: string)

  /** `deployedIn` is Status.Namespace: where the components were last deployed, "" before the first install. */
  datatype FlowCollector = FlowCollector(name: string, deleting: bool, spec: Spec, deployedIn: string)

}
