/** The goflow-kube sub-reconciler: fetch, compare, then create, update or delete. */
module GoflowReconciler {

  import opened Cluster
  import opened ClientHelper
  import opened FlowCollectorTypes
  import opened GoflowObjects
  import opened ObjectManager
  import opened Wrappers

  // ---- Is an existing object out of date? ----

  function AnnotationOf(m: map<string, string>, name: string): string {
    if name in m then m[name] else ""
  }

  predicate ConfigChanged(t: PodTemplate, digest: string) {
    AnnotationOf(t.annotations, POD_CONFIGURATION_DIGEST) != digest
  }

  predicate ContainerNeedsUpdate(t: PodTemplate, gf: GoflowKube) {
    var c := FindContainer(t.containers, GOFLOW_KUBE);
    || c.None?
    || gf.image != c.value.image
    || gf.imagePullPolicy != c.value.imagePullPolicy
    || gf.resources != c.value.resources
    || |c.value.command| != 3
    || c.value.command[2] != MainCommand(gf)
  }

  predicate DaemonSetNeedsUpdate(o: Object, gf: GoflowKube, ns: string, digest: string) {
    || o.meta.namespace != ns
    || !o.body.DaemonSet?
    || ContainerNeedsUpdate(o.body.template, gf)
    || ConfigChanged(o.body.template, digest)
  }

  predicate DeploymentNeedsUpdate(o: Object, gf: GoflowKube, ns: string, digest: string) {
    || o.meta.namespace != ns
    || !o.body.Deployment?
    || ContainerNeedsUpdate(o.body.template, gf)
    || ConfigChanged(o.body.template, digest)
    || o.body.replicas != gf.replicas
  }

  predicate ServiceNeedsUpdate(o: Object, gf: GoflowKube, ns: string) {
    || o.meta.namespace != ns
    || !o.body.Service?
    || ServicePort(gf.port, UDP) !in o.body.ports
  }

  predicate AutoscalerNeedsUpdate(o: Object, hpa: HPA, ns: string) {
    || o.meta.namespace != ns
    || !o.body.Autoscaler?
    || o.body.maxReplicas != hpa.maxReplicas
    || o.body.minReplicas != hpa.minReplicas
    || o.body.targetCPU != hpa.targetCPU
  }

  /** The search over the ports of a Service. */
  method CheckService(o: Object, gf: GoflowKube, ns: string) returns (stale: bool)
    ensures stale == ServiceNeedsUpdate(o, gf, ns)
  {
    if o.meta.namespace != ns || !o.body.Service? {
      return true;
    }
    var ports := o.body.ports;
    for i := 0 to |ports|
      invariant ServicePort(gf.port, UDP) !in ports[..i]
    {
      if ports[i].port == gf.port && ports[i].protocol == UDP {
        assert ports[i] == ServicePort(gf.port, UDP);
        return false;
      }
    }
    stale := true;
    assert ports[..|ports|] == ports;
  }

  // ---- Permissions ----

  /** The role is created once; the account follows the namespace; the binding is created once, then updated. */
  function CreatePermissions(env: Env, w: World, owner: string, ns: string, firstInstall: bool): Step {
    var role := if firstInstall then CreateOwned(env, w, owner, BuildClusterRole()) else Step(w, Ok);
    if role.st.Err? then role
    else
      var account := CreateOwned(env, role.w, owner, BuildServiceAccount(ns));
      if account.st.Err? then account
      else if firstInstall then CreateOwned(env, account.w, owner, BuildClusterRoleBinding(ns))
      else UpdateOwned(env, account.w, owner, None, BuildClusterRoleBinding(ns))
  }

  function PrepareNamespaceChange(env: Env, w: World, owner: string, ns: string, prev: string): Step {
    CreatePermissions(env, DeleteAll(env, w, ManagedKeys(prev)), owner, ns, false)
  }

  // ---- Reconciliation ----

  datatype Owned = Owned(
    deployment: Option<Object>,
    daemonSet: Option<Object>,
    service: Option<Object>,
    autoscaler: Option<Object>,
    configMap: Option<Object>)

  function OwnedFrom(found: seq<Option<Object>>): Owned
    requires |found| == 6
  {
    Owned(found[0], found[1], found[2], found[3], found[5])
  }

  /** The comparison in the source sets a ConfigMap against a map of strings, and so never finds them equal. */
  function ReconcileConfigMap(
      env: Env, w: World, owner: string, owned: Owned, gf: GoflowKube, loki: Loki, ns: string): Step
  {
    Ensure(env, w, owner, owned.configMap, true, BuildConfigMap(gf, loki, ns))
  }

  function ReconcileDeployment(
      env: Env, w: World, owner: string, owned: Owned, gf: GoflowKube, ns: string, digest: string): Step
  {
    var stale := owned.deployment.Some? && DeploymentNeedsUpdate(owned.deployment.value, gf, ns, digest);
    Ensure(env, w, owner, owned.deployment, stale, BuildDeployment(gf, ns, digest))
  }

  function ReconcileService(env: Env, w: World, owner: string, owned: Owned, gf: GoflowKube, ns: string): Step {
    var stale := owned.service.Some? && ServiceNeedsUpdate(owned.service.value, gf, ns);
    Ensure(env, w, owner, owned.service, stale, BuildService(owned.service, gf, ns))
  }

  function ReconcileAutoscaler(env: Env, w: World, owner: string, owned: Owned, gf: GoflowKube, ns: string): Step {
    if gf.hpa.None? then Step(TryDelete(env, w, owned.autoscaler), Ok)
    else
      var stale := owned.autoscaler.Some? && AutoscalerNeedsUpdate(owned.autoscaler.value, gf.hpa.value, ns);
      Ensure(env, w, owner, owned.autoscaler, stale, BuildAutoscaler(gf.hpa.value, ns))
  }

  function ReconcileAsDeployment(
      env: Env, w: World, owner: string, owned: Owned, gf: GoflowKube, ns: string, digest: string): Step
  {
    var w1 := TryDelete(env, w, owned.daemonSet);
    var s2 := ReconcileDeployment(env, w1, owner, owned, gf, ns, digest);
    if s2.st.Err? then s2
    else
      var s3 := ReconcileService(env, s2.w, owner, owned, gf, ns);
      if s3.st.Err? then s3 else ReconcileAutoscaler(env, s3.w, owner, owned, gf, ns)
  }

  function ReconcileAsDaemonSet(
      env: Env, w: World, owner: string, owned: Owned, gf: GoflowKube, ns: string, digest: string): Step
  {
    var w1 := TryDelete(env, w, owned.deployment);
    var w2 := TryDelete(env, w1, owned.service);
    var w3 := TryDelete(env, w2, owned.autoscaler);
    var stale := owned.daemonSet.Some? && DaemonSetNeedsUpdate(owned.daemonSet.value, gf, ns, digest);
    Ensure(env, w3, owner, owned.daemonSet, stale, BuildDaemonSet(gf, ns, digest))
  }

  function ReconcileWorkload(
      env: Env, w: World, owner: string, owned: Owned, gf: GoflowKube, ns: string, digest: string): Step
  {
    if gf.kind == DEPLOYMENT_KIND then ReconcileAsDeployment(env, w, owner, owned, gf, ns, digest)
    else if gf.kind == DAEMON_SET_KIND then ReconcileAsDaemonSet(env, w, owner, owned, gf, ns, digest)
    else Step(w, Err(InvalidKind(gf.kind)))
  }

  function Reconcile(env: Env, w: World, owner: string, gf: GoflowKube, loki: Loki, ns: string): Step {
    var f := FetchAll(env, w, ManagedKeys(ns));
    if f.st.Err? then Step(f.w, f.st)
    else
      var owned := OwnedFrom(f.found);
      var s := ReconcileConfigMap(env, f.w, owner, owned, gf, loki, ns);
      if s.st.Err? then s else ReconcileWorkload(env, s.w, owner, owned, gf, ns, ConfigDigest(gf, loki))
  }

}
