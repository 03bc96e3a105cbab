/** The console plugin: its objects, and the sub-reconciler that keeps them. */
module PluginReconciler {

  import opened Cluster
  import opened ClientHelper
  import opened FlowCollectorTypes
  import opened ObjectManager
  import opened Wrappers

  const PLUGIN := "network-observability-plugin"
  const LOKI_URL_ANNOTATION := "flows.netobserv.io/loki-url"
  const SERVING_CERT_ANNOTATION := "service.alpha.openshift.io/serving-cert-secret-name"
  const LABELS := map["app" := PLUGIN]

  function DeploymentKey(ns: string): Key { Key(Deployments, ns, PLUGIN) }
  function ServiceKey(ns: string): Key { Key(Services, ns, PLUGIN) }
  function ServiceAccountKey(ns: string): Key { Key(ServiceAccounts, ns, PLUGIN) }
  const PLUGIN_KEY := Key(ConsolePlugins, "", PLUGIN)

  function ManagedKeys(ns: string): seq<Key> {
    [DeploymentKey(ns), ServiceKey(ns), ServiceAccountKey(ns)]
  }

  // ---- Builders ----

  function QuerierURL(loki: Loki): string {
    if loki.querierURL != "" then loki.querierURL else loki.url
  }

  function BuildConsolePlugin(p: ConsolePluginSpec, ns: string): Object {
    Object(Meta(PLUGIN, "", map[], map[], 0, None), ConsolePlugin("Network Observability plugin", PLUGIN, ns, p.port))
  }

  function BuildPodTemplate(p: ConsolePluginSpec, loki: Loki): PodTemplate {
    PodTemplate(
      LABELS,
      map[],
      false,
      [Container(PLUGIN, p.image, p.imagePullPolicy, [],
                 ["-cert", "/var/serving-cert/tls.crt", "-key", "/var/serving-cert/tls.key", "-loki", QuerierURL(loki)],
                 p.resources, [])],
      PLUGIN)
  }

  function BuildDeployment(p: ConsolePluginSpec, loki: Loki, ns: string): Object {
    Object(Meta(PLUGIN, ns, map[], map[LOKI_URL_ANNOTATION := QuerierURL(loki)], 0, None),
           Deployment(p.replicas, LABELS, BuildPodTemplate(p, loki)))
  }

  /** A new Service listens over TCP; an existing one is given a UDP port, as the source has it. */
  function BuildService(previous: Option<Object>, p: ConsolePluginSpec, ns: string): Object {
    if previous.Some? && previous.value.body.Service? then
      previous.value.(body := previous.value.body.(ports := [ServicePort(p.port, UDP)]))
    else
      Object(Meta(PLUGIN, ns, LABELS, map[SERVING_CERT_ANNOTATION := "console-serving-cert"], 0, None),
             Service(LABELS, [ServicePort(p.port, TCP)], 0))
  }

  function BuildServiceAccount(ns: string): Object {
    Object(Meta(PLUGIN, ns, LABELS, map[], 0, None), ServiceAccount)
  }

  // ---- Is an existing object out of date? ----

  predicate PluginNeedsUpdate(o: Object, p: ConsolePluginSpec, ns: string) {
    || !o.body.ConsolePlugin?
    || o.body.serviceNamespace != ns
    || o.body.port != p.port
  }

  predicate ContainerNeedsUpdate(t: PodTemplate, p: ConsolePluginSpec) {
    var c := FindContainer(t.containers, PLUGIN);
    || c.None?
    || p.image != c.value.image
    || p.imagePullPolicy != c.value.imagePullPolicy
    || p.resources != c.value.resources
  }

  predicate LokiURLChanged(o: Object, loki: Loki) {
    (if LOKI_URL_ANNOTATION in o.meta.annotations then o.meta.annotations[LOKI_URL_ANNOTATION] else "")
    != QuerierURL(loki)
  }

  predicate DeploymentNeedsUpdate(o: Object, p: ConsolePluginSpec, loki: Loki, ns: string) {
    || o.meta.namespace != ns
    || !o.body.Deployment?
    || ContainerNeedsUpdate(o.body.template, p)
    || LokiURLChanged(o, loki)
    || o.body.replicas != p.replicas
  }

  predicate ServiceNeedsUpdate(o: Object, p: ConsolePluginSpec, ns: string) {
    || o.meta.namespace != ns
    || !o.body.Service?
    || ServicePort(p.port, TCP) !in o.body.ports
  }

  // ---- Reconciliation ----

  function InitStaticResources(env: Env, w: World, owner: string, ns: string): Step {
    CreateOwned(env, w, owner, BuildServiceAccount(ns))
  }

  function PrepareNamespaceChange(env: Env, w: World, owner: string, ns: string, prev: string): Step {
    CreateOwned(env, DeleteAll(env, w, ManagedKeys(prev)), owner, BuildServiceAccount(ns))
  }

  function ReconcilePlugin(
      env: Env, w: World, owner: string, plugin: Option<Object>, p: ConsolePluginSpec, ns: string): Step
  {
    var stale := plugin.Some? && PluginNeedsUpdate(plugin.value, p, ns);
    Ensure(env, w, owner, plugin, stale, BuildConsolePlugin(p, ns))
  }

  function ReconcileDeployment(
      env: Env, w: World, owner: string, depl: Option<Object>, p: ConsolePluginSpec, loki: Loki, ns: string): Step
  {
    var stale := depl.Some? && DeploymentNeedsUpdate(depl.value, p, loki, ns);
    Ensure(env, w, owner, depl, stale, BuildDeployment(p, loki, ns))
  }

  function ReconcileService(
      env: Env, w: World, owner: string, svc: Option<Object>, p: ConsolePluginSpec, ns: string): Step
  {
    var stale := svc.Some? && ServiceNeedsUpdate(svc.value, p, ns);
    Ensure(env, w, owner, svc, stale, BuildService(svc, p, ns))
  }

  function ReconcileObjects(
    env: Env, w: World, owner: string, plugin: Option<Object>, depl: Option<Object>, svc: Option<Object>,
    p: ConsolePluginSpec, loki: Loki, ns: string): Step
  {
    var s1 := ReconcilePlugin(env, w, owner, plugin, p, ns);
    if s1.st.Err? then s1
    else
      var s2 := ReconcileDeployment(env, s1.w, owner, depl, p, loki, ns);
      if s2.st.Err? then s2 else ReconcileService(env, s2.w, owner, svc, p, ns)
  }

  function Reconcile(env: Env, w: World, owner: string, p: ConsolePluginSpec, loki: Loki, ns: string): Step {
    var f := FetchAll(env, w, ManagedKeys(ns));
    if f.st.Err? then Step(f.w, f.st)
    else
      var a := Issue(env, Main, f.w, Get(PLUGIN_KEY));
      if !a.reply.Found? && !a.reply.NotFound? then Step(a.w, Err(Api(a.reply)))
      else
        var plugin := if a.reply.Found? then Some(a.reply.obj) else None;
        ReconcileObjects(env, a.w, owner, plugin, f.found[0], f.found[1], p, loki, ns)
  }

}
