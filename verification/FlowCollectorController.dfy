/** The top-level reconciler: namespace, migration, status, then the components. */
module FlowCollectorController {

  import opened Cluster
  import opened ClientHelper
  import opened FlowCollectorTypes
  import opened Wrappers
  import FlowsConfig
  import GoflowReconciler
  import PluginReconciler

  const OPERATOR_NAMESPACE := "network-observability"

  function NamespaceOf(spec: Spec): (ns: string)
    ensures ns != "" && (ns == spec.namespace || (spec.namespace == "" && ns == "network-observability"))
  {
    if spec.namespace != "" then spec.namespace else OPERATOR_NAMESPACE
  }

  function NamespaceKey(ns: string): Key { Key(Namespaces, "", ns) }

  function BuildNamespace(ns: string): Object {
    Object(Meta(ns, "", map[], map[], 0, None), Namespace)
  }

  function EnsureNamespace(env: Env, w: World, ns: string): Step {
    var a := Issue(env, Main, w, Get(NamespaceKey(ns)));
    if a.reply.Found? then Step(a.w, Ok)
    else if !a.reply.NotFound? then Step(a.w, Err(Api(a.reply)))
    else
      var c := Issue(env, Main, a.w, Create(BuildNamespace(ns)));
      Step(c.w, StatusOf(c.reply))
  }

  function InstallStatic(env: Env, w: World, owner: string, ns: string): Step {
    var s := GoflowReconciler.CreatePermissions(env, w, owner, ns, true);
    if s.st.Err? || !env.consoleEnabled then s
    else PluginReconciler.InitStaticResources(env, s.w, owner, ns)
  }

  function MoveNamespace(env: Env, w: World, owner: string, ns: string, prev: string): Step {
    var s := GoflowReconciler.PrepareNamespaceChange(env, w, owner, ns, prev);
    if s.st.Err? || !env.consoleEnabled then s
    else PluginReconciler.PrepareNamespaceChange(env, s.w, owner, ns, prev)
  }

  function HandleNamespaceChanged(env: Env, w: World, owner: string, ns: string, prev: string): Step {
    var s := if prev == "" then InstallStatic(env, w, owner, ns) else MoveNamespace(env, w, owner, ns, prev);
    if s.st.Err? then s
    else
      var a := Issue(env, Main, s.w, UpdateStatus(ns));
      Step(a.w, StatusOf(a.reply))
  }

  /** The components, once the status names their namespace. An error of the OVS controller is dropped. */
  function ReconcileComponents(env: Env, w: World, cr: FlowCollector, ns: string): Step {
    var s := GoflowReconciler.Reconcile(env, w, cr.name, cr.spec.goflowKube, cr.spec.loki, ns);
    if s.st.Err? then s
    else
      var o := FlowsConfig.Reconcile(env, s.w, cr.name, cr.spec, ns);
      if env.consoleEnabled then
        PluginReconciler.Reconcile(env, o.w, cr.name, cr.spec.consolePlugin, cr.spec.loki, ns)
      else Step(o.w, Ok)
  }

  function ReconcileLive(env: Env, w: World, cr: FlowCollector): Step {
    var ns := NamespaceOf(cr.spec);
    var s1 := EnsureNamespace(env, w, ns);
    if s1.st.Err? then s1
    else
      var s2 := if ns != cr.deployedIn then HandleNamespaceChanged(env, s1.w, cr.name, ns, cr.deployedIn) else s1;
      if s2.st.Err? then s2 else ReconcileComponents(env, s2.w, cr, ns)
  }

  function Reconcile(env: Env, w: World): Step {
    var a := Issue(env, Main, w, GetCollector);
    if a.reply.NotFound? then Step(a.w, Ok)
    else if !a.reply.FoundCollector? then Step(a.w, Err(Api(a.reply)))
    else if a.reply.cr.deleting then Step(a.w, Ok)
    else ReconcileLive(env, a.w, a.reply.cr)
  }

}
