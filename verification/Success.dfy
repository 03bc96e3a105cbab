/** Exactly when a reconciliation succeeds, when no call fails but those on a given set of keys. */
module Success {

  import opened Cluster
  import opened ClientHelper
  import opened Effects
  import opened FlowCollectorController
  import opened FlowCollectorTypes
  import opened ObjectManager
  import opened PassInduction
  import opened Safety
  import opened Wrappers
  import F = FlowsConfig
  import G = GoflowReconciler
  import GO = GoflowObjects
  import P = PluginReconciler

  /** Every call passes, except perhaps writes to the broken keys. */
  ghost predicate PassesBut(env: Env, broken: set<Key>) {
    forall who, n, call :: TargetSet(call) !! broken ==> env.faults(who, n, call) == Pass
  }

  lemma FaultFreePasses(env: Env)
    ensures FaultFree(env) <==> PassesBut(env, {})
  {
    if PassesBut(env, {}) {
      forall who, n, call ensures env.faults(who, n, call) == Pass {
        assert TargetSet(call) !! {};
      }
    }
  }

  lemma Answered(env: Env, broken: set<Key>, w: World, who: Component, call: Call)
    requires PassesBut(env, broken) && !w.crashed && TargetSet(call) !! broken
    ensures var a, served := Issue(env, who, w, call), Serve(w, call);
            !a.w.crashed && a.reply == served.reply && a.w.objs == served.w.objs && a.w.cr == served.w.cr
  {
    hide Serve;
    TraceOfServe(w, call);
    ServeCrash(w, call);
  }

  lemma ServeCrash(w: World, call: Call)
    ensures Serve(w, call).w.crashed == w.crashed
  {
  }

  // ---- The helpers ----

  lemma CreateAnswered(env: Env, broken: set<Key>, cr: FlowCollector, w: World, o: Object)
    requires PassesBut(env, broken) && !w.crashed && KeyOf(o) !in broken && o.meta.controller == None
    ensures var s := CreateOwned(env, w, cr.name, o);
            && !s.w.crashed && Frame(w, s.w, {KeyOf(o)})
            && (s.st.Ok? <==> KeyOf(o) !in w.objs)
            && (s.st.Ok? ==> Stored(s.w, Own(cr, o)))
  {
    Answered(env, broken, w, Main, Create(Own(cr, o)));
    FrameOfWrite(env, w, Main, Own(cr, o));
    WriteDone(env, w, Main, Own(cr, o));
    hide Issue;
    hide WellFormed;
  }

  /** An update succeeds iff its object is there, is not another owner's, and has not been written since it was read. */
  lemma UpdateAnswered(env: Env, broken: set<Key>, cr: FlowCollector, w: World, previous: Option<Object>, o: Object)
    requires PassesBut(env, broken) && !w.crashed && KeyOf(o) !in broken
    requires previous.Some? ==> previous == Lookup(w.objs, KeyOf(o))
    requires previous.None? ==> o.meta.resourceVersion == 0
    ensures var s := UpdateOwned(env, w, cr.name, previous, o);
            && !s.w.crashed && Frame(w, s.w, {KeyOf(o)})
            && (s.st.Ok? <==> KeyOf(o) in w.objs && SetControllerReference(cr.name, o).Some?)
            && (s.st.Ok? ==> Stored(s.w, Own(cr, o)))
  {
    var v := WithVersionOf(previous, o);
    Answered(env, broken, w, Main, Update(Own(cr, v)));
    FrameOfWrite(env, w, Main, Own(cr, v));
    WriteDone(env, w, Main, Own(cr, v));
    hide Issue;
    hide WellFormed;
  }

  /** Out of date, and not the operator's to update. */
  predicate Blocked(owner: string, previous: Option<Object>, outdated: bool) {
    outdated && previous.Some? && previous.value.meta.controller.Some? && previous.value.meta.controller.value != owner
  }

  lemma EnsureAnswered(
    env: Env, broken: set<Key>, cr: FlowCollector, w: World, previous: Option<Object>, outdated: bool, wanted: Object)
    requires PassesBut(env, broken) && !w.crashed && KeyOf(wanted) !in broken
    requires previous == Lookup(w.objs, KeyOf(wanted))
    requires wanted.meta.controller == None || previous.Some?
    ensures var s := Ensure(env, w, cr.name, previous, outdated, wanted);
            && !s.w.crashed && Frame(w, s.w, {KeyOf(wanted)})
            && (s.st.Err? <==> previous.Some? && outdated && SetControllerReference(cr.name, wanted).None?)
  {
    if previous.None? {
      CreateAnswered(env, broken, cr, w, wanted);
    } else if outdated {
      UpdateAnswered(env, broken, cr, w, previous, wanted);
    }
    hide CreateOwned;
    hide UpdateOwned;
    hide WellFormed;
  }

  lemma {:induction false} FetchAllAnswered(env: Env, broken: set<Key>, w: World, keys: seq<Key>)
    requires PassesBut(env, broken) && !w.crashed
    ensures var f := FetchAll(env, w, keys); !f.w.crashed && f.st.Ok?
    decreases |keys|
  {
    if keys == [] {
    } else {
      Answered(env, broken, w, Main, Get(keys[0]));
      hide Issue;
      FetchAllAnswered(env, broken, Issue(env, Main, w, Get(keys[0])).w, keys[1..]);
    }
  }

  lemma TryDeleteAnswered(env: Env, broken: set<Key>, w: World, fetched: Option<Object>, k: Key)
    requires PassesBut(env, broken) && !w.crashed && k !in broken && WellFormed(w.objs) && fetched == Lookup(w.objs, k)
    ensures var w' := TryDelete(env, w, fetched); !w'.crashed && Frame(w, w', {k})
  {
    if fetched.Some? {
      Answered(env, broken, w, Main, Delete(k));
      IssueObjects(env, w, Main, Delete(k));
    }
    hide Issue;
  }

  lemma {:induction false} DeleteAllAnswered(env: Env, broken: set<Key>, w: World, keys: seq<Key>)
    requires PassesBut(env, broken) && !w.crashed && forall k :: k in keys ==> k !in broken
    ensures var w' := DeleteAll(env, w, keys);
            && !w'.crashed && Frame(w, w', KeySet(keys))
            && forall k :: k in keys ==> k !in w'.objs
    decreases |keys|
  {
    if keys == [] {
    } else {
      Answered(env, broken, w, Main, Delete(keys[0]));
      IssueObjects(env, w, Main, Delete(keys[0]));
      hide Issue;
      hide WellFormed;
      hide PassesBut;
      var w1 := Issue(env, Main, w, Delete(keys[0])).w;
      DeleteAllAnswered(env, broken, w1, keys[1..]);
      var w' := DeleteAll(env, w1, keys[1..]);
      forall k | k in keys ensures k !in w'.objs {
        if k !in keys[1..] {
          assert Lookup(w1.objs, k) == Lookup(w'.objs, k);
        }
      }
    }
  }

  // ---- goflow-kube ----

  predicate ValidKind(spec: Spec) {
    spec.goflowKube.kind == DEPLOYMENT_KIND || spec.goflowKube.kind == DAEMON_SET_KIND
  }

  /** The collector's Service is out of date and belongs to another owner. */
  predicate GoflowServiceBlocked(cr: FlowCollector, objs: Objects, ns: string) {
    var svc := Lookup(objs, GO.ServiceKey(ns));
    && cr.spec.goflowKube.kind == DEPLOYMENT_KIND
    && svc.Some? && Blocked(cr.name, svc, G.ServiceNeedsUpdate(svc.value, cr.spec.goflowKube, ns))
  }

  lemma GoflowConfigMapAnswered(env: Env, broken: set<Key>, cr: FlowCollector, w: World, owned: G.Owned, ns: string)
    requires PassesBut(env, broken) && !w.crashed && GO.ConfigMapKey(ns) !in broken
    requires owned.configMap == Lookup(w.objs, GO.ConfigMapKey(ns))
    ensures var s := G.ReconcileConfigMap(env, w, cr.name, owned, cr.spec.goflowKube, cr.spec.loki, ns);
            s.st.Ok? && !s.w.crashed && Frame(w, s.w, {GO.ConfigMapKey(ns)})
  {
    hide Ensure;
    hide GO.GoflowConfig.ConfigText;
    EnsureAnswered(env, broken, cr, w, owned.configMap, true, GO.BuildConfigMap(cr.spec.goflowKube, cr.spec.loki, ns));
  }

  lemma GoflowDeploymentAnswered(
    env: Env, broken: set<Key>, cr: FlowCollector, w: World, owned: G.Owned, ns: string, digest: string)
    requires PassesBut(env, broken) && !w.crashed && GO.DeploymentKey(ns) !in broken
    requires owned.deployment == Lookup(w.objs, GO.DeploymentKey(ns))
    ensures var s := G.ReconcileDeployment(env, w, cr.name, owned, cr.spec.goflowKube, ns, digest);
            s.st.Ok? && !s.w.crashed && Frame(w, s.w, {GO.DeploymentKey(ns)})
  {
    hide Ensure;
    hide GO.BuildPodTemplate;
    var gf := cr.spec.goflowKube;
    var outdated := owned.deployment.Some? && G.DeploymentNeedsUpdate(owned.deployment.value, gf, ns, digest);
    EnsureAnswered(env, broken, cr, w, owned.deployment, outdated, GO.BuildDeployment(gf, ns, digest));
  }

  lemma GoflowServiceAnswered(env: Env, broken: set<Key>, cr: FlowCollector, w: World, owned: G.Owned, ns: string)
    requires PassesBut(env, broken) && !w.crashed && GO.ServiceKey(ns) !in broken && WellFormed(w.objs)
    requires owned.service == Lookup(w.objs, GO.ServiceKey(ns)) && cr.spec.goflowKube.kind == DEPLOYMENT_KIND
    ensures var s := G.ReconcileService(env, w, cr.name, owned, cr.spec.goflowKube, ns);
            && !s.w.crashed && Frame(w, s.w, {GO.ServiceKey(ns)})
            && (s.st.Ok? <==> !GoflowServiceBlocked(cr, w.objs, ns))
  {
    hide Ensure;
    var gf := cr.spec.goflowKube;
    var outdated := owned.service.Some? && G.ServiceNeedsUpdate(owned.service.value, gf, ns);
    var wanted := GO.BuildService(owned.service, gf, ns);
    assert KeyOf(wanted) == GO.ServiceKey(ns);
    EnsureAnswered(env, broken, cr, w, owned.service, outdated, wanted);
  }

  lemma GoflowAutoscalerAnswered(env: Env, broken: set<Key>, cr: FlowCollector, w: World, owned: G.Owned, ns: string)
    requires PassesBut(env, broken) && !w.crashed && GO.AutoscalerKey(ns) !in broken && WellFormed(w.objs)
    requires owned.autoscaler == Lookup(w.objs, GO.AutoscalerKey(ns))
    ensures var s := G.ReconcileAutoscaler(env, w, cr.name, owned, cr.spec.goflowKube, ns);
            s.st.Ok? && !s.w.crashed && Frame(w, s.w, {GO.AutoscalerKey(ns)})
  {
    hide Ensure;
    hide TryDelete;
    var gf := cr.spec.goflowKube;
    if gf.hpa.None? {
      TryDeleteAnswered(env, broken, w, owned.autoscaler, GO.AutoscalerKey(ns));
    } else {
      var outdated := owned.autoscaler.Some? && G.AutoscalerNeedsUpdate(owned.autoscaler.value, gf.hpa.value, ns);
      EnsureAnswered(env, broken, cr, w, owned.autoscaler, outdated, GO.BuildAutoscaler(gf.hpa.value, ns));
    }
  }

  lemma BlockedFrame(cr: FlowCollector, w: World, w': World, keys: set<Key>, ns: string)
    requires Frame(w, w', keys) && GO.ServiceKey(ns) !in keys && P.ServiceKey(ns) !in keys
    ensures GoflowServiceBlocked(cr, w.objs, ns) == GoflowServiceBlocked(cr, w'.objs, ns)
    ensures PluginServiceBlocked(cr, w.objs, ns) == PluginServiceBlocked(cr, w'.objs, ns)
  {
    hide G.ServiceNeedsUpdate;
    hide P.ServiceNeedsUpdate;
    hide WellFormed;
    assert Lookup(w.objs, GO.ServiceKey(ns)) == Lookup(w'.objs, GO.ServiceKey(ns));
    assert Lookup(w.objs, P.ServiceKey(ns)) == Lookup(w'.objs, P.ServiceKey(ns));
  }

  lemma AsDeploymentAnswered(
    env: Env, broken: set<Key>, cr: FlowCollector, w: World, owned: G.Owned, ns: string, digest: string)
    requires PassesBut(env, broken) && !w.crashed && GoflowKeys(ns) !! broken && WellFormed(w.objs)
    requires Fetched(w, owned, ns) && cr.spec.goflowKube.kind == DEPLOYMENT_KIND
    ensures var s := G.ReconcileAsDeployment(env, w, cr.name, owned, cr.spec.goflowKube, ns, digest);
            !s.w.crashed && (s.st.Ok? <==> !GoflowServiceBlocked(cr, w.objs, ns))
  {
    hide PassesBut;
    hide TryDelete;
    hide WellFormed;
    hide GoflowServiceBlocked;
    hide G.ReconcileDeployment;
    hide G.ReconcileService;
    hide G.ReconcileAutoscaler;
    NamesDiffer();
    var gf := cr.spec.goflowKube;
    TryDeleteAnswered(env, broken, w, owned.daemonSet, GO.DaemonSetKey(ns));
    var w1 := TryDelete(env, w, owned.daemonSet);
    GoflowDeploymentAnswered(env, broken, cr, w1, owned, ns, digest);
    var s2 := G.ReconcileDeployment(env, w1, cr.name, owned, gf, ns, digest);
    GoflowServiceAnswered(env, broken, cr, s2.w, owned, ns);
    BlockedFrame(cr, w, s2.w, {GO.DaemonSetKey(ns), GO.DeploymentKey(ns)}, ns);
    var s3 := G.ReconcileService(env, s2.w, cr.name, owned, gf, ns);
    if s3.st.Ok? {
      GoflowAutoscalerAnswered(env, broken, cr, s3.w, owned, ns);
    }
  }

  lemma AsDaemonSetAnswered(
    env: Env, broken: set<Key>, cr: FlowCollector, w: World, owned: G.Owned, ns: string, digest: string)
    requires PassesBut(env, broken) && !w.crashed && GoflowKeys(ns) !! broken && WellFormed(w.objs)
    requires Fetched(w, owned, ns)
    ensures var s := G.ReconcileAsDaemonSet(env, w, cr.name, owned, cr.spec.goflowKube, ns, digest);
            s.st.Ok? && !s.w.crashed
  {
    hide PassesBut;
    hide TryDelete;
    hide WellFormed;
    hide Ensure;
    hide G.DaemonSetNeedsUpdate;
    hide GO.BuildPodTemplate;
    var gf := cr.spec.goflowKube;
    TryDeleteAnswered(env, broken, w, owned.deployment, GO.DeploymentKey(ns));
    var w1 := TryDelete(env, w, owned.deployment);
    TryDeleteAnswered(env, broken, w1, owned.service, GO.ServiceKey(ns));
    var w2 := TryDelete(env, w1, owned.service);
    TryDeleteAnswered(env, broken, w2, owned.autoscaler, GO.AutoscalerKey(ns));
    var w3 := TryDelete(env, w2, owned.autoscaler);
    var outdated := owned.daemonSet.Some? && G.DaemonSetNeedsUpdate(owned.daemonSet.value, gf, ns, digest);
    EnsureAnswered(env, broken, cr, w3, owned.daemonSet, outdated, GO.BuildDaemonSet(gf, ns, digest));
  }

  lemma GoflowAnswered(env: Env, broken: set<Key>, cr: FlowCollector, w: World, ns: string)
    requires PassesBut(env, broken) && !w.crashed && GoflowKeys(ns) !! broken && WellFormed(w.objs)
    ensures var s := G.Reconcile(env, w, cr.name, cr.spec.goflowKube, cr.spec.loki, ns);
            !s.w.crashed && (s.st.Ok? <==> ValidKind(cr.spec) && !GoflowServiceBlocked(cr, w.objs, ns))
  {
    hide PassesBut;
    hide FetchAll;
    hide WellFormed;
    hide GO.ConfigDigest;
    hide G.ReconcileConfigMap;
    hide G.ReconcileAsDeployment;
    hide G.ReconcileAsDaemonSet;
    NamesDiffer();
    var gf, loki := cr.spec.goflowKube, cr.spec.loki;
    FetchAllAnswered(env, broken, w, GO.ManagedKeys(ns));
    FetchAllEffect(env, w, GO.ManagedKeys(ns));
    var f := FetchAll(env, w, GO.ManagedKeys(ns));
    var owned := G.OwnedFrom(f.found);
    GoflowConfigMapAnswered(env, broken, cr, f.w, owned, ns);
    var s := G.ReconcileConfigMap(env, f.w, cr.name, owned, gf, loki, ns);
    BlockedFrame(cr, w, s.w, {GO.ConfigMapKey(ns)}, ns);
    if gf.kind == DEPLOYMENT_KIND {
      AsDeploymentAnswered(env, broken, cr, s.w, owned, ns, GO.ConfigDigest(gf, loki));
    } else if gf.kind == DAEMON_SET_KIND {
      AsDaemonSetAnswered(env, broken, cr, s.w, owned, ns, GO.ConfigDigest(gf, loki));
    }
  }

  // ---- The OVS controller and the console plugin ----

  lemma OvsAnswered(env: Env, broken: set<Key>, w: World, owner: string, spec: Spec, ns: string)
    requires PassesBut(env, broken) && !w.crashed && F.OvsKey(spec.cnoNamespace) !in broken
    ensures !F.Reconcile(env, w, owner, spec, ns).w.crashed
  {
    hide F.ConfigFromMap;
    hide F.ResolveTarget;
    hide F.AsStringMap;
    var cno := spec.cnoNamespace;
    Answered(env, broken, w, Ovs, Get(F.OvsKey(cno)));
    var current := F.ReadCurrent(env, w, cno);
    if current.Current? {
      Answered(env, broken, current.w, Ovs, Get(Key(Services, ns, GOFLOW_KUBE)));
      var wanted := F.WantedConfig(env, current.w, spec, ns);
      if wanted.Desired? {
        var cm := F.BuildOvsConfigMap(owner, wanted.config, cno);
        Answered(env, broken, wanted.w, Ovs, Create(cm));
        Answered(env, broken, wanted.w, Ovs, Update(cm));
      }
    }
    hide Issue;
  }

  predicate PluginServiceBlocked(cr: FlowCollector, objs: Objects, ns: string) {
    var svc := Lookup(objs, P.ServiceKey(ns));
    svc.Some? && Blocked(cr.name, svc, P.ServiceNeedsUpdate(svc.value, cr.spec.consolePlugin, ns))
  }

  lemma PluginServiceAnswered(env: Env, broken: set<Key>, cr: FlowCollector, w: World, svc: Option<Object>, ns: string)
    requires PassesBut(env, broken) && !w.crashed && P.ServiceKey(ns) !in broken && WellFormed(w.objs)
    requires svc == Lookup(w.objs, P.ServiceKey(ns))
    ensures var s := P.ReconcileService(env, w, cr.name, svc, cr.spec.consolePlugin, ns);
            !s.w.crashed && (s.st.Ok? <==> !PluginServiceBlocked(cr, w.objs, ns))
  {
    hide Ensure;
    var p := cr.spec.consolePlugin;
    var outdated := svc.Some? && P.ServiceNeedsUpdate(svc.value, p, ns);
    var wanted := P.BuildService(svc, p, ns);
    assert KeyOf(wanted) == P.ServiceKey(ns);
    EnsureAnswered(env, broken, cr, w, svc, outdated, wanted);
  }

  lemma PluginObjectsAnswered(
    env: Env, broken: set<Key>, cr: FlowCollector, w: World,
    plugin: Option<Object>, depl: Option<Object>, svc: Option<Object>, ns: string)
    requires PassesBut(env, broken) && !w.crashed && PluginKeys(ns) !! broken && WellFormed(w.objs)
    requires plugin == Lookup(w.objs, P.PLUGIN_KEY)
    requires depl == Lookup(w.objs, P.DeploymentKey(ns)) && svc == Lookup(w.objs, P.ServiceKey(ns))
    ensures var s := P.ReconcileObjects(env, w, cr.name, plugin, depl, svc, cr.spec.consolePlugin, cr.spec.loki, ns);
            !s.w.crashed && (s.st.Ok? <==> !PluginServiceBlocked(cr, w.objs, ns))
  {
    hide PassesBut;
    hide WellFormed;
    hide Ensure;
    hide P.BuildPodTemplate;
    hide P.DeploymentNeedsUpdate;
    hide P.ReconcileService;
    hide PluginServiceBlocked;
    NamesDiffer();
    var p, loki := cr.spec.consolePlugin, cr.spec.loki;
    var stale1 := plugin.Some? && P.PluginNeedsUpdate(plugin.value, p, ns);
    EnsureAnswered(env, broken, cr, w, plugin, stale1, P.BuildConsolePlugin(p, ns));
    var s1 := P.ReconcilePlugin(env, w, cr.name, plugin, p, ns);
    var stale2 := depl.Some? && P.DeploymentNeedsUpdate(depl.value, p, loki, ns);
    EnsureAnswered(env, broken, cr, s1.w, depl, stale2, P.BuildDeployment(p, loki, ns));
    var s2 := P.ReconcileDeployment(env, s1.w, cr.name, depl, p, loki, ns);
    BlockedFrame(cr, w, s2.w, {P.PLUGIN_KEY, P.DeploymentKey(ns)}, ns);
    PluginServiceAnswered(env, broken, cr, s2.w, svc, ns);
  }

  lemma PluginAnswered(env: Env, broken: set<Key>, cr: FlowCollector, w: World, ns: string)
    requires PassesBut(env, broken) && !w.crashed && PluginKeys(ns) !! broken && WellFormed(w.objs)
    ensures var s := P.Reconcile(env, w, cr.name, cr.spec.consolePlugin, cr.spec.loki, ns);
            !s.w.crashed && (s.st.Ok? <==> !PluginServiceBlocked(cr, w.objs, ns))
  {
    hide PassesBut;
    hide FetchAll;
    hide WellFormed;
    hide P.ReconcileObjects;
    hide P.ServiceNeedsUpdate;
    FetchAllAnswered(env, broken, w, P.ManagedKeys(ns));
    FetchAllEffect(env, w, P.ManagedKeys(ns));
    var f := FetchAll(env, w, P.ManagedKeys(ns));
    Answered(env, broken, f.w, Main, Get(P.PLUGIN_KEY));
    IssueObjects(env, f.w, Main, Get(P.PLUGIN_KEY));
    GetReply(env, f.w, Main, P.PLUGIN_KEY);
    var a := Issue(env, Main, f.w, Get(P.PLUGIN_KEY));
    hide Issue;
    var plugin := if a.reply.Found? then Some(a.reply.obj) else None;
    PluginObjectsAnswered(env, broken, cr, a.w, plugin, f.found[0], f.found[1], ns);
  }

  lemma ComponentsAnswered(env: Env, broken: set<Key>, cr: FlowCollector, w: World, ns: string)
    requires PassesBut(env, broken) && !w.crashed && ComponentKeys(cr.spec, ns) !! broken && WellFormed(w.objs)
    ensures var s := ReconcileComponents(env, w, cr, ns);
            && !s.w.crashed
            && (s.st.Ok? <==> ValidKind(cr.spec) && !GoflowServiceBlocked(cr, w.objs, ns)
                              && (env.consoleEnabled ==> !PluginServiceBlocked(cr, w.objs, ns)))
  {
    hide PassesBut;
    hide WellFormed;
    hide Present;
    hide UpToDate;
    hide G.Reconcile;
    hide F.Reconcile;
    hide P.Reconcile;
    hide GoflowServiceBlocked;
    hide PluginServiceBlocked;
    NamesDiffer();
    GoflowAnswered(env, broken, cr, w, ns);
    GoflowSettles(env, cr, w, ns);
    var s := G.Reconcile(env, w, cr.name, cr.spec.goflowKube, cr.spec.loki, ns);
    OvsAnswered(env, broken, s.w, cr.name, cr.spec, ns);
    OvsEffect(env, s.w, cr.name, cr.spec, ns);
    var o := F.Reconcile(env, s.w, cr.name, cr.spec, ns);
    PluginAnswered(env, broken, cr, o.w, ns);
    PluginBlockedFrame(cr, w, o.w, GoflowKeys(ns) + {F.OvsKey(cr.spec.cnoNamespace)}, ns);
  }

  lemma PluginBlockedFrame(cr: FlowCollector, w: World, w': World, keys: set<Key>, ns: string)
    requires Frame(w, w', keys) && P.ServiceKey(ns) !in keys
    ensures PluginServiceBlocked(cr, w.objs, ns) == PluginServiceBlocked(cr, w'.objs, ns)
  {
    hide WellFormed;
    hide P.ServiceNeedsUpdate;
    assert Lookup(w.objs, P.ServiceKey(ns)) == Lookup(w'.objs, P.ServiceKey(ns));
  }

  // ---- Static resources ----

  function StaticKeys(ns: string): set<Key> {
    {GO.CLUSTER_ROLE_KEY, GO.ServiceAccountKey(ns), GO.BINDING_KEY, P.ServiceAccountKey(ns)}
  }

  /** None of the static objects is there yet. */
  predicate Uninstalled(env: Env, objs: Objects, ns: string) {
    && GO.CLUSTER_ROLE_KEY !in objs && GO.ServiceAccountKey(ns) !in objs && GO.BINDING_KEY !in objs
    && (env.consoleEnabled ==> P.ServiceAccountKey(ns) !in objs)
  }

  /** The accounts are not in the target namespace yet, and there is a binding to re-point. */
  predicate Movable(env: Env, objs: Objects, ns: string) {
    && GO.ServiceAccountKey(ns) !in objs && GO.BINDING_KEY in objs
    && (env.consoleEnabled ==> P.ServiceAccountKey(ns) !in objs)
  }

  /** What a first install or a move sets up. */
  ghost predicate SetUp(env: Env, objs: Objects, ns: string) {
    && GO.ServiceAccountKey(ns) in objs && BindingNames(objs, ns)
    && (env.consoleEnabled ==> P.ServiceAccountKey(ns) in objs)
  }

  lemma InstallAnswered(env: Env, broken: set<Key>, cr: FlowCollector, w: World, ns: string)
    requires PassesBut(env, broken) && !w.crashed && StaticKeys(ns) !! broken
    ensures var s := InstallStatic(env, w, cr.name, ns);
            && !s.w.crashed && Frame(w, s.w, StaticKeys(ns))
            && (s.st.Ok? <==> Uninstalled(env, w.objs, ns))
            && (s.st.Ok? ==> SetUp(env, s.w.objs, ns) && GO.CLUSTER_ROLE_KEY in s.w.objs)
  {
    hide PassesBut;
    hide WellFormed;
    hide CreateOwned;
    NamesDiffer();
    CreateAnswered(env, broken, cr, w, GO.BuildClusterRole());
    var s1 := CreateOwned(env, w, cr.name, GO.BuildClusterRole());
    CreateAnswered(env, broken, cr, s1.w, GO.BuildServiceAccount(ns));
    var s2 := CreateOwned(env, s1.w, cr.name, GO.BuildServiceAccount(ns));
    CreateAnswered(env, broken, cr, s2.w, GO.BuildClusterRoleBinding(ns));
    var s3 := CreateOwned(env, s2.w, cr.name, GO.BuildClusterRoleBinding(ns));
    CreateAnswered(env, broken, cr, s3.w, P.BuildServiceAccount(ns));
    Unchanged(w, s1.w, {GO.CLUSTER_ROLE_KEY}, GO.ServiceAccountKey(ns));
    Unchanged(w, s2.w, {GO.CLUSTER_ROLE_KEY, GO.ServiceAccountKey(ns)}, GO.BINDING_KEY);
    Unchanged(w, s3.w, {GO.CLUSTER_ROLE_KEY, GO.ServiceAccountKey(ns), GO.BINDING_KEY}, P.ServiceAccountKey(ns));
    Unchanged(s1.w, s3.w, {GO.ServiceAccountKey(ns), GO.BINDING_KEY}, GO.CLUSTER_ROLE_KEY);
    Unchanged(s2.w, s3.w, {GO.BINDING_KEY}, GO.ServiceAccountKey(ns));
    var s4 := CreateOwned(env, s3.w, cr.name, P.BuildServiceAccount(ns));
    Unchanged(s1.w, s4.w, {GO.ServiceAccountKey(ns), GO.BINDING_KEY, P.ServiceAccountKey(ns)}, GO.CLUSTER_ROLE_KEY);
    Unchanged(s2.w, s4.w, {GO.BINDING_KEY, P.ServiceAccountKey(ns)}, GO.ServiceAccountKey(ns));
    Unchanged(s3.w, s4.w, {P.ServiceAccountKey(ns)}, GO.BINDING_KEY);
  }

  lemma Unchanged(w: World, w': World, keys: set<Key>, k: Key)
    requires Frame(w, w', keys) && k !in keys
    ensures (k in w.objs <==> k in w'.objs) && (k in w.objs ==> w.objs[k] == w'.objs[k])
  {
    hide WellFormed;
    assert Lookup(w.objs, k) == Lookup(w'.objs, k);
  }

  lemma GoflowMoveAnswered(env: Env, broken: set<Key>, cr: FlowCollector, w: World, ns: string)
    requires PassesBut(env, broken) && !w.crashed && StaticKeys(ns) !! broken && ns != cr.deployedIn
    requires KeySet(GO.ManagedKeys(cr.deployedIn)) !! broken
    ensures var s := G.PrepareNamespaceChange(env, w, cr.name, ns, cr.deployedIn);
            && !s.w.crashed
            && Frame(w, s.w, {GO.ServiceAccountKey(ns), GO.BINDING_KEY} + KeySet(GO.ManagedKeys(cr.deployedIn)))
            && (s.st.Ok? <==> GO.ServiceAccountKey(ns) !in w.objs && GO.BINDING_KEY in w.objs)
            && (s.st.Ok? ==> GO.ServiceAccountKey(ns) in s.w.objs && BindingNames(s.w.objs, ns)
                             && forall k :: k in GO.ManagedKeys(cr.deployedIn) ==> k !in s.w.objs)
  {
    hide PassesBut;
    hide WellFormed;
    hide CreateOwned;
    hide UpdateOwned;
    hide DeleteAll;
    hide GO.ManagedKeys;
    var keys := GO.ManagedKeys(cr.deployedIn);
    ManagedNames(cr.deployedIn);
    DeleteAllAnswered(env, broken, w, keys);
    var w1 := DeleteAll(env, w, keys);
    Unchanged(w, w1, KeySet(keys), GO.ServiceAccountKey(ns));
    Unchanged(w, w1, KeySet(keys), GO.BINDING_KEY);
    CreateAnswered(env, broken, cr, w1, GO.BuildServiceAccount(ns));
    var s2 := CreateOwned(env, w1, cr.name, GO.BuildServiceAccount(ns));
    Unchanged(w1, s2.w, {GO.ServiceAccountKey(ns)}, GO.BINDING_KEY);
    UpdateAnswered(env, broken, cr, s2.w, None, GO.BuildClusterRoleBinding(ns));
    var s3 := UpdateOwned(env, s2.w, cr.name, None, GO.BuildClusterRoleBinding(ns));
    Unchanged(s2.w, s3.w, {GO.BINDING_KEY}, GO.ServiceAccountKey(ns));
    forall k | k in keys ensures k !in s3.w.objs {
      Unchanged(w1, s3.w, {GO.ServiceAccountKey(ns), GO.BINDING_KEY}, k);
    }
  }

  lemma PluginMoveAnswered(env: Env, broken: set<Key>, cr: FlowCollector, w: World, ns: string)
    requires PassesBut(env, broken) && !w.crashed && StaticKeys(ns) !! broken && ns != cr.deployedIn
    requires KeySet(P.ManagedKeys(cr.deployedIn)) !! broken
    ensures var s := P.PrepareNamespaceChange(env, w, cr.name, ns, cr.deployedIn);
            && !s.w.crashed
            && Frame(w, s.w, {P.ServiceAccountKey(ns)} + KeySet(P.ManagedKeys(cr.deployedIn)))
            && (s.st.Ok? <==> P.ServiceAccountKey(ns) !in w.objs)
            && (s.st.Ok? ==> P.ServiceAccountKey(ns) in s.w.objs
                             && forall k :: k in P.ManagedKeys(cr.deployedIn) ==> k !in s.w.objs)
  {
    hide PassesBut;
    hide WellFormed;
    hide CreateOwned;
    hide DeleteAll;
    hide P.ManagedKeys;
    var keys := P.ManagedKeys(cr.deployedIn);
    ManagedNames(cr.deployedIn);
    DeleteAllAnswered(env, broken, w, keys);
    var w1 := DeleteAll(env, w, keys);
    Unchanged(w, w1, KeySet(keys), P.ServiceAccountKey(ns));
    CreateAnswered(env, broken, cr, w1, P.BuildServiceAccount(ns));
    var s2 := CreateOwned(env, w1, cr.name, P.BuildServiceAccount(ns));
    forall k | k in keys ensures k !in s2.w.objs {
      Unchanged(w1, s2.w, {P.ServiceAccountKey(ns)}, k);
    }
  }

  lemma MoveAnswered(env: Env, broken: set<Key>, cr: FlowCollector, w: World, ns: string)
    requires PassesBut(env, broken) && !w.crashed && StaticKeys(ns) !! broken && ns != cr.deployedIn
    requires MovedKeys(cr.deployedIn) !! broken
    ensures var s := MoveNamespace(env, w, cr.name, ns, cr.deployedIn);
            && !s.w.crashed
            && Frame(w, s.w, StaticKeys(ns) - {GO.CLUSTER_ROLE_KEY} + MovedKeys(cr.deployedIn))
            && (s.st.Ok? <==> Movable(env, w.objs, ns))
            && (s.st.Ok? ==> SetUp(env, s.w.objs, ns)
                             && (forall k :: k in GO.ManagedKeys(cr.deployedIn) ==> k !in s.w.objs)
                             && (env.consoleEnabled ==>
                                   forall k :: k in P.ManagedKeys(cr.deployedIn) ==> k !in s.w.objs))
  {
    hide PassesBut;
    hide WellFormed;
    hide G.PrepareNamespaceChange;
    hide P.PrepareNamespaceChange;
    hide GO.ManagedKeys;
    hide P.ManagedKeys;
    NamesDiffer();
    ManagedNames(cr.deployedIn);
    var prev := cr.deployedIn;
    var goflow := {GO.ServiceAccountKey(ns), GO.BINDING_KEY} + KeySet(GO.ManagedKeys(prev));
    var plugin := {P.ServiceAccountKey(ns)} + KeySet(P.ManagedKeys(prev));
    GoflowMoveAnswered(env, broken, cr, w, ns);
    var s1 := G.PrepareNamespaceChange(env, w, cr.name, ns, prev);
    Unchanged(w, s1.w, goflow, P.ServiceAccountKey(ns));
    if s1.st.Ok? && env.consoleEnabled {
      PluginMoveAnswered(env, broken, cr, s1.w, ns);
      var s2 := P.PrepareNamespaceChange(env, s1.w, cr.name, ns, prev);
      Unchanged(s1.w, s2.w, plugin, GO.ServiceAccountKey(ns));
      Unchanged(s1.w, s2.w, plugin, GO.BINDING_KEY);
      forall k | k in GO.ManagedKeys(prev) ensures k !in s2.w.objs {
        Unchanged(s1.w, s2.w, plugin, k);
      }
    }
  }

  function KeySet(keys: seq<Key>): set<Key> {
    set k | k in keys
  }

  /** The keys that a move deletes. */
  function MovedKeys(prev: string): set<Key> {
    KeySet(GO.ManagedKeys(prev)) + KeySet(P.ManagedKeys(prev))
  }

  lemma ManagedNames(prev: string)
    ensures forall k :: k in GO.ManagedKeys(prev) ==> k.namespace == prev && k.name != P.PLUGIN && k != GO.BINDING_KEY
    ensures forall k :: k in P.ManagedKeys(prev) ==> k.namespace == prev && k.name == P.PLUGIN
  {
    NamesDiffer();
  }

  // ---- The whole pass ----

  /** The static resources are in the state that the pass expects. */
  predicate Ready(env: Env, cr: FlowCollector, objs: Objects) {
    var ns := NamespaceOf(cr.spec);
    || cr.deployedIn == ns
    || (cr.deployedIn == "" && Uninstalled(env, objs, ns))
    || (cr.deployedIn != "" && Movable(env, objs, ns))
  }

  /** Only the given keys may differ, whatever the status. */
  ghost predicate Touches(w: World, w': World, keys: set<Key>) {
    && (WellFormed(w.objs) ==> WellFormed(w'.objs))
    && forall k :: k !in keys ==> Lookup(w.objs, k) == Lookup(w'.objs, k)
  }

  function HandledKeys(prev: string, ns: string): set<Key> {
    StaticKeys(ns) + if prev == "" then {} else MovedKeys(prev)
  }

  /** What a change of namespace leaves behind when it succeeds. */
  ghost predicate Changed(env: Env, cr: FlowCollector, objs: Objects) {
    && SetUp(env, objs, NamespaceOf(cr.spec))
    && (cr.deployedIn == "" ==> GO.CLUSTER_ROLE_KEY in objs)
    && (cr.deployedIn != "" ==> forall k :: k in GO.ManagedKeys(cr.deployedIn) ==> k !in objs)
    && (cr.deployedIn != "" && env.consoleEnabled ==> forall k :: k in P.ManagedKeys(cr.deployedIn) ==> k !in objs)
  }

  lemma HandleAnswered(env: Env, broken: set<Key>, cr: FlowCollector, w: World, ns: string)
    requires PassesBut(env, broken) && !w.crashed && StaticKeys(ns) !! broken && MovedKeys(cr.deployedIn) !! broken
    requires w.cr == Some(cr) && ns == NamespaceOf(cr.spec) && ns != cr.deployedIn
    ensures var s := HandleNamespaceChanged(env, w, cr.name, ns, cr.deployedIn);
            && !s.w.crashed
            && Touches(w, s.w, HandledKeys(cr.deployedIn, ns))
            && (s.st.Ok? <==> Ready(env, cr, w.objs))
            && (s.st.Ok? ==> s.w.cr == Some(cr.(deployedIn := ns)) && Changed(env, cr, s.w.objs))
            && (s.st.Err? ==> s.w.cr == w.cr)
            && (cr.deployedIn != "" ==> (GO.CLUSTER_ROLE_KEY in s.w.objs <==> GO.CLUSTER_ROLE_KEY in w.objs))
  {
    hide WellFormed;
    hide InstallStatic;
    hide MoveNamespace;
    hide GO.ManagedKeys;
    hide P.ManagedKeys;
    var prev := cr.deployedIn;
    if prev == "" {
      InstallAnswered(env, broken, cr, w, ns);
    } else {
      MoveAnswered(env, broken, cr, w, ns);
      var keys := StaticKeys(ns) - {GO.CLUSTER_ROLE_KEY} + MovedKeys(prev);
      RoleNotMoved(prev);
      Unchanged(w, MoveNamespace(env, w, cr.name, ns, prev).w, keys, GO.CLUSTER_ROLE_KEY);
    }
    var s := if prev == "" then InstallStatic(env, w, cr.name, ns) else MoveNamespace(env, w, cr.name, ns, prev);
    Answered(env, broken, s.w, Main, UpdateStatus(ns));
    hide Issue;
    hide PassesBut;
    hide SetUp;
    hide Uninstalled;
    hide Movable;
  }

  lemma RoleNotMoved(prev: string)
    ensures GO.CLUSTER_ROLE_KEY !in MovedKeys(prev)
  {
  }

  lemma NamespaceAnswered(env: Env, broken: set<Key>, w: World, ns: string)
    requires PassesBut(env, broken) && !w.crashed && NamespaceKey(ns) !in broken
    ensures var s := EnsureNamespace(env, w, ns);
            s.st.Ok? && !s.w.crashed && Frame(w, s.w, {NamespaceKey(ns)}) && NamespaceKey(ns) in s.w.objs
  {
    var get := Get(NamespaceKey(ns));
    Answered(env, broken, w, Main, get);
    IssueObjects(env, w, Main, get);
    var w1 := Issue(env, Main, w, get).w;
    Answered(env, broken, w1, Main, Create(BuildNamespace(ns)));
    FrameOfWrite(env, w1, Main, BuildNamespace(ns));
    WriteDone(env, w1, Main, BuildNamespace(ns));
    hide Issue;
    hide WellFormed;
  }

  function PassKeys(cr: FlowCollector): set<Key> {
    var ns := NamespaceOf(cr.spec);
    {NamespaceKey(ns)} + StaticKeys(ns) + MovedKeys(cr.deployedIn) + ComponentKeys(cr.spec, ns)
  }

  /** A Service the pass must update belongs to another owner. */
  predicate ServiceBlocked(env: Env, cr: FlowCollector, objs: Objects) {
    var ns := NamespaceOf(cr.spec);
    GoflowServiceBlocked(cr, objs, ns) || (env.consoleEnabled && PluginServiceBlocked(cr, objs, ns))
  }

  lemma ServiceBlockedFrame(env: Env, cr: FlowCollector, w: World, w': World, keys: set<Key>)
    requires Touches(w, w', keys)
    requires GO.ServiceKey(NamespaceOf(cr.spec)) !in keys && P.ServiceKey(NamespaceOf(cr.spec)) !in keys
    ensures ServiceBlocked(env, cr, w.objs) == ServiceBlocked(env, cr, w'.objs)
  {
    hide WellFormed;
    hide G.ServiceNeedsUpdate;
    hide P.ServiceNeedsUpdate;
    var ns := NamespaceOf(cr.spec);
    assert Lookup(w.objs, GO.ServiceKey(ns)) == Lookup(w'.objs, GO.ServiceKey(ns));
    assert Lookup(w.objs, P.ServiceKey(ns)) == Lookup(w'.objs, P.ServiceKey(ns));
  }

  /** The change of namespace, when there is one, before the components. */
  function Prepare(env: Env, w: World, cr: FlowCollector, ns: string): Step {
    if ns != cr.deployedIn then HandleNamespaceChanged(env, w, cr.name, ns, cr.deployedIn) else Step(w, Ok)
  }

  lemma PrepareAnswered(env: Env, broken: set<Key>, cr: FlowCollector, w: World, ns: string)
    requires PassesBut(env, broken) && !w.crashed && PassKeys(cr) !! broken && WellFormed(w.objs)
    requires w.cr == Some(cr) && ns == NamespaceOf(cr.spec)
    ensures var s := Prepare(env, w, cr, ns);
            && !s.w.crashed && WellFormed(s.w.objs)
            && (s.st.Ok? <==> Ready(env, cr, w.objs))
            && (s.st.Ok? ==> s.w.cr == Some(cr.(deployedIn := ns)))
            && (s.st.Err? ==> s.w.cr == w.cr)
            && ServiceBlocked(env, cr, w.objs) == ServiceBlocked(env, cr, s.w.objs)
  {
    hide HandleNamespaceChanged;
    hide WellFormed;
    hide Changed;
    hide Uninstalled;
    hide Movable;
    hide PassesBut;
    hide GoflowServiceBlocked;
    hide PluginServiceBlocked;
    if ns != cr.deployedIn {
      HandleAnswered(env, broken, cr, w, ns);
      ServicesNotMoved(cr, ns);
      ServiceBlockedFrame(env, cr, w, Prepare(env, w, cr, ns).w, HandledKeys(cr.deployedIn, ns));
    }
  }

  lemma ServicesNotMoved(cr: FlowCollector, ns: string)
    requires ns != cr.deployedIn
    ensures GO.ServiceKey(ns) !in HandledKeys(cr.deployedIn, ns)
    ensures P.ServiceKey(ns) !in HandledKeys(cr.deployedIn, ns)
  {
    NamesDiffer();
    ManagedNames(cr.deployedIn);
  }

  lemma ReadyFrame(env: Env, cr: FlowCollector, w: World, w': World)
    requires Frame(w, w', {NamespaceKey(NamespaceOf(cr.spec))})
    ensures Ready(env, cr, w.objs) == Ready(env, cr, w'.objs)
    ensures ServiceBlocked(env, cr, w.objs) == ServiceBlocked(env, cr, w'.objs)
  {
    var ns := NamespaceOf(cr.spec);
    hide WellFormed;
    var keys := {NamespaceKey(ns)};
    Unchanged(w, w', keys, GO.CLUSTER_ROLE_KEY);
    Unchanged(w, w', keys, GO.BINDING_KEY);
    Unchanged(w, w', keys, GO.ServiceAccountKey(ns));
    Unchanged(w, w', keys, P.ServiceAccountKey(ns));
    hide GoflowServiceBlocked;
    hide PluginServiceBlocked;
    ServiceBlockedFrame(env, cr, w, w', {NamespaceKey(ns)});
  }

  /** The pass up to the components. */
  function Preparation(env: Env, w: World, cr: FlowCollector): Step {
    var a := Issue(env, Main, w, GetCollector);
    Prepare(env, EnsureNamespace(env, a.w, NamespaceOf(cr.spec)).w, cr, NamespaceOf(cr.spec))
  }

  /** The state in which the change of namespace starts. */
  function Entry(env: Env, w: World, cr: FlowCollector): World {
    EnsureNamespace(env, Issue(env, Main, w, GetCollector).w, NamespaceOf(cr.spec)).w
  }

  lemma EntryAnswered(env: Env, broken: set<Key>, w: World)
    requires w.cr.Some? && !w.cr.value.deleting && !w.crashed && WellFormed(w.objs)
    requires PassesBut(env, broken) && NamespaceKey(NamespaceOf(w.cr.value.spec)) !in broken
    ensures var cr := w.cr.value; var e := Entry(env, w, cr); var p := Preparation(env, w, cr);
            && !e.crashed && Frame(w, e, {NamespaceKey(NamespaceOf(cr.spec))})
            && p == Prepare(env, e, cr, NamespaceOf(cr.spec))
            && Reconcile(env, w) == if p.st.Err? then p else ReconcileComponents(env, p.w, cr, NamespaceOf(cr.spec))
  {
    hide WellFormed;
    hide EnsureNamespace;
    hide HandleNamespaceChanged;
    hide ReconcileComponents;
    var cr := w.cr.value;
    Answered(env, broken, w, Main, GetCollector);
    IssueObjects(env, w, Main, GetCollector);
    CollectorReply(env, w);
    var a := Issue(env, Main, w, GetCollector);
    hide Issue;
    NamespaceAnswered(env, broken, a.w, NamespaceOf(cr.spec));
  }

  /** A pass over a live resource succeeds iff the kind is valid, the static resources are as the status says, and no
      Service it must update belongs to another owner. Whether it succeeds or not, it commits the namespace iff the
      static resources are as the status says. */
  lemma PassAnswered(env: Env, broken: set<Key>, w: World)
    requires w.cr.Some? && !w.cr.value.deleting && !w.crashed && WellFormed(w.objs)
    requires PassesBut(env, broken) && PassKeys(w.cr.value) !! broken
    ensures var cr, s := w.cr.value, Reconcile(env, w);
            && !s.w.crashed && WellFormed(s.w.objs)
            && (s.st.Ok? <==> ValidKind(cr.spec) && Ready(env, cr, w.objs) && !ServiceBlocked(env, cr, w.objs))
            && s.w.cr == Some(if Ready(env, cr, w.objs) then cr.(deployedIn := NamespaceOf(cr.spec)) else cr)
  {
    hide WellFormed;
    hide PassesBut;
    hide Entry;
    hide Preparation;
    hide Prepare;
    hide Reconcile;
    hide ReconcileComponents;
    hide Ready;
    hide GoflowServiceBlocked;
    hide PluginServiceBlocked;
    var cr := w.cr.value;
    var ns := NamespaceOf(cr.spec);
    EntryAnswered(env, broken, w);
    var e := Entry(env, w, cr);
    ReadyFrame(env, cr, w, e);
    PrepareAnswered(env, broken, cr, e, ns);
    var p := Prepare(env, e, cr, ns);
    if p.st.Ok? {
      ComponentsAnswered(env, broken, cr, p.w, ns);
      ComponentsFrame(env, cr, p.w, ns);
    }
    if cr.deployedIn == ns {
      ReadyStatus(env, cr, w.objs);
    }
  }

  lemma ReadyStatus(env: Env, cr: FlowCollector, objs: Objects)
    requires cr.deployedIn == NamespaceOf(cr.spec)
    ensures Ready(env, cr, objs) && cr.(deployedIn := NamespaceOf(cr.spec)) == cr
  {
  }

  lemma ComponentsFrame(env: Env, cr: FlowCollector, w: World, ns: string)
    requires WellFormed(w.objs)
    ensures Frame(w, ReconcileComponents(env, w, cr, ns).w, ComponentKeys(cr.spec, ns))
  {
    hide ReconcileComponents;
    hide UpToDate;
    hide PluginUpToDate;
    ComponentsSettle(env, cr, w, ns);
  }

}
