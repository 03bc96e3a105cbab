/** The induction principle itself, walked through each reconciler in turn. */
module PassInduction {

  import opened Cluster
  import opened ClientHelper
  import opened FlowCollectorController
  import opened FlowCollectorTypes
  import opened ObjectManager
  import opened Safety
  import opened Wrappers
  import F = FlowsConfig
  import G = GoflowReconciler
  import GO = GoflowObjects
  import P = PluginReconciler

  /** I still holds, the objects are well formed, and the phase has not changed. */
  ghost predicate Kept(I: World -> bool, w: World, w': World) {
    I(w') && WellFormed(w'.objs) && w'.cr == w.cr && (w.crashed ==> w'.crashed)
  }

  // ---- Create, update or leave ----

  lemma EnsureKeeps(
    env: Env, cr: FlowCollector, I: World -> bool, w: World, previous: Option<Object>, stale: bool, wanted: Object)
    requires Closed(env, cr, I) && I(w) && WellFormed(w.objs)
    requires previous == Lookup(w.objs, KeyOf(wanted))
    requires previous.None? ==> wanted.meta.controller == None
    requires w.crashed || previous.Some? || CreateGuard(env, cr, w, Main, Own(cr, wanted))
    requires w.crashed || previous.None? || UpdateGuard(env, cr, w, Main, Own(cr, WithVersionOf(previous, wanted)))
    ensures var s := Ensure(env, w, cr.name, previous, stale, wanted);
            I(s.w) && FrameC(env, w, s.w, {KeyOf(wanted)})
  {
    hide Issue;
    hide CreateGuard;
    hide UpdateGuard;
    if previous.None? {
      CreateKeeps(env, cr, I, w, wanted);
    } else if stale {
      UpdateKeeps(env, cr, I, w, previous, wanted);
    }
  }

  /** A component other than a Service is created, or updated with the version that was read. */
  lemma ComponentKeeps(
      env: Env, cr: FlowCollector, I: World -> bool, w: World, previous: Option<Object>, stale: bool, wanted: Object)
    requires Closed(env, cr, I) && I(w) && WellFormed(w.objs) && Working(cr, w)
    requires previous == Lookup(w.objs, KeyOf(wanted))
    requires wanted.meta.controller == None && wanted.meta.resourceVersion == 0
    requires w.crashed || ComponentObject(env, cr, w, Own(cr, wanted))
    ensures var s := Ensure(env, w, cr.name, previous, stale, wanted);
            I(s.w) && FrameC(env, w, s.w, {KeyOf(wanted)})
  {
    hide ComponentObject;
    hide Issue;
    hide Ensure;
    assert Unversioned(Own(cr, WithVersionOf(previous, wanted))) == Own(cr, wanted);
    EnsureKeeps(env, cr, I, w, previous, stale, wanted);
  }

  // ---- goflow-kube ----

  ghost predicate Fetched(w: World, owned: G.Owned, ns: string) {
    && owned.deployment == Lookup(w.objs, GO.DeploymentKey(ns))
    && owned.daemonSet == Lookup(w.objs, GO.DaemonSetKey(ns))
    && owned.service == Lookup(w.objs, GO.ServiceKey(ns))
    && owned.autoscaler == Lookup(w.objs, GO.AutoscalerKey(ns))
  }

  lemma GoflowServiceKeeps(env: Env, cr: FlowCollector, I: World -> bool, w: World, owned: G.Owned, ns: string)
    requires Closed(env, cr, I) && I(w) && WellFormed(w.objs) && Working(cr, w)
    requires ns == NamespaceOf(cr.spec) && cr.spec.goflowKube.kind == DEPLOYMENT_KIND
    requires owned.service == Lookup(w.objs, GO.ServiceKey(ns))
    ensures var s := G.ReconcileService(env, w, cr.name, owned, cr.spec.goflowKube, ns);
            I(s.w) && FrameC(env, w, s.w, {GO.ServiceKey(ns)})
  {
    hide Issue;
    hide Ensure;
    var stale := owned.service.Some? && G.ServiceNeedsUpdate(owned.service.value, cr.spec.goflowKube, ns);
    var wanted := GO.BuildService(owned.service, cr.spec.goflowKube, ns);
    assert KeyOf(wanted) == GO.ServiceKey(ns);
    assert owned.service.Some? ==> WithVersionOf(owned.service, wanted) == wanted;
    EnsureKeeps(env, cr, I, w, owned.service, stale, wanted);
  }

  lemma GoflowAutoscalerKeeps(env: Env, cr: FlowCollector, I: World -> bool, w: World, owned: G.Owned, ns: string)
    requires Closed(env, cr, I) && I(w) && WellFormed(w.objs) && Working(cr, w)
    requires ns == NamespaceOf(cr.spec) && cr.spec.goflowKube.kind == DEPLOYMENT_KIND
    requires owned.autoscaler == Lookup(w.objs, GO.AutoscalerKey(ns))
    ensures var s := G.ReconcileAutoscaler(env, w, cr.name, owned, cr.spec.goflowKube, ns);
            I(s.w) && FrameC(env, w, s.w, {GO.AutoscalerKey(ns)})
  {
    hide Issue;
    hide Ensure;
    hide TryDelete;
    hide Cleared;
    hide PluginObject;
    hide GO.ConfigDigest;
    hide GO.BuildConfigMap;
    hide GO.BuildDeployment;
    hide GO.BuildDaemonSet;
    var gf := cr.spec.goflowKube;
    if gf.hpa.None? {
      TryDeleteKeeps(env, cr, I, w, owned.autoscaler, GO.AutoscalerKey(ns));
    } else {
      var stale := owned.autoscaler.Some? && G.AutoscalerNeedsUpdate(owned.autoscaler.value, gf.hpa.value, ns);
      ComponentKeeps(env, cr, I, w, owned.autoscaler, stale, GO.BuildAutoscaler(gf.hpa.value, ns));
    }
  }

  lemma DeploymentKeeps(env: Env, cr: FlowCollector, I: World -> bool, w: World, owned: G.Owned, ns: string)
    requires Closed(env, cr, I) && I(w) && WellFormed(w.objs) && Working(cr, w)
    requires ns == NamespaceOf(cr.spec) && cr.spec.goflowKube.kind == DEPLOYMENT_KIND
    requires w.crashed || Cleared(env, w, GO.DaemonSetKey(ns))
    requires owned.deployment == Lookup(w.objs, GO.DeploymentKey(ns))
    ensures var digest := GO.ConfigDigest(cr.spec.goflowKube, cr.spec.loki);
            var s := G.ReconcileDeployment(env, w, cr.name, owned, cr.spec.goflowKube, ns, digest);
            I(s.w) && FrameC(env, w, s.w, {GO.DeploymentKey(ns)})
  {
    hide Ensure;
    hide Cleared;
    hide GO.ConfigDigest;
    hide GO.BuildPodTemplate;
    var gf, digest := cr.spec.goflowKube, GO.ConfigDigest(cr.spec.goflowKube, cr.spec.loki);
    var stale := owned.deployment.Some? && G.DeploymentNeedsUpdate(owned.deployment.value, gf, ns, digest);
    ComponentKeeps(env, cr, I, w, owned.deployment, stale, GO.BuildDeployment(gf, ns, digest));
  }

  lemma AsDeploymentKeeps(env: Env, cr: FlowCollector, I: World -> bool, w: World, owned: G.Owned, ns: string)
    requires Closed(env, cr, I) && I(w) && WellFormed(w.objs) && Working(cr, w)
    requires ns == NamespaceOf(cr.spec) && cr.spec.goflowKube.kind == DEPLOYMENT_KIND
    requires Fetched(w, owned, ns)
    ensures var digest := GO.ConfigDigest(cr.spec.goflowKube, cr.spec.loki);
            Kept(I, w, G.ReconcileAsDeployment(env, w, cr.name, owned, cr.spec.goflowKube, ns, digest).w)
  {
    hide Issue;
    hide TryDelete;
    hide Cleared;
    hide WellFormed;
    hide ComponentObject;
    hide ServiceOf;
    hide G.ReconcileDeployment;
    hide G.ReconcileService;
    hide G.ReconcileAutoscaler;
    hide GO.ConfigDigest;
    var gf, digest := cr.spec.goflowKube, GO.ConfigDigest(cr.spec.goflowKube, cr.spec.loki);
    TryDeleteKeeps(env, cr, I, w, owned.daemonSet, GO.DaemonSetKey(ns));
    var w1 := TryDelete(env, w, owned.daemonSet);
    DeploymentKeeps(env, cr, I, w1, owned, ns);
    var s2 := G.ReconcileDeployment(env, w1, cr.name, owned, gf, ns, digest);
    if s2.st.Ok? {
      GoflowServiceKeeps(env, cr, I, s2.w, owned, ns);
      var s3 := G.ReconcileService(env, s2.w, cr.name, owned, gf, ns);
      if s3.st.Ok? {
        GoflowAutoscalerKeeps(env, cr, I, s3.w, owned, ns);
      }
    }
  }

  lemma DaemonSetKeeps(env: Env, cr: FlowCollector, I: World -> bool, w: World, previous: Option<Object>, ns: string)
    requires Closed(env, cr, I) && I(w) && WellFormed(w.objs) && Working(cr, w)
    requires ns == NamespaceOf(cr.spec) && cr.spec.goflowKube.kind == DAEMON_SET_KIND
    requires w.crashed || (Cleared(env, w, GO.DeploymentKey(ns)) && Cleared(env, w, GO.ServiceKey(ns))
                           && Cleared(env, w, GO.AutoscalerKey(ns)))
    requires previous == Lookup(w.objs, GO.DaemonSetKey(ns))
    ensures var digest := GO.ConfigDigest(cr.spec.goflowKube, cr.spec.loki);
            var stale := previous.Some? && G.DaemonSetNeedsUpdate(previous.value, cr.spec.goflowKube, ns, digest);
            var s := Ensure(env, w, cr.name, previous, stale, GO.BuildDaemonSet(cr.spec.goflowKube, ns, digest));
            Kept(I, w, s.w)
  {
    hide Ensure;
    hide Cleared;
    hide GO.ConfigDigest;
    hide GO.BuildPodTemplate;
    var gf, digest := cr.spec.goflowKube, GO.ConfigDigest(cr.spec.goflowKube, cr.spec.loki);
    var stale := previous.Some? && G.DaemonSetNeedsUpdate(previous.value, gf, ns, digest);
    ComponentKeeps(env, cr, I, w, previous, stale, GO.BuildDaemonSet(gf, ns, digest));
  }

  lemma AsDaemonSetKeeps(env: Env, cr: FlowCollector, I: World -> bool, w: World, owned: G.Owned, ns: string)
    requires Closed(env, cr, I) && I(w) && WellFormed(w.objs) && Working(cr, w)
    requires ns == NamespaceOf(cr.spec) && cr.spec.goflowKube.kind == DAEMON_SET_KIND
    requires Fetched(w, owned, ns)
    ensures var digest := GO.ConfigDigest(cr.spec.goflowKube, cr.spec.loki);
            Kept(I, w, G.ReconcileAsDaemonSet(env, w, cr.name, owned, cr.spec.goflowKube, ns, digest).w)
  {
    hide Issue;
    hide Ensure;
    hide TryDelete;
    hide Cleared;
    hide WellFormed;
    hide ComponentObject;
    hide ServiceOf;
    hide G.DaemonSetNeedsUpdate;
    hide GO.ConfigDigest;
    hide GO.BuildDaemonSet;
    TryDeleteKeeps(env, cr, I, w, owned.deployment, GO.DeploymentKey(ns));
    var w1 := TryDelete(env, w, owned.deployment);
    TryDeleteKeeps(env, cr, I, w1, owned.service, GO.ServiceKey(ns));
    var w2 := TryDelete(env, w1, owned.service);
    TryDeleteKeeps(env, cr, I, w2, owned.autoscaler, GO.AutoscalerKey(ns));
    var w3 := TryDelete(env, w2, owned.autoscaler);
    DaemonSetKeeps(env, cr, I, w3, owned.daemonSet, ns);
  }

  lemma GoflowKeeps(env: Env, cr: FlowCollector, I: World -> bool, w: World, ns: string)
    requires Closed(env, cr, I) && I(w) && WellFormed(w.objs) && Working(cr, w)
    requires ns == NamespaceOf(cr.spec)
    ensures Kept(I, w, G.Reconcile(env, w, cr.name, cr.spec.goflowKube, cr.spec.loki, ns).w)
  {
    hide Issue;
    hide Ensure;
    hide FetchAll;
    hide Cleared;
    hide G.ReconcileAsDeployment;
    hide G.ReconcileAsDaemonSet;
    hide GO.ConfigDigest;
    hide GO.BuildConfigMap;
    var gf, loki := cr.spec.goflowKube, cr.spec.loki;
    FetchAllKeeps(env, cr, I, w, GO.ManagedKeys(ns));
    var f := FetchAll(env, w, GO.ManagedKeys(ns));
    if f.st.Ok? {
      var owned := G.OwnedFrom(f.found);
      ConfigMapKeeps(env, cr, I, f.w, owned.configMap, ns);
      var s := G.ReconcileConfigMap(env, f.w, cr.name, owned, gf, loki, ns);
      if s.st.Ok? {
        if gf.kind == DEPLOYMENT_KIND {
          AsDeploymentKeeps(env, cr, I, s.w, owned, ns);
        } else if gf.kind == DAEMON_SET_KIND {
          AsDaemonSetKeeps(env, cr, I, s.w, owned, ns);
        }
      }
    }
  }

  lemma ConfigMapKeeps(env: Env, cr: FlowCollector, I: World -> bool, w: World, previous: Option<Object>, ns: string)
    requires Closed(env, cr, I) && I(w) && WellFormed(w.objs) && Working(cr, w)
    requires ns == NamespaceOf(cr.spec)
    requires previous == Lookup(w.objs, GO.ConfigMapKey(ns))
    ensures var s := Ensure(env, w, cr.name, previous, true, GO.BuildConfigMap(cr.spec.goflowKube, cr.spec.loki, ns));
            I(s.w) && FrameC(env, w, s.w, {GO.ConfigMapKey(ns)})
  {
    hide Ensure;
    hide Cleared;
    hide PluginObject;
    hide GO.ConfigDigest;
    hide GO.BuildDeployment;
    hide GO.BuildDaemonSet;
    hide GO.BuildAutoscaler;
    hide GO.GoflowConfig.ConfigText;
    ComponentKeeps(env, cr, I, w, previous, true, GO.BuildConfigMap(cr.spec.goflowKube, cr.spec.loki, ns));
  }

  // ---- The OVS controller ----

  lemma OvsKeeps(env: Env, cr: FlowCollector, I: World -> bool, w: World, ns: string)
    requires Closed(env, cr, I) && I(w) && WellFormed(w.objs) && Working(cr, w)
    ensures Kept(I, w, F.Reconcile(env, w, cr.name, cr.spec, ns).w)
  {
    hide Issue;
    hide F.ConfigFromMap;
    hide F.ResolveTarget;
    hide F.AsStringMap;
    var cno := cr.spec.cnoNamespace;
    OvsGetKeeps(env, cr, I, w, F.OvsKey(cno));
    var current := F.ReadCurrent(env, w, cno);
    if current.Current? {
      OvsGetKeeps(env, cr, I, current.w, Key(Services, ns, GOFLOW_KUBE));
      var wanted := F.WantedConfig(env, current.w, cr.spec, ns);
      if wanted.Desired? {
        OvsWriteKeeps(env, cr, I, wanted.w, wanted.config);
      }
    }
  }

  lemma OvsGetKeeps(env: Env, cr: FlowCollector, I: World -> bool, w: World, k: Key)
    requires Closed(env, cr, I) && I(w) && WellFormed(w.objs)
    ensures Kept(I, w, Issue(env, Ovs, w, Get(k)).w)
  {
    hide Issue;
    Send(env, cr, I, w, Ovs, Get(k));
    IssueFrame(env, w, Ovs, Get(k));
  }

  lemma OvsWriteKeeps(env: Env, cr: FlowCollector, I: World -> bool, w: World, fc: F.Config)
    requires Closed(env, cr, I) && I(w) && WellFormed(w.objs) && Working(cr, w)
    ensures var cm := F.BuildOvsConfigMap(cr.name, fc, cr.spec.cnoNamespace);
            Kept(I, w, Issue(env, Ovs, w, Create(cm)).w) && Kept(I, w, Issue(env, Ovs, w, Update(cm)).w)
  {
    hide Issue;
    hide F.AsStringMap;
    var cm := F.BuildOvsConfigMap(cr.name, fc, cr.spec.cnoNamespace);
    assert OvsConfigMap(cr, cm);
    Send(env, cr, I, w, Ovs, Create(cm));
    IssueFrame(env, w, Ovs, Create(cm));
    Send(env, cr, I, w, Ovs, Update(cm));
    IssueFrame(env, w, Ovs, Update(cm));
  }

  // ---- The console plugin ----

  lemma PluginServiceKeeps(env: Env, cr: FlowCollector, I: World -> bool, w: World, svc: Option<Object>, ns: string)
    requires Closed(env, cr, I) && I(w) && WellFormed(w.objs) && Working(cr, w)
    requires ns == NamespaceOf(cr.spec) && env.consoleEnabled
    requires svc == Lookup(w.objs, P.ServiceKey(ns))
    ensures Kept(I, w, P.ReconcileService(env, w, cr.name, svc, cr.spec.consolePlugin, ns).w)
  {
    hide Issue;
    hide Ensure;
    var stale := svc.Some? && P.ServiceNeedsUpdate(svc.value, cr.spec.consolePlugin, ns);
    var wanted := P.BuildService(svc, cr.spec.consolePlugin, ns);
    assert KeyOf(wanted) == P.ServiceKey(ns);
    assert svc.Some? ==> WithVersionOf(svc, wanted) == wanted;
    EnsureKeeps(env, cr, I, w, svc, stale, wanted);
  }

  lemma PluginDeploymentKeeps(env: Env, cr: FlowCollector, I: World -> bool, w: World, depl: Option<Object>, ns: string)
    requires Closed(env, cr, I) && I(w) && WellFormed(w.objs) && Working(cr, w)
    requires ns == NamespaceOf(cr.spec) && env.consoleEnabled
    requires depl == Lookup(w.objs, P.DeploymentKey(ns))
    ensures var s := P.ReconcileDeployment(env, w, cr.name, depl, cr.spec.consolePlugin, cr.spec.loki, ns);
            I(s.w) && FrameC(env, w, s.w, {P.DeploymentKey(ns)})
  {
    hide Ensure;
    hide P.BuildPodTemplate;
    hide GoflowObject;
    var stale := depl.Some? && P.DeploymentNeedsUpdate(depl.value, cr.spec.consolePlugin, cr.spec.loki, ns);
    ComponentKeeps(env, cr, I, w, depl, stale, P.BuildDeployment(cr.spec.consolePlugin, cr.spec.loki, ns));
  }

  lemma ConsolePluginKeeps(env: Env, cr: FlowCollector, I: World -> bool, w: World, plugin: Option<Object>, ns: string)
    requires Closed(env, cr, I) && I(w) && WellFormed(w.objs) && Working(cr, w)
    requires ns == NamespaceOf(cr.spec) && env.consoleEnabled
    requires plugin == Lookup(w.objs, P.PLUGIN_KEY)
    ensures var s := P.ReconcilePlugin(env, w, cr.name, plugin, cr.spec.consolePlugin, ns);
            I(s.w) && FrameC(env, w, s.w, {P.PLUGIN_KEY})
  {
    hide Ensure;
    hide GoflowObject;
    hide P.BuildDeployment;
    var stale := plugin.Some? && P.PluginNeedsUpdate(plugin.value, cr.spec.consolePlugin, ns);
    ComponentKeeps(env, cr, I, w, plugin, stale, P.BuildConsolePlugin(cr.spec.consolePlugin, ns));
  }

  lemma PluginObjectsKeep(
    env: Env, cr: FlowCollector, I: World -> bool, w: World,
    plugin: Option<Object>, depl: Option<Object>, svc: Option<Object>, ns: string)
    requires Closed(env, cr, I) && I(w) && WellFormed(w.objs) && Working(cr, w)
    requires ns == NamespaceOf(cr.spec) && env.consoleEnabled
    requires plugin == Lookup(w.objs, P.PLUGIN_KEY)
    requires depl == Lookup(w.objs, P.DeploymentKey(ns))
    requires svc == Lookup(w.objs, P.ServiceKey(ns))
    ensures var s := P.ReconcileObjects(env, w, cr.name, plugin, depl, svc, cr.spec.consolePlugin, cr.spec.loki, ns);
            Kept(I, w, s.w)
  {
    hide Issue;
    hide Cleared;
    hide WellFormed;
    hide P.ReconcilePlugin;
    hide P.ReconcileDeployment;
    hide P.ReconcileService;
    var p, loki := cr.spec.consolePlugin, cr.spec.loki;
    ConsolePluginKeeps(env, cr, I, w, plugin, ns);
    var s1 := P.ReconcilePlugin(env, w, cr.name, plugin, p, ns);
    if s1.st.Ok? {
      PluginDeploymentKeeps(env, cr, I, s1.w, depl, ns);
      var s2 := P.ReconcileDeployment(env, s1.w, cr.name, depl, p, loki, ns);
      if s2.st.Ok? {
        PluginServiceKeeps(env, cr, I, s2.w, svc, ns);
      }
    }
  }

  lemma PluginKeeps(env: Env, cr: FlowCollector, I: World -> bool, w: World, ns: string)
    requires Closed(env, cr, I) && I(w) && WellFormed(w.objs) && Working(cr, w)
    requires ns == NamespaceOf(cr.spec) && env.consoleEnabled
    ensures Kept(I, w, P.Reconcile(env, w, cr.name, cr.spec.consolePlugin, cr.spec.loki, ns).w)
  {
    hide Issue;
    hide FetchAll;
    hide Cleared;
    hide P.ReconcileObjects;
    FetchAllKeeps(env, cr, I, w, P.ManagedKeys(ns));
    var f := FetchAll(env, w, P.ManagedKeys(ns));
    if f.st.Ok? {
      var a := Issue(env, Main, f.w, Get(P.PLUGIN_KEY));
      Send(env, cr, I, f.w, Main, Get(P.PLUGIN_KEY));
      IssueFrame(env, f.w, Main, Get(P.PLUGIN_KEY));
      GetReply(env, f.w, Main, P.PLUGIN_KEY);
      if a.reply.Found? || a.reply.NotFound? {
        var plugin := if a.reply.Found? then Some(a.reply.obj) else None;
        PluginObjectsKeep(env, cr, I, a.w, plugin, f.found[0], f.found[1], ns);
      }
    }
  }

  // ---- Static resources and migration ----

  /** What the status may be committed on. */
  ghost predicate Prepared(cr: FlowCollector, w: World, ns: string) {
    && GO.ServiceAccountKey(ns) in w.objs
    && BindingNames(w.objs, ns)
    && (cr.deployedIn == "" ==> GO.CLUSTER_ROLE_KEY in w.objs)
  }

  lemma NamesDiffer()
    ensures GOFLOW_KUBE != P.PLUGIN && GO.CONFIG_MAP != P.PLUGIN && GOFLOW_KUBE != GO.CONFIG_MAP
    ensures F.OVS_CONFIG_MAP != GOFLOW_KUBE && F.OVS_CONFIG_MAP != GO.CONFIG_MAP && F.OVS_CONFIG_MAP != P.PLUGIN
  {
    assert |GOFLOW_KUBE| == 11 && |GO.CONFIG_MAP| == 18 && |P.PLUGIN| == 28 && |F.OVS_CONFIG_MAP| == 16;
  }

  lemma FirstPermissionsKeep(env: Env, cr: FlowCollector, I: World -> bool, w: World, ns: string)
    requires Closed(env, cr, I) && I(w) && WellFormed(w.objs) && Moving(cr, w)
    requires ns == NamespaceOf(cr.spec) && cr.deployedIn == ""
    ensures var s := G.CreatePermissions(env, w, cr.name, ns, true);
            Kept(I, w, s.w) && (s.st.Ok? ==> Prepared(cr, s.w, ns) && !s.w.crashed)
  {
    hide WellFormed;
    hide CreateOwned;
    hide Cleared;
    CreateKeeps(env, cr, I, w, GO.BuildClusterRole());
    var role := CreateOwned(env, w, cr.name, GO.BuildClusterRole());
    if role.st.Ok? {
      CreateKeeps(env, cr, I, role.w, GO.BuildServiceAccount(ns));
      var account := CreateOwned(env, role.w, cr.name, GO.BuildServiceAccount(ns));
      if account.st.Ok? {
        CreateKeeps(env, cr, I, account.w, GO.BuildClusterRoleBinding(ns));
      }
    }
  }

  lemma NextPermissionsKeep(env: Env, cr: FlowCollector, I: World -> bool, w: World, ns: string)
    requires Closed(env, cr, I) && I(w) && WellFormed(w.objs) && Moving(cr, w)
    requires ns == NamespaceOf(cr.spec) && cr.deployedIn != ""
    requires w.crashed || AllCleared(env, w, GO.ManagedKeys(cr.deployedIn))
    ensures var s := G.CreatePermissions(env, w, cr.name, ns, false);
            && Kept(I, w, s.w)
            && (s.st.Ok? ==> Prepared(cr, s.w, ns) && !s.w.crashed)
            && (s.st.Ok? ==> AllCleared(env, s.w, GO.ManagedKeys(cr.deployedIn)))
  {
    hide WellFormed;
    hide CreateOwned;
    hide UpdateOwned;
    hide Cleared;
    CreateKeeps(env, cr, I, w, GO.BuildServiceAccount(ns));
    var account := CreateOwned(env, w, cr.name, GO.BuildServiceAccount(ns));
    if account.st.Ok? {
      UpdateKeeps(env, cr, I, account.w, None, GO.BuildClusterRoleBinding(ns));
    }
  }

  lemma GoflowCleanupKeeps(env: Env, cr: FlowCollector, I: World -> bool, w: World)
    requires Closed(env, cr, I) && I(w) && WellFormed(w.objs) && Moving(cr, w) && cr.deployedIn != ""
    ensures var w' := DeleteAll(env, w, GO.ManagedKeys(cr.deployedIn));
            Kept(I, w, w') && (w'.crashed || AllCleared(env, w', GO.ManagedKeys(cr.deployedIn)))
  {
    hide Issue;
    hide DeleteAll;
    hide Cleared;
    var prev := cr.deployedIn;
    var first, second := GO.ManagedKeys(prev)[..2], GO.ManagedKeys(prev)[2..];
    assert GO.ManagedKeys(prev) == first + second;
    DeleteAllSplit(env, w, first, second);
    DeleteAllKeeps(env, cr, I, w, {}, first);
    var w1 := DeleteAll(env, w, first);
    assert first[0] == GO.DeploymentKey(prev) && first[1] == GO.DaemonSetKey(prev);
    DeleteAllKeeps(env, cr, I, w1, {GO.DeploymentKey(prev), GO.DaemonSetKey(prev)}, second);
  }

  /** The preparation does not depend on the console plugin's objects. */
  lemma PreparedFrame(cr: FlowCollector, w: World, w': World, ns: string, keys: set<Key>)
    requires Prepared(cr, w, ns)
    requires Frame(w, w', keys) && forall k :: k in keys ==> k.name == P.PLUGIN
    ensures Prepared(cr, w', ns)
  {
    NamesDiffer();
    assert Lookup(w'.objs, GO.ServiceAccountKey(ns)) == Lookup(w.objs, GO.ServiceAccountKey(ns));
    assert Lookup(w'.objs, GO.BINDING_KEY) == Lookup(w.objs, GO.BINDING_KEY);
    assert Lookup(w'.objs, GO.CLUSTER_ROLE_KEY) == Lookup(w.objs, GO.CLUSTER_ROLE_KEY);
  }

  lemma CleanupOfPlugin(env: Env, cr: FlowCollector, I: World -> bool, w: World, ns: string)
    requires Closed(env, cr, I) && I(w) && WellFormed(w.objs) && Moving(cr, w)
    requires ns == NamespaceOf(cr.spec) && cr.deployedIn != "" && env.consoleEnabled
    requires Prepared(cr, w, ns) && AllCleared(env, w, GO.ManagedKeys(cr.deployedIn))
    ensures var w' := DeleteAll(env, w, P.ManagedKeys(cr.deployedIn));
            && Kept(I, w, w') && (w'.crashed || Prepared(cr, w', ns))
            && (w'.crashed || AllCleared(env, w', GO.ManagedKeys(cr.deployedIn)))
            && (w'.crashed || AllCleared(env, w', P.ManagedKeys(cr.deployedIn)))
  {
    hide DeleteAll;
    hide Cleared;
    hide WellFormed;
    var prev := cr.deployedIn;
    DeleteAllKeeps(env, cr, I, w, {}, P.ManagedKeys(prev));
    var w' := DeleteAll(env, w, P.ManagedKeys(prev));
    var keys := set k | k in P.ManagedKeys(prev);
    assert forall k :: k in keys ==> k.name == P.PLUGIN;
    PreparedFrame(cr, w, w', ns, keys);
  }

  lemma MoveKeeps(env: Env, cr: FlowCollector, I: World -> bool, w: World, ns: string)
    requires Closed(env, cr, I) && I(w) && WellFormed(w.objs) && Moving(cr, w)
    requires ns == NamespaceOf(cr.spec) && cr.deployedIn != ""
    ensures var s := MoveNamespace(env, w, cr.name, ns, cr.deployedIn);
            && Kept(I, w, s.w)
            && (s.st.Ok? && !s.w.crashed ==> Prepared(cr, s.w, ns))
            && (s.st.Ok? && !s.w.crashed ==> AllCleared(env, s.w, GO.ManagedKeys(cr.deployedIn)))
            && (s.st.Ok? && !s.w.crashed && env.consoleEnabled ==> AllCleared(env, s.w, P.ManagedKeys(cr.deployedIn)))
  {
    hide WellFormed;
    hide DeleteAll;
    hide CreateOwned;
    hide G.CreatePermissions;
    hide Cleared;
    var prev := cr.deployedIn;
    GoflowCleanupKeeps(env, cr, I, w);
    var w1 := DeleteAll(env, w, GO.ManagedKeys(prev));
    NextPermissionsKeep(env, cr, I, w1, ns);
    var s := G.CreatePermissions(env, w1, cr.name, ns, false);
    if s.st.Ok? && env.consoleEnabled {
      var w2 := DeleteAll(env, s.w, P.ManagedKeys(prev));
      CleanupOfPlugin(env, cr, I, s.w, ns);
      CreateKeeps(env, cr, I, w2, P.BuildServiceAccount(ns));
      if !w2.crashed {
        PreparedFrame(cr, w2, CreateOwned(env, w2, cr.name, P.BuildServiceAccount(ns)).w, ns,
          {P.ServiceAccountKey(ns)});
      }
      NamesDiffer();
    }
  }

  lemma InstallKeeps(env: Env, cr: FlowCollector, I: World -> bool, w: World, ns: string)
    requires Closed(env, cr, I) && I(w) && WellFormed(w.objs) && Moving(cr, w)
    requires ns == NamespaceOf(cr.spec) && cr.deployedIn == ""
    ensures var s := InstallStatic(env, w, cr.name, ns);
            Kept(I, w, s.w) && (s.st.Ok? ==> Prepared(cr, s.w, ns))
  {
    hide CreateOwned;
    hide G.CreatePermissions;
    hide Cleared;
    FirstPermissionsKeep(env, cr, I, w, ns);
    var s := G.CreatePermissions(env, w, cr.name, ns, true);
    if s.st.Ok? && env.consoleEnabled {
      CreateKeeps(env, cr, I, s.w, P.BuildServiceAccount(ns));
      PreparedFrame(cr, s.w, CreateOwned(env, s.w, cr.name, P.BuildServiceAccount(ns)).w, ns,
        {P.ServiceAccountKey(ns)});
    }
  }

  lemma CommitEffect(env: Env, w: World, cr: FlowCollector, ns: string)
    requires w.cr == Some(cr)
    ensures var a := Issue(env, Main, w, UpdateStatus(ns));
            && a.w.objs == w.objs
            && (a.w.cr == Some(cr) || a.w.cr == Some(cr.(deployedIn := ns)))
            && (a.reply == Done ==> a.w.cr == Some(cr.(deployedIn := ns)) && !a.w.crashed)
  {
  }

  lemma HandleKeeps(env: Env, cr: FlowCollector, I: World -> bool, w: World, ns: string)
    requires Closed(env, cr, I) && I(w) && WellFormed(w.objs) && Moving(cr, w)
    requires ns == NamespaceOf(cr.spec)
    ensures var s := HandleNamespaceChanged(env, w, cr.name, ns, cr.deployedIn);
            && I(s.w) && WellFormed(s.w.objs)
            && (s.w.cr == Some(cr) || s.w.cr == Some(cr.(deployedIn := ns)))
            && (s.st.Ok? ==> Working(cr, s.w) && !s.w.crashed)
  {
    hide Issue;
    hide InstallStatic;
    hide MoveNamespace;
    hide Cleared;
    hide WellFormed;
    var prev := cr.deployedIn;
    if prev == "" {
      InstallKeeps(env, cr, I, w, ns);
    } else {
      MoveKeeps(env, cr, I, w, ns);
    }
    var s := if prev == "" then InstallStatic(env, w, cr.name, ns) else MoveNamespace(env, w, cr.name, ns, prev);
    if s.st.Ok? {
      Send(env, cr, I, s.w, Main, UpdateStatus(ns));
      CommitEffect(env, s.w, cr, ns);
    }
  }

  // ---- The whole pass ----

  lemma NamespaceKeeps(env: Env, cr: FlowCollector, I: World -> bool, w: World, ns: string)
    requires Closed(env, cr, I) && I(w) && WellFormed(w.objs)
    requires ns == NamespaceOf(cr.spec)
    ensures Kept(I, w, EnsureNamespace(env, w, ns).w)
  {
    hide Issue;
    Send(env, cr, I, w, Main, Get(NamespaceKey(ns)));
    IssueFrame(env, w, Main, Get(NamespaceKey(ns)));
    var w1 := Issue(env, Main, w, Get(NamespaceKey(ns))).w;
    Send(env, cr, I, w1, Main, Create(BuildNamespace(ns)));
    IssueFrame(env, w1, Main, Create(BuildNamespace(ns)));
  }

  lemma ComponentsKeep(env: Env, cr: FlowCollector, I: World -> bool, w: World, ns: string)
    requires Closed(env, cr, I) && I(w) && WellFormed(w.objs) && Working(cr, w)
    requires ns == NamespaceOf(cr.spec)
    ensures Kept(I, w, ReconcileComponents(env, w, cr, ns).w)
  {
    hide Issue;
    hide G.Reconcile;
    hide F.Reconcile;
    hide P.Reconcile;
    hide WellFormed;
    GoflowKeeps(env, cr, I, w, ns);
    var s := G.Reconcile(env, w, cr.name, cr.spec.goflowKube, cr.spec.loki, ns);
    if s.st.Ok? {
      OvsKeeps(env, cr, I, s.w, ns);
      if env.consoleEnabled {
        PluginKeeps(env, cr, I, F.Reconcile(env, s.w, cr.name, cr.spec, ns).w, ns);
      }
    }
  }

  lemma LiveKeeps(env: Env, cr: FlowCollector, I: World -> bool, w: World)
    requires Closed(env, cr, I) && I(w) && WellFormed(w.objs) && w.cr == Some(cr)
    ensures var w' := ReconcileLive(env, w, cr).w;
            I(w') && WellFormed(w'.objs)
              && (w'.cr == Some(cr) || w'.cr == Some(cr.(deployedIn := NamespaceOf(cr.spec))))
  {
    hide EnsureNamespace;
    hide HandleNamespaceChanged;
    hide ReconcileComponents;
    hide WellFormed;
    var ns := NamespaceOf(cr.spec);
    NamespaceKeeps(env, cr, I, w, ns);
    var s1 := EnsureNamespace(env, w, ns);
    if s1.st.Ok? {
      if ns != cr.deployedIn {
        HandleKeeps(env, cr, I, s1.w, ns);
        var s2 := HandleNamespaceChanged(env, s1.w, cr.name, ns, cr.deployedIn);
        if s2.st.Ok? {
          ComponentsKeep(env, cr, I, s2.w, ns);
        }
      } else {
        ComponentsKeep(env, cr, I, s1.w, ns);
      }
    }
  }

  /** The principle: what guarded calls keep, a whole pass keeps, whatever fails and wherever the operator dies. */
  lemma PassKeeps(env: Env, cr: FlowCollector, I: World -> bool, w: World)
    requires Closed(env, cr, I) && I(w) && WellFormed(w.objs) && w.cr == Some(cr)
    ensures var w' := Reconcile(env, w).w;
            I(w') && WellFormed(w'.objs)
              && (w'.cr == Some(cr) || w'.cr == Some(cr.(deployedIn := NamespaceOf(cr.spec))))
  {
    hide Issue;
    hide ReconcileLive;
    var a := Issue(env, Main, w, GetCollector);
    Send(env, cr, I, w, Main, GetCollector);
    IssueFrame(env, w, Main, GetCollector);
    CollectorReply(env, w);
    LiveKeeps(env, cr, I, a.w);
  }

  lemma CollectorReply(env: Env, w: World)
    ensures var a := Issue(env, Main, w, GetCollector);
            && a.w.objs == w.objs
            && (a.reply.FoundCollector? ==> w.cr == Some(a.reply.cr) && !a.w.crashed)
            && (a.reply.NotFound? ==> w.cr == None && !a.w.crashed)
  {
  }

}
