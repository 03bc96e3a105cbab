/** What a reconciliation that succeeds leaves behind, under any faults on the way. */
module Effects {

  import opened Cluster
  import opened ClientHelper
  import opened FlowCollectorController
  import opened FlowCollectorTypes
  import opened ObjectManager
  import opened Safety
  import opened Staleness
  import opened Wrappers
  import F = FlowsConfig
  import G = GoflowReconciler
  import GO = GoflowObjects
  import GoflowConfig
  import opened PassInduction
  import P = PluginReconciler

  // ---- One key at a time ----

  /** Only the key may have changed; if the step succeeded, it holds an object that needs no update. */
  ghost predicate Settles(w: World, s: Step, k: Key, stale: Object -> bool) {
    && Frame(w, s.w, {k})
    && (s.st.Ok? ==> k in s.w.objs && !stale(s.w.objs[k]))
  }

  lemma FrameOfWrite(env: Env, w: World, who: Component, o: Object)
    ensures Frame(w, Issue(env, who, w, Create(o)).w, {KeyOf(o)})
    ensures Frame(w, Issue(env, who, w, Update(o)).w, {KeyOf(o)})
  {
    IssueObjects(env, w, who, Create(o));
    IssueObjects(env, w, who, Update(o));
    hide Issue;
  }

  lemma EnsureSettles(
    env: Env, cr: FlowCollector, w: World, previous: Option<Object>, outdated: bool, wanted: Object,
    stale: Object -> bool)
    requires previous == Lookup(w.objs, KeyOf(wanted))
    requires previous.Some? && !outdated ==> !stale(previous.value)
    requires forall o :: Same(o, Own(cr, wanted)) ==> !stale(o)
    ensures Settles(w, Ensure(env, w, cr.name, previous, outdated, wanted), KeyOf(wanted), stale)
  {
    var v := WithVersionOf(previous, wanted);
    FrameOfWrite(env, w, Main, Own(cr, wanted));
    FrameOfWrite(env, w, Main, Own(cr, v));
    WriteDone(env, w, Main, Own(cr, wanted));
    WriteDone(env, w, Main, Own(cr, v));
    hide Issue;
    hide WellFormed;
  }

  lemma TryDeleteEffect(env: Env, w: World, fetched: Option<Object>, k: Key)
    requires fetched == Lookup(w.objs, k) && WellFormed(w.objs)
    ensures var w' := TryDelete(env, w, fetched);
            Frame(w, w', {k}) && (ReliableDeletes(env) && !w'.crashed ==> k !in w'.objs)
  {
    IssueObjects(env, w, Main, Delete(k));
    DeleteClears(env, w, Main, k);
    hide Issue;
  }

  lemma {:induction false} FetchAllEffect(env: Env, w: World, keys: seq<Key>)
    ensures var f := FetchAll(env, w, keys);
            && Frame(w, f.w, {}) && f.w.objs == w.objs
            && (forall i :: 0 <= i < |f.found| ==> f.found[i] == Lookup(w.objs, keys[i]))
    decreases |keys|
  {
    if keys == [] {
    } else {
      IssueObjects(env, w, Main, Get(keys[0]));
      GetReply(env, w, Main, keys[0]);
      hide Issue;
      hide WellFormed;
      FetchAllEffect(env, Issue(env, Main, w, Get(keys[0])).w, keys[1..]);
    }
  }

  // ---- goflow-kube ----

  function GoflowKeys(ns: string): set<Key> {
    {GO.ConfigMapKey(ns), GO.DeploymentKey(ns), GO.DaemonSetKey(ns), GO.ServiceKey(ns), GO.AutoscalerKey(ns)}
  }

  predicate DeploymentPresent(objs: Objects, gf: GoflowKube, ns: string, digest: string) {
    && GO.DeploymentKey(ns) in objs && !G.DeploymentNeedsUpdate(objs[GO.DeploymentKey(ns)], gf, ns, digest)
    && GO.ServiceKey(ns) in objs && !G.ServiceNeedsUpdate(objs[GO.ServiceKey(ns)], gf, ns)
    && (gf.hpa.Some? ==> GO.AutoscalerKey(ns) in objs
                         && !G.AutoscalerNeedsUpdate(objs[GO.AutoscalerKey(ns)], gf.hpa.value, ns))
  }

  predicate DaemonSetPresent(objs: Objects, gf: GoflowKube, ns: string, digest: string) {
    GO.DaemonSetKey(ns) in objs && !G.DaemonSetNeedsUpdate(objs[GO.DaemonSetKey(ns)], gf, ns, digest)
  }

  /** The collector's objects that are wanted in ns are there, and no comparison finds one out of date. */
  predicate Present(cr: FlowCollector, objs: Objects, ns: string) {
    var gf, loki := cr.spec.goflowKube, cr.spec.loki;
    var digest := GO.ConfigDigest(gf, loki);
    && GO.ConfigMapKey(ns) in objs && Same(objs[GO.ConfigMapKey(ns)], Own(cr, GO.BuildConfigMap(gf, loki, ns)))
    && (   (gf.kind == DEPLOYMENT_KIND && DeploymentPresent(objs, gf, ns, digest))
        || (gf.kind == DAEMON_SET_KIND && DaemonSetPresent(objs, gf, ns, digest)))
  }

  /** Those that are not wanted in ns are gone. */
  predicate OthersGone(gf: GoflowKube, objs: Objects, ns: string) {
    && (gf.kind == DEPLOYMENT_KIND ==> GO.DaemonSetKey(ns) !in objs && (gf.hpa.None? ==> GO.AutoscalerKey(ns) !in objs))
    && (gf.kind == DAEMON_SET_KIND ==>
          GO.DeploymentKey(ns) !in objs && GO.ServiceKey(ns) !in objs && GO.AutoscalerKey(ns) !in objs)
  }

  /** The collector's objects in ns: one kind, none that a comparison finds out of date. */
  predicate UpToDate(cr: FlowCollector, objs: Objects, ns: string) {
    Present(cr, objs, ns) && OthersGone(cr.spec.goflowKube, objs, ns)
  }

  lemma ConfigMapSettles(env: Env, cr: FlowCollector, w: World, owned: G.Owned, ns: string)
    requires owned.configMap == Lookup(w.objs, GO.ConfigMapKey(ns))
    ensures var gf, loki := cr.spec.goflowKube, cr.spec.loki;
            Settles(w, G.ReconcileConfigMap(env, w, cr.name, owned, gf, loki, ns), GO.ConfigMapKey(ns),
                    o => !Same(o, Own(cr, GO.BuildConfigMap(gf, loki, ns))))
  {
    hide Ensure;
    hide GoflowConfig.ConfigText;
    var gf, loki := cr.spec.goflowKube, cr.spec.loki;
    var wanted := GO.BuildConfigMap(gf, loki, ns);
    EnsureSettles(env, cr, w, owned.configMap, true, wanted, o => !Same(o, Own(cr, wanted)));
  }

  lemma DeploymentSettles(env: Env, cr: FlowCollector, w: World, owned: G.Owned, ns: string)
    requires owned.deployment == Lookup(w.objs, GO.DeploymentKey(ns)) && cr.spec.goflowKube.kind == DEPLOYMENT_KIND
    ensures var gf, digest := cr.spec.goflowKube, GO.ConfigDigest(cr.spec.goflowKube, cr.spec.loki);
            Settles(w, G.ReconcileDeployment(env, w, cr.name, owned, gf, ns, digest), GO.DeploymentKey(ns),
                    o => G.DeploymentNeedsUpdate(o, gf, ns, digest))
  {
    hide Ensure;
    hide G.DeploymentNeedsUpdate;
    hide GO.ConfigDigest;
    var gf, loki := cr.spec.goflowKube, cr.spec.loki;
    var digest := GO.ConfigDigest(gf, loki);
    var wanted := GO.BuildDeployment(gf, ns, digest);
    forall o | Same(o, Own(cr, wanted)) ensures !G.DeploymentNeedsUpdate(o, gf, ns, digest) {
      DeploymentExact(o, cr, gf, loki, ns, gf, loki, ns);
    }
    hide GO.BuildPodTemplate;
    var outdated := owned.deployment.Some? && G.DeploymentNeedsUpdate(owned.deployment.value, gf, ns, digest);
    EnsureSettles(env, cr, w, owned.deployment, outdated, wanted, o => G.DeploymentNeedsUpdate(o, gf, ns, digest));
  }

  lemma ServiceSettles(env: Env, cr: FlowCollector, w: World, owned: G.Owned, ns: string)
    requires owned.service == Lookup(w.objs, GO.ServiceKey(ns)) && WellFormed(w.objs)
    ensures var gf := cr.spec.goflowKube;
            Settles(w, G.ReconcileService(env, w, cr.name, owned, gf, ns), GO.ServiceKey(ns),
                    o => G.ServiceNeedsUpdate(o, gf, ns))
  {
    hide Ensure;
    var gf := cr.spec.goflowKube;
    var wanted := GO.BuildService(owned.service, gf, ns);
    assert wanted.body.ports[0] == ServicePort(gf.port, UDP);
    assert KeyOf(wanted) == GO.ServiceKey(ns);
    var outdated := owned.service.Some? && G.ServiceNeedsUpdate(owned.service.value, gf, ns);
    EnsureSettles(env, cr, w, owned.service, outdated, wanted, o => G.ServiceNeedsUpdate(o, gf, ns));
  }

  lemma AutoscalerSettles(env: Env, cr: FlowCollector, w: World, owned: G.Owned, ns: string, hpa: HPA)
    requires owned.autoscaler == Lookup(w.objs, GO.AutoscalerKey(ns)) && cr.spec.goflowKube.hpa == Some(hpa)
    ensures Settles(w, G.ReconcileAutoscaler(env, w, cr.name, owned, cr.spec.goflowKube, ns), GO.AutoscalerKey(ns),
                    o => G.AutoscalerNeedsUpdate(o, hpa, ns))
  {
    hide Ensure;
    var wanted := GO.BuildAutoscaler(hpa, ns);
    var outdated := owned.autoscaler.Some? && G.AutoscalerNeedsUpdate(owned.autoscaler.value, hpa, ns);
    EnsureSettles(env, cr, w, owned.autoscaler, outdated, wanted, o => G.AutoscalerNeedsUpdate(o, hpa, ns));
  }

  lemma AsDeploymentSettles(env: Env, cr: FlowCollector, w: World, owned: G.Owned, ns: string)
    requires WellFormed(w.objs) && cr.spec.goflowKube.kind == DEPLOYMENT_KIND
    requires Fetched(w, owned, ns)
    ensures var gf, digest := cr.spec.goflowKube, GO.ConfigDigest(cr.spec.goflowKube, cr.spec.loki);
            var s := G.ReconcileAsDeployment(env, w, cr.name, owned, gf, ns, digest);
            && Frame(w, s.w, GoflowKeys(ns) - {GO.ConfigMapKey(ns)})
            && (s.st.Ok? ==> DeploymentPresent(s.w.objs, gf, ns, digest))
            && (s.st.Ok? && !s.w.crashed && ReliableDeletes(env) ==> OthersGone(gf, s.w.objs, ns))
  {
    hide TryDelete;
    hide WellFormed;
    hide G.ReconcileDeployment;
    hide G.ReconcileService;
    hide G.ReconcileAutoscaler;
    hide G.DeploymentNeedsUpdate;
    hide G.ServiceNeedsUpdate;
    hide G.AutoscalerNeedsUpdate;
    hide GO.ConfigDigest;
    hide ReliableDeletes;
    var gf, digest := cr.spec.goflowKube, GO.ConfigDigest(cr.spec.goflowKube, cr.spec.loki);
    TryDeleteEffect(env, w, owned.daemonSet, GO.DaemonSetKey(ns));
    var w1 := TryDelete(env, w, owned.daemonSet);
    DeploymentSettles(env, cr, w1, owned, ns);
    var s2 := G.ReconcileDeployment(env, w1, cr.name, owned, gf, ns, digest);
    if s2.st.Ok? {
      ServiceSettles(env, cr, s2.w, owned, ns);
      var s3 := G.ReconcileService(env, s2.w, cr.name, owned, gf, ns);
      if s3.st.Ok? {
        AutoscalerStep(env, cr, s3.w, owned, ns);
        var last := G.ReconcileAutoscaler(env, s3.w, cr.name, owned, gf, ns).w.objs;
        assert Lookup(last, GO.DaemonSetKey(ns)) == Lookup(w1.objs, GO.DaemonSetKey(ns));
        assert Lookup(last, GO.DeploymentKey(ns)) == Lookup(s2.w.objs, GO.DeploymentKey(ns));
        assert Lookup(last, GO.ServiceKey(ns)) == Lookup(s3.w.objs, GO.ServiceKey(ns));
      }
    }
  }

  /** The autoscaler follows the specification: gone, or there and up to date. */
  lemma AutoscalerStep(env: Env, cr: FlowCollector, w: World, owned: G.Owned, ns: string)
    requires owned.autoscaler == Lookup(w.objs, GO.AutoscalerKey(ns)) && WellFormed(w.objs)
    ensures var gf, k := cr.spec.goflowKube, GO.AutoscalerKey(ns);
            var s := G.ReconcileAutoscaler(env, w, cr.name, owned, gf, ns);
            && Frame(w, s.w, {k})
            && (s.st.Ok? && gf.hpa.Some? ==> k in s.w.objs && !G.AutoscalerNeedsUpdate(s.w.objs[k], gf.hpa.value, ns))
            && (s.st.Ok? && gf.hpa.None? && !s.w.crashed && ReliableDeletes(env) ==> k !in s.w.objs)
  {
    if cr.spec.goflowKube.hpa.None? {
      TryDeleteEffect(env, w, owned.autoscaler, GO.AutoscalerKey(ns));
    } else {
      AutoscalerSettles(env, cr, w, owned, ns, cr.spec.goflowKube.hpa.value);
    }
    hide TryDelete;
    hide Ensure;
    hide WellFormed;
  }

  lemma DaemonSetSettles(env: Env, cr: FlowCollector, w: World, previous: Option<Object>, ns: string)
    requires previous == Lookup(w.objs, GO.DaemonSetKey(ns)) && cr.spec.goflowKube.kind == DAEMON_SET_KIND
    ensures var gf, digest := cr.spec.goflowKube, GO.ConfigDigest(cr.spec.goflowKube, cr.spec.loki);
            var outdated := previous.Some? && G.DaemonSetNeedsUpdate(previous.value, gf, ns, digest);
            Settles(w, Ensure(env, w, cr.name, previous, outdated, GO.BuildDaemonSet(gf, ns, digest)),
              GO.DaemonSetKey(ns),
                    o => G.DaemonSetNeedsUpdate(o, gf, ns, digest))
  {
    hide Ensure;
    hide G.DaemonSetNeedsUpdate;
    hide GO.ConfigDigest;
    var gf, loki := cr.spec.goflowKube, cr.spec.loki;
    var digest := GO.ConfigDigest(gf, loki);
    var wanted := GO.BuildDaemonSet(gf, ns, digest);
    forall o | Same(o, Own(cr, wanted)) ensures !G.DaemonSetNeedsUpdate(o, gf, ns, digest) {
      DaemonSetCompared(o, cr, gf, loki, ns, gf, loki, ns);
    }
    hide GO.BuildPodTemplate;
    var outdated := previous.Some? && G.DaemonSetNeedsUpdate(previous.value, gf, ns, digest);
    EnsureSettles(env, cr, w, previous, outdated, wanted, o => G.DaemonSetNeedsUpdate(o, gf, ns, digest));
  }

  lemma AsDaemonSetSettles(env: Env, cr: FlowCollector, w: World, owned: G.Owned, ns: string)
    requires WellFormed(w.objs) && cr.spec.goflowKube.kind == DAEMON_SET_KIND
    requires Fetched(w, owned, ns)
    ensures var gf, digest := cr.spec.goflowKube, GO.ConfigDigest(cr.spec.goflowKube, cr.spec.loki);
            var s := G.ReconcileAsDaemonSet(env, w, cr.name, owned, gf, ns, digest);
            && Frame(w, s.w, GoflowKeys(ns) - {GO.ConfigMapKey(ns)})
            && (s.st.Ok? ==> DaemonSetPresent(s.w.objs, gf, ns, digest))
            && (s.st.Ok? && !s.w.crashed && ReliableDeletes(env) ==> OthersGone(gf, s.w.objs, ns))
  {
    hide TryDelete;
    hide WellFormed;
    hide Ensure;
    hide G.DaemonSetNeedsUpdate;
    hide GO.ConfigDigest;
    hide GO.BuildDaemonSet;
    hide ReliableDeletes;
    TryDeleteEffect(env, w, owned.deployment, GO.DeploymentKey(ns));
    var w1 := TryDelete(env, w, owned.deployment);
    TryDeleteEffect(env, w1, owned.service, GO.ServiceKey(ns));
    var w2 := TryDelete(env, w1, owned.service);
    TryDeleteEffect(env, w2, owned.autoscaler, GO.AutoscalerKey(ns));
    var w3 := TryDelete(env, w2, owned.autoscaler);
    DaemonSetSettles(env, cr, w3, owned.daemonSet, ns);
    var last := G.ReconcileAsDaemonSet(env, w, cr.name, owned, cr.spec.goflowKube, ns,
                                       GO.ConfigDigest(cr.spec.goflowKube, cr.spec.loki)).w.objs;
    assert Lookup(last, GO.DeploymentKey(ns)) == Lookup(w1.objs, GO.DeploymentKey(ns));
    assert Lookup(last, GO.ServiceKey(ns)) == Lookup(w2.objs, GO.ServiceKey(ns));
    assert Lookup(last, GO.AutoscalerKey(ns)) == Lookup(w3.objs, GO.AutoscalerKey(ns));
  }

  /** A goflow-kube reconciliation that succeeds leaves the collector up to date. */
  lemma GoflowSettles(env: Env, cr: FlowCollector, w: World, ns: string)
    requires WellFormed(w.objs)
    ensures var s := G.Reconcile(env, w, cr.name, cr.spec.goflowKube, cr.spec.loki, ns);
            && Frame(w, s.w, GoflowKeys(ns))
            && (s.st.Ok? ==> Present(cr, s.w.objs, ns))
            && (s.st.Ok? && !s.w.crashed && ReliableDeletes(env) ==> UpToDate(cr, s.w.objs, ns))
  {
    hide FetchAll;
    hide WellFormed;
    hide G.ReconcileConfigMap;
    hide G.ReconcileAsDeployment;
    hide G.ReconcileAsDaemonSet;
    hide GO.ConfigDigest;
    hide GO.BuildConfigMap;
    hide ReliableDeletes;
    hide DeploymentPresent;
    hide DaemonSetPresent;
    var gf, loki := cr.spec.goflowKube, cr.spec.loki;
    FetchAllEffect(env, w, GO.ManagedKeys(ns));
    var f := FetchAll(env, w, GO.ManagedKeys(ns));
    if f.st.Ok? {
      var owned := G.OwnedFrom(f.found);
      ConfigMapSettles(env, cr, f.w, owned, ns);
      var s := G.ReconcileConfigMap(env, f.w, cr.name, owned, gf, loki, ns);
      if s.st.Ok? {
        if gf.kind == DEPLOYMENT_KIND {
          AsDeploymentSettles(env, cr, s.w, owned, ns);
        } else if gf.kind == DAEMON_SET_KIND {
          AsDaemonSetSettles(env, cr, s.w, owned, ns);
        }
        var last := G.Reconcile(env, w, cr.name, gf, loki, ns).w.objs;
        assert Lookup(last, GO.ConfigMapKey(ns)) == Lookup(s.w.objs, GO.ConfigMapKey(ns));
      }
    }
  }

  // ---- The OVS controller ----

  lemma OvsEffect(env: Env, w: World, owner: string, spec: Spec, ns: string)
    ensures Frame(w, F.Reconcile(env, w, owner, spec, ns).w, {F.OvsKey(spec.cnoNamespace)})
  {
    hide F.ConfigFromMap;
    hide F.ResolveTarget;
    hide F.AsStringMap;
    hide WellFormed;
    hide Issue;
    var cno := spec.cnoNamespace;
    IssueObjects(env, w, Ovs, Get(F.OvsKey(cno)));
    var current := F.ReadCurrent(env, w, cno);
    if current.Current? {
      IssueObjects(env, current.w, Ovs, Get(Key(Services, ns, GOFLOW_KUBE)));
      var wanted := F.WantedConfig(env, current.w, spec, ns);
      if wanted.Desired? {
        FrameOfWrite(env, wanted.w, Ovs, F.BuildOvsConfigMap(owner, wanted.config, cno));
      }
    }
  }

  // ---- The console plugin ----

  function PluginKeys(ns: string): set<Key> {
    {P.PLUGIN_KEY, P.DeploymentKey(ns), P.ServiceKey(ns)}
  }

  /** What a Service is never left as: neither found up to date, nor with the single UDP port of an update. */
  predicate Neglected(cr: FlowCollector, o: Object, ns: string) {
    var p := cr.spec.consolePlugin;
    && P.ServiceNeedsUpdate(o, p, ns)
    && !(o.body.Service? && o.body.ports == [ServicePort(p.port, UDP)] && o.meta.controller == Some(cr.name))
  }

  predicate PluginUpToDate(cr: FlowCollector, objs: Objects, ns: string) {
    var p, loki := cr.spec.consolePlugin, cr.spec.loki;
    && P.PLUGIN_KEY in objs && !P.PluginNeedsUpdate(objs[P.PLUGIN_KEY], p, ns)
    && P.DeploymentKey(ns) in objs && !P.DeploymentNeedsUpdate(objs[P.DeploymentKey(ns)], p, loki, ns)
    && P.ServiceKey(ns) in objs && !Neglected(cr, objs[P.ServiceKey(ns)], ns)
  }

  lemma ConsolePluginSettles(env: Env, cr: FlowCollector, w: World, plugin: Option<Object>, ns: string)
    requires plugin == Lookup(w.objs, P.PLUGIN_KEY)
    ensures var p := cr.spec.consolePlugin;
            Settles(w, P.ReconcilePlugin(env, w, cr.name, plugin, p, ns), P.PLUGIN_KEY,
              o => P.PluginNeedsUpdate(o, p, ns))
  {
    hide Ensure;
    var p := cr.spec.consolePlugin;
    var outdated := plugin.Some? && P.PluginNeedsUpdate(plugin.value, p, ns);
    EnsureSettles(env, cr, w, plugin, outdated, P.BuildConsolePlugin(p, ns), o => P.PluginNeedsUpdate(o, p, ns));
  }

  lemma PluginDeploymentSettles(env: Env, cr: FlowCollector, w: World, depl: Option<Object>, ns: string)
    requires depl == Lookup(w.objs, P.DeploymentKey(ns))
    ensures var p, loki := cr.spec.consolePlugin, cr.spec.loki;
            Settles(w, P.ReconcileDeployment(env, w, cr.name, depl, p, loki, ns), P.DeploymentKey(ns),
                    o => P.DeploymentNeedsUpdate(o, p, loki, ns))
  {
    hide Ensure;
    hide P.DeploymentNeedsUpdate;
    var p, loki := cr.spec.consolePlugin, cr.spec.loki;
    var wanted := P.BuildDeployment(p, loki, ns);
    forall o | Same(o, Own(cr, wanted)) ensures !P.DeploymentNeedsUpdate(o, p, loki, ns) {
      PluginDeploymentExact(o, cr, p, loki, ns, p, loki, ns);
    }
    hide P.BuildPodTemplate;
    var outdated := depl.Some? && P.DeploymentNeedsUpdate(depl.value, p, loki, ns);
    EnsureSettles(env, cr, w, depl, outdated, wanted, o => P.DeploymentNeedsUpdate(o, p, loki, ns));
  }

  lemma PluginServiceSettles(env: Env, cr: FlowCollector, w: World, svc: Option<Object>, ns: string)
    requires svc == Lookup(w.objs, P.ServiceKey(ns)) && WellFormed(w.objs)
    ensures var p := cr.spec.consolePlugin;
            Settles(w, P.ReconcileService(env, w, cr.name, svc, p, ns), P.ServiceKey(ns), o => Neglected(cr, o, ns))
  {
    hide Ensure;
    var p := cr.spec.consolePlugin;
    var wanted := P.BuildService(svc, p, ns);
    assert svc.None? ==> wanted.body.ports[0] == ServicePort(p.port, TCP);
    assert KeyOf(wanted) == P.ServiceKey(ns);
    var outdated := svc.Some? && P.ServiceNeedsUpdate(svc.value, p, ns);
    EnsureSettles(env, cr, w, svc, outdated, wanted, o => Neglected(cr, o, ns));
  }

  lemma PluginObjectsSettle(
    env: Env, cr: FlowCollector, w: World, plugin: Option<Object>, depl: Option<Object>, svc: Option<Object>,
    ns: string)
    requires plugin == Lookup(w.objs, P.PLUGIN_KEY) && WellFormed(w.objs)
    requires depl == Lookup(w.objs, P.DeploymentKey(ns)) && svc == Lookup(w.objs, P.ServiceKey(ns))
    ensures var s := P.ReconcileObjects(env, w, cr.name, plugin, depl, svc, cr.spec.consolePlugin, cr.spec.loki, ns);
            Frame(w, s.w, PluginKeys(ns)) && (s.st.Ok? ==> PluginUpToDate(cr, s.w.objs, ns))
  {
    hide WellFormed;
    hide P.ReconcilePlugin;
    hide P.ReconcileDeployment;
    hide P.ReconcileService;
    hide P.PluginNeedsUpdate;
    hide P.DeploymentNeedsUpdate;
    hide Neglected;
    var p, loki := cr.spec.consolePlugin, cr.spec.loki;
    ConsolePluginSettles(env, cr, w, plugin, ns);
    var s1 := P.ReconcilePlugin(env, w, cr.name, plugin, p, ns);
    if s1.st.Ok? {
      PluginDeploymentSettles(env, cr, s1.w, depl, ns);
      var s2 := P.ReconcileDeployment(env, s1.w, cr.name, depl, p, loki, ns);
      if s2.st.Ok? {
        PluginServiceSettles(env, cr, s2.w, svc, ns);
        var last := P.ReconcileService(env, s2.w, cr.name, svc, p, ns).w.objs;
        assert Lookup(last, P.PLUGIN_KEY) == Lookup(s1.w.objs, P.PLUGIN_KEY);
        assert Lookup(last, P.DeploymentKey(ns)) == Lookup(s2.w.objs, P.DeploymentKey(ns));
      }
    }
  }

  lemma PluginSettles(env: Env, cr: FlowCollector, w: World, ns: string)
    requires WellFormed(w.objs)
    ensures var s := P.Reconcile(env, w, cr.name, cr.spec.consolePlugin, cr.spec.loki, ns);
            Frame(w, s.w, PluginKeys(ns)) && (s.st.Ok? ==> PluginUpToDate(cr, s.w.objs, ns))
  {
    hide FetchAll;
    hide P.ReconcileObjects;
    hide PluginUpToDate;
    hide WellFormed;
    FetchAllEffect(env, w, P.ManagedKeys(ns));
    var f := FetchAll(env, w, P.ManagedKeys(ns));
    if f.st.Ok? {
      var a := Issue(env, Main, f.w, Get(P.PLUGIN_KEY));
      IssueObjects(env, f.w, Main, Get(P.PLUGIN_KEY));
      GetReply(env, f.w, Main, P.PLUGIN_KEY);
      if a.reply.Found? || a.reply.NotFound? {
        var plugin := if a.reply.Found? then Some(a.reply.obj) else None;
        PluginObjectsSettle(env, cr, a.w, plugin, f.found[0], f.found[1], ns);
      }
    }
    hide Issue;
  }

  // ---- The whole pass ----

  function ComponentKeys(spec: Spec, ns: string): set<Key> {
    GoflowKeys(ns) + {F.OvsKey(spec.cnoNamespace)} + PluginKeys(ns)
  }

  lemma UpToDateFrame(cr: FlowCollector, w: World, w': World, keys: set<Key>, ns: string)
    requires Frame(w, w', keys) && keys !! GoflowKeys(ns)
    ensures Present(cr, w.objs, ns) == Present(cr, w'.objs, ns)
    ensures OthersGone(cr.spec.goflowKube, w.objs, ns) == OthersGone(cr.spec.goflowKube, w'.objs, ns)
    ensures UpToDate(cr, w.objs, ns) == UpToDate(cr, w'.objs, ns)
  {
    hide GO.ConfigDigest;
    hide GO.BuildConfigMap;
    hide WellFormed;
    hide G.DeploymentNeedsUpdate;
    hide G.DaemonSetNeedsUpdate;
    hide G.ServiceNeedsUpdate;
    hide G.AutoscalerNeedsUpdate;
    assert Lookup(w.objs, GO.ConfigMapKey(ns)) == Lookup(w'.objs, GO.ConfigMapKey(ns));
    assert Lookup(w.objs, GO.DeploymentKey(ns)) == Lookup(w'.objs, GO.DeploymentKey(ns));
    assert Lookup(w.objs, GO.DaemonSetKey(ns)) == Lookup(w'.objs, GO.DaemonSetKey(ns));
    assert Lookup(w.objs, GO.ServiceKey(ns)) == Lookup(w'.objs, GO.ServiceKey(ns));
    assert Lookup(w.objs, GO.AutoscalerKey(ns)) == Lookup(w'.objs, GO.AutoscalerKey(ns));
  }

  lemma ComponentsSettle(env: Env, cr: FlowCollector, w: World, ns: string)
    requires WellFormed(w.objs)
    ensures var s := ReconcileComponents(env, w, cr, ns);
            && Frame(w, s.w, ComponentKeys(cr.spec, ns))
            && (s.st.Ok? ==> Present(cr, s.w.objs, ns) && (env.consoleEnabled ==> PluginUpToDate(cr, s.w.objs, ns)))
            && (s.st.Ok? && !s.w.crashed && ReliableDeletes(env) ==> UpToDate(cr, s.w.objs, ns))
  {
    hide ReliableDeletes;
    hide WellFormed;
    hide G.Reconcile;
    hide F.Reconcile;
    hide P.Reconcile;
    hide Present;
    hide OthersGone;
    hide PluginUpToDate;
    NamesDiffer();
    GoflowSettles(env, cr, w, ns);
    var s := G.Reconcile(env, w, cr.name, cr.spec.goflowKube, cr.spec.loki, ns);
    if s.st.Ok? {
      var o := F.Reconcile(env, s.w, cr.name, cr.spec, ns);
      OvsEffect(env, s.w, cr.name, cr.spec, ns);
      PluginSettles(env, cr, o.w, ns);
      var p := P.Reconcile(env, o.w, cr.name, cr.spec.consolePlugin, cr.spec.loki, ns);
      UpToDateFrame(cr, s.w, o.w, {F.OvsKey(cr.spec.cnoNamespace)}, ns);
      UpToDateFrame(cr, o.w, p.w, PluginKeys(ns), ns);
    }
  }

  lemma TrivialClosed(env: Env, cr: FlowCollector)
    ensures Closed(env, cr, (w: World) => true)
  {
  }

  /** A pass that succeeds has committed the namespace of the specification and has left all that is wanted there, with
      nothing a comparison would object to; with reliable deletes, the operator still alive, nothing else is there. */
  lemma PassSettles(env: Env, w: World)
    requires w.cr.Some? && !w.cr.value.deleting && WellFormed(w.objs)
    ensures var cr, s := w.cr.value, Reconcile(env, w); var ns := NamespaceOf(cr.spec);
            && (s.st.Ok? ==>
                  && s.w.cr == Some(cr.(deployedIn := ns))
                  && Present(cr, s.w.objs, ns)
                  && (env.consoleEnabled ==> PluginUpToDate(cr, s.w.objs, ns)))
            && (s.st.Ok? && !s.w.crashed && ReliableDeletes(env) ==> UpToDate(cr, s.w.objs, ns))
  {
    hide ReliableDeletes;
    hide WellFormed;
    hide Present;
    hide OthersGone;
    hide UpToDate;
    hide PluginUpToDate;
    hide EnsureNamespace;
    hide HandleNamespaceChanged;
    hide ReconcileComponents;
    var cr := w.cr.value;
    var ns, I := NamespaceOf(cr.spec), (x: World) => true;
    TrivialClosed(env, cr);
    hide Closed;
    CollectorReply(env, w);
    IssueObjects(env, w, Main, GetCollector);
    var a := Issue(env, Main, w, GetCollector);
    hide Issue;
    NamespaceKeeps(env, cr, I, a.w, ns);
    var s1 := EnsureNamespace(env, a.w, ns);
    if ns != cr.deployedIn {
      HandleKeeps(env, cr, I, s1.w, ns);
      ComponentsSettle(env, cr, HandleNamespaceChanged(env, s1.w, cr.name, ns, cr.deployedIn).w, ns);
    } else {
      ComponentsSettle(env, cr, s1.w, ns);
    }
  }

}
