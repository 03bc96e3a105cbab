/** Quiescence: what a second pass over an unchanged specification writes, call by call. */
module Quiescence {

  import opened Cluster
  import opened ClientHelper
  import opened Effects
  import opened FlowCollectorTypes
  import opened Lifecycle
  import opened ObjectManager
  import opened OvsController
  import opened PassInduction
  import opened Safety
  import opened Staleness
  import opened Success
  import opened Wrappers
  import C = FlowCollectorController
  import F = FlowsConfig
  import G = GoflowReconciler
  import GO = GoflowObjects
  import GoflowConfig
  import P = PluginReconciler

  // ---- Counting writes ----

  predicate IsWrite(call: Call) {
    !call.Get? && !call.GetCollector?
  }

  function Writes(trace: seq<Event>): seq<Call> {
    if trace == [] then []
    else
      var last := trace[|trace| - 1];
      Writes(trace[..|trace| - 1]) + if IsWrite(last.call) then [last.call] else []
  }

  lemma WritesAppend(trace: seq<Event>, e: Event)
    ensures Writes(trace + [e]) == Writes(trace) + if IsWrite(e.call) then [e.call] else []
  {
    assert (trace + [e])[..|trace|] == trace;
  }

  lemma AnsweredWrites(env: Env, w: World, who: Component, call: Call)
    requires FaultFree(env) && !w.crashed
    ensures var w' := Issue(env, who, w, call).w;
            !w'.crashed && Writes(w'.trace) == Writes(w.trace) + if IsWrite(call) then [call] else []
  {
    FaultFreePasses(env);
    Answered(env, {}, w, who, call);
    TraceOfServe(w, call);
    hide Serve;
    var a := Serve(w, call);
    var e := Event(who, call, a.reply, a.w.objs, a.w.cr);
    assert Issue(env, who, w, call).w.trace == w.trace + [e];
    WritesAppend(w.trace, e);
  }

  /** Nothing was written, and the operator is alive. */
  ghost predicate Silent(w: World, w': World) {
    !w'.crashed && w'.objs == w.objs && w'.cr == w.cr && Writes(w'.trace) == Writes(w.trace)
  }

  lemma SilentRead(env: Env, w: World, who: Component, call: Call)
    requires FaultFree(env) && !w.crashed && (call.Get? || call.GetCollector?)
    ensures Silent(w, Issue(env, who, w, call).w)
    ensures Issue(env, who, w, call).reply == Serve(w, call).reply
  {
    FaultFreePasses(env);
    Answered(env, {}, w, who, call);
    AnsweredWrites(env, w, who, call);
    hide Issue;
  }

  lemma {:induction false} SilentFetch(env: Env, w: World, keys: seq<Key>)
    requires FaultFree(env) && !w.crashed
    ensures var f := FetchAll(env, w, keys);
            && Silent(w, f.w) && f.st.Ok?
            && (forall i :: 0 <= i < |f.found| ==> f.found[i] == Lookup(w.objs, keys[i]))
    decreases |keys|
  {
    if keys == [] {
    } else {
      SilentRead(env, w, Main, Get(keys[0]));
      hide Issue;
      hide FaultFree;
      SilentFetch(env, Issue(env, Main, w, Get(keys[0])).w, keys[1..]);
    }
  }

  // ---- The OVS controller, when the resolution is steady ----

  /** Looking a host up gives the same addresses every time. */
  ghost predicate Steady(env: Env) {
    forall m, n, host :: env.lookupIP(m, host) == env.lookupIP(n, host)
  }

  function WantedNow(env: Env, w: World, spec: Spec, ns: string): Option<F.Config> {
    if spec.goflowKube.kind == DAEMON_SET_KIND then Some(F.Config(spec.ipfix, "", spec.goflowKube.port))
    else if spec.goflowKube.kind == DEPLOYMENT_KIND && GO.ServiceKey(ns) in w.objs then
      var target := F.ResolveTarget(env, w, w.objs[GO.ServiceKey(ns)], spec.goflowKube.port);
      if target.None? then None else Some(F.Config(spec.ipfix, target.value, 0))
    else None
  }

  /** The controller has something to write. */
  predicate OvsDue(env: Env, w: World, spec: Spec, ns: string) {
    var wanted, place := WantedNow(env, w, spec, ns), InPlace(w.objs, spec.cnoNamespace);
    wanted.Some? && (F.OvsKey(spec.cnoNamespace) !in w.objs || (place.Some? && place != wanted))
  }

  lemma SteadyTarget(env: Env, w: World, w': World, svc: Object, svc': Object, port: int32)
    requires Steady(env) && svc.meta.name == svc'.meta.name && svc.meta.namespace == svc'.meta.namespace
    ensures F.ResolveTarget(env, w, svc, port) == F.ResolveTarget(env, w', svc', port)
  {
    assert env.lookupIP(w.ovsClock, F.ServiceHost(svc)) == env.lookupIP(w'.ovsClock, F.ServiceHost(svc));
  }

  lemma WantedSteady(env: Env, w: World, w': World, spec: Spec, ns: string)
    requires Steady(env) && WellFormed(w.objs) && WellFormed(w'.objs)
    requires GO.ServiceKey(ns) in w.objs <==> GO.ServiceKey(ns) in w'.objs
    ensures WantedNow(env, w, spec, ns) == WantedNow(env, w', spec, ns)
  {
    if GO.ServiceKey(ns) in w.objs {
      SteadyTarget(env, w, w', w.objs[GO.ServiceKey(ns)], w'.objs[GO.ServiceKey(ns)], spec.goflowKube.port);
    }
    hide F.ResolveTarget;
    hide Steady;
  }

  lemma WantedFound(env: Env, w: World, spec: Spec, ns: string)
    requires FaultFree(env) && Steady(env) && !w.crashed && WellFormed(w.objs)
    ensures var d, now := F.WantedConfig(env, w, spec, ns), WantedNow(env, w, spec, ns);
            Silent(w, d.w) && (d.Desired? <==> now.Some?) && (d.Desired? ==> d.config == now.value)
  {
    var get := Get(Key(Services, ns, GOFLOW_KUBE));
    SilentRead(env, w, Ovs, get);
    if GO.ServiceKey(ns) in w.objs {
      var svc := w.objs[GO.ServiceKey(ns)];
      SteadyTarget(env, w, Issue(env, Ovs, w, get).w, svc, svc, spec.goflowKube.port);
    }
    hide Issue;
    hide F.ResolveTarget;
  }

  lemma CurrentFound(env: Env, w: World, cno: string)
    requires FaultFree(env) && !w.crashed && WellFormed(w.objs)
    ensures var c, k := F.ReadCurrent(env, w, cno), F.OvsKey(cno);
            && Silent(w, c.w)
            && (c.CurrentErr? <==> k in w.objs && InPlace(w.objs, cno).None?)
            && (c.Current? ==> c.config == InPlace(w.objs, cno) && (c.config.None? <==> k !in w.objs))
  {
    hide F.ConfigFromMap;
    SilentRead(env, w, Ovs, Get(F.OvsKey(cno)));
    hide Issue;
  }

  /** A write leaves what it wrote in place. */
  lemma OvsWritten(env: Env, w: World, owner: string, fc: F.Config, cno: string)
    requires FaultFree(env) && !w.crashed
    ensures var cm := F.BuildOvsConfigMap(owner, fc, cno); var k := F.OvsKey(cno);
            var w' := if k in w.objs then Issue(env, Ovs, w, Update(cm)).w else Issue(env, Ovs, w, Create(cm)).w;
            && !w'.crashed && Frame(w, w', {k}) && k in w'.objs && InPlace(w'.objs, cno) == Some(fc)
  {
    hide F.ConfigFromMap;
    hide F.AsStringMap;
    FlowsRoundTrip(fc);
    FaultFreePasses(env);
    var cm := F.BuildOvsConfigMap(owner, fc, cno);
    Answered(env, {}, w, Ovs, Create(cm));
    Answered(env, {}, w, Ovs, Update(cm));
    FrameOfWrite(env, w, Ovs, cm);
    hide Issue;
  }

  /** A controller with nothing to write stays silent; otherwise it writes, and then has nothing to write. */
  lemma OvsSettles(env: Env, w: World, owner: string, spec: Spec, ns: string)
    requires FaultFree(env) && Steady(env) && !w.crashed && WellFormed(w.objs)
    ensures var w' := F.Reconcile(env, w, owner, spec, ns).w;
            && !w'.crashed && !OvsDue(env, w', spec, ns)
            && (!OvsDue(env, w, spec, ns) ==> Silent(w, w'))
  {
    hide F.ReadCurrent;
    hide F.WantedConfig;
    hide FaultFree;
    hide Steady;
    hide InPlace;
    hide WellFormed;
    hide F.AsStringMap;
    hide F.ResolveTarget;
    var cno := spec.cnoNamespace;
    CurrentFound(env, w, cno);
    var current := F.ReadCurrent(env, w, cno);
    WantedFound(env, current.w, spec, ns);
    var wanted := F.WantedConfig(env, current.w, spec, ns);
    WantedSteady(env, w, current.w, spec, ns);
    OvsEffect(env, w, owner, spec, ns);
    var w' := F.Reconcile(env, w, owner, spec, ns).w;
    assert Lookup(w.objs, GO.ServiceKey(ns)) == Lookup(w'.objs, GO.ServiceKey(ns));
    WantedSteady(env, w, w', spec, ns);
    if wanted.Desired? {
      OvsWritten(env, wanted.w, owner, wanted.config, cno);
    }
    hide Issue;
    hide WantedNow;
  }

  // ---- goflow-kube ----

  /** The rewrite of the configuration, which is the same text, at the version that was read. */
  function ConfigMapRewrite(cr: FlowCollector, objs: Objects, ns: string): Call {
    Update(Own(cr, WithVersionOf(Lookup(objs, GO.ConfigMapKey(ns)),
                                 GO.BuildConfigMap(cr.spec.goflowKube, cr.spec.loki, ns))))
  }

  lemma UpdateWrites(env: Env, cr: FlowCollector, w: World, previous: Option<Object>, o: Object)
    requires FaultFree(env) && !w.crashed && previous.Some? && previous == Lookup(w.objs, KeyOf(o))
    requires SetControllerReference(cr.name, o).Some?
    ensures var s := UpdateOwned(env, w, cr.name, previous, o);
            && s.st.Ok? && !s.w.crashed && Frame(w, s.w, {KeyOf(o)}) && Stored(s.w, Own(cr, o))
            && Writes(s.w.trace) == Writes(w.trace) + [Update(Own(cr, WithVersionOf(previous, o)))]
  {
    FaultFreePasses(env);
    UpdateAnswered(env, {}, cr, w, previous, o);
    AnsweredWrites(env, w, Main, Update(Own(cr, WithVersionOf(previous, o))));
    hide Issue;
  }

  lemma ConfigMapRewritten(env: Env, cr: FlowCollector, w: World, owned: G.Owned, ns: string)
    requires FaultFree(env) && !w.crashed && UpToDate(cr, w.objs, ns)
    requires owned.configMap == Lookup(w.objs, GO.ConfigMapKey(ns))
    ensures var k := GO.ConfigMapKey(ns);
            var s := G.ReconcileConfigMap(env, w, cr.name, owned, cr.spec.goflowKube, cr.spec.loki, ns);
            && s.st.Ok? && !s.w.crashed && Frame(w, s.w, {k})
            && k in w.objs && k in s.w.objs && Same(s.w.objs[k], w.objs[k])
            && Writes(s.w.trace) == Writes(w.trace) + [ConfigMapRewrite(cr, w.objs, ns)]
  {
    hide GoflowConfig.ConfigText;
    hide FaultFree;
    hide UpdateOwned;
    hide GO.ConfigDigest;
    hide DeploymentPresent;
    hide DaemonSetPresent;
    UpdateWrites(env, cr, w, owned.configMap, GO.BuildConfigMap(cr.spec.goflowKube, cr.spec.loki, ns));
  }

  /** Objects that are up to date are left alone. */
  lemma WorkloadSilent(env: Env, cr: FlowCollector, w: World, owned: G.Owned, ns: string)
    requires UpToDate(cr, w.objs, ns) && Fetched(w, owned, ns)
    ensures var gf, loki := cr.spec.goflowKube, cr.spec.loki;
            G.ReconcileWorkload(env, w, cr.name, owned, gf, ns, GO.ConfigDigest(gf, loki)) == Step(w, Ok)
  {
    hide GO.ConfigDigest;
    hide GO.BuildConfigMap;
    hide GO.BuildDeployment;
    hide GO.BuildDaemonSet;
    hide G.DeploymentNeedsUpdate;
    hide G.DaemonSetNeedsUpdate;
    hide G.ServiceNeedsUpdate;
    hide G.AutoscalerNeedsUpdate;
    hide Same;
  }

  lemma StillUpToDate(cr: FlowCollector, w: World, w': World, ns: string)
    requires UpToDate(cr, w.objs, ns) && Frame(w, w', {GO.ConfigMapKey(ns)})
    requires GO.ConfigMapKey(ns) in w'.objs && Same(w'.objs[GO.ConfigMapKey(ns)], w.objs[GO.ConfigMapKey(ns)])
    ensures UpToDate(cr, w'.objs, ns)
  {
    hide GO.ConfigDigest;
    hide GO.BuildConfigMap;
    hide WellFormed;
    hide G.DeploymentNeedsUpdate;
    hide G.DaemonSetNeedsUpdate;
    hide G.ServiceNeedsUpdate;
    hide G.AutoscalerNeedsUpdate;
    assert Lookup(w.objs, GO.DeploymentKey(ns)) == Lookup(w'.objs, GO.DeploymentKey(ns));
    assert Lookup(w.objs, GO.DaemonSetKey(ns)) == Lookup(w'.objs, GO.DaemonSetKey(ns));
    assert Lookup(w.objs, GO.ServiceKey(ns)) == Lookup(w'.objs, GO.ServiceKey(ns));
    assert Lookup(w.objs, GO.AutoscalerKey(ns)) == Lookup(w'.objs, GO.AutoscalerKey(ns));
  }

  lemma GoflowRewrites(env: Env, cr: FlowCollector, w: World, ns: string)
    requires FaultFree(env) && !w.crashed && UpToDate(cr, w.objs, ns)
    ensures var k := GO.ConfigMapKey(ns);
            var s := G.Reconcile(env, w, cr.name, cr.spec.goflowKube, cr.spec.loki, ns);
            && s.st.Ok? && !s.w.crashed && Frame(w, s.w, {k})
            && k in w.objs && k in s.w.objs && Same(s.w.objs[k], w.objs[k])
            && Writes(s.w.trace) == Writes(w.trace) + [ConfigMapRewrite(cr, w.objs, ns)]
            && UpToDate(cr, s.w.objs, ns)
  {
    hide FaultFree;
    hide FetchAll;
    hide WellFormed;
    hide UpToDate;
    hide Same;
    hide GO.ConfigDigest;
    hide GO.BuildConfigMap;
    hide G.ReconcileConfigMap;
    hide G.ReconcileWorkload;
    SilentFetch(env, w, GO.ManagedKeys(ns));
    FetchAllEffect(env, w, GO.ManagedKeys(ns));
    var f := FetchAll(env, w, GO.ManagedKeys(ns));
    var owned := G.OwnedFrom(f.found);
    ConfigMapRewritten(env, cr, f.w, owned, ns);
    var s := G.ReconcileConfigMap(env, f.w, cr.name, owned, cr.spec.goflowKube, cr.spec.loki, ns);
    StillUpToDate(cr, w, s.w, ns);
    WorkloadSilent(env, cr, s.w, owned, ns);
  }

  // ---- The console plugin ----

  /** The console Service has no TCP port of the right number: an update has turned it to UDP. */
  predicate TurnedUDP(cr: FlowCollector, objs: Objects, ns: string) {
    P.ServiceKey(ns) in objs && P.ServiceNeedsUpdate(objs[P.ServiceKey(ns)], cr.spec.consolePlugin, ns)
  }

  function PluginServiceRewrite(cr: FlowCollector, objs: Objects, ns: string): Call
    requires P.ServiceKey(ns) in objs
  {
    Update(Own(cr, P.BuildService(Some(objs[P.ServiceKey(ns)]), cr.spec.consolePlugin, ns)))
  }

  lemma PluginServiceRewritten(env: Env, cr: FlowCollector, w: World, svc: Option<Object>, ns: string)
    requires FaultFree(env) && !w.crashed && WellFormed(w.objs)
    requires svc == Lookup(w.objs, P.ServiceKey(ns)) && svc.Some? && !Neglected(cr, svc.value, ns)
    ensures var k := P.ServiceKey(ns);
            var s := P.ReconcileService(env, w, cr.name, svc, cr.spec.consolePlugin, ns);
            && s.st.Ok? && !s.w.crashed && Frame(w, s.w, {k}) && k in s.w.objs && Same(s.w.objs[k], w.objs[k])
            && Writes(s.w.trace) == Writes(w.trace)
                 + if TurnedUDP(cr, w.objs, ns) then [PluginServiceRewrite(cr, w.objs, ns)] else []
  {
    hide FaultFree;
    hide UpdateOwned;
    var wanted := P.BuildService(svc, cr.spec.consolePlugin, ns);
    assert KeyOf(wanted) == P.ServiceKey(ns) && WithVersionOf(svc, wanted) == wanted;
    if TurnedUDP(cr, w.objs, ns) {
      UpdateWrites(env, cr, w, svc, wanted);
    }
    assert Writes(w.trace) + [] == Writes(w.trace);
  }

  lemma PluginRewrites(env: Env, cr: FlowCollector, w: World, ns: string)
    requires FaultFree(env) && !w.crashed && WellFormed(w.objs) && PluginUpToDate(cr, w.objs, ns)
    ensures var k := P.ServiceKey(ns);
            var s := P.Reconcile(env, w, cr.name, cr.spec.consolePlugin, cr.spec.loki, ns);
            && s.st.Ok? && !s.w.crashed && Frame(w, s.w, {k})
            && k in w.objs && k in s.w.objs && Same(s.w.objs[k], w.objs[k])
            && Writes(s.w.trace) == Writes(w.trace)
                 + if TurnedUDP(cr, w.objs, ns) then [PluginServiceRewrite(cr, w.objs, ns)] else []
  {
    hide FaultFree;
    hide FetchAll;
    hide WellFormed;
    hide Same;
    hide Neglected;
    hide TurnedUDP;
    hide P.ReconcileService;
    hide P.DeploymentNeedsUpdate;
    hide P.PluginNeedsUpdate;
    hide P.BuildDeployment;
    SilentFetch(env, w, P.ManagedKeys(ns));
    FetchAllEffect(env, w, P.ManagedKeys(ns));
    var f := FetchAll(env, w, P.ManagedKeys(ns));
    SilentRead(env, f.w, Main, Get(P.PLUGIN_KEY));
    IssueObjects(env, f.w, Main, Get(P.PLUGIN_KEY));
    var a := Issue(env, Main, f.w, Get(P.PLUGIN_KEY));
    hide Issue;
    PluginServiceRewritten(env, cr, a.w, f.found[1], ns);
  }

  // ---- A pass at rest ----

  /** Equal up to the fields the server assigns. */
  ghost predicate SameContent(objs: Objects, objs': Objects) {
    forall k :: (k in objs <==> k in objs') && (k in objs ==> Same(objs[k], objs'[k]))
  }

  /** Nothing is left to do, but for the two rewrites. */
  ghost predicate AtRest(env: Env, w: World) {
    && Live(w)
    && var cr := w.cr.value; var ns := C.NamespaceOf(cr.spec);
    && cr.deployedIn == ns && C.NamespaceKey(ns) in w.objs
    && UpToDate(cr, w.objs, ns)
    && (env.consoleEnabled ==> PluginUpToDate(cr, w.objs, ns))
    && !OvsDue(env, w, cr.spec, ns)
  }

  /** The calls of a pass at rest that write: the configuration, and the console Service if it was turned to UDP. */
  function RestWrites(env: Env, cr: FlowCollector, objs: Objects): seq<Call> {
    var ns := C.NamespaceOf(cr.spec);
    [ConfigMapRewrite(cr, objs, ns)]
    + if env.consoleEnabled && TurnedUDP(cr, objs, ns) then [PluginServiceRewrite(cr, objs, ns)] else []
  }

  lemma OvsDueFrame(env: Env, w: World, w': World, spec: Spec, ns: string, keys: set<Key>)
    requires Steady(env) && WellFormed(w.objs) && WellFormed(w'.objs) && Frame(w, w', keys)
    requires F.OvsKey(spec.cnoNamespace) !in keys && GO.ServiceKey(ns) !in keys
    ensures OvsDue(env, w, spec, ns) == OvsDue(env, w', spec, ns)
  {
    hide F.ConfigFromMap;
    assert Lookup(w.objs, F.OvsKey(spec.cnoNamespace)) == Lookup(w'.objs, F.OvsKey(spec.cnoNamespace));
    assert Lookup(w.objs, GO.ServiceKey(ns)) == Lookup(w'.objs, GO.ServiceKey(ns));
    WantedSteady(env, w, w', spec, ns);
    hide WantedNow;
  }

  lemma PluginUpToDateFrame(cr: FlowCollector, w: World, w': World, keys: set<Key>, ns: string)
    requires PluginUpToDate(cr, w.objs, ns) && Frame(w, w', keys)
    requires P.PLUGIN_KEY !in keys && P.DeploymentKey(ns) !in keys
    requires P.ServiceKey(ns) in w'.objs && Same(w'.objs[P.ServiceKey(ns)], w.objs[P.ServiceKey(ns)])
    ensures PluginUpToDate(cr, w'.objs, ns) && TurnedUDP(cr, w'.objs, ns) == TurnedUDP(cr, w.objs, ns)
  {
    hide P.PluginNeedsUpdate;
    hide P.DeploymentNeedsUpdate;
    hide WellFormed;
    assert Lookup(w.objs, P.PLUGIN_KEY) == Lookup(w'.objs, P.PLUGIN_KEY);
    assert Lookup(w.objs, P.DeploymentKey(ns)) == Lookup(w'.objs, P.DeploymentKey(ns));
  }

  lemma SameSelf(o: Object)
    ensures Same(o, o)
  {
  }

  /** One key rewritten with the same content. */
  lemma SameButOne(w: World, w': World, k: Key)
    requires Frame(w, w', {k}) && k in w.objs && k in w'.objs && Same(w'.objs[k], w.objs[k])
    ensures SameContent(w.objs, w'.objs)
  {
    hide WellFormed;
    forall j ensures (j in w.objs <==> j in w'.objs) && (j in w.objs ==> Same(w.objs[j], w'.objs[j])) {
      assert j != k ==> Lookup(w.objs, j) == Lookup(w'.objs, j);
    }
  }

  lemma SameContentChain(a: Objects, b: Objects, c: Objects)
    requires SameContent(a, b) && SameContent(b, c)
    ensures SameContent(a, c)
  {
  }

  /** What the components do at rest, and that they are at rest after it. */
  ghost predicate Rested(env: Env, cr: FlowCollector, w: World, s: Step) {
    var ns := C.NamespaceOf(cr.spec);
    && s.st.Ok? && !s.w.crashed && WellFormed(s.w.objs) && s.w.cr == w.cr
    && SameContent(w.objs, s.w.objs)
    && Writes(s.w.trace) == Writes(w.trace) + RestWrites(env, cr, w.objs)
    && UpToDate(cr, s.w.objs, ns)
    && (env.consoleEnabled ==> PluginUpToDate(cr, s.w.objs, ns))
    && !OvsDue(env, s.w, cr.spec, ns)
  }

  lemma PluginRests(env: Env, cr: FlowCollector, w: World, w1: World, ns: string)
    requires FaultFree(env) && Steady(env) && env.consoleEnabled && ns == C.NamespaceOf(cr.spec)
    requires !w1.crashed && WellFormed(w1.objs) && UpToDate(cr, w1.objs, ns) && !OvsDue(env, w1, cr.spec, ns)
    requires PluginUpToDate(cr, w.objs, ns) && Frame(w, w1, {GO.ConfigMapKey(ns)}) && SameContent(w.objs, w1.objs)
    requires Writes(w1.trace) == Writes(w.trace) + [ConfigMapRewrite(cr, w.objs, ns)]
    ensures Rested(env, cr, w, P.Reconcile(env, w1, cr.name, cr.spec.consolePlugin, cr.spec.loki, ns))
  {
    hide FaultFree;
    hide Steady;
    hide WellFormed;
    hide UpToDate;
    hide PluginUpToDate;
    hide SameContent;
    hide Same;
    hide OvsDue;
    hide TurnedUDP;
    hide ConfigMapRewrite;
    hide P.Reconcile;
    hide P.BuildService;
    NamesDiffer();
    var k := P.ServiceKey(ns);
    PluginHasService(cr, w.objs, ns);
    Unchanged(w, w1, {GO.ConfigMapKey(ns)}, k);
    SameSelf(w.objs[k]);
    PluginUpToDateFrame(cr, w, w1, {GO.ConfigMapKey(ns)}, ns);
    PluginRewrites(env, cr, w1, ns);
    var s := P.Reconcile(env, w1, cr.name, cr.spec.consolePlugin, cr.spec.loki, ns);
    SameButOne(w1, s.w, k);
    SameContentChain(w.objs, w1.objs, s.w.objs);
    UpToDateFrame(cr, w1, s.w, {k}, ns);
    PluginUpToDateFrame(cr, w1, s.w, {k}, ns);
    OvsDueFrame(env, w1, s.w, cr.spec, ns, {k});
    assert Writes(w.trace) + [ConfigMapRewrite(cr, w.objs, ns)]
           + (if TurnedUDP(cr, w.objs, ns) then [PluginServiceRewrite(cr, w.objs, ns)] else [])
        == Writes(w.trace) + RestWrites(env, cr, w.objs);
  }

  lemma PluginHasService(cr: FlowCollector, objs: Objects, ns: string)
    requires PluginUpToDate(cr, objs, ns)
    ensures P.ServiceKey(ns) in objs
  {
  }

  lemma ComponentsRest(env: Env, cr: FlowCollector, w: World, ns: string)
    requires FaultFree(env) && Steady(env) && !w.crashed && WellFormed(w.objs) && ns == C.NamespaceOf(cr.spec)
    requires UpToDate(cr, w.objs, ns) && !OvsDue(env, w, cr.spec, ns)
    requires env.consoleEnabled ==> PluginUpToDate(cr, w.objs, ns)
    ensures Rested(env, cr, w, C.ReconcileComponents(env, w, cr, ns))
  {
    hide FaultFree;
    hide Steady;
    hide WellFormed;
    hide UpToDate;
    hide PluginUpToDate;
    hide SameContent;
    hide Same;
    hide OvsDue;
    hide ConfigMapRewrite;
    hide G.Reconcile;
    hide F.Reconcile;
    hide P.Reconcile;
    NamesDiffer();
    var k := GO.ConfigMapKey(ns);
    GoflowRewrites(env, cr, w, ns);
    var s := G.Reconcile(env, w, cr.name, cr.spec.goflowKube, cr.spec.loki, ns);
    SameButOne(w, s.w, k);
    OvsDueFrame(env, w, s.w, cr.spec, ns, {k});
    OvsSettles(env, s.w, cr.name, cr.spec, ns);
    var o := F.Reconcile(env, s.w, cr.name, cr.spec, ns);
    if env.consoleEnabled {
      PluginRests(env, cr, w, o.w, ns);
    }
  }

  lemma EntrySilent(env: Env, w: World)
    requires FaultFree(env) && Live(w) && C.NamespaceKey(C.NamespaceOf(w.cr.value.spec)) in w.objs
    requires w.cr.value.deployedIn == C.NamespaceOf(w.cr.value.spec)
    ensures var cr := w.cr.value; var e := Entry(env, w, cr);
            && Silent(w, e)
            && C.Reconcile(env, w) == C.ReconcileComponents(env, e, cr, C.NamespaceOf(cr.spec))
  {
    hide C.ReconcileComponents;
    hide WellFormed;
    var cr := w.cr.value;
    SilentRead(env, w, Main, GetCollector);
    var a := Issue(env, Main, w, GetCollector);
    SilentRead(env, a.w, Main, Get(C.NamespaceKey(C.NamespaceOf(cr.spec))));
    hide Issue;
  }

  /** At rest, a pass succeeds, leaves the content of the cluster as it is, writes exactly the configuration and, if an
      update has turned it to UDP, the console Service; and it ends at rest. */
  lemma RestPass(env: Env, w: World)
    requires FaultFree(env) && Steady(env) && AtRest(env, w)
    ensures var s := C.Reconcile(env, w);
            && s.st.Ok? && AtRest(env, s.w) && s.w.cr == w.cr
            && SameContent(w.objs, s.w.objs)
            && Writes(s.w.trace) == Writes(w.trace) + RestWrites(env, w.cr.value, w.objs)
  {
    hide FaultFree;
    hide WellFormed;
    hide SameContent;
    hide OvsDue;
    hide UpToDate;
    hide PluginUpToDate;
    hide RestWrites;
    hide C.Reconcile;
    hide C.ReconcileComponents;
    var cr := w.cr.value;
    var ns := C.NamespaceOf(cr.spec);
    EntrySilent(env, w);
    var e := Entry(env, w, cr);
    hide Entry;
    OvsDueSilent(env, w, e, cr.spec, ns);
    ComponentsRest(env, cr, e, ns);
    NamespaceStays(w.objs, C.Reconcile(env, w).w.objs, C.NamespaceKey(ns));
  }

  lemma NamespaceStays(objs: Objects, objs': Objects, k: Key)
    requires SameContent(objs, objs') && k in objs
    ensures k in objs'
  {
  }

  lemma OvsDueSilent(env: Env, w: World, w': World, spec: Spec, ns: string)
    requires Steady(env) && WellFormed(w.objs) && w'.objs == w.objs
    ensures OvsDue(env, w, spec, ns) == OvsDue(env, w', spec, ns)
  {
    hide F.ConfigFromMap;
    WantedSteady(env, w, w', spec, ns);
    hide WantedNow;
    hide Steady;
  }

  lemma ComponentsOvs(env: Env, cr: FlowCollector, w: World, ns: string)
    requires FaultFree(env) && Steady(env) && !w.crashed && WellFormed(w.objs)
    requires C.ReconcileComponents(env, w, cr, ns).st.Ok?
    ensures !OvsDue(env, C.ReconcileComponents(env, w, cr, ns).w, cr.spec, ns)
  {
    hide FaultFree;
    hide Steady;
    hide WellFormed;
    hide OvsDue;
    hide Present;
    hide UpToDate;
    hide PluginUpToDate;
    hide G.Reconcile;
    hide F.Reconcile;
    hide P.Reconcile;
    NamesDiffer();
    FaultFreePasses(env);
    assert GoflowKeys(ns) !! {};
    GoflowAnswered(env, {}, cr, w, ns);
    GoflowSettles(env, cr, w, ns);
    var s := G.Reconcile(env, w, cr.name, cr.spec.goflowKube, cr.spec.loki, ns);
    OvsSettles(env, s.w, cr.name, cr.spec, ns);
    OvsEffect(env, s.w, cr.name, cr.spec, ns);
    var o := F.Reconcile(env, s.w, cr.name, cr.spec, ns);
    if env.consoleEnabled {
      PluginSettles(env, cr, o.w, ns);
      var p := P.Reconcile(env, o.w, cr.name, cr.spec.consolePlugin, cr.spec.loki, ns);
      OvsDueFrame(env, o.w, p.w, cr.spec, ns, PluginKeys(ns));
    }
  }

  lemma ComponentsKeepNamespaces(env: Env, cr: FlowCollector, w: World, ns: string, k: Key)
    requires WellFormed(w.objs) && k.kind == Namespaces && k in w.objs
    ensures k in C.ReconcileComponents(env, w, cr, ns).w.objs
  {
    hide C.ReconcileComponents;
    hide WellFormed;
    ComponentsFrame(env, cr, w, ns);
    Unchanged(w, C.ReconcileComponents(env, w, cr, ns).w, ComponentKeys(cr.spec, ns), k);
  }

  lemma PrepareKeepsNamespaces(env: Env, cr: FlowCollector, w: World, ns: string, k: Key)
    requires FaultFree(env) && Live(w) && w.cr == Some(cr) && ns == C.NamespaceOf(cr.spec)
    requires k.kind == Namespaces && k in w.objs
    ensures k in Prepare(env, w, cr, ns).w.objs && WellFormed(Prepare(env, w, cr, ns).w.objs)
  {
    hide WellFormed;
    PrepareTouches(env, cr, w, ns);
    NamespaceNotHandled(cr.deployedIn, ns, k);
    assert Lookup(w.objs, k) == Lookup(Prepare(env, w, cr, ns).w.objs, k);
    hide Prepare;
  }

  lemma NamespaceCreated(env: Env, w: World)
    requires FaultFree(env) && Live(w)
    ensures var cr := w.cr.value; C.NamespaceKey(C.NamespaceOf(cr.spec)) in C.Reconcile(env, w).w.objs
  {
    hide FaultFree;
    hide PassesBut;
    hide WellFormed;
    hide Entry;
    hide Preparation;
    hide Prepare;
    hide C.Reconcile;
    hide C.ReconcileComponents;
    var cr := w.cr.value;
    var ns := C.NamespaceOf(cr.spec);
    FaultFreePasses(env);
    EntryAnswered(env, {}, w);
    EntryHasNamespace(env, w);
    var e := Entry(env, w, cr);
    PrepareKeepsNamespaces(env, cr, e, ns, C.NamespaceKey(ns));
    ComponentsKeepNamespaces(env, cr, Prepare(env, e, cr, ns).w, ns, C.NamespaceKey(ns));
  }

  lemma EntryHasNamespace(env: Env, w: World)
    requires FaultFree(env) && Live(w)
    ensures var cr := w.cr.value; C.NamespaceKey(C.NamespaceOf(cr.spec)) in Entry(env, w, cr).objs
  {
    FaultFreePasses(env);
    Answered(env, {}, w, Main, GetCollector);
    NamespaceAnswered(env, {}, Issue(env, Main, w, GetCollector).w, C.NamespaceOf(w.cr.value.spec));
    hide Issue;
    hide WellFormed;
  }

  lemma NamespaceNotHandled(prev: string, ns: string, k: Key)
    requires k.kind == Namespaces
    ensures k !in HandledKeys(prev, ns)
  {
  }

  lemma PrepareTouches(env: Env, cr: FlowCollector, w: World, ns: string)
    requires FaultFree(env) && Live(w) && w.cr == Some(cr) && ns == C.NamespaceOf(cr.spec)
    ensures Touches(w, Prepare(env, w, cr, ns).w, HandledKeys(cr.deployedIn, ns))
  {
    FaultFreePasses(env);
    hide C.HandleNamespaceChanged;
    hide WellFormed;
    if ns != cr.deployedIn {
      HandleAnswered(env, {}, cr, w, ns);
    }
  }

  /** After a first pass that succeeds, from any state whatever, the operator is at rest. */
  lemma FirstPassRests(env: Env, w: World)
    requires FaultFree(env) && Steady(env) && Live(w) && C.Reconcile(env, w).st.Ok?
    ensures AtRest(env, C.Reconcile(env, w).w)
  {
    hide FaultFree;
    hide Steady;
    hide WellFormed;
    hide OvsDue;
    hide UpToDate;
    hide PluginUpToDate;
    hide Entry;
    hide Preparation;
    hide Prepare;
    hide C.Reconcile;
    hide C.ReconcileComponents;
    hide Ready;
    hide ServiceBlocked;
    var cr := w.cr.value;
    var ns := C.NamespaceOf(cr.spec);
    FaultFreePasses(env);
    DeletesPass(env);
    PassAnswered(env, {}, w);
    PassSettles(env, w);
    NamespaceCreated(env, w);
    EntryAnswered(env, {}, w);
    var e := Entry(env, w, cr);
    PrepareAnswered(env, {}, cr, e, ns);
    var p := Prepare(env, e, cr, ns);
    ComponentsOvs(env, cr, p.w, ns);
    UpToDateStatus(cr, cr.(deployedIn := ns), C.Reconcile(env, w).w.objs, ns);
  }

  /** Being up to date does not depend on the status. */
  lemma UpToDateStatus(cr: FlowCollector, cr': FlowCollector, objs: Objects, ns: string)
    requires cr'.name == cr.name && cr'.spec == cr.spec
    ensures UpToDate(cr, objs, ns) == UpToDate(cr', objs, ns)
    ensures PluginUpToDate(cr, objs, ns) == PluginUpToDate(cr', objs, ns)
  {
    hide GO.ConfigDigest;
    hide GO.BuildConfigMap;
    hide DeploymentPresent;
    hide DaemonSetPresent;
    hide P.ServiceNeedsUpdate;
    hide P.DeploymentNeedsUpdate;
  }

  lemma DeletesPass(env: Env)
    requires FaultFree(env)
    ensures ReliableDeletes(env)
  {
  }

  /** The n-th pass over the same specification. */
  function Passes(env: Env, w: World, n: nat): World {
    if n == 0 then w else C.Reconcile(env, Passes(env, w, n - 1)).w
  }

  /** After one pass that succeeds with no fault, every later pass over the same specification, the names resolving as
      they did, leaves the content of the cluster as it is and writes exactly two objects at most: the goflow-kube
      configuration, always, and the console Service, precisely when it has no TCP port of the right number. */
  lemma {:induction false} LaterPasses(env: Env, w: World, n: nat)
    requires FaultFree(env) && Steady(env) && Live(w) && C.Reconcile(env, w).st.Ok?
    ensures var w1, w2 := Passes(env, w, n + 1), Passes(env, w, n + 2);
            && AtRest(env, w1) && AtRest(env, w2) && w2.cr == w1.cr
            && SameContent(w1.objs, w2.objs)
            && Writes(w2.trace) == Writes(w1.trace) + RestWrites(env, w1.cr.value, w1.objs)
    decreases n
  {
    hide FaultFree;
    hide Steady;
    hide AtRest;
    hide SameContent;
    hide RestWrites;
    hide C.Reconcile;
    hide WellFormed;
    if n == 0 {
      FirstPassRests(env, w);
      PassesTwice(env, w);
    } else {
      LaterPasses(env, w, n - 1);
    }
    RestPass(env, Passes(env, w, n + 1));
  }

  lemma PassesTwice(env: Env, w: World)
    ensures Passes(env, w, 1) == C.Reconcile(env, w).w
  {
    assert Passes(env, w, 0) == w;
  }

}
