/** Convergence: after a pass that succeeds, the collector's objects are a function of the last specification alone,
    whatever was edited and whatever failed before. */
module Convergence {

  import opened Cluster
  import opened ClientHelper
  import opened Containment
  import opened Effects
  import opened FlowCollectorTypes
  import opened ObjectManager
  import opened PassInduction
  import opened Runs
  import opened Safety
  import opened Staleness
  import opened Wrappers
  import C = FlowCollectorController
  import F = FlowsConfig
  import G = GoflowReconciler
  import GO = GoflowObjects
  import GoflowConfig
  import P = PluginReconciler

  /** The keys of the collector's own objects, in all namespaces. */
  predicate GoflowWorkload(k: Key) {
    Workload(k) && !OfPlugin(k)
  }

  /** The collector's objects as a function of the specification. */
  function Desired(spec: Spec, k: Key): Option<Object> {
    var ns, gf, loki := C.NamespaceOf(spec), spec.goflowKube, spec.loki;
    var digest := GO.ConfigDigest(gf, loki);
    if k == GO.ConfigMapKey(ns) then Some(GO.BuildConfigMap(gf, loki, ns))
    else if gf.kind == DAEMON_SET_KIND then
      if k == GO.DaemonSetKey(ns) then Some(GO.BuildDaemonSet(gf, ns, digest)) else None
    else if gf.kind == DEPLOYMENT_KIND then
      if k == GO.DeploymentKey(ns) then Some(GO.BuildDeployment(gf, ns, digest))
      else if k == GO.ServiceKey(ns) then Some(GO.BuildService(None, gf, ns))
      else if k == GO.AutoscalerKey(ns) && gf.hpa.Some? then Some(GO.BuildAutoscaler(gf.hpa.value, ns))
      else None
    else None
  }

  /** What is stored is what is wanted, up to the fields the server assigns. */
  ghost predicate Agrees(cr: FlowCollector, stored: Option<Object>, wanted: Option<Object>) {
    && (stored.Some? <==> wanted.Some?)
    && (stored.Some? ==> Same(stored.value, Own(cr, wanted.value)))
  }

  ghost predicate Settled(cr: FlowCollector, objs: Objects) {
    forall k :: GoflowWorkload(k) ==> Agrees(cr, Lookup(objs, k), Desired(cr.spec, k))
  }

  // ---- Every object is one the operator built ----

  function Collector(name: string, spec: Spec): FlowCollector {
    FlowCollector(name, false, spec, "")
  }

  ghost predicate BuiltFor(name: string, spec: Spec, k: Key, o: Object) {
    Agrees(Collector(name, spec), Some(o), Desired(spec, k))
  }

  ghost predicate Built(name: string, specs: set<Spec>, k: Key, o: Object) {
    exists spec :: spec in specs && BuiltFor(name, spec, k, o)
  }

  /** The collector's objects come from specifications of the run. */
  ghost predicate AllBuilt(name: string, specs: set<Spec>, s: Snapshot) {
    && s.cr.Some? && s.cr.value.name == name && !s.cr.value.deleting
    && forall k :: GoflowWorkload(k) && k in s.objs ==> Built(name, specs, k, s.objs[k])
  }

  /** A goflow object that a pass may send is the desired one under its key. */
  lemma GoflowObjectDesired(env: Env, cr: FlowCollector, w: World, o: Object, stored: Object)
    requires GoflowObject(env, cr, w, o) && Same(stored, o)
    ensures BuiltFor(cr.name, cr.spec, KeyOf(o), stored)
  {
    hide Cleared;
    hide GoflowConfig.ConfigText;
    hide GO.ConfigDigest;
    hide GO.BuildPodTemplate;
    assert KeyOf(stored) == KeyOf(o);
  }

  lemma ServiceDesired(
      env: Env, cr: FlowCollector, specs: set<Spec>, previous: Option<Object>, o: Object, stored: Object)
    requires ServiceOf(env, cr, previous, o) && SavedAs(stored, o) && GoflowWorkload(KeyOf(o))
    requires previous.Some? ==> KeyOf(previous.value) == KeyOf(o) && Built(cr.name, specs, KeyOf(o), previous.value)
    ensures BuiltFor(cr.name, cr.spec, KeyOf(o), stored)
  {
    NamesDiffer();
    hide GO.ConfigDigest;
    hide GO.BuildPodTemplate;
    var ns, gf := C.NamespaceOf(cr.spec), cr.spec.goflowKube;
    if previous.Some? {
      var spec :| spec in specs && BuiltFor(cr.name, spec, KeyOf(o), previous.value);
      ServiceForm(previous.value, Collector(cr.name, spec), spec.goflowKube, ns, gf);
    }
  }

  lemma CreateBuilt(
      env: Env, cr: FlowCollector, specs: set<Spec>, w: World, who: Cluster.Component, o: Object, stored: Object)
    requires CreateGuard(env, cr, w, who, o) && GoflowWorkload(KeyOf(o)) && SavedAs(stored, o)
    ensures BuiltFor(cr.name, cr.spec, KeyOf(o), stored)
  {
    hide GoflowObject;
    hide PluginObject;
    hide ServiceOf;
    hide Desired;
    hide Cleared;
    NamesDiffer();
    if GoflowObject(env, cr, w, o) {
      GoflowObjectDesired(env, cr, w, o, stored);
    } else if PluginObject(cr, o) {
      PluginObjectKey(cr, o);
    } else if ServiceOf(env, cr, None, o) {
      ServiceDesired(env, cr, specs, None, o, stored);
    }
  }

  lemma UpdateBuilt(
      env: Env, cr: FlowCollector, specs: set<Spec>, w: World, who: Cluster.Component, o: Object, stored: Object)
    requires UpdateGuard(env, cr, w, who, o) && GoflowWorkload(KeyOf(o)) && SavedAs(stored, o)
    requires WellFormed(w.objs) && AllBuilt(cr.name, specs, Now(w))
    ensures BuiltFor(cr.name, cr.spec, KeyOf(o), stored)
  {
    hide GoflowObject;
    hide PluginObject;
    hide ServiceOf;
    hide Desired;
    hide Cleared;
    hide Built;
    NamesDiffer();
    var u := Unversioned(o);
    if GoflowObject(env, cr, w, u) {
      GoflowObjectDesired(env, cr, w, u, stored);
    } else if PluginObject(cr, u) {
      PluginObjectKey(cr, u);
    } else if ServiceOf(env, cr, Some(w.objs[KeyOf(o)]), o) {
      ServiceDesired(env, cr, specs, Some(w.objs[KeyOf(o)]), o, stored);
    }
  }

  lemma BuiltStep(env: Env, cr: FlowCollector, specs: set<Spec>, w: World, who: Cluster.Component, call: Call)
    requires cr.spec in specs && AllBuilt(cr.name, specs, Now(w)) && WellFormed(w.objs) && Guard(env, cr, w, who, call)
    ensures AllBuilt(cr.name, specs, Now(Issue(env, who, w, call).w))
  {
    hide Built;
    hide GoflowWorkload;
    var objs := Issue(env, who, w, call).w.objs;
    match call {
      case Create(o) =>
        CreateEffect(env, w, who, o);
        if objs != w.objs && GoflowWorkload(KeyOf(o)) {
          CreateBuilt(env, cr, specs, w, who, o, objs[KeyOf(o)]);
          BuiltIntro(cr, specs, KeyOf(o), objs[KeyOf(o)]);
        }
      case Update(o) =>
        UpdateEffect(env, w, who, o);
        if objs != w.objs && GoflowWorkload(KeyOf(o)) {
          UpdateBuilt(env, cr, specs, w, who, o, objs[KeyOf(o)]);
          BuiltIntro(cr, specs, KeyOf(o), objs[KeyOf(o)]);
        }
      case Delete(k) =>
        DeleteEffect(env, w, who, k);
      case UpdateStatus(n) =>
        StatusEffect(env, w, who, n);
      case _ =>
        ReadEffect(env, w, who, call);
    }
    hide Issue;
    hide Guard;
  }

  lemma BuiltIntro(cr: FlowCollector, specs: set<Spec>, k: Key, o: Object)
    requires cr.spec in specs && BuiltFor(cr.name, cr.spec, k, o)
    ensures Built(cr.name, specs, k, o)
  {
  }

  // ---- Up to date and built by the operator means desired ----

  /** The host port a DaemonSet was built with. */
  predicate HostPortIs(o: Object, port: int32) {
    && o.body.DaemonSet? && o.body.template.containers != []
    && var ports := o.body.template.containers[0].ports;
    ports != [] && ports[0].hostPort == port
  }

  lemma BuiltHostPort(cr: FlowCollector, gf: GoflowKube, ns: string, digest: string, o: Object, port: int32)
    requires gf.kind == DAEMON_SET_KIND && Same(o, Own(cr, GO.BuildDaemonSet(gf, ns, digest)))
    ensures HostPortIs(o, port) <==> gf.port == port
  {
  }

  /** The DaemonSet in place listens on another port than the wanted one, and the comparison does not see it. */
  predicate PortMissed(cr: FlowCollector, objs: Objects) {
    var ns, gf, k := C.NamespaceOf(cr.spec), cr.spec.goflowKube, GO.DaemonSetKey(C.NamespaceOf(cr.spec));
    && gf.kind == DAEMON_SET_KIND && k in objs
    && !G.DaemonSetNeedsUpdate(objs[k], gf, ns, GO.ConfigDigest(gf, cr.spec.loki))
    && !HostPortIs(objs[k], gf.port)
  }

  lemma DeploymentDesired(cr: FlowCollector, earlier: Spec, k: Key, o: Object)
    requires k == GO.DeploymentKey(C.NamespaceOf(cr.spec)) && cr.spec.goflowKube.kind == DEPLOYMENT_KIND
    requires BuiltFor(cr.name, earlier, k, o)
    requires !G.DeploymentNeedsUpdate(o, cr.spec.goflowKube, k.namespace,
        GO.ConfigDigest(cr.spec.goflowKube, cr.spec.loki))
    ensures Agrees(cr, Some(o), Desired(cr.spec, k))
  {
    hide GO.ConfigDigest;
    hide GO.BuildDeployment;
    hide GO.BuildDaemonSet;
    hide GO.BuildConfigMap;
    hide GO.BuildAutoscaler;
    hide Same;
    hide GO.BuildService;
    hide G.DeploymentNeedsUpdate;
    hide G.DaemonSetNeedsUpdate;
    var ns := C.NamespaceOf(cr.spec);
    DeploymentExact(o, Collector(cr.name, earlier), earlier.goflowKube, earlier.loki, ns, cr.spec.goflowKube,
      cr.spec.loki, ns);
  }

  /** An up-to-date DaemonSet is the desired one iff its host port is. */
  lemma DaemonSetDesired(cr: FlowCollector, earlier: Spec, k: Key, o: Object)
    requires k == GO.DaemonSetKey(C.NamespaceOf(cr.spec)) && cr.spec.goflowKube.kind == DAEMON_SET_KIND
    requires BuiltFor(cr.name, earlier, k, o)
    requires !G.DaemonSetNeedsUpdate(o, cr.spec.goflowKube, k.namespace,
        GO.ConfigDigest(cr.spec.goflowKube, cr.spec.loki))
    ensures Agrees(cr, Some(o), Desired(cr.spec, k)) <==> HostPortIs(o, cr.spec.goflowKube.port)
  {
    hide GO.ConfigDigest;
    hide GO.BuildDeployment;
    hide GO.BuildDaemonSet;
    hide GO.BuildConfigMap;
    hide GO.BuildAutoscaler;
    hide Same;
    hide GO.BuildService;
    hide HostPortIs;
    hide G.DaemonSetNeedsUpdate;
    var ns, gf, digest := C.NamespaceOf(cr.spec), earlier.goflowKube, GO.ConfigDigest(earlier.goflowKube, earlier.loki);
    BuiltHostPort(Collector(cr.name, earlier), gf, ns, digest, o, cr.spec.goflowKube.port);
    DaemonSetCompared(o, Collector(cr.name, earlier), gf, earlier.loki, ns, cr.spec.goflowKube, cr.spec.loki, ns);
  }

  lemma ServiceIsDesired(cr: FlowCollector, earlier: Spec, k: Key, o: Object)
    requires k == GO.ServiceKey(C.NamespaceOf(cr.spec)) && cr.spec.goflowKube.kind == DEPLOYMENT_KIND
    requires BuiltFor(cr.name, earlier, k, o)
    requires !G.ServiceNeedsUpdate(o, cr.spec.goflowKube, k.namespace)
    ensures Agrees(cr, Some(o), Desired(cr.spec, k))
  {
    hide GO.ConfigDigest;
    hide GO.BuildDeployment;
    hide GO.BuildDaemonSet;
    hide GO.BuildConfigMap;
    hide GO.BuildAutoscaler;
    hide Same;
    hide G.ServiceNeedsUpdate;
    hide GO.BuildService;
    var ns := C.NamespaceOf(cr.spec);
    ServiceExact(o, Collector(cr.name, earlier), earlier.goflowKube, ns, cr.spec.goflowKube, ns);
  }

  lemma AutoscalerDesired(cr: FlowCollector, earlier: Spec, k: Key, o: Object)
    requires k == GO.AutoscalerKey(C.NamespaceOf(cr.spec))
    requires cr.spec.goflowKube.kind == DEPLOYMENT_KIND && cr.spec.goflowKube.hpa.Some?
    requires BuiltFor(cr.name, earlier, k, o)
    requires !G.AutoscalerNeedsUpdate(o, cr.spec.goflowKube.hpa.value, k.namespace)
    ensures Agrees(cr, Some(o), Desired(cr.spec, k))
  {
    hide GO.ConfigDigest;
    hide GO.BuildPodTemplate;
  }

  lemma KeyDesired(cr: FlowCollector, specs: set<Spec>, objs: Objects, k: Key)
    requires AllBuilt(cr.name, specs, Snapshot(objs, Some(cr), []))
    requires UpToDate(cr, objs, C.NamespaceOf(cr.spec))
    requires GoflowWorkload(k) && k.namespace == C.NamespaceOf(cr.spec)
    ensures k.kind != DaemonSets || k !in objs || HostPortIs(objs[k], cr.spec.goflowKube.port)
       <==> Agrees(cr, Lookup(objs, k), Desired(cr.spec, k))
  {
    hide GO.ConfigDigest;
    hide GO.BuildDeployment;
    hide GO.BuildDaemonSet;
    hide GO.BuildConfigMap;
    hide GO.BuildAutoscaler;
    hide GO.BuildService;
    hide G.DeploymentNeedsUpdate;
    hide G.DaemonSetNeedsUpdate;
    hide G.ServiceNeedsUpdate;
    hide G.AutoscalerNeedsUpdate;
    hide BuiltFor;
    hide HostPortIs;
    hide Same;
    if k in objs {
      var o := objs[k];
      var spec :| spec in specs && BuiltFor(cr.name, spec, k, o);
      if k.kind == Deployments {
        DeploymentDesired(cr, spec, k, o);
      } else if k.kind == DaemonSets {
        DaemonSetDesired(cr, spec, k, o);
      } else if k.kind == Services {
        ServiceIsDesired(cr, spec, k, o);
      } else if k.kind == Autoscalers {
        AutoscalerDesired(cr, spec, k, o);
      }
    }
  }

  lemma ElsewhereNothing(env: Env, cr: FlowCollector, s: Snapshot, k: Key)
    requires ReliableDeletes(env) && Contained(env, s) && s.cr.Some? && s.cr.value.deployedIn == C.NamespaceOf(cr.spec)
    requires GoflowWorkload(k) && k.namespace != C.NamespaceOf(cr.spec)
    ensures Agrees(cr, Lookup(s.objs, k), Desired(cr.spec, k))
  {
    hide GO.ConfigDigest;
    hide GO.BuildDeployment;
    hide GO.BuildDaemonSet;
    hide GO.BuildConfigMap;
    hide GO.BuildAutoscaler;
    assert Foreign(s, k);
  }

  ghost predicate InRun(env: Env, name: string, specs: set<Spec>, s: Snapshot) {
    Contained(env, s) && AllBuilt(name, specs, s)
  }

  lemma InRunClosed(env: Env, cr: FlowCollector, name: string, specs: set<Spec>)
    requires cr.spec in specs && cr.name == name
    ensures StepClosed(env, cr, (s: Snapshot) => InRun(env, name, specs, s))
  {
    hide Guard;
    hide Contained;
    hide AllBuilt;
    hide WellFormed;
    var J := (s: Snapshot) => InRun(env, name, specs, s);
    forall x, who, call | J(Now(x)) && !x.crashed && WellFormed(x.objs) && Guard(env, cr, x, who, call)
      ensures J(Now(Issue(env, who, x, call).w))
    {
      ContainedStep(env, cr, x, who, call);
      BuiltStep(env, cr, specs, x, who, call);
    }
    hide Issue;
  }

  lemma InRunEdit(env: Env, name: string, specs: set<Spec>, w: World, spec: Spec)
    requires InRun(env, name, specs, Now(w))
    ensures InRun(env, name, specs, Now(EditSpec(w, spec)))
  {
    hide Built;
  }

  lemma FreshInRun(env: Env, w: World, specs: set<Spec>)
    requires Fresh(w) && !w.cr.value.deleting
    ensures InRun(env, w.cr.value.name, specs, Now(w))
  {
    hide Built;
    NamesDiffer();
  }

  /** At every call boundary of every run, the collector's objects were built from specifications of the run. */
  lemma RunBuilt(env: Env, w: World, actions: seq<Action>)
    requires Fresh(w) && !w.cr.value.deleting
    ensures var w' := Run(env, w, actions); var name, specs := w.cr.value.name, SpecsOf(w, actions);
            && Always((s: Snapshot) => InRun(env, name, specs, s), w')
            && WellFormed(w'.objs) && w'.cr.Some? && w'.cr.value.name == name && w'.cr.value.spec in specs
  {
    var name, specs := w.cr.value.name, SpecsOf(w, actions);
    var J := (s: Snapshot) => InRun(env, name, specs, s);
    FreshInRun(env, w, specs);
    hide Fresh;
    hide AllBuilt;
    hide Contained;
    hide StepClosed;
    forall cr: FlowCollector | cr.spec in specs && cr.name == name ensures StepClosed(env, cr, J) {
      InRunClosed(env, cr, name, specs);
    }
    forall x, spec | J(Now(x)) ensures J(Now(EditSpec(x, spec))) {
      InRunEdit(env, name, specs, x, spec);
    }
    hide InRun;
    RunAlways(env, specs, name, J, w, actions);
  }

  // ---- The pass after a run ----

  /** The pass that follows a run. */
  function NextPass(env: Env, w: World, actions: seq<Action>): Step {
    C.Reconcile(env, Run(env, w, actions).(crashed := false))
  }

  /** The pass succeeded, and the operator was alive at its end. */
  predicate Succeeded(s: Step) {
    s.st.Ok? && !s.w.crashed
  }

  lemma UpToDateIsSettled(env: Env, cr: FlowCollector, specs: set<Spec>, s: Snapshot)
    requires ReliableDeletes(env) && s.cr == Some(cr.(deployedIn := C.NamespaceOf(cr.spec)))
    requires InRun(env, cr.name, specs, s) && UpToDate(cr, s.objs, C.NamespaceOf(cr.spec))
    ensures Settled(cr, s.objs) <==>
              var k := GO.DaemonSetKey(C.NamespaceOf(cr.spec));
              k in s.objs ==> HostPortIs(s.objs[k], cr.spec.goflowKube.port)
  {
    hide UpToDate;
    hide Contained;
    hide Built;
    hide Agrees;
    hide Desired;
    hide HostPortIs;
    hide ReliableDeletes;
    var k0 := GO.DaemonSetKey(C.NamespaceOf(cr.spec));
    assert GoflowWorkload(k0);
    KeyDesired(cr, specs, s.objs, k0);
    forall k | GoflowWorkload(k) && k != k0 ensures Agrees(cr, Lookup(s.objs, k), Desired(cr.spec, k)) {
      if k.namespace == C.NamespaceOf(cr.spec) {
        KeyDesired(cr, specs, s.objs, k);
      } else {
        ElsewhereNothing(env, cr, s, k);
      }
    }
  }

  // ---- What happens to a DaemonSet in a pass ----

  /** Each DaemonSet of the collector is as it was, or gone, or the one that is wanted now. */
  ghost predicate Traced(cr: FlowCollector, before: Objects, objs: Objects) {
    forall n :: var k := GO.DaemonSetKey(n);
      Lookup(objs, k) == Lookup(before, k) || k !in objs || BuiltFor(cr.name, cr.spec, k, objs[k])
  }

  lemma TracedStep(
      env: Env, cr: FlowCollector, specs: set<Spec>, before: Objects, w: World, who: Cluster.Component, call: Call)
    requires AllBuilt(cr.name, specs, Now(w)) && Traced(cr, before, w.objs) && WellFormed(w.objs)
    requires Guard(env, cr, w, who, call)
    ensures Traced(cr, before, Issue(env, who, w, call).w.objs)
  {
    hide BuiltFor;
    hide AllBuilt;
    NamesDiffer();
    var objs := Issue(env, who, w, call).w.objs;
    match call {
      case Create(o) =>
        CreateEffect(env, w, who, o);
        if objs != w.objs && GoflowWorkload(KeyOf(o)) {
          CreateBuilt(env, cr, specs, w, who, o, objs[KeyOf(o)]);
        }
      case Update(o) =>
        UpdateEffect(env, w, who, o);
        if objs != w.objs && GoflowWorkload(KeyOf(o)) {
          UpdateBuilt(env, cr, specs, w, who, o, objs[KeyOf(o)]);
        }
      case Delete(k) =>
        DeleteEffect(env, w, who, k);
      case UpdateStatus(n) =>
        StatusEffect(env, w, who, n);
      case _ =>
        ReadEffect(env, w, who, call);
    }
    hide Issue;
    hide Guard;
    forall n ensures var k := GO.DaemonSetKey(n);
                     Lookup(objs, k) == Lookup(before, k) || k !in objs || BuiltFor(cr.name, cr.spec, k, objs[k]) {
      assert GoflowWorkload(GO.DaemonSetKey(n));
    }
  }

  lemma TracedSelf(cr: FlowCollector, objs: Objects)
    ensures Traced(cr, objs, objs)
  {
  }

  /** What a pass keeps of a run, together with what it does to the DaemonSets. */
  lemma PassTraced(env: Env, specs: set<Spec>, w: World)
    requires w.cr.Some? && WellFormed(w.objs) && w.cr.value.spec in specs
    requires InRun(env, w.cr.value.name, specs, Now(w))
    ensures var cr, w' := w.cr.value, C.Reconcile(env, w.(crashed := false)).w;
            InRun(env, cr.name, specs, Now(w')) && Traced(cr, w.objs, w'.objs) && WellFormed(w'.objs)
  {
    hide Guard;
    hide WellFormed;
    hide Traced;
    hide Contained;
    hide AllBuilt;
    hide C.Reconcile;
    var cr, before := w.cr.value, w.objs;
    var I := (x: World) => InRun(env, cr.name, specs, Now(x)) && Traced(cr, before, x.objs);
    forall x, who, call | I(x) && !x.crashed && WellFormed(x.objs) && Guard(env, cr, x, who, call)
      ensures I(Issue(env, who, x, call).w)
    {
      ContainedStep(env, cr, x, who, call);
      BuiltStep(env, cr, specs, x, who, call);
      TracedStep(env, cr, specs, before, x, who, call);
    }
    hide Issue;
    TracedSelf(cr, before);
    assert Now(w.(crashed := false)) == Now(w);
    PassKeeps(env, cr, I, w.(crashed := false));
  }

  /** A DaemonSet that is found up to date is left alone, whatever fails. */
  lemma DaemonSetUntouched(env: Env, cr: FlowCollector, w: World, ns: string)
    requires WellFormed(w.objs) && cr.spec.goflowKube.kind == DAEMON_SET_KIND
    requires var k := GO.DaemonSetKey(ns);
             k in w.objs && !G.DaemonSetNeedsUpdate(w.objs[k], cr.spec.goflowKube, ns,
                                                    GO.ConfigDigest(cr.spec.goflowKube, cr.spec.loki))
    ensures var k := GO.DaemonSetKey(ns);
            Lookup(C.ReconcileComponents(env, w, cr, ns).w.objs, k) == Lookup(w.objs, k)
  {
    hide WellFormed;
    hide G.Reconcile;
    hide F.Reconcile;
    hide P.Reconcile;
    hide GO.ConfigDigest;
    hide G.DaemonSetNeedsUpdate;
    hide PluginUpToDate;
    hide Present;
    hide UpToDate;
    NamesDiffer();
    CollectorUntouched(env, cr, w, ns);
    GoflowSettles(env, cr, w, ns);
    var s := G.Reconcile(env, w, cr.name, cr.spec.goflowKube, cr.spec.loki, ns);
    OvsEffect(env, s.w, cr.name, cr.spec, ns);
    PluginSettles(env, cr, F.Reconcile(env, s.w, cr.name, cr.spec, ns).w, ns);
  }

  lemma CollectorUntouched(env: Env, cr: FlowCollector, w: World, ns: string)
    requires WellFormed(w.objs) && cr.spec.goflowKube.kind == DAEMON_SET_KIND
    requires var k := GO.DaemonSetKey(ns);
             k in w.objs && !G.DaemonSetNeedsUpdate(w.objs[k], cr.spec.goflowKube, ns,
                                                    GO.ConfigDigest(cr.spec.goflowKube, cr.spec.loki))
    ensures var k := GO.DaemonSetKey(ns);
            var s := G.Reconcile(env, w, cr.name, cr.spec.goflowKube, cr.spec.loki, ns);
            Lookup(s.w.objs, k) == Lookup(w.objs, k)
  {
    hide WellFormed;
    hide FetchAll;
    hide TryDelete;
    hide GO.ConfigDigest;
    hide GO.BuildConfigMap;
    hide GO.BuildDaemonSet;
    hide G.ReconcileConfigMap;
    hide G.DaemonSetNeedsUpdate;
    hide ReliableDeletes;
    var gf, loki, digest := cr.spec.goflowKube, cr.spec.loki, GO.ConfigDigest(cr.spec.goflowKube, cr.spec.loki);
    FetchAllEffect(env, w, GO.ManagedKeys(ns));
    var f := FetchAll(env, w, GO.ManagedKeys(ns));
    if f.st.Ok? {
      var owned := G.OwnedFrom(f.found);
      ConfigMapSettles(env, cr, f.w, owned, ns);
      var s := G.ReconcileConfigMap(env, f.w, cr.name, owned, gf, loki, ns);
      TryDeleteEffect(env, s.w, owned.deployment, GO.DeploymentKey(ns));
      var w1 := TryDelete(env, s.w, owned.deployment);
      TryDeleteEffect(env, w1, owned.service, GO.ServiceKey(ns));
      var w2 := TryDelete(env, w1, owned.service);
      TryDeleteEffect(env, w2, owned.autoscaler, GO.AutoscalerKey(ns));
      assert owned.daemonSet == Some(w.objs[GO.DaemonSetKey(ns)]);
    }
  }

  // ---- Convergence ----

  /** A pass in the committed namespace leaves a DaemonSet it finds up to date alone. */
  lemma MissedStays(env: Env, w: World)
    requires w.cr.Some? && !w.cr.value.deleting && WellFormed(w.objs) && PortMissed(w.cr.value, w.objs)
    requires w.cr.value.deployedIn == C.NamespaceOf(w.cr.value.spec)
    ensures var k := GO.DaemonSetKey(w.cr.value.deployedIn);
            Lookup(C.Reconcile(env, w).w.objs, k) == Lookup(w.objs, k)
  {
    hide WellFormed;
    hide C.ReconcileComponents;
    hide HostPortIs;
    hide GO.ConfigDigest;
    hide G.DaemonSetNeedsUpdate;
    var cr := w.cr.value;
    var ns := cr.deployedIn;
    IssueObjects(env, w, Main, GetCollector);
    CollectorReply(env, w);
    var a := Issue(env, Main, w, GetCollector);
    var w1 := Issue(env, Main, a.w, Get(C.NamespaceKey(ns))).w;
    IssueObjects(env, a.w, Main, Get(C.NamespaceKey(ns)));
    FrameOfWrite(env, w1, Main, C.BuildNamespace(ns));
    hide Issue;
    var s1 := C.EnsureNamespace(env, a.w, ns);
    assert Lookup(s1.w.objs, GO.DaemonSetKey(ns)) == Lookup(w.objs, GO.DaemonSetKey(ns));
    DaemonSetUntouched(env, cr, s1.w, ns);
  }

  /** The DaemonSet a pass ends with has the wanted port iff the port was not missed before it. */
  lemma PortAfter(env: Env, specs: set<Spec>, w: World)
    requires w.cr.Some? && !w.cr.value.deleting && WellFormed(w.objs) && w.cr.value.spec in specs
    requires ReliableDeletes(env) && InRun(env, w.cr.value.name, specs, Now(w))
    requires UpToDate(w.cr.value, C.Reconcile(env, w.(crashed := false)).w.objs, C.NamespaceOf(w.cr.value.spec))
    ensures var cr, objs := w.cr.value, C.Reconcile(env, w.(crashed := false)).w.objs;
            var k := GO.DaemonSetKey(C.NamespaceOf(cr.spec));
            (k in objs ==> HostPortIs(objs[k], cr.spec.goflowKube.port)) <==> !PortMissed(cr, w.objs)
  {
    hide C.Reconcile;
    hide WellFormed;
    hide ReliableDeletes;
    hide Contained;
    hide AllBuilt;
    hide BuiltFor;
    hide HostPortIs;
    hide G.DaemonSetNeedsUpdate;
    hide GO.ConfigDigest;
    hide GO.BuildConfigMap;
    hide DeploymentPresent;
    var cr, w0 := w.cr.value, w.(crashed := false);
    var ns, objs := C.NamespaceOf(cr.spec), C.Reconcile(env, w0).w.objs;
    var k := GO.DaemonSetKey(ns);
    PassTraced(env, specs, w);
    if PortMissed(cr, w.objs) {
      if cr.deployedIn != ns {
        NotForeign(env, w, k);
      }
      MissedStays(env, w0);
      assert Lookup(objs, k) == Lookup(w.objs, k);
    } else if k in objs {
      if Lookup(objs, k) == Lookup(w.objs, k) {
        assert objs[k] == w.objs[k];
      } else {
        BuiltNow(cr, k, objs[k]);
      }
    }
  }

  lemma NotForeign(env: Env, w: World, k: Key)
    requires ReliableDeletes(env) && w.cr.Some? && Contained(env, Now(w)) && Workload(k)
    requires k.namespace != w.cr.value.deployedIn
    ensures k !in w.objs
  {
    assert Foreign(Now(w), k);
  }

  lemma BuiltNow(cr: FlowCollector, k: Key, o: Object)
    requires BuiltFor(cr.name, cr.spec, k, o) && k.kind == DaemonSets
    ensures HostPortIs(o, cr.spec.goflowKube.port)
  {
    hide GO.ConfigDigest;
    hide GO.BuildConfigMap;
    hide GO.BuildDeployment;
    hide GO.BuildAutoscaler;
    var gf := cr.spec.goflowKube;
    BuiltHostPort(Collector(cr.name, cr.spec), gf, C.NamespaceOf(cr.spec), GO.ConfigDigest(gf, cr.spec.loki), o,
      gf.port);
  }

  /** After any run with reliable deletes, whatever was edited, failed or was interrupted: a pass that succeeds leaves
      exactly the collector objects that the specification asks for, in all namespaces, iff the comparison did not miss
      the port of the DaemonSet in place. */
  lemma Converges(env: Env, w: World, actions: seq<Action>)
    requires Fresh(w) && !w.cr.value.deleting && ReliableDeletes(env)
    ensures var w1, s := Run(env, w, actions), NextPass(env, w, actions);
            && w1.cr.Some? && w1.cr.value.name == w.cr.value.name
            && (Succeeded(s) ==> (Settled(w1.cr.value, s.w.objs) <==> !PortMissed(w1.cr.value, w1.objs)))
  {
    hide ReliableDeletes;
    hide Settled;
    hide UpToDate;
    hide PortMissed;
    hide HostPortIs;
    hide WellFormed;
    hide C.Reconcile;
    RunBuilt(env, w, actions);
    var w1 := Run(env, w, actions);
    hide Run;
    hide Fresh;
    var cr, specs := w1.cr.value, SpecsOf(w, actions);
    var J := (s: Snapshot) => InRun(env, cr.name, specs, s);
    assert J(Now(w1));
    PassTraced(env, specs, w1);
    var s := NextPass(env, w, actions);
    PassSettles(env, w1.(crashed := false));
    if Succeeded(s) {
      UpToDateIsSettled(env, cr, specs, Now(s.w));
      PortAfter(env, specs, w1);
    }
  }

  /** Two DaemonSet specifications that differ in the port and share all that the comparison looks at, the digest
      included. */
  predicate PortCollision(s: Spec, t: Spec) {
    && s.goflowKube.kind == t.goflowKube.kind == DAEMON_SET_KIND && C.NamespaceOf(s) == C.NamespaceOf(t)
    && LooksSame(s.goflowKube, GO.ConfigDigest(s.goflowKube, s.loki), t.goflowKube,
       GO.ConfigDigest(t.goflowKube, t.loki))
    && s.goflowKube.port != t.goflowKube.port
  }

  lemma MissedCollides(cr: FlowCollector, earlier: Spec, objs: Objects)
    requires var k := GO.DaemonSetKey(C.NamespaceOf(cr.spec)); k in objs && BuiltFor(cr.name, earlier, k, objs[k])
    ensures PortMissed(cr, objs) ==> PortCollision(earlier, cr.spec)
  {
    hide GO.ConfigDigest;
    hide GO.BuildDeployment;
    hide GO.BuildDaemonSet;
    hide GO.BuildConfigMap;
    hide GO.BuildAutoscaler;
    hide HostPortIs;
    hide LooksSame;
    hide Same;
    hide G.DaemonSetNeedsUpdate;
    if PortMissed(cr, objs) {
      var ns, gf, o := C.NamespaceOf(cr.spec), earlier.goflowKube, objs[GO.DaemonSetKey(C.NamespaceOf(cr.spec))];
      var digest := GO.ConfigDigest(gf, earlier.loki);
      BuiltHostPort(Collector(cr.name, earlier), gf, ns, digest, o, cr.spec.goflowKube.port);
      DaemonSetCompared(o, Collector(cr.name, earlier), gf, earlier.loki, ns, cr.spec.goflowKube, cr.spec.loki, ns);
      DaemonSetMissed(o, Collector(cr.name, earlier), gf, earlier.loki, ns, cr.spec.goflowKube, cr.spec.loki, ns);
    }
  }

  /** In a run, a port is only missed when the last specification collides with an earlier one. */
  lemma MissedOnlyByCollision(env: Env, w: World, actions: seq<Action>)
    requires Fresh(w) && !w.cr.value.deleting
    ensures var w1 := Run(env, w, actions);
            && w1.cr.Some?
            && (PortMissed(w1.cr.value, w1.objs)
                ==> exists earlier :: earlier in SpecsOf(w, actions) && PortCollision(earlier, w1.cr.value.spec))
  {
    hide PortCollision;
    hide Contained;
    hide WellFormed;
    hide BuiltFor;
    hide G.DaemonSetNeedsUpdate;
    hide HostPortIs;
    hide GO.ConfigDigest;
    RunBuilt(env, w, actions);
    var w1 := Run(env, w, actions);
    hide Run;
    hide Fresh;
    var cr, specs := w1.cr.value, SpecsOf(w, actions);
    var J := (s: Snapshot) => InRun(env, w.cr.value.name, specs, s);
    assert J(Now(w1));
    var k := GO.DaemonSetKey(C.NamespaceOf(cr.spec));
    if PortMissed(cr, w1.objs) {
      assert GoflowWorkload(k);
      var earlier :| earlier in specs && BuiltFor(cr.name, earlier, k, w1.objs[k]);
      MissedCollides(cr, earlier, w1.objs);
    }
  }

  lemma SettledAlike(cr: FlowCollector, cr': FlowCollector, objs: Objects, objs': Objects, k: Key)
    requires Settled(cr, objs) && Settled(cr', objs') && cr.name == cr'.name && cr.spec == cr'.spec && GoflowWorkload(k)
    ensures (k in objs <==> k in objs') && (k in objs ==> Same(objs[k], objs'[k]))
  {
    hide Desired;
    hide GoflowWorkload;
    assert Agrees(cr, Lookup(objs, k), Desired(cr.spec, k));
    assert Agrees(cr', Lookup(objs', k), Desired(cr'.spec, k));
  }

  /** History independence: two runs that end with the same specification and a pass that succeeds hold the same
      collector objects, up to the fields the server assigns, unless one of them missed a port. */
  lemma HistoryIndependent(
    env: Env, w: World, actions: seq<Action>, env': Env, w': World, actions': seq<Action>, k: Key)
    requires Fresh(w) && !w.cr.value.deleting && ReliableDeletes(env)
    requires Fresh(w') && !w'.cr.value.deleting && ReliableDeletes(env')
    requires w.cr.value.name == w'.cr.value.name && GoflowWorkload(k)
    ensures var w1, w1' := Run(env, w, actions), Run(env', w', actions');
            var objs, objs' := NextPass(env, w, actions).w.objs, NextPass(env', w', actions').w.objs;
            && w1.cr.Some? && w1'.cr.Some?
            && (Succeeded(NextPass(env, w, actions)) && Succeeded(NextPass(env', w', actions'))
                && w1.cr.value.spec == w1'.cr.value.spec
                && !PortMissed(w1.cr.value, w1.objs) && !PortMissed(w1'.cr.value, w1'.objs)
                ==> (k in objs <==> k in objs') && (k in objs ==> Same(objs[k], objs'[k])))
  {
    hide Settled;
    hide PortMissed;
    hide ReliableDeletes;
    hide Run;
    hide NextPass;
    hide Fresh;
    Converges(env, w, actions);
    Converges(env', w', actions');
    var w1, w1' := Run(env, w, actions), Run(env', w', actions');
    var s, s' := NextPass(env, w, actions), NextPass(env', w', actions');
    if Settled(w1.cr.value, s.w.objs) && Settled(w1'.cr.value, s'.w.objs) && w1.cr.value.spec == w1'.cr.value.spec {
      SettledAlike(w1.cr.value, w1'.cr.value, s.w.objs, s'.w.objs, k);
    }
  }

  /** Which objects a settled collector has: after a DaemonSet pass no Service and no autoscaler, after a Deployment
      pass an autoscaler exactly when the specification has one. */
  lemma SettledKinds(cr: FlowCollector, objs: Objects)
    requires Settled(cr, objs)
    ensures var ns, gf := C.NamespaceOf(cr.spec), cr.spec.goflowKube;
            && (gf.kind == DAEMON_SET_KIND ==> forall n ::
                  GO.ServiceKey(n) !in objs && GO.AutoscalerKey(n) !in objs && GO.DeploymentKey(n) !in objs)
            && (gf.kind == DEPLOYMENT_KIND ==>
                  GO.DeploymentKey(ns) in objs && (GO.AutoscalerKey(ns) in objs <==> gf.hpa.Some?)
                  && forall n :: GO.DaemonSetKey(n) !in objs)
  {
    hide Same;
    hide GO.ConfigDigest;
    hide GO.BuildDeployment;
    hide GO.BuildDaemonSet;
    hide GO.BuildConfigMap;
    hide GO.BuildAutoscaler;
    NamesDiffer();
    forall k | GoflowWorkload(k) ensures k in objs <==> Desired(cr.spec, k).Some? {
      assert Agrees(cr, Lookup(objs, k), Desired(cr.spec, k));
    }
    forall n ensures GoflowWorkload(GO.ServiceKey(n)) && GoflowWorkload(GO.AutoscalerKey(n))
                     && GoflowWorkload(GO.DeploymentKey(n)) && GoflowWorkload(GO.DaemonSetKey(n)) {
    }
  }

}
