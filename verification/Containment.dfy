/** Containment: a migration leaves nothing behind, and there is only one kind of collector. */
module Containment {

  import opened Cluster
  import opened ClientHelper
  import opened FlowCollectorTypes
  import opened PassInduction
  import opened Runs
  import opened Safety
  import opened Wrappers
  import C = FlowCollectorController
  import F = FlowsConfig
  import GO = GoflowObjects
  import GoflowConfig
  import P = PluginReconciler

  // ---- The starting point ----

  /** The operator's names are not in use, and nothing has been installed. */
  ghost predicate Fresh(w: World) {
    && w.cr.Some? && w.cr.value.deployedIn == "" && w.trace == [] && WellFormed(w.objs)
    && forall k :: k in w.objs && k.kind != Namespaces ==> k.name !in {GOFLOW_KUBE, GO.CONFIG_MAP, P.PLUGIN}
  }

  ghost function SpecsOf(w: World, actions: seq<Action>): (specs: set<Spec>)
    requires w.cr.Some?
    ensures w.cr.value.spec in specs && EditsIn(actions, specs)
  {
    {w.cr.value.spec} + set a | a in actions && a.Edit? :: a.spec
  }

  // ---- Containment: no workload outside the committed namespace ----

  /** Deployments, DaemonSets, Services, autoscalers and the configuration of the components. */
  predicate Workload(k: Key) {
    || (k.name == GOFLOW_KUBE && k.kind in {Deployments, DaemonSets, Services, Autoscalers})
    || (k.name == GO.CONFIG_MAP && k.kind == ConfigMaps)
    || (k.name == P.PLUGIN && k.kind in {Deployments, Services})
  }

  predicate OfPlugin(k: Key) {
    k.name == P.PLUGIN && k.kind in {Deployments, Services}
  }

  ghost predicate Foreign(s: Snapshot, k: Key) {
    k.namespace == "" || s.cr.None? || k.namespace != s.cr.value.deployedIn
  }

  ghost predicate Contained(env: Env, s: Snapshot) {
    && s.cr.Some?
    && (forall k :: Workload(k) && Foreign(s, k) ==> ClearedIn(env, s.objs, s.trace, k))
    && (!env.consoleEnabled ==> forall k :: OfPlugin(k) ==> k !in s.objs)
  }

  // ---- Which keys a guarded write can have ----

  predicate GoflowKey(cr: FlowCollector, k: Key) {
    var ns, kind := C.NamespaceOf(cr.spec), cr.spec.goflowKube.kind;
    || k == GO.ConfigMapKey(ns)
    || (kind == DEPLOYMENT_KIND && k in {GO.DeploymentKey(ns), GO.ServiceKey(ns), GO.AutoscalerKey(ns)})
    || (kind == DAEMON_SET_KIND && k == GO.DaemonSetKey(ns))
  }

  predicate PluginKey(cr: FlowCollector, k: Key) {
    var ns := C.NamespaceOf(cr.spec);
    k in {P.PLUGIN_KEY, P.DeploymentKey(ns), P.ServiceKey(ns)}
  }

  predicate StaticKey(cr: FlowCollector, k: Key) {
    var ns := C.NamespaceOf(cr.spec);
    k in {GO.CLUSTER_ROLE_KEY, GO.BINDING_KEY, GO.ServiceAccountKey(ns), P.ServiceAccountKey(ns)}
  }

  lemma BuilderKeys(cr: FlowCollector, gf: GoflowKube, loki: Loki, ns: string, digest: string)
    ensures KeyOf(Own(cr, GO.BuildConfigMap(gf, loki, ns))) == GO.ConfigMapKey(ns)
    ensures KeyOf(Own(cr, GO.BuildDeployment(gf, ns, digest))) == GO.DeploymentKey(ns)
    ensures KeyOf(Own(cr, GO.BuildDaemonSet(gf, ns, digest))) == GO.DaemonSetKey(ns)
    ensures gf.hpa.Some? ==> KeyOf(Own(cr, GO.BuildAutoscaler(gf.hpa.value, ns))) == GO.AutoscalerKey(ns)
  {
    hide GO.BuildPodTemplate;
    hide GoflowConfig.ConfigText;
  }

  lemma GoflowObjectKey(env: Env, cr: FlowCollector, w: World, o: Object)
    requires GoflowObject(env, cr, w, o)
    ensures GoflowKey(cr, KeyOf(o)) && KeyOf(o).kind != Services && o.meta.controller == Some(cr.name)
    ensures KeyOf(o).kind == Deployments ==> Cleared(env, w, GO.DaemonSetKey(C.NamespaceOf(cr.spec)))
    ensures KeyOf(o).kind == DaemonSets ==> Cleared(env, w, GO.DeploymentKey(C.NamespaceOf(cr.spec)))
  {
    hide Cleared;
    hide GO.ConfigDigest;
    hide GO.BuildConfigMap;
    hide GO.BuildDeployment;
    hide GO.BuildDaemonSet;
    hide GO.BuildAutoscaler;
    var gf := cr.spec.goflowKube;
    BuilderKeys(cr, gf, cr.spec.loki, C.NamespaceOf(cr.spec), GO.ConfigDigest(gf, cr.spec.loki));
  }

  lemma PluginObjectKey(cr: FlowCollector, o: Object)
    requires PluginObject(cr, o)
    ensures PluginKey(cr, KeyOf(o)) && KeyOf(o).kind != Services && o.meta.controller == Some(cr.name)
  {
    hide P.BuildPodTemplate;
  }

  lemma ServiceOfKey(env: Env, cr: FlowCollector, previous: Option<Object>, o: Object)
    requires ServiceOf(env, cr, previous, o)
    ensures GoflowKey(cr, KeyOf(o)) || (env.consoleEnabled && PluginKey(cr, KeyOf(o)))
    ensures KeyOf(o).kind == Services && o.meta.controller == Some(cr.name)
  {
  }

  /** A write belongs to the phase: static resources while moving, components once the status names the namespace. */
  ghost predicate Classified(env: Env, cr: FlowCollector, w: World, o: Object) {
    var k := KeyOf(o);
    || k == C.NamespaceKey(C.NamespaceOf(cr.spec))
    || (o.meta.controller == Some(cr.name) && (
      || (Moving(cr, w) && StaticKey(cr, k))
      || (Working(cr, w) && k == F.OvsKey(cr.spec.cnoNamespace))
      || (Working(cr, w) && GoflowKey(cr, k))
      || (Working(cr, w) && env.consoleEnabled && PluginKey(cr, k))))
  }

  lemma CreateClassified(env: Env, cr: FlowCollector, w: World, who: Cluster.Component, o: Object)
    requires CreateGuard(env, cr, w, who, o)
    ensures Classified(env, cr, w, o)
    ensures KeyOf(o) == GO.DeploymentKey(C.NamespaceOf(cr.spec)) ==>
        Cleared(env, w, GO.DaemonSetKey(KeyOf(o).namespace))
    ensures KeyOf(o).kind == DaemonSets ==> Cleared(env, w, GO.DeploymentKey(KeyOf(o).namespace))
  {
    hide GoflowObject;
    hide PluginObject;
    hide ServiceOf;
    hide Cleared;
    NamesDiffer();
    if who == Main && Working(cr, w) && o != BuildNamespace(cr) {
      if GoflowObject(env, cr, w, o) {
        GoflowObjectKey(env, cr, w, o);
      } else if env.consoleEnabled && PluginObject(cr, o) {
        PluginObjectKey(cr, o);
      } else if ServiceOf(env, cr, None, o) {
        ServiceOfKey(env, cr, None, o);
      }
    }
  }

  function BuildNamespace(cr: FlowCollector): Object {
    C.BuildNamespace(C.NamespaceOf(cr.spec))
  }

  lemma UpdateClassified(env: Env, cr: FlowCollector, w: World, who: Cluster.Component, o: Object)
    requires UpdateGuard(env, cr, w, who, o)
    ensures Classified(env, cr, w, o)
  {
    hide GoflowObject;
    hide PluginObject;
    hide ServiceOf;
    hide Cleared;
    if who == Main && Working(cr, w) && KeyOf(o) in w.objs {
      assert KeyOf(Unversioned(o)) == KeyOf(o);
      if GoflowObject(env, cr, w, Unversioned(o)) {
        GoflowObjectKey(env, cr, w, Unversioned(o));
      } else if env.consoleEnabled && PluginObject(cr, Unversioned(o)) {
        PluginObjectKey(cr, Unversioned(o));
      } else if ServiceOf(env, cr, Some(w.objs[KeyOf(o)]), o) {
        ServiceOfKey(env, cr, Some(w.objs[KeyOf(o)]), o);
      }
    }
  }

  // ---- Containment ----

  /** A workload is only written in the committed namespace. */
  lemma WorkloadWrite(env: Env, cr: FlowCollector, w: World, o: Object)
    requires Classified(env, cr, w, o) && Workload(KeyOf(o))
    ensures Working(cr, w) && KeyOf(o).namespace == C.NamespaceOf(cr.spec)
    ensures OfPlugin(KeyOf(o)) ==> env.consoleEnabled
  {
    NamesDiffer();
  }

  /** The keys of a namespace that a migration must clear before it commits. */
  lemma WorkloadManaged(k: Key)
    requires Workload(k)
    ensures OfPlugin(k) ==> k in P.ManagedKeys(k.namespace)
    ensures !OfPlugin(k) ==> k in GO.ManagedKeys(k.namespace)
  {
    var keys := GO.ManagedKeys(k.namespace);
    assert keys[0] == GO.DeploymentKey(k.namespace) && keys[1] == GO.DaemonSetKey(k.namespace);
    assert keys[2] == GO.ServiceKey(k.namespace) && keys[3] == GO.AutoscalerKey(k.namespace);
    assert keys[5] == GO.ConfigMapKey(k.namespace);
    assert P.ManagedKeys(k.namespace)[0] == P.DeploymentKey(k.namespace);
    assert P.ManagedKeys(k.namespace)[1] == P.ServiceKey(k.namespace);
  }

  /** Nothing that is cleared comes back, except by a write to it. */
  lemma StaysCleared(env: Env, w: World, who: Cluster.Component, call: Call, k: Key)
    requires Cleared(env, w, k)
    requires (call.Create? || call.Update?) ==> KeyOf(call.obj) != k
    ensures Cleared(env, Issue(env, who, w, call).w, k)
  {
    if call.Delete? && call.key == k {
      DeleteClears(env, w, who, k);
      CrashKeeps(env, w, who, call);
    } else if call.UpdateStatus? {
      StatusEffect(env, w, who, call.namespace);
      IssueTrace(env, w, who, call);
      hide Issue;
      var w' := Issue(env, who, w, call).w;
      if w'.trace != w.trace {
        AppendDelete(w.trace, w'.trace[|w.trace|], k);
      }
    } else {
      IssueFrame(env, w, who, call);
    }
    hide Issue;
  }

  lemma CrashKeeps(env: Env, w: World, who: Cluster.Component, call: Call)
    ensures var w' := Issue(env, who, w, call).w;
            w'.crashed ==> w'.objs == w.objs && w'.cr == w.cr && w'.trace == w.trace
  {
  }

  /** A call other than a status commit leaves the collector's resource alone. */
  lemma StatusKept(env: Env, w: World, who: Cluster.Component, call: Call)
    requires !call.UpdateStatus?
    ensures Issue(env, who, w, call).w.cr == w.cr
  {
    IssueObjects(env, w, who, call);
    hide Issue;
  }

  lemma ForeignCleared(env: Env, cr: FlowCollector, w: World, who: Cluster.Component, call: Call, k: Key)
    requires Contained(env, Now(w)) && !w.crashed && WellFormed(w.objs) && Guard(env, cr, w, who, call)
    requires Workload(k) && Foreign(Now(Issue(env, who, w, call).w), k)
    ensures Cleared(env, Issue(env, who, w, call).w, k)
  {
    hide Classified;
    hide CreateGuard;
    hide UpdateGuard;
    hide DeleteGuard;
    hide Cleared;
    hide Workload;
    match call {
      case Create(o) =>
        CreateClassified(env, cr, w, who, o);
      case Update(o) =>
        UpdateClassified(env, cr, w, who, o);
      case _ =>
    }
    if call.UpdateStatus? {
      StatusEffect(env, w, who, call.namespace);
      hide Issue;
      if !Foreign(Now(w), k) {
        WorkloadManaged(k);
        if OfPlugin(k) && !env.consoleEnabled {
          AbsentIsCleared(env, w, k);
        }
      }
    } else {
      StatusKept(env, w, who, call);
      hide Issue;
      if (call.Create? || call.Update?) && KeyOf(call.obj) == k {
        WorkloadWrite(env, cr, w, call.obj);
      }
    }
    ClearedNow(env, w, k);
    StaysCleared(env, w, who, call, k);
  }

  lemma AbsentIsCleared(env: Env, w: World, k: Key)
    requires k !in w.objs
    ensures Cleared(env, w, k)
  {
  }

  lemma NoPluginAppears(env: Env, cr: FlowCollector, w: World, who: Cluster.Component, call: Call, k: Key)
    requires !env.consoleEnabled && OfPlugin(k) && k !in w.objs
    requires WellFormed(w.objs) && Guard(env, cr, w, who, call)
    ensures k !in Issue(env, who, w, call).w.objs
  {
    hide Classified;
    hide CreateGuard;
    hide UpdateGuard;
    if call.Create? {
      CreateClassified(env, cr, w, who, call.obj);
      CreateEffect(env, w, who, call.obj);
      hide Issue;
      if KeyOf(call.obj) == k {
        WorkloadWrite(env, cr, w, call.obj);
      }
    } else if call.UpdateStatus? {
      StatusEffect(env, w, who, call.namespace);
    } else {
      NothingAppears(env, w, who, call);
      hide Issue;
    }
  }

  /** Only a Create makes a key appear. */
  lemma NothingAppears(env: Env, w: World, who: Cluster.Component, call: Call)
    requires !call.Create?
    ensures Issue(env, who, w, call).w.objs.Keys <= w.objs.Keys
  {
    AllOrNothing(env, w, who, call);
    hide Issue;
  }

  lemma ContainedStep(env: Env, cr: FlowCollector, w: World, who: Cluster.Component, call: Call)
    requires Contained(env, Now(w)) && !w.crashed && WellFormed(w.objs) && Guard(env, cr, w, who, call)
    ensures Contained(env, Now(Issue(env, who, w, call).w))
  {
    hide Guard;
    hide Cleared;
    hide Workload;
    var w' := Issue(env, who, w, call).w;
    forall k | Workload(k) && Foreign(Now(w'), k) ensures ClearedIn(env, w'.objs, w'.trace, k) {
      ForeignCleared(env, cr, w, who, call, k);
      assert Cleared(env, w', k) == ClearedIn(env, w'.objs, w'.trace, k) by { ClearedNow(env, w', k); }
    }
    if !env.consoleEnabled {
      forall k | OfPlugin(k) ensures k !in w'.objs {
        NoPluginAppears(env, cr, w, who, call, k);
      }
    }
    AllOrNothing(env, w, who, call);
    hide Issue;
  }

  lemma ClearedNow(env: Env, w: World, k: Key)
    ensures Cleared(env, w, k) == ClearedIn(env, w.objs, w.trace, k)
  {
  }

  /** At every call boundary of every run, whatever fails and wherever the operator dies: a workload outside the
      committed namespace is there only because the last Delete sent for it failed. */
  lemma MigrationContained(env: Env, w: World, actions: seq<Action>)
    requires Fresh(w)
    ensures var w' := Run(env, w, actions);
            Always((s: Snapshot) => Contained(env, s), w')
  {
    hide Guard;
    var J := (s: Snapshot) => Contained(env, s);
    var specs := SpecsOf(w, actions);
    assert J(Now(w)) by {
      NamesDiffer();
    }
    forall cr: FlowCollector ensures StepClosed(env, cr, J) {
      forall x, who, call | J(Now(x)) && !x.crashed && WellFormed(x.objs) && Guard(env, cr, x, who, call)
        ensures J(Now(Issue(env, who, x, call).w))
      {
        ContainedStep(env, cr, x, who, call);
      }
    }
    assert EditClosed(J);
    RunAlways(env, specs, w.cr.value.name, J, w, actions);
  }

  /** The same, spelled out for the store just after the i-th call. */
  lemma MigrationLeavesNothing(env: Env, w: World, actions: seq<Action>, i: nat, k: Key)
    requires Fresh(w) && i < |Run(env, w, actions).trace|
    requires Workload(k)
    ensures var w' := Run(env, w, actions); var e := w'.trace[i];
            && e.cr.Some?
            && (k in e.objs && k.namespace != e.cr.value.deployedIn
                ==> !ReliableDeletes(env) && LastDeleteFailed(w'.trace[..i + 1], k))
  {
    hide Run;
    MigrationContained(env, w, actions);
    var s := Past(Run(env, w, actions), i);
    assert Contained(env, s);
  }

  // ---- One collector kind ----

  /** No Deployment of the collector beside a DaemonSet of the collector, in any namespaces. */
  ghost predicate OneKind(objs: Objects) {
    forall m, n :: !(GO.DeploymentKey(m) in objs && GO.DaemonSetKey(n) in objs)
  }

  ghost predicate ContainedOneKind(env: Env, s: Snapshot) {
    Contained(env, s) && OneKind(s.objs)
  }

  lemma OneKindCreate(env: Env, cr: FlowCollector, w: World, who: Cluster.Component, o: Object)
    requires ReliableDeletes(env)
    requires ContainedOneKind(env, Now(w)) && !w.crashed && WellFormed(w.objs) && CreateGuard(env, cr, w, who, o)
    ensures OneKind(Issue(env, who, w, Create(o)).w.objs)
  {
    CreateClassified(env, cr, w, who, o);
    CreateEffect(env, w, who, o);
    hide Issue;
    hide CreateGuard;
    hide Classified;
    NamesDiffer();
    var objs := Issue(env, who, w, Create(o)).w.objs;
    forall m, n ensures !(GO.DeploymentKey(m) in objs && GO.DaemonSetKey(n) in objs) {
      if KeyOf(o) == GO.DeploymentKey(m) {
        WorkloadWrite(env, cr, w, o);
        assert Foreign(Now(w), GO.DaemonSetKey(n)) || n == m;
      } else if KeyOf(o) == GO.DaemonSetKey(n) {
        WorkloadWrite(env, cr, w, o);
        assert Foreign(Now(w), GO.DeploymentKey(m)) || n == m;
      }
    }
  }

  lemma OneKindStep(env: Env, cr: FlowCollector, w: World, who: Cluster.Component, call: Call)
    requires ReliableDeletes(env)
    requires ContainedOneKind(env, Now(w)) && !w.crashed && WellFormed(w.objs) && Guard(env, cr, w, who, call)
    ensures ContainedOneKind(env, Now(Issue(env, who, w, call).w))
  {
    ContainedStep(env, cr, w, who, call);
    hide Contained;
    if call.Create? {
      OneKindCreate(env, cr, w, who, call.obj);
    } else {
      NothingAppears(env, w, who, call);
    }
    hide Issue;
    hide Guard;
  }

  lemma FreshOneKind(env: Env, w: World)
    requires Fresh(w)
    ensures w.cr.Some? && WellFormed(w.objs) && w.trace == [] && ContainedOneKind(env, Now(w))
  {
    NamesDiffer();
  }

  lemma OneKindClosed(env: Env, cr: FlowCollector)
    requires ReliableDeletes(env)
    ensures StepClosed(env, cr, (s: Snapshot) => ContainedOneKind(env, s))
  {
    hide Guard;
    hide ContainedOneKind;
    hide WellFormed;
    hide Issue;
    hide ReliableDeletes;
    var J := (s: Snapshot) => ContainedOneKind(env, s);
    forall x, who, call | J(Now(x)) && !x.crashed && WellFormed(x.objs) && Guard(env, cr, x, who, call)
      ensures J(Now(Issue(env, who, x, call).w))
    {
      OneKindStep(env, cr, x, who, call);
    }
  }

  lemma OneKindEdit(env: Env, w: World, spec: Spec)
    requires ContainedOneKind(env, Now(w))
    ensures ContainedOneKind(env, Now(EditSpec(w, spec)))
  {
    hide OneKind;
  }

  lemma OneKindPart(env: Env, s: Snapshot)
    requires ContainedOneKind(env, s)
    ensures OneKind(s.objs)
  {
  }

  /** With reliable deletes, no call boundary of any run shows both kinds of collector. */
  lemma OneCollectorKind(env: Env, w: World, actions: seq<Action>)
    requires Fresh(w) && ReliableDeletes(env)
    ensures var w' := Run(env, w, actions);
            OneKind(w'.objs) && forall i :: 0 <= i < |w'.trace| ==> OneKind(w'.trace[i].objs)
  {
    hide StepClosed;
    hide ReliableDeletes;
    var J := (s: Snapshot) => ContainedOneKind(env, s);
    var w' := Run(env, w, actions);
    FreshOneKind(env, w);
    hide Fresh;
    hide Contained;
    forall cr: FlowCollector ensures StepClosed(env, cr, J) {
      OneKindClosed(env, cr);
    }
    forall x, spec | J(Now(x)) ensures J(Now(EditSpec(x, spec))) {
      OneKindEdit(env, x, spec);
    }
    hide ContainedOneKind;
    RunAlways(env, SpecsOf(w, actions), w.cr.value.name, J, w, actions);
    OneKindPart(env, Now(w'));
    hide Run;
    hide OneKind;
    forall i | 0 <= i < |w'.trace| ensures OneKind(w'.trace[i].objs) {
      OneKindPart(env, Past(w', i));
    }
  }

}
