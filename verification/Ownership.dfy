/** What no guarded call ever does: leave an object unowned, lose the cluster IP, or write over a stale read. */
module Ownership {

  import opened Cluster
  import opened ClientHelper
  import opened Containment
  import opened FlowCollectorTypes
  import opened PassInduction
  import opened Runs
  import opened Safety
  import opened Wrappers
  import C = FlowCollectorController
  import GO = GoflowObjects
  import P = PluginReconciler

  // ---- Ownership ----

  /** Everything but the Namespaces, and what was there before, is controlled by the collector's resource. */
  ghost predicate Owned(name: string, before: set<Key>, s: Snapshot) {
    && s.cr.Some? && s.cr.value.name == name
    && forall k :: k in s.objs && k.kind != Namespaces && k !in before ==> s.objs[k].meta.controller == Some(name)
  }

  lemma OwnedStep(env: Env, cr: FlowCollector, w: World, who: Cluster.Component, call: Call, before: set<Key>)
    requires Owned(cr.name, before, Now(w)) && WellFormed(w.objs) && Guard(env, cr, w, who, call)
    ensures Owned(cr.name, before, Now(Issue(env, who, w, call).w))
  {
    match call {
      case Create(o) =>
        CreateClassified(env, cr, w, who, o);
        CreateEffect(env, w, who, o);
      case Update(o) =>
        UpdateClassified(env, cr, w, who, o);
        UpdateEffect(env, w, who, o);
      case Delete(k) =>
        DeleteEffect(env, w, who, k);
      case UpdateStatus(n) =>
        StatusEffect(env, w, who, n);
      case _ =>
        ReadEffect(env, w, who, call);
    }
    hide Issue;
    hide Guard;
  }

  lemma OwnedClosed(env: Env, cr: FlowCollector, before: set<Key>)
    ensures StepClosed(env, cr, (s: Snapshot) => Owned(cr.name, before, s))
  {
    hide Guard;
    hide Issue;
    hide WellFormed;
    hide Owned;
    var J := (s: Snapshot) => Owned(cr.name, before, s);
    forall x, who, call | J(Now(x)) && !x.crashed && WellFormed(x.objs) && Guard(env, cr, x, who, call)
      ensures J(Now(Issue(env, who, x, call).w))
    {
      OwnedStep(env, cr, x, who, call, before);
    }
  }

  /** At every call boundary of every run, what the operator wrote is controlled by the collector's resource. */
  lemma EverythingOwned(env: Env, w: World, actions: seq<Action>)
    requires w.cr.Some? && WellFormed(w.objs) && w.trace == []
    ensures Always((s: Snapshot) => Owned(w.cr.value.name, w.objs.Keys, s), Run(env, w, actions))
  {
    hide StepClosed;
    hide WellFormed;
    var name, before := w.cr.value.name, w.objs.Keys;
    var J := (s: Snapshot) => Owned(name, before, s);
    forall cr: FlowCollector | cr.name == name ensures StepClosed(env, cr, J) {
      OwnedClosed(env, cr, before);
    }
    RunAlways(env, SpecsOf(w, actions), name, J, w, actions);
  }

  /** Deleting the collector's resource: the server collects what it controls. */
  function Collect(objs: Objects, name: string): Objects {
    map k | k in objs && objs[k].meta.controller != Some(name) :: objs[k]
  }

  lemma CollectOwned(name: string, before: set<Key>, s: Snapshot, k: Key)
    requires Owned(name, before, s) && k in Collect(s.objs, name)
    ensures k.kind == Namespaces || k in before
  {
  }

  /** In every state of every run, collecting the dependants leaves Namespaces and what was there before the run. */
  lemma CollectLeavesNamespaces(env: Env, w: World, actions: seq<Action>)
    requires w.cr.Some? && WellFormed(w.objs) && w.trace == []
    ensures var w' := Run(env, w, actions); var name := w.cr.value.name;
            && (forall k :: k in Collect(w'.objs, name) ==> k.kind == Namespaces || k in w.objs)
            && (forall i, k :: 0 <= i < |w'.trace| && k in Collect(w'.trace[i].objs, name)
                               ==> k.kind == Namespaces || k in w.objs)
  {
    EverythingOwned(env, w, actions);
    hide Run;
    hide Owned;
    hide Collect;
    var name, before, w' := w.cr.value.name, w.objs.Keys, Run(env, w, actions);
    var J := (s: Snapshot) => Owned(name, before, s);
    forall k | k in Collect(w'.objs, name) ensures k.kind == Namespaces || k in before {
      CollectOwned(name, before, Now(w'), k);
    }
    forall i, k | 0 <= i < |w'.trace| && k in Collect(w'.trace[i].objs, name)
      ensures k.kind == Namespaces || k in before
    {
      assert J(Past(w', i));
      CollectOwned(name, before, Past(w', i), k);
    }
  }

  // ---- The cluster IP ----

  /** The Service under k has the address, the selector, the labels and the annotations of svc. */
  ghost predicate Serves(k: Key, svc: Object, objs: Objects) {
    && k in objs && objs[k].body.Service? && svc.body.Service?
    && objs[k].body.clusterIP == svc.body.clusterIP
    && objs[k].body.selector == svc.body.selector
    && objs[k].meta.labels == svc.meta.labels
    && objs[k].meta.annotations == svc.meta.annotations
  }

  /** So it has been since the trace had `start` events, and no Delete was sent for it. */
  ghost predicate Served(n: string, k: Key, svc: Object, start: nat, w: World) {
    && w.cr.Some? && w.cr.value.deployedIn == n
    && Serves(k, svc, w.objs)
    && forall i :: start <= i < |w.trace| ==> w.trace[i].call != Delete(k) && Serves(k, svc, w.trace[i].objs)
  }

  /** The specification asks for the Service under k in namespace n: the plugin's always, the collector's for its
      Deployment. */
  predicate Lasting(spec: Spec, n: string, k: Key) {
    && C.NamespaceOf(spec) == n
    && (k == P.ServiceKey(n) || (k == GO.ServiceKey(n) && spec.goflowKube.kind == DEPLOYMENT_KIND))
  }

  /** A guarded update of a Service is built from the one in place. */
  lemma ServiceUpdate(env: Env, cr: FlowCollector, w: World, who: Cluster.Component, o: Object)
    requires UpdateGuard(env, cr, w, who, o) && KeyOf(o).kind == Services
    ensures KeyOf(o) in w.objs && ServiceOf(env, cr, Some(w.objs[KeyOf(o)]), o)
  {
    hide GoflowObject;
    hide PluginObject;
    hide ServiceOf;
    hide Cleared;
    if who == Main && Working(cr, w) {
      if GoflowObject(env, cr, w, Unversioned(o)) {
        GoflowObjectKey(env, cr, w, Unversioned(o));
      } else if PluginObject(cr, Unversioned(o)) {
        PluginObjectKey(cr, Unversioned(o));
      }
    }
  }

  lemma ServesUpdate(env: Env, cr: FlowCollector, w: World, who: Cluster.Component, o: Object, k: Key, svc: Object)
    requires k.kind == Services && Serves(k, svc, w.objs) && UpdateGuard(env, cr, w, who, o)
    ensures Serves(k, svc, Issue(env, who, w, Update(o)).w.objs)
  {
    hide UpdateGuard;
    UpdateEffect(env, w, who, o);
    hide Issue;
    if KeyOf(o) == k {
      ServiceUpdate(env, cr, w, who, o);
    }
  }

  lemma ServesCreate(env: Env, w: World, who: Cluster.Component, o: Object, k: Key, svc: Object)
    requires Serves(k, svc, w.objs)
    ensures Serves(k, svc, Issue(env, who, w, Create(o)).w.objs)
  {
    CreateEffect(env, w, who, o);
    hide Issue;
  }

  /** While it is wanted in its namespace, the Service is not among what may be deleted. */
  lemma ServesDelete(
    env: Env, cr: FlowCollector, w: World, who: Cluster.Component, d: Key, n: string, k: Key, svc: Object)
    requires w.cr.Some? && w.cr.value.deployedIn == n && Serves(k, svc, w.objs) && DeleteGuard(env, cr, w, who, d)
    requires Lasting(cr.spec, n, k)
    ensures d != k && Serves(k, svc, Issue(env, who, w, Delete(d)).w.objs)
  {
    NamesDiffer();
    assert d != k;
    hide DeleteGuard;
    DeleteEffect(env, w, who, d);
    hide Issue;
  }

  lemma ServesStep(
    env: Env, cr: FlowCollector, w: World, who: Cluster.Component, call: Call, n: string, k: Key, svc: Object)
    requires w.cr.Some? && w.cr.value.deployedIn == n && Serves(k, svc, w.objs)
    requires Guard(env, cr, w, who, call) && Lasting(cr.spec, n, k)
    ensures var w' := Issue(env, who, w, call).w;
            && w'.cr.Some? && w'.cr.value.deployedIn == n && Serves(k, svc, w'.objs)
            && call != Delete(k)
  {
    hide CreateGuard;
    hide UpdateGuard;
    hide DeleteGuard;
    hide Serves;
    match call {
      case Create(o) =>
        ServesCreate(env, w, who, o, k, svc);
        CreateEffect(env, w, who, o);
      case Update(o) =>
        ServesUpdate(env, cr, w, who, o, k, svc);
        UpdateEffect(env, w, who, o);
      case Delete(d) =>
        ServesDelete(env, cr, w, who, d, n, k, svc);
        DeleteEffect(env, w, who, d);
      case UpdateStatus(m) =>
        StatusEffect(env, w, who, m);
      case _ =>
        ReadEffect(env, w, who, call);
    }
    hide Issue;
  }

  lemma ServedIssue(
    env: Env, cr: FlowCollector, w: World, who: Cluster.Component, call: Call, n: string, k: Key, svc: Object,
    start: nat)
    requires Served(n, k, svc, start, w) && Guard(env, cr, w, who, call) && Lasting(cr.spec, n, k)
    ensures Served(n, k, svc, start, Issue(env, who, w, call).w)
  {
    ServesStep(env, cr, w, who, call, n, k, svc);
    IssueTrace(env, w, who, call);
    hide Issue;
    hide Guard;
    hide Serves;
    hide Lasting;
  }

  /** While the specification asks for it in the committed namespace, whatever is edited and whatever fails, a Service
      is never deleted and keeps its cluster IP, selector, labels and annotations. */
  lemma ServiceStable(env: Env, w: World, actions: seq<Action>, n: string, k: Key)
    requires w.cr.Some? && WellFormed(w.objs) && w.cr.value.deployedIn == n && k in w.objs
    requires forall spec :: spec in SpecsOf(w, actions) ==> Lasting(spec, n, k)
    ensures Served(n, k, w.objs[k], |w.trace|, Run(env, w, actions))
  {
    hide Guard;
    var svc, start, specs := w.objs[k], |w.trace|, SpecsOf(w, actions);
    assert Lasting(w.cr.value.spec, n, k);
    assert KeyOf(svc) == k;
    var I := (x: World) => Served(n, k, svc, start, x);
    forall cr: FlowCollector | cr.spec in specs ensures Closed(env, cr, I) {
      forall x, who, call | I(x) && !x.crashed && WellFormed(x.objs) && Guard(env, cr, x, who, call)
        ensures I(Issue(env, who, x, call).w)
      {
        ServedIssue(env, cr, x, who, call, n, k, svc, start);
      }
    }
    RunHolds(env, specs, w.cr.value.name, I, w, actions);
  }

  /** The collector's Service, while the kind stays Deployment and the namespace the committed one. */
  lemma ClusterIPStable(env: Env, w: World, actions: seq<Action>, n: string)
    requires w.cr.Some? && WellFormed(w.objs) && w.cr.value.deployedIn == n
    requires GO.ServiceKey(n) in w.objs
    requires forall spec :: spec in SpecsOf(w, actions) ==>
               spec.goflowKube.kind == DEPLOYMENT_KIND && C.NamespaceOf(spec) == n
    ensures Served(n, GO.ServiceKey(n), w.objs[GO.ServiceKey(n)], |w.trace|, Run(env, w, actions))
  {
    hide Run;
    hide Served;
    ServiceStable(env, w, actions, n, GO.ServiceKey(n));
  }

  /** The console Service, while the namespace stays the committed one. */
  lemma ConsoleIPStable(env: Env, w: World, actions: seq<Action>, n: string)
    requires w.cr.Some? && WellFormed(w.objs) && w.cr.value.deployedIn == n
    requires P.ServiceKey(n) in w.objs
    requires forall spec :: spec in SpecsOf(w, actions) ==> C.NamespaceOf(spec) == n
    ensures Served(n, P.ServiceKey(n), w.objs[P.ServiceKey(n)], |w.trace|, Run(env, w, actions))
  {
    hide Run;
    hide Served;
    ServiceStable(env, w, actions, n, P.ServiceKey(n));
  }

  // ---- Versions ----

  ghost predicate NoConflict(w: World) {
    forall i :: 0 <= i < |w.trace| ==> w.trace[i].reply != Conflict
  }

  /** A version that is supplied is the one in place. */
  lemma VersionMatches(env: Env, cr: FlowCollector, w: World, who: Cluster.Component, o: Object)
    requires UpdateGuard(env, cr, w, who, o)
    ensures o.meta.resourceVersion != 0 ==>
        KeyOf(o) in w.objs && o.meta.resourceVersion == w.objs[KeyOf(o)].meta.resourceVersion
  {
    hide ComponentObject;
    hide ServiceOf;
    hide OvsConfigMap;
    hide Cleared;
  }

  lemma UpdateHasNoConflict(env: Env, w: World, who: Cluster.Component, o: Object)
    requires o.meta.resourceVersion != 0 ==>
        KeyOf(o) in w.objs && o.meta.resourceVersion == w.objs[KeyOf(o)].meta.resourceVersion
    ensures NoConflict(w) ==> NoConflict(Issue(env, who, w, Update(o)).w)
  {
  }

  lemma ServeNoConflict(w: World, call: Call)
    requires !call.Update?
    ensures Serve(w, call).reply != Conflict && Serve(w, call).w.trace == w.trace
  {
  }

  lemma OtherHasNoConflict(env: Env, w: World, who: Cluster.Component, call: Call)
    requires !call.Update?
    ensures NoConflict(w) ==> NoConflict(Issue(env, who, w, call).w)
  {
    ServeNoConflict(w, call);
    hide Serve;
  }

  lemma NoConflictIssue(env: Env, cr: FlowCollector, w: World, who: Cluster.Component, call: Call)
    requires NoConflict(w) && Guard(env, cr, w, who, call)
    ensures NoConflict(Issue(env, who, w, call).w)
  {
    hide CreateGuard;
    hide UpdateGuard;
    hide DeleteGuard;
    if call.Update? {
      VersionMatches(env, cr, w, who, call.obj);
      UpdateHasNoConflict(env, w, who, call.obj);
    } else {
      OtherHasNoConflict(env, w, who, call);
    }
    hide Issue;
  }

  /** The versions the operator sends are never stale: no call of any run is answered with a conflict. */
  lemma VersionsFresh(env: Env, w: World, actions: seq<Action>)
    requires Fresh(w)
    ensures NoConflict(Run(env, w, actions))
  {
    hide Guard;
    forall cr: FlowCollector ensures Closed(env, cr, NoConflict) {
      forall x, who, call | NoConflict(x) && Guard(env, cr, x, who, call)
        ensures NoConflict(Issue(env, who, x, call).w)
      {
        NoConflictIssue(env, cr, x, who, call);
      }
    }
    RunHolds(env, SpecsOf(w, actions), w.cr.value.name, NoConflict, w, actions);
  }

  /** An update never overwrites what has changed since it was read: whatever the faults, it fails, and the object stays
      as it is. */
  lemma StaleUpdateRefused(env: Env, w: World, owner: string, previous: Object, o: Object)
    requires KeyOf(o) in w.objs && previous.meta.resourceVersion != 0
    requires w.objs[KeyOf(o)].meta.resourceVersion != previous.meta.resourceVersion
    ensures var s := UpdateOwned(env, w, owner, Some(previous), o); s.st.Err? && s.w.objs == w.objs
  {
    var v := WithVersionOf(Some(previous), o);
    var owned := SetControllerReference(owner, v);
    if owned.Some? {
      AllOrNothing(env, w, Main, Update(owned.value));
      assert KeyOf(owned.value) == KeyOf(o);
    }
  }

}
