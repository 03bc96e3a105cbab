/** Success over whole lives: when no call fails every pass succeeds; a half-done install never recovers; a reverted
    namespace change leaves a collector without its account. */
module Lifecycle {

  import opened Cluster
  import opened Containment
  import opened Convergence
  import opened Effects
  import opened FlowCollectorTypes
  import opened Ownership
  import opened PassInduction
  import opened Runs
  import opened Safety
  import opened Success
  import opened Wrappers
  import C = FlowCollectorController
  import GO = GoflowObjects
  import P = PluginReconciler

  ghost predicate Live(w: World) {
    w.cr.Some? && !w.cr.value.deleting && !w.crashed && WellFormed(w.objs)
  }

  /** No object is controlled by anyone but the collector's resource. */
  ghost predicate NoOtherOwner(objs: Objects, name: string) {
    forall k :: k in objs ==> objs[k].meta.controller == None || objs[k].meta.controller == Some(name)
  }

  /** When no call fails, a pass succeeds iff the kind is valid, the static resources are as the status says, and no
      Service it must update belongs to another owner; the last condition always holds when there is no other owner. */
  lemma ExactSuccess(env: Env, w: World)
    requires FaultFree(env) && Live(w)
    ensures var cr, s := w.cr.value, C.Reconcile(env, w);
            && (s.st.Ok? <==> ValidKind(cr.spec) && Ready(env, cr, w.objs) && !ServiceBlocked(env, cr, w.objs))
            && (NoOtherOwner(w.objs, cr.name) ==> (s.st.Ok? <==> ValidKind(cr.spec) && Ready(env, cr, w.objs)))
  {
    hide C.Reconcile;
    hide Ready;
    FaultFreePasses(env);
    PassAnswered(env, {}, w);
  }

  /** A resource that is absent or being deleted is left alone: one read and nothing else. */
  lemma NothingToDo(env: Env, w: World)
    requires w.cr.None? || w.cr.value.deleting
    ensures var s := C.Reconcile(env, w);
            s.w == Issue(env, Main, w, GetCollector).w && s.w.objs == w.objs && s.w.cr == w.cr
  {
    CollectorReply(env, w);
    IssueObjects(env, w, Main, GetCollector);
    hide Issue;
    hide C.ReconcileLive;
  }

  // ---- Runs without faults ----

  /** The static resources are exactly those of namespace d; none of them when d is "". */
  ghost predicate Statics(env: Env, objs: Objects, d: string) {
    && (GO.CLUSTER_ROLE_KEY in objs <==> d != "")
    && (if d == "" then GO.BINDING_KEY !in objs else BindingNames(objs, d))
    && (forall n :: GO.ServiceAccountKey(n) in objs <==> n == d != "")
    && (env.consoleEnabled ==> forall n :: P.ServiceAccountKey(n) in objs <==> n == d != "")
  }

  ghost predicate Consistent(env: Env, w: World) {
    Live(w) && Statics(env, w.objs, w.cr.value.deployedIn)
  }

  predicate IsStatic(k: Key) {
    k.kind in {ClusterRoles, ClusterRoleBindings, ServiceAccounts}
  }

  lemma StaticsFrame(env: Env, w: World, w': World, keys: set<Key>, d: string)
    requires Frame(w, w', keys) && forall k :: k in keys ==> !IsStatic(k)
    requires Statics(env, w.objs, d)
    ensures Statics(env, w'.objs, d)
  {
    hide WellFormed;
    forall k | IsStatic(k) ensures Lookup(w.objs, k) == Lookup(w'.objs, k) {
    }
    assert IsStatic(GO.CLUSTER_ROLE_KEY) && IsStatic(GO.BINDING_KEY);
    assert forall n :: IsStatic(GO.ServiceAccountKey(n)) && IsStatic(P.ServiceAccountKey(n));
  }

  lemma ComponentsAreNotStatic(spec: Spec, ns: string)
    ensures forall k :: k in ComponentKeys(spec, ns) ==> !IsStatic(k)
  {
  }

  lemma StaticsReady(env: Env, cr: FlowCollector, objs: Objects)
    requires Statics(env, objs, cr.deployedIn)
    ensures Ready(env, cr, objs)
  {
  }

  lemma AccountsMoved(env: Env, cr: FlowCollector, w: World, w': World, n: string)
    requires Statics(env, w.objs, cr.deployedIn) && C.NamespaceOf(cr.spec) != cr.deployedIn
    requires Touches(w, w', HandledKeys(cr.deployedIn, C.NamespaceOf(cr.spec))) && Changed(env, cr, w'.objs)
    ensures GO.ServiceAccountKey(n) in w'.objs <==> n == C.NamespaceOf(cr.spec)
    ensures env.consoleEnabled ==> (P.ServiceAccountKey(n) in w'.objs <==> n == C.NamespaceOf(cr.spec))
  {
    hide WellFormed;
    hide GO.ManagedKeys;
    hide P.ManagedKeys;
    NamesDiffer();
    var ns, prev := C.NamespaceOf(cr.spec), cr.deployedIn;
    ManagedNames(prev);
    MovedAccounts(prev);
    if n != ns && (n != prev || prev == "") {
      assert Lookup(w.objs, GO.ServiceAccountKey(n)) == Lookup(w'.objs, GO.ServiceAccountKey(n));
      assert Lookup(w.objs, P.ServiceAccountKey(n)) == Lookup(w'.objs, P.ServiceAccountKey(n));
    }
  }

  /** A change of namespace moves the static resources. */
  lemma PrepareStatics(env: Env, cr: FlowCollector, w: World, ns: string)
    requires FaultFree(env) && Live(w) && w.cr == Some(cr) && ns == C.NamespaceOf(cr.spec)
    requires Statics(env, w.objs, cr.deployedIn)
    ensures Statics(env, Prepare(env, w, cr, ns).w.objs, ns)
  {
    hide C.HandleNamespaceChanged;
    if ns != cr.deployedIn {
      StaticsReady(env, cr, w.objs);
      FaultFreePasses(env);
      HandleAnswered(env, {}, cr, w, ns);
      hide Ready;
      hide Touches;
      hide FaultFree;
      hide PassesBut;
      hide WellFormed;
      forall n ensures GO.ServiceAccountKey(n) in Prepare(env, w, cr, ns).w.objs <==> n == ns {
        AccountsMoved(env, cr, w, Prepare(env, w, cr, ns).w, n);
      }
      forall n | env.consoleEnabled ensures P.ServiceAccountKey(n) in Prepare(env, w, cr, ns).w.objs <==> n == ns {
        AccountsMoved(env, cr, w, Prepare(env, w, cr, ns).w, n);
      }
    }
  }

  lemma MovedAccounts(prev: string)
    ensures GO.ServiceAccountKey(prev) in GO.ManagedKeys(prev) && P.ServiceAccountKey(prev) in P.ManagedKeys(prev)
  {
    assert GO.ManagedKeys(prev)[4] == GO.ServiceAccountKey(prev);
    assert P.ManagedKeys(prev)[2] == P.ServiceAccountKey(prev);
  }

  /** When no call fails, a pass takes consistent static resources to consistent static resources in the namespace of
      the specification, whether it succeeds or not. */
  lemma PassStatics(env: Env, w: World)
    requires FaultFree(env) && Consistent(env, w)
    ensures Consistent(env, C.Reconcile(env, w).w)
    ensures C.Reconcile(env, w).w.cr == Some(w.cr.value.(deployedIn := C.NamespaceOf(w.cr.value.spec)))
  {
    hide Statics;
    hide WellFormed;
    hide Entry;
    hide Preparation;
    hide Prepare;
    hide C.Reconcile;
    hide C.ReconcileComponents;
    hide PassesBut;
    hide ServiceBlocked;
    hide Ready;
    var cr := w.cr.value;
    var ns := C.NamespaceOf(cr.spec);
    FaultFreePasses(env);
    hide FaultFree;
    StaticsReady(env, cr, w.objs);
    PassAnswered(env, {}, w);
    EntryAnswered(env, {}, w);
    var e := Entry(env, w, cr);
    StaticsFrame(env, w, e, {C.NamespaceKey(ns)}, cr.deployedIn);
    StaticsReady(env, cr, e.objs);
    PrepareStatics(env, cr, e, ns);
    PrepareAnswered(env, {}, cr, e, ns);
    var p := Prepare(env, e, cr, ns);
    ComponentsFrame(env, cr, p.w, ns);
    ComponentsAreNotStatic(cr.spec, ns);
    hide ComponentKeys;
    StaticsFrame(env, p.w, C.ReconcileComponents(env, p.w, cr, ns).w, ComponentKeys(cr.spec, ns), ns);
  }

  lemma {:induction false} RunConsistent(env: Env, w: World, actions: seq<Action>)
    requires FaultFree(env) && Consistent(env, w)
    ensures Consistent(env, Run(env, w, actions))
    decreases |actions|
  {
    hide C.Reconcile;
    hide FaultFree;
    hide Statics;
    hide WellFormed;
    if actions == [] {
    } else {
      match actions[0] {
        case Edit(spec) =>
        case Pass =>
          assert w.(crashed := false) == w;
          PassStatics(env, w);
      }
      RunConsistent(env, Act(env, w, actions[0]), actions[1..]);
    }
  }

  lemma FreshConsistent(env: Env, w: World)
    requires Fresh(w) && Live(w)
    ensures Consistent(env, w)
  {
    NamesDiffer();
  }

  /** The operator's own Services never stand in its way. */
  lemma NotBlocked(env: Env, w: World, actions: seq<Action>)
    requires Fresh(w)
    ensures var w1 := Run(env, w, actions);
            w1.cr.Some? && w1.cr.value.name == w.cr.value.name && !ServiceBlocked(env, w1.cr.value, w1.objs)
  {
    EverythingOwned(env, w, actions);
    hide Run;
    NamesDiffer();
    var w1 := Run(env, w, actions);
    var name, before := w.cr.value.name, w.objs.Keys;
    assert Owned(name, before, Now(w1));
    var ns := C.NamespaceOf(w1.cr.value.spec);
    assert GO.ServiceKey(ns) !in before && P.ServiceKey(ns) !in before;
  }

  /** From a fresh cluster, when no call fails, every pass succeeds whose kind is valid: no edit before it, not even of
      the namespace, not even to an invalid kind, can make it fail. */
  lemma FaultFreePassesSucceed(env: Env, w: World, actions: seq<Action>)
    requires FaultFree(env) && Fresh(w) && Live(w)
    ensures var w1, s := Run(env, w, actions), NextPass(env, w, actions);
            && w1.cr.Some? && !s.w.crashed
            && (s.st.Ok? <==> ValidKind(w1.cr.value.spec))
            && Statics(env, s.w.objs, C.NamespaceOf(w1.cr.value.spec))
  {
    hide Statics;
    hide Ready;
    hide ServiceBlocked;
    hide WellFormed;
    hide Fresh;
    hide C.Reconcile;
    FreshConsistent(env, w);
    RunConsistent(env, w, actions);
    NotBlocked(env, w, actions);
    hide Run;
    var w1 := Run(env, w, actions);
    assert w1.(crashed := false) == w1;
    StaticsReady(env, w1.cr.value, w1.objs);
    FaultFreePasses(env);
    PassAnswered(env, {}, w1);
    PassStatics(env, w1);
  }

}
