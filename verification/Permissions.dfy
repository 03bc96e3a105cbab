/** Permissions come before the workloads that need them, unless a failed namespace change is reverted. */
module Permissions {

  import opened Cluster
  import opened ClientHelper
  import opened Containment
  import opened FlowCollectorTypes
  import opened PassInduction
  import opened Runs
  import opened Safety
  import opened Wrappers
  import C = FlowCollectorController
  import F = FlowsConfig
  import GO = GoflowObjects

  /** What a collector in namespace n needs. */
  ghost predicate Permitted(objs: Objects, n: string) {
    GO.CLUSTER_ROLE_KEY in objs && GO.ServiceAccountKey(n) in objs && BindingNames(objs, n)
  }

  predicate HasCollector(objs: Objects, n: string) {
    GO.DeploymentKey(n) in objs || GO.DaemonSetKey(n) in objs
  }

  /** Every collector has its permissions. */
  ghost predicate Ordered(objs: Objects) {
    forall n :: HasCollector(objs, n) ==> Permitted(objs, n)
  }

  /** Holds at every boundary of a pass that targets ns. */
  ghost predicate OrderedFor(env: Env, ns: string, s: Snapshot) {
    && Contained(env, s)
    && Ordered(s.objs)
    && (s.cr.value.deployedIn != "" ==> GO.CLUSTER_ROLE_KEY in s.objs)
    && (s.cr.value.deployedIn == ns ==> Permitted(s.objs, ns))
  }

  /** With reliable deletes, only the committed namespace can have a collector. */
  lemma CollectorHome(env: Env, s: Snapshot, n: string)
    requires ReliableDeletes(env) && Contained(env, s) && HasCollector(s.objs, n)
    ensures n == s.cr.value.deployedIn
  {
    assert Foreign(s, GO.DeploymentKey(n)) == Foreign(s, GO.DaemonSetKey(n));
  }

  /** Adding objects takes no permission away. */
  lemma PermittedGrows(objs: Objects, objs': Objects, n: string)
    requires Permitted(objs, n)
    requires forall k :: k in objs ==> k in objs' && objs'[k] == objs[k]
    ensures Permitted(objs', n)
  {
  }

  lemma OrderedCreate(env: Env, cr: FlowCollector, w: World, who: Cluster.Component, o: Object)
    requires ReliableDeletes(env)
    requires OrderedFor(env, C.NamespaceOf(cr.spec), Now(w)) && WellFormed(w.objs) && CreateGuard(env, cr, w, who, o)
    ensures var objs := Issue(env, who, w, Create(o)).w.objs;
            && Ordered(objs)
            && (forall k :: k in w.objs ==> k in objs && objs[k] == w.objs[k])
  {
    CreateClassified(env, cr, w, who, o);
    CreateEffect(env, w, who, o);
    hide Issue;
    hide CreateGuard;
    hide Classified;
    hide Permitted;
    hide Contained;
    var ns := C.NamespaceOf(cr.spec);
    var objs := Issue(env, who, w, Create(o)).w.objs;
    forall n | HasCollector(objs, n) ensures Permitted(objs, n) {
      if !HasCollector(w.objs, n) {
        WorkloadWrite(env, cr, w, o);
      }
      PermittedGrows(w.objs, objs, n);
    }
  }

  /** The binding is only re-pointed once the namespace it named has been cleared, its account included. */
  lemma BindingUpdate(env: Env, cr: FlowCollector, w: World, who: Cluster.Component, o: Object)
    requires UpdateGuard(env, cr, w, who, o) && KeyOf(o) == GO.BINDING_KEY
    ensures Moving(cr, w)
    ensures Cleared(env, w, GO.DeploymentKey(cr.deployedIn)) && Cleared(env, w, GO.DaemonSetKey(cr.deployedIn))
    ensures Cleared(env, w, GO.ServiceAccountKey(cr.deployedIn))
  {
    hide Cleared;
    hide ComponentObject;
    hide ServiceOf;
    hide Own;
    NotAComponent(env, cr, w, o);
    SomeManaged(cr.deployedIn);
    hide GO.ManagedKeys;
  }

  lemma SomeManaged(ns: string)
    ensures var keys := GO.ManagedKeys(ns);
            && |keys| == 6 && keys[0] == GO.DeploymentKey(ns) && keys[1] == GO.DaemonSetKey(ns)
            && keys[4] == GO.ServiceAccountKey(ns)
  {
  }

  lemma NotAComponent(env: Env, cr: FlowCollector, w: World, o: Object)
    requires KeyOf(o).kind == ClusterRoleBindings
    ensures !ComponentObject(env, cr, w, Unversioned(o)) && !OvsConfigMap(cr, o)
    ensures KeyOf(o) in w.objs ==> !ServiceOf(env, cr, Some(w.objs[KeyOf(o)]), o)
  {
    hide GoflowObject;
    hide PluginObject;
    hide Cleared;
    hide F.AsStringMap;
    if GoflowObject(env, cr, w, Unversioned(o)) {
      GoflowObjectKey(env, cr, w, Unversioned(o));
    }
    if PluginObject(cr, Unversioned(o)) {
      PluginObjectKey(cr, Unversioned(o));
    }
  }

  /** Rewriting anything but the binding changes no permission. */
  lemma OtherUpdate(objs: Objects, objs': Objects, k: Key)
    requires Ordered(objs) && k != GO.BINDING_KEY && k in objs && k in objs' && objs' == objs[k := objs'[k]]
    ensures Ordered(objs')
    ensures forall n :: Permitted(objs, n) ==> Permitted(objs', n)
  {
    forall n | Permitted(objs, n) ensures Permitted(objs', n) {
      assert GO.CLUSTER_ROLE_KEY in objs' && GO.ServiceAccountKey(n) in objs' && GO.BINDING_KEY in objs';
    }
    hide Permitted;
    forall n | HasCollector(objs', n) ensures Permitted(objs', n) {
      assert HasCollector(objs, n);
    }
  }

  lemma OrderedUpdate(env: Env, cr: FlowCollector, w: World, who: Cluster.Component, o: Object)
    requires ReliableDeletes(env)
    requires OrderedFor(env, C.NamespaceOf(cr.spec), Now(w)) && WellFormed(w.objs) && UpdateGuard(env, cr, w, who, o)
    ensures var objs := Issue(env, who, w, Update(o)).w.objs;
            && Ordered(objs)
            && objs.Keys == w.objs.Keys
            && (w.cr.value.deployedIn == C.NamespaceOf(cr.spec) ==> Permitted(objs, C.NamespaceOf(cr.spec)))
  {
    UpdateEffect(env, w, who, o);
    hide Issue;
    hide Permitted;
    var objs := Issue(env, who, w, Update(o)).w.objs;
    if KeyOf(o) == GO.BINDING_KEY {
      BindingUpdate(env, cr, w, who, o);
      forall n | HasCollector(objs, n) ensures Permitted(objs, n) {
        CollectorHome(env, Now(w), n);
      }
    } else if objs != w.objs {
      hide UpdateGuard;
      OtherUpdate(w.objs, objs, KeyOf(o));
    }
  }

  /** Which deletions could take a permission away: only that of the account of the namespace being left, and only once
      its collectors are gone. */
  lemma DeletedPermission(env: Env, cr: FlowCollector, w: World, who: Cluster.Component, k: Key)
    requires DeleteGuard(env, cr, w, who, k)
    ensures k != GO.CLUSTER_ROLE_KEY && k != GO.BINDING_KEY
    ensures forall n :: k == GO.ServiceAccountKey(n) ==>
              && n == cr.deployedIn && Moving(cr, w)
              && Cleared(env, w, GO.DeploymentKey(n)) && Cleared(env, w, GO.DaemonSetKey(n))
  {
    hide Cleared;
    NamesDiffer();
  }

  /** Deleting anything but its permissions takes none of them away. */
  lemma PermittedShrinks(objs: Objects, objs': Objects, k: Key, n: string)
    requires Permitted(objs, n) && (objs' == objs || objs' == objs - {k})
    requires k != GO.CLUSTER_ROLE_KEY && k != GO.BINDING_KEY && k != GO.ServiceAccountKey(n)
    ensures Permitted(objs', n)
  {
  }

  lemma OrderedDelete(env: Env, cr: FlowCollector, w: World, who: Cluster.Component, k: Key)
    requires ReliableDeletes(env)
    requires OrderedFor(env, C.NamespaceOf(cr.spec), Now(w)) && WellFormed(w.objs) && DeleteGuard(env, cr, w, who, k)
    ensures var objs := Issue(env, who, w, Delete(k)).w.objs;
            && Ordered(objs)
            && (GO.CLUSTER_ROLE_KEY in w.objs ==> GO.CLUSTER_ROLE_KEY in objs)
            && (w.cr.value.deployedIn == C.NamespaceOf(cr.spec) ==> Permitted(objs, C.NamespaceOf(cr.spec)))
  {
    DeleteEffect(env, w, who, k);
    DeletedPermission(env, cr, w, who, k);
    hide Issue;
    hide DeleteGuard;
    hide Permitted;
    hide Contained;
    var ns, objs := C.NamespaceOf(cr.spec), Issue(env, who, w, Delete(k)).w.objs;
    forall n | HasCollector(objs, n) ensures Permitted(objs, n) {
      assert HasCollector(w.objs, n);
      PermittedShrinks(w.objs, objs, k, n);
    }
    if w.cr.value.deployedIn == ns {
      PermittedShrinks(w.objs, objs, k, ns);
    }
  }

  lemma OrderedStep(env: Env, cr: FlowCollector, w: World, who: Cluster.Component, call: Call)
    requires ReliableDeletes(env)
    requires OrderedFor(env, C.NamespaceOf(cr.spec), Now(w)) && !w.crashed && WellFormed(w.objs)
    requires Guard(env, cr, w, who, call)
    ensures OrderedFor(env, C.NamespaceOf(cr.spec), Now(Issue(env, who, w, call).w))
  {
    ContainedStep(env, cr, w, who, call);
    match call {
      case Get(_) =>
        ReadEffect(env, w, who, call);
      case GetCollector =>
        ReadEffect(env, w, who, call);
      case Create(o) =>
        OrderedCreate(env, cr, w, who, o);
        CreateEffect(env, w, who, o);
      case Update(o) =>
        OrderedUpdate(env, cr, w, who, o);
        UpdateEffect(env, w, who, o);
      case Delete(k) =>
        OrderedDelete(env, cr, w, who, k);
        DeleteEffect(env, w, who, k);
      case UpdateStatus(n) =>
        StatusEffect(env, w, who, n);
    }
    hide Issue;
    hide Contained;
    hide CreateGuard;
    hide UpdateGuard;
    hide DeleteGuard;
    hide Cleared;
  }

  // ---- Passes ----

  /** At every call boundary so far. */
  ghost predicate PastOrdered(w: World) {
    forall i :: 0 <= i < |w.trace| ==> Ordered(w.trace[i].objs)
  }

  lemma OrderedIssue(env: Env, cr: FlowCollector, w: World, who: Cluster.Component, call: Call)
    requires ReliableDeletes(env)
    requires OrderedFor(env, C.NamespaceOf(cr.spec), Now(w)) && PastOrdered(w) && !w.crashed && WellFormed(w.objs)
    requires Guard(env, cr, w, who, call)
    ensures var w' := Issue(env, who, w, call).w;
            OrderedFor(env, C.NamespaceOf(cr.spec), Now(w')) && PastOrdered(w')
  {
    OrderedStep(env, cr, w, who, call);
    IssueTrace(env, w, who, call);
    hide Issue;
    hide Guard;
    hide Ordered;
  }

  /** A pass is in order throughout, provided the permissions are there when it starts in the committed namespace. */
  lemma OrderedPass(env: Env, w: World)
    requires ReliableDeletes(env) && w.cr.Some? && WellFormed(w.objs)
    requires OrderedFor(env, C.NamespaceOf(w.cr.value.spec), Now(w)) && PastOrdered(w)
    ensures var ns := C.NamespaceOf(w.cr.value.spec); var w' := RunPass(env, w);
            && OrderedFor(env, ns, Now(w')) && PastOrdered(w') && WellFormed(w'.objs)
            && (w'.cr == w.cr || w'.cr == Some(w.cr.value.(deployedIn := ns)))
  {
    hide Guard;
    hide ReliableDeletes;
    hide OrderedFor;
    hide PastOrdered;
    hide C.Reconcile;
    hide WellFormed;
    var cr := w.cr.value;
    var ns := C.NamespaceOf(cr.spec);
    var I := (x: World) => OrderedFor(env, ns, Now(x)) && PastOrdered(x);
    forall x, who, call | I(x) && !x.crashed && WellFormed(x.objs) && Guard(env, cr, x, who, call)
      ensures I(Issue(env, who, x, call).w)
    {
      OrderedIssue(env, cr, x, who, call);
    }
    var w0 := w.(crashed := false);
    assert Now(w0) == Now(w);
    PastOrderedTrace(w0, w);
    PassKeeps(env, cr, I, w0);
  }

  lemma PastOrderedTrace(w: World, w': World)
    requires w.trace == w'.trace
    ensures PastOrdered(w) == PastOrdered(w')
  {
  }

  // ---- What the account stands for ----

  /** Once committed, the role is there; and an account in the committed namespace comes with the binding. */
  ghost predicate Provided(env: Env, s: Snapshot) {
    && Contained(env, s)
    && (s.cr.value.deployedIn != "" ==> GO.CLUSTER_ROLE_KEY in s.objs)
    && (s.cr.value.deployedIn != "" && GO.ServiceAccountKey(s.cr.value.deployedIn) in s.objs
        ==> BindingNames(s.objs, s.cr.value.deployedIn))
  }

  /** The account of the committed namespace is not created any more. */
  lemma AccountNotCreated(env: Env, cr: FlowCollector, w: World, who: Cluster.Component, o: Object)
    requires CreateGuard(env, cr, w, who, o) && w.cr.Some?
    ensures KeyOf(o) != GO.ServiceAccountKey(w.cr.value.deployedIn)
  {
    hide CreateGuard;
    hide Cleared;
    hide Classified;
    CreateClassified(env, cr, w, who, o);
    ClassifiedKinds(env, cr, w, o);
  }

  lemma ClassifiedKinds(env: Env, cr: FlowCollector, w: World, o: Object)
    requires Classified(env, cr, w, o)
    ensures KeyOf(o).kind == ServiceAccounts && KeyOf(o).name == GOFLOW_KUBE ==>
              Moving(cr, w) && KeyOf(o).namespace == C.NamespaceOf(cr.spec)
  {
    NamesDiffer();
  }

  lemma BindingGrows(objs: Objects, objs': Objects, ns: string)
    requires BindingNames(objs, ns)
    requires forall k :: k in objs ==> k in objs' && objs'[k] == objs[k]
    ensures BindingNames(objs', ns)
  {
  }

  lemma ProvidedCreate(env: Env, cr: FlowCollector, w: World, o: Object, who: Cluster.Component)
    requires w.cr.Some? && Provided(env, Now(w)) && CreateGuard(env, cr, w, who, o)
    requires Contained(env, Now(Issue(env, who, w, Create(o)).w))
    ensures Provided(env, Now(Issue(env, who, w, Create(o)).w))
  {
    hide Contained;
    hide CreateGuard;
    hide BindingNames;
    CreateEffect(env, w, who, o);
    var objs, n := Issue(env, who, w, Create(o)).w.objs, w.cr.value.deployedIn;
    hide Issue;
    AccountNotCreated(env, cr, w, who, o);
    if n != "" && GO.ServiceAccountKey(n) in objs {
      BindingGrows(w.objs, objs, n);
    }
  }

  lemma ProvidedUpdate(env: Env, cr: FlowCollector, w: World, o: Object, who: Cluster.Component)
    requires ReliableDeletes(env) && Provided(env, Now(w)) && UpdateGuard(env, cr, w, who, o)
    requires Contained(env, Now(Issue(env, who, w, Update(o)).w))
    ensures Provided(env, Now(Issue(env, who, w, Update(o)).w))
  {
    UpdateEffect(env, w, who, o);
    hide Issue;
    if KeyOf(o) == GO.BINDING_KEY {
      BindingUpdate(env, cr, w, who, o);
    }
    hide UpdateGuard;
    hide Contained;
  }

  lemma ProvidedDelete(env: Env, cr: FlowCollector, w: World, k: Key, who: Cluster.Component)
    requires Provided(env, Now(w)) && DeleteGuard(env, cr, w, who, k)
    requires Contained(env, Now(Issue(env, who, w, Delete(k)).w))
    ensures Provided(env, Now(Issue(env, who, w, Delete(k)).w))
  {
    DeleteEffect(env, w, who, k);
    DeletedPermission(env, cr, w, who, k);
    hide Issue;
    hide DeleteGuard;
    hide Contained;
  }

  lemma ProvidedStep(env: Env, cr: FlowCollector, w: World, who: Cluster.Component, call: Call)
    requires ReliableDeletes(env) && Provided(env, Now(w)) && !w.crashed && WellFormed(w.objs)
    requires Guard(env, cr, w, who, call)
    ensures Provided(env, Now(Issue(env, who, w, call).w))
  {
    ContainedStep(env, cr, w, who, call);
    match call {
      case Create(o) =>
        ProvidedCreate(env, cr, w, o, who);
      case Update(o) =>
        ProvidedUpdate(env, cr, w, o, who);
      case Delete(k) =>
        ProvidedDelete(env, cr, w, k, who);
      case UpdateStatus(n) =>
        StatusEffect(env, w, who, n);
      case _ =>
        ReadEffect(env, w, who, call);
    }
    hide Issue;
    hide Contained;
    hide CreateGuard;
    hide UpdateGuard;
    hide DeleteGuard;
    hide Cleared;
  }

  lemma ProvidedClosed(env: Env, cr: FlowCollector)
    requires ReliableDeletes(env)
    ensures StepClosed(env, cr, (s: Snapshot) => Provided(env, s))
  {
    hide Guard;
    hide Provided;
    hide WellFormed;
    hide Issue;
    hide ReliableDeletes;
    var J := (s: Snapshot) => Provided(env, s);
    forall x, who, call | J(Now(x)) && !x.crashed && WellFormed(x.objs) && Guard(env, cr, x, who, call)
      ensures J(Now(Issue(env, who, x, call).w))
    {
      ProvidedStep(env, cr, x, who, call);
    }
  }

  lemma ProvidedEdit(env: Env, w: World, spec: Spec)
    requires Provided(env, Now(w))
    ensures Provided(env, Now(EditSpec(w, spec)))
  {
  }

  lemma ProvidedPass(env: Env, w: World)
    requires ReliableDeletes(env) && WellFormed(w.objs) && w.cr.Some? && Provided(env, Now(w))
    ensures Provided(env, Now(RunPass(env, w)))
  {
    hide Guard;
    hide Provided;
    hide WellFormed;
    hide ReliableDeletes;
    hide C.Reconcile;
    var cr := w.cr.value;
    var I := (x: World) => Provided(env, Now(x));
    forall x, who, call | I(x) && !x.crashed && WellFormed(x.objs) && Guard(env, cr, x, who, call)
      ensures I(Issue(env, who, x, call).w)
    {
      ProvidedStep(env, cr, x, who, call);
    }
    hide Issue;
    assert Now(w.(crashed := false)) == Now(w);
    PassKeeps(env, cr, I, w.(crashed := false));
  }

  // ---- Runs ----

  /** Whether a pass starts well: it moves to another namespace, or finds the account of the committed one. */
  predicate AccountThere(w: World) {
    w.cr.Some? ==>
      var ns := C.NamespaceOf(w.cr.value.spec);
      ns != w.cr.value.deployedIn || GO.ServiceAccountKey(ns) in w.objs
  }

  /** Every pass of the run starts well. */
  ghost predicate AccountsKept(env: Env, w: World, actions: seq<Action>)
    decreases |actions|
  {
    actions == []
      || ((actions[0].Pass? ==> AccountThere(w)) && AccountsKept(env, Act(env, w, actions[0]), actions[1..]))
  }

  ghost predicate InOrder(env: Env, w: World) {
    && w.cr.Some? && WellFormed(w.objs) && PastOrdered(w)
    && Ordered(w.objs) && Provided(env, Now(w))
  }

  lemma ReadyInOrder(env: Env, w: World)
    requires InOrder(env, w) && AccountThere(w)
    ensures OrderedFor(env, C.NamespaceOf(w.cr.value.spec), Now(w))
  {
    hide Contained;
    hide WellFormed;
    hide Ordered;
  }

  lemma InOrderAct(env: Env, w: World, a: Action)
    requires ReliableDeletes(env) && InOrder(env, w) && (a.Pass? ==> AccountThere(w))
    ensures InOrder(env, Act(env, w, a))
  {
    hide RunPass;
    hide ReliableDeletes;
    hide WellFormed;
    hide Ordered;
    if a.Pass? {
      ReadyInOrder(env, w);
      OrderedPass(env, w);
      ProvidedPass(env, w);
    } else {
      PastOrderedTrace(w, Act(env, w, a));
      ProvidedEdit(env, w, a.spec);
    }
    hide PastOrdered;
    hide Provided;
  }

  lemma {:induction false} InOrderRun(env: Env, w: World, actions: seq<Action>)
    requires ReliableDeletes(env) && InOrder(env, w) && AccountsKept(env, w, actions)
    ensures InOrder(env, Run(env, w, actions))
    decreases |actions|
  {
    hide Act;
    hide InOrder;
    hide ReliableDeletes;
    if actions == [] {
    } else {
      InOrderAct(env, w, actions[0]);
      InOrderRun(env, Act(env, w, actions[0]), actions[1..]);
    }
  }

  lemma FreshInOrder(env: Env, w: World)
    requires Fresh(w)
    ensures InOrder(env, w)
  {
    NamesDiffer();
  }

  /** With reliable deletes, in a run each pass of which moves to another namespace or finds the account of the
      committed one: at every call boundary, a collector in a namespace comes with the role, an account there, and a
      binding that names it. */
  lemma PermissionsFirst(env: Env, w: World, actions: seq<Action>)
    requires Fresh(w) && ReliableDeletes(env) && AccountsKept(env, w, actions)
    ensures var w' := Run(env, w, actions);
            Ordered(w'.objs) && forall i :: 0 <= i < |w'.trace| ==> Ordered(w'.trace[i].objs)
  {
    hide Run;
    hide AccountsKept;
    hide Provided;
    FreshInOrder(env, w);
    InOrderRun(env, w, actions);
  }

  // ---- When no namespace change is taken back ----

  /** A pass that targets another namespace than the committed one, and ends without committing it, leaves the change
      pending. The run never goes back to the committed namespace while a change is pending. */
  ghost predicate NoRevert(env: Env, w: World, actions: seq<Action>, pending: bool)
    decreases |actions|
  {
    actions == [] || w.cr.None? ||
    var w' := Act(env, w, actions[0]);
    var target, committed := C.NamespaceOf(w.cr.value.spec), w.cr.value.deployedIn;
    if actions[0].Edit? then NoRevert(env, w', actions[1..], pending)
    else
      && (pending ==> target != committed)
      && NoRevert(env, w', actions[1..], w'.cr.Some? && w'.cr.value.deployedIn != target)
  }

  /** In order, and with the account unless a change is pending. */
  ghost predicate Settling(env: Env, w: World, pending: bool) {
    && InOrder(env, w)
    && (w.cr.value.deployedIn != "" && !pending ==> GO.ServiceAccountKey(w.cr.value.deployedIn) in w.objs)
  }

  lemma SettlingAct(env: Env, w: World, a: Action, pending: bool)
    requires ReliableDeletes(env) && Settling(env, w, pending)
    requires a.Pass? && pending ==> C.NamespaceOf(w.cr.value.spec) != w.cr.value.deployedIn
    ensures var w' := Act(env, w, a);
            && (a.Pass? ==> AccountThere(w))
            && Settling(env, w', if a.Edit? then pending
                                 else w'.cr.Some? && w'.cr.value.deployedIn != C.NamespaceOf(w.cr.value.spec))
  {
    hide RunPass;
    hide ReliableDeletes;
    hide WellFormed;
    hide Ordered;
    hide PastOrdered;
    hide Contained;
    InOrderAct(env, w, a);
    if a.Pass? {
      ReadyInOrder(env, w);
      OrderedPass(env, w);
    }
    hide Provided;
  }

  /** Such a run only has passes that start well. */
  lemma {:induction false} NoRevertKeepsAccounts(env: Env, w: World, actions: seq<Action>, pending: bool)
    requires ReliableDeletes(env) && Settling(env, w, pending) && NoRevert(env, w, actions, pending)
    ensures AccountsKept(env, w, actions)
    decreases |actions|
  {
    hide Act;
    hide ReliableDeletes;
    hide AccountThere;
    if actions == [] {
    } else {
      SettlingAct(env, w, actions[0], pending);
      assert w.cr.Some?;
      hide Settling;
      var w' := Act(env, w, actions[0]);
      var pending' := if actions[0].Edit? then pending
                      else w'.cr.Some? && w'.cr.value.deployedIn != C.NamespaceOf(w.cr.value.spec);
      NoRevertKeepsAccounts(env, w', actions[1..], pending');
    }
  }

  /** With reliable deletes, when no failed change of namespace is taken back, permissions come first throughout. */
  lemma PermissionsUnlessReverted(env: Env, w: World, actions: seq<Action>)
    requires Fresh(w) && ReliableDeletes(env) && NoRevert(env, w, actions, false)
    ensures var w' := Run(env, w, actions);
            Ordered(w'.objs) && forall i :: 0 <= i < |w'.trace| ==> Ordered(w'.trace[i].objs)
  {
    FreshInOrder(env, w);
    assert Settling(env, w, false);
    NoRevertKeepsAccounts(env, w, actions, false);
    hide Run;
    hide NoRevert;
    PermissionsFirst(env, w, actions);
  }

}
