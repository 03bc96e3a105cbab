/** Where a retry does not recover: an install that stopped half-way, and a namespace change that was taken back. */
module Recovery {

  import opened Cluster
  import opened ClientHelper
  import opened Containment
  import opened Convergence
  import opened Effects
  import opened FlowCollectorTypes
  import opened Lifecycle
  import opened ObjectManager
  import Ownership
  import opened PassInduction
  import opened Permissions
  import opened Runs
  import opened Safety
  import opened Success
  import opened Wrappers
  import C = FlowCollectorController
  import GO = GoflowObjects
  import P = PluginReconciler

  // ---- A half-done install ----

  ghost predicate SameButNamespaces(objs: Objects, objs': Objects) {
    forall k: Key :: k.kind != Namespaces ==> Lookup(objs, k) == Lookup(objs', k)
  }

  /** Between the two worlds, nothing but Namespaces was ever written. */
  ghost predicate Still(w: World, w': World) {
    && SameButNamespaces(w.objs, w'.objs)
    && |w.trace| <= |w'.trace|
    && forall i :: |w.trace| <= i < |w'.trace| ==> SameButNamespaces(w.objs, w'.trace[i].objs)
  }

  lemma StillChain(w: World, w1: World, w2: World)
    requires Still(w, w1) && Still(w1, w2)
    requires w1.trace <= w2.trace
    ensures Still(w, w2)
  {
    forall i | |w.trace| <= i < |w2.trace| ensures SameButNamespaces(w.objs, w2.trace[i].objs) {
      if i < |w1.trace| {
        assert w2.trace[i] == w1.trace[i];
      }
    }
  }

  lemma StillCall(env: Env, w: World, who: Cluster.Component, call: Call)
    requires call.Get? || call.GetCollector?
        || (call.Create? && (KeyOf(call.obj).kind == Namespaces || KeyOf(call.obj) in w.objs))
    ensures var w' := Issue(env, who, w, call).w; Still(w, w') && w'.cr == w.cr && w.trace <= w'.trace
  {
    IssueTrace(env, w, who, call);
    if call.Create? {
      CreateEffect(env, w, who, call.obj);
    } else {
      ReadEffect(env, w, who, call);
    }
    hide Issue;
  }

  /** The role was created, the status was not committed. */
  predicate HalfInstalled(w: World) {
    w.cr.Some? && w.cr.value.deployedIn == "" && GO.CLUSTER_ROLE_KEY in w.objs
  }

  lemma RoleExists(env: Env, w: World, owner: string)
    requires GO.CLUSTER_ROLE_KEY in w.objs
    ensures var s := CreateOwned(env, w, owner, GO.BuildClusterRole());
            s.st.Err? && Still(w, s.w) && s.w.cr == w.cr && w.trace <= s.w.trace
  {
    var o := SetControllerReference(owner, GO.BuildClusterRole()).value;
    StillCall(env, w, Main, Create(o));
  }

  lemma InstallRefused(env: Env, w: World, owner: string, ns: string)
    requires GO.CLUSTER_ROLE_KEY in w.objs
    ensures var s := C.HandleNamespaceChanged(env, w, owner, ns, "");
            s.st.Err? && Still(w, s.w) && s.w.cr == w.cr && w.trace <= s.w.trace
  {
    RoleExists(env, w, owner);
    hide CreateOwned;
  }

  lemma NamespaceStill(env: Env, w: World, ns: string)
    ensures var s := C.EnsureNamespace(env, w, ns); Still(w, s.w) && s.w.cr == w.cr && w.trace <= s.w.trace
  {
    var w1 := Issue(env, Main, w, Get(C.NamespaceKey(ns))).w;
    StillCall(env, w, Main, Get(C.NamespaceKey(ns)));
    StillCall(env, w1, Main, Create(C.BuildNamespace(ns)));
    hide Issue;
    StillChain(w, w1, Issue(env, Main, w1, Create(C.BuildNamespace(ns))).w);
  }

  /** A pass over a half-done install fails, and writes nothing but its Namespace. */
  lemma HalfInstalledPass(env: Env, w: World)
    requires HalfInstalled(w)
    ensures var s := C.Reconcile(env, w);
            && Still(w, s.w) && s.w.cr == w.cr && w.trace <= s.w.trace
            && (!w.cr.value.deleting ==> s.st.Err?)
  {
    hide C.EnsureNamespace;
    hide C.HandleNamespaceChanged;
    hide C.ReconcileComponents;
    hide Still;
    var a := Issue(env, Main, w, GetCollector);
    StillCall(env, w, Main, GetCollector);
    CollectorReply(env, w);
    hide Issue;
    RoleStays(w, a.w);
    var cr := w.cr.value;
    var ns := C.NamespaceOf(cr.spec);
    NamespaceStill(env, a.w, ns);
    var s1 := C.EnsureNamespace(env, a.w, ns);
    StillChain(w, a.w, s1.w);
    RoleStays(w, s1.w);
    InstallRefused(env, s1.w, cr.name, ns);
    StillChain(w, s1.w, C.HandleNamespaceChanged(env, s1.w, cr.name, ns, "").w);
  }

  lemma RoleStays(w: World, w': World)
    requires Still(w, w') && GO.CLUSTER_ROLE_KEY in w.objs
    ensures GO.CLUSTER_ROLE_KEY in w'.objs
  {
    assert Lookup(w.objs, GO.CLUSTER_ROLE_KEY) == Lookup(w'.objs, GO.CLUSTER_ROLE_KEY);
  }

  /** A half-done install is never completed: whatever is edited and whatever fails or passes, no run of passes ever
      writes anything but Namespaces again, and in particular no workload. */
  lemma {:induction false} HalfInstalledForever(env: Env, w: World, actions: seq<Action>)
    requires HalfInstalled(w)
    ensures var w' := Run(env, w, actions); Still(w, w') && HalfInstalled(w') && w.trace <= w'.trace
    decreases |actions|
  {
    hide C.Reconcile;
    if actions == [] {
    } else {
      var w1 := Act(env, w, actions[0]);
      if actions[0].Pass? {
        HalfInstalledPass(env, w.(crashed := false));
        hide Still;
        RoleStays(w.(crashed := false), w1);
        StillRestart(w, w1);
      }
      HalfInstalledForever(env, w1, actions[1..]);
      StillChain(w, w1, Run(env, w1, actions[1..]));
    }
  }

  lemma StillRestart(w: World, w': World)
    requires Still(w.(crashed := false), w')
    ensures Still(w, w')
  {
  }

  // ---- A half-done move ----

  /** Another namespace is committed, and yet the target t has its account already. */
  predicate HalfMoved(w: World, t: string) {
    w.cr.Some? && w.cr.value.deployedIn !in {"", t} && GO.ServiceAccountKey(t) in w.objs
  }

  lemma CreateExisting(env: Env, w: World, owner: string, o: Object)
    requires KeyOf(o) in w.objs
    ensures var s := CreateOwned(env, w, owner, o); s.st.Err? && s.w.objs == w.objs && s.w.cr == w.cr
  {
    if SetControllerReference(owner, o).Some? {
      CreateEffect(env, w, Main, SetControllerReference(owner, o).value);
      RefusedReply(env, w, SetControllerReference(owner, o).value);
    }
    hide Issue;
  }

  lemma RefusedReply(env: Env, w: World, o: Object)
    requires KeyOf(o) in w.objs
    ensures Issue(env, Main, w, Create(o)).reply != Done
  {
  }

  lemma {:induction false} DeleteAllFrame(env: Env, w: World, keys: seq<Key>)
    ensures Frame(w, DeleteAll(env, w, keys), KeySet(keys))
    decreases |keys|
  {
    if keys == [] {
    } else {
      IssueObjects(env, w, Main, Delete(keys[0]));
      hide Issue;
      hide WellFormed;
      DeleteAllFrame(env, Issue(env, Main, w, Delete(keys[0])).w, keys[1..]);
    }
  }

  lemma MoveRefused(env: Env, w: World, owner: string, t: string, prev: string)
    requires GO.ServiceAccountKey(t) in w.objs && prev != "" && prev != t
    ensures var s := C.HandleNamespaceChanged(env, w, owner, t, prev);
            s.st.Err? && s.w.cr == w.cr && GO.ServiceAccountKey(t) in s.w.objs
  {
    hide Issue;
    hide WellFormed;
    hide CreateOwned;
    hide UpdateOwned;
    hide DeleteAll;
    hide GO.ManagedKeys;
    ManagedNames(prev);
    DeleteAllFrame(env, w, GO.ManagedKeys(prev));
    var w1 := DeleteAll(env, w, GO.ManagedKeys(prev));
    Unchanged(w, w1, KeySet(GO.ManagedKeys(prev)), GO.ServiceAccountKey(t));
    CreateExisting(env, w1, owner, GO.BuildServiceAccount(t));
  }

  /** A pass that targets the namespace of a half-done move fails and does not commit, whatever happens to its calls. */
  lemma HalfMovedPass(env: Env, w: World)
    requires w.cr.Some? && HalfMoved(w, C.NamespaceOf(w.cr.value.spec))
    ensures var s := C.Reconcile(env, w);
            && s.w.cr == w.cr && HalfMoved(s.w, C.NamespaceOf(w.cr.value.spec))
            && (!w.cr.value.deleting ==> s.st.Err?)
  {
    hide WellFormed;
    hide C.EnsureNamespace;
    hide C.HandleNamespaceChanged;
    hide C.ReconcileComponents;
    var cr, t := w.cr.value, C.NamespaceOf(w.cr.value.spec);
    var a := Issue(env, Main, w, GetCollector);
    CollectorReply(env, w);
    IssueObjects(env, w, Main, GetCollector);
    hide Issue;
    EntryFrame(env, a.w, t);
    var s1 := C.EnsureNamespace(env, a.w, t);
    Unchanged(a.w, s1.w, {C.NamespaceKey(t)}, GO.ServiceAccountKey(t));
    MoveRefused(env, s1.w, cr.name, t, cr.deployedIn);
  }

  /** A change of namespace that has stopped after it created the new account is as stuck as a half-done install: no run
      that keeps the target commits it, whatever is edited besides and whatever fails or passes. */
  lemma {:induction false} HalfMovedForever(env: Env, w: World, t: string, actions: seq<Action>)
    requires HalfMoved(w, t) && C.NamespaceOf(w.cr.value.spec) == t
    requires forall i :: 0 <= i < |actions| && actions[i].Edit? ==> C.NamespaceOf(actions[i].spec) == t
    ensures var w' := Run(env, w, actions); HalfMoved(w', t) && w'.cr.value.deployedIn == w.cr.value.deployedIn
    decreases |actions|
  {
    hide C.Reconcile;
    if actions == [] {
    } else {
      if actions[0].Pass? {
        HalfMovedPass(env, w.(crashed := false));
      }
      HalfMovedForever(env, Act(env, w, actions[0]), t, actions[1..]);
    }
  }

  // ---- One rejected call ----

  /** Every call passes but the writes of one object. */
  function Rejecting(env: Env, k: Key): Env {
    env.(faults := (who, n, call) =>
      if Target(call) == Some(k) && (call.Create? || call.Update?) then Reject else Fault.Pass)
  }

  lemma RejectingPasses(env: Env, k: Key)
    ensures PassesBut(Rejecting(env, k), {k}) && ReliableDeletes(Rejecting(env, k))
  {
    forall who, n, call | TargetSet(call) !! {k} ensures Rejecting(env, k).faults(who, n, call) == Fault.Pass {
      if Target(call) == Some(k) {
        assert k in TargetSet(call) && k in {k};
      }
    }
  }

  lemma CreateRejected(env: Env, w: World, owner: string, o: Object)
    requires !w.crashed && o.meta.controller == None
    ensures var s := CreateOwned(Rejecting(env, KeyOf(o)), w, owner, o);
            s.st.Err? && !s.w.crashed && s.w.objs == w.objs && s.w.cr == w.cr
  {
  }

  lemma UpdateRejected(env: Env, w: World, owner: string, o: Object)
    requires !w.crashed && o.meta.controller == None
    ensures var s := UpdateOwned(Rejecting(env, KeyOf(o)), w, owner, None, o);
            s.st.Err? && !s.w.crashed && s.w.objs == w.objs && s.w.cr == w.cr
  {
  }

  /** A change of namespace whose binding is rejected is half-done. */
  lemma RejectedBinding(env: Env, w: World)
    requires Live(w) && w.cr.value.deployedIn !in {"", C.NamespaceOf(w.cr.value.spec)}
    requires GO.ServiceAccountKey(C.NamespaceOf(w.cr.value.spec)) !in w.objs
    ensures var w' := C.Reconcile(Rejecting(env, GO.BINDING_KEY), w).w;
            HalfMoved(w', C.NamespaceOf(w.cr.value.spec)) && w'.cr == w.cr
  {
    hide WellFormed;
    hide C.EnsureNamespace;
    hide C.ReconcileComponents;
    hide CreateOwned;
    hide UpdateOwned;
    hide DeleteAll;
    hide GO.ManagedKeys;
    var cr := w.cr.value;
    var ns, prev, k := C.NamespaceOf(cr.spec), cr.deployedIn, GO.BINDING_KEY;
    var env' := Rejecting(env, k);
    RejectingPasses(env, k);
    EntryAnswered(env', {k}, w);
    var e := Entry(env', w, cr);
    Unchanged(w, e, {C.NamespaceKey(ns)}, GO.ServiceAccountKey(ns));
    hide Entry;
    hide Preparation;
    ManagedNames(prev);
    DeleteAllAnswered(env', {k}, e, GO.ManagedKeys(prev));
    var w1 := DeleteAll(env', e, GO.ManagedKeys(prev));
    Unchanged(e, w1, KeySet(GO.ManagedKeys(prev)), GO.ServiceAccountKey(ns));
    CreateAnswered(env', {k}, cr, w1, GO.BuildServiceAccount(ns));
    var s2 := CreateOwned(env', w1, cr.name, GO.BuildServiceAccount(ns));
    UpdateRejected(env, s2.w, cr.name, GO.BuildClusterRoleBinding(ns));
    hide Rejecting;
    hide C.Reconcile;
  }

  /** A first install whose account is rejected is half-done. */
  lemma RejectedInstall(env: Env, w: World)
    requires Fresh(w) && Live(w)
    ensures var w' := C.Reconcile(Rejecting(env, GO.ServiceAccountKey(C.NamespaceOf(w.cr.value.spec))), w).w;
            HalfInstalled(w') && w'.cr == w.cr
  {
    hide WellFormed;
    hide C.EnsureNamespace;
    hide C.ReconcileComponents;
    hide CreateOwned;
    var cr := w.cr.value;
    var ns := C.NamespaceOf(cr.spec);
    var k := GO.ServiceAccountKey(ns);
    var env' := Rejecting(env, k);
    RejectingPasses(env, k);
    hide Rejecting;
    EntryAnswered(env', {k}, w);
    var e := Entry(env', w, cr);
    hide C.Reconcile;
    hide Entry;
    hide Preparation;
    NamesDiffer();
    Unchanged(w, e, {C.NamespaceKey(ns)}, GO.CLUSTER_ROLE_KEY);
    CreateAnswered(env', {k}, cr, e, GO.BuildClusterRole());
    var s1 := CreateOwned(env', e, cr.name, GO.BuildClusterRole());
    CreateRejected(env, s1.w, cr.name, GO.BuildServiceAccount(ns));
  }

  // ---- A namespace change that was taken back ----

  /** A pass in the committed namespace does not restore a missing account, whatever fails; and yet, if it succeeds, it
      has brought up a collector. */
  lemma AccountNotRestored(env: Env, w: World)
    requires Live(w) && w.cr.value.deployedIn == C.NamespaceOf(w.cr.value.spec)
    requires GO.ServiceAccountKey(w.cr.value.deployedIn) !in w.objs
    ensures var s, ns := C.Reconcile(env, w), w.cr.value.deployedIn;
            && GO.ServiceAccountKey(ns) !in s.w.objs
            && (s.st.Ok? ==> HasCollector(s.w.objs, ns) && !Ordered(s.w.objs))
  {
    hide WellFormed;
    hide C.EnsureNamespace;
    hide C.ReconcileComponents;
    hide PluginUpToDate;
    hide Present;
    hide OthersGone;
    var cr := w.cr.value;
    var ns := cr.deployedIn;
    PassSettles(env, w);
    var a := Issue(env, Main, w, GetCollector);
    CollectorReply(env, w);
    IssueObjects(env, w, Main, GetCollector);
    hide Issue;
    EntryFrame(env, a.w, ns);
    var s1 := C.EnsureNamespace(env, a.w, ns);
    ComponentsFrame(env, cr, s1.w, ns);
    var s := C.Reconcile(env, w);
    assert Lookup(s.w.objs, GO.ServiceAccountKey(ns)) == Lookup(w.objs, GO.ServiceAccountKey(ns));
    if s.st.Ok? {
      PresentHasCollector(cr, s.w.objs, ns);
      assert !Permitted(s.w.objs, ns);
    }
  }

  lemma PresentHasCollector(cr: FlowCollector, objs: Objects, ns: string)
    requires Present(cr, objs, ns)
    ensures HasCollector(objs, ns)
  {
    hide GO.ConfigDigest;
    hide GO.BuildConfigMap;
  }

  lemma EntryFrame(env: Env, w: World, ns: string)
    ensures Frame(w, C.EnsureNamespace(env, w, ns).w, {C.NamespaceKey(ns)})
  {
    hide WellFormed;
    var w1 := Issue(env, Main, w, Get(C.NamespaceKey(ns))).w;
    IssueObjects(env, w, Main, Get(C.NamespaceKey(ns)));
    FrameOfWrite(env, w1, Main, C.BuildNamespace(ns));
    hide Issue;
  }

  /** A change of namespace whose account is rejected has already deleted the account of the namespace it leaves. */
  lemma RejectedMove(env: Env, w: World)
    requires Live(w) && w.cr.value.deployedIn != "" && w.cr.value.deployedIn != C.NamespaceOf(w.cr.value.spec)
    ensures var cr := w.cr.value;
            var w' := C.Reconcile(Rejecting(env, GO.ServiceAccountKey(C.NamespaceOf(cr.spec))), w).w;
            && Live(w') && w'.cr == w.cr && GO.ServiceAccountKey(cr.deployedIn) !in w'.objs
  {
    hide WellFormed;
    hide C.EnsureNamespace;
    hide C.ReconcileComponents;
    hide CreateOwned;
    hide DeleteAll;
    hide GO.ManagedKeys;
    var cr := w.cr.value;
    var ns, prev := C.NamespaceOf(cr.spec), cr.deployedIn;
    var k := GO.ServiceAccountKey(ns);
    var env' := Rejecting(env, k);
    RejectingPasses(env, k);
    EntryAnswered(env', {k}, w);
    var e := Entry(env', w, cr);
    hide Entry;
    hide Preparation;
    ManagedNames(prev);
    MovedAccounts(prev);
    DeleteAllAnswered(env', {k}, e, GO.ManagedKeys(prev));
    CreateRejected(env, DeleteAll(env', e, GO.ManagedKeys(prev)), cr.name, GO.BuildServiceAccount(ns));
    hide Rejecting;
    hide C.Reconcile;
  }

  /** Install, ask for another namespace, fail to move there, take the request back, reconcile. */
  function Revert(spec: Spec, other: string): seq<Action> {
    [Action.Pass, Edit(spec.(namespace := other)), Action.Pass, Edit(spec)]
  }

  lemma RunStep(env: Env, w: World, a: Action, rest: seq<Action>)
    ensures Run(env, w, [a] + rest) == Run(env, Act(env, w, a), rest)
  {
    assert ([a] + rest)[1..] == rest;
  }

  lemma {:induction false} RunAppend(env: Env, w: World, xs: seq<Action>, ys: seq<Action>)
    ensures Run(env, w, xs + ys) == Run(env, Run(env, w, xs), ys)
    decreases |xs|
  {
    hide Act;
    if xs == [] {
      assert xs + ys == ys;
    } else {
      assert (xs + ys)[1..] == xs[1..] + ys;
      RunAppend(env, Act(env, w, xs[0]), xs[1..], ys);
    }
  }

  lemma RevertRun(env: Env, w: World, spec: Spec, other: string)
    ensures Run(env, w, Revert(spec, other))
         == EditSpec(RunPass(env, EditSpec(RunPass(env, w), spec.(namespace := other))), spec)
  {
    hide RunPass;
    var w1 := RunPass(env, w);
    var w2 := EditSpec(w1, spec.(namespace := other));
    var w3 := RunPass(env, w2);
    var rest := [Action.Pass, Edit(spec)];
    assert Revert(spec, other) == [Action.Pass] + ([Edit(spec.(namespace := other))] + rest);
    assert rest == [Action.Pass] + [Edit(spec)] && [Edit(spec)] == [Edit(spec)] + [];
    RunStep(env, w, Action.Pass, [Edit(spec.(namespace := other))] + rest);
    RunStep(env, w1, Edit(spec.(namespace := other)), rest);
    RunStep(env, w2, Action.Pass, [Edit(spec)]);
    RunStep(env, w3, Edit(spec), []);
  }

  /** A first install into another namespace than the broken one goes through. */
  lemma FirstPass(e: Env, w: World, other: string)
    requires Fresh(w) && Live(w) && other != "" && other != C.NamespaceOf(w.cr.value.spec)
    ensures var w' := RunPass(Rejecting(e, GO.ServiceAccountKey(other)), w);
            Live(w') && w'.cr == Some(w.cr.value.(deployedIn := C.NamespaceOf(w.cr.value.spec)))
  {
    var k := GO.ServiceAccountKey(other);
    var env := Rejecting(e, k);
    hide C.Reconcile;
    hide WellFormed;
    hide ServiceBlocked;
    assert Uninstalled(env, w.objs, C.NamespaceOf(w.cr.value.spec)) by { NamesDiffer(); }
    hide Fresh;
    RejectingPasses(e, k);
    hide Rejecting;
    OtherKeysPass(w.cr.value, other);
    assert w.(crashed := false) == w;
    PassAnswered(env, {k}, w);
  }

  /** The state in which the last pass of such a run starts. */
  lemma RevertedState(e: Env, w: World, other: string)
    requires Fresh(w) && Live(w) && other != "" && other != C.NamespaceOf(w.cr.value.spec)
    ensures var env, spec := Rejecting(e, GO.ServiceAccountKey(other)), w.cr.value.spec;
            var w' := Run(env, w, Revert(spec, other)); var ns := C.NamespaceOf(spec);
            && Live(w') && w'.cr == Some(w.cr.value.(deployedIn := ns)) && GO.ServiceAccountKey(ns) !in w'.objs
  {
    var env, spec := Rejecting(e, GO.ServiceAccountKey(other)), w.cr.value.spec;
    hide WellFormed;
    hide Rejecting;
    FirstPass(e, w, other);
    hide Fresh;
    hide C.Reconcile;
    var w2 := EditSpec(RunPass(env, w), spec.(namespace := other));
    RejectedMove(e, w2);
    assert w2.(crashed := false) == w2;
    RevertRun(env, w, spec, other);
    hide Run;
  }

  lemma OtherKeysPass(cr: FlowCollector, other: string)
    requires other != C.NamespaceOf(cr.spec) && other != cr.deployedIn
    ensures PassKeys(cr) !! {GO.ServiceAccountKey(other)}
  {
    hide GO.ManagedKeys;
    hide P.ManagedKeys;
    ManagedNames(cr.deployedIn);
  }

  /** The side condition of PermissionsFirst is necessary: from any fresh cluster, with reliable deletes and a single
      rejected call, taking a namespace change back ends in a pass that succeeds and leaves a collector without the
      account it needs. */
  lemma RevertBreaksOrder(e: Env, w: World, other: string)
    requires Fresh(w) && Live(w) && ValidKind(w.cr.value.spec)
    requires other != "" && other != C.NamespaceOf(w.cr.value.spec)
    ensures var env, spec := Rejecting(e, GO.ServiceAccountKey(other)), w.cr.value.spec;
            var s := NextPass(env, w, Revert(spec, other)); var ns := C.NamespaceOf(spec);
            && ReliableDeletes(env) && Succeeded(s)
            && HasCollector(s.w.objs, ns) && GO.ServiceAccountKey(ns) !in s.w.objs && !Ordered(s.w.objs)
            && !AccountsKept(env, w, Revert(spec, other) + [Action.Pass])
  {
    hide C.Reconcile;
    hide WellFormed;
    hide Ordered;
    hide HasCollector;
    hide Revert;
    hide ServiceBlocked;
    hide Ready;
    var k := GO.ServiceAccountKey(other);
    var env, spec := Rejecting(e, k), w.cr.value.spec;
    RevertedState(e, w, other);
    RejectingPasses(e, k);
    NotBlocked(env, w, Revert(spec, other));
    var w' := Run(env, w, Revert(spec, other));
    hide Run;
    hide Rejecting;
    assert w'.(crashed := false) == w';
    OtherKeysPass(w'.cr.value, other);
    ReadyStatus(env, w'.cr.value, w'.objs);
    PassAnswered(env, {k}, w');
    AccountNotRestored(env, w');
    if AccountsKept(env, w, Revert(spec, other) + [Action.Pass]) {
      FreshOrder(env, w, Revert(spec, other) + [Action.Pass]);
      RunAppend(env, w, Revert(spec, other), [Action.Pass]);
      RunOne(env, w');
      assert false;
    }
  }

  lemma RunOne(env: Env, w: World)
    ensures Run(env, w, [Action.Pass]) == C.Reconcile(env, w.(crashed := false)).w
  {
    hide C.Reconcile;
    RunStep(env, w, Action.Pass, []);
    assert [Action.Pass] + [] == [Action.Pass];
  }

  lemma FreshOrder(env: Env, w: World, actions: seq<Action>)
    requires Fresh(w) && ReliableDeletes(env) && AccountsKept(env, w, actions)
    ensures Ordered(Run(env, w, actions).objs)
  {
    PermissionsFirst(env, w, actions);
  }

  // ---- The way out ----

  /** The collector's resource was deleted, the server collected what it controls, and it was created anew. */
  function Recreate(w: World, name: string, cr: FlowCollector): World {
    w.(objs := Ownership.Collect(w.objs, name), cr := Some(cr), crashed := false, trace := [])
  }

  /** After any run whatever, half-done installs and failed moves included, deleting the resource and creating it anew
      is a fresh start: all that holds of runs from a fresh cluster holds again. */
  lemma Reinstall(env: Env, w: World, actions: seq<Action>, cr: FlowCollector)
    requires Fresh(w) && cr.deployedIn == ""
    ensures Fresh(Recreate(Run(env, w, actions), w.cr.value.name, cr))
  {
    var name := w.cr.value.name;
    var w' := Run(env, w, actions);
    Ownership.CollectLeavesNamespaces(env, w, actions);
    RunWellFormed(env, w, actions);
    hide Run;
    var objs := Ownership.Collect(w'.objs, name);
    forall k | k in objs && k.kind != Namespaces ensures k.name !in {GOFLOW_KUBE, GO.CONFIG_MAP, P.PLUGIN} {
      assert k in w.objs;
    }
  }

  lemma RunWellFormed(env: Env, w: World, actions: seq<Action>)
    requires w.cr.Some? && WellFormed(w.objs)
    ensures WellFormed(Run(env, w, actions).objs)
  {
    hide WellFormed;
    var I := (x: World) => true;
    forall cr: FlowCollector ensures Closed(env, cr, I) {
      TrivialClosed(env, cr);
    }
    hide Closed;
    RunHolds(env, SpecsOf(w, actions), w.cr.value.name, I, w, actions);
  }

}
