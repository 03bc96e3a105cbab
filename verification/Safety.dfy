/** Every call of a reconciliation is guarded: an induction principle over the API calls of one pass, under any
    faults. A property of the world that guarded calls keep holds at every call boundary of the pass. */
module Safety {

  import opened Cluster
  import opened ClientHelper
  import opened FlowCollectorController
  import opened FlowCollectorTypes
  import opened ObjectManager
  import opened Wrappers
  import F = FlowsConfig
  import GO = GoflowObjects
  import P = PluginReconciler

  /** Objects are stored under their own key. */
  ghost predicate WellFormed(objs: Objects) {
    forall k :: k in objs ==> KeyOf(objs[k]) == k
  }

  /** The last Delete sent for the key was answered with an error. */
  ghost predicate LastDeleteFailed(trace: seq<Event>, k: Key) {
    trace != [] &&
    var last := trace[|trace| - 1];
    if last.call == Delete(k) then last.reply == Failed else LastDeleteFailed(trace[..|trace| - 1], k)
  }

  /** The key is gone, or at least the operator's last attempt to delete it failed. */
  ghost predicate ClearedIn(env: Env, objs: Objects, trace: seq<Event>, k: Key) {
    k in objs ==> !ReliableDeletes(env) && LastDeleteFailed(trace, k)
  }

  ghost predicate Cleared(env: Env, w: World, k: Key) {
    ClearedIn(env, w.objs, w.trace, k)
  }

  ghost predicate AllCleared(env: Env, w: World, keys: seq<Key>) {
    forall i :: 0 <= i < |keys| ==> Cleared(env, w, keys[i])
  }

  function Own(cr: FlowCollector, o: Object): Object {
    o.(meta := o.meta.(controller := Some(cr.name)))
  }

  function Unversioned(o: Object): Object {
    o.(meta := o.meta.(resourceVersion := 0))
  }

  // ---- The two phases of a pass ----

  ghost predicate Moving(cr: FlowCollector, w: World) {
    w.cr == Some(cr) && cr.deployedIn != NamespaceOf(cr.spec)
  }

  ghost predicate Working(cr: FlowCollector, w: World) {
    w.cr == Some(cr.(deployedIn := NamespaceOf(cr.spec)))
  }

  // ---- What each call may do ----

  /** The goflow-kube objects, as this pass builds them for its namespace. */
  ghost predicate GoflowObject(env: Env, cr: FlowCollector, w: World, o: Object) {
    var ns, gf, loki := NamespaceOf(cr.spec), cr.spec.goflowKube, cr.spec.loki;
    var digest := GO.ConfigDigest(gf, loki);
    var deployment, daemonSet := gf.kind == DEPLOYMENT_KIND, gf.kind == DAEMON_SET_KIND;
    || o == Own(cr, GO.BuildConfigMap(gf, loki, ns))
    || (deployment && Cleared(env, w, GO.DaemonSetKey(ns)) && o == Own(cr, GO.BuildDeployment(gf, ns, digest)))
    || (deployment && gf.hpa.Some? && o == Own(cr, GO.BuildAutoscaler(gf.hpa.value, ns)))
    || (daemonSet && Cleared(env, w, GO.DeploymentKey(ns)) && Cleared(env, w, GO.ServiceKey(ns))
        && Cleared(env, w, GO.AutoscalerKey(ns)) && o == Own(cr, GO.BuildDaemonSet(gf, ns, digest)))
  }

  /** The console plugin objects, as this pass builds them for its namespace. */
  ghost predicate PluginObject(cr: FlowCollector, o: Object) {
    var ns, loki, p := NamespaceOf(cr.spec), cr.spec.loki, cr.spec.consolePlugin;
    || o == Own(cr, P.BuildConsolePlugin(p, ns))
    || o == Own(cr, P.BuildDeployment(p, loki, ns))
  }

  ghost predicate ComponentObject(env: Env, cr: FlowCollector, w: World, o: Object) {
    GoflowObject(env, cr, w, o) || (env.consoleEnabled && PluginObject(cr, o))
  }

  /** The Services, built from the one in place when there is one. */
  ghost predicate ServiceOf(env: Env, cr: FlowCollector, previous: Option<Object>, o: Object) {
    var ns := NamespaceOf(cr.spec);
    || (cr.spec.goflowKube.kind == DEPLOYMENT_KIND && KeyOf(o) == GO.ServiceKey(ns)
        && o == Own(cr, GO.BuildService(previous, cr.spec.goflowKube, ns)))
    || (env.consoleEnabled && KeyOf(o) == P.ServiceKey(ns)
        && o == Own(cr, P.BuildService(previous, cr.spec.consolePlugin, ns)))
  }

  ghost predicate OvsConfigMap(cr: FlowCollector, o: Object) {
    exists fc :: o == F.BuildOvsConfigMap(cr.name, fc, cr.spec.cnoNamespace)
  }

  ghost predicate CreateGuard(env: Env, cr: FlowCollector, w: World, who: Component, o: Object) {
    var ns, prev := NamespaceOf(cr.spec), cr.deployedIn;
    var firstInstall := prev == "";
    if who == Ovs then Working(cr, w) && OvsConfigMap(cr, o)
    else
      || o == BuildNamespace(ns)
      || (Moving(cr, w) && (
        || (firstInstall && o == Own(cr, GO.BuildClusterRole()))
        || (o == Own(cr, GO.BuildServiceAccount(ns)) && (firstInstall ==> GO.CLUSTER_ROLE_KEY in w.objs))
        || (firstInstall && o == Own(cr, GO.BuildClusterRoleBinding(ns)))
        || (env.consoleEnabled && o == Own(cr, P.BuildServiceAccount(ns)))))
      || (Working(cr, w) && (ComponentObject(env, cr, w, o) || ServiceOf(env, cr, None, o)))
  }

  ghost predicate UpdateGuard(env: Env, cr: FlowCollector, w: World, who: Component, o: Object) {
    var k := KeyOf(o);
    && (o.meta.resourceVersion != 0 ==> k in w.objs && o.meta.resourceVersion == w.objs[k].meta.resourceVersion)
    && if who == Ovs then Working(cr, w) && OvsConfigMap(cr, o)
       else
         || (Moving(cr, w) && cr.deployedIn != "" && o == Own(cr, GO.BuildClusterRoleBinding(NamespaceOf(cr.spec)))
             && AllCleared(env, w, GO.ManagedKeys(cr.deployedIn)))
         || (Working(cr, w) && k in w.objs
             && (ComponentObject(env, cr, w, Unversioned(o)) || ServiceOf(env, cr, Some(w.objs[k]), o)))
  }

  ghost predicate DeleteGuard(env: Env, cr: FlowCollector, w: World, who: Component, k: Key) {
    var ns, prev, gf := NamespaceOf(cr.spec), cr.deployedIn, cr.spec.goflowKube;
    && who == Main
    && (|| (Moving(cr, w) && prev != "" && k in GO.ManagedKeys(prev)
            && (k == GO.ServiceAccountKey(prev) ==>
                  Cleared(env, w, GO.DeploymentKey(prev)) && Cleared(env, w, GO.DaemonSetKey(prev))))
        || (Moving(cr, w) && prev != "" && env.consoleEnabled && k in P.ManagedKeys(prev))
        || (Working(cr, w) && gf.kind == DEPLOYMENT_KIND && k == GO.DaemonSetKey(ns))
        || (Working(cr, w) && gf.kind == DEPLOYMENT_KIND && gf.hpa.None? && k == GO.AutoscalerKey(ns))
        || (Working(cr, w) && gf.kind == DAEMON_SET_KIND
            && k in {GO.DeploymentKey(ns), GO.ServiceKey(ns), GO.AutoscalerKey(ns)}))
  }

  /** Which namespace the binding grants the role in. */
  ghost predicate BindingNames(objs: Objects, ns: string) {
    && GO.BINDING_KEY in objs
    && objs[GO.BINDING_KEY].body == ClusterRoleBinding(GOFLOW_KUBE, GOFLOW_KUBE, ns)
  }

  ghost predicate StatusGuard(env: Env, cr: FlowCollector, w: World, who: Component, n: string) {
    var ns, prev := NamespaceOf(cr.spec), cr.deployedIn;
    && who == Main && n == ns && Moving(cr, w)
    && (prev != "" ==> AllCleared(env, w, GO.ManagedKeys(prev)))
    && (prev != "" && env.consoleEnabled ==> AllCleared(env, w, P.ManagedKeys(prev)))
    && (prev == "" ==> GO.CLUSTER_ROLE_KEY in w.objs)
    && GO.ServiceAccountKey(ns) in w.objs
    && BindingNames(w.objs, ns)
  }

  /** When the operator, reconciling cr, may send a call. */
  ghost predicate Guard(env: Env, cr: FlowCollector, w: World, who: Component, call: Call) {
    match call
    case Get(_) => true
    case GetCollector => true
    case Create(o) => CreateGuard(env, cr, w, who, o)
    case Update(o) => UpdateGuard(env, cr, w, who, o)
    case Delete(k) => DeleteGuard(env, cr, w, who, k)
    case UpdateStatus(n) => StatusGuard(env, cr, w, who, n)
  }

  /** Guarded calls keep I. */
  ghost predicate Closed(env: Env, cr: FlowCollector, I: World -> bool) {
    forall w, who, call ::
      I(w) && !w.crashed && WellFormed(w.objs) && Guard(env, cr, w, who, call) ==> I(Issue(env, who, w, call).w)
  }

  // ---- One call ----

  function Target(call: Call): Option<Key> {
    match call
    case Create(o) => Some(KeyOf(o))
    case Update(o) => Some(KeyOf(o))
    case Delete(k) => Some(k)
    case _ => None
  }

  /** Nothing but the given keys may differ. */
  ghost predicate Frame(w: World, w': World, keys: set<Key>) {
    && w'.cr == w.cr
    && (WellFormed(w.objs) ==> WellFormed(w'.objs))
    && (w.crashed ==> w'.crashed)
    && forall k :: k !in keys ==> Lookup(w.objs, k) == Lookup(w'.objs, k)
  }

  /** Like Frame; moreover no key but the given ones stops being cleared. */
  ghost predicate FrameC(env: Env, w: World, w': World, keys: set<Key>) {
    && Frame(w, w', keys)
    && forall k :: k !in keys && Cleared(env, w, k) ==> Cleared(env, w', k)
  }

  lemma AppendDelete(trace: seq<Event>, e: Event, k: Key)
    ensures LastDeleteFailed(trace + [e], k)
         == if e.call == Delete(k) then e.reply == Failed else LastDeleteFailed(trace, k)
  {
    assert (trace + [e])[..|trace|] == trace;
  }

  function TargetSet(call: Call): set<Key> {
    if Target(call).Some? then {Target(call).value} else {}
  }

  lemma ServeFrame(w: World, call: Call)
    requires !call.UpdateStatus?
    ensures Frame(w, Serve(w, call).w, TargetSet(call))
    ensures Serve(w, call).w.trace == w.trace
  {
  }

  lemma RecordFrame(w: World, x: World, who: Component, call: Call, reply: Reply, keys: set<Key>)
    requires Frame(w, x, keys)
    ensures Frame(w, Record(who, x, call, reply).w, keys)
  {
    hide WellFormed;
  }

  lemma CrashFrame(w: World, who: Component, keys: set<Key>)
    ensures Frame(w, w, keys) && Frame(w, Tick(who, w).(crashed := true), keys)
  {
    hide WellFormed;
  }

  lemma IssueObjects(env: Env, w: World, who: Component, call: Call)
    requires !call.UpdateStatus?
    ensures Frame(w, Issue(env, who, w, call).w, TargetSet(call))
  {
    var keys, a := TargetSet(call), Serve(w, call);
    ServeFrame(w, call);
    hide Serve;
    CrashFrame(w, who, keys);
    RecordFrame(w, w, who, call, Failed, keys);
    RecordFrame(w, a.w, who, call, Failed, keys);
    RecordFrame(w, a.w, who, call, a.reply, keys);
    hide Frame;
    hide Record;
    hide TargetSet;
  }

  /** A call adds at most one event, about itself. */
  lemma IssueTrace(env: Env, w: World, who: Component, call: Call)
    ensures var a := Issue(env, who, w, call);
            a.w.trace == w.trace
            || exists reply :: a.w.trace == w.trace + [Event(who, call, reply, a.w.objs, a.w.cr)]
  {
    hide Serve;
    var a := Issue(env, who, w, call);
    var t := Serve(w, call).w.trace;
    TraceOfServe(w, call);
    if a.w.trace != w.trace {
      var e := a.w.trace[|w.trace|];
      assert a.w.trace == w.trace + [Event(who, call, e.reply, a.w.objs, a.w.cr)];
    }
  }

  lemma TraceOfServe(w: World, call: Call)
    ensures Serve(w, call).w.trace == w.trace
  {
  }

  lemma IssueFrame(env: Env, w: World, who: Component, call: Call)
    requires !call.UpdateStatus?
    ensures FrameC(env, w, Issue(env, who, w, call).w, TargetSet(call))
  {
    IssueObjects(env, w, who, call);
    IssueTrace(env, w, who, call);
    hide Issue;
    var w' := Issue(env, who, w, call).w;
    forall k | k !in TargetSet(call) && Cleared(env, w, k)
      ensures Cleared(env, w', k)
    {
      assert Lookup(w.objs, k) == Lookup(w'.objs, k);
      if w'.trace != w.trace {
        AppendDelete(w.trace, w'.trace[|w.trace|], k);
      }
    }
  }

  lemma GetReply(env: Env, w: World, who: Component, k: Key)
    ensures var a := Issue(env, who, w, Get(k));
            && a.w.objs == w.objs
            && (a.reply.Found? ==> Lookup(w.objs, k) == Some(a.reply.obj) && !a.w.crashed)
            && (a.reply.NotFound? ==> k !in w.objs && !a.w.crashed)
            && (a.reply.Found? || a.reply.NotFound? || a.reply.Failed?)
  {
  }

  lemma DeleteClears(env: Env, w: World, who: Component, k: Key)
    ensures var w' := Issue(env, who, w, Delete(k)).w; w'.crashed || Cleared(env, w', k)
  {
    var w' := Issue(env, who, w, Delete(k)).w;
    if !w'.crashed {
      AppendDelete(w.trace, w'.trace[|w.trace|], k);
    }
  }

  lemma Send(env: Env, cr: FlowCollector, I: World -> bool, w: World, who: Component, call: Call)
    requires Closed(env, cr, I) && I(w) && WellFormed(w.objs)
    requires w.crashed || Guard(env, cr, w, who, call)
    ensures I(Issue(env, who, w, call).w)
  {
    if w.crashed {
      CrashedIssue(env, w, who, call);
    }
  }

  lemma CrashedIssue(env: Env, w: World, who: Component, call: Call)
    requires w.crashed
    ensures Issue(env, who, w, call) == Answer(w, Failed)
  {
  }

  // ---- The helpers ----

  /** The object is stored, up to what the server assigns. */
  ghost predicate Stored(w: World, o: Object) {
    Lookup(w.objs, KeyOf(o)).Some? && Strip(w.objs[KeyOf(o)]) == Strip(o)
  }

  lemma WriteDone(env: Env, w: World, who: Component, o: Object)
    ensures var a := Issue(env, who, w, Create(o)); a.reply == Done ==> Stored(a.w, o) && !a.w.crashed
    ensures var a := Issue(env, who, w, Update(o)); a.reply == Done ==> Stored(a.w, o) && !a.w.crashed
  {
  }

  /** What a write to one key leaves behind. */
  ghost predicate Wrote(env: Env, I: World -> bool, w: World, s: Step, o: Object) {
    && I(s.w) && WellFormed(s.w.objs)
    && FrameC(env, w, s.w, {KeyOf(o)})
    && (s.st.Ok? ==> Stored(s.w, o) && !s.w.crashed)
  }

  lemma CreateKeeps(env: Env, cr: FlowCollector, I: World -> bool, w: World, o: Object)
    requires Closed(env, cr, I) && I(w) && WellFormed(w.objs)
    requires o.meta.controller == None
    requires w.crashed || CreateGuard(env, cr, w, Main, Own(cr, o))
    ensures Wrote(env, I, w, CreateOwned(env, w, cr.name, o), Own(cr, o))
  {
    var call := Create(Own(cr, o));
    Send(env, cr, I, w, Main, call);
    IssueFrame(env, w, Main, call);
    WriteDone(env, w, Main, Own(cr, o));
    hide Issue;
  }

  lemma UpdateKeeps(env: Env, cr: FlowCollector, I: World -> bool, w: World, previous: Option<Object>, o: Object)
    requires Closed(env, cr, I) && I(w) && WellFormed(w.objs)
    requires w.crashed || UpdateGuard(env, cr, w, Main, Own(cr, WithVersionOf(previous, o)))
    ensures var s := UpdateOwned(env, w, cr.name, previous, o);
            Wrote(env, I, w, s, Own(cr, o)) && !(s.st == Err(AlreadyOwned) && o.meta.controller == None)
  {
    var v := WithVersionOf(previous, o);
    if SetControllerReference(cr.name, v).Some? {
      var call := Update(Own(cr, v));
      Send(env, cr, I, w, Main, call);
      IssueFrame(env, w, Main, call);
      WriteDone(env, w, Main, Own(cr, v));
    }
    hide Issue;
  }

  lemma TryDeleteKeeps(env: Env, cr: FlowCollector, I: World -> bool, w: World, fetched: Option<Object>, k: Key)
    requires Closed(env, cr, I) && I(w) && WellFormed(w.objs)
    requires fetched == Lookup(w.objs, k)
    requires w.crashed || DeleteGuard(env, cr, w, Main, k)
    ensures var w' := TryDelete(env, w, fetched);
            I(w') && FrameC(env, w, w', {k}) && (w'.crashed || Cleared(env, w', k))
  {
    if fetched.Some? {
      Send(env, cr, I, w, Main, Delete(k));
      IssueFrame(env, w, Main, Delete(k));
      DeleteClears(env, w, Main, k);
    }
    hide Issue;
  }

  lemma {:induction false} FetchAllKeeps(env: Env, cr: FlowCollector, I: World -> bool, w: World, keys: seq<Key>)
    requires Closed(env, cr, I) && I(w) && WellFormed(w.objs)
    ensures var f := FetchAll(env, w, keys);
            && I(f.w) && FrameC(env, w, f.w, {}) && f.w.objs == w.objs
            && (forall i :: 0 <= i < |f.found| ==> f.found[i] == Lookup(w.objs, keys[i]))
    decreases |keys|
  {
    if keys == [] {
    } else {
      var a := Issue(env, Main, w, Get(keys[0]));
      Send(env, cr, I, w, Main, Get(keys[0]));
      IssueFrame(env, w, Main, Get(keys[0]));
      GetReply(env, w, Main, keys[0]);
      hide Issue;
      hide WellFormed;
      FetchAllKeeps(env, cr, I, a.w, keys[1..]);
    }
  }

  /** In the state of w, and once `done` is cleared, the keys may be deleted. */
  ghost predicate MayDelete(
      env: Env, cr: FlowCollector, status: Option<FlowCollector>, done: set<Key>, keys: seq<Key>)
  {
    forall k, w: World ::
      k in keys && w.cr == status && (forall d :: d in done ==> Cleared(env, w, d)) ==> DeleteGuard(env, cr, w, Main, k)
  }

  /** What a series of deletions leaves behind. */
  ghost predicate Deleted(env: Env, I: World -> bool, w: World, w': World, keys: set<Key>) {
    && I(w')
    && FrameC(env, w, w', keys)
    && (w'.crashed || forall k :: k in keys || Cleared(env, w, k) ==> Cleared(env, w', k))
  }

  lemma DeletedChain(env: Env, I: World -> bool, w: World, w1: World, w2: World, keys1: set<Key>, keys2: set<Key>)
    requires Deleted(env, I, w, w1, keys1) && Deleted(env, I, w1, w2, keys2)
    ensures Deleted(env, I, w, w2, keys1 + keys2)
  {
    hide WellFormed;
    hide Cleared;
  }

  lemma DeleteOne(env: Env, cr: FlowCollector, I: World -> bool, w: World, k: Key)
    requires Closed(env, cr, I) && I(w) && WellFormed(w.objs)
    requires w.crashed || DeleteGuard(env, cr, w, Main, k)
    ensures Deleted(env, I, w, Issue(env, Main, w, Delete(k)).w, {k})
  {
    hide Issue;
    hide DeleteGuard;
    hide WellFormed;
    hide Cleared;
    Send(env, cr, I, w, Main, Delete(k));
    IssueFrame(env, w, Main, Delete(k));
    DeleteClears(env, w, Main, k);
  }

  lemma {:induction false} DeleteAllKeeps(
    env: Env, cr: FlowCollector, I: World -> bool, w: World, done: set<Key>, keys: seq<Key>)
    requires Closed(env, cr, I) && I(w) && WellFormed(w.objs)
    requires w.crashed || forall d :: d in done ==> Cleared(env, w, d)
    requires MayDelete(env, cr, w.cr, done, keys)
    ensures Deleted(env, I, w, DeleteAll(env, w, keys), set k | k in keys)
    decreases |keys|
  {
    if keys == [] {
    } else {
      var k := keys[0];
      DeleteOne(env, cr, I, w, k);
      var w1 := Issue(env, Main, w, Delete(k)).w;
      hide Issue;
      hide DeleteGuard;
      hide Cleared;
      DeleteAllKeeps(env, cr, I, w1, done, keys[1..]);
      var w2 := DeleteAll(env, w1, keys[1..]);
      DeletedChain(env, I, w, w1, w2, {k}, set j | j in keys[1..]);
      assert (set j | j in keys) == {k} + (set j | j in keys[1..]);
    }
  }

  lemma {:induction false} DeleteAllSplit(env: Env, w: World, keys1: seq<Key>, keys2: seq<Key>)
    ensures DeleteAll(env, w, keys1 + keys2) == DeleteAll(env, DeleteAll(env, w, keys1), keys2)
    decreases |keys1|
  {
    hide Issue;
    if keys1 == [] {
      assert keys1 + keys2 == keys2;
    } else {
      assert (keys1 + keys2)[1..] == keys1[1..] + keys2;
      DeleteAllSplit(env, Issue(env, Main, w, Delete(keys1[0])).w, keys1[1..], keys2);
    }
  }

}
