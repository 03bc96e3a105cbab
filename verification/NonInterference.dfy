/** The OVS controller does not interfere: its faults, its ConfigMaps and the addresses it resolves change neither the
    result of any reconciliation nor, versions aside, anything outside its ConfigMaps. */
module NonInterference {

  import opened Cluster
  import opened ClientHelper
  import opened Effects
  import opened FlowCollectorController
  import opened FlowCollectorTypes
  import opened ObjectManager
  import opened PassInduction
  import opened Runs
  import opened Safety
  import opened Wrappers
  import F = FlowsConfig
  import G = GoflowReconciler
  import GO = GoflowObjects
  import GoflowConfig
  import P = PluginReconciler

  predicate IsOvs(k: Key) {
    k.kind == ConfigMaps && k.name == F.OVS_CONFIG_MAP
  }

  // ---- Up to versions: one counter serves all writes, those of the OVS controller included ----

  function View(o: Option<Object>): Option<Object> {
    if o.None? then None else Some(Unversioned(o.value))
  }

  function PlainCall(call: Call): Call {
    match call
    case Create(o) => Create(Unversioned(o))
    case Update(o) => Update(Unversioned(o))
    case _ => call
  }

  function PlainReply(reply: Reply): Reply {
    if reply.Found? then Found(Unversioned(reply.obj)) else reply
  }

  datatype Exchange = Exchange(call: Call, reply: Reply)

  /** The calls of all but the OVS controller, with their answers. */
  function MainExchanges(trace: seq<Event>): seq<Exchange> {
    if trace == [] then []
    else
      var last := trace[|trace| - 1];
      MainExchanges(trace[..|trace| - 1])
      + if last.who == Main then [Exchange(PlainCall(last.call), PlainReply(last.reply))] else []
  }

  /** The worlds differ at most in versions and in what belongs to the OVS controller. */
  ghost predicate Alike(w: World, w': World) {
    && w.cr == w'.cr && w.clock == w'.clock && w.nextIP == w'.nextIP && w.crashed == w'.crashed
    && MainExchanges(w.trace) == MainExchanges(w'.trace)
    && forall k :: !IsOvs(k) ==> View(Lookup(w.objs, k)) == View(Lookup(w'.objs, k))
  }

  /** The adversaries treat the rest of the operator alike, without looking at versions, and never kill it in an OVS
      call. */
  ghost predicate SameButOvs(env: Env, env': Env) {
    && env.consoleEnabled == env'.consoleEnabled
    && (forall n, call, call' :: PlainCall(call) == PlainCall(call') ==>
       env.faults(Main, n, call) == env'.faults(Main, n, call'))
    && (forall n, call :: env.faults(Ovs, n, call) != Crash && env'.faults(Ovs, n, call) != Crash)
  }

  ghost predicate StepAlike(s: Step, s': Step) {
    Alike(s.w, s'.w) && s.st == s'.st
  }

  lemma AppendExchange(trace: seq<Event>, e: Event)
    ensures MainExchanges(trace + [e])
         == MainExchanges(trace) + if e.who == Main then [Exchange(PlainCall(e.call), PlainReply(e.reply))] else []
  {
    assert (trace + [e])[..|trace|] == trace;
  }

  // ---- One call ----

  predicate AvoidsOvs(call: Call) {
    match call
    case Get(k) => !IsOvs(k)
    case Create(o) => !IsOvs(KeyOf(o))
    case Update(o) => !IsOvs(KeyOf(o))
    case Delete(k) => !IsOvs(k)
    case _ => true
  }

  /** A version that is supplied is the one in place. */
  predicate Fits(objs: Objects, call: Call) {
    call.Update? && call.obj.meta.resourceVersion != 0 ==>
      KeyOf(call.obj) in objs && call.obj.meta.resourceVersion == objs[KeyOf(call.obj)].meta.resourceVersion
  }

  /** What two answers of the server have in common. */
  ghost predicate ServedAlike(a: Answer, a': Answer) {
    && PlainReply(a.reply) == PlainReply(a'.reply)
    && a.w.cr == a'.w.cr && a.w.clock == a'.w.clock && a.w.nextIP == a'.w.nextIP && a.w.crashed == a'.w.crashed
    && forall k :: !IsOvs(k) ==> View(Lookup(a.w.objs, k)) == View(Lookup(a'.w.objs, k))
  }

  lemma ServeAlike(w: World, w': World, call: Call, call': Call)
    requires Alike(w, w') && AvoidsOvs(call) && PlainCall(call) == PlainCall(call')
    requires Fits(w.objs, call) && Fits(w'.objs, call')
    ensures ServedAlike(Serve(w, call), Serve(w', call'))
  {
    hide MainExchanges;
    match call {
      case Get(k) => assert View(Lookup(w.objs, k)) == View(Lookup(w'.objs, k));
      case Create(o) => CreateServedAlike(w, w', o, call'.obj);
      case Update(o) => UpdateServedAlike(w, w', o, call'.obj);
      case Delete(k) => assert View(Lookup(w.objs, k)) == View(Lookup(w'.objs, k));
      case _ =>
    }
    hide IsOvs;
  }

  /** What is stored for one object on both sides keeps the rest alike. */
  lemma PutAlike(objs: Objects, objs': Objects, k: Key, x: Object, x': Object)
    requires forall j :: !IsOvs(j) ==> View(Lookup(objs, j)) == View(Lookup(objs', j))
    requires Unversioned(x) == Unversioned(x')
    ensures forall j :: !IsOvs(j) ==> View(Lookup(objs[k := x], j)) == View(Lookup(objs'[k := x'], j))
  {
    hide IsOvs;
    hide Unversioned;
    forall j | !IsOvs(j) ensures View(Lookup(objs[k := x], j)) == View(Lookup(objs'[k := x'], j)) {
      assert View(Lookup(objs, j)) == View(Lookup(objs', j));
    }
  }

  lemma CreateServedAlike(w: World, w': World, o: Object, o': Object)
    requires Alike(w, w') && !IsOvs(KeyOf(o)) && Unversioned(o) == Unversioned(o')
    ensures ServedAlike(Serve(w, Create(o)), Serve(w', Create(o')))
  {
    hide MainExchanges;
    hide IsOvs;
    var k := KeyOf(o);
    assert k == KeyOf(o') && View(Lookup(w.objs, k)) == View(Lookup(w'.objs, k));
    if k !in w.objs {
      var x, x' := Serve(w, Create(o)).w.objs[k], Serve(w', Create(o')).w.objs[k];
      PutAlike(w.objs, w'.objs, k, x, x');
      hide View;
    }
  }

  lemma UpdateServedAlike(w: World, w': World, o: Object, o': Object)
    requires Alike(w, w') && !IsOvs(KeyOf(o)) && Unversioned(o) == Unversioned(o')
    requires Fits(w.objs, Update(o)) && Fits(w'.objs, Update(o'))
    ensures ServedAlike(Serve(w, Update(o)), Serve(w', Update(o')))
  {
    hide MainExchanges;
    hide IsOvs;
    var k := KeyOf(o);
    assert k == KeyOf(o') && View(Lookup(w.objs, k)) == View(Lookup(w'.objs, k));
  }

  lemma RecordAlike(w: World, w': World, call: Call, call': Call, reply: Reply, reply': Reply)
    requires Alike(w, w') && PlainCall(call) == PlainCall(call') && PlainReply(reply) == PlainReply(reply')
    ensures Alike(Record(Main, w, call, reply).w, Record(Main, w', call', reply').w)
  {
    hide IsOvs;
    AppendExchange(w.trace, Event(Main, call, reply, w.objs, w.cr));
    AppendExchange(w'.trace, Event(Main, call', reply', w'.objs, w'.cr));
    hide MainExchanges;
    hide PlainCall;
    hide PlainReply;
  }

  lemma DeadAlike(w: World, w': World)
    requires Alike(w, w')
    ensures Alike(Tick(Main, w).(crashed := true), Tick(Main, w').(crashed := true))
  {
    hide MainExchanges;
    hide IsOvs;
    hide View;
  }

  lemma ServedWorldsAlike(w: World, w': World, call: Call, call': Call)
    requires Alike(w, w') && AvoidsOvs(call) && PlainCall(call) == PlainCall(call')
    requires Fits(w.objs, call) && Fits(w'.objs, call')
    ensures Alike(Serve(w, call).w, Serve(w', call').w)
    ensures PlainReply(Serve(w, call).reply) == PlainReply(Serve(w', call').reply)
  {
    ServeAlike(w, w', call, call');
    TraceOfServe(w, call);
    TraceOfServe(w', call');
    hide Serve;
    hide MainExchanges;
    hide IsOvs;
    hide View;
  }

  lemma FaultsAlike(env: Env, env': Env, w: World, w': World, call: Call, call': Call)
    requires SameButOvs(env, env') && Alike(w, w') && PlainCall(call) == PlainCall(call')
    ensures w.crashed == w'.crashed && env.faults(Main, w.clock, call) == env'.faults(Main, w'.clock, call')
  {
    hide PlainCall;
    hide MainExchanges;
  }

  lemma MainCallPlain(env: Env, env': Env, w: World, w': World, call: Call, call': Call)
    requires SameButOvs(env, env') && Alike(w, w') && AvoidsOvs(call) && PlainCall(call) == PlainCall(call')
    requires Fits(w.objs, call) && Fits(w'.objs, call')
    ensures var a, a' := Issue(env, Main, w, call), Issue(env', Main, w', call');
            Alike(a.w, a'.w) && PlainReply(a.reply) == PlainReply(a'.reply)
  {
    hide Serve;
    hide Alike;
    hide SameButOvs;
    hide AvoidsOvs;
    hide Fits;
    hide PlainCall;
    hide Tick;
    var s, s' := Serve(w, call), Serve(w', call');
    ServedWorldsAlike(w, w', call, call');
    FaultsAlike(env, env', w, w', call, call');
    DeadAlike(w, w');
    RecordAlike(w, w', call, call', Failed, Failed);
    RecordAlike(s.w, s'.w, call, call', Failed, Failed);
    RecordAlike(s.w, s'.w, call, call', s.reply, s'.reply);
  }

  /** A call that supplies no version is answered alike. */
  lemma MainCall(env: Env, env': Env, w: World, w': World, call: Call)
    requires SameButOvs(env, env') && Alike(w, w') && AvoidsOvs(call) && !call.Update?
    ensures var a, a' := Issue(env, Main, w, call), Issue(env', Main, w', call);
            Alike(a.w, a'.w) && PlainReply(a.reply) == PlainReply(a'.reply)
  {
    hide Issue;
    hide SameButOvs;
    hide Alike;
    MainCallPlain(env, env', w, w', call, call);
  }

  /** A read of the OVS controller, or a write of its ConfigMap, changes nothing for the others. */
  lemma OvsServed(w: World, call: Call)
    requires call.Get? || ((call.Create? || call.Update?) && IsOvs(KeyOf(call.obj)))
    ensures Alike(w, Serve(w, call).w) && Serve(w, call).w.trace == w.trace
  {
    hide MainExchanges;
  }

  lemma OvsRecorded(w: World, w': World, call: Call, reply: Reply)
    requires Alike(w, w')
    ensures Alike(w, Record(Ovs, w', call, reply).w)
  {
    AppendExchange(w'.trace, Event(Ovs, call, reply, w'.objs, w'.cr));
    hide MainExchanges;
    hide IsOvs;
  }

  lemma OvsCall(env: Env, env': Env, w: World, call: Call)
    requires SameButOvs(env, env')
    requires call.Get? || ((call.Create? || call.Update?) && IsOvs(KeyOf(call.obj)))
    ensures Alike(w, Issue(env, Ovs, w, call).w)
  {
    OvsServed(w, call);
    hide Serve;
    hide MainExchanges;
    hide IsOvs;
    var s := Serve(w, call);
    OvsRecorded(w, w, call, Failed);
    OvsRecorded(w, s.w, call, Failed);
    OvsRecorded(w, s.w, call, s.reply);
    hide Record;
  }

  lemma OvsAlike(env: Env, env': Env, w: World, owner: string, spec: Spec, ns: string)
    requires SameButOvs(env, env')
    ensures Alike(w, F.Reconcile(env, w, owner, spec, ns).w)
  {
    hide F.ConfigFromMap;
    hide F.ResolveTarget;
    hide F.AsStringMap;
    hide MainExchanges;
    hide Issue;
    var cno := spec.cnoNamespace;
    OvsCall(env, env', w, Get(F.OvsKey(cno)));
    var current := F.ReadCurrent(env, w, cno);
    OvsCall(env, env', current.w, Get(Key(Services, ns, GOFLOW_KUBE)));
    var wanted := F.WantedConfig(env, current.w, spec, ns);
    if wanted.Desired? {
      var cm := F.BuildOvsConfigMap(owner, wanted.config, cno);
      OvsCall(env, env', wanted.w, Create(cm));
      OvsCall(env, env', wanted.w, Update(cm));
    }
    hide SameButOvs;
    hide IsOvs;
    hide View;
  }

  lemma Flipped(env: Env, env': Env)
    requires SameButOvs(env, env')
    ensures SameButOvs(env', env)
  {
    hide PlainCall;
  }

  lemma AlikeChain(a: World, b: World, c: World, d: World)
    requires Alike(a, b) && Alike(a, c) && Alike(b, d)
    ensures Alike(c, d)
  {
    hide MainExchanges;
    hide IsOvs;
    hide View;
  }

  // ---- The helpers ----

  /** A write is not answered with an object. */
  lemma WriteReply(env: Env, w: World, o: Object)
    ensures !Issue(env, Main, w, Create(o)).reply.Found? && !Issue(env, Main, w, Update(o)).reply.Found?
  {
  }

  lemma CreateAlike(env: Env, env': Env, w: World, w': World, owner: string, o: Object, o': Object)
    requires SameButOvs(env, env') && Alike(w, w') && !IsOvs(KeyOf(o)) && Unversioned(o) == Unversioned(o')
    ensures StepAlike(CreateOwned(env, w, owner, o), CreateOwned(env', w', owner, o'))
  {
    hide Issue;
    hide Alike;
    hide SameButOvs;
    var owned, owned' := SetControllerReference(owner, o), SetControllerReference(owner, o');
    if owned.Some? {
      MainCallPlain(env, env', w, w', Create(owned.value), Create(owned'.value));
      WriteReply(env, w, owned.value);
      WriteReply(env', w', owned'.value);
    }
  }

  /** What is built on a fetched object, or on none, is sent with a version that fits. */
  ghost predicate Built(w: World, previous: Option<Object>, o: Object) {
    if previous.Some? then previous == Lookup(w.objs, KeyOf(o)) else o.meta.resourceVersion == 0
  }

  lemma UpdateAlike(
    env: Env, env': Env, w: World, w': World, owner: string,
    previous: Option<Object>, previous': Option<Object>, o: Object, o': Object)
    requires SameButOvs(env, env') && Alike(w, w') && !IsOvs(KeyOf(o)) && Unversioned(o) == Unversioned(o')
    requires Built(w, previous, o) && Built(w', previous', o') && (previous.None? <==> previous'.None?)
    ensures StepAlike(UpdateOwned(env, w, owner, previous, o), UpdateOwned(env', w', owner, previous', o'))
  {
    hide Issue;
    hide Alike;
    hide SameButOvs;
    var owned := SetControllerReference(owner, WithVersionOf(previous, o));
    var owned' := SetControllerReference(owner, WithVersionOf(previous', o'));
    if owned.Some? {
      MainCallPlain(env, env', w, w', Update(owned.value), Update(owned'.value));
      WriteReply(env, w, owned.value);
      WriteReply(env', w', owned'.value);
    }
  }

  lemma EnsureAlike(
    env: Env, env': Env, w: World, w': World, owner: string,
    previous: Option<Object>, previous': Option<Object>, outdated: bool, o: Object, o': Object)
    requires SameButOvs(env, env') && Alike(w, w') && !IsOvs(KeyOf(o)) && Unversioned(o) == Unversioned(o')
    requires previous == Lookup(w.objs, KeyOf(o)) && previous' == Lookup(w'.objs, KeyOf(o))
    ensures StepAlike(Ensure(env, w, owner, previous, outdated, o), Ensure(env', w', owner, previous', outdated, o'))
  {
    assert KeyOf(o') == KeyOf(o) && View(Lookup(w.objs, KeyOf(o))) == View(Lookup(w'.objs, KeyOf(o)));
    hide Alike;
    hide SameButOvs;
    hide CreateOwned;
    hide UpdateOwned;
    if previous.None? {
      CreateAlike(env, env', w, w', owner, o, o');
    } else {
      UpdateAlike(env, env', w, w', owner, previous, previous', o, o');
    }
  }

  lemma TryDeleteAlike(
    env: Env, env': Env, w: World, w': World, fetched: Option<Object>, fetched': Option<Object>, k: Key)
    requires SameButOvs(env, env') && Alike(w, w') && !IsOvs(k) && View(fetched) == View(fetched')
    requires fetched.Some? ==> KeyOf(fetched.value) == k
    ensures Alike(TryDelete(env, w, fetched), TryDelete(env', w', fetched'))
  {
    hide Issue;
    hide Alike;
    hide SameButOvs;
    if fetched.Some? {
      assert KeyOf(fetched'.value) == KeyOf(Unversioned(fetched.value));
      MainCall(env, env', w, w', Delete(k));
    }
  }

  ghost predicate NoneOvs(keys: seq<Key>) {
    forall i :: 0 <= i < |keys| ==> !IsOvs(keys[i])
  }

  lemma {:induction false} FetchAlike(env: Env, env': Env, w: World, w': World, keys: seq<Key>)
    requires SameButOvs(env, env') && Alike(w, w') && NoneOvs(keys)
    ensures var f, f' := FetchAll(env, w, keys), FetchAll(env', w', keys);
            && Alike(f.w, f'.w) && f.st == f'.st && |f.found| == |f'.found|
            && forall i :: 0 <= i < |f.found| ==> View(f.found[i]) == View(f'.found[i])
    decreases |keys|
  {
    hide SameButOvs;
    hide MainExchanges;
    if keys == [] {
    } else {
      MainCall(env, env', w, w', Get(keys[0]));
      hide Issue;
      hide Alike;
      FetchAlike(env, env', Issue(env, Main, w, Get(keys[0])).w, Issue(env', Main, w', Get(keys[0])).w, keys[1..]);
    }
  }

  lemma {:induction false} DeleteAlike(env: Env, env': Env, w: World, w': World, keys: seq<Key>)
    requires SameButOvs(env, env') && Alike(w, w') && NoneOvs(keys)
    ensures Alike(DeleteAll(env, w, keys), DeleteAll(env', w', keys))
    decreases |keys|
  {
    hide SameButOvs;
    if keys == [] {
    } else {
      MainCall(env, env', w, w', Delete(keys[0]));
      hide Issue;
      hide Alike;
      DeleteAlike(env, env', Issue(env, Main, w, Delete(keys[0])).w, Issue(env', Main, w', Delete(keys[0])).w,
        keys[1..]);
    }
  }

  // ---- goflow-kube ----

  lemma DeploymentAlike(
    env: Env, env': Env, cr: FlowCollector, w: World, w': World, owned: G.Owned, owned': G.Owned, ns: string)
    requires SameButOvs(env, env') && Alike(w, w')
    requires owned.deployment == Lookup(w.objs, GO.DeploymentKey(ns))
    requires owned'.deployment == Lookup(w'.objs, GO.DeploymentKey(ns))
    ensures var gf, digest := cr.spec.goflowKube, GO.ConfigDigest(cr.spec.goflowKube, cr.spec.loki);
            StepAlike(G.ReconcileDeployment(env, w, cr.name, owned, gf, ns, digest),
                      G.ReconcileDeployment(env', w', cr.name, owned', gf, ns, digest))
  {
    hide SameButOvs;
    hide Ensure;
    hide GO.ConfigDigest;
    hide GO.BuildPodTemplate;
    hide G.ContainerNeedsUpdate;
    hide MainExchanges;
    var gf, digest := cr.spec.goflowKube, GO.ConfigDigest(cr.spec.goflowKube, cr.spec.loki);
    assert View(owned.deployment) == View(owned'.deployment);
    var outdated := owned.deployment.Some? && G.DeploymentNeedsUpdate(owned.deployment.value, gf, ns, digest);
    var o := GO.BuildDeployment(gf, ns, digest);
    EnsureAlike(env, env', w, w', cr.name, owned.deployment, owned'.deployment, outdated, o, o);
    hide Alike;
  }

  lemma ServiceAlike(
    env: Env, env': Env, cr: FlowCollector, w: World, w': World, owned: G.Owned, owned': G.Owned, ns: string)
    requires SameButOvs(env, env') && Alike(w, w') && WellFormed(w.objs) && WellFormed(w'.objs)
    requires owned.service == Lookup(w.objs, GO.ServiceKey(ns)) && owned'.service == Lookup(w'.objs, GO.ServiceKey(ns))
    ensures StepAlike(G.ReconcileService(env, w, cr.name, owned, cr.spec.goflowKube, ns),
                      G.ReconcileService(env', w', cr.name, owned', cr.spec.goflowKube, ns))
  {
    hide SameButOvs;
    hide Ensure;
    hide MainExchanges;
    var gf := cr.spec.goflowKube;
    assert View(owned.service) == View(owned'.service);
    var outdated := owned.service.Some? && G.ServiceNeedsUpdate(owned.service.value, gf, ns);
    var o, o' := GO.BuildService(owned.service, gf, ns), GO.BuildService(owned'.service, gf, ns);
    assert KeyOf(o) == GO.ServiceKey(ns) && Unversioned(o) == Unversioned(o');
    EnsureAlike(env, env', w, w', cr.name, owned.service, owned'.service, outdated, o, o');
    hide Alike;
  }

  lemma AutoscalerAlike(
    env: Env, env': Env, cr: FlowCollector, w: World, w': World, owned: G.Owned, owned': G.Owned, ns: string)
    requires SameButOvs(env, env') && Alike(w, w') && WellFormed(w.objs) && WellFormed(w'.objs)
    requires owned.autoscaler == Lookup(w.objs, GO.AutoscalerKey(ns))
    requires owned'.autoscaler == Lookup(w'.objs, GO.AutoscalerKey(ns))
    ensures StepAlike(G.ReconcileAutoscaler(env, w, cr.name, owned, cr.spec.goflowKube, ns),
                      G.ReconcileAutoscaler(env', w', cr.name, owned', cr.spec.goflowKube, ns))
  {
    hide SameButOvs;
    hide Ensure;
    hide TryDelete;
    hide MainExchanges;
    var gf := cr.spec.goflowKube;
    assert View(owned.autoscaler) == View(owned'.autoscaler);
    if gf.hpa.None? {
      TryDeleteAlike(env, env', w, w', owned.autoscaler, owned'.autoscaler, GO.AutoscalerKey(ns));
    } else {
      var outdated := owned.autoscaler.Some? && G.AutoscalerNeedsUpdate(owned.autoscaler.value, gf.hpa.value, ns);
      var o := GO.BuildAutoscaler(gf.hpa.value, ns);
      EnsureAlike(env, env', w, w', cr.name, owned.autoscaler, owned'.autoscaler, outdated, o, o);
    }
    hide Alike;
  }

  lemma AsDeploymentAlike(
    env: Env, env': Env, cr: FlowCollector, w: World, w': World, owned: G.Owned, owned': G.Owned, ns: string)
    requires SameButOvs(env, env') && Alike(w, w') && WellFormed(w.objs) && WellFormed(w'.objs)
    requires Fetched(w, owned, ns) && Fetched(w', owned', ns) && cr.spec.goflowKube.kind == DEPLOYMENT_KIND
    ensures var gf, digest := cr.spec.goflowKube, GO.ConfigDigest(cr.spec.goflowKube, cr.spec.loki);
            StepAlike(G.ReconcileAsDeployment(env, w, cr.name, owned, gf, ns, digest),
                      G.ReconcileAsDeployment(env', w', cr.name, owned', gf, ns, digest))
  {
    hide SameButOvs;
    hide WellFormed;
    hide TryDelete;
    hide MainExchanges;
    hide GO.ConfigDigest;
    hide G.ReconcileDeployment;
    hide G.ReconcileService;
    hide G.ReconcileAutoscaler;
    hide G.DeploymentNeedsUpdate;
    hide G.ServiceNeedsUpdate;
    var gf, digest := cr.spec.goflowKube, GO.ConfigDigest(cr.spec.goflowKube, cr.spec.loki);
    FetchedKeys(w, owned, ns);
    assert View(owned.daemonSet) == View(owned'.daemonSet);
    hide Alike;
    var w1, w1' := TryDelete(env, w, owned.daemonSet), TryDelete(env', w', owned'.daemonSet);
    TryDeleteAlike(env, env', w, w', owned.daemonSet, owned'.daemonSet, GO.DaemonSetKey(ns));
    TryDeleteEffect(env, w, owned.daemonSet, GO.DaemonSetKey(ns));
    TryDeleteEffect(env', w', owned'.daemonSet, GO.DaemonSetKey(ns));
    hide ReliableDeletes;
    DeploymentAlike(env, env', cr, w1, w1', owned, owned', ns);
    DeploymentSettles(env, cr, w1, owned, ns);
    DeploymentSettles(env', cr, w1', owned', ns);
    var s2 := G.ReconcileDeployment(env, w1, cr.name, owned, gf, ns, digest);
    var s2' := G.ReconcileDeployment(env', w1', cr.name, owned', gf, ns, digest);
    ServiceAlike(env, env', cr, s2.w, s2'.w, owned, owned', ns);
    ServiceSettles(env, cr, s2.w, owned, ns);
    ServiceSettles(env', cr, s2'.w, owned', ns);
    var s3, s3' := G.ReconcileService(env, s2.w, cr.name, owned, gf, ns),
        G.ReconcileService(env', s2'.w, cr.name, owned', gf, ns);
    AutoscalerAlike(env, env', cr, s3.w, s3'.w, owned, owned', ns);
  }

  /** Objects fetched from a well-formed store are under the keys that were asked for. */
  lemma FetchedKeys(w: World, owned: G.Owned, ns: string)
    requires WellFormed(w.objs) && Fetched(w, owned, ns)
    ensures owned.deployment.Some? ==> KeyOf(owned.deployment.value) == GO.DeploymentKey(ns)
    ensures owned.daemonSet.Some? ==> KeyOf(owned.daemonSet.value) == GO.DaemonSetKey(ns)
    ensures owned.service.Some? ==> KeyOf(owned.service.value) == GO.ServiceKey(ns)
    ensures owned.autoscaler.Some? ==> KeyOf(owned.autoscaler.value) == GO.AutoscalerKey(ns)
  {
  }

  lemma DaemonSetAlike(
    env: Env, env': Env, cr: FlowCollector, w: World, w': World, previous: Option<Object>, previous': Option<Object>,
    ns: string)
    requires SameButOvs(env, env') && Alike(w, w')
    requires previous == Lookup(w.objs, GO.DaemonSetKey(ns)) && previous' == Lookup(w'.objs, GO.DaemonSetKey(ns))
    ensures var gf, digest := cr.spec.goflowKube, GO.ConfigDigest(cr.spec.goflowKube, cr.spec.loki);
            var outdated := previous.Some? && G.DaemonSetNeedsUpdate(previous.value, gf, ns, digest);
            var outdated' := previous'.Some? && G.DaemonSetNeedsUpdate(previous'.value, gf, ns, digest);
            StepAlike(Ensure(env, w, cr.name, previous, outdated, GO.BuildDaemonSet(gf, ns, digest)),
                      Ensure(env', w', cr.name, previous', outdated', GO.BuildDaemonSet(gf, ns, digest)))
  {
    hide SameButOvs;
    hide Ensure;
    hide GO.ConfigDigest;
    hide GO.BuildPodTemplate;
    hide G.ContainerNeedsUpdate;
    hide MainExchanges;
    var gf, digest := cr.spec.goflowKube, GO.ConfigDigest(cr.spec.goflowKube, cr.spec.loki);
    assert View(previous) == View(previous');
    var outdated := previous.Some? && G.DaemonSetNeedsUpdate(previous.value, gf, ns, digest);
    var o := GO.BuildDaemonSet(gf, ns, digest);
    EnsureAlike(env, env', w, w', cr.name, previous, previous', outdated, o, o);
    hide Alike;
  }

  lemma AsDaemonSetAlike(
    env: Env, env': Env, cr: FlowCollector, w: World, w': World, owned: G.Owned, owned': G.Owned, ns: string)
    requires SameButOvs(env, env') && Alike(w, w') && WellFormed(w.objs) && WellFormed(w'.objs)
    requires Fetched(w, owned, ns) && Fetched(w', owned', ns)
    ensures var gf, digest := cr.spec.goflowKube, GO.ConfigDigest(cr.spec.goflowKube, cr.spec.loki);
            StepAlike(G.ReconcileAsDaemonSet(env, w, cr.name, owned, gf, ns, digest),
                      G.ReconcileAsDaemonSet(env', w', cr.name, owned', gf, ns, digest))
  {
    hide SameButOvs;
    hide WellFormed;
    hide TryDelete;
    hide Ensure;
    hide MainExchanges;
    hide GO.ConfigDigest;
    hide GO.BuildDaemonSet;
    hide G.DaemonSetNeedsUpdate;
    FetchedKeys(w, owned, ns);
    assert View(owned.deployment) == View(owned'.deployment);
    assert View(owned.service) == View(owned'.service);
    assert View(owned.autoscaler) == View(owned'.autoscaler);
    hide Alike;
    var w1, w1' := TryDelete(env, w, owned.deployment), TryDelete(env', w', owned'.deployment);
    TryDeleteAlike(env, env', w, w', owned.deployment, owned'.deployment, GO.DeploymentKey(ns));
    TryDeleteEffect(env, w, owned.deployment, GO.DeploymentKey(ns));
    TryDeleteEffect(env', w', owned'.deployment, GO.DeploymentKey(ns));
    var w2, w2' := TryDelete(env, w1, owned.service), TryDelete(env', w1', owned'.service);
    TryDeleteAlike(env, env', w1, w1', owned.service, owned'.service, GO.ServiceKey(ns));
    TryDeleteEffect(env, w1, owned.service, GO.ServiceKey(ns));
    TryDeleteEffect(env', w1', owned'.service, GO.ServiceKey(ns));
    var w3, w3' := TryDelete(env, w2, owned.autoscaler), TryDelete(env', w2', owned'.autoscaler);
    TryDeleteAlike(env, env', w2, w2', owned.autoscaler, owned'.autoscaler, GO.AutoscalerKey(ns));
    TryDeleteEffect(env, w2, owned.autoscaler, GO.AutoscalerKey(ns));
    TryDeleteEffect(env', w2', owned'.autoscaler, GO.AutoscalerKey(ns));
    hide ReliableDeletes;
    DaemonSetAlike(env, env', cr, w3, w3', owned.daemonSet, owned'.daemonSet, ns);
  }

  lemma ConfigMapAlike(
    env: Env, env': Env, cr: FlowCollector, w: World, w': World, owned: G.Owned, owned': G.Owned, ns: string)
    requires SameButOvs(env, env') && Alike(w, w')
    requires owned.configMap == Lookup(w.objs, GO.ConfigMapKey(ns))
    requires owned'.configMap == Lookup(w'.objs, GO.ConfigMapKey(ns))
    ensures var gf, loki := cr.spec.goflowKube, cr.spec.loki;
            StepAlike(G.ReconcileConfigMap(env, w, cr.name, owned, gf, loki, ns),
                      G.ReconcileConfigMap(env', w', cr.name, owned', gf, loki, ns))
  {
    hide Alike;
    hide SameButOvs;
    hide Ensure;
    hide GoflowConfig.ConfigText;
    NamesDiffer();
    var o := GO.BuildConfigMap(cr.spec.goflowKube, cr.spec.loki, ns);
    EnsureAlike(env, env', w, w', cr.name, owned.configMap, owned'.configMap, true, o, o);
  }

  lemma ManagedNotOvs(ns: string)
    ensures NoneOvs(GO.ManagedKeys(ns)) && NoneOvs(P.ManagedKeys(ns))
  {
    NamesDiffer();
  }

  lemma GoflowAlike(env: Env, env': Env, cr: FlowCollector, w: World, w': World, ns: string)
    requires SameButOvs(env, env') && Alike(w, w') && WellFormed(w.objs) && WellFormed(w'.objs)
    ensures StepAlike(G.Reconcile(env, w, cr.name, cr.spec.goflowKube, cr.spec.loki, ns),
                      G.Reconcile(env', w', cr.name, cr.spec.goflowKube, cr.spec.loki, ns))
  {
    hide Alike;
    hide SameButOvs;
    hide WellFormed;
    hide FetchAll;
    hide GO.ConfigDigest;
    hide GO.BuildConfigMap;
    hide G.ReconcileConfigMap;
    hide G.ReconcileAsDeployment;
    hide G.ReconcileAsDaemonSet;
    ManagedNotOvs(ns);
    FetchAlike(env, env', w, w', GO.ManagedKeys(ns));
    FetchAllEffect(env, w, GO.ManagedKeys(ns));
    FetchAllEffect(env', w', GO.ManagedKeys(ns));
    var f, f' := FetchAll(env, w, GO.ManagedKeys(ns)), FetchAll(env', w', GO.ManagedKeys(ns));
    if f.st.Ok? {
      var owned, owned' := G.OwnedFrom(f.found), G.OwnedFrom(f'.found);
      ConfigMapAlike(env, env', cr, f.w, f'.w, owned, owned', ns);
      ConfigMapSettles(env, cr, f.w, owned, ns);
      ConfigMapSettles(env', cr, f'.w, owned', ns);
      var s := G.ReconcileConfigMap(env, f.w, cr.name, owned, cr.spec.goflowKube, cr.spec.loki, ns);
      var s' := G.ReconcileConfigMap(env', f'.w, cr.name, owned', cr.spec.goflowKube, cr.spec.loki, ns);
      if cr.spec.goflowKube.kind == DEPLOYMENT_KIND {
        AsDeploymentAlike(env, env', cr, s.w, s'.w, owned, owned', ns);
      } else {
        AsDaemonSetAlike(env, env', cr, s.w, s'.w, owned, owned', ns);
      }
    }
  }

  // ---- The console plugin ----

  lemma ConsolePluginAlike(
    env: Env, env': Env, cr: FlowCollector, w: World, w': World, plugin: Option<Object>, plugin': Option<Object>,
    ns: string)
    requires SameButOvs(env, env') && Alike(w, w')
    requires plugin == Lookup(w.objs, P.PLUGIN_KEY) && plugin' == Lookup(w'.objs, P.PLUGIN_KEY)
    ensures StepAlike(P.ReconcilePlugin(env, w, cr.name, plugin, cr.spec.consolePlugin, ns),
                      P.ReconcilePlugin(env', w', cr.name, plugin', cr.spec.consolePlugin, ns))
  {
    hide SameButOvs;
    hide Ensure;
    hide MainExchanges;
    assert View(plugin) == View(plugin');
    var outdated := plugin.Some? && P.PluginNeedsUpdate(plugin.value, cr.spec.consolePlugin, ns);
    var o := P.BuildConsolePlugin(cr.spec.consolePlugin, ns);
    EnsureAlike(env, env', w, w', cr.name, plugin, plugin', outdated, o, o);
    hide Alike;
  }

  lemma PluginDeploymentAlike(
    env: Env, env': Env, cr: FlowCollector, w: World, w': World, depl: Option<Object>, depl': Option<Object>,
    ns: string)
    requires SameButOvs(env, env') && Alike(w, w')
    requires depl == Lookup(w.objs, P.DeploymentKey(ns)) && depl' == Lookup(w'.objs, P.DeploymentKey(ns))
    ensures StepAlike(P.ReconcileDeployment(env, w, cr.name, depl, cr.spec.consolePlugin, cr.spec.loki, ns),
                      P.ReconcileDeployment(env', w', cr.name, depl', cr.spec.consolePlugin, cr.spec.loki, ns))
  {
    hide SameButOvs;
    hide Ensure;
    hide MainExchanges;
    hide P.BuildPodTemplate;
    hide P.ContainerNeedsUpdate;
    var p, loki := cr.spec.consolePlugin, cr.spec.loki;
    assert View(depl) == View(depl');
    var outdated := depl.Some? && P.DeploymentNeedsUpdate(depl.value, p, loki, ns);
    var o := P.BuildDeployment(p, loki, ns);
    EnsureAlike(env, env', w, w', cr.name, depl, depl', outdated, o, o);
    hide Alike;
  }

  lemma PluginServiceAlike(
    env: Env, env': Env, cr: FlowCollector, w: World, w': World, svc: Option<Object>, svc': Option<Object>, ns: string)
    requires SameButOvs(env, env') && Alike(w, w') && WellFormed(w.objs) && WellFormed(w'.objs)
    requires svc == Lookup(w.objs, P.ServiceKey(ns)) && svc' == Lookup(w'.objs, P.ServiceKey(ns))
    ensures StepAlike(P.ReconcileService(env, w, cr.name, svc, cr.spec.consolePlugin, ns),
                      P.ReconcileService(env', w', cr.name, svc', cr.spec.consolePlugin, ns))
  {
    hide SameButOvs;
    hide Ensure;
    hide MainExchanges;
    var p := cr.spec.consolePlugin;
    assert View(svc) == View(svc');
    var outdated := svc.Some? && P.ServiceNeedsUpdate(svc.value, p, ns);
    var o, o' := P.BuildService(svc, p, ns), P.BuildService(svc', p, ns);
    assert KeyOf(o) == P.ServiceKey(ns) && Unversioned(o) == Unversioned(o');
    EnsureAlike(env, env', w, w', cr.name, svc, svc', outdated, o, o');
    hide Alike;
  }

  lemma PluginAlike(env: Env, env': Env, cr: FlowCollector, w: World, w': World, ns: string)
    requires SameButOvs(env, env') && Alike(w, w') && WellFormed(w.objs) && WellFormed(w'.objs)
    ensures StepAlike(P.Reconcile(env, w, cr.name, cr.spec.consolePlugin, cr.spec.loki, ns),
                      P.Reconcile(env', w', cr.name, cr.spec.consolePlugin, cr.spec.loki, ns))
  {
    hide Alike;
    hide SameButOvs;
    hide WellFormed;
    hide FetchAll;
    hide P.ReconcilePlugin;
    hide P.ReconcileDeployment;
    hide P.ReconcileService;
    hide P.PluginNeedsUpdate;
    hide P.DeploymentNeedsUpdate;
    var p, loki := cr.spec.consolePlugin, cr.spec.loki;
    ManagedNotOvs(ns);
    FetchAlike(env, env', w, w', P.ManagedKeys(ns));
    FetchAllEffect(env, w, P.ManagedKeys(ns));
    FetchAllEffect(env', w', P.ManagedKeys(ns));
    var f, f' := FetchAll(env, w, P.ManagedKeys(ns)), FetchAll(env', w', P.ManagedKeys(ns));
    if f.st.Ok? {
      MainCall(env, env', f.w, f'.w, Get(P.PLUGIN_KEY));
      ReadPlugin(env, f.w);
      ReadPlugin(env', f'.w);
      var a, a' := Issue(env, Main, f.w, Get(P.PLUGIN_KEY)), Issue(env', Main, f'.w, Get(P.PLUGIN_KEY));
      hide Issue;
      if a.reply.Found? || a.reply.NotFound? {
        var plugin, plugin' := Lookup(f.w.objs, P.PLUGIN_KEY), Lookup(f'.w.objs, P.PLUGIN_KEY);
        ConsolePluginAlike(env, env', cr, a.w, a'.w, plugin, plugin', ns);
        ConsolePluginSettles(env, cr, a.w, plugin, ns);
        ConsolePluginSettles(env', cr, a'.w, plugin', ns);
        var s1 := P.ReconcilePlugin(env, a.w, cr.name, plugin, p, ns);
        var s1' := P.ReconcilePlugin(env', a'.w, cr.name, plugin', p, ns);
        PluginDeploymentAlike(env, env', cr, s1.w, s1'.w, f.found[0], f'.found[0], ns);
        PluginDeploymentSettles(env, cr, s1.w, f.found[0], ns);
        PluginDeploymentSettles(env', cr, s1'.w, f'.found[0], ns);
        var s2 := P.ReconcileDeployment(env, s1.w, cr.name, f.found[0], p, loki, ns);
        var s2' := P.ReconcileDeployment(env', s1'.w, cr.name, f'.found[0], p, loki, ns);
        PluginServiceAlike(env, env', cr, s2.w, s2'.w, f.found[1], f'.found[1], ns);
      }
    }
  }

  lemma ReadPlugin(env: Env, w: World)
    ensures var a := Issue(env, Main, w, Get(P.PLUGIN_KEY));
            && Frame(w, a.w, {})
            && (a.reply.Found? ==> Lookup(w.objs, P.PLUGIN_KEY) == Some(a.reply.obj))
            && (a.reply.NotFound? ==> Lookup(w.objs, P.PLUGIN_KEY) == None)
  {
    IssueObjects(env, w, Main, Get(P.PLUGIN_KEY));
    GetReply(env, w, Main, P.PLUGIN_KEY);
    hide Issue;
    hide WellFormed;
  }

  // ---- Static resources and the whole pass ----

  lemma PermissionsAlike(env: Env, env': Env, w: World, w': World, owner: string, ns: string, firstInstall: bool)
    requires SameButOvs(env, env') && Alike(w, w')
    ensures StepAlike(G.CreatePermissions(env, w, owner, ns, firstInstall),
                      G.CreatePermissions(env', w', owner, ns, firstInstall))
  {
    hide Alike;
    hide SameButOvs;
    hide CreateOwned;
    hide UpdateOwned;
    var role, account, binding := GO.BuildClusterRole(), GO.BuildServiceAccount(ns), GO.BuildClusterRoleBinding(ns);
    CreateAlike(env, env', w, w', owner, role, role);
    var s1 := if firstInstall then CreateOwned(env, w, owner, role) else Step(w, Ok);
    var s1' := if firstInstall then CreateOwned(env', w', owner, role) else Step(w', Ok);
    CreateAlike(env, env', s1.w, s1'.w, owner, account, account);
    var s2, s2' := CreateOwned(env, s1.w, owner, account), CreateOwned(env', s1'.w, owner, account);
    CreateAlike(env, env', s2.w, s2'.w, owner, binding, binding);
    UpdateAlike(env, env', s2.w, s2'.w, owner, None, None, binding, binding);
  }

  lemma HandleAlike(env: Env, env': Env, w: World, w': World, owner: string, ns: string, prev: string)
    requires SameButOvs(env, env') && Alike(w, w')
    ensures StepAlike(HandleNamespaceChanged(env, w, owner, ns, prev),
        HandleNamespaceChanged(env', w', owner, ns, prev))
  {
    hide Alike;
    hide InstallStatic;
    hide MoveNamespace;
    if prev == "" {
      InstallAlike(env, env', w, w', owner, ns);
    } else {
      MoveAlike(env, env', w, w', owner, ns, prev);
    }
    var s := if prev == "" then InstallStatic(env, w, owner, ns) else MoveNamespace(env, w, owner, ns, prev);
    var s' := if prev == "" then InstallStatic(env', w', owner, ns) else MoveNamespace(env', w', owner, ns, prev);
    MainCall(env, env', s.w, s'.w, UpdateStatus(ns));
    StatusReply(env, s.w, ns);
    StatusReply(env', s'.w, ns);
    hide Issue;
    hide SameButOvs;
  }

  lemma StatusReply(env: Env, w: World, ns: string)
    ensures !Issue(env, Main, w, UpdateStatus(ns)).reply.Found?
  {
  }

  lemma InstallAlike(env: Env, env': Env, w: World, w': World, owner: string, ns: string)
    requires SameButOvs(env, env') && Alike(w, w')
    ensures StepAlike(InstallStatic(env, w, owner, ns), InstallStatic(env', w', owner, ns))
  {
    assert env.consoleEnabled == env'.consoleEnabled;
    hide Alike;
    hide SameButOvs;
    hide G.CreatePermissions;
    hide CreateOwned;
    PermissionsAlike(env, env', w, w', owner, ns, true);
    var s, s' := G.CreatePermissions(env, w, owner, ns, true), G.CreatePermissions(env', w', owner, ns, true);
    CreateAlike(env, env', s.w, s'.w, owner, P.BuildServiceAccount(ns), P.BuildServiceAccount(ns));
  }

  lemma MoveAlike(env: Env, env': Env, w: World, w': World, owner: string, ns: string, prev: string)
    requires SameButOvs(env, env') && Alike(w, w')
    ensures StepAlike(MoveNamespace(env, w, owner, ns, prev), MoveNamespace(env', w', owner, ns, prev))
  {
    assert env.consoleEnabled == env'.consoleEnabled;
    hide Alike;
    hide SameButOvs;
    hide G.CreatePermissions;
    hide CreateOwned;
    hide DeleteAll;
    ManagedNotOvs(prev);
    hide NoneOvs;
    DeleteAlike(env, env', w, w', GO.ManagedKeys(prev));
    var w1, w1' := DeleteAll(env, w, GO.ManagedKeys(prev)), DeleteAll(env', w', GO.ManagedKeys(prev));
    PermissionsAlike(env, env', w1, w1', owner, ns, false);
    var s, s' := G.CreatePermissions(env, w1, owner, ns, false), G.CreatePermissions(env', w1', owner, ns, false);
    DeleteAlike(env, env', s.w, s'.w, P.ManagedKeys(prev));
    var w2, w2' := DeleteAll(env, s.w, P.ManagedKeys(prev)), DeleteAll(env', s'.w, P.ManagedKeys(prev));
    CreateAlike(env, env', w2, w2', owner, P.BuildServiceAccount(ns), P.BuildServiceAccount(ns));
  }

  lemma ComponentsAlike(env: Env, env': Env, w: World, w': World, cr: FlowCollector, ns: string)
    requires SameButOvs(env, env') && Alike(w, w') && WellFormed(w.objs) && WellFormed(w'.objs)
    ensures StepAlike(ReconcileComponents(env, w, cr, ns), ReconcileComponents(env', w', cr, ns))
  {
    Flipped(env, env');
    assert env.consoleEnabled == env'.consoleEnabled;
    hide Alike;
    hide SameButOvs;
    hide WellFormed;
    hide ReliableDeletes;
    hide G.Reconcile;
    hide F.Reconcile;
    hide P.Reconcile;
    hide Present;
    hide UpToDate;
    GoflowAlike(env, env', cr, w, w', ns);
    GoflowSettles(env, cr, w, ns);
    GoflowSettles(env', cr, w', ns);
    var s := G.Reconcile(env, w, cr.name, cr.spec.goflowKube, cr.spec.loki, ns);
    var s' := G.Reconcile(env', w', cr.name, cr.spec.goflowKube, cr.spec.loki, ns);
    OvsAlike(env, env', s.w, cr.name, cr.spec, ns);
    OvsAlike(env', env, s'.w, cr.name, cr.spec, ns);
    OvsEffect(env, s.w, cr.name, cr.spec, ns);
    OvsEffect(env', s'.w, cr.name, cr.spec, ns);
    var o, o' := F.Reconcile(env, s.w, cr.name, cr.spec, ns), F.Reconcile(env', s'.w, cr.name, cr.spec, ns);
    AlikeChain(s.w, s'.w, o.w, o'.w);
    PluginAlike(env, env', cr, o.w, o'.w, ns);
  }

  lemma NamespaceAlike(env: Env, env': Env, w: World, w': World, ns: string)
    requires SameButOvs(env, env') && Alike(w, w')
    ensures StepAlike(EnsureNamespace(env, w, ns), EnsureNamespace(env', w', ns))
  {
    hide Alike;
    hide SameButOvs;
    hide Issue;
    MainCall(env, env', w, w', Get(NamespaceKey(ns)));
    var a, a' := Issue(env, Main, w, Get(NamespaceKey(ns))), Issue(env', Main, w', Get(NamespaceKey(ns)));
    MainCall(env, env', a.w, a'.w, Create(BuildNamespace(ns)));
    WriteReply(env, a.w, BuildNamespace(ns));
    WriteReply(env', a'.w, BuildNamespace(ns));
  }

  lemma LiveAlike(env: Env, env': Env, w: World, w': World, cr: FlowCollector)
    requires SameButOvs(env, env') && Alike(w, w') && WellFormed(w.objs) && WellFormed(w'.objs)
    requires w.cr == Some(cr) && w'.cr == Some(cr)
    ensures StepAlike(ReconcileLive(env, w, cr), ReconcileLive(env', w', cr))
  {
    hide Alike;
    hide SameButOvs;
    hide WellFormed;
    hide EnsureNamespace;
    hide HandleNamespaceChanged;
    hide ReconcileComponents;
    var ns, I := NamespaceOf(cr.spec), (x: World) => true;
    TrivialClosed(env, cr);
    TrivialClosed(env', cr);
    hide Closed;
    NamespaceAlike(env, env', w, w', ns);
    NamespaceKeeps(env, cr, I, w, ns);
    NamespaceKeeps(env', cr, I, w', ns);
    var s1, s1' := EnsureNamespace(env, w, ns), EnsureNamespace(env', w', ns);
    if ns != cr.deployedIn {
      HandleAlike(env, env', s1.w, s1'.w, cr.name, ns, cr.deployedIn);
      HandleKeeps(env, cr, I, s1.w, ns);
      HandleKeeps(env', cr, I, s1'.w, ns);
      var s2 := HandleNamespaceChanged(env, s1.w, cr.name, ns, cr.deployedIn);
      var s2' := HandleNamespaceChanged(env', s1'.w, cr.name, ns, cr.deployedIn);
      ComponentsAlike(env, env', s2.w, s2'.w, cr, ns);
    } else {
      ComponentsAlike(env, env', s1.w, s1'.w, cr, ns);
    }
  }

  /** Two passes that differ only in what belongs to the OVS controller return the same result, make the same other
      calls with the same answers, and agree, versions aside, on everything but the OVS ConfigMaps. */
  lemma PassAlike(env: Env, env': Env, w: World, w': World)
    requires SameButOvs(env, env') && Alike(w, w') && WellFormed(w.objs) && WellFormed(w'.objs)
    ensures StepAlike(Reconcile(env, w), Reconcile(env', w'))
  {
    hide WellFormed;
    hide ReconcileLive;
    MainCall(env, env', w, w', GetCollector);
    IssueObjects(env, w, Main, GetCollector);
    IssueObjects(env', w', Main, GetCollector);
    CollectorReply(env, w);
    CollectorReply(env', w');
    CollectorNotObject(env, w);
    CollectorNotObject(env', w');
    var a, a' := Issue(env, Main, w, GetCollector), Issue(env', Main, w', GetCollector);
    hide Issue;
    hide Alike;
    hide SameButOvs;
    if a.reply.FoundCollector? && !a.reply.cr.deleting {
      LiveAlike(env, env', a.w, a'.w, a.reply.cr);
    }
  }

  lemma CollectorNotObject(env: Env, w: World)
    ensures !Issue(env, Main, w, GetCollector).reply.Found?
  {
  }

  lemma EditAlike(w: World, w': World, spec: Spec)
    requires Alike(w, w')
    ensures Alike(EditSpec(w, spec), EditSpec(w', spec)) && Alike(w.(crashed := false), w'.(crashed := false))
  {
    hide MainExchanges;
    hide IsOvs;
    hide View;
  }

  lemma AlikeStatus(w: World, w': World)
    requires Alike(w, w')
    ensures w.cr == w'.cr
  {
  }

  /** Non-interference over runs: whatever the OVS ConfigMaps, the resolution of names and the faults of OVS calls, the
      same actions give alike worlds, and the pass that follows returns the same result. */
  lemma {:induction false} NonInterfering(env: Env, env': Env, w: World, w': World, actions: seq<Action>)
    requires SameButOvs(env, env') && Alike(w, w') && WellFormed(w.objs) && WellFormed(w'.objs) && w.cr.Some?
    ensures Alike(Run(env, w, actions), Run(env', w', actions))
    ensures StepAlike(Reconcile(env, Run(env, w, actions).(crashed := false)),
                      Reconcile(env', Run(env', w', actions).(crashed := false)))
    decreases |actions|
  {
    hide Alike;
    hide SameButOvs;
    hide WellFormed;
    hide Reconcile;
    AlikeStatus(w, w');
    if actions == [] {
      EditAlike(w, w', w.cr.value.spec);
      PassAlike(env, env', w.(crashed := false), w'.(crashed := false));
    } else {
      match actions[0] {
        case Edit(spec) =>
          EditAlike(w, w', spec);
        case Pass =>
          EditAlike(w, w', w.cr.value.spec);
          var w0, w0' := w.(crashed := false), w'.(crashed := false);
          PassAlike(env, env', w0, w0');
          TrivialClosed(env, w.cr.value);
          TrivialClosed(env', w.cr.value);
          PassKeeps(env, w.cr.value, (x: World) => true, w0);
          PassKeeps(env', w.cr.value, (x: World) => true, w0');
      }
      hide Closed;
      NonInterfering(env, env', Act(env, w, actions[0]), Act(env', w', actions[0]), actions[1..]);
    }
  }

}
