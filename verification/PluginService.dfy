/** The exception: the console Service, created over TCP and updated to UDP, is a function of its whole history. */
module PluginService {

  import opened Cluster
  import opened ClientHelper
  import opened Containment
  import opened Effects
  import opened FlowCollectorTypes
  import opened Lifecycle
  import Ownership
  import opened ObjectManager
  import opened PassInduction
  import opened Runs
  import opened Safety
  import opened Success
  import opened Wrappers
  import C = FlowCollectorController
  import F = FlowsConfig
  import G = GoflowReconciler
  import GO = GoflowObjects
  import P = PluginReconciler

  /** What the create path builds is found up to date. */
  lemma CreatedIsUpToDate(p: ConsolePluginSpec, ns: string)
    ensures !P.ServiceNeedsUpdate(P.BuildService(None, p, ns), p, ns)
  {
    assert P.BuildService(None, p, ns).body.ports[0] == ServicePort(p.port, TCP);
  }

  /** What the update path builds is found out of date, by every later pass, whatever it wants. */
  lemma UpdatedIsStale(svc: Object, p: ConsolePluginSpec, ns: string, p': ConsolePluginSpec, ns': string)
    requires svc.body.Service?
    ensures P.ServiceNeedsUpdate(P.BuildService(Some(svc), p, ns), p', ns')
  {
    assert P.BuildService(Some(svc), p, ns).body.ports == [ServicePort(p.port, UDP)];
  }

  // ---- One pass ----

  /** The ports of the console Service, if there is one. */
  function Ports(objs: Objects, ns: string): Option<seq<ServicePort>> {
    var svc := Lookup(objs, P.ServiceKey(ns));
    if svc.Some? && svc.value.body.Service? then Some(svc.value.body.ports) else None
  }

  function NextPorts(ports: Option<seq<ServicePort>>, port: int32): seq<ServicePort> {
    if ports.None? then [ServicePort(port, TCP)]
    else if ServicePort(port, TCP) in ports.value then ports.value
    else [ServicePort(port, UDP)]
  }

  /** The ports after a step for `port`: the next ones if it succeeded, those of before if it did not. */
  ghost predicate Ported(w: World, s: Step, ns: string, port: int32) {
    Ports(s.w.objs, ns) == if s.st.Ok? then Some(NextPorts(Ports(w.objs, ns), port)) else Ports(w.objs, ns)
  }

  lemma ServicePorts(env: Env, cr: FlowCollector, w: World, svc: Option<Object>, ns: string)
    requires FaultFree(env) && !w.crashed && WellFormed(w.objs)
    requires svc == Lookup(w.objs, P.ServiceKey(ns))
    ensures Ported(w, P.ReconcileService(env, w, cr.name, svc, cr.spec.consolePlugin, ns), ns,
        cr.spec.consolePlugin.port)
  {
    var wanted := P.BuildService(svc, cr.spec.consolePlugin, ns);
    assert KeyOf(wanted) == P.ServiceKey(ns);
    FaultFreePasses(env);
    hide FaultFree;
    if svc.None? {
      CreateAnswered(env, {}, cr, w, wanted);
    } else if P.ServiceNeedsUpdate(svc.value, cr.spec.consolePlugin, ns) {
      UpdateAnswered(env, {}, cr, w, svc, wanted);
    }
    hide Issue;
  }

  lemma PluginPorts(env: Env, cr: FlowCollector, w: World, ns: string)
    requires FaultFree(env) && !w.crashed && WellFormed(w.objs)
    ensures Ported(w, P.Reconcile(env, w, cr.name, cr.spec.consolePlugin, cr.spec.loki, ns), ns,
        cr.spec.consolePlugin.port)
  {
    hide FetchAll;
    hide WellFormed;
    hide FaultFree;
    hide PassesBut;
    hide P.ReconcilePlugin;
    hide P.ReconcileDeployment;
    hide P.ReconcileService;
    hide P.ServiceNeedsUpdate;
    hide P.PluginNeedsUpdate;
    hide P.DeploymentNeedsUpdate;
    NamesDiffer();
    var p, loki := cr.spec.consolePlugin, cr.spec.loki;
    FaultFreePasses(env);
    FetchAllAnswered(env, {}, w, P.ManagedKeys(ns));
    FetchAllEffect(env, w, P.ManagedKeys(ns));
    var f := FetchAll(env, w, P.ManagedKeys(ns));
    Answered(env, {}, f.w, Main, Get(P.PLUGIN_KEY));
    IssueObjects(env, f.w, Main, Get(P.PLUGIN_KEY));
    GetReply(env, f.w, Main, P.PLUGIN_KEY);
    var a := Issue(env, Main, f.w, Get(P.PLUGIN_KEY));
    hide Issue;
    var plugin := if a.reply.Found? then Some(a.reply.obj) else None;
    ConsolePluginSettles(env, cr, a.w, plugin, ns);
    var s1 := P.ReconcilePlugin(env, a.w, cr.name, plugin, p, ns);
    PluginDeploymentSettles(env, cr, s1.w, f.found[0], ns);
    var s2 := P.ReconcileDeployment(env, s1.w, cr.name, f.found[0], p, loki, ns);
    FirstTwoAnswered(env, cr, a.w, plugin, f.found[0], ns);
    assert Lookup(a.w.objs, P.ServiceKey(ns)) == Lookup(s2.w.objs, P.ServiceKey(ns));
    ServicePorts(env, cr, s2.w, f.found[1], ns);
  }

  lemma FirstTwoAnswered(
      env: Env, cr: FlowCollector, w: World, plugin: Option<Object>, depl: Option<Object>, ns: string)
    requires FaultFree(env) && !w.crashed && WellFormed(w.objs)
    requires plugin == Lookup(w.objs, P.PLUGIN_KEY) && depl == Lookup(w.objs, P.DeploymentKey(ns))
    ensures var s1 := P.ReconcilePlugin(env, w, cr.name, plugin, cr.spec.consolePlugin, ns);
            var s2 := P.ReconcileDeployment(env, s1.w, cr.name, depl, cr.spec.consolePlugin, cr.spec.loki, ns);
            s1.st.Ok? && s2.st.Ok? && !s2.w.crashed
  {
    FaultFreePasses(env);
    hide FaultFree;
    hide WellFormed;
    hide Ensure;
    hide P.BuildPodTemplate;
    hide P.DeploymentNeedsUpdate;
    var p, loki := cr.spec.consolePlugin, cr.spec.loki;
    var stale1 := plugin.Some? && P.PluginNeedsUpdate(plugin.value, p, ns);
    EnsureAnswered(env, {}, cr, w, plugin, stale1, P.BuildConsolePlugin(p, ns));
    var s1 := P.ReconcilePlugin(env, w, cr.name, plugin, p, ns);
    assert Lookup(w.objs, P.DeploymentKey(ns)) == Lookup(s1.w.objs, P.DeploymentKey(ns));
    var stale2 := depl.Some? && P.DeploymentNeedsUpdate(depl.value, p, loki, ns);
    EnsureAnswered(env, {}, cr, s1.w, depl, stale2, P.BuildDeployment(p, loki, ns));
  }

  lemma ComponentsPorts(env: Env, cr: FlowCollector, w: World, ns: string)
    requires FaultFree(env) && env.consoleEnabled && !w.crashed && WellFormed(w.objs)
    ensures Ported(w, C.ReconcileComponents(env, w, cr, ns), ns, cr.spec.consolePlugin.port)
  {
    hide FaultFree;
    hide PassesBut;
    hide WellFormed;
    hide Present;
    hide UpToDate;
    hide GoflowServiceBlocked;
    hide G.Reconcile;
    hide F.Reconcile;
    hide P.Reconcile;
    NamesDiffer();
    FaultFreePasses(env);
    assert GoflowKeys(ns) !! {};
    GoflowAnswered(env, {}, cr, w, ns);
    GoflowSettles(env, cr, w, ns);
    var s := G.Reconcile(env, w, cr.name, cr.spec.goflowKube, cr.spec.loki, ns);
    assert Lookup(w.objs, P.ServiceKey(ns)) == Lookup(s.w.objs, P.ServiceKey(ns));
    if s.st.Ok? {
      OvsEffect(env, s.w, cr.name, cr.spec, ns);
      OvsAnswered(env, {}, s.w, cr.name, cr.spec, ns);
      var o := F.Reconcile(env, s.w, cr.name, cr.spec, ns);
      assert Lookup(s.w.objs, P.ServiceKey(ns)) == Lookup(o.w.objs, P.ServiceKey(ns));
      PluginPorts(env, cr, o.w, ns);
    }
  }

  /** The ports after a pass, from the specification, the committed namespace and the ports before it. */
  function PortsAfter(spec: Spec, deployedIn: string, ports: Option<seq<ServicePort>>): Option<seq<ServicePort>> {
    var kept := if C.NamespaceOf(spec) == deployedIn then ports else None;
    if ValidKind(spec) then Some(NextPorts(kept, spec.consolePlugin.port)) else kept
  }

  function PortsNow(w: World): Option<seq<ServicePort>>
    requires w.cr.Some?
  {
    Ports(w.objs, w.cr.value.deployedIn)
  }

  lemma NoForeignService(env: Env, w: World, ns: string)
    requires ReliableDeletes(env) && w.cr.Some? && Contained(env, Now(w)) && w.cr.value.deployedIn != ns
    ensures P.ServiceKey(ns) !in w.objs
  {
    assert Workload(P.ServiceKey(ns)) && Foreign(Now(w), P.ServiceKey(ns));
  }

  lemma PrepareKeepsService(env: Env, cr: FlowCollector, w: World, ns: string)
    requires FaultFree(env) && Live(w) && w.cr == Some(cr) && ns == C.NamespaceOf(cr.spec)
    ensures Lookup(Prepare(env, w, cr, ns).w.objs, P.ServiceKey(ns)) == Lookup(w.objs, P.ServiceKey(ns))
  {
    hide WellFormed;
    hide C.HandleNamespaceChanged;
    if ns != cr.deployedIn {
      FaultFreePasses(env);
      HandleAnswered(env, {}, cr, w, ns);
      ServicesNotMoved(cr, ns);
    }
  }

  /** Without faults, from any state: a pass that succeeds turns the ports of the console Service in its namespace into
      the next ones, and one that does not leaves them as they are. */
  lemma PassPorts(env: Env, w: World)
    requires FaultFree(env) && env.consoleEnabled && Live(w)
    ensures var spec := w.cr.value.spec;
            Ported(w, C.Reconcile(env, w), C.NamespaceOf(spec), spec.consolePlugin.port)
  {
    hide FaultFree;
    hide PassesBut;
    hide WellFormed;
    hide Entry;
    hide Preparation;
    hide Prepare;
    hide C.Reconcile;
    hide C.ReconcileComponents;
    hide Ready;
    hide ServiceBlocked;
    hide NextPorts;
    var cr := w.cr.value;
    var ns := C.NamespaceOf(cr.spec);
    FaultFreePasses(env);
    EntryAnswered(env, {}, w);
    var e := Entry(env, w, cr);
    assert Lookup(w.objs, P.ServiceKey(ns)) == Lookup(e.objs, P.ServiceKey(ns));
    PrepareAnswered(env, {}, cr, e, ns);
    PrepareKeepsService(env, cr, e, ns);
    ComponentsPorts(env, cr, Prepare(env, e, cr, ns).w, ns);
  }

  /** In a run from a fresh cluster, so read off the specification, the committed namespace and the ports before it. */
  lemma PassPortsNow(env: Env, w: World)
    requires FaultFree(env) && env.consoleEnabled && Consistent(env, w) && Contained(env, Now(w))
    requires !ServiceBlocked(env, w.cr.value, w.objs)
    ensures var w' := C.Reconcile(env, w).w;
            w'.cr.Some? && PortsNow(w') == PortsAfter(w.cr.value.spec, w.cr.value.deployedIn, PortsNow(w))
  {
    hide FaultFree;
    hide PassesBut;
    hide Statics;
    hide WellFormed;
    hide Contained;
    hide C.Reconcile;
    hide Ready;
    hide ServiceBlocked;
    hide ValidKind;
    hide NextPorts;
    var cr := w.cr.value;
    FaultFreePasses(env);
    DeletesReliable(env);
    StaticsReady(env, cr, w.objs);
    PassAnswered(env, {}, w);
    PassPorts(env, w);
    if C.NamespaceOf(cr.spec) != cr.deployedIn {
      NoForeignService(env, w, C.NamespaceOf(cr.spec));
    }
  }

  lemma DeletesReliable(env: Env)
    requires FaultFree(env)
    ensures ReliableDeletes(env)
  {
  }

  // ---- Whole runs ----

  /** The ports after a run, read off its actions alone. */
  function PortsOfHistory(spec: Spec, deployedIn: string, ports: Option<seq<ServicePort>>, actions: seq<Action>)
    : Option<seq<ServicePort>>
    decreases |actions|
  {
    if actions == [] then ports
    else match actions[0]
      case Edit(spec') => PortsOfHistory(spec', deployedIn, ports, actions[1..])
      case Pass => PortsOfHistory(spec, C.NamespaceOf(spec), PortsAfter(spec, deployedIn, ports), actions[1..])
  }

  /** What a fault-free run keeps at the end of each pass. */
  ghost predicate Steadfast(env: Env, name: string, before: set<Key>, w: World) {
    && Consistent(env, w) && Contained(env, Now(w)) && Ownership.Owned(name, before, Now(w))
  }

  lemma OwnServicesUnblocked(env: Env, name: string, before: set<Key>, w: World)
    requires w.cr.Some? && Ownership.Owned(name, before, Now(w))
    requires forall n :: GO.ServiceKey(n) !in before && P.ServiceKey(n) !in before
    ensures !ServiceBlocked(env, w.cr.value, w.objs)
  {
  }

  lemma SteadfastPass(env: Env, name: string, before: set<Key>, w: World)
    requires FaultFree(env) && Steadfast(env, name, before, w)
    ensures Steadfast(env, name, before, C.Reconcile(env, w).w)
  {
    hide FaultFree;
    hide Statics;
    hide WellFormed;
    hide C.Reconcile;
    hide Contained;
    hide Ownership.Owned;
    hide Guard;
    var cr := w.cr.value;
    assert cr.name == name by { OwnedName(name, before, w); }
    PassStatics(env, w);
    var I := (x: World) => Contained(env, Now(x)) && Ownership.Owned(name, before, Now(x));
    forall x, who, call | I(x) && !x.crashed && WellFormed(x.objs) && Guard(env, cr, x, who, call)
      ensures I(Issue(env, who, x, call).w)
    {
      ContainedStep(env, cr, x, who, call);
      Ownership.OwnedStep(env, cr, x, who, call, before);
    }
    hide Issue;
    PassKeeps(env, cr, I, w);
  }

  lemma OwnedName(name: string, before: set<Key>, w: World)
    requires w.cr.Some? && Ownership.Owned(name, before, Now(w))
    ensures w.cr.value.name == name
  {
  }

  lemma SteadfastEdit(env: Env, name: string, before: set<Key>, w: World, spec: Spec)
    requires Steadfast(env, name, before, w)
    ensures Steadfast(env, name, before, EditSpec(w, spec))
  {
  }

  lemma {:induction false} HistoryPorts(env: Env, name: string, before: set<Key>, w: World, actions: seq<Action>)
    requires FaultFree(env) && env.consoleEnabled && Steadfast(env, name, before, w)
    requires forall n :: GO.ServiceKey(n) !in before && P.ServiceKey(n) !in before
    ensures var w' := Run(env, w, actions);
            && w'.cr.Some?
            && PortsNow(w') == PortsOfHistory(w.cr.value.spec, w.cr.value.deployedIn, PortsNow(w), actions)
    decreases |actions|
  {
    hide FaultFree;
    hide Statics;
    hide WellFormed;
    hide C.Reconcile;
    hide Contained;
    hide Ownership.Owned;
    hide ServiceBlocked;
    hide PortsAfter;
    if actions == [] {
    } else {
      match actions[0] {
        case Edit(spec) =>
          SteadfastEdit(env, name, before, w, spec);
        case Pass =>
          assert w.(crashed := false) == w;
          OwnServicesUnblocked(env, name, before, w);
          PassPortsNow(env, w);
          PassStatics(env, w);
          SteadfastPass(env, name, before, w);
      }
      HistoryPorts(env, name, before, Act(env, w, actions[0]), actions[1..]);
    }
  }

  /** From a fresh cluster, when no call fails, the ports of the console Service are a function of the whole history of
      edits and passes. */
  lemma ConsoleServiceHistory(env: Env, w: World, actions: seq<Action>)
    requires FaultFree(env) && env.consoleEnabled && Fresh(w) && Live(w)
    ensures var w' := Run(env, w, actions);
            w'.cr.Some? && PortsNow(w') == PortsOfHistory(w.cr.value.spec, "", None, actions)
  {
    hide FaultFree;
    hide PortsOfHistory;
    FreshConsistent(env, w);
    NamesDiffer();
    assert Contained(env, Now(w));
    HistoryPorts(env, w.cr.value.name, w.objs.Keys, w, actions);
    hide Run;
  }

  /** Every pass of the history is for a valid kind in namespace ns. */
  predicate StaysIn(spec: Spec, ns: string, actions: seq<Action>)
    decreases |actions|
  {
    actions == [] ||
    match actions[0]
    case Edit(spec') => StaysIn(spec', ns, actions[1..])
    case Pass => C.NamespaceOf(spec) == ns && ValidKind(spec) && StaysIn(spec, ns, actions[1..])
  }

  /** Every pass of the history is for port p. */
  predicate KeepsPort(spec: Spec, p: int32, actions: seq<Action>)
    decreases |actions|
  {
    actions == [] ||
    match actions[0]
    case Edit(spec') => KeepsPort(spec', p, actions[1..])
    case Pass => spec.consolePlugin.port == p && KeepsPort(spec, p, actions[1..])
  }

  predicate SingleUDP(ports: seq<ServicePort>) {
    |ports| == 1 && ports[0].protocol == UDP
  }

  lemma TCPKept(p: int32, port: int32)
    ensures NextPorts(Some([ServicePort(p, TCP)]), port)
         == if port == p then [ServicePort(p, TCP)] else [ServicePort(port, UDP)]
  {
    assert [ServicePort(p, TCP)][0] == ServicePort(p, TCP);
  }

  /** Within one namespace, the Service still has the port it was created with, over TCP, exactly when no pass ever
      asked for another port; it does not come back when the port does. */
  lemma {:induction false} TCPExactly(spec: Spec, ns: string, p: int32, ports: seq<ServicePort>, actions: seq<Action>)
    requires StaysIn(spec, ns, actions)
    requires ports == [ServicePort(p, TCP)] || SingleUDP(ports)
    ensures PortsOfHistory(spec, ns, Some(ports), actions) == Some([ServicePort(p, TCP)])
       <==> ports == [ServicePort(p, TCP)] && KeepsPort(spec, p, actions)
    decreases |actions|
  {
    if actions == [] {
      assert SingleUDP(ports) ==> ports[0] != ServicePort(p, TCP);
    } else {
      match actions[0] {
        case Edit(spec') =>
          TCPExactly(spec', ns, p, ports, actions[1..]);
        case Pass =>
          TCPKept(p, spec.consolePlugin.port);
          var next := NextPorts(Some(ports), spec.consolePlugin.port);
          assert SingleUDP(ports) ==> ServicePort(spec.consolePlugin.port, TCP) !in ports;
          TCPExactly(spec, ns, p, next, actions[1..]);
      }
    }
  }

  /** The specification after a run is the last one edited in. */
  function SpecAfter(spec: Spec, actions: seq<Action>): Spec
    decreases |actions|
  {
    if actions == [] then spec
    else SpecAfter(if actions[0].Edit? then actions[0].spec else spec, actions[1..])
  }

  lemma {:induction false} LastSpec(env: Env, w: World, actions: seq<Action>)
    requires w.cr.Some? && WellFormed(w.objs)
    ensures var w' := Run(env, w, actions); w'.cr.Some? && w'.cr.value.spec == SpecAfter(w.cr.value.spec, actions)
    decreases |actions|
  {
    hide WellFormed;
    hide C.Reconcile;
    if actions == [] {
    } else {
      if actions[0].Pass? {
        TrivialClosed(env, w.cr.value);
        PassKeeps(env, w.cr.value, (x: World) => true, w.(crashed := false));
      }
      hide Closed;
      LastSpec(env, Act(env, w, actions[0]), actions[1..]);
    }
  }

  lemma SpecAfterEdit(spec: Spec, last: Spec, actions: seq<Action>)
    ensures SpecAfter(spec, actions + [Edit(last), Action.Pass]) == last
    decreases |actions|
  {
    var all := actions + [Edit(last), Action.Pass];
    if actions == [] {
      assert all[1..] == [Action.Pass] && [Action.Pass][1..] == [];
    } else {
      assert all[1..] == actions[1..] + [Edit(last), Action.Pass];
      SpecAfterEdit(if actions[0].Edit? then actions[0].spec else spec, last, actions[1..]);
    }
  }

  /** Two histories with the same last specification and different Services: editing the port and editing it back
      leaves the Service over UDP. */
  lemma ServiceRemembers(env: Env, w: World, spec: Spec, other: int32)
    requires FaultFree(env) && env.consoleEnabled && Fresh(w) && Live(w) && ValidKind(spec)
    requires other != spec.consolePlugin.port
    ensures var p := spec.consolePlugin.port;
            var once := Run(env, w, [Edit(spec), Action.Pass]);
            var edited := spec.(consolePlugin := spec.consolePlugin.(port := other));
            var back := Run(env, w, [Edit(edited), Action.Pass, Edit(spec), Action.Pass]);
            && once.cr.Some? && back.cr.Some? && once.cr.value.spec == back.cr.value.spec
            && PortsNow(once) == Some([ServicePort(p, TCP)])
            && PortsNow(back) == Some([ServicePort(p, UDP)])
  {
    hide FaultFree;
    hide Fresh;
    hide WellFormed;
    hide C.Reconcile;
    hide PortsNow;
    var p := spec.consolePlugin.port;
    var edited := spec.(consolePlugin := spec.consolePlugin.(port := other));
    ConsoleServiceHistory(env, w, [Edit(spec), Action.Pass]);
    ConsoleServiceHistory(env, w, [Edit(edited), Action.Pass, Edit(spec), Action.Pass]);
    LastSpec(env, w, [Edit(spec), Action.Pass]);
    LastSpec(env, w, [Edit(edited), Action.Pass, Edit(spec), Action.Pass]);
    SpecAfterEdit(w.cr.value.spec, spec, []);
    SpecAfterEdit(w.cr.value.spec, spec, [Edit(edited), Action.Pass]);
    assert [] + [Edit(spec), Action.Pass] == [Edit(spec), Action.Pass];
    assert [Edit(edited), Action.Pass] + [Edit(spec), Action.Pass]
        == [Edit(edited), Action.Pass, Edit(spec), Action.Pass];
    hide Run;
    hide SpecAfter;
    HistoryOfTwo(spec, edited, w.cr.value.spec);
  }

  lemma HistoryOfTwo(spec: Spec, edited: Spec, first: Spec)
    requires ValidKind(spec) && C.NamespaceOf(spec) == C.NamespaceOf(edited) && edited.goflowKube == spec.goflowKube
    requires spec.consolePlugin.port != edited.consolePlugin.port
    ensures PortsOfHistory(first, "", None, [Edit(spec), Action.Pass])
        == Some([ServicePort(spec.consolePlugin.port, TCP)])
    ensures PortsOfHistory(first, "", None, [Edit(edited), Action.Pass, Edit(spec), Action.Pass])
         == Some([ServicePort(spec.consolePlugin.port, UDP)])
  {
    var ns, p, other := C.NamespaceOf(spec), spec.consolePlugin.port, edited.consolePlugin.port;
    TCPKept(other, p);
    var one := [Edit(spec), Action.Pass];
    assert one[1..] == [Action.Pass] && [Action.Pass][1..] == [];
    assert PortsOfHistory(spec, "", None, [Action.Pass]) == Some([ServicePort(p, TCP)]);
    var two := [Edit(edited), Action.Pass, Edit(spec), Action.Pass];
    assert two[1..] == [Action.Pass] + one && ([Action.Pass] + one)[1..] == one;
    var tcp := Some([ServicePort(other, TCP)]);
    assert PortsOfHistory(edited, "", None, [Action.Pass] + one) == PortsOfHistory(edited, ns, tcp, one);
    assert PortsOfHistory(edited, ns, tcp, one) == PortsOfHistory(spec, ns, tcp, [Action.Pass]);
  }

}
