/** The console plugin over whole runs: its Deployment and its ConsolePlugin depend on the last specification alone;
    its Service remembers whether its port was ever edited. */
module PluginHistory {

  import opened Cluster
  import opened ClientHelper
  import opened Containment
  import opened Convergence
  import opened Effects
  import opened FlowCollectorTypes
  import opened PassInduction
  import opened Runs
  import opened Safety
  import opened Staleness
  import opened Wrappers
  import C = FlowCollectorController
  import P = PluginReconciler

  // ---- The Deployment and the ConsolePlugin ----

  ghost predicate PluginBuiltFrom(name: string, spec: Spec, k: Key, o: Object) {
    var cr, ns := Collector(name, spec), C.NamespaceOf(spec);
    || (k == P.PLUGIN_KEY && Same(o, Own(cr, P.BuildConsolePlugin(spec.consolePlugin, ns))))
    || (k == P.DeploymentKey(ns) && Same(o, Own(cr, P.BuildDeployment(spec.consolePlugin, spec.loki, ns))))
  }

  ghost predicate PluginBuilt(name: string, specs: set<Spec>, k: Key, o: Object) {
    exists spec :: spec in specs && PluginBuiltFrom(name, spec, k, o)
  }

  predicate Tracked(k: Key) {
    k == P.PLUGIN_KEY || (k.kind == Deployments && k.name == P.PLUGIN)
  }

  ghost predicate AllPluginBuilt(name: string, specs: set<Spec>, s: Snapshot) {
    && s.cr.Some? && s.cr.value.name == name && !s.cr.value.deleting
    && forall k :: Tracked(k) && k in s.objs ==> PluginBuilt(name, specs, k, s.objs[k])
  }

  lemma PluginWrite(env: Env, cr: FlowCollector, w: World, who: Cluster.Component, o: Object, stored: Object)
    requires CreateGuard(env, cr, w, who, o) || UpdateGuard(env, cr, w, who, o)
    requires Tracked(KeyOf(o)) && SavedAs(stored, o)
    ensures PluginBuiltFrom(cr.name, cr.spec, KeyOf(o), stored)
  {
    hide GoflowObject;
    hide ServiceOf;
    hide Cleared;
    hide P.BuildPodTemplate;
    NamesDiffer();
    var u := Unversioned(o);
    if who == Main {
      if GoflowObject(env, cr, w, o) {
        GoflowObjectKey(env, cr, w, o);
      } else if GoflowObject(env, cr, w, u) {
        GoflowObjectKey(env, cr, w, u);
      } else if ServiceOf(env, cr, None, o) {
        ServiceOfKey(env, cr, None, o);
      } else if KeyOf(o) in w.objs && ServiceOf(env, cr, Some(w.objs[KeyOf(o)]), o) {
        ServiceOfKey(env, cr, Some(w.objs[KeyOf(o)]), o);
      }
    }
  }

  lemma PluginBuiltStep(env: Env, cr: FlowCollector, specs: set<Spec>, w: World, who: Cluster.Component, call: Call)
    requires cr.spec in specs && AllPluginBuilt(cr.name, specs, Now(w)) && Guard(env, cr, w, who, call)
    ensures AllPluginBuilt(cr.name, specs, Now(Issue(env, who, w, call).w))
  {
    hide PluginBuilt;
    var objs := Issue(env, who, w, call).w.objs;
    if call.Create? || call.Update? {
      var o := call.obj;
      if call.Create? {
        CreateEffect(env, w, who, o);
      } else {
        UpdateEffect(env, w, who, o);
      }
      if objs != w.objs && Tracked(KeyOf(o)) {
        PluginWrite(env, cr, w, who, o, objs[KeyOf(o)]);
        PluginBuiltIntro(cr, specs, KeyOf(o), objs[KeyOf(o)]);
      }
    } else if call.Delete? {
      DeleteEffect(env, w, who, call.key);
    } else if call.UpdateStatus? {
      StatusEffect(env, w, who, call.namespace);
    } else {
      ReadEffect(env, w, who, call);
    }
    hide Issue;
    hide Guard;
    hide Tracked;
  }

  lemma PluginBuiltIntro(cr: FlowCollector, specs: set<Spec>, k: Key, o: Object)
    requires cr.spec in specs && PluginBuiltFrom(cr.name, cr.spec, k, o)
    ensures PluginBuilt(cr.name, specs, k, o)
  {
  }

  /** The plugin's Deployment and ConsolePlugin are those the specification asks for, the Deployment in its namespace
      and in no other. */
  ghost predicate PluginSettled(cr: FlowCollector, objs: Objects) {
    var p, loki, ns := cr.spec.consolePlugin, cr.spec.loki, C.NamespaceOf(cr.spec);
    && P.PLUGIN_KEY in objs && Same(objs[P.PLUGIN_KEY], Own(cr, P.BuildConsolePlugin(p, ns)))
    && (forall n :: P.DeploymentKey(n) in objs <==> n == ns)
    && Same(objs[P.DeploymentKey(ns)], Own(cr, P.BuildDeployment(p, loki, ns)))
  }

  lemma PluginDeploymentDesired(cr: FlowCollector, specs: set<Spec>, o: Object)
    requires PluginBuilt(cr.name, specs, P.DeploymentKey(C.NamespaceOf(cr.spec)), o)
    requires !P.DeploymentNeedsUpdate(o, cr.spec.consolePlugin, cr.spec.loki, C.NamespaceOf(cr.spec))
    ensures Same(o, Own(cr, P.BuildDeployment(cr.spec.consolePlugin, cr.spec.loki, C.NamespaceOf(cr.spec))))
  {
    hide P.BuildDeployment;
    hide P.DeploymentNeedsUpdate;
    var ns := C.NamespaceOf(cr.spec);
    var earlier :| earlier in specs && PluginBuiltFrom(cr.name, earlier, P.DeploymentKey(ns), o);
    PluginDeploymentExact(o, Collector(cr.name, earlier), earlier.consolePlugin, earlier.loki, ns,
                          cr.spec.consolePlugin, cr.spec.loki, ns);
  }

  lemma ConsolePluginDesired(cr: FlowCollector, specs: set<Spec>, o: Object)
    requires PluginBuilt(cr.name, specs, P.PLUGIN_KEY, o)
    requires !P.PluginNeedsUpdate(o, cr.spec.consolePlugin, C.NamespaceOf(cr.spec))
    ensures Same(o, Own(cr, P.BuildConsolePlugin(cr.spec.consolePlugin, C.NamespaceOf(cr.spec))))
  {
    hide P.BuildDeployment;
    var earlier :| earlier in specs && PluginBuiltFrom(cr.name, earlier, P.PLUGIN_KEY, o);
    ConsolePluginExact(o, Collector(cr.name, earlier), earlier.consolePlugin, C.NamespaceOf(earlier),
                       cr.spec.consolePlugin, C.NamespaceOf(cr.spec));
  }

  ghost predicate PluginInRun(env: Env, name: string, specs: set<Spec>, s: Snapshot) {
    Contained(env, s) && AllPluginBuilt(name, specs, s)
  }

  lemma UpToDateIsPluginSettled(env: Env, cr: FlowCollector, specs: set<Spec>, s: Snapshot)
    requires ReliableDeletes(env) && s.cr == Some(cr.(deployedIn := C.NamespaceOf(cr.spec)))
    requires PluginInRun(env, cr.name, specs, s) && PluginUpToDate(cr, s.objs, C.NamespaceOf(cr.spec))
    ensures PluginSettled(cr, s.objs)
  {
    hide PluginBuilt;
    hide P.PluginNeedsUpdate;
    hide P.DeploymentNeedsUpdate;
    hide P.BuildDeployment;
    hide P.BuildConsolePlugin;
    hide Neglected;
    NamesDiffer();
    var ns := C.NamespaceOf(cr.spec);
    assert Tracked(P.PLUGIN_KEY) && Tracked(P.DeploymentKey(ns));
    PluginDeploymentDesired(cr, specs, s.objs[P.DeploymentKey(ns)]);
    ConsolePluginDesired(cr, specs, s.objs[P.PLUGIN_KEY]);
    forall n ensures P.DeploymentKey(n) in s.objs <==> n == ns {
      assert n != ns ==> Workload(P.DeploymentKey(n)) && Foreign(s, P.DeploymentKey(n));
    }
  }

  lemma PluginInRunClosed(env: Env, cr: FlowCollector, name: string, specs: set<Spec>)
    requires cr.spec in specs && cr.name == name
    ensures StepClosed(env, cr, (s: Snapshot) => PluginInRun(env, name, specs, s))
  {
    hide Guard;
    hide Contained;
    hide AllPluginBuilt;
    hide WellFormed;
    var J := (s: Snapshot) => PluginInRun(env, name, specs, s);
    forall x, who, call | J(Now(x)) && !x.crashed && WellFormed(x.objs) && Guard(env, cr, x, who, call)
      ensures J(Now(Issue(env, who, x, call).w))
    {
      ContainedStep(env, cr, x, who, call);
      PluginBuiltStep(env, cr, specs, x, who, call);
    }
    hide Issue;
  }

  lemma PluginInRunEdit(env: Env, name: string, specs: set<Spec>, w: World, spec: Spec)
    requires PluginInRun(env, name, specs, Now(w))
    ensures PluginInRun(env, name, specs, Now(EditSpec(w, spec)))
  {
    hide PluginBuilt;
  }

  lemma FreshPluginInRun(env: Env, w: World, specs: set<Spec>)
    requires Fresh(w) && !w.cr.value.deleting
    ensures PluginInRun(env, w.cr.value.name, specs, Now(w))
  {
    hide PluginBuilt;
    NamesDiffer();
  }

  lemma RunPluginBuilt(env: Env, w: World, actions: seq<Action>)
    requires Fresh(w) && !w.cr.value.deleting
    ensures var w' := Run(env, w, actions); var name, specs := w.cr.value.name, SpecsOf(w, actions);
            && Always((s: Snapshot) => PluginInRun(env, name, specs, s), w')
            && WellFormed(w'.objs) && w'.cr.Some? && w'.cr.value.name == name && w'.cr.value.spec in specs
  {
    var name, specs := w.cr.value.name, SpecsOf(w, actions);
    var J := (s: Snapshot) => PluginInRun(env, name, specs, s);
    FreshPluginInRun(env, w, specs);
    hide Fresh;
    hide AllPluginBuilt;
    hide Contained;
    hide StepClosed;
    forall cr: FlowCollector | cr.spec in specs && cr.name == name ensures StepClosed(env, cr, J) {
      PluginInRunClosed(env, cr, name, specs);
    }
    forall x, spec | J(Now(x)) ensures J(Now(EditSpec(x, spec))) {
      PluginInRunEdit(env, name, specs, x, spec);
    }
    hide PluginInRun;
    RunAlways(env, specs, name, J, w, actions);
  }

  /** After any run with reliable deletes, a pass that succeeds leaves the plugin's Deployment and ConsolePlugin as the
      specification asks for them, whatever the history. */
  lemma PluginConverges(env: Env, w: World, actions: seq<Action>)
    requires Fresh(w) && !w.cr.value.deleting && ReliableDeletes(env) && env.consoleEnabled
    ensures var w1, s := Run(env, w, actions), NextPass(env, w, actions);
            w1.cr.Some? && (Succeeded(s) ==> PluginSettled(w1.cr.value, s.w.objs))
  {
    hide ReliableDeletes;
    hide PluginSettled;
    hide UpToDate;
    hide PluginUpToDate;
    hide WellFormed;
    hide C.Reconcile;
    hide StepClosed;
    RunPluginBuilt(env, w, actions);
    var w1 := Run(env, w, actions);
    hide Run;
    hide Fresh;
    var cr, specs := w1.cr.value, SpecsOf(w, actions);
    var J := (s: Snapshot) => PluginInRun(env, cr.name, specs, s);
    assert !cr.deleting by { assert J(Now(w1)); }
    PluginInRunClosed(env, cr, cr.name, specs);
    PassAlways(env, J, w1);
    var s := NextPass(env, w, actions);
    PassSettles(env, w1.(crashed := false));
    if Succeeded(s) {
      assert J(Now(s.w));
      UpToDateIsPluginSettled(env, cr, specs, Now(s.w));
    }
  }

}
