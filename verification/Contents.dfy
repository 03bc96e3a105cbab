/** What the objects say after a pass that succeeds, read off the objects and the specification alone. */
module Contents {

  import opened Cluster
  import opened ClientHelper
  import opened Containment
  import opened Convergence
  import opened Effects
  import opened FlowCollectorTypes
  import opened OvsController
  import opened PassInduction
  import opened Quiescence
  import opened Runs
  import opened Safety
  import opened Shapes
  import opened Staleness
  import opened Success
  import opened Wrappers
  import C = FlowCollectorController
  import D = Digest
  import F = FlowsConfig
  import G = GoflowReconciler
  import GO = GoflowObjects
  import GoflowConfig
  import P = PluginReconciler

  // ---- The collector ----

  /** The pod runs the collector as specified, and is marked with the digest of the configuration text. */
  predicate RunsCollector(t: PodTemplate, gf: GoflowKube, text: string) {
    && |t.containers| == 1
    && var c := t.containers[0];
    && c.image == gf.image && c.imagePullPolicy == gf.imagePullPolicy && c.resources == gf.resources
    && |c.command| == 3
    && c.command[2] == "/goflow-kube -loglevel \"" + gf.logLevel + "\" -config /etc/goflow-kube/config.yaml"
    && "flows.netobserv.io/goflow-kube-config" in t.annotations
    && t.annotations["flows.netobserv.io/goflow-kube-config"] == D.Digest(text)
  }

  /** The Deployment, the Service that sends flows to its pods, and the autoscaler that scales it. */
  predicate DeploymentDelivered(
    gf: GoflowKube, text: string, deployment: Option<Object>, service: Option<Object>, autoscaler: Option<Object>)
  {
    && deployment.Some? && deployment.value.body.Deployment?
    && deployment.value.body.replicas == gf.replicas
    && RunsCollector(deployment.value.body.template, gf, text)
    && service.Some? && service.value.body.Service?
    && service.value.body.ports == [ServicePort(gf.port, UDP)]
    && (gf.hpa.Some? ==>
          && autoscaler.Some? && autoscaler.value.body.Autoscaler?
          && autoscaler.value.body.minReplicas == gf.hpa.value.minReplicas
          && autoscaler.value.body.maxReplicas == gf.hpa.value.maxReplicas
          && autoscaler.value.body.targetCPU == gf.hpa.value.targetCPU)
    && DeploymentMatched(deployment, service, if gf.hpa.Some? then autoscaler else None)
  }

  predicate DaemonSetDelivered(gf: GoflowKube, text: string, daemonSet: Option<Object>) {
    && daemonSet.Some? && daemonSet.value.body.DaemonSet?
    && RunsCollector(daemonSet.value.body.template, gf, text)
    && DaemonSetMatched(daemonSet)
  }

  /** The stored text says what the specification says, and the workload of its kind runs with that text. */
  ghost predicate CollectorDelivered(spec: Spec, objs: Objects) {
    var ns, gf, cm := C.NamespaceOf(spec), spec.goflowKube, Lookup(objs, Key(ConfigMaps, C.NamespaceOf(spec),
                                                                             "goflow-kube-config"));
    && cm.Some? && cm.value.body.ConfigMap? && "config.yaml" in cm.value.body.data
    && var text := cm.value.body.data["config.yaml"];
    && GoflowConfig.Says(text, gf, spec.loki)
    && gf.kind in {"Deployment", "DaemonSet"}
    && (gf.kind == "Deployment" ==>
          DeploymentDelivered(gf, text, Lookup(objs, Key(Deployments, ns, "goflow-kube")),
                              Lookup(objs, Key(Services, ns, "goflow-kube")),
                              Lookup(objs, Key(Autoscalers, ns, "goflow-kube"))))
    && (gf.kind == "DaemonSet" ==>
          DaemonSetDelivered(gf, text, Lookup(objs, Key(DaemonSets, ns, "goflow-kube"))))
  }

  lemma OneContainer(containers: seq<Container>, name: string)
    requires |containers| == 1 && containers[0].name == name
    ensures FindContainer(containers, name) == Some(containers[0])
  {
  }

  /** What the comparison has seen of a pod of the operator's form. */
  lemma SeenToRun(t: PodTemplate, selector: map<string, string>, gf: GoflowKube, text: string)
    requires PodShaped("goflow-kube", selector, t)
    requires !G.ContainerNeedsUpdate(t, gf) && !G.ConfigChanged(t, D.Digest(text))
    ensures RunsCollector(t, gf, text)
  {
    hide D.Digest;
    OneContainer(t.containers, "goflow-kube");
  }

  lemma DeploymentArrives(cr: FlowCollector, objs: Objects, ns: string, text: string)
    requires AllShaped(Snapshot(objs, Some(cr), []))
    requires DeploymentPresent(objs, cr.spec.goflowKube, ns, D.Digest(text))
    ensures DeploymentDelivered(cr.spec.goflowKube, text, Lookup(objs, Key(Deployments, ns, "goflow-kube")),
                                Lookup(objs, Key(Services, ns, "goflow-kube")),
                                Lookup(objs, Key(Autoscalers, ns, "goflow-kube")))
  {
    hide RunsCollector;
    hide G.ContainerNeedsUpdate;
    hide G.ConfigChanged;
    hide D.Digest;
    hide CollectorShaped;
    hide PodShaped;
    hide DaemonSetMatched;
    var gf, k, svc := cr.spec.goflowKube, GO.DeploymentKey(ns), GO.ServiceKey(ns);
    assert Ours(k) && Ours(svc);
    SeenToRun(objs[k].body.template, objs[k].body.selector, gf, text);
    ShapedMatched(Snapshot(objs, Some(cr), []), ns, "goflow-kube");
    hide DeploymentMatched;
  }

  lemma DaemonSetArrives(cr: FlowCollector, objs: Objects, ns: string, text: string)
    requires AllShaped(Snapshot(objs, Some(cr), []))
    requires DaemonSetPresent(objs, cr.spec.goflowKube, ns, D.Digest(text))
    ensures DaemonSetDelivered(cr.spec.goflowKube, text, Lookup(objs, Key(DaemonSets, ns, "goflow-kube")))
  {
    hide RunsCollector;
    hide G.ContainerNeedsUpdate;
    hide G.ConfigChanged;
    hide D.Digest;
    hide CollectorShaped;
    hide PodShaped;
    hide DeploymentMatched;
    var k := GO.DaemonSetKey(ns);
    assert Ours(k);
    SeenToRun(objs[k].body.template, objs[k].body.selector, cr.spec.goflowKube, text);
    ShapedMatched(Snapshot(objs, Some(cr), []), ns, "goflow-kube");
    hide DaemonSetMatched;
  }

  /** The stored configuration, and the text it holds. */
  lemma ConfigArrives(cr: FlowCollector, o: Object, ns: string)
    requires Same(o, Own(cr, GO.BuildConfigMap(cr.spec.goflowKube, cr.spec.loki, ns)))
    ensures o.body.ConfigMap? && "config.yaml" in o.body.data
    ensures var text := o.body.data["config.yaml"];
            && GoflowConfig.Says(text, cr.spec.goflowKube, cr.spec.loki)
            && GO.ConfigDigest(cr.spec.goflowKube, cr.spec.loki) == D.Digest(text)
  {
    hide GoflowConfig.Says;
    hide GoflowConfig.ConfigText;
    hide D.Digest;
    GoflowConfig.TextSays(cr.spec.goflowKube, cr.spec.loki);
  }

  lemma CollectorArrives(cr: FlowCollector, objs: Objects)
    requires AllShaped(Snapshot(objs, Some(cr), [])) && Present(cr, objs, C.NamespaceOf(cr.spec))
    ensures CollectorDelivered(cr.spec, objs)
  {
    hide AllShaped;
    hide Same;
    hide GO.BuildConfigMap;
    hide GO.ConfigDigest;
    hide GoflowConfig.Says;
    hide DeploymentPresent;
    hide DaemonSetPresent;
    hide DeploymentDelivered;
    hide DaemonSetDelivered;
    hide D.Digest;
    var ns := C.NamespaceOf(cr.spec);
    ConfigArrives(cr, objs[GO.ConfigMapKey(ns)], ns);
    var text := objs[GO.ConfigMapKey(ns)].body.data["config.yaml"];
    if cr.spec.goflowKube.kind == DEPLOYMENT_KIND {
      DeploymentArrives(cr, objs, ns, text);
    } else {
      DaemonSetArrives(cr, objs, ns, text);
    }
  }

  // ---- The console plugin ----

  /** The plugin's pod queries the querier if there is one, and Loki otherwise. */
  predicate RunsPlugin(t: PodTemplate, p: ConsolePluginSpec, loki: Loki) {
    && |t.containers| == 1
    && var c := t.containers[0];
    && c.image == p.image && c.imagePullPolicy == p.imagePullPolicy && c.resources == p.resources
    && |c.args| == 6 && c.args[4] == "-loki"
    && (loki.querierURL != "" ==> c.args[5] == loki.querierURL)
    && (loki.querierURL == "" ==> c.args[5] == loki.url)
  }

  /** The ConsolePlugin points at the Service in place, which selects the pods of the Deployment in place. */
  ghost predicate PluginDelivered(spec: Spec, objs: Objects) {
    var ns, p := C.NamespaceOf(spec), spec.consolePlugin;
    var plugin := Lookup(objs, Key(ConsolePlugins, "", "network-observability-plugin"));
    var deployment := Lookup(objs, Key(Deployments, ns, "network-observability-plugin"));
    && plugin.Some? && plugin.value.body.ConsolePlugin?
    && plugin.value.body.port == p.port && plugin.value.body.serviceNamespace == ns
    && var service := Lookup(objs, Key(Services, ns, plugin.value.body.service));
    && service.Some?
    && deployment.Some? && deployment.value.body.Deployment?
    && deployment.value.body.replicas == p.replicas
    && RunsPlugin(deployment.value.body.template, p, spec.loki)
    && DeploymentMatched(deployment, service, None)
  }

  lemma PluginSeenToRun(o: Object, p: ConsolePluginSpec, loki: Loki, ns: string)
    requires Shaped(P.DeploymentKey(ns), o) && !P.DeploymentNeedsUpdate(o, p, loki, ns)
    ensures RunsPlugin(o.body.template, p, loki)
  {
    NamesDiffer();
    OneContainer(o.body.template.containers, "network-observability-plugin");
  }

  lemma PluginPoints(o: Object)
    requires Shaped(P.PLUGIN_KEY, o)
    ensures o.body.ConsolePlugin? && o.body.service == "network-observability-plugin"
  {
    NamesMeant();
  }

  lemma PluginArrives(cr: FlowCollector, objs: Objects)
    requires AllShaped(Snapshot(objs, Some(cr), [])) && PluginUpToDate(cr, objs, C.NamespaceOf(cr.spec))
    ensures PluginDelivered(cr.spec, objs)
  {
    hide FormOf;
    hide RunsPlugin;
    hide DaemonSetMatched;
    hide Neglected;
    NamesMeant();
    var ns, p := C.NamespaceOf(cr.spec), cr.spec.consolePlugin;
    assert Ours(P.PLUGIN_KEY) && Ours(P.DeploymentKey(ns));
    PluginPoints(objs[P.PLUGIN_KEY]);
    PluginSeenToRun(objs[P.DeploymentKey(ns)], p, cr.spec.loki, ns);
    ShapedMatched(Snapshot(objs, Some(cr), []), ns, "network-observability-plugin");
    hide AllShaped;
    hide P.QuerierURL;
    hide P.ContainerNeedsUpdate;
    hide P.LokiURLChanged;
    hide P.ServiceNeedsUpdate;
    hide Selects;
  }

  // ---- The namespace ----

  /** No call of a pass takes a Namespace away. */
  lemma NamespaceStays(env: Env, cr: FlowCollector, w: World, who: Cluster.Component, call: Call, n: string)
    requires C.NamespaceKey(n) in w.objs && Guard(env, cr, w, who, call)
    ensures C.NamespaceKey(n) in Issue(env, who, w, call).w.objs
  {
    hide CreateGuard;
    hide UpdateGuard;
    match call {
      case Create(o) => CreateEffect(env, w, who, o);
      case Update(o) => UpdateEffect(env, w, who, o);
      case Delete(k) => DeleteEffect(env, w, who, k);
      case UpdateStatus(m) => StatusEffect(env, w, who, m);
      case _ => ReadEffect(env, w, who, call);
    }
    hide Issue;
  }

  lemma NamespaceClosed(env: Env, cr: FlowCollector, n: string)
    ensures Closed(env, cr, (w: World) => C.NamespaceKey(n) in w.objs)
  {
    hide Guard;
    hide Issue;
    hide WellFormed;
    var I := (w: World) => C.NamespaceKey(n) in w.objs;
    forall w, who, call | I(w) && !w.crashed && WellFormed(w.objs) && Guard(env, cr, w, who, call)
      ensures I(Issue(env, who, w, call).w)
    {
      NamespaceStays(env, cr, w, who, call, n);
    }
  }

  lemma NamespaceEnsured(env: Env, w: World, ns: string)
    ensures var s := C.EnsureNamespace(env, w, ns);
            && Frame(w, s.w, {C.NamespaceKey(ns)})
            && (s.st.Ok? ==> C.NamespaceKey(ns) in s.w.objs)
  {
    hide WellFormed;
    var k := C.NamespaceKey(ns);
    IssueObjects(env, w, Main, Get(k));
    GetReply(env, w, Main, k);
    var a := Issue(env, Main, w, Get(k));
    FrameOfWrite(env, a.w, Main, C.BuildNamespace(ns));
    WriteDone(env, a.w, Main, C.BuildNamespace(ns));
    hide Issue;
  }

  /** From any state and under any faults, a pass that succeeds leaves the namespace of the specification in place. */
  lemma NamespaceDelivered(env: Env, w: World)
    requires w.cr.Some? && !w.cr.value.deleting && WellFormed(w.objs)
    requires C.Reconcile(env, w).st.Ok?
    ensures Key(Namespaces, "", C.NamespaceOf(w.cr.value.spec)) in C.Reconcile(env, w).w.objs
  {
    hide WellFormed;
    hide Closed;
    hide C.EnsureNamespace;
    hide C.HandleNamespaceChanged;
    hide C.ReconcileComponents;
    var cr, ns := w.cr.value, C.NamespaceOf(w.cr.value.spec);
    var I := (x: World) => C.NamespaceKey(ns) in x.objs;
    NamespaceClosed(env, cr, ns);
    IssueObjects(env, w, Main, GetCollector);
    CollectorReply(env, w);
    var a := Issue(env, Main, w, GetCollector);
    hide Issue;
    NamespaceEnsured(env, a.w, ns);
    var s1 := C.EnsureNamespace(env, a.w, ns);
    if ns != cr.deployedIn {
      HandleKeeps(env, cr, I, s1.w, ns);
      ComponentsKeep(env, cr, I, C.HandleNamespaceChanged(env, s1.w, cr.name, ns, cr.deployedIn).w, ns);
    } else {
      ComponentsKeep(env, cr, I, s1.w, ns);
    }
  }

  // ---- After a run ----

  lemma SameObjects(s: Snapshot, cr: FlowCollector)
    requires AllShaped(s)
    ensures AllShaped(Snapshot(s.objs, Some(cr), []))
  {
    hide Shaped;
    hide Ours;
  }

  /** After any run, whatever was edited, failed or was interrupted: a pass that succeeds leaves a configuration, a
      workload, a Service and an autoscaler that say what the specification says and fit together, and the same of the
      console plugin. */
  lemma PassDelivers(env: Env, w: World, actions: seq<Action>)
    requires Fresh(w) && !w.cr.value.deleting
    ensures var w1, s := Run(env, w, actions), NextPass(env, w, actions);
            && w1.cr.Some?
            && (s.st.Ok? ==>
                  && CollectorDelivered(w1.cr.value.spec, s.w.objs)
                  && (env.consoleEnabled ==> PluginDelivered(w1.cr.value.spec, s.w.objs)))
  {
    hide AllShaped;
    hide Present;
    hide PluginUpToDate;
    hide CollectorDelivered;
    hide PluginDelivered;
    hide WellFormed;
    hide StepClosed;
    hide C.Reconcile;
    hide Contained;
    RunBuilt(env, w, actions);
    RunShaped(env, w, actions);
    var w1 := Run(env, w, actions);
    hide Run;
    hide Fresh;
    var cr, s, specs := w1.cr.value, NextPass(env, w, actions), SpecsOf(w, actions);
    var J := (s: Snapshot) => InRun(env, w.cr.value.name, specs, s);
    assert !cr.deleting by { assert J(Now(w1)); }
    ShapedClosed(env, cr);
    PassAlways(env, AllShaped, w1);
    PassSettles(env, w1.(crashed := false));
    if s.st.Ok? {
      SameObjects(Now(s.w), cr);
      CollectorArrives(cr, s.w.objs);
      if env.consoleEnabled {
        PluginArrives(cr, s.w.objs);
      }
    }
  }

  /** And with reliable deletes a DaemonSet's pods listen on the wanted port of their node, iff the comparison did not
      miss the port of the DaemonSet that was in place. */
  lemma PortDelivered(env: Env, w: World, actions: seq<Action>)
    requires Fresh(w) && !w.cr.value.deleting && ReliableDeletes(env)
    ensures var w1, s := Run(env, w, actions), NextPass(env, w, actions);
            && w1.cr.Some?
            && var spec := w1.cr.value.spec; var gf := spec.goflowKube;
            && var daemonSet := Lookup(s.w.objs, Key(DaemonSets, C.NamespaceOf(spec), "goflow-kube"));
            (Succeeded(s) && gf.kind == "DaemonSet" ==>
               && daemonSet.Some? && daemonSet.value.body.DaemonSet? && |daemonSet.value.body.template.containers| == 1
               && (daemonSet.value.body.template.containers[0].ports
                     == [ContainerPort("goflow-kube", gf.port, gf.port, UDP)]
                   <==> !PortMissed(w1.cr.value, w1.objs)))
  {
    hide AllShaped;
    hide PortMissed;
    hide Present;
    hide UpToDate;
    hide WellFormed;
    hide StepClosed;
    hide C.Reconcile;
    hide Contained;
    hide HostPortIs;
    hide ReliableDeletes;
    RunBuilt(env, w, actions);
    RunShaped(env, w, actions);
    var w1 := Run(env, w, actions);
    hide Run;
    hide Fresh;
    var cr, s, specs := w1.cr.value, NextPass(env, w, actions), SpecsOf(w, actions);
    var J := (s: Snapshot) => InRun(env, w.cr.value.name, specs, s);
    assert J(Now(w1));
    ShapedClosed(env, cr);
    PassAlways(env, AllShaped, w1);
    PassSettles(env, w1.(crashed := false));
    if Succeeded(s) && cr.spec.goflowKube.kind == DAEMON_SET_KIND {
      PortAfter(env, specs, w1);
      DaemonSetThere(cr, s.w.objs);
      PortShown(Now(s.w), C.NamespaceOf(cr.spec), cr.spec.goflowKube.port);
    }
  }

  lemma DaemonSetThere(cr: FlowCollector, objs: Objects)
    requires UpToDate(cr, objs, C.NamespaceOf(cr.spec)) && cr.spec.goflowKube.kind == DAEMON_SET_KIND
    ensures GO.DaemonSetKey(C.NamespaceOf(cr.spec)) in objs
  {
    hide Same;
    hide GO.BuildConfigMap;
    hide GO.ConfigDigest;
    hide G.DaemonSetNeedsUpdate;
    hide OthersGone;
  }

  lemma PortShown(s: Snapshot, ns: string, port: int32)
    requires AllShaped(s) && GO.DaemonSetKey(ns) in s.objs
    ensures var o := s.objs[GO.DaemonSetKey(ns)];
            && o.body.DaemonSet? && |o.body.template.containers| == 1
            && (HostPortIs(o, port) <==>
                  o.body.template.containers[0].ports == [ContainerPort("goflow-kube", port, port, UDP)])
  {
    hide PodShaped;
    assert Ours(GO.DaemonSetKey(ns));
  }

  // ---- The OVS flows configuration ----

  /** The collector's Service has a usable address. */
  ghost predicate Resolves(env: Env, ns: string) {
    var answer := env.lookupIP(0, "goflow-kube." + ns);
    answer.Resolved? && exists i: nat :: FirstOf(answer.addrs, i) && env.ipString(answer.addrs[i]) != ""
  }

  /** When nothing is due, what the operator has written is what is wanted. */
  lemma NothingDue(env: Env, w: World, spec: Spec, ns: string)
    requires WellFormed(w.objs) && AllWritten(Now(w)) && !OvsDue(env, w, spec, ns)
    requires WantedNow(env, w, spec, ns).Some?
    ensures F.OvsKey(spec.cnoNamespace) in w.objs
    ensures InPlace(w.objs, spec.cnoNamespace) == WantedNow(env, w, spec, ns)
  {
    hide F.ConfigFromMap;
    hide F.AsStringMap;
    hide WantedNow;
    var k := F.OvsKey(spec.cnoNamespace);
    var fc :| w.objs[k].body == ConfigMap(F.AsStringMap(fc));
    FlowsRoundTrip(fc);
  }

  lemma WantedSays(env: Env, w: World, spec: Spec, ns: string)
    requires Steady(env) && WellFormed(w.objs) && ValidKind(spec)
    requires spec.goflowKube.kind == DEPLOYMENT_KIND ==> GO.ServiceKey(ns) in w.objs && Resolves(env, ns)
    ensures var c := WantedNow(env, w, spec, ns);
            && c.Some? && c.value.ipfix == spec.ipfix
            && (spec.goflowKube.kind == DAEMON_SET_KIND ==>
                  c.value.nodePort == spec.goflowKube.port && c.value.sharedTarget == "")
            && (spec.goflowKube.kind == DEPLOYMENT_KIND ==>
                  && c.value.nodePort == 0
                  && Reaches(env, env.lookupIP(w.ovsClock + 2, "goflow-kube." + ns), c.value.sharedTarget,
                             spec.goflowKube.port))
  {
    if spec.goflowKube.kind == DEPLOYMENT_KIND {
      var host, answer := "goflow-kube." + ns, env.lookupIP(0, "goflow-kube." + ns);
      assert F.ServiceHost(w.objs[GO.ServiceKey(ns)]) == host;
      assert env.lookupIP(w.ovsClock, host) == answer && env.lookupIP(w.ovsClock + 2, host) == answer;
      var i: nat :| FirstOf(answer.addrs, i) && env.ipString(answer.addrs[i]) != "";
      FirstIsFound(env, answer.addrs, i);
      JoinedNames(env.ipString(answer.addrs[i]), spec.goflowKube.port);
    }
  }

  /** Without faults, and with names that keep resolving as they do: after any run, a pass that succeeds leaves OVS
      with the settings of the specification and the way to the collector, if the collector's Service resolves. */
  lemma FlowsDelivered(env: Env, w: World, actions: seq<Action>)
    requires FaultFree(env) && Steady(env)
    requires Fresh(w) && !w.cr.value.deleting && AllWritten(Now(w))
    ensures var w1, s := Run(env, w, actions), NextPass(env, w, actions);
            && w1.cr.Some?
            && var spec := w1.cr.value.spec;
            var ns, k := C.NamespaceOf(spec), Key(ConfigMaps, spec.cnoNamespace, "ovs-flows-config");
            (s.st.Ok? && (spec.goflowKube.kind == "Deployment" ==> Resolves(env, ns)) ==>
               && k in s.w.objs
               && FlowsSay(env, s.w, spec, ns, if s.w.objs[k].body.ConfigMap? then s.w.objs[k].body.data else map[]))
  {
    hide AllWritten;
    hide WellFormed;
    hide StepClosed;
    hide C.Reconcile;
    hide FaultFree;
    hide Steady;
    hide Contained;
    hide Resolves;
    hide Present;
    hide OvsDue;
    hide FlowsSay;
    RunBuilt(env, w, actions);
    RunWritten(env, w, actions);
    var w1 := Run(env, w, actions);
    hide Run;
    hide Fresh;
    var cr, s, specs := w1.cr.value, NextPass(env, w, actions), SpecsOf(w, actions);
    var J := (s: Snapshot) => InRun(env, w.cr.value.name, specs, s);
    assert !cr.deleting by { assert J(Now(w1)); }
    WrittenClosed(env, cr);
    PassAlways(env, AllWritten, w1);
    PassSettles(env, w1.(crashed := false));
    if s.st.Ok? && (cr.spec.goflowKube.kind == "Deployment" ==> Resolves(env, C.NamespaceOf(cr.spec))) {
      FirstPassRests(env, w1.(crashed := false));
      RestSays(env, s.w, cr.spec);
    }
  }

  lemma RestSays(env: Env, w: World, spec: Spec)
    requires Steady(env) && AtRest(env, w) && AllWritten(Now(w)) && w.cr.value.spec == spec
    requires spec.goflowKube.kind == DEPLOYMENT_KIND ==> Resolves(env, C.NamespaceOf(spec))
    ensures var k := F.OvsKey(spec.cnoNamespace);
            && k in w.objs
            && FlowsSay(env, w, spec, C.NamespaceOf(spec),
                        if w.objs[k].body.ConfigMap? then w.objs[k].body.data else map[])
  {
    hide Steady;
    hide AllWritten;
    hide WellFormed;
    hide Resolves;
    hide Same;
    hide WantedNow;
    hide OvsDue;
    hide F.NumberField;
    hide F.TextField;
    hide Reaches;
    hide G.DeploymentNeedsUpdate;
    hide G.DaemonSetNeedsUpdate;
    hide PluginUpToDate;
    hide GO.ConfigDigest;
    hide GO.BuildConfigMap;
    var ns := C.NamespaceOf(spec);
    WantedSays(env, w, spec, ns);
    NothingDue(env, w, spec, ns);
  }

}
