/** The form of the operator's objects, read off the objects themselves: in every state of every run, selectors match
    the pods they are for, and references name what they are for. */
module Shapes {

  import opened Cluster
  import opened Containment
  import opened FlowCollectorTypes
  import opened PassInduction
  import opened Runs
  import opened Safety
  import opened Wrappers
  import C = FlowCollectorController
  import GO = GoflowObjects
  import GoflowConfig
  import P = PluginReconciler

  /** Each pair that is selected is among the labels, and something is selected. */
  predicate Selects(selector: map<string, string>, labels: map<string, string>) {
    selector != map[] && forall x :: x in selector ==> x in labels && labels[x] == selector[x]
  }

  /** Pods carry the name of their workload as their app label; the workload selects by it; the one container and the
      account have that name too. */
  predicate PodShaped(name: string, selector: map<string, string>, t: PodTemplate) {
    && selector == map["app" := name] && t.labels == map["app" := name]
    && |t.containers| == 1 && t.containers[0].name == name
    && t.serviceAccount == name
  }

  /** The collector runs a shell command; on a node's own network, it listens on a port of the node. */
  predicate CollectorShaped(t: PodTemplate, onNode: bool) {
    && t.tolerateAll == onNode && t.annotations.Keys == {"flows.netobserv.io/goflow-kube-config"}
    && var c := t.containers;
    && |c| == 1 && |c[0].command| == 3 && c[0].command[..2] == ["/bin/sh", "-c"] && c[0].args == []
    && (!onNode ==> c[0].ports == [])
    && (onNode ==> exists port :: c[0].ports == [ContainerPort("goflow-kube", port, port, UDP)])
  }

  /** The plugin is told where its certificate is, and the address that its Deployment is annotated with. */
  predicate PluginShaped(o: Object, t: PodTemplate) {
    && !t.tolerateAll && t.annotations == map[]
    && o.meta.annotations.Keys == {"flows.netobserv.io/loki-url"}
    && |t.containers| == 1 && t.containers[0].command == [] && t.containers[0].ports == []
    && t.containers[0].args == ["-cert", "/var/serving-cert/tls.crt", "-key", "/var/serving-cert/tls.key",
                                "-loki", o.meta.annotations["flows.netobserv.io/loki-url"]]
  }

  predicate ServiceShaped(name: string, o: Object) {
    && o.body.Service? && o.body.selector == map["app" := name] && |o.body.ports| == 1
    && o.meta.labels == map["app" := name]
    && o.meta.annotations
       == if name == "goflow-kube" then map[]
          else map["service.alpha.openshift.io/serving-cert-secret-name" := "console-serving-cert"]
  }

  /** What an object under k looks like. */
  predicate Shaped(k: Key, o: Object) {
    KeyOf(o) == k && FormOf(k, o)
  }

  predicate FormOf(k: Key, o: Object) {
    match k.kind
    case Deployments =>
      && o.meta.labels == map[]
      && o.body.Deployment? && PodShaped(k.name, o.body.selector, o.body.template)
      && if k.name == "goflow-kube" then o.meta.annotations == map[] && CollectorShaped(o.body.template, false)
         else PluginShaped(o, o.body.template)
    case DaemonSets =>
      && o.meta.labels == map[] && o.meta.annotations == map[]
      && o.body.DaemonSet? && PodShaped(k.name, o.body.selector, o.body.template)
      && CollectorShaped(o.body.template, true)
    case Services =>
      ServiceShaped(k.name, o)
    case Autoscalers =>
      o.body.Autoscaler? && o.body.target == k.name && o.meta.labels == map["app" := k.name]
    case ConfigMaps =>
      o.body.ConfigMap? && o.body.data.Keys == {"config.yaml"} && o.meta.labels == map["app" := "goflow-kube"]
    case ConsolePlugins =>
      o.body.ConsolePlugin? && o.body.service == k.name && o.body.displayName == "Network Observability plugin"
    case ServiceAccounts =>
      o.meta.labels == map["app" := k.name]
    case ClusterRoles =>
      o.meta.labels == map["app" := k.name]
    case ClusterRoleBindings =>
      && o.body.ClusterRoleBinding? && o.body.role == k.name && o.body.subject == k.name
      && o.meta.labels == map["app" := k.name]
    case Namespaces => true
  }

  /** The objects of the operator, the OVS ConfigMap aside. */
  predicate Ours(k: Key) {
    k.name in {"goflow-kube", "goflow-kube-config", "network-observability-plugin"} && k.kind != Namespaces
  }

  ghost predicate AllShaped(s: Snapshot) {
    forall k :: Ours(k) && k in s.objs ==> Shaped(k, s.objs[k])
  }

  // ---- Each write ----

  lemma NamesMeant()
    ensures GOFLOW_KUBE == "goflow-kube" && GO.CONFIG_MAP == "goflow-kube-config"
    ensures P.PLUGIN == "network-observability-plugin"
  {
  }

  /** What is stored has the form of what was sent. */
  lemma SavedShape(k: Key, o: Object, stored: Object)
    requires Shaped(k, o) && SavedAs(stored, o)
    ensures Shaped(k, stored)
  {
    hide PodShaped;
    hide CollectorShaped;
  }

  lemma GoflowShaped(env: Env, cr: FlowCollector, w: World, o: Object)
    requires GoflowObject(env, cr, w, o)
    ensures Shaped(KeyOf(o), o)
  {
    hide Cleared;
    hide GO.ConfigDigest;
    hide GO.MainCommand;
    hide GoflowConfig.ConfigText;
    var gf := cr.spec.goflowKube;
    if gf.kind == DAEMON_SET_KIND {
      assert CollectorShaped(GO.BuildPodTemplate(gf, GO.ConfigDigest(gf, cr.spec.loki)), true);
    }
  }

  lemma PluginObjectShaped(cr: FlowCollector, o: Object)
    requires PluginObject(cr, o)
    ensures Shaped(KeyOf(o), o)
  {
    hide P.QuerierURL;
    NamesDiffer();
  }

  lemma ServiceOfShaped(env: Env, cr: FlowCollector, previous: Option<Object>, o: Object)
    requires ServiceOf(env, cr, previous, o)
    requires previous.Some? ==> Shaped(KeyOf(o), previous.value)
    ensures Shaped(KeyOf(o), o)
  {
    NamesDiffer();
  }

  lemma StaticShaped(cr: FlowCollector, o: Object)
    requires || o == Own(cr, GO.BuildClusterRole())
             || o == Own(cr, GO.BuildClusterRoleBinding(C.NamespaceOf(cr.spec)))
             || o == Own(cr, GO.BuildServiceAccount(C.NamespaceOf(cr.spec)))
             || o == Own(cr, P.BuildServiceAccount(C.NamespaceOf(cr.spec)))
    ensures Shaped(KeyOf(o), o)
  {
  }

  lemma NotOurs(cr: FlowCollector, o: Object)
    requires OvsConfigMap(cr, o) || o == C.BuildNamespace(C.NamespaceOf(cr.spec))
    ensures !Ours(KeyOf(o))
  {
    NamesDiffer();
    NamesMeant();
  }

  lemma CreateShaped(env: Env, cr: FlowCollector, w: World, who: Cluster.Component, o: Object)
    requires CreateGuard(env, cr, w, who, o) && Ours(KeyOf(o))
    ensures Shaped(KeyOf(o), o)
  {
    hide GoflowObject;
    hide PluginObject;
    hide ServiceOf;
    hide OvsConfigMap;
    hide Shaped;
    hide Ours;
    if OvsConfigMap(cr, o) || o == C.BuildNamespace(C.NamespaceOf(cr.spec)) {
      NotOurs(cr, o);
    } else if GoflowObject(env, cr, w, o) {
      GoflowShaped(env, cr, w, o);
    } else if PluginObject(cr, o) {
      PluginObjectShaped(cr, o);
    } else if ServiceOf(env, cr, None, o) {
      ServiceOfShaped(env, cr, None, o);
    } else {
      StaticShaped(cr, o);
    }
  }

  lemma VersionShape(k: Key, o: Object)
    ensures Shaped(k, Unversioned(o)) == Shaped(k, o) && KeyOf(Unversioned(o)) == KeyOf(o)
  {
    hide PodShaped;
    hide CollectorShaped;
  }

  lemma UpdateShaped(env: Env, cr: FlowCollector, w: World, who: Cluster.Component, o: Object)
    requires UpdateGuard(env, cr, w, who, o) && Ours(KeyOf(o)) && AllShaped(Now(w))
    ensures Shaped(KeyOf(o), o)
  {
    hide GoflowObject;
    hide PluginObject;
    hide ServiceOf;
    hide OvsConfigMap;
    hide Shaped;
    hide Ours;
    hide Cleared;
    var u := Unversioned(o);
    VersionShape(KeyOf(o), o);
    if OvsConfigMap(cr, o) {
      NotOurs(cr, o);
    } else if GoflowObject(env, cr, w, u) {
      GoflowShaped(env, cr, w, u);
    } else if PluginObject(cr, u) {
      PluginObjectShaped(cr, u);
    } else if o == Own(cr, GO.BuildClusterRoleBinding(C.NamespaceOf(cr.spec))) {
      StaticShaped(cr, o);
    } else {
      ServiceOfShaped(env, cr, Some(w.objs[KeyOf(o)]), o);
    }
  }

  lemma ShapedStep(env: Env, cr: FlowCollector, w: World, who: Cluster.Component, call: Call)
    requires AllShaped(Now(w)) && Guard(env, cr, w, who, call)
    ensures AllShaped(Now(Issue(env, who, w, call).w))
  {
    hide Shaped;
    hide Ours;
    var objs := Issue(env, who, w, call).w.objs;
    match call {
      case Create(o) =>
        CreateEffect(env, w, who, o);
        if objs != w.objs && Ours(KeyOf(o)) {
          CreateShaped(env, cr, w, who, o);
          SavedShape(KeyOf(o), o, objs[KeyOf(o)]);
        }
      case Update(o) =>
        UpdateEffect(env, w, who, o);
        if objs != w.objs && Ours(KeyOf(o)) {
          UpdateShaped(env, cr, w, who, o);
          SavedShape(KeyOf(o), o, objs[KeyOf(o)]);
        }
      case Delete(k) =>
        DeleteEffect(env, w, who, k);
      case UpdateStatus(n) =>
        StatusEffect(env, w, who, n);
      case _ =>
        ReadEffect(env, w, who, call);
    }
    hide Issue;
    hide Guard;
  }

  lemma ShapedClosed(env: Env, cr: FlowCollector)
    ensures StepClosed(env, cr, AllShaped)
  {
    hide Guard;
    hide Issue;
    hide WellFormed;
    hide AllShaped;
    forall x, who, call | AllShaped(Now(x)) && !x.crashed && WellFormed(x.objs) && Guard(env, cr, x, who, call)
      ensures AllShaped(Now(Issue(env, who, x, call).w))
    {
      ShapedStep(env, cr, x, who, call);
    }
  }

  lemma ShapedEdit(w: World, spec: Spec)
    requires AllShaped(Now(w))
    ensures AllShaped(Now(EditSpec(w, spec)))
  {
  }

  lemma FreshShaped(w: World)
    requires Fresh(w)
    ensures AllShaped(Now(w)) && WellFormed(w.objs) && w.trace == [] && w.cr.Some?
  {
    hide Shaped;
    NamesMeant();
  }

  /** Under any faults, at every call boundary of every run, each object of the operator has its form. */
  lemma RunShaped(env: Env, w: World, actions: seq<Action>)
    requires Fresh(w)
    ensures Always(AllShaped, Run(env, w, actions))
  {
    hide AllShaped;
    hide WellFormed;
    hide StepClosed;
    FreshShaped(w);
    hide Fresh;
    forall cr: FlowCollector ensures StepClosed(env, cr, AllShaped) {
      ShapedClosed(env, cr);
    }
    assert EditClosed(AllShaped) by {
      forall x, spec | AllShaped(Now(x)) ensures AllShaped(Now(EditSpec(x, spec))) {
        ShapedEdit(x, spec);
      }
    }
    RunAlways(env, SpecsOf(w, actions), w.cr.value.name, AllShaped, w, actions);
  }

  // ---- What the form is for ----

  /** In one namespace, under one name: a workload selects its own pods, a Service the pods of the workload, and an
      autoscaler names the workload. */
  ghost predicate Matched(objs: Objects, ns: string, name: string) {
    && DeploymentMatched(Lookup(objs, Key(Deployments, ns, name)), Lookup(objs, Key(Services, ns, name)),
                         Lookup(objs, Key(Autoscalers, ns, name)))
    && DaemonSetMatched(Lookup(objs, Key(DaemonSets, ns, name)))
  }

  predicate DeploymentMatched(deployment: Option<Object>, service: Option<Object>, autoscaler: Option<Object>) {
    deployment.Some? ==>
      && deployment.value.body.Deployment?
      && var pods := deployment.value.body.template.labels;
      && Selects(deployment.value.body.selector, pods)
      && (service.Some? ==> service.value.body.Service? && Selects(service.value.body.selector, pods))
      && (autoscaler.Some? ==>
            autoscaler.value.body.Autoscaler? && autoscaler.value.body.target == deployment.value.meta.name)
  }

  predicate DaemonSetMatched(daemonSet: Option<Object>) {
    daemonSet.Some? ==>
      && daemonSet.value.body.DaemonSet?
      && Selects(daemonSet.value.body.selector, daemonSet.value.body.template.labels)
  }

  ghost predicate AllMatched(s: Snapshot) {
    forall ns :: Matched(s.objs, ns, "goflow-kube") && Matched(s.objs, ns, "network-observability-plugin")
  }

  lemma OneLabelSelects(name: string)
    ensures Selects(map["app" := name], map["app" := name])
  {
    assert "app" in map["app" := name];
  }

  lemma ShapedMatched(s: Snapshot, ns: string, name: string)
    requires AllShaped(s) && name in {"goflow-kube", "network-observability-plugin"}
    ensures Matched(s.objs, ns, name)
  {
    hide Selects;
    hide CollectorShaped;
    hide PluginShaped;
    OneLabelSelects(name);
    assert Ours(Key(Deployments, ns, name)) && Ours(Key(DaemonSets, ns, name));
    assert Ours(Key(Services, ns, name)) && Ours(Key(Autoscalers, ns, name));
  }

  lemma AllShapedMatched(s: Snapshot)
    requires AllShaped(s)
    ensures AllMatched(s)
  {
    hide AllShaped;
    hide Matched;
    forall ns ensures Matched(s.objs, ns, "goflow-kube") && Matched(s.objs, ns, "network-observability-plugin") {
      ShapedMatched(s, ns, "goflow-kube");
      ShapedMatched(s, ns, "network-observability-plugin");
    }
  }

  /** Under any faults, at every call boundary of every run, workloads select their own pods, each Service selects the
      pods of the workload beside it, and each autoscaler names that workload. */
  lemma RunMatched(env: Env, w: World, actions: seq<Action>)
    requires Fresh(w)
    ensures Always(AllMatched, Run(env, w, actions))
  {
    hide AllShaped;
    hide AllMatched;
    RunShaped(env, w, actions);
    var w' := Run(env, w, actions);
    hide Run;
    AllShapedMatched(Now(w'));
    forall i | 0 <= i < |w'.trace| ensures AllMatched(Past(w', i)) {
      AllShapedMatched(Past(w', i));
    }
  }

}
