/** The operator's entry point as the source has it, and the OVS controller it runs: every call they make, in order,
    is the one the specification functions describe. */
module Operator {

  import opened Cluster
  import opened ClientHelper
  import opened FlowCollectorTypes
  import opened Wrappers
  import C = FlowCollectorController
  import GoflowController
  import PluginController
  import F = FlowsConfig
  import G = GoflowReconciler
  import P = PluginReconciler

  class FlowsConfigController {
    const helper: Helper
    const goflowNamespace: string
    const cnoNamespace: string

    constructor (helper: Helper, goflowNamespace: string, cnoNamespace: string)
      ensures this.helper == helper && this.goflowNamespace == goflowNamespace && this.cnoNamespace == cnoNamespace
    {
      this.helper := helper;
      this.goflowNamespace := goflowNamespace;
      this.cnoNamespace := cnoNamespace;
    }

    /** The configuration in place; none when the ConfigMap is absent. */
    method ReadCurrent() returns (st: Status, config: Option<F.Config>)
      modifies helper.client
      ensures var c := F.ReadCurrent(helper.client.env, old(helper.client.w), cnoNamespace);
              && helper.client.w == c.w
              && (c.CurrentErr? ==> st == Err(c.error))
              && (c.Current? ==> st == Ok && config == c.config)
    {
      hide Issue;
      hide F.ConfigFromMap;
      var reply := helper.client.Send(Ovs, Get(F.OvsKey(cnoNamespace)));
      if reply.NotFound? {
        return Ok, None;
      }
      if !reply.Found? {
        return Err(Api(reply)), None;
      }
      config := F.ConfigFromMap(if reply.obj.body.ConfigMap? then reply.obj.body.data else map[]);
      st := if config.None? then Err(Decode) else Ok;
    }

    /** The configuration to reach; for a Deployment it takes the address of the collector's Service. */
    method WantedConfig(spec: Spec) returns (st: Status, config: F.Config)
      modifies helper.client
      ensures var d := F.WantedConfig(helper.client.env, old(helper.client.w), spec, goflowNamespace);
              && helper.client.w == d.w
              && (d.DesiredErr? ==> st == Err(d.error))
              && (d.Desired? ==> st == Ok && config == d.config)
    {
      hide Issue;
      config := F.Config(spec.ipfix, "", 0);
      if spec.goflowKube.kind == DAEMON_SET_KIND {
        config := config.(nodePort := spec.goflowKube.port);
        return Ok, config;
      }
      if spec.goflowKube.kind != DEPLOYMENT_KIND {
        return Err(InvalidKind(spec.goflowKube.kind)), config;
      }
      var reply := helper.client.Send(Ovs, Get(Key(Services, goflowNamespace, GOFLOW_KUBE)));
      if !reply.Found? {
        return Err(Api(reply)), config;
      }
      var env := helper.client.env;
      var addresses := env.lookupIP(helper.client.w.ovsClock, F.ServiceHost(reply.obj));
      if addresses.Unresolved? {
        return Err(Resolution), config;
      }
      var ip := F.SearchAddress(env, addresses.addrs);
      if ip == "" {
        return Err(Resolution), config;
      }
      config := config.(sharedTarget := F.JoinHostPort(ip, spec.goflowKube.port));
      st := Ok;
    }

    method Reconcile(spec: Spec) returns (st: Status)
      requires spec.cnoNamespace == cnoNamespace
      modifies helper.client
      ensures var s := F.Reconcile(helper.client.env, old(helper.client.w), helper.owner, spec, goflowNamespace);
              helper.client.w == s.w && st == s.st
    {
      hide Issue;
      hide F.ReadCurrent;
      hide F.WantedConfig;
      hide F.AsStringMap;
      var current;
      st, current := ReadCurrent();
      if st.Err? {
        return;
      }
      var wanted;
      st, wanted := WantedConfig(spec);
      if st.Err? {
        return;
      }
      if current.None? || current.value != wanted {
        var data := F.MakeStringMap(wanted);
        var cm := Object(Meta(F.OVS_CONFIG_MAP, cnoNamespace, map[], map[], 0, None), ConfigMap(data));
        var owned := SetControllerReference(helper.owner, cm);
        var reply := helper.client.Send(Ovs, if current.None? then Create(owned.value) else Update(owned.value));
        st := StatusOf(reply);
      }
    }
  }

  class FlowCollectorReconciler {
    const client: Client

    constructor (client: Client)
      ensures this.client == client
    {
      this.client := client;
    }

    method EnsureNamespace(ns: string) returns (st: Status)
      modifies client
      ensures var s := C.EnsureNamespace(client.env, old(client.w), ns); client.w == s.w && st == s.st
    {
      hide Issue;
      var reply := client.Send(Main, Get(C.NamespaceKey(ns)));
      if reply.Found? {
        return Ok;
      }
      if !reply.NotFound? {
        return Err(Api(reply));
      }
      reply := client.Send(Main, Create(C.BuildNamespace(ns)));
      st := StatusOf(reply);
    }

    /** Static resources first, then the status that names the new namespace. */
    method HandleNamespaceChanged(
      oldNS: string, newNS: string, owner: string, gf: GoflowController.GFKReconciler,
      cp: PluginController.CPReconciler)
      returns (st: Status)
      requires gf.Valid() && gf.helper.client == client && gf.helper.owner == owner
      requires gf.manager.namespace == newNS && gf.manager.previousNamespace == oldNS
      requires cp.Valid() && cp.helper.client == client && cp.helper.owner == owner
      requires cp.manager.namespace == newNS && cp.manager.previousNamespace == oldNS
      modifies client
      ensures var s := C.HandleNamespaceChanged(client.env, old(client.w), owner, newNS, oldNS);
              client.w == s.w && st == s.st
    {
      hide Issue;
      hide G.CreatePermissions;
      hide G.PrepareNamespaceChange;
      hide P.InitStaticResources;
      hide P.PrepareNamespaceChange;
      if oldNS == "" {
        st := gf.InitStaticResources();
        if st.Ok? && client.env.consoleEnabled {
          st := cp.InitStaticResources();
        }
      } else {
        st := gf.PrepareNamespaceChange();
        if st.Ok? && client.env.consoleEnabled {
          st := cp.PrepareNamespaceChange();
        }
      }
      if st.Err? {
        return;
      }
      var reply := client.Send(Main, UpdateStatus(newNS));
      st := StatusOf(reply);
    }

    /** goflow-kube, then the OVS configuration, whose error is dropped, then the console plugin. */
    method ReconcileComponents(
      desired: FlowCollector, ns: string, gf: GoflowController.GFKReconciler, ovs: FlowsConfigController,
      cp: PluginController.CPReconciler)
      returns (st: Status)
      requires gf.Valid() && gf.helper.client == client && gf.helper.owner == desired.name && gf.manager.namespace == ns
      requires cp.Valid() && cp.helper.client == client && cp.helper.owner == desired.name && cp.manager.namespace == ns
      requires ovs.helper.client == client && ovs.helper.owner == desired.name
      requires ovs.goflowNamespace == ns && ovs.cnoNamespace == desired.spec.cnoNamespace
      requires gf.Repr() !! cp.Repr() && client !in gf.Repr() && client !in cp.Repr()
      modifies client, gf.Repr(), cp.Repr()
      ensures var s := C.ReconcileComponents(client.env, old(client.w), desired, ns); client.w == s.w && st == s.st
    {
      hide Issue;
      hide G.Reconcile;
      hide F.Reconcile;
      hide P.Reconcile;
      st := gf.Reconcile(desired.spec.goflowKube, desired.spec.loki);
      if st.Err? {
        return;
      }
      var dropped := ovs.Reconcile(desired.spec);
      if client.env.consoleEnabled {
        st := cp.Reconcile(desired.spec.consolePlugin, desired.spec.loki);
      }
    }

    /** The reconcilers of one pass, sharing one client. */
    method NewReconcilers(desired: FlowCollector, ns: string)
      returns (gf: GoflowController.GFKReconciler, ovs: FlowsConfigController, cp: PluginController.CPReconciler)
      ensures gf.Valid() && gf.helper.client == client && gf.helper.owner == desired.name
      ensures gf.manager.namespace == ns && gf.manager.previousNamespace == desired.deployedIn
      ensures cp.Valid() && cp.helper.client == client && cp.helper.owner == desired.name
      ensures cp.manager.namespace == ns && cp.manager.previousNamespace == desired.deployedIn
      ensures ovs.helper.client == client && ovs.helper.owner == desired.name
      ensures ovs.goflowNamespace == ns && ovs.cnoNamespace == desired.spec.cnoNamespace
      ensures fresh(gf.Repr()) && fresh(cp.Repr()) && gf.Repr() !! cp.Repr()
    {
      hide GoflowController.GFKReconciler.Valid;
      hide PluginController.CPReconciler.Valid;
      var helper := new Helper(client, desired.name);
      gf := new GoflowController.GFKReconciler(helper, ns, desired.deployedIn);
      ovs := new FlowsConfigController(helper, ns, desired.spec.cnoNamespace);
      cp := new PluginController.CPReconciler(helper, ns, desired.deployedIn);
    }

    method ReconcileLive(desired: FlowCollector) returns (st: Status)
      modifies client
      ensures var s := C.ReconcileLive(client.env, old(client.w), desired); client.w == s.w && st == s.st
    {
      hide C.EnsureNamespace;
      hide C.HandleNamespaceChanged;
      hide C.ReconcileComponents;
      hide GoflowController.GFKReconciler.Valid;
      hide PluginController.CPReconciler.Valid;
      var ns := C.NamespaceOf(desired.spec);
      st := EnsureNamespace(ns);
      if st.Err? {
        return;
      }
      var gf, ovs, cp := NewReconcilers(desired, ns);
      if ns != desired.deployedIn {
        st := HandleNamespaceChanged(desired.deployedIn, ns, desired.name, gf, cp);
        if st.Err? {
          return;
        }
      }
      st := ReconcileComponents(desired, ns, gf, ovs, cp);
    }

    method Reconcile() returns (st: Status)
      modifies client
      ensures var s := C.Reconcile(client.env, old(client.w)); client.w == s.w && st == s.st
    {
      hide Issue;
      hide C.ReconcileLive;
      var reply := client.Send(Main, GetCollector);
      if reply.NotFound? {
        return Ok;
      }
      if !reply.FoundCollector? {
        return Err(Api(reply));
      }
      if reply.cr.deleting {
        return Ok;
      }
      st := ReconcileLive(reply.cr);
    }
  }

}
