/** The console plugin's reconciler as the source has it. */
module PluginController {

  import opened Cluster
  import opened ClientHelper
  import opened FlowCollectorTypes
  import opened Manager
  import opened Wrappers
  import O = ObjectManager
  import P = PluginReconciler

  method NewManager(client: Client, ns: string, prev: string, depl: Placeholder, svc: Placeholder, sa: Placeholder)
    returns (m: NamespacedObjectManager)
    ensures fresh(m) && m.Valid()
    ensures m.client == client && m.namespace == ns && m.previousNamespace == prev
    ensures m.managed == [Managed(P.PLUGIN, depl, false), Managed(P.PLUGIN, svc, false), Managed(P.PLUGIN, sa, false)]
  {
    m := new NamespacedObjectManager(client, ns, prev);
    m.AddManagedObject(P.PLUGIN, depl);
    m.AddManagedObject(P.PLUGIN, svc);
    m.AddManagedObject(P.PLUGIN, sa);
  }

  class CPReconciler {
    const helper: Helper
    const manager: NamespacedObjectManager
    const deployment: Placeholder
    const service: Placeholder
    const serviceAccount: Placeholder

    ghost function Repr(): set<object> {
      {manager, deployment, service, serviceAccount}
    }

    ghost predicate Registered()
      reads manager
    {
      && |manager.managed| == 3
      && manager.managed[0] == Managed(P.PLUGIN, deployment, manager.managed[0].found) && deployment.kind == Deployments
      && manager.managed[1] == Managed(P.PLUGIN, service, manager.managed[1].found) && service.kind == Services
      && manager.managed[2] == Managed(P.PLUGIN, serviceAccount, manager.managed[2].found)
      && serviceAccount.kind == ServiceAccounts
    }

    ghost predicate Valid()
      reads Repr()
    {
      && manager.client == helper.client
      && Registered()
      && Distinct(manager.managed)
      && manager.Valid()
    }

    constructor (helper: Helper, ns: string, prev: string)
      ensures Valid() && fresh(Repr())
      ensures this.helper == helper && manager.namespace == ns && manager.previousNamespace == prev
    {
      var depl := new Placeholder(Deployments);
      var svc := new Placeholder(Services);
      var sa := new Placeholder(ServiceAccounts);
      var m := NewManager(helper.client, ns, prev, depl, svc, sa);
      this.helper, manager := helper, m;
      deployment, service, serviceAccount := depl, svc, sa;
    }

    lemma ManagedKeys(ns: string)
      requires Registered()
      ensures manager.Keys(ns) == P.ManagedKeys(ns)
    {
    }

    method InitStaticResources() returns (st: Status)
      requires Valid()
      modifies helper.client
      ensures var s := P.InitStaticResources(helper.client.env, old(helper.client.w), helper.owner, manager.namespace);
              helper.client.w == s.w && st == s.st
    {
      hide CreateOwned;
      st := helper.Create(P.BuildServiceAccount(manager.namespace));
    }

    method PrepareNamespaceChange() returns (st: Status)
      requires Valid()
      modifies helper.client
      ensures var s := P.PrepareNamespaceChange(helper.client.env, old(helper.client.w), helper.owner,
                                                manager.namespace, manager.previousNamespace);
              helper.client.w == s.w && st == s.st
    {
      hide CreateOwned;
      hide O.DeleteAll;
      ManagedKeys(manager.previousNamespace);
      manager.CleanupNamespace();
      st := helper.Create(P.BuildServiceAccount(manager.namespace));
    }

    ghost predicate HoldsOne(p: Placeholder, o: Option<Object>)
      reads manager, p
    {
      (FoundIn(manager.managed, p) <==> o.Some?) && (o.Some? ==> p.obj == o)
    }

    method Fetch() returns (st: Status, ghost fetch: O.Fetch)
      requires Valid()
      modifies helper.client, Repr()
      ensures Valid()
      ensures fetch == O.FetchAll(helper.client.env, old(helper.client.w), P.ManagedKeys(manager.namespace))
      ensures helper.client.w == fetch.w && st == fetch.st
      ensures st.Ok? ==> |fetch.found| == 3 && HoldsOne(deployment, fetch.found[0]) && HoldsOne(service, fetch.found[1])
    {
      hide O.FetchAll;
      hide LastFill;
      hide FoundIn;
      ManagedKeys(manager.namespace);
      ghost var before := manager.managed;
      st, fetch := manager.FetchAll();
      FlaggedDistinct(before, fetch.found);
      if st.Ok? {
        EntryFetched(before, fetch.found, 0, old(deployment.obj));
        EntryFetched(before, fetch.found, 1, old(service.obj));
      }
    }

    /** The search over the ports of the Service. */
    method CheckService(o: Object, p: ConsolePluginSpec, ns: string) returns (stale: bool)
      ensures stale == P.ServiceNeedsUpdate(o, p, ns)
    {
      if o.meta.namespace != ns || !o.body.Service? {
        return true;
      }
      var ports := o.body.ports;
      for i := 0 to |ports|
        invariant ServicePort(p.port, TCP) !in ports[..i]
      {
        if ports[i].port == p.port && ports[i].protocol == TCP {
          assert ports[i] == ServicePort(p.port, TCP);
          return false;
        }
      }
      stale := true;
      assert ports[..|ports|] == ports;
    }

    /** The objects in turn: the ConsolePlugin, which is not in the namespace, the Deployment, and the Service. */
    method ReconcileObjects(
      plugin: Option<Object>, p: ConsolePluginSpec, loki: Loki, ghost depl: Option<Object>, ghost svc: Option<Object>)
      returns (st: Status)
      requires Valid() && HoldsOne(deployment, depl) && HoldsOne(service, svc)
      modifies helper.client
      ensures var s := P.ReconcileObjects(helper.client.env, old(helper.client.w), helper.owner, plugin, depl, svc,
                                          p, loki, manager.namespace);
              helper.client.w == s.w && st == s.st
    {
      hide CreateOwned;
      hide UpdateOwned;
      hide P.BuildPodTemplate;
      hide P.DeploymentNeedsUpdate;
      hide P.ServiceNeedsUpdate;
      var ns := manager.namespace;
      var consolePlugin := P.BuildConsolePlugin(p, ns);
      st := Ok;
      if plugin.None? {
        st := helper.Create(consolePlugin);
      } else if P.PluginNeedsUpdate(plugin.value, p, ns) {
        st := helper.Update(plugin, consolePlugin);
      }
      if st.Err? {
        return;
      }

      var newDepl := P.BuildDeployment(p, loki, ns);
      var there := manager.Exists(deployment);
      if !there {
        st := helper.Create(newDepl);
      } else if P.DeploymentNeedsUpdate(deployment.obj.value, p, loki, ns) {
        st := helper.Update(deployment.obj, newDepl);
      }
      if st.Err? {
        return;
      }

      there := manager.Exists(service);
      if !there {
        st := helper.Create(P.BuildService(None, p, ns));
      } else {
        var stale := CheckService(service.obj.value, p, ns);
        if stale {
          st := helper.Update(service.obj, P.BuildService(service.obj, p, ns));
        }
      }
    }

    method Reconcile(p: ConsolePluginSpec, loki: Loki) returns (st: Status)
      requires Valid()
      modifies helper.client, Repr()
      ensures Valid()
      ensures var s := P.Reconcile(helper.client.env, old(helper.client.w), helper.owner, p, loki, manager.namespace);
              helper.client.w == s.w && st == s.st
    {
      hide Issue;
      hide O.FetchAll;
      hide P.ReconcileObjects;
      ghost var fetch;
      st, fetch := Fetch();
      if st.Err? {
        return;
      }
      var reply := helper.client.Send(Main, Get(P.PLUGIN_KEY));
      if !reply.Found? && !reply.NotFound? {
        return Err(Api(reply));
      }
      var plugin := if reply.Found? then Some(reply.obj) else None;
      st := ReconcileObjects(plugin, p, loki, fetch.found[0], fetch.found[1]);
    }
  }

}
