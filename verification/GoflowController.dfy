/** The goflow-kube reconciler as the source has it: an object with its own placeholders, issuing calls in order. */
module GoflowController {

  import opened Cluster
  import opened ClientHelper
  import opened FlowCollectorTypes
  import opened Manager
  import opened Wrappers
  import G = GoflowReconciler
  import GO = GoflowObjects
  import O = ObjectManager

  /** Registers the placeholders of the reconciler. */
  method NewManager(
    client: Client, ns: string, prev: string,
    depl: Placeholder, ds: Placeholder, svc: Placeholder, asc: Placeholder, sa: Placeholder, cm: Placeholder)
    returns (m: NamespacedObjectManager)
    ensures fresh(m) && m.Valid()
    ensures m.client == client && m.namespace == ns && m.previousNamespace == prev
    ensures m.managed == [
      Managed(GOFLOW_KUBE, depl, false), Managed(GOFLOW_KUBE, ds, false), Managed(GOFLOW_KUBE, svc, false),
      Managed(GOFLOW_KUBE, asc, false), Managed(GOFLOW_KUBE, sa, false), Managed(GO.CONFIG_MAP, cm, false)]
  {
    m := new NamespacedObjectManager(client, ns, prev);
    m.AddManagedObject(GOFLOW_KUBE, depl);
    m.AddManagedObject(GOFLOW_KUBE, ds);
    m.AddManagedObject(GOFLOW_KUBE, svc);
    m.AddManagedObject(GOFLOW_KUBE, asc);
    m.AddManagedObject(GOFLOW_KUBE, sa);
    m.AddManagedObject(GO.CONFIG_MAP, cm);
  }

  class GFKReconciler {
    const helper: Helper
    const manager: NamespacedObjectManager
    const deployment: Placeholder
    const daemonSet: Placeholder
    const service: Placeholder
    const autoscaler: Placeholder
    const serviceAccount: Placeholder
    const configMap: Placeholder

    ghost function Repr(): set<object> {
      {manager, deployment, daemonSet, service, autoscaler, serviceAccount, configMap}
    }

    /** The placeholders are registered under their names, each once. */
    ghost predicate Registered()
      reads manager
    {
      && |manager.managed| == 6
      && manager.managed[0] == Managed(GOFLOW_KUBE, deployment, manager.managed[0].found)
         && deployment.kind == Deployments
      && manager.managed[1] == Managed(GOFLOW_KUBE, daemonSet, manager.managed[1].found) && daemonSet.kind == DaemonSets
      && manager.managed[2] == Managed(GOFLOW_KUBE, service, manager.managed[2].found) && service.kind == Services
      && manager.managed[3] == Managed(GOFLOW_KUBE, autoscaler, manager.managed[3].found)
         && autoscaler.kind == Autoscalers
      && manager.managed[4] == Managed(GOFLOW_KUBE, serviceAccount, manager.managed[4].found)
      && serviceAccount.kind == ServiceAccounts
      && manager.managed[5] == Managed(GO.CONFIG_MAP, configMap, manager.managed[5].found)
         && configMap.kind == ConfigMaps
    }

    ghost predicate Valid()
      reads Repr()
    {
      && manager.client == helper.client
      && Registered()
      && Distinct(manager.managed)
      && manager.Valid()
    }

    constructor (helper: Helper, ns: string, prev: string)
      ensures Valid() && fresh(Repr())
      ensures this.helper == helper && manager.namespace == ns && manager.previousNamespace == prev
    {
      var depl := new Placeholder(Deployments);
      var ds := new Placeholder(DaemonSets);
      var svc := new Placeholder(Services);
      var asc := new Placeholder(Autoscalers);
      var sa := new Placeholder(ServiceAccounts);
      var cm := new Placeholder(ConfigMaps);
      var m := NewManager(helper.client, ns, prev, depl, ds, svc, asc, sa, cm);
      this.helper, manager := helper, m;
      deployment, daemonSet, service, autoscaler, serviceAccount, configMap := depl, ds, svc, asc, sa, cm;
    }

    lemma ManagedKeys(ns: string)
      requires Registered()
      ensures manager.Keys(ns) == GO.ManagedKeys(ns)
    {
    }

    method CreatePermissions(firstInstall: bool) returns (st: Status)
      requires Valid()
      modifies helper.client
      ensures var s := G.CreatePermissions(helper.client.env, old(helper.client.w), helper.owner, manager.namespace,
          firstInstall);
              helper.client.w == s.w && st == s.st
    {
      hide CreateOwned;
      hide UpdateOwned;
      if firstInstall {
        st := helper.Create(GO.BuildClusterRole());
        if st.Err? {
          return;
        }
      }
      st := helper.Create(GO.BuildServiceAccount(manager.namespace));
      if st.Err? {
        return;
      }
      if firstInstall {
        st := helper.Create(GO.BuildClusterRoleBinding(manager.namespace));
      } else {
        st := helper.Update(None, GO.BuildClusterRoleBinding(manager.namespace));
      }
    }

    /** The one-shot resources of a first install. */
    method InitStaticResources() returns (st: Status)
      requires Valid()
      modifies helper.client
      ensures var s := G.CreatePermissions(helper.client.env, old(helper.client.w), helper.owner, manager.namespace,
          true);
              helper.client.w == s.w && st == s.st
    {
      st := CreatePermissions(true);
    }

    method PrepareNamespaceChange() returns (st: Status)
      requires Valid()
      modifies helper.client
      ensures var s := G.PrepareNamespaceChange(helper.client.env, old(helper.client.w), helper.owner,
                                                manager.namespace, manager.previousNamespace);
              helper.client.w == s.w && st == s.st
    {
      hide G.CreatePermissions;
      hide O.DeleteAll;
      ManagedKeys(manager.previousNamespace);
      manager.CleanupNamespace();
      st := CreatePermissions(false);
    }

    /** What was fetched is what the placeholders hold. */
    ghost predicate Holds(owned: G.Owned)
      reads Repr()
    {
      && HoldsOne(deployment, owned.deployment) && HoldsOne(daemonSet, owned.daemonSet)
      && HoldsOne(service, owned.service) && HoldsOne(autoscaler, owned.autoscaler)
      && HoldsOne(configMap, owned.configMap)
    }

    ghost predicate HoldsOne(p: Placeholder, o: Option<Object>)
      reads manager, p
    {
      (FoundIn(manager.managed, p) <==> o.Some?) && (o.Some? ==> p.obj == o)
    }

    method ReconcileAsDeployment(gf: GoflowKube, digest: string, ghost owned: G.Owned) returns (st: Status)
      requires Valid() && Holds(owned)
      modifies helper.client
      ensures var s := G.ReconcileAsDeployment(helper.client.env, old(helper.client.w), helper.owner, owned, gf,
                                               manager.namespace, digest);
              helper.client.w == s.w && st == s.st
    {
      hide CreateOwned;
      hide UpdateOwned;
      hide O.TryDelete;
      hide GO.BuildPodTemplate;
      hide G.DeploymentNeedsUpdate;
      hide G.ReconcileService;
      hide G.ReconcileAutoscaler;
      var ns := manager.namespace;
      manager.TryDelete(daemonSet);

      var newDepl := GO.BuildDeployment(gf, ns, digest);
      var there := manager.Exists(deployment);
      if !there {
        st := helper.Create(newDepl);
        if st.Err? {
          return;
        }
      } else if G.DeploymentNeedsUpdate(deployment.obj.value, gf, ns, digest) {
        st := helper.Update(deployment.obj, newDepl);
        if st.Err? {
          return;
        }
      }
      st := ReconcileService(gf, owned);
      if st.Err? {
        return;
      }
      st := ReconcileAutoscaler(gf, owned);
    }

    /** The Service goes with the Deployment. */
    method ReconcileService(gf: GoflowKube, ghost owned: G.Owned) returns (st: Status)
      requires Valid() && Holds(owned)
      modifies helper.client
      ensures var s := G.ReconcileService(helper.client.env, old(helper.client.w), helper.owner, owned, gf,
          manager.namespace);
              helper.client.w == s.w && st == s.st
    {
      hide CreateOwned;
      hide UpdateOwned;
      hide G.ServiceNeedsUpdate;
      var ns := manager.namespace;
      var there := manager.Exists(service);
      if !there {
        st := helper.Create(GO.BuildService(None, gf, ns));
        return;
      }
      var stale := G.CheckService(service.obj.value, gf, ns);
      if stale {
        st := helper.Update(service.obj, GO.BuildService(service.obj, gf, ns));
        return;
      }
      st := Ok;
    }

    /** Delete, create or update the autoscaler according to the specification. */
    method ReconcileAutoscaler(gf: GoflowKube, ghost owned: G.Owned) returns (st: Status)
      requires Valid() && Holds(owned)
      modifies helper.client
      ensures var s := G.ReconcileAutoscaler(helper.client.env, old(helper.client.w), helper.owner, owned, gf,
          manager.namespace);
              helper.client.w == s.w && st == s.st
    {
      hide CreateOwned;
      hide UpdateOwned;
      hide O.TryDelete;
      hide G.AutoscalerNeedsUpdate;
      var ns := manager.namespace;
      if gf.hpa.None? {
        manager.TryDelete(autoscaler);
        return Ok;
      }
      var newASC := GO.BuildAutoscaler(gf.hpa.value, ns);
      var there := manager.Exists(autoscaler);
      if !there {
        st := helper.Create(newASC);
        return;
      }
      if G.AutoscalerNeedsUpdate(autoscaler.obj.value, gf.hpa.value, ns) {
        st := helper.Update(autoscaler.obj, newASC);
        return;
      }
      st := Ok;
    }

    method ReconcileAsDaemonSet(gf: GoflowKube, digest: string, ghost owned: G.Owned) returns (st: Status)
      requires Valid() && Holds(owned)
      modifies helper.client
      ensures var s := G.ReconcileAsDaemonSet(helper.client.env, old(helper.client.w), helper.owner, owned, gf,
                                              manager.namespace, digest);
              helper.client.w == s.w && st == s.st
    {
      hide CreateOwned;
      hide UpdateOwned;
      hide O.TryDelete;
      hide GO.BuildPodTemplate;
      hide G.DaemonSetNeedsUpdate;
      var ns := manager.namespace;
      manager.TryDelete(deployment);
      manager.TryDelete(service);
      manager.TryDelete(autoscaler);
      var newDS := GO.BuildDaemonSet(gf, ns, digest);
      var there := manager.Exists(daemonSet);
      if !there {
        st := helper.Create(newDS);
        if st.Err? {
          return;
        }
      } else if G.DaemonSetNeedsUpdate(daemonSet.obj.value, gf, ns, digest) {
        st := helper.Update(daemonSet.obj, newDS);
        if st.Err? {
          return;
        }
      }
      st := Ok;
    }

    /** Fetch, write the configuration, then bring up the collector of the wanted kind. */
    method Reconcile(gf: GoflowKube, loki: Loki) returns (st: Status)
      requires Valid()
      modifies helper.client, Repr()
      ensures Valid()
      ensures var s := G.Reconcile(helper.client.env, old(helper.client.w), helper.owner, gf, loki, manager.namespace);
              helper.client.w == s.w && st == s.st
    {
      hide CreateOwned;
      hide UpdateOwned;
      hide O.FetchAll;
      hide GO.BuildConfigMap;
      hide GO.ConfigDigest;
      hide G.ReconcileAsDeployment;
      hide Registered;
      hide Distinct;
      hide NamespacedObjectManager.Valid;
      hide G.ReconcileAsDaemonSet;
      ghost var fetch;
      st, fetch := Fetch();
      if st.Err? {
        return;
      }
      ghost var owned := G.OwnedFrom(fetch.found);
      var newCM, digest := GO.MakeConfigMap(gf, loki, manager.namespace);
      var there := manager.Exists(configMap);
      if !there {
        st := helper.Create(newCM);
      } else {
        st := helper.Update(configMap.obj, newCM);
      }
      if st.Err? {
        return;
      }
      if gf.kind == DEPLOYMENT_KIND {
        st := ReconcileAsDeployment(gf, digest, owned);
      } else if gf.kind == DAEMON_SET_KIND {
        st := ReconcileAsDaemonSet(gf, digest, owned);
      } else {
        st := Err(InvalidKind(gf.kind));
      }
    }

    /** Retrieves the objects this reconciler owns. */
    method Fetch() returns (st: Status, ghost fetch: O.Fetch)
      requires Valid()
      modifies helper.client, Repr()
      ensures Valid()
      ensures fetch == O.FetchAll(helper.client.env, old(helper.client.w), GO.ManagedKeys(manager.namespace))
      ensures helper.client.w == fetch.w && st == fetch.st
      ensures st.Ok? ==> |fetch.found| == 6 && Holds(G.OwnedFrom(fetch.found))
    {
      hide O.FetchAll;
      hide LastFill;
      hide FoundIn;
      hide Distinct;
      ManagedKeys(manager.namespace);
      ghost var before := manager.managed;
      st, fetch := manager.FetchAll();
      FlaggedDistinct(before, fetch.found);
      assert Registered();
      hide Flagged;
      if st.Ok? {
        EntryFetched(before, fetch.found, 0, old(deployment.obj));
        EntryFetched(before, fetch.found, 1, old(daemonSet.obj));
        EntryFetched(before, fetch.found, 2, old(service.obj));
        EntryFetched(before, fetch.found, 3, old(autoscaler.obj));
        EntryFetched(before, fetch.found, 5, old(configMap.obj));
      }
    }
  }

}
