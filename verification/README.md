# The network observability operator's reconciliation engine

The operator keeps a flow collector (goflow-kube), an OVS flows configuration and a console plugin in line with one
FlowCollector resource. Each pass reads the resource, creates its namespace, moves the installation when the namespace
was edited, commits the new namespace in the resource's status, and then creates, updates or deletes the components.
It does so with a series of calls to the Kubernetes API, any of which may fail, and it may die between two of them.

This project models that engine and proves what holds at every call boundary of every run, what a pass that succeeds
leaves behind, exactly when a pass succeeds, and where a retry does not recover.

## How it is laid out

The cluster (`Cluster`) is a store of objects under `(kind, namespace, name)`, the FlowCollector, and a record of every
call. `Create` fails iff the key exists; `Update` fails if the key is absent or a supplied version is stale; `Delete`
is immediate; one counter gives all versions. An adversary chooses for each call whether it passes, is rejected, takes
effect while its answer is lost, or is never sent because the operator dies; a restarted operator's calls are answered
anew. A run (`Runs`) is any sequence of specification edits and passes; an operator that died has been restarted when
the next pass begins. A cluster is fresh when the resource's status is empty and the operator's object names are not in
use. Deletes are reliable when each one that is sent takes effect, though its answer may be lost.

- Specification functions, one per function of the source, with its branches: `ClientHelper`, `ObjectManager`,
  `GoflowObjects`, `GoflowReconciler`, `PluginReconciler`, `FlowsConfig`, `FlowCollectorController`.
- The same code in the source's own form, objects with state and loops, proved to make exactly the calls and return
  exactly the result of those functions: `Manager`, `GoflowController`, `PluginController`, `Operator`.
- Text and numbers: `Numerals`, `Durations`, `Json`, `GoflowConfig`, `Digest`.
- Step-level safety: `Safety` says when each call may be sent, `PassInduction` proves that every call of a pass, under
  any faults, is one that may be sent, and so that what such calls keep, a whole pass keeps; `Containment`,
  `Permissions` and `Ownership` use it.
- Outcomes: `Staleness`, `Effects`, `Convergence`, `Success`, `Lifecycle`, `Quiescence`, `OvsController`,
  `PluginHistory`, `PluginService`, `SuccessiveEdits`.
- What the objects say, read off the objects and the specification with no builder named: `Shapes` in every state of
  every run, `Contents` after a pass that succeeds.
- Limits: `Recovery`, `Accounts`. Independence of the parts: `NonInterference`.

Three oddities of the code are kept as they are. The goflow-kube ConfigMap is compared with a map of strings and so is
never found equal: it is written on every pass. The console Service is created over TCP, updated to UDP, and looked for
over TCP. Errors of Delete, and errors of the OVS controller, are dropped.

Comments in the source promise less or more than the code does in two places, and the model follows the code.
"Cluster role is only installed once" holds because a second attempt to create it fails the whole pass
(`Recovery.HalfInstalledForever`); "Service account has to be re-created when namespace changes" is not done when a
change is taken back (`Recovery.RevertBreaksOrder`).

## Properties that are false, and exactly when they hold

- Permissions before workloads: false when a pass stays in the committed namespace and its account is gone, as after a
  failed namespace change that is taken back (`Recovery.RevertBreaksOrder` gives the run). `Accounts.PermissionsExact`:
  a pass that succeeds ends in order iff it moves to another namespace or finds the account of the committed one, which
  can be checked before it, and one that does so is in order at every call boundary. `Accounts.OrderExactly` says the
  same of whole runs. A pass that finds no account and fails may stop before it brings up a collector, and then does no
  harm; the statement over runs is therefore about runs whose passes of that kind succeed.
- A failed install or move can be retried: false once the role, or the account in the new namespace, exists.
  `Lifecycle.ExactSuccess` says exactly when a pass succeeds, `Recovery.HalfInstalledForever` and
  `Recovery.HalfMovedForever` that the state never recovers, `Recovery.RejectedInstall` and `Recovery.RejectedBinding`
  that one rejected call leads there, `Recovery.Reinstall` what does help.
- The console Service depends on the specification alone: false; `PluginService.ConsoleServiceHistory` and
  `PluginService.TCPExactly` say exactly what it depends on.

One property is conditional. A DaemonSet whose port changed is updated as long as the two configurations do not share
a 64-bit digest: `Staleness.DaemonSetMissed` says exactly when an update is missed, and `Convergence.Converges` that
this is the only thing that keeps a pass that succeeds from convergence. No pair of configurations with different ports
and one digest is shown here.

## Model

| member | source | states |
|---|---|---|
| Cluster.Client.Send | controllers/reconcilers/client_helper.go:13-16 | One API call: the store changes and the answer comes as the API semantics and the adversary have it, and the call is recorded. |
| ClientHelper.Helper.Create | controllers/reconcilers/client_helper.go:19-34 | The owner is set, then one Create; the error of either is returned, and an object of another owner is never sent. |
| ClientHelper.Helper.Update | controllers/reconcilers/client_helper.go:37-55 | The version of the old object is carried over when there is one, the owner is set, then one Update. |
| ClientHelper.FindContainer | controllers/reconcilers/client_helper.go:58-65 | Nothing is found iff no container has the name; what is found is a container of the list and has the name. |
| ClientHelper.SearchContainer | controllers/reconcilers/client_helper.go:58-65 | The loop finds the first container with the name. |
| Ownership.VersionsFresh | controllers/reconcilers/client_helper.go:39-41 | In no run from a fresh cluster, whatever fails, is any of the operator's calls answered with a conflict. |
| Ownership.EverythingOwned | controllers/reconcilers/client_helper.go:19-55 | At every call boundary of every run, all that was not there before, Namespaces aside, has the FlowCollector as controller. |
| Ownership.CollectLeavesNamespaces | controllers/flowcollector_controller.go:96-109 | In every state of every run, collecting the FlowCollector's dependants leaves only Namespaces and what was there before the run. |
| Manager.NamespacedObjectManager.constructor | controllers/reconcilers/namespaced_objects_manager.go:28-34 | A new manager has its namespaces and nothing registered. |
| Manager.NamespacedObjectManager.AddManagedObject | controllers/reconcilers/namespaced_objects_manager.go:39-45 | The placeholder is appended under its name, not found yet. |
| Manager.NamespacedObjectManager.FetchAll | controllers/reconcilers/namespaced_objects_manager.go:49-66 | The Gets are issued in order up to the first error; flags before it are fresh, its own is down, later ones are as before; every placeholder holds what the last of its entries that was found gave it, or what it held before, also when a placeholder is registered more than once. |
| Manager.FilledOnce | controllers/reconcilers/namespaced_objects_manager.go:49-66 | When placeholders are different, as the reconcilers register them, a placeholder is filled iff the object of its own entry was found. |
| Manager.NamespacedObjectManager.FetchOne | controllers/reconcilers/namespaced_objects_manager.go:51-63 | One turn of the loop lowers the flag, issues the Get, and on success raises the flag and fills the placeholder. |
| Manager.FetchMirrors | controllers/reconcilers/namespaced_objects_manager.go:49-66 | Fetching changes nothing in the cluster; after a fetch that succeeds each flag says whether the cluster has the object of that kind, namespace and name. |
| Manager.ExistsAgrees | controllers/reconcilers/namespaced_objects_manager.go:97-108 | After a fetch that succeeded, a placeholder is found iff it is registered and the cluster has its object. |
| Manager.NamespacedObjectManager.Exists | controllers/reconcilers/namespaced_objects_manager.go:98-108 | Nil is never found; otherwise the answer is the flag of the first entry with the same pointer. |
| Manager.NamespacedObjectManager.CleanupNamespace | controllers/reconcilers/namespaced_objects_manager.go:69-82 | Deletes the registered keys in the previous namespace, in order, whatever the answers. |
| Manager.CleanupTouches | controllers/reconcilers/namespaced_objects_manager.go:69-82 | The calls sent are exactly one Delete for each registered key, in order, cut short only if the operator dies; no other key is touched. |
| Manager.NamespacedObjectManager.TryDelete | controllers/reconcilers/namespaced_objects_manager.go:85-95 | One Delete of the fetched object if it was found, nothing otherwise; the answer is dropped. |
| GoflowController.GFKReconciler.constructor | controllers/goflowkube/goflowkube_reconciler.go:37-55 | Six placeholders, all different, are registered under their names and kinds. |
| GoflowController.GFKReconciler.InitStaticResources | controllers/goflowkube/goflowkube_reconciler.go:58-60 | Creates role, account and binding, stopping at the first error. |
| GoflowController.GFKReconciler.CreatePermissions | controllers/goflowkube/goflowkube_reconciler.go:161-183 | The role only on a first install, the account always, the binding created or updated; the calls and the first error are those of the specification function. |
| GoflowController.GFKReconciler.PrepareNamespaceChange | controllers/goflowkube/goflowkube_reconciler.go:63-67 | Cleans up the previous namespace, then recreates the permissions. |
| GoflowController.GFKReconciler.Fetch | controllers/goflowkube/goflowkube_reconciler.go:71-75 | After it succeeds the placeholders hold exactly what the cluster had. |
| GoflowController.GFKReconciler.Reconcile | controllers/goflowkube/goflowkube_reconciler.go:70-95 | The calls sent, their order and the result are those of the specification function: fetch, write the configuration, then the collector of the wanted kind, or an error for an invalid kind. |
| GoflowController.GFKReconciler.ReconcileAsDeployment | controllers/goflowkube/goflowkube_reconciler.go:97-140 | Deletes a DaemonSet, then creates or updates the Deployment, the Service and the autoscaler, stopping at the first error. |
| GoflowController.GFKReconciler.ReconcileService | controllers/goflowkube/goflowkube_reconciler.go:112-122 | Creates the Service, or updates the ports of the one in place when the port is not among them; RunMatched has what it selects, ClusterIPStable what it keeps. |
| GoflowController.GFKReconciler.ReconcileAutoscaler | controllers/goflowkube/goflowkube_reconciler.go:124-138 | Deletes, creates or updates the autoscaler as the specification has it. |
| GoflowController.GFKReconciler.ReconcileAsDaemonSet | controllers/goflowkube/goflowkube_reconciler.go:142-159 | Deletes Deployment, Service and autoscaler, then creates or updates the DaemonSet. |
| GoflowReconciler.CheckService | controllers/goflowkube/goflowkube_reconciler.go:206-216 | The loop over the ports says the Service is out of date iff the namespace differs or no port has the number over UDP. |
| Staleness.DeploymentExact | controllers/goflowkube/goflowkube_reconciler.go:193-200 | For a Deployment built from any earlier specification, the comparison finds nothing to do iff the one built now is equal up to server-assigned fields; image, pull policy, resources, log level and replicas are told apart exactly, the configuration through its digest. |
| Staleness.DaemonSetExact | controllers/goflowkube/goflowkube_reconciler.go:185-191 | The same for a DaemonSet, host port included, provided the two configurations do not share a digest. |
| Staleness.DaemonSetMissed | controllers/goflowkube/goflowkube_reconciler.go:185-204 | Without that proviso: an update is missed iff nothing compared differs, the digests agree, and the ports differ. |
| Staleness.CommandShowsLevel | controllers/goflowkube/goflowkube_objects.go:136-138 | Two collectors have the same command iff they have the same log level. |
| Staleness.ServiceExact | controllers/goflowkube/goflowkube_reconciler.go:206-216 | For a Service of the operator, nothing to do iff the one built now is equal, built afresh or on the one in place. |
| Staleness.ServiceForm | controllers/goflowkube/goflowkube_objects.go:202-208 | Updating the ports of a Service gives what building it afresh would, server-assigned fields aside. |
| Staleness.AutoscalerExact | controllers/goflowkube/goflowkube_reconciler.go:235-248 | For an autoscaler of the operator, nothing to do iff the one built now is equal; absent and present bounds are told apart. |
| Staleness.OneByteRestarts | controllers/goflowkube/goflowkube_reconciler.go:202-204 | Configuration texts of equal length that differ in exactly one byte always make the pod template out of date. |
| GoflowObjects.MakeConfigMap | controllers/goflowkube/goflowkube_objects.go:142-183 | Filling the record field by field, rendering it and feeding the hasher gives the specified ConfigMap and digest; TextSays has what that ConfigMap's text says. |
| Digest.Hasher.Write | controllers/goflowkube/goflowkube_objects.go:179-180 | Writing bytes in any number of pieces absorbs them one after the other. |
| Digest.MixBijective | controllers/goflowkube/goflowkube_objects.go:179-180 | For each byte the FNV-1a step is a bijection on the 64-bit state. |
| Digest.MixSeparatesBytes | controllers/goflowkube/goflowkube_objects.go:179-180 | From one state, different bytes lead to different states. |
| Digest.CommonSuffix | controllers/goflowkube/goflowkube_objects.go:179-181 | A common suffix neither hides nor creates a collision. |
| Digest.OneByteChange | controllers/goflowkube/goflowkube_objects.go:179-181 | Byte strings that differ in exactly one byte never have the same hash. |
| Digest.DigestIsHash | controllers/goflowkube/goflowkube_objects.go:181 | Base-36 digests agree exactly when the hashes do. |
| Digest.OneCharacterChange | controllers/goflowkube/goflowkube_objects.go:179-182 | Texts that differ in exactly one ASCII character have different digests. |
| Digest.PublishedVectors | controllers/goflowkube/goflowkube_objects.go:179-180 | The hash is FNV-1a: it has the published values for the empty text and for "a". |
| Digest.EncodeInjective | controllers/goflowkube/goflowkube_objects.go:180 | The bytes that are hashed are the text's UTF-8 encoding, which tells all texts apart. |
| Numerals.FormatRoundTrip | controllers/goflowkube/goflowkube_objects.go:181 | A number written in any base from 2 to 36 is read back. |
| Numerals.DecimalInjective | controllers/goflowkube/goflowkube_objects.go:147 | Signed decimal numerals of different numbers differ. |
| Durations.DurationRoundTrip | controllers/goflowkube/goflowkube_objects.go:37-41 | Every 64-bit duration is read back from the text it is written as. |
| Durations.PartsCanonical | controllers/goflowkube/goflowkube_objects.go:37-41 | Durations are written in the form time.Duration documents: no leading zero units, minutes and seconds below 60 after a larger unit, below a second the unit that makes the first digit non-zero, no trailing zeros. |
| Json.ParseRendered | controllers/goflowkube/goflowkube_objects.go:164-167 | Every JSON value is read back from its rendered text, escapes included. |
| Json.RenderPlain | controllers/goflowkube/goflowkube_objects.go:164-167 | The text of any JSON value has no control character, none of <, > and &, and neither of the two JavaScript line ends, as encoding/json promises. |
| GoflowConfig.TextRoundTrip | controllers/goflowkube/goflowkube_objects.go:145-167 | The text of the configuration decodes, and each field of the specification is found in its own field: listen, the Loki fields, the four labels, printInput false, printOutput. |
| GoflowConfig.TextSays | controllers/goflowkube/goflowkube_objects.go:28-45 | Read as JSON, the text has each value of the specification under the name that goflow-kube reads, though zero fields are left out; durations are read back. |
| GoflowConfig.TextInjective | controllers/goflowkube/goflowkube_objects.go:28-45 | Two configuration texts are equal iff port, printOutput and every Loki field but the querier URL are equal. |
| Ownership.ClusterIPStable | controllers/goflowkube/goflowkube_objects.go:202-208 | While the kind stays Deployment and the namespace the committed one, whatever else is edited and whatever fails, the collector's Service is never deleted and keeps its cluster IP, selector, labels and annotations at every call boundary. |
| Ownership.ConsoleIPStable | controllers/consoleplugin/consoleplugin_objects.go:122-128 | While the namespace stays the committed one, whatever is edited and whatever fails, the console Service is never deleted and keeps its cluster IP, selector, labels and annotations at every call boundary. |
| PluginController.CPReconciler.constructor | controllers/consoleplugin/consoleplugin_reconciler.go:35-47 | Three placeholders, all different, are registered. |
| PluginController.CPReconciler.InitStaticResources | controllers/consoleplugin/consoleplugin_reconciler.go:50-52 | Creates the plugin's account. |
| PluginController.CPReconciler.PrepareNamespaceChange | controllers/consoleplugin/consoleplugin_reconciler.go:55-59 | Cleans up the previous namespace, then creates the account in the new one. |
| PluginController.CPReconciler.Fetch | controllers/consoleplugin/consoleplugin_reconciler.go:64-68 | After it succeeds the placeholders hold exactly what the cluster had. |
| PluginController.CPReconciler.CheckService | controllers/consoleplugin/consoleplugin_reconciler.go:144-154 | Out of date iff the namespace differs or no port has the number over TCP. |
| PluginController.CPReconciler.ReconcileObjects | controllers/consoleplugin/consoleplugin_reconciler.go:82-116 | ConsolePlugin, Deployment and Service in turn, each created, updated or left alone, stopping at the first error; ConsoleIPStable has what the Service keeps. |
| PluginController.CPReconciler.Reconcile | controllers/consoleplugin/consoleplugin_reconciler.go:62-117 | The calls, their order and the result are those of the specification function. |
| Staleness.PluginDeploymentExact | controllers/consoleplugin/consoleplugin_reconciler.go:124-135 | For the plugin's Deployment, nothing to do iff the one built now is equal; the querier address in the arguments is covered through the annotation. |
| Staleness.ConsolePluginExact | controllers/consoleplugin/consoleplugin_reconciler.go:119-122 | For the ConsolePlugin, nothing to do iff the one built now is equal. |
| FlowsConfig.MakeStringMap | controllers/ovs/flowsconfig_types.go:24-37 | The loop leaves out exactly the zero fields and prints the others under their keys. |
| OvsController.NonZeroAt | controllers/ovs/flowsconfig_types.go:30-35 | A field is in the map iff it is not zero, and then with its own text, whatever the other fields. |
| OvsController.ParsePrinted | controllers/ovs/flowsconfig_types.go:18-22 | The base-0 parser reads back every 32-bit number the decimal printer writes, negative ones included. |
| OvsController.BasesRead | controllers/ovs/flowsconfig_types.go:18-22 | The base-0 parser reads hexadecimal, binary, octal and decimal numbers by their prefixes. |
| OvsController.FlowsRoundTrip | controllers/ovs/flowsconfig_types.go:18-37 | Decoding the string map of any configuration gives that configuration, omitted zero fields included. |
| OvsController.FlowsInjective | controllers/ovs/flowsconfig_types.go:24-37 | Different configurations have different string maps. |
| OvsController.TargetKeys | controllers/ovs/flowsconfig_types.go:12-16 | The shared target and the node port are in the map iff they are set. |
| FlowsConfig.SearchAddress | controllers/ovs/flowsconfig_reconciler.go:123-129 | The loop takes the first address that is not empty. |
| Operator.FlowsConfigController.ReadCurrent | controllers/ovs/flowsconfig_reconciler.go:78-95 | None when the ConfigMap is absent, an error when it cannot be read or decoded, the decoded configuration otherwise. |
| Operator.FlowsConfigController.WantedConfig | controllers/ovs/flowsconfig_reconciler.go:97-138 | The node port for a DaemonSet, the resolved address of the Service for a Deployment, an error for another kind, a missing Service or an unusable resolution; OvsDelivers has what the target says. |
| Operator.FlowsConfigController.Reconcile | controllers/ovs/flowsconfig_reconciler.go:42-76 | Reads, then creates, updates or leaves the ConfigMap, with the calls and the result of the specification function. |
| OvsController.OvsCorrect | controllers/ovs/flowsconfig_reconciler.go:42-76 | Under any faults and over any ConfigMap: on success the ConfigMap decodes to the wanted configuration, and is exactly its string map if what was there had been written by the operator. |
| OvsController.OvsTargets | controllers/ovs/flowsconfig_reconciler.go:97-138 | Across kind switches, for ports from 1 to 65535: on success a DaemonSet's ConfigMap has the node port and no shared target, a Deployment's a shared target and no node port. OvsDelivers has which target. |
| OvsController.OvsDelivers | controllers/ovs/flowsconfig_reconciler.go:97-138 | Under any faults: on success the ConfigMap has the IPFIX settings of the specification under their names, the node port for a DaemonSet, and for a Deployment a target that splits at its last colon into the port and the first non-empty address that goflow-kube.<namespace> resolved to in that reconciliation, in brackets iff it has colons of its own. |
| OvsController.JoinedNames | controllers/ovs/flowsconfig_reconciler.go:118-134 | A joined target splits at its last colon into the host, brackets taken off, and the port. |
| OvsController.RunWritten | controllers/ovs/flowsconfig_reconciler.go:140-156 | At every call boundary of every run, each OVS ConfigMap holds the string map of some configuration. |
| Quiescence.OvsSettles | controllers/ovs/flowsconfig_reconciler.go:56-75 | When names keep resolving as they do, the controller writes only if something is due, and afterwards nothing is due: a repeat writes nothing. |
| FlowCollectorController.NamespaceOf | controllers/flowcollector_controller.go:235-240 | The target is the namespace the specification names, or the operator's own when it names none; it is never empty. |
| Operator.FlowCollectorReconciler.EnsureNamespace | controllers/flowcollector_controller.go:91-102 | The Namespace is created iff a read says it is absent; any other error ends the pass. |
| Operator.FlowCollectorReconciler.NewReconcilers | controllers/flowcollector_controller.go:104-122 | The reconcilers of a pass share the client, the namespaces and the owner, and no placeholder. |
| Operator.FlowCollectorReconciler.HandleNamespaceChanged | controllers/flowcollector_controller.go:155-195 | Static resources first, and the status only after all of them succeeded. |
| Operator.FlowCollectorReconciler.ReconcileComponents | controllers/flowcollector_controller.go:132-150 | goflow-kube, then OVS with its error dropped, then the console plugin if enabled. |
| Operator.FlowCollectorReconciler.ReconcileLive | controllers/flowcollector_controller.go:90-152 | Namespace, change of namespace, components, in this order, stopping at the first error. |
| Operator.FlowCollectorReconciler.Reconcile | controllers/flowcollector_controller.go:69-153 | From any world and under any adversary, the calls sent, the state they leave and the result are those of the specification function. |
| PassInduction.PassKeeps | controllers/flowcollector_controller.go:69-153 | The induction principle: under any faults and wherever the operator dies, what is kept by the calls that may be sent is kept by a whole pass, and the pass changes the status to nothing but the target namespace. |
| Runs.RunAlways | controllers/flowcollector_controller.go:69-153 | What such calls keep, and edits do not disturb, holds at every call boundary of every run. |
| Containment.MigrationContained | controllers/flowcollector_controller.go:124-136 | At every call boundary of every run, a workload outside the committed namespace is there only if the last Delete sent for it failed; with reliable deletes there is none. |
| Containment.MigrationLeavesNothing | controllers/flowcollector_controller.go:176-194 | The same, for the store just after the i-th call. |
| Containment.OneCollectorKind | controllers/goflowkube/goflowkube_reconciler.go:97-159 | With reliable deletes, no call boundary of any run has both a Deployment and a DaemonSet of the collector, in whatever namespaces. |
| Permissions.PermissionsFirst | controllers/goflowkube/goflowkube_reconciler.go:161-183 | With reliable deletes, in a run whose every pass moves to another namespace or finds the account of the committed one: at every call boundary a collector in a namespace comes with the role, an account there and a binding that names it. |
| Permissions.PermissionsUnlessReverted | controllers/goflowkube/goflowkube_reconciler.go:161-183 | That is so in particular when no change of namespace is taken back before it was committed. |
| Accounts.RunProvided | controllers/goflowkube/goflowkube_reconciler.go:161-183 | With reliable deletes, after every run: once a namespace is committed the role is there, and an account in that namespace comes with the binding that names it. |
| Accounts.PermissionsExact | controllers/flowcollector_controller.go:124-136 | After any run in order so far, with reliable deletes: the next pass is in order at every call boundary if it moves or finds the account of the committed namespace, and if it succeeds it ends in order only then. |
| Accounts.OrderExactly | controllers/flowcollector_controller.go:155-195 | Over a run with reliable deletes whose passes succeed when they neither move nor find the account: every call boundary is in order iff every pass moves or finds the account. |
| Recovery.AccountNotRestored | controllers/flowcollector_controller.go:124-136 | A pass in the committed namespace that finds the account missing does not restore it, whatever fails; if it succeeds, it ends with a collector and no account. |
| Recovery.RejectedMove | controllers/goflowkube/goflowkube_reconciler.go:63-67 | A change of namespace whose account is rejected has already deleted the account of the namespace it leaves, and keeps the status. |
| Recovery.RevertBreaksOrder | controllers/flowcollector_controller.go:155-195 | From every fresh cluster with a valid kind, one rejected call and a namespace edited back end in a pass that succeeds and a collector without its account, so the condition of PermissionsFirst fails on that run. |
| Effects.GoflowSettles | controllers/goflowkube/goflowkube_reconciler.go:70-95 | A goflow-kube reconciliation touches only its five keys; if it succeeds, the wanted kind is there with nothing a comparison would object to, and with reliable deletes and the operator alive nothing of the other kind. |
| Effects.PassSettles | controllers/flowcollector_controller.go:132-152 | A pass that succeeds, whatever failed on its way, leaves the status naming the namespace of the specification, the collector there up to date, and the plugin, its Deployment and its Service up to date if the console is on (the Service possibly with the single UDP port of an update); with reliable deletes and the operator alive, nothing of the other kind. The OVS ConfigMap is OvsCorrect's matter. |
| Shapes.RunShaped | controllers/goflowkube/goflowkube_objects.go:47-134 | Under any faults, at every call boundary of every run, each of the operator's objects has its form: pods labelled, selected, named and given an account by the name of their workload, the command and arguments around the specified values, annotations, labels, and what bindings, autoscalers and ConsolePlugins refer to. |
| Shapes.RunMatched | controllers/goflowkube/goflowkube_objects.go:185-229 | At every call boundary of every run, for the collector and for the plugin: a workload's selector is not empty and selects its own pods, the Service beside a Deployment selects the Deployment's pods, and an autoscaler names the Deployment. |
| Convergence.RunBuilt | controllers/goflowkube/goflowkube_objects.go:53-134 | At every call boundary of every run, each collector object equals the one built from some specification of the run. |
| Convergence.Converges | controllers/goflowkube/goflowkube_reconciler.go:70-159 | After any run with reliable deletes, a pass that succeeds leaves, over all namespaces, exactly the collector objects the last specification asks for, iff it did not find a DaemonSet of another host port that looks the same. |
| Convergence.MissedOnlyByCollision | controllers/goflowkube/goflowkube_reconciler.go:185-204 | After any run there is such a DaemonSet only if the last specification and an earlier one of the run are DaemonSets in one namespace that differ in port and share all that is compared, the digest included. |
| Convergence.HistoryIndependent | controllers/flowcollector_controller.go:69-153 | With reliable deletes, two runs that end with the same specification and a pass that succeeds, neither with a missed port, agree on every collector object, server-assigned fields aside. |
| Contents.PassDelivers | controllers/flowcollector_controller.go:124-152 | After any run under any faults, a pass that succeeds leaves a stored configuration text that says what the specification says, a workload of its kind with the specified image, policy, resources, log level, replicas and the digest of that text, a Service with just the collector's port, the specified autoscaler, all matched; and for the console a ConsolePlugin that points at the Service in place, which selects the plugin's pods, which query querierURL, or url when it is empty. |
| Contents.PortDelivered | controllers/goflowkube/goflowkube_objects.go:84-97 | With reliable deletes, a DaemonSet's pods then have the specified port, of the container and of the node, iff it was not missed. |
| Contents.FlowsDelivered | controllers/ovs/flowsconfig_reconciler.go:42-76 | Without faults, names resolving as they do: after any run, a pass that succeeds leaves an OVS ConfigMap that says what OvsDelivers says, if the collector's Service resolves or is not needed. |
| Contents.NamespaceDelivered | controllers/flowcollector_controller.go:91-102 | From any state and under any faults, a pass that succeeds leaves the namespace of the specification in place. |
| Convergence.SettledKinds | controllers/goflowkube/goflowkube_reconciler.go:97-159 | Then a DaemonSet comes with no Service and no autoscaler anywhere, and a Deployment with an autoscaler iff the specification has one. |
| Success.PassAnswered | controllers/flowcollector_controller.go:69-153 | When no call of the pass fails: it succeeds iff the kind is valid, the static resources are as the status says and no Service to update has another owner; and it commits the namespace iff the static resources are as the status says. |
| Lifecycle.ExactSuccess | controllers/flowcollector_controller.go:124-152 | The same without any fault; without other owners, success iff the kind is valid and the status is the target, or is empty with all static objects absent, or is another namespace with the target accounts absent and the binding present. |
| Lifecycle.PassStatics | controllers/goflowkube/goflowkube_reconciler.go:161-183 | Without faults, a pass takes static resources that are exactly those of the committed namespace to exactly those of the target, even if it fails later. |
| Lifecycle.NotBlocked | controllers/reconcilers/client_helper.go:42-46 | In no run from a fresh cluster does a Service of another owner stand in the operator's way. |
| Lifecycle.FaultFreePassesSucceed | controllers/flowcollector_controller.go:69-153 | From a fresh cluster and without faults, after any edits whatever, a pass succeeds iff its kind is valid. |
| Recovery.RejectedInstall | controllers/goflowkube/goflowkube_reconciler.go:161-171 | A first install whose account is rejected leaves the role created and the status empty. |
| Recovery.HalfInstalledPass | controllers/goflowkube/goflowkube_reconciler.go:163-167 | With the status empty and the role present, every pass fails, whatever happens to its calls, and writes nothing but its Namespace. |
| Recovery.HalfInstalledForever | controllers/flowcollector_controller.go:163-169 | From that state no run of edits and passes, under any faults, ever writes anything but Namespaces. |
| Recovery.RejectedBinding | controllers/goflowkube/goflowkube_reconciler.go:161-183 | A change of namespace whose binding is rejected leaves the account in the new namespace created and the old one committed. |
| Recovery.HalfMovedPass | controllers/flowcollector_controller.go:124-136 | When another namespace is committed and the target has its account already, every pass fails and keeps the status, whatever happens to its calls. |
| Recovery.HalfMovedForever | controllers/flowcollector_controller.go:155-195 | No run that keeps that target ever commits it, whatever is edited besides and whatever fails or passes. |
| Recovery.Reinstall | controllers/flowcollector_controller.go:72-79 | After any run, deleting the resource, collecting what it controls and creating it anew is a fresh start. |
| Quiescence.FirstPassRests | controllers/flowcollector_controller.go:132-152 | From any state, a first pass that succeeds without faults leaves nothing to do but the two rewrites. |
| Quiescence.RestPass | controllers/goflowkube/goflowkube_reconciler.go:76-85 | At rest, a pass leaves the content of the cluster as it is and writes exactly the goflow-kube ConfigMap, and the console Service iff it has no TCP port of the right number. |
| Quiescence.LaterPasses | controllers/flowcollector_controller.go:69-153 | So do the second and every later pass after one that succeeded, names resolving as before. |
| SuccessiveEdits.NeverMissed | controllers/goflowkube/goflowkube_reconciler.go:185-204 | Without faults, a pass finds a DaemonSet whose port it misses only if two specifications that follow one another collide. |
| SuccessiveEdits.FaultFreeConverges | controllers/flowcollector_controller.go:69-153 | From a fresh cluster and without faults, after any edits in which no specification collides with the one before, a pass of a valid kind leaves role, accounts, binding and collector as one function of the last specification. |
| PluginHistory.PluginConverges | controllers/consoleplugin/consoleplugin_reconciler.go:62-103 | After any run with reliable deletes, a pass that succeeds leaves the plugin's Deployment, in one namespace only, and the ConsolePlugin as the last specification asks. |
| PluginService.CreatedIsUpToDate | controllers/consoleplugin/consoleplugin_objects.go:103-121 | What the create path builds is found up to date. |
| PluginService.UpdatedIsStale | controllers/consoleplugin/consoleplugin_objects.go:122-129 | What the update path builds is found out of date by every later comparison, whatever it wants. |
| PluginService.PassPorts | controllers/consoleplugin/consoleplugin_reconciler.go:105-115 | Without faults, with the console on, from any state: a pass that succeeds turns the ports of the console Service in its namespace into the next ones, and one that fails leaves them as they are. |
| PluginService.ConsoleServiceHistory | controllers/consoleplugin/consoleplugin_reconciler.go:105-115 | From a fresh cluster and without faults, the ports are a function of the whole history of edits and passes. |
| PluginService.TCPExactly | controllers/consoleplugin/consoleplugin_reconciler.go:144-154 | Within one namespace, the Service is over TCP iff no pass since it was created asked for another port. |
| PluginService.ServiceRemembers | controllers/consoleplugin/consoleplugin_objects.go:122-129 | Two histories with the same last specification, one that edits the port and edits it back, end with different Services. |
| NonInterference.OvsAlike | controllers/ovs/flowsconfig_reconciler.go:42-76 | An OVS reconciliation changes nothing, versions aside, that the rest of the operator sees. |
| NonInterference.PassAlike | controllers/flowcollector_controller.go:138-152 | Two passes that differ only in OVS faults (short of killing the operator), name resolution and OVS ConfigMaps, under adversaries that do not look at versions, return the same result, make the same other calls with the same answers, and agree on every other object, versions aside. |
| NonInterference.NonInterfering | controllers/flowcollector_controller.go:138-152 | The same over whole runs of the same actions. |

## Left out

- main.go, SetupWithManager, isConsoleEnabled: process wiring; whether the console is there is a constant of the environment.
- Concurrency: a single active reconciler, linearizable reads, specification edits only between two passes.
- Other controllers, autoscalers and users that edit the operator's objects between passes.
- DNS, net.IP printing: looking a host up and printing an address are parameters of the environment. A lookup's answer may change with every OVS call, unless it is said to be steady.
- Namespaces: creating an object does not require its Namespace to exist, and deleting a Namespace is not modelled.
- Owner references: an owner is known by its name alone; references that are not controllers are not modelled.
- Quantities: compute resources are compared as texts, not as numbers with units.
- Pod templates: volumes, mounts and tolerations are constants (one mark for the tolerations of a DaemonSet); so are the rules of the role and the second, equal port of the ConsolePlugin's proxy.
- json.Marshal's error branch, which keeps "{}": rendering the configuration record has no error; likewise the branch for a missing Loki section, which the only caller never passes.
- ParsePrinted: underscores, which Go's base-0 parser admits between digits, are refused by the modelled parser; the printer never writes them.
- PassAlike: an adversary whose answers depend on resource versions is not covered, since each OVS write moves the versions of all later writes; nor is one that kills the operator in an OVS call.
- NonInterfering: the same two restrictions on adversaries.
- FlowsRoundTrip: mapstructure also matches keys that differ in case only; the modelled decoder matches the five keys as they are written.
- Strings are sequences of Unicode characters: texts that are not valid UTF-8, which Go's encoder rewrites, are not modelled.
- Logging, contexts, requeueing, webhooks, deep copies, dashboards, manifests and the helpers of the test suite.
