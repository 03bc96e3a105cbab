/** The Kubernetes API as the operator sees it: a store of objects, the calls on it, an adversary that may
    fail any call or stop the operator between two calls, and a record of every call that reached the server. */
module Cluster {

  import opened Wrappers
  import opened FlowCollectorTypes
  import opened Numerals

  datatype Kind =
    | Namespaces | ClusterRoles | ClusterRoleBindings | ServiceAccounts | ConfigMaps
    | Deployments | DaemonSets | Services | Autoscalers | ConsolePlugins

  datatype Key = Key(kind: Kind, namespace: string, name: string)

  /** `controller` is the name of the controlling FlowCollector (or of another owner); version 0 means unset. */
  datatype Meta = Meta(
    name: string,
    namespace: string,
    labels: map<string, string>,
    annotations: map<string, string>,
    resourceVersion: nat,
    controller: Option<string>)

  datatype Protocol = TCP | UDP | SCTP
  datatype ContainerPort = ContainerPort(name: string, hostPort: int32, containerPort: int32, protocol: Protocol)
  datatype ServicePort = ServicePort(port: int32, protocol: Protocol)
  datatype Container = Container(
    name: string,
    image: string,
    imagePullPolicy: string,
    command: seq<string>,
    args: seq<string>,
    resources: Resources,
    ports: seq<ContainerPort>)
  datatype PodTemplate = PodTemplate(
    labels: map<string, string>,
    annotations: map<string, string>,
    tolerateAll: bool,
    containers: seq<Container>,
    serviceAccount: string)

  datatype Body =
    | Namespace
    | ClusterRole
    | ClusterRoleBinding(role: string, subject: string, subjectNamespace: string)
    | ServiceAccount
    | ConfigMap(data: map<string, string>)
    | Deployment(replicas: int32, selector: map<string, string>, template: PodTemplate)
    | DaemonSet(selector: map<string, string>, template: PodTemplate)
    | Service(selector: map<string, string>, ports: seq<ServicePort>, clusterIP: nat)
    | Autoscaler(target: string, minReplicas: Option<int32>, maxReplicas: int32, targetCPU: Option<int32>)
    | ConsolePlugin(displayName: string, service: string, serviceNamespace: string, port: int32)

  datatype Object = Object(meta: Meta, body: Body)

  function KindOf(b: Body): Kind {
    match b
    case Namespace => Namespaces
    case ClusterRole => ClusterRoles
    case ClusterRoleBinding(_, _, _) => ClusterRoleBindings
    case ServiceAccount => ServiceAccounts
    case ConfigMap(_) => ConfigMaps
    case Deployment(_, _, _) => Deployments
    case DaemonSet(_, _) => DaemonSets
    case Service(_, _, _) => Services
    case Autoscaler(_, _, _, _) => Autoscalers
    case ConsolePlugin(_, _, _, _) => ConsolePlugins
  }

  function KeyOf(o: Object): Key {
    Key(KindOf(o.body), o.meta.namespace, o.meta.name)
  }

  type Objects = map<Key, Object>

  function Lookup(objs: Objects, k: Key): Option<Object> {
    if k in objs then Some(objs[k]) else None
  }

  /** An object without the fields the server assigns. */
  function Strip(o: Object): Object {
    var m := o.meta.(resourceVersion := 0);
    if o.body.Service? then Object(m, o.body.(clusterIP := 0)) else Object(m, o.body)
  }

  datatype Call =
    | Get(key: Key)
    | Create(obj: Object)
    | Update(obj: Object)
    | Delete(key: Key)
    | GetCollector
    | UpdateStatus(namespace: string)

  datatype Reply =
    | Done
    | Found(obj: Object)
    | FoundCollector(cr: FlowCollector)
    | NotFound
    | AlreadyExists
    | Conflict
    | Failed

  /** Reject: the server never sees the call take effect. LoseReply: the call takes effect, the answer is lost.
      Crash: the operator dies before the call is sent, and sends nothing more until it is restarted. */
  datatype Fault = Pass | Reject | LoseReply | Crash

  /** Which part of the operator makes the call: the OVS controller, or all the rest. */
  datatype Component = Main | Ovs

  datatype Addresses = Unresolved | Resolved(addrs: seq<seq<byte>>)

  datatype Env = Env(
    faults: (Component, nat, Call) -> Fault,
    lookupIP: (nat, string) -> Addresses,
    ipString: seq<byte> -> string,
    consoleEnabled: bool)

  /** One call that reached the server, with what it replied and the store just after it. */
  datatype Event = Event(who: Component, call: Call, reply: Reply, objs: Objects, cr: Option<FlowCollector>)

  datatype World = World(
    objs: Objects,
    cr: Option<FlowCollector>,
    clock: nat,
    ovsClock: nat,
    version: nat,
    nextIP: nat,
    crashed: bool,
    trace: seq<Event>)

  datatype Answer = Answer(w: World, reply: Reply)

  function Clock(w: World, who: Component): nat {
    if who == Main then w.clock else w.ovsClock
  }

  /** What the server stores for a created or updated object. */
  function Stamp(o: Object, version: nat): Object {
    o.(meta := o.meta.(resourceVersion := version))
  }

  /** Create fails iff the key exists. Update fails if the key is absent or a supplied version is stale.
      Delete is immediate. A created Service is given a cluster IP. One counter gives every write its version. */
  function Serve(w: World, call: Call): Answer {
    var version := w.version + 1;
    match call
    case Get(k) =>
      Answer(w, if k in w.objs then Found(w.objs[k]) else NotFound)
    case Create(o) =>
      var k := KeyOf(o);
      if k in w.objs then
        Answer(w, AlreadyExists)
      else if o.body.Service? then
        var o' := o.(body := o.body.(clusterIP := w.nextIP));
        Answer(w.(objs := w.objs[k := Stamp(o', version)], version := version, nextIP := w.nextIP + 1), Done)
      else
        Answer(w.(objs := w.objs[k := Stamp(o, version)], version := version), Done)
    case Update(o) =>
      var k := KeyOf(o);
      if k !in w.objs then
        Answer(w, NotFound)
      else if o.meta.resourceVersion != 0 && o.meta.resourceVersion != w.objs[k].meta.resourceVersion then
        Answer(w, Conflict)
      else
        Answer(w.(objs := w.objs[k := Stamp(o, version)], version := version), Done)
    case Delete(k) =>
      if k in w.objs then Answer(w.(objs := w.objs - {k}), Done) else Answer(w, NotFound)
    case GetCollector =>
      Answer(w, if w.cr.Some? then FoundCollector(w.cr.value) else NotFound)
    case UpdateStatus(ns) =>
      if w.cr.Some? then
        Answer(w.(cr := Some(w.cr.value.(deployedIn := ns))), Done)
      else
        Answer(w, NotFound)
  }

  /** Each component counts its calls, those it died at included. */
  function Tick(who: Component, w: World): World {
    if who == Main then w.(clock := w.clock + 1) else w.(ovsClock := w.ovsClock + 1)
  }

  function Record(who: Component, w: World, call: Call, reply: Reply): Answer {
    Answer(Tick(who, w).(trace := w.trace + [Event(who, call, reply, w.objs, w.cr)]), reply)
  }

  /** One API call under the adversary. A crashed operator issues nothing. */
  function Issue(env: Env, who: Component, w: World, call: Call): Answer {
    if w.crashed then
      Answer(w, Failed)
    else
      match env.faults(who, Clock(w, who), call)
      case Crash => Answer(Tick(who, w).(crashed := true), Failed)
      case Reject => Record(who, w, call, Failed)
      case LoseReply => Record(who, Serve(w, call).w, call, Failed)
      case Pass => var a := Serve(w, call); Record(who, a.w, call, a.reply)
  }

  datatype Error = Api(reply: Reply) | AlreadyOwned | InvalidKind(kind: string) | Decode | Resolution
  datatype Status = Ok | Err(error: Error)
  datatype Step = Step(w: World, st: Status)

  /** No fault of any kind. */
  ghost predicate FaultFree(env: Env) {
    forall who, n, call :: env.faults(who, n, call) == Pass
  }

  /** A Delete the operator sends takes effect, though its answer may be lost, or the operator may die first. */
  ghost predicate ReliableDeletes(env: Env) {
    forall who, n, k :: env.faults(who, n, Delete(k)) != Reject
  }

  /** The API client: the store behind it changes with every call. */
  class Client {
    const env: Env
    var w: World

    constructor (env: Env, w: World)
      ensures this.env == env && this.w == w
    {
      this.env := env;
      this.w := w;
    }

    method Send(who: Component, call: Call) returns (reply: Reply)
      modifies this`w
      ensures w == Issue(env, who, old(w), call).w
      ensures reply == Issue(env, who, old(w), call).reply
    {
      var a := Issue(env, who, w, call);
      w := a.w;
      reply := a.reply;
    }
  }

}
