/** Owned writes: every object the operator creates or updates gets the FlowCollector as its controller. */
module ClientHelper {

  import opened Cluster
  import opened Wrappers

  /** None when the object already has another controller. */
  function SetControllerReference(owner: string, o: Object): Option<Object> {
    if o.meta.controller.Some? && o.meta.controller.value != owner then None
    else Some(o.(meta := o.meta.(controller := Some(owner))))
  }

  function StatusOf(reply: Reply): Status {
    if reply == Done then Ok else Err(Api(reply))
  }

  function CreateOwned(env: Env, w: World, owner: string, o: Object): Step {
    var owned := SetControllerReference(owner, o);
    if owned.None? then Step(w, Err(AlreadyOwned))
    else
      var a := Issue(env, Main, w, Create(owned.value));
      Step(a.w, StatusOf(a.reply))
  }

  /** The version of the old object, when there is one, guards against a concurrent write. */
  function WithVersionOf(previous: Option<Object>, o: Object): Object {
    if previous.None? then o
    else o.(meta := o.meta.(resourceVersion := previous.value.meta.resourceVersion))
  }

  function UpdateOwned(env: Env, w: World, owner: string, previous: Option<Object>, o: Object): Step {
    var owned := SetControllerReference(owner, WithVersionOf(previous, o));
    if owned.None? then Step(w, Err(AlreadyOwned))
    else
      var a := Issue(env, Main, w, Update(owned.value));
      Step(a.w, StatusOf(a.reply))
  }

  /** The recurring shape of a sub-reconciler: create what is missing, update what is stale, leave the rest. */
  function Ensure(env: Env, w: World, owner: string, previous: Option<Object>, stale: bool, wanted: Object): Step {
    if previous.None? then CreateOwned(env, w, owner, wanted)
    else if stale then UpdateOwned(env, w, owner, previous, wanted)
    else Step(w, Ok)
  }

  /** The first container with the given name. */
  function FindContainer(containers: seq<Container>, name: string): (c: Option<Container>)
    ensures c.None? <==> forall i :: 0 <= i < |containers| ==> containers[i].name != name
    ensures c.Some? ==> c.value in containers && c.value.name == name
  {
    if containers == [] then None
    else if containers[0].name == name then Some(containers[0])
    else FindContainer(containers[1..], name)
  }

  method SearchContainer(containers: seq<Container>, name: string) returns (c: Option<Container>)
    ensures c == FindContainer(containers, name)
  {
    var i := 0;
    while i < |containers|
      invariant 0 <= i <= |containers|
      invariant FindContainer(containers, name) == FindContainer(containers[i..], name)
    {
      if containers[i].name == name {
        return Some(containers[i]);
      }
      i := i + 1;
    }
    c := None;
  }

  /** The client together with the owner it sets on every object. */
  class Helper {
    const client: Client
    const owner: string

    constructor (client: Client, owner: string)
      ensures this.client == client && this.owner == owner
    {
      this.client := client;
      this.owner := owner;
    }

    method Create(o: Object) returns (st: Status)
      modifies client
      ensures client.w == CreateOwned(client.env, old(client.w), owner, o).w
      ensures st == CreateOwned(client.env, old(client.w), owner, o).st
    {
      var owned := SetControllerReference(owner, o);
      if owned.None? {
        return Err(AlreadyOwned);
      }
      var reply := client.Send(Main, Call.Create(owned.value));
      st := StatusOf(reply);
    }

    method Update(previous: Option<Object>, o: Object) returns (st: Status)
      modifies client
      ensures client.w == UpdateOwned(client.env, old(client.w), owner, previous, o).w
      ensures st == UpdateOwned(client.env, old(client.w), owner, previous, o).st
    {
      var owned := SetControllerReference(owner, WithVersionOf(previous, o));
      if owned.None? {
        return Err(AlreadyOwned);
      }
      var reply := client.Send(Main, Call.Update(owned.value));
      st := StatusOf(reply);
    }
  }

}
