/** Fetching and deleting the namespaced objects a reconciler is responsible for. */
module ObjectManager {

  import opened Cluster
  import opened Wrappers

  datatype Fetch = Fetch(w: World, found: seq<Option<Object>>, st: Status)

  /** Gets the keys in order; stops at the first error that is not NotFound. */
  function FetchAll(env: Env, w: World, keys: seq<Key>): (r: Fetch)
    ensures |r.found| <= |keys|
    ensures r.st.Ok? ==> |r.found| == |keys|
    decreases |keys|
  {
    if keys == [] then Fetch(w, [], Ok)
    else
      var a := Issue(env, Main, w, Get(keys[0]));
      if a.reply.Found? || a.reply.NotFound? then
        var rest := FetchAll(env, a.w, keys[1..]);
        var first := if a.reply.Found? then Some(a.reply.obj) else None;
        Fetch(rest.w, [first] + rest.found, rest.st)
      else Fetch(a.w, [], Err(Api(a.reply)))
  }

  /** Deletes the keys in order, whatever the answers. */
  function DeleteAll(env: Env, w: World, keys: seq<Key>): World
    decreases |keys|
  {
    if keys == [] then w else DeleteAll(env, Issue(env, Main, w, Delete(keys[0])).w, keys[1..])
  }

  /** Deletes an object that FetchAll found, and ignores the answer. */
  function TryDelete(env: Env, w: World, fetched: Option<Object>): World {
    if fetched.None? then w else Issue(env, Main, w, Delete(KeyOf(fetched.value))).w
  }

}
