/** The object manager as the source has it: a list of placeholders that FetchAll fills, found by identity. */
module Manager {

  import opened Cluster
  import opened ClientHelper
  import opened Wrappers
  import Effects
  import O = ObjectManager
  import Safety

  /** An object the caller keeps a pointer to; it is filled when it is fetched. */
  class Placeholder {
    const kind: Kind
    var obj: Option<Object>

    constructor (kind: Kind)
      ensures this.kind == kind && obj == None
    {
      this.kind := kind;
      obj := None;
    }
  }

  datatype Managed = Managed(name: string, placeholder: Placeholder, found: bool)

  /** The flag of the first entry for p: what the search of Exists returns. */
  ghost predicate FoundIn(managed: seq<Managed>, p: Placeholder) {
    managed != [] && if managed[0].placeholder == p then managed[0].found else FoundIn(managed[1..], p)
  }

  ghost predicate Distinct(managed: seq<Managed>) {
    forall i, j :: 0 <= i < j < |managed| ==> managed[i].placeholder != managed[j].placeholder
  }

  lemma {:induction false} NotFoundIn(managed: seq<Managed>, p: Placeholder)
    requires forall i :: 0 <= i < |managed| ==> managed[i].placeholder != p
    ensures !FoundIn(managed, p)
    decreases |managed|
  {
    if managed == [] {
    } else {
      NotFoundIn(managed[1..], p);
    }
  }

  /** When no placeholder is registered twice, the flag of each entry is the one that is found. */
  lemma {:induction false} FoundAt(managed: seq<Managed>, i: nat)
    requires Distinct(managed) && i < |managed|
    ensures FoundIn(managed, managed[i].placeholder) == managed[i].found
    decreases |managed|
  {
    if i == 0 {
    } else {
      FoundAt(managed[1..], i - 1);
    }
  }

  function KeyIn(ns: string, m: Managed): Key {
    Key(m.placeholder.kind, ns, m.name)
  }

  function KeysOf(managed: seq<Managed>, ns: string): (keys: seq<Key>)
    ensures |keys| == |managed|
    ensures forall i :: 0 <= i < |keys| ==> keys[i] == KeyIn(ns, managed[i])
  {
    if managed == [] then [] else [KeyIn(ns, managed[0])] + KeysOf(managed[1..], ns)
  }

  /** The flags after a fetch that got `found`: fresh before the index where it stopped, down at that index, and as they
      were after it. */
  ghost function Flagged(managed: seq<Managed>, found: seq<Option<Object>>): (r: seq<Managed>)
    ensures |r| == |managed|
  {
    seq(|managed|, i requires 0 <= i < |managed| =>
      managed[i].(found := if i < |found| then found[i].Some? else i > |found| && managed[i].found))
  }

  lemma FlaggedDistinct(managed: seq<Managed>, found: seq<Option<Object>>)
    requires Distinct(managed)
    ensures Distinct(Flagged(managed, found))
  {
  }

  /** The flags during a fetch that has got `found` so far. */
  ghost function Progress(managed: seq<Managed>, found: seq<Option<Object>>): (r: seq<Managed>)
    ensures |r| == |managed|
    ensures forall i :: 0 <= i < |managed| ==>
        r[i].placeholder == managed[i].placeholder && r[i].name == managed[i].name
    ensures forall i :: |found| <= i < |managed| ==> r[i] == managed[i]
  {
    seq(|managed|, i requires 0 <= i < |managed| =>
      if i < |found| then managed[i].(found := found[i].Some?) else managed[i])
  }

  lemma ProgressSteps(managed: seq<Managed>, found: seq<Option<Object>>, got: Option<Object>)
    requires |found| < |managed|
    ensures Progress(managed, found)[|found| := managed[|found|].(found := got.Some?)]
        == Progress(managed, found + [got])
  {
  }

  lemma ProgressStops(managed: seq<Managed>, found: seq<Option<Object>>)
    requires |found| < |managed|
    ensures Progress(managed, found)[|found| := managed[|found|].(found := false)] == Flagged(managed, found)
  {
  }

  lemma ProgressEnds(managed: seq<Managed>, found: seq<Option<Object>>)
    requires |found| == |managed|
    ensures Progress(managed, found) == Flagged(managed, found)
  {
  }

  lemma NothingFilled(managed: seq<Managed>)
    ensures Progress(managed, []) == managed
    ensures forall p, before :: LastFill(managed, [], p, before) == before
  {
  }

  /** What p holds after a fetch that got `found`: the last object got for it, or what it held before. */
  ghost function LastFill(managed: seq<Managed>, found: seq<Option<Object>>, p: Placeholder, before: Option<Object>)
    : Option<Object>
    requires |found| <= |managed|
    decreases |found|
  {
    if found == [] then before
    else
      var last := |found| - 1;
      if managed[last].placeholder == p && found[last].Some? then found[last]
      else LastFill(managed, found[..last], p, before)
  }

  lemma FillOne(managed: seq<Managed>, found: seq<Option<Object>>, got: Option<Object>)
    requires |found| < |managed|
    ensures forall p, before :: LastFill(managed, found + [got], p, before)
                             == if managed[|found|].placeholder == p && got.Some? then got
                                else LastFill(managed, found, p, before)
  {
    assert (found + [got])[..|found|] == found;
  }

  /** What was found has been filled, and nothing is emptied. */
  lemma {:induction false} StaysFilled(
      managed: seq<Managed>, found: seq<Option<Object>>, p: Placeholder, before: Option<Object>)
    requires |found| <= |managed|
    requires before.Some? || exists i :: 0 <= i < |found| && managed[i].placeholder == p && found[i].Some?
    ensures LastFill(managed, found, p, before).Some?
    decreases |found|
  {
    if found == [] {
    } else {
      var last := |found| - 1;
      if !(managed[last].placeholder == p && found[last].Some?) {
        if before.None? {
          var i :| 0 <= i < |found| && managed[i].placeholder == p && found[i].Some?;
          assert found[..last][i] == found[i];
        }
        StaysFilled(managed, found[..last], p, before);
      }
    }
  }

  lemma AllFilled(managed: seq<Managed>, found: seq<Option<Object>>)
    requires |found| <= |managed|
    ensures forall i, before: Option<Object> ::
              0 <= i < |managed| && (before.Some? || (i < |found| && found[i].Some?))
              ==> LastFill(managed, found, managed[i].placeholder, before).Some?
  {
    forall i, before: Option<Object> | 0 <= i < |managed| && (before.Some? || (i < |found| && found[i].Some?))
      ensures LastFill(managed, found, managed[i].placeholder, before).Some?
    {
      StaysFilled(managed, found, managed[i].placeholder, before);
    }
  }

  /** When no placeholder is registered twice, each holds exactly what was got for its entry. */
  lemma {:induction false} FilledOnce(managed: seq<Managed>, found: seq<Option<Object>>, i: nat, before: Option<Object>)
    requires Distinct(managed) && |found| <= |managed| && i < |managed|
    ensures LastFill(managed, found, managed[i].placeholder, before)
         == if i < |found| && found[i].Some? then found[i] else before
    decreases |found|
  {
    if found == [] {
    } else {
      FilledOnce(managed, found[..|found| - 1], i, before);
    }
  }

  /** What a complete fetch makes of one entry. */
  lemma EntryFetched(managed: seq<Managed>, found: seq<Option<Object>>, i: nat, before: Option<Object>)
    requires Distinct(managed) && |found| == |managed| && i < |managed|
    ensures var p := managed[i].placeholder;
            && (FoundIn(Flagged(managed, found), p) <==> found[i].Some?)
            && (found[i].Some? ==> LastFill(managed, found, p, before) == found[i])
  {
    FlaggedDistinct(managed, found);
    FoundAt(Flagged(managed, found), i);
    FilledOnce(managed, found, i, before);
  }

  /** The fetch is what was done so far, and then the rest. */
  ghost predicate Continues(fetch: O.Fetch, found: seq<Option<Object>>, rest: O.Fetch) {
    fetch == O.Fetch(rest.w, found + rest.found, rest.st)
  }

  lemma FetchStep(env: Env, w: World, keys: seq<Key>, i: nat)
    requires i < |keys|
    ensures var a := Issue(env, Main, w, Get(keys[i]));
            var now, later := O.FetchAll(env, w, keys[i..]), O.FetchAll(env, a.w, keys[i + 1..]);
            && (a.reply.Found? ==> Continues(now, [Some(a.reply.obj)], later))
            && (a.reply.NotFound? ==> Continues(now, [None], later))
            && (!a.reply.Found? && !a.reply.NotFound? ==> now == O.Fetch(a.w, [], Err(Api(a.reply))))
  {
    assert keys[i..][0] == keys[i] && keys[i..][1..] == keys[i + 1..];
    hide Issue;
  }

  lemma ContinuesStart(fetch: O.Fetch, env: Env, w: World, keys: seq<Key>)
    requires fetch == O.FetchAll(env, w, keys)
    ensures Continues(fetch, [], O.FetchAll(env, w, keys[0..]))
  {
    hide O.FetchAll;
    assert keys[0..] == keys;
  }

  lemma ContinuesChain(
    fetch: O.Fetch, found: seq<Option<Object>>, rest: O.Fetch, got: Option<Object>, later: O.Fetch)
    requires Continues(fetch, found, rest) && Continues(rest, [got], later)
    ensures Continues(fetch, found + [got], later)
  {
  }

  lemma ContinuesEnd(fetch: O.Fetch, found: seq<Option<Object>>, rest: O.Fetch)
    requires Continues(fetch, found, rest) && rest.found == []
    ensures fetch == O.Fetch(rest.w, found, rest.st)
  {
    assert found + [] == found;
  }

  lemma FetchNone(env: Env, w: World, keys: seq<Key>)
    requires keys == []
    ensures O.FetchAll(env, w, keys) == O.Fetch(w, [], Ok)
  {
  }

  class NamespacedObjectManager {
    const client: Client
    const namespace: string
    const previousNamespace: string
    var managed: seq<Managed>

    constructor (client: Client, namespace: string, previousNamespace: string)
      ensures this.client == client && this.namespace == namespace && this.previousNamespace == previousNamespace
      ensures managed == []
    {
      this.client := client;
      this.namespace := namespace;
      this.previousNamespace := previousNamespace;
      managed := [];
    }

    ghost function Placeholders(): set<Placeholder>
      reads this
    {
      set i | 0 <= i < |managed| :: managed[i].placeholder
    }

    ghost function Keys(ns: string): seq<Key>
      reads this
    {
      KeysOf(managed, ns)
    }

    /** What is flagged as found has been filled. */
    ghost predicate Valid()
      reads this, Placeholders()
    {
      forall i :: 0 <= i < |managed| && managed[i].found ==> managed[i].placeholder.obj.Some?
    }

    method AddManagedObject(name: string, placeholder: Placeholder)
      requires Valid()
      modifies this
      ensures managed == old(managed) + [Managed(name, placeholder, false)] && Valid()
    {
      managed := managed + [Managed(name, placeholder, false)];
    }

    /** Gets every registered object in turn. A flag tells whether the object is there; a placeholder is filled when
        it is. On an error at index k the flags before k are fresh, the flag of k is down, and the later ones are as
        before. */
    method FetchAll() returns (st: Status, ghost fetch: O.Fetch)
      requires Valid()
      modifies this, client, Placeholders()
      ensures fetch == O.FetchAll(client.env, old(client.w), old(Keys(namespace)))
      ensures client.w == fetch.w && st == fetch.st
      ensures managed == Flagged(old(managed), fetch.found) && Valid()
      ensures forall p :: p in Placeholders() ==> p.obj == LastFill(old(managed), fetch.found, p, old(p.obj))
    {
      hide Issue;
      hide O.FetchAll;
      hide Continues;
      hide LastFill;
      hide Progress;
      ghost var keys, before := Keys(namespace), managed;
      ghost var found: seq<Option<Object>> := [];
      var i := 0;
      fetch := O.FetchAll(client.env, client.w, keys);
      ContinuesStart(fetch, client.env, client.w, keys);
      NothingFilled(before);
      while i < |managed|
        invariant 0 <= i <= |managed| == |before| && |found| == i
        invariant Continues(fetch, found, O.FetchAll(client.env, client.w, keys[i..]))
        invariant managed == Progress(before, found)
        invariant forall j :: 0 <= j < |managed| ==>
                    var p := before[j].placeholder; p.obj == LastFill(before, found, p, old(p.obj))
      {
        ghost var rest := O.FetchAll(client.env, client.w, keys[i..]);
        FetchStep(client.env, client.w, keys, i);
        var reply := FetchOne(i);
        if !reply.Found? && !reply.NotFound? {
          ContinuesEnd(fetch, found, rest);
          ProgressStops(before, found);
          AllFilled(before, found);
          return Err(Api(reply)), fetch;
        }
        ghost var got := if reply.Found? then Some(reply.obj) else None;
        ContinuesChain(fetch, found, rest, got, O.FetchAll(client.env, client.w, keys[i + 1..]));
        FillOne(before, found, got);
        ProgressSteps(before, found, got);
        found := found + [got];
        i := i + 1;
      }
      FetchNone(client.env, client.w, keys[i..]);
      ContinuesEnd(fetch, found, O.FetchAll(client.env, client.w, keys[i..]));
      ProgressEnds(before, found);
      AllFilled(before, found);
      st := Ok;
    }

    /** One turn of the loop: the flag is lowered, and raised again if the placeholder is filled. */
    method FetchOne(i: nat) returns (reply: Reply)
      requires i < |managed|
      modifies this`managed, client, managed[i].placeholder
      ensures managed == old(managed)[i := old(managed)[i].(found := reply.Found?)]
      ensures managed[i].placeholder.obj == if reply.Found? then Some(reply.obj) else old(managed[i].placeholder.obj)
      ensures reply == Issue(client.env, Main, old(client.w), Get(KeyIn(namespace, old(managed)[i]))).reply
      ensures client.w == Issue(client.env, Main, old(client.w), Get(KeyIn(namespace, old(managed)[i]))).w
    {
      managed := managed[i := managed[i].(found := false)];
      var ref := managed[i];
      reply := client.Send(Main, Get(KeyIn(namespace, ref)));
      if reply.Found? {
        managed := managed[i := managed[i].(found := true)];
        ref.placeholder.obj := Some(reply.obj);
      }
    }

    /** Deletes every registered object in the previous namespace; the answers are dropped. */
    method CleanupNamespace()
      modifies client
      ensures client.w == O.DeleteAll(client.env, old(client.w), Keys(previousNamespace))
    {
      ghost var keys := Keys(previousNamespace);
      ghost var last := O.DeleteAll(client.env, client.w, keys);
      for i := 0 to |managed|
        invariant last == O.DeleteAll(client.env, client.w, keys[i..])
      {
        assert keys[i..][0] == keys[i] && keys[i..][1..] == keys[i + 1..];
        var reply := client.Send(Main, Delete(Key(managed[i].placeholder.kind, previousNamespace, managed[i].name)));
      }
      assert keys[|managed|..] == [];
    }

    /** The search by identity; nothing is found for a nil pointer. */
    method Exists(p: Placeholder?) returns (r: bool)
      ensures p == null ==> !r
      ensures p != null ==> r == FoundIn(managed, p)
    {
      if p == null {
        return false;
      }
      var i := 0;
      while i < |managed|
        invariant 0 <= i <= |managed|
        invariant FoundIn(managed, p) == FoundIn(managed[i..], p)
      {
        if managed[i].placeholder == p {
          return managed[i].found;
        }
        i := i + 1;
      }
      r := false;
    }

    /** Deletes an object that FetchAll found, and drops the answer. */
    method TryDelete(p: Placeholder)
      requires Valid()
      modifies client
      ensures client.w == O.TryDelete(client.env, old(client.w), if FoundIn(managed, p) then p.obj else None)
    {
      var there := Exists(p);
      if there {
        FoundIsFilled(p);
        var reply := client.Send(Main, Delete(KeyOf(p.obj.value)));
      }
    }

    lemma FoundIsFilled(p: Placeholder)
      requires Valid() && FoundIn(managed, p)
      ensures p.obj.Some?
    {
      FoundHasEntry(managed, p);
    }
  }

  lemma {:induction false} FoundHasEntry(managed: seq<Managed>, p: Placeholder)
    requires FoundIn(managed, p)
    ensures exists i :: 0 <= i < |managed| && managed[i].placeholder == p && managed[i].found
    decreases |managed|
  {
    if managed[0].placeholder != p {
      FoundHasEntry(managed[1..], p);
      var i :| 0 <= i < |managed[1..]| && managed[1..][i].placeholder == p && managed[1..][i].found;
      assert managed[i + 1].placeholder == p && managed[i + 1].found;
    }
  }

  /** What a FetchAll that succeeded leaves: each flag tells whether the cluster has the object. */
  ghost predicate Mirrors(managed: seq<Managed>, ns: string, objs: Objects) {
    forall i :: 0 <= i < |managed| ==> (managed[i].found <==> KeyIn(ns, managed[i]) in objs)
  }

  /** A fetch that succeeds leaves the cluster as it was, and flags and objects that mirror it. */
  lemma FetchMirrors(env: Env, w: World, managed: seq<Managed>, ns: string)
    ensures var f := O.FetchAll(env, w, KeysOf(managed, ns));
            && f.w.objs == w.objs
            && (f.st.Ok? ==> Mirrors(Flagged(managed, f.found), ns, w.objs))
            && (forall i :: 0 <= i < |f.found| ==> f.found[i] == Lookup(w.objs, KeyIn(ns, managed[i])))
  {
    hide O.FetchAll;
    Effects.FetchAllEffect(env, w, KeysOf(managed, ns));
  }

  /** Then Exists(p) holds iff p is a registered placeholder and the cluster has the object of its kind and name. */
  lemma ExistsAgrees(managed: seq<Managed>, ns: string, objs: Objects, p: Placeholder)
    requires Distinct(managed) && Mirrors(managed, ns, objs)
    ensures FoundIn(managed, p)
       <==> exists i :: 0 <= i < |managed| && managed[i].placeholder == p && KeyIn(ns, managed[i]) in objs
  {
    if FoundIn(managed, p) {
      FoundHasEntry(managed, p);
      var i :| 0 <= i < |managed| && managed[i].placeholder == p && managed[i].found;
      assert KeyIn(ns, managed[i]) in objs;
    }
    forall i | 0 <= i < |managed| && managed[i].placeholder == p && KeyIn(ns, managed[i]) in objs
      ensures FoundIn(managed, p)
    {
      FoundAt(managed, i);
    }
  }

  /** A cleanup sends one Delete for each registered key, in order, until the operator dies; no other key changes. */
  lemma {:induction false} CleanupTouches(env: Env, w: World, keys: seq<Key>)
    ensures var w' := O.DeleteAll(env, w, keys); var n := |w.trace|;
            && n <= |w'.trace| <= n + |keys| && w'.trace[..n] == w.trace
            && (!w'.crashed ==> |w'.trace| == n + |keys|)
            && (forall i :: 0 <= i < |w'.trace| - n ==> w'.trace[n + i].call == Delete(keys[i]))
            && (forall k :: k !in keys ==> Lookup(w.objs, k) == Lookup(w'.objs, k))
    decreases |keys|
  {
    if keys == [] {
    } else {
      var w1 := Issue(env, Main, w, Delete(keys[0])).w;
      Safety.IssueTrace(env, w, Main, Delete(keys[0]));
      Safety.IssueObjects(env, w, Main, Delete(keys[0]));
      if w1.crashed {
        DeadSilent(env, w1, keys[1..]);
      }
      AliveRecords(env, w, Delete(keys[0]));
      hide Issue;
      hide Safety.WellFormed;
      CleanupTouches(env, w1, keys[1..]);
    }
  }

  lemma AliveRecords(env: Env, w: World, call: Call)
    ensures var w1 := Issue(env, Main, w, call).w;
            if w1.crashed then w1.trace == w.trace else |w1.trace| == |w.trace| + 1 && w1.trace[|w.trace|].call == call
  {
  }

  lemma {:induction false} DeadSilent(env: Env, w: World, keys: seq<Key>)
    requires w.crashed
    ensures O.DeleteAll(env, w, keys) == w
    decreases |keys|
  {
    if keys == [] {
    } else {
      DeadSilent(env, w, keys[1..]);
    }
  }

}
