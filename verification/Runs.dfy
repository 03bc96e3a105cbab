/** Runs: specification edits and reconciliations in any order, under any faults, and what holds at every
    call boundary of a run. */
module Runs {

  import opened Cluster
  import opened FlowCollectorTypes
  import opened PassInduction
  import opened Safety
  import opened Wrappers
  import C = FlowCollectorController

  datatype Action = Edit(spec: Spec) | Pass

  function EditSpec(w: World, spec: Spec): World {
    if w.cr.None? then w else w.(cr := Some(w.cr.value.(spec := spec)))
  }

  /** A pass is run by an operator that is alive: if it died, it has been restarted. */
  function RunPass(env: Env, w: World): World {
    C.Reconcile(env, w.(crashed := false)).w
  }

  function Act(env: Env, w: World, a: Action): World {
    match a
    case Edit(spec) => EditSpec(w, spec)
    case Pass => RunPass(env, w)
  }

  function Run(env: Env, w: World, actions: seq<Action>): World
    decreases |actions|
  {
    if actions == [] then w else Run(env, Act(env, w, actions[0]), actions[1..])
  }

  /** What can be seen of the world at a call boundary. */
  datatype Snapshot = Snapshot(objs: Objects, cr: Option<FlowCollector>, trace: seq<Event>)

  function Now(w: World): Snapshot {
    Snapshot(w.objs, w.cr, w.trace)
  }

  /** Just after the i-th call. */
  function Past(w: World, i: nat): Snapshot
    requires i < |w.trace|
  {
    Snapshot(w.trace[i].objs, w.trace[i].cr, w.trace[..i + 1])
  }

  /** Now, and just after every call so far. */
  ghost predicate Always(J: Snapshot -> bool, w: World) {
    J(Now(w)) && forall i :: 0 <= i < |w.trace| ==> J(Past(w, i))
  }

  /** Guarded calls keep J. */
  ghost predicate StepClosed(env: Env, cr: FlowCollector, J: Snapshot -> bool) {
    forall w, who, call ::
      J(Now(w)) && !w.crashed && WellFormed(w.objs) && Guard(env, cr, w, who, call) ==>
        J(Now(Issue(env, who, w, call).w))
  }

  /** Edits of the specification do not matter to J. */
  ghost predicate EditClosed(J: Snapshot -> bool) {
    forall w, spec :: J(Now(w)) ==> J(Now(EditSpec(w, spec)))
  }

  lemma AlwaysIssue(env: Env, J: Snapshot -> bool, w: World, who: Cluster.Component, call: Call)
    requires Always(J, w) && J(Now(Issue(env, who, w, call).w))
    ensures Always(J, Issue(env, who, w, call).w)
  {
    hide Issue;
    var w' := Issue(env, who, w, call).w;
    IssueTrace(env, w, who, call);
    forall i | 0 <= i < |w'.trace| ensures J(Past(w', i)) {
      if i < |w.trace| {
        assert w'.trace[..i + 1] == w.trace[..i + 1];
        assert Past(w', i) == Past(w, i);
      } else {
        assert w'.trace[..i + 1] == w'.trace;
        assert Past(w', i) == Now(w');
      }
    }
  }

  lemma AlwaysClosed(env: Env, cr: FlowCollector, J: Snapshot -> bool)
    requires StepClosed(env, cr, J)
    ensures Closed(env, cr, (w: World) => Always(J, w))
  {
    hide Issue;
    hide Guard;
    hide WellFormed;
    forall w, who, call | Always(J, w) && !w.crashed && WellFormed(w.objs) && Guard(env, cr, w, who, call)
      ensures Always(J, Issue(env, who, w, call).w)
    {
      AlwaysIssue(env, J, w, who, call);
    }
  }

  /** What guarded calls keep holds at every call boundary of a pass. */
  lemma PassAlways(env: Env, J: Snapshot -> bool, w: World)
    requires w.cr.Some? && WellFormed(w.objs) && Always(J, w)
    requires StepClosed(env, w.cr.value, J)
    ensures var w' := RunPass(env, w);
            && Always(J, w') && WellFormed(w'.objs)
            && (w'.cr == w.cr || w'.cr == Some(w.cr.value.(deployedIn := C.NamespaceOf(w.cr.value.spec))))
  {
    hide C.Reconcile;
    hide WellFormed;
    var cr := w.cr.value;
    AlwaysClosed(env, cr, J);
    var w0 := w.(crashed := false);
    assert Now(w0) == Now(w);
    forall i | 0 <= i < |w.trace| ensures J(Past(w0, i)) {
      assert Past(w0, i) == Past(w, i);
    }
    PassKeeps(env, cr, (x: World) => Always(J, x), w0);
  }

  /** The edits only bring in the given specifications. */
  predicate EditsIn(actions: seq<Action>, specs: set<Spec>) {
    forall i :: 0 <= i < |actions| && actions[i].Edit? ==> actions[i].spec in specs
  }

  /** What guarded calls keep holds at every call boundary of every run. */
  lemma {:induction false} RunAlways(
    env: Env, specs: set<Spec>, name: string, J: Snapshot -> bool, w: World, actions: seq<Action>)
    requires w.cr.Some? && w.cr.value.spec in specs && w.cr.value.name == name && EditsIn(actions, specs)
    requires WellFormed(w.objs) && Always(J, w)
    requires forall cr: FlowCollector :: cr.spec in specs && cr.name == name ==> StepClosed(env, cr, J)
    requires EditClosed(J)
    ensures var w' := Run(env, w, actions);
            && Always(J, w') && WellFormed(w'.objs)
            && w'.cr.Some? && w'.cr.value.name == name && w'.cr.value.spec in specs
    decreases |actions|
  {
    hide StepClosed;
    hide WellFormed;
    hide C.Reconcile;
    if actions == [] {
    } else {
      var w1 := Act(env, w, actions[0]);
      match actions[0] {
        case Edit(spec) =>
          assert J(Now(w1));
          forall i | 0 <= i < |w1.trace| ensures J(Past(w1, i)) {
            assert Past(w1, i) == Past(w, i);
          }
        case Pass =>
          PassAlways(env, J, w);
      }
      RunAlways(env, specs, name, J, w1, actions[1..]);
    }
  }

  /** The principle without the history: I is also kept by edits and restarts. */
  lemma {:induction false} RunHolds(
    env: Env, specs: set<Spec>, name: string, I: World -> bool, w: World, actions: seq<Action>)
    requires w.cr.Some? && w.cr.value.spec in specs && w.cr.value.name == name && EditsIn(actions, specs)
    requires WellFormed(w.objs) && I(w)
    requires forall cr: FlowCollector :: cr.spec in specs && cr.name == name ==> Closed(env, cr, I)
    requires forall x, spec :: I(x) ==> I(EditSpec(x, spec))
    requires forall x: World :: I(x) ==> I(x.(crashed := false))
    ensures var w' := Run(env, w, actions);
            I(w') && WellFormed(w'.objs) && w'.cr.Some? && w'.cr.value.name == name && w'.cr.value.spec in specs
    decreases |actions|
  {
    hide Closed;
    hide WellFormed;
    hide C.Reconcile;
    if actions == [] {
    } else {
      if actions[0].Pass? {
        PassKeeps(env, w.cr.value, I, w.(crashed := false));
      }
      RunHolds(env, specs, name, I, Act(env, w, actions[0]), actions[1..]);
    }
  }

  // ---- What one call may change ----

  /** The server's own fields aside, the stored object is the one that was sent. */
  ghost predicate SavedAs(stored: Object, o: Object) {
    && stored.meta.(resourceVersion := 0) == o.meta.(resourceVersion := 0)
    && KindOf(stored.body) == KindOf(o.body)
    && (!o.body.Service? ==> stored.body == o.body)
    && (o.body.Service? ==> stored.body == o.body.(clusterIP := stored.body.clusterIP))
  }

  /** A call takes effect or it does not. */
  lemma AllOrNothing(env: Env, w: World, who: Cluster.Component, call: Call)
    ensures var w' := Issue(env, who, w, call).w;
            || (w'.objs == w.objs && w'.cr == w.cr)
            || (w'.objs == Serve(w, call).w.objs && w'.cr == Serve(w, call).w.cr)
  {
    hide Serve;
  }

  lemma ServeCreate(w: World, o: Object)
    ensures var w' := Serve(w, Create(o)).w; var k := KeyOf(o);
            && w'.cr == w.cr
            && (w'.objs == w.objs || (k !in w.objs && k in w'.objs && w'.objs == w.objs[k := w'.objs[k]]
                                      && SavedAs(w'.objs[k], o)))
  {
  }

  lemma CreateEffect(env: Env, w: World, who: Cluster.Component, o: Object)
    ensures var w' := Issue(env, who, w, Create(o)).w; var k := KeyOf(o);
            && w'.cr == w.cr
            && (w'.objs == w.objs || (k !in w.objs && k in w'.objs && w'.objs == w.objs[k := w'.objs[k]]
                                      && SavedAs(w'.objs[k], o)))
  {
    AllOrNothing(env, w, who, Create(o));
    ServeCreate(w, o);
    hide Issue;
    hide Serve;
  }

  lemma ServeUpdate(w: World, o: Object)
    ensures var w' := Serve(w, Update(o)).w; var k := KeyOf(o);
            && w'.cr == w.cr
            && (w'.objs == w.objs || (k in w.objs && k in w'.objs && w'.objs == w.objs[k := w'.objs[k]]
                                      && SavedAs(w'.objs[k], o) && w'.objs[k].body == o.body))
  {
  }

  lemma UpdateEffect(env: Env, w: World, who: Cluster.Component, o: Object)
    ensures var w' := Issue(env, who, w, Update(o)).w; var k := KeyOf(o);
            && w'.cr == w.cr
            && (w'.objs == w.objs || (k in w.objs && k in w'.objs && w'.objs == w.objs[k := w'.objs[k]]
                                      && SavedAs(w'.objs[k], o) && w'.objs[k].body == o.body))
  {
    AllOrNothing(env, w, who, Update(o));
    ServeUpdate(w, o);
    hide Issue;
    hide Serve;
  }

  lemma ServeDelete(w: World, k: Key)
    ensures var w' := Serve(w, Delete(k)).w; w'.cr == w.cr && (w'.objs == w.objs || w'.objs == w.objs - {k})
  {
  }

  lemma DeleteEffect(env: Env, w: World, who: Cluster.Component, k: Key)
    ensures var w' := Issue(env, who, w, Delete(k)).w;
            && w'.cr == w.cr
            && (w'.objs == w.objs || w'.objs == w.objs - {k})
  {
    AllOrNothing(env, w, who, Delete(k));
    ServeDelete(w, k);
    hide Issue;
    hide Serve;
  }

  lemma ReadEffect(env: Env, w: World, who: Cluster.Component, call: Call)
    requires call.Get? || call.GetCollector?
    ensures var w' := Issue(env, who, w, call).w; w'.cr == w.cr && w'.objs == w.objs
  {
  }

  lemma StatusEffect(env: Env, w: World, who: Cluster.Component, ns: string)
    ensures var w' := Issue(env, who, w, UpdateStatus(ns)).w;
            && w'.objs == w.objs
            && (w'.cr == w.cr || (w.cr.Some? && w'.cr == Some(w.cr.value.(deployedIn := ns))))
  {
  }

}
