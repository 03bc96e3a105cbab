/** Without faults, only two specifications that follow one another can collide. */
module SuccessiveEdits {

  import opened Cluster
  import opened Containment
  import opened Convergence
  import opened Effects
  import opened FlowCollectorTypes
  import opened Lifecycle
  import opened PassInduction
  import opened PluginService
  import opened Runs
  import opened Safety
  import opened Staleness
  import opened Success
  import opened Wrappers
  import C = FlowCollectorController
  import G = GoflowReconciler
  import GO = GoflowObjects
  import Ownership
  import P = PluginReconciler

  /** The specification the DaemonSets in place were built from: that of the last pass of a valid kind, as long as the
      passes after it stayed in its namespace. */
  function LastBuilt(spec: Spec, last: Option<Spec>): Option<Spec> {
    if ValidKind(spec) then Some(spec)
    else if last.Some? && C.NamespaceOf(last.value) == C.NamespaceOf(spec) then last
    else None
  }

  predicate Collides(last: Option<Spec>, spec: Spec) {
    last.Some? && PortCollision(last.value, spec)
  }

  /** No pass of the history, nor the one that follows it, is for a specification that collides with the one before. */
  predicate NoSuccessiveCollision(spec: Spec, last: Option<Spec>, actions: seq<Action>)
    decreases |actions|
  {
    if actions == [] then !Collides(last, spec)
    else match actions[0]
      case Edit(spec') => NoSuccessiveCollision(spec', last, actions[1..])
      case Pass => !Collides(last, spec) && NoSuccessiveCollision(spec, LastBuilt(spec, last), actions[1..])
  }

  ghost predicate BuiltFromLast(name: string, last: Option<Spec>, objs: Objects) {
    forall n :: GO.DaemonSetKey(n) in objs ==>
      last.Some? && BuiltFor(name, last.value, GO.DaemonSetKey(n), objs[GO.DaemonSetKey(n)])
  }

  lemma NotMissed(cr: FlowCollector, last: Option<Spec>, objs: Objects)
    requires BuiltFromLast(cr.name, last, objs) && !Collides(last, cr.spec)
    ensures !PortMissed(cr, objs)
  {
    hide BuiltFor;
    hide PortCollision;
    hide HostPortIs;
    hide GO.ConfigDigest;
    hide G.DaemonSetNeedsUpdate;
    var k := GO.DaemonSetKey(C.NamespaceOf(cr.spec));
    if k in objs {
      MissedCollides(cr, last.value, objs);
    }
  }

  lemma DesiredNamespace(spec: Spec, k: Key)
    requires Desired(spec, k).Some? && k.kind == DaemonSets
    ensures ValidKind(spec) && k.namespace == C.NamespaceOf(spec) && spec.goflowKube.kind == DAEMON_SET_KIND
  {
    hide GO.ConfigDigest;
    hide GO.BuildConfigMap;
    hide GO.BuildDeployment;
    hide GO.BuildDaemonSet;
    hide GO.BuildAutoscaler;
  }

  lemma BuiltIsDesired(name: string, spec: Spec, k: Key, o: Object)
    requires BuiltFor(name, spec, k, o)
    ensures Desired(spec, k).Some?
  {
    hide Desired;
  }

  /** The DaemonSet of an invalid kind's pass is still the one of before. */
  lemma KeptFromLast(cr: FlowCollector, last: Option<Spec>, before: Objects, objs: Objects)
    requires Traced(cr, before, objs) && BuiltFromLast(cr.name, last, before) && !ValidKind(cr.spec)
    requires forall n :: n != C.NamespaceOf(cr.spec) ==> GO.DaemonSetKey(n) !in objs
    ensures BuiltFromLast(cr.name, LastBuilt(cr.spec, last), objs)
  {
    hide BuiltFor;
    hide ValidKind;
    forall n | GO.DaemonSetKey(n) in objs
      ensures LastBuilt(cr.spec, last).Some?
              && BuiltFor(cr.name, LastBuilt(cr.spec, last).value, GO.DaemonSetKey(n), objs[GO.DaemonSetKey(n)])
    {
      var k := GO.DaemonSetKey(n);
      if BuiltFor(cr.name, cr.spec, k, objs[k]) {
        BuiltIsDesired(cr.name, cr.spec, k, objs[k]);
        DesiredNamespace(cr.spec, k);
      } else {
        assert Lookup(objs, k) == Lookup(before, k);
        BuiltIsDesired(cr.name, last.value, k, before[k]);
        DesiredNamespace(last.value, k);
      }
    }
  }

  /** The DaemonSet of a pass that succeeds is the desired one. */
  lemma SettledFromLast(cr: FlowCollector, objs: Objects)
    requires Settled(cr, objs)
    ensures BuiltFromLast(cr.name, Some(cr.spec), objs)
  {
    hide Desired;
    hide Same;
    forall n | GO.DaemonSetKey(n) in objs
      ensures BuiltFor(cr.name, cr.spec, GO.DaemonSetKey(n), objs[GO.DaemonSetKey(n)])
    {
      var k := GO.DaemonSetKey(n);
      assert GoflowWorkload(k);
      assert Agrees(cr, Lookup(objs, k), Desired(cr.spec, k));
    }
  }

  /** What a fault-free run keeps at the end of each pass. */
  ghost predicate Kept(env: Env, name: string, specs: set<Spec>, before: set<Key>, last: Option<Spec>, w: World) {
    && Steadfast(env, name, before, w) && w.cr.value.spec in specs
    && InRun(env, name, specs, Now(w)) && BuiltFromLast(name, last, w.objs)
    && forall n :: GO.ServiceKey(n) !in before && P.ServiceKey(n) !in before
  }

  /** A pass that does not collide with the one before settles, if its kind is valid. */
  lemma PassOutcome(env: Env, name: string, specs: set<Spec>, before: set<Key>, last: Option<Spec>, w: World)
    requires FaultFree(env) && Kept(env, name, specs, before, last, w) && !Collides(last, w.cr.value.spec)
    ensures var cr, s := w.cr.value, C.Reconcile(env, w);
            && InRun(env, name, specs, Now(s.w)) && Traced(cr, w.objs, s.w.objs)
            && s.w.cr == Some(cr.(deployedIn := C.NamespaceOf(cr.spec)))
            && (ValidKind(cr.spec) ==> Settled(cr, s.w.objs))
  {
    hide WellFormed;
    hide C.Reconcile;
    hide Statics;
    hide Contained;
    hide AllBuilt;
    hide Ownership.Owned;
    hide Traced;
    hide BuiltFromLast;
    hide Collides;
    hide ReliableDeletes;
    hide PassesBut;
    hide PortMissed;
    hide HostPortIs;
    hide Settled;
    hide Present;
    hide OthersGone;
    hide ServiceBlocked;
    hide Ready;
    var cr := w.cr.value;
    assert w.(crashed := false) == w;
    OwnedName(name, before, w);
    OwnServicesUnblocked(env, name, before, w);
    StaticsReady(env, cr, w.objs);
    DeletesReliable(env);
    FaultFreePasses(env);
    PassAnswered(env, {}, w);
    PassStatics(env, w);
    PassTraced(env, specs, w);
    PassSettles(env, w);
    hide FaultFree;
    NotMissed(cr, last, w.objs);
    if ValidKind(cr.spec) {
      UpToDateIsSettled(env, cr, specs, Now(C.Reconcile(env, w).w));
      PortAfter(env, specs, w);
    }
  }

  lemma KeptPass(env: Env, name: string, specs: set<Spec>, before: set<Key>, last: Option<Spec>, w: World)
    requires FaultFree(env) && Kept(env, name, specs, before, last, w) && !Collides(last, w.cr.value.spec)
    ensures Kept(env, name, specs, before, LastBuilt(w.cr.value.spec, last), C.Reconcile(env, w).w)
  {
    hide FaultFree;
    hide WellFormed;
    hide C.Reconcile;
    hide Statics;
    hide Contained;
    hide AllBuilt;
    hide Ownership.Owned;
    hide Traced;
    hide BuiltFromLast;
    hide Collides;
    hide Settled;
    hide ReliableDeletes;
    var cr, w' := w.cr.value, C.Reconcile(env, w).w;
    assert cr.name == name by { OwnedName(name, before, w); }
    SteadfastPass(env, name, before, w);
    PassOutcome(env, name, specs, before, last, w);
    if ValidKind(cr.spec) {
      SettledFromLast(cr, w'.objs);
    } else {
      DeletesReliable(env);
      forall n | n != C.NamespaceOf(cr.spec) ensures GO.DaemonSetKey(n) !in w'.objs {
        NotForeign(env, w', GO.DaemonSetKey(n));
      }
      KeptFromLast(cr, last, w.objs, w'.objs);
    }
  }

  lemma KeptEdit(env: Env, name: string, specs: set<Spec>, before: set<Key>, last: Option<Spec>, w: World, spec: Spec)
    requires Kept(env, name, specs, before, last, w) && spec in specs
    ensures Kept(env, name, specs, before, last, EditSpec(w, spec))
  {
    hide BuiltFromLast;
    SteadfastEdit(env, name, before, w, spec);
    InRunEdit(env, name, specs, w, spec);
  }

  lemma {:induction false} NeverMissed(
    env: Env, name: string, specs: set<Spec>, before: set<Key>, last: Option<Spec>, w: World, actions: seq<Action>)
    requires FaultFree(env) && Kept(env, name, specs, before, last, w) && EditsIn(actions, specs)
    requires NoSuccessiveCollision(w.cr.value.spec, last, actions)
    ensures var w1 := Run(env, w, actions); w1.cr.Some? && !PortMissed(w1.cr.value, w1.objs)
    decreases |actions|
  {
    hide FaultFree;
    hide WellFormed;
    hide C.Reconcile;
    hide Steadfast;
    hide InRun;
    hide BuiltFromLast;
    hide Collides;
    hide LastBuilt;
    hide PortMissed;
    KeptFacts(env, name, specs, before, last, w);
    assert w.(crashed := false) == w;
    if actions == [] {
      NotMissed(w.cr.value, last, w.objs);
    } else {
      match actions[0] {
        case Edit(spec) =>
          KeptEdit(env, name, specs, before, last, w, spec);
          NeverMissed(env, name, specs, before, last, Act(env, w, actions[0]), actions[1..]);
        case Pass =>
          KeptPass(env, name, specs, before, last, w);
          NextSpec(env, w);
          NeverMissed(env, name, specs, before, LastBuilt(w.cr.value.spec, last), Act(env, w, actions[0]),
            actions[1..]);
      }
    }
  }

  lemma KeptFacts(env: Env, name: string, specs: set<Spec>, before: set<Key>, last: Option<Spec>, w: World)
    requires Kept(env, name, specs, before, last, w)
    ensures w.cr.Some? && w.cr.value.name == name && !w.crashed && WellFormed(w.objs)
  {
    hide WellFormed;
  }

  lemma NextSpec(env: Env, w: World)
    requires w.cr.Some? && WellFormed(w.objs)
    ensures var w' := C.Reconcile(env, w).w; w'.cr.Some? && w'.cr.value.spec == w.cr.value.spec
  {
    hide C.Reconcile;
    hide WellFormed;
    TrivialClosed(env, w.cr.value);
    hide Closed;
    PassKeeps(env, w.cr.value, (x: World) => true, w);
  }

  lemma FreshKept(env: Env, specs: set<Spec>, w: World)
    requires Fresh(w) && Live(w) && w.cr.value.spec in specs
    ensures Kept(env, w.cr.value.name, specs, w.objs.Keys, None, w)
  {
    NamesDiffer();
    FreshConsistent(env, w);
    FreshInRun(env, w, specs);
    hide Built;
  }

  /** From a fresh cluster and without faults, after any edits in which no specification collides with the one before:
      a pass of a valid kind leaves the whole installation as a function of the last specification, the collector's
      objects being the desired ones and the static resources those of its namespace. */
  lemma FaultFreeConverges(env: Env, w: World, actions: seq<Action>)
    requires FaultFree(env) && Fresh(w) && Live(w) && NoSuccessiveCollision(w.cr.value.spec, None, actions)
    ensures var w1, s := Run(env, w, actions), NextPass(env, w, actions);
            && w1.cr.Some?
            && (ValidKind(w1.cr.value.spec) ==>
                  Settled(w1.cr.value, s.w.objs) && Statics(env, s.w.objs, C.NamespaceOf(w1.cr.value.spec)))
  {
    hide Statics;
    hide Settled;
    hide PortMissed;
    hide WellFormed;
    hide Run;
    hide NextPass;
    hide NoSuccessiveCollision;
    hide Kept;
    FreshKept(env, SpecsOf(w, actions), w);
    NeverMissed(env, w.cr.value.name, SpecsOf(w, actions), w.objs.Keys, None, w, actions);
    FaultFreePassesSucceed(env, w, actions);
    DeletesReliable(env);
    Converges(env, w, actions);
  }

}
