/** Exactly when permissions come before the workloads: a condition on the account that can be checked before a pass. */
module Accounts {

  import opened Cluster
  import opened Containment
  import opened Convergence
  import Effects
  import opened FlowCollectorTypes
  import opened PassInduction
  import opened Permissions
  import opened Recovery
  import opened Runs
  import opened Safety
  import opened Wrappers
  import C = FlowCollectorController

  lemma FreshProvided(env: Env, w: World)
    requires Fresh(w)
    ensures Provided(env, Now(w)) && WellFormed(w.objs) && w.trace == [] && w.cr.Some?
  {
    NamesDiffer();
  }

  /** With reliable deletes, in every state of every run, once a namespace is committed the role is there, and an
      account there comes with the binding. */
  lemma RunProvided(env: Env, w: World, actions: seq<Action>)
    requires Fresh(w) && ReliableDeletes(env)
    ensures var w' := Run(env, w, actions);
            w'.cr.Some? && w'.cr.value.name == w.cr.value.name && WellFormed(w'.objs) && Provided(env, Now(w'))
  {
    hide ReliableDeletes;
    hide StepClosed;
    hide WellFormed;
    var J := (s: Snapshot) => Provided(env, s);
    FreshProvided(env, w);
    hide Fresh;
    forall cr: FlowCollector ensures StepClosed(env, cr, J) {
      ProvidedClosed(env, cr);
    }
    forall x, spec | J(Now(x)) ensures J(Now(EditSpec(x, spec))) {
      ProvidedEdit(env, x, spec);
    }
    hide Provided;
    RunAlways(env, SpecsOf(w, actions), w.cr.value.name, J, w, actions);
  }

  /** After any run that has been in order so far: if the next pass moves to another namespace or finds the account of
      the committed one, it is in order at every call boundary; and if it succeeds, it ends in order only then. */
  lemma PermissionsExact(env: Env, w: World, actions: seq<Action>)
    requires Fresh(w) && !w.cr.value.deleting && ReliableDeletes(env)
    requires PastOrdered(Run(env, w, actions)) && Ordered(Run(env, w, actions).objs)
    ensures var w1, s := Run(env, w, actions), NextPass(env, w, actions);
            && (AccountThere(w1) ==> PastOrdered(s.w) && Ordered(s.w.objs))
            && (s.st.Ok? ==> (Ordered(s.w.objs) <==> AccountThere(w1)))
  {
    hide Run;
    hide ReliableDeletes;
    hide PastOrdered;
    hide Ordered;
    hide Provided;
    hide WellFormed;
    hide C.Reconcile;
    RunProvided(env, w, actions);
    RunLive(env, w, actions);
    var w1 := Run(env, w, actions);
    if AccountThere(w1) {
      ReadyInOrder(env, w1);
      OrderedPass(env, w1);
      OrderedForOrdered(env, C.NamespaceOf(w1.cr.value.spec), Now(RunPass(env, w1)));
    } else {
      AccountNotRestored(env, w1.(crashed := false));
    }
  }

  lemma OrderedForOrdered(env: Env, ns: string, s: Snapshot)
    requires OrderedFor(env, ns, s)
    ensures Ordered(s.objs)
  {
  }

  /** A run does not start the deletion of the resource. */
  lemma {:induction false} RunLive(env: Env, w: World, actions: seq<Action>)
    requires w.cr.Some? && !w.cr.value.deleting && WellFormed(w.objs)
    ensures var w' := Run(env, w, actions); w'.cr.Some? && !w'.cr.value.deleting
    decreases |actions|
  {
    hide C.Reconcile;
    hide WellFormed;
    if actions == [] {
    } else {
      if actions[0].Pass? {
        Effects.TrivialClosed(env, w.cr.value);
        PassKeeps(env, w.cr.value, (x: World) => true, w.(crashed := false));
      }
      hide Closed;
      RunLive(env, Act(env, w, actions[0]), actions[1..]);
    }
  }

  // ---- Over whole runs ----

  /** A disorder is on record: the store is the one just after the last call. */
  ghost predicate Witnessed(w: World) {
    !Ordered(w.objs) ==> w.trace != [] && w.trace[|w.trace| - 1].objs == w.objs
  }

  ghost predicate Since(t: seq<Event>, w: World) {
    t <= w.trace && Witnessed(w)
  }

  lemma SinceIssue(env: Env, t: seq<Event>, w: World, who: Cluster.Component, call: Call)
    requires Since(t, w)
    ensures Since(t, Issue(env, who, w, call).w)
  {
    IssueTrace(env, w, who, call);
    SilentIssue(env, w, who, call);
    hide Issue;
    hide Ordered;
  }

  lemma SilentIssue(env: Env, w: World, who: Cluster.Component, call: Call)
    ensures var w' := Issue(env, who, w, call).w; w'.trace == w.trace ==> w'.objs == w.objs
  {
    TraceOfServe(w, call);
    hide Serve;
  }

  lemma SincePass(env: Env, w: World)
    requires w.cr.Some? && WellFormed(w.objs) && Witnessed(w)
    ensures var w' := RunPass(env, w);
            Since(w.trace, w') && WellFormed(w'.objs) && w'.cr.Some? && w'.cr.value.deleting == w.cr.value.deleting
  {
    hide Guard;
    hide WellFormed;
    hide Since;
    hide C.Reconcile;
    var t, cr := w.trace, w.cr.value;
    var I := (x: World) => Since(t, x);
    forall x, who, call | I(x) && !x.crashed && WellFormed(x.objs) && Guard(env, cr, x, who, call)
      ensures I(Issue(env, who, x, call).w)
    {
      SinceIssue(env, t, x, who, call);
    }
    hide Issue;
    assert Since(t, w.(crashed := false)) by { WitnessedSince(w); }
    PassKeeps(env, cr, I, w.(crashed := false));
  }

  lemma WitnessedSince(w: World)
    requires Witnessed(w)
    ensures Since(w.trace, w.(crashed := false))
  {
    hide Ordered;
  }

  lemma SinceEdit(w: World, spec: Spec)
    requires Witnessed(w)
    ensures Since(w.trace, EditSpec(w, spec))
  {
    hide Ordered;
  }

  lemma SinceChain(t: seq<Event>, w: World, w': World)
    requires Since(t, w) && Since(w.trace, w')
    ensures Since(t, w') && (!PastOrdered(w) ==> !PastOrdered(w'))
  {
    hide Ordered;
    if !PastOrdered(w) {
      var i :| 0 <= i < |w.trace| && !Ordered(w.trace[i].objs);
      assert w'.trace[i] == w.trace[i];
    }
  }

  lemma {:induction false} SinceRun(env: Env, w: World, actions: seq<Action>)
    requires w.cr.Some? && WellFormed(w.objs) && Witnessed(w)
    ensures Since(w.trace, Run(env, w, actions))
    decreases |actions|
  {
    hide RunPass;
    hide WellFormed;
    hide Since;
    hide Witnessed;
    if actions == [] {
      WitnessedSince(w);
      SinceSame(w);
    } else {
      var w1 := Act(env, w, actions[0]);
      match actions[0] {
        case Edit(spec) => SinceEdit(w, spec);
        case Pass => SincePass(env, w);
      }
      SinceWitnessed(w.trace, w1);
      SinceRun(env, w1, actions[1..]);
      SinceChain(w.trace, w1, Run(env, w1, actions[1..]));
    }
  }

  lemma SinceSame(w: World)
    requires Since(w.trace, w.(crashed := false))
    ensures Since(w.trace, w)
  {
    hide Ordered;
  }

  lemma SinceWitnessed(t: seq<Event>, w: World)
    requires Since(t, w)
    ensures Witnessed(w)
  {
  }

  /** Every pass that does not start well succeeds. */
  ghost predicate Fruitful(env: Env, w: World, actions: seq<Action>)
    decreases |actions|
  {
    actions != [] ==>
      && (actions[0].Pass? && !AccountThere(w) ==> C.Reconcile(env, w.(crashed := false)).st.Ok?)
      && Fruitful(env, Act(env, w, actions[0]), actions[1..])
  }

  /** One pass that does not start well and succeeds leaves a disorder on record for ever. */
  lemma DisorderRecorded(env: Env, w: World, rest: seq<Action>)
    requires w.cr.Some? && !w.cr.value.deleting && WellFormed(w.objs) && Witnessed(w)
    requires !AccountThere(w) && C.Reconcile(env, w.(crashed := false)).st.Ok?
    ensures !PastOrdered(Run(env, RunPass(env, w), rest))
  {
    hide WellFormed;
    hide C.Reconcile;
    hide Run;
    hide Since;
    hide Ordered;
    AccountNotRestored(env, w.(crashed := false));
    SincePass(env, w);
    var w1 := RunPass(env, w);
    SinceWitnessed(w.trace, w1);
    SinceRun(env, w1, rest);
    SinceChain(w.trace, w1, Run(env, w1, rest));
  }

  lemma {:induction false} DisorderOtherwise(env: Env, w: World, actions: seq<Action>)
    requires w.cr.Some? && !w.cr.value.deleting && WellFormed(w.objs) && Witnessed(w)
    requires Fruitful(env, w, actions) && !AccountsKept(env, w, actions)
    ensures !PastOrdered(Run(env, w, actions))
    decreases |actions|
  {
    hide C.Reconcile;
    hide WellFormed;
    hide Witnessed;
    hide Since;
    hide PastOrdered;
    hide AccountThere;
    if actions == [] {
    } else if actions[0].Pass? && !AccountThere(w) {
      DisorderRecorded(env, w, actions[1..]);
    } else {
      var w1 := Act(env, w, actions[0]);
      match actions[0] {
        case Edit(spec) => SinceEdit(w, spec);
        case Pass => SincePass(env, w);
      }
      SinceWitnessed(w.trace, w1);
      DisorderOtherwise(env, w1, actions[1..]);
    }
  }

  lemma FreshWitnessed(w: World)
    requires Fresh(w)
    ensures Witnessed(w) && w.cr.Some? && WellFormed(w.objs)
  {
  }

  /** Exactly when a run is in order: with reliable deletes, in a run whose passes succeed if they do not start well,
      permissions come first at every call boundary iff every pass moves to another namespace or finds the account of
      the committed one. */
  lemma OrderExactly(env: Env, w: World, actions: seq<Action>)
    requires Fresh(w) && !w.cr.value.deleting && ReliableDeletes(env) && Fruitful(env, w, actions)
    ensures PastOrdered(Run(env, w, actions)) <==> AccountsKept(env, w, actions)
  {
    hide Run;
    hide ReliableDeletes;
    hide Fruitful;
    hide AccountsKept;
    hide WellFormed;
    hide Witnessed;
    hide Ordered;
    FreshWitnessed(w);
    if AccountsKept(env, w, actions) {
      PermissionsFirst(env, w, actions);
    } else {
      DisorderOtherwise(env, w, actions);
    }
  }

}
