/** The OVS flows configuration: the codec loses nothing, and the controller leaves the configuration it should. */
module OvsController {

  import opened Cluster
  import opened Containment
  import opened FlowCollectorTypes
  import opened FlowsConfig
  import opened Numerals
  import opened PassInduction
  import opened Runs
  import opened Safety
  import opened Wrappers

  // ---- The codec ----

  predicate DistinctKeys(entries: seq<Entry>) {
    forall i, j :: 0 <= i < j < |entries| ==> entries[i].key != entries[j].key
  }

  lemma {:induction false} NonZeroKeys(entries: seq<Entry>, key: string)
    requires key in NonZero(entries)
    ensures exists i :: 0 <= i < |entries| && entries[i].key == key
    decreases |entries|
  {
    var front := entries[..|entries| - 1];
    if key in NonZero(front) {
      NonZeroKeys(front, key);
      var i :| 0 <= i < |front| && front[i].key == key;
      assert entries[i].key == key;
    }
  }

  /** A field is written exactly when it is not zero, with its own text. */
  lemma {:induction false} NonZeroAt(entries: seq<Entry>, i: nat)
    requires DistinctKeys(entries) && i < |entries|
    ensures entries[i].key in NonZero(entries) <==> !entries[i].zero
    ensures !entries[i].zero ==> NonZero(entries)[entries[i].key] == entries[i].text
    decreases |entries|
  {
    var last := |entries| - 1;
    if i < last {
      NonZeroAt(entries[..last], i);
    } else if entries[i].key in NonZero(entries[..last]) {
      NonZeroKeys(entries[..last], entries[i].key);
    }
  }

  lemma EntryKeys(fc: Config)
    ensures DistinctKeys(Entries(fc))
  {
  }

  lemma UnsignedDecimal(n: nat)
    ensures Prefixed(Format(n, 10)) == Some(n)
  {
    FormatRoundTrip(n, 10);
    FormatDigits(n, 10);
    if n == 0 {
      assert Format(n, 10) == "0";
    }
  }

  lemma LetterPrefix(d: string, letter: char)
    requires d != "" && letter in "xXbBoO"
    ensures Prefixed("0" + [letter] + d)
         == Value(d, if letter in "xX" then 16 else if letter in "bB" then 2 else 8)
  {
    hide Value;
    assert ("0" + [letter] + d)[2..] == d;
  }

  lemma ZeroPrefix(d: string)
    requires d != "" && IsDigitOf(d[0], 8)
    ensures Prefixed("0" + d) == Value(d, 8)
  {
    hide Value;
    assert ("0" + d)[1..] == d;
  }

  /** What strconv documents of base 0: the prefix decides the base, and there is decimal without one. */
  lemma BasesRead(n: nat, letter: char)
    requires letter in "xXbBoO"
    ensures Prefixed("0" + [letter] + Format(n, if letter in "xX" then 16 else if letter in "bB" then 2 else 8))
         == Some(n)
    ensures Prefixed("0" + Format(n, 8)) == Some(n)
    ensures Prefixed(Format(n, 10)) == Some(n)
  {
    var base := if letter in "xX" then 16 else if letter in "bB" then 2 else 8;
    FormatRoundTrip(n, base);
    FormatRoundTrip(n, 8);
    FormatDigits(n, 8);
    UnsignedDecimal(n);
    hide Format;
    hide Prefixed;
    LetterPrefix(Format(n, base), letter);
    ZeroPrefix(Format(n, 8));
  }

  lemma NoPlus(n: int)
    ensures Decimal(n)[0] != '+'
  {
    DecimalSign(n);
  }

  /** The base-0 parser reads what the decimal printer writes. */
  lemma ParsePrinted(n: int)
    requires -0x8000_0000 <= n < 0x8000_0000
    ensures ParseInt32(Decimal(n)) == Some(n)
  {
    hide Prefixed;
    hide Format;
    hide DigitValue;
    DecimalSign(n);
    NoPlus(n);
    if n < 0 {
      assert Decimal(n)[1..] == Format(-n, 10);
      UnsignedDecimal(-n);
    } else {
      UnsignedDecimal(n);
    }
  }

  lemma NumberFound(fc: Config, i: nat, n: int32)
    requires i < 5 && Entries(fc)[i].text == Decimal(n) && (Entries(fc)[i].zero <==> n == 0)
    ensures NumberField(AsStringMap(fc), Entries(fc)[i].key) == Some(n)
  {
    hide ParseInt32;
    EntryKeys(fc);
    NonZeroAt(Entries(fc), i);
    ParsePrinted(n);
  }

  lemma TextFound(fc: Config, i: nat)
    requires i < 5 && (Entries(fc)[i].zero <==> Entries(fc)[i].text == "")
    ensures TextField(AsStringMap(fc), Entries(fc)[i].key) == Entries(fc)[i].text
  {
    EntryKeys(fc);
    NonZeroAt(Entries(fc), i);
  }

  /** Decoding the string map gives the configuration back, the zero fields that were left out included. */
  lemma FlowsRoundTrip(fc: Config)
    ensures ConfigFromMap(AsStringMap(fc)) == Some(fc)
  {
    TextFound(fc, 0);
    NumberFound(fc, 1, fc.ipfix.cacheMaxFlows);
    NumberFound(fc, 2, fc.ipfix.sampling);
    TextFound(fc, 3);
    NumberFound(fc, 4, fc.nodePort);
    hide NumberField;
    hide TextField;
    hide AsStringMap;
  }

  /** So the map determines the configuration. */
  lemma FlowsInjective(fc: Config, fc': Config)
    requires AsStringMap(fc) == AsStringMap(fc')
    ensures fc == fc'
  {
    FlowsRoundTrip(fc);
    FlowsRoundTrip(fc');
  }

  /** Which of the two targets the map names. */
  lemma TargetKeys(fc: Config)
    ensures "sharedTarget" in AsStringMap(fc) <==> fc.sharedTarget != ""
    ensures "nodePort" in AsStringMap(fc) <==> fc.nodePort != 0
    ensures fc.nodePort != 0 ==> AsStringMap(fc)["nodePort"] == Decimal(fc.nodePort)
  {
    EntryKeys(fc);
    NonZeroAt(Entries(fc), 3);
    NonZeroAt(Entries(fc), 4);
  }

  // ---- The controller ----

  /** The configuration in the ConfigMap, as far as it decodes. */
  function InPlace(objs: Objects, cno: string): Option<Config> {
    var cm := Lookup(objs, OvsKey(cno));
    if cm.None? then None else ConfigFromMap(if cm.value.body.ConfigMap? then cm.value.body.data else map[])
  }

  /** What the controller writes in the ConfigMap's data. */
  ghost predicate Written(o: Object) {
    exists fc :: o.body == ConfigMap(AsStringMap(fc))
  }

  /** The configuration a pass wants, as it finds out. */
  function Wanted(env: Env, w: World, spec: Spec, ns: string): Desired {
    WantedConfig(env, ReadCurrent(env, w, spec.cnoNamespace).w, spec, ns)
  }

  /** Whatever was there before: when the controller succeeds, the ConfigMap decodes to the wanted configuration; and if
      what was there had been written by the operator, its data is exactly the wanted configuration's. */
  lemma OvsCorrect(env: Env, w: World, owner: string, spec: Spec, ns: string)
    ensures var s, wanted, k := Reconcile(env, w, owner, spec, ns), Wanted(env, w, spec, ns), OvsKey(spec.cnoNamespace);
            s.st.Ok? ==>
              && wanted.Desired? && k in s.w.objs
              && InPlace(s.w.objs, spec.cnoNamespace) == Some(wanted.config)
              && ((k in w.objs ==> Written(w.objs[k]))
                  ==> s.w.objs[k].body == ConfigMap(AsStringMap(wanted.config)))
  {
    hide ConfigFromMap;
    hide ResolveTarget;
    hide AsStringMap;
    var k := OvsKey(spec.cnoNamespace);
    GetReply(env, w, Ovs, k);
    var current := ReadCurrent(env, w, spec.cnoNamespace);
    if current.Current? {
      GetReply(env, current.w, Ovs, Key(Services, ns, GOFLOW_KUBE));
      var wanted := Wanted(env, w, spec, ns);
      if wanted.Desired? {
        var cm := BuildOvsConfigMap(owner, wanted.config, spec.cnoNamespace);
        WriteDone(env, wanted.w, Ovs, cm);
        FlowsRoundTrip(wanted.config);
        if k in w.objs && Written(w.objs[k]) {
          var fc :| w.objs[k].body == ConfigMap(AsStringMap(fc));
          FlowsRoundTrip(fc);
        }
      }
    }
    hide Issue;
  }

  /** The wanted configuration names the node port for a DaemonSet, and the address of the Service for a Deployment. */
  lemma WantedTarget(env: Env, w: World, spec: Spec, ns: string)
    ensures var d := WantedConfig(env, w, spec, ns); var gf := spec.goflowKube;
            && (d.Desired? ==> d.config.ipfix == spec.ipfix)
            && (d.Desired? && gf.kind == DAEMON_SET_KIND ==>
               d.config.nodePort == gf.port && d.config.sharedTarget == "")
            && (d.Desired? && gf.kind == DEPLOYMENT_KIND ==> d.config.nodePort == 0 && d.config.sharedTarget != "")
            && (gf.kind == DAEMON_SET_KIND ==> d.Desired?)
            && (d.Desired? ==> gf.kind == DAEMON_SET_KIND || gf.kind == DEPLOYMENT_KIND)
  {
    hide Issue;
  }

  /** Across kind switches: on success, over what the operator wrote before, a DaemonSet's ConfigMap has the node port
      and no shared target, a Deployment's has the shared target and no node port. */
  lemma OvsTargets(env: Env, w: World, owner: string, spec: Spec, ns: string)
    requires 1 <= spec.goflowKube.port <= 65535
    requires OvsKey(spec.cnoNamespace) in w.objs ==> Written(w.objs[OvsKey(spec.cnoNamespace)])
    ensures var s, k := Reconcile(env, w, owner, spec, ns), OvsKey(spec.cnoNamespace);
            s.st.Ok? ==>
              && k in s.w.objs && s.w.objs[k].body.ConfigMap?
              && var data := s.w.objs[k].body.data;
              && (spec.goflowKube.kind == DAEMON_SET_KIND ==>
                    "nodePort" in data && data["nodePort"] == Decimal(spec.goflowKube.port) && "sharedTarget" !in data)
              && (spec.goflowKube.kind == DEPLOYMENT_KIND ==> "sharedTarget" in data && "nodePort" !in data)
  {
    hide Reconcile;
    hide WantedConfig;
    hide AsStringMap;
    hide InPlace;
    var s, wanted := Reconcile(env, w, owner, spec, ns), Wanted(env, w, spec, ns);
    OvsCorrect(env, w, owner, spec, ns);
    WantedTarget(env, ReadCurrent(env, w, spec.cnoNamespace).w, spec, ns);
    if s.st.Ok? {
      TargetKeys(wanted.config);
    }
  }

  // ---- The shared target ----

  predicate LastColon(target: string, i: nat) {
    i < |target| && target[i] == ':' && ':' !in target[i + 1..]
  }

  /** The target splits at its last colon into an address, in brackets iff it has colons of its own, and a port. */
  ghost predicate Names(target: string, address: string, port: string) {
    exists i: nat :: LastColon(target, i) && target[i + 1..] == port
                && target[..i] == if ':' in address then "[" + address + "]" else address
  }

  /** The first of the addresses that is not empty. */
  predicate FirstOf(addrs: seq<seq<byte>>, i: nat) {
    i < |addrs| && addrs[i] != [] && forall j :: 0 <= j < i ==> addrs[j] == []
  }

  /** The answer has a usable address, and the target names it. */
  ghost predicate Reaches(env: Env, answer: Addresses, target: string, port: int32) {
    && answer.Resolved?
    && exists i: nat :: FirstOf(answer.addrs, i) && Names(target, env.ipString(answer.addrs[i]), Decimal(port))
  }

  lemma {:induction false} FirstFound(env: Env, addrs: seq<seq<byte>>)
    requires FirstAddress(env, addrs) != ""
    ensures exists i: nat :: FirstOf(addrs, i) && FirstAddress(env, addrs) == env.ipString(addrs[i])
    decreases |addrs|
  {
    if addrs[0] != [] {
      assert FirstOf(addrs, 0);
    } else {
      FirstFound(env, addrs[1..]);
      var i: nat :| FirstOf(addrs[1..], i) && FirstAddress(env, addrs[1..]) == env.ipString(addrs[1..][i]);
      assert FirstOf(addrs, i + 1);
    }
  }

  lemma {:induction false} FirstIsFound(env: Env, addrs: seq<seq<byte>>, i: nat)
    requires FirstOf(addrs, i)
    ensures FirstAddress(env, addrs) == env.ipString(addrs[i])
    decreases i
  {
    if i == 0 {
    } else {
      assert FirstOf(addrs[1..], i - 1);
      FirstIsFound(env, addrs[1..], i - 1);
    }
  }

  lemma NoColon(n: int)
    ensures ':' !in Decimal(n)
  {
    var d := Format(if n < 0 then -n else n, 10);
    FormatDigits(if n < 0 then -n else n, 10);
    hide Format;
    forall i | 0 <= i < |d| ensures d[i] != ':' {
      assert IsDigitOf(d[i], 10);
    }
  }

  lemma JoinedNames(host: string, port: int)
    ensures Names(JoinHostPort(host, port), host, Decimal(port))
  {
    var t, address := JoinHostPort(host, port), if ':' in host then "[" + host + "]" else host;
    NoColon(port);
    hide Decimal;
    assert t == address + ":" + Decimal(port);
    assert t[|address| + 1..] == Decimal(port) && t[..|address|] == address;
    assert LastColon(t, |address|);
  }

  /** A Deployment's wanted target reaches the collector's Service, as its host name resolves in that pass. */
  lemma WantedReaches(env: Env, w: World, spec: Spec, ns: string)
    requires WellFormed(w.objs) && spec.goflowKube.kind == DEPLOYMENT_KIND
    ensures var d := WantedConfig(env, w, spec, ns);
            d.Desired? ==> Reaches(env, env.lookupIP(d.w.ovsClock, "goflow-kube." + ns), d.config.sharedTarget,
                                   spec.goflowKube.port)
  {
    var d, k := WantedConfig(env, w, spec, ns), Key(Services, ns, GOFLOW_KUBE);
    GetReply(env, w, Ovs, k);
    if d.Desired? {
      var answer := env.lookupIP(d.w.ovsClock, "goflow-kube." + ns);
      assert ServiceHost(w.objs[k]) == "goflow-kube." + ns;
      FirstFound(env, answer.addrs);
      JoinedNames(FirstAddress(env, answer.addrs), spec.goflowKube.port);
    }
    hide Issue;
  }

  lemma Ticks(env: Env, w: World, k: Key)
    ensures var a := Issue(env, Ovs, w, Get(k));
            a.reply.Found? || a.reply.NotFound? ==> a.w.ovsClock == w.ovsClock + 1
  {
  }

  /** What the data of an OVS ConfigMap should say. The two reads of a pass come before the lookup of the address. */
  ghost predicate FlowsSay(env: Env, w: World, spec: Spec, ns: string, data: map<string, string>) {
    && TextField(data, "cacheActiveTimeout") == spec.ipfix.cacheActiveTimeout
    && NumberField(data, "cacheMaxFlows") == Some(spec.ipfix.cacheMaxFlows)
    && NumberField(data, "sampling") == Some(spec.ipfix.sampling)
    && (spec.goflowKube.kind == "DaemonSet" ==>
          NumberField(data, "nodePort") == Some(spec.goflowKube.port) && TextField(data, "sharedTarget") == "")
    && (spec.goflowKube.kind == "Deployment" ==>
          && NumberField(data, "nodePort") == Some(0)
          && Reaches(env, env.lookupIP(w.ovsClock + 2, "goflow-kube." + ns), TextField(data, "sharedTarget"),
                     spec.goflowKube.port))
  }

  lemma WantedClock(env: Env, w: World, spec: Spec, ns: string)
    ensures var d := Wanted(env, w, spec, ns);
            spec.goflowKube.kind == DEPLOYMENT_KIND && d.Desired? && ReadCurrent(env, w, spec.cnoNamespace).Current?
            ==> d.w.ovsClock == w.ovsClock + 2
  {
    hide ConfigFromMap;
    hide ResolveTarget;
    Ticks(env, w, OvsKey(spec.cnoNamespace));
    Ticks(env, ReadCurrent(env, w, spec.cnoNamespace).w, Key(Services, ns, GOFLOW_KUBE));
    hide Issue;
  }

  lemma CurrentRead(env: Env, w: World, owner: string, spec: Spec, ns: string)
    requires Reconcile(env, w, owner, spec, ns).st.Ok?
    ensures ReadCurrent(env, w, spec.cnoNamespace).Current?
  {
    hide Issue;
    hide WantedConfig;
    hide ReadCurrent;
    hide AsStringMap;
  }

  lemma CurrentStore(env: Env, w: World, cno: string)
    ensures ReadCurrent(env, w, cno).w.objs == w.objs
  {
    hide ConfigFromMap;
    GetReply(env, w, Ovs, OvsKey(cno));
    hide Issue;
  }

  /** Whatever was there before and whatever failed on the way: when the controller succeeds, the ConfigMap holds the
      IPFIX settings of the specification, the node port for a DaemonSet, and for a Deployment a target that names the
      port and the address at which the collector's Service resolved in that reconciliation. */
  lemma OvsDelivers(env: Env, w: World, owner: string, spec: Spec, ns: string)
    requires WellFormed(w.objs)
    ensures var s, k := Reconcile(env, w, owner, spec, ns), Key(ConfigMaps, spec.cnoNamespace, "ovs-flows-config");
            s.st.Ok? ==>
              && spec.goflowKube.kind in {"DaemonSet", "Deployment"}
              && k in s.w.objs
              && FlowsSay(env, w, spec, ns, if s.w.objs[k].body.ConfigMap? then s.w.objs[k].body.data else map[])
  {
    hide WellFormed;
    hide NumberField;
    hide TextField;
    hide Reaches;
    hide Reconcile;
    hide WantedConfig;
    hide ReadCurrent;
    hide AsStringMap;
    var s, wanted, current := Reconcile(env, w, owner, spec, ns), Wanted(env, w, spec, ns),
      ReadCurrent(env, w, spec.cnoNamespace);
    if s.st.Ok? {
      CurrentRead(env, w, owner, spec, ns);
      OvsCorrect(env, w, owner, spec, ns);
      WantedTarget(env, current.w, spec, ns);
      WantedClock(env, w, spec, ns);
      CurrentStore(env, w, spec.cnoNamespace);
      if spec.goflowKube.kind == DEPLOYMENT_KIND {
        WantedReaches(env, current.w, spec, ns);
      }
    }
  }

  // ---- Over runs ----

  ghost predicate AllWritten(s: Snapshot) {
    forall cno :: OvsKey(cno) in s.objs ==> Written(s.objs[OvsKey(cno)])
  }

  lemma OvsWrite(env: Env, cr: FlowCollector, w: World, who: Cluster.Component, o: Object, cno: string)
    requires KeyOf(o) == OvsKey(cno)
    requires CreateGuard(env, cr, w, who, o) || UpdateGuard(env, cr, w, who, o)
    ensures OvsConfigMap(cr, o)
  {
    hide GoflowObject;
    hide PluginObject;
    hide ServiceOf;
    hide OvsConfigMap;
    hide Cleared;
    NamesDiffer();
    var u := Unversioned(o);
    if who == Main {
      if GoflowObject(env, cr, w, o) {
        GoflowObjectKey(env, cr, w, o);
      } else if GoflowObject(env, cr, w, u) {
        GoflowObjectKey(env, cr, w, u);
      } else if PluginObject(cr, o) {
        PluginObjectKey(cr, o);
      } else if PluginObject(cr, u) {
        PluginObjectKey(cr, u);
      } else if ServiceOf(env, cr, None, o) {
        ServiceOfKey(env, cr, None, o);
      } else if KeyOf(o) in w.objs && ServiceOf(env, cr, Some(w.objs[KeyOf(o)]), o) {
        ServiceOfKey(env, cr, Some(w.objs[KeyOf(o)]), o);
      }
    }
  }

  lemma WrittenStep(env: Env, cr: FlowCollector, w: World, who: Cluster.Component, call: Call)
    requires AllWritten(Now(w)) && Guard(env, cr, w, who, call)
    ensures AllWritten(Now(Issue(env, who, w, call).w))
  {
    hide CreateGuard;
    hide UpdateGuard;
    hide DeleteGuard;
    hide AsStringMap;
    var objs := Issue(env, who, w, call).w.objs;
    match call {
      case Create(o) =>
        CreateEffect(env, w, who, o);
      case Update(o) =>
        UpdateEffect(env, w, who, o);
      case Delete(k) =>
        DeleteEffect(env, w, who, k);
      case UpdateStatus(n) =>
        StatusEffect(env, w, who, n);
      case _ =>
        ReadEffect(env, w, who, call);
    }
    hide Issue;
    forall cno | OvsKey(cno) in objs ensures Written(objs[OvsKey(cno)]) {
      if (call.Create? || call.Update?) && KeyOf(call.obj) == OvsKey(cno) && objs != w.objs {
        OvsWrite(env, cr, w, who, call.obj, cno);
        var fc :| call.obj == BuildOvsConfigMap(cr.name, fc, cr.spec.cnoNamespace);
        assert objs[OvsKey(cno)].body == ConfigMap(AsStringMap(fc));
      }
    }
  }

  lemma WrittenClosed(env: Env, cr: FlowCollector)
    ensures StepClosed(env, cr, AllWritten)
  {
    hide AllWritten;
    hide WellFormed;
    hide Guard;
    hide Issue;
    forall x, who, call | AllWritten(Now(x)) && !x.crashed && WellFormed(x.objs) && Guard(env, cr, x, who, call)
      ensures AllWritten(Now(Issue(env, who, x, call).w))
    {
      WrittenStep(env, cr, x, who, call);
    }
  }

  /** At every call boundary of every run from a cluster without OVS ConfigMaps, each one was written by the operator:
      what OvsTargets asks of the ConfigMap in place always holds. */
  lemma RunWritten(env: Env, w: World, actions: seq<Action>)
    requires w.cr.Some? && WellFormed(w.objs) && w.trace == [] && AllWritten(Now(w))
    ensures Always(AllWritten, Run(env, w, actions))
  {
    hide AllWritten;
    hide WellFormed;
    forall cr: FlowCollector ensures StepClosed(env, cr, AllWritten) {
      WrittenClosed(env, cr);
    }
    hide StepClosed;
    assert EditClosed(AllWritten) by {
      forall x, spec | AllWritten(Now(x)) ensures AllWritten(Now(EditSpec(x, spec))) {
        WrittenEdit(x, spec);
      }
    }
    RunAlways(env, SpecsOf(w, actions), w.cr.value.name, AllWritten, w, actions);
  }

  lemma WrittenEdit(w: World, spec: Spec)
    requires AllWritten(Now(w))
    ensures AllWritten(Now(EditSpec(w, spec)))
  {
  }

}
