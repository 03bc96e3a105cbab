/** The OVS flows configuration: a record kept in a ConfigMap as a map of strings, and its controller. */
module FlowsConfig {

  import opened Cluster
  import opened ClientHelper
  import opened FlowCollectorTypes
  import opened Numerals
  import opened Wrappers

  const OVS_CONFIG_MAP := "ovs-flows-config"

  datatype Config = Config(ipfix: IPFIX, sharedTarget: string, nodePort: int32)

  function OvsKey(cnoNamespace: string): Key {
    Key(ConfigMaps, cnoNamespace, OVS_CONFIG_MAP)
  }

  // ---- The codec ----

  datatype Entry = Entry(key: string, text: string, zero: bool)

  /** The fields under their map keys, printed, with a mark on the zero ones. */
  function Entries(fc: Config): seq<Entry> {
    [ Entry("cacheActiveTimeout", fc.ipfix.cacheActiveTimeout, fc.ipfix.cacheActiveTimeout == ""),
      Entry("cacheMaxFlows", Decimal(fc.ipfix.cacheMaxFlows), fc.ipfix.cacheMaxFlows == 0),
      Entry("sampling", Decimal(fc.ipfix.sampling), fc.ipfix.sampling == 0),
      Entry("sharedTarget", fc.sharedTarget, fc.sharedTarget == ""),
      Entry("nodePort", Decimal(fc.nodePort), fc.nodePort == 0) ]
  }

  /** Zero values are left out. */
  function NonZero(entries: seq<Entry>): map<string, string> {
    if entries == [] then map[]
    else
      var last := entries[|entries| - 1];
      var front := NonZero(entries[..|entries| - 1]);
      if last.zero then front else front[last.key := last.text]
  }

  function AsStringMap(fc: Config): map<string, string> {
    NonZero(Entries(fc))
  }

  /** The loop over the decoded fields; the order in which Go visits a map does not matter, the keys being distinct. */
  method MakeStringMap(fc: Config) returns (m: map<string, string>)
    ensures m == AsStringMap(fc)
  {
    var vals := Entries(fc);
    m := map[];
    for i := 0 to |vals|
      invariant m == NonZero(vals[..i])
    {
      assert vals[..i + 1][..i] == vals[..i];
      if !vals[i].zero {
        m := m[vals[i].key := vals[i].text];
      }
    }
    assert vals[..|vals|] == vals;
  }

  function Unsigned(s: string, base: nat): Option<nat>
    requires 2 <= base <= 36
  {
    if s == "" then None else Value(s, base)
  }

  /** strconv's base-0 rule: the prefix decides the base. */
  function Prefixed(s: string): Option<nat> {
    if |s| >= 2 && s[0] == '0' && s[1] in "xX" then Unsigned(s[2..], 16)
    else if |s| >= 2 && s[0] == '0' && s[1] in "bB" then Unsigned(s[2..], 2)
    else if |s| >= 2 && s[0] == '0' && s[1] in "oO" then Unsigned(s[2..], 8)
    else if |s| >= 2 && s[0] == '0' then Unsigned(s[1..], 8)
    else Unsigned(s, 10)
  }

  /** ParseInt(s, 0, 32). */
  function ParseInt32(s: string): (r: Option<int>)
    ensures r.Some? ==> -0x8000_0000 <= r.value < 0x8000_0000
  {
    var signed := s != "" && (s[0] == '-' || s[0] == '+');
    var u := Prefixed(if signed then s[1..] else s);
    if u.None? then None
    else
      var n: int := u.value;
      var v := if s[0] == '-' then -n else n;
      if -0x8000_0000 <= v < 0x8000_0000 then Some(v) else None
  }

  function TextField(m: map<string, string>, key: string): string {
    if key in m then m[key] else ""
  }

  /** An absent field keeps its zero value; a present one must parse. */
  function NumberField(m: map<string, string>, key: string): (r: Option<int>)
    ensures r.Some? ==> -0x8000_0000 <= r.value < 0x8000_0000
  {
    if key in m then ParseInt32(m[key]) else Some(0)
  }

  /** None when a field does not parse. */
  function ConfigFromMap(m: map<string, string>): Option<Config> {
    var maxFlows := NumberField(m, "cacheMaxFlows");
    var sampling := NumberField(m, "sampling");
    var nodePort := NumberField(m, "nodePort");
    if maxFlows.None? || sampling.None? || nodePort.None? then None
    else
      Some(Config(IPFIX(TextField(m, "cacheActiveTimeout"), maxFlows.value, sampling.value),
                  TextField(m, "sharedTarget"), nodePort.value))
  }

  // ---- The controller ----

  datatype Current = CurrentErr(w: World, error: Error) | Current(w: World, config: Option<Config>)

  /** The configuration in place: none when the ConfigMap is absent, an error when it does not decode. */
  function ReadCurrent(env: Env, w: World, cnoNamespace: string): Current {
    var a := Issue(env, Ovs, w, Get(OvsKey(cnoNamespace)));
    if a.reply.NotFound? then Current(a.w, None)
    else if !a.reply.Found? then CurrentErr(a.w, Api(a.reply))
    else
      var c := ConfigFromMap(if a.reply.obj.body.ConfigMap? then a.reply.obj.body.data else map[]);
      if c.None? then CurrentErr(a.w, Decode) else Current(a.w, c)
  }

  function JoinHostPort(host: string, port: int): string {
    if ':' in host then "[" + host + "]:" + Decimal(port) else host + ":" + Decimal(port)
  }

  /** The first address that is not empty, printed; "" if there is none. */
  function FirstAddress(env: Env, addrs: seq<seq<byte>>): string {
    if addrs == [] then ""
    else if |addrs[0]| > 0 then env.ipString(addrs[0])
    else FirstAddress(env, addrs[1..])
  }

  method SearchAddress(env: Env, addrs: seq<seq<byte>>) returns (ip: string)
    ensures ip == FirstAddress(env, addrs)
  {
    var i := 0;
    while i < |addrs|
      invariant 0 <= i <= |addrs|
      invariant FirstAddress(env, addrs) == FirstAddress(env, addrs[i..])
    {
      if |addrs[i]| > 0 {
        return env.ipString(addrs[i]);
      }
      i := i + 1;
    }
    ip := "";
  }

  function ServiceHost(o: Object): string {
    o.meta.name + "." + o.meta.namespace
  }

  /** The address of the collector Service, as far as it resolves now. */
  function ResolveTarget(env: Env, w: World, svc: Object, port: int32): Option<string> {
    var r := env.lookupIP(w.ovsClock, ServiceHost(svc));
    if r.Unresolved? then None
    else
      var ip := FirstAddress(env, r.addrs);
      if ip == "" then None else Some(JoinHostPort(ip, port))
  }

  datatype Desired = DesiredErr(w: World, error: Error) | Desired(w: World, config: Config)

  function WantedConfig(env: Env, w: World, spec: Spec, ns: string): Desired {
    if spec.goflowKube.kind == DAEMON_SET_KIND then
      Desired(w, Config(spec.ipfix, "", spec.goflowKube.port))
    else if spec.goflowKube.kind == DEPLOYMENT_KIND then
      var a := Issue(env, Ovs, w, Get(Key(Services, ns, GOFLOW_KUBE)));
      if !a.reply.Found? then DesiredErr(a.w, Api(a.reply))
      else
        var target := ResolveTarget(env, a.w, a.reply.obj, spec.goflowKube.port);
        if target.None? then DesiredErr(a.w, Resolution) else Desired(a.w, Config(spec.ipfix, target.value, 0))
    else DesiredErr(w, InvalidKind(spec.goflowKube.kind))
  }

  function BuildOvsConfigMap(owner: string, fc: Config, cnoNamespace: string): Object {
    Object(Meta(OVS_CONFIG_MAP, cnoNamespace, map[], map[], 0, Some(owner)), ConfigMap(AsStringMap(fc)))
  }

  function Reconcile(env: Env, w: World, owner: string, spec: Spec, ns: string): Step {
    var current := ReadCurrent(env, w, spec.cnoNamespace);
    if current.CurrentErr? then Step(current.w, Err(current.error))
    else
      var wanted := WantedConfig(env, current.w, spec, ns);
      if wanted.DesiredErr? then Step(wanted.w, Err(wanted.error))
      else
        var cm := BuildOvsConfigMap(owner, wanted.config, spec.cnoNamespace);
        if current.config.None? then
          var a := Issue(env, Ovs, wanted.w, Create(cm));
          Step(a.w, StatusOf(a.reply))
        else if wanted.config != current.config.value then
          var a := Issue(env, Ovs, wanted.w, Update(cm));
          Step(a.w, StatusOf(a.reply))
        else Step(wanted.w, Ok)
  }

}
