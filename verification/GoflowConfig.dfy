/** The configuration file of goflow-kube: what the operator renders from the specification, and how it decodes. */
module GoflowConfig {

  import opened Durations
  import opened FlowCollectorTypes
  import opened Json
  import opened Numerals
  import opened Wrappers

  datatype LokiConfig = LokiConfig(
    url: string,
    batchWait: int64,
    batchSize: int64,
    timeout: int64,
    minBackoff: int64,
    maxBackoff: int64,
    maxRetries: int32,
    labels: seq<string>,
    staticLabels: map<string, string>)

  datatype Config = Config(listen: string, loki: LokiConfig, printInput: bool, printOutput: bool)

  const FLOW_LABELS := ["SrcNamespace", "SrcWorkload", "DstNamespace", "DstWorkload"]

  function Listen(port: int32): string {
    "netflow://:" + Decimal(port)
  }

  function ConfigOf(gf: GoflowKube, loki: Loki): Config {
    Config(
      Listen(gf.port),
      LokiConfig(loki.url, loki.batchWait, loki.batchSize, loki.timeout, loki.minBackoff, loki.maxBackoff,
                 loki.maxRetries, FLOW_LABELS, loki.staticLabels),
      false,
      gf.printOutput)
  }

  // ---- Rendering: map keys are written in order, zero values of optional fields are left out ----

  predicate LexLe(a: string, b: string) {
    a == "" || (b != "" && (a[0] < b[0] || (a[0] == b[0] && LexLe(a[1..], b[1..]))))
  }

  lemma {:induction false} LexTotal(a: string, b: string)
    ensures LexLe(a, b) || LexLe(b, a)
    ensures LexLe(a, b) && LexLe(b, a) ==> a == b
    decreases |a|
  {
    if a != "" && b != "" && a[0] == b[0] {
      LexTotal(a[1..], b[1..]);
      assert a == [a[0]] + a[1..] && b == [b[0]] + b[1..];
    }
  }

  lemma {:induction false} LexTransitive(a: string, b: string, c: string)
    requires LexLe(a, b) && LexLe(b, c)
    ensures LexLe(a, c)
    decreases |a|
  {
    if a != "" && a[0] == b[0] && b[0] == c[0] {
      LexTransitive(a[1..], b[1..], c[1..]);
    }
  }

  predicate IsLeast(k: string, keys: set<string>) {
    k in keys && forall j :: j in keys ==> LexLe(k, j)
  }

  lemma {:induction false} LeastExists(keys: set<string>)
    requires keys != {}
    ensures exists k :: IsLeast(k, keys)
    decreases |keys|
  {
    var x :| x in keys;
    var others := keys - {x};
    LexTotal(x, x);
    if others == {} {
      forall j | j in keys ensures LexLe(x, j) {
        assert j !in others;
      }
      assert IsLeast(x, keys);
    } else {
      LeastExists(others);
      var y :| IsLeast(y, others);
      LexTotal(x, y);
      if LexLe(x, y) {
        forall j | j in keys ensures LexLe(x, j) {
          if j != x {
            LexTransitive(x, y, j);
          }
        }
        assert IsLeast(x, keys);
      } else {
        assert IsLeast(y, keys);
      }
    }
  }

  /** The first key in lexical order. */
  function Least(keys: set<string>): (k: string)
    requires keys != {}
    ensures IsLeast(k, keys)
  {
    LeastExists(keys);
    LeastUnique(keys);
    var k :| k in keys && IsLeast(k, keys);
    k
  }

  lemma LeastUnique(keys: set<string>)
    ensures forall k, l | IsLeast(k, keys) && IsLeast(l, keys) :: k == l
  {
    forall k, l | IsLeast(k, keys) && IsLeast(l, keys) ensures k == l {
      LexTotal(k, l);
    }
  }

  function LabelMembers(m: map<string, string>): Members
    decreases |m|
  {
    if m == map[] then NoMember
    else
      var k := Least(m.Keys);
      assert |m - {k}| < |m| by { assert (m - {k}).Keys == m.Keys - {k}; assert |m.Keys - {k}| == |m.Keys| - 1; }
      Member(k, Text(m[k]), LabelMembers(m - {k}))
  }

  function TextItems(s: seq<string>): Items {
    if s == [] then NoItem else Item(Text(s[0]), TextItems(s[1..]))
  }

  /** A field to write; fields marked omitempty have no value when theirs is zero. */
  datatype Field = Field(name: string, value: Option<Value>)

  function Optional(empty: bool, value: Value): Option<Value> {
    if empty then None else Some(value)
  }

  function Build(fs: seq<Field>): Members {
    if fs == [] then NoMember
    else if fs[0].value.None? then Build(fs[1..])
    else Member(fs[0].name, fs[0].value.value, Build(fs[1..]))
  }

  function LokiFields(l: LokiConfig): seq<Field> {
    [ Field("url", Optional(l.url == "", Text(l.url))),
      Field("batchWait", Some(Text(FormatDuration(l.batchWait)))),
      Field("batchSize", Optional(l.batchSize == 0, Number(l.batchSize))),
      Field("timeout", Some(Text(FormatDuration(l.timeout)))),
      Field("minBackoff", Some(Text(FormatDuration(l.minBackoff)))),
      Field("maxBackoff", Some(Text(FormatDuration(l.maxBackoff)))),
      Field("maxRetries", Optional(l.maxRetries == 0, Number(l.maxRetries))),
      Field("labels", Optional(l.labels == [], Array(TextItems(l.labels)))),
      Field("staticLabels", Optional(l.staticLabels == map[], Record(LabelMembers(l.staticLabels)))) ]
  }

  function ConfigFields(c: Config): seq<Field> {
    [ Field("listen", Optional(c.listen == "", Text(c.listen))),
      Field("loki", Some(Record(Build(LokiFields(c.loki))))),
      Field("printInput", Some(Bool(c.printInput))),
      Field("printOutput", Some(Bool(c.printOutput))) ]
  }

  function ConfigJson(c: Config): Value {
    Record(Build(ConfigFields(c)))
  }

  /** The text stored under config.yaml. */
  function ConfigText(gf: GoflowKube, loki: Loki): string {
    Render(ConfigJson(ConfigOf(gf, loki)))
  }

  // ---- Decoding ----

  function Find(ms: Members, name: string): Option<Value> {
    match ms
    case NoMember => None
    case Member(n, v, rest) => if n == name then Some(v) else Find(rest, name)
  }

  function AsText(v: Option<Value>): Option<string> {
    match v
    case None => Some("")
    case Some(Text(s)) => Some(s)
    case _ => None
  }

  function AsNumber(v: Option<Value>): Option<int> {
    match v
    case None => Some(0)
    case Some(Number(n)) => Some(n)
    case _ => None
  }

  function AsBool(v: Option<Value>): Option<bool> {
    match v
    case None => Some(false)
    case Some(Bool(b)) => Some(b)
    case _ => None
  }

  function AsDuration(v: Option<Value>): Option<int> {
    match v
    case None => Some(0)
    case Some(Text(s)) => ParseDuration(s)
    case _ => None
  }

  function ItemTexts(items: Items): Option<seq<string>> {
    match items
    case NoItem => Some([])
    case Item(Text(s), tail) =>
      var rest := ItemTexts(tail);
      if rest.None? then None else Some([s] + rest.value)
    case Item(_, _) => None
  }

  function AsTexts(v: Option<Value>): Option<seq<string>> {
    match v
    case None => Some([])
    case Some(Array(items)) => ItemTexts(items)
    case _ => None
  }

  function MemberMap(ms: Members): Option<map<string, string>> {
    match ms
    case NoMember => Some(map[])
    case Member(k, Text(s), rest) =>
      var m := MemberMap(rest);
      if m.None? then None else Some(m.value[k := s])
    case Member(_, _, _) => None
  }

  function AsMap(v: Option<Value>): Option<map<string, string>> {
    match v
    case None => Some(map[])
    case Some(Record(ms)) => MemberMap(ms)
    case _ => None
  }

  predicate Is64(n: Option<int>) {
    n.Some? && -0x8000_0000_0000_0000 <= n.value < 0x8000_0000_0000_0000
  }

  predicate Is32(n: Option<int>) {
    n.Some? && -0x8000_0000 <= n.value < 0x8000_0000
  }

  function DecodeLoki(ms: Members): Option<LokiConfig> {
    var url := AsText(Find(ms, "url"));
    var batchWait := AsDuration(Find(ms, "batchWait"));
    var batchSize := AsNumber(Find(ms, "batchSize"));
    var timeout := AsDuration(Find(ms, "timeout"));
    var minBackoff := AsDuration(Find(ms, "minBackoff"));
    var maxBackoff := AsDuration(Find(ms, "maxBackoff"));
    var maxRetries := AsNumber(Find(ms, "maxRetries"));
    var labels := AsTexts(Find(ms, "labels"));
    var staticLabels := AsMap(Find(ms, "staticLabels"));
    if url.Some? && Is64(batchWait) && Is64(batchSize) && Is64(timeout) && Is64(minBackoff) && Is64(maxBackoff)
       && Is32(maxRetries) && labels.Some? && staticLabels.Some? then
      Some(LokiConfig(url.value, batchWait.value, batchSize.value, timeout.value, minBackoff.value,
                      maxBackoff.value, maxRetries.value, labels.value, staticLabels.value))
    else None
  }

  function DecodeConfig(v: Value): Option<Config> {
    if !v.Record? then None
    else
      var listen := AsText(Find(v.members, "listen"));
      var lokiValue := Find(v.members, "loki");
      var loki := if lokiValue.Some? && lokiValue.value.Record? then DecodeLoki(lokiValue.value.members) else None;
      var printInput := AsBool(Find(v.members, "printInput"));
      var printOutput := AsBool(Find(v.members, "printOutput"));
      if listen.Some? && loki.Some? && printInput.Some? && printOutput.Some? then
        Some(Config(listen.value, loki.value, printInput.value, printOutput.value))
      else None
  }

  function DecodeText(text: string): Option<Config> {
    var v := Parse(text);
    if v.None? then None else DecodeConfig(v.value)
  }

  // ---- Decoding undoes rendering ----

  lemma {:induction false} LabelsRoundTrip(m: map<string, string>)
    ensures MemberMap(LabelMembers(m)) == Some(m)
    decreases |m|
  {
    if m != map[] {
      var k := Least(m.Keys);
      assert (m - {k}).Keys == m.Keys - {k};
      assert |m.Keys - {k}| == |m.Keys| - 1;
      LabelsRoundTrip(m - {k});
      assert (m - {k})[k := m[k]] == m;
    }
  }

  lemma {:induction false} TextsRoundTrip(s: seq<string>)
    ensures ItemTexts(TextItems(s)) == Some(s)
    decreases |s|
  {
    if s == [] {
    } else {
      TextsRoundTrip(s[1..]);
      assert [s[0]] + s[1..] == s;
    }
  }

  ghost predicate DistinctNames(fs: seq<Field>) {
    forall i, j :: 0 <= i < j < |fs| ==> fs[i].name != fs[j].name
  }

  lemma {:induction false} FindAbsent(fs: seq<Field>, name: string)
    requires forall i :: 0 <= i < |fs| ==> fs[i].name != name
    ensures Find(Build(fs), name) == None
    decreases |fs|
  {
    if fs == [] {
    } else {
      FindAbsent(fs[1..], name);
    }
  }

  /** Whatever was left out, each field is found under its name with its own value. */
  lemma {:induction false} FindField(fs: seq<Field>, i: nat)
    requires DistinctNames(fs) && i < |fs|
    ensures Find(Build(fs), fs[i].name) == fs[i].value
    decreases |fs|
  {
    if i > 0 {
      FindField(fs[1..], i - 1);
    } else {
      FindAbsent(fs[1..], fs[0].name);
    }
  }

  const LOKI_NAMES := [
    "url", "batchWait", "batchSize", "timeout", "minBackoff", "maxBackoff", "maxRetries", "labels", "staticLabels"]

  lemma NamesOfLoki(l: LokiConfig, i: nat)
    requires i < 9
    ensures LokiFields(l)[i].name == LOKI_NAMES[i]
  {
    hide FormatDuration;
    hide LabelMembers;
    hide TextItems;
    hide Optional;
  }

  lemma LokiNamesDiffer(i: nat, j: nat)
    requires i < j < 9
    ensures LOKI_NAMES[i] != LOKI_NAMES[j]
  {
    assert "batchWait"[5] != "batchSize"[5];
    assert "minBackoff"[1] != "maxBackoff"[1];
    assert "minBackoff"[1] != "maxRetries"[1];
    assert "maxBackoff"[3] != "maxRetries"[3];
  }

  lemma LokiNames(l: LokiConfig)
    ensures DistinctNames(LokiFields(l))
  {
    forall i, j | 0 <= i < j < 9 ensures LokiFields(l)[i].name != LokiFields(l)[j].name {
      NamesOfLoki(l, i);
      NamesOfLoki(l, j);
      LokiNamesDiffer(i, j);
    }
  }

  lemma ConfigNames(c: Config)
    ensures DistinctNames(ConfigFields(c))
  {
  }

  lemma FindNamed(fs: seq<Field>, i: nat, f: Field)
    requires DistinctNames(fs) && i < |fs| && fs[i] == f
    ensures Find(Build(fs), f.name) == f.value
  {
    FindField(fs, i);
  }

  lemma FoundDuration(fs: seq<Field>, i: nat, name: string, d: int64)
    requires DistinctNames(fs) && i < |fs| && fs[i] == Field(name, Some(Text(FormatDuration(d))))
    ensures AsDuration(Find(Build(fs), name)) == Some(d)
  {
    FindField(fs, i);
    DurationRoundTrip(d);
  }

  lemma FoundNumber(fs: seq<Field>, i: nat, name: string, n: int)
    requires DistinctNames(fs) && i < |fs| && fs[i] == Field(name, Optional(n == 0, Number(n)))
    ensures AsNumber(Find(Build(fs), name)) == Some(n)
  {
    FindField(fs, i);
  }

  lemma FoundText(fs: seq<Field>, i: nat, name: string, t: string)
    requires DistinctNames(fs) && i < |fs| && fs[i] == Field(name, Optional(t == "", Text(t)))
    ensures AsText(Find(Build(fs), name)) == Some(t)
  {
    FindField(fs, i);
  }

  lemma FoundTexts(fs: seq<Field>, i: nat, name: string, s: seq<string>)
    requires DistinctNames(fs) && i < |fs| && fs[i] == Field(name, Optional(s == [], Array(TextItems(s))))
    ensures AsTexts(Find(Build(fs), name)) == Some(s)
  {
    FindField(fs, i);
    TextsRoundTrip(s);
  }

  lemma FoundMap(fs: seq<Field>, i: nat, name: string, m: map<string, string>)
    requires DistinctNames(fs) && i < |fs| && fs[i] == Field(name, Optional(m == map[], Record(LabelMembers(m))))
    ensures AsMap(Find(Build(fs), name)) == Some(m)
  {
    FindField(fs, i);
    LabelsRoundTrip(m);
  }

  /** The members that a reader finds, each under its own name. */
  ghost predicate LokiReads(ms: Members, l: LokiConfig) {
    && AsText(Find(ms, "url")) == Some(l.url)
    && AsDuration(Find(ms, "batchWait")) == Some(l.batchWait)
    && AsNumber(Find(ms, "batchSize")) == Some(l.batchSize)
    && AsDuration(Find(ms, "timeout")) == Some(l.timeout)
    && AsDuration(Find(ms, "minBackoff")) == Some(l.minBackoff)
    && AsDuration(Find(ms, "maxBackoff")) == Some(l.maxBackoff)
    && AsNumber(Find(ms, "maxRetries")) == Some(l.maxRetries)
    && AsTexts(Find(ms, "labels")) == Some(l.labels)
    && AsMap(Find(ms, "staticLabels")) == Some(l.staticLabels)
  }

  lemma LokiWritten(l: LokiConfig)
    ensures LokiReads(Build(LokiFields(l)), l)
  {
    var fs := LokiFields(l);
    LokiNames(l);
    FoundText(fs, 0, "url", l.url);
    FoundDuration(fs, 1, "batchWait", l.batchWait);
    FoundNumber(fs, 2, "batchSize", l.batchSize);
    FoundDuration(fs, 3, "timeout", l.timeout);
    FoundDuration(fs, 4, "minBackoff", l.minBackoff);
    FoundDuration(fs, 5, "maxBackoff", l.maxBackoff);
    FoundNumber(fs, 6, "maxRetries", l.maxRetries);
    FoundTexts(fs, 7, "labels", l.labels);
    FoundMap(fs, 8, "staticLabels", l.staticLabels);
  }

  lemma DecodedLoki(ms: Members, l: LokiConfig)
    requires LokiReads(ms, l)
    ensures DecodeLoki(ms) == Some(l)
  {
  }

  lemma LokiRoundTrip(l: LokiConfig)
    ensures DecodeLoki(Build(LokiFields(l))) == Some(l)
  {
    LokiWritten(l);
    DecodedLoki(Build(LokiFields(l)), l);
  }

  lemma ConfigRoundTrip(c: Config)
    ensures DecodeConfig(ConfigJson(c)) == Some(c)
  {
    var fs := ConfigFields(c);
    ConfigNames(c);
    LokiRoundTrip(c.loki);
    FoundText(fs, 0, "listen", c.listen);
    FindNamed(fs, 1, Field("loki", Some(Record(Build(LokiFields(c.loki))))));
    FindNamed(fs, 2, Field("printInput", Some(Bool(c.printInput))));
    FindNamed(fs, 3, Field("printOutput", Some(Bool(c.printOutput))));
    DecodedConfig(Build(fs), Build(LokiFields(c.loki)), c);
  }

  lemma DecodedConfig(ms: Members, loki: Members, c: Config)
    requires AsText(Find(ms, "listen")) == Some(c.listen)
    requires Find(ms, "loki") == Some(Record(loki)) && DecodeLoki(loki) == Some(c.loki)
    requires Find(ms, "printInput") == Some(Bool(c.printInput))
    requires Find(ms, "printOutput") == Some(Bool(c.printOutput))
    ensures DecodeConfig(Record(ms)) == Some(c)
  {
  }

  /** What a decoded configuration should hold, field by field. */
  ghost predicate Carries(c: Config, gf: GoflowKube, loki: Loki) {
    && c.listen == "netflow://:" + Decimal(gf.port)
    && c.loki.url == loki.url
    && c.loki.batchWait == loki.batchWait
    && c.loki.batchSize == loki.batchSize
    && c.loki.timeout == loki.timeout
    && c.loki.minBackoff == loki.minBackoff
    && c.loki.maxBackoff == loki.maxBackoff
    && c.loki.maxRetries == loki.maxRetries
    && c.loki.labels == ["SrcNamespace", "SrcWorkload", "DstNamespace", "DstWorkload"]
    && c.loki.staticLabels == loki.staticLabels
    && !c.printInput
    && c.printOutput == gf.printOutput
  }

  /** The rendered text decodes to a configuration with the values of the specification, each in its own field. */
  lemma TextRoundTrip(gf: GoflowKube, loki: Loki)
    ensures var c := DecodeText(ConfigText(gf, loki)); c.Some? && Carries(c.value, gf, loki)
  {
    hide Render;
    hide Parse;
    hide ConfigJson;
    hide DecodeConfig;
    ParseRendered(ConfigJson(ConfigOf(gf, loki)));
    ConfigRoundTrip(ConfigOf(gf, loki));
  }

  /** What the JSON text should say: each value of the specification under the name that goflow-kube reads. */
  ghost predicate Says(text: string, gf: GoflowKube, loki: Loki) {
    var v := Parse(text);
    && v.Some? && v.value.Record?
    && var ms := v.value.members;
    && Find(ms, "listen") == Some(Text("netflow://:" + Decimal(gf.port)))
    && Find(ms, "printInput") == Some(Bool(false))
    && Find(ms, "printOutput") == Some(Bool(gf.printOutput))
    && var l := Find(ms, "loki");
    && l.Some? && l.value.Record? && LokiSays(l.value.members, loki)
  }

  ghost predicate LokiSays(ms: Members, loki: Loki) {
    && AsText(Find(ms, "url")) == Some(loki.url)
    && AsDuration(Find(ms, "batchWait")) == Some(loki.batchWait)
    && AsNumber(Find(ms, "batchSize")) == Some(loki.batchSize)
    && AsDuration(Find(ms, "timeout")) == Some(loki.timeout)
    && AsDuration(Find(ms, "minBackoff")) == Some(loki.minBackoff)
    && AsDuration(Find(ms, "maxBackoff")) == Some(loki.maxBackoff)
    && AsNumber(Find(ms, "maxRetries")) == Some(loki.maxRetries)
    && AsTexts(Find(ms, "labels")) == Some(["SrcNamespace", "SrcWorkload", "DstNamespace", "DstWorkload"])
    && AsMap(Find(ms, "staticLabels")) == Some(loki.staticLabels)
  }

  lemma TextSays(gf: GoflowKube, loki: Loki)
    ensures Says(ConfigText(gf, loki), gf, loki)
  {
    hide Render;
    hide Parse;
    hide LokiFields;
    var c := ConfigOf(gf, loki);
    var fs := ConfigFields(c);
    ParseRendered(ConfigJson(c));
    ConfigNames(c);
    FindNamed(fs, 0, Field("listen", Some(Text(c.listen))));
    FindNamed(fs, 1, Field("loki", Some(Record(Build(LokiFields(c.loki))))));
    FindNamed(fs, 2, Field("printInput", Some(Bool(c.printInput))));
    FindNamed(fs, 3, Field("printOutput", Some(Bool(c.printOutput))));
    LokiWritten(c.loki);
    hide Build;
    hide Find;
  }

  /** The text changes exactly when the port, printOutput or a Loki field other than the querier URL does. */
  lemma TextInjective(gf: GoflowKube, loki: Loki, gf': GoflowKube, loki': Loki)
    ensures ConfigText(gf, loki) == ConfigText(gf', loki')
       <==> gf.port == gf'.port && gf.printOutput == gf'.printOutput
            && loki.(querierURL := "") == loki'.(querierURL := "")
  {
    if ConfigText(gf, loki) == ConfigText(gf', loki') {
      TextRoundTrip(gf, loki);
      TextRoundTrip(gf', loki');
      SamePort(gf.port, gf'.port);
    }
  }

  lemma SamePort(port: int32, port': int32)
    requires "netflow://:" + Decimal(port) == "netflow://:" + Decimal(port')
    ensures port == port'
  {
    var prefix := "netflow://:";
    assert Decimal(port) == (prefix + Decimal(port))[|prefix|..];
    assert Decimal(port') == (prefix + Decimal(port'))[|prefix|..];
    DecimalInjective(port, port');
  }

}
