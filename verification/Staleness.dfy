/** The partial comparisons agree with full comparison: an object built from an earlier specification is found out of
    date exactly when the object built from the new one differs from it. */
module Staleness {

  import opened Cluster
  import opened ClientHelper
  import opened FlowCollectorTypes
  import opened GoflowObjects
  import opened GoflowReconciler
  import GoflowConfig
  import opened Numerals
  import D = Digest
  import P = PluginReconciler
  import opened Safety
  import opened Wrappers

  /** Equal but for the fields the server assigns. */
  predicate Same(o: Object, p: Object) {
    Strip(o) == Strip(p)
  }

  /** The two configurations do not share a digest unless they are the same text. */
  predicate Distinguished(gf: GoflowKube, loki: Loki, gf': GoflowKube, loki': Loki) {
    ConfigDigest(gf, loki) == ConfigDigest(gf', loki')
    ==> GoflowConfig.ConfigText(gf, loki) == GoflowConfig.ConfigText(gf', loki')
  }

  /** What the comparison of a pod template looks at. */
  predicate LooksSame(gf: GoflowKube, digest: string, gf': GoflowKube, digest': string) {
    && gf.image == gf'.image
    && gf.imagePullPolicy == gf'.imagePullPolicy
    && gf.resources == gf'.resources
    && gf.logLevel == gf'.logLevel
    && digest == digest'
  }

  /** The command tells log levels apart. */
  lemma CommandShowsLevel(gf: GoflowKube, gf': GoflowKube)
    ensures MainCommand(gf) == MainCommand(gf') <==> gf.logLevel == gf'.logLevel
  {
    var before, after := "/goflow-kube -loglevel \"", "\" -config /etc/goflow-kube/config.yaml";
    var c, c' := MainCommand(gf), MainCommand(gf');
    assert gf.logLevel == c[|before|..|c| - |after|];
    assert gf'.logLevel == c'[|before|..|c'| - |after|];
  }

  lemma TemplateCompared(gf: GoflowKube, digest: string, gf': GoflowKube, digest': string)
    ensures var t := BuildPodTemplate(gf, digest);
            !ContainerNeedsUpdate(t, gf') && !ConfigChanged(t, digest') <==> LooksSame(gf, digest, gf', digest')
  {
    hide MainCommand;
    CommandShowsLevel(gf, gf');
    var t := BuildPodTemplate(gf, digest);
    assert FindContainer(t.containers, GOFLOW_KUBE) == Some(t.containers[0]);
  }

  /** Between collectors of one kind, the templates are equal when they look the same, up to the host port. */
  lemma TemplatesEqual(gf: GoflowKube, digest: string, gf': GoflowKube, digest': string)
    requires gf.kind == gf'.kind
    ensures BuildPodTemplate(gf, digest) == BuildPodTemplate(gf', digest')
       <==> LooksSame(gf, digest, gf', digest') && (gf.kind == DAEMON_SET_KIND ==> gf.port == gf'.port)
  {
    hide MainCommand;
    CommandShowsLevel(gf, gf');
    var t, t' := BuildPodTemplate(gf, digest), BuildPodTemplate(gf', digest');
    if t == t' {
      var c, c' := t.containers[0], t'.containers[0];
      assert c == c' && c.command[2] == c'.command[2];
      assert t.annotations[POD_CONFIGURATION_DIGEST] == t'.annotations[POD_CONFIGURATION_DIGEST];
      if gf.kind == DAEMON_SET_KIND {
        assert c.ports[0] == c'.ports[0];
      }
    }
  }

  lemma DeploymentExact(
    stored: Object, cr: FlowCollector, gf: GoflowKube, loki: Loki, ns: string, gf': GoflowKube, loki': Loki,
    ns': string)
    requires gf.kind == gf'.kind == DEPLOYMENT_KIND
    requires Same(stored, Own(cr, BuildDeployment(gf, ns, ConfigDigest(gf, loki))))
    ensures !DeploymentNeedsUpdate(stored, gf', ns', ConfigDigest(gf', loki'))
       <==> Same(stored, Own(cr, BuildDeployment(gf', ns', ConfigDigest(gf', loki'))))
  {
    TemplateCompared(gf, ConfigDigest(gf, loki), gf', ConfigDigest(gf', loki'));
    TemplatesEqual(gf, ConfigDigest(gf, loki), gf', ConfigDigest(gf', loki'));
    hide ConfigDigest;
    hide BuildPodTemplate;
    hide LooksSame;
    hide ContainerNeedsUpdate;
    hide ConfigChanged;
  }

  /** The DaemonSet comparison does not look at the host port: it relies on the digest. */
  lemma DaemonSetCompared(
    stored: Object, cr: FlowCollector, gf: GoflowKube, loki: Loki, ns: string, gf': GoflowKube, loki': Loki,
    ns': string)
    requires gf.kind == gf'.kind == DAEMON_SET_KIND
    requires Same(stored, Own(cr, BuildDaemonSet(gf, ns, ConfigDigest(gf, loki))))
    ensures Same(stored, Own(cr, BuildDaemonSet(gf', ns', ConfigDigest(gf', loki'))))
       <==> !DaemonSetNeedsUpdate(stored, gf', ns', ConfigDigest(gf', loki')) && gf.port == gf'.port
  {
    TemplateCompared(gf, ConfigDigest(gf, loki), gf', ConfigDigest(gf', loki'));
    TemplatesEqual(gf, ConfigDigest(gf, loki), gf', ConfigDigest(gf', loki'));
    hide ConfigDigest;
    hide BuildPodTemplate;
    hide LooksSame;
    hide ContainerNeedsUpdate;
    hide ConfigChanged;
  }

  /** Which it may, as long as the two configurations do not collide. */
  lemma DaemonSetExact(
    stored: Object, cr: FlowCollector, gf: GoflowKube, loki: Loki, ns: string, gf': GoflowKube, loki': Loki,
    ns': string)
    requires gf.kind == gf'.kind == DAEMON_SET_KIND
    requires Same(stored, Own(cr, BuildDaemonSet(gf, ns, ConfigDigest(gf, loki))))
    requires Distinguished(gf, loki, gf', loki')
    ensures !DaemonSetNeedsUpdate(stored, gf', ns', ConfigDigest(gf', loki'))
       <==> Same(stored, Own(cr, BuildDaemonSet(gf', ns', ConfigDigest(gf', loki'))))
  {
    DaemonSetCompared(stored, cr, gf, loki, ns, gf', loki', ns');
    TemplateCompared(gf, ConfigDigest(gf, loki), gf', ConfigDigest(gf', loki'));
    GoflowConfig.TextInjective(gf, loki, gf', loki');
    hide ConfigDigest;
    hide BuildPodTemplate;
    hide ContainerNeedsUpdate;
    hide ConfigChanged;
    hide GoflowConfig.ConfigText;
  }

  /** An update is missed exactly when only the port, or what goes with it in the configuration, has changed and the
      two configurations collide. */
  lemma DaemonSetMissed(
    stored: Object, cr: FlowCollector, gf: GoflowKube, loki: Loki, ns: string, gf': GoflowKube, loki': Loki,
    ns': string)
    requires gf.kind == gf'.kind == DAEMON_SET_KIND
    requires Same(stored, Own(cr, BuildDaemonSet(gf, ns, ConfigDigest(gf, loki))))
    ensures !DaemonSetNeedsUpdate(stored, gf', ns', ConfigDigest(gf', loki'))
            && !Same(stored, Own(cr, BuildDaemonSet(gf', ns', ConfigDigest(gf', loki'))))
       <==> ns == ns' && LooksSame(gf, ConfigDigest(gf, loki), gf', ConfigDigest(gf', loki')) && gf.port != gf'.port
  {
    DaemonSetCompared(stored, cr, gf, loki, ns, gf', loki', ns');
    TemplateCompared(gf, ConfigDigest(gf, loki), gf', ConfigDigest(gf', loki'));
    hide ConfigDigest;
    hide BuildPodTemplate;
    hide LooksSame;
    hide ContainerNeedsUpdate;
    hide ConfigChanged;
  }

  /** An update keeps a Service in the form a first build would give it. */
  lemma ServiceForm(stored: Object, cr: FlowCollector, gf: GoflowKube, ns: string, gf': GoflowKube)
    requires Same(stored, Own(cr, BuildService(None, gf, ns)))
    ensures Same(Own(cr, BuildService(Some(stored), gf', ns)), Own(cr, BuildService(None, gf', ns)))
  {
  }

  lemma ServiceExact(stored: Object, cr: FlowCollector, gf: GoflowKube, ns: string, gf': GoflowKube, ns': string)
    requires Same(stored, Own(cr, BuildService(None, gf, ns)))
    ensures !ServiceNeedsUpdate(stored, gf', ns') <==> Same(stored, Own(cr, BuildService(None, gf', ns')))
    ensures ns == ns' ==>
              (!ServiceNeedsUpdate(stored, gf', ns') <==> Same(stored, Own(cr, BuildService(Some(stored), gf', ns'))))
  {
    assert stored.body.ports == [ServicePort(gf.port, UDP)];
    if !ServiceNeedsUpdate(stored, gf', ns') {
      assert gf.port == gf'.port;
    } else if stored.body.ports == [ServicePort(gf'.port, UDP)] {
      assert stored.body.ports[0] == ServicePort(gf'.port, UDP);
    }
  }

  lemma AutoscalerExact(stored: Object, cr: FlowCollector, hpa: HPA, ns: string, hpa': HPA, ns': string)
    requires Same(stored, Own(cr, BuildAutoscaler(hpa, ns)))
    ensures !AutoscalerNeedsUpdate(stored, hpa', ns') <==> Same(stored, Own(cr, BuildAutoscaler(hpa', ns')))
  {
  }

  /** Configurations whose texts differ in exactly one byte always restart the pods. */
  lemma OneByteRestarts(
    gf: GoflowKube, loki: Loki, gf': GoflowKube, loki': Loki, p: seq<byte>, b: byte, c: byte, s: seq<byte>)
    requires D.Encode(GoflowConfig.ConfigText(gf, loki)) == p + [b] + s
    requires D.Encode(GoflowConfig.ConfigText(gf', loki')) == p + [c] + s
    ensures ConfigChanged(BuildPodTemplate(gf, ConfigDigest(gf, loki)), ConfigDigest(gf', loki')) <==> b != c
  {
    hide GoflowConfig.ConfigText;
    D.OneByteChange(p, b, c, s);
    D.DigestIsHash(GoflowConfig.ConfigText(gf, loki), GoflowConfig.ConfigText(gf', loki'));
  }

  // ---- The console plugin ----

  lemma PluginDeploymentExact(
    stored: Object, cr: FlowCollector, p: ConsolePluginSpec, loki: Loki, ns: string,
    p': ConsolePluginSpec, loki': Loki, ns': string)
    requires Same(stored, Own(cr, P.BuildDeployment(p, loki, ns)))
    ensures !P.DeploymentNeedsUpdate(stored, p', loki', ns') <==>
        Same(stored, Own(cr, P.BuildDeployment(p', loki', ns')))
  {
    var t := P.BuildPodTemplate(p, loki);
    assert FindContainer(t.containers, P.PLUGIN) == Some(t.containers[0]);
    hide P.QuerierURL;
    if Same(stored, Own(cr, P.BuildDeployment(p', loki', ns'))) {
      var t' := P.BuildPodTemplate(p', loki');
      assert t.containers[0] == t'.containers[0];
      assert t.containers[0].args[5] == t'.containers[0].args[5];
    }
  }

  lemma ConsolePluginExact(
      stored: Object, cr: FlowCollector, p: ConsolePluginSpec, ns: string, p': ConsolePluginSpec, ns': string)
    requires Same(stored, Own(cr, P.BuildConsolePlugin(p, ns)))
    ensures !P.PluginNeedsUpdate(stored, p', ns') <==> Same(stored, Own(cr, P.BuildConsolePlugin(p', ns')))
  {
  }

}
