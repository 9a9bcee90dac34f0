/** The outline of the manifest: its pod-level keys (the lines directly
    under `metadata:` and `spec:`) and, within the container entry, its
    container-level keys, each listed in the order the generator writes
    them and each present exactly when its guard in the source holds.

    These outlines are stated independently of the block structure and
    proved equal to what the renderer writes, plain or annotated. */
module Outline {
  import opened Seqs
  import opened Pod
  import opened Render
  import opened Shapes
  import opened BlockShapes

  /** `lines` when the guard holds, nothing otherwise. */
  function When(guard: bool, lines: seq<string>): seq<string> {
    if guard then lines else []
  }

  /** The keys under `metadata:`: the name always, the namespace when set,
      `labels:` and `annotations:` when there are any. */
  function MetadataKeys(s: PodState): seq<string> {
    ["  name: " + s.podName]
    + When(s.namespace != "", ["  namespace: " + s.namespace])
    + When(|s.labels| > 0, ["  labels:"])
    + When(|s.annotations| > 0, ["  annotations:"])
  }

  /** The keys under `spec:`, each under its own condition. There is no
      `containers:` key among them. */
  function SpecKeys(s: PodState): seq<string> {
    When(s.serviceAccountName != "", ["  serviceAccountName: " + s.serviceAccountName])
    + When(s.restartPolicy != "Always", ["  restartPolicy: " + s.restartPolicy])
    + When(AnyIdSet(s.podSecurityContext), ["  securityContext:"])
    + When(|s.nodeSelector| > 0, ["  nodeSelector:"])
    + When(|s.tolerations| > 0, ["  tolerations:"])
    + When(|s.volumes| > 0, ["  volumes:"])
  }

  function PodOutline(s: PodState): seq<string> {
    MetadataKeys(s) + SpecKeys(s)
  }

  function ProbeHeadingOf(p: Probe): string {
    ProbeHeading(p.name)
  }

  /** The keys of the container entry: the image always, then command,
      args, `env:` (for variables or sources), resources, one heading per
      probe in order, and volume mounts. */
  function ContainerOutline(c: Container): seq<string> {
    ["    image: " + c.image]
    + When(|c.command| > 0, ["    command: " + Bracketed(c.command)])
    + When(|c.args| > 0, ["    args: " + Bracketed(c.args)])
    + When(|c.env| > 0 || |c.envFrom| > 0, ["    env:"])
    + When(AnyResourceSet(c.resources), ["    resources:"])
    + Map(ProbeHeadingOf, c.probes)
    + When(|c.volumeMounts| > 0, ["    volumeMounts:"])
  }

  // ---- composing blocks ---------------------------------------------------

  lemma EmitOne(annotate: bool, b: Block)
    ensures Emit(annotate, [b]) == BlockLines(annotate, b)
  {
    assert [b][1..] == [];
  }

  lemma EmitGuarded(guard: bool, b: Block)
    ensures Emit(false, Guarded(guard, b)) == When(guard, b.lines)
  {
    if guard {
      EmitOne(false, b);
    }
  }

  lemma PodLevelConcat(x: seq<string>, kx: seq<string>, y: seq<string>, ky: seq<string>)
    requires PodLevel(x, kx) && PodLevel(y, ky)
    ensures PodLevel(x + y, kx + ky)
  {
    FilterConcat(PodKey, x, y);
  }

  lemma ContainerLevelConcat(x: seq<string>, kx: seq<string>, y: seq<string>, ky: seq<string>)
    requires ContainerLevel(x, kx) && ContainerLevel(y, ky)
    ensures ContainerLevel(x + y, kx + ky)
  {
    FilterConcat(ContainerKey, x, y);
  }

  /** Appending a guarded pod-level block appends its keys under the same
      guard. */
  lemma PodStep(x: seq<Block>, keys: seq<string>, guard: bool, b: Block, bkeys: seq<string>)
    requires PodLevel(Emit(false, x), keys) && PodLevel(b.lines, bkeys)
    ensures PodLevel(Emit(false, x + Guarded(guard, b)), keys + When(guard, bkeys))
  {
    EmitConcat(false, x, Guarded(guard, b));
    EmitGuarded(guard, b);
    if guard {
      PodLevelConcat(Emit(false, x), keys, b.lines, bkeys);
    } else {
      assert Emit(false, x) + [] == Emit(false, x);
      assert keys + [] == keys;
    }
  }

  lemma ContainerStep(x: seq<Block>, keys: seq<string>, guard: bool, b: Block, bkeys: seq<string>)
    requires ContainerLevel(Emit(false, x), keys) && ContainerLevel(b.lines, bkeys)
    ensures ContainerLevel(Emit(false, x + Guarded(guard, b)), keys + When(guard, bkeys))
  {
    EmitConcat(false, x, Guarded(guard, b));
    EmitGuarded(guard, b);
    if guard {
      ContainerLevelConcat(Emit(false, x), keys, b.lines, bkeys);
    } else {
      assert Emit(false, x) + [] == Emit(false, x);
      assert keys + [] == keys;
    }
  }

  // ---- the sections -------------------------------------------------------

  /** Three guarded pod-level blocks in a row. */
  lemma PodSteps(x: seq<Block>, keys: seq<string>,
                 g1: bool, b1: Block, k1: seq<string>,
                 g2: bool, b2: Block, k2: seq<string>,
                 g3: bool, b3: Block, k3: seq<string>)
    requires PodLevel(Emit(false, x), keys)
    requires PodLevel(b1.lines, k1) && PodLevel(b2.lines, k2) && PodLevel(b3.lines, k3)
    ensures PodLevel(Emit(false, x + Guarded(g1, b1) + Guarded(g2, b2) + Guarded(g3, b3)),
                     keys + When(g1, k1) + When(g2, k2) + When(g3, k3))
  {
    PodStep(x, keys, g1, b1, k1);
    PodStep(x + Guarded(g1, b1), keys + When(g1, k1), g2, b2, k2);
    PodStep(x + Guarded(g1, b1) + Guarded(g2, b2), keys + When(g1, k1) + When(g2, k2), g3, b3, k3);
  }

  /** Three guarded container-level blocks in a row. */
  lemma ContainerSteps(x: seq<Block>, keys: seq<string>,
                       g1: bool, b1: Block, k1: seq<string>,
                       g2: bool, b2: Block, k2: seq<string>,
                       g3: bool, b3: Block, k3: seq<string>)
    requires ContainerLevel(Emit(false, x), keys)
    requires ContainerLevel(b1.lines, k1) && ContainerLevel(b2.lines, k2) && ContainerLevel(b3.lines, k3)
    ensures ContainerLevel(Emit(false, x + Guarded(g1, b1) + Guarded(g2, b2) + Guarded(g3, b3)),
                           keys + When(g1, k1) + When(g2, k2) + When(g3, k3))
  {
    ContainerStep(x, keys, g1, b1, k1);
    ContainerStep(x + Guarded(g1, b1), keys + When(g1, k1), g2, b2, k2);
    ContainerStep(x + Guarded(g1, b1) + Guarded(g2, b2), keys + When(g1, k1) + When(g2, k2), g3, b3, k3);
  }

  lemma FirstPodBlock(b: Block, keys: seq<string>)
    requires PodLevel(b.lines, keys)
    ensures PodLevel(Emit(false, [b]), keys)
  {
    EmitOne(false, b);
    PlainBlock(b);
  }

  lemma FirstContainerBlock(b: Block, keys: seq<string>)
    requires ContainerLevel(b.lines, keys)
    ensures ContainerLevel(Emit(false, [b]), keys)
  {
    EmitOne(false, b);
    PlainBlock(b);
  }

  lemma MetadataLevel(s: PodState)
    ensures PodLevel(Emit(false, MetadataBlocks(s)), MetadataKeys(s))
  {
    NameBlockShape(s);
    FirstPodBlock(NameBlock(s), ["  name: " + s.podName]);
    NamespaceBlockShape(s);
    LabelsBlockShape(s);
    AnnotationsBlockShape(s);
    PodSteps([NameBlock(s)], ["  name: " + s.podName],
             s.namespace != "", NamespaceBlock(s), ["  namespace: " + s.namespace],
             |s.labels| > 0, LabelsBlock(s), ["  labels:"],
             |s.annotations| > 0, AnnotationsBlock(s), ["  annotations:"]);
  }

  /** `spec:` with the service account, restart policy and security context. */
  lemma SpecHeadLevel(s: PodState)
    ensures PodLevel(
              Emit(false, [SpecBlock()]
                          + Guarded(s.serviceAccountName != "", ServiceAccountBlock(s))
                          + Guarded(s.restartPolicy != "Always", RestartPolicyBlock(s))
                          + Guarded(AnyIdSet(s.podSecurityContext), SecurityContextBlock(s))),
              When(s.serviceAccountName != "", ["  serviceAccountName: " + s.serviceAccountName])
              + When(s.restartPolicy != "Always", ["  restartPolicy: " + s.restartPolicy])
              + When(AnyIdSet(s.podSecurityContext), ["  securityContext:"]))
  {
    SpecBlockShape();
    FirstPodBlock(SpecBlock(), []);
    ServiceAccountBlockShape(s);
    RestartPolicyBlockShape(s);
    SecurityContextBlockShape(s);
    PodSteps([SpecBlock()], [],
             s.serviceAccountName != "", ServiceAccountBlock(s), ["  serviceAccountName: " + s.serviceAccountName],
             s.restartPolicy != "Always", RestartPolicyBlock(s), ["  restartPolicy: " + s.restartPolicy],
             AnyIdSet(s.podSecurityContext), SecurityContextBlock(s), ["  securityContext:"]);
    assert [] + When(s.serviceAccountName != "", ["  serviceAccountName: " + s.serviceAccountName])
         == When(s.serviceAccountName != "", ["  serviceAccountName: " + s.serviceAccountName]);
  }

  lemma SpecLevel(s: PodState)
    ensures PodLevel(Emit(false, SpecBlocks(s)), SpecKeys(s))
  {
    SpecHeadLevel(s);
    NodeSelectorBlockShape(s);
    TolerationsBlockShape(s);
    VolumesBlockShape(s);
    PodSteps([SpecBlock()]
               + Guarded(s.serviceAccountName != "", ServiceAccountBlock(s))
               + Guarded(s.restartPolicy != "Always", RestartPolicyBlock(s))
               + Guarded(AnyIdSet(s.podSecurityContext), SecurityContextBlock(s)),
             When(s.serviceAccountName != "", ["  serviceAccountName: " + s.serviceAccountName])
               + When(s.restartPolicy != "Always", ["  restartPolicy: " + s.restartPolicy])
               + When(AnyIdSet(s.podSecurityContext), ["  securityContext:"]),
             |s.nodeSelector| > 0, NodeSelectorBlock(s), ["  nodeSelector:"],
             |s.tolerations| > 0, TolerationsBlock(s), ["  tolerations:"],
             |s.volumes| > 0, VolumesBlock(s), ["  volumes:"]);
  }

  /** A run of blocks each holding exactly one container-level key. */
  lemma {:induction false} KeyedLevel(bs: seq<Block>, keys: seq<string>)
    requires |bs| == |keys|
    requires forall i :: 0 <= i < |bs| ==> ContainerLevel(bs[i].lines, [keys[i]])
    ensures ContainerLevel(Emit(false, bs), keys)
  {
    if |bs| > 0 {
      PlainBlock(bs[0]);
      assert Emit(false, bs) == bs[0].lines + Emit(false, bs[1..]);
      KeyedLevel(bs[1..], keys[1..]);
      ContainerLevelConcat(bs[0].lines, [keys[0]], Emit(false, bs[1..]), keys[1..]);
      assert [keys[0]] + keys[1..] == keys;
    }
  }

  /** One heading per probe, in order; everything else in a probe is nested
      under its heading. */
  lemma ProbesLevel(ps: seq<Probe>)
    ensures ContainerLevel(Emit(false, Map(ProbeBlock, ps)), Map(ProbeHeadingOf, ps))
  {
    var bs := Map(ProbeBlock, ps);
    var keys := Map(ProbeHeadingOf, ps);
    forall i | 0 <= i < |bs|
      ensures ContainerLevel(bs[i].lines, [keys[i]])
    {
      ProbeBlockShape(ps[i]);
    }
    KeyedLevel(bs, keys);
  }

  /** The container entry up to `env:`. */
  lemma ContainerHeadLevel(c: Container)
    ensures ContainerLevel(
              Emit(false, [ContainerHeadBlock(c)]
                          + Guarded(|c.command| > 0, CommandBlock(c))
                          + Guarded(|c.args| > 0, ArgsBlock(c))
                          + Guarded(|c.env| > 0 || |c.envFrom| > 0, EnvHeadBlock())),
              ["    image: " + c.image]
              + When(|c.command| > 0, ["    command: " + Bracketed(c.command)])
              + When(|c.args| > 0, ["    args: " + Bracketed(c.args)])
              + When(|c.env| > 0 || |c.envFrom| > 0, ["    env:"]))
  {
    ContainerHeadBlockShape(c);
    FirstContainerBlock(ContainerHeadBlock(c), ["    image: " + c.image]);
    CommandBlockShape(c);
    ArgsBlockShape(c);
    EnvHeadBlockShape();
    ContainerSteps([ContainerHeadBlock(c)], ["    image: " + c.image],
                   |c.command| > 0, CommandBlock(c), ["    command: " + Bracketed(c.command)],
                   |c.args| > 0, ArgsBlock(c), ["    args: " + Bracketed(c.args)],
                   |c.env| > 0 || |c.envFrom| > 0, EnvHeadBlock(), ["    env:"]);
  }

  /** The container entry up to its resources. */
  lemma ContainerBodyLevel(c: Container)
    ensures ContainerLevel(
              Emit(false, [ContainerHeadBlock(c)]
                          + Guarded(|c.command| > 0, CommandBlock(c))
                          + Guarded(|c.args| > 0, ArgsBlock(c))
                          + Guarded(|c.env| > 0 || |c.envFrom| > 0, EnvHeadBlock())
                          + Guarded(|c.env| > 0, EnvVarsBlock(c))
                          + Guarded(|c.envFrom| > 0, EnvFromBlock(c))
                          + Guarded(AnyResourceSet(c.resources), ResourcesBlock(c))),
              ["    image: " + c.image]
              + When(|c.command| > 0, ["    command: " + Bracketed(c.command)])
              + When(|c.args| > 0, ["    args: " + Bracketed(c.args)])
              + When(|c.env| > 0 || |c.envFrom| > 0, ["    env:"])
              + When(AnyResourceSet(c.resources), ["    resources:"]))
  {
    var ka := ["    image: " + c.image]
      + When(|c.command| > 0, ["    command: " + Bracketed(c.command)])
      + When(|c.args| > 0, ["    args: " + Bracketed(c.args)])
      + When(|c.env| > 0 || |c.envFrom| > 0, ["    env:"]);
    ContainerHeadLevel(c);
    EnvVarsBlockShape(c);
    EnvFromBlockShape(c);
    ResourcesBlockShape(c);
    ContainerSteps([ContainerHeadBlock(c)]
                     + Guarded(|c.command| > 0, CommandBlock(c))
                     + Guarded(|c.args| > 0, ArgsBlock(c))
                     + Guarded(|c.env| > 0 || |c.envFrom| > 0, EnvHeadBlock()),
                   ka,
                   |c.env| > 0, EnvVarsBlock(c), [],
                   |c.envFrom| > 0, EnvFromBlock(c), [],
                   AnyResourceSet(c.resources), ResourcesBlock(c), ["    resources:"]);
    NothingWhen(ka, |c.env| > 0, |c.envFrom| > 0);
  }

  lemma NothingWhen(keys: seq<string>, g1: bool, g2: bool)
    ensures keys + When(g1, []) + When(g2, []) == keys
  {
  }

  /** Blocks, then probes, then one more guarded block. */
  lemma TailSteps(x: seq<Block>, keys: seq<string>, ps: seq<Block>, pkeys: seq<string>,
                  guard: bool, b: Block, bkeys: seq<string>)
    requires ContainerLevel(Emit(false, x), keys)
    requires ContainerLevel(Emit(false, ps), pkeys)
    requires ContainerLevel(b.lines, bkeys)
    ensures ContainerLevel(Emit(false, x + ps + Guarded(guard, b)), keys + pkeys + When(guard, bkeys))
  {
    EmitConcat(false, x, ps);
    ContainerLevelConcat(Emit(false, x), keys, Emit(false, ps), pkeys);
    ContainerStep(x + ps, keys + pkeys, guard, b, bkeys);
  }

  lemma ContainerLevelOf(c: Container)
    ensures ContainerLevel(Emit(false, ContainerBlocks(c)), ContainerOutline(c))
  {
    ContainerBodyLevel(c);
    ProbesLevel(c.probes);
    VolumeMountsBlockShape(c);
    TailSteps([ContainerHeadBlock(c)]
                + Guarded(|c.command| > 0, CommandBlock(c))
                + Guarded(|c.args| > 0, ArgsBlock(c))
                + Guarded(|c.env| > 0 || |c.envFrom| > 0, EnvHeadBlock())
                + Guarded(|c.env| > 0, EnvVarsBlock(c))
                + Guarded(|c.envFrom| > 0, EnvFromBlock(c))
                + Guarded(AnyResourceSet(c.resources), ResourcesBlock(c)),
              ["    image: " + c.image]
                + When(|c.command| > 0, ["    command: " + Bracketed(c.command)])
                + When(|c.args| > 0, ["    args: " + Bracketed(c.args)])
                + When(|c.env| > 0 || |c.envFrom| > 0, ["    env:"])
                + When(AnyResourceSet(c.resources), ["    resources:"]),
              Map(ProbeBlock, c.probes), Map(ProbeHeadingOf, c.probes),
              |c.volumeMounts| > 0, VolumeMountsBlock(c), ["    volumeMounts:"]);
  }

  // ---- the manifest -------------------------------------------------------

  lemma Regroup(h: seq<string>, x: seq<string>, y: seq<string>, z: seq<string>)
    ensures h + (x + y + z) == h + x + y + z
  {
  }

  lemma EmitThree(annotate: bool, x: seq<Block>, y: seq<Block>, z: seq<Block>)
    ensures Emit(annotate, x + y + z) == Emit(annotate, x) + Emit(annotate, y) + Emit(annotate, z)
  {
    EmitConcat(annotate, x, y);
    EmitConcat(annotate, x + y, z);
  }

  /** The manifest is the header, then the metadata, spec and container
      sections, in that order. */
  lemma Sections(s: PodState, annotate: bool)
    ensures RenderLines(s, annotate)
         == HeaderLines
            + Emit(annotate, MetadataBlocks(s))
            + Emit(annotate, SpecBlocks(s))
            + Emit(annotate, ContainerBlocks(s.container))
  {
    EmitThree(annotate, MetadataBlocks(s), SpecBlocks(s), ContainerBlocks(s.container));
    Regroup(HeaderLines, Emit(annotate, MetadataBlocks(s)), Emit(annotate, SpecBlocks(s)),
            Emit(annotate, ContainerBlocks(s.container)));
  }

  lemma HeaderLevel()
    ensures PodLevel(HeaderLines, [])
  {
    TopLines();
    FilterDropsAll(PodKey, HeaderLines);
  }

  /** Header, metadata, spec and container sections put together. */
  lemma ManifestLevel(h: seq<string>, m: seq<string>, km: seq<string>,
                      sp: seq<string>, ks: seq<string>, c: seq<string>, kc: seq<string>)
    requires PodLevel(h, []) && PodLevel(m, km) && PodLevel(sp, ks) && ContainerLevel(c, kc)
    ensures PodLevel(h + m + sp + c, km + ks)
  {
    ContainerLevelIsNested(c, kc);
    PodLevelConcat(h, [], m, km);
    PodLevelConcat(h + m, [] + km, sp, ks);
    PodLevelConcat(h + m + sp, [] + km + ks, c, []);
    assert [] + km + ks + [] == km + ks;
  }

  /** The plain manifest holds YAML content only, and its pod-level keys are
      the outline. */
  lemma PlainLevel(s: PodState)
    ensures PodLevel(RenderLines(s, false), PodOutline(s))
  {
    Sections(s, false);
    HeaderLevel();
    MetadataLevel(s);
    SpecLevel(s);
    ContainerLevelOf(s.container);
    ManifestLevel(HeaderLines, Emit(false, MetadataBlocks(s)), MetadataKeys(s),
                  Emit(false, SpecBlocks(s)), SpecKeys(s),
                  Emit(false, ContainerBlocks(s.container)), ContainerOutline(s.container));
  }
}
