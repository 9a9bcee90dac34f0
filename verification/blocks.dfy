/** The shape of every block the renderer writes: which of its lines are
    pod-level keys (directly under `metadata:` or `spec:`) and which are
    container-level keys (directly under the container entry). Everything
    else in a block is nested deeper. */
module BlockShapes {
  import opened Seqs
  import opened Pod
  import opened Render
  import opened Shapes

  /** A block of pod-level content whose pod-level keys are `keys`. */
  predicate PodLevel(lines: seq<string>, keys: seq<string>) {
    AllContent(lines) && Filter(PodKey, lines) == keys
  }

  /** A block inside the container entry whose container-level keys are
      `keys`; it holds no pod-level key. */
  predicate ContainerLevel(lines: seq<string>, keys: seq<string>) {
    AllNested(lines) && Filter(ContainerKey, lines) == keys
  }

  /** A single pod-level line. */
  lemma PodKeyLine(l: string)
    requires PodKey(l)
    ensures PodLevel([l], [l])
  {
    PodKeyBlock(l, []);
    assert [l] + [] == [l];
  }

  /** A column-0 line followed by a pod-level key. */
  lemma TopThenPodKey(top: string, l: string)
    requires IsContent(top) && !PodKey(top) && PodKey(l)
    ensures PodLevel([top, l], [l])
  {
    PodKeyContent(l);
    assert [top, l][1..] == [l];
    assert [l][1..] == [];
  }

  /** A single container-level line. */
  lemma ContainerKeyLine(l: string)
    requires ContainerKey(l)
    ensures ContainerLevel([l], [l])
  {
    ContainerKeyBlock(l, []);
    assert [l] + [] == [l];
  }

  /** Container content never contributes to the pod-level outline. */
  lemma ContainerLevelIsNested(lines: seq<string>, keys: seq<string>)
    requires ContainerLevel(lines, keys)
    ensures PodLevel(lines, [])
  {
    NestedLines(lines);
  }

  // ---- metadata -----------------------------------------------------------

  lemma NameBlockShape(s: PodState)
    ensures PodLevel(NameBlock(s).lines, ["  name: " + s.podName])
  {
    TopLines();
    PodKeys();
    PodKeyAfter("  name: ", s.podName);
    TopThenPodKey("metadata:", "  name: " + s.podName);
  }

  lemma NamespaceBlockShape(s: PodState)
    ensures PodLevel(NamespaceBlock(s).lines, ["  namespace: " + s.namespace])
  {
    PodKeys();
    PodKeyAfter("  namespace: ", s.namespace);
    PodKeyLine("  namespace: " + s.namespace);
  }

  lemma LabelsBlockShape(s: PodState)
    ensures PodLevel(LabelsBlock(s).lines, ["  labels:"])
  {
    PodKeys();
    EntryLinesNested(s.labels);
    PodKeyBlock("  labels:", Map(EntryLine, s.labels));
  }

  lemma AnnotationsBlockShape(s: PodState)
    ensures PodLevel(AnnotationsBlock(s).lines, ["  annotations:"])
  {
    PodKeys();
    EntryLinesNested(s.annotations);
    PodKeyBlock("  annotations:", Map(EntryLine, s.annotations));
  }

  // ---- spec ---------------------------------------------------------------

  lemma SpecBlockShape()
    ensures PodLevel(SpecBlock().lines, [])
  {
    TopLines();
  }

  lemma ServiceAccountBlockShape(s: PodState)
    ensures PodLevel(ServiceAccountBlock(s).lines, ["  serviceAccountName: " + s.serviceAccountName])
  {
    PodKeys();
    PodKeyAfter("  serviceAccountName: ", s.serviceAccountName);
    PodKeyLine("  serviceAccountName: " + s.serviceAccountName);
  }

  lemma RestartPolicyBlockShape(s: PodState)
    ensures PodLevel(RestartPolicyBlock(s).lines, ["  restartPolicy: " + s.restartPolicy])
  {
    PodKeys();
    PodKeyAfter("  restartPolicy: ", s.restartPolicy);
    PodKeyLine("  restartPolicy: " + s.restartPolicy);
  }

  lemma SecurityContextBlockShape(s: PodState)
    ensures PodLevel(SecurityContextBlock(s).lines, ["  securityContext:"])
  {
    var lines := SecurityContextLines(s.podSecurityContext);
    PodKeys();
    SecurityContextNested(s.podSecurityContext);
    PodKeyBlock("  securityContext:", lines[1..]);
    assert lines == [lines[0]] + lines[1..];
  }

  lemma NodeSelectorBlockShape(s: PodState)
    ensures PodLevel(NodeSelectorBlock(s).lines, ["  nodeSelector:"])
  {
    PodKeys();
    EntryLinesNested(s.nodeSelector);
    PodKeyBlock("  nodeSelector:", Map(EntryLine, s.nodeSelector));
  }

  lemma TolerationsBlockShape(s: PodState)
    ensures PodLevel(TolerationsBlock(s).lines, ["  tolerations:"])
  {
    PodKeys();
    TolerationLinesNested(s.tolerations);
    PodKeyBlock("  tolerations:", FlatMap(TolerationLines, s.tolerations));
  }

  lemma VolumesBlockShape(s: PodState)
    ensures PodLevel(VolumesBlock(s).lines, ["  volumes:"])
  {
    PodKeys();
    VolumeLinesNested(s.volumes);
    PodKeyBlock("  volumes:", FlatMap(VolumeLines, s.volumes));
  }

  // ---- the container ------------------------------------------------------

  /** The entry's first line is a list item, so only `image:` is a key. */
  lemma ContainerHeadBlockShape(c: Container)
    ensures ContainerLevel(ContainerHeadBlock(c).lines, ["    image: " + c.image])
  {
    NestedKeys();
    ContainerKeys();
    NestedAfter("  - name: ", c.name);
    ContainerKeyAfter("    image: ", c.image);
    ContainerKeyLine("    image: " + c.image);
    assert ContainerHeadBlock(c).lines == ["  - name: " + c.name] + ["    image: " + c.image];
    FilterConcat(ContainerKey, ["  - name: " + c.name], ["    image: " + c.image]);
  }

  lemma CommandBlockShape(c: Container)
    ensures ContainerLevel(CommandBlock(c).lines, ["    command: " + Bracketed(c.command)])
  {
    ContainerKeys();
    ContainerKeyAfter("    command: ", Bracketed(c.command));
    ContainerKeyLine("    command: " + Bracketed(c.command));
  }

  lemma ArgsBlockShape(c: Container)
    ensures ContainerLevel(ArgsBlock(c).lines, ["    args: " + Bracketed(c.args)])
  {
    ContainerKeys();
    ContainerKeyAfter("    args: ", Bracketed(c.args));
    ContainerKeyLine("    args: " + Bracketed(c.args));
  }

  lemma EnvHeadBlockShape()
    ensures ContainerLevel(EnvHeadBlock().lines, ["    env:"])
  {
    ContainerKeys();
    ContainerKeyLine("    env:");
  }

  lemma EnvVarsBlockShape(c: Container)
    ensures ContainerLevel(EnvVarsBlock(c).lines, [])
  {
    EnvLinesInner(c);
    InnerLines(FlatMap(EnvVarLines, c.env));
  }

  lemma EnvFromBlockShape(c: Container)
    ensures ContainerLevel(EnvFromBlock(c).lines, [])
  {
    EnvLinesInner(c);
    InnerLines(FlatMap(EnvFromLines, c.envFrom));
  }

  lemma HeadThen(h: string, x: seq<string>, y: seq<string>)
    ensures [h] + x + y == [h] + (x + y)
  {
  }

  lemma ResourcesBlockShape(c: Container)
    ensures ContainerLevel(ResourcesBlock(c).lines, ["    resources:"])
  {
    var res := c.resources;
    var sections := QuantitySection("      requests:", res.requests) + QuantitySection("      limits:", res.limits);
    ContainerKeys();
    ResourcesInner(res);
    ContainerKeyBlock("    resources:", sections);
    HeadThen("    resources:", QuantitySection("      requests:", res.requests), QuantitySection("      limits:", res.limits));
  }

  lemma ProbeBlockShape(p: Probe)
    ensures ContainerLevel(ProbeBlock(p).lines, [ProbeHeading(p.name)])
  {
    ProbeHeadingKey(p.name);
    ProbeInner(p);
    ContainerKeyBlock(ProbeHeading(p.name), ProbeActionLines(p) + ProbeTimingLines(p));
    assert ProbeLines(p) == [ProbeHeading(p.name)] + (ProbeActionLines(p) + ProbeTimingLines(p));
  }

  lemma VolumeMountsBlockShape(c: Container)
    ensures ContainerLevel(VolumeMountsBlock(c).lines, ["    volumeMounts:"])
  {
    ContainerKeys();
    EnvLinesInner(c);
    ContainerKeyBlock("    volumeMounts:", FlatMap(VolumeMountLines, c.volumeMounts));
  }
}
