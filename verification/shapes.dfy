/** Where each line of the manifest sits. Every line the renderer writes is
    a fixed prefix followed by form values, so its indentation and first
    key character are fixed by the prefix alone; these tell a pod-level key
    (`  restartPolicy: …`) from a container-level key (`    resources:`) and
    from the lines nested under either. */
module Shapes {
  import opened Seqs
  import opened Numbers
  import opened Pod
  import opened Annotate
  import opened Render

  /** A key directly under `metadata:` or `spec:`: two spaces, then neither a
      space nor a list dash. */
  predicate PodKey(l: string) {
    |l| >= 3 && l[0] == ' ' && l[1] == ' ' && l[2] != ' ' && l[2] != '-'
  }

  /** Deeper than a pod-level key: a list item at two spaces, or anything at
      three or more. */
  predicate Nested(l: string) {
    |l| >= 3 && l[0] == ' ' && l[1] == ' ' && (l[2] == ' ' || l[2] == '-')
  }

  /** A key of the container entry: four spaces, then neither a space nor a
      list dash. */
  predicate ContainerKey(l: string) {
    |l| >= 5 && l[0] == ' ' && l[1] == ' ' && l[2] == ' ' && l[3] == ' ' && l[4] != ' ' && l[4] != '-'
  }

  /** Deeper than a container-level key. */
  predicate Inner(l: string) {
    |l| >= 5 && l[0] == ' ' && l[1] == ' ' && l[2] == ' ' && l[3] == ' ' && (l[4] == ' ' || l[4] == '-')
  }

  /** YAML content, as opposed to an explanatory comment. */
  predicate IsContent(l: string) {
    !IsComment(l)
  }

  predicate AllContent(lines: seq<string>) {
    forall l :: l in lines ==> IsContent(l)
  }

  predicate AllNested(lines: seq<string>) {
    forall l :: l in lines ==> Nested(l)
  }

  predicate AllInner(lines: seq<string>) {
    forall l :: l in lines ==> Inner(l)
  }

  // A line keeps the shape of the prefix it is written from.

  lemma PodKeyAfter(key: string, x: string)
    requires PodKey(key)
    ensures PodKey(key + x)
  {
  }

  lemma NestedAfter(key: string, x: string)
    requires Nested(key)
    ensures Nested(key + x)
  {
  }

  lemma ContainerKeyAfter(key: string, x: string)
    requires ContainerKey(key)
    ensures ContainerKey(key + x)
  {
  }

  lemma InnerAfter(key: string, x: string)
    requires Inner(key)
    ensures Inner(key + x)
  {
  }

  lemma {:induction false} NestedLines(lines: seq<string>)
    requires AllNested(lines)
    ensures AllContent(lines)
    ensures Filter(PodKey, lines) == []
  {
    FilterDropsAll(PodKey, lines);
  }

  lemma {:induction false} InnerLines(lines: seq<string>)
    requires AllInner(lines)
    ensures AllNested(lines)
    ensures Filter(ContainerKey, lines) == []
  {
    FilterDropsAll(ContainerKey, lines);
  }

  /** A pod-level key followed by lines nested under it. */
  lemma {:induction false} PodKeyBlock(head: string, rest: seq<string>)
    requires PodKey(head) && AllNested(rest)
    ensures AllContent([head] + rest)
    ensures Filter(PodKey, [head] + rest) == [head]
  {
    NestedLines(rest);
    FilterConcat(PodKey, [head], rest);
  }

  /** A container-level key followed by lines nested under it. */
  lemma {:induction false} ContainerKeyBlock(head: string, rest: seq<string>)
    requires ContainerKey(head) && AllInner(rest)
    ensures AllNested([head] + rest)
    ensures Filter(ContainerKey, [head] + rest) == [head]
  {
    InnerLines(rest);
    FilterConcat(ContainerKey, [head], rest);
  }

  // The fixed keys, grouped by shape. Reading a literal's first characters
  // is cheap on its own but not next to the number-parsing terms, so each
  // group is established here once and only cited elsewhere.

  /** The lines at column 0 other than the comments. */
  lemma TopLines()
    ensures IsContent("apiVersion: v1") && IsContent("kind: Pod")
    ensures IsContent("metadata:") && IsContent("spec:")
    ensures !PodKey("apiVersion: v1") && !PodKey("kind: Pod")
    ensures !PodKey("metadata:") && !PodKey("spec:")
  {
  }

  lemma PodKeys()
    ensures PodKey("  name: ") && PodKey("  namespace: ") && PodKey("  labels:")
    ensures PodKey("  annotations:") && PodKey("  serviceAccountName: ")
    ensures PodKey("  restartPolicy: ") && PodKey("  securityContext:")
    ensures PodKey("  nodeSelector:") && PodKey("  tolerations:") && PodKey("  volumes:")
  {
  }

  lemma NestedKeys()
    ensures Nested("  - key: ") && Nested("    operator: ") && Nested("    value: ")
    ensures Nested("    effect: ") && Nested("  - name: ") && Nested("    emptyDir: {}")
    ensures Nested("    configMap:") && Nested("    secret:") && Nested("    persistentVolumeClaim:")
    ensures Nested("    runAsUser: ") && Nested("    runAsGroup: ") && Nested("    fsGroup: ")
    ensures Nested("    ")
  {
  }

  lemma ContainerKeys()
    ensures ContainerKey("    image: ") && ContainerKey("    command: ") && ContainerKey("    args: ")
    ensures ContainerKey("    env:") && ContainerKey("    resources:") && ContainerKey("    volumeMounts:")
  {
  }

  /** `    livenessProbe:` and its two siblings are container-level keys. */
  lemma ProbeHeadingKey(name: ProbeName)
    ensures ContainerKey(ProbeHeading(name))
  {
    var t := name.Text();
    assert |t| > 0 && t[0] != ' ' && t[0] != '-';
    ContainerKeyAfter("    " + [t[0]], t[1..] + "Probe:");
    assert ProbeHeading(name) == "    " + [t[0]] + (t[1..] + "Probe:");
  }

  lemma PodKeyContent(l: string)
    requires PodKey(l)
    ensures IsContent(l) && !Nested(l)
  {
  }

  lemma ContainerKeyNested(l: string)
    requires ContainerKey(l)
    ensures Nested(l) && !Inner(l)
  {
  }

  lemma InnerKeys()
    ensures Inner("      name: ") && Inner("      secretName: ") && Inner("      claimName: ")
    ensures Inner("    - name: ") && Inner("      value: ") && Inner("    - envFrom:")
    ensures Inner("      - ") && Inner("          name: ") && Inner("      mountPath: ")
  {
  }

  lemma ResourceKeys()
    ensures Inner("        cpu: ") && Inner("        memory: ")
    ensures Inner("      requests:") && Inner("      limits:")
  {
  }

  lemma ProbeKeys()
    ensures Inner("      httpGet:") && Inner("        path: ") && Inner("        port: ")
    ensures Inner("      tcpSocket:") && Inner("      exec:") && Inner("        command: ")
    ensures Inner("      initialDelaySeconds: ") && Inner("      periodSeconds: ")
    ensures Inner("      timeoutSeconds: ") && Inner("      failureThreshold: ")
  {
  }

  lemma NestedConcat(a: seq<string>, b: seq<string>)
    requires AllNested(a) && AllNested(b)
    ensures AllNested(a + b)
  {
  }

  lemma InnerConcat(a: seq<string>, b: seq<string>)
    requires AllInner(a) && AllInner(b)
    ensures AllInner(a + b)
  {
  }

  lemma IdLineNested(key: string, value: string)
    requires Nested(key)
    ensures AllNested(IdLine(key, value))
  {
    if value != "" {
      NestedAfter(key, IntText(value));
    }
  }

  lemma IdLineInner(key: string, value: string)
    requires Inner(key)
    ensures AllInner(IdLine(key, value))
  {
    if value != "" {
      InnerAfter(key, IntText(value));
    }
  }

  // ---- entries ------------------------------------------------------------

  lemma {:induction false} EntryLinesNested(kvs: seq<KeyValue>)
    ensures AllNested(Map(EntryLine, kvs))
  {
    NestedKeys();
    forall l | l in Map(EntryLine, kvs)
      ensures Nested(l)
    {
      var i :| 0 <= i < |kvs| && Map(EntryLine, kvs)[i] == l;
      NestedAfter("    ", kvs[i].key);
      NestedAfter("    " + kvs[i].key, ": ");
      NestedAfter("    " + kvs[i].key + ": ", kvs[i].value);
    }
  }

  lemma TolerationNested(t: Toleration)
    ensures AllNested(TolerationLines(t))
  {
    NestedKeys();
    NestedAfter("  - key: ", Quoted(t.key));
    NestedAfter("    operator: ", Quoted(t.operator));
    NestedAfter("    value: ", Quoted(t.value));
    NestedAfter("    effect: ", Quoted(t.effect));
  }

  lemma {:induction false} TolerationLinesNested(ts: seq<Toleration>)
    ensures AllNested(FlatMap(TolerationLines, ts))
  {
    forall l | l in FlatMap(TolerationLines, ts)
      ensures Nested(l)
    {
      var t :| t in ts && l in TolerationLines(t);
      TolerationNested(t);
    }
  }

  lemma VolumeNested(v: Volume)
    ensures AllNested(VolumeLines(v))
  {
    NestedKeys();
    InnerKeys();
    NestedAfter("  - name: ", v.name);
    InnerAfter("      name: ", v.sourceName);
    InnerAfter("      secretName: ", v.sourceName);
    InnerAfter("      claimName: ", v.sourceName);
    var r := VolumeLines(v);
    assert r == [r[0]] + VolumeSourceLines(v);
  }

  lemma {:induction false} VolumeLinesNested(vs: seq<Volume>)
    ensures AllNested(FlatMap(VolumeLines, vs))
  {
    forall l | l in FlatMap(VolumeLines, vs)
      ensures Nested(l)
    {
      var v :| v in vs && l in VolumeLines(v);
      VolumeNested(v);
    }
  }

  lemma SecurityContextNested(sc: SecurityContext)
    ensures AllNested(SecurityContextLines(sc)[1..])
  {
    var u := IdLine("    runAsUser: ", sc.runAsUser);
    var g := IdLine("    runAsGroup: ", sc.runAsGroup);
    var f := IdLine("    fsGroup: ", sc.fsGroup);
    NestedKeys();
    IdLineNested("    runAsUser: ", sc.runAsUser);
    IdLineNested("    runAsGroup: ", sc.runAsGroup);
    IdLineNested("    fsGroup: ", sc.fsGroup);
    NestedConcat(u, g);
    NestedConcat(u + g, f);
    DropHead("  securityContext:", u, g, f);
  }

  lemma DropHead(x: string, u: seq<string>, g: seq<string>, f: seq<string>)
    ensures ([x] + u + g + f)[1..] == u + g + f
  {
  }

  lemma EnvVarInner(kv: KeyValue)
    ensures AllInner(EnvVarLines(kv))
  {
    InnerKeys();
    InnerAfter("    - name: ", kv.key);
    InnerAfter("      value: ", Quoted(kv.value));
  }

  lemma EnvFromInner(e: EnvFromSource)
    ensures AllInner(EnvFromLines(e))
  {
    InnerKeys();
    InnerAfter("      - ", e.kind);
    InnerAfter("      - " + e.kind, ":");
    InnerAfter("          name: ", e.name);
  }

  lemma VolumeMountInner(m: VolumeMount)
    ensures AllInner(VolumeMountLines(m))
  {
    InnerKeys();
    InnerAfter("    - name: ", m.name);
    InnerAfter("      mountPath: ", Quoted(m.mountPath));
  }

  lemma EnvLinesInner(c: Container)
    ensures AllInner(FlatMap(EnvVarLines, c.env))
    ensures AllInner(FlatMap(EnvFromLines, c.envFrom))
    ensures AllInner(FlatMap(VolumeMountLines, c.volumeMounts))
  {
    forall l | l in FlatMap(EnvVarLines, c.env)
      ensures Inner(l)
    {
      var kv :| kv in c.env && l in EnvVarLines(kv);
      EnvVarInner(kv);
    }
    forall l | l in FlatMap(EnvFromLines, c.envFrom)
      ensures Inner(l)
    {
      var e :| e in c.envFrom && l in EnvFromLines(e);
      EnvFromInner(e);
    }
    forall l | l in FlatMap(VolumeMountLines, c.volumeMounts)
      ensures Inner(l)
    {
      var m :| m in c.volumeMounts && l in VolumeMountLines(m);
      VolumeMountInner(m);
    }
  }

  lemma QuantityInner(q: Quantities)
    ensures AllInner(QuantityLines(q))
  {
    ResourceKeys();
    InnerAfter("        cpu: ", Quoted(q.cpu));
    InnerAfter("        memory: ", Quoted(q.memory));
  }

  lemma QuantitySectionInner(heading: string, q: Quantities)
    requires Inner(heading)
    ensures AllInner(QuantitySection(heading, q))
  {
    QuantityInner(q);
    InnerConcat([heading], QuantityLines(q));
  }

  /** The lines under `resources:`. */
  lemma ResourcesInner(res: Resources)
    ensures AllInner(QuantitySection("      requests:", res.requests) + QuantitySection("      limits:", res.limits))
  {
    ResourceKeys();
    QuantitySectionInner("      requests:", res.requests);
    QuantitySectionInner("      limits:", res.limits);
    InnerConcat(QuantitySection("      requests:", res.requests), QuantitySection("      limits:", res.limits));
  }

  lemma HttpGetInner(path: string, port: int)
    ensures AllInner(HttpGetLines(path, port))
  {
    ProbeKeys();
    InnerAfter("        path: ", path);
    InnerAfter("        port: ", IntToString(port));
  }

  lemma TcpSocketInner(port: int)
    ensures AllInner(TcpSocketLines(port))
  {
    ProbeKeys();
    InnerAfter("        port: ", IntToString(port));
  }

  lemma ExecInner(command: seq<string>)
    ensures AllInner(ExecLines(command))
  {
    ProbeKeys();
    InnerAfter("        command: ", Bracketed(command));
  }

  lemma ProbeActionInner(p: Probe)
    ensures AllInner(ProbeActionLines(p))
  {
    if p.kind == "httpGet" {
      HttpGetInner(if p.path == "" then "/" else p.path, PortOr80(p.port));
    } else if p.kind == "tcpSocket" {
      TcpSocketInner(PortOr80(p.port));
    } else if p.kind == "exec" && |p.command| > 0 {
      ExecInner(p.command);
    }
  }

  lemma ProbeTimingInner(p: Probe)
    ensures AllInner(ProbeTimingLines(p))
  {
    var a := IdLine("      initialDelaySeconds: ", p.initialDelaySeconds);
    var b := IdLine("      periodSeconds: ", p.periodSeconds);
    var c := IdLine("      timeoutSeconds: ", p.timeoutSeconds);
    var d := IdLine("      failureThreshold: ", p.failureThreshold);
    ProbeKeys();
    IdLineInner("      initialDelaySeconds: ", p.initialDelaySeconds);
    IdLineInner("      periodSeconds: ", p.periodSeconds);
    IdLineInner("      timeoutSeconds: ", p.timeoutSeconds);
    IdLineInner("      failureThreshold: ", p.failureThreshold);
    InnerConcat(a, b);
    InnerConcat(a + b, c);
    InnerConcat(a + b + c, d);
  }

  /** The lines under a probe's heading. */
  lemma ProbeInner(p: Probe)
    ensures AllInner(ProbeActionLines(p) + ProbeTimingLines(p))
  {
    ProbeActionInner(p);
    ProbeTimingInner(p);
    InnerConcat(ProbeActionLines(p), ProbeTimingLines(p));
  }
}
