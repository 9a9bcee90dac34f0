/** `generateYaml`: the pod manifest as a sequence of output lines.

    The source appends to one string, each piece as `"\n" + line`, with a
    `ckadComment` in front of most blocks. Here the manifest is a list of
    blocks; a block is a run of YAML lines, optionally preceded by its
    explanatory comment. The text is the lines joined with newlines, which
    is the same string as the source's accumulation (`AccumulatedText`). */
module Render {
  import opened Seqs
  import opened Text
  import opened Numbers
  import opened Pod
  import opened Annotate

  datatype Block =
    | Plain(lines: seq<string>)
    | Noted(note: string, docKey: string, lines: seq<string>)

  /** The output lines of one block: the comment (annotate mode only), then
      the YAML lines. */
  function BlockLines(annotate: bool, b: Block): seq<string> {
    match b
    case Plain(lines) => lines
    case Noted(note, docKey, lines) => CommentLines(annotate, note, docKey) + lines
  }

  /** Without annotation a block is just its lines. */
  lemma PlainBlock(b: Block)
    ensures BlockLines(false, b) == b.lines
  {
    match b
    case Plain(_) =>
    case Noted(note, docKey, lines) =>
      assert CommentLines(false, note, docKey) == [];
  }

  /** The blocks' lines, in block order. */
  function Emit(annotate: bool, blocks: seq<Block>): seq<string> {
    if |blocks| == 0 then [] else BlockLines(annotate, blocks[0]) + Emit(annotate, blocks[1..])
  }

  lemma {:induction false} EmitConcat(annotate: bool, x: seq<Block>, y: seq<Block>)
    ensures Emit(annotate, x + y) == Emit(annotate, x) + Emit(annotate, y)
  {
    if |x| == 0 {
      assert x + y == y;
    } else {
      assert (x + y)[0] == x[0];
      assert (x + y)[1..] == x[1..] + y;
      EmitConcat(annotate, x[1..], y);
      var h, a, b := BlockLines(annotate, x[0]), Emit(annotate, x[1..]), Emit(annotate, y);
      assert Emit(annotate, x + y) == h + (a + b);
      assert Emit(annotate, x) == h + a;
      LinesAssoc(h, a, b);
    }
  }

  lemma LinesAssoc(h: seq<string>, a: seq<string>, b: seq<string>)
    ensures h + (a + b) == (h + a) + b
  {
  }

  // ---- single lines -------------------------------------------------------

  /** A `"…"`-quoted scalar; the value is interpolated as is, with no escaping. */
  function Quoted(x: string): (r: string)
    ensures |r| == |x| + 2 && r[0] == '"' && r[|r| - 1] == '"' && r[1..|r| - 1] == x
  {
    "\"" + x + "\""
  }

  /** A flow sequence of quoted strings: `["a", "b"]`. */
  function Bracketed(items: seq<string>): (r: string)
    ensures |r| >= 2 && r[0] == '[' && r[|r| - 1] == ']'
    ensures |items| == 0 <==> r == "[]"
    ensures |items| == 1 ==> r == "[" + Quoted(items[0]) + "]"
  {
    var inner := Join(Map(Quoted, items), ", ");
    assert |items| > 0 ==> |inner| >= 2 by {
      if |items| > 0 {
        JoinIsAccumulation(Map(Quoted, items), ", ");
      }
    }
    "[" + inner + "]"
  }

  /** One entry of a labels, annotations or nodeSelector mapping. */
  function EntryLine(kv: KeyValue): string {
    "    " + kv.key + ": " + kv.value
  }

  // ---- list entries -------------------------------------------------------

  /** One toleration: quoted key, operator, the value only for `Equal`, and
      the effect, in that order. */
  function TolerationLines(t: Toleration): (r: seq<string>)
    ensures |r| >= 3 && r[0] == "  - key: " + Quoted(t.key)
    ensures r[1] == "    operator: " + Quoted(t.operator)
    ensures r[|r| - 1] == "    effect: " + Quoted(t.effect)
    ensures |r| == (if t.operator == "Equal" then 4 else 3)
    ensures t.operator == "Equal" ==> r[2] == "    value: " + Quoted(t.value)
  {
    ["  - key: " + Quoted(t.key), "    operator: " + Quoted(t.operator)]
    + (if t.operator == "Equal" then ["    value: " + Quoted(t.value)] else [])
    + ["    effect: " + Quoted(t.effect)]
  }

  /** The source block of a volume, chosen by its type; none for a type the
      generator does not know. */
  function VolumeSourceLines(v: Volume): (r: seq<string>)
    ensures |r| <= 2
    ensures v.kind == "emptyDir" ==> r == ["    emptyDir: {}"]
    ensures v.kind == "configMap" ==> r == ["    configMap:", "      name: " + v.sourceName]
    ensures v.kind == "secret" ==> r == ["    secret:", "      secretName: " + v.sourceName]
    ensures v.kind == "persistentVolumeClaim" ==>
              r == ["    persistentVolumeClaim:", "      claimName: " + v.sourceName]
    ensures v.kind !in {"emptyDir", "configMap", "secret", "persistentVolumeClaim"} ==> r == []
  {
    (if v.kind == "emptyDir" then ["    emptyDir: {}"] else [])
    + (if v.kind == "configMap" then ["    configMap:", "      name: " + v.sourceName] else [])
    + (if v.kind == "secret" then ["    secret:", "      secretName: " + v.sourceName] else [])
    + (if v.kind == "persistentVolumeClaim"
       then ["    persistentVolumeClaim:", "      claimName: " + v.sourceName] else [])
  }

  function VolumeLines(v: Volume): (r: seq<string>)
    ensures |r| >= 1 && r[0] == "  - name: " + v.name && r[1..] == VolumeSourceLines(v)
  {
    ["  - name: " + v.name] + VolumeSourceLines(v)
  }

  function EnvVarLines(kv: KeyValue): seq<string> {
    ["    - name: " + kv.key, "      value: " + Quoted(kv.value)]
  }

  /** An envFrom source, emitted as an item of the `env:` list. */
  function EnvFromLines(e: EnvFromSource): seq<string> {
    ["    - envFrom:", "      - " + e.kind + ":", "          name: " + e.name]
  }

  function VolumeMountLines(m: VolumeMount): seq<string> {
    ["    - name: " + m.name, "      mountPath: " + Quoted(m.mountPath)]
  }

  // ---- guarded blocks -----------------------------------------------------

  /** `Object.values(sc).some(Boolean)` */
  predicate AnyIdSet(sc: SecurityContext) {
    sc.runAsUser != "" || sc.runAsGroup != "" || sc.fsGroup != ""
  }

  predicate AnyQuantitySet(q: Quantities) {
    q.cpu != "" || q.memory != ""
  }

  predicate AnyResourceSet(r: Resources) {
    AnyQuantitySet(r.requests) || AnyQuantitySet(r.limits)
  }

  /** A line `<key>: <parseInt(value)>` when the value is set: the text
      after the key is `NaN` exactly when the value does not parse, and
      otherwise parses back to the value's number. */
  function IdLine(key: string, value: string): (r: seq<string>)
    ensures |r| == (if value == "" then 0 else 1)
    ensures value != "" ==> StartsWith(r[0], key)
    ensures value != "" ==> (r[0][|key|..] == "NaN" <==> ParseInt(value).None?)
    ensures value != "" && ParseInt(value).Some? ==> ParseInt(r[0][|key|..]) == ParseInt(value)
  {
    if value != "" then
      IntTextReparses(value);
      StartsWithConcat(key, IntText(value));
      assert (key + IntText(value))[|key|..] == IntText(value);
      [key + IntText(value)]
    else []
  }

  function SecurityContextLines(sc: SecurityContext): (r: seq<string>)
    ensures |r| >= 1 && r[0] == "  securityContext:"
  {
    ["  securityContext:"]
    + IdLine("    runAsUser: ", sc.runAsUser)
    + IdLine("    runAsGroup: ", sc.runAsGroup)
    + IdLine("    fsGroup: ", sc.fsGroup)
  }

  /** One line per set field, under the heading: each id line is written
      exactly when its field is set. */
  lemma SecurityContextFields(sc: SecurityContext)
    ensures ("    runAsUser: " + IntText(sc.runAsUser)) in SecurityContextLines(sc) <==> sc.runAsUser != ""
    ensures ("    runAsGroup: " + IntText(sc.runAsGroup)) in SecurityContextLines(sc) <==> sc.runAsGroup != ""
    ensures ("    fsGroup: " + IntText(sc.fsGroup)) in SecurityContextLines(sc) <==> sc.fsGroup != ""
    ensures |SecurityContextLines(sc)|
         == 1 + (if sc.runAsUser != "" then 1 else 0) + (if sc.runAsGroup != "" then 1 else 0)
              + (if sc.fsGroup != "" then 1 else 0)
  {
    IdKeysApart(IntText(sc.runAsUser), IntText(sc.runAsGroup), IntText(sc.fsGroup));
    OptionalLines("  securityContext:",
      "    runAsUser: " + IntText(sc.runAsUser),
      "    runAsGroup: " + IntText(sc.runAsGroup),
      "    fsGroup: " + IntText(sc.fsGroup),
      sc.runAsUser != "", sc.runAsGroup != "", sc.fsGroup != "");
  }

  /** The heading and the three id lines are pairwise different, whatever
      the printed values. */
  lemma IdKeysApart(vu: string, vg: string, vf: string)
    ensures var h, u, g, f := "  securityContext:", "    runAsUser: " + vu,
                              "    runAsGroup: " + vg, "    fsGroup: " + vf;
            h != u && h != g && h != f && u != g && u != f && g != f
  {
    var u, g, f := "    runAsUser: " + vu, "    runAsGroup: " + vg, "    fsGroup: " + vf;
    KeyChar("    runAsUser: ", vu, 4);
    KeyChar("    runAsUser: ", vu, 9);
    KeyChar("    runAsGroup: ", vg, 4);
    KeyChar("    runAsGroup: ", vg, 9);
    KeyChar("    fsGroup: ", vf, 4);
    assert u[2] == ' ' && g[2] == ' ' && f[2] == ' ';
    assert u[4] == 'r' && u[9] == 'U' && g[4] == 'r' && g[9] == 'G' && f[4] == 'f';
  }

  lemma KeyChar(key: string, value: string, i: nat)
    requires i < |key|
    ensures (key + value)[i] == key[i]
  {
  }

  /** A heading followed by up to three distinct optional lines holds each
      optional line exactly when it is switched on. */
  lemma OptionalLines(h: string, x: string, y: string, z: string, a: bool, b: bool, c: bool)
    requires h != x && h != y && h != z && x != y && x != z && y != z
    ensures var r := [h] + (if a then [x] else []) + (if b then [y] else []) + (if c then [z] else []);
            && (x in r <==> a) && (y in r <==> b) && (z in r <==> c)
            && |r| == 1 + (if a then 1 else 0) + (if b then 1 else 0) + (if c then 1 else 0)
  {
  }

  function QuantityLines(q: Quantities): seq<string> {
    (if q.cpu != "" then ["        cpu: " + Quoted(q.cpu)] else [])
    + (if q.memory != "" then ["        memory: " + Quoted(q.memory)] else [])
  }

  /** Each quantity line is written exactly when its quantity is set. */
  lemma QuantityPresence(q: Quantities)
    ensures ("        cpu: " + Quoted(q.cpu)) in QuantityLines(q) <==> q.cpu != ""
    ensures ("        memory: " + Quoted(q.memory)) in QuantityLines(q) <==> q.memory != ""
    ensures |QuantityLines(q)| == 0 <==> !AnyQuantitySet(q)
  {
    assert ("        cpu: " + Quoted(q.cpu))[8] != ("        memory: " + Quoted(q.memory))[8];
  }

  /** Quantity lines are indented by eight spaces. */
  lemma QuantityIndent(q: Quantities)
    ensures forall l :: l in QuantityLines(q) ==> |l| > 6 && l[6] == ' '
  {
    assert ("        cpu: " + Quoted(q.cpu))[6] == ' ';
    assert ("        memory: " + Quoted(q.memory))[6] == ' ';
  }

  /** `requests:` or `limits:` with its quantities, only when one of its own
      two quantities is set. */
  function QuantitySection(heading: string, q: Quantities): seq<string> {
    if AnyQuantitySet(q) then [heading] + QuantityLines(q) else []
  }

  /** `resources:`, then the requests and the limits sections. */
  function ResourcesLines(res: Resources): seq<string> {
    ["    resources:"]
    + QuantitySection("      requests:", res.requests)
    + QuantitySection("      limits:", res.limits)
  }

  /** A section's heading is among its lines exactly when the section is
      written, and no other heading is. */
  lemma SectionHeading(heading: string, other: string, q: Quantities)
    requires |heading| > 6 && heading[6] != ' ' && other != heading
    ensures heading in QuantitySection(heading, q) <==> AnyQuantitySet(q)
    ensures other !in QuantitySection(heading, q) || other[6] == ' '
  {
    QuantityIndent(q);
  }

  /** `requests:` is written exactly when a request is set, and `limits:`
      exactly when a limit is set. */
  lemma ResourcesGuards(res: Resources)
    ensures "      requests:" in ResourcesLines(res) <==> AnyQuantitySet(res.requests)
    ensures "      limits:" in ResourcesLines(res) <==> AnyQuantitySet(res.limits)
  {
    var r, l := "      requests:", "      limits:";
    assert r[6] == 'r' && l[6] == 'l' && |r| > 6 && |l| > 6 && r != l;
    assert r != "    resources:" && l != "    resources:";
    SectionHeading(r, l, res.requests);
    SectionHeading(l, r, res.limits);
  }

  function HttpGetLines(path: string, port: int): seq<string> {
    ["      httpGet:", "        path: " + path, "        port: " + IntToString(port)]
  }

  function TcpSocketLines(port: int): seq<string> {
    ["      tcpSocket:", "        port: " + IntToString(port)]
  }

  function ExecLines(command: seq<string>): seq<string> {
    ["      exec:", "        command: " + Bracketed(command)]
  }

  /** The handler lines of a probe: `httpGet` with the path (default `/`) and
      port, `tcpSocket` with the port, `exec` only with a non-empty command. */
  function ProbeActionLines(p: Probe): seq<string>
  {
    if p.kind == "httpGet" then HttpGetLines(if p.path == "" then "/" else p.path, PortOr80(p.port))
    else if p.kind == "tcpSocket" then TcpSocketLines(PortOr80(p.port))
    else if p.kind == "exec" && |p.command| > 0 then ExecLines(p.command)
    else []
  }

  function ProbeTimingLines(p: Probe): seq<string> {
    IdLine("      initialDelaySeconds: ", p.initialDelaySeconds)
    + IdLine("      periodSeconds: ", p.periodSeconds)
    + IdLine("      timeoutSeconds: ", p.timeoutSeconds)
    + IdLine("      failureThreshold: ", p.failureThreshold)
  }

  function ProbeHeading(name: ProbeName): string {
    "    " + name.Text() + "Probe:"
  }

  function ProbeLines(p: Probe): (r: seq<string>)
    ensures |r| >= 1 && r[0] == ProbeHeading(p.name)
  {
    [ProbeHeading(p.name)] + ProbeActionLines(p) + ProbeTimingLines(p)
  }

  function ProbeBlock(p: Probe): Block {
    Noted(p.name.Text() + ProbeNoteSuffix, "probes", ProbeLines(p))
  }

  // ---- the manifest -------------------------------------------------------

  /** The block when its guard holds, nothing otherwise. */
  function Guarded(guard: bool, b: Block): seq<Block> {
    if guard then [b] else []
  }

  function NameBlock(s: PodState): Block {
    Noted(MetadataNote, "metadata", ["metadata:", "  name: " + s.podName])
  }

  function NamespaceBlock(s: PodState): Block {
    Plain(["  namespace: " + s.namespace])
  }

  function LabelsBlock(s: PodState): Block {
    Noted(LabelsNote, "labels", ["  labels:"] + Map(EntryLine, s.labels))
  }

  function AnnotationsBlock(s: PodState): Block {
    Noted(AnnotationsNote, "annotations", ["  annotations:"] + Map(EntryLine, s.annotations))
  }

  /** `metadata:` with the name, the namespace when set, then labels and
      annotations when there are any. */
  function MetadataBlocks(s: PodState): seq<Block> {
    [NameBlock(s)]
    + Guarded(s.namespace != "", NamespaceBlock(s))
    + Guarded(|s.labels| > 0, LabelsBlock(s))
    + Guarded(|s.annotations| > 0, AnnotationsBlock(s))
  }

  function SpecBlock(): Block {
    Noted(SpecNote, "spec", ["spec:"])
  }

  function ServiceAccountBlock(s: PodState): Block {
    Noted(ServiceAccountNote, "serviceAccountName", ["  serviceAccountName: " + s.serviceAccountName])
  }

  function RestartPolicyBlock(s: PodState): Block {
    Noted(RestartPolicyNote, "restartPolicy", ["  restartPolicy: " + s.restartPolicy])
  }

  function SecurityContextBlock(s: PodState): Block {
    Noted(SecurityContextNote, "securityContext", SecurityContextLines(s.podSecurityContext))
  }

  function NodeSelectorBlock(s: PodState): Block {
    Noted(NodeSelectorNote, "nodeSelector", ["  nodeSelector:"] + Map(EntryLine, s.nodeSelector))
  }

  function TolerationsBlock(s: PodState): Block {
    Noted(TolerationsNote, "tolerations", ["  tolerations:"] + FlatMap(TolerationLines, s.tolerations))
  }

  function VolumesBlock(s: PodState): Block {
    Noted(VolumesNote, "volumes", ["  volumes:"] + FlatMap(VolumeLines, s.volumes))
  }

  /** `spec:` and the pod-level fields, each under its own guard. */
  function SpecBlocks(s: PodState): seq<Block> {
    [SpecBlock()]
    + Guarded(s.serviceAccountName != "", ServiceAccountBlock(s))
    + Guarded(s.restartPolicy != "Always", RestartPolicyBlock(s))
    + Guarded(AnyIdSet(s.podSecurityContext), SecurityContextBlock(s))
    + Guarded(|s.nodeSelector| > 0, NodeSelectorBlock(s))
    + Guarded(|s.tolerations| > 0, TolerationsBlock(s))
    + Guarded(|s.volumes| > 0, VolumesBlock(s))
  }

  /** The container entry's first lines. No `containers:` key precedes it. */
  function ContainerHeadBlock(c: Container): Block {
    Noted(ContainersNote, "containers", ["  - name: " + c.name, "    image: " + c.image])
  }

  function CommandBlock(c: Container): Block {
    Noted(CommandNote, "command", ["    command: " + Bracketed(c.command)])
  }

  /** The args comment reuses the `command` documentation topic. */
  function ArgsBlock(c: Container): Block {
    Noted(ArgsNote, "command", ["    args: " + Bracketed(c.args)])
  }

  /** `env:` is written before either comment. */
  function EnvHeadBlock(): Block {
    Plain(["    env:"])
  }

  function EnvVarsBlock(c: Container): Block {
    Noted(EnvNote, "env", FlatMap(EnvVarLines, c.env))
  }

  /** envFrom sources become items of the `env:` list. */
  function EnvFromBlock(c: Container): Block {
    Noted(EnvFromNote, "envFrom", FlatMap(EnvFromLines, c.envFrom))
  }

  function ResourcesBlock(c: Container): Block {
    Noted(ResourcesNote, "resources", ResourcesLines(c.resources))
  }

  function VolumeMountsBlock(c: Container): Block {
    Noted(VolumeMountsNote, "volumeMounts", ["    volumeMounts:"] + FlatMap(VolumeMountLines, c.volumeMounts))
  }

  /** The single container entry, in the source's order of blocks. */
  function ContainerBlocks(c: Container): seq<Block> {
    [ContainerHeadBlock(c)]
    + Guarded(|c.command| > 0, CommandBlock(c))
    + Guarded(|c.args| > 0, ArgsBlock(c))
    + Guarded(|c.env| > 0 || |c.envFrom| > 0, EnvHeadBlock())
    + Guarded(|c.env| > 0, EnvVarsBlock(c))
    + Guarded(|c.envFrom| > 0, EnvFromBlock(c))
    + Guarded(AnyResourceSet(c.resources), ResourcesBlock(c))
    + Map(ProbeBlock, c.probes)
    + Guarded(|c.volumeMounts| > 0, VolumeMountsBlock(c))
  }

  /** Everything after the `apiVersion` and `kind` lines. */
  function Blocks(s: PodState): seq<Block> {
    MetadataBlocks(s) + SpecBlocks(s) + ContainerBlocks(s.container)
  }

  const HeaderLines: seq<string> := ["apiVersion: v1", "kind: Pod"]

  /** The manifest's lines, with or without the explanatory comments. */
  function RenderLines(s: PodState, annotate: bool): seq<string> {
    HeaderLines + Emit(annotate, Blocks(s))
  }

  /** `generateYaml()`'s output text. */
  function GenerateYaml(s: PodState, annotate: bool): string {
    Join(RenderLines(s, annotate), "\n")
  }

  /** The text splits back into the manifest's lines at its newlines, as
      long as no line holds a newline of its own (values are not escaped). */
  lemma YamlLines(s: PodState, annotate: bool)
    requires forall l :: l in RenderLines(s, annotate) ==> '\n' !in l
    ensures Split(GenerateYaml(s, annotate), '\n') == RenderLines(s, annotate)
  {
    LinesOfText(HeaderLines, Emit(annotate, Blocks(s)));
  }

  lemma LinesOfText(head: seq<string>, body: seq<string>)
    requires |head| > 0 && forall l :: l in head + body ==> '\n' !in l
    ensures Split(Join(head + body, "\n"), '\n') == head + body
  {
    var lines := head + body;
    forall i | 0 <= i < |lines|
      ensures '\n' !in lines[i]
    {
      assert lines[i] in lines;
    }
    SplitJoin(lines, '\n');
  }

  /** The deploy command shown under the output. */
  function ApplyCommand(podName: string): (r: string)
    ensures StartsWith(r, "kubectl apply -f ")
    ensures |r| == |podName| + 22
    ensures r[17..|r| - 5] == podName && r[|r| - 5..] == ".yaml"
  {
    "kubectl apply -f " + podName + ".yaml"
  }
}
