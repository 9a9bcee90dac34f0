/** What the generated manifest promises about the form's fields, stated
    for the whole output in either mode: how it opens, which optional
    pod-level keys it carries, and which container-level keys. */
module Fields {
  import opened Seqs
  import opened Text
  import opened Numbers
  import opened Pod
  import opened Render
  import opened Shapes
  import opened Outline
  import opened Neutrality
  import opened Presence
  import opened Items
  import Collect

  // ---- opening lines ------------------------------------------------------

  lemma FirstBlockLines(annotate: bool, bs: seq<Block>)
    requires |bs| > 0
    ensures Emit(annotate, bs) == BlockLines(annotate, bs[0]) + Emit(annotate, bs[1..])
  {
  }

  lemma PrefixOfFour(h: seq<string>, m: seq<string>, x: seq<string>, y: seq<string>)
    requires |h| == 2 && |m| >= 2
    ensures (h + m + x + y)[..4] == h + m[..2]
  {
  }

  lemma JoinTwo(lines: seq<string>, sep: string)
    requires |lines| >= 3
    ensures Join(lines, sep) == lines[0] + sep + (lines[1] + sep + Join(lines[2..], sep))
  {
    assert lines[1..][0] == lines[1] && lines[1..][1..] == lines[2..];
  }

  lemma Regroup(a: string, b: string, rest: string)
    ensures a + "\n" + (b + "\n" + rest) == (a + "\n" + b + "\n") + rest
  {
  }

  /** A text of three or more lines starts with its first two lines, each
      followed by a newline. */
  lemma TextStart(lines: seq<string>)
    requires |lines| >= 3
    ensures StartsWith(Join(lines, "\n"), lines[0] + "\n" + lines[1] + "\n")
  {
    var rest := Join(lines[2..], "\n");
    JoinTwo(lines, "\n");
    Regroup(lines[0], lines[1], rest);
    StartsWithConcat(lines[0] + "\n" + lines[1] + "\n", rest);
  }

  /** The plain manifest opens with the API version, the kind, `metadata:`
      and the pod's name. */
  lemma PlainOpening(s: PodState)
    ensures |RenderLines(s, false)| >= 4
    ensures RenderLines(s, false)[..4] == ["apiVersion: v1", "kind: Pod", "metadata:", "  name: " + s.podName]
  {
    var m := MetadataBlocks(s);
    Sections(s, false);
    FirstBlockLines(false, m);
    PlainBlock(NameBlock(s));
    PrefixOfFour(HeaderLines, Emit(false, m), Emit(false, SpecBlocks(s)), Emit(false, ContainerBlocks(s.container)));
    assert Emit(false, m)[..2] == NameBlock(s).lines;
  }

  /** Once comments are removed, the manifest opens the same way in either
      mode. */
  lemma ContentOpening(s: PodState, annotate: bool)
    ensures |Filter(IsContent, RenderLines(s, annotate))| >= 4
    ensures Filter(IsContent, RenderLines(s, annotate))[..4]
         == ["apiVersion: v1", "kind: Pod", "metadata:", "  name: " + s.podName]
  {
    PlainOpening(s);
    if annotate {
      ManifestNeutral(s);
    } else {
      PlainLevel(s);
      FilterKeepsAll(IsContent, RenderLines(s, false));
    }
  }

  /** In either mode the output's first lines are the API version and the
      kind; no comment precedes them. */
  lemma HeaderOpening(s: PodState, annotate: bool)
    ensures |RenderLines(s, annotate)| >= 4
    ensures RenderLines(s, annotate)[..2] == ["apiVersion: v1", "kind: Pod"]
  {
    ContentOpening(s, annotate);
  }

  lemma HeaderText(lines: seq<string>)
    requires |lines| >= 3 && lines[..2] == ["apiVersion: v1", "kind: Pod"]
    ensures StartsWith(Join(lines, "\n"), "apiVersion: v1\nkind: Pod\n")
  {
    assert lines[0] == "apiVersion: v1" && lines[1] == "kind: Pod";
    TextStart(lines);
    HeaderString();
  }

  lemma HeaderString()
    ensures "apiVersion: v1" + "\n" + "kind: Pod" + "\n" == "apiVersion: v1\nkind: Pod\n"
  {
  }

  /** The output text starts with `apiVersion: v1`, a newline, `kind: Pod`
      and a newline. */
  lemma TextOpening(s: PodState, annotate: bool)
    ensures StartsWith(GenerateYaml(s, annotate), "apiVersion: v1\nkind: Pod\n")
  {
    HeaderOpening(s, annotate);
    HeaderText(RenderLines(s, annotate));
  }

  // ---- optional pod-level fields -----------------------------------------

  lemma ManifestKeys(s: PodState, annotate: bool)
    ensures KeysOf(RenderLines(s, annotate), PodOutline(s))
  {
    PodOutlineOf(s, annotate);
    FilterKeys(RenderLines(s, annotate), PodOutline(s));
  }

  /** `if (state.namespace) yaml += ...`: the namespace line is written
      exactly when the namespace is non-empty. */
  lemma NamespacePresence(s: PodState, annotate: bool)
    ensures HasKey(RenderLines(s, annotate), "  namespace:") <==> s.namespace != ""
    ensures ("  namespace: " + s.namespace in RenderLines(s, annotate)) <==> s.namespace != ""
  {
    ManifestKeys(s, annotate);
    NamespaceKey(RenderLines(s, annotate), s);
  }

  lemma ServiceAccountPresence(s: PodState, annotate: bool)
    ensures HasKey(RenderLines(s, annotate), "  serviceAccountName:") <==> s.serviceAccountName != ""
    ensures ("  serviceAccountName: " + s.serviceAccountName in RenderLines(s, annotate))
        <==> s.serviceAccountName != ""
  {
    ManifestKeys(s, annotate);
    ServiceAccountKey(RenderLines(s, annotate), s);
  }

  /** The restart policy is written only when it differs from the
      Kubernetes default `Always`. */
  lemma RestartPolicyPresence(s: PodState, annotate: bool)
    ensures HasKey(RenderLines(s, annotate), "  restartPolicy:") <==> s.restartPolicy != "Always"
    ensures ("  restartPolicy: " + s.restartPolicy in RenderLines(s, annotate))
        <==> s.restartPolicy != "Always"
  {
    ManifestKeys(s, annotate);
    RestartPolicyKey(RenderLines(s, annotate), s);
  }

  /** The pod security context is written when at least one of its ids is
      set. */
  lemma SecurityContextPresence(s: PodState, annotate: bool)
    ensures HasKey(RenderLines(s, annotate), "  securityContext:") <==> AnyIdSet(s.podSecurityContext)
  {
    ManifestKeys(s, annotate);
    SecurityContextKey(RenderLines(s, annotate), s);
  }

  /** The container entry is not introduced by a `containers:` key. */
  lemma NoContainersHeading(s: PodState, annotate: bool)
    ensures !HasKey(RenderLines(s, annotate), "  containers:")
  {
    ManifestKeys(s, annotate);
    NoContainersKey(RenderLines(s, annotate), s);
  }

  // ---- container-level keys -----------------------------------------------

  /** The container outline's entries, one of seven kinds. */
  lemma ContainerCases(c: Container, l: string)
    ensures l in ContainerOutline(c) ==>
            || l == "    image: " + c.image
            || (|c.command| > 0 && l == "    command: " + Bracketed(c.command))
            || (|c.args| > 0 && l == "    args: " + Bracketed(c.args))
            || ((|c.env| > 0 || |c.envFrom| > 0) && l == "    env:")
            || (AnyResourceSet(c.resources) && l == "    resources:")
            || l in Map(ProbeHeadingOf, c.probes)
            || (|c.volumeMounts| > 0 && l == "    volumeMounts:")
  {
  }

  /** A probe heading is told apart from the other keys by its fifth
      character, and by its seventh from `resources:`. */
  lemma ProbeHeadingChars(n: ProbeName)
    ensures |ProbeHeading(n)| > 6
    ensures ProbeHeading(n)[4] == n.Text()[0]
    ensures n.Text()[0] in {'l', 'r', 's'}
    ensures n.Text()[0] == 'r' ==> ProbeHeading(n)[6] == 'a'
  {
  }

  lemma ProbeHeadingInjective(m: ProbeName, n: ProbeName)
    ensures ProbeHeading(m) == ProbeHeading(n) ==> m == n
  {
    ProbeHeadingChars(m);
    ProbeHeadingChars(n);
  }

  lemma InSeven<T>(x: T, a: seq<T>, b: seq<T>, c: seq<T>, d: seq<T>, e: seq<T>, f: seq<T>, g: seq<T>)
    ensures x in a + b + c + d + e + f + g
        <==> x in a || x in b || x in c || x in d || x in e || x in f || x in g
  {
  }

  /** A line whose fifth and seventh characters mark it as a probe heading
      is in the container outline only as a probe heading. */
  lemma ProbeLike(c: Container, h: string)
    requires |h| > 6 && (h[4] == 'l' || h[4] == 's' || (h[4] == 'r' && h[6] == 'a'))
    ensures h in ContainerOutline(c) ==> h in Map(ProbeHeadingOf, c.probes)
  {
    ContainerCases(c, h);
  }

  /** A probe heading in the container outline comes from the probes. */
  lemma ProbeHeadingOnly(c: Container, n: ProbeName)
    ensures ProbeHeading(n) in ContainerOutline(c) <==> ProbeHeading(n) in Map(ProbeHeadingOf, c.probes)
  {
    ProbeHeadingChars(n);
    ProbeLike(c, ProbeHeading(n));
    InSeven(ProbeHeading(n), ["    image: " + c.image],
      When(|c.command| > 0, ["    command: " + Bracketed(c.command)]),
      When(|c.args| > 0, ["    args: " + Bracketed(c.args)]),
      When(|c.env| > 0 || |c.envFrom| > 0, ["    env:"]),
      When(AnyResourceSet(c.resources), ["    resources:"]),
      Map(ProbeHeadingOf, c.probes),
      When(|c.volumeMounts| > 0, ["    volumeMounts:"]));
  }

  lemma HeadingsOf(ps: seq<Probe>, n: ProbeName)
    ensures ProbeHeading(n) in Map(ProbeHeadingOf, ps) <==> exists p :: p in ps && p.name == n
  {
    var hs := Map(ProbeHeadingOf, ps);
    if ProbeHeading(n) in hs {
      var i :| 0 <= i < |hs| && hs[i] == ProbeHeading(n);
      ProbeHeadingInjective(ps[i].name, n);
      assert ps[i] in ps;
    }
    if exists p :: p in ps && p.name == n {
      var p :| p in ps && p.name == n;
      var i :| 0 <= i < |ps| && ps[i] == p;
      assert hs[i] == ProbeHeading(n);
    }
  }

  /** In either mode the container entry has a heading for a probe exactly
      when the state holds a probe of that name. */
  lemma ProbePresence(c: Container, annotate: bool, n: ProbeName)
    ensures ProbeHeading(n) in Emit(annotate, ContainerBlocks(c)) <==> exists p :: p in c.probes && p.name == n
  {
    ContainerOutlineOf(c, annotate);
    ProbeHeadingKey(n);
    ProbeHeadingOnly(c, n);
    HeadingsOf(c.probes, n);
  }

  lemma ResourcesLike(c: Container, h: string)
    requires |h| > 6 && h[4] == 'r' && h[6] == 's'
    ensures h in ContainerOutline(c) ==>
            (AnyResourceSet(c.resources) && h == "    resources:") || h in Map(ProbeHeadingOf, c.probes)
  {
    ContainerCases(c, h);
  }

  lemma ResourcesOnly(c: Container)
    ensures "    resources:" in ContainerOutline(c) <==> AnyResourceSet(c.resources)
  {
    var h := "    resources:";
    assert |h| > 6 && h[4] == 'r' && h[6] == 's';
    ResourcesLike(c, h);
    ResourcesNotHeading(c);
    assert AnyResourceSet(c.resources) ==> h in When(AnyResourceSet(c.resources), [h]);
    InSeven("    resources:", ["    image: " + c.image],
      When(|c.command| > 0, ["    command: " + Bracketed(c.command)]),
      When(|c.args| > 0, ["    args: " + Bracketed(c.args)]),
      When(|c.env| > 0 || |c.envFrom| > 0, ["    env:"]),
      When(AnyResourceSet(c.resources), ["    resources:"]),
      Map(ProbeHeadingOf, c.probes),
      When(|c.volumeMounts| > 0, ["    volumeMounts:"]));
  }

  /** `resources:` is written exactly when some quantity is set. */
  lemma ResourcesPresence(c: Container, annotate: bool)
    ensures "    resources:" in Emit(annotate, ContainerBlocks(c)) <==> AnyResourceSet(c.resources)
  {
    ContainerOutlineOf(c, annotate);
    ContainerKeys();
    ResourcesOnly(c);
  }

  lemma ResourcesNotHeading(c: Container)
    ensures "    resources:" !in Map(ProbeHeadingOf, c.probes)
  {
    forall n: ProbeName
      ensures ProbeHeading(n) != "    resources:"
    {
      ProbeHeadingChars(n);
    }
  }

  /** Probe headings start with `l`, `r` or `s` after the indentation. */
  lemma HeadingsStart(ps: seq<Probe>)
    ensures forall l :: l in Map(ProbeHeadingOf, ps) ==> |l| > 4 && l[4] != 'e'
  {
    forall l | l in Map(ProbeHeadingOf, ps)
      ensures |l| > 4 && l[4] != 'e'
    {
      var i :| 0 <= i < |ps| && Map(ProbeHeadingOf, ps)[i] == l;
      ProbeHeadingChars(ps[i].name);
    }
  }

  /** A container-level line whose fifth character is `e` can only be the
      `env:` heading. */
  lemma EnvLike(c: Container, h: string)
    requires |h| > 4 && h[4] == 'e'
    ensures h in ContainerOutline(c) ==> (|c.env| > 0 || |c.envFrom| > 0) && h == "    env:"
  {
    ContainerCases(c, h);
    HeadingsStart(c.probes);
    var i, m, a, r, v := "    image: " + c.image, "    command: " + Bracketed(c.command),
                         "    args: " + Bracketed(c.args), "    resources:", "    volumeMounts:";
    KeyChar("    image: ", c.image, 4);
    KeyChar("    command: ", Bracketed(c.command), 4);
    KeyChar("    args: ", Bracketed(c.args), 4);
    assert i[4] == 'i' && m[4] == 'c' && a[4] == 'a' && r[4] == 'r' && v[4] == 'v';
  }

  lemma EnvOnly(c: Container)
    ensures "    env:" in ContainerOutline(c) <==> |c.env| > 0 || |c.envFrom| > 0
  {
    var h := "    env:";
    assert |h| > 4 && h[4] == 'e';
    EnvLike(c, h);
    assert (|c.env| > 0 || |c.envFrom| > 0) ==> h in When(|c.env| > 0 || |c.envFrom| > 0, [h]);
    InSeven(h, ["    image: " + c.image],
      When(|c.command| > 0, ["    command: " + Bracketed(c.command)]),
      When(|c.args| > 0, ["    args: " + Bracketed(c.args)]),
      When(|c.env| > 0 || |c.envFrom| > 0, [h]),
      When(AnyResourceSet(c.resources), ["    resources:"]),
      Map(ProbeHeadingOf, c.probes),
      When(|c.volumeMounts| > 0, ["    volumeMounts:"]));
  }

  /** `env:` is written exactly when there are environment variables or
      envFrom sources: the sources are items of the `env:` list. */
  lemma EnvPresence(c: Container, annotate: bool)
    ensures "    env:" in Emit(annotate, ContainerBlocks(c)) <==> |c.env| > 0 || |c.envFrom| > 0
  {
    ContainerOutlineOf(c, annotate);
    ContainerKeys();
    EnvOnly(c);
  }

  /** The container entry has no `envFrom:` key of its own. */
  lemma NoEnvFromKey(c: Container, annotate: bool)
    ensures "    envFrom:" !in Emit(annotate, ContainerBlocks(c))
  {
    var h := "    envFrom:";
    assert ContainerKey(h) && |h| > 4 && h[4] == 'e' && h != "    env:";
    ContainerOutlineOf(c, annotate);
    EnvLike(c, h);
  }

  // ---- the env list -------------------------------------------------------

  /** The container blocks before `env:`. */
  function EnvBefore(c: Container): seq<Block> {
    [ContainerHeadBlock(c)]
    + Guarded(|c.command| > 0, CommandBlock(c))
    + Guarded(|c.args| > 0, ArgsBlock(c))
  }

  /** `env:` and the blocks of its items. */
  function EnvBlocks(c: Container): seq<Block> {
    Guarded(|c.env| > 0 || |c.envFrom| > 0, EnvHeadBlock())
    + Guarded(|c.env| > 0, EnvVarsBlock(c))
    + Guarded(|c.envFrom| > 0, EnvFromBlock(c))
  }

  /** The container blocks after the env list. */
  function EnvAfter(c: Container): seq<Block> {
    Guarded(AnyResourceSet(c.resources), ResourcesBlock(c))
    + Map(ProbeBlock, c.probes)
    + Guarded(|c.volumeMounts| > 0, VolumeMountsBlock(c))
  }

  /** The items of the env list: variables, then envFrom sources. */
  function EnvItemLines(c: Container): seq<string> {
    FlatMap(EnvVarLines, c.env) + FlatMap(EnvFromLines, c.envFrom)
  }

  lemma ContainerAroundEnv(c: Container)
    ensures ContainerBlocks(c) == EnvBefore(c) + EnvBlocks(c) + EnvAfter(c)
  {
    GroupNine([ContainerHeadBlock(c)],
      Guarded(|c.command| > 0, CommandBlock(c)),
      Guarded(|c.args| > 0, ArgsBlock(c)),
      Guarded(|c.env| > 0 || |c.envFrom| > 0, EnvHeadBlock()),
      Guarded(|c.env| > 0, EnvVarsBlock(c)),
      Guarded(|c.envFrom| > 0, EnvFromBlock(c)),
      Guarded(AnyResourceSet(c.resources), ResourcesBlock(c)),
      Map(ProbeBlock, c.probes),
      Guarded(|c.volumeMounts| > 0, VolumeMountsBlock(c)));
  }

  lemma GroupNine<T>(a: seq<T>, b: seq<T>, d: seq<T>, e: seq<T>, f: seq<T>, g: seq<T>,
                     h: seq<T>, i: seq<T>, j: seq<T>)
    ensures a + b + d + e + f + g + h + i + j == (a + b + d) + (e + f + g) + (h + i + j)
  {
  }

  /** The plain container entry around its env list. */
  lemma EnvSplit(c: Container)
    requires |c.env| > 0 || |c.envFrom| > 0
    ensures Emit(false, ContainerBlocks(c))
         == Emit(false, EnvBefore(c)) + ["    env:"] + EnvItemLines(c) + Emit(false, EnvAfter(c))
  {
    var before, env, after := EnvBefore(c), EnvBlocks(c), EnvAfter(c);
    var b, e, a := Emit(false, before), Emit(false, env), Emit(false, after);
    assert Emit(false, ContainerBlocks(c)) == b + e + a by {
      ContainerAroundEnv(c);
      EmitConcat(false, before + env, after);
      EmitConcat(false, before, env);
    }
    assert e == ["    env:"] + EnvItemLines(c) by {
      EnvBlocksPlain(c);
    }
    MiddleAssoc(b, ["    env:"], EnvItemLines(c), a);
  }

  lemma MiddleAssoc(b: seq<string>, x: seq<string>, y: seq<string>, a: seq<string>)
    ensures b + (x + y) + a == b + x + y + a
  {
  }

  lemma EnvBlocksPlain(c: Container)
    requires |c.env| > 0 || |c.envFrom| > 0
    ensures Emit(false, EnvBlocks(c)) == ["    env:"] + EnvItemLines(c)
  {
    var v := Guarded(|c.env| > 0, EnvVarsBlock(c));
    var f := Guarded(|c.envFrom| > 0, EnvFromBlock(c));
    EmitConcat(false, [EnvHeadBlock()] + v, f);
    EmitConcat(false, [EnvHeadBlock()], v);
    PlainBlock(EnvVarsBlock(c));
    PlainBlock(EnvFromBlock(c));
    assert Emit(false, v) == FlatMap(EnvVarLines, c.env);
    assert Emit(false, f) == FlatMap(EnvFromLines, c.envFrom);
  }

  /** The plain lines of the blocks after the env list open with a
      container-level key, when there are any. */
  lemma AfterEnvOpensWithKey(c: Container)
    ensures |Emit(false, EnvAfter(c))| > 0 ==> ContainerKey(Emit(false, EnvAfter(c))[0])
  {
    var r := Guarded(AnyResourceSet(c.resources), ResourcesBlock(c));
    var p := Map(ProbeBlock, c.probes);
    var m := Guarded(|c.volumeMounts| > 0, VolumeMountsBlock(c));
    ContainerKeys();
    EmitConcat(false, r + p, m);
    EmitConcat(false, r, p);
    if |r| > 0 {
      PlainBlock(ResourcesBlock(c));
    } else if |p| > 0 {
      PlainBlock(ProbeBlock(c.probes[0]));
      ProbeHeadingKey(c.probes[0].name);
    } else if |m| > 0 {
      PlainBlock(VolumeMountsBlock(c));
    }
  }

  /** The envFrom sources are items of the `env:` list: in the plain
      container entry, `env:` is followed directly by the variables' items
      and then the sources' items, which read back as both lists in order;
      every item line is nested deeper than a key, and whatever follows the
      list opens with the next container-level key. */
  lemma EnvSection(c: Container)
    requires |c.env| > 0 || |c.envFrom| > 0
    ensures Emit(false, ContainerBlocks(c))
         == Emit(false, EnvBefore(c)) + ["    env:"] + EnvItemLines(c) + Emit(false, EnvAfter(c))
    ensures ReadEnvItems(EnvItemLines(c)) == Some(EnvList(c.env, c.envFrom))
    ensures AllInner(EnvItemLines(c))
    ensures |Emit(false, EnvAfter(c))| > 0 ==> ContainerKey(Emit(false, EnvAfter(c))[0])
  {
    EnvSplit(c);
    EnvItemsRoundTrip(c.env, c.envFrom);
    EnvLinesInner(c);
    InnerConcat(FlatMap(EnvVarLines, c.env), FlatMap(EnvFromLines, c.envFrom));
    AfterEnvOpensWithKey(c);
  }

  /** From the form to the output: a probe heading is written exactly when
      the form has a slot of that name whose kind is not `none`. */
  lemma CollectedProbeHeading(form: Collect.Form, annotate: bool, n: ProbeName)
    ensures ProbeHeading(n) in Emit(annotate, ContainerBlocks(Collect.CollectState(form).container))
        <==> exists i :: 0 <= i < |form.container.probes|
                         && form.container.probes[i].name == n && form.container.probes[i].kind != "none"
  {
    var c := Collect.CollectState(form).container;
    assert c.probes == Collect.Probes(form.container.probes);
    ProbePresence(c, annotate, n);
    Collect.ProbesOf(form.container.probes, n);
  }

  // ---- the deploy command -------------------------------------------------

  /** The pod name a `kubectl apply -f <name>.yaml` command refers to. */
  function ApplyTarget(command: string): Option<string> {
    if |command| >= 22 && StartsWith(command, "kubectl apply -f ") && command[|command| - 5..] == ".yaml"
    then Some(command[17..|command| - 5])
    else None
  }

  /** The deploy command names the file of the pod the manifest describes:
      its target is the name written under `metadata:`, in either mode. */
  lemma ApplyNamesManifest(s: PodState, annotate: bool)
    ensures ApplyTarget(ApplyCommand(s.podName)) == Some(s.podName)
    ensures |Filter(IsContent, RenderLines(s, annotate))| > 3
    ensures Filter(IsContent, RenderLines(s, annotate))[3] == "  name: " + s.podName
  {
    ContentOpening(s, annotate);
    assert Filter(IsContent, RenderLines(s, annotate))[..4][3] == Filter(IsContent, RenderLines(s, annotate))[3];
  }
}
