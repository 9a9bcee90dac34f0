/** `collectState`: turning the values read from the form controls into the
    pod description. Reading the page is outside the model; what remains is
    a set of order-preserving filters, the name and image defaults, and the
    tokenizer for an exec probe's command. */
module Collect {
  import opened Seqs
  import opened Text
  import opened Pod

  /** The volume row as the page holds it: one name field, the type chooser,
      and whichever source-name field the chosen type shows (the others read
      as empty). */
  datatype VolumeRow = VolumeRow(
    name: string,
    kind: string,
    configMapName: string,
    secretName: string,
    claimName: string)

  /** One probe slot as the page holds it; the path, port and command fields
      read as empty unless the chosen kind shows them. */
  datatype ProbeRow = ProbeRow(
    name: ProbeName,
    kind: string,
    initialDelaySeconds: string,
    periodSeconds: string,
    timeoutSeconds: string,
    failureThreshold: string,
    httpPath: string,
    httpPort: string,
    tcpPort: string,
    execCommand: string)

  datatype ContainerForm = ContainerForm(
    name: string,
    image: string,
    command: seq<string>,
    args: seq<string>,
    env: seq<KeyValue>,
    envFrom: seq<EnvFromSource>,
    resources: Resources,
    probes: seq<ProbeRow>,
    volumeMounts: seq<VolumeMount>)

  /** Every control of the form, in page order within each list. */
  datatype Form = Form(
    podName: string,
    namespace: string,
    labels: seq<KeyValue>,
    annotations: seq<KeyValue>,
    serviceAccountName: string,
    nodeSelector: seq<KeyValue>,
    restartPolicy: string,
    securityContext: SecurityContext,
    tolerations: seq<Toleration>,
    volumes: seq<VolumeRow>,
    container: ContainerForm)

  predicate HasKey(kv: KeyValue) { kv.key != "" }

  predicate NonEmpty(s: string) { s != "" }

  predicate TolerationHasKey(t: Toleration) { t.key != "" }

  predicate VolumeHasName(v: Volume) { v.name != "" }

  predicate EnvFromHasName(e: EnvFromSource) { e.name != "" }

  predicate ProbeEnabled(p: Probe) { p.kind != "none" }

  predicate MountComplete(m: VolumeMount) { m.name != "" && m.mountPath != "" }

  /** `getKeyValuePairs`: the rows with a key, in page order. */
  function KeyValuePairs(rows: seq<KeyValue>): (r: seq<KeyValue>)
    ensures forall kv :: kv in r <==> kv in rows && kv.key != ""
    ensures (forall i :: 0 <= i < |rows| ==> rows[i].key != "") ==> r == rows
  {
    if forall i :: 0 <= i < |rows| ==> rows[i].key != "" then
      FilterKeepsAll(HasKey, rows);
      Filter(HasKey, rows)
    else
      Filter(HasKey, rows)
  }

  /** `getSingleValues`: the non-empty entries, in page order. */
  function SingleValues(items: seq<string>): (r: seq<string>)
    ensures forall s :: s in r <==> s in items && s != ""
    ensures (forall i :: 0 <= i < |items| ==> items[i] != "") ==> r == items
  {
    if forall i :: 0 <= i < |items| ==> items[i] != "" then
      FilterKeepsAll(NonEmpty, items);
      Filter(NonEmpty, items)
    else
      Filter(NonEmpty, items)
  }

  /** The exec probe's command: split on commas, trim each piece, drop the
      empty ones. Every token is non-empty, comma-free and trimmed. */
  function Tokenize(command: string): (tokens: seq<string>)
    ensures forall t :: t in tokens ==> t != "" && ',' !in t && IsTrimmed(t)
  {
    var pieces := Split(command, ',');
    var trimmed := Map(Trim, pieces);
    assert forall t :: t in trimmed ==> ',' !in t by {
      forall t | t in trimmed
        ensures ',' !in t
      {
        var i :| 0 <= i < |trimmed| && trimmed[i] == t;
        assert ',' !in pieces[i];
      }
    }
    Filter(NonEmpty, trimmed)
  }

  /** Tokens keep their order: the tokens of two comma-separated halves are
      the tokens of the first half followed by those of the second. */
  lemma {:induction false} TokenizeConcat(a: string, b: string)
    ensures Tokenize(a + "," + b) == Tokenize(a) + Tokenize(b)
  {
    assert a + "," + b == a + [','] + b;
    SplitConcat(a, b, ',');
    MapConcat(Trim, Split(a, ','), Split(b, ','));
    FilterConcat(NonEmpty, Map(Trim, Split(a, ',')), Map(Trim, Split(b, ',')));
  }

  /** A comma-free piece of the command becomes its trimmed self, or
      nothing when it is all white space. With `TokenizeConcat` this fixes
      the tokens of any command. */
  lemma TokenizePiece(p: string)
    requires ',' !in p
    ensures Tokenize(p) == (if Trim(p) == "" then [] else [Trim(p)])
  {
    SplitNone(p, ',');
    assert Map(Trim, [p]) == [Trim(p)];
    assert Filter(NonEmpty, [Trim(p)]) == (if Trim(p) == "" then [] else [Trim(p)]) by {
      assert [Trim(p)][1..] == [];
    }
  }

  /** Writing tokens separated by commas and tokenizing gives them back. */
  lemma {:induction false} TokenizeJoin(tokens: seq<string>)
    requires forall t :: t in tokens ==> t != "" && ',' !in t && IsTrimmed(t)
    ensures Tokenize(Join(tokens, ",")) == tokens
  {
    if |tokens| == 0 {
      assert Split("", ',') == [""];
      assert Map(Trim, [""]) == [""];
    } else {
      assert forall i :: 0 <= i < |tokens| ==> ',' !in tokens[i] by {
        forall i | 0 <= i < |tokens|
          ensures ',' !in tokens[i]
        {
          assert tokens[i] in tokens;
        }
      }
      SplitJoin(tokens, ',');
      assert Map(Trim, tokens) == tokens by {
        forall i | 0 <= i < |tokens|
          ensures Trim(tokens[i]) == tokens[i]
        {
          assert tokens[i] in tokens;
        }
      }
      FilterKeepsAll(NonEmpty, tokens);
    }
  }

  /** A volume row becomes a volume; the source name is read only from the
      field that belongs to the chosen kind. */
  function CollectVolume(row: VolumeRow): (v: Volume)
    ensures v.name == row.name && v.kind == row.kind
    ensures row.kind == "configMap" ==> v.sourceName == row.configMapName
    ensures row.kind == "secret" ==> v.sourceName == row.secretName
    ensures row.kind == "persistentVolumeClaim" ==> v.sourceName == row.claimName
    ensures v.sourceName != "" ==> v.kind in {"configMap", "secret", "persistentVolumeClaim"}
  {
    var source :=
      if row.kind == "configMap" then row.configMapName
      else if row.kind == "secret" then row.secretName
      else if row.kind == "persistentVolumeClaim" then row.claimName
      else "";
    Volume(row.name, row.kind, source)
  }

  /** A probe slot becomes a probe; only the fields of the chosen kind are
      read, and an exec command is tokenized when it is non-empty. */
  function CollectProbe(row: ProbeRow): (p: Probe)
    ensures p.name == row.name && p.kind == row.kind
    ensures p.initialDelaySeconds == row.initialDelaySeconds && p.periodSeconds == row.periodSeconds
    ensures p.timeoutSeconds == row.timeoutSeconds && p.failureThreshold == row.failureThreshold
    ensures row.kind == "httpGet" ==> p.path == row.httpPath && p.port == row.httpPort
    ensures row.kind == "tcpSocket" ==> p.port == row.tcpPort
    ensures p.path != "" ==> p.kind == "httpGet"
    ensures p.port != "" ==> p.kind in {"httpGet", "tcpSocket"}
    ensures |p.command| > 0 ==> p.kind == "exec"
    ensures row.kind == "exec" ==> p.command == Tokenize(row.execCommand)
  {
    var path := if row.kind == "httpGet" then row.httpPath else "";
    var port :=
      if row.kind == "httpGet" then row.httpPort
      else if row.kind == "tcpSocket" then row.tcpPort
      else "";
    var command :=
      if row.kind == "exec" && row.execCommand != "" then Tokenize(row.execCommand)
      else [];
    assert row.kind == "exec" && row.execCommand == "" ==> Tokenize(row.execCommand) == [] by {
      if row.execCommand == "" {
        assert Split("", ',') == [""];
        assert Map(Trim, [""]) == [""];
      }
    }
    Probe(row.name, row.kind, row.initialDelaySeconds, row.periodSeconds,
          row.timeoutSeconds, row.failureThreshold, path, port, command)
  }

  /** The volumes of the named rows. With `VolumesOrder`, the one-row case
      determines the whole list. */
  function Volumes(rows: seq<VolumeRow>): (r: seq<Volume>)
    ensures forall v :: v in r ==> v.name != ""
    ensures forall i :: 0 <= i < |rows| && rows[i].name != "" ==> CollectVolume(rows[i]) in r
    ensures forall v :: v in r ==> exists i :: 0 <= i < |rows| && rows[i].name != "" && v == CollectVolume(rows[i])
    ensures |rows| == 1 ==> r == (if rows[0].name != "" then [CollectVolume(rows[0])] else [])
  {
    var all := Map(CollectVolume, rows);
    assert forall i :: 0 <= i < |rows| ==> all[i] in all;
    Filter(VolumeHasName, all)
  }

  /** The probes of the slots whose kind is not `none`. With `ProbesOrder`,
      the one-slot case determines the whole list. */
  function Probes(rows: seq<ProbeRow>): (r: seq<Probe>)
    ensures forall p :: p in r ==> p.kind != "none"
    ensures forall i :: 0 <= i < |rows| && rows[i].kind != "none" ==> CollectProbe(rows[i]) in r
    ensures forall p :: p in r ==> exists i :: 0 <= i < |rows| && rows[i].kind != "none" && p == CollectProbe(rows[i])
    ensures |rows| == 1 ==> r == (if rows[0].kind != "none" then [CollectProbe(rows[0])] else [])
  {
    var all := Map(CollectProbe, rows);
    assert forall i :: 0 <= i < |rows| ==> all[i] in all;
    Filter(ProbeEnabled, all)
  }

  /** The invariants every collected state satisfies and the renderer may
      rely on: defaults filled in, incomplete list entries removed. */
  predicate Collected(s: PodState) {
    && s.podName != ""
    && s.container.name != ""
    && s.container.image != ""
    && (forall kv :: kv in s.labels ==> kv.key != "")
    && (forall kv :: kv in s.annotations ==> kv.key != "")
    && (forall kv :: kv in s.nodeSelector ==> kv.key != "")
    && (forall t :: t in s.tolerations ==> t.key != "")
    && (forall v :: v in s.volumes ==> v.name != "")
    && (forall c :: c in s.container.command ==> c != "")
    && (forall c :: c in s.container.args ==> c != "")
    && (forall kv :: kv in s.container.env ==> kv.key != "")
    && (forall e :: e in s.container.envFrom ==> e.name != "")
    && (forall p :: p in s.container.probes ==> p.kind != "none")
    && (forall m :: m in s.container.volumeMounts ==> m.name != "" && m.mountPath != "")
  }

  /** The `container` record of `collectState()`: name and image defaults,
      and the container's lists filtered. */
  function CollectContainer(c: ContainerForm): (k: Container)
    ensures k.name == (if c.name == "" then "main-container" else c.name)
    ensures k.image == (if c.image == "" then "nginx" else c.image)
    ensures k.resources == c.resources
    ensures k.command == SingleValues(c.command) && k.args == SingleValues(c.args)
    ensures k.env == KeyValuePairs(c.env)
    ensures k.envFrom == Filter(EnvFromHasName, c.envFrom)
    ensures k.volumeMounts == Filter(MountComplete, c.volumeMounts)
    ensures forall x :: x in k.command <==> x in c.command && x != ""
    ensures forall x :: x in k.args <==> x in c.args && x != ""
    ensures forall kv :: kv in k.env <==> kv in c.env && kv.key != ""
    ensures k.probes == Probes(c.probes)
    ensures forall p :: p in k.probes ==> p.kind != "none"
    ensures forall e :: e in k.envFrom <==> e in c.envFrom && e.name != ""
    ensures forall m :: m in k.volumeMounts <==> m in c.volumeMounts && m.name != "" && m.mountPath != ""
  {
    Container(
      if c.name == "" then "main-container" else c.name,
      if c.image == "" then "nginx" else c.image,
      SingleValues(c.command),
      SingleValues(c.args),
      KeyValuePairs(c.env),
      Filter(EnvFromHasName, c.envFrom),
      c.resources,
      Probes(c.probes),
      Filter(MountComplete, c.volumeMounts))
  }

  /** `collectState()` over the values read from the form. */
  function CollectState(form: Form): (s: PodState)
    ensures Collected(s)
    ensures s.podName == (if form.podName == "" then "my-pod" else form.podName)
    ensures s.container.name == (if form.container.name == "" then "main-container" else form.container.name)
    ensures s.container.image == (if form.container.image == "" then "nginx" else form.container.image)
    ensures s.namespace == form.namespace && s.serviceAccountName == form.serviceAccountName
    ensures s.restartPolicy == form.restartPolicy && s.podSecurityContext == form.securityContext
    ensures s.container.resources == form.container.resources
    ensures s.labels == KeyValuePairs(form.labels) && s.annotations == KeyValuePairs(form.annotations)
    ensures s.nodeSelector == KeyValuePairs(form.nodeSelector)
    ensures s.tolerations == Filter(TolerationHasKey, form.tolerations)
    ensures forall kv :: kv in s.labels <==> kv in form.labels && kv.key != ""
    ensures forall kv :: kv in s.annotations <==> kv in form.annotations && kv.key != ""
    ensures forall kv :: kv in s.nodeSelector <==> kv in form.nodeSelector && kv.key != ""
    ensures forall t :: t in s.tolerations <==> t in form.tolerations && t.key != ""
    ensures s.volumes == Volumes(form.volumes)
    ensures s.container == CollectContainer(form.container)
    ensures forall e :: e in s.container.envFrom <==> e in form.container.envFrom && e.name != ""
    ensures forall m :: m in s.container.volumeMounts
                    <==> m in form.container.volumeMounts && m.name != "" && m.mountPath != ""
  {
    PodState(
      if form.podName == "" then "my-pod" else form.podName,
      form.namespace,
      KeyValuePairs(form.labels),
      KeyValuePairs(form.annotations),
      form.serviceAccountName,
      KeyValuePairs(form.nodeSelector),
      form.restartPolicy,
      form.securityContext,
      Filter(TolerationHasKey, form.tolerations),
      Volumes(form.volumes),
      CollectContainer(form.container))
  }

  /** Insertion order survives collection: the pairs collected from two
      consecutive runs of rows are those of the first run, then the second. */
  lemma {:induction false} KeyValuePairsOrder(a: seq<KeyValue>, b: seq<KeyValue>)
    ensures KeyValuePairs(a + b) == KeyValuePairs(a) + KeyValuePairs(b)
  {
    FilterConcat(HasKey, a, b);
  }

  lemma {:induction false} SingleValuesOrder(a: seq<string>, b: seq<string>)
    ensures SingleValues(a + b) == SingleValues(a) + SingleValues(b)
  {
    FilterConcat(NonEmpty, a, b);
  }

  /** Volumes keep their page order. */
  lemma {:induction false} VolumesOrder(a: seq<VolumeRow>, b: seq<VolumeRow>)
    ensures Volumes(a + b) == Volumes(a) + Volumes(b)
  {
    MapConcat(CollectVolume, a, b);
    FilterConcat(VolumeHasName, Map(CollectVolume, a), Map(CollectVolume, b));
  }

  /** Probes keep their page order. */
  lemma {:induction false} ProbesOrder(a: seq<ProbeRow>, b: seq<ProbeRow>)
    ensures Probes(a + b) == Probes(a) + Probes(b)
  {
    MapConcat(CollectProbe, a, b);
    FilterConcat(ProbeEnabled, Map(CollectProbe, a), Map(CollectProbe, b));
  }

  /** A collected probe of a given name exists exactly when some slot of
      that name has a kind other than `none`. */
  lemma ProbesOf(rows: seq<ProbeRow>, n: ProbeName)
    ensures (exists p :: p in Probes(rows) && p.name == n)
        <==> exists i :: 0 <= i < |rows| && rows[i].name == n && rows[i].kind != "none"
  {
    var all := Map(CollectProbe, rows);
    if exists p :: p in Probes(rows) && p.name == n {
      var p :| p in Probes(rows) && p.name == n;
      assert p in all;
      var i :| 0 <= i < |all| && all[i] == p;
      assert rows[i].name == n && rows[i].kind != "none";
    }
    if exists i :: 0 <= i < |rows| && rows[i].name == n && rows[i].kind != "none" {
      var i :| 0 <= i < |rows| && rows[i].name == n && rows[i].kind != "none";
      assert CollectProbe(rows[i]) in Probes(rows);
    }
  }
}
