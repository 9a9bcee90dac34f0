/** Readers for the remaining list entries of the manifest: the `key: value`
    lines of labels, annotations and the node selector, the items of the
    container's `env:` list, the volume mounts, and the bracketed lists of
    `command:` and `args:`. Each reader takes written lines back to the
    entries they came from, so the round trips state what every entry
    writes and that entries appear in insertion order. */
module Items {
  import opened Seqs
  import opened Text
  import opened Numbers
  import opened Pod
  import opened Render
  import opened Entries
  import Collect

  // ---- key/value entries --------------------------------------------------

  /** The text before the first colon. */
  function BeforeColon(s: string): (r: string)
    ensures |r| <= |s| && r == s[..|r|] && ':' !in r
    ensures |r| < |s| ==> s[|r|] == ':'
  {
    if |s| == 0 || s[0] == ':' then "" else [s[0]] + BeforeColon(s[1..])
  }

  lemma {:induction false} BeforeColonOf(key: string, rest: string)
    requires ':' !in key && |rest| > 0 && rest[0] == ':'
    ensures BeforeColon(key + rest) == key
  {
    if |key| > 0 {
      assert (key + rest)[0] == key[0];
      assert (key + rest)[1..] == key[1..] + rest;
      BeforeColonOf(key[1..], rest);
    } else {
      assert key + rest == rest;
    }
  }

  /** A `    <key>: <value>` line, the key ending at the first colon. */
  function ReadEntry(line: string): Option<KeyValue> {
    match After(line, "    ")
    case None => None
    case Some(rest) =>
      var key := BeforeColon(rest);
      match After(rest[|key|..], ": ")
      case None => None
      case Some(value) => Some(KeyValue(key, value))
  }

  /** An entry whose key has no colon reads back as itself; the value may
      hold anything. */
  lemma EntryRoundTrip(kv: KeyValue)
    requires ':' !in kv.key
    ensures ReadEntry(EntryLine(kv)) == Some(kv)
  {
    var tail := ": " + kv.value;
    assert EntryLine(kv) == "    " + (kv.key + tail);
    AfterPrefix("    ", kv.key + tail);
    BeforeColonOf(kv.key, tail);
    assert (kv.key + tail)[|kv.key|..] == tail;
    AfterPrefix(": ", kv.value);
  }

  /** A labels, annotations or node-selector mapping: the heading, then one
      line per entry that reads back as that entry, in insertion order. */
  lemma MappingRoundTrip(heading: string, kvs: seq<KeyValue>)
    requires forall kv :: kv in kvs ==> ':' !in kv.key
    ensures var lines := [heading] + Map(EntryLine, kvs);
            && |lines| == |kvs| + 1 && lines[0] == heading
            && forall i :: 0 <= i < |kvs| ==> ReadEntry(lines[i + 1]) == Some(kvs[i])
  {
    var lines := [heading] + Map(EntryLine, kvs);
    forall i | 0 <= i < |kvs|
      ensures ReadEntry(lines[i + 1]) == Some(kvs[i])
    {
      EntryAt(kvs, i);
      assert lines[i + 1] == Map(EntryLine, kvs)[i];
    }
  }

  lemma EntryAt(kvs: seq<KeyValue>, i: nat)
    requires forall kv :: kv in kvs ==> ':' !in kv.key
    requires i < |kvs|
    ensures ReadEntry(Map(EntryLine, kvs)[i]) == Some(kvs[i])
  {
    assert kvs[i] in kvs;
    EntryRoundTrip(kvs[i]);
  }

  /** The labels block lists the labels, in order, under `labels:`. */
  lemma LabelsRoundTrip(s: PodState)
    requires forall kv :: kv in s.labels ==> ':' !in kv.key
    ensures var lines := LabelsBlock(s).lines;
            && |lines| == |s.labels| + 1 && lines[0] == "  labels:"
            && forall i :: 0 <= i < |s.labels| ==> ReadEntry(lines[i + 1]) == Some(s.labels[i])
  {
    MappingRoundTrip("  labels:", s.labels);
  }

  lemma AnnotationsRoundTrip(s: PodState)
    requires forall kv :: kv in s.annotations ==> ':' !in kv.key
    ensures var lines := AnnotationsBlock(s).lines;
            && |lines| == |s.annotations| + 1 && lines[0] == "  annotations:"
            && forall i :: 0 <= i < |s.annotations| ==> ReadEntry(lines[i + 1]) == Some(s.annotations[i])
  {
    MappingRoundTrip("  annotations:", s.annotations);
  }

  lemma NodeSelectorRoundTrip(s: PodState)
    requires forall kv :: kv in s.nodeSelector ==> ':' !in kv.key
    ensures var lines := NodeSelectorBlock(s).lines;
            && |lines| == |s.nodeSelector| + 1 && lines[0] == "  nodeSelector:"
            && forall i :: 0 <= i < |s.nodeSelector| ==> ReadEntry(lines[i + 1]) == Some(s.nodeSelector[i])
  {
    MappingRoundTrip("  nodeSelector:", s.nodeSelector);
  }

  // ---- fixed-size list items ----------------------------------------------

  /** Reads `lines` as consecutive items of `n` lines each. */
  function ReadChunks<T>(read: seq<string> -> Option<T>, n: nat, lines: seq<string>): Option<seq<T>>
    requires n > 0
    decreases |lines|
  {
    if |lines| == 0 then Some([])
    else if |lines| < n then None
    else match read(lines[..n])
      case None => None
      case Some(x) =>
        match ReadChunks(read, n, lines[n..])
        case None => None
        case Some(xs) => Some([x] + xs)
  }

  /** Items written with `n` lines each, and read back one by one, read back
      as the whole list in order. */
  lemma {:induction false} ChunksRoundTrip<T(!new)>(
    read: seq<string> -> Option<T>, n: nat, write: T -> seq<string>, xs: seq<T>)
    requires n > 0
    requires forall x :: x in xs ==> |write(x)| == n && read(write(x)) == Some(x)
    ensures ReadChunks(read, n, FlatMap(write, xs)) == Some(xs)
  {
    if |xs| > 0 {
      var lines := FlatMap(write, xs);
      assert xs[0] in xs;
      assert lines[..n] == write(xs[0]);
      assert lines[n..] == FlatMap(write, xs[1..]);
      assert forall x :: x in xs[1..] ==> x in xs;
      ChunksRoundTrip(read, n, write, xs[1..]);
      assert [xs[0]] + xs[1..] == xs;
    }
  }

  /** An `env:` item for a variable: its name, then its quoted value. */
  function ReadEnvVar(lines: seq<string>): Option<KeyValue> {
    if |lines| != 2 then None
    else match After(lines[0], "    - name: ")
      case None => None
      case Some(name) =>
        match QuotedAfter(lines[1], "      value: ")
        case None => None
        case Some(value) => Some(KeyValue(name, value))
  }

  lemma EnvVarRoundTrip(kv: KeyValue)
    ensures |EnvVarLines(kv)| == 2 && ReadEnvVar(EnvVarLines(kv)) == Some(kv)
  {
    AfterPrefix("    - name: ", kv.key);
    QuotedAfterPrefix("      value: ", kv.value);
  }

  /** An `env:` item for an envFrom source: the `- envFrom:` line, the
      source kind followed by a colon, then the source's name. */
  function ReadEnvFrom(lines: seq<string>): Option<EnvFromSource> {
    if |lines| != 3 || lines[0] != "    - envFrom:" then None
    else match After(lines[1], "      - ")
      case None => None
      case Some(ref) =>
        if |ref| == 0 || ref[|ref| - 1] != ':' then None
        else match After(lines[2], "          name: ")
          case None => None
          case Some(name) => Some(EnvFromSource(ref[..|ref| - 1], name))
  }

  lemma EnvFromRoundTrip(e: EnvFromSource)
    ensures |EnvFromLines(e)| == 3 && ReadEnvFrom(EnvFromLines(e)) == Some(e)
  {
    assert "      - " + e.kind + ":" == "      - " + (e.kind + ":");
    AfterPrefix("      - ", e.kind + ":");
    assert (e.kind + ":")[..|e.kind|] == e.kind;
    AfterPrefix("          name: ", e.name);
  }

  /** A volume mount item: the volume's name, then the quoted mount path. */
  function ReadMount(lines: seq<string>): Option<VolumeMount> {
    if |lines| != 2 then None
    else match After(lines[0], "    - name: ")
      case None => None
      case Some(name) =>
        match QuotedAfter(lines[1], "      mountPath: ")
        case None => None
        case Some(path) => Some(VolumeMount(name, path))
  }

  lemma MountRoundTrip(m: VolumeMount)
    ensures |VolumeMountLines(m)| == 2 && ReadMount(VolumeMountLines(m)) == Some(m)
  {
    AfterPrefix("    - name: ", m.name);
    QuotedAfterPrefix("      mountPath: ", m.mountPath);
  }

  /** The mounts block lists every mount, in order, under `volumeMounts:`. */
  lemma MountsRoundTrip(c: Container)
    ensures var lines := VolumeMountsBlock(c).lines;
            && |lines| > 0 && lines[0] == "    volumeMounts:"
            && ReadChunks(ReadMount, 2, lines[1..]) == Some(c.volumeMounts)
  {
    forall m | m in c.volumeMounts
      ensures |VolumeMountLines(m)| == 2 && ReadMount(VolumeMountLines(m)) == Some(m)
    {
      MountRoundTrip(m);
    }
    ChunksRoundTrip(ReadMount, 2, VolumeMountLines, c.volumeMounts);
    assert VolumeMountsBlock(c).lines[1..] == FlatMap(VolumeMountLines, c.volumeMounts);
  }

  // ---- resources ----------------------------------------------------------

  /** An optional quoted quantity line: its value and the lines after it, or
      the empty value and the lines unchanged when the first line is not a
      line of that quantity. */
  function ReadQuantityLine(prefix: string, lines: seq<string>): (string, seq<string>) {
    if |lines| > 0 && QuotedAfter(lines[0], prefix).Some? then
      (QuotedAfter(lines[0], prefix).value, lines[1..])
    else ("", lines)
  }

  /** The `cpu:` line, then the `memory:` line, each optional. */
  function ReadQuantities(lines: seq<string>): (Quantities, seq<string>) {
    var (cpu, r1) := ReadQuantityLine("        cpu: ", lines);
    var (memory, r2) := ReadQuantityLine("        memory: ", r1);
    (Quantities(cpu, memory), r2)
  }

  /** An optional section: its heading, then its quantities. A missing
      section reads as no quantities set. */
  function ReadSection(heading: string, lines: seq<string>): (Quantities, seq<string>) {
    if |lines| > 0 && lines[0] == heading then ReadQuantities(lines[1..])
    else (Quantities("", ""), lines)
  }

  /** The container's `resources:` block: its heading, the requests
      section, then the limits section, and nothing after them. */
  function ReadResources(lines: seq<string>): Option<Resources> {
    if |lines| == 0 || lines[0] != "    resources:" then None
    else
      var (requests, r1) := ReadSection("      requests:", lines[1..]);
      var (limits, r2) := ReadSection("      limits:", r1);
      if |r2| == 0 then Some(Resources(requests, limits)) else None
  }

  lemma QuantityLineRead(prefix: string, v: string, rest: seq<string>)
    ensures ReadQuantityLine(prefix, [prefix + Quoted(v)] + rest) == (v, rest)
  {
    QuotedAfterPrefix(prefix, v);
    assert ([prefix + Quoted(v)] + rest)[1..] == rest;
  }

  /** A line that differs from a quantity's key at some character is not a
      line of that quantity. The `limits:` heading differs from both keys at
      character six, and a `memory:` line from the `cpu:` key at eight. */
  lemma NotQuantityLine(l: string, prefix: string, i: nat)
    requires i < |l| && i < |prefix| && l[i] != prefix[i]
    ensures QuotedAfter(l, prefix).None?
  {
    DiffersAt(l, prefix, i);
  }

  lemma KeysApart(m: string)
    ensures ("        memory: " + m)[8] == 'm' && "        cpu: "[8] == 'c'
    ensures "      limits:"[6] == 'l' && "        cpu: "[6] == ' ' && "        memory: "[6] == ' '
    ensures |"      limits:"| > 8 && |"        cpu: "| > 8 && |"        memory: "| > 8
  {
  }

  lemma {:induction false} QuantitiesRead(q: Quantities, rest: seq<string>)
    requires |rest| == 0 || rest[0] == "      limits:"
    ensures ReadQuantities(QuantityLines(q) + rest) == (q, rest)
  {
    var cp, mp := "        cpu: ", "        memory: ";
    var ml := if q.memory != "" then [mp + Quoted(q.memory)] else [];
    KeysApart(Quoted(q.memory));
    if |rest| > 0 {
      NotQuantityLine(rest[0], cp, 6);
      NotQuantityLine(rest[0], mp, 6);
    }
    if q.memory != "" {
      QuantityLineRead(mp, q.memory, rest);
      NotQuantityLine(mp + Quoted(q.memory), cp, 8);
      assert (ml + rest)[0] == mp + Quoted(q.memory);
    } else {
      assert ml + rest == rest;
    }
    assert ReadQuantityLine(mp, ml + rest) == (q.memory, rest);
    if q.cpu != "" {
      assert QuantityLines(q) + rest == [cp + Quoted(q.cpu)] + (ml + rest);
      QuantityLineRead(cp, q.cpu, ml + rest);
    } else {
      assert QuantityLines(q) + rest == ml + rest;
    }
  }

  lemma SectionRead(heading: string, q: Quantities, rest: seq<string>)
    requires heading == "      requests:" || heading == "      limits:"
    requires |rest| == 0 || (heading == "      requests:" && rest[0] == "      limits:")
    ensures ReadSection(heading, QuantitySection(heading, q) + rest) == (q, rest)
  {
    if AnyQuantitySet(q) {
      var lines := QuantitySection(heading, q) + rest;
      assert lines[1..] == QuantityLines(q) + rest;
      QuantitiesRead(q, rest);
    } else {
      assert QuantitySection(heading, q) + rest == rest;
    }
  }

  /** Reading the `resources:` block back gives every request and limit:
      each section holds its own two quantities. */
  lemma ResourcesRoundTrip(res: Resources)
    ensures ReadResources(ResourcesLines(res)) == Some(res)
  {
    var rq, lm := "      requests:", "      limits:";
    var b := QuantitySection(lm, res.limits);
    assert ResourcesLines(res)[1..] == QuantitySection(rq, res.requests) + b;
    SectionRead(rq, res.requests, b);
    SectionRead(lm, res.limits, []);
    assert b + [] == b;
  }

  // ---- the env list -------------------------------------------------------

  /** What an `env:` list holds: variables, then envFrom sources. */
  datatype EnvList = EnvList(vars: seq<KeyValue>, sources: seq<EnvFromSource>)

  /** Reads the items of an `env:` list. An item is an envFrom source when
      it opens with `- envFrom:` and a variable otherwise; a variable after
      a source is not something the generator writes. */
  function ReadEnvItems(lines: seq<string>): Option<EnvList>
    decreases |lines|
  {
    if |lines| == 0 then Some(EnvList([], []))
    else if lines[0] == "    - envFrom:" then
      if |lines| < 3 then None
      else match ReadEnvFrom(lines[..3])
        case None => None
        case Some(e) =>
          match ReadEnvItems(lines[3..])
          case None => None
          case Some(rest) =>
            if |rest.vars| > 0 then None else Some(EnvList([], [e] + rest.sources))
    else
      if |lines| < 2 then None
      else match ReadEnvVar(lines[..2])
        case None => None
        case Some(v) =>
          match ReadEnvItems(lines[2..])
          case None => None
          case Some(rest) => Some(EnvList([v] + rest.vars, rest.sources))
  }

  /** A variable's first line is never the `- envFrom:` line. */
  lemma NameNotEnvFrom(name: string)
    ensures "    - name: " + name != "    - envFrom:"
  {
    KeyChar("    - name: ", name, 6);
  }

  /** One step of the reader over a source item. */
  lemma ReadSourceStep(e: EnvFromSource, rest: seq<string>, es: seq<EnvFromSource>)
    requires ReadEnvItems(rest) == Some(EnvList([], es))
    ensures ReadEnvItems(EnvFromLines(e) + rest) == Some(EnvList([], [e] + es))
  {
    var lines := EnvFromLines(e) + rest;
    EnvFromRoundTrip(e);
    assert lines[0] == "    - envFrom:";
    assert lines[..3] == EnvFromLines(e);
    assert lines[3..] == rest;
  }

  /** One step of the reader over a variable item. */
  lemma ReadVarStep(kv: KeyValue, rest: seq<string>, r: EnvList)
    requires ReadEnvItems(rest) == Some(r)
    ensures ReadEnvItems(EnvVarLines(kv) + rest) == Some(EnvList([kv] + r.vars, r.sources))
  {
    var lines := EnvVarLines(kv) + rest;
    EnvVarRoundTrip(kv);
    NameNotEnvFrom(kv.key);
    assert lines[0] != "    - envFrom:";
    assert lines[..2] == EnvVarLines(kv);
    assert lines[2..] == rest;
  }

  lemma {:induction false} SourcesRead(es: seq<EnvFromSource>)
    ensures ReadEnvItems(FlatMap(EnvFromLines, es)) == Some(EnvList([], es))
  {
    if |es| > 0 {
      SourcesRead(es[1..]);
      ReadSourceStep(es[0], FlatMap(EnvFromLines, es[1..]), es[1..]);
      assert [es[0]] + es[1..] == es;
    }
  }

  /** The items written for variables followed by those for envFrom sources
      read back as both lists, each in order. */
  lemma {:induction false} EnvItemsRoundTrip(vars: seq<KeyValue>, es: seq<EnvFromSource>)
    ensures ReadEnvItems(FlatMap(EnvVarLines, vars) + FlatMap(EnvFromLines, es)) == Some(EnvList(vars, es))
  {
    if |vars| == 0 {
      assert FlatMap(EnvVarLines, vars) + FlatMap(EnvFromLines, es) == FlatMap(EnvFromLines, es);
      SourcesRead(es);
    } else {
      var rest := FlatMap(EnvVarLines, vars[1..]) + FlatMap(EnvFromLines, es);
      assert FlatMap(EnvVarLines, vars) + FlatMap(EnvFromLines, es) == EnvVarLines(vars[0]) + rest;
      EnvItemsRoundTrip(vars[1..], es);
      ReadVarStep(vars[0], rest, EnvList(vars[1..], es));
      assert [vars[0]] + vars[1..] == vars;
    }
  }

  // ---- bracketed lists ----------------------------------------------------

  /** The items named by the pieces after a list's opening quote: each item
      is followed by `, ` when another item comes, and by an empty piece
      after the last one. Any other separator is rejected. */
  function ReadPieces(q: seq<string>): Option<seq<string>>
    decreases |q|
  {
    if |q| == 2 && q[1] == "" then Some([q[0]])
    else if |q| >= 4 && q[1] == ", " then
      match ReadPieces(q[2..])
      case Some(rest) => Some([q[0]] + rest)
      case None => None
    else None
  }

  /** The pieces of a bracketed list's inside when split at the quotes: an
      empty piece, then each item followed by `, ` or, after the last item,
      by an empty piece. */
  function QuotePieces(items: seq<string>): (r: seq<string>)
    requires |items| > 0
    ensures |r| == 2 * |items|
  {
    if |items| == 1 then [items[0], ""] else [items[0], ", "] + QuotePieces(items[1..])
  }

  /** The items of a `["a", "b"]` list: the text between each pair of
      quotes, in order, when the list holds nothing but quoted items
      separated by `, `. */
  function Unbracket(r: string): Option<seq<string>> {
    if |r| < 2 || r[0] != '[' || r[|r| - 1] != ']' then None
    else if |r| == 2 then Some([])
    else
      var ps := Split(r[1..|r| - 1], '"');
      if ps[0] == "" then ReadPieces(ps[1..]) else None
  }

  lemma JoinHead(x: string, ps: seq<string>, sep: string)
    requires |ps| > 0
    ensures Join([x] + ps, sep) == x + sep + Join(ps, sep)
  {
    assert ([x] + ps)[1..] == ps;
  }

  /** The inside of a bracketed list is its quote pieces joined with quotes. */
  lemma {:induction false} InsideOfBrackets(items: seq<string>)
    requires |items| > 0
    ensures Join(Map(Quoted, items), ", ") == Join([""] + QuotePieces(items), "\"")
  {
    var q := "\"";
    if |items| == 1 {
      assert Map(Quoted, items) == [Quoted(items[0])];
      JoinHead("", [items[0], ""], q);
      JoinHead(items[0], [""], q);
    } else {
      var rest := QuotePieces(items[1..]);
      var j := Join(rest, q);
      assert Map(Quoted, items) == [Quoted(items[0])] + Map(Quoted, items[1..]);
      JoinHead(Quoted(items[0]), Map(Quoted, items[1..]), ", ");
      InsideOfBrackets(items[1..]);
      JoinHead("", rest, q);
      assert [""] + QuotePieces(items) == [""] + ([items[0], ", "] + rest);
      JoinHead("", [items[0], ", "] + rest, q);
      JoinHead(items[0], [", "] + rest, q);
      JoinHead(", ", rest, q);
      QuotedRegroup(items[0], j);
    }
  }

  lemma QuotedRegroup(a: string, j: string)
    ensures Quoted(a) + ", " + ("" + "\"" + j) == "" + "\"" + (a + "\"" + (", " + "\"" + j))
  {
  }

  lemma {:induction false} QuotePiecesFree(items: seq<string>)
    requires |items| > 0
    requires forall x :: x in items ==> '"' !in x
    ensures forall i :: 0 <= i < |QuotePieces(items)| ==> '"' !in QuotePieces(items)[i]
  {
    assert items[0] in items;
    if |items| > 1 {
      assert forall x :: x in items[1..] ==> x in items;
      QuotePiecesFree(items[1..]);
    }
  }

  lemma {:induction false} PiecesRead(items: seq<string>)
    requires |items| > 0
    ensures ReadPieces(QuotePieces(items)) == Some(items)
  {
    if |items| == 1 {
      assert [items[0]] == items;
    } else {
      PiecesRead(items[1..]);
      assert QuotePieces(items)[2..] == QuotePieces(items[1..]);
      assert [items[0]] + items[1..] == items;
    }
  }

  /** Only the pieces of a written list are read. */
  lemma {:induction false} PiecesWritten(q: seq<string>, items: seq<string>)
    requires ReadPieces(q) == Some(items)
    ensures |items| > 0 && q == QuotePieces(items)
    ensures forall x :: x in items ==> x in q
    decreases |q|
  {
    if !(|q| == 2 && q[1] == "") {
      var rest := ReadPieces(q[2..]).value;
      PiecesWritten(q[2..], rest);
      assert items == [q[0]] + rest;
      assert items[1..] == rest;
      assert q == [q[0], ", "] + q[2..];
      assert forall x :: x in q[2..] ==> x in q;
    }
  }

  /** Reading a written `command:` or `args:` list gives its items back, in
      order, for items without a double quote (nothing is escaped). */
  lemma BracketedRoundTrip(items: seq<string>)
    requires forall x :: x in items ==> '"' !in x
    ensures Unbracket(Bracketed(items)) == Some(items)
  {
    var r := Bracketed(items);
    if |items| > 0 {
      var inner := Join(Map(Quoted, items), ", ");
      assert r[1..|r| - 1] == inner;
      InsideOfBrackets(items);
      QuotePiecesFree(items);
      SplitJoin([""] + QuotePieces(items), '"');
      PiecesRead(items);
      assert ([""] + QuotePieces(items))[1..] == QuotePieces(items);
    }
  }
  /** The `command:` line of a collected exec probe reads back, through
      `Unbracket`, as the tokens of the command field. */
  lemma CollectedCommandLine(row: Collect.ProbeRow)
    requires row.kind == "exec" && Collect.Tokenize(row.execCommand) != []
    requires forall t :: t in Collect.Tokenize(row.execCommand) ==> '"' !in t
    ensures exists l :: l in ProbeLines(Collect.CollectProbe(row))
                        && After(l, "        command: ").Some?
                        && Unbracket(After(l, "        command: ").value) == Some(Collect.Tokenize(row.execCommand))
  {
    var p := Collect.CollectProbe(row);
    var l := "        command: " + Bracketed(p.command);
    CommandLine(p);
    AfterPrefix("        command: ", Bracketed(p.command));
    BracketedRoundTrip(p.command);
    assert l in ProbeLines(p);
  }


  /** Conversely, whatever reads as a list of items is exactly how that list
      is written, and its items hold no double quote. */
  lemma BracketedExact(r: string, items: seq<string>)
    requires Unbracket(r) == Some(items)
    ensures Bracketed(items) == r
    ensures forall x :: x in items ==> '"' !in x
  {
    if |r| == 2 {
      assert r == "[]";
    } else {
      var inside := r[1..|r| - 1];
      InsideExact(inside, items);
      assert r == "[" + inside + "]";
    }
  }

  /** The inside of a list that reads as `items` is their quoted forms
      joined with `, `, and no item holds a quote. */
  lemma InsideExact(inside: string, items: seq<string>)
    requires var ps := Split(inside, '"'); ps[0] == "" && ReadPieces(ps[1..]) == Some(items)
    ensures Join(Map(Quoted, items), ", ") == inside
    ensures forall x :: x in items ==> '"' !in x
  {
    var ps := Split(inside, '"');
    PiecesWritten(ps[1..], items);
    assert ps == [""] + QuotePieces(items);
    JoinSplit(inside, '"');
    InsideOfBrackets(items);
    forall x | x in items
      ensures '"' !in x
    {
      assert x in ps[1..];
      var i :| 0 <= i < |ps[1..]| && ps[1..][i] == x;
      assert ps[i + 1] == x;
    }
  }

}
