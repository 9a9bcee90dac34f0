/** What one list entry of the manifest records. Each entry renderer is
    paired with a reader that takes the written lines back to the fields
    they carry; the round trips say which fields survive, and in which
    cases a line is written at all. */
module Entries {
  import opened Seqs
  import opened Text
  import opened Numbers
  import opened Pod
  import opened Render
  import opened Presence
  import Collect

  // ---- reading lines back -------------------------------------------------

  /** The rest of `line` after `prefix`, when it starts with it. */
  function After(line: string, prefix: string): (r: Option<string>)
    ensures r.Some? <==> StartsWith(line, prefix)
    ensures r.Some? ==> line == prefix + r.value
  {
    if StartsWith(line, prefix) then Some(line[|prefix|..]) else None
  }

  /** The inside of a `"…"`-quoted scalar. */
  function Unquote(x: string): Option<string> {
    if |x| >= 2 && x[0] == '"' && x[|x| - 1] == '"' then Some(x[1..|x| - 1]) else None
  }

  function QuotedAfter(line: string, prefix: string): Option<string> {
    match After(line, prefix)
    case None => None
    case Some(rest) => Unquote(rest)
  }

  lemma AfterPrefix(prefix: string, x: string)
    ensures After(prefix + x, prefix) == Some(x)
  {
    StartsWithConcat(prefix, x);
    assert (prefix + x)[|prefix|..] == x;
  }

  /** Quoting is undone by unquoting, whatever the value holds. */
  lemma QuotedAfterPrefix(prefix: string, x: string)
    ensures QuotedAfter(prefix + Quoted(x), prefix) == Some(x)
  {
    AfterPrefix(prefix, Quoted(x));
  }

  // ---- tolerations --------------------------------------------------------

  /** The toleration that a rendered entry describes: three lines without a
      value, four with one, and the four-line form only for `Equal`. */
  function ReadToleration(lines: seq<string>): Option<Toleration> {
    if |lines| != 3 && |lines| != 4 then None
    else
      var key := QuotedAfter(lines[0], "  - key: ");
      var op := QuotedAfter(lines[1], "    operator: ");
      var value := if |lines| == 4 then QuotedAfter(lines[2], "    value: ") else Some("");
      var effect := QuotedAfter(lines[|lines| - 1], "    effect: ");
      if key.None? || op.None? || value.None? || effect.None? then None
      else if (|lines| == 4) != (op.value == "Equal") then None
      else Some(Toleration(key.value, op.value, value.value, effect.value))
  }

  /** The part of a toleration the manifest records: the value is written
      only for the `Equal` operator. */
  function WrittenToleration(t: Toleration): (r: Toleration)
    ensures r.key == t.key && r.operator == t.operator && r.effect == t.effect
    ensures r.value == (if t.operator == "Equal" then t.value else "")
  {
    if t.operator == "Equal" then t else t.(value := "")
  }

  /** A rendered toleration reads back as the toleration, its value dropped
      unless the operator is `Equal`. */
  lemma TolerationRoundTrip(t: Toleration)
    ensures ReadToleration(TolerationLines(t)) == Some(WrittenToleration(t))
  {
    var r := TolerationLines(t);
    QuotedAfterPrefix("  - key: ", t.key);
    QuotedAfterPrefix("    operator: ", t.operator);
    QuotedAfterPrefix("    effect: ", t.effect);
    if t.operator == "Equal" {
      QuotedAfterPrefix("    value: ", t.value);
    }
  }

  /** The `value:` line is written exactly for the `Equal` operator. */
  lemma TolerationValueLine(t: Toleration)
    ensures HasKey(TolerationLines(t), "    value:") <==> t.operator == "Equal"
  {
    var r := TolerationLines(t);
    var key := "    value:";
    DiffersAt(r[0], key, 2);
    DiffersAt(r[1], key, 4);
    DiffersAt(r[|r| - 1], key, 4);
    if t.operator == "Equal" {
      StartsWithConcat(key, " " + Quoted(t.value));
      assert r[2] == key + (" " + Quoted(t.value));
      assert r[2] in r;
    } else {
      assert forall l :: l in r ==> l == r[0] || l == r[1] || l == r[2];
    }
  }

  // ---- volumes ------------------------------------------------------------

  /** The volume a rendered entry describes. A bare name line stands for a
      volume of a type the generator does not know, read back with an empty
      type. */
  function ReadVolume(lines: seq<string>): Option<Volume> {
    if |lines| == 0 then None
    else match After(lines[0], "  - name: ")
      case None => None
      case Some(name) =>
        if |lines| == 1 then Some(Volume(name, "", ""))
        else if |lines| == 2 then
          if lines[1] == "    emptyDir: {}" then Some(Volume(name, "emptyDir", "")) else None
        else if |lines| == 3 then
          if lines[1] == "    configMap:" && After(lines[2], "      name: ").Some? then
            Some(Volume(name, "configMap", After(lines[2], "      name: ").value))
          else if lines[1] == "    secret:" && After(lines[2], "      secretName: ").Some? then
            Some(Volume(name, "secret", After(lines[2], "      secretName: ").value))
          else if lines[1] == "    persistentVolumeClaim:" && After(lines[2], "      claimName: ").Some? then
            Some(Volume(name, "persistentVolumeClaim", After(lines[2], "      claimName: ").value))
          else None
        else None
  }

  predicate IsNamedSource(kind: string) {
    kind == "configMap" || kind == "secret" || kind == "persistentVolumeClaim"
  }

  /** The part of a volume the manifest records: the source name only for
      the types that have one, and the type only when it is known. */
  function WrittenVolume(v: Volume): (r: Volume)
    ensures r.name == v.name
    ensures r.kind == (if IsNamedSource(v.kind) || v.kind == "emptyDir" then v.kind else "")
    ensures r.sourceName == (if IsNamedSource(v.kind) then v.sourceName else "")
  {
    if IsNamedSource(v.kind) then v
    else if v.kind == "emptyDir" then Volume(v.name, "emptyDir", "")
    else Volume(v.name, "", "")
  }

  /** A rendered volume reads back as the volume, as far as its type lets
      the manifest record it. */
  lemma VolumeRoundTrip(v: Volume)
    ensures ReadVolume(VolumeLines(v)) == Some(WrittenVolume(v))
  {
    AfterPrefix("  - name: ", v.name);
    AfterPrefix("      name: ", v.sourceName);
    AfterPrefix("      secretName: ", v.sourceName);
    AfterPrefix("      claimName: ", v.sourceName);
  }

  // ---- probes -------------------------------------------------------------

  /** Characters six and seven of a timing line: `in`itialDelaySeconds,
      `pe`riodSeconds, `ti`meoutSeconds, `fa`ilureThreshold. */
  predicate TimingLike(l: string) {
    && |l| > 7
    && ((l[6] == 'i' && l[7] == 'n') || (l[6] == 'p' && l[7] == 'e')
        || (l[6] == 't' && l[7] == 'i') || (l[6] == 'f' && l[7] == 'a'))
  }

  /** Two lines that differ at character six or seven. */
  predicate Apart(l: string, key: string) {
    |l| > 7 && |key| > 7 && (l[6] != key[6] || l[7] != key[7])
  }

  lemma ApartLines(lines: seq<string>, key: string)
    requires forall l :: l in lines ==> Apart(l, key)
    ensures forall l :: l in lines ==> !StartsWith(l, key)
  {
    forall l | l in lines
      ensures !StartsWith(l, key)
    {
      if l[6] != key[6] {
        DiffersAt(l, key, 6);
      } else {
        DiffersAt(l, key, 7);
      }
    }
  }

  /** Characters six and seven of the heading and of the handler lines. */
  predicate HandlerLike(l: string) {
    |l| > 7 && (l[6] == ' ' || l[6] == 'h' || l[6] == 'e' || l[6] == 'v' || l[6] == 'a' || (l[6] == 't' && l[7] == 'c'))
  }

  lemma HeadingLike(n: ProbeName)
    ensures HandlerLike(ProbeHeading(n))
  {
    var t := n.Text();
    assert |t| > 3 && (t[2] == 'v' || t[2] == 'a');
    assert ProbeHeading(n) == "    " + t + "Probe:";
    assert ProbeHeading(n)[6] == t[2];
  }

  lemma PrefixChars(k: string, x: string)
    requires |k| > 7
    ensures (k + x)[6] == k[6] && (k + x)[7] == k[7] && |k + x| > 7
  {
  }

  /** The handler lines by character six: the handler's own name, or the
      indentation of its fields. */
  lemma HttpGetChars(path: string, port: int)
    ensures forall l :: l in HttpGetLines(path, port) ==> |l| > 7 && (l[6] == 'h' || l[6] == ' ')
  {
    PrefixChars("        path: ", path);
    PrefixChars("        port: ", IntToString(port));
  }

  lemma TcpSocketChars(port: int)
    ensures forall l :: l in TcpSocketLines(port) ==> |l| > 7 && ((l[6] == 't' && l[7] == 'c') || l[6] == ' ')
  {
    PrefixChars("        port: ", IntToString(port));
  }

  lemma ExecChars(command: seq<string>)
    ensures forall l :: l in ExecLines(command) ==> |l| > 7 && (l[6] == 'e' || l[6] == ' ')
  {
    PrefixChars("        command: ", Bracketed(command));
  }

  lemma ActionLike(p: Probe)
    ensures forall l :: l in ProbeActionLines(p) ==> HandlerLike(l)
  {
    if p.kind == "httpGet" {
      HttpGetChars(if p.path == "" then "/" else p.path, PortOr80(p.port));
    } else if p.kind == "tcpSocket" {
      TcpSocketChars(PortOr80(p.port));
    } else if p.kind == "exec" && |p.command| > 0 {
      ExecChars(p.command);
    }
  }

  /** A timing line is never taken for the heading or a handler line. */
  lemma HandlerApart(p: Probe, key: string)
    requires TimingLike(key)
    ensures forall l :: l in [ProbeHeading(p.name)] + ProbeActionLines(p) ==> Apart(l, key)
  {
    HeadingLike(p.name);
    ActionLike(p);
  }

  lemma IdLineApart(k: string, v: string, key: string)
    requires Apart(k, key)
    ensures forall l :: l in IdLine(k, v) ==> Apart(l, key)
  {
    PrefixChars(k, IntText(v));
  }

  lemma Around(h: seq<string>, a: seq<string>, b: seq<string>, c: seq<string>, d: seq<string>)
    ensures h + (a + b + c + d) == h + a + (b + c + d)
    ensures h + (a + b + c + d) == (h + a) + b + (c + d)
    ensures h + (a + b + c + d) == (h + a + b) + c + d
    ensures h + (a + b + c + d) == (h + a + b + c) + d + []
  {
  }

  /** One guarded timing line among lines that cannot be taken for it. */
  lemma TimingAt(pre: seq<string>, key: string, value: string, post: seq<string>)
    requires forall l :: l in pre + post ==> Apart(l, key)
    ensures HasKey(pre + IdLine(key, value) + post, key) <==> value != ""
  {
    ApartLines(pre + post, key);
    if value != "" {
      StartsWithConcat(key, IntText(value));
      assert key + IntText(value) in pre + IdLine(key, value) + post;
    }
  }

  /** Four guarded lines after lines that cannot be taken for any of them;
      each key is present exactly when its value is set. */
  lemma TimingFour(h: seq<string>, k1: string, v1: string, k2: string, v2: string,
                   k3: string, v3: string, k4: string, v4: string)
    requires forall l :: l in h ==> Apart(l, k1) && Apart(l, k2) && Apart(l, k3) && Apart(l, k4)
    requires Apart(k1, k2) && Apart(k1, k3) && Apart(k1, k4)
    requires Apart(k2, k1) && Apart(k2, k3) && Apart(k2, k4)
    requires Apart(k3, k1) && Apart(k3, k2) && Apart(k3, k4)
    requires Apart(k4, k1) && Apart(k4, k2) && Apart(k4, k3)
    ensures var lines := h + (IdLine(k1, v1) + IdLine(k2, v2) + IdLine(k3, v3) + IdLine(k4, v4));
            && (HasKey(lines, k1) <==> v1 != "")
            && (HasKey(lines, k2) <==> v2 != "")
            && (HasKey(lines, k3) <==> v3 != "")
            && (HasKey(lines, k4) <==> v4 != "")
  {
    var i1, i2, i3, i4 := IdLine(k1, v1), IdLine(k2, v2), IdLine(k3, v3), IdLine(k4, v4);
    Around(h, i1, i2, i3, i4);
    IdLineApart(k2, v2, k1);
    IdLineApart(k3, v3, k1);
    IdLineApart(k4, v4, k1);
    TimingAt(h, k1, v1, i2 + i3 + i4);
    IdLineApart(k1, v1, k2);
    IdLineApart(k3, v3, k2);
    IdLineApart(k4, v4, k2);
    TimingAt(h + i1, k2, v2, i3 + i4);
    IdLineApart(k1, v1, k3);
    IdLineApart(k2, v2, k3);
    IdLineApart(k4, v4, k3);
    TimingAt(h + i1 + i2, k3, v3, i4);
    IdLineApart(k1, v1, k4);
    IdLineApart(k2, v2, k4);
    IdLineApart(k3, v3, k4);
    TimingAt(h + i1 + i2 + i3, k4, v4, []);
  }

  lemma TimingKeys(k1: string, k2: string, k3: string, k4: string)
    requires k1 == "      initialDelaySeconds: " && k2 == "      periodSeconds: "
    requires k3 == "      timeoutSeconds: " && k4 == "      failureThreshold: "
    ensures TimingLike(k1) && TimingLike(k2) && TimingLike(k3) && TimingLike(k4)
    ensures Apart(k1, k2) && Apart(k1, k3) && Apart(k1, k4)
    ensures Apart(k2, k1) && Apart(k2, k3) && Apart(k2, k4)
    ensures Apart(k3, k1) && Apart(k3, k2) && Apart(k3, k4)
    ensures Apart(k4, k1) && Apart(k4, k2) && Apart(k4, k3)
  {
    assert k1[6] == 'i' && k1[7] == 'n' && k2[6] == 'p' && k2[7] == 'e';
    assert k3[6] == 't' && k3[7] == 'i' && k4[6] == 'f' && k4[7] == 'a';
  }

  /** Each timing line is written exactly when its field is set. */
  lemma TimingPresence(p: Probe)
    ensures HasKey(ProbeLines(p), "      initialDelaySeconds: ") <==> p.initialDelaySeconds != ""
    ensures HasKey(ProbeLines(p), "      periodSeconds: ") <==> p.periodSeconds != ""
    ensures HasKey(ProbeLines(p), "      timeoutSeconds: ") <==> p.timeoutSeconds != ""
    ensures HasKey(ProbeLines(p), "      failureThreshold: ") <==> p.failureThreshold != ""
  {
    var k1, k2, k3, k4 := "      initialDelaySeconds: ", "      periodSeconds: ",
                          "      timeoutSeconds: ", "      failureThreshold: ";
    var h := [ProbeHeading(p.name)] + ProbeActionLines(p);
    assert ProbeLines(p) == h + ProbeTimingLines(p);
    TimingKeys(k1, k2, k3, k4);
    HandlerApart(p, k1);
    HandlerApart(p, k2);
    HandlerApart(p, k3);
    HandlerApart(p, k4);
    TimingFour(h, k1, p.initialDelaySeconds, k2, p.periodSeconds,
               k3, p.timeoutSeconds, k4, p.failureThreshold);
  }

  lemma IdLineLike(k: string, v: string)
    requires TimingLike(k)
    ensures forall l :: l in IdLine(k, v) ==> TimingLike(l)
  {
    PrefixChars(k, IntText(v));
  }

  lemma TimingLines(p: Probe)
    ensures forall l :: l in ProbeTimingLines(p) ==> TimingLike(l)
  {
    IdLineLike("      initialDelaySeconds: ", p.initialDelaySeconds);
    IdLineLike("      periodSeconds: ", p.periodSeconds);
    IdLineLike("      timeoutSeconds: ", p.timeoutSeconds);
    IdLineLike("      failureThreshold: ", p.failureThreshold);
  }

  lemma InThree(x: string, a: seq<string>, b: seq<string>, c: seq<string>)
    ensures x in a + b + c <==> x in a || x in b || x in c
  {
  }

  lemma ExecNotTiming(p: Probe)
    ensures "      exec:" !in ProbeTimingLines(p)
  {
    ExecNotTimingLike();
    TimingLines(p);
    NoneLike(ProbeTimingLines(p), "      exec:");
  }

  lemma ExecNotTimingLike()
    ensures !TimingLike("      exec:")
  {
  }

  lemma NoneLike(lines: seq<string>, e: string)
    requires forall l :: l in lines ==> TimingLike(l)
    requires !TimingLike(e)
    ensures e !in lines
  {
  }

  lemma ExecNotHeading(n: ProbeName)
    ensures "      exec:" != ProbeHeading(n)
  {
    var t := n.Text();
    assert t[2] != 'e';
    assert ProbeHeading(n)[6] == t[2];
  }

  /** No line of a handler other than exec is `exec:`: each differs from it
      at character six or seven. */
  lemma OtherHandlers(p: Probe)
    ensures forall l :: l in ProbeActionLines(p) && p.kind != "exec" ==> Apart(l, "      exec:")
  {
    assert "      exec:"[6] == 'e' && "      exec:"[7] == 'x' && |"      exec:"| > 7;
    if p.kind == "httpGet" {
      HttpGetChars(if p.path == "" then "/" else p.path, PortOr80(p.port));
    } else if p.kind == "tcpSocket" {
      TcpSocketChars(PortOr80(p.port));
    }
  }

  lemma ApartNotEqual(lines: seq<string>, e: string)
    requires forall l :: l in lines ==> Apart(l, e)
    ensures e !in lines
  {
  }

  lemma ExecAction(p: Probe)
    ensures "      exec:" in ProbeActionLines(p) <==> p.kind == "exec" && |p.command| > 0
  {
    if p.kind != "exec" {
      OtherHandlers(p);
      ApartNotEqual(ProbeActionLines(p), "      exec:");
    }
  }

  /** The `exec:` handler is written exactly for an exec probe with a
      non-empty command. */
  lemma ExecLine(p: Probe)
    ensures "      exec:" in ProbeLines(p) <==> p.kind == "exec" && |p.command| > 0
  {
    var e := "      exec:";
    ExecNotTiming(p);
    ExecNotHeading(p.name);
    ExecAction(p);
    InThree(e, [ProbeHeading(p.name)], ProbeActionLines(p), ProbeTimingLines(p));
  }

  /** For a collected probe: the exec handler is written exactly when the
      kind is exec and the command field holds at least one token. */
  lemma CollectedExecLine(row: Collect.ProbeRow)
    ensures "      exec:" in ProbeLines(Collect.CollectProbe(row))
        <==> row.kind == "exec" && Collect.Tokenize(row.execCommand) != []
  {
    ExecLine(Collect.CollectProbe(row));
  }

  /** Characters six and eight of the `command:` line, which no other probe
      line shares: the heading and the timing lines have a letter at six,
      the handler names too, and their fields have `p` at eight. */
  predicate CommandApart(l: string) {
    |l| > 7 && (l[6] != ' ' || (|l| > 8 && l[8] != 'c'))
  }

  lemma PrefixEight(k: string, x: string)
    requires |k| > 8
    ensures (k + x)[6] == k[6] && (k + x)[8] == k[8] && |k + x| > 8
  {
  }

  lemma HeadingNotCommand(n: ProbeName)
    ensures CommandApart(ProbeHeading(n))
  {
    var t := n.Text();
    assert |t| > 3 && (t[2] == 'v' || t[2] == 'a');
    assert ProbeHeading(n)[6] == t[2];
  }

  lemma TimingNotCommand(p: Probe)
    ensures forall l :: l in ProbeTimingLines(p) ==> CommandApart(l)
  {
    TimingLines(p);
  }

  lemma HttpGetNotCommand(path: string, port: int)
    ensures forall l :: l in HttpGetLines(path, port) ==> CommandApart(l)
  {
    PrefixEight("        path: ", path);
    PrefixEight("        port: ", IntToString(port));
    assert CommandApart("      httpGet:");
  }

  lemma TcpSocketNotCommand(port: int)
    ensures forall l :: l in TcpSocketLines(port) ==> CommandApart(l)
  {
    PrefixEight("        port: ", IntToString(port));
    assert CommandApart("      tcpSocket:");
  }

  lemma ActionNotCommand(p: Probe)
    requires !(p.kind == "exec" && |p.command| > 0)
    ensures forall l :: l in ProbeActionLines(p) ==> CommandApart(l)
  {
    if p.kind == "httpGet" {
      HttpGetNotCommand(if p.path == "" then "/" else p.path, PortOr80(p.port));
    } else if p.kind == "tcpSocket" {
      TcpSocketNotCommand(PortOr80(p.port));
    }
  }

  lemma ProbeNotCommand(p: Probe)
    requires !(p.kind == "exec" && |p.command| > 0)
    ensures forall l :: l in ProbeLines(p) ==> CommandApart(l)
  {
    HeadingNotCommand(p.name);
    ActionNotCommand(p);
    TimingNotCommand(p);
  }

  lemma CommandAbsent(lines: seq<string>, c: string)
    requires forall l :: l in lines ==> CommandApart(l)
    requires |c| > 8 && c[6] == ' ' && c[8] == 'c'
    ensures c !in lines
  {
  }

  lemma CommandChars(command: seq<string>)
    ensures var c := "        command: " + Bracketed(command); |c| > 8 && c[6] == ' ' && c[8] == 'c'
  {
    PrefixEight("        command: ", Bracketed(command));
  }

  lemma CommandWritten(p: Probe, c: string)
    requires p.kind == "exec" && |p.command| > 0
    requires c == "        command: " + Bracketed(p.command)
    ensures c in ProbeLines(p)
  {
    assert ProbeActionLines(p) == ExecLines(p.command);
    assert ProbeLines(p) == [ProbeHeading(p.name)] + ExecLines(p.command) + ProbeTimingLines(p);
  }

  /** The `command:` line holds the bracketed command, and is written
      exactly for an exec probe with a non-empty command. */
  lemma CommandLine(p: Probe)
    ensures ("        command: " + Bracketed(p.command)) in ProbeLines(p)
        <==> p.kind == "exec" && |p.command| > 0
  {
    var c := "        command: " + Bracketed(p.command);
    if p.kind == "exec" && |p.command| > 0 {
      CommandWritten(p, c);
    } else {
      CommandChars(p.command);
      ProbeNotCommand(p);
      CommandAbsent(ProbeLines(p), c);
    }
  }

  /** A line that starts with `k` is absent when no line starts with `k`. */
  lemma TimingWritten(lines: seq<string>, k: string, v: string)
    requires HasKey(lines, k) <==> v != ""
    requires v != "" ==> (k + IntText(v)) in lines
    ensures (k + IntText(v)) in lines <==> v != ""
  {
    StartsWithConcat(k, IntText(v));
  }

  /** Each timing line holds its field's value as a number, and is written
      exactly when the field is set. */
  lemma TimingValues(p: Probe)
    ensures ("      initialDelaySeconds: " + IntText(p.initialDelaySeconds)) in ProbeLines(p) <==> p.initialDelaySeconds != ""
    ensures ("      periodSeconds: " + IntText(p.periodSeconds)) in ProbeLines(p) <==> p.periodSeconds != ""
    ensures ("      timeoutSeconds: " + IntText(p.timeoutSeconds)) in ProbeLines(p) <==> p.timeoutSeconds != ""
    ensures ("      failureThreshold: " + IntText(p.failureThreshold)) in ProbeLines(p) <==> p.failureThreshold != ""
  {
    TimingPresence(p);
    var k1, k2, k3, k4 := "      initialDelaySeconds: ", "      periodSeconds: ",
                          "      timeoutSeconds: ", "      failureThreshold: ";
    var lines := ProbeLines(p);
    assert lines == [ProbeHeading(p.name)] + ProbeActionLines(p) + ProbeTimingLines(p);
    TimingWritten(lines, k1, p.initialDelaySeconds);
    TimingWritten(lines, k2, p.periodSeconds);
    TimingWritten(lines, k3, p.timeoutSeconds);
    TimingWritten(lines, k4, p.failureThreshold);
  }

  /** The port line of an HTTP or TCP probe parses back to
      `parseInt(port) || 80`. */
  lemma PortLine(p: Probe)
    requires p.kind == "httpGet" || p.kind == "tcpSocket"
    ensures exists l :: l in ProbeLines(p) && After(l, "        port: ").Some?
                        && ParseInt(After(l, "        port: ").value) == Some(PortOr80(p.port))
  {
    var n := PortOr80(p.port);
    var l := "        port: " + IntToString(n);
    assert l in (if p.kind == "httpGet" then HttpGetLines(if p.path == "" then "/" else p.path, n) else TcpSocketLines(n));
    AfterPrefix("        port: ", IntToString(n));
    ParseIntRoundTrip(n, "");
    assert IntToString(n) + "" == IntToString(n);
    assert l in ProbeActionLines(p);
    assert l in ProbeLines(p);
  }

  /** The path line of an HTTP probe holds the path, or `/` when it is
      empty; the written path is never empty. */
  lemma PathLine(p: Probe)
    requires p.kind == "httpGet"
    ensures exists l :: l in ProbeLines(p) && After(l, "        path: ") == Some(if p.path == "" then "/" else p.path)
  {
    var path := if p.path == "" then "/" else p.path;
    var l := "        path: " + path;
    AfterPrefix("        path: ", path);
    assert l in ProbeActionLines(p);
    assert l in ProbeLines(p);
  }
}
