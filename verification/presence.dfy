/** Which pod-level fields the manifest carries. Each optional field is
    written exactly when the form supplies it: a line starting with the
    field's key exists, in either mode, if and only if the source's guard
    holds, and then the line carries the value. */
module Presence {
  import opened Seqs
  import opened Text
  import opened Pod
  import opened Render
  import opened Shapes
  import opened Outline
  import opened Neutrality

  /** Some line of `lines` starts with `key`. */
  predicate HasKey(lines: seq<string>, key: string) {
    exists l :: l in lines && StartsWith(l, key)
  }

  /** The metadata keys are the name, then the optional namespace, labels
      and annotations. */
  lemma MetadataCases(s: PodState, l: string)
    ensures l in PodOutline(s) && l !in SpecKeys(s) ==>
            || l == "  name: " + s.podName
            || (s.namespace != "" && l == "  namespace: " + s.namespace)
            || (|s.labels| > 0 && l == "  labels:")
            || (|s.annotations| > 0 && l == "  annotations:")
  {
  }

  /** The spec keys, each under its guard. */
  lemma SpecCases(s: PodState, l: string)
    ensures l in SpecKeys(s) ==>
            || (s.serviceAccountName != "" && l == "  serviceAccountName: " + s.serviceAccountName)
            || (s.restartPolicy != "Always" && l == "  restartPolicy: " + s.restartPolicy)
            || (AnyIdSet(s.podSecurityContext) && l == "  securityContext:")
            || (|s.nodeSelector| > 0 && l == "  nodeSelector:")
            || (|s.tolerations| > 0 && l == "  tolerations:")
            || (|s.volumes| > 0 && l == "  volumes:")
  {
  }

  /** Characters 2, 3, 4 and 6 of a line start with its key. */
  lemma KeyChars(key: string, x: string)
    requires |key| > 6
    ensures |key + x| > 6
    ensures (key + x)[2] == key[2] && (key + x)[3] == key[3]
    ensures (key + x)[4] == key[4] && (key + x)[6] == key[6]
  {
  }

  /** The metadata entries told apart by characters 2, 3 and 6. */
  lemma MetadataSig(s: PodState, l: string)
    ensures l in PodOutline(s) && l !in SpecKeys(s) ==>
            && |l| > 6
            && (
              || (l[2] == 'n' && l[3] == 'a' && l[6] == ':')
              || (l[2] == 'n' && l[3] == 'a' && l[6] == 's' && s.namespace != "")
              || (l[2] == 'l' && l[3] == 'a' && |s.labels| > 0)
              || (l[2] == 'a' && l[3] == 'n' && |s.annotations| > 0))
  {
    MetadataCases(s, l);
    KeyChars("  name: ", s.podName);
    KeyChars("  namespace: ", s.namespace);
    assert "  name: "[2] == 'n' && "  name: "[3] == 'a' && "  name: "[6] == ':';
    assert "  namespace: "[2] == 'n' && "  namespace: "[3] == 'a' && "  namespace: "[6] == 's';
    assert "  labels:"[2] == 'l' && "  labels:"[3] == 'a';
    assert "  annotations:"[2] == 'a' && "  annotations:"[3] == 'n';
  }

  /** The spec entries told apart by characters 2, 3 and 4. */
  lemma SpecSig(s: PodState, l: string)
    ensures l in SpecKeys(s) ==>
            && |l| > 6
            && (
              || (l[2] == 's' && l[3] == 'e' && l[4] == 'r' && s.serviceAccountName != "")
              || (l[2] == 'r' && l[3] == 'e' && s.restartPolicy != "Always")
              || (l[2] == 's' && l[3] == 'e' && l[4] == 'c' && AnyIdSet(s.podSecurityContext))
              || (l[2] == 'n' && l[3] == 'o')
              || (l[2] == 't' && l[3] == 'o')
              || (l[2] == 'v' && l[3] == 'o'))
  {
    SpecCases(s, l);
    KeyChars("  serviceAccountName: ", s.serviceAccountName);
    KeyChars("  restartPolicy: ", s.restartPolicy);
    assert "  serviceAccountName: "[2] == 's' && "  serviceAccountName: "[3] == 'e';
    assert "  serviceAccountName: "[4] == 'r';
    assert "  restartPolicy: "[2] == 'r' && "  restartPolicy: "[3] == 'e';
    assert "  securityContext:"[2] == 's' && "  securityContext:"[3] == 'e' && "  securityContext:"[4] == 'c';
    assert "  nodeSelector:"[2] == 'n' && "  nodeSelector:"[3] == 'o';
    assert "  tolerations:"[2] == 't' && "  tolerations:"[3] == 'o';
    assert "  volumes:"[2] == 'v' && "  volumes:"[3] == 'o';
    assert |"  volumes:"| > 6 && |"  nodeSelector:"| > 6 && |"  tolerations:"| > 6;
  }

  /** Every outline entry is told apart by its characters. */
  lemma OutlineSig(s: PodState, l: string)
    ensures l in PodOutline(s) ==>
            && |l| > 6
            && (
              || (l[2] == 'n' && l[3] == 'a' && l[6] == ':')
              || (l[2] == 'n' && l[3] == 'a' && l[6] == 's' && s.namespace != "")
              || (l[2] == 'l' && l[3] == 'a')
              || (l[2] == 'a' && l[3] == 'n')
              || (l[2] == 's' && l[3] == 'e' && l[4] == 'r' && s.serviceAccountName != "")
              || (l[2] == 'r' && l[3] == 'e' && s.restartPolicy != "Always")
              || (l[2] == 's' && l[3] == 'e' && l[4] == 'c' && AnyIdSet(s.podSecurityContext))
              || (l[2] == 'n' && l[3] == 'o')
              || (l[2] == 't' && l[3] == 'o')
              || (l[2] == 'v' && l[3] == 'o'))
  {
    MetadataSig(s, l);
    SpecSig(s, l);
  }

  /** `keys` are the pod-level key lines of `lines`: every pod-level key
      line is among them, and each of them is a line. */
  predicate KeysOf(lines: seq<string>, keys: seq<string>) {
    && (forall l :: l in lines && PodKey(l) ==> l in keys)
    && (forall l :: l in keys ==> l in lines)
  }

  lemma FilterKeys(lines: seq<string>, keys: seq<string>)
    requires Filter(PodKey, lines) == keys
    ensures KeysOf(lines, keys)
  {
  }

  /** A line starting with a prefix agrees with it at each position. */
  lemma PrefixChar(l: string, prefix: string, i: nat)
    requires StartsWith(l, prefix) && i < |prefix|
    ensures l[i] == prefix[i]
  {
    assert l[..|prefix|][i] == l[i];
  }

  /** A line starting with a pod-level key is a pod-level key line. */
  lemma PodKeyPrefix(l: string, key: string)
    requires StartsWith(l, key) && PodKey(key)
    ensures PodKey(l)
  {
    PrefixChar(l, key, 0);
    PrefixChar(l, key, 1);
    PrefixChar(l, key, 2);
  }

  /** The presence argument, for any pod-level key: the key's line is in
      the outline exactly under its guard, and no other outline entry starts
      with the key. */
  lemma KeyPresence(lines: seq<string>, keys: seq<string>, key: string, line: string, guard: bool)
    requires KeysOf(lines, keys)
    requires PodKey(key) && StartsWith(line, key)
    requires guard ==> line in keys
    requires forall l :: l in keys && StartsWith(l, key) ==> guard
    ensures HasKey(lines, key) <==> guard
    ensures line in lines <==> guard
  {
    forall l | l in lines && StartsWith(l, key)
      ensures guard
    {
      PodKeyPrefix(l, key);
      assert l in keys;
    }
  }

  /** `l` agrees with `key` at positions i, j and k. */
  predicate Agrees(l: string, key: string, i: nat, j: nat, k: nat) {
    i < |l| && j < |l| && k < |l| && i < |key| && j < |key| && k < |key|
    && l[i] == key[i] && l[j] == key[j] && l[k] == key[k]
  }

  /** To rule out every other entry it suffices to compare three
      positions with the key. */
  lemma Signature(keys: seq<string>, key: string, i: nat, j: nat, k: nat, guard: bool)
    requires i < |key| && j < |key| && k < |key|
    requires forall l :: l in keys && Agrees(l, key, i, j, k) ==> guard
    ensures forall l :: l in keys && StartsWith(l, key) ==> guard
  {
    forall l | l in keys && StartsWith(l, key)
      ensures guard
    {
      PrefixChar(l, key, i);
      PrefixChar(l, key, j);
      PrefixChar(l, key, k);
      assert Agrees(l, key, i, j, k);
    }
  }

  /** Only the namespace entry has the namespace key's characters at
      positions 2, 3 and 6. */
  lemma NamespaceOnly(s: PodState)
    ensures forall l :: l in PodOutline(s) && Agrees(l, "  namespace:", 2, 3, 6) ==> s.namespace != ""
  {
    assert |"  namespace:"| > 6 && "  namespace:"[2] == 'n' && "  namespace:"[3] == 'a' && "  namespace:"[6] == 's';
    forall l | l in PodOutline(s) && Agrees(l, "  namespace:", 2, 3, 6)
      ensures s.namespace != ""
    {
      OutlineSig(s, l);
    }
  }

  lemma KeyLine(key: string, value: string)
    ensures StartsWith(key + " " + value, key)
  {
    StartsWithConcat(key, " " + value);
    assert key + (" " + value) == key + " " + value;
  }

  /** The facts about the outline that the namespace argument needs. */
  lemma NamespaceFacts(s: PodState)
    ensures StartsWith("  namespace: " + s.namespace, "  namespace:")
    ensures s.namespace != "" ==> "  namespace: " + s.namespace in PodOutline(s)
    ensures forall l :: l in PodOutline(s) && StartsWith(l, "  namespace:") ==> s.namespace != ""
  {
    KeyLine("  namespace:", s.namespace);
    assert "  namespace:" + " " == "  namespace: ";
    NamespaceOnly(s);
    Signature(PodOutline(s), "  namespace:", 2, 3, 6, s.namespace != "");
  }

  lemma NamespaceKey(lines: seq<string>, s: PodState)
    requires KeysOf(lines, PodOutline(s))
    ensures HasKey(lines, "  namespace:") <==> s.namespace != ""
    ensures ("  namespace: " + s.namespace in lines) <==> s.namespace != ""
  {
    NamespaceFacts(s);
    KeyPresence(lines, PodOutline(s), "  namespace:", "  namespace: " + s.namespace, s.namespace != "");
  }
  /** Only the serviceAccountName entry agrees with its key at positions 2, 3, 4. */
  lemma ServiceAccountOnly(s: PodState)
    ensures forall l :: l in PodOutline(s) && Agrees(l, "  serviceAccountName:", 2, 3, 4) ==> s.serviceAccountName != ""
  {
    assert |"  serviceAccountName:"| > 6 && "  serviceAccountName:"[2] == 's' && "  serviceAccountName:"[3] == 'e' && "  serviceAccountName:"[4] == 'r';
    forall l | l in PodOutline(s) && Agrees(l, "  serviceAccountName:", 2, 3, 4)
      ensures s.serviceAccountName != ""
    {
      OutlineSig(s, l);
    }
  }

  lemma ServiceAccountFacts(s: PodState)
    ensures StartsWith("  serviceAccountName: " + s.serviceAccountName, "  serviceAccountName:")
    ensures s.serviceAccountName != "" ==> "  serviceAccountName: " + s.serviceAccountName in PodOutline(s)
    ensures forall l :: l in PodOutline(s) && StartsWith(l, "  serviceAccountName:") ==> s.serviceAccountName != ""
  {
    KeyLine("  serviceAccountName:", s.serviceAccountName);
    assert "  serviceAccountName:" + " " == "  serviceAccountName: ";
    ServiceAccountOnly(s);
    Signature(PodOutline(s), "  serviceAccountName:", 2, 3, 4, s.serviceAccountName != "");
  }

  lemma ServiceAccountKey(lines: seq<string>, s: PodState)
    requires KeysOf(lines, PodOutline(s))
    ensures HasKey(lines, "  serviceAccountName:") <==> s.serviceAccountName != ""
    ensures ("  serviceAccountName: " + s.serviceAccountName in lines) <==> s.serviceAccountName != ""
  {
    ServiceAccountFacts(s);
    KeyPresence(lines, PodOutline(s), "  serviceAccountName:", "  serviceAccountName: " + s.serviceAccountName, s.serviceAccountName != "");
  }

  /** Only the restartPolicy entry agrees with its key at positions 2, 3, 4. */
  lemma RestartPolicyOnly(s: PodState)
    ensures forall l :: l in PodOutline(s) && Agrees(l, "  restartPolicy:", 2, 3, 4) ==> s.restartPolicy != "Always"
  {
    assert |"  restartPolicy:"| > 6 && "  restartPolicy:"[2] == 'r' && "  restartPolicy:"[3] == 'e' && "  restartPolicy:"[4] == 's';
    forall l | l in PodOutline(s) && Agrees(l, "  restartPolicy:", 2, 3, 4)
      ensures s.restartPolicy != "Always"
    {
      OutlineSig(s, l);
    }
  }

  lemma RestartPolicyFacts(s: PodState)
    ensures StartsWith("  restartPolicy: " + s.restartPolicy, "  restartPolicy:")
    ensures s.restartPolicy != "Always" ==> "  restartPolicy: " + s.restartPolicy in PodOutline(s)
    ensures forall l :: l in PodOutline(s) && StartsWith(l, "  restartPolicy:") ==> s.restartPolicy != "Always"
  {
    KeyLine("  restartPolicy:", s.restartPolicy);
    assert "  restartPolicy:" + " " == "  restartPolicy: ";
    RestartPolicyOnly(s);
    Signature(PodOutline(s), "  restartPolicy:", 2, 3, 4, s.restartPolicy != "Always");
  }

  lemma RestartPolicyKey(lines: seq<string>, s: PodState)
    requires KeysOf(lines, PodOutline(s))
    ensures HasKey(lines, "  restartPolicy:") <==> s.restartPolicy != "Always"
    ensures ("  restartPolicy: " + s.restartPolicy in lines) <==> s.restartPolicy != "Always"
  {
    RestartPolicyFacts(s);
    KeyPresence(lines, PodOutline(s), "  restartPolicy:", "  restartPolicy: " + s.restartPolicy, s.restartPolicy != "Always");
  }

  /** Only the security-context heading agrees with its key at positions
      2, 3 and 4. */
  lemma SecurityContextOnly(s: PodState)
    ensures forall l :: l in PodOutline(s) && Agrees(l, "  securityContext:", 2, 3, 4)
                        ==> AnyIdSet(s.podSecurityContext)
  {
    assert |"  securityContext:"| > 6 && "  securityContext:"[2] == 's' && "  securityContext:"[3] == 'e' && "  securityContext:"[4] == 'c';
    forall l | l in PodOutline(s) && Agrees(l, "  securityContext:", 2, 3, 4)
      ensures AnyIdSet(s.podSecurityContext)
    {
      OutlineSig(s, l);
    }
  }

  lemma SecurityContextFacts(s: PodState)
    ensures StartsWith("  securityContext:", "  securityContext:")
    ensures AnyIdSet(s.podSecurityContext) ==> "  securityContext:" in PodOutline(s)
    ensures forall l :: l in PodOutline(s) && StartsWith(l, "  securityContext:")
                        ==> AnyIdSet(s.podSecurityContext)
  {
    StartsWithConcat("  securityContext:", "");
    assert "  securityContext:" + "" == "  securityContext:";
    SecurityContextOnly(s);
    Signature(PodOutline(s), "  securityContext:", 2, 3, 4, AnyIdSet(s.podSecurityContext));
  }

  lemma SecurityContextKey(lines: seq<string>, s: PodState)
    requires KeysOf(lines, PodOutline(s))
    ensures HasKey(lines, "  securityContext:") <==> AnyIdSet(s.podSecurityContext)
  {
    SecurityContextFacts(s);
    KeyPresence(lines, PodOutline(s), "  securityContext:", "  securityContext:",
                AnyIdSet(s.podSecurityContext));
  }

  /** No outline entry agrees with `  containers:` at positions 2, 3
      and 4. */
  lemma ContainersOnly(s: PodState)
    ensures forall l :: l in PodOutline(s) && Agrees(l, "  containers:", 2, 3, 4) ==> false
  {
    assert |"  containers:"| > 6 && "  containers:"[2] == 'c' && "  containers:"[3] == 'o' && "  containers:"[4] == 'n';
    forall l | l in PodOutline(s) && Agrees(l, "  containers:", 2, 3, 4)
      ensures false
    {
      OutlineSig(s, l);
    }
  }

  /** The container entry is written without a `containers:` key above it. */
  lemma NoContainersKey(lines: seq<string>, s: PodState)
    requires KeysOf(lines, PodOutline(s))
    ensures !HasKey(lines, "  containers:")
  {
    ContainersOnly(s);
    Signature(PodOutline(s), "  containers:", 2, 3, 4, false);
    StartsWithConcat("  containers:", "");
    assert "  containers:" + "" == "  containers:";
    KeyPresence(lines, PodOutline(s), "  containers:", "  containers:", false);
  }
}
