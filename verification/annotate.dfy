/** "CKAD mode": explanatory comment lines, each optionally followed by a link
    to the Kubernetes documentation, that the generator inserts before the
    major blocks of the manifest when the user switches the mode on. */
module Annotate {
  import opened Text

  /** Documentation topic -> URL. There is deliberately no entry for `spec`,
      so the comment before `spec:` never carries a link. */
  const K8sDocs: map<string, string> := map[
    "metadata" := "https://k8s.io/docs/concepts/overview/working-with-objects/kubernetes-objects/",
    "labels" := "https://k8s.io/docs/concepts/overview/working-with-objects/labels/",
    "annotations" := "https://k8s.io/docs/concepts/overview/working-with-objects/annotations/",
    "serviceAccountName" := "https://k8s.io/docs/tasks/configure-pod-container/configure-service-account/",
    "restartPolicy" := "https://k8s.io/docs/concepts/workloads/pods/pod-lifecycle/#restart-policy",
    "nodeSelector" := "https://k8s.io/docs/concepts/scheduling-eviction/assign-pod-node/#nodeselector",
    "tolerations" := "https://k8s.io/docs/concepts/scheduling-eviction/taint-and-toleration/",
    "containers" := "https://k8s.io/docs/concepts/workloads/pods/#containers",
    "command" := "https://k8s.io/docs/tasks/inject-data-application/define-command-argument-container/",
    "env" := "https://k8s.io/docs/tasks/inject-data-application/environment-variable-expose-pod-information/",
    "envFrom" := "https://k8s.io/docs/tasks/configure-pod-container/configure-pod-configmap/#configure-all-key-value-pairs-in-a-configmap-as-container-environment-variables",
    "resources" := "https://k8s.io/docs/concepts/configuration/manage-resources-containers/",
    "probes" := "https://k8s.io/docs/tasks/configure-pod-container/configure-liveness-readiness-startup-probes/",
    "volumes" := "https://k8s.io/docs/concepts/storage/volumes/",
    "volumeMounts" := "https://k8s.io/docs/concepts/storage/volumes/#using-a-volume",
    "securityContext" := "https://k8s.io/docs/tasks/configure-pod-container/security-context/"
  ]

  // The explanatory texts, one per annotated block.
  const MetadataNote := "PodやServiceなどのAPIオブジェクトを識別するためのデータ"
  const LabelsNote := "オブジェクトを整理・選択するためのKey-Valueペア"
  const AnnotationsNote := "ツールなどが利用する、識別目的ではない任意のメタデータ"
  const SpecNote := "Podの望ましい状態を定義するSpec"
  const ServiceAccountNote := "PodがAPIサーバーと通信する際に使用するサービスアカウント"
  const RestartPolicyNote := "Pod内のコンテナが終了した際の再起動ポリシー (Always, OnFailure, Never)"
  const SecurityContextNote := "Pod全体に適用されるセキュリティ設定"
  const NodeSelectorNote := "Podを特定のラベルを持つノードにスケジュールするためのセレクタ"
  const TolerationsNote := "ノードのTaint(汚染)を許容し、そのノードでスケジュールされるための設定"
  const VolumesNote := "コンテナが利用できるストレージボリュームのリスト"
  const ContainersNote := "Pod内で実行されるコンテナのリスト (最低1つは必須)"
  const CommandNote := "コンテナのデフォルトENTRYPOINTを上書き"
  const ArgsNote := "コンテナのデフォルトCMDを上書き"
  const EnvNote := "Key-Value形式で環境変数を設定"
  const EnvFromNote := "ConfigMapやSecretから環境変数をまとめて読み込む"
  const ResourcesNote := "コンテナが要求/使用制限されるリソース量"
  const ProbeNoteSuffix := "Probe: コンテナのヘルスチェック"
  const VolumeMountsNote := "コンテナ内にボリュームをマウントする設定"

  /** A manifest line that is commentary rather than YAML content. */
  predicate IsComment(line: string) {
    |line| >= 2 && line[0] == '#' && line[1] == ' '
  }

  /** `K8S_DOCS[key] || ''`: the topic's URL, or empty for an unknown topic. */
  function DocUrl(docKey: string): string {
    if docKey in K8sDocs then K8sDocs[docKey] else ""
  }

  /** The comment as output lines: none when the mode is off, otherwise the
      text line followed by the documentation line when the topic has a URL. */
  function CommentLines(annotate: bool, text: string, docKey: string): seq<string> {
    if !annotate then [] else NoteLines(text, DocUrl(docKey))
  }

  /** The comment is nothing when the mode is off; otherwise the text line,
      then the documentation line exactly when the topic has a URL. Every
      line it adds is a comment. */
  lemma CommentLinesShape(annotate: bool, text: string, docKey: string)
    ensures var r := CommentLines(annotate, text, docKey);
            && (!annotate ==> r == [])
            && (annotate ==> |r| == (if DocUrl(docKey) != "" then 2 else 1) && r[0] == "# " + text)
            && (annotate && DocUrl(docKey) != "" ==> r[1] == "# Doc: " + DocUrl(docKey))
            && (forall i :: 0 <= i < |r| ==> IsComment(r[i]))
  {
  }

  function NoteLines(text: string, url: string): (r: seq<string>)
    ensures forall i :: 0 <= i < |r| ==> IsComment(r[i])
  {
    if url != "" then
      ["# " + text, "# Doc: " + url]
    else
      ["# " + text]
  }

  /** The text form of a comment is its lines, each after a newline. */
  lemma {:induction false} NoteText(text: string, url: string)
    ensures "\n# " + text + (if url != "" then "\n# Doc: " + url else "")
         == PrefixEach("\n", NoteLines(text, url))
  {
    var lines := NoteLines(text, url);
    assert "\n# " == "\n" + "# ";
    assert "\n# Doc: " == "\n" + "# Doc: ";
    if url != "" {
      assert lines[1..][1..] == [];
      assert lines[1..][0] == lines[1];
      assert PrefixEach("\n", lines[1..]) == "\n" + lines[1] + "";
    } else {
      assert lines[1..] == [];
    }
  }

  /** `ckadComment(text, docUrlKey)`: the empty string when the mode is off,
      else a newline-prefixed comment line plus, when the topic has a URL, a
      newline-prefixed documentation line. This is exactly the comment
      lines, each appended after a newline. */
  function CkadComment(annotate: bool, text: string, docKey: string): (r: string)
    ensures r == PrefixEach("\n", CommentLines(annotate, text, docKey))
  {
    if !annotate then ""
    else
      var url := DocUrl(docKey);
      var docLine := if url != "" then "\n# Doc: " + url else "";
      NoteText(text, url);
      "\n# " + text + docLine
  }

  /** Exactly the listed topics carry a documentation line. */
  lemma {:induction false} DocumentedTopics(docKey: string)
    ensures DocUrl(docKey) != "" <==> docKey in K8sDocs
  {
    if docKey in K8sDocs {
      assert |K8sDocs[docKey]| > 0;
    }
  }

  /** The comment before `spec:` has no documentation line. */
  lemma {:induction false} SpecCommentHasNoLink(annotate: bool)
    ensures CommentLines(annotate, SpecNote, "spec") == (if annotate then ["# " + SpecNote] else [])
  {
    assert "spec" !in K8sDocs;
  }
}
