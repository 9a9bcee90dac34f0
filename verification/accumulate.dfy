/** The output text as the source builds it: a string that starts as
    `apiVersion: v1\nkind: Pod` and grows block by block, each block adding
    its `ckadComment` (empty in plain mode) and then its lines, each after a
    newline. The renderer's joined lines are that same string. */
module Accumulate {
  import opened Text
  import opened Pod
  import opened Annotate
  import opened Render

  /** What one block appends to the output. */
  function BlockText(annotate: bool, b: Block): string {
    match b
    case Plain(lines) => PrefixEach("\n", lines)
    case Noted(note, docKey, lines) => CkadComment(annotate, note, docKey) + PrefixEach("\n", lines)
  }

  function EmitText(annotate: bool, blocks: seq<Block>): string {
    if |blocks| == 0 then "" else BlockText(annotate, blocks[0]) + EmitText(annotate, blocks[1..])
  }

  /** `let yaml = "apiVersion: v1\nkind: Pod"` followed by every `yaml +=`. */
  function AccumulatedText(s: PodState, annotate: bool): string {
    "apiVersion: v1\nkind: Pod" + EmitText(annotate, Blocks(s))
  }

  lemma BlockTextLines(annotate: bool, b: Block)
    ensures BlockText(annotate, b) == PrefixEach("\n", BlockLines(annotate, b))
  {
    match b
    case Plain(_) =>
    case Noted(note, docKey, lines) =>
      PrefixEachConcat("\n", CommentLines(annotate, note, docKey), lines);
  }

  /** The text appended for a run of blocks is their lines, each after a
      newline. */
  lemma {:induction false} EmitTextLines(annotate: bool, blocks: seq<Block>)
    ensures EmitText(annotate, blocks) == PrefixEach("\n", Emit(annotate, blocks))
  {
    if |blocks| > 0 {
      BlockTextLines(annotate, blocks[0]);
      EmitTextLines(annotate, blocks[1..]);
      PrefixEachConcat("\n", BlockLines(annotate, blocks[0]), Emit(annotate, blocks[1..]));
    }
  }

  lemma HeaderPiece()
    ensures "apiVersion: v1" + PrefixEach("\n", ["kind: Pod"]) == "apiVersion: v1\nkind: Pod"
  {
    assert PrefixEach("\n", ["kind: Pod"]) == "\n" + "kind: Pod" + PrefixEach("\n", []);
  }

  lemma Assoc(a: string, b: string, c: string)
    ensures a + (b + c) == a + b + c
  {
  }

  /** The source's accumulated string and the joined lines are the same
      text, in either mode. */
  lemma AccumulatedIsGenerated(s: PodState, annotate: bool)
    ensures AccumulatedText(s, annotate) == GenerateYaml(s, annotate)
  {
    var lines := RenderLines(s, annotate);
    var body := Emit(annotate, Blocks(s));
    JoinIsAccumulation(lines, "\n");
    assert lines[1..] == ["kind: Pod"] + body;
    PrefixEachConcat("\n", ["kind: Pod"], body);
    EmitTextLines(annotate, Blocks(s));
    HeaderPiece();
    Assoc("apiVersion: v1", PrefixEach("\n", ["kind: Pod"]), PrefixEach("\n", body));
  }
}
