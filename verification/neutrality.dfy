/** The explanatory comments are neutral: removing the comment lines from
    the annotated manifest gives back the plain manifest, line for line.
    This holds because no YAML line the renderer writes looks like a
    comment: every one starts with a letter or with spaces. As a
    consequence the outlines hold in both modes. */
module Neutrality {
  import opened Seqs
  import opened Pod
  import opened Annotate
  import opened Render
  import opened Shapes
  import opened BlockShapes
  import opened Outline

  /** Filtering one block's annotated lines drops exactly its comment. */
  lemma BlockNeutral(b: Block)
    requires AllContent(b.lines)
    ensures Filter(IsContent, BlockLines(true, b)) == BlockLines(false, b)
  {
    FilterKeepsAll(IsContent, b.lines);
    match b
    case Plain(lines) =>
    case Noted(note, docKey, lines) =>
      var comment := CommentLines(true, note, docKey);
      CommentLinesShape(true, note, docKey);
      FilterConcat(IsContent, comment, lines);
      FilterDropsAll(IsContent, comment);
  }

  lemma ContentSplit(x: seq<string>, y: seq<string>)
    requires AllContent(x + y)
    ensures AllContent(x) && AllContent(y)
  {
    assert forall l :: l in x ==> l in x + y;
    assert forall l :: l in y ==> l in x + y;
  }

  /** When the plain lines of a run of blocks hold no comment, filtering the
      annotated lines gives the plain lines. */
  lemma {:induction false} EmitNeutral(bs: seq<Block>)
    requires AllContent(Emit(false, bs))
    ensures Filter(IsContent, Emit(true, bs)) == Emit(false, bs)
  {
    if |bs| > 0 {
      PlainBlock(bs[0]);
      ContentSplit(bs[0].lines, Emit(false, bs[1..]));
      BlockNeutral(bs[0]);
      FilterConcat(IsContent, BlockLines(true, bs[0]), Emit(true, bs[1..]));
      EmitNeutral(bs[1..]);
    }
  }

  lemma HeaderContent()
    ensures Filter(IsContent, HeaderLines) == HeaderLines
  {
    TopLines();
    FilterKeepsAll(IsContent, HeaderLines);
  }

  /** Removing the comment lines from the annotated manifest's lines gives
      the plain manifest's lines. */
  lemma ManifestNeutral(s: PodState)
    ensures Filter(IsContent, RenderLines(s, true)) == RenderLines(s, false)
  {
    PlainLevel(s);
    ContentSplit(HeaderLines, Emit(false, Blocks(s)));
    HeaderContent();
    EmitNeutral(Blocks(s));
    FilterConcat(IsContent, HeaderLines, Emit(true, Blocks(s)));
  }

  /** Annotating only inserts comment lines. */
  lemma AnnotationOnlyComments(s: PodState)
    ensures forall l :: l in RenderLines(s, true) && l !in RenderLines(s, false) ==> IsComment(l)
  {
    ManifestNeutral(s);
  }

  /** In either mode the manifest's pod-level keys are the outline. */
  lemma PodOutlineOf(s: PodState, annotate: bool)
    ensures Filter(PodKey, RenderLines(s, annotate)) == PodOutline(s)
  {
    PlainLevel(s);
    if annotate {
      ManifestNeutral(s);
      FilterFilter(PodKey, IsContent, RenderLines(s, true));
    }
  }

  /** In either mode the container entry's keys are its outline. */
  lemma ContainerOutlineOf(c: Container, annotate: bool)
    ensures Filter(ContainerKey, Emit(annotate, ContainerBlocks(c))) == ContainerOutline(c)
  {
    ContainerLevelOf(c);
    if annotate {
      NestedLines(Emit(false, ContainerBlocks(c)));
      EmitNeutral(ContainerBlocks(c));
      FilterFilter(ContainerKey, IsContent, Emit(true, ContainerBlocks(c)));
    }
  }
}
