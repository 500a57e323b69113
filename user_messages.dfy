/**
 * The prompt assembler `makeUserMessage`: the retrieved chunk texts, joined by a
 * separator line, go into a fixed `<Information>` template followed by the user's
 * question in a `<Question>` block; the user's own message is kept unchanged for
 * storage and display.
 */
module UserMessages {
  import opened JsText
  import opened Chat

  /** A chunk of embedded content found for the query; only its `text` reaches the prompt. */
  datatype Chunk = Chunk(text: string, sourceId: string, score: real)

  /** The message `makeUserMessage` builds: what is stored and shown, and what the model reads. */
  datatype UserMessage = UserMessage(role: Role, content: string, embedding: seq<real>, contentForLlm: string)

  const ChunkSeparator: string := "~~~~~~"

  /** The string the chunk texts are joined with: the separator on a line of its own. */
  const ContextSeparator: string := "\n" + ChunkSeparator + "\n"

  /** The template up to and including the line `<Information>`. */
  const InformationStart: string :=
    "Using the following information, answer the question.\n"
    + "Different pieces of information are separated by \"" + ChunkSeparator + "\".\n"
    + "\n"
    + "<Information>\n"

  /** The template between the context and the question. */
  const InformationEnd: string := "\n<End information>\n\n<Question>\n"

  /** The template after the question. */
  const QuestionEnd: string := "\n<End Question>"

  /** `content.map((c) => c.text)` */
  function ChunkTexts(chunks: seq<Chunk>): seq<string> {
    seq(|chunks|, i requires 0 <= i < |chunks| => chunks[i].text)
  }

  /** The information block: the chunk texts joined by `ContextSeparator`. */
  function Context(chunks: seq<Chunk>): string {
    Join(ChunkTexts(chunks), ContextSeparator)
  }

  /** The filled-in template literal. */
  function LlmMessage(context: string, question: string): string {
    InformationStart + context + InformationEnd + question + QuestionEnd
  }

  /**
   * `makeUserMessage({ originalUserMessage, content, queryEmbedding })`. The stored
   * message is the user's own text, unchanged, with the query's embedding; only
   * `contentForLlm` carries the retrieved context.
   */
  function MakeUserMessage(originalUserMessage: string, content: seq<Chunk>, queryEmbedding: seq<real>): (r: UserMessage)
    ensures r.role == User
    ensures r.content == originalUserMessage
    ensures r.embedding == queryEmbedding
  {
    UserMessage(User, originalUserMessage, queryEmbedding, LlmMessage(Context(content), originalUserMessage))
  }

  // ---------------------------------------------------------------- the context block

  /** No chunks give an empty context; n chunks take their lengths plus 8 characters per separator. */
  lemma ContextLength(chunks: seq<Chunk>)
    ensures |chunks| == 0 ==> Context(chunks) == ""
    ensures |chunks| >= 1 ==> |Context(chunks)| == TotalLength(ChunkTexts(chunks)) + 8 * (|chunks| - 1)
  {
    if |chunks| >= 1 {
      JoinLength(ChunkTexts(chunks), ContextSeparator);
    }
  }

  /** Where chunk `i`'s text starts in the context. */
  function ChunkOffset(chunks: seq<Chunk>, i: nat): nat
    requires i <= |chunks|
  {
    Offset(ChunkTexts(chunks), |ContextSeparator|, i)
  }

  /** Chunk `i`'s text appears verbatim in the context at its offset. */
  lemma ChunkInContext(chunks: seq<Chunk>, i: nat)
    requires i < |chunks|
    ensures ChunkOffset(chunks, i) + |chunks[i].text| <= |Context(chunks)|
    ensures Context(chunks)[ChunkOffset(chunks, i)..ChunkOffset(chunks, i) + |chunks[i].text|] == chunks[i].text
  {
    JoinAt(ChunkTexts(chunks), ContextSeparator, i);
  }

  /** Between chunk `i` and chunk `i + 1` stands exactly the separator line. */
  lemma SeparatorAfterChunk(chunks: seq<Chunk>, i: nat)
    requires i + 1 < |chunks|
    ensures ChunkOffset(chunks, i + 1) == ChunkOffset(chunks, i) + |chunks[i].text| + 8
    ensures ChunkOffset(chunks, i + 1) <= |Context(chunks)|
    ensures Context(chunks)[ChunkOffset(chunks, i) + |chunks[i].text|..ChunkOffset(chunks, i + 1)] == "\n~~~~~~\n"
  {
    JoinSeparatorAt(ChunkTexts(chunks), ContextSeparator, i);
  }

  /** The chunks keep their order: chunk `i`'s text ends before chunk `j`'s begins. */
  lemma ChunksInOrder(chunks: seq<Chunk>, i: nat, j: nat)
    requires i < j < |chunks|
    ensures ChunkOffset(chunks, i) + |chunks[i].text| < ChunkOffset(chunks, j)
  {
    OffsetIncreasing(ChunkTexts(chunks), |ContextSeparator|, i, j);
  }

  lemma {:induction false} CountInAllZero(c: char, parts: seq<string>)
    requires forall i :: 0 <= i < |parts| ==> Count(c, parts[i]) == 0
    ensures CountInAll(c, parts) == 0
  {
    if parts != [] {
      CountInAllZero(c, parts[1..]);
    }
  }

  /**
   * When no chunk text contains a tilde, the context holds exactly the tildes of
   * `n - 1` separator lines, six apiece, and none for no chunks.
   */
  lemma SeparatorCount(chunks: seq<Chunk>)
    requires forall i :: 0 <= i < |chunks| ==> Count('~', chunks[i].text) == 0
    ensures |chunks| == 0 ==> Count('~', Context(chunks)) == 0
    ensures |chunks| >= 1 ==> Count('~', Context(chunks)) == 6 * (|chunks| - 1)
  {
    if |chunks| >= 1 {
      var texts := ChunkTexts(chunks);
      CountInAllZero('~', texts);
      JoinCount('~', texts, ContextSeparator);
      assert Count('~', ContextSeparator) == 6 by {
        var sep := ContextSeparator;
        assert Count('~', sep[8..]) == 0;
        assert Count('~', sep[7..]) == 0;
        assert Count('~', sep[6..]) == 1;
        assert Count('~', sep[5..]) == 2;
        assert Count('~', sep[4..]) == 3;
        assert Count('~', sep[3..]) == 4;
        assert Count('~', sep[2..]) == 5;
        assert Count('~', sep[1..]) == 6;
      }
    }
  }

  // ---------------------------------------------------------------- the text the model reads

  /**
   * `contentForLlm` is the fixed preamble ending in `<Information>`, the context,
   * the `<End information>`/`<Question>` lines, the original message verbatim,
   * and the `<End Question>` line, in that order.
   */
  lemma LlmMessageLayout(originalUserMessage: string, content: seq<Chunk>, queryEmbedding: seq<real>)
    ensures var llm := MakeUserMessage(originalUserMessage, content, queryEmbedding).contentForLlm;
      var ctx := Context(content);
      var q := |InformationStart| + |ctx| + |InformationEnd|;
      && |llm| == q + |originalUserMessage| + |QuestionEnd|
      && llm[..|InformationStart|] == InformationStart
      && llm[|InformationStart|..|InformationStart| + |ctx|] == ctx
      && llm[|InformationStart| + |ctx|..q] == InformationEnd
      && llm[q..q + |originalUserMessage|] == originalUserMessage
      && llm[q + |originalUserMessage|..] == QuestionEnd
  {
    Concat5Layout(InformationStart, Context(content), InformationEnd, originalUserMessage, QuestionEnd);
  }

  /** A piece found in the middle string of a concatenation is found there shifted by the first. */
  lemma EmbeddedSlice(pre: string, mid: string, post: string, at: nat, t: string)
    requires at + |t| <= |mid| && mid[at..at + |t|] == t
    ensures |pre| + at + |t| <= |pre + mid + post|
    ensures (pre + mid + post)[|pre| + at..|pre| + at + |t|] == t
  {
    assert pre + mid + post == pre + (mid + post);
    SliceOfSecond(pre, mid + post, at, at + |t|);
    assert (mid + post)[at..at + |t|] == mid[at..at + |t|];
  }

  /** Chunk `i`'s text appears verbatim in `contentForLlm`, right after the preamble and earlier chunks. */
  lemma ChunkInLlmMessage(originalUserMessage: string, content: seq<Chunk>, queryEmbedding: seq<real>, i: nat)
    requires i < |content|
    ensures var llm := MakeUserMessage(originalUserMessage, content, queryEmbedding).contentForLlm;
      var at := |InformationStart| + ChunkOffset(content, i);
      at + |content[i].text| <= |llm| && llm[at..at + |content[i].text|] == content[i].text
  {
    ChunkInContext(content, i);
    EmbeddedSlice(InformationStart, Context(content), InformationEnd + originalUserMessage + QuestionEnd,
      ChunkOffset(content, i), content[i].text);
  }

  /** Different questions over the same chunks give different texts for the model. */
  lemma QuestionDeterminesLlmMessage(m1: string, m2: string, content: seq<Chunk>, e1: seq<real>, e2: seq<real>)
    requires MakeUserMessage(m1, content, e1).contentForLlm == MakeUserMessage(m2, content, e2).contentForLlm
    ensures m1 == m2
  {
    LlmMessageLayout(m1, content, e1);
    LlmMessageLayout(m2, content, e2);
  }

  /**
   * The result depends on the chunks only through their texts, in order; scores and
   * sources do not reach the prompt, and equal inputs give equal messages.
   */
  lemma OnlyChunkTextsMatter(originalUserMessage: string, a: seq<Chunk>, b: seq<Chunk>, queryEmbedding: seq<real>)
    requires |a| == |b| && forall i :: 0 <= i < |a| ==> a[i].text == b[i].text
    ensures MakeUserMessage(originalUserMessage, a, queryEmbedding) == MakeUserMessage(originalUserMessage, b, queryEmbedding)
  {
    assert ChunkTexts(a) == ChunkTexts(b);
  }

  /** With no chunks the information section is empty and the question is intact. */
  lemma NoChunksEmptyInformation(originalUserMessage: string, queryEmbedding: seq<real>)
    ensures MakeUserMessage(originalUserMessage, [], queryEmbedding).contentForLlm
      == InformationStart + "\n<End information>\n\n<Question>\n" + originalUserMessage + "\n<End Question>"
  {
    ContextLength([]);
  }
}
