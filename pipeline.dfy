/**
 * The stages put together for one request: the query goes through the embedder,
 * the search returns chunks, and the prompt assembler builds the message. These
 * lemmas follow a request through the modelled stages.
 */
module Pipeline {
  import opened JsText
  import opened Chat
  import opened Embedding
  import opened UserMessages
  import opened Retrieval
  import opened QueryPreprocessor

  /**
   * When the embeddings service fails, the embedder answers with the empty vector;
   * a search that then finds nothing yields a message whose information section is
   * empty and whose question is the user's text, intact.
   */
  lemma EmbeddingFailureKeepsQuestion(getEmbeddings: seq<string> -> RemoteOutcome, query: string)
    requires getEmbeddings([query]).Threw?
    ensures var e := Embed(getEmbeddings, EmbedArgs(query)).embedding;
      && e == []
      && MakeUserMessage(query, [], e)
         == UserMessage(User, query, [], InformationStart + InformationEnd + query + QuestionEnd)
  {
    var e := Embed(getEmbeddings, EmbedArgs(query)).embedding;
    ContextLength([]);
    assert InformationStart + "" == InformationStart;
  }

  /** A two-word query passes the preprocessor's widening step unchanged. */
  lemma TwoWordQueryNotWidened()
    ensures WidenQuery("vector search") == "vector search"
  {
    var q := "vector search";
    assert Trim(q) == q by {
      assert q[0] == 'v' && q[|q| - 1] == 'h';
      TrimOfTrimmed(q);
    }
    assert !NoWhitespace(q) by {
      assert q[6] == ' ';
    }
  }

  /** Three chunk texts are joined with a separator line between each pair. */
  lemma ThreeChunkContext(chunks: seq<Chunk>)
    requires |chunks| == 3
    ensures Context(chunks) == chunks[0].text + "\n~~~~~~\n" + chunks[1].text + "\n~~~~~~\n" + chunks[2].text
  {
    var texts := ChunkTexts(chunks);
    var a, b, c := chunks[0].text, chunks[1].text, chunks[2].text;
    assert texts == [a, b, c];
    assert Join([c], ContextSeparator) == c;
    assert [a, b, c][1..] == [b, c] && [b, c][1..] == [c];
    assert Join([b, c], ContextSeparator) == b + ContextSeparator + c;
  }

  /** The message for the model over three chunks, written out. */
  lemma ThreeChunkMessage(question: string, chunks: seq<Chunk>, queryEmbedding: seq<real>)
    requires |chunks| == 3
    ensures MakeUserMessage(question, chunks, queryEmbedding).contentForLlm
      == InformationStart + chunks[0].text + "\n~~~~~~\n" + chunks[1].text + "\n~~~~~~\n" + chunks[2].text
         + InformationEnd + question + QuestionEnd
  {
    ThreeChunkContext(chunks);
  }

  /** The chunks a search might return for "vector search": best first, all above the threshold. */
  function ExampleChunks(a: string, b: string, c: string): (chunks: seq<Chunk>)
    ensures |chunks| == 3
    ensures chunks[0].text == a && chunks[1].text == b && chunks[2].text == c
  {
    [Chunk(a, "s1", 0.95), Chunk(b, "s2", 0.92), Chunk(c, "s3", 0.91)]
  }

  /** The example chunks are a result the configured search can return. */
  lemma ExampleChunksMeetSearchOptions(a: string, b: string, c: string)
    ensures MeetsSearchOptions(ExampleChunks(a, b, c))
  {
    var chunks := ExampleChunks(a, b, c);
    assert chunks[0].score == 0.95 && chunks[1].score == 0.92 && chunks[2].score == 0.91;
  }

  /**
   * Three chunks found for "vector search" appear in the message for the model in
   * their order, separated by the separator line, with the question section holding
   * exactly the query.
   */
  lemma ThreeChunkExample(a: string, b: string, c: string, queryEmbedding: seq<real>)
    ensures MakeUserMessage("vector search", ExampleChunks(a, b, c), queryEmbedding).contentForLlm
      == InformationStart + a + "\n~~~~~~\n" + b + "\n~~~~~~\n" + c + InformationEnd + "vector search" + QuestionEnd
  {
    ThreeChunkMessage("vector search", ExampleChunks(a, b, c), queryEmbedding);
  }
}
