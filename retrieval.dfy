/**
 * Content retrieval as the application configures it. The nearest-neighbour search
 * itself belongs to the chat-server library and is a parameter here; the application
 * contributes its settings and the logging wrapper `findContentWithLogs`.
 */
module Retrieval {
  import opened Options
  import opened UserMessages

  /** `findNearestNeighborsOptions.k`: at most this many chunks are asked for. */
  const K: nat := 5

  /** `findNearestNeighborsOptions.minScore`: the least similarity a chunk may have. */
  const MinScore: real := 0.9

  /** `{ queryEmbedding, content }`: what a content search resolves with. */
  datatype FindContentResult = FindContentResult(queryEmbedding: seq<real>, content: seq<Chunk>)

  /** The argument of `findContentWithLogs`: `{ query }`. */
  datatype FindContentArgs = FindContentArgs(query: string)

  /**
   * What the configured search is documented to return: at most `K` chunks, each
   * scoring at least `MinScore`, best first.
   */
  predicate MeetsSearchOptions(chunks: seq<Chunk>) {
    && |chunks| <= K
    && (forall i :: 0 <= i < |chunks| ==> chunks[i].score >= MinScore)
    && (forall i, j :: 0 <= i < j < |chunks| ==> chunks[i].score >= chunks[j].score)
  }

  /**
   * `findContentWithLogs({ query })`: hands `query` to the search and, after logging,
   * returns what the search resolved with, or fails as it failed. Logging is not
   * modelled; the wrapper adds nothing else.
   */
  function FindContentWithLogs(findContent: string -> Result<FindContentResult, string>, args: FindContentArgs)
    : (r: Result<FindContentResult, string>)
    ensures r == findContent(args.query)
  {
    var result := findContent(args.query);
    result
  }
}
