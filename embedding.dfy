/**
 * `simpleEmbedder`: a wrapper around the remote embeddings call that never lets
 * a failure escape. The remote service is a parameter: for the list of texts it
 * is asked about, it either answers or throws.
 */
module Embedding {

  /** One entry of the service's `data` list. */
  datatype EmbeddingItem = EmbeddingItem(embedding: seq<real>)

  /** The service's response: `{ data: [{ embedding }, ...] }`. */
  datatype EmbeddingsResponse = EmbeddingsResponse(data: seq<EmbeddingItem>)

  /** What the awaited remote call does: resolve with a response or throw. */
  datatype RemoteOutcome = Returned(response: EmbeddingsResponse) | Threw(error: string)

  /** The argument of `embed`: `{ text }`. */
  datatype EmbedArgs = EmbedArgs(text: string)

  /** The result of `embed`: `{ embedding }`. An empty vector stands for "no embedding". */
  datatype EmbedResult = EmbedResult(embedding: seq<real>)

  /**
   * `simpleEmbedder().embed(query)`. The remote service is asked about exactly
   * `[query.text]`. A thrown error is caught and yields the empty embedding; so does a
   * response with no `data` entry, since reading `data[0].embedding` then throws
   * inside the same `try`. Otherwise the first returned vector is the result. The
   * result type has no failure case: the wrapper never throws.
   */
  function Embed(getEmbeddings: seq<string> -> RemoteOutcome, query: EmbedArgs): (r: EmbedResult)
    ensures getEmbeddings([query.text]).Threw? ==> r.embedding == []
    ensures getEmbeddings([query.text]).Returned? && |getEmbeddings([query.text]).response.data| == 0
      ==> r.embedding == []
    ensures getEmbeddings([query.text]).Returned? && |getEmbeddings([query.text]).response.data| > 0
      ==> r.embedding == getEmbeddings([query.text]).response.data[0].embedding
  {
    match getEmbeddings([query.text])
    case Threw(_) => EmbedResult([])
    case Returned(response) =>
      if |response.data| == 0 then EmbedResult([]) else EmbedResult(response.data[0].embedding)
  }

  /**
   * A non-empty embedding always comes from a successful call: it is the first
   * vector the service returned for the query's text.
   */
  lemma NonEmptyEmbeddingIsGenuine(getEmbeddings: seq<string> -> RemoteOutcome, query: EmbedArgs)
    requires Embed(getEmbeddings, query).embedding != []
    ensures getEmbeddings([query.text]).Returned?
    ensures |getEmbeddings([query.text]).response.data| > 0
    ensures Embed(getEmbeddings, query).embedding == getEmbeddings([query.text]).response.data[0].embedding
  {
  }

  /**
   * The wrapper cannot be told apart from a service that succeeded with an empty
   * vector: a failure and that success give the same result.
   */
  lemma FailureLooksLikeEmptySuccess(query: EmbedArgs)
    ensures Embed(_ => Threw("unreachable"), query) == Embed(_ => Returned(EmbeddingsResponse([EmbeddingItem([])])), query)
  {
  }
}
