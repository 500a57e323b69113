# Retrieval-augmented chat backend: query preprocessing and prompt assembly

This project models the core of a chat backend that answers questions from a
store of embedded content. The model has two halves.

- **Answering a question.** The raw message is embedded by a wrapper that never
  throws (`simpleEmbedder`). The nearest chunks are looked up with fixed search
  settings (at most 5 chunks, similarity at least 0.9). A logging wrapper
  (`findContentWithLogs`) hands the query to that search. The prompt assembler
  (`makeUserMessage`) then joins the chunk texts with a `~~~~~~` separator line.
  It wraps them in an `<Information>` block, followed by the question in a
  `<Question>` block. The user's own message is kept unchanged for storage.
- **Rewriting a follow-up.** The MongoDB query preprocessor
  (`makePreprocessMongoDbUserQuery`) asks a translation service to rewrite a
  follow-up as a standalone question. Its prompt
  (`generateMongoDbQueryPreProcessorPrompt`) has two parts:
  - The trimmed query. A one-word query is widened with ` for MongoDB`.
  - A conversation history made of the last four non-system turns.

  The extracted metadata is then written into the rewritten query
  (`addMetadataToQuery`).

All three core files compute values without mutating anything, so the model is
made of datatypes, functions and lemmas. Remote and library code is passed in as
function-typed parameters:
- the embeddings service;
- the content search;
- the TypeChat translation function;
- `updateFrontMatter`.

Each JavaScript string operation is modelled by its ECMAScript meaning:
- `trim` and `\s` use the WhiteSpace and LineTerminator code points;
- `split(/\s/)` yields one more piece than there are whitespace characters, and `""` gives `[""]`;
- `slice` with a negative start counts back from the end, and `slice(-0)` is `slice(0)`;
- `reduce` is a left fold;
- `join` is modelled as it behaves.

Modules:
- `Options` holds the Option and Result types.
- `JsText` holds the string operations and their lemmas.
- `Chat` holds roles and messages.
- `UserMessages` models `makeUserMessage`.
- `Embedding` models `simpleEmbedder`.
- `Retrieval` holds the search settings and `findContentWithLogs`.
- `QueryPreprocessor` models the preprocessor file.
- `Pipeline` holds the end-to-end scenarios.

The TypeScript source and its compiled JavaScript define `makeUserMessage` with the
same expression. One definition models both.

## Model

| member | source | states |
|---|---|---|
| UserMessages.MakeUserMessage | backend/src/app.ts:70-75 | the stored message has role user, the original message verbatim as content, and the query embedding |
| UserMessages.ContextLength | backend/src/app.ts:57-58 | no chunks give the empty context; n chunks give their lengths plus 8 characters for each of the n-1 separator lines |
| UserMessages.ChunkInContext | backend/src/app.ts:58 | every chunk text appears verbatim in the context at its offset |
| UserMessages.SeparatorAfterChunk | backend/src/app.ts:57-58 | between consecutive chunks stands exactly `\n~~~~~~\n`, and nothing else |
| UserMessages.ChunksInOrder | backend/src/app.ts:58 | chunk i ends before chunk j begins whenever i < j: the input order is kept |
| UserMessages.SeparatorCount | backend/src/app.ts:57-58 | with tilde-free chunk texts the context holds exactly 6(n-1) tildes, so the separators can be counted back |
| UserMessages.LlmMessageLayout | backend/src/app.ts:59-68 | the text for the model is the fixed preamble, the context, the end-of-information and question header, the original message, and the closing line, in that order |
| UserMessages.ChunkInLlmMessage | backend/dist/app.js:30-40 | every chunk text appears verbatim in the text for the model, after the preamble |
| UserMessages.QuestionDeterminesLlmMessage | backend/src/app.ts:66-68 | the question section holds exactly the original message: different questions give different texts |
| UserMessages.OnlyChunkTextsMatter | backend/dist/app.js:30 | scores and sources do not reach the message; only the chunk texts, in order, do |
| UserMessages.NoChunksEmptyInformation | backend/src/app.ts:59-68 | with no chunks the information section is empty and the question is intact |
| Embedding.Embed | backend/src/app.ts:111-125 | a thrown call and a response without data both give the empty vector; otherwise the first returned vector; the service is asked about exactly the query text |
| Embedding.NonEmptyEmbeddingIsGenuine | backend/src/app.ts:115-118 | a non-empty embedding comes only from a successful call, and is its first vector |
| Embedding.FailureLooksLikeEmptySuccess | backend/src/app.ts:119-122 | a failure cannot be told apart from a success that returned an empty vector |
| Retrieval.FindContentWithLogs | backend/dist/app.js:87-91 | the wrapper hands the query to the search and returns its result or failure unchanged |
| QueryPreprocessor.WidenQuery | backend/dist/processors/makePreprocessMongoDbUserQuery.js:48-54 | the query is trimmed, then gets ` for MongoDB` exactly when it holds no whitespace and is not `mongodb` in any ASCII case |
| QueryPreprocessor.WidenQueryIdempotent | backend/dist/processors/makePreprocessMongoDbUserQuery.js:48-54 | for a non-blank query a second widening changes nothing |
| QueryPreprocessor.WidenQueryBlank | backend/dist/processors/makePreprocessMongoDbUserQuery.js:52-54 | a blank query trims to `""`, which splits into one piece, so it becomes ` for MongoDB` |
| QueryPreprocessor.WidenQueryTwiceOnBlank | backend/dist/processors/makePreprocessMongoDbUserQuery.js:48-54 | on that result a second widening gives `for MongoDB`: widening is not idempotent on blank queries |
| QueryPreprocessor.WidenQueryDomainName | backend/dist/processors/makePreprocessMongoDbUserQuery.js:52 | the domain's own name, in any letter case, is only trimmed |
| QueryPreprocessor.NonSystemTurns | backend/dist/processors/makePreprocessMongoDbUserQuery.js:57 | the kept turns are at most as many as the messages, none is a system turn, and each comes from the messages |
| QueryPreprocessor.NonSystemTurnsAppend | backend/dist/processors/makePreprocessMongoDbUserQuery.js:57 | the filter distributes over concatenation, so the original order is kept |
| QueryPreprocessor.NonSystemTurnsKeepsAll | backend/dist/processors/makePreprocessMongoDbUserQuery.js:57 | a conversation without system turns is kept whole |
| QueryPreprocessor.SliceFromEnd | backend/dist/processors/makePreprocessMongoDbUserQuery.js:58 | `slice(0 - n)` gives a suffix of the input: all of it for n = 0, and min(n, length) elements for n ≥ 1 |
| QueryPreprocessor.LastN | backend/dist/processors/makePreprocessMongoDbUserQuery.js:58 | the window has min(n, length) elements and is a suffix of the input |
| QueryPreprocessor.SliceFromEndIsLastN | backend/dist/processors/makePreprocessMongoDbUserQuery.js:58 | for every positive count, `slice(0 - n)` takes the last n elements |
| QueryPreprocessor.SliceFromEndZeroKeepsAll | backend/dist/processors/makePreprocessMongoDbUserQuery.js:58 | for a count of 0, `slice(0 - n)` keeps everything, whereas the last 0 elements are none |
| QueryPreprocessor.RoleLabelStart | backend/dist/processors/makePreprocessMongoDbUserQuery.js:60 | every upper-cased role tag starts with U, A or S |
| QueryPreprocessor.RenderFrom | backend/dist/processors/makePreprocessMongoDbUserQuery.js:59-61 | the fold keeps its start value as a prefix; it returns the start value for no turns, and otherwise adds at least the first turn's block |
| QueryPreprocessor.RenderIsConcatenation | backend/dist/processors/makePreprocessMongoDbUserQuery.js:59-61 | the fold appends every kept turn's `\n\nROLE:\ncontent` block, oldest first, to its start value |
| QueryPreprocessor.HistoryWindow | backend/dist/processors/makePreprocessMongoDbUserQuery.js:56-58 | the window holds min(n, non-system count) turns and is the tail of the non-system turns; each turn is non-system and comes from the messages |
| QueryPreprocessor.ConversationHistoryAsWritten | backend/dist/processors/makePreprocessMongoDbUserQuery.js:55-63 | the history as the code computes it: the sentinel for no messages; otherwise trimmed (no whitespace at either end) and no longer than the rendered window |
| QueryPreprocessor.ConversationHistory | backend/dist/processors/makePreprocessMongoDbUserQuery.js:55-63 | the history with the intended last-n window: the sentinel for no messages; otherwise trimmed and no longer than the rendered window |
| QueryPreprocessor.HistoryAsWrittenAgrees | backend/dist/processors/makePreprocessMongoDbUserQuery.js:55-63 | for every positive count, including the default 4, the history as written equals the corrected one |
| QueryPreprocessor.HistoryIsTrimmedBlocks | backend/dist/processors/makePreprocessMongoDbUserQuery.js:55-62 | for a non-empty conversation the history is the window's blocks, trimmed |
| QueryPreprocessor.HistoryStartsWithLabel | backend/dist/processors/makePreprocessMongoDbUserQuery.js:59-62 | a non-empty window's history starts with the oldest kept turn's `ROLE:` |
| QueryPreprocessor.HistoryEmptyWindow | backend/dist/processors/makePreprocessMongoDbUserQuery.js:55-62 | messages that are all system turns give the empty history, not the sentinel |
| QueryPreprocessor.HistoryFirstChar | backend/dist/processors/makePreprocessMongoDbUserQuery.js:55-62 | a history built from messages is empty or starts with U, A or S |
| QueryPreprocessor.HistorySentinelIff | backend/dist/processors/makePreprocessMongoDbUserQuery.js:55-63 | the sentinel `No previous conversation history.` appears if and only if the message list is empty |
| QueryPreprocessor.FillPrompt | backend/dist/processors/makePreprocessMongoDbUserQuery.js:65-74 | the filled template is the preamble ending in `<Conversation History>`, the history, the follow-up header, the query, and the closing `<Standalone question>` line, each at its offset |
| QueryPreprocessor.PreprocessorPrompt | backend/dist/processors/makePreprocessMongoDbUserQuery.js:47-76 | the prompt is that template around the history as the code computes it (with `slice(0 - n)`) and the widened query |
| QueryPreprocessor.PromptUsesIntendedWindow | backend/dist/processors/makePreprocessMongoDbUserQuery.js:55-63 | for every count of at least 1, including the default 4, the prompt carries the last n non-system turns |
| QueryPreprocessor.PromptWithZeroCount | backend/dist/processors/makePreprocessMongoDbUserQuery.js:58 | with a count of 0 and one user turn, the prompt renders that turn, while the intended history is empty |
| QueryPreprocessor.AddMetadataToQuery | backend/dist/processors/makePreprocessMongoDbUserQuery.js:78-84 | a missing or empty query is returned as it is; any other query goes through the front-matter writer with the extracted languages and products |
| QueryPreprocessor.PreprocessUserQuery | backend/dist/processors/makePreprocessMongoDbUserQuery.js:31-44 | an undefined query gives `{ query: undefined, rejectQuery: false }`; otherwise a translation failure propagates, and a success keeps its fields except the query, which gets its metadata |
| QueryPreprocessor.UndefinedQueryCallsNothing | backend/dist/processors/makePreprocessMongoDbUserQuery.js:32-34 | an undefined query's result depends on neither the translator, the front-matter writer nor the messages |
| QueryPreprocessor.UndefinedMessagesAreEmpty | backend/dist/processors/makePreprocessMongoDbUserQuery.js:35-38 | undefined messages are treated as the empty conversation |
| QueryPreprocessor.PromptForFirstMessage | backend/dist/processors/makePreprocessMongoDbUserQuery.js:55-74 | with no messages, the prompt is the template around the sentinel history and the widened query |
| Pipeline.EmbeddingFailureKeepsQuestion | backend/src/app.ts:111-125 | when the embeddings call throws, the vector is empty, and with no chunks found the message has an empty information section and the question intact |
| Pipeline.TwoWordQueryNotWidened | backend/dist/processors/makePreprocessMongoDbUserQuery.js:48-54 | `vector search` passes widening unchanged |
| Pipeline.ThreeChunkContext | backend/src/app.ts:58 | three chunk texts are joined with one separator line between each pair |
| Pipeline.ThreeChunkMessage | backend/src/app.ts:57-68 | the message over three chunks, written out in full |
| Pipeline.ExampleChunksMeetSearchOptions | backend/src/app.ts:134-143 | chunks scored 0.95, 0.92 and 0.91 satisfy the settings: at most 5, each at least 0.9, best first |
| Pipeline.ThreeChunkExample | backend/dist/app.js:27-48 | for `vector search` and those chunks, the text for the model holds the three texts in order between the markers, and exactly the query in the question section |

## Left out

- Logging (`logger.info`, `logger.error`) is left out. It has no effect on any result.
- The nearest-neighbour search (`makeDefaultFindContent` and the vector store) is library code. It is a parameter here. `MeetsSearchOptions` states the documented settings, k = 5 and minScore = 0.9, as a property of a result. It is not proved of the library.
- The TypeScript source builds its search with `simpleEmbedder`. The compiled JavaScript builds it with the library embedder (`makeOpenAiEmbedder`, three attempts). Only `simpleEmbedder` is modelled. The library embedder's retry and back-off are not part of this model.
- `Embed` has no retry. `simpleEmbedder` calls the service once; the attempt budget belongs to the library embedder.
- The compiled `findContentWithLogs` passes the bare `query` string to the search. The search's own signature is not part of this model, so the model passes the string.
- Whether `generateUserPrompt` uses the wrapper or the bare search is not modelled. That is server wiring: the compiled file uses the wrapper and the TypeScript file the bare search.
- The translation service (`makeTypeChatJsonTranslateFunc`) is left out: its prompt to the model, JSON validation, retries and delays. It is a parameter that either returns an analysis or fails.
- Reading the schema file from disk is left out.
- The front-matter format written by `updateFrontMatter` is library code. It is a parameter.
- `QueryAnalysis` carries only the fields the preprocessor reads or sets. Any other fields the translator returns pass through `...data` unchanged. The model does not represent them.
- The `async`/`await` structure, the timeout budget, cancellation and concurrency are left out. So are the server lifecycle, environment configuration and the system prompt constant.
- Embedding vectors are sequences of mathematical reals, not IEEE doubles. No arithmetic is done on them.
- `WidenQuery`: `toLowerCase` and `toUpperCase` are modelled on ASCII letters only. The lower-cased query is compared only with `mongodb`, and the upper-cased text is only the three fixed role names.
- The documented behaviour differs from the code in two places; the model follows the code:
  - Widening is documented for a query of "exactly one whitespace-delimited token". The code also widens the empty trimmed query, because `"".split(/\s/)` has one piece (`WidenQueryBlank`).
  - The placeholder history is documented for an empty history. The code uses it only for an empty message list; a list made only of system turns gives the empty history (`HistoryEmptyWindow`, `HistorySentinelIff`).

## Findings

| source | as written | input that shows it | evidently intended | confidence | as-written member | corrected member |
|---|---|---|---|---|---|---|
| backend/dist/processors/makePreprocessMongoDbUserQuery.js:58 | `.slice(0 - numMessagesToInclude)` keeps the whole filtered conversation when the count is 0, since `slice(-0)` is `slice(0)` | `numMessagesToInclude = 0` with one user turn: that turn is rendered instead of none | the last `numMessagesToInclude` turns, so none for 0 | medium (the closure always passes the default 4, for which both agree); not executed | QueryPreprocessor.PromptWithZeroCount | QueryPreprocessor.ConversationHistory |
