/**
 * The MongoDB user-query preprocessor: it builds a prompt asking a structured-output
 * translation service to rewrite a follow-up message as a standalone question,
 * and then writes the metadata the service extracted into the rewritten query.
 * The translation service and the front-matter writer are remote or library code
 * and are parameters here.
 */
module QueryPreprocessor {
  import opened Options
  import opened JsText
  import opened Chat

  // ---------------------------------------------------------------- constants of the prompt

  /** Appended to a one-word query to keep the vector search on the domain. */
  const DomainSuffix: string := " for MongoDB"

  /** A one-word query equal to this, ignoring case, is not widened. */
  const DomainName: string := "mongodb"

  /** Stands in for the history when there are no messages at all. */
  const NoHistory: string := "No previous conversation history."

  /** The default of `numMessagesToInclude`, the only value the preprocessor uses. */
  const DefaultNumMessagesToInclude: nat := 4

  /** The prompt template up to and including the line `<Conversation History>`. */
  const PromptStart: string :=
    "Given a conversation (between USER and ASSISTANT) and a follow up message from USER, "
    + "output an object conforming to the given TypeScript type.\n"
    + "\n"
    + "<Conversation History>\n"

  /** The prompt template between the history and the follow-up message. */
  const PromptMiddle: string := "\n\n\n<USER Follow Up Message>\n"

  /** The prompt template after the follow-up message. */
  const PromptEnd: string := "\n\n<Standalone question>"

  // ---------------------------------------------------------------- widening the query

  /**
   * The query as it goes into the prompt: trimmed, and widened with " for MongoDB"
   * when the trimmed query splits into a single piece on whitespace (that is, holds
   * no whitespace character, which includes the empty query) and is not "mongodb"
   * in any letter case.
   */
  function WidenQuery(query: string): (r: string)
    ensures var q := Trim(query);
      r == if NoWhitespace(q) && ToLower(q) != DomainName then q + DomainSuffix else q
  {
    var q := Trim(query);
    SingleToken(q);
    if |SplitOnWhitespace(q)| == 1 && ToLower(q) != DomainName then q + DomainSuffix else q
  }

  /**
   * A non-blank trimmed word followed by a suffix that starts with whitespace and
   * ends without it is itself trimmed, and is more than one word.
   */
  lemma SuffixedWord(q: string, suffix: string)
    requires q != [] && Trimmed(q)
    requires suffix != [] && IsWhitespace(suffix[0]) && !IsWhitespace(suffix[|suffix| - 1])
    ensures Trim(q + suffix) == q + suffix
    ensures !NoWhitespace(q + suffix)
  {
    var w := q + suffix;
    assert w[0] == q[0] && w[|w| - 1] == suffix[|suffix| - 1];
    TrimOfTrimmed(w);
    assert IsWhitespace(w[|q|]);
  }

  /** Widening a non-blank query a second time changes nothing. */
  lemma WidenQueryIdempotent(query: string)
    requires Trim(query) != ""
    ensures WidenQuery(WidenQuery(query)) == WidenQuery(query)
  {
    var q := Trim(query);
    if NoWhitespace(q) && ToLower(q) != DomainName {
      assert DomainSuffix[0] == ' ' && DomainSuffix[|DomainSuffix| - 1] == 'B';
      SuffixedWord(q, DomainSuffix);
    } else {
      TrimIdempotent(query);
    }
  }

  /** The empty trimmed query counts as a single piece and gets the suffix. */
  lemma WidenQueryBlank(query: string)
    requires AllWhitespace(query)
    ensures WidenQuery(query) == " for MongoDB"
  {
    assert Trim(query) == "" by {
      assert query + [] + [] == query;
      TrimOfPadded(query, [], []);
    }
    assert |ToLower("")| == 0;
    assert "" + DomainSuffix == DomainSuffix;
  }

  /**
   * So for a blank query widening is not idempotent: a second pass trims away the
   * suffix's leading space and leaves a query of two words.
   */
  lemma WidenQueryTwiceOnBlank()
    ensures WidenQuery(" for MongoDB") == "for MongoDB"
  {
    var w := " for MongoDB";
    var q := "for MongoDB";
    assert Trim(w) == q by {
      assert " " + q + "" == w;
      assert AllWhitespace(" ") && AllWhitespace("");
      assert Trimmed(q) by {
        assert q[0] == 'f' && q[|q| - 1] == 'B';
      }
      TrimOfPadded(" ", q, "");
    }
    assert !NoWhitespace(q) by {
      assert q[3] == ' ';
    }
  }

  /** The domain's own name, in any letter case and with any surrounding spaces, is only trimmed. */
  lemma WidenQueryDomainName(query: string)
    requires ToLower(Trim(query)) == DomainName
    ensures WidenQuery(query) == Trim(query)
  {
  }

  // ---------------------------------------------------------------- the history window

  /** `messages.filter((message) => message.role !== "system")` */
  function NonSystemTurns(messages: seq<Message>): (r: seq<Message>)
    ensures |r| <= |messages|
    ensures forall i :: 0 <= i < |r| ==> r[i].role != System && r[i] in messages
  {
    if messages == [] then []
    else (if messages[0].role == System then [] else [messages[0]]) + NonSystemTurns(messages[1..])
  }

  /** Filtering distributes over concatenation: the kept turns are the non-system turns in their original order. */
  lemma {:induction false} NonSystemTurnsAppend(a: seq<Message>, b: seq<Message>)
    ensures NonSystemTurns(a + b) == NonSystemTurns(a) + NonSystemTurns(b)
  {
    if a == [] {
      assert a + b == b;
    } else {
      assert (a + b)[0] == a[0];
      assert (a + b)[1..] == a[1..] + b;
      NonSystemTurnsAppend(a[1..], b);
    }
  }

  /** A conversation without system turns is kept whole. */
  lemma {:induction false} NonSystemTurnsKeepsAll(messages: seq<Message>)
    requires forall i :: 0 <= i < |messages| ==> messages[i].role != System
    ensures NonSystemTurns(messages) == messages
  {
    if messages != [] {
      NonSystemTurnsKeepsAll(messages[1..]);
    }
  }

  /**
   * `s.slice(0 - n)` for a count `n`: a negative start counts back from the end and
   * is clamped at the beginning; `0 - 0` is `0`, which keeps the whole sequence.
   */
  function SliceFromEnd<T>(s: seq<T>, n: nat): (r: seq<T>)
    ensures |r| <= |s| && r == s[|s| - |r|..]
    ensures n == 0 ==> r == s
    ensures n > 0 ==> |r| == if n < |s| then n else |s|
  {
    if n == 0 || n >= |s| then s else s[|s| - n..]
  }

  /** The last `n` elements of `s`, or all of them when there are fewer. */
  function LastN<T>(s: seq<T>, n: nat): (r: seq<T>)
    ensures |r| == if n < |s| then n else |s|
    ensures r == s[|s| - |r|..]
  {
    if n >= |s| then s else s[|s| - n..]
  }

  /** For every positive count the source's slice takes the last `n` elements. */
  lemma SliceFromEndIsLastN<T>(s: seq<T>, n: nat)
    requires n >= 1
    ensures SliceFromEnd(s, n) == LastN(s, n)
  {
  }

  /** For a count of zero the source's slice keeps everything instead of nothing. */
  lemma SliceFromEndZeroKeepsAll(m: Message)
    ensures SliceFromEnd([m], 0) == [m]
    ensures LastN([m], 0) == []
  {
  }

  /** The tag a turn is rendered under: its role in capitals. */
  function RoleLabel(role: Role): string {
    ToUpper(RoleName(role))
  }

  /** Every role tag starts with a capital letter: `U`, `A` or `S`. */
  lemma RoleLabelStart(role: Role)
    ensures |RoleLabel(role)| > 0
    ensures RoleLabel(role)[0] == 'U' || RoleLabel(role)[0] == 'A' || RoleLabel(role)[0] == 'S'
  {
    assert RoleName(role)[0] == 'u' || RoleName(role)[0] == 'a' || RoleName(role)[0] == 's';
  }

  /** One rendered turn: a blank line, `ROLE:` and the content on the next line. */
  function TurnBlock(m: Message): string {
    "\n\n" + RoleLabel(m.role) + ":\n" + m.content
  }

  /**
   * The `reduce` over the kept turns: each turn's block is appended to the
   * accumulator, so the start value stays in front and every turn adds a block.
   */
  function RenderFrom(acc: string, turns: seq<Message>): (r: string)
    ensures |acc| <= |r| && r[..|acc|] == acc
    ensures turns == [] ==> r == acc
    ensures turns != [] ==> |r| >= |acc| + |TurnBlock(turns[0])|
    decreases turns
  {
    if turns == [] then acc
    else
      var next := acc + TurnBlock(turns[0]);
      var r := RenderFrom(next, turns[1..]);
      assert r[..|acc|] == next[..|acc|];
      r
  }

  /** The kept turns' blocks, oldest first. */
  function Blocks(turns: seq<Message>): string {
    if turns == [] then "" else TurnBlock(turns[0]) + Blocks(turns[1..])
  }

  /** The left fold appends the blocks of all turns, in order, to its start value. */
  lemma {:induction false} RenderIsConcatenation(acc: string, turns: seq<Message>)
    ensures RenderFrom(acc, turns) == acc + Blocks(turns)
    decreases turns
  {
    if turns == [] {
      assert acc + "" == acc;
    } else {
      RenderIsConcatenation(acc + TurnBlock(turns[0]), turns[1..]);
      assert acc + TurnBlock(turns[0]) + Blocks(turns[1..]) == acc + (TurnBlock(turns[0]) + Blocks(turns[1..]));
    }
  }

  /** The turns that reach the prompt: the last `n` non-system turns, oldest first. */
  function HistoryWindow(messages: seq<Message>, n: nat): (r: seq<Message>)
    ensures |r| == if n < |NonSystemTurns(messages)| then n else |NonSystemTurns(messages)|
    ensures r == NonSystemTurns(messages)[|NonSystemTurns(messages)| - |r|..]
    ensures forall i :: 0 <= i < |r| ==> r[i].role != System && r[i] in messages
  {
    var kept := NonSystemTurns(messages);
    var r := LastN(kept, n);
    assert forall i :: 0 <= i < |r| ==> r[i] == kept[|kept| - |r| + i];
    r
  }

  /**
   * The conversation history as the source computes it, with `slice(0 - n)`: the
   * sentinel for no messages, otherwise the rendered turns with no whitespace left
   * at either end.
   */
  function ConversationHistoryAsWritten(messages: seq<Message>, n: nat): (r: string)
    ensures messages == [] ==> r == NoHistory
    ensures messages != [] ==> Trimmed(r) && |r| <= |RenderFrom("", SliceFromEnd(NonSystemTurns(messages), n))|
  {
    if |messages| == 0 then NoHistory
    else Trim(RenderFrom("", SliceFromEnd(NonSystemTurns(messages), n)))
  }

  /**
   * The conversation history with the intended window: the sentinel for no messages;
   * otherwise the last `n` non-system turns rendered as blocks, oldest first, with no
   * whitespace left at either end.
   */
  function ConversationHistory(messages: seq<Message>, n: nat): (r: string)
    ensures messages == [] ==> r == NoHistory
    ensures messages != [] ==> Trimmed(r) && |r| <= |RenderFrom("", HistoryWindow(messages, n))|
  {
    if |messages| == 0 then NoHistory
    else Trim(RenderFrom("", HistoryWindow(messages, n)))
  }

  /** For every positive count, in particular the default 4, the two agree. */
  lemma HistoryAsWrittenAgrees(messages: seq<Message>, n: nat)
    requires n >= 1
    ensures ConversationHistoryAsWritten(messages, n) == ConversationHistory(messages, n)
  {
    SliceFromEndIsLastN(NonSystemTurns(messages), n);
  }

  /** Trimming text that opens with a blank line and `TAG:` keeps `TAG:` at its start. */
  lemma TrimKeepsTag(tag: string, content: string, more: string)
    requires |tag| > 0 && !IsWhitespace(tag[0])
    ensures |tag| + 1 <= |Trim("\n\n" + tag + ":\n" + content + more)|
    ensures Trim("\n\n" + tag + ":\n" + content + more)[..|tag| + 1] == tag + ":"
  {
    var rest := tag + ":\n" + content + more;
    assert "\n\n" + tag + ":\n" + content + more == "\n\n" + rest;
    assert rest[0] == tag[0];
    assert AllWhitespace("\n\n");
    TrimStartSkipsWhitespace("\n\n", rest);
    assert rest[|tag|] == ':';
    TrimEndKeepsPrefix(rest, |tag|);
    assert rest[..|tag| + 1] == tag + ":";
  }

  /** Trimming rendered blocks keeps the first block's role tag and its colon. */
  lemma TrimKeepsLeadingTag(m: Message, more: string)
    ensures |RoleLabel(m.role)| + 1 <= |Trim(TurnBlock(m) + more)|
    ensures Trim(TurnBlock(m) + more)[..|RoleLabel(m.role)| + 1] == RoleLabel(m.role) + ":"
  {
    RoleLabelStart(m.role);
    TrimKeepsTag(RoleLabel(m.role), m.content, more);
  }

  /** For a non-empty conversation the history is the kept turns' blocks, trimmed. */
  lemma HistoryIsTrimmedBlocks(messages: seq<Message>, n: nat)
    requires messages != []
    ensures ConversationHistory(messages, n) == Trim(Blocks(HistoryWindow(messages, n)))
  {
    RenderIsConcatenation("", HistoryWindow(messages, n));
    assert "" + Blocks(HistoryWindow(messages, n)) == Blocks(HistoryWindow(messages, n));
  }

  /** A non-empty history starts with its oldest kept turn's role tag and a colon. */
  lemma HistoryStartsWithLabel(messages: seq<Message>, n: nat)
    requires messages != [] && HistoryWindow(messages, n) != []
    ensures var tag := RoleLabel(HistoryWindow(messages, n)[0].role);
      |tag| + 1 <= |ConversationHistory(messages, n)|
      && ConversationHistory(messages, n)[..|tag| + 1] == tag + ":"
  {
    var w := HistoryWindow(messages, n);
    HistoryIsTrimmedBlocks(messages, n);
    TrimKeepsLeadingTag(w[0], Blocks(w[1..]));
  }

  /** A conversation of system turns only, or a window of zero turns, renders as the empty history. */
  lemma HistoryEmptyWindow(messages: seq<Message>, n: nat)
    requires messages != [] && HistoryWindow(messages, n) == []
    ensures ConversationHistory(messages, n) == ""
  {
  }

  /** A history built from messages is empty or starts with a role tag's capital. */
  lemma HistoryFirstChar(messages: seq<Message>, n: nat)
    requires messages != []
    ensures var h := ConversationHistory(messages, n);
      h == [] || h[0] == 'U' || h[0] == 'A' || h[0] == 'S'
  {
    if HistoryWindow(messages, n) == [] {
      HistoryEmptyWindow(messages, n);
    } else {
      var role := HistoryWindow(messages, n)[0].role;
      RoleLabelStart(role);
      assert ConversationHistory(messages, n)[0] == RoleLabel(role)[0] by {
        HistoryStartsWithLabel(messages, n);
        PrefixFirstChar(ConversationHistory(messages, n), RoleLabel(role) + ":");
      }
    }
  }

  /** The sentinel appears exactly when the message list itself is empty. */
  lemma HistorySentinelIff(messages: seq<Message>, n: nat)
    ensures ConversationHistory(messages, n) == NoHistory <==> messages == []
  {
    if messages != [] {
      HistoryFirstChar(messages, n);
      assert NoHistory[0] == 'N';
    }
  }

  // ---------------------------------------------------------------- the prompt

  /**
   * `p` is the prompt template around the history `h` and the query `w`: the fixed
   * preamble ending in `<Conversation History>`, `h`, the `<USER Follow Up Message>`
   * header, `w`, and the closing `<Standalone question>` line, in that order.
   */
  predicate PromptAround(p: string, h: string, w: string) {
    var q := |PromptStart| + |h| + |PromptMiddle|;
    && |p| == q + |w| + |PromptEnd|
    && p[..|PromptStart|] == PromptStart
    && p[|PromptStart|..|PromptStart| + |h|] == h
    && p[|PromptStart| + |h|..q] == PromptMiddle
    && p[q..q + |w|] == w
    && p[q + |w|..] == PromptEnd
  }

  /** The prompt template filled with a history `h` and a query `w`. */
  function FillPrompt(h: string, w: string): (p: string)
    ensures PromptAround(p, h, w)
  {
    Concat5Layout(PromptStart, h, PromptMiddle, w, PromptEnd);
    PromptStart + h + PromptMiddle + w + PromptEnd
  }

  /**
   * `generateMongoDbQueryPreProcessorPrompt({ query, messages, numMessagesToInclude })`:
   * the template around the history as the source computes it and the widened query.
   */
  function PreprocessorPrompt(query: string, messages: seq<Message>, numMessagesToInclude: nat): (p: string)
    ensures PromptAround(p, ConversationHistoryAsWritten(messages, numMessagesToInclude), WidenQuery(query))
  {
    FillPrompt(ConversationHistoryAsWritten(messages, numMessagesToInclude), WidenQuery(query))
  }

  /**
   * For every positive count, in particular the default 4 the preprocessor uses, the
   * prompt carries the intended history: the last `n` non-system turns.
   */
  lemma PromptUsesIntendedWindow(query: string, messages: seq<Message>, n: nat)
    requires n >= 1
    ensures PreprocessorPrompt(query, messages, n)
      == PromptStart + ConversationHistory(messages, n) + PromptMiddle + WidenQuery(query) + PromptEnd
  {
    HistoryAsWrittenAgrees(messages, n);
  }

  /** With a count of zero the prompt renders every non-system turn instead of none. */
  lemma PromptWithZeroCount(query: string, m: Message)
    requires m.role != System
    ensures PreprocessorPrompt(query, [m], 0)
      == PromptStart + Trim(TurnBlock(m)) + PromptMiddle + WidenQuery(query) + PromptEnd
    ensures ConversationHistory([m], 0) == ""
  {
    assert NonSystemTurns([m]) == [m] by {
      assert [m][1..] == [];
    }
    assert RenderFrom("", [m]) == TurnBlock(m) by {
      assert [m][1..] == [];
      assert "" + TurnBlock(m) == TurnBlock(m);
    }
  }

  // ---------------------------------------------------------------- metadata and the preprocessor

  /** What the translation service returns, shaped by its schema; absent fields are `None`. */
  datatype QueryAnalysis = QueryAnalysis(
    query: Option<string>,
    programmingLanguages: Option<seq<string>>,
    mongoDbProducts: Option<seq<string>>,
    rejectQuery: bool)

  /** The metadata written into the query's front matter. */
  datatype FrontMatter = FrontMatter(programmingLanguages: Option<seq<string>>, mongoDbProducts: Option<seq<string>>)

  /** The translation service gave up. */
  datatype TranslationError = TranslationError(message: string)

  /** `undefined` and `""` are the falsy values a query can take. */
  predicate IsFalsy(query: Option<string>) {
    query.None? || query.value == ""
  }

  /**
   * `addMetadataToQuery(data)`: a falsy query is returned as it is; any other query
   * goes through the front-matter writer with the extracted languages and products.
   */
  function AddMetadataToQuery(updateFrontMatter: (string, FrontMatter) -> string, data: QueryAnalysis): (r: Option<string>)
    ensures IsFalsy(data.query) ==> r == data.query
    ensures !IsFalsy(data.query) ==>
      r == Some(updateFrontMatter(data.query.value, FrontMatter(data.programmingLanguages, data.mongoDbProducts)))
  {
    match data.query
    case None => None
    case Some(q) =>
      if q == "" then Some(q)
      else Some(updateFrontMatter(q, FrontMatter(data.programmingLanguages, data.mongoDbProducts)))
  }

  /**
   * The preprocessor returned by `makePreprocessMongoDbUserQuery`, applied to
   * `{ query, messages }`. An undefined query passes through, not rejected. Otherwise
   * the prompt, built with `messages ?? []` and the default window of 4, goes to the
   * translation service; a failure propagates, and a success is returned with its
   * query replaced by `AddMetadataToQuery` of it.
   */
  function PreprocessUserQuery(
    translate: string -> Result<QueryAnalysis, TranslationError>,
    updateFrontMatter: (string, FrontMatter) -> string,
    query: Option<string>,
    messages: Option<seq<Message>>)
    : (r: Result<QueryAnalysis, TranslationError>)
    ensures query.None? ==> r == Success(QueryAnalysis(None, None, None, false))
    ensures query.Some? ==>
      var sent := translate(PreprocessorPrompt(query.value, messages.GetOr([]), DefaultNumMessagesToInclude));
      && (sent.Failure? ==> r == sent)
      && (sent.Success? ==>
            && r.Success?
            && r.value.query == AddMetadataToQuery(updateFrontMatter, sent.value)
            && r.value.programmingLanguages == sent.value.programmingLanguages
            && r.value.mongoDbProducts == sent.value.mongoDbProducts
            && r.value.rejectQuery == sent.value.rejectQuery)
  {
    match query
    case None => Success(QueryAnalysis(None, None, None, false))
    case Some(q) =>
      var prompt := PreprocessorPrompt(q, messages.GetOr([]), DefaultNumMessagesToInclude);
      match translate(prompt)
      case Failure(e) => Failure(e)
      case Success(data) => Success(data.(query := AddMetadataToQuery(updateFrontMatter, data)))
  }

  /** An undefined query never reaches the translation service or the front-matter writer. */
  lemma UndefinedQueryCallsNothing(
    t1: string -> Result<QueryAnalysis, TranslationError>, t2: string -> Result<QueryAnalysis, TranslationError>,
    u1: (string, FrontMatter) -> string, u2: (string, FrontMatter) -> string,
    m1: Option<seq<Message>>, m2: Option<seq<Message>>)
    ensures PreprocessUserQuery(t1, u1, None, m1) == PreprocessUserQuery(t2, u2, None, m2)
  {
  }

  /** Undefined messages are treated as the empty conversation. */
  lemma UndefinedMessagesAreEmpty(
    translate: string -> Result<QueryAnalysis, TranslationError>,
    updateFrontMatter: (string, FrontMatter) -> string,
    query: Option<string>)
    ensures PreprocessUserQuery(translate, updateFrontMatter, query, None)
      == PreprocessUserQuery(translate, updateFrontMatter, query, Some([]))
  {
  }

  /**
   * What the translation service is asked: for an empty conversation the sentinel
   * history, and the widened query right after the follow-up header.
   */
  lemma PromptForFirstMessage(query: string)
    ensures PromptAround(PreprocessorPrompt(query, [], DefaultNumMessagesToInclude), NoHistory, WidenQuery(query))
  {
    assert ConversationHistoryAsWritten([], DefaultNumMessagesToInclude) == NoHistory;
  }
}
