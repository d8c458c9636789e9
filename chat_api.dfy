/**
 * The `/api/chat` route: search the web for the last user question, build a
 * system prompt around the results, ask the completion provider, and answer
 * with a tagged HTTP response.
 *
 * The two provider calls are not performed here. What the search provider and
 * the completion provider did is passed in as a `SearchOutcome` and a
 * `CompletionOutcome`; what the route asks of them is returned as a list of
 * `ProviderCall`s beside the response.
 */
module ChatApi {
  import opened Wrappers
  import opened JsText
  import opened Protocol

  // ---------------------------------------------------------------- search

  datatype SearchResult = SearchResult(title: string, url: string, content: string)

  /** What the search request produced: an exception (transport or JSON), or a payload whose `results` may be absent. */
  datatype SearchOutcome =
    | SearchThrew
    | SearchReturned(results: Option<seq<SearchResult>>)

  const MaxResults: nat := 5
  const SearchDepth: string := "basic"
  const NoResults: string := "No results found."
  const SearchFailed: string := "Web search failed."
  const ResultSeparator: string := "\n\n"

  /** One result as `title`, `url` and `content` on lines of their own. */
  function RenderResult(r: SearchResult): string {
    r.title + "\n" + r.url + "\n" + r.content
  }

  function RenderAll(rs: seq<SearchResult>): seq<string> {
    seq(|rs|, i requires 0 <= i < |rs| => RenderResult(rs[i]))
  }

  lemma RenderHasNewline(r: SearchResult)
    ensures '\n' in RenderResult(r)
  {
    assert RenderResult(r)[|r.title|] == '\n';
  }

  lemma RenderAllSnoc(rs: seq<SearchResult>, r: SearchResult)
    ensures RenderAll(rs + [r]) == RenderAll(rs) + [RenderResult(r)]
  {
  }

  /** A non-empty list of results renders to a text holding a line break. */
  lemma JoinedResultsHaveNewline(rs: seq<SearchResult>)
    requires rs != []
    ensures '\n' in Join(RenderAll(rs), ResultSeparator)
  {
    var parts := RenderAll(rs);
    RenderHasNewline(rs[0]);
    var k :| 0 <= k < |parts[0]| && parts[0][k] == '\n';
    assert Join(parts, ResultSeparator)[k] == '\n';
  }

  /**
   * `data.results?.map(render).join("\n\n") || "No results found."`: the
   * rendered results in provider order, or the no-results sentinel exactly when
   * `results` is absent or empty.
   */
  function FormatResults(results: Option<seq<SearchResult>>): (t: string)
    ensures t == NoResults <==> results.None? || results.value == []
    ensures results.Some? && results.value != [] ==> t == Join(RenderAll(results.value), ResultSeparator)
    ensures t != SearchFailed
  {
    var joined := match results
      case None => None
      case Some(rs) => Some(Join(RenderAll(rs), ResultSeparator));
    assert results.Some? && results.value != [] ==> '\n' in joined.value by {
      if results.Some? && results.value != [] {
        JoinedResultsHaveNewline(results.value);
      }
    }
    assert '\n' !in NoResults && '\n' !in SearchFailed;
    OrDefault(joined, NoResults)
  }

  /** A single result is rendered on its own, with no separator. */
  lemma FormatSingle(r: SearchResult)
    ensures FormatResults(Some([r])) == r.title + "\n" + r.url + "\n" + r.content
  {
    assert RenderAll([r]) == [RenderResult(r)];
  }

  /** One more result from the provider appends a blank line and its rendering at the end. */
  lemma FormatSnoc(rs: seq<SearchResult>, r: SearchResult)
    requires rs != []
    ensures FormatResults(Some(rs + [r])) == FormatResults(Some(rs)) + "\n\n" + r.title + "\n" + r.url + "\n" + r.content
  {
    RenderAllSnoc(rs, r);
    JoinSnoc(RenderAll(rs), RenderResult(r), ResultSeparator);
  }

  /**
   * `searchWeb`: the text handed to the prompt. It is the failure sentinel
   * exactly when the search call threw, and it is never empty.
   */
  function SearchText(o: SearchOutcome): (t: string)
    ensures t == SearchFailed <==> o.SearchThrew?
    ensures o.SearchReturned? ==> t == FormatResults(o.results)
    ensures t != ""
  {
    match o
    case SearchThrew => SearchFailed
    case SearchReturned(results) => FormatResults(results)
  }

  // ---------------------------------------------------------------- query

  /** Index `i` holds a user message and no later message is from the user. */
  predicate IsLastUser(msgs: seq<ChatMessage>, i: int) {
    0 <= i < |msgs| && msgs[i].role == User && forall j :: i < j < |msgs| ==> msgs[j].role != User
  }

  /** `messages.filter(m => m.role === "user").pop()`: the last user message, if any. */
  function LastUserMessage(msgs: seq<ChatMessage>): (m: Option<ChatMessage>)
    ensures m.None? <==> forall i :: 0 <= i < |msgs| ==> msgs[i].role != User
    ensures forall i :: IsLastUser(msgs, i) ==> m == Some(msgs[i])
  {
    if msgs == [] then None
    else if msgs[|msgs| - 1].role == User then
      assert forall i :: IsLastUser(msgs, i) ==> i == |msgs| - 1;
      Some(msgs[|msgs| - 1])
    else
      var prefix := msgs[..|msgs| - 1];
      assert forall i :: IsLastUser(msgs, i) ==> IsLastUser(prefix, i);
      LastUserMessage(prefix)
  }

  /**
   * The search query: the content of the last user message, or "" when there
   * is no user message.
   */
  function Query(msgs: seq<ChatMessage>): (q: string)
    ensures (forall i :: 0 <= i < |msgs| ==> msgs[i].role != User) ==> q == ""
    ensures forall i :: IsLastUser(msgs, i) ==> q == msgs[i].content
  {
    var last := LastUserMessage(msgs);
    OrDefault(if last.Some? then Some(last.value.content) else None, "")
  }

  // ---------------------------------------------------------------- prompt

  const PromptHeader: string :=
    "You are a helpful AI assistant with web search capability.\n"
    + "Use the following real-time web search results to answer the user's question accurately.\n"
    + "Always mention sources (URLs) when relevant.\n"
    + "\n"
    + "WEB SEARCH RESULTS:\n"

  const PromptTrailer: string :=
    "\n\nAnswer based on the search results above. Be concise and helpful."

  /** The system prompt: a fixed header and trailer around the search text. */
  function SystemPrompt(searchText: string): (p: string)
    ensures |p| == |PromptHeader| + |searchText| + |PromptTrailer|
  {
    PromptHeader + searchText + PromptTrailer
  }

  /** The search text a system prompt embeds, or None for a text not made from the template. */
  function EmbeddedSearchText(p: string): Option<string> {
    if |p| >= |PromptHeader| + |PromptTrailer|
       && p[..|PromptHeader|] == PromptHeader
       && p[|p| - |PromptTrailer|..] == PromptTrailer
    then Some(p[|PromptHeader|..|p| - |PromptTrailer|])
    else None
  }

  /** The search text, sentinels included, is embedded verbatim and can be read back. */
  lemma PromptRoundTrip(searchText: string)
    ensures EmbeddedSearchText(SystemPrompt(searchText)) == Some(searchText)
  {
    var p := SystemPrompt(searchText);
    assert p[..|PromptHeader|] == PromptHeader;
    assert p[|p| - |PromptTrailer|..] == PromptTrailer;
    assert p[|PromptHeader|..|p| - |PromptTrailer|] == searchText;
  }

  /** Every text produced from the template reads back to exactly one search text. */
  lemma EmbeddedSearchTextSound(p: string)
    requires EmbeddedSearchText(p).Some?
    ensures SystemPrompt(EmbeddedSearchText(p).value) == p
  {
    var t := EmbeddedSearchText(p).value;
    assert p == p[..|PromptHeader|] + t + p[|p| - |PromptTrailer|..];
  }

  /** Different search texts give different prompts. */
  lemma PromptInjective(a: string, b: string)
    requires SystemPrompt(a) == SystemPrompt(b)
    ensures a == b
  {
    PromptRoundTrip(a);
    PromptRoundTrip(b);
  }

  // ---------------------------------------------------------------- completion input

  /** `messages.map(...)`: every role other than `assistant` becomes `user`; contents and order are kept. */
  function History(msgs: seq<ChatMessage>): (h: seq<ChatMessage>)
    ensures |h| == |msgs|
    ensures forall i :: 0 <= i < |msgs| ==>
              h[i].content == msgs[i].content
              && IsChatRole(h[i].role)
              && (h[i].role == Assistant <==> msgs[i].role == Assistant)
  {
    seq(|msgs|, i requires 0 <= i < |msgs| =>
      ChatMessage(if msgs[i].role == Assistant then Assistant else User, msgs[i].content))
  }

  /** A transcript made only of user and assistant messages passes through unchanged. */
  lemma HistoryKeepsChatRoles(msgs: seq<ChatMessage>)
    requires AllChatRoles(msgs)
    ensures History(msgs) == msgs
  {
    var h := History(msgs);
    forall i | 0 <= i < |msgs| ensures h[i] == msgs[i] {
      assert IsChatRole(msgs[i].role);
    }
  }

  /** The coercion is idempotent. */
  lemma HistoryIdempotent(msgs: seq<ChatMessage>)
    ensures History(History(msgs)) == History(msgs)
  {
    HistoryKeepsChatRoles(History(msgs));
  }

  /** `[{ role: "system", content: prompt }, ...history]`. */
  function CompletionMessages(prompt: string, msgs: seq<ChatMessage>): (c: seq<ChatMessage>)
    ensures |c| == |msgs| + 1
    ensures c[0] == ChatMessage(System, prompt)
    ensures forall i :: 1 <= i < |c| ==> c[i].role != System && c[i] == History(msgs)[i - 1]
  {
    [ChatMessage(System, prompt)] + History(msgs)
  }

  // ---------------------------------------------------------------- completion output

  datatype ReplyMessage = ReplyMessage(content: Option<string>)
  datatype Choice = Choice(message: Option<ReplyMessage>)

  /** What the completion call produced: an exception with an optional message, or the provider's `choices`. */
  datatype CompletionOutcome =
    | CompletionThrew(message: Option<string>)
    | CompletionReturned(choices: seq<Choice>)

  const ModelName: string := "llama-3.3-70b-versatile"
  const MaxTokens: nat := 1024
  const NoAnswer: string := "I couldn't find an answer."
  const ServerError: string := "Server error"

  /**
   * `choices[0]?.message?.content`: absent as soon as any link of the chain
   * is missing, otherwise the first choice's content.
   */
  function FirstContent(choices: seq<Choice>): (c: Option<string>)
    ensures c.Some? <==> |choices| > 0 && choices[0].message.Some? && choices[0].message.value.content.Some?
    ensures c.Some? ==> c == choices[0].message.value.content
  {
    if |choices| == 0 then None
    else match choices[0].message
      case None => None
      case Some(m) => m.content
  }

  /** The reply: the first choice's content, or the no-answer fallback when that is absent or empty. */
  function ReplyText(choices: seq<Choice>): (t: string)
    ensures t != ""
    ensures Truthy(FirstContent(choices)) ==> t == choices[0].message.value.content.value
    ensures t == NoAnswer <==> !Truthy(FirstContent(choices)) || FirstContent(choices) == Some(NoAnswer)
  {
    OrDefault(FirstContent(choices), NoAnswer)
  }

  /** The text of a 500 response: the error's message, or the generic fallback. */
  function ErrorText(message: Option<string>): (e: string)
    ensures e != ""
    ensures Truthy(message) ==> e == message.value
    ensures !Truthy(message) ==> e == ServerError
  {
    OrDefault(message, ServerError)
  }

  // ---------------------------------------------------------------- handler

  datatype ProviderCall =
    | SearchCall(query: string, maxResults: nat, depth: string)
    | CompletionCall(model: string, messages: seq<ChatMessage>, maxTokens: nat)

  /** A response body: nothing, the answer, or the error; never both text and error. */
  datatype Body = NoBody | Answer(text: string, usedSearch: bool) | Failure(error: string)
  datatype Response = Response(status: nat, body: Body)

  /** What the route answered, and the provider calls it made, in order. */
  datatype Exchange = Exchange(response: Response, calls: seq<ProviderCall>)

  /**
   * `handler`: 405 with no body and no provider call for any method but POST;
   * otherwise a search then a completion, answered with 200 and the reply, or
   * with 500 and the error when the completion call threw.
   */
  function Handle(verb: string, msgs: seq<ChatMessage>, search: SearchOutcome, completion: CompletionOutcome): (x: Exchange)
    ensures x.response.status == 405 <==> verb != "POST"
    ensures verb != "POST" ==> x.response.body == NoBody && x.calls == []
    ensures x.response.status == 200 <==> verb == "POST" && completion.CompletionReturned?
    ensures x.response.status == 200 ==> x.response.body == Answer(ReplyText(completion.choices), true)
    ensures x.response.status == 500 <==> verb == "POST" && completion.CompletionThrew?
    ensures x.response.status == 500 ==> x.response.body == Failure(ErrorText(completion.message))
  {
    if verb != "POST" then
      Exchange(Response(405, NoBody), [])
    else
      var prompt := SystemPrompt(SearchText(search));
      var calls := [
        SearchCall(Query(msgs), MaxResults, SearchDepth),
        CompletionCall(ModelName, CompletionMessages(prompt, msgs), MaxTokens)
      ];
      match completion
      case CompletionThrew(message) => Exchange(Response(500, Failure(ErrorText(message))), calls)
      case CompletionReturned(choices) => Exchange(Response(200, Answer(ReplyText(choices), true)), calls)
  }

  /**
   * A POST searches for the last user question first, then asks for a
   * completion over the system prompt and the whole coerced history, whatever
   * the search did.
   */
  lemma HandleCalls(msgs: seq<ChatMessage>, search: SearchOutcome, completion: CompletionOutcome)
    ensures var x := Handle("POST", msgs, search, completion);
      |x.calls| == 2
      && x.calls[0] == SearchCall(Query(msgs), 5, "basic")
      && x.calls[1].CompletionCall?
      && x.calls[1].model == "llama-3.3-70b-versatile" && x.calls[1].maxTokens == 1024
      && |x.calls[1].messages| == |msgs| + 1
      && x.calls[1].messages[0] == ChatMessage(System, PromptHeader + SearchText(search) + PromptTrailer)
      && x.calls[1].messages[1..] == History(msgs)
  {
  }

  /**
   * A failed search is absorbed: the completion is still requested, over a
   * prompt that embeds the failure sentinel, and for the same completion
   * outcome the response does not depend on what the search did.
   */
  lemma SearchFailureAbsorbed(verb: string, msgs: seq<ChatMessage>, other: SearchOutcome, completion: CompletionOutcome)
    ensures Handle(verb, msgs, SearchThrew, completion).response == Handle(verb, msgs, other, completion).response
    ensures verb == "POST" ==>
      var calls := Handle(verb, msgs, SearchThrew, completion).calls;
      |calls| == 2 && calls[1].CompletionCall?
      && EmbeddedSearchText(calls[1].messages[0].content) == Some(SearchFailed)
  {
    PromptRoundTrip(SearchFailed);
  }

  /** A response carries a text or an error only with its own status, never both. */
  lemma ResponseShapes(verb: string, msgs: seq<ChatMessage>, search: SearchOutcome, completion: CompletionOutcome)
    ensures var r := Handle(verb, msgs, search, completion).response;
      (r.status == 405 && r.body.NoBody?)
      || (r.status == 200 && r.body.Answer? && r.body.usedSearch && r.body.text != "")
      || (r.status == 500 && r.body.Failure? && r.body.error != "")
  {
  }

  /** A question with no search results: the prompt still holds the sentinel and the reply is passed on. */
  lemma CapitalOfFrance()
    ensures var x := Handle("POST", [ChatMessage(User, "What is the capital of France?")],
                            SearchReturned(Some([])),
                            CompletionReturned([Choice(Some(ReplyMessage(Some("Paris is the capital of France."))))]));
      x.response == Response(200, Answer("Paris is the capital of France.", true))
      && x.calls[0].query == "What is the capital of France?"
      && EmbeddedSearchText(x.calls[1].messages[0].content) == Some(NoResults)
  {
    PromptRoundTrip(NoResults);
  }

  /** Empty `choices` give the no-answer fallback. */
  lemma NoChoices(msgs: seq<ChatMessage>, search: SearchOutcome)
    ensures Handle("POST", msgs, search, CompletionReturned([])).response
            == Response(200, Answer("I couldn't find an answer.", true))
  {
  }
}
