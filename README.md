# Websearch-AI chat pipeline, modelled in Dafny

Websearch-AI is a single-page chat client. The browser page keeps a conversation
transcript and posts it to the `/api/chat` route. The route searches the web for
the last user question, builds a system prompt around the search results, asks a
hosted chat-completion model for a reply, and answers with a tagged HTTP response.

This project models the two parts of that code that carry logic:

- **The route** (`pages/api/chat.js`), as pure functions in module `ChatApi`. The
  route's two provider calls are replaced by inputs: a `SearchOutcome` (the call
  threw, or it returned a payload whose `results` may be absent) and a
  `CompletionOutcome` (the call threw, with an optional message, or it returned a
  list of choices). `ChatApi.Handle` is a total function from the request method,
  the messages, and those two outcomes to an `Exchange`. An `Exchange` holds the
  response (status and body) and the provider calls the route made, in order.
- **The page's conversation state** (`Home` and `sendMessage` in
  `pages/index.js`), as class `Home.Session`. Its fields are `messages`, `input`,
  `loading` and `error`. `sendMessage` awaits one request, and the model splits it
  at that await: `BeginSend` runs up to the request and returns its payload;
  `FinishSend` applies the reply.

Module `ClientServer` puts the two parts together. The page's payload is the
route's input, and the route's response, parsed as the page parses it, is the
page's reply. Module `JsText` models the JavaScript string operations the code
uses: `trim`, `join`, and `s || fallback` on strings. Module `Protocol` holds the
shared `{ role, content }` message.

The JavaScript `||` fallbacks are modelled by `JsText.OrDefault`. A string that is
absent or empty takes the fallback.

Behaviour worth noting, as the code does it:

- The code sends a blank query to the search provider anyway; it does not skip the search.
- The route does not require the request to contain a user message. With none, the query is `""`.
- The search-failure text is `"Web search failed."`.
- The input box is cleared when the question is sent: `BeginSend` clears it. It is not kept for a retry after an error.
- `usedSearch` is `true` on every 200 response, even when the search failed.

## Model

| member | source | states |
|---|---|---|
| `JsText.Trim` | pages/index.js:92 | The trimmed input is the part of the input between a leading and a trailing run of JavaScript whitespace. Its ends are not whitespace. It is empty exactly when the input is all whitespace. |
| `JsText.TrimSurrounded` | pages/index.js:92 | Trimming is determined by its result: whitespace around a string whose ends are not whitespace is exactly what `trim` removes. |
| `JsText.TrimSplits` | pages/index.js:92 | Every input is its trim with a run of whitespace before it and a run of whitespace after it. |
| `JsText.TrimOfTrimmed` | pages/index.js:92 | A text whose ends are not whitespace is its own trim. |
| `JsText.TrimIdempotent` | pages/index.js:92 | Trimming an already trimmed text changes nothing. |
| `JsText.Join` | pages/api/chat.js:19 | The joined text always begins with the first part. |
| `JsText.JoinSnoc` | pages/api/chat.js:19 | Joining one more part adds one separator and that part at the end. |
| `JsText.OrDefault` | pages/api/chat.js:19 | The string-or-fallback idiom: the value when present and non-empty, otherwise the fallback. The result is empty only when both are. |
| `ChatApi.FormatResults` | pages/api/chat.js:19 | The result is the no-results sentinel exactly when `results` is absent or empty. Otherwise it is the rendered results joined by a blank line, and never the failure sentinel. |
| `ChatApi.FormatSingle` | pages/api/chat.js:19 | One result renders as `title`, `url`, `content` on three lines. |
| `ChatApi.FormatSnoc` | pages/api/chat.js:19 | Results appear in provider order: one more result appends a blank line and its rendering at the end. |
| `ChatApi.SearchText` | pages/api/chat.js:6-23 | The search step never fails. Its text is `"Web search failed."` exactly when the call or its JSON parse threw, and it is never empty. |
| `ChatApi.LastUserMessage` | pages/api/chat.js:29 | `filter(user).pop()` is absent exactly when no message has role `user`. Otherwise it is the message at the last index with role `user`. |
| `ChatApi.Query` | pages/api/chat.js:29 | The query is the content of the last `user` message. It is `""` when there is none, or when that content is empty. |
| `ChatApi.SystemPrompt` | pages/api/chat.js:36-43 | The prompt's length is the template's length plus the search text's length. |
| `ChatApi.PromptRoundTrip` | pages/api/chat.js:36-43 | The search text, either sentinel included, is embedded verbatim and can be read back from the prompt. |
| `ChatApi.EmbeddedSearchTextSound` | pages/api/chat.js:36-43 | Any text whose search text can be read back is the prompt built from that search text. |
| `ChatApi.PromptInjective` | pages/api/chat.js:36-43 | Different search texts give different prompts. The prompt is a function of the search text alone. |
| `ChatApi.History` | pages/api/chat.js:45-48 | The history has the input's length, order and contents. Each role is `user` or `assistant`, and it is `assistant` exactly when the input role was `assistant`. |
| `ChatApi.HistoryKeepsChatRoles` | pages/api/chat.js:45-48 | A history made only of `user` and `assistant` messages passes through unchanged. |
| `ChatApi.HistoryIdempotent` | pages/api/chat.js:45-48 | Coercing roles twice is coercing them once. |
| `ChatApi.CompletionMessages` | pages/api/chat.js:52-55 | The completion input has one more message than the request. The first message is the `system` prompt. No other message has role `system`; each of them is the coerced history entry. |
| `ChatApi.FirstContent` | pages/api/chat.js:59 | The optional chain is absent exactly when there is no first choice, the choice has no `message`, or the message has no `content`. Otherwise it is that content. |
| `ChatApi.ReplyText` | pages/api/chat.js:59 | The reply is never empty. It is the first choice's `message.content` when that is present and non-empty, and otherwise `"I couldn't find an answer."`. |
| `ChatApi.ErrorText` | pages/api/chat.js:64 | The error text is never empty. It is the error's message when there is one, and otherwise `"Server error"`. |
| `ChatApi.Handle` | pages/api/chat.js:25-66 | Status 405 exactly for a method other than POST, with no body and no provider call. Status 200 exactly when the completion returned, with the reply and `usedSearch = true`. Status 500 exactly when the completion threw, with the error text. |
| `ChatApi.HandleCalls` | pages/api/chat.js:8-57 | A POST makes the search call first, with the query, 5 results and `basic` depth. It then makes the completion call with the fixed model name, 1024 tokens, the system prompt and the whole coerced history. |
| `ChatApi.SearchFailureAbsorbed` | pages/api/chat.js:20-22 | For the same completion outcome, the response does not depend on the search outcome. After a failed search the completion is still requested, over a prompt that embeds `"Web search failed."`. |
| `ChatApi.ResponseShapes` | pages/api/chat.js:61-64 | Each response is exactly one of: 405 with no body; 200 with non-empty text and `usedSearch`; 500 with a non-empty error. Text and error never appear together. |
| `ChatApi.CapitalOfFrance` | pages/api/chat.js:19 | With no search results, the prompt still embeds `"No results found."`. The model's reply is returned as a 200 with `usedSearch = true`. |
| `ChatApi.NoChoices` | pages/api/chat.js:59 | An empty `choices` list gives a 200 with `"I couldn't find an answer."`. |
| `Home.Payload` | pages/index.js:106-110 | The payload holds only `user` and `assistant` messages and is no longer than the transcript. For a transcript of those two roles it keeps every entry in place, reduced to `{role, content}`. |
| `Home.PayloadSingle` | pages/index.js:108-109 | One entry contributes its `{role, content}` when its role is `user` or `assistant`, and nothing otherwise. With `PayloadAppend` this fixes the payload of every transcript. |
| `Home.PayloadAppend` | pages/index.js:106-110 | Filtering keeps transcript order: the payload of a concatenation is the concatenation of the payloads. |
| `Home.Session.constructor` | pages/index.js:74-83 | The page starts with the greeting alone (an assistant message with `isSearch = false`), an empty input, not loading, and no error. |
| `Home.Session.SendDisabled` | pages/index.js:263 | The send button is disabled exactly when the input is nothing but whitespace or a request is in flight. |
| `Home.Session.ShowSuggestions` | pages/index.js:219 | On a valid page the suggestion chips show exactly while the transcript is the greeting alone. |
| `Home.Session.SetInput` | pages/index.js:245 | Typing sets the input and changes nothing else. |
| `Home.Session.ChooseSuggestion` | pages/index.js:219-222 | A suggestion chip, which is only on screen before the first question, fills the input with its text. |
| `Home.Session.BeginSend` | pages/index.js:91-110 | Sending is accepted exactly when the send button is enabled. A rejected send changes no field and sends no request. An accepted send appends exactly one user message with the trimmed input, clears the input and the error, and sets `loading`. It returns the payload of the new transcript, which is the old payload plus the new question. Afterwards the suggestion chips are hidden. The object invariant `Valid` (a well-formed transcript; while loading, the last entry is the pending question and no error is shown) is kept. |
| `Home.Session.FinishSend` | pages/index.js:113-128 | Loading ends in every branch, and the input is left as it is. A body with a truthy `error` shows that error and leaves the transcript alone. Any other body appends one assistant message with `data.text` (or `"I couldn't find a good answer."`) and `isSearch = data.usedSearch`. A network or parse failure shows `"Network error. Please try again."`. The old transcript is always a prefix of the new one. |
| `Home.SuggestionsOnlyWhenIdle` | pages/index.js:219 | While the suggestion chips show, the transcript is the greeting alone and no request is in flight. |
| `Home.RapidSubmits` | pages/index.js:92-93 | Two submits with no reply in between send one request, and the transcript gains one question. |
| `ClientServer.Deliver` | pages/index.js:113-122 | The page sees a network failure exactly for the 405, whose empty body fails the JSON parse. It sees a truthy error, equal to the route's, exactly for a 500 with a non-empty error. It takes the answer path exactly for a 200 or a 500 with an empty error. A 200 shows the route's text and search flag; a 500 on the answer path shows the page's own fallback. |
| `ClientServer.PayloadQuery` | pages/api/chat.js:29 | For the payload sent after a question, the route's query is exactly that trimmed question, and role coercion leaves the payload unchanged. |
| `ClientServer.AnswerToQuestion` | pages/api/chat.js:29-33 | After the page appends a question, the route's search call carries exactly that question. The page then receives the route's reply with no error, or the route's error text. |
| `ClientServer.ServedAnswer` | pages/index.js:115-122 | A completed pipeline reaches the page with no error and a non-empty text. The page therefore shows the route's reply, never its own fallback, with `isSearch = true`. |
| `ClientServer.ServedFailure` | pages/index.js:115-116 | A failed completion reaches the page as a truthy error: the error's message, or `"Server error"`. |
| `ClientServer.Turn` | pages/index.js:91-128 | One full turn. The route searches for the trimmed input. On success the transcript gains the question and the reply; on failure it gains only the question, and the route's error is shown. Afterwards loading is false and the input is empty. |

## Left out

- Rendering: the `TypingDots` and `Message` components, styles, keyframes, hover handlers, the page head, the scroll effect and input focus. They are presentation only.
- The HTTP calls themselves: the search provider request, the completion SDK client and the page's `fetch`. Their results are model inputs: `SearchOutcome`, `CompletionOutcome` and `Home.Reply`. The API keys from the environment are not modelled; a missing key shows up as a provider call that threw.
- `console.error` in the route's catch block: a diagnostic side effect.
- React's asynchronous scheduling and state batching. The one await in `sendMessage` is modelled as the `BeginSend`/`FinishSend` split, not as concurrency. While a request is in flight only typing can interleave; `ChooseSuggestion` cannot, because its chips are hidden then.
- The Enter-key handler and the button's click handler both call `sendMessage`, which is `BeginSend`. The key event itself is not modelled.
- JavaScript strings are UTF-16 code units, while Dafny's `char` is a Unicode scalar value. `JsText.IsSpace` lists the whitespace `trim` removes in full, but surrogate pairs are not modelled.
- Search results are taken to have string `title`, `url` and `content` fields. In JavaScript a missing field would render as the word `undefined`.
- A search payload whose `results` is present but not a list makes `map` throw inside the try. The model folds that case into `SearchThrew`.
- A completion result without a `choices` list makes `choices[0]` throw inside the try, which gives a 500. The model folds that case into `CompletionThrew`.
- Malformed request bodies. `messages.filter` runs outside the route's try, so a body with no message list is not handled by the route. The model takes the messages as a well-formed sequence of `{role, content}` records.
- Non-string `error` or `text` fields in the page's parsed reply are not modelled; they are taken to be strings when present.
