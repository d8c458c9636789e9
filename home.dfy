/**
 * The chat page's conversation state: the transcript, the input box, the
 * in-flight flag and the error banner, with the send cycle that drives them.
 *
 * `sendMessage` awaits one request to `/api/chat`. It is split at that await:
 * `BeginSend` runs up to the request and returns its payload, and `FinishSend`
 * applies what came back.
 */
module Home {
  import opened Wrappers
  import opened JsText
  import opened Protocol

  /** A transcript entry; `isSearch` is absent on user messages. */
  datatype Entry = Entry(role: string, content: string, isSearch: Option<bool>)

  const GreetingText: string :=
    "Hi! I'm your AI assistant powered by Groq + Llama 3 with live web search \U{2014} 100% free! Ask me anything. \U{1F50D}"
  const Greeting: Entry := Entry(Assistant, GreetingText, Some(false))
  const NoGoodAnswer: string := "I couldn't find a good answer."
  const NetworkError: string := "Network error. Please try again."

  const Suggestions: seq<string> := [
    "What's the latest AI news today?",
    "Current Bitcoin price?",
    "Best programming language in 2025?",
    "Who won the last Cricket World Cup?"
  ]

  /** What the request to `/api/chat` gave: a fetch or JSON failure, or the parsed body. */
  datatype Reply =
    | NetworkFailure
    | Data(error: Option<string>, text: Option<string>, usedSearch: Option<bool>)

  /** `{ role, content }` of an entry. */
  function Reduce(e: Entry): ChatMessage {
    ChatMessage(e.role, e.content)
  }

  /**
   * The request payload: the transcript filtered to user and assistant
   * entries, each reduced to its role and content, in transcript order.
   */
  function Payload(t: seq<Entry>): (p: seq<ChatMessage>)
    ensures |p| <= |t|
    ensures AllChatRoles(p)
    ensures (forall i :: 0 <= i < |t| ==> IsChatRole(t[i].role)) ==>
              |p| == |t| && forall i :: 0 <= i < |t| ==> p[i] == Reduce(t[i])
  {
    if t == [] then []
    else
      var last := t[|t| - 1];
      Payload(t[..|t| - 1]) + (if IsChatRole(last.role) then [Reduce(last)] else [])
  }

  /** The payload of a concatenation is the concatenation of the payloads: order is kept and entries are filtered one by one. */
  lemma {:induction false} PayloadAppend(a: seq<Entry>, b: seq<Entry>)
    ensures Payload(a + b) == Payload(a) + Payload(b)
  {
    if b == [] {
      assert a + b == a;
    } else {
      assert (a + b)[..|a + b| - 1] == a + b[..|b| - 1];
      PayloadAppend(a, b[..|b| - 1]);
    }
  }

  /**
   * One entry's part of the payload: a user or assistant entry as its role and
   * content, anything else dropped. With `PayloadAppend` this fixes the
   * payload of every transcript.
   */
  lemma PayloadSingle(e: Entry)
    ensures Payload([e]) == (if IsChatRole(e.role) then [Reduce(e)] else [])
  {
    assert [e][..0] == [];
  }

  /**
   * What every transcript of the page looks like: the greeting first, then
   * user and assistant entries only, user entries holding trimmed non-empty
   * text and no search flag.
   */
  ghost predicate WellFormed(t: seq<Entry>) {
    |t| >= 1 && t[0] == Greeting
    && (forall i :: 0 <= i < |t| ==> IsChatRole(t[i].role))
    && (forall i :: 0 <= i < |t| && t[i].role == User ==>
          t[i].content != "" && Trimmed(t[i].content) && t[i].isSearch.None?)
  }

  lemma AppendUserWellFormed(t: seq<Entry>, text: string)
    requires WellFormed(t) && text != "" && Trimmed(text)
    ensures WellFormed(t + [Entry(User, text, None)])
  {
  }

  lemma AppendAssistantWellFormed(t: seq<Entry>, e: Entry)
    requires WellFormed(t) && e.role == Assistant
    ensures WellFormed(t + [e])
  {
  }

  class Session {
    var messages: seq<Entry>
    var input: string
    var loading: bool
    var error: string

    /** While a request is in flight, the transcript ends with the question it carries and no error is shown. */
    ghost predicate Valid()
      reads this
    {
      WellFormed(messages)
      && (loading ==> messages[|messages| - 1].role == User && error == "")
    }

    /** The page as first rendered: the greeting alone, an empty input, idle, no error. */
    constructor ()
      ensures Valid()
      ensures messages == [Greeting] && input == "" && !loading && error == ""
    {
      messages := [Greeting];
      input := "";
      loading := false;
      error := "";
    }

    /** The send button's `disabled` attribute: nothing but whitespace typed, or a request in flight. */
    predicate SendDisabled(): (d: bool)
      reads this
      ensures d <==> AllSpace(input) || loading
    {
      Trim(input) == "" || loading
    }

    /** The suggestion chips show only before the first question: on a valid page, exactly while the transcript is the greeting alone. */
    predicate ShowSuggestions(): (b: bool)
      reads this
      ensures Valid() ==> (b <==> messages == [Greeting])
    {
      |messages| == 1
    }

    /** Typing in the input box. */
    method SetInput(s: string)
      modifies this`input
      ensures input == s
    {
      input := s;
    }

    /** Clicking the `i`th suggestion chip fills the input box with it. */
    method ChooseSuggestion(i: nat)
      requires i < |Suggestions| && ShowSuggestions()
      modifies this`input
      ensures input == Suggestions[i]
    {
      input := Suggestions[i];
    }

    /**
     * `sendMessage` up to its request. A blank input or a request already in
     * flight leaves everything as it was and sends nothing; otherwise the
     * trimmed input is appended as a user message, the input and the error
     * are cleared, the page is loading, and the payload of the new transcript
     * is returned.
     */
    method BeginSend() returns (request: Option<seq<ChatMessage>>)
      requires Valid()
      modifies this
      ensures Valid()
      ensures request.Some? <==> !old(SendDisabled())
      ensures request.None? ==>
                messages == old(messages) && input == old(input) && loading == old(loading) && error == old(error)
      ensures request.Some? ==>
                messages == old(messages) + [Entry(User, Trim(old(input)), None)]
                && input == "" && error == "" && loading
                && request.value == Payload(messages)
                && request.value == Payload(old(messages)) + [ChatMessage(User, Trim(old(input)))]
                && !ShowSuggestions()
    {
      var text := Trim(input);
      if text == "" || loading {
        return None;
      }
      input := "";
      error := "";
      var userMsg := Entry(User, text, None);
      var newMessages := messages + [userMsg];
      AppendUserWellFormed(messages, text);
      messages := newMessages;
      loading := true;
      PayloadAppend(old(messages), [userMsg]);
      request := Some(Payload(newMessages));
    }

    /**
     * `sendMessage` after its request. A body with a truthy `error` shows that
     * error; any other body appends one assistant entry with its text (or the
     * fallback) and its search flag; a failed request shows the network
     * error. Loading ends in every case; the transcript only ever grows.
     */
    method FinishSend(reply: Reply)
      requires Valid() && loading
      modifies this
      ensures Valid()
      ensures !loading && input == old(input)
      ensures old(messages) <= messages && |messages| <= |old(messages)| + 1
      ensures reply.NetworkFailure? ==> messages == old(messages) && error == NetworkError
      ensures reply.Data? && Truthy(reply.error) ==> messages == old(messages) && error == reply.error.value
      ensures reply.Data? && !Truthy(reply.error) ==>
                messages == old(messages) + [Entry(Assistant, OrDefault(reply.text, NoGoodAnswer), reply.usedSearch)]
                && error == ""
    {
      match reply {
        case NetworkFailure =>
          error := NetworkError;
        case Data(e, text, usedSearch) =>
          if Truthy(e) {
            error := e.value;
          } else {
            var answer := Entry(Assistant, OrDefault(text, NoGoodAnswer), usedSearch);
            AppendAssistantWellFormed(messages, answer);
            messages := messages + [answer];
          }
      }
      loading := false;
    }
  }

  /** The chips and a request in flight never show together. */
  lemma SuggestionsOnlyWhenIdle(s: Session)
    requires s.Valid() && s.ShowSuggestions()
    ensures !s.loading && s.messages == [Greeting]
  {
  }

  /**
   * Two submits in a row with no reply in between send one request: the
   * second finds the page loading and is ignored, whatever was typed.
   */
  method RapidSubmits(s: Session, second: string) returns (first: Option<seq<ChatMessage>>, again: Option<seq<ChatMessage>>)
    requires s.Valid() && !s.SendDisabled()
    modifies s
    ensures first.Some? && again.None?
    ensures s.messages == old(s.messages) + [Entry(User, Trim(old(s.input)), None)]
  {
    first := s.BeginSend();
    s.SetInput(second);
    again := s.BeginSend();
  }
}
