/**
 * The page and the route together: the payload the page sends is the request
 * the route reads, and the route's response is the reply the page applies.
 */
module ClientServer {
  import opened Wrappers
  import opened JsText
  import opened Protocol
  import ChatApi
  import Home

  /**
   * `await res.json()` in the page: a 405 has no body, so parsing it fails
   * like a network error; 200 and 500 bodies arrive as their fields. What the
   * page then does depends on the reply's truthy error: the page shows an
   * error exactly for a 500 with a non-empty error, and appends an answer for
   * a 200 or for a 500 whose error is empty.
   */
  function Deliver(r: ChatApi.Response): (reply: Home.Reply)
    ensures reply.NetworkFailure? <==> r.body.NoBody?
    ensures reply.Data? && Truthy(reply.error) <==> r.body.Failure? && r.body.error != ""
    ensures reply.Data? && Truthy(reply.error) ==> reply.error.value == r.body.error
    ensures reply.Data? && !Truthy(reply.error) <==> r.body.Answer? || (r.body.Failure? && r.body.error == "")
    ensures r.body.Answer? ==> OrDefault(reply.text, Home.NoGoodAnswer) == OrDefault(Some(r.body.text), Home.NoGoodAnswer)
                               && reply.usedSearch == Some(r.body.usedSearch)
    ensures r.body.Failure? ==> OrDefault(reply.text, Home.NoGoodAnswer) == Home.NoGoodAnswer && reply.usedSearch.None?
  {
    match r.body
    case NoBody => Home.NetworkFailure
    case Answer(text, usedSearch) => Home.Data(None, Some(text), Some(usedSearch))
    case Failure(e) => Home.Data(Some(e), None, None)
  }

  /**
   * The route searches for exactly the question the page has just appended,
   * and hands the page's payload to the completion provider unchanged.
   */
  lemma {:induction false} PayloadQuery(t: seq<Home.Entry>, text: string)
    requires Home.WellFormed(t) && text != "" && Trimmed(text)
    ensures var p := Home.Payload(t + [Home.Entry(User, text, None)]);
      ChatApi.Query(p) == text && ChatApi.History(p) == p
  {
    var p := Home.Payload(t + [Home.Entry(User, text, None)]);
    Home.PayloadAppend(t, [Home.Entry(User, text, None)]);
    assert p[|p| - 1] == ChatMessage(User, text);
    ChatApi.HistoryKeepsChatRoles(p);
  }

  /**
   * A completed pipeline reaches the page as a body with no error and a
   * non-empty text, so the page shows the route's reply and never its own
   * fallback.
   */
  lemma ServedAnswer(msgs: seq<ChatMessage>, search: ChatApi.SearchOutcome, choices: seq<ChatApi.Choice>)
    ensures var reply := Deliver(ChatApi.Handle("POST", msgs, search, ChatApi.CompletionReturned(choices)).response);
      reply.Data? && !Truthy(reply.error) && Truthy(reply.text)
      && OrDefault(reply.text, Home.NoGoodAnswer) == ChatApi.ReplyText(choices)
      && reply.usedSearch == Some(true)
  {
  }

  /** A failed completion reaches the page as a truthy error: the route's message, or "Server error". */
  lemma ServedFailure(msgs: seq<ChatMessage>, search: ChatApi.SearchOutcome, message: Option<string>)
    ensures var reply := Deliver(ChatApi.Handle("POST", msgs, search, ChatApi.CompletionThrew(message)).response);
      reply.Data? && Truthy(reply.error) && reply.error.value == ChatApi.ErrorText(message)
  {
  }

  /**
   * For the question the page has just appended, the route searches for that
   * question, and the page receives the route's reply or its error.
   */
  lemma AnswerToQuestion(t: seq<Home.Entry>, text: string, search: ChatApi.SearchOutcome, completion: ChatApi.CompletionOutcome)
    requires Home.WellFormed(t) && text != "" && Trimmed(text)
    ensures var x := ChatApi.Handle("POST", Home.Payload(t + [Home.Entry(User, text, None)]), search, completion);
      |x.calls| == 2 && x.calls[0] == ChatApi.SearchCall(text, ChatApi.MaxResults, ChatApi.SearchDepth)
      && Deliver(x.response) == match completion
           case CompletionReturned(choices) => Home.Data(None, Some(ChatApi.ReplyText(choices)), Some(true))
           case CompletionThrew(message) => Home.Data(Some(ChatApi.ErrorText(message)), None, None)
  {
    var p := Home.Payload(t + [Home.Entry(User, text, None)]);
    PayloadQuery(t, text);
    ChatApi.HandleCalls(p, search, completion);
  }

  /**
   * One turn of the conversation: the page sends, the route answers, the page
   * applies the answer. The route searches for the trimmed input; the
   * transcript gains the question and, when the completion succeeded, the
   * reply, and otherwise shows the route's error.
   */
  method Turn(s: Home.Session, search: ChatApi.SearchOutcome, completion: ChatApi.CompletionOutcome)
    returns (x: ChatApi.Exchange)
    requires s.Valid() && !s.SendDisabled()
    modifies s
    ensures s.Valid() && !s.loading && s.input == ""
    ensures |x.calls| == 2 && x.calls[0] == ChatApi.SearchCall(Trim(old(s.input)), ChatApi.MaxResults, ChatApi.SearchDepth)
    ensures completion.CompletionReturned? ==>
              s.messages == old(s.messages) + [Home.Entry(User, Trim(old(s.input)), None),
                                               Home.Entry(Assistant, ChatApi.ReplyText(completion.choices), Some(true))]
              && s.error == ""
    ensures completion.CompletionThrew? ==>
              s.messages == old(s.messages) + [Home.Entry(User, Trim(old(s.input)), None)]
              && s.error == ChatApi.ErrorText(completion.message)
  {
    ghost var before := s.messages;
    ghost var text := Trim(s.input);
    ghost var question := Home.Entry(User, text, None);
    var request := s.BeginSend();
    x := ChatApi.Handle("POST", request.value, search, completion);
    AnswerToQuestion(before, text, search, completion);
    var reply := Deliver(x.response);
    match completion {
      case CompletionReturned(choices) =>
        ghost var answer := Home.Entry(Assistant, ChatApi.ReplyText(choices), Some(true));
        assert reply == Home.Data(None, Some(ChatApi.ReplyText(choices)), Some(true));
        assert !Truthy(reply.error) && OrDefault(reply.text, Home.NoGoodAnswer) == ChatApi.ReplyText(choices);
        ghost var asked := s.messages;
        assert asked == before + [question];
        s.FinishSend(reply);
        assert s.messages == asked + [answer];
        AppendTwice(before, question, answer);
      case CompletionThrew(message) =>
        s.FinishSend(reply);
    }
  }

  lemma AppendTwice<T>(a: seq<T>, x: T, y: T)
    ensures a + [x] + [y] == a + [x, y]
  {
  }
}
