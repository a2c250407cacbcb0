/** The search-then-answer chain behind the answer route, with the two
    authenticated upstream calls taken as fallible steps. */
module AnswerChain {
  import opened Wrappers
  import opened ResourceNames
  import opened Errors
  import opened Responses
  import opened Requests

  /** An upstream search call: a search body in, a search reply or a failure out. */
  type SearchCall = SearchRequest -> Result<Reply<SearchResponse>, UpstreamFailure>
  /** An upstream answer call: an answer body in, an answer reply or a failure out. */
  type AnswerCall = AnswerRequest -> Result<Reply<GenerateAnswerResponse>, UpstreamFailure>

  /** Search with the call's parameters, chain the returned session into the
      answer call, and shape its reply; the first failure ends the chain. */
  function PerformSearchQuery(project: string, agentInfo: AgentInfo, search: SearchCall, answer: AnswerCall)
    : (r: Result<AnswerInfo, UpstreamFailure>)
    ensures var s := search(PrepareSearchRequest(project, agentInfo));
      s.Failure? ==> r == Failure(s.error)
    ensures var s := search(PrepareSearchRequest(project, agentInfo));
      s.Success? ==>
        var a := answer(PrepareAnswerRequest(agentInfo, s.value.data.sessionInfo));
        && (a.Failure? ==> r == Failure(a.error))
        && (a.Success? ==> r == Success(ProcessGenerateAnswerResponse(a.value)))
  {
    match search(PrepareSearchRequest(project, agentInfo))
    case Failure(f) => Failure(f)
    case Success(searchResult) =>
      var sessionInfo := ProcessSearchQueryResponse(searchResult);
      match answer(PrepareAnswerRequest(agentInfo, sessionInfo))
      case Failure(f) => Failure(f)
      case Success(answerResult) => Success(ProcessGenerateAnswerResponse(answerResult))
  }

  /** The answer call is not made when the search fails: the outcome is then
      the same whatever the answer call would have done. */
  lemma NoAnswerAfterFailedSearch(project: string, agentInfo: AgentInfo, search: SearchCall,
                                  answer1: AnswerCall, answer2: AnswerCall)
    requires search(PrepareSearchRequest(project, agentInfo)).Failure?
    ensures PerformSearchQuery(project, agentInfo, search, answer1)
         == PerformSearchQuery(project, agentInfo, search, answer2)
  {
  }

  /** A fresh-session answer: the search asks for `.../engines/e1/sessions/-`,
      the backend opens session S1, and the reply is the answer text with id S1. */
  lemma FreshSessionScenario()
    ensures
      var project := "p";
      var session := SessionPath(project, "e1", Some("S1"));
      var search: SearchCall := (req: SearchRequest) =>
        if req.session == SessionPath(project, "e1", None) && req.query == "hello"
        then Success(Reply(SearchResponse(SessionInfo(session, Some("Q1")))))
        else Failure(UpstreamFailure(Some(400), "Bad Request"));
      var answer: AnswerCall := (req: AnswerRequest) =>
        if req.session == session && req.query.queryId == Some("Q1")
        then Success(Reply(GenerateAnswerResponse(GeneratedAnswer("Hi"), AnswerSession(session))))
        else Failure(UpstreamFailure(Some(400), "Bad Request"));
      var agentInfo := AgentInfo(None, None, "e1", None, "hello", "prompt");
      PerformSearchQuery(project, agentInfo, search, answer) == Success(AnswerInfo("Hi", SessionRef("S1")))
  {
    SessionIdRoundTrip("p", "e1", Some("S1"));
  }

  /** A search refused with 403 Forbidden becomes an error reply with status
      403 and message "Forbidden". */
  lemma ForbiddenScenario(project: string, agentInfo: AgentInfo, answer: AnswerCall)
    ensures
      var search: SearchCall := (req: SearchRequest) => Failure(UpstreamFailure(Some(403), "Forbidden"));
      var r := PerformSearchQuery(project, agentInfo, search, answer);
      r.Failure? && PrepareRESTErrorMessage(r.error) == ErrorInfo("Forbidden", 403)
  {
  }
}
