/** Upstream JSON payloads and the extractors that shape them into the
    service's public responses. */
module Responses {
  import opened Wrappers
  import opened ResourceNames

  /** An upstream HTTP result; the extractors only read its `data` payload. */
  datatype Reply<T> = Reply(data: T)

  /** The session handle a search call returns and an answer call consumes. */
  datatype SessionInfo = SessionInfo(name: string, queryId: Option<string>)

  /** The part of a search payload the service reads. */
  datatype SearchResponse = SearchResponse(sessionInfo: SessionInfo)

  /** The generated answer and the session it was produced in. */
  datatype GeneratedAnswer = GeneratedAnswer(answerText: string)
  datatype AnswerSession = AnswerSession(name: string)
  datatype GenerateAnswerResponse = GenerateAnswerResponse(answer: GeneratedAnswer, session: AnswerSession)

  /** The service's answer reply: the text and the short session id. */
  datatype SessionRef = SessionRef(id: string)
  datatype AnswerInfo = AnswerInfo(answer: string, sessionInfo: SessionRef)

  /** One session of a list payload; the timestamps may be absent. */
  datatype UpstreamSession = UpstreamSession(name: string, startTime: Option<string>, endTime: Option<string>)
  /** A list payload; `sessions` is null or absent when the engine has none. */
  datatype ListSessionsResponse = ListSessionsResponse(sessions: Option<seq<UpstreamSession>>)
  /** One entry of the service's session list. */
  datatype SessionSummary = SessionSummary(id: string, start: Option<string>, end: Option<string>)

  /** The answer text is passed on and the session is reported by its short id,
      the last segment of the session name. */
  function ProcessGenerateAnswerResponse(result: Reply<GenerateAnswerResponse>): (r: AnswerInfo)
    ensures r.answer == result.data.answer.answerText
    ensures '/' !in r.sessionInfo.id
    ensures r.sessionInfo.id == ExtractSessionId(result.data.session.name)
  {
    var response := result.data;
    AnswerInfo(response.answer.answerText, SessionRef(ExtractSessionId(response.session.name)))
  }

  /** When the backend answers in the session `{engine}/sessions/{id}`, the
      reply names that session by `id` (for ids without `/`). */
  lemma AnswerReportsSessionId(project: string, engineId: string, id: string,
                               text: string, result: Reply<GenerateAnswerResponse>)
    requires '/' !in id
    requires result.data == GenerateAnswerResponse(GeneratedAnswer(text), AnswerSession(SessionPath(project, engineId, Some(id))))
    ensures ProcessGenerateAnswerResponse(result) == AnswerInfo(text, SessionRef(id))
  {
    SessionIdRoundTrip(project, engineId, Some(id));
  }

  /** The search payload's session handle, passed on unchanged. */
  function ProcessSearchQueryResponse(result: Reply<SearchResponse>): (r: SessionInfo)
    ensures Reply(SearchResponse(r)) == result
  {
    result.data.sessionInfo
  }

  /** The delete payload, passed on unchanged. */
  function ProcessDeleteSessionsResponse<T>(result: Reply<T>): (r: T)
    ensures Reply(r) == result
  {
    result.data
  }

  /** One list entry: its short id and its timestamps as given. */
  function Summarize(session: UpstreamSession): SessionSummary {
    SessionSummary(ExtractSessionId(session.name), session.startTime, session.endTime)
  }

  /** A listed session stored under `{engine}/sessions/{id}` is listed as `id`
      (for ids without `/`), with its timestamps as given. */
  lemma ListedSessionKeepsId(project: string, engineId: string, id: string,
                             startTime: Option<string>, endTime: Option<string>)
    requires '/' !in id
    ensures Summarize(UpstreamSession(SessionPath(project, engineId, Some(id)), startTime, endTime))
         == SessionSummary(id, startTime, endTime)
  {
    SessionIdRoundTrip(project, engineId, Some(id));
  }

  /** The session list as a value: empty when the upstream list is absent,
      otherwise one summary per upstream session, in order. */
  function ListSessionSummaries(result: Reply<ListSessionsResponse>): (r: seq<SessionSummary>)
    ensures result.data.sessions.None? ==> r == []
    ensures result.data.sessions.Some? ==> |r| == |result.data.sessions.value|
    ensures result.data.sessions.Some? ==> forall i :: 0 <= i < |r| ==>
      && r[i].id == ExtractSessionId(result.data.sessions.value[i].name)
      && r[i].start == result.data.sessions.value[i].startTime
      && r[i].end == result.data.sessions.value[i].endTime
  {
    match result.data.sessions
    case None => []
    case Some(sessions) => seq(|sessions|, i requires 0 <= i < |sessions| => Summarize(sessions[i]))
  }

  /** When every listed session is stored under `{engine}/sessions/{id}` with a
      slash-free id, the list reports exactly those ids, in order. */
  lemma ListedIdsRoundTrip(project: string, engineId: string, ids: seq<string>, result: Reply<ListSessionsResponse>)
    requires result.data.sessions.Some? && |result.data.sessions.value| == |ids|
    requires forall i :: 0 <= i < |ids| ==>
      '/' !in ids[i] && result.data.sessions.value[i].name == SessionPath(project, engineId, Some(ids[i]))
    ensures var r := ListSessionSummaries(result);
      |r| == |ids| && forall i :: 0 <= i < |ids| ==> r[i].id == ids[i]
  {
    var r := ListSessionSummaries(result);
    forall i | 0 <= i < |ids| ensures r[i].id == ids[i] {
      SessionIdRoundTrip(project, engineId, Some(ids[i]));
    }
  }

  /** An absent session list gives an empty list; otherwise one summary per
      upstream session, in order, with the id extracted from the name and the
      timestamps copied, absent ones included. The loop builds exactly the
      value `ListSessionSummaries` describes. */
  method ProcessListSessionsResponse(result: Reply<ListSessionsResponse>) returns (r: seq<SessionSummary>)
    ensures result.data.sessions.None? ==> r == []
    ensures result.data.sessions.Some? ==> |r| == |result.data.sessions.value|
    ensures result.data.sessions.Some? ==> forall i :: 0 <= i < |r| ==>
      && r[i].id == ExtractSessionId(result.data.sessions.value[i].name)
      && r[i].start == result.data.sessions.value[i].startTime
      && r[i].end == result.data.sessions.value[i].endTime
    ensures forall i :: 0 <= i < |r| ==> '/' !in r[i].id
    ensures r == ListSessionSummaries(result)
  {
    var response := result.data;
    r := [];
    if response.sessions == None {
      return;
    }
    var sessions := response.sessions.value;
    var i := 0;
    while i < |sessions|
      invariant 0 <= i <= |sessions|
      invariant |r| == i
      invariant forall j :: 0 <= j < i ==> r[j] == Summarize(sessions[j])
    {
      r := r + [Summarize(sessions[i])];
      i := i + 1;
    }
    assert r == ListSessionSummaries(result);
  }
}
