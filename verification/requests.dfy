/** The per-request parameters and the upstream request bodies built from them. */
module Requests {
  import opened Wrappers
  import opened ResourceNames
  import opened Responses

  /** Parameters of one inbound call: the optional session id from the path,
      the parsed page size (None when absent or not a number), the engine and
      query from the body, the datastore path parameter (no route has one) and
      the configured answer prompt. */
  datatype AgentInfo = AgentInfo(
    sessionId: Option<string>,
    pageSize: Option<int>,
    engineId: string,
    datastoreId: Option<string>,
    query: string,
    prompt: string)

  datatype QueryExpansionSpec = QueryExpansionSpec(condition: string)
  datatype SpellCorrectionSpec = SpellCorrectionSpec(mode: string)
  datatype ExtractiveContentSpec = ExtractiveContentSpec(maxExtractiveAnswerCount: int)
  datatype ContentSearchSpec = ContentSearchSpec(extractiveContentSpec: ExtractiveContentSpec)

  /** The body of an upstream search call. `pageSize` and `languageCode` are
      None when the field is left undefined. */
  datatype SearchRequest = SearchRequest(
    session: string,
    query: string,
    pageSize: Option<int>,
    languageCode: Option<string>,
    queryExpansionSpec: QueryExpansionSpec,
    spellCorrectionSpec: SpellCorrectionSpec,
    contentSearchSpec: ContentSearchSpec)

  datatype AnswerQuery = AnswerQuery(text: string, queryId: Option<string>)
  datatype ModelSpec = ModelSpec(modelVersion: string)
  datatype PromptSpec = PromptSpec(preamble: string)
  datatype AnswerGenerationSpec = AnswerGenerationSpec(
    ignoreAdversarialQuery: bool,
    ignoreNonAnswerSeekingQuery: bool,
    ignoreLowRelevantContent: bool,
    includeCitations: bool,
    modelSpec: ModelSpec,
    promptSpec: PromptSpec)

  /** The body of an upstream answer call. */
  datatype AnswerRequest = AnswerRequest(session: string, query: AnswerQuery, answerGenerationSpec: AnswerGenerationSpec)

  /** The fixed answer-generation model. */
  const GenAIModelVersion := "gemini-2.0-flash-001/answer_gen/v1"
  /** The fixed query-expansion condition and spell-correction mode. */
  const Auto := "AUTO"

  /** The search body: the session name for the call's engine and session id
      (the `-` sentinel when none), the query, and the fixed search policy.
      The page size is never sent and no language code is ever set. */
  function PrepareSearchRequest(project: string, agentInfo: AgentInfo): (r: SearchRequest)
    ensures r.session == SessionPath(project, agentInfo.engineId, agentInfo.sessionId)
    ensures r.query == agentInfo.query
    ensures r.pageSize.None? && r.languageCode.None?
    ensures r.queryExpansionSpec.condition == "AUTO" && r.spellCorrectionSpec.mode == "AUTO"
    ensures r.contentSearchSpec.extractiveContentSpec.maxExtractiveAnswerCount == 1
  {
    var session := SessionPath(project, agentInfo.engineId, agentInfo.sessionId);
    // The page size field is assigned to itself and so stays undefined, and the
    // language code is read from a field the parameters never carry.
    var pageSize := None;
    var languageCode := None;
    SearchRequest(session, agentInfo.query, pageSize, languageCode,
                  QueryExpansionSpec(Auto), SpellCorrectionSpec(Auto),
                  ContentSearchSpec(ExtractiveContentSpec(1)))
  }

  /** The search body depends on the parameters only through the engine, the
      session id and the query: the page size, datastore and prompt change nothing. */
  lemma SearchRequestDeterminedBySessionAndQuery(project: string, a: AgentInfo, b: AgentInfo)
    requires a.engineId == b.engineId && a.sessionId == b.sessionId && a.query == b.query
    ensures PrepareSearchRequest(project, a) == PrepareSearchRequest(project, b)
  {
  }

  /** The search body names the session it asks for: its last segment is the
      call's session id (for ids without `/`), or `-` when there is none. */
  lemma SearchRequestNamesSession(project: string, agentInfo: AgentInfo)
    requires agentInfo.sessionId.Some? ==> '/' !in agentInfo.sessionId.value
    ensures ExtractSessionId(PrepareSearchRequest(project, agentInfo).session) == SessionSegment(agentInfo.sessionId)
  {
    SessionIdRoundTrip(project, agentInfo.engineId, agentInfo.sessionId);
  }

  /** The answer body: the session and query id the search returned, the
      call's query text, the four safety and citation flags all set, the fixed
      model version and the configured prompt as preamble. */
  function PrepareAnswerRequest(agentInfo: AgentInfo, sessionInfo: SessionInfo): (r: AnswerRequest)
    ensures r.session == sessionInfo.name
    ensures r.query.text == agentInfo.query && r.query.queryId == sessionInfo.queryId
    ensures var g := r.answerGenerationSpec;
      g.ignoreAdversarialQuery && g.ignoreNonAnswerSeekingQuery && g.ignoreLowRelevantContent && g.includeCitations
    ensures r.answerGenerationSpec.modelSpec.modelVersion == "gemini-2.0-flash-001/answer_gen/v1"
    ensures r.answerGenerationSpec.promptSpec.preamble == agentInfo.prompt
  {
    var query := AnswerQuery(agentInfo.query, sessionInfo.queryId);
    var spec := AnswerGenerationSpec(true, true, true, true, ModelSpec(GenAIModelVersion), PromptSpec(agentInfo.prompt));
    AnswerRequest(sessionInfo.name, query, spec)
  }

  /** The answer body takes its session from the search reply, not from the
      parameters: the engine, session id, page size and datastore change nothing. */
  lemma AnswerRequestUsesReturnedSession(a: AgentInfo, b: AgentInfo, sessionInfo: SessionInfo)
    requires a.query == b.query && a.prompt == b.prompt
    ensures PrepareAnswerRequest(a, sessionInfo) == PrepareAnswerRequest(b, sessionInfo)
  {
  }

  /** Chaining a search reply into the answer body carries the backend's
      session name and query id across unchanged. */
  lemma SearchReplyChainsIntoAnswer(agentInfo: AgentInfo, result: Reply<SearchResponse>)
    ensures var r := PrepareAnswerRequest(agentInfo, ProcessSearchQueryResponse(result));
      r.session == result.data.sessionInfo.name && r.query.queryId == result.data.sessionInfo.queryId
  {
  }
}
