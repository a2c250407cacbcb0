# Search agent translation layer

A Dafny model of the translation layer of the search-agent microservice
(`microservices/agents/search-agent.js`). The service proxies search and
conversational-answer calls to a discovery-engine backend. The model covers
the pure logic between the service's REST surface and the backend's resource
names:

- **Resource names** (`resource_names.dfy`): engine and session paths of the
  form `projects/{P}/locations/global/collections/default_collection/engines/{E}[/sessions/{S | -}]`,
  and the trailing-segment rule that turns a session name back into its short
  id. The project id is a parameter; the source reads it from the environment.
  `strings.dfy` holds the `lastIndexOf` that rule relies on.
- **Error mapping** (`errors.dfy`): an upstream failure's status and status
  text become the reply's HTTP code (at least 400, 500 by default) and message.
- **Response extractors** (`responses.dfy`): the answer, search, list and
  delete payloads, modelled as datatypes with `Option` for nullable fields, and
  how each is shaped into the public reply.
- **Request builders** (`requests.dfy`): the search and answer bodies built
  from the call's parameters and the fixed policy constants.
- **Answer chain** (`answer_chain.dfy`): search, then answer in the returned
  session. The two authenticated upstream calls are function parameters that
  may fail.

The central property is the session round trip. Building a session name and
extracting its last segment gives back the session id when the id contains no
`/`, and gives `-` when there is no id (`ResourceNames.SessionIdRoundTrip`).
An id that contains `/` comes back as its own last segment only
(`ResourceNames.SessionIdWithSlashLosesPrefix`).

Three details of the source shape the model:

- The search builder assigns `requestBody.pageSize` to itself (line 183), so
  the parsed page size is never sent. `Requests.PrepareSearchRequest` always
  sends no page size, and `Requests.SearchRequestDeterminedBySessionAndQuery`
  shows that the page size never influences the body.
- The error mapping reads `exception.response.status` (line 54). That throws
  for a failure that has no response, such as an authentication failure. The
  error mapping therefore takes an upstream failure record, and failures
  without one are not modelled.
- The search body's `languageCode` is read from a parameter field that the
  parameter builder never sets (line 184). It is always absent in the model.

## Model

| member | source | states |
|---|---|---|
| Strings.LastIndexOf | microservices/agents/search-agent.js:96 | the result is -1 or an occurrence of the character, and no occurrence follows it |
| Strings.LastIndexOfUnique | microservices/agents/search-agent.js:96 | any occurrence (or -1) with no occurrence after it is exactly what `lastIndexOf` returns |
| ResourceNames.EnginePath | microservices/agents/search-agent.js:63-67 | the engine path is `projects/`, then the project id, then `/locations/global/collections/default_collection/engines/`, then the engine id |
| ResourceNames.EnginePathInjective | microservices/agents/search-agent.js:63-67 | within one project, equal engine paths mean equal engine ids |
| ResourceNames.SessionPath | microservices/agents/search-agent.js:69-80 | the session path is the engine path, then `/sessions/`, then the session id or `-` when it is null, so it ends in `/sessions/-` for a null id |
| ResourceNames.SessionPathInjective | microservices/agents/search-agent.js:69-80 | two session paths of one engine are equal exactly when their last segments are; a null id and the literal id `-` name the same session |
| ResourceNames.ExtractSessionId | microservices/agents/search-agent.js:94-98 | the result is a suffix of the name and contains no `/`; it is the whole name when the name has no `/`, and otherwise a `/` precedes it |
| ResourceNames.ExtractAfterSlash | microservices/agents/search-agent.js:94-98 | extraction from `prefix/id` equals extraction from `id` alone |
| ResourceNames.SessionIdRoundTrip | microservices/agents/search-agent.js:69-98 | extracting the id from a built session path returns the session id when it has no `/`, and `-` when it is null |
| ResourceNames.SessionIdWithSlashLosesPrefix | microservices/agents/search-agent.js:69-98 | the id `a/b` comes back from the round trip as `b`, so the slash-free condition is needed |
| Errors.PrepareRESTErrorMessage | microservices/agents/search-agent.js:52-61 | the message is the upstream status text unchanged; the code is the status when it is at least 400 and 500 when it is undefined or below 400, so it is always at least 400 |
| Errors.StatusPreservedIff | microservices/agents/search-agent.js:59 | the upstream status is reported as the code exactly when it is at least 400 |
| Errors.ErrorMappingIdempotent | microservices/agents/search-agent.js:52-61 | mapping an error reply again, as an upstream failure, gives the same reply |
| Responses.ProcessGenerateAnswerResponse | microservices/agents/search-agent.js:100-113 | the reply carries the answer text and, as session id, the slash-free last segment of the session name |
| Responses.AnswerReportsSessionId | microservices/agents/search-agent.js:100-113 | an answer given in session `{engine}/sessions/{id}` is reported with session id `id` |
| Responses.ProcessSearchQueryResponse | microservices/agents/search-agent.js:115-120 | the search payload's session info is returned unchanged, and nothing else in the modelled payload is dropped |
| Responses.ProcessDeleteSessionsResponse | microservices/agents/search-agent.js:144-148 | the delete payload is returned unchanged |
| Responses.ListedSessionKeepsId | microservices/agents/search-agent.js:132-138 | a listed session stored under `{engine}/sessions/{id}` is listed as `id` with its timestamps as given |
| Responses.ListSessionSummaries | microservices/agents/search-agent.js:122-142 | the session list as a value: empty for a null `sessions` field, otherwise same length and order, with extracted ids and copied timestamps |
| Responses.ListedIdsRoundTrip | microservices/agents/search-agent.js:132-138 | when every listed session is stored under `{engine}/sessions/{id}` with a slash-free id, the list reports exactly those ids in order |
| Responses.ProcessListSessionsResponse | microservices/agents/search-agent.js:122-142 | a null `sessions` field gives an empty list; otherwise the list has the same length and order, each id is the extracted last segment of the name, and start and end are the upstream timestamps, absent ones included; the loop builds exactly `ListSessionSummaries` |
| Requests.PrepareSearchRequest | microservices/agents/search-agent.js:178-200 | the session is the session path of the call's engine and session id, the query is the call's query, query expansion and spell correction are `AUTO`, at most one extractive answer, and no page size or language code |
| Requests.SearchRequestDeterminedBySessionAndQuery | microservices/agents/search-agent.js:178-200 | two calls with the same engine, session id and query get the same search body, whatever their page size, datastore or prompt |
| Requests.SearchRequestNamesSession | microservices/agents/search-agent.js:181 | the last segment of the search body's session is the call's session id, or `-` when it has none |
| Requests.PrepareAnswerRequest | microservices/agents/search-agent.js:150-176 | the session and query id are the search reply's, the query text is the call's, the four safety and citation flags are set, the model version is the fixed constant and the preamble is the configured prompt |
| Requests.AnswerRequestUsesReturnedSession | microservices/agents/search-agent.js:150-176 | the answer body does not depend on the call's engine, session id, page size or datastore |
| Requests.SearchReplyChainsIntoAnswer | microservices/agents/search-agent.js:267-270 | the answer body built from a search reply carries that reply's session name and query id |
| AnswerChain.PerformSearchQuery | microservices/agents/search-agent.js:226-277 | a failed search ends the chain with its failure; otherwise the answer call receives the body chained from the search reply, and its failure ends the chain while its success yields the shaped answer (text and short session id) |
| AnswerChain.NoAnswerAfterFailedSearch | microservices/agents/search-agent.js:252-277 | when the search fails the outcome does not depend on the answer call |
| AnswerChain.FreshSessionScenario | microservices/agents/search-agent.js:252-277 | a call without a session searches `.../sessions/-`, and when the backend opens session S1 and answers "Hi" the reply is "Hi" with id S1 |
| AnswerChain.ForbiddenScenario | microservices/agents/search-agent.js:52-61 | a search refused with 403 "Forbidden" becomes an error with code 403 and message "Forbidden" |

## Left out

- HTTP routes and handlers (lines 336-401), server start-up (404-409): framework plumbing. The handlers' use of the error mapping is represented by `Errors.PrepareRESTErrorMessage` alone.
- Authentication with the cloud credential library (210-224) and the HTTPS agent (202-208): calls into a foreign library and transport configuration.
- The Axios calls and their URLs (226-327): network I/O. The answer chain takes the two calls as parameters; the list and delete calls are not modelled beyond their extractors.
- Environment variables (lines 40, 65, 90): the project id and the prompt are parameters.
- `prepareAgentInfo` (82-92): its `Number(...)` coercion of the page size may produce NaN. `Requests.AgentInfo` takes the parsed page size as an `Option`, and the value never reaches a request anyway.
- JavaScript runtime failures: a missing session name, a missing `answer` or `session` object in an answer payload, an absent `sessionInfo` in a search payload, and an exception without `response` in the error mapping (line 54) would each throw a TypeError. The model takes these fields as required.
- Template-literal stringification: the source writes `${agentInfo.query}` and `${agentInfo.prompt}`, which turn an undefined value into the text "undefined". The model takes query and prompt as strings.
- Payload fields the service never reads (search results, answer citations, and so on) are not part of the payload datatypes.
