# A2A orchestrator and its three agents, in Dafny

This project models the core of a multi-agent system. An orchestrator keeps a
registry of A2A-style tasks. It routes typed requests to three agents:

- a research agent, built on CrewAI, that picks external data sources from the
  wording of a task and enriches the prompt with them;
- an analysis agent, built on LangGraph, that runs a two-node analyse/recommend
  graph and keeps a small state dictionary;
- a domain expert, built on Google ADK or a direct HTTP call to a chat
  completion service, that keeps a running context history.

Two workflows are built on top. The collaborative pipeline runs research,
then analysis, then the expert, and records one history entry and one artifact
per stage. Sequential coordination routes a list of requests and shares
results between agents as it goes.

Files and modules:

- `text.dfy` (`Text`): the Python string operations the agents rely on, over
  ASCII. These are `lower`, `upper`, `capitalize`, `in`, `split()`,
  `split(sep)[1]`, `strip`, slicing, `repr` of strings and lists, and the
  decimal rendering of status codes.
- `common.dfy` (`Common`): `Option`, `Attempt` (a value, or an exception
  carrying its message), the dictionary values the agents pass around, Python
  truthiness, and the content-moderation test the agents share.
- `selection.dfy` (`Selection`): `auto_select_apis`, the merge with caller
  options, and the `apis_used` list.
- `research_agent.dfy` (`ResearchAgent`): `execute_task`. It covers the
  enrichment chain and the moderation retry.
- `analysis_agent.dfy` (`AnalysisAgent`): the graph nodes, the fallback path,
  `process_input`, and the `Analyzer` class with its state dictionary.
- `expert_agent.dfy` (`ExpertAgent`): `respond_to_query` on both back ends,
  and the `Expert` class with its context history.
- `tasks.dfy` (`Tasks`): task states, statuses, history entries, artifacts and
  the `Task` object.
- `orchestrator.dfy` (`Orchestration`): routing, the pipeline as a function and
  as a method on the `Orchestrator` class, and `coordinate_agents`.

How outside effects are modelled:

- The language models, the HTTP endpoint, the ADK runner and the external data
  services are function parameters (oracles). An oracle maps the exact prompt
  or payload to an answer or an exception message.
- Fresh task ids, fresh session ids and the current timestamp are parameters.

Each stateful operation is a method proved against a specification function.
For example, `RunStagesFrom` is proved against `Continue` and
`CoordinateAgents` against `Coordinate`. The properties are then proved as
lemmas about those functions.

## Model

| member | source | states |
|---|---|---|
| Tasks.NewTask | orchestration/a2a_orchestrator.py:25-33 | a new task is `submitted` with the message "Task created"; it has no history, artifacts or metadata; a given non-empty session id is kept and an absent one is replaced by a fresh id |
| Tasks.WithStatus | orchestration/a2a_orchestrator.py:71-74 | the status is replaced by a new one with the given state, message and time; nothing else in the task changes |
| Tasks.WithHistory | orchestration/a2a_orchestrator.py:76-79 | the entry is appended at the end of the history; the earlier entries and the rest of the task are unchanged |
| Tasks.WithArtifact | orchestration/a2a_orchestrator.py:81-85 | the artifact is appended with `index` equal to the number of artifacts before it; every artifact keeps recording its own position; nothing else changes |
| Tasks.Task.constructor | orchestration/a2a_orchestrator.py:25-33 | the object's view is `NewTask` of its arguments |
| Orchestration.Orchestrator.constructor | orchestration/a2a_orchestrator.py:36-62 | the registry starts empty; a fresh analyzer with empty state and a fresh expert with empty context are created |
| Orchestration.Orchestrator.CreateTask | orchestration/a2a_orchestrator.py:64-69 | the id is one not yet registered; a fresh task object is registered under it with `NewTask` as its view, the set of ids grows by exactly that id, and no earlier entry is replaced or changed |
| Orchestration.Orchestrator.UpdateTaskStatus | orchestration/a2a_orchestrator.py:71-74 | a registered task gets `WithStatus`; an unknown id leaves the registry unchanged |
| Orchestration.Orchestrator.AddTaskHistory | orchestration/a2a_orchestrator.py:76-79 | a registered task gets `WithHistory`; an unknown id leaves the registry unchanged |
| Orchestration.Orchestrator.AddTaskArtifact | orchestration/a2a_orchestrator.py:81-85 | a registered task gets `WithArtifact`, which sets the index; an unknown id leaves the registry unchanged |
| Orchestration.Orchestrator.GetTask | orchestration/a2a_orchestrator.py:87-89 | the result is null exactly when the id is not registered; otherwise it is the registered task |
| Orchestration.KindOf | orchestration/a2a_orchestrator.py:95-98 | the request type is research, analysis or expert query exactly for those three strings; any other type, or none, is general |
| Orchestration.ManualOptions | orchestration/a2a_orchestrator.py:100-131 | with manual selection, each of the ten option keys is forwarded from the request, or gets its default when absent |
| Orchestration.AnalysisInput | orchestration/a2a_orchestrator.py:137-143 | the analyzer receives the request content as `task`, and the request data or an empty list as `data` |
| Orchestration.RouteReply | orchestration/a2a_orchestrator.py:91-164 | every reply comes from the agent the request type selects; the only exception that escapes routing is an automatic research request whose text makes `auto_select_apis` fail |
| Orchestration.RouterOfRoutes | orchestration/a2a_orchestrator.py:91-164 | the router built from the agents' configuration routes every request as `route_task` does |
| Orchestration.RoutesFaithful | orchestration/a2a_orchestrator.py:91-164 | any router that routes as `route_task` does sends each request to the agent its type names |
| Orchestration.GeneralRequestsGoToExpert | orchestration/a2a_orchestrator.py:158-164 | a request of any unknown type is answered by the expert, with an empty context |
| Orchestration.Orchestrator.RouteTask | orchestration/a2a_orchestrator.py:91-164 | the method returns what the routing function gives for the expert's current history; the expert's history grows exactly by the line that the call records |
| Orchestration.ContentOfReply | orchestration/a2a_orchestrator.py:202 | reading `result["content"]` succeeds exactly for a successful reply of any agent; an error reply raises the missing-key exception |
| Orchestration.StageRequest | orchestration/a2a_orchestrator.py:182-186 | stage i's request goes to the research, analysis or expert agent, in that order |
| Orchestration.StageRequests | orchestration/a2a_orchestrator.py:182-248 | the three requests are the research request on the description; then the analysis request on the rendered research; then the expert query on the description with research and analysis as context |
| Orchestration.Stage | orchestration/a2a_orchestrator.py:181-208 | a stage sets `working` with its own message; it adds at most one conversation turn and one history entry per turn; it adds one artifact only when it succeeds; indices stay consistent |
| Orchestration.StageEffects | orchestration/a2a_orchestrator.py:181-270 | a successful stage appends exactly one turn, the "… by <agent>" history entry and the indexed `text/plain` artifact holding the reply's content; a failed stage adds no artifact; under faithful routing the expert stage's artifact is the expert's text |
| Orchestration.StageSteps | orchestration/a2a_orchestrator.py:181-208 | a stage's exact effects in source order: status, route, conversation turn, history entry, content read, artifact; the run stops at the first exception |
| Orchestration.Orchestrator.RecordStage | orchestration/a2a_orchestrator.py:189-208 | the turn and the history entry are recorded; the artifact is added only when the reply has content, otherwise the missing-key exception is returned |
| Orchestration.Orchestrator.RunStage | orchestration/a2a_orchestrator.py:181-208 | the method's outcome, task, turns and expert history are exactly those of `Stage` |
| Orchestration.Orchestrator.RunStagesFrom | orchestration/a2a_orchestrator.py:180-270 | running the stages from i onward gives exactly the outcome, task, turns and expert history of `Continue` |
| Orchestration.Orchestrator.FinishPipeline | orchestration/a2a_orchestrator.py:272-282 | the task alone is marked completed with the completion message, and the three replies are returned with the expert's content as the final output |
| Orchestration.Orchestrator.StartPipelineTask | orchestration/a2a_orchestrator.py:173-178 | the pipeline's task is created under the fresh id and set to `working` with "Starting collaborative task execution" |
| Orchestration.Orchestrator.CollaborativeTaskExecution | orchestration/a2a_orchestrator.py:166-282 | the registry, the expert's history and the caller's conversation list end as `Collaborate` says; a missing list is replaced by a new one; an exception is returned exactly when the run raises one; a success returns the three replies, the list and the task id |
| Orchestration.ContinueOk | orchestration/a2a_orchestrator.py:180-270 | a pipeline that succeeds passes each stage successfully and continues with that stage's results |
| Orchestration.ContinueRaised | orchestration/a2a_orchestrator.py:180-270 | when a stage raises, the task stays `working`; each turn recorded has one history entry; fewer artifacts than remaining stages were added; indices stay consistent |
| Orchestration.PipelineFailureStaysWorking | orchestration/a2a_orchestrator.py:166-282 | when the pipeline raises, the task is never marked completed or failed; it stays `working` with at most three turns, one history entry per turn, fewer than three artifacts, and consistent indices |
| Orchestration.ReachedStep | orchestration/a2a_orchestrator.py:180-270 | each successful stage under faithful routing extends the pipeline's invariant by one stage |
| Orchestration.ContinueReaches | orchestration/a2a_orchestrator.py:180-270 | a successful run from any reached stage ends in a state where all three stages are reached |
| Orchestration.ReachedAll | orchestration/a2a_orchestrator.py:180-270 | after three stages: the replies are research, analysis and expert in order; the three history entries name their agents; the three artifacts are named, indexed and hold the stage contents; the three turns are the three stage requests |
| Orchestration.PipelineCompletes | orchestration/a2a_orchestrator.py:166-282 | a successful pipeline under faithful routing leaves its task `completed` with three history entries and three indexed artifacts in order; it records three turns whose requests chain the earlier stages' contents; the final output is the expert artifact's text |
| Orchestration.SummaryAsWrittenUnbounded | orchestration/a2a_orchestrator.py:300-312 | with the length test as written, an analysis text of 200 characters or more is passed on whole, so the shared summary exceeds 203 characters |
| Orchestration.SummaryAsWritten | orchestration/a2a_orchestrator.py:300-312 | as written, a successful analysis is shared as its whole rendered report; only an error text is cut, exactly as the corrected summary cuts it |
| Orchestration.Summary | orchestration/a2a_orchestrator.py:311 | the corrected summary: the analysis text itself, or its first 200 characters followed by "..." when it is longer; it is never longer than 203 characters |
| Orchestration.CoordinateStep | orchestration/a2a_orchestrator.py:291-312 | a routing exception escapes before anything is shared; a successful reply is the router's; the expert log only grows, and an analysis reply appends exactly the summary line; only a successful research reply changes the analyzer's state, by setting `recent_research` to its content; a failed research reply raises the missing-key exception |
| Orchestration.Coordinate | orchestration/a2a_orchestrator.py:284-314 | a run that finishes returns one result per request; the expert log of the shared state only grows |
| Orchestration.CoordinateFrom | orchestration/a2a_orchestrator.py:290-314 | coordinating from position i routes request i first; it stops at an exception, otherwise it continues with the updated shared state |
| Orchestration.CoordinateKeepsOrder | orchestration/a2a_orchestrator.py:284-314 | a successful coordination returns one result per request, in request order, each from the agent the request's type names |
| Orchestration.OnlyResearchSharesWithAnalyzer | orchestration/a2a_orchestrator.py:295-298 | if no request goes to the researcher, the analyzer's state is left unchanged |
| Orchestration.Orchestrator.RouteAndShare | orchestration/a2a_orchestrator.py:291-312 | one coordination step. A research reply is stored in the analyzer's state as `recent_research`; a research error reply raises the missing-key exception. An analysis reply adds its summary to the expert's context. Nothing else changes |
| Orchestration.Orchestrator.CoordinateAgents | orchestration/a2a_orchestrator.py:284-314 | the results, the analyzer's state and the expert's history are exactly those of `Coordinate` |
| Selection.CityScanNone | agents/crewai_agent.py:89-92 | with no marker word from position i on, the city found so far is kept |
| Selection.CityScanLast | agents/crewai_agent.py:89-92 | the scan ends with the capitalised word after the last marker word |
| Selection.LastMarkerExists | agents/crewai_agent.py:89-92 | when some marker word is followed by another word, there is a last such marker |
| Selection.CityIsAfterLastMarker | agents/crewai_agent.py:86-92 | the city is the capitalised word after the last "in", "at" or "for" that is not the final word |
| Selection.CityAfterIn | agents/crewai_agent.py:86-92 | in "<word> in <city>" the extracted city is the city word, capitalised |
| Selection.CityOfTokyo | agents/crewai_agent.py:86-92 | "weather in Tokyo", once lower-cased, gives the city "Tokyo" |
| Selection.CityAbsent | agents/crewai_agent.py:86-92 | no city is found exactly when no marker word is followed by another word |
| Selection.ScanAbsent | agents/crewai_agent.py:89-92 | the scan from the start finds nothing exactly when there is no marker position |
| Selection.SymbolOf | agents/crewai_agent.py:101-105 | no `$` gives no symbol; nothing but whitespace after the first `$` raises `IndexError`; a word there always becomes the symbol: the first word after the first `$`, up to the next `$`, upper-cased |
| Selection.SymbolAfterDollar | agents/crewai_agent.py:101-105 | after a lone `$`, the symbol is the next word, upper-cased |
| Selection.SymbolOfTsla | agents/crewai_agent.py:101-105 | "stock price of $TSLA today", once lower-cased, gives the symbol "TSLA" |
| Selection.WikiQueryFallback | agents/crewai_agent.py:119-121 | when neither "who is" nor "what is" occurs, the query is a prefix of the task in its original case: its first 50 characters, or all of it when shorter |
| Selection.WhoIsFirst | agents/crewai_agent.py:111-114 | once "who is" occurs, the query is the stripped text after its first occurrence, whether or not "what is" occurs too; it holds no "who is" and is shorter than the text by at least that phrase |
| Selection.WhatIsNext | agents/crewai_agent.py:115-118 | without "who is", a "what is" gives the stripped text after its first occurrence; it holds no "what is" and is shorter than the text by at least that phrase |
| Selection.AutoSelectApis | agents/crewai_agent.py:62-123 | a successful selection holds exactly the nine inferred keys; it fails only when a stock keyword and a `$` with nothing after it occur |
| Selection.AutoSelectFlags | agents/crewai_agent.py:62-123 | each flag is set exactly when one of its keywords occurs in the lower-cased text. City, symbol and encyclopedia query are extracted only under their flag, and are empty otherwise |
| Selection.NothingMentioned | agents/crewai_agent.py:62-123 | a text with no keyword of any group never fails and selects nothing |
| Selection.CaseInsensitive | agents/crewai_agent.py:62-123 | selection on a text and on its lower-cased form agrees on failure and on every key. The one exception is the encyclopedia query, which uses the original text when no "who is"/"what is" pattern occurs |
| Selection.SymbolNeedsStockKeyword | agents/crewai_agent.py:99-105 | a symbol is extracted only when a stock keyword and a `$` occur; the symbol is a non-empty word with no space and no lower-case letter |
| Selection.AllKeysManual | agents/crewai_agent.py:152-163 | every option key is one of the ten keys the manual selection fills |
| Selection.MergeSelection | agents/crewai_agent.py:146-163 | with automatic selection, the inferred keys are overridden by the caller's options and the rest are kept; failure happens exactly when inference fails. With manual selection, the ten keys take the caller's value or their default |
| Selection.UsedFrom | agents/crewai_agent.py:260 | the keys listed from rank n onward are strictly increasing in rank |
| Selection.ApisUsed | agents/crewai_agent.py:260 | `apis_used` lists its keys in the dictionary's order, without repetition |
| Selection.UsedFromMembers | agents/crewai_agent.py:260 | a key is listed from rank n exactly when it is a `use_` key of rank at least n whose value is truthy |
| Selection.ApisUsedExactly | agents/crewai_agent.py:260 | `apis_used` holds exactly the `use_` keys whose values are truthy, and at most six of them |
| Selection.RankOfFlagKeys | agents/crewai_agent.py:64-74 | the six `use_` keys occupy the first six positions of the dictionary's order |
| Selection.RankInjective | agents/crewai_agent.py:64-74 | no two keys share a position among the first six |
| ResearchAgent.LastApplicable | agents/crewai_agent.py:178-201 | the source that survives is the last applicable one in the order web, news, weather, geolocation, stock, encyclopedia; none when no source applies |
| ResearchAgent.EnhancedStep | agents/crewai_agent.py:178-201 | each step of the chain either replaces the prompt with its own enrichment or leaves it alone |
| ResearchAgent.EnhanceTask | agents/crewai_agent.py:178-201 | the enrichment loop computes the prompt `EnhancedTask` defines: the last applicable source's enrichment, or the plain task |
| ResearchAgent.OnlyLastEnrichmentSurvives | agents/crewai_agent.py:178-201 | with no applicable source the prompt is the task itself; otherwise only the last applicable source's fetched data affects the prompt |
| ResearchAgent.ReportedWithoutFetch | agents/crewai_agent.py:187-260 | a weather, stock or encyclopedia flag that is set is reported in `apis_used` even when its argument is empty and nothing was fetched |
| ResearchAgent.Answer | agents/crewai_agent.py:239-302 | the reply carries the role, task and `apis_used`. A successful first run is returned as is; only a moderation refusal triggers one retry on the plain task, marked `fallback_used`. The two error messages say which path failed |
| ResearchAgent.CrewReply | agents/crewai_agent.py:125-302 | the reply is an exception exactly when automatic selection is on and `auto_select_apis` raises; otherwise it carries the role, the task and `apis_used` of the merged selection, and the crew is first run on the enriched description: a success without fallback is exactly that run's success, with its output as content |
| ResearchAgent.ExecuteTask | agents/crewai_agent.py:125-302 | the method returns what `CrewReply` defines; it raises exactly when automatic selection is on and `auto_select_apis` raises |
| AnalysisAgent.ShowEntries | agents/langgraph_agent.py:134-157 | renders every entry of the input dictionary, in order, as its quoted key, ": " and its quoted value |
| AnalysisAgent.ShowInput | agents/langgraph_agent.py:134-157 | `str(input_data)` of an empty input is "{}"; a task, when present, is rendered first |
| AnalysisAgent.AnalyzeNode | agents/langgraph_agent.py:134-157 | the node always returns the default patterns and insights; without a model its analysis is the fixed "Analysis of …" text |
| AnalysisAgent.GenerateResponseNode | agents/langgraph_agent.py:159-180 | the node passes analysis, patterns and insights through unchanged and produces one recommendation with a model, two without |
| AnalysisAgent.RunGraph | agents/langgraph_agent.py:134-180 | a graph run keeps the default patterns and insights; without a model the report is the fixed one; with a model, the recommendation is asked about the very analysis that is reported, and a successful analysis call's answer is that analysis |
| AnalysisAgent.GraphKeepsAnalysis | agents/langgraph_agent.py:134-180 | when the recommendation call fails, the graph still returns the analysis the first call produced, with the failure as the only recommendation |
| AnalysisAgent.SimpleReport | agents/langgraph_agent.py:245-352 | the path without a graph always returns the default patterns and insights; with no model the whole report is the fixed one; with a model there is one recommendation |
| AnalysisAgent.SimplePathDropsAnalysis | agents/langgraph_agent.py:304-352 | when the second model call fails, the analysis is replaced by the failure note and the recommendation reports the failure |
| AnalysisAgent.AnalyzerReply | agents/langgraph_agent.py:182-352 | the graph's result is returned as is unless the graph framework itself fails. A moderation refusal from the framework switches to the simple path, marked `fallback_used`; any other framework failure is an error reply. Without a graph the simple path is used |
| AnalysisAgent.NoModelFixedContent | agents/langgraph_agent.py:182-352 | without a model, every successful reply holds the fixed report |
| AnalysisAgent.Analyzer.constructor | agents/langgraph_agent.py:40-104 | the analyzer starts with its name, capabilities and setup, and an empty state |
| AnalysisAgent.Analyzer.UpdateState | agents/langgraph_agent.py:106-108 | the key is set to the value; every other key keeps its presence and value |
| AnalysisAgent.Analyzer.GetState | agents/langgraph_agent.py:110-112 | returns a copy equal to the state |
| AnalysisAgent.Analyzer.ProcessInput | agents/langgraph_agent.py:182-352 | the method returns what `AnalyzerReply` defines |
| AnalysisAgent.Analyzer.SimplePath | agents/langgraph_agent.py:304-352 | the method returns what `SimpleReport` defines |
| ExpertAgent.Window | agents/google_adk_agent.py:210 | the prompt sees the last five entries of the context history, or all of them when there are fewer |
| ExpertAgent.PromptSeesLastFive | agents/google_adk_agent.py:210 | entries older than the last five do not affect the prompt |
| ExpertAgent.HistoryLine | agents/google_adk_agent.py:210 | the "No previous conversation history" line appears exactly when the history is empty; otherwise the line starts with "Previous conversation history: " |
| ExpertAgent.LogLineRecords | agents/google_adk_agent.py:157-356 | every log line starts with "Query: " and the query, and ends with the reply's content or its error text |
| ExpertAgent.FromCompletion | agents/google_adk_agent.py:263-264 | reading a 200 answer succeeds exactly for a completion body, returning its content, the fallback mark and its usage (empty when absent); any other body is a failure with empty usage and a network-error or unexpected-error text |
| ExpertAgent.HttpExchange | agents/google_adk_agent.py:246-362 | one or two requests are posted: first the full payload, and then, only on a retry, the reduced payload; the reply names the agent and its expertise |
| ExpertAgent.HttpRetryOnRefusal | agents/google_adk_agent.py:262-335 | a second request is posted exactly when the first answer is a 403 moderation refusal; a fallback success comes only from a 200 answer to that retry; a direct success happens exactly when the first answer is a 200 completion |
| ExpertAgent.HttpFailuresClassified | agents/google_adk_agent.py:262-362 | every failure reply reports empty token usage and an error text that is an API error, a network error or an unexpected error |
| ExpertAgent.ExpertReply | agents/google_adk_agent.py:114-362 | every reply names the agent and its expertise. The runner back end never reports token usage or a fallback, and its errors carry the ADK prefix. The HTTP back end always reports token usage |
| ExpertAgent.RunnerIgnoresContext | agents/google_adk_agent.py:133-175 | the runner back end's reply depends on neither the context argument nor the history |
| ExpertAgent.Expert.constructor | agents/google_adk_agent.py:28-75 | the expert starts with its name, expertise and back end, and an empty history |
| ExpertAgent.Expert.AddToContext | agents/google_adk_agent.py:86-88 | the entry is appended to the history and the earlier entries are unchanged |
| ExpertAgent.Expert.GetContext | agents/google_adk_agent.py:90-92 | returns a copy equal to the history |
| ExpertAgent.Expert.RespondToQuery | agents/google_adk_agent.py:114-362 | the reply is `ExpertReply` on the history before the call, and exactly one line recording the query and the reply is appended |
| Text.LowerIdempotent | agents/crewai_agent.py:64 | lower-casing twice is lower-casing once |
| Text.UpperHasNoLower | agents/crewai_agent.py:105 | an upper-cased text has no lower-case letter |
| Text.Capitalize | agents/crewai_agent.py:92 | the first character is upper-cased and the rest lower-cased |
| Text.Find | agents/crewai_agent.py:102-103 | finds the first occurrence, and finds one exactly when the pattern occurs |
| Text.SecondPart | agents/crewai_agent.py:103-105 | `split(sep)[1]`: a piece of the text that starts right after the first separator and ends at the next separator or at the end; it holds no separator |
| Text.SecondPartStopsAtNext | agents/crewai_agent.py:103-105 | no separator starts anywhere inside `split(sep)[1]`, so the piece ends at the first separator after the first one |
| Text.SecondPartOfChar | agents/crewai_agent.py:103-105 | with a single separator character in the text, `split(sep)[1]` is everything after it |
| Text.Strip | agents/crewai_agent.py:114 | the stripped text neither starts nor ends with whitespace |
| Text.StripRemovesOuterSpace | agents/crewai_agent.py:114 | the stripped text is a contiguous piece of the text with nothing but whitespace before and after it |
| Text.WordsCons | agents/crewai_agent.py:89 | `split()` of a word, a space and a rest is that word followed by the words of the rest |
| Text.Take | agents/crewai_agent.py:121 | `s[:n]` keeps at most n characters and is a prefix of `s` |
| Text.Truncate | orchestration/a2a_orchestrator.py:311 | a text no longer than n is kept; a longer one is cut to its first n characters followed by "..." |

## Left out

- Langfuse tracing, Mem0 memory writes (`add_memory`), the `user_id` argument
  and the console warnings are side channels that do not change any result.
  They are not modelled.
- ExpertAgent.HttpExchange: the model covers the configuration without a Mem0
  client. With one, `search_memory` results are put into the system prompt as
  "Relevant memories: …" (agents/google_adk_agent.py:181-185 and 211), so the
  full payload would also depend on the memory store; that dependence is not
  modelled.
- ExpertAgent.FromCompletion: a body that is not JSON is reported as a network
  error. That relies on `requests` 2.27 or later, where the decoding error
  raised by `response.json()` is a `RequestException`; with older versions it
  would be an unexpected error.
- The external data services (`external_apis.py`), the language model
  clients, the HTTP endpoint and the ADK runner are deterministic oracle
  parameters. Timeouts, retries inside the libraries, and randomness in the
  services are not modelled. `agents/external_apis.py` is not part of this
  model beyond its role as a fetch oracle.
- The MCP client, the web frontend and the test script are not part of this
  model.
- Only the agent features each core function uses are modelled, through small
  interfaces for the CrewAI, LangGraph and ADK libraries. Class construction
  details such as API-key lookup and the import fallbacks become
  configuration flags (`setup`, `runner`).
- `uuid4()` and `time.strftime` become caller-supplied fresh ids and one
  timestamp per call. The source reads the clock at each step, so stages of
  one pipeline run may carry different times in the source.
- Case mapping, whitespace and `repr` are ASCII only. `repr` of strings does
  not escape quotes or control characters.
- `Orchestration.KindOf` classifies the `type` value of a request once. A
  non-string value is treated like an unknown type.
- The `isinstance(result, dict)` checks in the orchestrator always see a
  dictionary, because every agent reply is one. Their non-dictionary branches
  are not modelled.
- Aliasing is not modelled. The returned dictionaries are values, so the
  caller cannot see later changes to the dictionaries the orchestrator keeps.
  The caller's conversation list is a `TurnLog` object that the pipeline
  appends to.
- The three stage blocks of `collaborative_task_execution` are modelled as one
  recursive method over the stage number, with per-stage constants. The
  effects and their order are the same.
- `RouteTask` and the methods that call it take the router function as a ghost
  parameter. It only names what the agents compute.
- AnalysisAgent.AnalyzerReply: the "fallback also failed" reply of
  `process_input` is not modelled. The fallback path catches every error
  itself, so that branch cannot be reached.
- AnalysisAgent.AnalyzerReply: on the graph path the content is the report
  that the `generate_response` node returns under `content`
  (agents/langgraph_agent.py:180 and 241). The graph's state type declares no
  `content` key (agents/langgraph_agent.py:31-37); whether the graph library
  keeps, drops or rejects that key is library behaviour that is not modelled.
- Orchestration.CoordinateStep: a successful analysis is shared as the
  corrected `Summary`, at most 203 characters. The code as written shares the
  whole rendered report (see Findings; `SummaryAsWritten` models that).
- Orchestration.Orchestrator.RouteAndShare: shares the corrected summary of a
  successful analysis, as `CoordinateStep` does, not the whole report that the
  code as written shares.
- Orchestration.Orchestrator.CoordinateAgents: the expert's history receives
  the corrected summary of each successful analysis, as `Coordinate` does,
  not the whole report that the code as written shares.
- Orchestration.Orchestrator.CreateTask: the id is required to be unregistered,
  standing for a random `uuid4()`; a colliding id, which would replace a task,
  is not modelled.
- AnalysisAgent.AnalyzeNode: with a model, the contract states only the
  default patterns and insights. The analysis text is whatever the model
  oracle returns for the rendered prompt.

## Findings

| source | as written | input that shows it | evidently intended | confidence | as-written member | corrected member |
|---|---|---|---|---|---|---|
| orchestration/a2a_orchestrator.py:300-312 | `analysis_content` is the analyzer's content dictionary, so `len()` counts its four keys and the 200-character truncation never applies | an analysis reply whose analysis text is 200 or more characters long | share at most the first 200 characters of the analysis text, followed by "..." | not executed | Orchestration.SummaryAsWrittenUnbounded | Orchestration.Summary |
