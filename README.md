# No-Code-Low-Code backend core, modelled in Dafny

This project models the deterministic core of the Python backend of
No-Code-Low-Code, a tool in which a user wires a graph of nodes (user query,
knowledge base, web search, LLM engine, output) into a "stack" and then chats
with it. The model covers:

- the **execution order**: `EdgeNavigator`, which runs Kahn's algorithm over
  the node map and the edge map, and the orchestrator's `get_execution_flow`;
- the **orchestrator** (`WorkflowOrchestrator`): the dispatch loop over the
  sorted nodes with its shared context, and the knowledge-base, LLM and output
  handlers, including model and temperature normalisation and key precedence;
- **structural validation** in `WorkflowValidator`, with its depth-first path
  search;
- **LLM service** rules: key-type detection, Gemini message conversion, prompt
  assembly and backend choice;
- **web-search** result shaping for SerpAPI and Brave, the LLM text and the
  source list;
- the five **stand-alone node classes** under `services/nodes/`;
- **ingestion bookkeeping** in the embeddings service (collection cache, chunk
  preparation, batching, search filtering, deletion) and in the document
  processor (sections, technical terms, key information, chunk metadata);
- the **chat routes**: the readiness check and response normalisation;
- the **document routes**: upload validation and the compensation sequence.

Python dicts that come from JSON are values of `PyValues.Value`. An object is
a sequence of key/value pairs, so insertion order is kept: the node map and
several results depend on it. The edges of a workflow are a sequence of
`EdgeNavigator.Edge` source/target pairs, in the order the edge map lists
them. `d.get(k, default)` is
presence-based (`GetOr`), and `a or b` chains use Python truthiness
(`Truthy`). Floats carry their Python text, so `str()` is total. An
exception is a value of `PyValues.Exc`. Every call into the network, a
database or an SDK is a parameter: a function value returning a `Result`,
or a record of such outcomes. The inputs of `EdgeNavigator` are Dafny values,
so the source's promise that the node and edge maps are not modified holds
by construction. The output node is the one handler that changes its input:
`+=` on a list content extends, in place, the list stored in the context, and
`OutputNode.ContextAfter` gives the context as it reads afterwards.

The state that the source updates in place is modelled as state:

- the Kahn loop's in-degree table, queue and order are local variables of
  methods with loop invariants;
- the embeddings service's collection cache and store are fields of the class
  `Embeddings.EmbeddingsService`;
- the uploaded files, chunk sets and document rows touched by `upload_document`
  are fields of the class `DocumentRoutes.DocumentStores`.

Each loop is a method proved equal to a function of its inputs. The
properties are proved about those functions.

## Model

| member | source | states |
|---|---|---|
| Wrappers.QuoteFor | Backend/services/workflow_engine.py:55-60 | `str()` of a `KeyError` is the `repr` of its key, which is quoted with `"` exactly when the key holds a `'` and no `"`, and with `'` otherwise |
| Wrappers.StrRepr | Backend/services/workflow_engine.py:55-60 | the `repr` of a key opens and closes with its quote and is at least two characters longer than the key |
| Wrappers.PlainRepr | Backend/services/workflow_engine.py:55-60 | a key without backslashes, double quotes or control characters is printed between single quotes when it has no `'`, and between double quotes when it has one, with its text unchanged |
| EdgeNavigator.MissingSource | Backend/utils/helpers.py:13-14 | no missing source iff every edge's source is a node id; otherwise the first unknown source in edge order, which the adjacency build looks up and fails on |
| EdgeNavigator.MissingTarget | Backend/utils/helpers.py:26-27 | no missing target iff every edge's target is a node id; otherwise the first unknown target in edge order, which the in-degree count fails on |
| EdgeNavigator.MissingEndpoint | Backend/utils/helpers.py:13-27 | no missing endpoint iff every edge's source and target are node ids |
| EdgeNavigator.Targets | Backend/utils/helpers.py:13-14 | every listed neighbour of `u` is the target of an edge from `u` |
| EdgeNavigator.TargetsComplete | Backend/utils/helpers.py:13-14 | every edge from `u` puts its target in `u`'s adjacency list |
| EdgeNavigator.BuildAdjacencyList | Backend/utils/helpers.py:11-15 | raises `KeyError` exactly for an edge with an unknown source, naming the first one; otherwise has one entry per node id, listing each edge's target under its source once per edge, in edge order |
| EdgeNavigator.InDegreeTable | Backend/utils/helpers.py:25-27 | raises `KeyError` exactly for an edge with an unknown target, naming the first one; otherwise maps every node id to the number of edges into it |
| EdgeNavigator.Sources | Backend/utils/helpers.py:29 | the initial queue holds exactly the node ids with in-degree 0, in node-map order, each once |
| EdgeNavigator.InitialQueue | Backend/utils/helpers.py:29 | the comprehension over the in-degree table yields the zero-in-degree ids in node-map order |
| EdgeNavigator.ReleaseNeighbors | Backend/utils/helpers.py:35-38 | decrementing the in-degrees of a popped node's neighbours keeps the loop invariant (the table counts edges from unscheduled nodes; the queue holds exactly the unscheduled ids whose count reached 0) and only appends to the queue. The new table and queue are exactly `ReleaseAll` of the node's targets in edge order: each target's count drops by one and the target joins the back of the queue when it reaches 0 |
| EdgeNavigator.DrainQueue | Backend/utils/helpers.py:32-38 | the FIFO loop schedules distinct node ids, each only after all its predecessors, starting with the initial queue, and stops with the invariant intact. The order is exactly `KahnSchedule` of the initial table and queue, the first-in-first-out schedule as a function |
| EdgeNavigator.ScheduleNext | Backend/utils/helpers.py:33-38 | one round of the loop appends the front of the queue to the order, keeps the invariant and the predecessors-first rule, only appends to the queue, and leaves the rest of the schedule (`KahnSchedule` of the new state) equal to the rest of the old one |
| EdgeNavigator.CompleteSchedule | Backend/utils/helpers.py:32-40 | a schedule that reaches every node is a permutation of the node ids that respects every edge, and then the edges have no cycle |
| EdgeNavigator.StuckSchedule | Backend/utils/helpers.py:32-40 | when the queue runs dry before every node is scheduled, the edges contain a cycle |
| EdgeNavigator.StuckHasCycle | Backend/utils/helpers.py:32-40 | a non-empty set of nodes, each with a predecessor inside the set, contains a cycle |
| EdgeNavigator.CycleHasNoOrder | Backend/utils/helpers.py:32-40 | if some permutation of the node ids respects every edge, the edges have no cycle |
| EdgeNavigator.GetTopologicalOrder | Backend/utils/helpers.py:9-40 | `KeyError` iff an edge names an unknown node. Otherwise the result is exactly `KahnOrder`: Kahn's first-in-first-out schedule, whose queue starts with the zero-in-degree ids in node-map order and takes each popped node's targets, in edge order, at the back when their count reaches 0; `[]` when it stops short. It is empty or a permutation of the node ids in which every edge's source precedes its target, and non-empty iff there are nodes and no cycle, so a partial order is never returned. A non-empty result starts with the zero-in-degree ids in node-map order |
| EdgeNavigator.NoEdgesSources | Backend/utils/helpers.py:29 | with no edges every node id is in the initial queue, in node-map order |
| EdgeNavigator.NoEdgesKeepsNodeOrder | Backend/utils/helpers.py:29-34 | with no edges the order is exactly the node ids in insertion order |
| EdgeNavigator.NoEdgesNoCycle | Backend/utils/helpers.py:40 | an edge-free workflow has no cycle, so its order is never rejected |
| WorkflowEngine.WithId | Backend/services/workflow_engine.py:76 | `{"id": id, **node}` succeeds iff the node is a dict; unpacking anything else is a `TypeError` |
| WorkflowEngine.FlowEntryFields | Backend/services/workflow_engine.py:76-78 | a flow entry keeps a top-level `type`, copies `data.type` when the top level has none, and its `id` is the node's own `id` if present, else the node id |
| WorkflowEngine.FlowEntries | Backend/services/workflow_engine.py:74-81 | one flow entry per id of the order |
| WorkflowEngine.FlowEntriesFailFast | Backend/services/workflow_engine.py:74-81 | once building an entry has failed, later ids do not change the outcome |
| WorkflowEngine.CollectFlowEntries | Backend/services/workflow_engine.py:74-81 | the loop builds exactly the entries of `FlowEntries` |
| WorkflowEngine.GetExecutionFlow | Backend/services/workflow_engine.py:65-81 | an unknown edge endpoint is the navigator's `KeyError`. No nodes or a cycle is a `ValueError`, because the order is empty. Otherwise the result is the entries of the navigator's order `KahnOrder`, in that order, which is a permutation of the node ids that respects every edge. In every case it is `ExecutionFlowOf` |
| WorkflowEngine.ResolveKey | Backend/services/workflow_engine.py:159-247 | the key is a truthy `config.apiKey`, else a truthy `data.api_key`, else the stored key for the role, else `""` |
| WorkflowEngine.DictAt | Backend/services/workflow_engine.py:134-140 | a value that is not a dict is replaced by `{}` |
| WorkflowEngine.ContextBlock | Backend/services/workflow_engine.py:224-226 | block `i` is `"[i] Source: …"` and exists iff the chunk is a dict (`.get` on anything else raises) |
| WorkflowEngine.ContextBlocks | Backend/services/workflow_engine.py:222-226 | one block per chunk |
| WorkflowEngine.ContextBlocksOkIff | Backend/services/workflow_engine.py:222-226 | formatting succeeds iff every chunk is a dict |
| WorkflowEngine.ContextBlocksAt | Backend/services/workflow_engine.py:223-226 | block `k` is chunk `k` numbered `k + 1` |
| WorkflowEngine.ContextBlocksFailFast | Backend/services/workflow_engine.py:223-226 | the first failing chunk decides the error |
| WorkflowEngine.ContextTextOpens | Backend/services/workflow_engine.py:219-228 | non-empty context text starts with `"[1] Source: "` |
| WorkflowEngine.ContextTextEmptyIff | Backend/services/workflow_engine.py:219-228 | the context text is `""` iff there are no chunks |
| WorkflowEngine.FormatChunksForContext | Backend/services/workflow_engine.py:217-228 | the loop and the join produce exactly the blocks joined by `"\n\n"` |
| WorkflowEngine.FormatChunkForResponse | Backend/services/workflow_engine.py:204-215 | a dict chunk with text content and a formattable score gives `"[Score: …"` ending in the content, cut to 200 characters plus `"..."` when longer; a chunk that is not a dict falls back to `str(chunk)` |
| WorkflowEngine.KbQuery | Backend/services/workflow_engine.py:142-185 | the search gets the context's query and stack id and the resolved key. Missing settings default to `"text-embedding-3-large"`, `top_k` 5 and threshold 0.7 |
| WorkflowEngine.ProcessKnowledgeBaseNode | Backend/services/workflow_engine.py:129-202 | no key gives the fixed placeholder text and no chunks. A truthy key that is not a string fails on `startswith` and gives `"Error retrieving knowledge: "` with that error and no chunks. With a string key: a search error gives that prefix and the error, with no chunks; a search answer whose chunks all format gives their formatted text and exactly those chunks; a chunk that does not format gives the prefix and its error, with no chunks. Returned chunks are always the search's answer for the node's query |
| WorkflowEngine.ErrorRetrieving | Backend/services/workflow_engine.py:197-202 | a search failure's text starts with `"Error retrieving knowledge: "` |
| WorkflowEngine.KbWithoutKeySearchesNothing | Backend/services/workflow_engine.py:165-167 | without a key the outcome does not depend on the search collaborator at all |
| WorkflowEngine.OpenAiModelFix | Backend/services/workflow_engine.py:277-286 | every alias maps into the OpenAI model list |
| WorkflowEngine.NormalizeModel | Backend/services/workflow_engine.py:261-290 | the model is always in the detected provider's list. A valid model is kept. Anything unknown becomes `"gemini-1.5-flash"` or `"gpt-4o-mini"`. An unhashable model raises on the OpenAI alias lookup |
| WorkflowEngine.ClampTemperature | Backend/services/workflow_engine.py:292-299 | the temperature is in [0.0, 2.0]. A missing or unconvertible value gives 0.7, and an in-range value is kept |
| WorkflowEngine.LlmContext | Backend/services/workflow_engine.py:303-308 | the LLM context is empty iff both contexts are empty; the knowledge section comes first and the web section last, each present iff its context is non-empty |
| WorkflowEngine.LlmRequest | Backend/services/workflow_engine.py:252-319 | the request carries the query, the key and the fixed system prompt. The model is valid for the key type, and the temperature is clamped. The context is `None` iff both contexts are empty, and the web results are `None` iff the web context is empty |
| WorkflowEngine.ProcessLlmNode | Backend/services/workflow_engine.py:235-327 | the handler's text is `LlmAttempt`'s response, or `"Error processing LLM request: "` followed by the exception that the `except` catches |
| WorkflowEngine.LlmAttempt | Backend/services/workflow_engine.py:237-320 | a failing `config` lookup, or a config that is not a dict, raises. Otherwise the key is the config's `apiKey`, else the node's `api_key`, else the stored `llm` key, by truthiness. No key gives the notice `"No API key found for LLM"` without any call. A non-string key fails on `startswith`. Otherwise the request `LlmRequest` builds (normalised model, clamped temperature, assembled context) is answered by `GenerateResponse`, and a failure building it raises |
| WorkflowEngine.LlmWithoutKeyCallsNothing | Backend/services/workflow_engine.py:249-250 | without a key the node answers `"No API key found for LLM"` whatever the providers would do |
| WorkflowEngine.ProcessOutputNode | Backend/services/workflow_engine.py:329-347 | a non-empty LLM response wins, else a non-empty knowledge context behind `"Based on the available information:\n\n"`, else the fixed "No relevant information found" text |
| WorkflowEngine.NodeTypeOf | Backend/services/workflow_engine.py:93 | a truthy top-level `type` is the node's type; a node that is not a dict raises |
| WorkflowEngine.Step | Backend/services/workflow_engine.py:92-116 | one dispatch keeps the query, stack id and sources. An unknown type changes nothing. Chunks are appended, and the knowledge context is overwritten only by a knowledge-base node |
| WorkflowEngine.RunKeepsQuery | Backend/services/workflow_engine.py:86-116 | the whole loop keeps the query, the stack id and the (stub-only) sources |
| WorkflowEngine.RunCollectsChunks | Backend/services/workflow_engine.py:100-103 | chunks accumulate over the knowledge-base nodes in execution order |
| WorkflowEngine.StepAddsChunks | Backend/services/workflow_engine.py:100-103 | the last node adds its own chunks behind those collected before |
| WorkflowEngine.RunKeepsLastKnowledge | Backend/services/workflow_engine.py:100-102 | the knowledge context is the last knowledge-base node's (last write wins) |
| WorkflowEngine.RunFailFast | Backend/services/workflow_engine.py:92-116 | an exception in one node ends the loop; later nodes do not matter |
| WorkflowEngine.FinalOutput | Backend/services/workflow_engine.py:119 | the output is `final_output`, else `llm_response`, else the query |
| WorkflowEngine.FormatChunks | Backend/services/workflow_engine.py:121 | one formatted string per collected chunk, in order |
| WorkflowEngine.ExecuteFlow | Backend/services/workflow_engine.py:83-122 | the loop computes exactly the fold of `Step` over the flow, and its result is the final output, the sources and the formatted chunks |
| WorkflowEngine.FlowTypes | Backend/services/workflow_engine.py:39-53 | one `node["type"]` per flow entry, in order; a missing key raises |
| WorkflowEngine.Failure | Backend/services/workflow_engine.py:56-63 | every failure reports `"Error executing workflow: …"` with the error flag |
| WorkflowEngine.ExecuteWorkflow | Backend/services/workflow_engine.py:17-63 | a missing workflow gives `"Error executing workflow: No workflow found for stack …"`. Otherwise the result is exactly `WorkflowOutcome`: the flow `ExecutionFlowOf` builds, the list of its node types (`FlowTypes`) and the run of the flow from the initial context (`Run`, which `ExecuteFlow` computes). The first exception becomes `"Error executing workflow: …"` with empty fields; a completed run reports `FinalOutput`, the sources and the formatted chunks, and the node types. A completed run had a workflow with known endpoints, at least one node and no cycle, and has one flow entry per node |
| WorkflowValidator.DefaultConfig | Backend/api/models/workflow.py:105-111 | the config mapping covers exactly the five node-type strings, and each default config belongs to the type it is listed under |
| WorkflowValidator.LlmDefaults | Backend/api/models/workflow.py:85-95 | the LLM defaults are model `"gpt-4o-mini"`, temperature 0.75, the helpful-assistant prompt and web search off; the knowledge base defaults to `"text-embedding-3-large"` |
| WorkflowValidator.NodeTypeList | Backend/api/models/workflow.py:126 | one `node["type"]` per node in map order; it raises iff some node lacks the key (or is not a dict), with that node's error |
| WorkflowValidator.ValidateWorkflow | Backend/api/models/workflow.py:116-136 | an edge with an unknown endpoint gives False before any type is read. Otherwise the result is True iff every node has a type and some node is a `userQuery` and some an `output`. It raises only for a node without a type |
| WorkflowValidator.UserQueryNodes | Backend/api/models/workflow.py:142-143 | the list holds exactly the `userQuery` node ids, its head is the first one in map order, and it raises iff some node has no type |
| WorkflowValidator.ShiftUserQuery | Backend/api/models/workflow.py:142-143 | dropping the first node shifts every later `userQuery` position by one |
| WorkflowValidator.BuildGraph | Backend/api/models/workflow.py:149-155 | the graph has an entry exactly for each edge source, listing its targets once per edge, in edge order |
| WorkflowValidator.GraphStep | Backend/api/models/workflow.py:150-155 | one loop step appends the edge's target under its source |
| WorkflowValidator.TargetsStep | Backend/api/models/workflow.py:150-155 | the targets after one more edge are the earlier targets plus that edge's |
| WorkflowValidator.IsOutput | Backend/api/models/workflow.py:165 | the output test raises only `AttributeError`, and never when every node is a dict |
| WorkflowValidator.ExtendsStep | Backend/api/models/workflow.py:163-171 | a path found from a neighbour extends the current path by that node |
| WorkflowValidator.Dfs | Backend/api/models/workflow.py:158-173 | a non-empty result extends the path with `node_id`, follows graph edges, ends at an `output` node and repeats no id. Only a node without a dict body raises. The path found is the first in neighbour order (`TryNeighborsFirst`) |
| WorkflowValidator.TryNeighbors | Backend/api/models/workflow.py:168-173 | a non-empty result extends the path through one of the neighbours, follows graph edges, ends at an `output` node and repeats no id. Only a node without a dict body raises |
| WorkflowValidator.TryNeighborsFirst | Backend/api/models/workflow.py:169-172 | when the searches from the first `k` neighbours find nothing and the search from neighbour `k` returns anything else, trying the neighbours returns exactly that search's result, so the first neighbour in edge order that completes a path decides it |
| WorkflowValidator.TryNeighborsNone | Backend/api/models/workflow.py:169-173 | when the search from every neighbour finds nothing, trying the neighbours finds nothing |
| WorkflowValidator.TryNeighborsEmpty | Backend/api/models/workflow.py:168-173 | when trying the neighbours finds nothing, the search from each neighbour found nothing |
| WorkflowValidator.DfsComplete | Backend/api/models/workflow.py:158-173 | when the search finds nothing, no repetition-free walk from the node reaches an `output` node |
| WorkflowValidator.Reachable | Backend/api/models/workflow.py:158-173 | the termination measure's universe holds the start node and every edge target |
| WorkflowValidator.GetExecutionFlow | Backend/api/models/workflow.py:139-175 | a node without a type raises. No `userQuery` node gives `[]`. Otherwise the result is exactly `ExecutionFlow`: the depth-first search from the first `userQuery` in map order over the graph the edges build, in edge order. A non-empty result starts there, ends at an `output` node, follows edges and repeats no id. `[]` with a `userQuery` present means no repetition-free walk from it reaches an `output` node |
| WorkflowValidator.GraphWalkIsEdgeWalk | Backend/api/models/workflow.py:149-155 | a walk in the built graph is a walk along the edges |
| WorkflowValidator.EdgeWalkIsGraphWalk | Backend/api/models/workflow.py:149-155 | a walk along the edges is a walk in the built graph |
| LlmService.DetectApiKeyType | Backend/services/llm_service.py:17-31 | `"unknown"` iff the key is empty; `"gemini"` iff it starts with `"AIzaSy"`; every other non-empty key, with or without `"sk-"`, is `"openai"` |
| LlmService.Conversation | Backend/services/llm_service.py:97-113 | only user and assistant messages are kept, as many as there are of them in the input |
| LlmService.ConversationInOrder | Backend/services/llm_service.py:97-113 | the kept messages are input messages at strictly increasing input positions, and every user or assistant message of the input is kept |
| LlmService.SystemTexts | Backend/services/llm_service.py:116 | one text per system message |
| LlmService.SystemTextsMember | Backend/services/llm_service.py:116 | a text is among the system texts exactly when some system message carries it |
| LlmService.GeminiFormat | Backend/services/llm_service.py:93-122 | one Gemini message per user or assistant message |
| LlmService.ConvertToGeminiFormat | Backend/services/llm_service.py:93-122 | the append loop followed by the in-place overwrite of the first part computes exactly `GeminiFormat` |
| LlmService.GeminiFormatKeepsConversation | Backend/services/llm_service.py:101-120 | message `i` has role `"user"` for a user message and `"model"` otherwise, and a single part. That part is the original text, except that the first message, whatever its role, gets the system texts joined by `"\n"` and then `"\n\n"` in front when there are system messages |
| LlmService.SystemMessage | Backend/services/llm_service.py:131-135 | an empty prompt becomes the default helpful-assistant prompt. Web results, when present and non-empty, end the message; otherwise the message is just the prompt |
| LlmService.UserMessage | Backend/services/llm_service.py:138-140 | the bare query when the context is missing or empty, else `"Context from documents:\n…"` ending in `"\n\nQuery: " + query` |
| LlmService.ChooseModel | Backend/services/llm_service.py:150-158 | a Gemini key never keeps an OpenAI model and an OpenAI key never keeps a Gemini model; any other model is left unchanged |
| LlmService.PlanResponse | Backend/services/llm_service.py:142-168 | the messages are exactly `[system, user]`. The model is the key-type override. The Gemini backend is chosen iff the key is a Gemini key or the overridden model is a Gemini model |
| LlmService.BackendFollowsKey | Backend/services/llm_service.py:150-168 | a Gemini key always uses the Gemini backend and an OpenAI key always the OpenAI backend; only an empty key lets the model decide |
| LlmService.GenerateResponse | Backend/services/llm_service.py:124-168 | the response succeeds iff the chosen backend's call does. A success is that backend's text unchanged. A Gemini failure is `"Gemini API error: "` followed by the Gemini error, and an OpenAI failure is `"OpenAI API error: "` followed by the OpenAI error; each call gets the planned messages (Gemini's reformatted), model and temperature |
| WebSearch.ResultHit | Backend/services/web_search.py:74-79 | a result maps iff it is a dict, onto the given URL and snippet keys with `""` defaults and the fixed source label; anything else raises `AttributeError` on `.get` |
| WebSearch.Hits | Backend/services/web_search.py:73-80 | one hit per provider result |
| WebSearch.HitsOkIff | Backend/services/web_search.py:73-80 | the mapping succeeds iff every result is a dict |
| WebSearch.HitsOkLast | Backend/services/web_search.py:73-80 | the mapping of one more result succeeds iff the earlier ones did and the new one is a dict |
| WebSearch.HitsAt | Backend/services/web_search.py:73-80 | hit `k` is result `k` mapped, in order |
| WebSearch.HitsSnoc | Backend/services/web_search.py:73-80 | one loop step appends the next mapped result or stops with its error |
| WebSearch.HitsFailFast | Backend/services/web_search.py:73-80 | the first result that is not a dict decides the error |
| WebSearch.MapResults | Backend/services/web_search.py:73-80 | the append loop builds exactly `Hits` |
| WebSearch.AnswerHit | Backend/services/web_search.py:83-91 | a falsy answer box adds nothing. A truthy dict gives an `"Answer Box"` entry from `serpapi_answer_box`, whose snippet is `answer` if present, else `snippet`, else `""`. A truthy non-dict raises |
| WebSearch.SerpApiResults | Backend/services/web_search.py:67-98 | `total_results` equals the number of results, and the engine is `"google_via_serpapi"` |
| WebSearch.SerpApiParts | Backend/services/web_search.py:72-91 | the results are the answer-box entry, when the box is truthy, at index 0, followed by the organic results mapped in order with `url` from `link` |
| WebSearch.ShiftedHits | Backend/services/web_search.py:73-91 | behind a front of length `shift`, result `k + shift` is item `k` mapped |
| WebSearch.FormatSerpApiResults | Backend/services/web_search.py:67-98 | the loop with the final `insert(0, …)` computes exactly `SerpApiResults` |
| WebSearch.BraveResults | Backend/services/web_search.py:100-120 | `total_results` equals the number of results, every result is labelled `"brave"`, and the engine is `"brave"` |
| WebSearch.BraveParts | Backend/services/web_search.py:105-113 | the results are exactly `web.results` mapped in order, `url` from `url` and `snippet` from `description` |
| WebSearch.FormatBraveResults | Backend/services/web_search.py:100-120 | the append loop computes exactly `BraveResults` |
| WebSearch.EffectiveKey | Backend/services/web_search.py:125-130 | a given key is used as is; without one, only `serpapi` and `brave` have a configured default |
| WebSearch.Provider | Backend/services/web_search.py:35-65 | a failed request is a `ValueError` holding the provider's prefix (`"SerpAPI search failed: "` or `"Brave search failed: "`) followed by the request's message. After a successful request the call succeeds iff that provider's formatter does, and returns the formatter's text unchanged. Every failure is a `ValueError` that starts with the provider's prefix |
| WebSearch.Search | Backend/services/web_search.py:122-140 | no key after the default lookup raises `"API key required for … search"` before the provider is checked; an unknown provider with a key raises `"Unsupported search provider: …"`; a success is the chosen provider's response formatted by its formatter |
| WebSearch.SearchWithoutKeySendsNothing | Backend/services/web_search.py:132-133 | without a key the outcome does not depend on either provider |
| WebSearch.LlmText | Backend/services/web_search.py:142-155 | `"No search results found."` iff there are no results; otherwise the text opens with the query header |
| WebSearch.LlmTextHasResult | Backend/services/web_search.py:150-153 | every result appears as its numbered title line, `URL:` line and `Summary:` lines, numbered from 1 |
| WebSearch.BlocksPrefix | Backend/services/web_search.py:150-153 | the text of the first `n` results is a prefix of the text of all of them, so blocks appear in result order |
| WebSearch.FormatSearchResultsForLlm | Backend/services/web_search.py:142-155 | the accumulating loop computes exactly `LlmText` |
| WebSearch.Sources | Backend/services/web_search.py:162 | at most one URL per result, all truthy |
| WebSearch.SourcesAreUrls | Backend/services/web_search.py:162 | every truthy result URL is a source, and every source is some result's URL |
| WebSearch.ExtractSearchSources | Backend/services/web_search.py:157-162 | no results give no sources |
| UserQueryNode.StripValue | Backend/services/nodes/user_query.py:17 | `.strip()` succeeds iff the query is a string and then removes exactly the leading and trailing whitespace |
| UserQueryNode.Process | Backend/services/nodes/user_query.py:8-27 | a blank query, including a missing one, is rejected with `"Empty query provided"` and `processed_query` `""`. Otherwise the stripped query, its length and the placeholder (default `""`) are returned. A non-dict `data` or a non-string query raises |
| UserQueryNode.ProcessIdempotent | Backend/services/nodes/user_query.py:17-27 | the processed query has no surrounding whitespace, and processing it again gives the same result |
| KnowledgeBaseNode.FileName | Backend/services/nodes/knowledge_base.py:45 | the file-name lookup succeeds iff the metadata (default `{}`) is a dict, and a truthy name really is the chunk's `metadata.file_name` |
| KnowledgeBaseNode.ChunkBlock | Backend/services/nodes/knowledge_base.py:44-47 | a chunk formats iff it is a dict with `text` and dict metadata |
| KnowledgeBaseNode.ChunkBlockText | Backend/services/nodes/knowledge_base.py:44-47 | block `i` is `"[i] text\n"`, then `"Source: f\n"` only when the file name is truthy, then `"\n"` |
| KnowledgeBaseNode.ContextText | Backend/services/nodes/knowledge_base.py:41-49 | the text is exactly `"No relevant document context found."` iff there are no chunks, and otherwise opens with `"Relevant document context:\n\n"` |
| KnowledgeBaseNode.BlocksOkIff | Backend/services/nodes/knowledge_base.py:43-47 | formatting succeeds iff every chunk is formattable |
| KnowledgeBaseNode.BlocksOkLast | Backend/services/nodes/knowledge_base.py:43-47 | one more chunk formats iff the earlier ones did and it is formattable |
| KnowledgeBaseNode.BlocksSnoc | Backend/services/nodes/knowledge_base.py:43-47 | one loop step appends the next chunk's block, numbered from 1 |
| KnowledgeBaseNode.BlocksPrefix | Backend/services/nodes/knowledge_base.py:43-47 | the blocks of the first `n` chunks are a prefix of the text, so blocks appear in chunk order |
| KnowledgeBaseNode.ContextTextHasChunk | Backend/services/nodes/knowledge_base.py:41-47 | chunk `k`'s block, numbered `k + 1`, appears in the context text |
| KnowledgeBaseNode.BlocksFailFast | Backend/services/nodes/knowledge_base.py:43-47 | the first chunk that cannot be formatted decides the error |
| KnowledgeBaseNode.FormatContext | Backend/services/nodes/knowledge_base.py:41-49 | the `+=` loop computes exactly `ContextText` |
| KnowledgeBaseNode.SearchArgsOf | Backend/services/nodes/knowledge_base.py:22-38 | the search gets the query, the stack id and the key, with model `"text-embedding-3-large"`, threshold 0.7 and `max_chunks` 5 (as `top_k`) by default |
| KnowledgeBaseNode.Process | Backend/services/nodes/knowledge_base.py:9-63 | a missing query or stack id gives the error with `""` context and no chunks. A search or formatting failure gives `"Knowledge retrieval failed: …"`, `""` and no chunks. Otherwise the result has the formatted text, the chunks, their count and the model used |
| KnowledgeBaseNode.GuardSearchesNothing | Backend/services/nodes/knowledge_base.py:14-19 | a missing query or stack id gives the same answer whatever the search would do, so no search is made |
| KnowledgeBaseNode.RetrievedText | Backend/services/nodes/knowledge_base.py:41-54 | on success the text is the sentinel iff there are no chunks, `chunks_found` is their number, and every chunk's block appears in the text |
| LlmEngineNode.DocumentContext | Backend/services/nodes/llm.engine.py:32-34 | document context is included iff the knowledge context is truthy and is not the no-context sentinel |
| LlmEngineNode.WebResults | Backend/services/nodes/llm.engine.py:36-38 | web results are passed iff web search is enabled and the web context is truthy, and then they are that context |
| LlmEngineNode.ArgsOf | Backend/services/nodes/llm.engine.py:20-51 | the generator gets the query and the key, with model `"gpt-4o-mini"`, temperature 0.75 and the default prompt when not configured. The context is given iff the document context is included, and the web results iff they are enabled and present |
| LlmEngineNode.Process | Backend/services/nodes/llm.engine.py:9-65 | a falsy query gives `"No query provided to LLM"` and `""`. Success echoes the model, the temperature and both decisions as flags. A failure gives `"LLM generation failed: …"` and `"Sorry, I encountered an error: …"` |
| LlmEngineNode.NoQueryCallsNothing | Backend/services/nodes/llm.engine.py:13-17 | without a query the answer does not depend on the generator |
| LlmEngineNode.SentinelAndDisabledSearchExcluded | Backend/services/nodes/llm.engine.py:33-38 | the sentinel text is never passed as context. No web results are passed when `web_search_enabled` is absent, explicitly `False`, or any other falsy value |
| WebSearchNode.Process | Backend/services/nodes/web_search.py:9-54 | a falsy query gives the error with `""` and no sources. The defaults are `"serpapi"` and 5. A search failure gives `"Web search failed: …"`, `""` and no sources. Success gives exactly the service's LLM text and sources, the provider and the result count |
| WebSearchNode.FoundMatchesResults | Backend/services/nodes/web_search.py:36-47 | the context is the no-results text iff the count is 0, and then there are no sources; there are never more sources than results |
| WebSearchNode.MissingKeyReported | Backend/services/nodes/web_search.py:29-54 | with no key given or configured, the node reports `"Web search failed: API key required for … search"` |
| OutputNode.SourceOf | Backend/services/nodes/output_component.py:21-35 | the branch is `llm` iff the LLM response is truthy, else `knowledge_base` iff the knowledge context is, else `web_search` iff the web context is, else `raw_query` |
| OutputNode.ContentOf | Backend/services/nodes/output_component.py:21-35 | the content is the value of the branch taken (truthy for the first three), or the query with default `"No output generated"` |
| OutputNode.BranchMetadata | Backend/services/nodes/output_component.py:24-35 | the metadata opens with `source` naming the branch taken |
| OutputNode.Len | Backend/services/nodes/output_component.py:40-41 | `len` succeeds exactly on values that have a length |
| OutputNode.ExecutionMetadata | Backend/services/nodes/output_component.py:38-44 | the execution metadata always has the flow, the chunk and source counts and the two truthiness flags, and exists iff both lists have a length |
| OutputNode.AppendText | Backend/services/nodes/output_component.py:58-59 | `+=` works iff the content is a string or a list. A string gets the suffix appended. A list is extended by the suffix's characters, one one-character string each, after its own items. Any other content raises a `TypeError` |
| OutputNode.Render | Backend/services/nodes/output_component.py:46-59 | `"json"` gives the content with metadata or `None`. `"markdown"` gives `"# Response\n\n"` plus the content, longer iff metadata is included. Any other format is the content, with `"\n\n---\nGenerated using: <source>"` appended by `+=` when metadata is included |
| OutputNode.Process | Backend/services/nodes/output_component.py:9-66 | the metadata is the branch part followed by the execution part. The format (default `"text"`) is echoed. The output is the rendered content, and it fails iff text-with-metadata meets a content that is neither a string nor a list. `content_length` is the length of `str(content)`, taken after the in-place extension when `+=` extended a list |
| OutputNode.MetadataRecords | Backend/services/nodes/output_component.py:38-44 | the returned metadata names the branch and holds both truthiness flags |
| OutputNode.MetadataLookups | Backend/services/nodes/output_component.py:38-44 | the `update` leaves `source` and both flags readable in the merged metadata |
| OutputNode.TextFormat | Backend/services/nodes/output_component.py:56-59 | in text format the output is the content, with `"\n\n---\nGenerated using: <source>"` appended exactly when metadata is included: to a string as text, to a list as its characters, and then `content_length` is the length of the extended list's `str` |
| OutputNode.ContextAfter | Backend/services/nodes/output_component.py:21-59 | when `+=` extended a list content, the context entry it came from reads the extended list afterwards and every other entry is unchanged; otherwise the context is unchanged |
| Embeddings.CollectionName | Backend/services/embeddings_service.py:49 | the name is `"stack_"` followed by the stack id with every `'-'` replaced, so it is 6 characters longer and has no `'-'` |
| Embeddings.CollectionNameInjective | Backend/services/embeddings_service.py:49 | two stack ids without `'_'` that share a collection name are equal |
| Embeddings.CollectionNameCollides | Backend/services/embeddings_service.py:49 | ids that differ only by `'-'` versus `'_'` share one collection (`"a-b"` and `"a_b"`) |
| Embeddings.EmbeddingsService.GetCollection | Backend/services/embeddings_service.py:47-70 | afterwards the name is cached and the handle is returned. A cached name changes nothing. Otherwise the cache gains the handle, and a collection missing from the store is created with the stack metadata |
| Embeddings.BatchesCover | Backend/services/embeddings_service.py:82-86 | the batches are consecutive slices of 1 to 100 texts that concatenate back to the texts |
| Embeddings.OpenAiFromBatches | Backend/services/embeddings_service.py:85-95 | the batch loop embeds the batches in order and concatenates the answers; one failing batch fails the whole call |
| Embeddings.OpenAiEmbeddings | Backend/services/embeddings_service.py:72-106 | no texts give `[]` without a request; every failure is a `ValueError` |
| Embeddings.GenerateOpenAiEmbeddings | Backend/services/embeddings_service.py:72-106 | the batch loop computes exactly `OpenAiEmbeddings` |
| Embeddings.ZeroVector | Backend/services/embeddings_service.py:139 | the fallback is 768 zeros |
| Embeddings.GeminiEmbeddings | Backend/services/embeddings_service.py:108-143 | one vector per text, in order: the service's vector, or the zero vector when that text failed |
| Embeddings.GenerateGeminiEmbeddings | Backend/services/embeddings_service.py:108-143 | the per-text loop computes exactly `GeminiEmbeddings` |
| Embeddings.GenerateEmbeddings | Backend/services/embeddings_service.py:191-197 | a `"text-embedding"` model uses OpenAI, else a `"models/embedding"` model uses Gemini, else `ValueError("Unsupported embedding model: …")` |
| Embeddings.EmbedTexts | Backend/services/embeddings_service.py:191-197 | the dispatch computes exactly `GenerateEmbeddings` |
| Embeddings.CopyMetadata | Backend/services/embeddings_service.py:175-176 | copying the metadata and then setting its `embedding_id` succeeds iff the metadata is a dict, and then the copy holds the metadata unchanged. A list copies, but the item assignment with a string key raises the `TypeError`. Any other value has no `copy` |
| Embeddings.StampMetadata | Backend/services/embeddings_service.py:175-178 | the stored metadata holds the batch's `embedding_id`, the text length and its word count, and every other key as in the chunk |
| Embeddings.PrepareChunk | Backend/services/embeddings_service.py:166-181 | a chunk whose text (falling back to content) is falsy or blank is skipped. A kept chunk keeps its text, its own id or a fresh one, and the stamped copy of its metadata. A chunk that is not a dict raises |
| Embeddings.PrepareAll | Backend/services/embeddings_service.py:166-181 | at most one prepared entry per chunk |
| Embeddings.PrepareChunkStamped | Backend/services/embeddings_service.py:169-178 | every kept chunk has a non-blank text and carries the batch's embedding id and its own text length |
| Embeddings.PreparedStamped | Backend/services/embeddings_service.py:166-181 | every prepared entry is stamped with the batch's embedding id |
| Embeddings.PrepareAllLast | Backend/services/embeddings_service.py:166-181 | the last chunk adds its entry, if kept, behind the others |
| Embeddings.PrepareAllSnoc | Backend/services/embeddings_service.py:166-181 | one loop step skips, appends or raises, as the chunk dictates |
| Embeddings.PrepareAllFailFast | Backend/services/embeddings_service.py:166-181 | the first chunk that raises decides the error |
| Embeddings.Texts | Backend/services/embeddings_service.py:172 | the texts column lines up with the prepared entries |
| Embeddings.Metadatas | Backend/services/embeddings_service.py:179 | the metadatas column lines up with the prepared entries |
| Embeddings.Ids | Backend/services/embeddings_service.py:181 | the ids column lines up with the prepared entries |
| Embeddings.ColumnsSnoc | Backend/services/embeddings_service.py:172-181 | appending an entry appends to all three columns at once, so they stay index-aligned |
| Embeddings.PrepareChunks | Backend/services/embeddings_service.py:162-181 | the loop fills the three columns exactly from `PrepareAll`, or raises its error |
| Embeddings.Records | Backend/services/embeddings_service.py:204-209 | record `k` stores id `k`, text `k`, metadata `k` and vector `k` |
| Embeddings.EmbeddingsService.EmbedDocuments | Backend/services/embeddings_service.py:149-221 | no chunks, or no usable text, return `""` with no embedding. A preparation error propagates as it is. After preparation: success, returning the batch id, happens iff the embeddings come back with one vector per chunk, and it appends one record per prepared chunk to the collection. An embedding error (an unsupported model among them) is `"Failed to embed documents: "` with its text, and a count mismatch is that prefix with the mismatch message; then the store is left as `get_collection` made it, as it is on a preparation error and when no text is usable. With chunks, the store's names gain exactly the stack's collection, that collection keeps its metadata (or has the creation metadata when it was created), and every other collection is unchanged. The collection cache gains exactly the stack's handle |
| Embeddings.EmbeddingsService.StoreEmbeddings | Backend/services/embeddings_service.py:161-221 | on an existing collection: preparation, embedding and the single `add`. The collection names, the cache, every other collection and the target's metadata are unchanged. The records grow by one per prepared chunk exactly on success with a batch id; on every other outcome the store is unchanged. Once preparation succeeds, every failure is a `ValueError` starting with `"Failed to embed documents: "` |
| Embeddings.ChunkOf | Backend/services/embeddings_service.py:278-289 | a result chunk carries the hit's id, document, metadata and score |
| Embeddings.Qualifying | Backend/services/embeddings_service.py:261-290 | at most one chunk per hit, every one scoring at least the threshold |
| Embeddings.QualifyingKeeps | Backend/services/embeddings_service.py:277-290 | every hit scoring at least the threshold is kept |
| Embeddings.FilterHits | Backend/services/embeddings_service.py:261-290 | the loop computes exactly `Qualifying` |
| Embeddings.InsertByScore | Backend/services/embeddings_service.py:293 | insertion adds exactly the one chunk |
| Embeddings.InsertKeepsSorted | Backend/services/embeddings_service.py:293 | inserting into a score-descending list keeps it descending |
| Embeddings.InsertBounded | Backend/services/embeddings_service.py:293 | insertion adds no score above a bound that holds for all inputs |
| Embeddings.SortByScore | Backend/services/embeddings_service.py:293 | the sort is a permutation of its input |
| Embeddings.SortByScoreSorted | Backend/services/embeddings_service.py:293 | the sort is descending by score |
| Embeddings.SearchResultProperties | Backend/services/embeddings_service.py:277-293 | every returned chunk scores at least the threshold; the list is descending, holds at most `top_k` chunks and is drawn from the qualifying ones |
| Embeddings.EmbeddingsService.SearchSimilarChunks | Backend/services/embeddings_service.py:223-311 | an empty collection gives `[]`. Otherwise a failed query embedding is `"Failed to search chunks: "` with its text, an empty one is that prefix with `"Failed to generate query embedding"`, and a query vector gives exactly the filtered, sorted and truncated chunks of the `min(top_k*2, count)` nearest records. Stored records are unchanged and the collection cache gains exactly the stack's handle |
| Embeddings.MatchingIds | Backend/services/embeddings_service.py:324-328 | at most one id per record |
| Embeddings.MatchingIdsIff | Backend/services/embeddings_service.py:324-328 | an id is selected iff some record with that id has the given `embedding_id` in its metadata |
| Embeddings.CollectMatchingIds | Backend/services/embeddings_service.py:324-328 | the scan computes exactly `MatchingIds` |
| Embeddings.Without | Backend/services/embeddings_service.py:331 | a record survives iff its id is not selected |
| Embeddings.WithoutNothing | Backend/services/embeddings_service.py:330-336 | deleting no ids keeps every record |
| Embeddings.DeleteSelectsByEmbeddingId | Backend/services/embeddings_service.py:321-331 | a record with a unique id survives deletion iff it does not carry the embedding id |
| Embeddings.EmbeddingsService.DeleteDocumentChunks | Backend/services/embeddings_service.py:313-340 | returns True iff some record carries the embedding id. It removes exactly the records with selected ids from that stack's collection and leaves every other collection unchanged. The collection cache gains exactly the stack's handle |
| DocumentProcessor.SectionForChunk | Backend/services/document_processor.py:167-181 | the chunk is `general` exactly when it mentions no term of any section. Otherwise the section is the first one in priority order (skills, education, experience, projects) whose terms occur in the lower-cased chunk |
| DocumentProcessor.SectionIgnoresCase | Backend/services/document_processor.py:169 | lower-casing the chunk first does not change its section |
| DocumentProcessor.ContainsTechnicalTerms | Backend/services/document_processor.py:183-194 | true exactly when some technical term occurs at some position of the lower-cased text |
| DocumentProcessor.ContainsAnyIffOccurs | Backend/services/document_processor.py:192-194 | the `any(term in text ...)` test holds exactly when some term occurs at some index |
| DocumentProcessor.TechnicalInContext | Backend/services/document_processor.py:183-194 | a piece with a technical term keeps that property inside any surrounding text |
| DocumentProcessor.HeaderOfMeaning | Backend/services/document_processor.py:150-163 | a line is no header exactly when it has more than 5 words or announces no pattern. A header is the first pattern the lower-cased line announces |
| DocumentProcessor.FirstHeaderNone | Backend/services/document_processor.py:152-157 | the pattern scan finds nothing exactly when the line is too long or no pattern's keyword occurs in it |
| DocumentProcessor.FirstHeaderIndex | Backend/services/document_processor.py:152-157 | a found header is the section of the first announcing pattern, and the line has at most 5 words |
| DocumentProcessor.Announcements | Backend/services/document_processor.py:150-163 | one entry per line, each the header (start line and stripped text) that the line announces, if any |
| DocumentProcessor.IdentifyResumeSections | Backend/services/document_processor.py:131-165 | the section dictionary is what the announcements of the newline-split lines write, in line order |
| DocumentProcessor.ScanSections | Backend/services/document_processor.py:150-163 | the loop over the lines writes exactly the announcements, in order |
| DocumentProcessor.ScanLine | Backend/services/document_processor.py:151-162 | one line, stripped, adds its announcement to the dict built from the lines before it: under the first pattern it matches, or nothing for a blank line or no match |
| DocumentProcessor.MatchHeader | Backend/services/document_processor.py:152-157 | the inner loop returns the first pattern the line matches |
| DocumentProcessor.AssignedIsDict | Backend/services/document_processor.py:150-163 | the sections hold each key at most once |
| DocumentProcessor.AssignedKeyIffWritten | Backend/services/document_processor.py:150-163 | a section is present exactly when some line announced it |
| DocumentProcessor.AssignedLastWriteWins | Backend/services/document_processor.py:158-161 | a section keeps the header of the last line that announced it |
| DocumentProcessor.FirstIndicator | Backend/services/document_processor.py:279-283 | nothing is found exactly when no skills indicator occurs. Otherwise the result is the first indicator in list order that occurs |
| DocumentProcessor.Preview | Backend/services/document_processor.py:285-286 | the preview has at most 300 characters and no newline |
| DocumentProcessor.ExtractSkillsPreview | Backend/services/document_processor.py:274-288 | the preview has at most 300 characters and no newline |
| DocumentProcessor.SkillsPreviewEmptyIffNoIndicator | Backend/services/document_processor.py:274-288 | the preview is empty exactly when no indicator occurs in the lower-cased text |
| DocumentProcessor.PreviewAtLetter | Backend/services/document_processor.py:285-286 | a preview that starts at a letter is never empty |
| DocumentProcessor.TechnicalSkillsShadowed | Backend/services/document_processor.py:279 | the indicator `"technical skills"` is never the one chosen, because `"skills"` comes first and occurs inside it |
| DocumentProcessor.StripAll | Backend/services/document_processor.py:253 | each part is replaced by its stripped form, and the count is kept |
| DocumentProcessor.CountNonEmpty | Backend/services/document_processor.py:253 | the count of non-empty parts is at most the number of parts |
| DocumentProcessor.MeaningfulLines | Backend/services/document_processor.py:257 | each kept line is stripped and longer than 3 characters, and there are at most as many as lines |
| DocumentProcessor.MeaningfulLinesEmpty | Backend/services/document_processor.py:257 | no line is kept exactly when every line has at most 3 characters once stripped |
| DocumentProcessor.FirstNameLike | Backend/services/document_processor.py:260-263 | nothing is found exactly when no line has at most 4 words and an upper-case letter. Otherwise the result is the first such line |
| DocumentProcessor.ExtractKeyInformation | Backend/services/document_processor.py:248-272 | the character count is the length of the text |
| DocumentProcessor.KeyInformationFields | Backend/services/document_processor.py:256-270 | the title is absent exactly when no line is longer than 3 characters once stripped. The skills preview is absent exactly when no skills indicator occurs |
| DocumentProcessor.TitleChoice | Backend/services/document_processor.py:258-265 | a title exists exactly when some line is meaningful. It has at most 100 characters. It comes from the first name-like line among the first 5, or else from the first meaningful line |
| DocumentProcessor.JoinBlank | Backend/services/document_processor.py:251-253 | joining with a blank separator gives blank text exactly when every part is blank |
| DocumentProcessor.CountNonEmptyZero | Backend/services/document_processor.py:253 | the count is zero exactly when every part is empty |
| DocumentProcessor.CountNonBlankZero | Backend/services/document_processor.py:253 | no paragraph is counted exactly when every paragraph is blank |
| DocumentProcessor.NoWordsIffNoParagraphs | Backend/services/document_processor.py:250-254 | the word count and the paragraph count are each zero exactly when the text is blank |
| DocumentProcessor.Gather | Backend/services/document_processor.py:99-127 | one result per non-empty stripped part |
| DocumentProcessor.ChunksOf | Backend/services/document_processor.py:99-127 | one chunk per non-empty stripped split |
| DocumentProcessor.CreateChunks | Backend/services/document_processor.py:85-129 | empty text gives no chunks. Otherwise the chunks are those of the stripped splits, with the split count as the total |
| DocumentProcessor.OriginsAreNonEmptyParts | Backend/services/document_processor.py:99-104 | the chunks come from the non-empty parts, every such part in increasing order, and their number is the count of non-empty parts |
| DocumentProcessor.ChunksFollowSplits | Backend/services/document_processor.py:99-127 | the k-th chunk is built from the k-th non-empty split, with that split's own index |
| DocumentProcessor.GatherFollowsOrigins | Backend/services/document_processor.py:99-127 | the k-th result is built from the k-th non-empty part and its index |
| DocumentProcessor.ChunkMetadataMerge | Backend/services/document_processor.py:106-124 | a chunk's text and content are the split. In its metadata a caller key wins over the computed fields, and the computed fields fill the other keys |
| ChatRoutes.NodeTypeOf | Backend/api/routes/chat.py:200 | the lookup succeeds exactly when the node is a dictionary whose `data` (default `{}`) is one too. The type is the node's own `type` when present, and otherwise `data.type` or `None` |
| ChatRoutes.TypesFromOkIff | Backend/api/routes/chat.py:199-202 | collecting the types succeeds exactly when every node is admissible (a dictionary, and any truthy type is hashable) |
| ChatRoutes.TypesFromMember | Backend/api/routes/chat.py:199-202 | a value ends up in the set exactly when it was already there or is the truthy type of some node |
| ChatRoutes.NodeTypesMeaning | Backend/api/routes/chat.py:196-202 | the node-type set is exactly the truthy types of the nodes |
| ChatRoutes.CollectNodeTypes | Backend/api/routes/chat.py:196-202 | the loop over the stored nodes yields the node-type set or the first error |
| ChatRoutes.RequirementsFromNodes | Backend/api/routes/chat.py:205-210 | each requirement holds exactly when some node has the matching type. A context source is a knowledge-base or web-search node |
| ChatRoutes.Advice | Backend/api/routes/chat.py:213-221 | there is one recommendation per missing requirement and no other, so none are given exactly when all requirements hold |
| ChatRoutes.Recommend | Backend/api/routes/chat.py:213-221 | the appends produce exactly that advice |
| ChatRoutes.ValidateChatWorkflow | Backend/api/routes/chat.py:168-251 | a missing stack is a 404 and every other path returns a report. The workflow is chat ready exactly when all requirements hold and exactly when there are no recommendations. A missing or empty workflow asks for one to be created. An error is reported exactly when the stored nodes are unusable. Otherwise the report carries the node types, the requirements derived from them and the advice |
| ChatRoutes.Cap | Backend/api/routes/chat.py:91 | the content is a prefix of at most 500 characters, and shorter content is kept whole |
| ChatRoutes.EntryContentCapped | Backend/api/routes/chat.py:84-122 | every normalised chunk has string content of at most 500 characters and a string source |
| ChatRoutes.StringChunkEntry | Backend/api/routes/chat.py:88-94 | a string chunk becomes its first 500 characters, with source `Document`, score 0.0 and no id |
| ChatRoutes.DictChunkEntry | Backend/api/routes/chat.py:95-122 | a dictionary chunk whose `metadata` is not a dictionary becomes the error entry. A converted dictionary takes its content from `content`, then `text`, and its source from `source`, then `metadata.file_name`, then `Document` |
| ChatRoutes.NormalizeContextChunks | Backend/api/routes/chat.py:84-122 | one normalised entry per raw chunk, in order. Anything that is not a list gives none |
| ChatRoutes.AppendEach | Backend/api/routes/chat.py:86-122 | the loop appends exactly one entry per item, in order |
| ChatRoutes.Stringified | Backend/api/routes/chat.py:125-128 | only truthy items are kept: all of them when all are truthy and none when none are |
| ChatRoutes.StringifiedMember | Backend/api/routes/chat.py:125-128 | a string is in the result exactly when it is the text of some truthy item |
| ChatRoutes.ChatWithWorkflow | Backend/api/routes/chat.py:50-165 | a missing stack is a 404 and a truthy workflow error is a 500. The request succeeds exactly when the stack exists, there is no error, the execution time converts to a float and `sources_used` and `execution_flow` are iterable. The response text is `str(result)`. The chunk count equals the number of normalised raw chunks. The sources and the flow keep their truthy entries as strings |
| DocumentRoutes.TrailingNewlineAccepted | Backend/api/routes/documents.py:34-35 | the pattern as written, anchored with `$`, accepts a valid id followed by one newline, which is not a UUID |
| DocumentRoutes.UuidIsExact | Backend/api/routes/documents.py:34-35 | an accepted id is exactly 36 characters with no newline, has dashes at positions 8, 13, 18 and 23, and is also accepted by the pattern as written |
| DocumentRoutes.UuidIgnoresCase | Backend/api/routes/documents.py:35 | the check is case-insensitive: an id is accepted exactly when its lower-cased form is |
| DocumentRoutes.SupportedIgnoresCase | Backend/api/routes/documents.py:57-60 | the extension check is case-insensitive |
| DocumentRoutes.SizeError | Backend/api/routes/documents.py:71-75 | the size is accepted exactly when it is from 1 byte to 50 MiB. An empty file and an oversized file each get their own 400 |
| DocumentRoutes.Precheck | Backend/api/routes/documents.py:32-75 | a malformed stack id is rejected first with its 400. The request passes exactly when the id is a UUID (the exact test `IsUuid`), the stack exists, a filename is given, its extension is supported and the size is in range. Every rejection is a 400 or a 404 |
| DocumentRoutes.EmbeddingKey | Backend/api/routes/documents.py:137-159 | a non-empty request key is used as given. Otherwise the stored workflow key is used. There is no key exactly when both are missing or empty, and a chosen key is never empty |
| DocumentRoutes.DocumentStores.UploadDocument | Backend/api/routes/documents.py:17-242 | a failed precheck, failed processing or failed storage is the matching error and changes nothing. After that, the outcome of each later step fixes the result and the final bucket, vector store and table. A missing key leaves the file behind. An embedding failure removes the file when removal succeeds. A saved row adds exactly one document. A save that raises removes the file, and the chunks too when both removals succeed. A save with no row keeps both. The vector store gains the embedding id only when it is non-empty: an empty id means `embed_documents` stored nothing |
| DocumentRoutes.DocumentStores.AfterStorage | Backend/api/routes/documents.py:125-223 | a URL failure is a 500 and a missing key is a 400, both changing nothing. Then the embedding, clean-up and save outcomes fix the result and the stores as above. A document is appended exactly on success. A successful embedding adds its id to the vector store's ids only when the id is non-empty, since the empty id is returned when nothing was stored |
| DocumentRoutes.DocumentStores.SaveMetadata | Backend/api/routes/documents.py:187-223 | a saved row is returned and appended. No row is a 500 that changes nothing. A raised save is a 500 that removes the file, and also the chunks when both removals succeed |

## Left out

- Network, database and SDK calls are all parameters. They cover the ChromaDB client, the OpenAI and Gemini embedding and chat calls, the httpx search requests, Supabase storage and tables, and the stack, workflow and key lookups. Their own behaviour is not modelled.
- Floating point is not modelled. Scores are opaque reals, and the distance-to-similarity formula `1/(1+d)` is a parameter. Python's printing of floats (`:.3f`, `word_density`, `str(float)`) and its parsing of float literals are parameters too.
- Time is not modelled: `execution_time` and the timing of a run.
- Async sleeps, rate limits and timeouts are not modelled. The process-wide singletons are not modelled either, and the collection cache is treated sequentially.
- `str.lower()` and `str.isupper()` are modelled on ASCII letters only. Python's Unicode case mapping is not modelled. The same holds for the case-insensitive `(?i)` section patterns (Backend/services/document_processor.py:137-144, 157): `Announces` compares ASCII-lowered text, while Python's IGNORECASE also matches 'ſ' (long s), 'K' (Kelvin sign), 'İ' and 'ı' against s, k and i.
- PDF text extraction (PyMuPDF) and the regular-expression `clean_text` pipeline are not modelled. `process_document`, which composes them with I/O and logging, is not modelled either.
- The LangChain text splitter is a parameter: `create_chunks` receives its output.
- The random chunk ids (`uuid.uuid4()`) are not modelled, and neither is the stored file's uuid prefix, which is a parameter of the upload.
- The chat log insert in `chat_with_workflow` is not modelled, since its failures are only logged.
- Encryption of the stored API keys is not modelled: the upload receives the decrypted stored key as a parameter.
- `upload_document`: the content type and the embedding model name are only passed through to collaborators and are not modelled. The vector store's `collection.add` and `collection.count()` are modelled as always succeeding. In the source, a `count()` that raises after the `add` (Backend/services/embeddings_service.py:204-214) leaves the records written while `embed_documents` reports "Failed to embed documents", and the upload handles it as an embedding failure while those records stay in the store. The model does not cover that case.
- `upload_document`: an exception outside the named steps, reported as "Unexpected error during upload", is not modelled.
- The upload leaks the stored file when the URL lookup fails or when no key is found. When the save returns no row, both the file and the chunks stay behind. The model states these outcomes as they are.
- `ChatRoutes.ChatWithWorkflow`: for a failed workflow only the 500 status is stated. The detail text is not, because it comes from `result['result']`, whose lookup may itself raise.
- `Embeddings.SortByScore`: the contract states a descending permutation. It does not state that ties keep their input order, as Python's stable `sorted` does.
- The web-search handler inside the orchestrator is a stub in the source: it returns empty context and no sources, and is modelled as such.
- Backend/utils/helpers.py `WorkflowAnalyzer` is not modelled: it calls methods that do not exist. The unreachable code after `validate_chat_workflow`'s returns is not modelled either.
- Backend/db/supabase.py, Backend/api/routes/stack.py, Backend/api/routes/workflow.py, Backend/main.py and Backend/services/encryption.py are not part of this model: they are plumbing without logic of their own.
- The pydantic schemas in Backend/api/models/document.py are not part of this model: they carry no behaviour.
- Logging and `print` output are not modelled.
- `EdgeNavigator.Edge`, `WorkflowEngine.WorkflowRecord`, `WorkflowEngine.ExecuteWorkflow`, `WorkflowValidator.GetExecutionFlow`: an edge is a source/target pair and a stored workflow always has its `id`, `nodes` and `edges`. The `KeyError` for an edge without `source` or `target` (Backend/utils/helpers.py:14 and 27, Backend/api/models/workflow.py:151-152), the `TypeError` for an edge value that is not a dict, and the `KeyError` for a workflow record without `id`, `nodes` or `edges` (Backend/services/workflow_engine.py:26-28) are not modelled. The node map is always a dict (`IsDict` says only that its keys are distinct, as in every Python dict); a node map of another type is not modelled.
- `DocumentRoutes.Precheck`, `DocumentRoutes.DocumentStores.UploadDocument`: these check the stack id with the exact test `IsUuid`. The source's pattern also accepts a valid id followed by one newline (see "Findings"), and then goes on to the stack lookup; the model rejects that id with the 400.
- `PyValues.Repr`, `Wrappers.StrRepr`, `Wrappers.PlainRepr`: `repr` of a string picks its quote and escapes backslashes, that quote, `\n`, `\r`, `\t` and the other ASCII control characters. Python's escaping of non-printable characters outside ASCII (`\x80`-`\xa0`, `\u2028` and the like) is not modelled: they are written as they are. So `PlainRepr`'s "text unchanged" also covers a key holding such a character (U+0085, say), which Python escapes.
- `OutputNode.ContextAfter`: the in-place extension is followed through the context entry the content was read from. Other references to the same list object outside the context are not tracked.
- `Embeddings.EmbeddingsService.EmbedDocuments`: requires a non-empty embedding id. The source's id is a fresh `uuid4` string, which is never empty.
- `Embeddings.EmbeddingsService.StoreEmbeddings`: requires a non-empty embedding id for the same reason, and an existing collection, which `EmbedDocuments` creates before calling it.

## Findings

| source | as written | input that shows it | evidently intended | confidence | as-written member | corrected member |
|---|---|---|---|---|---|---|
| Backend/api/routes/documents.py:34-35 | the UUID pattern ends in `$` and is used with `re.match`. `$` also matches just before a final newline, so a valid id followed by `"\n"` passes | `"123e4567-e89b-42d3-a456-426614174000\n"` | only the 36-character id itself is accepted (`re.fullmatch`, or `\Z`) | not executed | DocumentRoutes.TrailingNewlineAccepted | DocumentRoutes.UuidIsExact |

The upload in this model checks ids with the corrected `IsUuid`.
