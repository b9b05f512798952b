# ToyAgenticFramework, modelled in Dafny

The model covers the orchestration core of ToyAgenticFramework. A user prompt is
submitted to an HTTP endpoint, which queues it under a fresh task id. A background
worker then runs a LangGraph state machine on it. A classifier node picks one of four
strategies: `general`, `code`, `summarize`, or `content`, which searches the web and
then generates a cited answer. Every node appends one step to the task's trajectory
document in MongoDB. The worker brackets the run with a start entry and an end entry,
`Completed` or `Failed`. A status endpoint projects the document into a reply. A small
helper masks secrets before they are printed.

The model has one module per source file. There are three shared modules besides: `Wrappers`, `WebSearch` (the search provider the code calls), and `GraphState` (the state dictionaries declared in core/agent_graph.py):

| file | module | form |
|---|---|---|
| `wrappers.dfy` | `Wrappers` | `Option`, `Result`, `Outcome`, and `Entry` (a dictionary key that is missing or present) |
| `web_search.dfy` | `WebSearch` | search results, `k = 4`, and the search provider as a fallible oracle |
| `log_schemas.dfy` | `LogSchemas` | the three pydantic schemas, with their defaults and the list validation of `search_results` |
| `graph_state.dfy` | `GraphState` | the graph state dictionary and the strategy tags |
| `mongodb_logger.dfy` | `MongoDBLog` | the collection as `map<string, Record>`; insert, `$push` and `$set` with upsert, and `find_one` as pure functions; class `Logger` whose methods update the map in place |
| `agent_graph.dfy` | `AgentGraph` | nodes, the fixed edges, the classifier's routing, each node's update, `[Source i]` formatting (a function and the loop that builds it), a run as the sequence of visited nodes, and the compiled graph's `invoke` as a loop over supersteps that writes to the logger |
| `worker_tasks.dfy` | `WorkerTasks` | `execute_agent_framework`: the start log, the run, then the `Completed` end log, or the `Failed` end log and a re-raise |
| `api_app.dfy` | `Api` | `get_task_status` as a projection of the looked-up document, and the id contract of `execute_task` |
| `env_utils.dfy` | `EnvUtils` | `summarize_value` |

The model has these conventions:

- A Python exception is `Err(str(e))`. A `KeyError` on key `k` therefore reads `'k'`.
- The language model is `Option<Llm>`. `None` means no model is configured.
- A configured model is a pair of total functions that may return an error: structured classification, and plain invocation.
- The search provider is either `Unconfigured(error)`, when building the wrapper raises, or `Configured(results)`, a function that may fail.
- The clock is a function: the `k`-th logged step is stamped `clock(k)`.

Three behaviours of the code are modelled as written, although the code itself shows
that its authors intended something else:

- **Failed tasks never show their error.** The worker writes status `Failed`, but the
  status endpoint exposes `final_response` only for `Completed` and `Error`. A failed
  task therefore always reads `Failed` with no response (`Api.StatusAfterWork`).
- **A failed web search fails the task.** The search node wraps the search in a
  `try`/`except` (core/agent_graph.py:192-196), so a failing search is meant to be
  tolerated. On failure it stores `None` under `search_results`
  (`AgentGraph.SearchFailureTolerated`). `log_task_end` then rejects that `None`: the
  `TaskLogEndUpdate` schema requires a list, as the comment at
  core/mongodb_logger.py:41 itself warns. As a result, the task is logged as
  `Failed` with the validation error (`WorkerTasks.FailedSearchFailsTask`).
- **The worker task returns nothing.** `execute_agent_framework` is annotated `-> str`,
  and its docstring promises the framework's response (worker/tasks.py:28, 33). It has
  no `return` statement, so it returns `None`. The model's `Pass` therefore carries no
  value (`WorkerTasks.ExecuteAgentFramework`).

The reply model of the status endpoint, `TaskStatusOutput`, declares no
`search_results` field. The results the handler passes in are dropped, so the modelled
reply has no such field.

## Model

| member | source | states |
|---|---|---|
| EnvUtils.SummarizeValue | core/env_utils.py:4-14 | The result is `true`/`false` exactly when the value spells a boolean in any letter case, and then it is the lowered value. Otherwise it has eight characters and starts with `****`. It ends with the last four characters of a value longer than four, and is all stars for a shorter value. |
| EnvUtils.MaskRevealsOnlyLastFour | core/env_utils.py:14 | Two non-boolean values agree on whether they are longer than four, and when they are, on their last four characters. Their masks are then equal, so the mask reveals at most the last four characters. |
| EnvUtils.BooleanBeforeMask | core/env_utils.py:11-14 | The boolean test comes before masking: `"FALSE"` (five characters) gives `false`, and `"True"` gives `true`. |
| LogSchemas.NewTaskLogEntry | core/log_schemas.py:12-24 | A start entry keeps its id and prompt. Its status is `In Progress`, its event `START`, and its results and trajectory are empty. `web_search_query`, `final_response`, `task` and `task_choice_summary` are `None`. |
| LogSchemas.NewTaskLogEndUpdate | core/log_schemas.py:27-35 | Validation succeeds exactly when `search_results` is a list. Otherwise it fails with the list-validation error. The event is always `END`, and status defaults to `Completed`. The other fields are copied. |
| LogSchemas.NewTaskLogStepPush | core/log_schemas.py:38-40 | A push carries exactly one step: the node name and the timestamp. |
| MongoDBLog.Find | core/mongodb_logger.py:71-78 | `None` exactly when no document has the id, otherwise that document. |
| MongoDBLog.Inserted | core/mongodb_logger.py:23-30 | The insert adds exactly the new id, leaves other documents unchanged, and stores the entry dumped without its `None` fields. Documents stay keyed by their own id. |
| MongoDBLog.PushAppendsOneStep | core/mongodb_logger.py:54-69 | A `$push` with upsert appends exactly one step to the end of that task's trajectory. It creates the document if it is missing. Every other field and every other document is unchanged. |
| MongoDBLog.PushesAppendInOrder | core/mongodb_logger.py:54-69 | A sequence of pushes appends its steps, in order, to that task's trajectory and changes nothing else. This is proved by induction. |
| MongoDBLog.EndSet | core/mongodb_logger.py:47-52 | The `$set` with upsert writes status, event and results. It writes the response, task, summary and query only when they are not `None`, since `exclude_none` drops them. It keeps the trajectory, prompt and `web_search_query`, and changes no other document. |
| MongoDBLog.EndUpdateOf | core/mongodb_logger.py:36-45 | The update succeeds exactly when `response`, `task_classification`, `task` and `choice_summary` are present and `search_results` is not `None`. The first missing key, read in the order `response`, `task_classification`, `task`, `choice_summary`, raises `KeyError` naming it; with all four present, `None` under `search_results` fails with the schema's list validation error. The response's text is `.content` when there is one. `search_query` defaults to `n/a`, and `search_results` to `[]`. |
| MongoDBLog.Logger.constructor | core/mongodb_logger.py:7-19 | The logger starts over the given collection. |
| MongoDBLog.Logger.LogTaskStart | core/mongodb_logger.py:23-30 | The new state is the insert of the start entry: `In Progress`, `START`, an empty trajectory and results, and no query. |
| MongoDBLog.Logger.LogTaskEnd | core/mongodb_logger.py:32-52 | It completes exactly when the end update validates, and then the state is the `$set`. When it raises, it raises with the update's error and writes nothing. |
| MongoDBLog.Logger.LogStep | core/mongodb_logger.py:54-69 | The new state is one `$push` of the step named after the node and stamped `now`. |
| MongoDBLog.Logger.GetTaskById | core/mongodb_logger.py:71-78 | It returns the document for the id, or `None` when there is none. It writes nothing. |
| AgentGraph.StrategyNode | core/agent_graph.py:257-262 | The node chosen for a strategy is registered under the strategy's own name. It is neither the classifier nor the post-search node. |
| AgentGraph.Next | core/agent_graph.py:264-270 | The classifier goes to the node named by the route. `content` goes to `content_post_web_search`, and every other node ends. No edge leads back to the classifier. Every edge lowers the height, so runs terminate. |
| AgentGraph.Apply | core/agent_graph.py:29-48 | Keys the update writes are overwritten, and every other key keeps its value. The prompt and task id never change. |
| AgentGraph.ClassifyTask | core/agent_graph.py:50-85 | With no model, the result is the default classification (`general`, `default choice when no llm is used`), routed to `general`. With a model, it raises exactly when the model raises, and with the model's own error. It writes only `task_classification` and logs `task_classification`. The stored tag names the route, and a missing tag routes to `general`. With a model that answers, the stored classification is the model's verdict and the route is the verdict's tag (`general` when the tag is missing). |
| AgentGraph.Answer | core/agent_graph.py:87-161 | The shared shape of the three answering nodes. With no model, the response is the placeholder. Otherwise it is the model's reply message, or the model's error. Only `response` is written, under the given node name. |
| AgentGraph.GeneralTask | core/agent_graph.py:87-105 | The prompt itself is sent to the model. The reply becomes `response`; a model error propagates; with no model the response is the placeholder. Only `response` is written and the step is logged as `general`. |
| AgentGraph.CodingTask | core/agent_graph.py:108-133 | The prompt, wrapped in the coding template, is sent to the model. The reply becomes `response`; a model error propagates; with no model the response is the placeholder. Only `response` is written and the step is logged as `code`. |
| AgentGraph.SummarizingTask | core/agent_graph.py:136-161 | The prompt, wrapped in the summarizing template, is sent to the model. The reply becomes `response`; a model error propagates; with no model the response is the placeholder. Only `response` is written and the step is logged as `summarize`. |
| AgentGraph.NoLlmPlaceholder | core/agent_graph.py:98-101 | With no model, `general`, `code`, `summarize` and `content_post_web_search` all answer with the same placeholder text. |
| AgentGraph.ContentWebSearchingTask | core/agent_graph.py:163-200 | With no model, the query is the prompt. A configured search's failure is caught and stored as `None` under `search_results`. The node writes only `search_query` and `search_results`. A failing model call propagates its error; otherwise the stored query is the model's reply. A search wrapper that cannot be built raises its error. |
| AgentGraph.ContentGenerationTask | core/agent_graph.py:202-245 | A missing `search_results` key raises `KeyError('search_results')`. Otherwise the node generates from the prompt and the formatted sources. |
| AgentGraph.NodeStep | core/agent_graph.py:257-262 | When a node completes, it logs its own registered name and writes exactly the keys it owns. Only the classifier routes. |
| AgentGraph.DecimalString | core/agent_graph.py:220 | The text of a source number is non-empty and all digits. It starts with `0` only for zero. |
| AgentGraph.DecimalStringDenotes | core/agent_graph.py:220 | The printed digits denote the number printed. |
| AgentGraph.Entries | core/agent_graph.py:216-222 | There is one block per result, in rank order. Block `k` is `[Source k+1]: ` followed by the snippet, then `\nLink: ` followed by the link, with the defaults `No Snippet available.` and `No URL link available.`. |
| AgentGraph.SourcesText | core/agent_graph.py:216-224 | The sources text is empty exactly when the results are `None` or empty. |
| AgentGraph.JoinHoldsEachPart | core/agent_graph.py:224 | In a `"\n".join`, every part stands unchanged at its offset. |
| AgentGraph.JoinSnoc | core/agent_graph.py:224 | Appending a part to a non-empty join appends the separator and then the part. |
| AgentGraph.CitesEveryResult | core/agent_graph.py:216-224 | Every result's block, `[Source k+1]` with its snippet and link, appears in the sources text. |
| AgentGraph.SourcesTextSnoc | core/agent_graph.py:217-224 | One more result adds exactly one block, after the others. |
| AgentGraph.FormatSources | core/agent_graph.py:215-224 | The loop that appends one formatted block per result, followed by the join, yields the sources text. |
| AgentGraph.StepOf | core/agent_graph.py:264-273 | A superstep stops exactly when the node raises, carrying the node's own error. A move goes to a lower node and keeps the task id. Otherwise the node's update is applied to the state, the route becomes the node's `goto` (or stays), and the step finishes or moves to the next node exactly as the graph's edges say. |
| AgentGraph.PathShapes | core/agent_graph.py:264-270 | The graph's paths are exactly `[task_classification, general]`, `[task_classification, code]`, `[task_classification, summarize]` and `[task_classification, content, content_post_web_search]`. |
| AgentGraph.WalkDescends | core/agent_graph.py:264-270 | A walk starts at its node. Heights fall strictly along it, so no node repeats, and it ends at a node with no outgoing edge. |
| AgentGraph.AfterClassifier | core/agent_graph.py:257-270 | After the classifier, a run visits a prefix of the strategy's walk, and all of it exactly when it succeeds. A success keeps the prompt, task id and classification, and holds a response. It holds the search keys only on the content route. |
| AgentGraph.RunFollowsPath | core/agent_graph.py:264-270 | If the classifier raises, no node completes. Otherwise the run visits a prefix of the chosen path, and the whole path exactly when it succeeds. |
| AgentGraph.RunHasNoRepeats | core/agent_graph.py:264-270 | No node is entered twice in a run. |
| AgentGraph.RunCompletes | core/agent_graph.py:257-273 | A successful run writes exactly one response, by its last node. It keeps the prompt and task id and stores a classification. It holds the search keys exactly when it passed through `content`. |
| AgentGraph.NoLlmRun | core/agent_graph.py:68-105 | With no model, every run is `[task_classification, general]`, ends with the default classification and the placeholder, and has no search keys. |
| AgentGraph.SearchFailureTolerated | core/agent_graph.py:184-224 | A failing search does not stop the run. The run visits all three content nodes, stores `None` as the results, and generates from an empty sources block. |
| AgentGraph.Visit | core/agent_graph.py:257-262 | One superstep is the node's result followed by its edge. A node that completes pushes exactly one step, named after itself, for the state's task id. A node that raises writes nothing. |
| AgentGraph.Invoke | worker/tasks.py:62 | The loop's outcome is the run's outcome. The log receives one push per completed node, in visiting order, stamped by the clock. |
| WorkerTasks.ErrorStateLogs | worker/tasks.py:65-67 | Logging the failure state always validates, giving `ERROR: ` plus the message, task `error`, summary `execution failed`, query `n/a`, no results, and status `Failed`. |
| WorkerTasks.ExecuteAgentFramework | worker/tasks.py:28-68 | The job's outcome and final collection are those of the job function: start, run, then the `Completed` end, or else the `Failed` end followed by a re-raise. |
| WorkerTasks.StartThenSteps | worker/tasks.py:58-62 | Before the end is logged, the task's document is exactly the dumped start entry with the run's steps as its trajectory, in order. So it still reads `In Progress` at `START` with no results. No other document changes. |
| WorkerTasks.ExecutionRecord | worker/tasks.py:58-68 | The job writes only its own document. That document keeps the prompt and has no `web_search_query`. Its trajectory is the visited nodes in order, and it ends at `END`. The status is `Completed` exactly when the run and its end log succeed, and `Failed` otherwise. A failure raises the run's error, or else the end log's error. |
| WorkerTasks.FailedRecord | worker/tasks.py:64-67 | A failed document shows `ERROR: ` plus the raised message, task `error`, summary `execution failed`, query `n/a`, and no results. |
| WorkerTasks.CompletedRecord | worker/tasks.py:62-63 | A completed document holds the run's response text, the classification's tag and summary, the query (default `n/a`), and the results (default `[]`). |
| WorkerTasks.NoLlmExecution | worker/tasks.py:46-63 | With no model, a job completes with trajectory `[task_classification, general]`, the placeholder answer, task `general`, and the default summary. |
| WorkerTasks.NoneResultsFailTask | core/mongodb_logger.py:41-42 | A successful run that stores `None` under `search_results` is logged as `Failed` with the list-validation error. |
| WorkerTasks.FailedSearchFailsTask | worker/tasks.py:60-67 | A content task whose search fails runs all three nodes but is logged as `Failed`. The error is the validation error, or `KeyError('choice_summary')` when the model omitted the summary. |
| WorkerTasks.ClassifierErrorFailsTask | worker/tasks.py:60-68 | When the model raises on classification, the job is logged as `Failed` with an empty trajectory and the model's error as the response, and it raises that error. |
| Api.GetTaskStatus | api/app.py:59-98 | The reply's id is the queried id. The status is the document's, or `Unknown` when there is no document or no status. A response is shown only for `Completed` or `Error`, and then it is the stored one. |
| Api.TaskStatus | api/app.py:65-98 | The endpoint is the projection of the looked-up document. An unknown id reads `Unknown` with no response. Nothing is written. |
| Api.ExecuteTask | api/app.py:32-53 | The job is queued on `(id, task)` under the same id the reply returns. The status is `QUEUED`, and the message embeds the id. |
| Api.StatusDuringWork | api/app.py:80-96 | While the worker runs, before the end is logged, the returned id reads `In Progress` with no response, however many steps have been logged. |
| Api.StatusBeforeWork | api/app.py:67-78 | Before the worker has written anything, the returned id reads `Unknown` with no response. |
| Api.StatusAfterWork | api/app.py:80-96 | After the job, the returned id reads `Completed` with the stored response if the job succeeded. If it raised, it reads `Failed` with no response. |
| Api.NoLlmStatus | api/app.py:80-89 | With no model, a queued task ends up reading `Completed` with the placeholder answer. |

## Left out

- Language model calls: the prompt templates and their whitespace are not modelled. A request names the template and its inputs. A structured classification whose tag falls outside the four strategies is not modelled.
- The web search call is an oracle, `(query, 4) -> results or error`. Network behaviour and result contents beyond `title`, `link` and `snippet` are not modelled.
- The MongoDB client, its connection, and the environment lookups, including the `ValueError` raised when `MONGO_URI` is missing, are not modelled. The collection is a map with one document per task id.
- MongoDBLog.Logger.LogTaskStart: it requires the task id to be absent from the collection. Task ids are fresh UUIDs and no uniqueness index is visible, so a second document with the same id is not modelled. A failing `log_task_start`, which is outside the worker's `try`, is therefore not modelled either.
- Timestamps (`datetime.now`) are a caller-supplied clock: the `k`-th step of a run is stamped `clock(k)`.
- The LangGraph runtime is replaced by the explicit transition function and the `Invoke` loop. This covers the `InMemorySaver` checkpointer and the `thread_id == task_id` configuration, which only matters when a thread is resumed, and the driver never does that.
- The state key `documents` is never read or written, and it is not modelled.
- The Celery app and broker, `apply_async`, uuid generation (the fresh id is a parameter of `Api.ExecuteTask`), the FastAPI app, CORS, `/health/`, and the unused `thread_id` input field are not modelled.
- The `USE_LLM` toggle is not modelled: whether a model is present is an input.
- `display_graph`, `doublecheck_env`, `simple_local_run.py`, the `core/__init__.py` re-exports, and all `print` output are not modelled.
- LogSchemas.SearchResultsNotAList: it holds only the first lines of pydantic's validation message, not the trailing input value and documentation link.
- EnvUtils.Lower: it folds ASCII letters only. No other character lowers to a letter of `true` or `false`, so the boolean test is unaffected, but the model does not decide non-ASCII lowering.
- The `search_results` argument of the status reply is not modelled, because `TaskStatusOutput` declares no such field and the value is dropped.
- Cross-worker concurrency on the shared collection is not modelled: each job is modelled as running alone.
