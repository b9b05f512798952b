/** The background job `execute_agent_framework` (worker/tasks.py): log the start of a
    task, run the graph on the prompt, and log its end as completed or, when anything
    raised, as failed before raising again. */
module WorkerTasks {
  import opened Wrappers
  import opened WebSearch
  import opened LogSchemas
  import opened GraphState
  import opened MongoDBLog
  import opened AgentGraph

  const Failed := "Failed"

  /** The state the job hands to `log_task_end` when the run raised: the error as the
      response and the fixed `error` classification; no search keys. */
  function ErrorState(msg: string): Fields {
    Fields(Present(Classification(Present("error"), Present("execution failed"))), Absent, Absent,
           Present(Text("ERROR: " + msg)))
  }

  /** Logging a failure cannot itself fail: the error state has every key `log_task_end`
      reads, and no search results to validate. */
  lemma ErrorStateLogs(msg: string)
    ensures EndUpdateOf(ErrorState(msg), Failed)
            == Ok(TaskLogEndUpdate(EndEvent, Some("ERROR: " + msg), Some("error"), Some("execution failed"),
                                   Some("n/a"), [], Failed))
  {
  }

  /** What the job leaves behind: whether it raised (and with what), and the collection. */
  datatype Execution = Execution(outcome: Outcome, docs: Collection)

  /** The `except` branch: log the failed end and raise `msg` again. Should that log
      itself raise, its error is what propagates and nothing more is written. */
  function Failure(docs: Collection, taskId: string, msg: string): Execution {
    match EndUpdateOf(ErrorState(msg), Failed)
    case Ok(u) => Execution(Fail(msg), EndSet(docs, taskId, u))
    case Err(e) => Execution(Fail(e), docs)
  }

  /** What the job writes around a run of the graph that ended as `run`. */
  function Logged(docs: Collection, taskId: string, prompt: string, run: RunResult, clock: nat -> int): Execution
    requires taskId !in docs
  {
    var started := Inserted(docs, NewTaskLogEntry(taskId, prompt));
    var logged := PushedAll(started, taskId, Steps(run.visited, clock));
    match run.outcome
    case Err(e) => Failure(logged, taskId, e)
    case Ok(last) =>
      match EndUpdateOf(last.fields, Completed)
      case Ok(u) => Execution(Pass, EndSet(logged, taskId, u))
      case Err(e) => Failure(logged, taskId, e)
  }

  /** The job, as a function of the collection it starts from. */
  function Execute(docs: Collection, llm: Option<Llm>, search: SearchBackend, taskId: string, prompt: string,
                   clock: nat -> int): Execution
    requires taskId !in docs
  {
    Logged(docs, taskId, prompt, Run(llm, search, Initial(prompt, taskId)), clock)
  }

  /** `execute_agent_framework(task_id, prompt_content)` against a logger. The start is
      logged outside the `try`; the run and the completed end inside it. */
  method ExecuteAgentFramework(log: Logger, llm: Option<Llm>, search: SearchBackend, taskId: string, prompt: string,
                               clock: nat -> int)
    returns (r: Outcome)
    requires log.Valid() && taskId !in log.docs
    modifies log
    ensures log.Valid()
    ensures Execution(r, log.docs) == Execute(old(log.docs), llm, search, taskId, prompt, clock)
  {
    log.LogTaskStart(taskId, prompt);
    var result := Invoke(log, llm, search, Initial(prompt, taskId), clock);
    var raised: Option<string> := None;
    match result {
      case Err(e) =>
        raised := Some(e);
      case Ok(last) =>
        var ended := log.LogTaskEnd(taskId, last.fields, Completed);
        if ended.Fail? {
          raised := Some(ended.error);
        }
    }
    if raised.None? {
      return Pass;
    }
    var failed := log.LogTaskEnd(taskId, ErrorState(raised.value), Failed);
    if failed.Fail? {
      return failed;
    }
    return Fail(raised.value);
  }

  // ---------------------------------------------------------------- properties of a job

  /** Before the end is logged, the task's document is the start entry with the
      steps appended, in order, and no other document has changed. */
  lemma StartThenSteps(docs: Collection, taskId: string, prompt: string, steps: seq<TaskStep>)
    requires taskId !in docs
    ensures var d := PushedAll(Inserted(docs, NewTaskLogEntry(taskId, prompt)), taskId, steps);
            && d.Keys == docs.Keys + {taskId}
            && (forall id :: id in docs ==> d[id] == docs[id])
            && (WellKeyed(docs) ==> WellKeyed(d))
            && d[taskId].prompt == Some(prompt) && d[taskId].webSearchQuery.None?
            && d[taskId].trajectory == Some(steps)
            && d[taskId] == Dump(NewTaskLogEntry(taskId, prompt)).(trajectory := Some(steps))
  {
    var started := Inserted(docs, NewTaskLogEntry(taskId, prompt));
    PushesAppendInOrder(started, taskId, steps);
    assert Trajectory(PushedAll(started, taskId, steps), taskId) == steps;
  }

  /** The job writes exactly one document, its own, and leaves every other one alone.
      That document keeps the prompt and holds one trajectory step per node that
      completed, in order; it ends at `END`, `Completed` exactly when the run and its
      end log succeeded and `Failed` otherwise, and the job raises exactly when it is
      `Failed`, with the run's error or else the end log's. */
  lemma ExecutionRecord(docs: Collection, taskId: string, prompt: string, run: RunResult, clock: nat -> int)
    requires taskId !in docs
    ensures var x := Logged(docs, taskId, prompt, run, clock);
            var d := x.docs[taskId];
            && x.docs.Keys == docs.Keys + {taskId}
            && (forall id :: id in docs ==> x.docs[id] == docs[id])
            && (WellKeyed(docs) ==> WellKeyed(x.docs))
            && d.prompt == Some(prompt) && d.webSearchQuery.None?
            && d.trajectory == Some(Steps(run.visited, clock))
            && d.currentEvent == Some(EndEvent)
            && (x.outcome.Pass? <==> run.outcome.Ok? && EndUpdateOf(run.outcome.value.fields, Completed).Ok?)
            && d.status == Some(if x.outcome.Pass? then Completed else Failed)
            && (x.outcome.Fail? ==> x.outcome.error == if run.outcome.Err? then run.outcome.msg
                                                       else EndUpdateOf(run.outcome.value.fields, Completed).msg)
  {
    StartThenSteps(docs, taskId, prompt, Steps(run.visited, clock));
    match run.outcome
    case Err(e) =>
      ErrorStateLogs(e);
    case Ok(last) =>
      match EndUpdateOf(last.fields, Completed)
      case Ok(u) =>
      case Err(e) =>
        ErrorStateLogs(e);
  }

  /** A failed task's document shows the error as its final response, the `error`
      classification, no search query (`n/a`) and no search results. */
  lemma FailedRecord(docs: Collection, taskId: string, prompt: string, run: RunResult, clock: nat -> int)
    requires taskId !in docs
    ensures var x := Logged(docs, taskId, prompt, run, clock);
            var d := x.docs[taskId];
            x.outcome.Fail? ==>
              && d.finalResponse == Some("ERROR: " + x.outcome.error)
              && d.task == Some("error") && d.taskChoiceSummary == Some("execution failed")
              && d.searchQuery == Some("n/a") && d.searchResults == Some([])
  {
    match run.outcome
    case Err(e) =>
      ErrorStateLogs(e);
    case Ok(last) =>
      match EndUpdateOf(last.fields, Completed)
      case Ok(u) =>
      case Err(e) =>
        ErrorStateLogs(e);
  }

  /** A completed task's document holds the run's response text, the classification's
      tag and summary, the search query (`n/a` when no search ran) and the results
      found (none when no search ran). */
  lemma CompletedRecord(docs: Collection, taskId: string, prompt: string, run: RunResult, clock: nat -> int)
    requires taskId !in docs
    ensures var x := Logged(docs, taskId, prompt, run, clock);
            var d := x.docs[taskId];
            x.outcome.Pass? ==>
              var f := run.outcome.value.fields;
              && d.finalResponse == Some(ResponseText(f.response.value))
              && d.task == Some(f.classification.value.task.value)
              && d.taskChoiceSummary == Some(f.classification.value.choiceSummary.value)
              && d.searchQuery == Some(f.searchQuery.GetOr("n/a"))
              && d.searchResults == Some(if f.searchResults.Present? then f.searchResults.value.value else [])
  {
    if run.outcome.Err? {
      ErrorStateLogs(run.outcome.msg);
    } else if EndUpdateOf(run.outcome.value.fields, Completed).Err? {
      ErrorStateLogs(EndUpdateOf(run.outcome.value.fields, Completed).msg);
    }
  }

  lemma GeneralPathSteps(clock: nat -> int)
    ensures Steps([ClassifierNode, GeneralNode], clock)
            == [TaskStep("task_classification", clock(0)), TaskStep("general", clock(1))]
  {
  }

  lemma ContentPathSteps(clock: nat -> int)
    ensures Steps([ClassifierNode, ContentNode, ContentPostWebSearchNode], clock)
            == [TaskStep("task_classification", clock(0)), TaskStep("content", clock(1)),
                TaskStep("content_post_web_search", clock(2))]
  {
  }

  /** Without a language model every job completes on the `general` route with the
      placeholder answer, stamped at the first two clock readings. */
  lemma NoLlmExecution(docs: Collection, search: SearchBackend, taskId: string, prompt: string, clock: nat -> int)
    requires taskId !in docs
    ensures var x := Execute(docs, None, search, taskId, prompt, clock);
            var d := x.docs[taskId];
            && x.outcome == Pass
            && d.status == Some(Completed)
            && d.trajectory == Some([TaskStep("task_classification", clock(0)), TaskStep("general", clock(1))])
            && d.finalResponse == Some(Placeholder)
            && d.task == Some("general") && d.taskChoiceSummary == Some(DefaultChoiceSummary)
            && d.searchQuery == Some("n/a") && d.searchResults == Some([])
  {
    var run := Run(None, search, Initial(prompt, taskId));
    NoLlmRun(search, prompt, taskId);
    ExecutionRecord(docs, taskId, prompt, run, clock);
    CompletedRecord(docs, taskId, prompt, run, clock);
    GeneralPathSteps(clock);
  }

  /** A successful run whose state holds every key `log_task_end` reads, but `None`
      under `search_results`, is logged as failed with the validation error. */
  lemma NoneResultsFailTask(docs: Collection, taskId: string, prompt: string, run: RunResult, clock: nat -> int)
    requires taskId !in docs
    requires run.outcome.Ok?
    requires var f := run.outcome.value.fields;
             && f.response.Present? && f.classification.Present?
             && f.classification.value.task.Present? && f.classification.value.choiceSummary.Present?
             && f.searchResults == Present(None)
    ensures var x := Logged(docs, taskId, prompt, run, clock);
            && x.outcome == Fail(SearchResultsNotAList)
            && x.docs[taskId].status == Some(Failed)
            && x.docs[taskId].finalResponse == Some("ERROR: " + SearchResultsNotAList)
  {
    ExecutionRecord(docs, taskId, prompt, run, clock);
    FailedRecord(docs, taskId, prompt, run, clock);
  }

  /** A content task whose search fails runs to the end, but its `search_results` key
      holds `None`, which the completed end log rejects: the job is logged as failed,
      after all three steps, with the validation error (or with the missing
      `choice_summary`, which is read first). */
  lemma FailedSearchFailsTask(m: Llm, results: (string, nat) -> Result<seq<SearchResult>>, docs: Collection,
                              prompt: string, taskId: string, summary: Entry<string>, query: string, answer: string,
                              clock: nat -> int)
    requires taskId !in docs
    requires m.classify(prompt) == Ok(Verdict(Present(Content), summary))
    requires m.invoke(SearchQueryRequest(prompt)) == Ok(query)
    requires results(query, TopK).Err?
    requires m.invoke(ContentRequest(prompt, "")) == Ok(answer)
    ensures var x := Execute(docs, Some(m), Configured(results), taskId, prompt, clock);
            var d := x.docs[taskId];
            && x.outcome == Fail(if summary.Present? then SearchResultsNotAList else KeyError("choice_summary"))
            && d.status == Some(Failed)
            && d.trajectory == Some([TaskStep("task_classification", clock(0)), TaskStep("content", clock(1)),
                                     TaskStep("content_post_web_search", clock(2))])
  {
    var run := Run(Some(m), Configured(results), Initial(prompt, taskId));
    SearchFailureTolerated(m, results, prompt, taskId, summary, query, answer);
    ExecutionRecord(docs, taskId, prompt, run, clock);
    if summary.Present? {
      NoneResultsFailTask(docs, taskId, prompt, run, clock);
    }
    ContentPathSteps(clock);
  }

  /** When the model raises on classification, no node completes: the job is logged as
      failed with the model's error and an empty trajectory, and raises that error. */
  lemma ClassifierErrorFailsTask(m: Llm, docs: Collection, search: SearchBackend, taskId: string, prompt: string,
                                 e: string, clock: nat -> int)
    requires taskId !in docs
    requires m.classify(prompt) == Err(e)
    ensures var x := Execute(docs, Some(m), search, taskId, prompt, clock);
            var d := x.docs[taskId];
            && x.outcome == Fail(e)
            && d.status == Some(Failed)
            && d.trajectory == Some([])
            && d.finalResponse == Some("ERROR: " + e)
  {
    var run := Run(Some(m), search, Initial(prompt, taskId));
    RunFollowsPath(Some(m), search, Initial(prompt, taskId));
    ExecutionRecord(docs, taskId, prompt, run, clock);
    FailedRecord(docs, taskId, prompt, run, clock);
  }
}
