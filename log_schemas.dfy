/** The three write shapes of the trajectory log (core/log_schemas.py): the document
    inserted when a task starts, the fields set when it ends, and the step pushed
    for every node. Defaults of the schemas are the functions' fixed values. */
module LogSchemas {
  import opened Wrappers
  import opened WebSearch

  /** One node transition: the node's name and when it was logged (`datetime.now`,
      supplied by the caller). */
  datatype TaskStep = TaskStep(node: string, timestamp: int)

  /** The document inserted at task start. */
  datatype TaskLogEntry = TaskLogEntry(
    taskId: string,
    prompt: string,
    status: string,
    currentEvent: string,
    webSearchQuery: Option<string>,
    searchResults: seq<SearchResult>,
    trajectory: seq<TaskStep>,
    finalResponse: Option<string>,
    task: Option<string>,
    taskChoiceSummary: Option<string>)

  const InProgress := "In Progress"
  const StartEvent := "START"
  const EndEvent := "END"
  const Completed := "Completed"

  /** `TaskLogEntry(task_id=..., prompt=...)`: every other field takes its default. */
  function NewTaskLogEntry(taskId: string, prompt: string): (e: TaskLogEntry)
    ensures e.taskId == taskId && e.prompt == prompt
    ensures e.status == "In Progress" && e.currentEvent == "START"
    ensures e.searchResults == [] && e.trajectory == []
    ensures e.webSearchQuery.None? && e.finalResponse.None? && e.task.None? && e.taskChoiceSummary.None?
  {
    TaskLogEntry(taskId, prompt, InProgress, StartEvent, None, [], [], None, None, None)
  }

  /** The fields `$set` when a task ends. `searchResults` is a required list. */
  datatype TaskLogEndUpdate = TaskLogEndUpdate(
    currentEvent: string,
    finalResponse: Option<string>,
    task: Option<string>,
    taskChoiceSummary: Option<string>,
    searchQuery: Option<string>,
    searchResults: seq<SearchResult>,
    status: string)

  /** The first lines of the validation error raised when `search_results` is `None`. */
  const SearchResultsNotAList :=
    "1 validation error for TaskLogEndUpdate\nsearch_results\n  Input should be a valid list"

  /** `TaskLogEndUpdate(...)` with validation. `searchResults` is the Python value passed
      (`None` is not a list); `status` is `None` when the argument is not given, so that
      the default applies. The current event is never passed and is always "END". */
  function NewTaskLogEndUpdate(
    finalResponse: Option<string>, task: Option<string>, taskChoiceSummary: Option<string>,
    searchQuery: Option<string>, searchResults: Option<seq<SearchResult>>, status: Option<string>)
    : (r: Result<TaskLogEndUpdate>)
    ensures r.Ok? <==> searchResults.Some?
    ensures r.Err? ==> r.msg == SearchResultsNotAList
    ensures r.Ok? ==> r.value.currentEvent == "END"
    ensures r.Ok? ==> r.value.status == (if status.Some? then status.value else "Completed")
    ensures r.Ok? ==> r.value.searchResults == searchResults.value
    ensures r.Ok? ==> r.value.finalResponse == finalResponse && r.value.task == task
                      && r.value.taskChoiceSummary == taskChoiceSummary && r.value.searchQuery == searchQuery
  {
    match searchResults
    case None => Err(SearchResultsNotAList)
    case Some(results) =>
      Ok(TaskLogEndUpdate(EndEvent, finalResponse, task, taskChoiceSummary, searchQuery,
                          results, status.GetOr(Completed)))
  }

  /** The `$push` payload: exactly one step. */
  datatype TaskLogStepPush = TaskLogStepPush(trajectory: TaskStep)

  /** `TaskLogStepPush(trajectory=TaskStep(node=...))`, the timestamp taken at `now`. */
  function NewTaskLogStepPush(node: string, now: int): (p: TaskLogStepPush)
    ensures p.trajectory.node == node && p.trajectory.timestamp == now
  {
    TaskLogStepPush(TaskStep(node, now))
  }
}
