/** The trajectory store (core/mongodb_logger.py): a collection of documents keyed by
    task id, written by insert at start, by `$push` of one step per node and by `$set`
    of the end fields, both with upsert, and read by task id. */
module MongoDBLog {
  import opened Wrappers
  import opened WebSearch
  import opened LogSchemas
  import opened GraphState

  /** A stored document. Only the key is always there: an upsert creates a document
      holding nothing but `task_id` and what the update writes. */
  datatype Record = Record(
    taskId: string,
    prompt: Option<string>,
    status: Option<string>,
    currentEvent: Option<string>,
    webSearchQuery: Option<string>,
    searchQuery: Option<string>,
    searchResults: Option<seq<SearchResult>>,
    trajectory: Option<seq<TaskStep>>,
    finalResponse: Option<string>,
    task: Option<string>,
    taskChoiceSummary: Option<string>)

  type Collection = map<string, Record>

  /** Every document sits under its own task id. */
  predicate WellKeyed(docs: Collection) {
    forall id :: id in docs ==> docs[id].taskId == id
  }

  /** The document an upsert starts from: only the filter's `task_id`. */
  function Blank(taskId: string): Record {
    Record(taskId, None, None, None, None, None, None, None, None, None, None)
  }

  /** The document an update with upsert applies to. */
  function Existing(docs: Collection, taskId: string): Record {
    if taskId in docs then docs[taskId] else Blank(taskId)
  }

  /** The steps recorded so far for a task (none when there is no document). */
  function Trajectory(docs: Collection, taskId: string): seq<TaskStep> {
    Existing(docs, taskId).trajectory.GetOr([])
  }

  /** `find_one({"task_id": task_id})` */
  function Find(docs: Collection, taskId: string): (r: Option<Record>)
    ensures r.None? <==> taskId !in docs
    ensures r.Some? ==> r.value == docs[taskId]
  {
    if taskId in docs then Some(docs[taskId]) else None
  }

  /** `model_dump(exclude_none=True)` of a start entry: fields holding `None` are not stored. */
  function Dump(e: TaskLogEntry): Record {
    Record(e.taskId, Some(e.prompt), Some(e.status), Some(e.currentEvent), e.webSearchQuery, None,
           Some(e.searchResults), Some(e.trajectory), e.finalResponse, e.task, e.taskChoiceSummary)
  }

  /** `insert_one` of a start entry under a task id not yet in the collection. */
  function Inserted(docs: Collection, e: TaskLogEntry): (d: Collection)
    requires e.taskId !in docs
    ensures d.Keys == docs.Keys + {e.taskId}
    ensures forall id :: id in docs ==> d[id] == docs[id]
    ensures d[e.taskId] == Dump(e)
    ensures WellKeyed(docs) ==> WellKeyed(d)
  {
    docs[e.taskId := Dump(e)]
  }

  /** `$push` of one step onto a document's trajectory, with upsert. */
  function Pushed(docs: Collection, taskId: string, step: TaskStep): Collection {
    var r := Existing(docs, taskId);
    docs[taskId := r.(trajectory := Some(r.trajectory.GetOr([]) + [step]))]
  }

  /** A `$push` appends exactly one step to the end of that task's trajectory, creating
      the document when there is none; every other field and every other document is
      unchanged. */
  lemma PushAppendsOneStep(docs: Collection, taskId: string, step: TaskStep)
    ensures var d := Pushed(docs, taskId, step);
            && d.Keys == docs.Keys + {taskId}
            && (forall id :: id in docs && id != taskId ==> d[id] == docs[id])
            && Trajectory(d, taskId) == Trajectory(docs, taskId) + [step]
            && d[taskId] == Existing(docs, taskId).(trajectory := d[taskId].trajectory)
            && (WellKeyed(docs) ==> WellKeyed(d))
  {
  }

  /** One `$push` per step, in order. */
  function PushedAll(docs: Collection, taskId: string, steps: seq<TaskStep>): Collection
    decreases |steps|
  {
    if steps == [] then docs
    else Pushed(PushedAll(docs, taskId, steps[..|steps| - 1]), taskId, steps[|steps| - 1])
  }

  /** A run of pushes appends its steps, in order, to the task's trajectory and touches
      nothing else. */
  lemma {:induction false} PushesAppendInOrder(docs: Collection, taskId: string, steps: seq<TaskStep>)
    ensures var d := PushedAll(docs, taskId, steps);
            && d.Keys == docs.Keys + (if steps == [] then {} else {taskId})
            && (forall id :: id in docs && id != taskId ==> d[id] == docs[id])
            && Trajectory(d, taskId) == Trajectory(docs, taskId) + steps
            && (steps != [] ==> d[taskId] == Existing(docs, taskId).(trajectory := d[taskId].trajectory))
            && (WellKeyed(docs) ==> WellKeyed(d))
    decreases |steps|
  {
    if steps != [] {
      var init := steps[..|steps| - 1];
      PushesAppendInOrder(docs, taskId, init);
      PushAppendsOneStep(PushedAll(docs, taskId, init), taskId, steps[|steps| - 1]);
      assert init + [steps[|steps| - 1]] == steps;
    }
  }

  /** `$set` of the end fields, with upsert. `model_dump(exclude_none=True)` drops the
      fields that hold `None`, so those keep what the document had. */
  function EndSet(docs: Collection, taskId: string, u: TaskLogEndUpdate): (d: Collection)
    ensures d.Keys == docs.Keys + {taskId}
    ensures forall id :: id in docs && id != taskId ==> d[id] == docs[id]
    ensures d[taskId].status == Some(u.status) && d[taskId].currentEvent == Some(u.currentEvent)
    ensures d[taskId].searchResults == Some(u.searchResults)
    ensures d[taskId].finalResponse == (if u.finalResponse.Some? then u.finalResponse else Existing(docs, taskId).finalResponse)
    ensures d[taskId].task == (if u.task.Some? then u.task else Existing(docs, taskId).task)
    ensures d[taskId].taskChoiceSummary == (if u.taskChoiceSummary.Some? then u.taskChoiceSummary else Existing(docs, taskId).taskChoiceSummary)
    ensures d[taskId].searchQuery == (if u.searchQuery.Some? then u.searchQuery else Existing(docs, taskId).searchQuery)
    ensures d[taskId].trajectory == Existing(docs, taskId).trajectory
    ensures d[taskId].prompt == Existing(docs, taskId).prompt
    ensures d[taskId].webSearchQuery == Existing(docs, taskId).webSearchQuery
    ensures WellKeyed(docs) ==> WellKeyed(d)
  {
    var r := Existing(docs, taskId);
    docs[taskId := r.(
      currentEvent := Some(u.currentEvent),
      status := Some(u.status),
      searchResults := Some(u.searchResults),
      finalResponse := if u.finalResponse.Some? then u.finalResponse else r.finalResponse,
      task := if u.task.Some? then u.task else r.task,
      taskChoiceSummary := if u.taskChoiceSummary.Some? then u.taskChoiceSummary else r.taskChoiceSummary,
      searchQuery := if u.searchQuery.Some? then u.searchQuery else r.searchQuery)]
  }

  /** `str(KeyError(key))` */
  function KeyError(key: string): string {
    "'" + key + "'"
  }

  /** The end update `log_task_end` builds from a final state: the response's text,
      the classification's tag and summary, the search query (default "n/a") and the
      search results (default an empty list). A missing key raises `KeyError`; a
      `search_results` key holding `None` fails validation. */
  function EndUpdateOf(finalState: Fields, finalStatus: string): (r: Result<TaskLogEndUpdate>)
    ensures r.Ok? <==> && finalState.response.Present?
                       && finalState.classification.Present?
                       && finalState.classification.value.task.Present?
                       && finalState.classification.value.choiceSummary.Present?
                       && finalState.searchResults != Present(None)
    ensures r.Ok? ==> && r.value.status == finalStatus && r.value.currentEvent == "END"
                      && r.value.finalResponse == Some(ResponseText(finalState.response.value))
                      && r.value.task == Some(finalState.classification.value.task.value)
                      && r.value.taskChoiceSummary == Some(finalState.classification.value.choiceSummary.value)
                      && r.value.searchQuery == Some(finalState.searchQuery.GetOr("n/a"))
                      && r.value.searchResults == (if finalState.searchResults.Present? then finalState.searchResults.value.value else [])
    ensures finalState.response.Absent? ==> r == Err(KeyError("response"))
    ensures finalState.response.Present? && finalState.classification.Absent? ==>
              r == Err(KeyError("task_classification"))
    ensures finalState.response.Present? && finalState.classification.Present?
            && finalState.classification.value.task.Absent? ==>
              r == Err(KeyError("task"))
    ensures finalState.response.Present? && finalState.classification.Present?
            && finalState.classification.value.task.Present?
            && finalState.classification.value.choiceSummary.Absent? ==>
              r == Err(KeyError("choice_summary"))
    ensures finalState.response.Present? && finalState.classification.Present?
            && finalState.classification.value.task.Present?
            && finalState.classification.value.choiceSummary.Present?
            && finalState.searchResults == Present(None) ==>
              r == Err(SearchResultsNotAList)
  {
    match finalState.response
    case Absent => Err(KeyError("response"))
    case Present(response) =>
      match finalState.classification
      case Absent => Err(KeyError("task_classification"))
      case Present(c) =>
        match c.task
        case Absent => Err(KeyError("task"))
        case Present(task) =>
          match c.choiceSummary
          case Absent => Err(KeyError("choice_summary"))
          case Present(summary) =>
            NewTaskLogEndUpdate(Some(ResponseText(response)), Some(task), Some(summary),
                                Some(finalState.searchQuery.GetOr("n/a")),
                                finalState.searchResults.GetOr(Some([])), Some(finalStatus))
  }

  /** `MongoDBLogger` over an in-memory collection. */
  class Logger {
    var docs: Collection

    ghost predicate Valid()
      reads this
    {
      WellKeyed(docs)
    }

    /** A logger attached to a collection that already holds `collection`. */
    constructor (collection: Collection)
      requires WellKeyed(collection)
      ensures Valid() && docs == collection
    {
      docs := collection;
    }

    /** `log_task_start`: insert the start entry, all other fields at their defaults. */
    method LogTaskStart(taskId: string, prompt: string)
      requires Valid() && taskId !in docs
      modifies this
      ensures Valid()
      ensures docs == Inserted(old(docs), NewTaskLogEntry(taskId, prompt))
      ensures docs[taskId].status == Some("In Progress") && docs[taskId].currentEvent == Some("START")
      ensures docs[taskId].trajectory == Some([]) && docs[taskId].searchResults == Some([])
      ensures docs[taskId].prompt == Some(prompt) && docs[taskId].webSearchQuery.None?
    {
      var entry := NewTaskLogEntry(taskId, prompt);
      docs := Inserted(docs, entry);
    }

    /** `log_task_end`: set the end fields with upsert, or raise (and write nothing)
        when the final state lacks a key or fails validation. */
    method LogTaskEnd(taskId: string, finalState: Fields, finalStatus: string) returns (r: Outcome)
      requires Valid()
      modifies this
      ensures Valid()
      ensures r.Pass? <==> EndUpdateOf(finalState, finalStatus).Ok?
      ensures r.Fail? ==> r.error == EndUpdateOf(finalState, finalStatus).msg && docs == old(docs)
      ensures r.Pass? ==> docs == EndSet(old(docs), taskId, EndUpdateOf(finalState, finalStatus).value)
    {
      var update := EndUpdateOf(finalState, finalStatus);
      match update
      case Err(msg) =>
        r := Fail(msg);
      case Ok(u) =>
        docs := EndSet(docs, taskId, u);
        r := Pass;
    }

    /** `log_step`: push one step named `nodeName` onto the task's trajectory, with upsert. */
    method LogStep(taskId: string, nodeName: string, now: int)
      requires Valid()
      modifies this
      ensures Valid()
      ensures docs == Pushed(old(docs), taskId, NewTaskLogStepPush(nodeName, now).trajectory)
    {
      var push := NewTaskLogStepPush(nodeName, now);
      PushAppendsOneStep(docs, taskId, push.trajectory);
      docs := Pushed(docs, taskId, push.trajectory);
    }

    /** `get_task_by_id`: the document, or `None`. Reads only. */
    method GetTaskById(taskId: string) returns (r: Option<Record>)
      requires Valid()
      ensures r.None? <==> taskId !in docs
      ensures r.Some? ==> r.value == docs[taskId] && r.value.taskId == taskId
    {
      r := Find(docs, taskId);
    }
  }
}
