/** The HTTP front end (api/app.py): `execute_task` queues a job under a fresh task id and
    answers at once; `get_task_status` projects the task's document into a reply. */
module Api {
  import opened Wrappers
  import opened WebSearch
  import opened LogSchemas
  import opened MongoDBLog
  import opened AgentGraph
  import opened WorkerTasks

  const Unknown := "Unknown"
  const Queued := "QUEUED"
  const QueuedPrefix := "Task received and queued. Task ID: "
  const QueuedSuffix := ". Check logs or a status endpoint for results."

  /** `TaskStatusOutput`. The schema has no `search_results` field, so the results the
      endpoint passes in are dropped from the reply. */
  datatype StatusReply = StatusReply(taskId: string, finalResponse: Option<string>, status: string)

  /** `get_task_status` on the document found for `taskId` (or none): an unknown task, or
      a document without a status, reads `Unknown`; only the statuses `Completed` and
      `Error` expose the final response. */
  function GetTaskStatus(taskId: string, found: Option<Record>): (r: StatusReply)
    ensures r.taskId == taskId
    ensures r.status == (if found.Some? && found.value.status.Some? then found.value.status.value else Unknown)
    ensures r.finalResponse.Some? ==> (r.status == "Completed" || r.status == "Error")
    ensures (r.status == "Completed" || r.status == "Error") ==> r.finalResponse == found.value.finalResponse
  {
    var status := if found.None? then Unknown else found.value.status.GetOr(Unknown);
    if status == "Completed" || status == "Error" then
      StatusReply(taskId, found.value.finalResponse, status)
    else
      StatusReply(taskId, None, status)
  }

  /** The endpoint against a logger: look the document up, then project it. Reads only. */
  method TaskStatus(log: Logger, taskId: string) returns (reply: StatusReply)
    requires log.Valid()
    ensures reply == GetTaskStatus(taskId, Find(log.docs, taskId))
    ensures taskId !in log.docs ==> reply == StatusReply(taskId, None, Unknown)
  {
    var taskData := log.GetTaskById(taskId);
    reply := GetTaskStatus(taskId, taskData);
  }

  /** The job handed to the queue: its arguments and the queue's own task id. */
  datatype Job = Job(args: seq<string>, queueTaskId: string)

  /** `AgentExecuteOutput` */
  datatype ExecuteReply = ExecuteReply(taskId: string, status: string, message: string)

  /** `execute_task` with `newTaskId` the freshly generated id: queue the job on
      `(newTaskId, task)` under that same id, and tell the client the id. */
  function ExecuteTask(newTaskId: string, task: string): (r: (Job, ExecuteReply))
    ensures r.0.args == [newTaskId, task] && r.0.queueTaskId == r.1.taskId == newTaskId
    ensures r.1.status == Queued
    ensures var m := r.1.message;
            && |m| == |QueuedPrefix| + |newTaskId| + |QueuedSuffix|
            && m[|QueuedPrefix|..|QueuedPrefix| + |newTaskId|] == newTaskId
  {
    (Job([newTaskId, task], newTaskId), ExecuteReply(newTaskId, Queued, QueuedPrefix + newTaskId + QueuedSuffix))
  }

  /** The worker running the queued job, seen from the collection it starts from. */
  function Work(docs: Collection, llm: Option<Llm>, search: SearchBackend, job: Job, clock: nat -> int): Execution
    requires |job.args| == 2 && job.args[0] !in docs
  {
    Execute(docs, llm, search, job.args[0], job.args[1], clock)
  }

  // ---------------------------------------------------------------- what a client sees

  /** Before the worker has written the document, the id the client was given reads
      `Unknown`. */
  lemma StatusBeforeWork(docs: Collection, newTaskId: string, task: string)
    requires newTaskId !in docs
    ensures GetTaskStatus(ExecuteTask(newTaskId, task).1.taskId, Find(docs, newTaskId))
            == StatusReply(newTaskId, None, Unknown)
  {
  }

  /** While the worker is running, before it logs the end, the id the client was given
      reads `In Progress` with no response, however many steps have been logged. */
  lemma StatusDuringWork(docs: Collection, newTaskId: string, task: string, steps: seq<TaskStep>)
    requires newTaskId !in docs
    ensures var reply := ExecuteTask(newTaskId, task).1;
            var d := PushedAll(Inserted(docs, NewTaskLogEntry(newTaskId, task)), newTaskId, steps);
            GetTaskStatus(reply.taskId, Find(d, reply.taskId)) == StatusReply(newTaskId, None, InProgress)
  {
    StartThenSteps(docs, newTaskId, task, steps);
  }

  /** After the worker has run the queued job, the id the client was given reads
      `Completed` with the stored final response when the job succeeded, and `Failed`
      with no response when it raised: the error text in the document is never shown. */
  lemma StatusAfterWork(docs: Collection, llm: Option<Llm>, search: SearchBackend, newTaskId: string, task: string,
                        clock: nat -> int)
    requires newTaskId !in docs
    ensures var (job, reply) := ExecuteTask(newTaskId, task);
            var x := Work(docs, llm, search, job, clock);
            var status := GetTaskStatus(reply.taskId, Find(x.docs, reply.taskId));
            && status.status == (if x.outcome.Pass? then "Completed" else Failed)
            && (x.outcome.Pass? ==> status.finalResponse == x.docs[newTaskId].finalResponse
                                    && status.finalResponse.Some?)
            && (x.outcome.Fail? ==> status.finalResponse.None?)
  {
    var run := Run(llm, search, Initial(task, newTaskId));
    ExecutionRecord(docs, newTaskId, task, run, clock);
    CompletedRecord(docs, newTaskId, task, run, clock);
  }

  /** Without a language model a queued task ends up reading `Completed` with the
      placeholder answer. */
  lemma NoLlmStatus(docs: Collection, search: SearchBackend, newTaskId: string, task: string, clock: nat -> int)
    requires newTaskId !in docs
    ensures var (job, reply) := ExecuteTask(newTaskId, task);
            var x := Work(docs, None, search, job, clock);
            GetTaskStatus(reply.taskId, Find(x.docs, reply.taskId))
            == StatusReply(newTaskId, Some(Placeholder), "Completed")
  {
    NoLlmExecution(docs, search, newTaskId, task, clock);
  }
}
