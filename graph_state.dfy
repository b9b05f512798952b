/** The state dictionary threaded through the agent graph (`ToyAgentFrameworkState` and
    `TaskClassification` in core/agent_graph.py) and the strategy tags (`AGENTS`). */
module GraphState {
  import opened Wrappers
  import opened WebSearch

  /** `AGENTS`: the four handling strategies the classifier may choose. */
  datatype Strategy = General | Code | Summarize | Content

  function StrategyName(s: Strategy): string {
    match s
    case General => "general"
    case Code => "code"
    case Summarize => "summarize"
    case Content => "content"
  }

  /** `DEFAULT_TASK` */
  const DefaultTask: Strategy := General

  /** A classification as stored in the state. Either key may be missing when the
      language model produced it; the driver's error record uses the tag "error",
      which is not a strategy, so the tag is kept as text. */
  datatype Classification = Classification(task: Entry<string>, choiceSummary: Entry<string>)

  /** A node's response: a plain string (no language model) or a chat message whose
      text is its `content`. */
  datatype Response = Text(text: string) | Message(content: string)

  /** `getattr(response, 'content', response)` */
  function ResponseText(r: Response): string {
    match r
    case Message(c) => c
    case Text(t) => t
  }

  /** The keys of the state that nodes write. Each may be missing; `searchResults`
      may be present and hold `None` (after a failed search). */
  datatype Fields = Fields(
    classification: Entry<Classification>,
    searchQuery: Entry<string>,
    searchResults: Entry<Option<seq<SearchResult>>>,
    response: Entry<Response>)

  const NoFields := Fields(Absent, Absent, Absent, Absent)

  /** The whole state: the prompt and the task id, set once when the run starts,
      and the keys the nodes write. */
  datatype State = State(prompt: string, taskId: string, fields: Fields)
}
