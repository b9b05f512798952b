/** The classification-and-dispatch graph (core/agent_graph.py): six nodes, the
    classifier's dynamic routing, the fixed edges of `build_graph`, and a run as the
    sequence of nodes visited. Each node computes a partial update of the state and
    logs one step to the trajectory store. The language model and the search provider
    are oracles passed in; with no language model every node is deterministic. */
module AgentGraph {
  import opened Wrappers
  import opened WebSearch
  import opened GraphState
  import opened LogSchemas
  import opened MongoDBLog

  // ---------------------------------------------------------------- capabilities

  /** What a node asks the language model, naming the inputs its prompt template
      embeds. The general node passes the prompt as given; the others wrap it. */
  datatype Request =
    | GeneralRequest(prompt: string)
    | CodeRequest(prompt: string)
    | SummarizeRequest(prompt: string)
    | SearchQueryRequest(prompt: string)
    | ContentRequest(prompt: string, sources: string)

  /** The structured classification the language model returns. Its schema limits
      the tag to the four strategies; either key may still be missing. */
  datatype Verdict = Verdict(task: Entry<Strategy>, choiceSummary: Entry<string>)

  /** A configured language model: the structured classifier and plain invocation
      (answering with the reply message's text). Either call may raise. */
  datatype Llm = Llm(classify: string -> Result<Verdict>, invoke: Request -> Result<string>)

  // ---------------------------------------------------------------- nodes and edges

  datatype Node =
    | ClassifierNode
    | GeneralNode
    | CodeNode
    | SummarizeNode
    | ContentNode
    | ContentPostWebSearchNode

  /** The name each node is registered under in `build_graph`. */
  function NodeName(n: Node): string {
    match n
    case ClassifierNode => "task_classification"
    case GeneralNode => "general"
    case CodeNode => "code"
    case SummarizeNode => "summarize"
    case ContentNode => "content"
    case ContentPostWebSearchNode => "content_post_web_search"
  }

  /** The node the classifier's `goto` names. */
  function StrategyNode(s: Strategy): (n: Node)
    ensures NodeName(n) == StrategyName(s)
    ensures n != ClassifierNode && n != ContentPostWebSearchNode
  {
    match s
    case General => GeneralNode
    case Code => CodeNode
    case Summarize => SummarizeNode
    case Content => ContentNode
  }

  datatype Target = Goto(node: Node) | Finish

  /** Distance to the end of the graph; every edge lowers it. */
  function Height(n: Node): nat {
    match n
    case ClassifierNode => 2
    case ContentNode => 1
    case _ => 0
  }

  /** The transition function: after the classifier, the node its routing decision
      names; after `content`, `content_post_web_search`; after every other node, the end. */
  function Next(n: Node, route: Strategy): (t: Target)
    ensures t.Goto? ==> Height(t.node) < Height(n)
    ensures n == ClassifierNode ==> t.Goto? && NodeName(t.node) == StrategyName(route)
    ensures n == ContentNode ==> t == Goto(ContentPostWebSearchNode)
    ensures n !in {ClassifierNode, ContentNode} ==> t == Finish
    ensures t.Goto? ==> t.node != ClassifierNode
  {
    match n
    case ClassifierNode => Goto(StrategyNode(route))
    case ContentNode => Goto(ContentPostWebSearchNode)
    case _ => Finish
  }

  /** The nodes a run entered at `n` passes through when the classifier chose `route`. */
  function Walk(n: Node, route: Strategy): seq<Node>
    decreases Height(n)
  {
    [n] + match Next(n, route)
          case Goto(m) => Walk(m, route)
          case Finish => []
  }

  /** The full path of a run whose classifier chose `route`. */
  function Path(route: Strategy): seq<Node> {
    Walk(ClassifierNode, route)
  }

  // ---------------------------------------------------------------- state updates

  datatype StateKey = ClassificationKey | SearchQueryKey | SearchResultsKey | ResponseKey

  /** The keys an update writes. */
  function Writes(u: Fields): set<StateKey> {
    (if u.classification.Present? then {ClassificationKey} else {})
    + (if u.searchQuery.Present? then {SearchQueryKey} else {})
    + (if u.searchResults.Present? then {SearchResultsKey} else {})
    + (if u.response.Present? then {ResponseKey} else {})
  }

  /** The keys each node owns. */
  function Owns(n: Node): set<StateKey> {
    match n
    case ClassifierNode => {ClassificationKey}
    case ContentNode => {SearchQueryKey, SearchResultsKey}
    case _ => {ResponseKey}
  }

  /** Merge a node's update into the state: written keys are overwritten, the rest,
      the prompt and the task id are kept. */
  function Apply(s: State, u: Fields): (t: State)
    ensures t.prompt == s.prompt && t.taskId == s.taskId
    ensures ClassificationKey in Writes(u) ==> t.fields.classification == u.classification
    ensures ClassificationKey !in Writes(u) ==> t.fields.classification == s.fields.classification
    ensures SearchQueryKey in Writes(u) ==> t.fields.searchQuery == u.searchQuery
    ensures SearchQueryKey !in Writes(u) ==> t.fields.searchQuery == s.fields.searchQuery
    ensures SearchResultsKey in Writes(u) ==> t.fields.searchResults == u.searchResults
    ensures SearchResultsKey !in Writes(u) ==> t.fields.searchResults == s.fields.searchResults
    ensures ResponseKey in Writes(u) ==> t.fields.response == u.response
    ensures ResponseKey !in Writes(u) ==> t.fields.response == s.fields.response
  {
    State(s.prompt, s.taskId, Fields(
      if u.classification.Present? then u.classification else s.fields.classification,
      if u.searchQuery.Present? then u.searchQuery else s.fields.searchQuery,
      if u.searchResults.Present? then u.searchResults else s.fields.searchResults,
      if u.response.Present? then u.response else s.fields.response))
  }

  /** A node's result: its update, the node name it passed to `log_step`, and (for the
      classifier only) its routing decision. */
  datatype NodeResult = NodeResult(update: Fields, logged: string, goto: Option<Strategy>)

  /** The response of every node when no language model is configured. */
  const Placeholder := "Hi, I am the general task agent!"
  const DefaultChoiceSummary := "default choice when no llm is used"

  function DefaultClassification(): Classification {
    Classification(Present(StrategyName(DefaultTask)), Present(DefaultChoiceSummary))
  }

  /** The classification as stored: the tag's text, both keys as the model gave them. */
  function Stored(v: Verdict): Classification {
    Classification(if v.task.Present? then Present(StrategyName(v.task.value)) else Absent, v.choiceSummary)
  }

  /** `classify_task`: ask the model for a classification (or use the default one) and
      route to the node its tag names, to `general` when the tag is missing. */
  function ClassifyTask(llm: Option<Llm>, s: State): (r: Result<NodeResult>)
    ensures llm.Some? ==> (r.Err? <==> llm.value.classify(s.prompt).Err?)
    ensures llm.None? ==> r == Ok(NodeResult(NoFields.(classification := Present(DefaultClassification())),
                                             "task_classification", Some(General)))
    ensures r.Ok? ==> r.value.logged == "task_classification" && r.value.goto.Some?
    ensures r.Ok? ==> Writes(r.value.update) == {ClassificationKey}
    ensures r.Ok? ==> var c := r.value.update.classification.value;
                      if c.task.Present? then c.task.value == StrategyName(r.value.goto.value)
                      else r.value.goto == Some(General)
    ensures llm.Some? && llm.value.classify(s.prompt).Err? ==> r == Err(llm.value.classify(s.prompt).msg)
    ensures llm.Some? && llm.value.classify(s.prompt).Ok? ==>
              var v := llm.value.classify(s.prompt).value;
              r == Ok(NodeResult(NoFields.(classification := Present(Stored(v))),
                                 "task_classification", Some(v.task.GetOr(DefaultTask))))
  {
    match llm
    case None =>
      Ok(NodeResult(NoFields.(classification := Present(DefaultClassification())),
                    "task_classification", Some(DefaultTask)))
    case Some(m) =>
      match m.classify(s.prompt)
      case Err(e) => Err(e)
      case Ok(v) =>
        Ok(NodeResult(NoFields.(classification := Present(Stored(v))),
                      "task_classification", Some(v.task.GetOr(DefaultTask))))
  }

  /** The shared shape of the answering nodes: invoke the model on `request`, or answer
      with the placeholder, and write only `response`. */
  function Answer(llm: Option<Llm>, request: Request, logged: string): (r: Result<NodeResult>)
    ensures llm.None? ==> r == Ok(NodeResult(NoFields.(response := Present(Text(Placeholder))), logged, None))
    ensures llm.Some? ==> match llm.value.invoke(request)
                          case Ok(c) => r == Ok(NodeResult(NoFields.(response := Present(Message(c))), logged, None))
                          case Err(e) => r == Err(e)
    ensures r.Ok? ==> Writes(r.value.update) == {ResponseKey} && r.value.logged == logged && r.value.goto.None?
  {
    match llm
    case None => Ok(NodeResult(NoFields.(response := Present(Text(Placeholder))), logged, None))
    case Some(m) =>
      match m.invoke(request)
      case Err(e) => Err(e)
      case Ok(c) => Ok(NodeResult(NoFields.(response := Present(Message(c))), logged, None))
  }

  /** `general_task`: the prompt itself goes to the model. The reply becomes the response and the
      node logs itself as `general`; a failing model call propagates. */
  function GeneralTask(llm: Option<Llm>, s: State): (r: Result<NodeResult>)
    ensures llm.None? ==> r.Ok? && r.value.update.response == Present(Text(Placeholder))
    ensures llm.Some? && llm.value.invoke(GeneralRequest(s.prompt)).Ok? ==>
              r.Ok? && r.value.update.response == Present(Message(llm.value.invoke(GeneralRequest(s.prompt)).value))
    ensures llm.Some? && llm.value.invoke(GeneralRequest(s.prompt)).Err? ==>
              r == Err(llm.value.invoke(GeneralRequest(s.prompt)).msg)
    ensures r.Ok? ==> r.value.logged == "general" && Writes(r.value.update) == {ResponseKey} && r.value.goto.None?
  {
    Answer(llm, GeneralRequest(s.prompt), "general")
  }

  /** `coding_task`: the prompt goes to the model inside the coding template. The reply becomes the response and the
      node logs itself as `code`; a failing model call propagates. */
  function CodingTask(llm: Option<Llm>, s: State): (r: Result<NodeResult>)
    ensures llm.None? ==> r.Ok? && r.value.update.response == Present(Text(Placeholder))
    ensures llm.Some? && llm.value.invoke(CodeRequest(s.prompt)).Ok? ==>
              r.Ok? && r.value.update.response == Present(Message(llm.value.invoke(CodeRequest(s.prompt)).value))
    ensures llm.Some? && llm.value.invoke(CodeRequest(s.prompt)).Err? ==>
              r == Err(llm.value.invoke(CodeRequest(s.prompt)).msg)
    ensures r.Ok? ==> r.value.logged == "code" && Writes(r.value.update) == {ResponseKey} && r.value.goto.None?
  {
    Answer(llm, CodeRequest(s.prompt), "code")
  }

  /** `summarizing_task`: the prompt goes to the model inside the summarizing template. The reply becomes the response and the
      node logs itself as `summarize`; a failing model call propagates. */
  function SummarizingTask(llm: Option<Llm>, s: State): (r: Result<NodeResult>)
    ensures llm.None? ==> r.Ok? && r.value.update.response == Present(Text(Placeholder))
    ensures llm.Some? && llm.value.invoke(SummarizeRequest(s.prompt)).Ok? ==>
              r.Ok? && r.value.update.response == Present(Message(llm.value.invoke(SummarizeRequest(s.prompt)).value))
    ensures llm.Some? && llm.value.invoke(SummarizeRequest(s.prompt)).Err? ==>
              r == Err(llm.value.invoke(SummarizeRequest(s.prompt)).msg)
    ensures r.Ok? ==> r.value.logged == "summarize" && Writes(r.value.update) == {ResponseKey} && r.value.goto.None?
  {
    Answer(llm, SummarizeRequest(s.prompt), "summarize")
  }

  /** `content_web_searching_task`: derive a query (the prompt itself when there is no
      model), build the search wrapper, and search. A failing search is caught and
      leaves `search_results` holding `None`; a failing model call or wrapper
      construction propagates. */
  function ContentWebSearchingTask(llm: Option<Llm>, search: SearchBackend, s: State): (r: Result<NodeResult>)
    ensures r.Ok? ==> Writes(r.value.update) == {SearchQueryKey, SearchResultsKey}
                      && r.value.logged == "content" && r.value.goto.None?
    ensures llm.None? && r.Ok? ==> r.value.update.searchQuery == Present(s.prompt)
    ensures (llm.None? || llm.value.invoke(SearchQueryRequest(s.prompt)).Ok?) && search.Configured? ==> r.Ok?
    ensures r.Ok? && search.Configured? ==>
              var q := r.value.update.searchQuery.value;
              r.value.update.searchResults == Present(match search.results(q, TopK)
                                                      case Ok(found) => Some(found)
                                                      case Err(_) => None)
    ensures llm.Some? && llm.value.invoke(SearchQueryRequest(s.prompt)).Err? ==>
              r == Err(llm.value.invoke(SearchQueryRequest(s.prompt)).msg)
    ensures llm.Some? && llm.value.invoke(SearchQueryRequest(s.prompt)).Ok? && r.Ok? ==>
              r.value.update.searchQuery == Present(llm.value.invoke(SearchQueryRequest(s.prompt)).value)
    ensures search.Unconfigured? && (llm.None? || llm.value.invoke(SearchQueryRequest(s.prompt)).Ok?) ==>
              r == Err(search.error)
  {
    var query: Result<string> :=
      match llm
      case None => Ok(s.prompt)
      case Some(m) => m.invoke(SearchQueryRequest(s.prompt));
    match query
    case Err(e) => Err(e)
    case Ok(q) =>
      match search
      case Unconfigured(e) => Err(e)
      case Configured(results) =>
        var found := match results(q, TopK)
                     case Ok(rs) => Some(rs)
                     case Err(_) => None;
        Ok(NodeResult(NoFields.(searchQuery := Present(q), searchResults := Present(found)), "content", None))
  }

  /** The generation step of `content_generation_task`, once the sources are formatted. */
  function Generate(llm: Option<Llm>, prompt: string, sources: string): Result<NodeResult> {
    Answer(llm, ContentRequest(prompt, sources), "content_post_web_search")
  }

  /** `content_generation_task`: format the search results as numbered sources and
      generate the response from the prompt and the sources. Reading the results key
      when it was never written raises `KeyError`. */
  function ContentGenerationTask(llm: Option<Llm>, s: State): (r: Result<NodeResult>)
    ensures s.fields.searchResults.Absent? ==> r == Err(KeyError("search_results"))
    ensures s.fields.searchResults.Present? ==>
              r == Generate(llm, s.prompt, SourcesText(s.fields.searchResults.value))
  {
    match s.fields.searchResults
    case Absent => Err(KeyError("search_results"))
    case Present(results) => Generate(llm, s.prompt, SourcesText(results))
  }

  /** The node function `build_graph` registers under each name. */
  function NodeStep(llm: Option<Llm>, search: SearchBackend, n: Node, s: State): (r: Result<NodeResult>)
    ensures r.Ok? ==> r.value.logged == NodeName(n)
    ensures r.Ok? ==> Writes(r.value.update) == Owns(n)
    ensures r.Ok? ==> (r.value.goto.Some? <==> n == ClassifierNode)
  {
    match n
    case ClassifierNode => ClassifyTask(llm, s)
    case GeneralNode => GeneralTask(llm, s)
    case CodeNode => CodingTask(llm, s)
    case SummarizeNode => SummarizingTask(llm, s)
    case ContentNode => ContentWebSearchingTask(llm, search, s)
    case ContentPostWebSearchNode => ContentGenerationTask(llm, s)
  }

  /** With no language model, every node that answers replies with the same
      placeholder text and writes nothing else. */
  lemma NoLlmPlaceholder(search: SearchBackend, n: Node, s: State)
    requires n in {GeneralNode, CodeNode, SummarizeNode}
             || (n == ContentPostWebSearchNode && s.fields.searchResults.Present?)
    ensures NodeStep(None, search, n, s)
            == Ok(NodeResult(NoFields.(response := Present(Text(Placeholder))), NodeName(n), None))
  {
  }

  // ---------------------------------------------------------------- source formatting

  function DigitChar(d: nat): (c: char)
    requires d < 10
    ensures c as int - '0' as int == d
  {
    ('0' as int + d) as char
  }

  /** The number a text of decimal digits denotes. */
  function DecimalValue(s: string): nat
    requires forall i :: 0 <= i < |s| ==> '0' <= s[i] <= '9'
  {
    if s == [] then 0 else DecimalValue(s[..|s| - 1]) * 10 + (s[|s| - 1] as int - '0' as int)
  }

  /** The decimal text of a number, as an f-string prints it. */
  function DecimalString(n: nat): (r: string)
    ensures |r| >= 1
    ensures forall i :: 0 <= i < |r| ==> '0' <= r[i] <= '9'
    ensures (r[0] == '0') <==> n == 0
    decreases n
  {
    if n < 10 then [DigitChar(n)] else DecimalString(n / 10) + [DigitChar(n % 10)]
  }

  /** The printed digits read back as the number printed. */
  lemma {:induction false} DecimalStringDenotes(n: nat)
    ensures DecimalValue(DecimalString(n)) == n
    decreases n
  {
    if n >= 10 {
      DecimalStringDenotes(n / 10);
      var r := DecimalString(n);
      assert r[..|r| - 1] == DecimalString(n / 10);
    }
  }

  const NoSnippet := "No Snippet available."
  const NoLink := "No URL link available."

  /** The source block for result number `i` (counting from one). */
  function SourceEntry(i: nat, r: SearchResult): string {
    "[Source " + DecimalString(i) + "]: " + r.snippet.GetOr(NoSnippet) + "\nLink: " + r.link.GetOr(NoLink)
  }

  /** One source block per result, in rank order. */
  function Entries(results: seq<SearchResult>): (es: seq<string>)
    ensures |es| == |results|
    ensures forall k :: 0 <= k < |results| ==> es[k] == SourceEntry(k + 1, results[k])
  {
    seq(|results|, k requires 0 <= k < |results| => SourceEntry(k + 1, results[k]))
  }

  /** `sep.join(parts)` */
  function Join(parts: seq<string>, sep: string): string
    decreases |parts|
  {
    if |parts| == 0 then ""
    else if |parts| == 1 then parts[0]
    else parts[0] + sep + Join(parts[1..], sep)
  }

  /** Where the `k`-th part starts in `Join(parts, sep)`. */
  function JoinOffset(parts: seq<string>, sep: string, k: nat): nat
    requires k < |parts|
    decreases k
  {
    if k == 0 then 0 else |parts[0]| + |sep| + JoinOffset(parts[1..], sep, k - 1)
  }

  /** The sources block the content prompt embeds: empty when there are no results
      (or the search failed), otherwise the numbered blocks joined by newlines. */
  function SourcesText(results: Option<seq<SearchResult>>): (text: string)
    ensures text == "" <==> results.None? || results.value == []
  {
    var formatted := if results.Some? && results.value != [] then Entries(results.value) else [];
    assert formatted != [] ==> formatted[0][..8] == "[Source ";
    Join(formatted, "\n")
  }

  /** Every part of a join stands, unchanged, at its offset. */
  lemma {:induction false} JoinHoldsEachPart(parts: seq<string>, sep: string, k: nat)
    requires k < |parts|
    ensures JoinOffset(parts, sep, k) + |parts[k]| <= |Join(parts, sep)|
    ensures Join(parts, sep)[JoinOffset(parts, sep, k)..JoinOffset(parts, sep, k) + |parts[k]|] == parts[k]
    decreases |parts|
  {
    if |parts| == 1 {
    } else if k == 0 {
      assert Join(parts, sep) == parts[0] + (sep + Join(parts[1..], sep));
    } else {
      JoinHoldsEachPart(parts[1..], sep, k - 1);
      var rest := Join(parts[1..], sep);
      var o := JoinOffset(parts[1..], sep, k - 1);
      var head := parts[0] + sep;
      assert Join(parts, sep) == head + rest;
      assert (head + rest)[|head| + o..|head| + o + |parts[k]|] == rest[o..o + |parts[k]|];
    }
  }

  /** Appending a part to a non-empty join appends the separator and the part. */
  lemma {:induction false} JoinSnoc(parts: seq<string>, sep: string, last: string)
    requires parts != []
    ensures Join(parts + [last], sep) == Join(parts, sep) + sep + last
    decreases |parts|
  {
    if |parts| == 1 {
      assert parts + [last] == [parts[0], last];
    } else {
      assert (parts + [last])[1..] == parts[1..] + [last];
      JoinSnoc(parts[1..], sep, last);
    }
  }

  /** Every result is cited: block `k` of the sources text starts with `[Source k+1]: `
      and carries the result's snippet and link (or their defaults). */
  lemma CitesEveryResult(results: seq<SearchResult>, k: nat)
    requires k < |results|
    ensures var text := SourcesText(Some(results));
            var at := JoinOffset(Entries(results), "\n", k);
            at + |SourceEntry(k + 1, results[k])| <= |text|
            && text[at..at + |SourceEntry(k + 1, results[k])|] == SourceEntry(k + 1, results[k])
  {
    JoinHoldsEachPart(Entries(results), "\n", k);
  }

  /** One more result adds exactly one block, after the others. */
  lemma SourcesTextSnoc(results: seq<SearchResult>, r: SearchResult)
    requires results != []
    ensures SourcesText(Some(results + [r]))
            == SourcesText(Some(results)) + "\n" + SourceEntry(|results| + 1, r)
  {
    assert Entries(results + [r]) == Entries(results) + [SourceEntry(|results| + 1, r)];
    JoinSnoc(Entries(results), "\n", SourceEntry(|results| + 1, r));
  }

  /** The formatting loop of `content_generation_task`. */
  method FormatSources(results: Option<seq<SearchResult>>) returns (text: string)
    ensures text == SourcesText(results)
  {
    var formatted: seq<string> := [];
    if results.Some? && results.value != [] {
      var rs := results.value;
      for i := 0 to |rs|
        invariant |formatted| == i
        invariant forall k :: 0 <= k < i ==> formatted[k] == SourceEntry(k + 1, rs[k])
      {
        formatted := formatted + [SourceEntry(i + 1, rs[i])];
      }
      assert formatted == Entries(rs);
    }
    text := Join(formatted, "\n");
  }

  // ---------------------------------------------------------------- runs

  /** The nodes that completed (and logged a step), and how the run ended. */
  datatype RunResult = RunResult(visited: seq<Node>, outcome: Result<State>)

  function Prepend(prefix: seq<Node>, r: RunResult): RunResult {
    RunResult(prefix + r.visited, r.outcome)
  }

  /** One superstep from node `n`: the node raises, or its update is merged into the
      state and the run either ends or moves along the node's edge. */
  datatype Step = Stopped(error: string) | Finished(last: State) | Moved(to: Node, route: Strategy, next: State)

  function StepOf(llm: Option<Llm>, search: SearchBackend, n: Node, route: Strategy, s: State): (t: Step)
    ensures t.Stopped? <==> NodeStep(llm, search, n, s).Err?
    ensures NodeStep(llm, search, n, s).Err? ==> t == Stopped(NodeStep(llm, search, n, s).msg)
    ensures t.Moved? ==> Height(t.to) < Height(n)
    ensures t.Finished? ==> t.last.taskId == s.taskId
    ensures t.Moved? ==> t.next.taskId == s.taskId
    ensures NodeStep(llm, search, n, s).Ok? ==>
              var res := NodeStep(llm, search, n, s).value;
              var route' := res.goto.GetOr(route);
              match Next(n, route')
              case Finish => t == Finished(Apply(s, res.update))
              case Goto(m) => t == Moved(m, route', Apply(s, res.update))
  {
    match NodeStep(llm, search, n, s)
    case Err(e) => Stopped(e)
    case Ok(res) =>
      var next := Apply(s, res.update);
      var route' := res.goto.GetOr(route);
      match Next(n, route')
      case Finish => Finished(next)
      case Goto(m) => Moved(m, route', next)
  }

  /** Run the graph from node `n`; `route` is the classifier's routing decision once
      it has run. A node that raises ends the run with its error. */
  function Exec(llm: Option<Llm>, search: SearchBackend, n: Node, route: Strategy, s: State): RunResult
    decreases Height(n)
  {
    match StepOf(llm, search, n, route, s)
    case Stopped(e) => RunResult([], Err(e))
    case Finished(last) => RunResult([n], Ok(last))
    case Moved(m, route', next) => Prepend([n], Exec(llm, search, m, route', next))
  }

  lemma PrependTwice(a: seq<Node>, b: seq<Node>, r: RunResult)
    ensures Prepend(a, Prepend(b, r)) == Prepend(a + b, r)
  {
    assert a + (b + r.visited) == (a + b) + r.visited;
  }

  /** `app.invoke(initial_state)`: a run starts at the classifier. */
  function Run(llm: Option<Llm>, search: SearchBackend, s0: State): RunResult {
    Exec(llm, search, ClassifierNode, DefaultTask, s0)
  }

  /** The driver's initial state: only the prompt and the task id. */
  function Initial(prompt: string, taskId: string): State {
    State(prompt, taskId, NoFields)
  }

  /** The trajectory steps of the visited nodes, the `k`-th stamped `clock(k)`. */
  function Steps(visited: seq<Node>, clock: nat -> int): (steps: seq<TaskStep>)
    ensures |steps| == |visited|
    ensures forall k :: 0 <= k < |visited| ==> steps[k] == TaskStep(NodeName(visited[k]), clock(k))
  {
    seq(|visited|, k requires 0 <= k < |visited| => TaskStep(NodeName(visited[k]), clock(k)))
  }

  predicate NoRepeats(nodes: seq<Node>) {
    forall i, j :: 0 <= i < j < |nodes| ==> nodes[i] != nodes[j]
  }

  /** The graph's paths are exactly the four strategy paths. */
  lemma PathShapes(route: Strategy)
    ensures route == General ==> Path(route) == [ClassifierNode, GeneralNode]
    ensures route == Code ==> Path(route) == [ClassifierNode, CodeNode]
    ensures route == Summarize ==> Path(route) == [ClassifierNode, SummarizeNode]
    ensures route == Content ==> Path(route) == [ClassifierNode, ContentNode, ContentPostWebSearchNode]
  {
    var n := StrategyNode(route);
    assert Walk(ContentPostWebSearchNode, route) == [ContentPostWebSearchNode];
    if route == Content {
      assert Walk(ContentNode, route) == [ContentNode, ContentPostWebSearchNode];
    } else {
      assert Walk(n, route) == [n];
    }
  }

  /** Heights fall strictly along a walk, so no node is entered twice, and the walk
      stops at a node with no outgoing edge. */
  lemma {:induction false} WalkDescends(n: Node, route: Strategy)
    ensures var w := Walk(n, route);
            w[0] == n
            && (forall i, j :: 0 <= i < j < |w| ==> Height(w[i]) > Height(w[j]))
            && NoRepeats(w)
            && Next(w[|w| - 1], route) == Finish
    decreases Height(n)
  {
    match Next(n, route)
    case Finish =>
    case Goto(m) =>
      WalkDescends(m, route);
      var w, t := Walk(n, route), Walk(m, route);
      assert w == [n] + t;
      forall i, j | 0 <= i < j < |w| ensures Height(w[i]) > Height(w[j]) {
        if i > 0 { assert w[i] == t[i - 1] && w[j] == t[j - 1]; }
        else { assert Height(t[0]) >= Height(w[j]); }
      }
  }

  /** The part of a run after the classifier chose `route`: it visits a prefix of the
      strategy's walk, all of it exactly when it succeeds; a success keeps the prompt,
      the task id and the classification, holds a response, and holds the search keys
      when it went through the web search, or the ones it started from otherwise. */
  lemma AfterClassifier(llm: Option<Llm>, search: SearchBackend, route: Strategy, s: State)
    ensures var m := StrategyNode(route);
            var r := Exec(llm, search, m, route, s);
            && r.visited <= Walk(m, route)
            && (r.outcome.Ok? <==> r.visited == Walk(m, route))
            && (r.outcome.Ok? ==>
                  var t := r.outcome.value;
                  && t.prompt == s.prompt && t.taskId == s.taskId
                  && t.fields.response.Present?
                  && t.fields.classification == s.fields.classification
                  && (route == Content ==> t.fields.searchResults.Present? && t.fields.searchQuery.Present?)
                  && (route != Content ==> t.fields.searchResults == s.fields.searchResults
                                           && t.fields.searchQuery == s.fields.searchQuery))
  {
    var m := StrategyNode(route);
    PathShapes(route);
    if route == Content {
      match NodeStep(llm, search, ContentNode, s)
      case Err(e) =>
      case Ok(res) =>
        var s2 := Apply(s, res.update);
        assert StepOf(llm, search, ContentNode, route, s) == Moved(ContentPostWebSearchNode, route, s2);
    }
  }

  /** A run follows the path of the classifier's decision: it visits a prefix of that
      path, the whole of it exactly when it succeeds; if the classifier raises, no
      node completes. */
  lemma RunFollowsPath(llm: Option<Llm>, search: SearchBackend, s0: State)
    ensures var r := Run(llm, search, s0);
            match ClassifyTask(llm, s0)
            case Err(e) => r == RunResult([], Err(e))
            case Ok(c) => r.visited <= Path(c.goto.value)
                          && (r.outcome.Ok? <==> r.visited == Path(c.goto.value))
  {
    match ClassifyTask(llm, s0)
    case Err(e) =>
    case Ok(c) =>
      var route := c.goto.value;
      var s1 := Apply(s0, c.update);
      var m := StrategyNode(route);
      assert StepOf(llm, search, ClassifierNode, DefaultTask, s0) == Moved(m, route, s1);
      AfterClassifier(llm, search, route, s1);
  }

  /** No node is entered twice in a run. */
  lemma RunHasNoRepeats(llm: Option<Llm>, search: SearchBackend, s0: State)
    ensures NoRepeats(Run(llm, search, s0).visited)
  {
    RunFollowsPath(llm, search, s0);
    match ClassifyTask(llm, s0)
    case Err(_) =>
    case Ok(c) =>
      WalkDescends(ClassifierNode, c.goto.value);
  }

  /** A successful run from the initial state ends with exactly one response, written by
      its last node, keeps the prompt and the task id, stores the classification, and
      holds search keys exactly when it went through the web search. */
  lemma RunCompletes(llm: Option<Llm>, search: SearchBackend, prompt: string, taskId: string)
    ensures var r := Run(llm, search, Initial(prompt, taskId));
            r.outcome.Ok? ==>
              && |r.visited| >= 2
              && ResponseKey in Owns(r.visited[|r.visited| - 1])
              && (forall i :: 0 <= i < |r.visited| - 1 ==> ResponseKey !in Owns(r.visited[i]))
              && r.outcome.value.fields.response.Present?
              && r.outcome.value.fields.classification.Present?
              && r.outcome.value.prompt == prompt && r.outcome.value.taskId == taskId
              && (r.outcome.value.fields.searchResults.Present? <==> ContentNode in r.visited)
              && (r.outcome.value.fields.searchQuery.Present? <==> ContentNode in r.visited)
  {
    var s0 := Initial(prompt, taskId);
    RunFollowsPath(llm, search, s0);
    match ClassifyTask(llm, s0)
    case Err(e) =>
    case Ok(c) =>
      var route := c.goto.value;
      var s1 := Apply(s0, c.update);
      assert StepOf(llm, search, ClassifierNode, DefaultTask, s0) == Moved(StrategyNode(route), route, s1);
      AfterClassifier(llm, search, route, s1);
      PathShapes(route);
  }

  /** With no language model every run is classified `general` and answered with the
      placeholder. */
  lemma NoLlmRun(search: SearchBackend, prompt: string, taskId: string)
    ensures Run(None, search, Initial(prompt, taskId))
            == RunResult([ClassifierNode, GeneralNode],
                         Ok(State(prompt, taskId, Fields(Present(DefaultClassification()), Absent, Absent,
                                                         Present(Text(Placeholder))))))
  {
    var s1 := Apply(Initial(prompt, taskId), NoFields.(classification := Present(DefaultClassification())));
    assert Exec(None, search, GeneralNode, General, s1)
           == RunResult([GeneralNode], Ok(Apply(s1, NoFields.(response := Present(Text(Placeholder))))));
  }

  /** A failing search does not fail the run: generation proceeds with an empty
      sources block, so the model is offered nothing to cite. */
  lemma SearchFailureTolerated(m: Llm, results: (string, nat) -> Result<seq<SearchResult>>,
                               prompt: string, taskId: string, summary: Entry<string>, query: string, answer: string)
    requires m.classify(prompt) == Ok(Verdict(Present(Content), summary))
    requires m.invoke(SearchQueryRequest(prompt)) == Ok(query)
    requires results(query, TopK).Err?
    requires m.invoke(ContentRequest(prompt, "")) == Ok(answer)
    ensures var r := Run(Some(m), Configured(results), Initial(prompt, taskId));
            && r.visited == [ClassifierNode, ContentNode, ContentPostWebSearchNode]
            && r.outcome.Ok?
            && r.outcome.value.fields.searchResults == Present(None)
            && r.outcome.value.fields.searchQuery == Present(query)
            && r.outcome.value.fields.response == Present(Message(answer))
            && r.outcome.value.fields.classification == Present(Classification(Present("content"), summary))
  {
    var llm, search, s0 := Some(m), Configured(results), Initial(prompt, taskId);
    var s1 := Apply(s0, NoFields.(classification := Present(Stored(Verdict(Present(Content), summary)))));
    var s2 := Apply(s1, NoFields.(searchQuery := Present(query), searchResults := Present(None)));
    assert SourcesText(None) == "";
    var s3 := Apply(s2, NoFields.(response := Present(Message(answer))));
    assert Exec(llm, search, ContentPostWebSearchNode, Content, s2) == RunResult([ContentPostWebSearchNode], Ok(s3));
    assert Exec(llm, search, ContentNode, Content, s1)
           == Prepend([ContentNode], Exec(llm, search, ContentPostWebSearchNode, Content, s2));
  }

  // ---------------------------------------------------------------- the graph with its logger

  /** Logging one more step extends the sequence of pushes by that step. */
  lemma PushedAllSnoc(docs: Collection, taskId: string, visited: seq<Node>, n: Node, clock: nat -> int)
    ensures PushedAll(docs, taskId, Steps(visited + [n], clock))
            == Pushed(PushedAll(docs, taskId, Steps(visited, clock)), taskId, TaskStep(NodeName(n), clock(|visited|)))
  {
    var steps := Steps(visited + [n], clock);
    assert steps[..|steps| - 1] == Steps(visited, clock);
  }

  /** One superstep of the compiled graph: run node `n`, which logs one step named
      after itself for the state's task id unless it raises, then merge its update and
      follow its edge. */
  method Visit(log: Logger, llm: Option<Llm>, search: SearchBackend, n: Node, route: Strategy, s: State, now: int)
    returns (t: Step)
    requires log.Valid()
    modifies log
    ensures log.Valid()
    ensures t == StepOf(llm, search, n, route, s)
    ensures !t.Stopped? ==> log.docs == Pushed(old(log.docs), s.taskId, TaskStep(NodeName(n), now))
    ensures t.Stopped? ==> log.docs == old(log.docs)
  {
    var r: Result<NodeResult>;
    if n == ContentPostWebSearchNode && s.fields.searchResults.Present? {
      var sources := FormatSources(s.fields.searchResults.value);
      r := Generate(llm, s.prompt, sources);
    } else {
      r := NodeStep(llm, search, n, s);
    }
    if r.Err? {
      return Stopped(r.msg);
    }
    log.LogStep(s.taskId, r.value.logged, now);
    var next, route' := Apply(s, r.value.update), r.value.goto.GetOr(route);
    match Next(n, route')
    case Finish => t := Finished(next);
    case Goto(m) => t := Moved(m, route', next);
  }

  /** The compiled graph's `invoke`: run supersteps from the classifier along the edges
      until a node finishes the run or raises. The log gains one step per completed
      node, in order. */
  method Invoke(log: Logger, llm: Option<Llm>, search: SearchBackend, s0: State, clock: nat -> int)
    returns (outcome: Result<State>)
    requires log.Valid()
    modifies log
    ensures log.Valid()
    ensures outcome == Run(llm, search, s0).outcome
    ensures log.docs == PushedAll(old(log.docs), s0.taskId, Steps(Run(llm, search, s0).visited, clock))
  {
    var n, route, s := ClassifierNode, DefaultTask, s0;
    var visited: seq<Node> := [];
    while true
      invariant log.Valid()
      invariant s.taskId == s0.taskId
      invariant Run(llm, search, s0) == Prepend(visited, Exec(llm, search, n, route, s))
      invariant log.docs == PushedAll(old(log.docs), s0.taskId, Steps(visited, clock))
      decreases Height(n)
    {
      var t := Visit(log, llm, search, n, route, s, clock(|visited|));
      match t
      case Stopped(e) =>
        assert visited + [] == visited;
        return Err(e);
      case Finished(last) =>
        PushedAllSnoc(old(log.docs), s0.taskId, visited, n, clock);
        visited := visited + [n];
        return Ok(last);
      case Moved(m, route', next) =>
        PushedAllSnoc(old(log.docs), s0.taskId, visited, n, clock);
        PrependTwice(visited, [n], Exec(llm, search, m, route', next));
        visited, n, route, s := visited + [n], m, route', next;
    }
  }
}
