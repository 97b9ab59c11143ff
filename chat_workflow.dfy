/** The workflow side of a chat turn in the chat hub service: the throwaway
    base-chat graph (`prepareChatWorkflow`, `createModelNode`), the checks on a
    user's own custom-agent workflow (`prepareCustomAgentWorkflow`), reading the
    title out of a finished run (`getAIOutput`, `getErrorMessage`), how the end
    of an execution is classified (`executeChatWorkflow`) and the JSON-lines
    `transform` applied to every streamed chunk. */
module ChatWorkflow {
  import opened Common
  import opened ChatHistory

  datatype ChatError =
    | NotFound(reason: string)
    | BadRequest(reason: string)
    | Forbidden(reason: string)
    | Operational(reason: string)
    | StorageRejected(reason: string)

  // ---------------------------------------------------------------------------
  // The generated base-chat graph

  const ChatTriggerName: string := "When chat message received"
  const ReplyAgentName: string := "AI Agent"
  const TitleGeneratorAgentName: string := "Title Generator Agent"
  const ChatModelName: string := "Chat Model"
  const MemoryName: string := "Memory"
  const RestoreChatMemoryName: string := "Restore Chat Memory"
  const ClearChatMemoryName: string := "Clear Chat Memory"

  datatype ConnectionKind = Main | AiLanguageModel | AiMemory

  /** A directed edge `from` → `to` of the given kind. */
  datatype Connection = Connection(from: string, kind: ConnectionKind, to: string)

  /** A node of the generated graph: its name, type, version, whether it is
      disabled, and (for the model node) the selected model. */
  datatype GraphNode = GraphNode(
    name: string,
    nodeType: string,
    typeVersion: string,
    disabled: bool,
    model: Option<string>,
    cachedResultName: Option<string>)

  datatype MemoryRole = User | AIRole | SystemRole

  /** One entry the memory-restore node seeds the conversation memory with. */
  datatype MemoryMessage = MemoryMessage(role: MemoryRole, message: string, hideFromUI: bool)

  /** The payload the chat trigger is started with. */
  datatype TriggerPayload = TriggerPayload(triggerName: string, sessionId: string, action: string, chatInput: string)

  datatype ChatGraph = ChatGraph(
    nodes: seq<GraphNode>,
    connections: seq<Connection>,
    memorySeed: seq<MemoryMessage>,
    trigger: TriggerPayload)

  /** The per-provider node type and version of the model node. */
  function ProviderNodeType(p: Provider): (r: (string, string))
    requires p != N8n
  {
    match p
    case OpenAI => ("@n8n/n8n-nodes-langchain.lmChatOpenAi", "1.2")
    case Anthropic => ("@n8n/n8n-nodes-langchain.lmChatAnthropic", "1.3")
    case Google => ("@n8n/n8n-nodes-langchain.lmChatGoogleGemini", "1.2")
  }

  /** `typeMap[message.type] || 'system'`: human → user, ai → ai, everything else → system. */
  function MemoryRoleOf(t: MessageType): (r: MemoryRole)
    ensures r == User <==> t == Human
    ensures r == AIRole <==> t == AI
  {
    match t
    case Human => User
    case AI => AIRole
    case _ => SystemRole
  }

  /** The memory seed: one entry per history message, in history order. */
  function MemorySeed(history: seq<Message>): (r: seq<MemoryMessage>)
    ensures |r| == |history|
    ensures forall i :: 0 <= i < |history| ==>
      r[i] == MemoryMessage(MemoryRoleOf(history[i].msgType), history[i].content, false)
  {
    if history == [] then [] else [MemoryMessage(MemoryRoleOf(history[0].msgType), history[0].content, false)] + MemorySeed(history[1..])
  }

  /** `createModelNode`: a custom-agent selection has no model node; the
      providers each get their own node type. */
  function CreateModelNode(selection: ModelSelection): (r: Result<GraphNode, ChatError>)
    ensures r.Err? <==> selection.provider == N8n
    ensures r.Ok? ==> (r.value.name == ChatModelName && r.value.model == Some(selection.model)
      && (r.value.nodeType, r.value.typeVersion) == ProviderNodeType(selection.provider) && !r.value.disabled)
    ensures r.Ok? ==> (r.value.cachedResultName.Some? <==> selection.provider == Anthropic)
  {
    if selection.provider == N8n then Err(Operational("Custom agent workflows do not require a model node"))
    else
      var (t, v) := ProviderNodeType(selection.provider);
      Ok(GraphNode(ChatModelName, t, v, false, Some(selection.model),
        if selection.provider == Anthropic then Some(selection.model) else None))
  }

  const ChatGraphConnections: seq<Connection> := [
    Connection(ChatTriggerName, Main, RestoreChatMemoryName),
    Connection(RestoreChatMemoryName, Main, ReplyAgentName),
    Connection(RestoreChatMemoryName, Main, TitleGeneratorAgentName),
    Connection(ChatModelName, AiLanguageModel, ReplyAgentName),
    Connection(ChatModelName, AiLanguageModel, TitleGeneratorAgentName),
    Connection(MemoryName, AiMemory, ReplyAgentName),
    Connection(MemoryName, AiMemory, RestoreChatMemoryName),
    Connection(MemoryName, AiMemory, ClearChatMemoryName),
    Connection(ReplyAgentName, Main, ClearChatMemoryName)
  ]

  /** The names of the seven generated nodes, in the order they are created. */
  const ChatGraphNodeNames: seq<string> := [
    ChatTriggerName, ReplyAgentName, ChatModelName, MemoryName,
    RestoreChatMemoryName, ClearChatMemoryName, TitleGeneratorAgentName
  ]

  /** `prepareChatWorkflow`: trigger → restore memory → reply agent (and the
      title agent, disabled unless a title is wanted) → clear memory, with the
      model and the window memory attached to the agents. */
  function PrepareChatWorkflow(
    sessionId: string, history: seq<Message>, humanMessage: string,
    selection: ModelSelection, generateTitle: bool): Result<ChatGraph, ChatError>
  {
    match CreateModelNode(selection)
    case Err(e) => Err(e)
    case Ok(modelNode) =>
      Ok(ChatGraph(
        ChatGraphNodes(modelNode, generateTitle),
        ChatGraphConnections,
        MemorySeed(history),
        TriggerPayload(ChatTriggerName, sessionId, "sendMessage", humanMessage)))
  }

  /** The seven nodes of the base-chat graph around the given model node. */
  function ChatGraphNodes(modelNode: GraphNode, generateTitle: bool): seq<GraphNode>
  {
    [ GraphNode(ChatTriggerName, ChatTriggerNodeType, "1.3", false, None, None),
      GraphNode(ReplyAgentName, AgentNodeType, "3", false, None, None),
      modelNode,
      GraphNode(MemoryName, MemoryBufferWindowNodeType, "1.3", false, None, None),
      GraphNode(RestoreChatMemoryName, MemoryManagerNodeType, "1.1", false, None, None),
      GraphNode(ClearChatMemoryName, MemoryManagerNodeType, "1.1", false, None, None),
      GraphNode(TitleGeneratorAgentName, AgentNodeType, "3", !generateTitle, None, None) ]
  }

  /** The node names are pairwise distinct (they even differ in length). */
  lemma ChatGraphNodeNamesDistinct()
    ensures |ChatGraphNodeNames| == 7
    ensures forall i, j :: 0 <= i < j < |ChatGraphNodeNames| ==> ChatGraphNodeNames[i] != ChatGraphNodeNames[j]
  {
    var lengths := [26, 8, 10, 6, 19, 17, 21];
    assert forall i :: 0 <= i < 7 ==> |ChatGraphNodeNames[i]| == lengths[i];
  }

  /** Every connection leaves from and arrives at one of the generated nodes. */
  lemma ChatGraphConnectionsClosed()
    ensures forall c :: c in ChatGraphConnections ==> c.from in ChatGraphNodeNames && c.to in ChatGraphNodeNames
  {
    forall c | c in ChatGraphConnections
      ensures c.from in ChatGraphNodeNames && c.to in ChatGraphNodeNames
    {
      assert ChatGraphNodeNames[0] == ChatTriggerName && ChatGraphNodeNames[1] == ReplyAgentName;
      assert ChatGraphNodeNames[2] == ChatModelName && ChatGraphNodeNames[3] == MemoryName;
      assert ChatGraphNodeNames[4] == RestoreChatMemoryName && ChatGraphNodeNames[5] == ClearChatMemoryName;
      assert ChatGraphNodeNames[6] == TitleGeneratorAgentName;
    }
  }

  /** Around any model node called "Chat Model", the nodes carry the seven
      names in order, so no two share a name; only the title agent can be
      disabled, and it is exactly when no title is wanted. */
  lemma ChatGraphNodesNamed(modelNode: GraphNode, generateTitle: bool)
    requires modelNode.name == ChatModelName && !modelNode.disabled
    ensures |ChatGraphNodes(modelNode, generateTitle)| == |ChatGraphNodeNames|
    ensures forall i :: 0 <= i < |ChatGraphNodeNames| ==> ChatGraphNodes(modelNode, generateTitle)[i].name == ChatGraphNodeNames[i]
    ensures forall i, j :: 0 <= i < j < |ChatGraphNodeNames| ==>
      ChatGraphNodes(modelNode, generateTitle)[i].name != ChatGraphNodes(modelNode, generateTitle)[j].name
    ensures ChatGraphNodes(modelNode, generateTitle)[6].disabled == !generateTitle
    ensures forall i :: 0 <= i < 6 ==> !ChatGraphNodes(modelNode, generateTitle)[i].disabled
  {
    var nodes := ChatGraphNodes(modelNode, generateTitle);
    assert forall i :: 0 <= i < |nodes| ==> nodes[i].name == ChatGraphNodeNames[i];
    ChatGraphNodeNamesDistinct();
  }

  /** The generated graph: it fails only for a custom-agent selection; otherwise
      its nodes are those of `ChatGraphNodes` around the model node, every
      connection joins two of them, the trigger starts at the chat trigger node
      with the human message, and the memory seed mirrors the history. */
  lemma PrepareChatWorkflowShape(
    sessionId: string, history: seq<Message>, humanMessage: string,
    selection: ModelSelection, generateTitle: bool)
    ensures PrepareChatWorkflow(sessionId, history, humanMessage, selection, generateTitle).Err? <==> selection.provider == N8n
    ensures PrepareChatWorkflow(sessionId, history, humanMessage, selection, generateTitle).Ok? ==>
      var g := PrepareChatWorkflow(sessionId, history, humanMessage, selection, generateTitle).value;
      CreateModelNode(selection).Ok? &&
      g.nodes == ChatGraphNodes(CreateModelNode(selection).value, generateTitle) &&
      (forall c :: c in g.connections ==> c.from in ChatGraphNodeNames && c.to in ChatGraphNodeNames) &&
      g.trigger == TriggerPayload(ChatGraphNodeNames[0], sessionId, "sendMessage", humanMessage) &&
      g.memorySeed == MemorySeed(history)
  {
    ChatGraphConnectionsClosed();
  }

  // ---------------------------------------------------------------------------
  // Custom-agent workflows

  /** A user's own workflow as found by the workflow finder. */
  datatype WorkflowEntity = WorkflowEntity(id: string, name: string, nodes: seq<Node>, pinData: map<string, Json>)

  datatype CustomAgentRun = CustomAgentRun(workflow: WorkflowEntity, trigger: TriggerPayload)

  function CountOfType(nodes: seq<Node>, t: string): (n: nat)
    ensures n <= |nodes|
    ensures n == 0 <==> forall i :: 0 <= i < |nodes| ==> nodes[i].nodeType != t
  {
    if nodes == [] then 0 else (if nodes[0].nodeType == t then 1 else 0) + CountOfType(nodes[1..], t)
  }

  function FirstOfType(nodes: seq<Node>, t: string): (k: nat)
    requires CountOfType(nodes, t) > 0
    ensures k < |nodes| && nodes[k].nodeType == t
    ensures forall i :: 0 <= i < k ==> nodes[i].nodeType != t
  {
    if nodes[0].nodeType == t then 0 else 1 + FirstOfType(nodes[1..], t)
  }

  /** `prepareCustomAgentWorkflow`: the workflow must exist, hold exactly one
      chat trigger and no respond-to-chat node; it is run from that trigger
      with its pinned data cleared. */
  function PrepareCustomAgentWorkflow(found: Option<WorkflowEntity>, sessionId: string, message: string)
    : (r: Result<CustomAgentRun, ChatError>)
    ensures r.Ok? <==>
      found.Some? && CountOfType(found.value.nodes, ChatTriggerNodeType) == 1 &&
      CountOfType(found.value.nodes, RespondToChatNodeType) == 0
    ensures found.None? ==> r == Err(BadRequest("Workflow not found"))
    ensures r.Ok? ==>
      r.value.workflow == found.value.(pinData := map[]) &&
      exists k :: 0 <= k < |found.value.nodes| && found.value.nodes[k].nodeType == ChatTriggerNodeType &&
        r.value.trigger == TriggerPayload(found.value.nodes[k].name, sessionId, "sendMessage", message)
  {
    if found.None? then Err(BadRequest("Workflow not found"))
    else
      var w := found.value;
      if CountOfType(w.nodes, ChatTriggerNodeType) != 1 then Err(BadRequest("Workflow must have exactly one chat trigger"))
      else if CountOfType(w.nodes, RespondToChatNodeType) > 0 then
        Err(BadRequest("Respond to Chat nodes are not supported in custom agent workflows"))
      else
        var k := FirstOfType(w.nodes, ChatTriggerNodeType);
        Ok(CustomAgentRun(w.(pinData := map[]), TriggerPayload(w.nodes[k].name, sessionId, "sendMessage", message)))
  }

  // ---------------------------------------------------------------------------
  // Reading a finished execution

  /** One item of a node's main output: its `json.output` field, if any. */
  datatype OutputItem = OutputItem(output: Option<Json>)

  /** One run of a node: its main output branches (`data.main`), if any. */
  datatype TaskRun = TaskRun(main: Option<seq<Option<seq<OutputItem>>>>)

  /** The first branch whose first item's `output` is truthy and a string. */
  function FirstStringOutput(branches: seq<Option<seq<OutputItem>>>): (r: Option<string>)
    ensures r.Some? ==> r.value != ""
    ensures r.Some? <==> exists i :: 0 <= i < |branches| && BranchHasText(branches[i])
    ensures r.Some? ==> exists i :: FirstTextAt(branches, i, r.value)
  {
    if branches == [] then None
    else if BranchHasText(branches[0]) then
      assert FirstTextAt(branches, 0, branches[0].value[0].output.value.s);
      Some(branches[0].value[0].output.value.s)
    else
      var rest := FirstStringOutput(branches[1..]);
      assert forall i :: 1 <= i < |branches| ==> branches[i] == branches[1..][i - 1];
      assert rest.Some? ==> exists i :: FirstTextAt(branches, i, rest.value) by {
        if rest.Some? {
          var i :| FirstTextAt(branches[1..], i, rest.value);
          assert FirstTextAt(branches, i + 1, rest.value);
        }
      }
      rest
  }

  predicate BranchHasText(b: Option<seq<OutputItem>>)
  {
    b.Some? && |b.value| > 0 && TruthyOpt(b.value[0].output) && b.value[0].output.value.JStr?
  }

  /** Branch `i` is the first one with text, and its text is `s`. */
  predicate FirstTextAt(branches: seq<Option<seq<OutputItem>>>, i: int, s: string)
  {
    0 <= i < |branches| && BranchHasText(branches[i]) && branches[i].value[0].output == Some(JStr(s)) &&
    forall j :: 0 <= j < i ==> !BranchHasText(branches[j])
  }

  /** The main output of the last run of the named node, if it ran. */
  function LastMain(runData: map<string, seq<TaskRun>>, nodeName: string): Option<seq<Option<seq<OutputItem>>>>
  {
    if nodeName !in runData || |runData[nodeName]| == 0 then None
    else runData[nodeName][|runData[nodeName]| - 1].main
  }

  /** `getAIOutput`: the text of the last run of the named node, or nothing. */
  function GetAIOutput(runData: map<string, seq<TaskRun>>, nodeName: string): (r: Option<string>)
    ensures r.Some? ==> nodeName in runData && |runData[nodeName]| > 0
    ensures r.Some? <==> (LastMain(runData, nodeName).Some? &&
      exists i :: 0 <= i < |LastMain(runData, nodeName).value| && BranchHasText(LastMain(runData, nodeName).value[i]))
    ensures r.Some? ==> exists i :: FirstTextAt(LastMain(runData, nodeName).value, i, r.value)
  {
    if nodeName !in runData || |runData[nodeName]| == 0 then None
    else
      var main := runData[nodeName][|runData[nodeName]| - 1].main;
      if main.None? then None else FirstStringOutput(main.value)
  }

  datatype ExecutionError = ExecutionError(description: Option<string>, message: string)

  /** A finished execution as read back from the execution repository. */
  datatype ExecutionRecord = ExecutionRecord(
    status: Option<string>,
    error: Option<ExecutionError>,
    runData: map<string, seq<TaskRun>>)

  /** What awaiting the post-execution promise produced. */
  datatype PostExecute =
    | EngineCancelled          // ManualExecutionCancelledError
    | EngineThrew(reason: string)
    | EngineFinished(hasResult: bool)

  datatype TurnEnd = TurnCancelled | TurnSucceeded(newTitle: Option<string>)

  /** `getErrorMessage`: the error's description, else its message. */
  function GetErrorMessage(e: Option<ExecutionError>): (r: Option<string>)
    ensures r.None? <==> e.None?
    ensures e.Some? && e.value.description.Some? ==> r == e.value.description
    ensures e.Some? && e.value.description.None? ==> r == Some(e.value.message)
  {
    match e
    case None => None
    case Some(err) => if err.description.Some? then err.description else Some(err.message)
  }

  const StartFailedMessage := "There was a problem starting the chat execution."
  const NoResultMessage := "There was a problem executing the chat workflow."
  const MissingExecutionPrefix := "Could not find execution with ID "
  const GenerationFailedMessage := "Failed to generate a response"

  /** How `executeChatWorkflow` ends once the engine has been started: a
      missing execution id, a failed await, a missing run or a non-success status
      is an error; an engine cancellation ends the turn quietly; a success
      yields the title generator's text, if any, as the new session title. */
  function ExecutionOutcome(executionId: Option<string>, post: PostExecute, execution: Option<ExecutionRecord>)
    : (r: Result<TurnEnd, ChatError>)
    ensures !IdTruthy(executionId) ==> r == Err(Operational(StartFailedMessage))
    ensures r == Ok(TurnCancelled) <==> IdTruthy(executionId) && post == EngineCancelled
    ensures IdTruthy(executionId) && post.EngineThrew? ==> r == Err(Operational(post.reason))
    ensures IdTruthy(executionId) && post == EngineFinished(false) ==>
      r == Err(Operational(NoResultMessage))
    ensures IdTruthy(executionId) && post == EngineFinished(true) && execution.None? ==>
      r == Err(Operational(MissingExecutionPrefix + executionId.value))
    ensures r.Ok? && r.value.TurnSucceeded? <==>
      IdTruthy(executionId) && post == EngineFinished(true) && execution.Some? && execution.value.status == Some("success")
    ensures r.Ok? && r.value.TurnSucceeded? ==> r.value.newTitle == GetAIOutput(execution.value.runData, TitleGeneratorAgentName)
    ensures IdTruthy(executionId) && post == EngineFinished(true) && execution.Some? && execution.value.status != Some("success") ==>
      r == Err(Operational(match GetErrorMessage(execution.value.error)
                           case Some(m) => m
                           case None => GenerationFailedMessage))
  {
    if !IdTruthy(executionId) then Err(Operational(StartFailedMessage))
    else match post
      case EngineCancelled => Ok(TurnCancelled)
      case EngineThrew(reason) => Err(Operational(reason))
      case EngineFinished(hasResult) =>
        if !hasResult then Err(Operational(NoResultMessage))
        else if execution.None? then Err(Operational(MissingExecutionPrefix + executionId.value))
        else if execution.value.status != Some("success") then
          Err(Operational(match GetErrorMessage(execution.value.error)
                          case Some(m) => m
                          case None => GenerationFailedMessage))
        else Ok(TurnSucceeded(GetAIOutput(execution.value.runData, TitleGeneratorAgentName)))
  }

  // ---------------------------------------------------------------------------
  // The JSON-lines transform of streamed chunks

  /** Characters `String.prototype.trim` removes. */
  predicate IsJsWhitespace(c: char)
  {
    c == '\t' || c == '\n' || c == '\U{B}' || c == '\U{C}' || c == '\r' || c == ' ' ||
    c == '\U{A0}' || c == '\U{1680}' || ('\U{2000}' <= c <= '\U{200A}') || c == '\U{2028}' || c == '\U{2029}' ||
    c == '\U{202F}' || c == '\U{205F}' || c == '\U{3000}' || c == '\U{FEFF}'
  }

  function TrimStart(s: string): (r: string)
    ensures |r| <= |s| && r == s[|s| - |r|..]
    ensures r == "" || !IsJsWhitespace(r[0])
    ensures forall i :: 0 <= i < |s| - |r| ==> IsJsWhitespace(s[i])
  {
    if s != [] && IsJsWhitespace(s[0]) then TrimStart(s[1..]) else s
  }

  function TrimEnd(s: string): (r: string)
    ensures |r| <= |s| && r == s[..|r|]
    ensures r == "" || !IsJsWhitespace(r[|r| - 1])
    ensures forall i :: |r| <= i < |s| ==> IsJsWhitespace(s[i])
  {
    if s != [] && IsJsWhitespace(s[|s| - 1]) then TrimEnd(s[..|s| - 1]) else s
  }

  function Trim(s: string): string
  {
    TrimEnd(TrimStart(s))
  }

  /** A chunk of engine output: its top-level fields and its `metadata` object. */
  datatype StructuredChunk = StructuredChunk(fields: map<string, Json>, metadata: map<string, Json>)

  /** What the aggregator's `ingest` reports for a chunk. */
  datatype IngestResult = IngestResult(id: string, previousMessageId: Option<string>, retryOfMessageId: Option<string>)

  function IdJson(id: Option<string>): Json
  {
    match id
    case None => JNull
    case Some(s) => JStr(s)
  }

  /** The chunk with the message linkage injected into its metadata. */
  function Enrich(chunk: StructuredChunk, m: IngestResult): (r: StructuredChunk)
    ensures r.fields == chunk.fields
    ensures r.metadata.Keys == chunk.metadata.Keys + {"messageId", "previousMessageId", "retryOfMessageId"}
    ensures r.metadata["messageId"] == JStr(m.id)
    ensures r.metadata["previousMessageId"] == IdJson(m.previousMessageId)
    ensures r.metadata["retryOfMessageId"] == IdJson(m.retryOfMessageId)
    ensures forall k :: k in chunk.metadata && k !in {"messageId", "previousMessageId", "retryOfMessageId"} ==>
      r.metadata[k] == chunk.metadata[k]
  {
    chunk.(metadata := chunk.metadata["messageId" := JStr(m.id)]
                                     ["previousMessageId" := IdJson(m.previousMessageId)]
                                     ["retryOfMessageId" := IdJson(m.retryOfMessageId)])
  }

  /** `transform`: blank or unparseable text is forwarded as it is; a parsed
      chunk is ingested, enriched with the message ids and re-serialised as one
      line. Parsing, ingestion and serialisation are the collaborators'. */
  function Transform(
    text: string,
    parse: string -> Option<StructuredChunk>,
    ingest: StructuredChunk -> IngestResult,
    stringify: StructuredChunk -> string): (r: string)
    ensures Trim(text) == "" ==> r == text
    ensures parse(Trim(text)).None? ==> r == text
    ensures Trim(text) != "" && parse(Trim(text)).Some? ==>
      r == stringify(Enrich(parse(Trim(text)).value, ingest(parse(Trim(text)).value))) + "\n"
  {
    var trimmed := Trim(text);
    if trimmed == "" then text
    else match parse(trimmed)
      case None => text
      case Some(chunk) => stringify(Enrich(chunk, ingest(chunk))) + "\n"
  }

  /** Whitespace-only text is always forwarded unchanged, whatever the parser does. */
  lemma BlankPassesThrough(
    text: string,
    parse: string -> Option<StructuredChunk>,
    ingest: StructuredChunk -> IngestResult,
    stringify: StructuredChunk -> string)
    requires forall i :: 0 <= i < |text| ==> IsJsWhitespace(text[i])
    ensures Transform(text, parse, ingest, stringify) == text
  {
  }
}
