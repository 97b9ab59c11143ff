/** The message-tree rules of the chat hub service: sending a human message,
    editing a message, regenerating an AI reply, stopping a running reply, and
    the handlers that persist a streamed reply. Each service call runs in one
    database transaction: it is modelled as a plan (a function from the store
    to the new store and the workflow to run, or an error) that the store
    class commits whole or not at all. */
module ChatHub {
  import opened Common
  import opened ChatHistory
  import opened ChatWorkflow

  datatype Session = Session(id: string, ownerId: string, title: string, selection: Option<ModelSelection>)

  datatype User = User(id: string, firstName: string)

  /** A credential the user can read, with the project that owns it. */
  datatype Credential = Credential(id: string, projectId: string)

  /** The persisted sessions and messages, each keyed by id. */
  datatype Store = Store(sessions: map<string, Session>, messages: map<string, Message>)

  /** Keys are ids and every message belongs to a stored session. */
  ghost predicate StoreValid(st: Store)
  {
    WellKeyed(st.messages) &&
    (forall id :: id in st.sessions ==> st.sessions[id].id == id) &&
    (forall id :: id in st.messages ==> st.messages[id].sessionId in st.sessions)
  }

  // ---------------------------------------------------------------------------
  // Credentials

  // Credential type names of the providers, published by the API types package.
  const OpenAiCredentialType: string := "openAiApi"
  const AnthropicCredentialType: string := "anthropicApi"
  const GoogleCredentialType: string := "googlePalmApi"

  function CredentialTypeOf(p: Provider): string
    requires p != N8n
  {
    match p
    case OpenAI => OpenAiCredentialType
    case Anthropic => AnthropicCredentialType
    case Google => GoogleCredentialType
  }

  /** `pickCredentialId`: the id stored under the provider's credential type,
      `credentials[type]?.id ?? null`; never one for a custom agent. */
  function PickCredentialId(provider: Provider, credentials: map<string, Option<string>>): (r: Option<string>)
    ensures provider == N8n ==> r.None?
    ensures provider != N8n ==>
      (r.Some? <==> CredentialTypeOf(provider) in credentials && credentials[CredentialTypeOf(provider)].Some?)
    ensures r.Some? ==> r == credentials[CredentialTypeOf(provider)]
  {
    if provider == N8n then None
    else if CredentialTypeOf(provider) in credentials then credentials[CredentialTypeOf(provider)]
    else None
  }

  /** The selection recorded with messages and new sessions. */
  function SelectedModel(model: ModelSelection, credentials: map<string, Option<string>>): (r: ModelSelection)
    ensures r.provider == model.provider && r.model == model.model && r.workflowId == model.workflowId
    ensures r.credentialId == PickCredentialId(model.provider, credentials)
  {
    model.(credentialId := PickCredentialId(model.provider, credentials))
  }

  /** `allCredentials.find((c) => c.id === id)` */
  function FindCredential(accessible: seq<Credential>, id: string): (r: Option<Credential>)
    ensures r.Some? <==> exists i :: 0 <= i < |accessible| && accessible[i].id == id
    ensures r.Some? ==> r.value in accessible && r.value.id == id
  {
    if accessible == [] then None
    else if accessible[0].id == id then Some(accessible[0])
    else
      var r := FindCredential(accessible[1..], id);
      assert forall i :: 1 <= i < |accessible| ==> accessible[i] == accessible[1..][i - 1];
      r
  }

  /** `ensureCredentials`: a usable id must be picked, and the user must have
      access to a credential with that id. */
  function EnsureCredentials(provider: Provider, credentials: map<string, Option<string>>, accessible: seq<Credential>)
    : (r: Result<Credential, ChatError>)
    ensures !IdTruthy(PickCredentialId(provider, credentials)) ==>
      r == Err(BadRequest("No credentials provided for the selected model provider"))
    ensures (IdTruthy(PickCredentialId(provider, credentials)) &&
             forall i :: 0 <= i < |accessible| ==> accessible[i].id != PickCredentialId(provider, credentials).value) ==>
      r == Err(Forbidden("You don't have access to the provided credentials"))
    ensures r.Ok? ==> r.value in accessible && Some(r.value.id) == PickCredentialId(provider, credentials)
  {
    var id := PickCredentialId(provider, credentials);
    if !IdTruthy(id) then Err(BadRequest("No credentials provided for the selected model provider"))
    else match FindCredential(accessible, id.value)
      case None => Err(Forbidden("You don't have access to the provided credentials"))
      case Some(c) => Ok(c)
  }

  // ---------------------------------------------------------------------------
  // Reads and writes of the store

  /** A session as loaded, with its messages (none for a session just created). */
  datatype SessionLoad = SessionLoad(store: Store, session: Session, messages: map<string, Message>)

  /** The messages of a session, keyed by id. */
  function SessionMessages(st: Store, sessionId: string): (r: map<string, Message>)
    ensures forall id :: id in r <==> id in st.messages && st.messages[id].sessionId == sessionId
    ensures forall id :: id in r ==> r[id] == st.messages[id]
  {
    map id | id in st.messages && st.messages[id].sessionId == sessionId :: st.messages[id]
  }

  /** `getChatSession`: the user's own session; otherwise, when asked to
      initialize, a new one titled "New Chat" (whose id may not already be
      taken by another user's session); otherwise not found. */
  function GetChatSession(st: Store, userId: string, sessionId: string, selection: Option<ModelSelection>, initialize: bool)
    : (r: Result<SessionLoad, ChatError>)
    ensures sessionId in st.sessions && st.sessions[sessionId].ownerId == userId ==>
      r == Ok(SessionLoad(st, st.sessions[sessionId], SessionMessages(st, sessionId)))
    ensures !(sessionId in st.sessions && st.sessions[sessionId].ownerId == userId) && !initialize ==>
      r == Err(NotFound("Chat session not found"))
    ensures sessionId !in st.sessions && initialize ==>
      r.Ok? && r.value.session == Session(sessionId, userId, "New Chat", selection) &&
      r.value.store == st.(sessions := st.sessions[sessionId := r.value.session]) && r.value.messages == map[]
    ensures r.Ok? ==> (r.value.session.ownerId == userId &&
      r.value.store.messages == st.messages &&
      r.value.store.sessions.Keys == st.sessions.Keys + {sessionId} &&
      r.value.store.sessions[sessionId] == r.value.session)
    ensures r.Ok? ==> r.value.store.sessions == st.sessions[sessionId := r.value.session]
  {
    if sessionId in st.sessions && st.sessions[sessionId].ownerId == userId then
      Ok(SessionLoad(st, st.sessions[sessionId], SessionMessages(st, sessionId)))
    else if !initialize then Err(NotFound("Chat session not found"))
    else if sessionId in st.sessions then Err(StorageRejected("A session with this id already exists"))
    else
      var s := Session(sessionId, userId, "New Chat", selection);
      Ok(SessionLoad(st.(sessions := st.sessions[sessionId := s]), s, map[]))
  }

  /** `getChatMessage` / `getOneById`: a message of the given session. */
  function GetChatMessage(st: Store, sessionId: string, messageId: string): (r: Result<Message, ChatError>)
    ensures r.Ok? <==> messageId in st.messages && st.messages[messageId].sessionId == sessionId
    ensures r.Ok? ==> r.value == st.messages[messageId]
    ensures r.Err? ==> r == Err(NotFound("Chat message not found"))
  {
    if messageId in st.messages && st.messages[messageId].sessionId == sessionId then Ok(st.messages[messageId])
    else Err(NotFound("Chat message not found"))
  }

  /** `createChatMessage`: the primary key must be free. */
  function InsertMessage(st: Store, m: Message): (r: Result<Store, ChatError>)
    ensures r.Ok? <==> m.id !in st.messages
    ensures r.Ok? ==> r.value == st.(messages := st.messages[m.id := m])
  {
    if m.id in st.messages then Err(StorageRejected("A message with this id already exists"))
    else Ok(st.(messages := st.messages[m.id := m]))
  }

  /** `updateChatMessage`: a partial update; updating a missing row changes nothing. */
  function UpdateMessage(st: Store, id: string, content: Option<string>, status: Option<MessageStatus>): (r: Store)
    ensures r.sessions == st.sessions && r.messages.Keys == st.messages.Keys
    ensures forall k :: k in st.messages && k != id ==> r.messages[k] == st.messages[k]
    ensures id in st.messages ==>
      r.messages[id].content == (if content.Some? then content.value else st.messages[id].content) &&
      r.messages[id].status == (if status.Some? then status.value else st.messages[id].status) &&
      r.messages[id] == st.messages[id].(content := r.messages[id].content, status := r.messages[id].status)
  {
    if id !in st.messages then st
    else
      var m := st.messages[id];
      var m' := m.(content := if content.Some? then content.value else m.content,
                   status := if status.Some? then status.value else m.status);
      st.(messages := st.messages[id := m'])
  }

  /** `saveHumanMessage`: the author's first name, or "User"; always a success. */
  function HumanMessage(id: string, sessionId: string, user: User, content: string,
                        previousMessageId: Option<string>, revisionOfMessageId: Option<string>,
                        selection: ModelSelection): (m: Message)
    ensures m.id == id && m.sessionId == sessionId && m.msgType == Human && m.status == Success
    ensures m.content == content && m.previousMessageId == previousMessageId
    ensures m.retryOfMessageId.None? && m.revisionOfMessageId == revisionOfMessageId
    ensures m.name == (if user.firstName != "" then user.firstName else "User")
    ensures m.executionId.None? && m.execution.None? && m.selection == selection
  {
    Message(id, sessionId, Human, if user.firstName != "" then user.firstName else "User", content, Success,
            previousMessageId, None, revisionOfMessageId, None, None, selection)
  }

  /** `link ?? id`: the original of a retry or revision chain. */
  function ChainRoot(link: Option<string>, id: string): (r: string)
    ensures link.Some? ==> r == link.value
    ensures link.None? ==> r == id
  {
    if link.Some? then link.value else id
  }

  /** A chain of retries (or revisions), each made from the one before, all
      point at the first message of the chain. */
  lemma {:induction false} RetryChainPointsAtOriginal(chain: seq<Message>)
    requires |chain| > 0 && chain[0].retryOfMessageId.None?
    requires forall k :: 1 <= k < |chain| ==>
      chain[k].retryOfMessageId == Some(ChainRoot(chain[k - 1].retryOfMessageId, chain[k - 1].id))
    ensures forall k :: 1 <= k < |chain| ==> chain[k].retryOfMessageId == Some(chain[0].id)
    decreases |chain|
  {
    if |chain| > 1 {
      var front := chain[..|chain| - 1];
      RetryChainPointsAtOriginal(front);
      var last := |chain| - 1;
      if last > 1 {
        assert chain[last - 1] == front[last - 1];
      }
      assert chain[last].retryOfMessageId == Some(chain[0].id);
      assert forall k :: 1 <= k < last ==> chain[k] == front[k];
    }
  }

  lemma {:induction false} RevisionChainPointsAtOriginal(chain: seq<Message>)
    requires |chain| > 0 && chain[0].revisionOfMessageId.None?
    requires forall k :: 1 <= k < |chain| ==>
      chain[k].revisionOfMessageId == Some(ChainRoot(chain[k - 1].revisionOfMessageId, chain[k - 1].id))
    ensures forall k :: 1 <= k < |chain| ==> chain[k].revisionOfMessageId == Some(chain[0].id)
    decreases |chain|
  {
    if |chain| > 1 {
      var front := chain[..|chain| - 1];
      RevisionChainPointsAtOriginal(front);
      var last := |chain| - 1;
      if last > 1 {
        assert chain[last - 1] == front[last - 1];
      }
      assert chain[last].revisionOfMessageId == Some(chain[0].id);
      assert forall k :: 1 <= k < last ==> chain[k] == front[k];
    }
  }

  // ---------------------------------------------------------------------------
  // Preparing the workflow of a turn

  datatype PreparedWorkflow =
    | BaseChat(graph: ChatGraph, projectId: string)
    | CustomAgent(run: CustomAgentRun)

  /** What the service hands to the execution step: the workflow, the id the
      AI reply will follow, the retry link and the selection to record. */
  datatype Turn = Turn(workflow: PreparedWorkflow, previousMessageId: string,
                       retryOfMessageId: Option<string>, selection: ModelSelection)

  /** A custom agent runs the user's workflow; otherwise the credentials are
      checked and the base-chat graph is generated in the credential's project. */
  function PrepareWorkflow(selected: ModelSelection, credentials: map<string, Option<string>>,
                           accessible: seq<Credential>, found: Option<WorkflowEntity>,
                           sessionId: string, history: seq<Message>, message: string, generateTitle: bool)
    : (r: Result<PreparedWorkflow, ChatError>)
    ensures selected.provider == N8n ==>
      (r.Ok? <==> PrepareCustomAgentWorkflow(found, sessionId, message).Ok?) &&
      (r.Ok? ==> r.value.CustomAgent? && r.value.run.trigger.chatInput == message)
    ensures selected.provider != N8n ==>
      (r.Ok? <==> EnsureCredentials(selected.provider, credentials, accessible).Ok?) &&
      (r.Ok? ==> (r.value.BaseChat? &&
        r.value.projectId == EnsureCredentials(selected.provider, credentials, accessible).value.projectId &&
        CreateModelNode(selected).Ok? &&
        r.value.graph.nodes == ChatGraphNodes(CreateModelNode(selected).value, generateTitle) &&
        r.value.graph.memorySeed == MemorySeed(history) &&
        r.value.graph.trigger == TriggerPayload(ChatTriggerName, sessionId, "sendMessage", message)))
  {
    if selected.provider == N8n then
      match PrepareCustomAgentWorkflow(found, sessionId, message)
      case Err(e) => Err(e)
      case Ok(run) => Ok(CustomAgent(run))
    else
      match EnsureCredentials(selected.provider, credentials, accessible)
      case Err(e) => Err(e)
      case Ok(c) =>
        match PrepareChatWorkflow(sessionId, history, message, selected, generateTitle)
        case Err(e) => Err(e)
        case Ok(g) => Ok(BaseChat(g, c.projectId))
  }

  /** The title agent of a generated graph is disabled exactly when no title is wanted. */
  lemma TitleGate(selected: ModelSelection, credentials: map<string, Option<string>>,
                  accessible: seq<Credential>, found: Option<WorkflowEntity>,
                  sessionId: string, history: seq<Message>, message: string, generateTitle: bool)
    requires PrepareWorkflow(selected, credentials, accessible, found, sessionId, history, message, generateTitle).Ok?
    requires selected.provider != N8n
    ensures var g := PrepareWorkflow(selected, credentials, accessible, found, sessionId, history, message, generateTitle).value.graph;
      |g.nodes| == 7 && g.nodes[6].name == TitleGeneratorAgentName && g.nodes[6].disabled == !generateTitle &&
      forall i :: 0 <= i < 6 ==> !g.nodes[i].disabled
  {
    ChatGraphNodesNamed(CreateModelNode(selected).value, generateTitle);
  }

  // ---------------------------------------------------------------------------
  // The transactions

  datatype HumanMessagePayload = HumanMessagePayload(
    sessionId: string, messageId: string, message: string, model: ModelSelection,
    credentials: map<string, Option<string>>, previousMessageId: Option<string>)

  datatype EditMessagePayload = EditMessagePayload(
    sessionId: string, editId: string, messageId: string, message: string, model: ModelSelection,
    credentials: map<string, Option<string>>)

  datatype RegenerateMessagePayload = RegenerateMessagePayload(
    sessionId: string, retryId: string, model: ModelSelection, credentials: map<string, Option<string>>)

  /** The transaction of `sendHumanMessage`: load or create the session, check
      the previous message, record the human message, and prepare the workflow
      whose reply follows it. A title is generated only for a conversation's
      first message (`previousMessageId === null`). */
  function SendHumanMessagePlan(st: Store, user: User, p: HumanMessagePayload,
                                found: Option<WorkflowEntity>, accessible: seq<Credential>)
    : (r: Result<(Store, Turn), ChatError>)
    ensures r.Ok? ==>
      p.messageId !in st.messages &&
      r.value.0.messages == st.messages[p.messageId := HumanMessage(p.messageId, p.sessionId, user, p.message,
                                                                      p.previousMessageId, None,
                                                                      SelectedModel(p.model, p.credentials))] &&
      p.sessionId in r.value.0.sessions && r.value.0.sessions[p.sessionId].ownerId == user.id &&
      r.value.0.sessions.Keys == st.sessions.Keys + {p.sessionId} &&
      r.value.1.previousMessageId == p.messageId && r.value.1.retryOfMessageId.None? &&
      r.value.1.selection == SelectedModel(p.model, p.credentials)
    ensures r.Ok? ==>
      GetChatSession(st, user.id, p.sessionId, Some(SelectedModel(p.model, p.credentials)), true).Ok? &&
      r.value.0.sessions == GetChatSession(st, user.id, p.sessionId, Some(SelectedModel(p.model, p.credentials)), true).value.store.sessions
    ensures r.Ok? && IdTruthy(p.previousMessageId) ==>
      p.previousMessageId.value in st.messages && st.messages[p.previousMessageId.value].sessionId == p.sessionId
    ensures (GetChatSession(st, user.id, p.sessionId, Some(SelectedModel(p.model, p.credentials)), true).Ok? &&
             IdTruthy(p.previousMessageId) &&
             !(p.previousMessageId.value in st.messages && st.messages[p.previousMessageId.value].sessionId == p.sessionId)) ==>
      r == Err(BadRequest("The previous message does not exist in the session"))
    ensures r.Ok? && p.model.provider != N8n ==>
      r.value.1.workflow.BaseChat? &&
      r.value.1.workflow.graph.nodes ==
        ChatGraphNodes(CreateModelNode(SelectedModel(p.model, p.credentials)).value, p.previousMessageId.None?) &&
      GetChatSession(st, user.id, p.sessionId, Some(SelectedModel(p.model, p.credentials)), true).Ok? &&
      r.value.1.workflow.graph.memorySeed ==
        MemorySeed(History(GetChatSession(st, user.id, p.sessionId, Some(SelectedModel(p.model, p.credentials)), true).value.messages,
                           p.previousMessageId))
  {
    var selected := SelectedModel(p.model, p.credentials);
    match GetChatSession(st, user.id, p.sessionId, Some(selected), true)
    case Err(e) => Err(e)
    case Ok(load) =>
      if IdTruthy(p.previousMessageId) && GetChatMessage(load.store, p.sessionId, p.previousMessageId.value).Err? then
        Err(BadRequest("The previous message does not exist in the session"))
      else
        var history := History(load.messages, p.previousMessageId);
        match InsertMessage(load.store, HumanMessage(p.messageId, p.sessionId, user, p.message, p.previousMessageId, None, selected))
        case Err(e) => Err(e)
        case Ok(st2) =>
          match PrepareWorkflow(selected, p.credentials, accessible, found, p.sessionId, history, p.message,
                                p.previousMessageId.None?)
          case Err(e) => Err(e)
          case Ok(w) => Ok((st2, Turn(w, p.messageId, None, selected)))
  }

  /** The transaction of `editMessage`. Only human and AI messages can be
      edited; an AI edit overwrites its content and runs nothing; a human edit
      records a new revision beside the edited message (same parent, pointing
      at the original of the revision chain) and prepares a reply to it, never
      with a new title. */
  function EditMessagePlan(st: Store, user: User, p: EditMessagePayload,
                           found: Option<WorkflowEntity>, accessible: seq<Credential>)
    : (r: Result<(Store, Option<Turn>), ChatError>)
    ensures GetChatSession(st, user.id, p.sessionId, Some(SelectedModel(p.model, p.credentials)), true).Ok? ==>
      var st1 := GetChatSession(st, user.id, p.sessionId, Some(SelectedModel(p.model, p.credentials)), true).value.store;
      (GetChatMessage(st1, p.sessionId, p.editId).Err? ==> r == Err(NotFound("Chat message not found"))) &&
      ((GetChatMessage(st1, p.sessionId, p.editId).Ok? && st1.messages[p.editId].msgType != Human &&
          st1.messages[p.editId].msgType != AI) ==> r == Err(BadRequest("Only human and AI messages can be edited"))) &&
      (GetChatMessage(st1, p.sessionId, p.editId).Ok? && st1.messages[p.editId].msgType == AI ==>
         r == Ok((UpdateMessage(st1, p.editId, Some(p.message), None), None)))
    ensures r.Ok? && r.value.1.Some? ==>
      p.editId in st.messages && st.messages[p.editId].msgType == Human && st.messages[p.editId].sessionId == p.sessionId &&
      var edited := st.messages[p.editId];
      p.messageId !in st.messages &&
      r.value.0.messages == st.messages[p.messageId := HumanMessage(
        p.messageId, p.sessionId, user, p.message, edited.previousMessageId,
        Some(ChainRoot(edited.revisionOfMessageId, edited.id)), SelectedModel(p.model, p.credentials))] &&
      r.value.1.value.previousMessageId == p.messageId && r.value.1.value.retryOfMessageId.None?
    ensures r.Ok? ==>
      GetChatSession(st, user.id, p.sessionId, Some(SelectedModel(p.model, p.credentials)), true).Ok? &&
      r.value.0.sessions == GetChatSession(st, user.id, p.sessionId, Some(SelectedModel(p.model, p.credentials)), true).value.store.sessions
    ensures r.Ok? && r.value.1.Some? && p.model.provider != N8n ==>
      r.value.1.value.workflow.BaseChat? &&
      r.value.1.value.workflow.graph.nodes ==
        ChatGraphNodes(CreateModelNode(SelectedModel(p.model, p.credentials)).value, false)
  {
    var selected := SelectedModel(p.model, p.credentials);
    match GetChatSession(st, user.id, p.sessionId, Some(selected), true)
    case Err(e) => Err(e)
    case Ok(load) =>
      match GetChatMessage(load.store, p.sessionId, p.editId)
      case Err(e) => Err(e)
      case Ok(edited) =>
        if edited.msgType != AI && edited.msgType != Human then Err(BadRequest("Only human and AI messages can be edited"))
        else if edited.msgType == AI then Ok((UpdateMessage(load.store, p.editId, Some(p.message), None), None))
        else
          var history := History(load.messages, edited.previousMessageId);
          var revisionOf := ChainRoot(edited.revisionOfMessageId, edited.id);
          match InsertMessage(load.store, HumanMessage(p.messageId, p.sessionId, user, p.message,
                                                       edited.previousMessageId, Some(revisionOf), selected))
          case Err(e) => Err(e)
          case Ok(st2) =>
            match PrepareWorkflow(selected, p.credentials, accessible, found, p.sessionId, history, p.message, false)
            case Err(e) => Err(e)
            case Ok(w) => Ok((st2, Some(Turn(w, p.messageId, None, selected))))
  }

  /** The position of the last human message of a history. */
  function LastHumanIndex(history: seq<Message>): (r: Option<nat>)
    ensures r.None? <==> forall i :: 0 <= i < |history| ==> history[i].msgType != Human
    ensures r.Some? ==> (r.value < |history| && history[r.value].msgType == Human &&
      forall j :: r.value < j < |history| ==> history[j].msgType != Human)
  {
    if history == [] then None
    else if history[|history| - 1].msgType == Human then Some(|history| - 1)
    else LastHumanIndex(history[..|history| - 1])
  }

  /** What a regeneration replays: the history cut after its last human
      message, that message, and the original of the retry chain. */
  datatype RetryBasis = RetryBasis(history: seq<Message>, lastHuman: Message, retryOfMessageId: string)

  /** The checks of `regenerateAIMessage`: the session must exist, the message
      must be one of its AI messages, and its history must hold a human
      message; the history is then truncated after the last one. */
  function RegenerateBasis(st: Store, user: User, p: RegenerateMessagePayload): (r: Result<RetryBasis, ChatError>)
    ensures !(p.sessionId in st.sessions && st.sessions[p.sessionId].ownerId == user.id) ==>
      r == Err(NotFound("Chat session not found"))
    ensures p.sessionId in st.sessions && st.sessions[p.sessionId].ownerId == user.id ==>
      (GetChatMessage(st, p.sessionId, p.retryId).Err? ==> r == Err(NotFound("Chat message not found"))) &&
      (GetChatMessage(st, p.sessionId, p.retryId).Ok? && st.messages[p.retryId].msgType != AI ==>
        r == Err(BadRequest("Can only retry AI messages")))
    ensures r.Ok? ==>
      p.retryId in st.messages && st.messages[p.retryId].msgType == AI &&
      var retried := st.messages[p.retryId];
      var full := History(SessionMessages(st, p.sessionId), retried.previousMessageId);
      |r.value.history| > 0 && r.value.history <= full &&
      r.value.history[|r.value.history| - 1] == r.value.lastHuman && r.value.lastHuman.msgType == Human &&
      (forall j :: |r.value.history| <= j < |full| ==> full[j].msgType != Human) &&
      r.value.retryOfMessageId == ChainRoot(retried.retryOfMessageId, retried.id)
    ensures (GetChatSession(st, user.id, p.sessionId, None, false).Ok? && GetChatMessage(st, p.sessionId, p.retryId).Ok? &&
             st.messages[p.retryId].msgType == AI &&
             forall i :: 0 <= i < |History(SessionMessages(st, p.sessionId), st.messages[p.retryId].previousMessageId)| ==>
               History(SessionMessages(st, p.sessionId), st.messages[p.retryId].previousMessageId)[i].msgType != Human) ==>
      r == Err(BadRequest("No human message found to base the retry on"))
  {
    match GetChatSession(st, user.id, p.sessionId, None, false)
    case Err(e) => Err(e)
    case Ok(load) =>
      match GetChatMessage(st, p.sessionId, p.retryId)
      case Err(e) => Err(e)
      case Ok(retried) =>
        if retried.msgType != AI then Err(BadRequest("Can only retry AI messages"))
        else
          var history := History(load.messages, retried.previousMessageId);
          match LastHumanIndex(history)
          case None => Err(BadRequest("No human message found to base the retry on"))
          case Some(i) => Ok(RetryBasis(history[..i + 1], history[i], ChainRoot(retried.retryOfMessageId, retried.id)))
  }

  /** The transaction of `regenerateAIMessage`; it writes nothing. The new
      reply follows the last human message, replays its content and points
      at the original of the retry chain. */
  function RegeneratePlan(st: Store, user: User, p: RegenerateMessagePayload,
                          found: Option<WorkflowEntity>, accessible: seq<Credential>)
    : (r: Result<Turn, ChatError>)
    ensures RegenerateBasis(st, user, p).Err? ==> r == Err(RegenerateBasis(st, user, p).error)
    ensures r.Ok? ==>
      var b := RegenerateBasis(st, user, p).value;
      RegenerateBasis(st, user, p).Ok? &&
      r.value.previousMessageId == b.lastHuman.id && r.value.retryOfMessageId == Some(b.retryOfMessageId)
    ensures r.Ok? && p.model.provider != N8n ==>
      var b := RegenerateBasis(st, user, p).value;
      r.value.workflow.BaseChat? && r.value.workflow.graph.memorySeed == MemorySeed(b.history) &&
      r.value.workflow.graph.trigger.chatInput == b.lastHuman.content &&
      r.value.workflow.graph.nodes == ChatGraphNodes(CreateModelNode(SelectedModel(p.model, p.credentials)).value, false)
  {
    match RegenerateBasis(st, user, p)
    case Err(e) => Err(e)
    case Ok(b) =>
      var selected := SelectedModel(p.model, p.credentials);
      match PrepareWorkflow(selected, p.credentials, accessible, found, p.sessionId, b.history, b.lastHuman.content, false)
      case Err(e) => Err(e)
      case Ok(w) => Ok(Turn(w, b.lastHuman.id, Some(b.retryOfMessageId), selected))
  }

  /** When the stored messages are well keyed, the replayed history is a
      parent-linked chain ending at the last human message, whose id the new
      reply follows. */
  lemma RegenerateFollowsLastHuman(st: Store, user: User, p: RegenerateMessagePayload)
    requires StoreValid(st)
    requires RegenerateBasis(st, user, p).Ok?
    ensures var b := RegenerateBasis(st, user, p).value;
      (forall k :: 0 <= k < |b.history| - 1 ==> b.history[k + 1].previousMessageId == Some(b.history[k].id)) &&
      b.lastHuman.id in st.messages && st.messages[b.lastHuman.id] == b.lastHuman &&
      b.lastHuman.sessionId == p.sessionId
  {
    var retried := st.messages[p.retryId];
    var msgs := SessionMessages(st, p.sessionId);
    assert WellKeyed(msgs);
    HistoryOrdered(msgs, retried.previousMessageId);
  }

  /** `stopGeneration`'s checks, in order: an AI message, linked to an
      execution (a non-zero id and a loaded row), and still running. */
  function StopCheck(m: Message): (r: Result<ExecutionRef, ChatError>)
    ensures m.msgType != AI ==> r == Err(BadRequest("Can only stop AI messages"))
    ensures m.msgType == AI && (m.executionId.None? || m.executionId == Some(0) || m.execution.None?) ==>
      r == Err(BadRequest("Message is not associated with a workflow execution"))
    ensures (m.msgType == AI && m.executionId.Some? && m.executionId != Some(0) && m.execution.Some? &&
             m.status != Running) ==> r == Err(BadRequest("Can only stop messages that are currently running"))
    ensures r.Ok? <==> (m.msgType == AI && m.executionId.Some? && m.executionId != Some(0) &&
                        m.execution.Some? && m.status == Running)
    ensures r.Ok? ==> r.value == m.execution.value
  {
    if m.msgType != AI then Err(BadRequest("Can only stop AI messages"))
    else if m.executionId.None? || m.executionId == Some(0) || m.execution.None? then
      Err(BadRequest("Message is not associated with a workflow execution"))
    else if m.status != Running then Err(BadRequest("Can only stop messages that are currently running"))
    else Ok(m.execution.value)
  }

  /** `stopGeneration`: after the checks the execution is stopped and the
      message alone is marked cancelled; nothing else changes. */
  function StopPlan(st: Store, user: User, sessionId: string, messageId: string)
    : (r: Result<(Store, ExecutionRef), ChatError>)
    ensures r.Ok? <==>
      sessionId in st.sessions && st.sessions[sessionId].ownerId == user.id &&
      messageId in st.messages && st.messages[messageId].sessionId == sessionId &&
      StopCheck(st.messages[messageId]).Ok?
    ensures r.Ok? ==>
      r.value.0 == st.(messages := st.messages[messageId := st.messages[messageId].(status := Cancelled)]) &&
      r.value.1 == st.messages[messageId].execution.value
  {
    match GetChatSession(st, user.id, sessionId, None, false)
    case Err(e) => Err(e)
    case Ok(load) =>
      match GetChatMessage(st, sessionId, messageId)
      case Err(e) => Err(e)
      case Ok(m) =>
        match StopCheck(m)
        case Err(e) => Err(e)
        case Ok(exec) => Ok((UpdateMessage(st, messageId, None, Some(Cancelled)), exec))
  }

  // ---------------------------------------------------------------------------
  // Persisting a streamed reply

  /** A reply as the chunk aggregator reports it. */
  datatype AggregatedMessage = AggregatedMessage(
    id: string, previousMessageId: Option<string>, content: string, status: MessageStatus)

  /** The status as the database stores it. */
  function StatusName(s: MessageStatus): (r: string)
    ensures r != ""
  {
    match s
    case Running => "running"
    case Success => "success"
    case Error => "error"
    case Cancelled => "cancelled"
  }

  /** `saveAIMessage` (the `onBegin` handler): a new AI message named "AI". */
  function AIMessage(m: AggregatedMessage, sessionId: string, executionId: Option<int>,
                     selection: ModelSelection, retryOfMessageId: Option<string>): (r: Message)
    ensures r.id == m.id && r.msgType == AI && r.name == "AI" && r.sessionId == sessionId
    ensures r.previousMessageId == m.previousMessageId && r.retryOfMessageId == retryOfMessageId
    ensures r.content == m.content && r.status == m.status && r.executionId == executionId
    ensures r.revisionOfMessageId.None? && r.execution.None? && r.selection == selection
  {
    Message(m.id, sessionId, AI, "AI", m.content, m.status, m.previousMessageId, retryOfMessageId, None,
            executionId, None, selection)
  }

  /** The `onError` handler as written: it saves the partial content, and
      unless the reply was cancelled meanwhile, then writes the status name
      into the content field. */
  function OnErrorAsWritten(st: Store, m: AggregatedMessage): (r: Store)
  {
    var st1 := UpdateMessage(st, m.id, Some(m.content), None);
    if m.id in st1.messages && st1.messages[m.id].status == Cancelled then st1
    else UpdateMessage(st1, m.id, Some(StatusName(m.status)), None)
  }

  /** The `onError` handler as evidently intended: it saves the partial
      content and, unless the reply was cancelled meanwhile, its status. */
  function OnError(st: Store, m: AggregatedMessage): (r: Store)
    ensures r.sessions == st.sessions && r.messages.Keys == st.messages.Keys
    ensures forall k :: k in st.messages && k != m.id ==> r.messages[k] == st.messages[k]
    ensures m.id in st.messages ==> r.messages[m.id].content == m.content
    ensures m.id in st.messages && st.messages[m.id].status != Cancelled ==>
      r.messages[m.id] == st.messages[m.id].(content := m.content, status := m.status)
    ensures m.id in st.messages && st.messages[m.id].status == Cancelled ==>
      r.messages[m.id] == st.messages[m.id].(content := m.content)
  {
    var st1 := UpdateMessage(st, m.id, Some(m.content), None);
    if m.id in st1.messages && st1.messages[m.id].status == Cancelled then st1
    else UpdateMessage(st1, m.id, None, Some(m.status))
  }

  /** As written, a failing reply that was running loses its text (replaced
      by "error") and stays "running" forever. */
  lemma OnErrorAsWrittenLosesReply(st: Store, m: AggregatedMessage)
    requires m.id in st.messages && st.messages[m.id].status == Running
    requires m.status == Error && m.content != "error"
    ensures OnErrorAsWritten(st, m).messages[m.id].content == "error"
    ensures OnErrorAsWritten(st, m).messages[m.id].content != m.content
    ensures OnErrorAsWritten(st, m).messages[m.id].status == Running
    ensures OnError(st, m).messages[m.id].status == Error && OnError(st, m).messages[m.id].content == m.content
  {
  }

  /** The persisted sessions and messages, updated by the service's operations. */
  class ChatStore {
    var sessions: map<string, Session>
    var messages: map<string, Message>

    function Snapshot(): Store
      reads this
    {
      Store(sessions, messages)
    }

    ghost predicate Valid()
      reads this
    {
      StoreValid(Snapshot())
    }

    constructor()
      ensures sessions == map[] && messages == map[]
      ensures Valid()
    {
      sessions := map[];
      messages := map[];
    }

    /** Commits a transaction's writes, or nothing when it failed. */
    method Commit(planned: Result<Store, ChatError>)
      modifies this
      ensures planned.Ok? ==> Snapshot() == planned.value
      ensures planned.Err? ==> Snapshot() == old(Snapshot())
    {
      if planned.Ok? {
        sessions := planned.value.sessions;
        messages := planned.value.messages;
      }
    }

    method SendHumanMessage(user: User, p: HumanMessagePayload, found: Option<WorkflowEntity>, accessible: seq<Credential>)
      returns (r: Result<Turn, ChatError>)
      requires Valid()
      modifies this
      ensures Valid()
      ensures match SendHumanMessagePlan(old(Snapshot()), user, p, found, accessible)
        case Ok((st, turn)) => Snapshot() == st && r == Ok(turn)
        case Err(e) => Snapshot() == old(Snapshot()) && r == Err(e)
    {
      var planned := SendHumanMessagePlan(Snapshot(), user, p, found, accessible);
      match planned
      case Ok((st, turn)) =>
        SendPreservesValid(Snapshot(), user, p, found, accessible);
        Commit(Ok(st));
        r := Ok(turn);
      case Err(e) =>
        r := Err(e);
    }

    method EditMessage(user: User, p: EditMessagePayload, found: Option<WorkflowEntity>, accessible: seq<Credential>)
      returns (r: Result<Option<Turn>, ChatError>)
      requires Valid()
      modifies this
      ensures Valid()
      ensures match EditMessagePlan(old(Snapshot()), user, p, found, accessible)
        case Ok((st, turn)) => Snapshot() == st && r == Ok(turn)
        case Err(e) => Snapshot() == old(Snapshot()) && r == Err(e)
    {
      var planned := EditMessagePlan(Snapshot(), user, p, found, accessible);
      match planned
      case Ok((st, turn)) =>
        EditPreservesValid(Snapshot(), user, p, found, accessible);
        Commit(Ok(st));
        r := Ok(turn);
      case Err(e) =>
        r := Err(e);
    }

    method RegenerateAIMessage(user: User, p: RegenerateMessagePayload, found: Option<WorkflowEntity>,
                               accessible: seq<Credential>)
      returns (r: Result<Turn, ChatError>)
      ensures r == RegeneratePlan(Snapshot(), user, p, found, accessible)
    {
      r := RegeneratePlan(Snapshot(), user, p, found, accessible);
    }

    method StopGeneration(user: User, sessionId: string, messageId: string)
      returns (r: Result<ExecutionRef, ChatError>)
      requires Valid()
      modifies this
      ensures Valid()
      ensures match StopPlan(old(Snapshot()), user, sessionId, messageId)
        case Ok((st, exec)) => Snapshot() == st && r == Ok(exec)
        case Err(e) => Snapshot() == old(Snapshot()) && r == Err(e)
    {
      match StopPlan(Snapshot(), user, sessionId, messageId)
      case Ok((st, exec)) =>
        StopPreservesValid(Snapshot(), user, sessionId, messageId);
        Commit(Ok(st));
        r := Ok(exec);
      case Err(e) =>
        r := Err(e);
    }

    /** `onBegin`: the reply is recorded as an AI message of the turn's
        session, which the turn has already stored. */
    method OnBegin(m: AggregatedMessage, sessionId: string, executionId: Option<int>,
                   selection: ModelSelection, retryOfMessageId: Option<string>)
      returns (r: Result<(), ChatError>)
      requires Valid() && sessionId in sessions
      modifies this
      ensures Valid()
      ensures m.id !in old(messages) ==>
        r.Ok? && messages == old(messages)[m.id := AIMessage(m, sessionId, executionId, selection, retryOfMessageId)]
      ensures m.id in old(messages) ==> r.Err? && messages == old(messages)
      ensures sessions == old(sessions)
    {
      var planned := InsertMessage(Snapshot(), AIMessage(m, sessionId, executionId, selection, retryOfMessageId));
      if planned.Ok? {
        InsertKeepsValid(Snapshot(), AIMessage(m, sessionId, executionId, selection, retryOfMessageId));
      }
      Commit(planned);
      r := if planned.Ok? then Ok(()) else Err(planned.error);
    }

    /** `onEnd`: the final content and status are saved. */
    method OnEnd(m: AggregatedMessage)
      requires Valid()
      modifies this
      ensures Valid()
      ensures Snapshot() == UpdateMessage(old(Snapshot()), m.id, Some(m.content), Some(m.status))
    {
      UpdateKeepsValid(Snapshot(), m.id, Some(m.content), Some(m.status));
      Commit(Ok(UpdateMessage(Snapshot(), m.id, Some(m.content), Some(m.status))));
    }

    method OnErrorHandler(m: AggregatedMessage)
      requires Valid()
      modifies this
      ensures Valid()
      ensures Snapshot() == OnError(old(Snapshot()), m)
    {
      UpdateKeepsValid(Snapshot(), m.id, Some(m.content), None);
      Commit(Ok(UpdateMessage(Snapshot(), m.id, Some(m.content), None)));
      if m.id in messages && messages[m.id].status == Cancelled {
        return;
      }
      UpdateKeepsValid(Snapshot(), m.id, None, Some(m.status));
      Commit(Ok(UpdateMessage(Snapshot(), m.id, None, Some(m.status))));
    }

    /** `updateChatTitle` after a successful turn that produced a title. */
    method FinishTurn(sessionId: string, outcome: TurnEnd)
      requires Valid()
      modifies this
      ensures Valid()
      ensures outcome.TurnSucceeded? && outcome.newTitle.Some? && sessionId in old(sessions) ==>
        sessions == old(sessions)[sessionId := old(sessions)[sessionId].(title := outcome.newTitle.value)]
      ensures !(outcome.TurnSucceeded? && outcome.newTitle.Some? && sessionId in old(sessions)) ==>
        sessions == old(sessions)
      ensures messages == old(messages)
    {
      if outcome.TurnSucceeded? && outcome.newTitle.Some? && sessionId in sessions {
        sessions := sessions[sessionId := sessions[sessionId].(title := outcome.newTitle.value)];
      }
    }
  }

  // ---------------------------------------------------------------------------
  // The store invariant

  /** Loading (or creating) a session keeps the store well formed. */
  lemma LoadKeepsValid(st: Store, userId: string, sessionId: string, selection: Option<ModelSelection>)
    requires StoreValid(st)
    requires GetChatSession(st, userId, sessionId, selection, true).Ok?
    ensures StoreValid(GetChatSession(st, userId, sessionId, selection, true).value.store)
  {
  }

  /** Storing a message of a stored session under its own id keeps the store
      well formed. */
  lemma InsertKeepsValid(st: Store, m: Message)
    requires StoreValid(st) && m.sessionId in st.sessions
    requires InsertMessage(st, m).Ok?
    ensures StoreValid(InsertMessage(st, m).value)
  {
  }

  /** A partial update keeps the store well formed. */
  lemma UpdateKeepsValid(st: Store, id: string, content: Option<string>, status: Option<MessageStatus>)
    requires StoreValid(st)
    ensures StoreValid(UpdateMessage(st, id, content, status))
  {
  }

  lemma SendPreservesValid(st: Store, user: User, p: HumanMessagePayload,
                           found: Option<WorkflowEntity>, accessible: seq<Credential>)
    requires StoreValid(st)
    requires SendHumanMessagePlan(st, user, p, found, accessible).Ok?
    ensures StoreValid(SendHumanMessagePlan(st, user, p, found, accessible).value.0)
  {
    var selected := SelectedModel(p.model, p.credentials);
    var load := GetChatSession(st, user.id, p.sessionId, Some(selected), true).value;
    LoadKeepsValid(st, user.id, p.sessionId, Some(selected));
    var m := HumanMessage(p.messageId, p.sessionId, user, p.message, p.previousMessageId, None, selected);
    InsertKeepsValid(load.store, m);
  }

  lemma EditPreservesValid(st: Store, user: User, p: EditMessagePayload,
                           found: Option<WorkflowEntity>, accessible: seq<Credential>)
    requires StoreValid(st)
    requires EditMessagePlan(st, user, p, found, accessible).Ok?
    ensures StoreValid(EditMessagePlan(st, user, p, found, accessible).value.0)
  {
    var selected := SelectedModel(p.model, p.credentials);
    match GetChatSession(st, user.id, p.sessionId, Some(selected), true)
    case Ok(load) =>
      LoadKeepsValid(st, user.id, p.sessionId, Some(selected));
      match GetChatMessage(load.store, p.sessionId, p.editId)
      case Ok(edited) =>
        if edited.msgType == AI {
          UpdateKeepsValid(load.store, p.editId, Some(p.message), None);
        } else {
          var m := HumanMessage(p.messageId, p.sessionId, user, p.message, edited.previousMessageId,
                                Some(ChainRoot(edited.revisionOfMessageId, edited.id)), selected);
          InsertKeepsValid(load.store, m);
        }
  }

  lemma StopPreservesValid(st: Store, user: User, sessionId: string, messageId: string)
    requires StoreValid(st)
    requires StopPlan(st, user, sessionId, messageId).Ok?
    ensures StoreValid(StopPlan(st, user, sessionId, messageId).value.0)
  {
  }
}
