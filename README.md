# n8n service core, modelled in Dafny

This project models nine source files of the n8n workflow-automation server,
grouped below in six parts, and states what each one promises.

- **Chat hub service.** It covers the parent-pointer resolver that turns a
  session's message tree into a conversation history. It also covers the
  message-tree rules for sending, editing, regenerating and stopping a reply,
  the workflow generated for a chat turn, and the JSON-lines rewriting of the
  reply stream.
- **Data-table service.** It covers validation and transformation of rows,
  cells and filters, and the insert, upsert, update and delete control flow
  with its size-cache resets. It also covers the CSV import that maps columns
  by position.
- **Python task runner's executor.** It covers the length-prefixed pipe frame
  and its read and write loops, the per-item result assembly, the capture and
  formatting of `print` calls, the classification of the child process's exit,
  and the rule that prunes `sys.modules`.
- **MCP server helpers.** It covers the webhook path builder, the trigger
  description returned to MCP clients, the `search_workflows` options and
  preview, the tool-name and argument extractors, and the rule for which
  workflows are eligible.
- **Tools Agent (version 3).** It covers the batch loop, the iteration guard
  and request merge of `toolsAgentExecute`, and `buildSteps`, which rebuilds
  agent steps from the engine's tool results.
- **Controller registry.** It covers the order of the per-route middleware
  chain, the normalisation of the mount path, and the license and scope
  middlewares.

## Modelling style

Each part follows the form of its source:

- Loops become methods proved against a specification function: the history
  walk, the row and CSV transformations, the read and write loops, the batch
  loop and the step rebuild with its `find`.
- Objects whose state changes become classes: the chat store, the data-table
  service's call log, the pipe ends, the print capture and the module table.
- Expression-level code becomes functions with lemmas about them.

Services the code calls but does not define become function parameters or
plain inputs. These include repositories, the execution engine, credential
lookup, `validateFieldType`, `JSON.stringify`, `json.dumps`, `toISOString`,
`os.read` and `os.write` chunking, and the license and scope checks.

Modules:

| file | module |
|---|---|
| common.dfy | shared Option/Result, JSON values, JavaScript truthiness |
| chat_history.dfy | `ChatHistory`: `buildMessageHistory` |
| chat_workflow.dfy | `ChatWorkflow`: generated workflow, custom-agent checks, outputs, stream `transform` |
| chat_hub.dfy | `ChatHub`: message-tree transactions and the `ChatStore` class |
| data_table.dfy | `DataTable`: row, cell, filter and update-parameter validation |
| data_table_service.dfy | `DataTableService`: table and row operations, CSV import |
| pipe_framing.dfy | `PipeFraming`: 4-byte big-endian frame, `_read_exact`, `_write_all` |
| task_executor.dfy | `TaskExecutor`: per-item results, print capture, process outcome, `sys.modules` pruning |
| webhook_utils.dfy | `WebhookUtils` |
| tools_agent.dfy | `ToolsAgent` |
| build_steps.dfy | `BuildSteps` |
| mcp_search.dfy | `McpSearch` |
| mcp_utils.dfy | `McpUtils` |
| controller_registry.dfy | `ControllerRegistry` |

## Model

| member | source | states |
|---|---|---|
| ChatHistory.BuildMessageHistory | packages/cli/src/modules/chat-hub/chat-hub.service.ts:1403-1422 | the while loop returns exactly the specified history, and `[]` for a null or empty end id |
| ChatHistory.WalkDistinct | packages/cli/src/modules/chat-hub/chat-hub.service.ts:1409-1418 | the walk never collects an id twice nor an id already visited, so it terminates even on cyclic parent pointers |
| ChatHistory.WalkLinked | packages/cli/src/modules/chat-hub/chat-hub.service.ts:1414-1417 | every collected id after the first is a stored message whose `previousMessageId` is the id before it |
| ChatHistory.WalkMaximal | packages/cli/src/modules/chat-hub/chat-hub.service.ts:1414-1417 | the walk stops only at a root without a usable parent or at a repeated id |
| ChatHistory.PresentAll | packages/cli/src/modules/chat-hub/chat-hub.service.ts:1420 | when every id is stored, the `flatMap` keeps every message in order |
| ChatHistory.HistoryShape | packages/cli/src/modules/chat-hub/chat-hub.service.ts:1414-1420 | only the root-most collected id can be missing from the record, and missing ids are dropped rather than raising |
| ChatHistory.HistoryOrdered | packages/cli/src/modules/chat-hub/chat-hub.service.ts:1414-1420 | the history is ordered root to leaf: each message's parent is the message before it |
| ChatHistory.WalkFollowsChain | packages/cli/src/modules/chat-hub/chat-hub.service.ts:1412-1418 | on a stored, repeat-free parent chain the walk from its leaf returns the chain, root first |
| ChatHistory.ChainHistory | packages/cli/src/modules/chat-hub/chat-hub.service.ts:1403-1422 | for an acyclic, fully stored chain the history is exactly that chain's messages |
| ChatWorkflow.MemoryRoleOf | packages/cli/src/modules/chat-hub/chat-hub.service.ts:1053-1061 | human maps to user, ai to ai, and every other type to system (both directions) |
| ChatWorkflow.MemorySeed | packages/cli/src/modules/chat-hub/chat-hub.service.ts:1052-1065 | the memory seed has one entry per history message, in order, with its mapped role and content |
| ChatWorkflow.CreateModelNode | packages/cli/src/modules/chat-hub/chat-hub.service.ts:1278-1327 | fails exactly for a custom-agent selection; otherwise the node is "Chat Model" with the selected model, and only Anthropic carries `cachedResultName` |
| ChatWorkflow.ChatGraphNodeNamesDistinct | packages/cli/src/modules/chat-hub/chat-hub.service.ts:1002-1101 | the seven generated node names are pairwise distinct |
| ChatWorkflow.ChatGraphConnectionsClosed | packages/cli/src/modules/chat-hub/chat-hub.service.ts:1103-1150 | every connection leaves from and arrives at a generated node |
| ChatWorkflow.ChatGraphNodesNamed | packages/cli/src/modules/chat-hub/chat-hub.service.ts:1002-1101 | the nodes carry the seven names in order, and only the title agent can be disabled, exactly when no title is wanted |
| ChatWorkflow.PrepareChatWorkflowShape | packages/cli/src/modules/chat-hub/chat-hub.service.ts:987-1180 | the graph fails only for a custom agent; otherwise it is the seven nodes, seeded with the history, started at the chat trigger with the human message |
| ChatWorkflow.CountOfType | packages/cli/src/modules/chat-hub/chat-hub.service.ts:712-724 | the count of nodes of a type is zero exactly when no node has it |
| ChatWorkflow.FirstOfType | packages/cli/src/modules/chat-hub/chat-hub.service.ts:744 | the index of the first node of the type |
| ChatWorkflow.PrepareCustomAgentWorkflow | packages/cli/src/modules/chat-hub/chat-hub.service.ts:695-767 | accepted exactly when the workflow exists, has one chat trigger and no respond-to-chat node; the pin data is emptied and the run starts at that trigger |
| ChatWorkflow.FirstStringOutput | packages/cli/src/modules/chat-hub/chat-hub.service.ts:426-434 | found exactly when some branch's first item has a truthy string `output`, and it is the first such branch's |
| ChatWorkflow.GetAIOutput | packages/cli/src/modules/chat-hub/chat-hub.service.ts:418-437 | a text is found exactly when the last run of the named node has a branch with text, and it is the first such branch's text |
| ChatWorkflow.GetErrorMessage | packages/cli/src/modules/chat-hub/chat-hub.service.ts:410-416 | undefined exactly without an error; the description when there is one, otherwise the message |
| ChatWorkflow.ExecutionOutcome | packages/cli/src/modules/chat-hub/chat-hub.service.ts:930-978 | no execution id, a thrown await, no result, a missing execution and a failed status are each their own error; the turn ends quietly exactly on an engine cancellation; success only with a successful execution, and the new title is the title agent's output |
| ChatWorkflow.TrimStart | packages/cli/src/modules/chat-hub/chat-hub.service.ts:888 | removes exactly the leading whitespace |
| ChatWorkflow.TrimEnd | packages/cli/src/modules/chat-hub/chat-hub.service.ts:888 | removes exactly the trailing whitespace |
| ChatWorkflow.Enrich | packages/cli/src/modules/chat-hub/chat-hub.service.ts:899-907 | the chunk's own fields are kept; its metadata gains the three linkage ids and keeps every other key |
| ChatWorkflow.Transform | packages/cli/src/modules/chat-hub/chat-hub.service.ts:887-910 | blank or unparseable text passes through unchanged; a parsed chunk is ingested, enriched and written as one JSON line |
| ChatWorkflow.BlankPassesThrough | packages/cli/src/modules/chat-hub/chat-hub.service.ts:888-889 | whitespace-only text is forwarded unchanged whatever the parser does |
| ChatHub.PickCredentialId | packages/cli/src/modules/chat-hub/chat-hub.service.ts:439-448 | none for the custom-agent provider; otherwise the id stored under the provider's credential type |
| ChatHub.SelectedModel | packages/cli/src/modules/chat-hub/chat-hub.service.ts:454-457 | the selection keeps the provider, model and workflow and records the picked credential id |
| ChatHub.FindCredential | packages/cli/src/modules/chat-hub/chat-hub.service.ts:399 | found exactly when an accessible credential has the id, and it is one of them |
| ChatHub.EnsureCredentials | packages/cli/src/modules/chat-hub/chat-hub.service.ts:381-404 | no picked id is a bad request; an inaccessible id is forbidden; otherwise an accessible credential with that id |
| ChatHub.SessionMessages | packages/cli/src/modules/chat-hub/chat-hub.service.ts:462 | exactly the stored messages of the session, keyed by their ids |
| ChatHub.GetChatSession | packages/cli/src/modules/chat-hub/chat-hub.service.ts:1240-1263 | the user's own session; otherwise not found, or a new "New Chat" session with the selected model when asked to initialise; every other session keeps its value |
| ChatHub.GetChatMessage | packages/cli/src/modules/chat-hub/chat-hub.service.ts:1265-1276 | found exactly when the message is stored in that session; otherwise not found |
| ChatHub.InsertMessage | packages/cli/src/modules/chat-hub/chat-hub.service.ts:1190-1203 | an insert succeeds exactly when the id is free and adds just that message |
| ChatHub.UpdateMessage | packages/cli/src/modules/chat-hub/chat-hub.service.ts:523 | a partial update touches only the named message's given fields |
| ChatHub.HumanMessage | packages/cli/src/modules/chat-hub/chat-hub.service.ts:1182-1204 | a human, successful message named after the user (or "User") with the given links |
| ChatHub.ChainRoot | packages/cli/src/modules/chat-hub/chat-hub.service.ts:532 | `link ?? id` |
| ChatHub.RetryChainPointsAtOriginal | packages/cli/src/modules/chat-hub/chat-hub.service.ts:623 | in a chain of retries each made from the previous one, every retry points at the original message |
| ChatHub.RevisionChainPointsAtOriginal | packages/cli/src/modules/chat-hub/chat-hub.service.ts:532 | in a chain of revisions each made from the previous one, every revision points at the original message |
| ChatHub.PrepareWorkflow | packages/cli/src/modules/chat-hub/chat-hub.service.ts:671-693 | a custom agent runs the user's workflow; otherwise the credentials are checked and the generated graph is used |
| ChatHub.TitleGate | packages/cli/src/modules/chat-hub/chat-hub.service.ts:477 | the title agent of a generated graph is disabled exactly when no title is wanted |
| ChatHub.SendHumanMessagePlan | packages/cli/src/modules/chat-hub/chat-hub.service.ts:450-488 | the session is loaded or created, the previous message must exist, the human message is stored, and a title is asked for only when there is no previous message; the sessions afterwards are exactly those the session load leaves |
| ChatHub.EditMessagePlan | packages/cli/src/modules/chat-hub/chat-hub.service.ts:501-564 | only human and AI messages can be edited; an AI edit overwrites the content and runs nothing; a human edit stores a revision of the original with the same parent; the sessions afterwards are exactly those the session load leaves |
| ChatHub.LastHumanIndex | packages/cli/src/modules/chat-hub/chat-hub.service.ts:609-615 | none exactly when the history has no human message; otherwise the last human message's position |
| ChatHub.RegenerateBasis | packages/cli/src/modules/chat-hub/chat-hub.service.ts:599-623 | only AI messages can be retried; there must be a human message; the history is cut after the last one, and the retry points at the chain's original |
| ChatHub.RegeneratePlan | packages/cli/src/modules/chat-hub/chat-hub.service.ts:591-652 | writes nothing; the new reply follows the last human message and replays its content |
| ChatHub.RegenerateFollowsLastHuman | packages/cli/src/modules/chat-hub/chat-hub.service.ts:606-618 | the replayed history is a prefix of the full history that ends with the last human message |
| ChatHub.StopCheck | packages/cli/src/modules/chat-hub/chat-hub.service.ts:796-806 | the checks run in order: AI message, linked execution, running status |
| ChatHub.StopPlan | packages/cli/src/modules/chat-hub/chat-hub.service.ts:789-810 | after the checks the message's status, and nothing else, becomes cancelled |
| ChatHub.StatusName | packages/cli/src/modules/chat-hub/chat-hub.service.ts:882 | every status has a non-empty stored name |
| ChatHub.AIMessage | packages/cli/src/modules/chat-hub/chat-hub.service.ts:1206-1238 | an AI message named "AI" with the aggregated content, status and links |
| ChatHub.OnError | packages/cli/src/modules/chat-hub/chat-hub.service.ts:854-884 | the partial content is saved; a reply that was not cancelled is marked as failed; other messages are untouched |
| ChatHub.OnErrorAsWrittenLosesReply | packages/cli/src/modules/chat-hub/chat-hub.service.ts:881-883 | as written, a failing running reply has its text replaced by the status name and stays running |
| ChatHub.ChatStore.constructor | packages/cli/src/modules/chat-hub/chat-hub.service.ts:1240-1263 | an empty store is valid |
| ChatHub.ChatStore.Commit | packages/cli/src/modules/chat-hub/chat-hub.service.ts:459 | a transaction's writes are applied all at once, or not at all when it failed |
| ChatHub.ChatStore.SendHumanMessage | packages/cli/src/modules/chat-hub/chat-hub.service.ts:450-488 | the store becomes the plan's store, or is unchanged on failure; the store stays well formed |
| ChatHub.ChatStore.EditMessage | packages/cli/src/modules/chat-hub/chat-hub.service.ts:501-564 | the store becomes the plan's store, or is unchanged on failure; the store stays well formed |
| ChatHub.ChatStore.RegenerateAIMessage | packages/cli/src/modules/chat-hub/chat-hub.service.ts:579-652 | the regeneration's outcome; the store is not written |
| ChatHub.ChatStore.StopGeneration | packages/cli/src/modules/chat-hub/chat-hub.service.ts:789-810 | the store becomes the plan's store, or is unchanged on failure; the store stays well formed |
| ChatHub.ChatStore.OnBegin | packages/cli/src/modules/chat-hub/chat-hub.service.ts:835-843 | a new AI message of the stored session is stored under a free id; a taken id is refused and nothing changes; the store stays well formed |
| ChatHub.ChatStore.OnEnd | packages/cli/src/modules/chat-hub/chat-hub.service.ts:848-853 | the final content and status are saved; the store stays well formed |
| ChatHub.ChatStore.OnErrorHandler | packages/cli/src/modules/chat-hub/chat-hub.service.ts:854-884 | the store becomes `OnError` of the old store and stays well formed |
| ChatHub.ChatStore.FinishTurn | packages/cli/src/modules/chat-hub/chat-hub.service.ts:975-978 | the session title is updated only after a successful turn that produced one; the store stays well formed |
| ChatHub.SendPreservesValid | packages/cli/src/modules/chat-hub/chat-hub.service.ts:459-488 | sending keeps every message keyed by its id and inside a stored session |
| ChatHub.EditPreservesValid | packages/cli/src/modules/chat-hub/chat-hub.service.ts:513-564 | editing keeps the store well formed |
| ChatHub.StopPreservesValid | packages/cli/src/modules/chat-hub/chat-hub.service.ts:808-809 | stopping keeps the store well formed |
| DataTable.AllColumns | packages/cli/src/modules/data-table/data-table.service.ts:502-510 | the system columns come first, and only when asked for |
| DataTable.ColumnNames | packages/cli/src/modules/data-table/data-table.service.ts:511 | exactly the names of the columns |
| DataTable.ColumnTypes | packages/cli/src/modules/data-table/data-table.service.ts:512 | keyed by exactly the column names |
| DataTable.ColumnTypesLastWins | packages/cli/src/modules/data-table/data-table.service.ts:512 | a column whose name no later column repeats gives the name its type, so a repeated name keeps the last column's type |
| DataTable.TransformCell | packages/cli/src/modules/data-table/data-table.service.ts:532-573 | null stays null; an unknown column or an unmapped type passes the value through; a failed check is a validation error; otherwise the checker's new value, except for a date: a `Date` is kept as it is when date transformation is skipped, and otherwise its UTC ISO text, or a date mismatch error when there is none |
| DataTable.TransformRow | packages/cli/src/modules/data-table/data-table.service.ts:514-529 | a transformed row has exactly the input row's keys, in order |
| DataTable.TransformRowAccepts | packages/cli/src/modules/data-table/data-table.service.ts:517-527 | a row is accepted exactly when every key is a column and every cell validates, and each output cell is its cell's transformation |
| DataTable.TransformRowUnknownColumn | packages/cli/src/modules/data-table/data-table.service.ts:518-520 | the first key that is not a column raises "unknown column name" |
| DataTable.ValidateAndTransformRow | packages/cli/src/modules/data-table/data-table.service.ts:515-528 | the for loop returns exactly the specified row transformation |
| DataTable.TransformRows | packages/cli/src/modules/data-table/data-table.service.ts:495-530 | an accepted list has one output row per input row, in order, each the transformation of its row |
| DataTable.TransformRowsAccepts | packages/cli/src/modules/data-table/data-table.service.ts:495-530 | the rows are accepted exactly when every row validates |
| DataTable.TransformAllStops | packages/cli/src/modules/data-table/data-table.service.ts:495-530 | the first failing row's error is the error of the whole list |
| DataTable.ValidateAndTransformRows | packages/cli/src/modules/data-table/data-table.service.ts:495-530 | the loop over the rows returns exactly the specified transformation |
| DataTable.TransformFilter | packages/cli/src/modules/data-table/data-table.service.ts:630-660 | `like`/`ilike` need a non-null string, wrapped in `%` unless it holds one; range operators reject null; other conditions take the value as is |
| DataTable.FilterRows | packages/cli/src/modules/data-table/data-table.service.ts:620-624 | one single-key row per filter, in order |
| DataTable.MapFilters | packages/cli/src/modules/data-table/data-table.service.ts:630-661 | succeeds exactly when every filter does, keeping count and order |
| DataTable.ValidateAndTransformFilters | packages/cli/src/modules/data-table/data-table.service.ts:614-664 | the filter values are validated as rows with the system columns and no date transform; count, order and combinator are kept |
| DataTable.TransformSingleRow | packages/cli/src/modules/data-table/data-table.service.ts:619-631 | a one-key row of a known column becomes the row of its transformed cell |
| DataTable.SystemColumnsFilterable | packages/cli/src/modules/data-table/data-table.service.ts:626 | filters may name the system columns |
| DataTable.ValidateAndTransformUpdateParams | packages/cli/src/modules/data-table/data-table.service.ts:352-373 | refused, in this order, when there are no columns, no filters or no data; otherwise the data row and filters transformed |
| DataTable.TransformOneRow | packages/cli/src/modules/data-table/data-table.service.ts:369 | validating the one-row list `[data]` is validating `data` |
| DataTable.UpdateParamsOutcome | packages/cli/src/modules/data-table/data-table.service.ts:352-373 | with the three inputs present, the row's error, then the filter's, is returned as it is; otherwise the transformed row and filter |
| DataTable.UpdateParamsAccepted | packages/cli/src/modules/data-table/data-table.service.ts:352-373 | accepted exactly when columns, filters and data are all present and the data row and the filter both validate |
| DataTableService.ColumnMapping | packages/cli/src/modules/data-table/data-table.service.ts:104-109 | a CSV column is mapped exactly when a table column sits at one of its positions |
| DataTableService.ColumnMappingByIndex | packages/cli/src/modules/data-table/data-table.service.ts:105-108 | CSV column i maps to table column i unless a later CSV column of the same name overrides it |
| DataTableService.ColumnMappingValues | packages/cli/src/modules/data-table/data-table.service.ts:105-108 | every mapped name is the table column at some position of that CSV column |
| DataTableService.BuildColumnMapping | packages/cli/src/modules/data-table/data-table.service.ts:104-109 | the `forEach` builds exactly the specified mapping |
| DataTableService.SetEntry | packages/cli/src/modules/data-table/data-table.service.ts:120 | the row's keys plus the assigned key; the key holds the new value and every other key keeps its old one |
| DataTableService.MapCsvRow | packages/cli/src/modules/data-table/data-table.service.ts:116-123 | only mapped entries survive, under their table column names |
| DataTableService.MapCsvRowLastWins | packages/cli/src/modules/data-table/data-table.service.ts:116-123 | a table column holds the value of the last CSV entry mapped to it |
| DataTableService.TransformCsvRow | packages/cli/src/modules/data-table/data-table.service.ts:116-123 | the for-of loop returns exactly the renamed row |
| DataTableService.ImportedRows | packages/cli/src/modules/data-table/data-table.service.ts:115-124 | every CSV row is renamed, count and order kept |
| DataTableService.RenameCsvRows | packages/cli/src/modules/data-table/data-table.service.ts:115-124 | the `rows.map` renames each row in order |
| DataTableService.RenamedRowsUseTableColumns | packages/cli/src/modules/data-table/data-table.service.ts:104-124 | every key of an imported row is a table column's name |
| DataTableService.Service.constructor | packages/cli/src/modules/data-table/data-table.service.ts:50 | no calls made and no size-cache resets |
| DataTableService.Service.InsertRowsOp | packages/cli/src/modules/data-table/data-table.service.ts:249-274 | size and existence checks, then the validated rows are inserted with the requested return type and the cache reset; any failure changes nothing |
| DataTableService.Service.UpsertRow | packages/cli/src/modules/data-table/data-table.service.ts:297-350 | update first; insert exactly `[data]` only when nothing was updated; a dry run makes no write and no cache reset |
| DataTableService.Service.UpdateRowsOp | packages/cli/src/modules/data-table/data-table.service.ts:396-435 | validated parameters, then one update or a dry run; only a real run resets the cache |
| DataTableService.DeleteCheck | packages/cli/src/modules/data-table/data-table.service.ts:458-478 | a missing table, then an absent or empty filter, is refused; an accepted filter keeps its combinator and its number of conditions |
| DataTableService.DeleteCheckValidates | packages/cli/src/modules/data-table/data-table.service.ts:470-478 | with the table present and a non-empty filter, the check is exactly the validation of the filter against the columns |
| DataTableService.Service.DeleteRowsOp | packages/cli/src/modules/data-table/data-table.service.ts:458-493 | a refused check changes nothing; otherwise one delete with the validated filter, and a cache reset unless it is a dry run |
| DataTableService.Service.ImportDataFromFile | packages/cli/src/modules/data-table/data-table.service.ts:90-134 | the calls made, the resets taken and the error reported are those `ImportCalls` specifies |
| DataTableService.ImportCalls | packages/cli/src/modules/data-table/data-table.service.ts:90-134 | a missing table, then an unreadable file, is a file-upload error; no rows means no call; otherwise one insert of the renamed, validated rows, or the size or validation error as a file-upload error |
| DataTableService.Service.DeleteDataTable | packages/cli/src/modules/data-table/data-table.service.ts:170-178 | an existing table is deleted and the cache reset; a missing one is not found |
| DataTableService.Service.CreateDataTable | packages/cli/src/modules/data-table/data-table.service.ts:67-88 | a name clash is refused; the import runs on the table just created; a failed import deletes the new table and fails with the import's error; otherwise the calls are create, the import's calls and the file deletion, with one reset per insert plus one |
| PipeFraming.EncodeLength | packages/@n8n/task-runner-python/src/task_executor.py:306 | four bytes exactly when the length fits in 32 bits |
| PipeFraming.DecodeLength | packages/@n8n/task-runner-python/src/task_executor.py:99 | the decoded length is below 2^32 |
| PipeFraming.DecodeEncodeLength | packages/@n8n/task-runner-python/src/task_executor.py:98-99 | decoding an encoded length gives it back |
| PipeFraming.EncodeDecodeLength | packages/@n8n/task-runner-python/src/task_executor.py:306 | encoding a decoded header gives the same four bytes |
| PipeFraming.Frame | packages/@n8n/task-runner-python/src/task_executor.py:305-309 | four length bytes followed by the payload, exactly when it fits |
| PipeFraming.Unframe | packages/@n8n/task-runner-python/src/task_executor.py:97-101 | a header, the payload it announces, and the rest; otherwise end of file |
| PipeFraming.UnframeFrame | packages/@n8n/task-runner-python/src/task_executor.py:97-101 | every payload that fits comes back whole from its frame, whatever follows |
| PipeFraming.TruncatedFrameIsEndOfFile | packages/@n8n/task-runner-python/src/task_executor.py:491-494 | a cut-off frame is reported as end of file |
| PipeFraming.PipeReader.constructor | packages/@n8n/task-runner-python/src/task_executor.py:89 | the pipe holds the given bytes |
| PipeFraming.PipeReader.Read | packages/@n8n/task-runner-python/src/task_executor.py:492 | a non-empty prefix of at most k bytes unless the pipe is empty |
| PipeFraming.PipeReader.ReadExact | packages/@n8n/task-runner-python/src/task_executor.py:487-496 | exactly n bytes, or end of file when fewer remain |
| PipeFraming.PipeReader.ReadFrame | packages/@n8n/task-runner-python/src/task_executor.py:97-101 | the payload `Unframe` finds, or end of file |
| PipeFraming.PipeWriter.constructor | packages/@n8n/task-runner-python/src/task_executor.py:271 | nothing written yet |
| PipeFraming.PipeWriter.Write | packages/@n8n/task-runner-python/src/task_executor.py:504 | some prefix of the data is written and its length returned |
| PipeFraming.PipeWriter.WriteAll | packages/@n8n/task-runner-python/src/task_executor.py:499-507 | all bytes are written, or a zero-length write fails after writing a prefix |
| PipeFraming.PipeWriter.WriteFrame | packages/@n8n/task-runner-python/src/task_executor.py:305-309 | on success the pipe holds the frame; an oversized payload writes nothing |
| TaskExecutor.ExtractJsonData | packages/@n8n/task-runner-python/src/task_executor.py:284-294 | a non-dict is kept; `json` wins; with only `binary` the dict without it; otherwise the dict |
| TaskExecutor.WithoutKey | packages/@n8n/task-runner-python/src/task_executor.py:292 | exactly the entries with another key |
| TaskExecutor.PerItemResult | packages/@n8n/task-runner-python/src/task_executor.py:247-269 | every entry names an item whose output was not None |
| TaskExecutor.PerItem | packages/@n8n/task-runner-python/src/task_executor.py:247-269 | the loop returns exactly the specified result |
| TaskExecutor.PerItemPairing | packages/@n8n/task-runner-python/src/task_executor.py:248-269 | one entry per non-None output, `pairedItem` strictly increasing, json extracted and `binary` copied when present |
| TaskExecutor.PerItemSource | packages/@n8n/task-runner-python/src/task_executor.py:259-264 | every entry is built from the output of the item it names |
| TaskExecutor.PerItemOrdered | packages/@n8n/task-runner-python/src/task_executor.py:248-269 | the entries are in strictly increasing item order |
| TaskExecutor.PerItemCovers | packages/@n8n/task-runner-python/src/task_executor.py:259-269 | every non-None output has its entry |
| TaskExecutor.FormatArg | packages/@n8n/task-runner-python/src/task_executor.py:380-391 | strings are single-quoted; circular markers become `[Circular <type>]`; None is "None" |
| TaskExecutor.FormatPrintArgs | packages/@n8n/task-runner-python/src/task_executor.py:370-393 | one string per argument, in order |
| TaskExecutor.UnserializablePrintsCircular | packages/@n8n/task-runner-python/src/task_executor.py:349-363 | an argument `json.dumps` refuses is printed as `[Circular <type>]` |
| TaskExecutor.TruncatePrintArgs | packages/@n8n/task-runner-python/src/task_executor.py:396-409 | unchanged up to 100 calls; otherwise the first 100 and one marker counting the rest |
| TaskExecutor.PrintCapture.constructor | packages/@n8n/task-runner-python/src/task_executor.py:237 | no print calls yet |
| TaskExecutor.PrintCapture.CustomPrint | packages/@n8n/task-runner-python/src/task_executor.py:346-364 | one formatted line is appended per call and earlier lines are kept |
| TaskExecutor.PutResult | packages/@n8n/task-runner-python/src/task_executor.py:297-310 | the pipe receives the frame of the result message with truncated print calls |
| TaskExecutor.ClassifyChild | packages/@n8n/task-runner-python/src/task_executor.py:111-161 | success exactly for a clean exit with a result message, carrying the result and `print_args` (default `[]`); a failed start is subprocess failure -1; after a clean exit, no data is result-missing, a returned error is a runtime error with that error, and a message without a result is result-missing |
| TaskExecutor.ExecuteProcess | packages/@n8n/task-runner-python/src/task_executor.py:163-166 | with `continue_on_fail` every failure becomes one error item with length 0 |
| TaskExecutor.ExitCodeDecidesFailure | packages/@n8n/task-runner-python/src/task_executor.py:126-134 | a non-zero exit decides the error whatever the pipe held |
| TaskExecutor.TimeoutFirst | packages/@n8n/task-runner-python/src/task_executor.py:122-124 | a child alive at the timeout is a timeout whatever its exit code |
| TaskExecutor.SafeModules | packages/@n8n/task-runner-python/src/task_executor.py:432-454 | the fixed modules plus the allowed ones, with `*` expanding to the standard library or to every loaded non-standard module |
| TaskExecutor.ModuleTable.constructor | packages/@n8n/task-runner-python/src/task_executor.py:458-460 | the table holds the loaded modules |
| TaskExecutor.ModuleTable.Sanitize | packages/@n8n/task-runner-python/src/task_executor.py:431-466 | exactly the safe modules and their submodules remain |
| TaskExecutor.RemovedExactlyUnsafe | packages/@n8n/task-runner-python/src/task_executor.py:457-463 | a module is removed exactly when it is neither safe nor below a safe prefix |
| TaskExecutor.WildcardsKeepEverything | packages/@n8n/task-runner-python/src/task_executor.py:442-452 | `*` for both lists keeps every loaded module |
| WebhookUtils.StripLeading | packages/cli/src/modules/mcp/tools/webhook-utils.ts:43 | removes exactly the leading slashes |
| WebhookUtils.StripTrailing | packages/cli/src/modules/mcp/tools/webhook-utils.ts:44 | removes exactly the trailing slashes |
| WebhookUtils.BuildWebhookPath | packages/cli/src/modules/mcp/tools/webhook-utils.ts:41-47 | the while loops build exactly the specified path |
| WebhookUtils.NormalizeKeepsInterior | packages/cli/src/modules/mcp/tools/webhook-utils.ts:43-44 | the normalised segment is the segment's middle: only boundary slashes are removed |
| WebhookUtils.WebhookPathShape | packages/cli/src/modules/mcp/tools/webhook-utils.ts:45-46 | the path starts with `/` and ends with `pathParam`, and is `/` + `pathParam` for an empty segment |
| WebhookUtils.AllSlashSegment | packages/cli/src/modules/mcp/tools/webhook-utils.ts:43-46 | a segment of slashes only mounts the path at the root |
| WebhookUtils.StripLeadingAppendSlash | packages/cli/src/modules/mcp/tools/webhook-utils.ts:43 | stripping commutes with appending a slash |
| WebhookUtils.LeadingSlashIgnored | packages/cli/src/modules/mcp/tools/webhook-utils.ts:43 | an extra leading slash does not change the normalised segment |
| WebhookUtils.TrailingSlashIgnored | packages/cli/src/modules/mcp/tools/webhook-utils.ts:43-44 | an extra trailing slash does not change the normalised segment |
| WebhookUtils.ExtraBoundarySlashes | packages/cli/src/modules/mcp/tools/webhook-utils.ts:43-44 | extra slashes around the segment change nothing |
| WebhookUtils.StringParameter | packages/cli/src/modules/mcp/tools/webhook-utils.ts:184-186 | defined exactly when the parameter is a string |
| WebhookUtils.ResolveCredentialRequirement | packages/cli/src/modules/mcp/tools/webhook-utils.ts:234-262 | basic exactly for `basicAuth`; header or JWT exactly when the lookup yields a value; otherwise none |
| WebhookUtils.OtherAuthenticationNeedsNothing | packages/cli/src/modules/mcp/tools/webhook-utils.ts:242-261 | any other authentication value asks for nothing |
| WebhookUtils.ResponseModeDescription | packages/cli/src/modules/mcp/tools/webhook-utils.ts:299-330 | `responseNode` and every mode other than `lastNode` have their own fixed descriptions; `lastNode` selects by `responseData` |
| WebhookUtils.LastNodeDefault | packages/cli/src/modules/mcp/tools/webhook-utils.ts:321-325 | an unrecognised `responseData` returns the first entry's JSON |
| WebhookUtils.CollectWebhookNodeDetails | packages/cli/src/modules/mcp/tools/webhook-utils.ts:177-197 | a non-string `path` is `''` and `httpMethod` defaults to GET; both endpoints use the path builder |
| WebhookUtils.OfType | packages/cli/src/modules/mcp/tools/webhook-utils.ts:69-73 | exactly the triggers of the type, in order |
| WebhookUtils.Present | packages/cli/src/modules/mcp/tools/webhook-utils.ts:78-103 | exactly the kinds whose group is non-empty |
| WebhookUtils.SectionKinds | packages/cli/src/modules/mcp/tools/webhook-utils.ts:78-103 | a section appears exactly when its group is non-empty |
| WebhookUtils.PresentOrdered | packages/cli/src/modules/mcp/tools/webhook-utils.ts:78-103 | filtering an ascending order keeps it ascending |
| WebhookUtils.SectionKindsOrdered | packages/cli/src/modules/mcp/tools/webhook-utils.ts:78-103 | sections come webhook, chat, schedule, form |
| WebhookUtils.SectionTexts | packages/cli/src/modules/mcp/tools/webhook-utils.ts:79-103 | one text per section kind |
| WebhookUtils.SectionTextsPush | packages/cli/src/modules/mcp/tools/webhook-utils.ts:87-102 | pushing a section extends the responses by that section's text |
| WebhookUtils.GroupByType | packages/cli/src/modules/mcp/tools/webhook-utils.ts:61-73 | the loop builds exactly the specified groups |
| WebhookUtils.GetTriggerDetails | packages/cli/src/modules/mcp/tools/webhook-utils.ts:49-106 | the fixed message for no triggers; otherwise the introduction and the present sections, joined |
| WebhookUtils.UnsupportedTriggerIgnored | packages/cli/src/modules/mcp/tools/webhook-utils.ts:69-73 | a node of an unsupported type changes nothing |
| ToolsAgent.CheckIterations | packages/@n8n/nodes-langchain/nodes/agents/Agent/agents/ToolsAgent/V3/execute.ts:35-43 | fails exactly when a defined iteration count reaches the maximum (default 10) |
| ToolsAgent.RequestsOf | packages/@n8n/nodes-langchain/nodes/agents/Agent/agents/ToolsAgent/V3/execute.ts:56-64 | each batch's request, in order |
| ToolsAgent.ToolsAgentExecute | packages/@n8n/nodes-langchain/nodes/agents/Agent/agents/ToolsAgent/V3/execute.ts:35-90 | the guard fails before any batch; otherwise every batch runs once, and the outcome is the merged request or `[returnData]`; sleeps come only between batches |
| ToolsAgent.RunBatches | packages/@n8n/nodes-langchain/nodes/agents/Agent/agents/ToolsAgent/V3/execute.ts:53-82 | the loop's calls, data, merged request and sleeps equal their specifications |
| ToolsAgent.BatchesFromUnfold | packages/@n8n/nodes-langchain/nodes/agents/Agent/agents/ToolsAgent/V3/execute.ts:53-54 | the batch at `i` is `items[i..min(i+b, n))` followed by the batches from `i + b` |
| ToolsAgent.BatchesCover | packages/@n8n/nodes-langchain/nodes/agents/Agent/agents/ToolsAgent/V3/execute.ts:53-64 | batches start at `i + k*b`, hold 1 to b items, and together are every item once, in order |
| ToolsAgent.BatchCount | packages/@n8n/nodes-langchain/nodes/agents/Agent/agents/ToolsAgent/V3/execute.ts:53-81 | the number of batches is the ceiling of n/b, so sleeps number ceiling(n/b) - 1 |
| ToolsAgent.MergeCollectsActions | packages/@n8n/nodes-langchain/nodes/agents/Agent/agents/ToolsAgent/V3/execute.ts:70-76 | the first request is kept and every later request's actions are appended in order |
| ToolsAgent.OutcomeShape | packages/@n8n/nodes-langchain/nodes/agents/Agent/agents/ToolsAgent/V3/execute.ts:85-90 | a request exactly when some batch made one; otherwise the concatenated data |
| BuildSteps.ToolInput | packages/@n8n/nodes-langchain/nodes/agents/Agent/agents/ToolsAgent/V3/helpers/buildSteps.ts:42-45 | the input with `id` set to the action id, or without `id` when that is undefined |
| BuildSteps.ObservationValue | packages/@n8n/nodes-langchain/nodes/agents/Agent/agents/ToolsAgent/V3/helpers/buildSteps.ts:77 | the first `ai_tool` item's JSON when it is present and not null, otherwise `''` |
| BuildSteps.MakeStep | packages/@n8n/nodes-langchain/nodes/agents/Agent/agents/ToolsAgent/V3/helpers/buildSteps.ts:56-78 | the step carries the action id, the tool name and the observation; type, tool input and log come from the input when truthy, with defaults `tool_call`, `{}` and the "Calling … with input" text; one synthetic message with the tool name and input, `reconstructed_call` without an id |
| BuildSteps.Steps | packages/@n8n/nodes-langchain/nodes/agents/Agent/agents/ToolsAgent/V3/helpers/buildSteps.ts:35-81 | the previous requests come first, unchanged |
| BuildSteps.StepsFresh | packages/@n8n/nodes-langchain/nodes/agents/Agent/agents/ToolsAgent/V3/helpers/buildSteps.ts:50-53 | no added step repeats the call id of a step before it |
| BuildSteps.StepsCover | packages/@n8n/nodes-langchain/nodes/agents/Agent/agents/ToolsAgent/V3/helpers/buildSteps.ts:39-80 | every contributing response's call id is held by some step |
| BuildSteps.FindCallId | packages/@n8n/nodes-langchain/nodes/agents/Agent/agents/ToolsAgent/V3/helpers/buildSteps.ts:50 | found exactly when some step already holds the call id |
| BuildSteps.BuildSteps | packages/@n8n/nodes-langchain/nodes/agents/Agent/agents/ToolsAgent/V3/helpers/buildSteps.ts:26-84 | an undefined response gives `[]`; otherwise the loop with its `find` returns exactly the specified steps |
| BuildSteps.StepsProvenance | packages/@n8n/nodes-langchain/nodes/agents/Agent/agents/ToolsAgent/V3/helpers/buildSteps.ts:39-81 | every added step comes from a contributing response, one per response, in response order |
| BuildSteps.NonContributingIgnored | packages/@n8n/nodes-langchain/nodes/agents/Agent/agents/ToolsAgent/V3/helpers/buildSteps.ts:40-48 | a response for another item, or without data, adds nothing |
| McpSearch.SafeLimit | packages/cli/src/modules/mcp/tools/search-workflows.tool.ts:130-132 | in [1, 200]; 200 when omitted; unchanged in range; clamped otherwise |
| McpSearch.SafeLimitIdempotent | packages/cli/src/modules/mcp/tools/search-workflows.tool.ts:132 | clamping twice equals clamping once |
| McpSearch.NonEmpty | packages/cli/src/modules/mcp/tools/search-workflows.tool.ts:140-141 | set exactly for a non-empty string |
| McpSearch.BuildOptions | packages/cli/src/modules/mcp/tools/search-workflows.tool.ts:134-153 | always unarchived and MCP-available; `active` whenever defined; `name`/`projectId` exactly when non-empty; fixed columns |
| McpSearch.SummarizeNodes | packages/cli/src/modules/mcp/tools/search-workflows.tool.ts:171 | `{name, type}` per node, count and order kept; `[]` when missing |
| McpSearch.FormatWorkflow | packages/cli/src/modules/mcp/tools/search-workflows.tool.ts:163-173 | the preview keeps the workflow's fields, renders timestamps, and takes the description from the settings |
| McpSearch.SearchWorkflows | packages/cli/src/modules/mcp/tools/search-workflows.tool.ts:127-177 | one preview per returned workflow, in order, and the count unchanged |
| McpSearch.SummaryKeepsNames | packages/cli/src/modules/mcp/tools/search-workflows.tool.ts:171 | the preview keeps every node name, in order |
| McpUtils.Params | packages/cli/src/modules/mcp/mcp.utils.ts:26-27 | the params are used only for a JSON-RPC body whose params are truthy |
| McpUtils.GetToolName | packages/cli/src/modules/mcp/mcp.utils.ts:25-35 | `params.name` when a string; `'unknown'` in every other case |
| McpUtils.GetToolArguments | packages/cli/src/modules/mcp/mcp.utils.ts:42-52 | `params.arguments` when a record; `{}` otherwise |
| McpUtils.GetClientInfo | packages/cli/src/modules/mcp/mcp.utils.ts:12-18 | defined exactly for a JSON-RPC body with truthy `params.clientInfo` |
| McpUtils.IsWorkflowEligible | packages/cli/src/modules/mcp/mcp.utils.ts:63-73 | eligible exactly when some node is an enabled trigger of the four types |
| McpUtils.NoNodesNotEligible | packages/cli/src/modules/mcp/mcp.utils.ts:70 | no nodes, not eligible |
| McpUtils.EligibilityOnAdd | packages/cli/src/modules/mcp/mcp.utils.ts:70-72 | a disabled node never changes eligibility; an enabled trigger always makes a workflow eligible |
| ControllerRegistry.AppendAscending | packages/cli/src/controller.registry.ts:134-160 | appending a later-stage chain keeps the stages ascending |
| ControllerRegistry.GuardsAscending | packages/cli/src/controller.registry.ts:136-160 | rate limit, auth, last-active, license and scope come in that order |
| ControllerRegistry.GuardsPresent | packages/cli/src/controller.registry.ts:137-160 | rate limit exactly in production with a limit set; auth and last-active together exactly without `skipAuth`; license and scope exactly when configured |
| ControllerRegistry.Customs | packages/cli/src/controller.registry.ts:163-168 | one custom middleware per name, in order |
| ControllerRegistry.BuildMiddlewares | packages/cli/src/controller.registry.ts:133-171 | the guards, then the controller middlewares, then the route middlewares, each group in order |
| ControllerRegistry.CollapseSlashes | packages/cli/src/controller.registry.ts:48 | no two slashes in a row remain; the first and last characters are kept |
| ControllerRegistry.CollapseKeepsNormal | packages/cli/src/controller.registry.ts:48 | a path without doubled slashes is unchanged |
| ControllerRegistry.CollapseRewrite | packages/cli/src/controller.registry.ts:48 | a doubled slash collapses like a single one |
| ControllerRegistry.DropTrailingSlash | packages/cli/src/controller.registry.ts:48 | removes exactly one trailing slash |
| ControllerRegistry.MountPath | packages/cli/src/controller.registry.ts:48-49 | non-empty, no doubled slash, no trailing slash unless it is `/`, leading slash kept |
| ControllerRegistry.ControllerMountPath | packages/cli/src/controller.registry.ts:45-49 | the mount path of a controller starts with `/` unless it registers on the root path |
| ControllerRegistry.MountPathIdempotent | packages/cli/src/controller.registry.ts:48-49 | normalising a mount path again changes nothing |
| ControllerRegistry.LicenseMiddleware | packages/cli/src/controller.registry.ts:182-190 | `next` exactly when licensed; otherwise 403 with the plan message |
| ControllerRegistry.ScopeMiddleware | packages/cli/src/controller.registry.ts:192-220 | no user throws; a missing scope is 403; a not-found lookup is 404; other errors are rethrown; otherwise `next` |

## Left out

- The execution engine, response streaming and header flushing are not modelled. The chunk aggregator and response interceptor come from a stream-capture module that is not part of this model. Its `ingest` is a function parameter of `ChatWorkflow.Transform`, and the aggregated message is an input of the `onBegin`/`onEnd`/`onError` handlers.
- Async ordering, the 3-second pause before a generated workflow is deleted, and the race between cancellation and error are not modelled, because they are timing concerns.
- `ChatHub.ChatStore.OnBegin` requires the reply's session to be stored, as it is once the turn has saved the human message; an insert naming a missing session, which the database's foreign key would refuse, is not modelled.
- Each database transaction is modelled as a plan: a function from the store to the new store or an error, applied by `ChatHub.ChatStore.Commit`. Isolation and concurrent writers are not modelled.
- Repositories, the size validator, `executionService.stop`, `getPostExecutePromise` and the workflow finder are inputs or parameters. The data-table service is seen only through its repository calls and size-cache resets.
- Model listing (`getModels` and `fetch*Models`), conversation listing, session deletion and title updates outside a chat turn are pass-through queries and are left out.
- `ChatWorkflow.PrepareChatWorkflow` keeps only the nodes' names, types, disabled flags, memory seed and connections. It leaves out positions, uuids, prompt text and the context-window size.
- The provider credential-type names, node-type names, `SIGTERM`/`SIGKILL` exit codes (-15 and -9), the circular-reference key and the system-column table come from modules that are not part of this model. They are module constants, and only their distinctness matters.
- `validateFieldType`, luxon's `toUTC().toISO()` and `String(cell)` are parameters of the checker. A date conversion that throws is modelled by the checker returning no ISO text.
- `DataTable.TransformCell`: luxon's UTC conversion is the checker's `toUtcIso` parameter, and `cell instanceof Date` is the `CDate` constructor; the date arithmetic itself is external.
- `getManyAndCount`, column management, table transfer and `getDataTablesSize` are repository pass-throughs and are left out. Of `getColumns` only its table-existence check is modelled, as the first step of the import.
- `DataTableService.Service.CreateDataTable`: a failure of the file cleanup after a successful import, which in the source also deletes the new table, is not modelled; the cleanup always succeeds.
- `JSON.stringify`, `json.dumps`, `toISOString`, `nodeNameToToolName`, `isJSONRPCRequest`, `license.isLicensed` and `userHasScopes` are function parameters.
- `McpUtils.IsRecord` assumes `isRecord` accepts exactly non-array objects.
- Python float formatting and `str()` of values other than None, booleans and integers are given by a renderer parameter.
- Subprocess, thread and forkserver management, `exec`/`compile`, `_put_error`'s traceback, `os.environ` clearing, `_filter_builtins` and `_create_safe_import` are runtime wiring and are left out.
- `TaskExecutor.ClassifyChild`: a read error from the pipe is modelled as no data, since both give result-missing. The failure to start the child is an input flag.
- `ToolsAgent.ToolsAgentExecute` requires `batchSize > 0`. With a batch size of 0 the source loop would never end; the configuration's own schema rules that out.
- `ToolsAgent.ToolsAgentExecute` models requests as values: the first batch's request object, which the source mutates in place, is returned with the later actions appended. Aliasing of that object with the batch result is not modelled.
- `ToolsAgent.ToolsAgentExecute`: an exception thrown by `executeBatch` mid-loop is not modelled, because the callee is a parameter that always returns.
- `BuildSteps.BuildSteps`: the `!toolInput` test is always false for an object literal, so only the data test is modelled. Tool-call ids are compared structurally, where the source uses `===`; the two agree for the string ids the engine issues.
- `McpSearch.SearchWorkflows`: the tool handler's telemetry and zod schema are left out.
- `WebhookUtils.GetTriggerDetails` walks the fixed section order webhook, chat, schedule, form in one loop instead of four `if` statements; the text produced is the same. The credential lookups `getHeaderAuthName` and `getJWTAuthVariant` are parameters.
- `ControllerRegistry`: Express router registration, zod argument binding and `express-rate-limit` are left out. Middlewares are tags, and the rate limiter keeps only its window and limit.

## Findings

| source | as written | input that shows it | evidently intended | confidence | as-written member | corrected member |
|---|---|---|---|---|---|---|
| packages/cli/src/modules/chat-hub/chat-hub.service.ts:881-883 | the `onError` handler of a reply that was not cancelled writes `content: message.status`, so the saved partial reply is overwritten by the status name and the status stays as it was | a running reply whose stream fails after producing "Hello": the stored content becomes "error" and the status stays "running" | write `status: message.status` and keep the content saved just before | not executed | ChatHub.OnErrorAsWrittenLosesReply | ChatHub.OnError |
