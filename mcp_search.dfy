/** The `search_workflows` tool of the MCP server: the list options it
    builds from the caller's filters and the preview it returns for each
    workflow. The workflow service's query is a function parameter, and so
    is the rendering of timestamps as ISO strings. */
module McpSearch {
  import opened Common

  const MaxResults: int := 200

  /** The tool's input; every field may be omitted. */
  datatype SearchParams = SearchParams(limit: Option<int>, active: Option<bool>, name: Option<string>, projectId: Option<string>)

  /** The `filter` of the list query; `None` is a key that is not set. */
  datatype WorkflowFilter = WorkflowFilter(
    isArchived: bool,
    availableInMCP: bool,
    active: Option<bool>,
    name: Option<string>,
    projectId: Option<string>)

  datatype ListOptions = ListOptions(take: int, filter: WorkflowFilter, select: set<string>)

  /** The columns the query selects. */
  const SelectedColumns: set<string> := {"id", "name", "active", "createdAt", "updatedAt", "triggerCount", "nodes", "settings"}

  /** A workflow as the service returns it; `createdAt` and `updatedAt` are
      instants and `settings.description` may be null or absent (`None`). */
  datatype WorkflowRow = WorkflowRow(
    id: string,
    name: Option<string>,
    active: Option<bool>,
    createdAt: int,
    updatedAt: int,
    triggerCount: Option<int>,
    nodes: Option<seq<Node>>,
    settings: Option<WorkflowSettings>)

  datatype WorkflowSettings = WorkflowSettings(description: Option<string>)

  datatype NodeSummary = NodeSummary(name: string, nodeType: string)

  datatype SearchItem = SearchItem(
    id: string,
    name: Option<string>,
    active: Option<bool>,
    createdAt: string,
    updatedAt: string,
    triggerCount: Option<int>,
    nodes: seq<NodeSummary>,
    description: Option<string>)

  datatype SearchResult = SearchResult(data: seq<SearchItem>, count: nat)

  /** `Math.min(Math.max(1, limit), MAX_RESULTS)`, with an omitted limit
      standing for `MAX_RESULTS`. */
  function SafeLimit(limit: Option<int>): (r: int)
    ensures 1 <= r <= MaxResults
    ensures limit.None? ==> r == MaxResults
    ensures limit.Some? && 1 <= limit.value <= MaxResults ==> r == limit.value
    ensures limit.Some? && limit.value < 1 ==> r == 1
    ensures limit.Some? && limit.value > MaxResults ==> r == MaxResults
  {
    var requested := if limit.Some? then limit.value else MaxResults;
    var atLeastOne := if requested < 1 then 1 else requested;
    if atLeastOne < MaxResults then atLeastOne else MaxResults
  }

  /** Clamping a clamped limit changes nothing. */
  lemma SafeLimitIdempotent(limit: Option<int>)
    ensures SafeLimit(Some(SafeLimit(limit))) == SafeLimit(limit)
  {
  }

  /** A string filter is set only when it is non-empty (`...(name ? { name } : {})`). */
  function NonEmpty(s: Option<string>): (r: Option<string>)
    ensures r.Some? <==> s.Some? && s.value != ""
    ensures r.Some? ==> r == s
  {
    if s.Some? && s.value != "" then s else None
  }

  /** The list options of `searchWorkflows`. */
  function BuildOptions(p: SearchParams): (o: ListOptions)
    ensures o.take == SafeLimit(p.limit)
    ensures !o.filter.isArchived && o.filter.availableInMCP
    ensures o.filter.active == p.active
    ensures o.filter.name.Some? <==> p.name.Some? && p.name.value != ""
    ensures o.filter.projectId.Some? <==> p.projectId.Some? && p.projectId.value != ""
    ensures o.filter.name.Some? ==> o.filter.name == p.name
    ensures o.filter.projectId.Some? ==> o.filter.projectId == p.projectId
    ensures o.select == SelectedColumns
  {
    ListOptions(
      SafeLimit(p.limit),
      WorkflowFilter(false, true, p.active, NonEmpty(p.name), NonEmpty(p.projectId)),
      SelectedColumns)
  }

  /** `{ name: node.name, type: node.type }` for every node, in order. */
  function SummarizeNodes(nodes: Option<seq<Node>>): (r: seq<NodeSummary>)
    ensures nodes.None? ==> r == []
    ensures nodes.Some? ==> (|r| == |nodes.value| &&
      forall k :: 0 <= k < |r| ==> r[k] == NodeSummary(nodes.value[k].name, nodes.value[k].nodeType))
  {
    if nodes.None? then []
    else seq(|nodes.value|, k requires 0 <= k < |nodes.value| => NodeSummary(nodes.value[k].name, nodes.value[k].nodeType))
  }

  /** The preview of one workflow. */
  function FormatWorkflow(w: WorkflowRow, toIso: int -> string): (item: SearchItem)
    ensures item.id == w.id && item.name == w.name && item.active == w.active && item.triggerCount == w.triggerCount
    ensures item.createdAt == toIso(w.createdAt) && item.updatedAt == toIso(w.updatedAt)
    ensures item.nodes == SummarizeNodes(w.nodes)
    ensures item.description == (if w.settings.Some? then w.settings.value.description else None)
  {
    SearchItem(
      w.id, w.name, w.active, toIso(w.createdAt), toIso(w.updatedAt), w.triggerCount,
      SummarizeNodes(w.nodes),
      if w.settings.Some? then w.settings.value.description else None)
  }

  /** `searchWorkflows`: one preview per workflow the query returns, in its
      order, and the query's total count unchanged. */
  function SearchWorkflows(p: SearchParams, getMany: ListOptions -> (seq<WorkflowRow>, nat), toIso: int -> string): (r: SearchResult)
    ensures var (rows, count) := getMany(BuildOptions(p));
      r.count == count && |r.data| == |rows| &&
      forall k :: 0 <= k < |rows| ==> r.data[k] == FormatWorkflow(rows[k], toIso)
  {
    var (rows, count) := getMany(BuildOptions(p));
    SearchResult(seq(|rows|, k requires 0 <= k < |rows| => FormatWorkflow(rows[k], toIso)), count)
  }

  /** The preview keeps every node's name, in order. */
  lemma SummaryKeepsNames(nodes: seq<Node>)
    ensures var r := SummarizeNodes(Some(nodes));
      seq(|r|, k requires 0 <= k < |r| => r[k].name) == seq(|nodes|, k requires 0 <= k < |nodes| => nodes[k].name)
  {
  }
}
