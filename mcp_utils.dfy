/** Helpers of the MCP server: total extractors for the tool name, the tool
    arguments and the client information of a JSON-RPC request body, and
    the rule that decides whether a workflow may be exposed over MCP. */
module McpUtils {
  import opened Common

  /** `isRecord`: a non-null object that is not an array. */
  predicate IsRecord(j: Json)
  {
    j.JObj?
  }

  /** `body.params` once `body` is known to be a JSON-RPC request, when truthy. */
  function Params(body: Json, isJsonRpc: Json -> bool): (r: Option<Json>)
    ensures r.Some? ==> isJsonRpc(body) && Truthy(r.value) && Field(body, "params") == r
  {
    if isJsonRpc(body) && TruthyOpt(Field(body, "params")) then Field(body, "params") else None
  }

  /** `getToolName`: `params.name` when it is a string, `'unknown'` otherwise. */
  function GetToolName(body: Json, isJsonRpc: Json -> bool): (name: string)
    ensures (var p := Params(body, isJsonRpc);
             p.Some? && Field(p.value, "name").Some? && Field(p.value, "name").value.JStr?) ==>
              name == Field(Params(body, isJsonRpc).value, "name").value.s
    ensures !isJsonRpc(body) ==> name == "unknown"
    ensures (var p := Params(body, isJsonRpc);
             !(p.Some? && Field(p.value, "name").Some? && Field(p.value, "name").value.JStr?)) ==>
              name == "unknown"
  {
    var p := Params(body, isJsonRpc);
    if p.None? then "unknown"
    else
      var n := Field(p.value, "name");
      if n.Some? && n.value.JStr? then n.value.s else "unknown"
  }

  /** `getToolArguments`: `params.arguments` when it is a record, `{}` otherwise. */
  function GetToolArguments(body: Json, isJsonRpc: Json -> bool): (args: map<string, Json>)
    ensures (var p := Params(body, isJsonRpc);
             p.Some? && Field(p.value, "arguments").Some? && IsRecord(Field(p.value, "arguments").value)) ==>
              JObj(args) == Field(Params(body, isJsonRpc).value, "arguments").value
    ensures (var p := Params(body, isJsonRpc);
             !(p.Some? && Field(p.value, "arguments").Some? && IsRecord(Field(p.value, "arguments").value))) ==>
              args == map[]
  {
    var p := Params(body, isJsonRpc);
    if p.None? then map[]
    else
      var a := Field(p.value, "arguments");
      if a.Some? && IsRecord(a.value) then a.value.fields else map[]
  }

  /** `getClientInfo`: `params.clientInfo` of a JSON-RPC body when it is
      truthy; undefined otherwise. */
  function GetClientInfo(body: Json, isJsonRpc: Json -> bool): (info: Option<Json>)
    ensures info.Some? <==> isJsonRpc(body) && TruthyOpt(Field(body, "params")) &&
                            TruthyOpt(Field(Field(body, "params").value, "clientInfo"))
    ensures info.Some? ==> info == Field(Field(body, "params").value, "clientInfo")
  {
    var p := Params(body, isJsonRpc);
    if p.Some? && TruthyOpt(Field(p.value, "clientInfo")) then Field(p.value, "clientInfo") else None
  }

  /** The node types that make a workflow reachable over MCP. */
  const McpTriggerNodeTypes: seq<string> := [ScheduleTriggerNodeType, WebhookNodeType, FormTriggerNodeType, ChatTriggerNodeType]

  /** An enabled node of one of the four trigger types (`disabled !== true`). */
  predicate IsEnabledTrigger(node: Node)
  {
    node.nodeType in McpTriggerNodeTypes && node.disabled != Some(true)
  }

  /** `isWorkflowEligibleForMCPAccess`: `nodes.some(...)`, walked node by node. */
  function IsWorkflowEligible(nodes: seq<Node>): (eligible: bool)
    ensures eligible <==> exists k :: 0 <= k < |nodes| && IsEnabledTrigger(nodes[k])
  {
    if nodes == [] then false
    else
      var rest := IsWorkflowEligible(nodes[1..]);
      assert forall k :: 1 <= k < |nodes| ==> nodes[1..][k - 1] == nodes[k];
      IsEnabledTrigger(nodes[0]) || rest
  }

  /** A workflow without nodes is never eligible. */
  lemma NoNodesNotEligible()
    ensures !IsWorkflowEligible([])
  {
  }

  /** Adding a disabled node, whatever its type, never makes a workflow
      eligible; adding an enabled trigger always does. */
  lemma {:induction false} EligibilityOnAdd(nodes: seq<Node>, node: Node)
    ensures node.disabled == Some(true) ==> IsWorkflowEligible(nodes + [node]) == IsWorkflowEligible(nodes)
    ensures IsEnabledTrigger(node) ==> IsWorkflowEligible(nodes + [node])
  {
    var all := nodes + [node];
    assert all[|nodes|] == node;
    assert forall k :: 0 <= k < |nodes| ==> all[k] == nodes[k];
  }
}
