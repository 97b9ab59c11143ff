/** `buildSteps` of the Tools Agent (version 3): the agent steps rebuilt
    from the engine's response when execution resumes after the engine ran
    the tools the agent asked for. Mapping a node name to a tool name and
    `JSON.stringify` are function parameters. */
module BuildSteps {
  import opened Common

  /** The synthetic AI message that stands for the agent's decision to call a tool. */
  datatype SyntheticMessage = SyntheticMessage(content: string, callId: Json, name: string, args: map<string, Json>)

  datatype ToolAction = ToolAction(
    tool: string,
    toolInput: Json,
    log: Json,
    messageLog: seq<SyntheticMessage>,
    toolCallId: Option<Json>,
    actionType: Json)

  /** One agent step: the tool call and what the tool answered. */
  datatype ToolCallData = ToolCallData(action: ToolAction, observation: string)

  /** The action an engine response answers: its id, the tool node, the
      input and the `metadata.itemIndex` of the item that asked for it. */
  datatype ResponseAction = ResponseAction(id: Option<Json>, nodeName: string, input: map<string, Json>, itemIndex: Option<int>)

  /** One tool result: the action it answers and the tool's task data. */
  datatype ActionResponse = ActionResponse(action: Option<ResponseAction>, data: Option<Json>)

  datatype EngineResponse = EngineResponse(actionResponses: Option<seq<ActionResponse>>, previousRequests: Option<seq<ToolCallData>>)

  /** `{...action.input, id: action.id}`; an undefined id is no key at all. */
  function ToolInput(a: ResponseAction): (r: map<string, Json>)
    ensures a.id.Some? ==> "id" in r && r["id"] == a.id.value
    ensures a.id.None? ==> "id" !in r
    ensures forall k :: k in r && k != "id" ==> k in a.input && r[k] == a.input[k]
    ensures forall k :: k in a.input && k != "id" ==> k in r
  {
    if a.id.Some? then a.input["id" := a.id.value] else a.input - {"id"}
  }

  function Lookup(m: map<string, Json>, k: string): Option<Json>
  {
    if k in m then Some(m[k]) else None
  }

  /** `o?.[k]` on an array. */
  function Index(o: Option<Json>, k: nat): Option<Json>
  {
    if o.Some? && o.value.JArr? && k < |o.value.items| then Some(o.value.items[k]) else None
  }

  function FieldOpt(o: Option<Json>, k: string): Option<Json>
  {
    if o.Some? then Field(o.value, k) else None
  }

  /** `data` holds `data.ai_tool[0][0].json`, and it is `j`. */
  predicate ToolItemJson(data: Option<Json>, j: Json)
  {
    data.Some? && data.value.JObj? && "data" in data.value.fields &&
    var d := data.value.fields["data"];
    d.JObj? && "ai_tool" in d.fields &&
    var tool := d.fields["ai_tool"];
    tool.JArr? && |tool.items| > 0 && tool.items[0].JArr? && |tool.items[0].items| > 0 &&
    var item := tool.items[0].items[0];
    item.JObj? && "json" in item.fields && item.fields["json"] == j
  }

  /** `tool.data?.data?.ai_tool?.[0]?.[0]?.json ?? ''` */
  function ObservationValue(data: Option<Json>): (r: Json)
    ensures data.None? ==> r == JStr("")
    ensures r != JNull
    ensures forall j :: ToolItemJson(data, j) && j != JNull ==> r == j
    ensures r == JStr("") || ToolItemJson(data, r)
  {
    var v := FieldOpt(Index(Index(FieldOpt(FieldOpt(data, "data"), "ai_tool"), 0), 0), "json");
    if v.None? || v.value == JNull then JStr("") else v.value
  }

  /** The response answers an action of item `itemIndex` and carries data. */
  predicate Contributes(r: ActionResponse, itemIndex: int)
  {
    r.action.Some? && r.action.value.itemIndex == Some(itemIndex) && TruthyOpt(r.data)
  }

  /** Some step already answers the tool call `id`. */
  predicate HasCallId(steps: seq<ToolCallData>, id: Option<Json>)
  {
    exists k :: 0 <= k < |steps| && steps[k].action.toolCallId == id
  }

  /** The step rebuilt from one response. */
  function MakeStep(r: ActionResponse, toolName: string -> string, stringify: Json -> string): (s: ToolCallData)
    requires r.action.Some?
    ensures s.action.toolCallId == r.action.value.id
    ensures s.action.tool == toolName(r.action.value.nodeName)
    ensures s.observation == stringify(ObservationValue(r.data))
    ensures "type" !in r.action.value.input || !Truthy(r.action.value.input["type"]) ==> s.action.actionType == JStr("tool_call")
    ensures |s.action.messageLog| == 1
    ensures r.action.value.id.None? ==> s.action.messageLog[0].callId == JStr("reconstructed_call")
    ensures "type" in r.action.value.input && Truthy(r.action.value.input["type"]) ==>
      s.action.actionType == r.action.value.input["type"]
    ensures "input" in r.action.value.input && Truthy(r.action.value.input["input"]) ==>
      s.action.toolInput == r.action.value.input["input"]
    ensures !("input" in r.action.value.input && Truthy(r.action.value.input["input"])) ==> s.action.toolInput == JObj(map[])
    ensures "log" in r.action.value.input && Truthy(r.action.value.input["log"]) ==> s.action.log == r.action.value.input["log"]
    ensures !("log" in r.action.value.input && Truthy(r.action.value.input["log"])) ==>
      s.action.log == JStr("Calling " + r.action.value.nodeName + " with input: " + stringify(JObj(ToolInput(r.action.value))))
    ensures s.action.messageLog[0].name == s.action.tool && s.action.messageLog[0].args == ToolInput(r.action.value)
    ensures s.action.toolCallId == r.action.value.id
  {
    var a := r.action.value;
    var input := ToolInput(a);
    var content := "Calling " + a.nodeName + " with input: " + stringify(JObj(input));
    var callId := if a.id.Some? && a.id.value != JNull then a.id.value else JStr("reconstructed_call");
    var message := SyntheticMessage(content, callId, toolName(a.nodeName), input);
    ToolCallData(
      ToolAction(
        toolName(a.nodeName),
        OrElse(Lookup(input, "input"), JObj(map[])),
        OrElse(Lookup(input, "log"), JStr(content)),
        [message],
        a.id,
        OrElse(Lookup(input, "type"), JStr("tool_call"))),
      stringify(ObservationValue(r.data)))
  }

  /** The steps after the responses `rs` have been walked, starting from
      `prev`: a contributing response whose call id no step holds yet adds
      its step at the end. */
  function Steps(prev: seq<ToolCallData>, rs: seq<ActionResponse>, itemIndex: int,
                 toolName: string -> string, stringify: Json -> string): (steps: seq<ToolCallData>)
    ensures |prev| <= |steps| && steps[..|prev|] == prev
  {
    if rs == [] then prev
    else
      var n := |rs| - 1;
      var front := Steps(prev, rs[..n], itemIndex, toolName, stringify);
      var r := rs[n];
      if Contributes(r, itemIndex) && !HasCallId(front, r.action.value.id) then
        var steps := front + [MakeStep(r, toolName, stringify)];
        assert steps[..|prev|] == front[..|prev|];
        steps
      else
        front
  }

  /** One more response: the walk over `rs + [r]` is the walk over `rs`,
      extended by `r`'s step when `r` contributes a new call id. */
  lemma StepsSnoc(prev: seq<ToolCallData>, rs: seq<ActionResponse>, r: ActionResponse, itemIndex: int,
                  toolName: string -> string, stringify: Json -> string)
    ensures var front := Steps(prev, rs, itemIndex, toolName, stringify);
      Steps(prev, rs + [r], itemIndex, toolName, stringify) ==
        if Contributes(r, itemIndex) && !HasCallId(front, r.action.value.id)
        then front + [MakeStep(r, toolName, stringify)]
        else front
  {
    assert (rs + [r])[..|rs|] == rs;
  }

  /** No step the walk adds repeats the call id of a step before it. */
  lemma {:induction false} StepsFresh(prev: seq<ToolCallData>, rs: seq<ActionResponse>, itemIndex: int,
                                      toolName: string -> string, stringify: Json -> string)
    ensures var steps := Steps(prev, rs, itemIndex, toolName, stringify);
      forall k :: |prev| <= k < |steps| ==> !HasCallId(steps[..k], steps[k].action.toolCallId)
  {
    if rs != [] {
      var n := |rs| - 1;
      var front := Steps(prev, rs[..n], itemIndex, toolName, stringify);
      StepsFresh(prev, rs[..n], itemIndex, toolName, stringify);
      var r := rs[n];
      assert rs == rs[..n] + [r];
      StepsSnoc(prev, rs[..n], r, itemIndex, toolName, stringify);
      if Contributes(r, itemIndex) && !HasCallId(front, r.action.value.id) {
        var step := MakeStep(r, toolName, stringify);
        var steps := front + [step];
        assert forall k :: |prev| <= k < |front| ==> steps[..k] == front[..k] && steps[k] == front[k];
        assert steps[..|front|] == front && steps[|front|] == step;
      }
    }
  }

  /** Every contributing response's call id is held by some step. */
  predicate CallIdsCovered(steps: seq<ToolCallData>, rs: seq<ActionResponse>, itemIndex: int)
  {
    forall j :: 0 <= j < |rs| && Contributes(rs[j], itemIndex) ==> HasCallId(steps, rs[j].action.value.id)
  }

  /** Steps only ever gain call ids as the list grows. */
  lemma HasCallIdGrows(front: seq<ToolCallData>, steps: seq<ToolCallData>)
    requires |front| <= |steps| && steps[..|front|] == front
    ensures forall id :: HasCallId(front, id) ==> HasCallId(steps, id)
  {
    forall id | HasCallId(front, id) ensures HasCallId(steps, id) {
      var k :| 0 <= k < |front| && front[k].action.toolCallId == id;
      assert steps[k] == front[k];
    }
  }

  /** Every contributing response's call id is held by some step. */
  lemma {:induction false} StepsCover(prev: seq<ToolCallData>, rs: seq<ActionResponse>, itemIndex: int,
                                      toolName: string -> string, stringify: Json -> string)
    ensures CallIdsCovered(Steps(prev, rs, itemIndex, toolName, stringify), rs, itemIndex)
  {
    if rs != [] {
      var n := |rs| - 1;
      var r := rs[n];
      var front := Steps(prev, rs[..n], itemIndex, toolName, stringify);
      var steps := Steps(prev, rs, itemIndex, toolName, stringify);
      StepsCover(prev, rs[..n], itemIndex, toolName, stringify);
      assert rs[..n] + [r] == rs;
      StepsSnoc(prev, rs[..n], r, itemIndex, toolName, stringify);
      assert steps[..|front|] == front;
      HasCallIdGrows(front, steps);
      forall j | 0 <= j < |rs| && Contributes(rs[j], itemIndex)
        ensures HasCallId(steps, rs[j].action.value.id)
      {
        if j < n {
          assert rs[..n][j] == rs[j];
        } else if !HasCallId(front, r.action.value.id) {
          assert steps[|front|].action.toolCallId == r.action.value.id;
        }
      }
    }
  }

  /** The `steps.find` of `buildSteps`: whether some step already holds the
      call id. */
  method FindCallId(steps: seq<ToolCallData>, id: Option<Json>) returns (found: bool)
    ensures found <==> HasCallId(steps, id)
  {
    found := false;
    var k := 0;
    while k < |steps| && !found
      invariant 0 <= k <= |steps|
      invariant found <==> (exists m :: 0 <= m < k && steps[m].action.toolCallId == id)
    {
      if steps[k].action.toolCallId == id {
        found := true;
      }
      k := k + 1;
    }
  }

  /** `buildSteps`: nothing without a response; otherwise the previous
      requests followed by the steps the matching responses add. */
  method BuildSteps(response: Option<EngineResponse>, itemIndex: int,
                    toolName: string -> string, stringify: Json -> string)
    returns (steps: seq<ToolCallData>)
    ensures response.None? ==> steps == []
    ensures response.Some? ==>
      var prev := if response.value.previousRequests.Some? then response.value.previousRequests.value else [];
      var rs := if response.value.actionResponses.Some? then response.value.actionResponses.value else [];
      steps == Steps(prev, rs, itemIndex, toolName, stringify)
  {
    steps := [];
    if response.Some? {
      var rs := if response.value.actionResponses.Some? then response.value.actionResponses.value else [];
      if response.value.previousRequests.Some? {
        steps := response.value.previousRequests.value;
      }
      ghost var prev := steps;
      for i := 0 to |rs|
        invariant steps == Steps(prev, rs[..i], itemIndex, toolName, stringify)
      {
        assert rs[..i + 1] == rs[..i] + [rs[i]];
        StepsSnoc(prev, rs[..i], rs[i], itemIndex, toolName, stringify);
        var tool := rs[i];
        if tool.action.None? || tool.action.value.itemIndex != Some(itemIndex) {
          continue;
        }
        if !TruthyOpt(tool.data) {
          continue;
        }
        var found := FindCallId(steps, tool.action.value.id);
        if found {
          continue;
        }
        steps := steps + [MakeStep(tool, toolName, stringify)];
      }
      assert rs[..|rs|] == rs;
    }
  }

  /** The indices of the responses that added a step, in response order. */
  function Taken(prev: seq<ToolCallData>, rs: seq<ActionResponse>, itemIndex: int,
                 toolName: string -> string, stringify: Json -> string): seq<nat>
  {
    if rs == [] then []
    else
      var n := |rs| - 1;
      var front := Steps(prev, rs[..n], itemIndex, toolName, stringify);
      var r := rs[n];
      Taken(prev, rs[..n], itemIndex, toolName, stringify) +
        (if Contributes(r, itemIndex) && !HasCallId(front, r.action.value.id) then [n] else [])
  }

  /** Every added step comes from a contributing response, one step per
      response, in the order of the responses. */
  lemma {:induction false} StepsProvenance(prev: seq<ToolCallData>, rs: seq<ActionResponse>, itemIndex: int,
                                           toolName: string -> string, stringify: Json -> string)
    ensures var steps := Steps(prev, rs, itemIndex, toolName, stringify);
      var t := Taken(prev, rs, itemIndex, toolName, stringify);
      |steps| == |prev| + |t| &&
      (forall k :: 0 <= k < |t| ==> t[k] < |rs| && Contributes(rs[t[k]], itemIndex) &&
                                    steps[|prev| + k] == MakeStep(rs[t[k]], toolName, stringify)) &&
      (forall k, l :: 0 <= k < l < |t| ==> t[k] < t[l])
  {
    if rs != [] {
      var n := |rs| - 1;
      StepsProvenance(prev, rs[..n], itemIndex, toolName, stringify);
      var front := Steps(prev, rs[..n], itemIndex, toolName, stringify);
      var tf := Taken(prev, rs[..n], itemIndex, toolName, stringify);
      var steps := Steps(prev, rs, itemIndex, toolName, stringify);
      var t := Taken(prev, rs, itemIndex, toolName, stringify);
      forall k | 0 <= k < |tf| ensures rs[tf[k]] == rs[..n][tf[k]] && tf[k] < n {
      }
      if Contributes(rs[n], itemIndex) && !HasCallId(front, rs[n].action.value.id) {
        assert steps == front + [MakeStep(rs[n], toolName, stringify)];
        assert t == tf + [n];
      } else {
        assert steps == front && t == tf;
      }
    }
  }

  /** A response answering another item, or carrying no data, adds nothing. */
  lemma NonContributingIgnored(prev: seq<ToolCallData>, rs: seq<ActionResponse>, r: ActionResponse, itemIndex: int,
                               toolName: string -> string, stringify: Json -> string)
    requires !Contributes(r, itemIndex)
    ensures Steps(prev, rs + [r], itemIndex, toolName, stringify) == Steps(prev, rs, itemIndex, toolName, stringify)
  {
    assert (rs + [r])[..|rs|] == rs;
  }
}
