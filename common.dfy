/** Shared vocabulary: optional values, results, JSON-like values with the
    truthiness rules of JavaScript and Python, decimal rendering of numbers,
    and the node type names the workflow engine publishes. */
module Common {

  datatype Option<+T> = None | Some(value: T)

  datatype Result<+T, +E> = Ok(value: T) | Err(error: E)

  /** A JSON value as the services see it after parsing. Numbers are integers:
      floating point is not modelled. */
  datatype Json =
    | JNull
    | JBool(b: bool)
    | JNum(n: int)
    | JStr(s: string)
    | JArr(items: seq<Json>)
    | JObj(fields: map<string, Json>)

  /** JavaScript truthiness of a value that is present (objects and arrays,
      even empty ones, are truthy). */
  predicate Truthy(j: Json)
  {
    match j
    case JNull => false
    case JBool(b) => b
    case JNum(n) => n != 0
    case JStr(s) => s != ""
    case JArr(_) => true
    case JObj(_) => true
  }

  /** JavaScript truthiness of a value that may be `undefined`. */
  predicate TruthyOpt(j: Option<Json>)
  {
    j.Some? && Truthy(j.value)
  }

  /** `a || b` in JavaScript when `a` may be undefined. */
  function OrElse(a: Option<Json>, b: Json): (r: Json)
    ensures TruthyOpt(a) ==> r == a.value
    ensures !TruthyOpt(a) ==> r == b
  {
    if TruthyOpt(a) then a.value else b
  }

  /** Truthiness of an optional identifier: `null`, `undefined` and `""` are falsy. */
  predicate IdTruthy(id: Option<string>)
  {
    id.Some? && id.value != ""
  }

  /** Field lookup `o.k` on a JSON value (undefined unless `o` is an object holding `k`). */
  function Field(o: Json, k: string): (r: Option<Json>)
    ensures r.Some? <==> (o.JObj? && k in o.fields)
  {
    if o.JObj? && k in o.fields then Some(o.fields[k]) else None
  }

  function DigitChar(d: nat): (c: char)
    requires d < 10
    ensures '0' <= c <= '9'
  {
    "0123456789"[d]
  }

  /** Decimal rendering of a natural number, as `str(n)` and template literals print it. */
  function NatToString(n: nat): (s: string)
    ensures |s| >= 1
    ensures forall i :: 0 <= i < |s| ==> '0' <= s[i] <= '9'
  {
    if n < 10 then [DigitChar(n)] else NatToString(n / 10) + [DigitChar(n % 10)]
  }

  /** Decimal rendering of an integer with a leading minus sign when negative. */
  function IntToString(i: int): (s: string)
    ensures |s| >= 1
    ensures i < 0 <==> s[0] == '-'
  {
    if i < 0 then "-" + NatToString(-i) else NatToString(i)
  }

  // Node type names published by the workflow engine package; the model relies
  // only on their being pairwise distinct.
  const ScheduleTriggerNodeType: string := "n8n-nodes-base.scheduleTrigger"
  const WebhookNodeType: string := "n8n-nodes-base.webhook"
  const FormTriggerNodeType: string := "n8n-nodes-base.formTrigger"
  const ChatTriggerNodeType: string := "@n8n/n8n-nodes-langchain.chatTrigger"
  const RespondToChatNodeType: string := "@n8n/n8n-nodes-langchain.chat"
  const AgentNodeType: string := "@n8n/n8n-nodes-langchain.agent"
  const MemoryBufferWindowNodeType: string := "@n8n/n8n-nodes-langchain.memoryBufferWindow"
  const MemoryManagerNodeType: string := "@n8n/n8n-nodes-langchain.memoryManager"

  /** A workflow node as stored: its name, type, parameters and the `disabled` flag
      (absent when never set). */
  datatype Node = Node(
    name: string,
    nodeType: string,
    parameters: map<string, Json>,
    disabled: Option<bool>,
    credentialIds: map<string, string>)
}
