/** How the MCP server describes a workflow's triggers to a client: webhook
    paths, the grouping of trigger nodes by type, the credentials a webhook
    asks for and the way it responds. Decrypting stored credentials is left
    to the caller, as lookup functions. */
module WebhookUtils {
  import opened Common

  // ---------------------------------------------------------------------------
  // Webhook paths

  /** The segment with its leading slashes removed. */
  function StripLeading(s: string): (r: string)
    ensures |r| <= |s| && r == s[|s| - |r|..]
    ensures forall i :: 0 <= i < |s| - |r| ==> s[i] == '/'
    ensures r == [] || r[0] != '/'
  {
    if |s| > 0 && s[0] == '/' then StripLeading(s[1..]) else s
  }

  /** The segment with its trailing slashes removed. */
  function StripTrailing(s: string): (r: string)
    ensures |r| <= |s| && r == s[..|r|]
    ensures forall i :: |r| <= i < |s| ==> s[i] == '/'
    ensures r == [] || r[|r| - 1] != '/'
  {
    if |s| > 0 && s[|s| - 1] == '/' then StripTrailing(s[..|s| - 1]) else s
  }

  function NormalizeSegment(segment: string): string
  {
    StripTrailing(StripLeading(segment))
  }

  /** `buildWebhookPath`, as a value. */
  function WebhookPath(segment: string, pathParam: string): string
  {
    var normalized := NormalizeSegment(segment);
    (if normalized != "" then "/" + normalized + "/" else "/") + pathParam
  }

  /** The while loops of `buildWebhookPath`. */
  method BuildWebhookPath(segment: string, pathParam: string) returns (path: string)
    ensures path == WebhookPath(segment, pathParam)
  {
    var normalizedSegment := segment;
    while |normalizedSegment| > 0 && normalizedSegment[0] == '/'
      invariant StripLeading(normalizedSegment) == StripLeading(segment)
    {
      normalizedSegment := normalizedSegment[1..];
    }
    while |normalizedSegment| > 0 && normalizedSegment[|normalizedSegment| - 1] == '/'
      invariant StripTrailing(normalizedSegment) == NormalizeSegment(segment)
    {
      normalizedSegment := normalizedSegment[..|normalizedSegment| - 1];
    }
    var basePath := if normalizedSegment != "" then "/" + normalizedSegment + "/" else "/";
    path := basePath + pathParam;
  }

  /** `n` is `segment[i..j]`, and everything outside it is a slash. */
  predicate TrimmedAt(segment: string, n: string, i: nat, j: nat)
  {
    i <= j <= |segment| && n == segment[i..j] &&
    (forall k :: 0 <= k < i ==> segment[k] == '/') &&
    (forall k :: j <= k < |segment| ==> segment[k] == '/')
  }

  /** The normalised segment is the middle of the segment: only slashes are
      removed, and only at its two ends. */
  lemma NormalizeKeepsInterior(segment: string)
    ensures var n := NormalizeSegment(segment);
      (n == [] || (n[0] != '/' && n[|n| - 1] != '/')) &&
      exists i: nat, j: nat :: TrimmedAt(segment, n, i, j)
  {
    var l := StripLeading(segment);
    var i := |segment| - |l|;
    var n := StripTrailing(l);
    var j := i + |n|;
    assert n == segment[i..j];
    assert forall k :: j <= k < |segment| ==> segment[k] == l[k - i];
    assert TrimmedAt(segment, n, i, j);
  }

  /** The path starts at the root and ends with the node's own path. */
  lemma WebhookPathShape(segment: string, pathParam: string)
    ensures var p := WebhookPath(segment, pathParam);
      |p| > |pathParam| && p[0] == '/' && p[|p| - |pathParam|..] == pathParam
    ensures NormalizeSegment(segment) == "" ==> WebhookPath(segment, pathParam) == "/" + pathParam
  {
  }

  /** A segment of slashes only, the empty one included, mounts the path at the root. */
  lemma {:induction false} AllSlashSegment(segment: string, pathParam: string)
    requires forall k :: 0 <= k < |segment| ==> segment[k] == '/'
    ensures WebhookPath(segment, pathParam) == "/" + pathParam
    decreases |segment|
  {
    if |segment| > 0 {
      AllSlashSegment(segment[1..], pathParam);
    }
  }

  lemma {:induction false} StripLeadingAppendSlash(s: string)
    ensures StripLeading(s + "/") == if StripLeading(s) == "" then "" else StripLeading(s) + "/"
    decreases |s|
  {
    if |s| == 0 {
      assert StripLeading("/") == StripLeading("");
    } else if s[0] == '/' {
      assert (s + "/")[1..] == s[1..] + "/";
      StripLeadingAppendSlash(s[1..]);
    }
  }

  lemma LeadingSlashIgnored(segment: string)
    ensures NormalizeSegment("/" + segment) == NormalizeSegment(segment)
  {
    assert ("/" + segment)[1..] == segment;
  }

  lemma TrailingSlashIgnored(segment: string)
    ensures NormalizeSegment(segment + "/") == NormalizeSegment(segment)
  {
    StripLeadingAppendSlash(segment);
    var l := StripLeading(segment);
    if l != "" {
      assert (l + "/")[..|l + "/"| - 1] == l;
    }
  }

  /** Extra slashes around the segment make no difference. */
  lemma ExtraBoundarySlashes(segment: string, pathParam: string)
    ensures WebhookPath("/" + segment, pathParam) == WebhookPath(segment, pathParam)
    ensures WebhookPath(segment + "/", pathParam) == WebhookPath(segment, pathParam)
  {
    LeadingSlashIgnored(segment);
    TrailingSlashIgnored(segment);
  }

  // ---------------------------------------------------------------------------
  // Webhook node details

  datatype JwtVariant = Secret | PemKey

  datatype CredentialRequirement = NoCredentials | Basic | Header(headerName: string) | Jwt(variant: JwtVariant)

  /** A string parameter of a node, or undefined when absent or not a string. */
  function StringParameter(node: Node, key: string): (r: Option<string>)
    ensures r.Some? <==> key in node.parameters && node.parameters[key].JStr?
  {
    if key in node.parameters && node.parameters[key].JStr? then Some(node.parameters[key].s) else None
  }

  /** The id of the node's credential of the given type, when it has one. */
  function CredentialId(node: Node, credentialType: string): Option<string>
  {
    if credentialType in node.credentialIds then Some(node.credentialIds[credentialType]) else None
  }

  /** `resolveCredentialRequirement`: `headerNameOf` and `jwtVariantOf` stand
      for decrypting the credential with that id (and recognising its data). */
  function ResolveCredentialRequirement(node: Node, headerNameOf: string -> Option<string>,
                                        jwtVariantOf: string -> Option<JwtVariant>): (r: CredentialRequirement)
    ensures r == Basic <==> StringParameter(node, "authentication") == Some("basicAuth")
    ensures r.Header? <==>
      StringParameter(node, "authentication") == Some("headerAuth") && IdTruthy(CredentialId(node, "httpHeaderAuth")) &&
      IdTruthy(headerNameOf(CredentialId(node, "httpHeaderAuth").value))
    ensures r.Header? ==> r.headerName == headerNameOf(CredentialId(node, "httpHeaderAuth").value).value
    ensures r.Jwt? <==>
      StringParameter(node, "authentication") == Some("jwtAuth") && IdTruthy(CredentialId(node, "jwtAuth")) &&
      jwtVariantOf(CredentialId(node, "jwtAuth").value).Some?
    ensures r.Jwt? ==> r.variant == jwtVariantOf(CredentialId(node, "jwtAuth").value).value
  {
    match StringParameter(node, "authentication")
    case Some("basicAuth") => Basic
    case Some("headerAuth") =>
      var id := CredentialId(node, "httpHeaderAuth");
      var headerName := if IdTruthy(id) then headerNameOf(id.value) else None;
      if IdTruthy(headerName) then Header(headerName.value) else NoCredentials
    case Some("jwtAuth") =>
      var id := CredentialId(node, "jwtAuth");
      var variant := if IdTruthy(id) then jwtVariantOf(id.value) else None;
      if variant.Some? then Jwt(variant.value) else NoCredentials
    case _ => NoCredentials
  }

  /** An authentication value other than the three recognised ones asks for nothing. */
  lemma OtherAuthenticationNeedsNothing(node: Node, headerNameOf: string -> Option<string>,
                                        jwtVariantOf: string -> Option<JwtVariant>)
    requires StringParameter(node, "authentication") !in {Some("basicAuth"), Some("headerAuth"), Some("jwtAuth")}
    ensures ResolveCredentialRequirement(node, headerNameOf, jwtVariantOf) == NoCredentials
  {
  }

  const Configured: string := "Webhook is configured to respond "
  const ResponseNodeDescription: string := Configured + "using \"Respond to Webhook\" node."
  const LastNodeDescription: string := Configured + "when the last node is executed. "
  const ImmediateDescription: string := Configured + "immediately" + " with the message \"Workflow got started.\""
  const FirstEntryJsonText: string := "Returns the JSON data of the first entry of the last node. Always returns a JSON object."

  function LastNodeText(responseData: Option<string>): string
  {
    match responseData
    case Some("allEntries") => "Returns all the entries of the last node. Always returns an array."
    case Some("firstEntryBinary") => "Returns the binary data of the first entry of the last node. Always returns a binary file."
    case Some("noData") => "Returns without a body."
    case _ => FirstEntryJsonText
  }

  /** `getResponseModeDescription` */
  function ResponseModeDescription(node: Node): (r: string)
    ensures StringParameter(node, "responseMode") == Some("responseNode") <==> r == ResponseNodeDescription
    ensures StringParameter(node, "responseMode") == Some("lastNode") ==>
      r == LastNodeDescription + LastNodeText(StringParameter(node, "responseData"))
    ensures StringParameter(node, "responseMode") !in {Some("responseNode"), Some("lastNode")} <==> r == ImmediateDescription
  {
    match StringParameter(node, "responseMode")
    case Some("responseNode") => ResponseNodeDescription
    case Some("lastNode") =>
      var r := LastNodeDescription + LastNodeText(StringParameter(node, "responseData"));
      assert r[|Configured|] == LastNodeDescription[|Configured|] == 'w';
      assert ResponseNodeDescription[|Configured|] == 'u';
      assert ImmediateDescription[|Configured|] == 'i';
      r
    case _ => ImmediateDescription
  }

  /** A `lastNode` webhook with no recognised `responseData` returns the first entry's JSON. */
  lemma LastNodeDefault(node: Node)
    requires StringParameter(node, "responseMode") == Some("lastNode")
    requires StringParameter(node, "responseData") !in {Some("allEntries"), Some("firstEntryBinary"), Some("noData")}
    ensures ResponseModeDescription(node) == LastNodeDescription + FirstEntryJsonText
  {
  }

  datatype WebhookEndpoints = WebhookEndpoints(webhook: string, webhookTest: string)

  datatype WebhookNodeDetails = WebhookNodeDetails(
    nodeName: string,
    baseUrl: string,
    productionPath: string,
    testPath: string,
    httpMethod: string,
    responseModeDescription: string,
    credentials: CredentialRequirement)

  /** `collectWebhookNodeDetails`: a missing or non-string `path` is `''` and
      a missing or non-string `httpMethod` is `GET`. */
  function CollectWebhookNodeDetails(node: Node, baseUrl: string, endpoints: WebhookEndpoints,
                                     headerNameOf: string -> Option<string>,
                                     jwtVariantOf: string -> Option<JwtVariant>): (d: WebhookNodeDetails)
    ensures var pathParam := match StringParameter(node, "path") case Some(p) => p case None => "";
      d.productionPath == WebhookPath(endpoints.webhook, pathParam) &&
      d.testPath == WebhookPath(endpoints.webhookTest, pathParam)
    ensures StringParameter(node, "httpMethod").None? ==> d.httpMethod == "GET"
    ensures StringParameter(node, "httpMethod").Some? ==> d.httpMethod == StringParameter(node, "httpMethod").value
    ensures d.nodeName == node.name && d.baseUrl == baseUrl
    ensures d.credentials == ResolveCredentialRequirement(node, headerNameOf, jwtVariantOf)
  {
    var pathParam := match StringParameter(node, "path") case Some(p) => p case None => "";
    var httpMethod := match StringParameter(node, "httpMethod") case Some(m) => m case None => "GET";
    WebhookNodeDetails(
      node.name, baseUrl,
      WebhookPath(endpoints.webhook, pathParam), WebhookPath(endpoints.webhookTest, pathParam),
      httpMethod, ResponseModeDescription(node), ResolveCredentialRequirement(node, headerNameOf, jwtVariantOf))
  }

  // ---------------------------------------------------------------------------
  // Trigger descriptions

  const NoTriggerMessage: string := "This workflow does not have a trigger node that can be executed via MCP."
  const TriggersIntro: string := "This workflow has the following trigger(s):\n"
  const Indent: string := "\t\t\t\t"

  /** `parts.join(sep)` */
  function Join(parts: seq<string>, sep: string): string
  {
    if parts == [] then ""
    else if |parts| == 1 then parts[0]
    else parts[0] + sep + Join(parts[1..], sep)
  }

  function TriggerOpen(index: nat): string { "\n" + Indent + "<trigger " + NatToString(index + 1) + ">" }
  function TriggerClose(index: nat): string { Indent + "</trigger " + NatToString(index + 1) + ">" }

  /** A numbered block naming a schedule or chat trigger node. */
  function NameBlock(node: Node, index: nat): string
  {
    TriggerOpen(index) + "\n" + Indent + "\t - Node name: " + node.name + "\n" + TriggerClose(index)
  }

  /** `JSON.stringify(node.parameters.formFields ?? 'N/A')` */
  function FormFieldsText(node: Node, stringify: Json -> string): string
  {
    if "formFields" in node.parameters && node.parameters["formFields"] != JNull then stringify(node.parameters["formFields"])
    else "\"N/A\""
  }

  function FormBlock(node: Node, index: nat, stringify: Json -> string): string
  {
    TriggerOpen(index) + "\n" + Indent + "\t - Node name: " + node.name + "\n" +
    Indent + "\t - Form fields: " + FormFieldsText(node, stringify) + "\n" + TriggerClose(index)
  }

  function FormatCredentialRequirement(requirement: CredentialRequirement): string
  {
    match requirement
    case Basic => "\t - Credentials: \n\t - This webhook requires basic authentication with a username and password that should be provided by the user."
    case Header(name) => "\t - Credentials: \n\t - This webhook requires a header with name \"" + name + "\" and a value that should be provided by the user."
    case Jwt(Secret) => "\t - Credentials: \n\t - This webhook requires a JWT secret that should be provided by the user."
    case Jwt(PemKey) => "\t - Credentials: \n\t - This webhook requires JWT private and public keys that should be provided by the user."
    case NoCredentials => "\t - No credentials required for this webhook."
  }

  function WebhookBlock(d: WebhookNodeDetails, index: nat): string
  {
    TriggerOpen(index) + "\n" +
    Indent + "\t - Node name: " + d.nodeName + "\n" +
    Indent + "\t - Base URL: " + d.baseUrl + "\n" +
    Indent + "\t - Production path: " + d.productionPath + "\n" +
    Indent + "\t - Test path: " + d.testPath + "\n" +
    Indent + "\t - HTTP Method: " + d.httpMethod + "\n" +
    Indent + "\t - Response Mode: " + d.responseModeDescription + "\n" +
    Indent + FormatCredentialRequirement(d.credentials) + "\n" +
    TriggerClose(index)
  }

  function NameBlocks(nodes: seq<Node>): seq<string>
  {
    seq(|nodes|, i requires 0 <= i < |nodes| => NameBlock(nodes[i], i))
  }

  /** The external services the descriptions draw on. */
  datatype Services = Services(
    baseUrl: string,
    endpoints: WebhookEndpoints,
    headerNameOf: string -> Option<string>,
    jwtVariantOf: string -> Option<JwtVariant>,
    stringify: Json -> string)

  function WebhookSection(nodes: seq<Node>, sv: Services): string
  {
    "Webhook trigger(s):\n\n" + Join(WebhookBlocks(nodes, sv), "\n\n")
  }

  function ChatSection(nodes: seq<Node>): string
  {
    "Chat trigger(s):\n\n" + Join(NameBlocks(nodes), "\n\n") +
    "\n\nUse the following input format when directly executing this workflow using any of the chat triggers: { inputs { chatInput: <CHAT_MESSAGE_HERE> } }"
  }

  function ScheduleSection(nodes: seq<Node>): string
  {
    "Schedule trigger(s):\n\n" + Join(NameBlocks(nodes), "\n\n") +
    "\n\nScheduled workflows can be executed directly through MCP clients and do not require external inputs."
  }

  function FormBlocks(nodes: seq<Node>, stringify: Json -> string): seq<string>
  {
    seq(|nodes|, i requires 0 <= i < |nodes| => FormBlock(nodes[i], i, stringify))
  }

  function WebhookBlocks(nodes: seq<Node>, sv: Services): seq<string>
  {
    seq(|nodes|, i requires 0 <= i < |nodes| =>
      WebhookBlock(CollectWebhookNodeDetails(nodes[i], sv.baseUrl, sv.endpoints, sv.headerNameOf, sv.jwtVariantOf), i))
  }

  function FormSection(nodes: seq<Node>, sv: Services): string
  {
    "Form trigger(s):\n\n" + Join(FormBlocks(nodes, sv.stringify), "\n\n") +
    "\n\nUse the following input format when directly executing this workflow using any of the chat triggers: { inputs { formData: <FORM_FIELDS_HERE> } }"
  }

  /** The triggers of one type, in their original order. */
  function OfType(triggers: seq<Node>, nodeType: string): (r: seq<Node>)
    ensures |r| <= |triggers|
    ensures forall k :: 0 <= k < |r| ==> r[k].nodeType == nodeType && r[k] in triggers
    ensures forall n :: n in triggers && n.nodeType == nodeType ==> n in r
  {
    if triggers == [] then []
    else
      var n := |triggers| - 1;
      var front := OfType(triggers[..n], nodeType);
      assert forall x :: x in triggers <==> x in triggers[..n] || x == triggers[n];
      if triggers[n].nodeType == nodeType then front + [triggers[n]] else front
  }

  /** The supported triggers grouped by type, each group in list order. */
  datatype Groups = Groups(webhook: seq<Node>, chat: seq<Node>, schedule: seq<Node>, form: seq<Node>)

  function GroupTriggers(triggers: seq<Node>): Groups
  {
    Groups(OfType(triggers, WebhookNodeType), OfType(triggers, ChatTriggerNodeType),
           OfType(triggers, ScheduleTriggerNodeType), OfType(triggers, FormTriggerNodeType))
  }

  datatype TriggerKind = WebhookKind | ChatKind | ScheduleKind | FormKind

  /** Webhook first, then chat, schedule and form. */
  function Rank(k: TriggerKind): nat
  {
    match k
    case WebhookKind => 0
    case ChatKind => 1
    case ScheduleKind => 2
    case FormKind => 3
  }

  /** The group of one kind. */
  function GroupOf(g: Groups, kind: TriggerKind): seq<Node>
  {
    match kind
    case WebhookKind => g.webhook
    case ChatKind => g.chat
    case ScheduleKind => g.schedule
    case FormKind => g.form
  }

  /** The order in which the description lists the trigger types. */
  const SectionOrder: seq<TriggerKind> := [WebhookKind, ChatKind, ScheduleKind, FormKind]

  /** The kinds of `order` whose group is non-empty, in that order. */
  function Present(g: Groups, order: seq<TriggerKind>): (r: seq<TriggerKind>)
    ensures forall k :: k in r <==> k in order && GroupOf(g, k) != []
  {
    if order == [] then []
    else
      var n := |order| - 1;
      assert forall k :: k in order <==> k in order[..n] || k == order[n];
      Present(g, order[..n]) + (if GroupOf(g, order[n]) != [] then [order[n]] else [])
  }

  /** The sections a description holds, in the order it lists them. */
  function SectionKinds(g: Groups): (r: seq<TriggerKind>)
    ensures WebhookKind in r <==> g.webhook != []
    ensures ChatKind in r <==> g.chat != []
    ensures ScheduleKind in r <==> g.schedule != []
    ensures FormKind in r <==> g.form != []
  {
    Present(g, SectionOrder)
  }

  /** Kinds listed in strictly increasing rank. */
  predicate Ascending(ks: seq<TriggerKind>)
  {
    forall i, j :: 0 <= i < j < |ks| ==> Rank(ks[i]) < Rank(ks[j])
  }

  lemma {:induction false} PresentOrdered(g: Groups, order: seq<TriggerKind>)
    requires Ascending(order)
    ensures Ascending(Present(g, order))
  {
    if order != [] {
      var n := |order| - 1;
      assert Ascending(order[..n]) by {
        forall i, j | 0 <= i < j < n ensures Rank(order[..n][i]) < Rank(order[..n][j]) {
          assert order[..n][i] == order[i] && order[..n][j] == order[j];
        }
      }
      PresentOrdered(g, order[..n]);
      var front := Present(g, order[..n]);
      forall k | k in front ensures Rank(k) < Rank(order[n]) {
        var i :| 0 <= i < n && order[..n][i] == k;
        assert order[i] == k;
      }
      var r := Present(g, order);
      if GroupOf(g, order[n]) != [] {
        assert r == front + [order[n]];
        forall i, j | 0 <= i < j < |r| ensures Rank(r[i]) < Rank(r[j]) {
          if j == |front| {
            assert r[i] == front[i] && front[i] in front;
          } else {
            assert r[i] == front[i] && r[j] == front[j];
          }
        }
      } else {
        assert r == front;
      }
    }
  }

  /** Sections are listed webhook first, then chat, schedule and form. */
  lemma SectionKindsOrdered(g: Groups)
    ensures Ascending(SectionKinds(g))
  {
    assert forall i :: 0 <= i < |SectionOrder| ==> Rank(SectionOrder[i]) == i;
    PresentOrdered(g, SectionOrder);
  }

  function Section(kind: TriggerKind, g: Groups, sv: Services): string
  {
    match kind
    case WebhookKind => WebhookSection(g.webhook, sv)
    case ChatKind => ChatSection(g.chat)
    case ScheduleKind => ScheduleSection(g.schedule)
    case FormKind => FormSection(g.form, sv)
  }

  function SectionTexts(kinds: seq<TriggerKind>, g: Groups, sv: Services): (r: seq<string>)
    ensures |r| == |kinds|
  {
    if kinds == [] then []
    else SectionTexts(kinds[..|kinds| - 1], g, sv) + [Section(kinds[|kinds| - 1], g, sv)]
  }

  lemma SectionTextsPush(responses: seq<string>, kinds: seq<TriggerKind>, k: TriggerKind, g: Groups, sv: Services)
    requires responses == [TriggersIntro] + SectionTexts(kinds, g, sv)
    ensures responses + [Section(k, g, sv)] == [TriggersIntro] + SectionTexts(kinds + [k], g, sv)
  {
    assert (kinds + [k])[..|kinds|] == kinds;
  }

  /** One more kind of the section order: it joins the present kinds
      exactly when its group is non-empty. */
  lemma PresentStep(g: Groups, i: nat)
    requires i < |SectionOrder|
    ensures Present(g, SectionOrder[..i + 1]) ==
      if GroupOf(g, SectionOrder[i]) != [] then Present(g, SectionOrder[..i]) + [SectionOrder[i]]
      else Present(g, SectionOrder[..i])
  {
    assert SectionOrder[..i + 1][..i] == SectionOrder[..i];
  }

  /** The description `getTriggerDetails` returns. */
  function TriggerDetails(triggers: seq<Node>, sv: Services): string
  {
    if triggers == [] then NoTriggerMessage
    else
      var g := GroupTriggers(triggers);
      Join([TriggersIntro] + SectionTexts(SectionKinds(g), g, sv), "\n\n")
  }

  /** The loop of `getTriggerDetails` that pushes each trigger onto the list
      of its type. */
  method GroupByType(triggers: seq<Node>) returns (g: Groups)
    ensures g == GroupTriggers(triggers)
  {
    var schedule: seq<Node> := [];
    var webhook: seq<Node> := [];
    var form: seq<Node> := [];
    var chat: seq<Node> := [];
    for i := 0 to |triggers|
      invariant Groups(webhook, chat, schedule, form) == GroupTriggers(triggers[..i])
    {
      assert triggers[..i + 1][..i] == triggers[..i];
      var t := triggers[i];
      if t.nodeType == ScheduleTriggerNodeType {
        schedule := schedule + [t];
      } else if t.nodeType == WebhookNodeType {
        webhook := webhook + [t];
      } else if t.nodeType == FormTriggerNodeType {
        form := form + [t];
      } else if t.nodeType == ChatTriggerNodeType {
        chat := chat + [t];
      }
    }
    assert triggers[..|triggers|] == triggers;
    g := Groups(webhook, chat, schedule, form);
  }

  /** `getTriggerDetails`: the triggers are grouped by type in one pass and
      the section of each non-empty group pushed, in the fixed order (the
      source's four `if` statements are written here as one loop over that
      order). */
  method GetTriggerDetails(triggers: seq<Node>, sv: Services) returns (text: string)
    ensures text == TriggerDetails(triggers, sv)
    ensures triggers == [] ==> text == NoTriggerMessage
  {
    if |triggers| == 0 {
      return NoTriggerMessage;
    }
    var g := GroupByType(triggers);
    var responses: seq<string> := [TriggersIntro];
    for i := 0 to |SectionOrder|
      invariant responses == [TriggersIntro] + SectionTexts(Present(g, SectionOrder[..i]), g, sv)
    {
      var kind := SectionOrder[i];
      PresentStep(g, i);
      if |GroupOf(g, kind)| > 0 {
        SectionTextsPush(responses, Present(g, SectionOrder[..i]), kind, g, sv);
        responses := responses + [Section(kind, g, sv)];
      }
    }
    assert SectionOrder[..|SectionOrder|] == SectionOrder;
    text := Join(responses, "\n\n");
  }

  /** Nodes of any other type are ignored: adding one to a non-empty trigger
      list leaves the description as it was. */
  lemma UnsupportedTriggerIgnored(triggers: seq<Node>, extra: Node, sv: Services)
    requires triggers != []
    requires extra.nodeType !in {WebhookNodeType, ChatTriggerNodeType, ScheduleTriggerNodeType, FormTriggerNodeType}
    ensures TriggerDetails(triggers + [extra], sv) == TriggerDetails(triggers, sv)
  {
    var t := triggers + [extra];
    assert t[..|triggers|] == triggers;
    assert GroupTriggers(t) == GroupTriggers(triggers);
  }
}
