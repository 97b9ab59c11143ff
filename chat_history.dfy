/** Chat messages and the resolver that turns the parent-pointer tree of a
    session into the ordered history ending at one message
    (`buildMessageHistory` of the chat hub service). */
module ChatHistory {
  import opened Common

  datatype MessageType = Human | AI | System | OtherType(tag: string)

  datatype MessageStatus = Running | Success | Error | Cancelled

  datatype Provider = OpenAI | Anthropic | Google | N8n

  /** The model a message or session was produced with; `credentialId` is
      null for custom-agent (n8n) conversations. */
  datatype ModelSelection = ModelSelection(
    provider: Provider,
    model: string,
    workflowId: Option<string>,
    credentialId: Option<string>)

  /** The execution row a message is linked to, when it was loaded. */
  datatype ExecutionRef = ExecutionRef(id: int, workflowId: string)

  datatype Message = Message(
    id: string,
    sessionId: string,
    msgType: MessageType,
    name: string,
    content: string,
    status: MessageStatus,
    previousMessageId: Option<string>,
    retryOfMessageId: Option<string>,
    revisionOfMessageId: Option<string>,
    executionId: Option<int>,
    execution: Option<ExecutionRef>,
    selection: ModelSelection)

  /** The id → message record is built from the session's messages keyed by their own id. */
  ghost predicate WellKeyed(messages: map<string, Message>)
  {
    forall id :: id in messages ==> messages[id].id == id
  }

  /** `messages[id]?.previousMessageId ?? null` */
  function Next(messages: map<string, Message>, id: string): Option<string>
  {
    if id in messages then messages[id].previousMessageId else None
  }

  /** The ids the walk collects, root first, starting at `current` and never
      re-entering an id of `visited`. */
  function Walk(messages: map<string, Message>, current: Option<string>, visited: set<string>): seq<string>
    decreases messages.Keys - visited, if IdTruthy(current) then 1 else 0
  {
    if !IdTruthy(current) || current.value in visited then []
    else
      var c := current.value;
      Walk(messages, Next(messages, c), visited + {c}) + [c]
  }

  /** `ids.flatMap((id) => messages[id] ?? [])` */
  function Present(messages: map<string, Message>, ids: seq<string>): seq<Message>
  {
    if ids == [] then []
    else (if ids[0] in messages then [messages[ids[0]]] else []) + Present(messages, ids[1..])
  }

  /** The history the resolver returns: empty for a null or empty end id. */
  function History(messages: map<string, Message>, lastMessageId: Option<string>): seq<Message>
  {
    if !IdTruthy(lastMessageId) then [] else Present(messages, Walk(messages, lastMessageId, {}))
  }

  /** The resolver as the service runs it: a loop that prepends each unvisited
      id, then drops the ids absent from the record. */
  method BuildMessageHistory(messages: map<string, Message>, lastMessageId: Option<string>)
    returns (history: seq<Message>)
    ensures history == History(messages, lastMessageId)
    ensures !IdTruthy(lastMessageId) ==> history == []
  {
    if !IdTruthy(lastMessageId) {
      return [];
    }
    var visited: set<string> := {};
    var historyIds: seq<string> := [];
    var current := lastMessageId;
    while IdTruthy(current) && current.value !in visited
      invariant Walk(messages, lastMessageId, {}) == Walk(messages, current, visited) + historyIds
      decreases messages.Keys - visited, if IdTruthy(current) then 1 else 0
    {
      var c := current.value;
      historyIds := [c] + historyIds;
      visited := visited + {c};
      current := Next(messages, c);
    }
    assert Walk(messages, current, visited) == [];
    assert historyIds == Walk(messages, lastMessageId, {});
    history := Present(messages, historyIds);
    assert history == History(messages, lastMessageId);
  }

  // ---------------------------------------------------------------------------
  // Properties of the walk

  /** The walk never collects an id twice and never re-enters a visited id, so
      it stops even when the parent pointers form a cycle. */
  lemma {:induction false} WalkDistinct(messages: map<string, Message>, current: Option<string>, visited: set<string>)
    ensures forall i, j :: 0 <= i < j < |Walk(messages, current, visited)| ==>
      Walk(messages, current, visited)[i] != Walk(messages, current, visited)[j]
    ensures forall i :: 0 <= i < |Walk(messages, current, visited)| ==> Walk(messages, current, visited)[i] !in visited
    decreases messages.Keys - visited, if IdTruthy(current) then 1 else 0
  {
    if IdTruthy(current) && current.value !in visited {
      var c := current.value;
      var inner := Walk(messages, Next(messages, c), visited + {c});
      WalkDistinct(messages, Next(messages, c), visited + {c});
      assert forall i :: 0 <= i < |inner| ==> inner[i] !in visited + {c};
      assert forall i, j :: 0 <= i < j < |inner| ==> inner[i] != inner[j];
      var r := inner + [c];
      assert Walk(messages, current, visited) == r;
      forall i, j | 0 <= i < j < |r| ensures r[i] != r[j] {
        if j == |r| - 1 { assert r[i] == inner[i] && inner[i] !in visited + {c}; }
      }
    }
  }

  /** Root to leaf: every collected id after the first is a stored message whose
      parent is the id collected just before it, and the last id is the start. */
  lemma {:induction false} WalkLinked(messages: map<string, Message>, current: Option<string>, visited: set<string>)
    ensures var r := Walk(messages, current, visited);
      (forall k :: 1 <= k < |r| ==> r[k] in messages && messages[r[k]].previousMessageId == Some(r[k - 1])) &&
      (|r| > 0 ==> IdTruthy(current) && r[|r| - 1] == current.value) &&
      (|r| == 0 <==> (!IdTruthy(current) || current.value in visited))
    decreases messages.Keys - visited, if IdTruthy(current) then 1 else 0
  {
    if IdTruthy(current) && current.value !in visited {
      var c := current.value;
      WalkLinked(messages, Next(messages, c), visited + {c});
    }
  }

  /** The walk stops only at a real root (no usable parent) or at a repeated id. */
  lemma {:induction false} WalkMaximal(messages: map<string, Message>, current: Option<string>, visited: set<string>)
    ensures var r := Walk(messages, current, visited);
      |r| > 0 ==>
        var n := Next(messages, r[0]);
        !IdTruthy(n) || n.value in visited || n.value in r
    decreases messages.Keys - visited, if IdTruthy(current) then 1 else 0
  {
    if IdTruthy(current) && current.value !in visited {
      var c := current.value;
      var inner := Walk(messages, Next(messages, c), visited + {c});
      WalkMaximal(messages, Next(messages, c), visited + {c});
      WalkLinked(messages, Next(messages, c), visited + {c});
      if inner == [] {
        assert Walk(messages, current, visited) == [c];
      } else {
        assert Walk(messages, current, visited)[0] == inner[0];
      }
    }
  }

  lemma {:induction false} PresentAll(messages: map<string, Message>, ids: seq<string>)
    requires forall i :: 0 <= i < |ids| ==> ids[i] in messages
    ensures Present(messages, ids) == seq(|ids|, i requires 0 <= i < |ids| => messages[ids[i]])
  {
    if ids != [] {
      PresentAll(messages, ids[1..]);
    }
  }

  /** Only the root-most collected id can be absent from the record, so the
      history is the collected messages, minus at most that first id. */
  lemma HistoryShape(messages: map<string, Message>, lastMessageId: Option<string>)
    requires IdTruthy(lastMessageId)
    ensures var r := Walk(messages, lastMessageId, {});
      var h := History(messages, lastMessageId);
      |r| > 0 &&
      var off := if r[0] in messages then 0 else 1;
      |h| == |r| - off &&
      (forall i :: 0 <= i < |h| ==> r[i + off] in messages && h[i] == messages[r[i + off]])
  {
    var r := Walk(messages, lastMessageId, {});
    WalkLinked(messages, lastMessageId, {});
    if r[0] in messages {
      PresentAll(messages, r);
    } else {
      PresentAll(messages, r[1..]);
    }
  }

  /** The history is ordered root to leaf: each message's parent is the message
      before it; no message appears twice; it ends with the requested message
      when that one is stored; and every entry is a stored message. */
  lemma HistoryOrdered(messages: map<string, Message>, lastMessageId: Option<string>)
    requires WellKeyed(messages)
    ensures var h := History(messages, lastMessageId);
      (forall k :: 0 <= k < |h| - 1 ==> h[k + 1].previousMessageId == Some(h[k].id)) &&
      (forall i, j :: 0 <= i < j < |h| ==> h[i].id != h[j].id) &&
      (forall k :: 0 <= k < |h| ==> h[k].id in messages && messages[h[k].id] == h[k]) &&
      (IdTruthy(lastMessageId) && lastMessageId.value in messages ==>
         |h| > 0 && h[|h| - 1] == messages[lastMessageId.value])
  {
    if IdTruthy(lastMessageId) {
      HistoryShape(messages, lastMessageId);
      WalkLinked(messages, lastMessageId, {});
      WalkDistinct(messages, lastMessageId, {});
    }
  }

  /** A parent chain `chain` (root first) that is free of repeats, fully stored,
      and starts at a message without a parent. */
  ghost predicate IsChain(messages: map<string, Message>, chain: seq<string>)
  {
    |chain| > 0 &&
    (forall i :: 0 <= i < |chain| ==> chain[i] in messages && chain[i] != "") &&
    (forall i, j :: 0 <= i < j < |chain| ==> chain[i] != chain[j]) &&
    (forall k :: 0 <= k < |chain| - 1 ==> messages[chain[k + 1]].previousMessageId == Some(chain[k])) &&
    !IdTruthy(messages[chain[0]].previousMessageId)
  }

  lemma {:induction false} WalkFollowsChain(messages: map<string, Message>, chain: seq<string>, visited: set<string>)
    requires IsChain(messages, chain)
    requires forall i :: 0 <= i < |chain| ==> chain[i] !in visited
    ensures Walk(messages, Some(chain[|chain| - 1]), visited) == chain
    decreases |chain|
  {
    var c := chain[|chain| - 1];
    if |chain| == 1 {
      assert Walk(messages, Next(messages, c), visited + {c}) == [];
    } else {
      var front := chain[..|chain| - 1];
      assert IsChain(messages, front);
      assert Next(messages, c) == Some(front[|front| - 1]);
      WalkFollowsChain(messages, front, visited + {c});
      assert front + [c] == chain;
    }
  }

  /** For an acyclic, fully stored chain of N messages the history is exactly
      those N messages, root to leaf. */
  lemma ChainHistory(messages: map<string, Message>, chain: seq<string>)
    requires IsChain(messages, chain)
    ensures History(messages, Some(chain[|chain| - 1])) == seq(|chain|, i requires 0 <= i < |chain| => messages[chain[i]])
  {
    WalkFollowsChain(messages, chain, {});
    PresentAll(messages, chain);
  }
}
