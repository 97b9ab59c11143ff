/** The Tools Agent (version 3) executor: the guard on the number of agent
    iterations, the loop that hands the input items to the batch executor in
    slices of `batchSize`, and the way the batches' output data and tool-call
    requests are combined. The batch executor itself (models, memory, the
    language model call) is a function parameter; the pause between batches
    is recorded as the list of delays slept. */
module ToolsAgent {
  import opened Common

  /** Default of the `options.maxIterations` node parameter. */
  const DefaultMaxIterations: int := 10

  /** A request to the engine to run tools: the actions to run and the
      metadata the engine hands back with the results. */
  datatype EngineRequest = EngineRequest(actions: seq<Json>, metadata: Json)

  /** What `executeBatch` returns for one slice of items. */
  datatype BatchResult = BatchResult(returnData: seq<Json>, request: Option<EngineRequest>)

  /** One call of the batch executor: the slice and the index of its first item. */
  datatype Batch = Batch(items: seq<Json>, start: nat)

  datatype AgentOutput =
    | ToolRequest(request: EngineRequest)   // the engine must run tools first
    | NodeOutput(data: seq<seq<Json>>)      // `[returnData]`, one output branch

  datatype AgentError = MaxIterationsReached(maxIterations: int)

  /** The iteration guard: a continuation whose iteration count has reached
      the configured maximum is refused before any batch runs. */
  function CheckIterations(iterationCount: Option<int>, maxIterations: Option<int>): (r: Result<(), AgentError>)
    ensures r.Err? <==> iterationCount.Some? && iterationCount.value >= (if maxIterations.Some? then maxIterations.value else DefaultMaxIterations)
    ensures r.Err? ==> r.error.maxIterations == (if maxIterations.Some? then maxIterations.value else DefaultMaxIterations)
  {
    if iterationCount.None? then Ok(())
    else
      var limit := if maxIterations.Some? then maxIterations.value else DefaultMaxIterations;
      if iterationCount.value >= limit then Err(MaxIterationsReached(limit)) else Ok(())
  }

  function Min(a: int, b: int): int
  {
    if a <= b then a else b
  }

  /** The batches from index `i` on: `items.slice(i, i + b)` at `i`, `i + b`, ... */
  function BatchesFrom(items: seq<Json>, b: nat, i: nat): (r: seq<Batch>)
    requires b > 0
    decreases |items| - i
  {
    if i >= |items| then []
    else [Batch(items[i..Min(i + b, |items|)], i)] + BatchesFrom(items, b, i + b)
  }

  /** All batches of a run. */
  function Batches(items: seq<Json>, b: nat): seq<Batch>
    requires b > 0
  {
    BatchesFrom(items, b, 0)
  }

  /** The concatenated output data of the batches `bs`, in batch order. */
  function DataOf(bs: seq<Batch>, executeBatch: (seq<Json>, nat) -> BatchResult): seq<Json>
  {
    if bs == [] then []
    else executeBatch(bs[0].items, bs[0].start).returnData + DataOf(bs[1..], executeBatch)
  }

  /** One step of the request merge: the first request is kept, later ones
      contribute their actions. */
  function MergeStep(acc: Option<EngineRequest>, next: Option<EngineRequest>): Option<EngineRequest>
  {
    if next.None? then acc
    else if acc.None? then next
    else Some(acc.value.(actions := acc.value.actions + next.value.actions))
  }

  /** The request left after merging the requests of `bs` into `acc`. */
  function MergeFrom(acc: Option<EngineRequest>, bs: seq<Batch>, executeBatch: (seq<Json>, nat) -> BatchResult): Option<EngineRequest>
    decreases |bs|
  {
    if bs == [] then acc
    else MergeFrom(MergeStep(acc, executeBatch(bs[0].items, bs[0].start).request), bs[1..], executeBatch)
  }

  /** The first request any of the batches produced. */
  function FirstRequest(rs: seq<Option<EngineRequest>>): Option<EngineRequest>
  {
    if rs == [] then None
    else if rs[0].Some? then rs[0] else FirstRequest(rs[1..])
  }

  /** All actions of all requests, in batch order. */
  function AllActions(rs: seq<Option<EngineRequest>>): seq<Json>
  {
    if rs == [] then []
    else (if rs[0].Some? then rs[0].value.actions else []) + AllActions(rs[1..])
  }

  function RequestsOf(bs: seq<Batch>, executeBatch: (seq<Json>, nat) -> BatchResult): (rs: seq<Option<EngineRequest>>)
    ensures |rs| == |bs|
    ensures forall k :: 0 <= k < |bs| ==> rs[k] == executeBatch(bs[k].items, bs[k].start).request
  {
    seq(|bs|, k requires 0 <= k < |bs| => executeBatch(bs[k].items, bs[k].start).request)
  }

  /** What the executor returns once every batch has run. */
  function Outcome(items: seq<Json>, b: nat, executeBatch: (seq<Json>, nat) -> BatchResult): AgentOutput
    requires b > 0
  {
    var merged := MergeFrom(None, Batches(items, b), executeBatch);
    if merged.Some? then ToolRequest(merged.value) else NodeOutput([DataOf(Batches(items, b), executeBatch)])
  }

  /** `toolsAgentExecute`: returns the error of the iteration guard, or runs
      every batch in order, sleeping `delayBetweenBatches` between two
      batches when it is positive. `calls` lists the executor's calls,
      `sleeps` the pauses taken. */
  method ToolsAgentExecute(iterationCount: Option<int>, maxIterations: Option<int>, items: seq<Json>,
                           batchSize: nat, delayBetweenBatches: int,
                           executeBatch: (seq<Json>, nat) -> BatchResult)
    returns (r: Result<AgentOutput, AgentError>, calls: seq<Batch>, sleeps: seq<int>)
    requires batchSize > 0
    ensures CheckIterations(iterationCount, maxIterations).Err? ==>
              r == Err(CheckIterations(iterationCount, maxIterations).error) && calls == [] && sleeps == []
    ensures CheckIterations(iterationCount, maxIterations).Ok? ==>
              r == Ok(Outcome(items, batchSize, executeBatch)) && calls == Batches(items, batchSize)
    ensures forall s :: s in sleeps ==> s == delayBetweenBatches
    ensures |sleeps| == (if delayBetweenBatches > 0 && calls != [] then |calls| - 1 else 0)
  {
    var guard := CheckIterations(iterationCount, maxIterations);
    if guard.Err? {
      return Err(guard.error), [], [];
    }
    var returnData, request;
    returnData, request, calls, sleeps := RunBatches(items, batchSize, delayBetweenBatches, executeBatch);
    r := Ok(if request.Some? then ToolRequest(request.value) else NodeOutput([returnData]));
  }

  /** `k` pauses of `d`. */
  function Repeat(d: int, k: nat): (r: seq<int>)
    ensures |r| == k && forall j :: 0 <= j < k ==> r[j] == d
  {
    if k == 0 then [] else Repeat(d, k - 1) + [d]
  }

  /** The pauses taken once `n` batches have run, when `more` batches remain. */
  function SleepCount(d: int, n: nat, more: bool): nat
  {
    if d <= 0 || n == 0 then 0 else if more then n else n - 1
  }

  /** One more batch: a pause is added exactly when more batches follow and
      the delay is positive. */
  lemma SleepStep(d: int, n: nat, more: bool)
    ensures Repeat(d, SleepCount(d, n + 1, more)) ==
      if more && d > 0 then Repeat(d, SleepCount(d, n, true)) + [d] else Repeat(d, SleepCount(d, n, true))
  {
  }

  /** The batch loop of `toolsAgentExecute`: the executor's data and the
      merged request of every batch, the calls made and the pauses taken. */
  method RunBatches(items: seq<Json>, batchSize: nat, delayBetweenBatches: int,
                    executeBatch: (seq<Json>, nat) -> BatchResult)
    returns (returnData: seq<Json>, request: Option<EngineRequest>, calls: seq<Batch>, sleeps: seq<int>)
    requires batchSize > 0
    ensures returnData == DataOf(Batches(items, batchSize), executeBatch)
    ensures request == MergeFrom(None, Batches(items, batchSize), executeBatch)
    ensures calls == Batches(items, batchSize)
    ensures sleeps == Repeat(delayBetweenBatches, SleepCount(delayBetweenBatches, |calls|, false))
  {
    returnData, request, calls, sleeps := [], None, [], [];
    var i := 0;
    while i < |items|
      invariant Progress(items, batchSize, delayBetweenBatches, executeBatch, i, calls, returnData, request, sleeps)
      decreases |items| - i
    {
      var batch := Batch(items[i..Min(i + batchSize, |items|)], i);
      BatchStep(items, batchSize, delayBetweenBatches, executeBatch, i, calls, returnData, request, sleeps);
      var result := executeBatch(batch.items, batch.start);
      calls := calls + [batch];
      returnData := returnData + result.returnData;
      request := MergeStep(request, result.request);
      if i + batchSize < |items| && delayBetweenBatches > 0 {
        sleeps := sleeps + [delayBetweenBatches];
      }
      i := i + batchSize;
    }
    ProgressDone(items, batchSize, delayBetweenBatches, executeBatch, i, calls, returnData, request, sleeps);
  }

  /** The loop state after the batches before item `i` have run: with the
      batches still to come, the accumulators give the whole result, and one
      pause was taken between each two batches run so far. */
  predicate Progress(items: seq<Json>, b: nat, d: int, executeBatch: (seq<Json>, nat) -> BatchResult, i: nat,
                     calls: seq<Batch>, returnData: seq<Json>, request: Option<EngineRequest>, sleeps: seq<int>)
    requires b > 0
  {
    calls + BatchesFrom(items, b, i) == Batches(items, b) &&
    returnData + DataOf(BatchesFrom(items, b, i), executeBatch) == DataOf(Batches(items, b), executeBatch) &&
    MergeFrom(request, BatchesFrom(items, b, i), executeBatch) == MergeFrom(None, Batches(items, b), executeBatch) &&
    sleeps == Repeat(d, SleepCount(d, |calls|, i < |items|))
  }

  /** Once no item is left, the loop state is the result of the executor. */
  lemma ProgressDone(items: seq<Json>, b: nat, d: int, executeBatch: (seq<Json>, nat) -> BatchResult, i: nat,
                     calls: seq<Batch>, returnData: seq<Json>, request: Option<EngineRequest>, sleeps: seq<int>)
    requires b > 0 && i >= |items|
    requires Progress(items, b, d, executeBatch, i, calls, returnData, request, sleeps)
    ensures returnData == DataOf(Batches(items, b), executeBatch)
    ensures request == MergeFrom(None, Batches(items, b), executeBatch)
    ensures calls == Batches(items, b)
    ensures sleeps == Repeat(d, SleepCount(d, |calls|, false))
  {
    assert BatchesFrom(items, b, i) == [];
    assert returnData + [] == returnData;
  }

  /** One pass of the batch loop keeps the loop state in step with its
      specification. */
  lemma BatchStep(items: seq<Json>, b: nat, d: int, executeBatch: (seq<Json>, nat) -> BatchResult, i: nat,
                  calls: seq<Batch>, returnData: seq<Json>, request: Option<EngineRequest>, sleeps: seq<int>)
    requires b > 0 && i < |items|
    requires Progress(items, b, d, executeBatch, i, calls, returnData, request, sleeps)
    ensures var batch := Batch(items[i..Min(i + b, |items|)], i);
      var result := executeBatch(batch.items, batch.start);
      Progress(items, b, d, executeBatch, i + b, calls + [batch], returnData + result.returnData,
               MergeStep(request, result.request),
               if i + b < |items| && d > 0 then sleeps + [d] else sleeps)
  {
    CallsStep(items, b, i, calls);
    DataStep(items, b, executeBatch, i, returnData);
    RequestStep(items, b, executeBatch, i, request);
    SleepStep(d, |calls|, i + b < |items|);
  }

  /** The calls made so far, followed by the batches still to come, are all the batches. */
  lemma CallsStep(items: seq<Json>, b: nat, i: nat, calls: seq<Batch>)
    requires b > 0 && i < |items|
    requires calls + BatchesFrom(items, b, i) == Batches(items, b)
    ensures (calls + [Batch(items[i..Min(i + b, |items|)], i)]) + BatchesFrom(items, b, i + b) == Batches(items, b)
  {
    var batch := Batch(items[i..Min(i + b, |items|)], i);
    var rest := BatchesFrom(items, b, i + b);
    assert BatchesFrom(items, b, i) == [batch] + rest;
    assert (calls + [batch]) + rest == calls + ([batch] + rest);
  }

  /** The data gathered so far, followed by that of the batches still to come, is all the data. */
  lemma DataStep(items: seq<Json>, b: nat, executeBatch: (seq<Json>, nat) -> BatchResult, i: nat, returnData: seq<Json>)
    requires b > 0 && i < |items|
    requires returnData + DataOf(BatchesFrom(items, b, i), executeBatch) == DataOf(Batches(items, b), executeBatch)
    ensures var batch := Batch(items[i..Min(i + b, |items|)], i);
      (returnData + executeBatch(batch.items, batch.start).returnData) + DataOf(BatchesFrom(items, b, i + b), executeBatch)
        == DataOf(Batches(items, b), executeBatch)
  {
    var batch := Batch(items[i..Min(i + b, |items|)], i);
    var result := executeBatch(batch.items, batch.start);
    var rest := BatchesFrom(items, b, i + b);
    BatchesFromUnfold(items, b, i, None, executeBatch);
    assert (returnData + result.returnData) + DataOf(rest, executeBatch) == returnData + (result.returnData + DataOf(rest, executeBatch));
  }

  /** Merging the next batch's request keeps the final merged request. */
  lemma RequestStep(items: seq<Json>, b: nat, executeBatch: (seq<Json>, nat) -> BatchResult, i: nat, request: Option<EngineRequest>)
    requires b > 0 && i < |items|
    requires MergeFrom(request, BatchesFrom(items, b, i), executeBatch) == MergeFrom(None, Batches(items, b), executeBatch)
    ensures var batch := Batch(items[i..Min(i + b, |items|)], i);
      MergeFrom(MergeStep(request, executeBatch(batch.items, batch.start).request), BatchesFrom(items, b, i + b), executeBatch)
        == MergeFrom(None, Batches(items, b), executeBatch)
  {
    BatchesFromUnfold(items, b, i, request, executeBatch);
  }

  lemma BatchesFromUnfold(items: seq<Json>, b: nat, i: nat, acc: Option<EngineRequest>, executeBatch: (seq<Json>, nat) -> BatchResult)
    requires b > 0 && i < |items|
    ensures var batch := Batch(items[i..Min(i + b, |items|)], i);
      var result := executeBatch(batch.items, batch.start);
      BatchesFrom(items, b, i) == [batch] + BatchesFrom(items, b, i + b) &&
      DataOf(BatchesFrom(items, b, i), executeBatch) == result.returnData + DataOf(BatchesFrom(items, b, i + b), executeBatch) &&
      MergeFrom(acc, BatchesFrom(items, b, i), executeBatch) == MergeFrom(MergeStep(acc, result.request), BatchesFrom(items, b, i + b), executeBatch)
  {
    var batch := Batch(items[i..Min(i + b, |items|)], i);
    var rest := BatchesFrom(items, b, i + b);
    assert ([batch] + rest)[1..] == rest;
  }

  /** The batches cover every item exactly once and in order, each starting
      where the previous one ended. */
  lemma {:induction false} BatchesCover(items: seq<Json>, b: nat, i: nat)
    requires b > 0 && i <= |items|
    ensures var bs := BatchesFrom(items, b, i);
      Flatten(bs) == items[i..] &&
      forall k :: 0 <= k < |bs| ==> bs[k].start == i + k * b && 0 < |bs[k].items| <= b
    decreases |items| - i
  {
    if i < |items| {
      var j := Min(i + b, |items|);
      BatchesCover(items, b, j);
      var rest := BatchesFrom(items, b, i + b);
      assert BatchesFrom(items, b, j) == rest by {
        if j < i + b {
          assert rest == [];
        }
      }
      var bs := BatchesFrom(items, b, i);
      assert bs[1..] == rest;
      assert items[i..] == items[i..j] + items[j..];
      forall k | 0 <= k < |bs| ensures bs[k].start == i + k * b && 0 < |bs[k].items| <= b {
        if k > 0 {
          assert bs[k] == rest[k - 1];
          assert i + b + (k - 1) * b == i + k * b;
        }
      }
    }
  }

  /** The items of the batches `bs`, one after another. */
  function Flatten(bs: seq<Batch>): seq<Json>
  {
    if bs == [] then [] else bs[0].items + Flatten(bs[1..])
  }

  /** A run makes `ceil(n / b)` calls of the batch executor (so with a
      positive delay it sleeps one time fewer): the smallest count whose
      batches of `b` items hold all `n` items. */
  lemma {:induction false} BatchCount(items: seq<Json>, b: nat, i: nat)
    requires b > 0 && i < |items|
    ensures var m := |BatchesFrom(items, b, i)|;
      m >= 1 && (m - 1) * b < |items| - i <= m * b
    decreases |items| - i
  {
    var m := |BatchesFrom(items, b, i)|;
    if i + b < |items| {
      BatchCount(items, b, i + b);
      var m' := |BatchesFrom(items, b, i + b)|;
      assert m == m' + 1;
      assert m * b == m' * b + b;
      assert (m - 1) * b == (m' - 1) * b + b;
    } else {
      assert BatchesFrom(items, b, i + b) == [];
      assert m == 1;
    }
  }

  /** Merging keeps the first request's metadata and gathers every action
      of every batch request, in batch order. */
  lemma {:induction false} MergeCollectsActions(acc: Option<EngineRequest>, bs: seq<Batch>, executeBatch: (seq<Json>, nat) -> BatchResult)
    ensures var rs := RequestsOf(bs, executeBatch);
      var m := MergeFrom(acc, bs, executeBatch);
      (acc.Some? ==> m == Some(acc.value.(actions := acc.value.actions + AllActions(rs)))) &&
      (acc.None? ==> (m.Some? <==> FirstRequest(rs).Some?)) &&
      (acc.None? && m.Some? ==> m.value == FirstRequest(rs).value.(actions := AllActions(rs)))
    decreases |bs|
  {
    if bs != [] {
      var rs := RequestsOf(bs, executeBatch);
      var next := executeBatch(bs[0].items, bs[0].start).request;
      MergeCollectsActions(MergeStep(acc, next), bs[1..], executeBatch);
      assert RequestsOf(bs[1..], executeBatch) == rs[1..];
      assert rs[0] == next;
      assert AllActions(rs) == (if next.Some? then next.value.actions else []) + AllActions(rs[1..]);
      assert FirstRequest(rs) == if next.Some? then next else FirstRequest(rs[1..]);
      var m := MergeFrom(acc, bs, executeBatch);
      assert m == MergeFrom(MergeStep(acc, next), bs[1..], executeBatch);
      if acc.Some? && next.Some? {
        var merged := acc.value.(actions := acc.value.actions + next.value.actions);
        assert MergeStep(acc, next) == Some(merged);
        assert m == Some(merged.(actions := merged.actions + AllActions(rs[1..])));
        assert merged.actions + AllActions(rs[1..]) == acc.value.actions + AllActions(rs);
        assert merged.(actions := acc.value.actions + AllActions(rs)) == acc.value.(actions := acc.value.actions + AllActions(rs));
      } else if acc.Some? {
        assert AllActions(rs) == AllActions(rs[1..]);
        assert m == Some(acc.value.(actions := acc.value.actions + AllActions(rs[1..])));
      }
    } else if acc.Some? {
      assert acc.value.actions + [] == acc.value.actions;
    }
  }

  /** With no tool requests the node outputs one branch holding every
      batch's data in batch order; otherwise it outputs the merged request. */
  lemma OutcomeShape(items: seq<Json>, b: nat, executeBatch: (seq<Json>, nat) -> BatchResult)
    requires b > 0
    ensures var rs := RequestsOf(Batches(items, b), executeBatch);
      (FirstRequest(rs).None? ==> Outcome(items, b, executeBatch) == NodeOutput([DataOf(Batches(items, b), executeBatch)])) &&
      (FirstRequest(rs).Some? ==> Outcome(items, b, executeBatch) == ToolRequest(FirstRequest(rs).value.(actions := AllActions(rs))))
  {
    MergeCollectsActions(None, Batches(items, b), executeBatch);
  }
}
