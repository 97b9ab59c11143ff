/** The Python task runner's executor: the per-item result assembly, the
    formatting and truncation of captured `print()` arguments, the message the
    child process writes to the pipe, how the parent classifies the child's
    outcome, and the rule that cleans `sys.modules` before user code runs. */
module TaskExecutor {
  import opened Common
  import opened PipeFraming

  /** A Python value as user code returns or prints it. Dictionaries keep
      their insertion order; floats carry the text `str()` gives them. */
  datatype PyValue =
    | PNone
    | PBool(b: bool)
    | PInt(i: int)
    | PFloat(text: string)
    | PStr(s: string)
    | PList(items: seq<PyValue>)
    | PDict(entries: seq<(string, PyValue)>)
    | PObject(typeName: string)

  function DictKeys(entries: seq<(string, PyValue)>): (r: seq<string>)
    ensures |r| == |entries| && forall i :: 0 <= i < |r| ==> r[i] == entries[i].0
  {
    if entries == [] then [] else [entries[0].0] + DictKeys(entries[1..])
  }

  /** `d.get(key)`: a dictionary display that repeats a key keeps the last value. */
  function DictGet(entries: seq<(string, PyValue)>, key: string): (r: Option<PyValue>)
    ensures r.Some? <==> key in DictKeys(entries)
  {
    if entries == [] then None
    else
      var last := entries[|entries| - 1];
      assert DictKeys(entries) == DictKeys(entries[..|entries| - 1]) + [last.0];
      if last.0 == key then Some(last.1) else DictGet(entries[..|entries| - 1], key)
  }

  // ---------------------------------------------------------------------------
  // Per-item results

  /** `_extract_json_data_per_item`: the `json` entry when there is one,
      otherwise a dictionary without its `binary` entry, otherwise the value. */
  function ExtractJsonData(output: PyValue): (r: PyValue)
    ensures !output.PDict? ==> r == output
    ensures output.PDict? && "json" in DictKeys(output.entries) ==> Some(r) == DictGet(output.entries, "json")
    ensures output.PDict? && "json" !in DictKeys(output.entries) && "binary" in DictKeys(output.entries) ==>
      r.PDict? && "binary" !in DictKeys(r.entries) &&
      (forall e :: e in r.entries <==> e in output.entries && e.0 != "binary")
    ensures output.PDict? && "json" !in DictKeys(output.entries) && "binary" !in DictKeys(output.entries) ==> r == output
  {
    match output
    case PDict(entries) =>
      if "json" in DictKeys(entries) then DictGet(entries, "json").value
      else if "binary" in DictKeys(entries) then PDict(WithoutKey(entries, "binary"))
      else output
    case _ => output
  }

  /** `{k: v for k, v in d.items() if k != key}` */
  function WithoutKey(entries: seq<(string, PyValue)>, key: string): (r: seq<(string, PyValue)>)
    ensures key !in DictKeys(r)
    ensures forall e :: e in r <==> e in entries && e.0 != key
  {
    if entries == [] then []
    else
      var rest := WithoutKey(entries[1..], key);
      assert DictKeys([entries[0]] + rest) == [entries[0].0] + DictKeys(rest);
      assert forall e :: e in entries <==> e == entries[0] || e in entries[1..];
      if entries[0].0 == key then rest else [entries[0]] + rest
  }

  /** One entry of the per-item result: `{"json": …, "pairedItem": {"item": i}}`
      and the `binary` entry when the output had one. */
  datatype ResultItem = ResultItem(json: PyValue, pairedItem: nat, binary: Option<PyValue>)

  function ItemFor(output: PyValue, index: nat): ResultItem
  {
    var binary := if output.PDict? then DictGet(output.entries, "binary") else None;
    ResultItem(ExtractJsonData(output), index, binary)
  }

  /** The per-item result for the outputs user code returned for each input
      item in turn; `None` outputs contribute nothing. */
  function PerItemResult(outputs: seq<PyValue>): (r: seq<ResultItem>)
    ensures |r| <= |outputs|
    ensures forall k :: 0 <= k < |r| ==> r[k].pairedItem < |outputs| && outputs[r[k].pairedItem] != PNone
  {
    if outputs == [] then []
    else
      var n := |outputs| - 1;
      var front := PerItemResult(outputs[..n]);
      assert forall k :: 0 <= k < |front| ==> outputs[..n][front[k].pairedItem] == outputs[front[k].pairedItem];
      if outputs[n] == PNone then front else front + [ItemFor(outputs[n], n)]
  }

  /** The loop of `_per_item` over the outputs of the user function. */
  method PerItem(outputs: seq<PyValue>) returns (result: seq<ResultItem>)
    ensures result == PerItemResult(outputs)
  {
    result := [];
    var index := 0;
    while index < |outputs|
      invariant 0 <= index <= |outputs|
      invariant result == PerItemResult(outputs[..index])
    {
      assert outputs[..index + 1][..index] == outputs[..index];
      var userOutput := outputs[index];
      if userOutput != PNone {
        var item := ItemFor(userOutput, index);
        result := result + [item];
      }
      index := index + 1;
    }
    assert outputs[..index] == outputs;
  }

  predicate EntriesSourced(outputs: seq<PyValue>, r: seq<ResultItem>)
  {
    forall k :: 0 <= k < |r| ==> r[k].pairedItem < |outputs| && r[k] == ItemFor(outputs[r[k].pairedItem], r[k].pairedItem)
  }

  predicate EntriesOrdered(r: seq<ResultItem>)
  {
    forall k :: 1 <= k < |r| ==> r[k - 1].pairedItem < r[k].pairedItem
  }

  predicate EntriesCover(outputs: seq<PyValue>, r: seq<ResultItem>)
  {
    forall i :: 0 <= i < |outputs| && outputs[i] != PNone ==> exists k :: 0 <= k < |r| && r[k].pairedItem == i
  }

  /** Every result entry is built from the output of the item it names. */
  lemma {:induction false} PerItemSource(outputs: seq<PyValue>)
    ensures EntriesSourced(outputs, PerItemResult(outputs))
  {
    if outputs != [] {
      var n := |outputs| - 1;
      var front := PerItemResult(outputs[..n]);
      var r := PerItemResult(outputs);
      assert r == if outputs[n] == PNone then front else front + [ItemFor(outputs[n], n)];
      PerItemSource(outputs[..n]);
      forall k | 0 <= k < |r|
        ensures r[k].pairedItem < |outputs| && r[k] == ItemFor(outputs[r[k].pairedItem], r[k].pairedItem)
      {
        if k < |front| {
          assert r[k] == front[k];
          assert outputs[..n][front[k].pairedItem] == outputs[front[k].pairedItem];
        }
      }
    }
  }

  /** The entries are in item order. */
  lemma {:induction false} PerItemOrdered(outputs: seq<PyValue>)
    ensures EntriesOrdered(PerItemResult(outputs))
  {
    if outputs != [] {
      var n := |outputs| - 1;
      var front := PerItemResult(outputs[..n]);
      var r := PerItemResult(outputs);
      assert r == if outputs[n] == PNone then front else front + [ItemFor(outputs[n], n)];
      PerItemOrdered(outputs[..n]);
      forall k | 1 <= k < |r|
        ensures r[k - 1].pairedItem < r[k].pairedItem
      {
        assert r[k - 1] == front[k - 1];
        if k < |front| {
          assert r[k] == front[k];
        }
      }
    }
  }

  /** Every non-`None` output has its entry. */
  lemma {:induction false} PerItemCovers(outputs: seq<PyValue>)
    ensures EntriesCover(outputs, PerItemResult(outputs))
  {
    if outputs != [] {
      var n := |outputs| - 1;
      var front := PerItemResult(outputs[..n]);
      var r := PerItemResult(outputs);
      assert r == if outputs[n] == PNone then front else front + [ItemFor(outputs[n], n)];
      PerItemCovers(outputs[..n]);
      forall i | 0 <= i < |outputs| && outputs[i] != PNone
        ensures exists k :: 0 <= k < |r| && r[k].pairedItem == i
      {
        if i < n {
          assert outputs[..n][i] == outputs[i];
          var k :| 0 <= k < |front| && front[k].pairedItem == i;
          assert r[k] == front[k];
        } else {
          assert r[|front|].pairedItem == i;
        }
      }
    }
  }

  /** Every result entry comes from the output of the item it names, in item
      order, and every non-`None` output has its entry. */
  lemma PerItemPairing(outputs: seq<PyValue>)
    ensures var r := PerItemResult(outputs);
      (forall k :: 0 <= k < |r| ==> r[k] == ItemFor(outputs[r[k].pairedItem], r[k].pairedItem)) &&
      (forall k :: 1 <= k < |r| ==> r[k - 1].pairedItem < r[k].pairedItem) &&
      (forall i :: 0 <= i < |outputs| && outputs[i] != PNone ==> exists k :: 0 <= k < |r| && r[k].pairedItem == i)
  {
    PerItemSource(outputs);
    PerItemOrdered(outputs);
    PerItemCovers(outputs);
  }

  // ---------------------------------------------------------------------------
  // print() capture

  const MaxPrintArgsAllowed: nat := 100

  /** `str()` and `json.dumps(default=str)` of values whose rendering is not
      modelled (containers, floats' digits, objects). */
  datatype Renderer = Renderer(str: PyValue -> string, dumps: PyValue -> string)

  /** `str(v)` for the scalar values whose rendering Python fixes. */
  function PyStr(v: PyValue, render: Renderer): string
  {
    match v
    case PStr(s) => s
    case PNone => "None"
    case PBool(b) => if b then "True" else "False"
    case PInt(i) => IntToString(i)
    case PFloat(t) => t
    case _ => render.str(v)
  }

  /** One argument of `_format_print_args`. */
  function FormatArg(arg: PyValue, circularKey: string, render: Renderer): (r: string)
    ensures arg.PStr? ==> |r| == |arg.s| + 2 && r[0] == '\'' && r[|r| - 1] == '\'' && r[1..|r| - 1] == arg.s
    ensures arg.PDict? && circularKey in DictKeys(arg.entries) ==>
      var typeName := match DictGet(arg.entries, "__type__") case Some(t) => PyStr(t, render) case None => "Object";
      r == "[Circular " + typeName + "]"
    ensures arg.PNone? ==> r == "None"
  {
    match arg
    case PStr(s) => "'" + s + "'"
    case PNone => PyStr(arg, render)
    case PBool(_) => PyStr(arg, render)
    case PInt(_) => PyStr(arg, render)
    case PFloat(_) => PyStr(arg, render)
    case PDict(entries) =>
      if circularKey in DictKeys(entries) then
        var typeName := match DictGet(entries, "__type__") case Some(t) => PyStr(t, render) case None => "Object";
        "[Circular " + typeName + "]"
      else render.dumps(arg)
    case _ => render.dumps(arg)
  }

  /** `_format_print_args`: one string per argument, in order. */
  method FormatPrintArgs(args: seq<PyValue>, circularKey: string, render: Renderer) returns (formatted: seq<string>)
    ensures |formatted| == |args|
    ensures forall i :: 0 <= i < |args| ==> formatted[i] == FormatArg(args[i], circularKey, render)
  {
    formatted := [];
    for i := 0 to |args|
      invariant |formatted| == i
      invariant forall j :: 0 <= j < i ==> formatted[j] == FormatArg(args[j], circularKey, render)
    {
      formatted := formatted + [FormatArg(args[i], circularKey, render)];
    }
  }

  /** What `custom_print` keeps of an argument: the argument when `json.dumps`
      accepts it, otherwise a marker holding its `repr` and type name. */
  function Transmissible(arg: PyValue, serializable: PyValue -> bool, repr: PyValue -> string,
                         typeName: PyValue -> string, circularKey: string): PyValue
  {
    if serializable(arg) then arg
    else PDict([(circularKey, PStr(repr(arg))), ("__type__", PStr(typeName(arg)))])
  }

  /** An argument `json.dumps` refuses is shown as `[Circular <type>]`. */
  lemma UnserializablePrintsCircular(arg: PyValue, serializable: PyValue -> bool, repr: PyValue -> string,
                                     typeName: PyValue -> string, circularKey: string, render: Renderer)
    requires !serializable(arg)
    ensures FormatArg(Transmissible(arg, serializable, repr, typeName, circularKey), circularKey, render) ==
      "[Circular " + typeName(arg) + "]"
  {
    var entries := [(circularKey, PStr(repr(arg))), ("__type__", PStr(typeName(arg)))];
    assert DictKeys(entries) == [circularKey, "__type__"];
    assert DictGet(entries, "__type__") == Some(PStr(typeName(arg)));
  }

  /** `_truncate_print_args`: at most 100 print calls are sent, followed by
      one line saying how many more there were. */
  function TruncatePrintArgs(printArgs: seq<seq<string>>): (r: seq<seq<string>>)
    ensures |r| <= MaxPrintArgsAllowed + 1
    ensures |printArgs| <= MaxPrintArgsAllowed ==> r == printArgs
    ensures |printArgs| > MaxPrintArgsAllowed ==>
      |r| == MaxPrintArgsAllowed + 1 && r[..MaxPrintArgsAllowed] == printArgs[..MaxPrintArgsAllowed] &&
      r[MaxPrintArgsAllowed] ==
        ["[Output truncated - " + NatToString(|printArgs| - MaxPrintArgsAllowed) + " more print statements]"]
  {
    if |printArgs| <= MaxPrintArgsAllowed then printArgs
    else
      printArgs[..MaxPrintArgsAllowed] +
      [["[Output truncated - " + NatToString(|printArgs| - MaxPrintArgsAllowed) + " more print statements]"]]
  }

  /** The print calls captured while user code runs. */
  class PrintCapture {
    var printArgs: seq<seq<string>>

    constructor()
      ensures printArgs == []
    {
      printArgs := [];
    }

    /** `custom_print(*args)`: the formatted arguments of one call are appended. */
    method CustomPrint(args: seq<PyValue>, serializable: PyValue -> bool, repr: PyValue -> string,
                       typeName: PyValue -> string, circularKey: string, render: Renderer)
      modifies this
      ensures |printArgs| == |old(printArgs)| + 1 && printArgs[..|old(printArgs)|] == old(printArgs)
      ensures var line := printArgs[|printArgs| - 1];
        |line| == |args| &&
        forall i :: 0 <= i < |args| ==>
          line[i] == FormatArg(Transmissible(args[i], serializable, repr, typeName, circularKey), circularKey, render)
    {
      var kept: seq<PyValue> := [];
      for i := 0 to |args|
        invariant |kept| == i
        invariant forall j :: 0 <= j < i ==> kept[j] == Transmissible(args[j], serializable, repr, typeName, circularKey)
      {
        kept := kept + [Transmissible(args[i], serializable, repr, typeName, circularKey)];
      }
      var formatted := FormatPrintArgs(kept, circularKey, render);
      printArgs := printArgs + [formatted];
    }
  }

  // ---------------------------------------------------------------------------
  // The message on the pipe

  function PrintArgsValue(printArgs: seq<seq<string>>): PyValue
  {
    PList(seq(|printArgs|, i requires 0 <= i < |printArgs| =>
      PList(seq(|printArgs[i]|, j requires 0 <= j < |printArgs[i]| => PStr(printArgs[i][j])))))
  }

  /** `{"result": …, "print_args": …}` with the print calls truncated. */
  function ResultMessage(result: PyValue, printArgs: seq<seq<string>>): PyValue
  {
    PDict([("result", result), ("print_args", PrintArgsValue(TruncatePrintArgs(printArgs)))])
  }

  /** `_put_result`: the message, encoded by `json.dumps(...).encode("utf-8")`,
      framed on the pipe. */
  method PutResult(pipe: PipeWriter, result: PyValue, printArgs: seq<seq<string>>, encode: PyValue -> seq<byte>)
    returns (r: Result<(), FramingError>)
    modifies pipe
    ensures r.Ok? ==> (Frame(encode(ResultMessage(result, printArgs))).Ok? &&
                       pipe.written == old(pipe.written) + Frame(encode(ResultMessage(result, printArgs))).value)
    ensures |encode(ResultMessage(result, printArgs))| >= FrameLimit ==> r == Err(LengthOverflow) && pipe.written == old(pipe.written)
  {
    var data := encode(ResultMessage(result, printArgs));
    r := pipe.WriteFrame(data);
  }

  // ---------------------------------------------------------------------------
  // The parent's view of the child process

  // Python's multiprocessing reports a child ended by signal N with exit code
  // -N; the runner's constants for SIGTERM and SIGKILL are these.
  const SigtermExitCode: int := -15
  const SigkillExitCode: int := -9

  datatype TaskError =
    | SubprocessFailed(exitCode: int)
    | Timeout(seconds: int)
    | Cancelled
    | Killed
    | ResultMissing
    | Runtime(error: PyValue)

  /** What the parent observes: whether the child could be started, whether
      it was still alive after the timeout, its exit code, and the decoded
      message the reader thread received (absent when reading or decoding
      failed or nothing arrived). */
  datatype ChildRun = ChildRun(
    startFailed: bool,
    aliveAfterTimeout: bool,
    exitCode: int,
    received: Option<seq<(string, PyValue)>>)

  /** `(result, print_args, message_length)` */
  datatype TaskOutput = TaskOutput(result: PyValue, printArgs: PyValue, messageLength: nat)

  /** The checks of `execute_process`, in the order it makes them. */
  function ClassifyChild(run: ChildRun, taskTimeout: int, messageLength: PyValue -> nat): (r: Result<TaskOutput, TaskError>)
    ensures r.Ok? <==>
      !run.startFailed && !run.aliveAfterTimeout && run.exitCode == 0 && run.received.Some? &&
      "error" !in DictKeys(run.received.value) && "result" in DictKeys(run.received.value)
    ensures r.Ok? ==> Some(r.value.result) == DictGet(run.received.value, "result")
    ensures r.Ok? && "print_args" in DictKeys(run.received.value) ==>
      Some(r.value.printArgs) == DictGet(run.received.value, "print_args")
    ensures r.Ok? && "print_args" !in DictKeys(run.received.value) ==> r.value.printArgs == PList([])
    ensures run.startFailed ==> r == Err(SubprocessFailed(-1))
    ensures (!run.startFailed && !run.aliveAfterTimeout && run.exitCode == 0 && run.received.None?) ==>
      r == Err(ResultMissing)
    ensures (!run.startFailed && !run.aliveAfterTimeout && run.exitCode == 0 && run.received.Some? &&
             "error" in DictKeys(run.received.value)) ==>
      r == Err(Runtime(DictGet(run.received.value, "error").value))
    ensures (!run.startFailed && !run.aliveAfterTimeout && run.exitCode == 0 && run.received.Some? &&
             "error" !in DictKeys(run.received.value) && "result" !in DictKeys(run.received.value)) ==>
      r == Err(ResultMissing)
  {
    if run.startFailed then Err(SubprocessFailed(-1))
    else if run.aliveAfterTimeout then Err(Timeout(taskTimeout))
    else if run.exitCode == SigtermExitCode then Err(Cancelled)
    else if run.exitCode == SigkillExitCode then Err(Killed)
    else if run.exitCode != 0 then Err(SubprocessFailed(run.exitCode))
    else if run.received.None? then Err(ResultMissing)
    else
      var returned := run.received.value;
      if "error" in DictKeys(returned) then Err(Runtime(DictGet(returned, "error").value))
      else if "result" !in DictKeys(returned) then Err(ResultMissing)
      else
        var printArgs := match DictGet(returned, "print_args") case Some(p) => p case None => PList([]);
        Ok(TaskOutput(DictGet(returned, "result").value, printArgs, messageLength(PDict(returned))))
  }

  /** `execute_process`: with `continue_on_fail` every failure becomes one
      item carrying the error text, no print output and length 0. */
  function ExecuteProcess(run: ChildRun, taskTimeout: int, continueOnFail: bool, messageLength: PyValue -> nat,
                          describe: TaskError -> string): (r: Result<TaskOutput, TaskError>)
    ensures continueOnFail ==> r.Ok?
    ensures !continueOnFail ==> r == ClassifyChild(run, taskTimeout, messageLength)
    ensures ClassifyChild(run, taskTimeout, messageLength).Ok? ==> r == ClassifyChild(run, taskTimeout, messageLength)
    ensures continueOnFail && ClassifyChild(run, taskTimeout, messageLength).Err? ==>
      r.value.messageLength == 0 && r.value.printArgs == PList([]) &&
      r.value.result == PList([PDict([("json", PDict([("error", PStr(describe(ClassifyChild(run, taskTimeout, messageLength).error)))]))])])
  {
    match ClassifyChild(run, taskTimeout, messageLength)
    case Ok(out) => Ok(out)
    case Err(e) =>
      if continueOnFail then Ok(TaskOutput(PList([PDict([("json", PDict([("error", PStr(describe(e)))]))])]), PList([]), 0))
      else Err(e)
  }

  /** The exit-code checks precede everything read from the pipe: once the
      child has ended with a non-zero code, what it sent makes no difference. */
  lemma ExitCodeDecidesFailure(run: ChildRun, other: Option<seq<(string, PyValue)>>, taskTimeout: int,
                               messageLength: PyValue -> nat)
    requires !run.startFailed && !run.aliveAfterTimeout && run.exitCode != 0
    ensures ClassifyChild(run, taskTimeout, messageLength) == ClassifyChild(run.(received := other), taskTimeout, messageLength)
    ensures ClassifyChild(run, taskTimeout, messageLength).Err?
    ensures ClassifyChild(run, taskTimeout, messageLength).error ==
      if run.exitCode == SigtermExitCode then Cancelled
      else if run.exitCode == SigkillExitCode then Killed
      else SubprocessFailed(run.exitCode)
  {
  }

  /** A child still running at the timeout is reported as a timeout whatever
      its exit code and output. */
  lemma TimeoutFirst(run: ChildRun, taskTimeout: int, messageLength: PyValue -> nat)
    requires !run.startFailed && run.aliveAfterTimeout
    ensures ClassifyChild(run, taskTimeout, messageLength) == Err(Timeout(taskTimeout))
  {
  }

  // ---------------------------------------------------------------------------
  // sys.modules

  const BaseSafeModules: set<string> :=
    {"builtins", "__main__", "sys", "traceback", "linecache", "importlib", "importlib.machinery"}

  /** `safe_modules` for a security configuration: the fixed set, the allowed
      standard-library modules (all of them for `*`) and the allowed external
      modules (every loaded non-standard module for `*`). */
  function SafeModules(stdlibAllow: set<string>, externalAllow: set<string>, stdlibNames: set<string>,
                       loaded: set<string>): (safe: set<string>)
    ensures BaseSafeModules <= safe
    ensures "*" in stdlibAllow ==> stdlibNames <= safe
    ensures "*" !in stdlibAllow ==> stdlibAllow <= safe
    ensures "*" in externalAllow ==> loaded - stdlibNames <= safe
    ensures "*" !in externalAllow ==> externalAllow <= safe
  {
    BaseSafeModules
      + (if "*" in stdlibAllow then stdlibNames else stdlibAllow)
      + (if "*" in externalAllow then set name | name in loaded && name !in stdlibNames else externalAllow)
  }

  predicate IsPrefix(prefix: string, s: string)
  {
    |prefix| <= |s| && s[..|prefix|] == prefix
  }

  /** A loaded module is kept when it is safe or a submodule of a safe one. */
  predicate Keep(name: string, safe: set<string>)
  {
    name in safe || exists s :: s in safe && IsPrefix(s + ".", name)
  }

  /** The interpreter's table of loaded modules. */
  class ModuleTable {
    var loaded: set<string>

    constructor(names: set<string>)
      ensures loaded == names
    {
      loaded := names;
    }

    /** `_sanitize_sys_modules`: every loaded module that is not kept is removed. */
    method Sanitize(stdlibAllow: set<string>, externalAllow: set<string>, stdlibNames: set<string>)
      modifies this
      ensures loaded == set name | name in old(loaded) && Keep(name, SafeModules(stdlibAllow, externalAllow, stdlibNames, old(loaded)))
    {
      var safe := SafeModules(stdlibAllow, externalAllow, stdlibNames, loaded);
      var toRemove := set name | name in loaded && !Keep(name, safe);
      var pending := toRemove;
      while pending != {}
        invariant pending <= toRemove
        invariant loaded == old(loaded) - (toRemove - pending)
        decreases pending
      {
        var name :| name in pending;
        loaded := loaded - {name};
        pending := pending - {name};
      }
    }
  }

  /** Sanitising removes exactly the modules that are neither safe nor below
      a safe package. */
  lemma RemovedExactlyUnsafe(loaded: set<string>, safe: set<string>, name: string)
    requires name in loaded
    ensures name !in (set n | n in loaded && Keep(n, safe)) <==>
      name !in safe && forall s :: s in safe ==> !IsPrefix(s + ".", name)
  {
  }

  /** With `*` for both the standard library and external modules nothing is
      removed. */
  lemma WildcardsKeepEverything(stdlibNames: set<string>, loaded: set<string>)
    ensures (set n | n in loaded && Keep(n, SafeModules({"*"}, {"*"}, stdlibNames, loaded))) == loaded
  {
    var safe := SafeModules({"*"}, {"*"}, stdlibNames, loaded);
    forall n | n in loaded ensures Keep(n, safe) {
      if n in stdlibNames { assert n in safe; } else { assert n in loaded - stdlibNames; }
    }
  }
}
