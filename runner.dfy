/**
 * The runner: fetching a task's input values, assembling its hooks,
 * the status decisions around running a task on its executor, the
 * output filter of post-processing and the outcome of post-processing
 * a workflow.
 *
 * Everything the data service or an executor would return is an input:
 * a fetch that may fail (`Result<_, string>`, the string being the
 * exception's text), an executor instantiation that may fail, and what
 * the executor's run gave back. Clock readings are `Timestamp` inputs.
 */
module Runner {
  import opened Wrappers
  import opened DataManager

  /** `abstract_inputs`: the node ids feeding each positional and keyword argument. */
  datatype AbstractInputs = AbstractInputs(args: seq<NodeId>, kwargs: map<string, NodeId>)

  /** `task_input`: the same shape, with every node id replaced by that node's output. */
  datatype TaskInput<V> = TaskInput(args: seq<V>, kwargs: map<string, V>)

  /** Every node an abstract input refers to. */
  function InputNodeIds(abs: AbstractInputs): set<NodeId> {
    (set i | 0 <= i < |abs.args| :: abs.args[i]) + abs.kwargs.Values
  }

  /** The node ids among `kwargs` reached through the keys in `keys`. */
  ghost function KwargIds(kwargs: map<string, NodeId>, keys: set<string>): set<NodeId> {
    set k | k in keys && k in kwargs :: kwargs[k]
  }

  /** A node of the input whose fetch fails makes "some fetch fails" true. */
  lemma FailedFetch<V>(abs: AbstractInputs, fetch: NodeId -> Result<V, string>, id: NodeId, error: string)
    requires id in InputNodeIds(abs) && fetch(id) == Failure(error)
    ensures exists bad :: bad in InputNodeIds(abs) && fetch(bad) == Failure(error)
  {
  }

  /**
   * `_get_task_input_values`: fetches the output of every node an input
   * refers to, positional ones first. The first fetch that raises ends
   * the call with that error.
   */
  method TaskInputValues<V>(abs: AbstractInputs, fetch: NodeId -> Result<V, string>)
    returns (r: Result<map<NodeId, V>, string>)
    ensures r.Success? <==> forall id :: id in InputNodeIds(abs) ==> fetch(id).Success?
    ensures r.Success? ==> r.value.Keys == InputNodeIds(abs)
    ensures r.Success? ==> forall id :: id in r.value ==> fetch(id) == Success(r.value[id])
    ensures r.Failure? ==> exists id :: id in InputNodeIds(abs) && fetch(id) == Failure(r.error)
  {
    var values: map<NodeId, V> := map[];
    for i := 0 to |abs.args|
      invariant values.Keys == set j | 0 <= j < i :: abs.args[j]
      invariant forall id :: id in values ==> fetch(id) == Success(values[id])
    {
      var v := fetch(abs.args[i]);
      if v.Failure? {
        r := Failure(v.error);
        FailedFetch(abs, fetch, abs.args[i], r.error);
        return;
      }
      values := values[abs.args[i] := v.value];
    }
    var remaining := abs.kwargs.Keys;
    while remaining != {}
      invariant remaining <= abs.kwargs.Keys
      invariant values.Keys == (set j | 0 <= j < |abs.args| :: abs.args[j]) + KwargIds(abs.kwargs, abs.kwargs.Keys - remaining)
      invariant forall id :: id in values ==> fetch(id) == Success(values[id])
      decreases remaining
    {
      var key :| key in remaining;
      var id := abs.kwargs[key];
      var v := fetch(id);
      if v.Failure? {
        assert id in abs.kwargs.Values;
        return Failure(v.error);
      }
      values := values[id := v.value];
      assert KwargIds(abs.kwargs, abs.kwargs.Keys - (remaining - {key}))
          == KwargIds(abs.kwargs, abs.kwargs.Keys - remaining) + {id};
      remaining := remaining - {key};
    }
    assert KwargIds(abs.kwargs, abs.kwargs.Keys) == abs.kwargs.Values;
    r := Success(values);
  }

  /**
   * The concrete task input: each abstract entry replaced by the value of
   * its node, positions and keys kept.
   */
  function ResolveInputs<V>(abs: AbstractInputs, values: map<NodeId, V>): (t: TaskInput<V>)
    requires InputNodeIds(abs) <= values.Keys
    ensures |t.args| == |abs.args|
    ensures forall i :: 0 <= i < |abs.args| ==> abs.args[i] in values && t.args[i] == values[abs.args[i]]
    ensures t.kwargs.Keys == abs.kwargs.Keys
    ensures forall k :: k in abs.kwargs ==> abs.kwargs[k] in values && t.kwargs[k] == values[abs.kwargs[k]]
  {
    assert forall i :: 0 <= i < |abs.args| ==> abs.args[i] in InputNodeIds(abs);
    TaskInput(seq(|abs.args|, i requires 0 <= i < |abs.args| => values[abs.args[i]]),
              map k | k in abs.kwargs :: values[abs.kwargs[k]])
  }

  /** A hook made ready to run, with the serialized description it came from. */
  datatype Hook<J> = BashHook(spec: J) | PipHook(spec: J) | CallHook(spec: J)

  /** What the data service holds about a task's hooks. */
  datatype DepsRecord<J> = DepsRecord(deps: map<string, J>, callBefore: seq<J>, callAfter: seq<J>)

  /** A `DepsCall` per serialized entry, in order. */
  function CallHooks<J>(objs: seq<J>): (hooks: seq<Hook<J>>)
    ensures |hooks| == |objs|
    ensures forall i :: 0 <= i < |objs| ==> hooks[i] == CallHook(objs[i])
  {
    if objs == [] then [] else CallHooks(objs[..|objs| - 1]) + [CallHook(objs[|objs| - 1])]
  }

  /** One more entry adds one more hook at the end. */
  lemma CallHooksPrefix<J>(objs: seq<J>, i: nat)
    requires i < |objs|
    ensures CallHooks(objs[..i + 1]) == CallHooks(objs[..i]) + [CallHook(objs[i])]
  {
    assert objs[..i + 1][..i] == objs[..i];
  }

  /** How many hooks the `deps` dictionary itself contributes. */
  function DepsHookCount<J>(deps: map<string, J>): nat {
    (if "bash" in deps then 1 else 0) + (if "pip" in deps then 1 else 0)
  }

  /** The hooks that run before the task: bash, then pip, then every `call_before` entry. */
  function CallBeforeHooks<J>(d: DepsRecord<J>): (hooks: seq<Hook<J>>)
    ensures |hooks| == DepsHookCount(d.deps) + |d.callBefore|
    ensures "bash" in d.deps ==> hooks[0] == BashHook(d.deps["bash"])
    ensures "pip" in d.deps ==> hooks[DepsHookCount(d.deps) - 1] == PipHook(d.deps["pip"])
    ensures forall i :: 0 <= i < |d.callBefore| ==> hooks[DepsHookCount(d.deps) + i] == CallHook(d.callBefore[i])
    ensures forall i :: 0 <= i < DepsHookCount(d.deps) ==> !hooks[i].CallHook?
  {
    (if "bash" in d.deps then [BashHook(d.deps["bash"])] else [])
    + (if "pip" in d.deps then [PipHook(d.deps["pip"])] else [])
    + CallHooks(d.callBefore)
  }

  /** A loop of `_gather_deps`: one `DepsCall` hook appended per serialized entry. */
  method AppendCallHooks<J>(hooks: seq<Hook<J>>, objs: seq<J>) returns (r: seq<Hook<J>>)
    ensures r == hooks + CallHooks(objs)
  {
    r := hooks;
    for i := 0 to |objs|
      invariant r == hooks + CallHooks(objs[..i])
    {
      CallHooksPrefix(objs, i);
      r := r + [CallHook(objs[i])];
    }
    assert objs[..|objs|] == objs;
  }

  /** `_gather_deps`: the hooks to run before and after the task. */
  method GatherDeps<J>(d: DepsRecord<J>) returns (callBefore: seq<Hook<J>>, callAfter: seq<Hook<J>>)
    ensures callBefore == CallBeforeHooks(d)
    ensures callAfter == CallHooks(d.callAfter)
  {
    callBefore := [];
    if "bash" in d.deps {
      callBefore := callBefore + [BashHook(d.deps["bash"])];
    }
    if "pip" in d.deps {
      callBefore := callBefore + [PipHook(d.deps["pip"])];
    }
    callBefore := AppendCallHooks(callBefore, d.callBefore);
    callAfter := AppendCallHooks([], d.callAfter);
  }

  /** With a bash and a pip hook and one entry each way, three hooks run before and one after. */
  lemma GatherDepsCounts<J>(bash: J, pip: J, before: J, after: J)
    ensures var d := DepsRecord(map["bash" := bash, "pip" := pip], [before], [after]);
      && CallBeforeHooks(d) == [BashHook(bash), PipHook(pip), CallHook(before)]
      && CallHooks(d.callAfter) == [CallHook(after)]
  {
    var d := DepsRecord(map["bash" := bash, "pip" := pip], [before], [after]);
    assert DepsHookCount(d.deps) == 2;
  }

  /** An exception as the runner reports it: its text and its formatted traceback. */
  datatype ExceptionInfo = ExceptionInfo(text: string, traceback: string)

  /** The error recorded for an exception: the traceback in debug mode, the text otherwise. */
  function ErrorMessage(ex: ExceptionInfo, debugMode: bool): (msg: string)
    ensures debugMode ==> msg == ex.traceback
    ensures !debugMode ==> msg == ex.text
  {
    if debugMode then ex.traceback else ex.text
  }

  /** What running the task on the executor gave: its four results, or an exception. */
  datatype ExecOutcome<V> =
    | Returned(output: V, stdout: string, stderr: string, exceptionRaised: bool)
    | Raised(ex: ExceptionInfo)

  /**
   * `_run_task`: `instantiation` says whether the executor could be built,
   * `execution` what running on it gave; the executor is not run when it
   * could not be built. `now` is the end time the clock reports.
   */
  function RunTask<V>(nodeId: NodeId, instantiation: Outcome<ExceptionInfo>, execution: ExecOutcome<V>,
                      debugMode: bool, now: Timestamp): (r: NodeResult<V>)
    ensures r.nodeId == nodeId && r.endTime == Some(now) && r.startTime.None?
    ensures r.status == Some(Completed) || r.status == Some(Failed)
    ensures r.status == Some(Completed) <==>
      instantiation.Pass? && execution.Returned? && !execution.exceptionRaised
    ensures instantiation.Fail? ==>
      r == GenerateNodeResult(nodeId, endTime := Some(now), status := Some(Failed),
                              error := Some(ErrorMessage(instantiation.error, debugMode)))
    ensures instantiation.Pass? && execution.Returned? ==>
      && r.output == Some(execution.output) && r.stdout == Some(execution.stdout)
      && r.stderr == Some(execution.stderr) && r.error.None?
    ensures instantiation.Pass? && execution.Raised? ==>
      r.error == Some(ErrorMessage(execution.ex, debugMode)) && r.output.None? && r.stderr.None?
  {
    match instantiation
    case Fail(ex) =>
      GenerateNodeResult(nodeId, endTime := Some(now), status := Some(Failed),
                         error := Some(ErrorMessage(ex, debugMode)))
    case Pass =>
      match execution
      case Returned(output, stdout, stderr, exceptionRaised) =>
        GenerateNodeResult(nodeId, endTime := Some(now),
                           status := Some(if exceptionRaised then Failed else Completed),
                           output := Some(output), stdout := Some(stdout), stderr := Some(stderr))
      case Raised(ex) =>
        GenerateNodeResult(nodeId, endTime := Some(now), status := Some(Failed),
                           error := Some(ErrorMessage(ex, debugMode)))
  }

  /** Everything the executor's run is given. */
  datatype Invocation<C, V, J> = Invocation(callable: C, input: TaskInput<V>, callBefore: seq<Hook<J>>, callAfter: seq<Hook<J>>)

  /** All the fetches of a task's resolution succeed. */
  predicate CanResolve<C, V, J>(abs: AbstractInputs, callable: Result<C, string>,
                                fetch: NodeId -> Result<V, string>, deps: Result<DepsRecord<J>, string>)
  {
    callable.Success? && deps.Success? && forall id :: id in InputNodeIds(abs) ==> fetch(id).Success?
  }

  /**
   * `inv` is what resolution hands the executor: the fetched callable, every
   * argument replaced by its node's fetched output, and the gathered hooks.
   */
  ghost predicate Resolves<C, V, J>(abs: AbstractInputs, callable: Result<C, string>,
                                    fetch: NodeId -> Result<V, string>, deps: Result<DepsRecord<J>, string>,
                                    inv: Invocation<C, V, J>)
  {
    && callable == Success(inv.callable)
    && deps.Success?
    && |inv.input.args| == |abs.args|
    && (forall i :: 0 <= i < |abs.args| ==> fetch(abs.args[i]) == Success(inv.input.args[i]))
    && inv.input.kwargs.Keys == abs.kwargs.Keys
    && (forall k :: k in abs.kwargs ==> fetch(abs.kwargs[k]) == Success(inv.input.kwargs[k]))
    && inv.callBefore == CallBeforeHooks(deps.value)
    && inv.callAfter == CallHooks(deps.value.callAfter)
  }

  /** Resolution determines the invocation: at most one satisfies `Resolves`. */
  lemma ResolvesUnique<C, V, J>(abs: AbstractInputs, callable: Result<C, string>,
                                fetch: NodeId -> Result<V, string>, deps: Result<DepsRecord<J>, string>,
                                inv1: Invocation<C, V, J>, inv2: Invocation<C, V, J>)
    requires Resolves(abs, callable, fetch, deps, inv1) && Resolves(abs, callable, fetch, deps, inv2)
    ensures inv1 == inv2
  {
    assert inv1.input.args == inv2.input.args by {
      forall i | 0 <= i < |abs.args|
        ensures inv1.input.args[i] == inv2.input.args[i]
      {
        assert fetch(abs.args[i]) == Success(inv1.input.args[i]);
      }
    }
    assert inv1.input.kwargs == inv2.input.kwargs by {
      forall k | k in abs.kwargs
        ensures inv1.input.kwargs[k] == inv2.input.kwargs[k]
      {
        assert fetch(abs.kwargs[k]) == Success(inv1.input.kwargs[k]);
      }
    }
  }

  /**
   * `e` is an error resolution can end with: the callable's when it cannot
   * be fetched, otherwise that of some input whose fetch fails, otherwise
   * that of the deps.
   */
  ghost predicate ResolutionError<C, V, J>(abs: AbstractInputs, callable: Result<C, string>,
                                           fetch: NodeId -> Result<V, string>, deps: Result<DepsRecord<J>, string>,
                                           e: string)
  {
    if callable.Failure? then e == callable.error
    else if exists id :: id in InputNodeIds(abs) && fetch(id).Failure? then
      exists id :: id in InputNodeIds(abs) && fetch(id) == Failure(e)
    else deps == Failure(e)
  }

  /**
   * The resolution step of `_run_abstract_task`: the serialized callable,
   * the input values and the hooks, fetched in that order; the first
   * failure ends it.
   */
  method ResolveTask<C, V, J>(abs: AbstractInputs, callable: Result<C, string>,
                              fetch: NodeId -> Result<V, string>, deps: Result<DepsRecord<J>, string>)
    returns (r: Result<Invocation<C, V, J>, string>)
    ensures r.Success? <==> CanResolve(abs, callable, fetch, deps)
    ensures r.Failure? ==> ResolutionError(abs, callable, fetch, deps, r.error)
    ensures r.Success? ==> Resolves(abs, callable, fetch, deps, r.value)
  {
    if callable.Failure? {
      return Failure(callable.error);
    }
    var values := TaskInputValues(abs, fetch);
    if values.Failure? {
      return Failure(values.error);
    }
    assert forall id :: id in values.value ==> fetch(id) == Success(values.value[id]);
    var input := ResolveInputs(abs, values.value);
    forall i | 0 <= i < |abs.args|
      ensures fetch(abs.args[i]) == Success(input.args[i])
    {
      assert abs.args[i] in values.value;
    }
    forall k | k in abs.kwargs
      ensures fetch(abs.kwargs[k]) == Success(input.kwargs[k])
    {
      assert abs.kwargs[k] in values.value;
    }
    if deps.Failure? {
      return Failure(deps.error);
    }
    var callBefore, callAfter := GatherDeps(deps.value);
    r := Success(Invocation(callable.value, input, callBefore, callAfter));
  }

  /** The record of a task whose resolution failed: FAILED, starting and ending at `timestamp`. */
  function ResolutionFailure<V>(nodeId: NodeId, timestamp: Timestamp, error: string): (r: NodeResult<V>)
    ensures r.status == Some(Failed) && r.startTime == r.endTime == Some(timestamp)
    ensures r == GenerateNodeResult(nodeId, startTime := Some(timestamp), endTime := Some(timestamp),
                                    status := Some(Failed), error := Some(error))
  {
    GenerateNodeResult(nodeId, startTime := Some(timestamp), endTime := Some(timestamp),
                       status := Some(Failed), error := Some(error))
  }

  /** A FAILED record comes through `update_node_result`'s fallback unchanged. */
  lemma AfterUpdateFailed<V>(nodeResult: NodeResult<V>, applied: bool)
    requires nodeResult.status == Some(Failed)
    ensures AfterUpdate(nodeResult, applied) == nodeResult
  {
    if !applied {
      assert AfterUpdate(nodeResult, applied) == AfterUpdate(nodeResult, applied).(status := nodeResult.status);
    }
  }

  /**
   * `_run_abstract_task`. When resolution fails the task is not run and
   * the result is FAILED, starting and ending at `timestamp`, with the
   * error's text. Otherwise the node is announced as RUNNING (which raises
   * `KeyError` for an unregistered dispatch) and the result is that of
   * running the resolved task, with `execute` standing for the executor's run.
   */
  method RunAbstractTask<C, V, J>(dm: Registry<V>, dispatchId: string, nodeId: NodeId, abs: AbstractInputs,
                                  callable: Result<C, string>, fetch: NodeId -> Result<V, string>,
                                  deps: Result<DepsRecord<J>, string>, instantiation: Outcome<ExceptionInfo>,
                                  execute: Invocation<C, V, J> -> ExecOutcome<V>, debugMode: bool,
                                  timestamp: Timestamp, now: Timestamp, persistOk: bool)
    returns (r: Result<NodeResult<V>, KeyError>)
    requires dm.Valid()
    modifies dm
    ensures dm.Valid()
    ensures dm.registeredDispatches == old(dm.registeredDispatches)
    ensures r.Success? ==> r.value.nodeId == nodeId && r.value.status.Some?
    ensures !CanResolve(abs, callable, fetch, deps) ==>
      && r.Success? && r.value.error.Some?
      && r.value == ResolutionFailure(nodeId, timestamp, r.value.error.value)
      && ResolutionError(abs, callable, fetch, deps, r.value.error.value)
      && dm.statusQueues == old(dm.statusQueues)
    ensures CanResolve(abs, callable, fetch, deps) ==>
      && (r.Success? <==> dispatchId in old(dm.registeredDispatches))
      && (r.Failure? ==> r.error == KeyError(dispatchId) && dm.statusQueues == old(dm.statusQueues))
    ensures CanResolve(abs, callable, fetch, deps) && r.Success? ==>
      && dm.statusQueues == old(dm.statusQueues)[dispatchId := old(dm.statusQueues)[dispatchId]
                                                               + [StatusUpdate(nodeId, if persistOk then Running else Failed)]]
      && exists inv :: Resolves(abs, callable, fetch, deps, inv)
                       && r.value == RunTask(nodeId, instantiation, execute(inv), debugMode, now)
  {
    var resolved := ResolveTask(abs, callable, fetch, deps);
    if resolved.Failure? {
      return Success(ResolutionFailure(nodeId, timestamp, resolved.error));
    }
    var running := GenerateNodeResult<V>(nodeId, startTime := Some(timestamp), status := Some(Running));
    var announced := dm.UpdateNodeResult(dispatchId, running, persistOk);
    if announced.Failure? {
      return Failure(announced.error);
    }
    assert AfterUpdate(running, persistOk).status == Some(if persistOk then Running else Failed);
    r := Success(RunTask(nodeId, instantiation, execute(resolved.value), debugMode, now));
  }

  /**
   * The status `run_abstract_task` records for a task that ran: COMPLETED
   * exactly when the executor was built, returned without
   * `exception_raised`, and the update could be applied.
   */
  lemma RecordedStatus<V>(nodeId: NodeId, instantiation: Outcome<ExceptionInfo>, execution: ExecOutcome<V>,
                          debugMode: bool, now: Timestamp, applied: bool)
    ensures AfterUpdate(RunTask(nodeId, instantiation, execution, debugMode, now), applied).status == Some(Completed)
            <==> applied && instantiation.Pass? && execution.Returned? && !execution.exceptionRaised
  {
  }

  /** Appending to one queue twice is appending the concatenation once. */
  lemma QueueAppendTwice(queues: map<string, seq<StatusUpdate>>, key: string, a: seq<StatusUpdate>, b: seq<StatusUpdate>)
    requires key in queues
    ensures var once := queues[key := queues[key] + a];
            once[key := once[key] + b] == queues[key := queues[key] + a + b]
  {
  }

  /**
   * `run_abstract_task`: runs the task and records its result. A recorded
   * result always carries a status, so it always lands on the queue: after
   * the RUNNING announcement when the task could be resolved, alone when
   * it could not.
   */
  method RunAbstractTaskAndRecord<C, V, J>(dm: Registry<V>, dispatchId: string, nodeId: NodeId, abs: AbstractInputs,
                                           callable: Result<C, string>, fetch: NodeId -> Result<V, string>,
                                           deps: Result<DepsRecord<J>, string>, instantiation: Outcome<ExceptionInfo>,
                                           execute: Invocation<C, V, J> -> ExecOutcome<V>, debugMode: bool,
                                           timestamp: Timestamp, now: Timestamp,
                                           persistRunning: bool, persistResult: bool)
    returns (r: Result<NodeResult<V>, KeyError>)
    requires dm.Valid()
    modifies dm
    ensures dm.Valid()
    ensures dm.registeredDispatches == old(dm.registeredDispatches)
    ensures r.Success? <==> dispatchId in old(dm.registeredDispatches)
    ensures r.Failure? ==> r.error == KeyError(dispatchId) && dm.statusQueues == old(dm.statusQueues)
    ensures r.Success? ==>
      var announced := if CanResolve(abs, callable, fetch, deps)
                       then [StatusUpdate(nodeId, if persistRunning then Running else Failed)] else [];
      && r.value.nodeId == nodeId && r.value.status.Some?
      && (!CanResolve(abs, callable, fetch, deps) ==>
            && r.value.error.Some?
            && r.value == ResolutionFailure(nodeId, timestamp, r.value.error.value)
            && ResolutionError(abs, callable, fetch, deps, r.value.error.value))
      && (CanResolve(abs, callable, fetch, deps) ==>
            exists inv :: Resolves(abs, callable, fetch, deps, inv)
                          && r.value == AfterUpdate(RunTask(nodeId, instantiation, execute(inv), debugMode, now),
                                                    persistResult))
      && dm.statusQueues == old(dm.statusQueues)[dispatchId := old(dm.statusQueues)[dispatchId] + announced
                                                               + [StatusUpdate(nodeId, r.value.status.value)]]
  {
    ghost var queued := dm.statusQueues;
    var result := RunAbstractTask(dm, dispatchId, nodeId, abs, callable, fetch, deps, instantiation, execute,
                                  debugMode, timestamp, now, persistRunning);
    if result.Failure? {
      return result;
    }
    ghost var announced := dm.statusQueues;
    r := dm.UpdateNodeResult(dispatchId, result.value, persistResult);
    if r.Success? {
      ghost var running := if CanResolve(abs, callable, fetch, deps)
                           then [StatusUpdate(nodeId, if persistRunning then Running else Failed)] else [];
      assert dispatchId in queued && announced == queued[dispatchId := queued[dispatchId] + running] by {
        if !CanResolve(abs, callable, fetch, deps) {
          assert queued[dispatchId] + running == queued[dispatchId];
        }
      }
      QueueAppendTwice(queued, dispatchId, running, [StatusUpdate(nodeId, r.value.status.value)]);
      if CanResolve(abs, callable, fetch, deps) {
        ghost var inv :| Resolves(abs, callable, fetch, deps, inv)
                         && result.value == RunTask(nodeId, instantiation, execute(inv), debugMode, now);
        assert r.value == AfterUpdate(RunTask(nodeId, instantiation, execute(inv), debugMode, now), persistResult);
      } else {
        AfterUpdateFailed(result.value, dispatchId in queued && persistResult);
      }
    }
  }

  /** The key prefix of a parameter or other non-electron node (`prefix_separator`). */
  const PrefixSeparator := ":"

  /** The key prefix of a sublattice node (`sublattice_prefix`). */
  const SublatticePrefix := ":sublattice:"

  /** `_post_process` keeps a node's output when its key is an electron's or a sublattice's. */
  function KeepsOutput(key: string): (keep: bool)
    ensures key == [] || key[0] != ':' ==> keep
    ensures SublatticePrefix <= key ==> keep
    ensures !keep <==> |key| > 0 && key[0] == ':' && !(SublatticePrefix <= key)
  {
    !(PrefixSeparator <= key) || SublatticePrefix <= key
  }

  /** The outputs `_post_process` hands the workflow function, in node order. */
  function KeptOutputs<V>(nodeOutputs: seq<(string, V)>): (r: seq<V>)
    ensures |r| <= |nodeOutputs|
  {
    if nodeOutputs == [] then []
    else
      var last := nodeOutputs[|nodeOutputs| - 1];
      KeptOutputs(nodeOutputs[..|nodeOutputs| - 1]) + (if KeepsOutput(last.0) then [last.1] else [])
  }

  /** The filter works item by item: it keeps the relative order of what it keeps. */
  lemma {:induction false} KeptOutputsAppend<V>(a: seq<(string, V)>, b: seq<(string, V)>)
    ensures KeptOutputs(a + b) == KeptOutputs(a) + KeptOutputs(b)
    decreases |b|
  {
    if b == [] {
      assert a + b == a;
    } else {
      assert (a + b)[..|a + b| - 1] == a + b[..|b| - 1];
      KeptOutputsAppend(a, b[..|b| - 1]);
    }
  }

  /** A node whose key marks a parameter (and not a sublattice) contributes nothing. */
  lemma DropsNonElectron<V>(a: seq<(string, V)>, key: string, value: V, b: seq<(string, V)>)
    requires !KeepsOutput(key)
    ensures KeptOutputs(a + [(key, value)] + b) == KeptOutputs(a) + KeptOutputs(b)
  {
    var item := [(key, value)];
    calc {
      KeptOutputs(a + item + b);
    == { KeptOutputsAppend(a + item, b); }
      KeptOutputs(a + item) + KeptOutputs(b);
    == { KeptOutputsAppend(a, item); }
      KeptOutputs(a) + KeptOutputs(item) + KeptOutputs(b);
    == { assert item[..0] == []; }
      KeptOutputs(a) + KeptOutputs(b);
    }
  }

  /** A node whose key is an electron's or a sublattice's contributes its output, in place. */
  lemma KeepsElectron<V>(a: seq<(string, V)>, key: string, value: V, b: seq<(string, V)>)
    requires KeepsOutput(key)
    ensures KeptOutputs(a + [(key, value)] + b) == KeptOutputs(a) + [value] + KeptOutputs(b)
  {
    var item := [(key, value)];
    calc {
      KeptOutputs(a + item + b);
    == { KeptOutputsAppend(a + item, b); }
      KeptOutputs(a + item) + KeptOutputs(b);
    == { KeptOutputsAppend(a, item); }
      KeptOutputs(a) + KeptOutputs(item) + KeptOutputs(b);
    == { assert item[..0] == []; }
      KeptOutputs(a) + [value] + KeptOutputs(b);
    }
  }

  /** With no prefixed key at all, every output is kept, in order. */
  lemma {:induction false} KeptOutputsAllElectrons<V>(nodeOutputs: seq<(string, V)>)
    requires forall i :: 0 <= i < |nodeOutputs| ==> !(PrefixSeparator <= nodeOutputs[i].0)
    ensures |KeptOutputs(nodeOutputs)| == |nodeOutputs|
    ensures forall i :: 0 <= i < |nodeOutputs| ==> KeptOutputs(nodeOutputs)[i] == nodeOutputs[i].1
    decreases |nodeOutputs|
  {
    if nodeOutputs != [] {
      KeptOutputsAllElectrons(nodeOutputs[..|nodeOutputs| - 1]);
    }
  }

  /** The loop of `_post_process` that collects the outputs to replay. */
  method OrderedNodeOutputs<V>(nodeOutputs: seq<(string, V)>) returns (ordered: seq<V>)
    ensures ordered == KeptOutputs(nodeOutputs)
  {
    ordered := [];
    for i := 0 to |nodeOutputs|
      invariant ordered == KeptOutputs(nodeOutputs[..i])
    {
      assert nodeOutputs[..i + 1][..i] == nodeOutputs[..i];
      var (key, value) := nodeOutputs[i];
      if KeepsOutput(key) {
        ordered := ordered + [value];
      }
    }
    assert nodeOutputs[..|nodeOutputs|] == nodeOutputs;
  }

  /** The workflow executor that leaves post-processing to the client. */
  const ClientExecutor := "client"

  /** The node id the post-processing run is given. */
  const PostprocessNodeId: NodeId := -1

  /** What `_postprocess_workflow` records for the dispatch. */
  datatype PostprocessOutcome<V> =
    | PendingClientSide(endTime: Timestamp)
    | PostprocessFailed(error: string, endTime: Timestamp)
    | Postprocessed(output: Option<V>, endTime: Timestamp)

  /** The dispatch status each outcome records. */
  function OutcomeStatus<V>(o: PostprocessOutcome<V>): (status: Status)
    ensures status == PendingPostprocessing <==> o.PendingClientSide?
    ensures status == PostprocessingFailed <==> o.PostprocessFailed?
    ensures status == Completed <==> o.Postprocessed?
  {
    match o
    case PendingClientSide(_) => PendingPostprocessing
    case PostprocessFailed(_, _) => PostprocessingFailed
    case Postprocessed(_, _) => Completed
  }

  /** A missing (or empty) text as the empty string. */
  function OrEmpty(s: Option<string>): string {
    if s.Some? then s.value else ""
  }

  const PostprocessFailedPrefix := "Post-processing failed: "

  /**
   * `_postprocess_workflow` from the dispatch's workflow executor on: a
   * `client` executor defers post-processing without running anything;
   * otherwise post-processing runs as a task, and a run that does not
   * complete is recorded with its standard error and error text.
   * `instantiation` and `execution` describe that run, `now` the clock.
   */
  function PostprocessWorkflow<V>(ppExecutor: string, instantiation: Outcome<ExceptionInfo>,
                                  execution: ExecOutcome<V>, debugMode: bool, now: Timestamp)
    : (r: PostprocessOutcome<V>)
    ensures r.endTime == now
    ensures OutcomeStatus(r) ==
      if ppExecutor == ClientExecutor then PendingPostprocessing
      else if instantiation.Pass? && execution.Returned? && !execution.exceptionRaised then Completed
      else PostprocessingFailed
    ensures r.PendingClientSide? <==> ppExecutor == ClientExecutor
    ensures ppExecutor != ClientExecutor ==>
      (r.Postprocessed? <==> instantiation.Pass? && execution.Returned? && !execution.exceptionRaised)
    ensures r.Postprocessed? ==> r.output == Some(execution.output)
    ensures r.PostprocessFailed? && instantiation.Fail? ==>
      r.error == PostprocessFailedPrefix + ErrorMessage(instantiation.error, debugMode)
    ensures r.PostprocessFailed? && instantiation.Pass? && execution.Returned? ==>
      r.error == PostprocessFailedPrefix + execution.stderr
    ensures r.PostprocessFailed? && instantiation.Pass? && execution.Raised? ==>
      r.error == PostprocessFailedPrefix + ErrorMessage(execution.ex, debugMode)
  {
    if ppExecutor == ClientExecutor then
      PendingClientSide(now)
    else
      var run := RunTask(PostprocessNodeId, instantiation, execution, debugMode, now);
      if run.status != Some(Completed) then
        PostprocessFailed(PostprocessFailedPrefix + OrEmpty(run.stderr) + OrEmpty(run.error), now)
      else
        Postprocessed(run.output, now)
  }
}
