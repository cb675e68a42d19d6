/**
 * The dispatcher's result service: the fixed-shape node-result record,
 * the registry of live dispatches with one status queue per dispatch,
 * node updates pushed onto those queues, and the report a finished
 * sub-workflow makes to the electron that launched it.
 *
 * The two module-level dictionaries are the fields of one `Registry`
 * object, and an `asyncio.Queue` is the sequence of what was put on it.
 * Persisting a node update (`_update_node` on the result object) is not
 * modelled beyond whether it raised: that is the `persistOk` argument.
 */
module DataManager {
  import opened Wrappers

  /** The workflow and node statuses the dispatcher core assigns. */
  datatype Status =
    | NewObject | Running | Completed | Failed | Cancelled
    | Postprocessing | PendingPostprocessing | PostprocessingFailed

  type NodeId = int

  /** A timestamp, produced by the clock outside this model. */
  type Timestamp = nat

  /** The twelve fields of a node result. */
  datatype NodeResult<V> = NodeResult(
    nodeId: NodeId,
    nodeName: Option<string>,
    startTime: Option<Timestamp>,
    endTime: Option<Timestamp>,
    status: Option<Status>,
    output: Option<V>,
    error: Option<string>,
    stdout: Option<string>,
    stderr: Option<string>,
    outputUri: Option<string>,
    stdoutUri: Option<string>,
    stderrUri: Option<string>)

  /** `generate_node_result`: every argument left out is `None`. */
  function GenerateNodeResult<V>(
    nodeId: NodeId,
    nodeName: Option<string> := None,
    startTime: Option<Timestamp> := None,
    endTime: Option<Timestamp> := None,
    status: Option<Status> := None,
    output: Option<V> := None,
    error: Option<string> := None,
    stdout: Option<string> := None,
    stderr: Option<string> := None,
    outputUri: Option<string> := None,
    stdoutUri: Option<string> := None,
    stderrUri: Option<string> := None): (r: NodeResult<V>)
    ensures r.nodeId == nodeId && r.nodeName == nodeName
    ensures r.startTime == startTime && r.endTime == endTime && r.status == status
    ensures r.output == output && r.error == error && r.stdout == stdout && r.stderr == stderr
    ensures r.outputUri == outputUri && r.stdoutUri == stdoutUri && r.stderrUri == stderrUri
  {
    NodeResult(nodeId, nodeName, startTime, endTime, status, output, error,
               stdout, stderr, outputUri, stdoutUri, stderrUri)
  }

  /** A node result built from the node id alone carries that id and nothing else. */
  lemma GenerateNodeResultDefaults<V>(nodeId: NodeId)
    ensures var r := GenerateNodeResult<V>(nodeId);
      && r.nodeId == nodeId
      && r.nodeName.None? && r.startTime.None? && r.endTime.None? && r.status.None?
      && r.output.None? && r.error.None? && r.stdout.None? && r.stderr.None?
      && r.outputUri.None? && r.stdoutUri.None? && r.stderrUri.None?
  {
  }

  /** Every node result is the one built from its own twelve fields: the record has no other part. */
  lemma GenerateNodeResultCovers<V>(r: NodeResult<V>)
    ensures GenerateNodeResult(r.nodeId, r.nodeName, r.startTime, r.endTime, r.status, r.output, r.error,
                               r.stdout, r.stderr, r.outputUri, r.stdoutUri, r.stderrUri) == r
  {
  }

  /** What a dispatch's result object contributes to this service. */
  datatype ResultObject<V> = ResultObject(
    dispatchId: string,
    electronId: Option<int>,   // `_electron_id`: the launching electron of a sub-workflow
    status: Status,
    endTime: Option<Timestamp>,
    result: Option<V>,
    error: Option<string>)

  /** One entry of a status queue: `(node_id, status)`. */
  datatype StatusUpdate = StatusUpdate(nodeId: NodeId, status: Status)

  /** The `KeyError` raised by a lookup of an unregistered dispatch. */
  datatype KeyError = KeyError(key: string)

  /** A status as reported to the parent electron: a failed post-processing counts as a failure. */
  function ParentStatus(s: Status): (r: Status)
    ensures r != PostprocessingFailed
    ensures s != PostprocessingFailed ==> r == s
    ensures s == PostprocessingFailed ==> r == Failed
  {
    if s == PostprocessingFailed then Failed else s
  }

  /** Python's truth value of `_electron_id`: set, and not 0. */
  predicate HasParentElectron<V>(ro: ResultObject<V>) {
    ro.electronId.Some? && ro.electronId.value != 0
  }

  /**
   * The node result `_update_parent_electron` sends for a sub-workflow, with
   * `resolve` mapping the electron id to its dispatch and node; `None` when
   * there is no parent electron.
   */
  function ParentElectronUpdate<V>(ro: ResultObject<V>, resolve: int -> (string, NodeId))
    : (r: Option<(string, NodeResult<V>)>)
    ensures r.Some? <==> HasParentElectron(ro)
    ensures r.Some? ==>
      var (dispatchId, nodeId) := resolve(ro.electronId.value);
      && r.value.0 == dispatchId
      && r.value.1.nodeId == nodeId
      && r.value.1.status == Some(ParentStatus(ro.status))
      && r.value.1.endTime == ro.endTime
      && r.value.1.output == ro.result
      && r.value.1.error == ro.error
      && r.value.1.startTime.None? && r.value.1.stdout.None? && r.value.1.stderr.None?
  {
    if HasParentElectron(ro) then
      var (dispatchId, nodeId) := resolve(ro.electronId.value);
      Some((dispatchId, GenerateNodeResult(nodeId, endTime := ro.endTime, status := Some(ParentStatus(ro.status)),
                                           output := ro.result, error := ro.error)))
    else
      None
  }

  /**
   * The node result as `update_node_result` leaves it: when the update
   * could not be applied, its status is overwritten with FAILED.
   */
  function AfterUpdate<V>(nodeResult: NodeResult<V>, applied: bool): (r: NodeResult<V>)
    ensures r.nodeId == nodeResult.nodeId
    ensures applied ==> r == nodeResult
    ensures !applied ==> r.status == Some(Failed) && r.(status := nodeResult.status) == nodeResult
  {
    if applied then nodeResult else nodeResult.(status := Some(Failed))
  }

  /**
   * The status queues after a node result is announced: a truthy status
   * appends exactly one `(node_id, status)` pair to that dispatch's queue;
   * no other queue changes.
   */
  function Enqueue<V>(queues: map<string, seq<StatusUpdate>>, dispatchId: string, nodeResult: NodeResult<V>)
    : (r: map<string, seq<StatusUpdate>>)
    requires dispatchId in queues
    ensures r.Keys == queues.Keys
    ensures forall id :: id in queues && id != dispatchId ==> r[id] == queues[id]
    ensures nodeResult.status.None? ==> r[dispatchId] == queues[dispatchId]
    ensures nodeResult.status.Some? ==>
      && |r[dispatchId]| == |queues[dispatchId]| + 1
      && r[dispatchId][..|queues[dispatchId]|] == queues[dispatchId]
      && r[dispatchId][|queues[dispatchId]|] == StatusUpdate(nodeResult.nodeId, nodeResult.status.value)
  {
    if nodeResult.status.Some? then
      queues[dispatchId := queues[dispatchId] + [StatusUpdate(nodeResult.nodeId, nodeResult.status.value)]]
    else
      queues
  }

  /** The module-level state: `_registered_dispatches` and `_dispatch_status_queues`. */
  class Registry<V> {
    var registeredDispatches: map<string, ResultObject<V>>
    var statusQueues: map<string, seq<StatusUpdate>>

    /** Both maps hold the same dispatches, each result object under its own id. */
    ghost predicate Valid()
      reads this
    {
      && registeredDispatches.Keys == statusQueues.Keys
      && forall id :: id in registeredDispatches ==> registeredDispatches[id].dispatchId == id
    }

    constructor ()
      ensures Valid()
      ensures registeredDispatches == map[] && statusQueues == map[]
    {
      registeredDispatches := map[];
      statusQueues := map[];
    }

    /** `get_result_object`: defined only for a registered dispatch. */
    function GetResultObject(dispatchId: string): (r: Option<ResultObject<V>>)
      reads this
      ensures r.Some? <==> dispatchId in registeredDispatches
      ensures r.Some? ==> r.value == registeredDispatches[dispatchId]
      ensures Valid() && r.Some? ==> r.value.dispatchId == dispatchId
    {
      if dispatchId in registeredDispatches then Some(registeredDispatches[dispatchId]) else None
    }

    /** `get_status_queue`: defined only for a registered dispatch. */
    function GetStatusQueue(dispatchId: string): (r: Option<seq<StatusUpdate>>)
      reads this
      ensures r.Some? <==> dispatchId in statusQueues
      ensures r.Some? ==> r.value == statusQueues[dispatchId]
      ensures Valid() ==> (r.Some? <==> GetResultObject(dispatchId).Some?)
    {
      if dispatchId in statusQueues then Some(statusQueues[dispatchId]) else None
    }

    /**
     * `_register_result_object`: `loaded` is the result object read back
     * from the database for the new dispatch; it gets a fresh, empty queue.
     */
    method RegisterResultObject(loaded: ResultObject<V>)
      requires Valid()
      modifies this
      ensures Valid()
      ensures registeredDispatches == old(registeredDispatches)[loaded.dispatchId := loaded]
      ensures statusQueues == old(statusQueues)[loaded.dispatchId := []]
    {
      registeredDispatches := registeredDispatches[loaded.dispatchId := loaded];
      statusQueues := statusQueues[loaded.dispatchId := []];
    }

    /**
     * `finalize_dispatch`: forgets the dispatch's queue, then its result
     * object; a missing entry raises `KeyError` at that step.
     */
    method FinalizeDispatch(dispatchId: string) returns (r: Outcome<KeyError>)
      requires Valid()
      modifies this
      ensures Valid()
      ensures r.Pass? <==> dispatchId in old(registeredDispatches)
      ensures r.Fail? ==> r.error == KeyError(dispatchId) && unchanged(this)
      ensures registeredDispatches == old(registeredDispatches) - {dispatchId}
      ensures statusQueues == old(statusQueues) - {dispatchId}
    {
      if dispatchId !in statusQueues {
        return Fail(KeyError(dispatchId));
      }
      statusQueues := statusQueues - {dispatchId};
      if dispatchId !in registeredDispatches {
        return Fail(KeyError(dispatchId));
      }
      registeredDispatches := registeredDispatches - {dispatchId};
      r := Pass;
    }

    /**
     * `update_node_result`. The update is applied to the dispatch's result
     * object; if that fails (no such dispatch, or `persistOk` false) the
     * node result's status becomes FAILED. A truthy final status is then
     * put on the dispatch's queue, which raises `KeyError` for a dispatch
     * without one. The returned node result is the argument as it stands
     * afterwards.
     */
    method UpdateNodeResult(dispatchId: string, nodeResult: NodeResult<V>, persistOk: bool)
      returns (r: Result<NodeResult<V>, KeyError>)
      requires Valid()
      modifies this
      ensures Valid()
      ensures registeredDispatches == old(registeredDispatches)
      ensures var final := AfterUpdate(nodeResult, dispatchId in old(registeredDispatches) && persistOk);
        && (r.Success? <==> final.status.None? || dispatchId in old(statusQueues))
        && (r.Success? ==> r.value == final)
        && (r.Failure? ==> r.error == KeyError(dispatchId))
        && statusQueues == if dispatchId in old(statusQueues) then Enqueue(old(statusQueues), dispatchId, final)
                           else old(statusQueues)
    {
      var final := AfterUpdate(nodeResult, dispatchId in registeredDispatches && persistOk);
      if final.status.Some? {
        if dispatchId !in statusQueues {
          return Failure(KeyError(dispatchId));
        }
      }
      if dispatchId in statusQueues {
        statusQueues := Enqueue(statusQueues, dispatchId, final);
      }
      r := Success(final);
    }

    /**
     * `_update_parent_electron`: a sub-workflow with a parent electron
     * reports its status to that electron's dispatch, with a failed
     * post-processing reported as a failure; otherwise nothing happens.
     */
    method UpdateParentElectron(ro: ResultObject<V>, resolve: int -> (string, NodeId), persistOk: bool)
      returns (r: Outcome<KeyError>)
      requires Valid()
      modifies this
      ensures Valid()
      ensures registeredDispatches == old(registeredDispatches)
      ensures !HasParentElectron(ro) ==> r.Pass? && statusQueues == old(statusQueues)
      ensures HasParentElectron(ro) ==>
        var (dispatchId, update) := ParentElectronUpdate(ro, resolve).value;
        var reported := if persistOk then ParentStatus(ro.status) else Failed;
        && (r.Pass? <==> dispatchId in old(registeredDispatches))
        && (r.Fail? ==> r.error == KeyError(dispatchId))
        && statusQueues == if r.Pass? then Enqueue(old(statusQueues), dispatchId, update.(status := Some(reported)))
                           else old(statusQueues)
    {
      match ParentElectronUpdate(ro, resolve)
      case None =>
        r := Pass;
      case Some((dispatchId, update)) =>
        var parent := GetResultObject(dispatchId);
        if parent.None? {
          return Fail(KeyError(dispatchId));
        }
        var u := UpdateNodeResult(parent.value.dispatchId, update, persistOk);
        r := if u.Success? then Pass else Fail(KeyError(dispatchId));
    }

    /**
     * `persist_result`: the dispatch's own result object reports to its
     * parent electron; an unregistered dispatch raises `KeyError` first.
     */
    method PersistResult(dispatchId: string, resolve: int -> (string, NodeId), persistOk: bool)
      returns (r: Outcome<KeyError>)
      requires Valid()
      modifies this
      ensures Valid()
      ensures registeredDispatches == old(registeredDispatches)
      ensures dispatchId !in old(registeredDispatches) ==>
        r == Fail(KeyError(dispatchId)) && statusQueues == old(statusQueues)
      ensures dispatchId in old(registeredDispatches) ==>
        var ro := old(registeredDispatches)[dispatchId];
        && (!HasParentElectron(ro) ==> r.Pass? && statusQueues == old(statusQueues))
        && (HasParentElectron(ro) ==>
              var (parentId, update) := ParentElectronUpdate(ro, resolve).value;
              var reported := if persistOk then ParentStatus(ro.status) else Failed;
              && (r.Pass? <==> parentId in old(registeredDispatches))
              && (r.Fail? ==> r.error == KeyError(parentId) && statusQueues == old(statusQueues))
              && (r.Pass? ==> statusQueues == Enqueue(old(statusQueues), parentId, update.(status := Some(reported)))))
    {
      var ro := GetResultObject(dispatchId);
      if ro.None? {
        return Fail(KeyError(dispatchId));
      }
      r := UpdateParentElectron(ro.value, resolve, persistOk);
    }
  }
}
