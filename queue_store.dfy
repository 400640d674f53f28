/** The queue store as the client holds it: one object whose list and
    scalar fields the snapshot and event handlers update in place.  Each
    handler is one sequential mutation; its new state is the matching pure
    transition of module QueueModel applied to the old state. */
module QueueStore {
  import opened Js
  import opened QueueModel

  class QueueStore {
    var queueRunning: seq<QueueEntry>
    var queuePending: seq<QueueEntry>
    var queueCompleted: seq<CompletedQueueEntry>
    var queueRemaining: Option<int>
    var runningNodeID: Option<int>
    var progress: Option<Progress>

    /** The store's fields as a value. */
    function Snapshot(): State
      reads this
    {
      State(queueRunning, queuePending, queueCompleted, queueRemaining, runningNodeID, progress)
    }

    constructor ()
      ensures Snapshot() == Initial
    {
      queueRunning, queuePending, queueCompleted := [], [], [];
      queueRemaining, runningNodeID, progress := None, None, None;
    }

    method QueueUpdated(resp: QueueResponse)
      modifies this
      ensures Snapshot() == QueueModel.QueueUpdated(old(Snapshot()), resp)
    {
      queueRunning := seq(|resp.running|, i requires 0 <= i < |resp.running| => ToQueueEntry(resp.running[i]));
      queuePending := seq(|resp.pending|, i requires 0 <= i < |resp.pending| => ToQueueEntry(resp.pending[i]));
      queueRemaining := Some(|resp.pending|);
    }

    /** `history` holds the values of the history response in enumeration order. */
    method HistoryUpdated(history: seq<HistoryEntry>)
      modifies this
      ensures Snapshot() == QueueModel.HistoryUpdated(old(Snapshot()), history)
    {
      queueCompleted := seq(|history|, i requires 0 <= i < |history| => ToCompletedQueueEntry(history[i]));
    }

    method ProgressUpdated(p: Progress)
      modifies this
      ensures Snapshot() == QueueModel.ProgressUpdated(old(Snapshot()), p)
    {
      progress := Some(p);
    }

    method StatusUpdated(status: Option<StatusResponse>)
      modifies this
      ensures Snapshot() == QueueModel.StatusUpdated(old(Snapshot()), status)
    {
      if status.Some? {
        queueRemaining := Some(status.value.queueRemaining);
      }
    }

    /** Removes the entry at `index` of the named queue and appends it,
        stamped as finished now, to completed. */
    method MoveToCompleted(index: nat, q: QueueName, status: Status, error: Option<string>, now: Time)
      requires index < |Snapshot().Queue(q)|
      modifies this
      ensures Snapshot() == QueueModel.MoveToCompleted(old(Snapshot()), index, q, status, error, now)
    {
      var entry := if q == Pending then queuePending[index] else queueRunning[index];
      entry := entry.(finishedAt := Some(now));
      if q == Pending {
        queuePending := queuePending[..index] + queuePending[index + 1..];
      } else {
        queueRunning := queueRunning[..index] + queueRunning[index + 1..];
      }
      queueCompleted := queueCompleted + [CompletedQueueEntry(entry, status, error)];
    }

    /** `threw` is set when the lookup returns null and the handler's
        destructuring throws. */
    method ExecutingUpdated(promptID: Option<PromptID>, nodeID: Option<NodeID>, parse: NodeID -> int, now: Time)
      returns (threw: bool)
      modifies this
      ensures threw <==> nodeID.None? && promptID.Some? && FindEntryInPending(old(Snapshot()), promptID.value).Null?
      ensures Snapshot() == QueueModel.ExecutingUpdated(old(Snapshot()), promptID, nodeID, parse, now)
    {
      threw := false;
      progress := None;
      if nodeID.Some? {
        runningNodeID := Some(parse(nodeID.value));
      } else if promptID.Some? {
        var found := FindEntryInPending(Snapshot(), promptID.value);
        if found.Null? {
          threw := true;
          return;
        }
        if found.entry.Some? {
          MoveToCompleted(found.index, found.queue, Success, None, now);
        }
        progress := None;
        runningNodeID := None;
      }
    }

    method ExecutionCached(promptID: PromptID, nodes: seq<NodeID>, now: Time) returns (threw: bool)
      modifies this
      ensures threw <==> FindEntryInPending(old(Snapshot()), promptID).Null?
      ensures Snapshot() == QueueModel.ExecutionCached(old(Snapshot()), promptID, nodes, now)
    {
      var found := FindEntryInPending(Snapshot(), promptID);
      if found.Null? {
        return true;
      }
      threw := false;
      if found.entry.Some? {
        if |nodes| >= |found.entry.value.prompt| {
          MoveToCompleted(found.index, found.queue, AllCached, None, now);
        }
      }
      progress := None;
      runningNodeID := None;
    }

    method ExecutionError(promptID: PromptID, message: string, now: Time) returns (threw: bool)
      modifies this
      ensures threw <==> FindEntryInPending(old(Snapshot()), promptID).Null?
      ensures Snapshot() == QueueModel.ExecutionError(old(Snapshot()), promptID, message, now)
    {
      var found := FindEntryInPending(Snapshot(), promptID);
      if found.Null? {
        return true;
      }
      threw := false;
      if found.entry.Some? {
        MoveToCompleted(found.index, found.queue, Error, Some(message), now);
      }
      progress := None;
      runningNodeID := None;
    }

    method AfterQueued(promptID: PromptID, number: int, prompt: map<NodeID, Json>, extraData: Json, now: Time)
      modifies this
      ensures Snapshot() == QueueModel.AfterQueued(old(Snapshot()), promptID, number, prompt, extraData, now)
    {
      var entry := QueueEntry(number, Some(now), None, promptID, prompt, extraData, [], map[]);
      queuePending := queuePending + [entry];
    }

    method OnExecuted(promptID: PromptID, nodeID: NodeID, output: Json) returns (threw: bool)
      modifies this
      ensures threw <==> FindEntryInPending(old(Snapshot()), promptID).Null?
      ensures Snapshot() == QueueModel.OnExecuted(old(Snapshot()), promptID, nodeID, output)
    {
      var found := FindEntryInPending(Snapshot(), promptID);
      if found.Null? {
        return true;
      }
      threw := false;
      if found.entry.Some? {
        var entry := found.entry.value;
        entry := entry.(outputs := SetProperty(entry.outputs, nodeID, output));
        if found.queue == Pending {
          queuePending := queuePending[found.index := entry];
        } else {
          queueRunning := queueRunning[found.index := entry];
        }
      }
    }
  }
}
