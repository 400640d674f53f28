/** The execution-queue state of the ComfyBox client as a value: the three
    ordered lists (running, pending, completed), the three scalars, and one
    pure transition per snapshot or event handler of the store.  The class
    in module QueueStore performs the same transitions in place. */
module QueueModel {
  import opened Js

  type PromptID = string
  type NodeID = string
  /** A `Date`, as milliseconds since the epoch; the clock is a parameter. */
  type Time = int

  /** Payloads the store carries without looking inside: node inputs,
      extra data, gallery outputs. */
  datatype Json =
    | JNull
    | JBool(b: bool)
    | JNum(n: int)
    | JStr(s: string)
    | JArr(items: seq<Json>)
    | JObj(fields: map<string, Json>)

  datatype Status = Success | Error | AllCached | Unknown

  datatype QueueEntry = QueueEntry(
    number: int,
    queuedAt: Option<Time>,
    finishedAt: Option<Time>,
    promptID: PromptID,
    prompt: map<NodeID, Json>,
    extraData: Json,
    goodOutputs: seq<NodeID>,
    outputs: map<NodeID, Json>)

  datatype CompletedQueueEntry = CompletedQueueEntry(entry: QueueEntry, status: Status, error: Option<string>)

  /** The backend's `[number, promptID, prompt, extraData, goodOutputs]` tuple. */
  datatype HistoryItem = HistoryItem(
    number: int,
    promptID: PromptID,
    prompt: map<NodeID, Json>,
    extraData: Json,
    goodOutputs: seq<NodeID>)

  datatype HistoryEntry = HistoryEntry(prompt: HistoryItem, outputs: map<NodeID, Json>)

  datatype QueueResponse = QueueResponse(running: seq<HistoryItem>, pending: seq<HistoryItem>)

  datatype StatusResponse = StatusResponse(queueRemaining: int)

  datatype Progress = Progress(value: int, max: int)

  /** Which of the two writable lists a lookup answers with. */
  datatype QueueName = Running | Pending

  datatype State = State(
    running: seq<QueueEntry>,
    pending: seq<QueueEntry>,
    completed: seq<CompletedQueueEntry>,
    queueRemaining: Option<int>,
    runningNodeID: Option<int>,
    progress: Option<Progress>)
  {
    function Queue(q: QueueName): seq<QueueEntry> {
      if q == Running then running else pending
    }

    function WithQueue(q: QueueName, entries: seq<QueueEntry>): (r: State)
      ensures r.Queue(q) == entries
    {
      if q == Running then this.(running := entries) else this.(pending := entries)
    }
  }

  /** The store as created: empty lists and null scalars. */
  const Initial: State := State([], [], [], None, None, None)

  // ---------------------------------------------------------------------
  // Records built from the backend's tuples

  /** The submission a queue entry was built from. */
  function Submission(e: QueueEntry): HistoryItem {
    HistoryItem(e.number, e.promptID, e.prompt, e.extraData, e.goodOutputs)
  }

  /** A queue entry keeps the whole submission and starts with no
      timestamps and no collected outputs. */
  function ToQueueEntry(item: HistoryItem): (e: QueueEntry)
    ensures Submission(e) == item
    ensures e.queuedAt == None && e.finishedAt == None && e.outputs == map[]
  {
    QueueEntry(item.number, None, None, item.promptID, item.prompt, item.extraData, item.goodOutputs, map[])
  }

  /** A history entry becomes a completed entry whose status is derived
      from its outputs: "success" when there is at least one, otherwise
      "all_cached"; the error is null. */
  function ToCompletedQueueEntry(h: HistoryEntry): (c: CompletedQueueEntry)
    ensures Submission(c.entry) == h.prompt && c.entry.outputs == h.outputs
    ensures c.entry.queuedAt == None && c.entry.finishedAt == None
    ensures c.status == Success <==> |c.entry.outputs| > 0
    ensures c.status == AllCached <==> |c.entry.outputs| == 0
    ensures c.error == None
  {
    var entry := ToQueueEntry(h.prompt).(outputs := h.outputs);
    CompletedQueueEntry(entry, if |entry.outputs| > 0 then Success else AllCached, None)
  }

  // ---------------------------------------------------------------------
  // Snapshots and scalar updates

  /** Running and pending become the element-wise images of the snapshot
      lists, in order; the remaining count is the pending length. */
  function QueueUpdated(s: State, resp: QueueResponse): (r: State)
    ensures |r.running| == |resp.running| && |r.pending| == |resp.pending|
    ensures forall i :: 0 <= i < |resp.running| ==> r.running[i] == ToQueueEntry(resp.running[i])
    ensures forall i :: 0 <= i < |resp.pending| ==> r.pending[i] == ToQueueEntry(resp.pending[i])
    ensures r.queueRemaining == Some(|resp.pending|)
    ensures r.completed == s.completed && r.runningNodeID == s.runningNodeID && r.progress == s.progress
  {
    s.(running := seq(|resp.running|, i requires 0 <= i < |resp.running| => ToQueueEntry(resp.running[i])),
       pending := seq(|resp.pending|, i requires 0 <= i < |resp.pending| => ToQueueEntry(resp.pending[i])),
       queueRemaining := Some(|resp.pending|))
  }

  /** Completed is replaced by the history values, in enumeration order. */
  function HistoryUpdated(s: State, history: seq<HistoryEntry>): (r: State)
    ensures |r.completed| == |history|
    ensures forall i :: 0 <= i < |history| ==> r.completed[i] == ToCompletedQueueEntry(history[i])
    ensures r.running == s.running && r.pending == s.pending
    ensures r.queueRemaining == s.queueRemaining && r.runningNodeID == s.runningNodeID && r.progress == s.progress
  {
    s.(completed := seq(|history|, i requires 0 <= i < |history| => ToCompletedQueueEntry(history[i])))
  }

  function ProgressUpdated(s: State, progress: Progress): (r: State)
    ensures r.progress == Some(progress)
    ensures r.(progress := s.progress) == s
  {
    s.(progress := Some(progress))
  }

  /** A null status changes nothing; otherwise only the remaining count. */
  function StatusUpdated(s: State, status: Option<StatusResponse>): (r: State)
    ensures status.None? ==> r == s
    ensures status.Some? ==> r.queueRemaining == Some(status.value.queueRemaining)
    ensures r.(queueRemaining := s.queueRemaining) == s
  {
    if status.Some? then s.(queueRemaining := Some(status.value.queueRemaining)) else s
  }

  // ---------------------------------------------------------------------
  // The lookup, as written

  /** `Array.prototype.findIndex` on the prompt id: the first match, or -1. */
  function FindIndex(q: seq<QueueEntry>, id: PromptID): (i: int)
    ensures -1 <= i < |q|
    ensures i >= 0 ==> q[i].promptID == id
    ensures forall j :: 0 <= j < |q| && (i == -1 || j < i) ==> q[j].promptID != id
  {
    if |q| == 0 then -1
    else if q[0].promptID == id then 0
    else
      var i := FindIndex(q[1..], id);
      if i < 0 then -1 else i + 1
  }

  /** `q[i]` in JavaScript: `undefined` outside the list. */
  function At(q: seq<QueueEntry>, i: int): (r: Option<QueueEntry>)
    ensures r.Some? <==> 0 <= i < |q|
    ensures r.Some? ==> r.value == q[i]
  {
    if 0 <= i < |q| then Some(q[i]) else None
  }

  /** The first entry of `q` has this prompt id. */
  predicate HeadIs(q: seq<QueueEntry>, id: PromptID) {
    |q| > 0 && q[0].promptID == id
  }

  /** What `findEntryInPending` returns: `null`, or the triple
      `[index, entry, queue]`, whose entry is `undefined` for index -1. */
  datatype Lookup = Null | Found(index: int, entry: Option<QueueEntry>, queue: QueueName)

  /** `findEntryInPending`, which tests the found index for truthiness: a
      pending index other than 0 is returned as it is (so -1 reports a miss
      without searching running); a pending index 0 falls through to
      running, where again any index but 0 is returned; `null` only when
      both lists start with the job. */
  function FindEntryInPending(s: State, id: PromptID): (r: Lookup)
    ensures !HeadIs(s.pending, id) ==> r == Found(FindIndex(s.pending, id), At(s.pending, FindIndex(s.pending, id)), Pending)
    ensures HeadIs(s.pending, id) && !HeadIs(s.running, id) ==> r == Found(FindIndex(s.running, id), At(s.running, FindIndex(s.running, id)), Running)
    ensures r.Null? <==> HeadIs(s.pending, id) && HeadIs(s.running, id)
    ensures r.Found? ==> r.index != 0 && -1 <= r.index < |s.Queue(r.queue)|
    ensures r.Found? && r.entry.Some? ==> 1 <= r.index && r.entry.value == s.Queue(r.queue)[r.index] && r.entry.value.promptID == id
  {
    var p := FindIndex(s.pending, id);
    if p != 0 then Found(p, At(s.pending, p), Pending)
    else
      var i := FindIndex(s.running, id);
      if i != 0 then Found(i, At(s.running, i), Running) else Null
  }

  /** A lookup hands back an entry exactly when the job's first occurrence
      in pending is past the head, or the job heads pending and its first
      occurrence in running is past the head. */
  lemma LookupHitIff(s: State, id: PromptID)
    ensures var r := FindEntryInPending(s, id);
      (r.Found? && r.entry.Some?) <==>
        (FindIndex(s.pending, id) >= 1 || (FindIndex(s.pending, id) == 0 && FindIndex(s.running, id) >= 1))
  {
  }

  /** A job that is only in running is never found: the pending miss (-1)
      is truthy and ends the search. */
  lemma LookupIgnoresRunning(s: State, id: PromptID)
    requires forall e :: e in s.pending ==> e.promptID != id
    ensures FindEntryInPending(s, id) == Found(-1, None, Pending)
  {
    assert !HeadIs(s.pending, id);
  }

  /** A job at the head of pending and absent from running is reported
      as missing although it is queued. */
  lemma LookupMissesPendingHead(s: State, id: PromptID)
    requires HeadIs(s.pending, id)
    requires forall e :: e in s.running ==> e.promptID != id
    ensures FindEntryInPending(s, id) == Found(-1, None, Running)
  {
    assert !HeadIs(s.running, id);
  }

  // ---------------------------------------------------------------------
  // The lookup, as evidently intended

  datatype Location = Location(queue: QueueName, index: nat)

  /** The lookup with an explicit found/not-found tag: pending is searched
      first, then running, and index 0 is a hit like any other. */
  function Locate(s: State, id: PromptID): (r: Option<Location>)
    ensures r.None? <==> (forall e :: e in s.pending ==> e.promptID != id) && (forall e :: e in s.running ==> e.promptID != id)
    ensures r.Some? ==> r.value.index < |s.Queue(r.value.queue)| && s.Queue(r.value.queue)[r.value.index].promptID == id
    ensures r.Some? ==> forall j :: 0 <= j < r.value.index ==> s.Queue(r.value.queue)[j].promptID != id
    ensures r.Some? && r.value.queue == Running ==> forall e :: e in s.pending ==> e.promptID != id
  {
    var p := FindIndex(s.pending, id);
    if p >= 0 then Some(Location(Pending, p))
    else
      var i := FindIndex(s.running, id);
      if i >= 0 then Some(Location(Running, i)) else None
  }

  /** The corrected lookup in the shape the event handlers consume. */
  function LocateLookup(s: State, id: PromptID): (r: Lookup)
    ensures r.Found?
    ensures r.entry.Some? <==> Locate(s, id).Some?
    ensures r.entry.Some? ==> 0 <= r.index < |s.Queue(r.queue)| && r.entry.value == s.Queue(r.queue)[r.index]
  {
    match Locate(s, id)
    case Some(loc) => Found(loc.index, Some(s.Queue(loc.queue)[loc.index]), loc.queue)
    case None => Found(-1, None, Pending)
  }

  /** Wherever the written lookup returns an entry from pending, the
      corrected one returns the same location. */
  lemma LocateAgreesOnPendingHits(s: State, id: PromptID)
    requires FindEntryInPending(s, id).Found? && FindEntryInPending(s, id).entry.Some?
    requires FindEntryInPending(s, id).queue == Pending
    ensures LocateLookup(s, id) == FindEntryInPending(s, id)
  {
  }

  // ---------------------------------------------------------------------
  // Moving an entry to completed

  /** `moveToCompleted`: removes exactly element `index` from the queue,
      keeping the others in order, and appends the entry, stamped with
      `finishedAt = now`, to the end of completed with the given status and
      error. */
  function MoveToCompleted(s: State, index: nat, q: QueueName, status: Status, error: Option<string>, now: Time): (r: State)
    requires index < |s.Queue(q)|
    ensures |r.Queue(q)| == |s.Queue(q)| - 1
    ensures forall j :: 0 <= j < index ==> r.Queue(q)[j] == s.Queue(q)[j]
    ensures forall j :: index <= j < |r.Queue(q)| ==> r.Queue(q)[j] == s.Queue(q)[j + 1]
    ensures q == Pending ==> r.running == s.running
    ensures q == Running ==> r.pending == s.pending
    ensures |r.completed| == |s.completed| + 1 && r.completed[..|s.completed|] == s.completed
    ensures r.completed[|s.completed|] == CompletedQueueEntry(s.Queue(q)[index].(finishedAt := Some(now)), status, error)
    ensures r.queueRemaining == s.queueRemaining && r.runningNodeID == s.runningNodeID && r.progress == s.progress
  {
    var queue := s.Queue(q);
    var entry := queue[index].(finishedAt := Some(now));
    s.WithQueue(q, queue[..index] + queue[index + 1..])
     .(completed := s.completed + [CompletedQueueEntry(entry, status, error)])
  }

  /** A lookup whose entry, if any, sits at its index in its queue. */
  predicate Fits(s: State, found: Lookup) {
    found.Found? && found.entry.Some? ==> 0 <= found.index < |s.Queue(found.queue)|
  }

  /** Moves the looked-up entry, if there is one; a miss changes nothing. */
  function Finish(s: State, found: Lookup, status: Status, error: Option<string>, now: Time): (r: State)
    requires Fits(s, found)
    ensures !(found.Found? && found.entry.Some?) ==> r == s
    ensures found.Found? && found.entry.Some? ==> r == MoveToCompleted(s, found.index, found.queue, status, error, now)
  {
    if found.Found? && found.entry.Some? then MoveToCompleted(s, found.index, found.queue, status, error, now) else s
  }

  // ---------------------------------------------------------------------
  // Event handlers

  /** `executingUpdated`: progress is always cleared.  A node id sets the
      running node and leaves every list alone.  Otherwise a prompt id
      means that prompt finished: a found entry moves to completed as
      "success" and the running node is reset whether or not it was found.
      When the lookup is null the handler throws after clearing progress. */
  function ExecutingUpdated(s: State, promptID: Option<PromptID>, nodeID: Option<NodeID>, parse: NodeID -> int, now: Time): (r: State)
    ensures r.progress == None
    ensures r.queueRemaining == s.queueRemaining
    ensures nodeID.Some? ==> r == s.(progress := None, runningNodeID := Some(parse(nodeID.value)))
    ensures nodeID.None? && promptID.None? ==> r == s.(progress := None)
    ensures nodeID.None? && promptID.Some? && FindEntryInPending(s, promptID.value).Null? ==> r == s.(progress := None)
    ensures nodeID.None? && promptID.Some? && FindEntryInPending(s, promptID.value).Found? ==>
      r == Finish(s, FindEntryInPending(s, promptID.value), Success, None, now).(progress := None, runningNodeID := None)
  {
    var s0 := s.(progress := None);
    if nodeID.Some? then s0.(runningNodeID := Some(parse(nodeID.value)))
    else if promptID.Some? then
      // the lookup reads only the lists, which clearing progress leaves alone
      var found := FindEntryInPending(s, promptID.value);
      if found.Null? then s0
      else Finish(s, found, Success, None, now).(progress := None, runningNodeID := None)
    else s0
  }

  /** `executionCached`: the found entry moves to completed as "all_cached"
      only when at least as many nodes were cached as the prompt has keys;
      a smaller count is a partial hit and changes no list.  Progress and
      the running node are cleared even on a miss; a null lookup throws
      before anything changes. */
  function ExecutionCached(s: State, promptID: PromptID, nodes: seq<NodeID>, now: Time): (r: State)
    ensures FindEntryInPending(s, promptID).Null? ==> r == s
    ensures FindEntryInPending(s, promptID).Found? ==> r.progress == None && r.runningNodeID == None
    ensures r.queueRemaining == s.queueRemaining
    ensures var found := FindEntryInPending(s, promptID);
      found.Found? && found.entry.Some? && |nodes| >= |found.entry.value.prompt| ==>
        r == MoveToCompleted(s, found.index, found.queue, AllCached, None, now).(progress := None, runningNodeID := None)
    ensures var found := FindEntryInPending(s, promptID);
      found.Found? && !(found.entry.Some? && |nodes| >= |found.entry.value.prompt|) ==>
        r == s.(progress := None, runningNodeID := None)
  {
    var found := FindEntryInPending(s, promptID);
    if found.Null? then s
    else
      var moved :=
        if found.entry.Some? && |nodes| >= |found.entry.value.prompt|
        then MoveToCompleted(s, found.index, found.queue, AllCached, None, now)
        else s;
      moved.(progress := None, runningNodeID := None)
  }

  /** `executionError`: the found entry moves to completed as "error" with
      the message; progress and the running node are cleared even on a
      miss; a null lookup throws before anything changes. */
  function ExecutionError(s: State, promptID: PromptID, message: string, now: Time): (r: State)
    ensures FindEntryInPending(s, promptID).Null? ==> r == s
    ensures FindEntryInPending(s, promptID).Found? ==>
      r == Finish(s, FindEntryInPending(s, promptID), Error, Some(message), now).(progress := None, runningNodeID := None)
  {
    var found := FindEntryInPending(s, promptID);
    if found.Null? then s
    else Finish(s, found, Error, Some(message), now).(progress := None, runningNodeID := None)
  }

  /** The entry `afterQueued` builds for a freshly submitted prompt. */
  function NewEntry(promptID: PromptID, number: int, prompt: map<NodeID, Json>, extraData: Json, now: Time): (e: QueueEntry)
    ensures e.promptID == promptID && e.number == number && e.prompt == prompt && e.extraData == extraData
    ensures e.queuedAt == Some(now) && e.finishedAt == None
    ensures e.goodOutputs == [] && e.outputs == map[]
  {
    QueueEntry(number, Some(now), None, promptID, prompt, extraData, [], map[])
  }

  /** `afterQueued`: exactly one entry is appended to the end of pending;
      everything else is unchanged. */
  function AfterQueued(s: State, promptID: PromptID, number: int, prompt: map<NodeID, Json>, extraData: Json, now: Time): (r: State)
    ensures |r.pending| == |s.pending| + 1 && r.pending[..|s.pending|] == s.pending
    ensures r.pending[|s.pending|] == NewEntry(promptID, number, prompt, extraData, now)
    ensures r.(pending := s.pending) == s
  {
    s.(pending := s.pending + [NewEntry(promptID, number, prompt, extraData, now)])
  }

  /** `onExecuted`: the found entry records `outputs[nodeID] := output`; no
      other entry, no list membership and no scalar changes.  A miss or a
      null lookup changes nothing. */
  function OnExecuted(s: State, promptID: PromptID, nodeID: NodeID, output: Json): (r: State)
    ensures var found := FindEntryInPending(s, promptID);
      !(found.Found? && found.entry.Some?) ==> r == s
    ensures var found := FindEntryInPending(s, promptID);
      found.Found? && found.entry.Some? ==>
        var q := s.Queue(found.queue);
        var e := q[found.index];
        r == s.WithQueue(found.queue, q[found.index := e.(outputs := SetProperty(e.outputs, nodeID, output))])
  {
    var found := FindEntryInPending(s, promptID);
    if found.Found? && found.entry.Some? then
      var q := s.Queue(found.queue);
      var e := q[found.index];
      s.WithQueue(found.queue, q[found.index := e.(outputs := SetProperty(e.outputs, nodeID, output))])
    else s
  }
}
