/** What the queue store keeps across any sequence of incremental events:
    completed only grows at its end, every prompt id is held at most once,
    pending stays in submission order.  Also the snapshot laws and the
    effect of the lookup on the completion scenarios. */
module QueueProperties {
  import opened Js
  import opened QueueModel

  /** One incremental notification, tagged by kind; `now` is the clock
      reading when the handler runs. */
  datatype Event =
    | Queued(promptID: PromptID, number: int, prompt: map<NodeID, Json>, extraData: Json, now: Time)
    | Executing(executingPrompt: Option<PromptID>, node: Option<NodeID>, now: Time)
    | Cached(promptID: PromptID, nodes: seq<NodeID>, now: Time)
    | Failed(promptID: PromptID, message: string, now: Time)
    | Executed(promptID: PromptID, nodeID: NodeID, output: Json)
    | ProgressChanged(progress: Progress)
    | StatusChanged(status: Option<StatusResponse>)

  function Apply(s: State, e: Event, parse: NodeID -> int): State {
    match e
    case Queued(id, number, prompt, extraData, now) => AfterQueued(s, id, number, prompt, extraData, now)
    case Executing(id, node, now) => ExecutingUpdated(s, id, node, parse, now)
    case Cached(id, nodes, now) => ExecutionCached(s, id, nodes, now)
    case Failed(id, message, now) => ExecutionError(s, id, message, now)
    case Executed(id, node, output) => OnExecuted(s, id, node, output)
    case ProgressChanged(p) => ProgressUpdated(s, p)
    case StatusChanged(st) => StatusUpdated(s, st)
  }

  function Run(s: State, es: seq<Event>, parse: NodeID -> int): State
    decreases |es|
  {
    if |es| == 0 then s else Run(Apply(s, es[0], parse), es[1..], parse)
  }

  // ---------------------------------------------------------------------
  // Snapshots

  /** Applying the same queue snapshot twice gives the state of applying it once. */
  lemma QueueUpdatedIdempotent(s: State, resp: QueueResponse)
    ensures QueueUpdated(QueueUpdated(s, resp), resp) == QueueUpdated(s, resp)
  {
  }

  /** The queue lists after a snapshot do not depend on the state before it. */
  lemma QueueUpdatedAuthoritative(s: State, t: State, resp: QueueResponse)
    ensures QueueUpdated(s, resp).running == QueueUpdated(t, resp).running
    ensures QueueUpdated(s, resp).pending == QueueUpdated(t, resp).pending
  {
  }

  /** Applying the same history snapshot twice gives the state of applying it once. */
  lemma HistoryUpdatedIdempotent(s: State, history: seq<HistoryEntry>)
    ensures HistoryUpdated(HistoryUpdated(s, history), history) == HistoryUpdated(s, history)
  {
  }

  // ---------------------------------------------------------------------
  // Completed is append-only under events

  /** One event keeps completed as a prefix and adds at most one entry. */
  lemma ApplyKeepsCompleted(s: State, e: Event, parse: NodeID -> int)
    ensures s.completed <= Apply(s, e, parse).completed
    ensures |Apply(s, e, parse).completed| <= |s.completed| + 1
  {
  }

  /** Any sequence of events keeps the earlier completed entries, statuses
      and errors included, and adds at most one entry per event. */
  lemma {:induction false} RunKeepsCompleted(s: State, es: seq<Event>, parse: NodeID -> int)
    ensures s.completed <= Run(s, es, parse).completed
    ensures |Run(s, es, parse).completed| <= |s.completed| + |es|
    decreases |es|
  {
    if |es| > 0 {
      var s1 := Apply(s, es[0], parse);
      ApplyKeepsCompleted(s, es[0], parse);
      RunKeepsCompleted(s1, es[1..], parse);
    }
  }

  // ---------------------------------------------------------------------
  // Prompt ids

  function Ids(q: seq<QueueEntry>): (r: seq<PromptID>)
    ensures |r| == |q| && forall i :: 0 <= i < |q| ==> r[i] == q[i].promptID
  {
    seq(|q|, i requires 0 <= i < |q| => q[i].promptID)
  }

  function CompletedIds(c: seq<CompletedQueueEntry>): (r: seq<PromptID>)
    ensures |r| == |c| && forall i :: 0 <= i < |c| ==> r[i] == c[i].entry.promptID
  {
    seq(|c|, i requires 0 <= i < |c| => c[i].entry.promptID)
  }

  /** Every prompt id held by the store, counted with multiplicity. */
  function AllIds(s: State): multiset<PromptID> {
    multiset(Ids(s.running)) + multiset(Ids(s.pending)) + multiset(CompletedIds(s.completed))
  }

  /** Each prompt id is in at most one place: never both queued and
      completed, never twice in one list. */
  ghost predicate UniqueIds(s: State) {
    forall id :: AllIds(s)[id] <= 1
  }

  lemma IdsSplit(q: seq<QueueEntry>, i: nat)
    requires i < |q|
    ensures multiset(Ids(q)) == multiset(Ids(q[..i] + q[i + 1..])) + multiset{q[i].promptID}
  {
    assert Ids(q) == Ids(q[..i]) + [q[i].promptID] + Ids(q[i + 1..]);
    assert Ids(q[..i] + q[i + 1..]) == Ids(q[..i]) + Ids(q[i + 1..]);
  }

  /** Moving an entry to completed keeps the multiset of ids. */
  lemma MoveKeepsIds(s: State, index: nat, q: QueueName, status: Status, error: Option<string>, now: Time)
    requires index < |s.Queue(q)|
    ensures AllIds(MoveToCompleted(s, index, q, status, error, now)) == AllIds(s)
  {
    var r := MoveToCompleted(s, index, q, status, error, now);
    var queue := s.Queue(q);
    assert r.Queue(q) == queue[..index] + queue[index + 1..];
    IdsSplit(queue, index);
    assert CompletedIds(r.completed) == CompletedIds(s.completed) + [queue[index].promptID];
  }

  /** Recording an output keeps the multiset of ids. */
  lemma OnExecutedKeepsIds(s: State, id: PromptID, nodeID: NodeID, output: Json)
    ensures AllIds(OnExecuted(s, id, nodeID, output)) == AllIds(s)
  {
    var found := FindEntryInPending(s, id);
    if found.Found? && found.entry.Some? {
      var r := OnExecuted(s, id, nodeID, output);
      assert Ids(r.Queue(found.queue)) == Ids(s.Queue(found.queue));
      assert r.Queue(if found.queue == Running then Pending else Running) == s.Queue(if found.queue == Running then Pending else Running);
      assert r.completed == s.completed;
    }
  }

  /** An event adds the submitted id, if it is a submission, and otherwise
      moves ids around without adding or dropping any. */
  lemma ApplyIds(s: State, e: Event, parse: NodeID -> int)
    ensures AllIds(Apply(s, e, parse)) == AllIds(s) + (if e.Queued? then multiset{e.promptID} else multiset{})
  {
    match e
    case Queued(id, number, prompt, extraData, now) =>
      assert Ids(AfterQueued(s, id, number, prompt, extraData, now).pending) == Ids(s.pending) + [id];
    case Executing(id, node, now) => ExecutingKeepsIds(s, id, node, parse, now);
    case Cached(id, nodes, now) => CachedKeepsIds(s, id, nodes, now);
    case Failed(id, message, now) => FailedKeepsIds(s, id, message, now);
    case Executed(id, node, output) => OnExecutedKeepsIds(s, id, node, output);
    case ProgressChanged(p) =>
    case StatusChanged(st) =>
  }

  lemma ExecutingKeepsIds(s: State, id: Option<PromptID>, node: Option<NodeID>, parse: NodeID -> int, now: Time)
    ensures AllIds(ExecutingUpdated(s, id, node, parse, now)) == AllIds(s)
  {
    if node.None? && id.Some? {
      var found := FindEntryInPending(s, id.value);
      if found.Found? && found.entry.Some? {
        MoveKeepsIds(s, found.index, found.queue, Success, None, now);
      }
    }
  }


  lemma CachedKeepsIds(s: State, id: PromptID, nodes: seq<NodeID>, now: Time)
    ensures AllIds(ExecutionCached(s, id, nodes, now)) == AllIds(s)
  {
    var found := FindEntryInPending(s, id);
    if found.Found? && found.entry.Some? {
      MoveKeepsIds(s, found.index, found.queue, AllCached, None, now);
    }
  }

  lemma FailedKeepsIds(s: State, id: PromptID, message: string, now: Time)
    ensures AllIds(ExecutionError(s, id, message, now)) == AllIds(s)
  {
    var found := FindEntryInPending(s, id);
    if found.Found? && found.entry.Some? {
      MoveKeepsIds(s, found.index, found.queue, Error, Some(message), now);
    }
  }

  // ---------------------------------------------------------------------
  // Submission order of pending

  predicate Ordered(q: seq<QueueEntry>) {
    forall i, j :: 0 <= i < j < |q| ==> q[i].number < q[j].number
  }

  lemma OnExecutedKeepsNumbers(s: State, id: PromptID, nodeID: NodeID, output: Json)
    ensures var r := OnExecuted(s, id, nodeID, output);
      |r.pending| == |s.pending| && forall i :: 0 <= i < |s.pending| ==> r.pending[i].number == s.pending[i].number
  {
  }

  /** Dropping one element keeps a list in order. */
  lemma RemovalKeepsOrder(q: seq<QueueEntry>, k: nat)
    requires Ordered(q) && k < |q|
    ensures Ordered(q[..k] + q[k + 1..])
  {
    var r := q[..k] + q[k + 1..];
    forall i, j | 0 <= i < j < |r| ensures r[i].number < r[j].number {
      var i' := if i < k then i else i + 1;
      var j' := if j < k then j else j + 1;
      assert r[i] == q[i'] && r[j] == q[j'];
    }
  }

  lemma MoveKeepsOrder(s: State, index: nat, q: QueueName, status: Status, error: Option<string>, now: Time)
    requires index < |s.Queue(q)| && Ordered(s.pending)
    ensures Ordered(MoveToCompleted(s, index, q, status, error, now).pending)
  {
    if q == Pending {
      var r := MoveToCompleted(s, index, q, status, error, now);
      assert r.pending == s.pending[..index] + s.pending[index + 1..];
      RemovalKeepsOrder(s.pending, index);
    }
  }

  /** One event keeps pending in submission order, provided a submission
      carries a number above every pending one. */
  lemma ApplyKeepsOrder(s: State, e: Event, parse: NodeID -> int)
    requires Ordered(s.pending)
    requires e.Queued? ==> forall x :: x in s.pending ==> x.number < e.number
    ensures Ordered(Apply(s, e, parse).pending)
  {
    match e
    case Queued(id, number, prompt, extraData, now) =>
      assert forall i :: 0 <= i < |s.pending| ==> s.pending[i] in s.pending;
    case Executing(id, node, now) => ExecutingKeepsOrder(s, id, node, parse, now);
    case Cached(id, nodes, now) => CachedKeepsOrder(s, id, nodes, now);
    case Failed(id, message, now) => FailedKeepsOrder(s, id, message, now);
    case Executed(id, node, output) => OnExecutedKeepsNumbers(s, id, node, output);
    case ProgressChanged(p) =>
    case StatusChanged(st) =>
  }

  lemma ExecutingKeepsOrder(s: State, id: Option<PromptID>, node: Option<NodeID>, parse: NodeID -> int, now: Time)
    requires Ordered(s.pending)
    ensures Ordered(ExecutingUpdated(s, id, node, parse, now).pending)
  {
    if node.None? && id.Some? {
      var found := FindEntryInPending(s, id.value);
      if found.Found? && found.entry.Some? {
        MoveKeepsOrder(s, found.index, found.queue, Success, None, now);
      }
    }
  }


  lemma CachedKeepsOrder(s: State, id: PromptID, nodes: seq<NodeID>, now: Time)
    requires Ordered(s.pending)
    ensures Ordered(ExecutionCached(s, id, nodes, now).pending)
  {
    var found := FindEntryInPending(s, id);
    if found.Found? && found.entry.Some? {
      MoveKeepsOrder(s, found.index, found.queue, AllCached, None, now);
    }
  }

  lemma FailedKeepsOrder(s: State, id: PromptID, message: string, now: Time)
    requires Ordered(s.pending)
    ensures Ordered(ExecutionError(s, id, message, now).pending)
  {
    var found := FindEntryInPending(s, id);
    if found.Found? && found.entry.Some? {
      MoveKeepsOrder(s, found.index, found.queue, Error, Some(message), now);
    }
  }

  // ---------------------------------------------------------------------
  // The invariant over runs of events

  ghost predicate WellFormed(s: State) {
    UniqueIds(s) && Ordered(s.pending)
  }

  /** A submission brings a new id and a number above every pending one. */
  predicate Admissible(s: State, e: Event) {
    e.Queued? ==> e.promptID !in AllIds(s) && forall x :: x in s.pending ==> x.number < e.number
  }

  predicate AdmissibleRun(s: State, es: seq<Event>, parse: NodeID -> int)
    decreases |es|
  {
    |es| == 0 || (Admissible(s, es[0]) && AdmissibleRun(Apply(s, es[0], parse), es[1..], parse))
  }

  lemma ApplyKeepsWellFormed(s: State, e: Event, parse: NodeID -> int)
    requires WellFormed(s) && Admissible(s, e)
    ensures WellFormed(Apply(s, e, parse))
  {
    ApplyIds(s, e, parse);
    ApplyKeepsOrder(s, e, parse);
    var r := Apply(s, e, parse);
    forall id ensures AllIds(r)[id] <= 1 {
      assert AllIds(s)[id] <= 1;
    }
  }

  /** Mutual exclusion and order preservation: from a well-formed state,
      any admissible sequence of events leaves each prompt id in at most
      one place and pending in submission order. */
  lemma {:induction false} RunKeepsWellFormed(s: State, es: seq<Event>, parse: NodeID -> int)
    requires WellFormed(s) && AdmissibleRun(s, es, parse)
    ensures WellFormed(Run(s, es, parse))
    decreases |es|
  {
    if |es| > 0 {
      ApplyKeepsWellFormed(s, es[0], parse);
      RunKeepsWellFormed(Apply(s, es[0], parse), es[1..], parse);
    }
  }

  // ---------------------------------------------------------------------
  // Misses and the completion scenario

  /** An error for a prompt that is not pending is dropped: only progress
      and the running node are cleared. */
  lemma OrphanErrorDropped(s: State, id: PromptID, message: string, now: Time)
    requires forall e :: e in s.pending ==> e.promptID != id
    ensures ExecutionError(s, id, message, now) == s.(progress := None, runningNodeID := None)
  {
    LookupIgnoresRunning(s, id);
  }

  /** A cached notice for a prompt that is not pending is dropped: only
      progress and the running node are cleared. */
  lemma OrphanCachedDropped(s: State, id: PromptID, nodes: seq<NodeID>, now: Time)
    requires forall e :: e in s.pending ==> e.promptID != id
    ensures ExecutionCached(s, id, nodes, now) == s.(progress := None, runningNodeID := None)
  {
    LookupIgnoresRunning(s, id);
  }

  /** Submit "p1" to an empty store, start node "n1", then report "p1"
      finished: as written, "p1" is at index 0 of pending and the lookup
      misses it, so it stays queued and nothing is completed. */
  lemma NormalCompletionAsWritten(parse: NodeID -> int, t0: Time, t1: Time, t2: Time)
    ensures var s1 := AfterQueued(Initial, "p1", 0, map[], JNull, t0);
      var s2 := ExecutingUpdated(s1, None, Some("n1"), parse, t1);
      var s3 := ExecutingUpdated(s2, Some("p1"), None, parse, t2);
      s3.pending == s1.pending && s3.completed == []
  {
    var s1 := AfterQueued(Initial, "p1", 0, map[], JNull, t0);
    var s2 := ExecutingUpdated(s1, None, Some("n1"), parse, t1);
    LookupMissesPendingHead(s2, "p1");
  }

  /** Submit "p2" to an empty store with a two-node prompt, then report
      both nodes cached: as written, "p2" heads pending and the lookup
      misses it, so the full cache hit is lost and "p2" stays queued. */
  lemma FullCacheHitAsWritten(t0: Time, t1: Time)
    ensures var prompt := map["n1" := JNull, "n2" := JNull];
      var s1 := AfterQueued(Initial, "p2", 1, prompt, JNull, t0);
      var s2 := ExecutionCached(s1, "p2", ["n1", "n2"], t1);
      s2.pending == s1.pending && s2.completed == []
  {
    var prompt := map["n1" := JNull, "n2" := JNull];
    var s1 := AfterQueued(Initial, "p2", 1, prompt, JNull, t0);
    LookupMissesPendingHead(s1, "p2");
  }

  /** Finishing a prompt through the corrected lookup: the entry, wherever
      it is, moves to completed with the given status. */
  function FinishLocated(s: State, id: PromptID, status: Status, error: Option<string>, now: Time): (r: State)
    ensures Locate(s, id).None? ==> r == s
    ensures Locate(s, id).Some? ==>
      var loc := Locate(s, id).value;
      r == MoveToCompleted(s, loc.index, loc.queue, status, error, now)
  {
    Finish(s, LocateLookup(s, id), status, error, now)
  }

  /** The same scenario with the corrected lookup: pending ends empty and
      completed holds "p1" as a success. */
  lemma NormalCompletionWithLocate(parse: NodeID -> int, t0: Time, t1: Time, t2: Time)
    ensures var s1 := AfterQueued(Initial, "p1", 0, map[], JNull, t0);
      var s2 := ExecutingUpdated(s1, None, Some("n1"), parse, t1);
      var s3 := FinishLocated(s2, "p1", Success, None, t2).(progress := None, runningNodeID := None);
      s3.pending == [] && |s3.completed| == 1
      && s3.completed[0].entry.promptID == "p1" && s3.completed[0].status == Success
  {
    var s1 := AfterQueued(Initial, "p1", 0, map[], JNull, t0);
    var s2 := ExecutingUpdated(s1, None, Some("n1"), parse, t1);
    assert s2.pending[0].promptID == "p1";
    assert Locate(s2, "p1") == Some(Location(Pending, 0));
  }
}
