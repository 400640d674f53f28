# ComfyBox queue store and PNG metadata reader, in Dafny

This project models two parts of the ComfyBox web front end and proves properties about them.

**The queue state store** (`src/lib/stores/queueState.ts`). The client keeps three lists of jobs:
- running;
- pending, in submission order;
- completed.

It also keeps three scalars: the remaining queue depth, the id of the node that is executing, and the current progress. The store takes in two kinds of input:
- full snapshots from the backend (queue, history, status);
- incremental notifications: a job queued, a node started, a job finished, cached or failed, an output produced, progress made.

Each handler becomes three things:
- a pure transition on a `State` value (module `QueueModel`);
- a method of the class `QueueStore.QueueStore`, which updates the store's fields in place and is proved to produce exactly that transition;
- lemmas about sequences of events (module `QueueProperties`): completed only grows at its end, each prompt id is held in at most one place, and pending stays in submission order.

**The PNG `tEXt` reader and the A1111 helpers** (`src/lib/pnginfo.ts`). `getPngMetadata` checks the first four bytes of the PNG signature. It then walks the chunk stream (PNG Specification, Second Edition, section 5.3). It collects each `tEXt` chunk's keyword and text (section 11.3.4.3) into a dictionary.

Module `PngInfo` holds two things:
- the walk as a recursive function;
- the loop as the source runs it, as a method proved equal to that function.

It also holds an independent description of the walk: the list of chunk headers it visits, and a fold over them. Module `A1111` holds the pure helpers of `importA1111`:
- the options line;
- the prompt split;
- `ceil64`;
- `popOpt`;
- the sampler-name rewriting.

Module `Js` states the JavaScript built-ins these rely on, as they behave for the arguments passed: `split`, `trim`, `lastIndexOf`, `substring`, `slice`, `replace`, and property assignment on a plain object.

Points of the code that a reader might not expect, which the model follows as written:
- `executionCached` compares the number of cached nodes with the number of keys of the entry's `prompt` (queueState.ts:181), not with the entry's expected output steps (`goodOutputs`).
- Only `executingUpdated`, `executionCached` and `executionError` clear `progress` (queueState.ts:156, 188, 204). `runningNodeID` is reset to null only by a finish notice of `executingUpdated` (a prompt id without a node id, queueState.ts:169-170) and by `executionCached` and `executionError` (queueState.ts:189, 205). `afterQueued`, `onExecuted`, `queueUpdated`, `historyUpdated`, `progressUpdated` and `statusUpdated` leave the running node as it was.
- A job at the head of pending is not found by the lookup of `executingUpdated`, `executionCached`, `executionError` and `onExecuted`, so a job submitted to an empty store is never moved to completed by these handlers: see Findings.
- The negative prompt starts at `p2 + 18`, where `p2` is the index of the 17-character marker "\nNegative prompt:". The character at `p2 + 17`, just after the marker, is skipped unseen; the web UI writes a space there (pnginfo.ts:82).

The full snapshots (`queueUpdated`, `historyUpdated`) are taken as the backend sends them. They are not events of `QueueProperties.Apply`, and a snapshot may break the unique-id invariant (for instance a history that repeats an id still pending). The `RunKeeps*` lemmas are about sequences of incremental notifications, starting from any state that already satisfies the invariant.

## Model

| member | source | states |
|---|---|---|
| QueueModel.ToQueueEntry | src/lib/stores/queueState.ts:65-77 | the entry keeps the whole submission tuple (number, id, prompt, extra data, good outputs) and starts with no timestamps and no outputs |
| QueueModel.ToCompletedQueueEntry | src/lib/stores/queueState.ts:79-87 | the entry keeps the submission and the history outputs; status is Success iff the output map is non-empty and AllCached iff it is empty; error is null |
| QueueModel.QueueUpdated | src/lib/stores/queueState.ts:89-97 | running and pending become the element-wise entry images of the snapshot lists, in order; queueRemaining is the pending length; completed, node id and progress are unchanged |
| QueueModel.HistoryUpdated | src/lib/stores/queueState.ts:99-106 | completed is replaced wholesale by the converted history values, in order; nothing else changes |
| QueueModel.ProgressUpdated | src/lib/stores/queueState.ts:108-114 | progress is set and no other field changes |
| QueueModel.StatusUpdated | src/lib/stores/queueState.ts:116-123 | a null status changes nothing; otherwise only queueRemaining changes, to the reported value |
| QueueModel.FindIndex | src/lib/stores/queueState.ts:127 | the index of the first entry with the id, or -1 when no entry has it |
| QueueModel.FindEntryInPending | src/lib/stores/queueState.ts:125-136 | a pending index other than 0 is returned with its (possibly undefined) entry; a pending index 0 falls through to running, where any index but 0 is returned; null iff the id heads both lists; a returned entry is never at index 0 |
| QueueModel.LookupHitIff | src/lib/stores/queueState.ts:125-136 | an entry comes back iff the first pending occurrence is past the head, or the id heads pending and its first running occurrence is past the head |
| QueueModel.LookupIgnoresRunning | src/lib/stores/queueState.ts:127-129 | an id absent from pending yields (-1, undefined, pending): running is never searched |
| QueueModel.LookupMissesPendingHead | src/lib/stores/queueState.ts:127-133 | an id heading pending and absent from running yields (-1, undefined, running) although it is queued |
| QueueModel.Locate | src/lib/stores/queueState.ts:125-136 | corrected lookup: nothing iff the id is in neither list; otherwise the first occurrence, in pending before running, index 0 included |
| QueueModel.LocateLookup | src/lib/stores/queueState.ts:125-136 | the corrected lookup in the handlers' triple shape: an entry iff Locate finds one, and it is the one at the index |
| QueueModel.LocateAgreesOnPendingHits | src/lib/stores/queueState.ts:127-129 | wherever the written lookup returns a pending entry, the corrected one returns the same triple |
| QueueModel.MoveToCompleted | src/lib/stores/queueState.ts:138-151 | exactly element `index` leaves the queue, the others keep their order, the other queue is unchanged, and the entry stamped finished-now is appended to completed, whose earlier entries are kept |
| QueueModel.Finish | src/lib/stores/queueState.ts:163-165 | a lookup without an entry changes nothing; one with an entry moves it to completed |
| QueueModel.ExecutingUpdated | src/lib/stores/queueState.ts:153-174 | progress is always cleared; a node id only sets the running node; a prompt id moves a found entry to completed as Success and resets the running node; a null lookup throws after progress was cleared |
| QueueModel.ExecutionCached | src/lib/stores/queueState.ts:176-192 | the found entry moves as AllCached only when at least as many nodes are cached as its prompt has keys; progress and node id are cleared even on a miss; a null lookup changes nothing |
| QueueModel.ExecutionError | src/lib/stores/queueState.ts:194-208 | the found entry moves as Error with the message; progress and node id are cleared even on a miss; a null lookup changes nothing |
| QueueModel.NewEntry | src/lib/stores/queueState.ts:213-222 | the entry carries the given id, number, prompt and extra data, queued now, not finished, with no good outputs and no outputs |
| QueueModel.AfterQueued | src/lib/stores/queueState.ts:210-226 | exactly one new entry is appended at the end of pending; earlier pending entries and every other field are unchanged |
| QueueModel.OnExecuted | src/lib/stores/queueState.ts:228-241 | the found entry's outputs get `nodeID := output`, in place in its queue; a miss changes nothing |
| QueueProperties.QueueUpdatedIdempotent | src/lib/stores/queueState.ts:89-97 | applying the same queue snapshot twice equals applying it once |
| QueueProperties.QueueUpdatedAuthoritative | src/lib/stores/queueState.ts:92-93 | the lists after a snapshot do not depend on the state before it |
| QueueProperties.HistoryUpdatedIdempotent | src/lib/stores/queueState.ts:99-106 | applying the same history snapshot twice equals applying it once |
| QueueProperties.ApplyKeepsCompleted | src/lib/stores/queueState.ts:144-148 | one event keeps completed as a prefix and adds at most one entry |
| QueueProperties.RunKeepsCompleted | src/lib/stores/queueState.ts:144-148 | any sequence of events, applied one by one through `Apply` (`Run`), which dispatches each notification to its handler, keeps the earlier completed entries and adds at most one per event |
| QueueProperties.IdsSplit | src/lib/stores/queueState.ts:143 | splicing element i out of a list removes exactly that id from its multiset of ids |
| QueueProperties.MoveKeepsIds | src/lib/stores/queueState.ts:138-151 | moving an entry to completed keeps the multiset of ids held by the store |
| QueueProperties.OnExecutedKeepsIds | src/lib/stores/queueState.ts:228-241 | recording an output keeps the multiset of ids |
| QueueProperties.ExecutingKeepsIds | src/lib/stores/queueState.ts:153-174 | a node-start or finish notice keeps the multiset of ids |
| QueueProperties.CachedKeepsIds | src/lib/stores/queueState.ts:176-192 | a cached notice keeps the multiset of ids |
| QueueProperties.FailedKeepsIds | src/lib/stores/queueState.ts:194-208 | an error notice keeps the multiset of ids |
| QueueProperties.ApplyIds | src/lib/stores/queueState.ts:153-241 | a submission adds its id once; every other event keeps the multiset of ids |
| QueueProperties.OnExecutedKeepsNumbers | src/lib/stores/queueState.ts:233 | recording an output keeps the pending submission numbers |
| QueueProperties.RemovalKeepsOrder | src/lib/stores/queueState.ts:143 | splicing one element out keeps a list in submission order |
| QueueProperties.MoveKeepsOrder | src/lib/stores/queueState.ts:138-151 | moving an entry keeps pending in submission order |
| QueueProperties.ExecutingKeepsOrder | src/lib/stores/queueState.ts:153-174 | a node-start or finish notice keeps pending in submission order |
| QueueProperties.CachedKeepsOrder | src/lib/stores/queueState.ts:176-192 | a cached notice keeps pending in submission order |
| QueueProperties.FailedKeepsOrder | src/lib/stores/queueState.ts:194-208 | an error notice keeps pending in submission order |
| QueueProperties.ApplyKeepsOrder | src/lib/stores/queueState.ts:153-241 | one event keeps pending in submission order when a submission's number exceeds every pending one |
| QueueProperties.ApplyKeepsWellFormed | src/lib/stores/queueState.ts:153-241 | one admissible event keeps ids unique and pending ordered |
| QueueProperties.RunKeepsWellFormed | src/lib/stores/queueState.ts:153-241 | any admissible sequence of incremental events, applied through `Run` and `Apply`, keeps each id in at most one place and pending in submission order |
| QueueProperties.OrphanErrorDropped | src/lib/stores/queueState.ts:194-208 | an error for an id not in pending only clears progress and the running node |
| QueueProperties.OrphanCachedDropped | src/lib/stores/queueState.ts:176-192 | a cached notice for an id not in pending only clears progress and the running node |
| QueueProperties.NormalCompletionAsWritten | src/lib/stores/queueState.ts:160-171 | submitting p1 to an empty store, starting n1 and finishing p1 leaves p1 in pending and completed empty |
| QueueProperties.FullCacheHitAsWritten | src/lib/stores/queueState.ts:176-184 | submitting p2 with two nodes and reporting both cached leaves p2 in pending and completed empty |
| QueueProperties.FinishLocated | src/lib/stores/queueState.ts:160-165 | finishing through the corrected lookup moves the located entry, and changes nothing when there is none |
| QueueProperties.NormalCompletionWithLocate | src/lib/stores/queueState.ts:160-171 | with the corrected lookup the same scenario empties pending and completes p1 as Success |
| QueueStore.QueueStore.constructor | src/lib/stores/queueState.ts:56-63 | the store starts with empty lists and null scalars |
| QueueStore.QueueStore.QueueUpdated | src/lib/stores/queueState.ts:89-97 | the fields become the QueueModel.QueueUpdated state of the old fields |
| QueueStore.QueueStore.HistoryUpdated | src/lib/stores/queueState.ts:99-106 | the fields become the QueueModel.HistoryUpdated state of the old fields |
| QueueStore.QueueStore.ProgressUpdated | src/lib/stores/queueState.ts:108-114 | the fields become the QueueModel.ProgressUpdated state of the old fields |
| QueueStore.QueueStore.StatusUpdated | src/lib/stores/queueState.ts:116-123 | the fields become the QueueModel.StatusUpdated state of the old fields |
| QueueStore.QueueStore.MoveToCompleted | src/lib/stores/queueState.ts:138-151 | splice and push in place give the QueueModel.MoveToCompleted state |
| QueueStore.QueueStore.ExecutingUpdated | src/lib/stores/queueState.ts:153-174 | throws iff no node id is given, a prompt id is, and the lookup is null; the fields become the QueueModel.ExecutingUpdated state |
| QueueStore.QueueStore.ExecutionCached | src/lib/stores/queueState.ts:176-192 | throws iff the lookup is null; the fields become the QueueModel.ExecutionCached state |
| QueueStore.QueueStore.ExecutionError | src/lib/stores/queueState.ts:194-208 | throws iff the lookup is null; the fields become the QueueModel.ExecutionError state |
| QueueStore.QueueStore.AfterQueued | src/lib/stores/queueState.ts:210-226 | the push onto pending gives the QueueModel.AfterQueued state |
| QueueStore.QueueStore.OnExecuted | src/lib/stores/queueState.ts:228-241 | throws iff the lookup is null; the in-place output write gives the QueueModel.OnExecuted state |
| PngInfo.KeywordEnd | src/lib/pnginfo.ts:45-48 | the first zero byte at or after the data start, or nothing when the buffer has none |
| PngInfo.KeywordEndAt | src/lib/pnginfo.ts:45-48 | a position preceded only by non-zero bytes and holding a zero (or the end) is the scan's result |
| PngInfo.Latin1 | src/lib/pnginfo.ts:49 | one character per byte, with the byte's code |
| PngInfo.U32 | src/lib/pnginfo.ts:40 | the big-endian word read at an offset is below 2^32 |
| PngInfo.HeaderAt | src/lib/pnginfo.ts:40-42 | the header at an offset holds the big-endian length word there; a tEXt type implies all four type bytes are in the buffer |
| PngInfo.TextEntry | src/lib/pnginfo.ts:45-51 | a tEXt body yields no entry exactly when no zero byte follows the data start anywhere in the buffer |
| PngInfo.AddChunk | src/lib/pnginfo.ts:42-53 | a chunk only adds keys to the dictionary; it stops the walk only when it is a tEXt chunk, and then at its own offset |
| PngInfo.Walk | src/lib/pnginfo.ts:35-58 | a failed read of a length word happens at or after the start offset with fewer than four bytes left; an unterminated keyword is reported at or after the start offset, for a chunk whose type lies in the buffer |
| PngInfo.Continue | src/lib/pnginfo.ts:38-56 | after a stored chunk the walk goes on strictly past its offset, so any failure it reports lies beyond it; an unterminated chunk is reported at its own offset |
| PngInfo.PngMetadata | src/lib/pnginfo.ts:27-58 | a failed read always means fewer than four bytes were left at the reported offset; an unterminated keyword lies past the signature and inside the buffer |
| PngInfo.ReadText | src/lib/pnginfo.ts:45-51 | the keyword scan and the two slices give TextEntry: nothing when the keyword never ends, otherwise the keyword up to the first zero byte and the text from that byte + 1 to offset + 8 + length |
| PngInfo.ScanKeyword | src/lib/pnginfo.ts:45-48 | the loop finds KeywordEnd, and reports the unbounded scan of the source as no result |
| PngInfo.ReadChunk | src/lib/pnginfo.ts:40-53 | one loop body computes AddChunk of the header at the offset: a non-tEXt chunk leaves the dictionary alone, a tEXt chunk stores its entry or is unterminated |
| PngInfo.ReadChunks | src/lib/pnginfo.ts:35-58 | the chunk loop from offset 8 with an empty dictionary returns Walk of the bytes, chunk by chunk, 12 + length bytes apart |
| PngInfo.GetPngMetadata | src/lib/pnginfo.ts:27-58 | the loops return PngMetadata of the bytes: NotPng, the dictionary, or the offset where a read fails or a keyword scan never stops |
| PngInfo.SignatureBytes | src/lib/pnginfo.ts:28 | the signature word equals 0x89504e47 iff the first four bytes are 89 50 4E 47 |
| PngInfo.NoTextWithoutSignature | src/lib/pnginfo.ts:27-32 | the result is NotPng iff there are four bytes that differ from 89 50 4E 47, and then no dictionary is produced |
| PngInfo.WalkNeverNotPng | src/lib/pnginfo.ts:35-58 | past the signature check the walk never reports NotPng |
| PngInfo.LayoutHeader | src/lib/pnginfo.ts:38-42 | every visited header lies at or after the start (the first one at the start), its length word is read inside the buffer, and it is the header found at its own offset |
| PngInfo.LayoutStep | src/lib/pnginfo.ts:55 | each visited header after the first is 12 + length bytes past the previous one |
| PngInfo.ChunkLayoutTruncation | src/lib/pnginfo.ts:38-40 | the walk fails for want of a length word only at an offset inside the buffer with fewer than four bytes left |
| PngInfo.LayoutOffsetsIncrease | src/lib/pnginfo.ts:55 | visited offsets strictly increase, by at least 12 per step |
| PngInfo.WalkIsLayoutFold | src/lib/pnginfo.ts:35-58 | the one-pass walk equals folding AddChunk over the chunk layout (`Collect` over `ChunkLayout`, whose shape LayoutHeader, LayoutStep and ChunkLayoutTruncation state), followed by its truncation error |
| PngInfo.CollectAppend | src/lib/pnginfo.ts:38-56 | folding one more chunk applies AddChunk to the previous dictionary |
| PngInfo.OtherChunksIgnored | src/lib/pnginfo.ts:43 | removing a non-tEXt chunk from anywhere in the list does not change the result |
| PngInfo.LastTextChunkWins | src/lib/pnginfo.ts:52 | after a tEXt chunk is folded last, its keyword (unless "__proto__") holds its text, whatever earlier chunks stored |
| PngInfo.CollectKeys | src/lib/pnginfo.ts:43-53 | every key of the dictionary was there before or is the keyword of some tEXt chunk |
| PngInfo.Collect | src/lib/pnginfo.ts:38-56 | folding chunks only adds keys to the dictionary |
| A1111.ParseOptionFails | src/lib/pnginfo.ts:75-76 | a piece throws iff it has no colon |
| A1111.ParseOptionFields | src/lib/pnginfo.ts:75-76 | the key is the trimmed, lower-cased text before the first colon; the value is the trimmed text up to the next colon, and anything after a second colon is dropped |
| A1111.ParseOption | src/lib/pnginfo.ts:75-76 | neither the parsed key nor the parsed value contains a colon |
| A1111.Fold | src/lib/pnginfo.ts:74-78 | a throw is reported at one of the pieces folded so far; "__proto__" never becomes an option |
| A1111.ReduceOptions | src/lib/pnginfo.ts:71-78 | a throw is reported at one of the pieces; "__proto__" never becomes an option |
| A1111.FoldFailsAtFirst | src/lib/pnginfo.ts:74-78 | the fold throws iff some piece did not parse, and then at the first such piece |
| A1111.FoldLastWins | src/lib/pnginfo.ts:74-78 | the fold's keys are exactly the parsed keys other than "__proto__", each holding the value of the last piece with that key |
| A1111.ReduceFailsAtFirstMalformed | src/lib/pnginfo.ts:71-78 | the options reduce throws iff some comma piece has no colon, and then at the first such piece |
| A1111.ReduceLastDuplicateWins | src/lib/pnginfo.ts:71-78 | every key of a well-formed piece except "__proto__" is an option, there are no others, and each holds the value of the last piece with that key |
| A1111.ParseParameters | src/lib/pnginfo.ts:68-82 | nothing happens exactly when the text contains no "\nSteps:"; the options it returns never hold "__proto__" |
| A1111.ParametersLayout | src/lib/pnginfo.ts:68-82 | the options start at the last "\nSteps:"; the negative marker is the last one at or before it and ends no later; positive is the trimmed text before the marker; negative is the trimmed text from p2 + 18 to p, and empty when the marker ends exactly at "\nSteps:" |
| A1111.MarkersApart | src/lib/pnginfo.ts:79-82 | a "\nNegative prompt:" starting at or before a "\nSteps:" ends before it, so p2 + 17 <= p |
| A1111.SkippedCharacterIsHarmless | src/lib/pnginfo.ts:82 | when the character after "Negative prompt:" is white space, skipping it does not change the negative prompt |
| A1111.Ceil64 | src/lib/pnginfo.ts:95 | a multiple of 64 that is at least v and less than v + 64, so the least such multiple |
| A1111.OptionBag.constructor | src/lib/pnginfo.ts:71-78 | the bag holds the given dictionary |
| A1111.OptionBag.PopOpt | src/lib/pnginfo.ts:160-164 | returns the stored value or undefined, and the key is gone afterwards with every other option kept |
| A1111.SamplerBase | src/lib/pnginfo.ts:199 | the lower-cased name with its first "++" turned into "pp", of the same length, with every space turned into an underscore and every other character kept |
| A1111.NormalizeSampler | src/lib/pnginfo.ts:199-205 | the scheduler is Karras iff the rewritten name contains "karras"; a Karras name is the rewritten name with its first "karras" removed, cut before a run of underscores that reaches the end, and has no trailing underscore; a normal name is the rewritten name; no name contains a space |
| A1111.NormalizeSamplerFixes | src/lib/pnginfo.ts:199-205 | a lower-case name without spaces, "++" or "karras" comes through unchanged with the normal scheduler |
| A1111.FindSampler | src/lib/pnginfo.ts:207 | the first option value equal to the name or to "sample_" + name, or -1 when none is |
| A1111.ChosenSampler | src/lib/pnginfo.ts:206-210 | the widget is set exactly to the value where the `find` stops, when that value exists and is non-empty, so a listed value matching the name; for a non-empty name, nothing is set only when no value matches |
| Js.SetProperty | src/lib/pnginfo.ts:52 | assignment on a plain object adds or overwrites the key, except that "__proto__" adds no own key; other keys keep their values |
| Js.Slice | src/lib/pnginfo.ts:42 | the clamped slice: its length and its elements |
| Js.TrimEnds | src/lib/pnginfo.ts:76 | the trimmed string has no white space at either end |
| Js.Trim | src/lib/pnginfo.ts:76-82 | the trimmed string is no longer than the original |
| Js.TrimIsInfix | src/lib/pnginfo.ts:76 | the trimmed string is the contiguous piece s[lo..hi] of the original, for some lo <= hi, and everything outside it is white space |
| Js.TrimKeepsOut | src/lib/pnginfo.ts:76 | trimming brings in no character that the original lacks |
| Js.TrimKeepsText | src/lib/pnginfo.ts:76 | every character that is not white space survives trimming |
| Js.Split | src/lib/pnginfo.ts:73 | at least one piece, and no piece contains the separator |
| Js.ToLower | src/lib/pnginfo.ts:199 | the same length, each character mapped to its lower-case form |
| Js.SplitAt | src/lib/pnginfo.ts:75 | split cuts at the first separator and splits the rest again |
| Js.JoinSplit | src/lib/pnginfo.ts:73 | joining the pieces with the separator gives back the string |
| Js.LastIndexOf | src/lib/pnginfo.ts:68 | the last occurrence at or before the start position, or -1 when there is none |
| Js.IndexOf | src/lib/pnginfo.ts:200 | the first occurrence, or -1 when there is none |
| Js.ReplaceFirst | src/lib/pnginfo.ts:201 | only the first occurrence is replaced; no occurrence leaves the string unchanged |
| Js.ReplaceFirstKeepsOut | src/lib/pnginfo.ts:201 | a character found in neither the string nor the replacement is not in the result |
| Js.ReplaceAllChar | src/lib/pnginfo.ts:199 | every space becomes an underscore and every other character stays |
| Js.StripTrailing | src/lib/pnginfo.ts:201 | drops exactly the trailing run of underscores |
| Js.Substring | src/lib/pnginfo.ts:82 | in-range bounds give the piece between them, swapped when the start exceeds the end; a bound past the end is clamped to the length |

## Left out

- `src/lib/nodes/ComfyBackendNode.ts` is not part of this model. It builds widgets and slots through LiteGraph, a library this model cannot see.
- The `FileReader`, `Promise` and `cancel` wrapper of `getPngMetadata` (pnginfo.ts:4-22, 59-61) is asynchronous browser I/O. The model starts from the file's bytes. `r()` with no argument becomes `NotPng`; an exception becomes `ReadPastEnd`.
- `PngInfo.GetPngMetadata`: where the source's keyword scan runs forever (no zero byte before the end of the buffer), the model stops and returns `UnterminatedKeyword`.
- The graph that `importA1111` builds is left out: node creation, connections, widget setters, the handler dispatch over `opts`, and the deletion of "model hash" and "ensd". These are calls into LiteGraph.
- `api.getEmbeddings` (network) and `replaceEmbeddings` (regular-expression construction) are left out.
- LoRA extraction, the hires upscale arithmetic and the `+v` numeric coercions are floating point and regular-expression work, and are left out.
- `A1111.Ceil64`: stated for natural numbers only. `Math.ceil` on fractional or negative sizes is floating point.
- `A1111.OptionBag.PopOpt`: a name inherited from `Object.prototype` (such as "constructor") would read the inherited property. The callers pass only option names, and the model reads own keys only.
- `Js.ToLower` covers the ASCII letters only. `toLowerCase` on other scripts is not modelled.
- The argument-count limit of `String.fromCharCode(...bytes)` on very large chunks is not modelled.
- Svelte stores (`writable`, `get`, `update`, subscriber notification) are left out. Each handler is one sequential update of the class's fields.
- `console` logging is left out. A logged miss is a state left unchanged, as the source leaves it.
- `new Date()` is a parameter `now`. `parseInt` of the node id is a parameter `parse`.
- Entries are values. The source shares entry objects between lists and mutates them in place (`finishedAt`, `outputs`). No aliasing between lists arises in the modelled operations.
- The history response is a JSON object. The model takes its values as a sequence in enumeration order.
- `queueRemaining` may hold "X" in the source's type, but nothing here writes it. The model uses an optional integer.

## Findings

| source | as written | input that shows it | evidently intended | confidence | as-written member | corrected member |
|---|---|---|---|---|---|---|
| src/lib/stores/queueState.ts:127-133 | `if (index)` tests the index found by `findIndex` for truthiness. A job at index 0 is treated as not found. The miss value -1 is truthy, so it returns an undefined entry and running is never searched. | Submit "p1" to an empty store, start node "n1", then report "p1" finished. "p1" stays in pending and nothing completes. Submitting "p2" and caching both of its nodes likewise completes nothing. | Test `index >= 0`. Search pending, then running, and treat index 0 as a hit. | not executed | QueueProperties.NormalCompletionAsWritten | QueueProperties.NormalCompletionWithLocate |

The event handlers keep the lookup as written, `QueueModel.FindEntryInPending`, because that is what the client does. The corrected lookup is `QueueModel.Locate`, with `QueueModel.LocateLookup` in the handlers' shape, and `QueueProperties.FinishLocated` finishes a job through it. `QueueModel.LookupMissesPendingHead` and `QueueProperties.FullCacheHitAsWritten` exhibit the same defect.
