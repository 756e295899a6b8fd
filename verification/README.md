# Verified models of KPilot's protocols and accumulators

KPilot is a server that manages Kubernetes clusters through workers, one per
cluster, over multiplexed byte streams. This project models the parts of it that
carry state, protocols or arithmetic, and proves what they are for:

| file | what it models |
|---|---|
| LogRing.dfy | the log ring buffer of a process and its HTTP page |
| LogShipping.dfy, LogDraining.dfy, LogStandstill.dfy, LogsPoller.dfy | shipping those logs into the keyed `system_logs` table: a protocol of writer, network, poller and database, how fast it drains, what a failed lookup does to it, and the poller object itself |
| ProtoWire.dfy, Framing.dfy, SessionStreams.dfy | the Protocol Buffers wire format, length-prefixed frames, the zero-message sentinels that let two message types share a stream, and the pod log copier on a stream that may break at any byte |
| GzipCodec.dfy | the codec with its compressor and lazily set up decompressor |
| ExecInput.dfy | keystrokes and resizes on one stream without a tag |
| RpcExchange.dfy | one buffered request and response as two programs over two bounded channels |
| PluginFingerprint.dfy, PluginLifecycle.dfy, PluginMove.dfy, PluginGate.dfy, PluginRest.dfy, PluginPhases.dfy, PluginReconciler.dfy | the attempt fingerprint, one Plugin object between commands, reconciler, crashes and Helm, what moving its release leaves behind, when its gate can be trusted and when it comes to rest, what its status tells and sends, and the reconciler object |
| PluginRows.dfy | the server's table of plugins per cluster under late and repeated status pushes |
| PluginLogHub.dfy, PluginLogViews.dfy | the install-log buffer and its live viewers, and what these are shown |
| WorkerRegistry.dfy | the registry of connected workers |
| UsageScanner.dfy | the token counter behind a chunked inference response |
| PagedList.dfy | the list hook of the web console under out-of-order responses |
| Percentiles.dfy | latency percentiles from power-of-two buckets and from runtime histograms |
| VGpu.dfy | decoding, layering and summing of vGPU assignments |
| Sequences.dfy, Text.dfy, Wrappers.dfy | what several of them share |

Code that changes state step by step is a class or a loop proved against a
specification function; what is promised is then proved about that function, or
about every run of a state machine. Wherever the code meets a promise only under
a condition, the condition is stated and proved exact, or a run that breaks it is
given.

## Assumptions

- A ring write is one step, although the sequence number is taken just before the lock.
- A database transaction is one step, and an insert that fails writes nothing.
- Each node has one poll loop. A worker boots with its counter above every number
  it used before, and counters stay below 2^64.
- Reconciles of one object are serial and read their own writes; nobody but the
  reconciler touches the release or the finalizer.
- SHA-256 has no collisions, and canonical JSON reads back as the tree it came from.
- Channels between server and worker keep bytes in order and FIN reads as end of
  file. A window update is immediate, and a compressed byte counts as one unit. The
  trailer is no longer than a flushed header where only the header's room is given.
- Protobuf fields are written in field order, strings are valid UTF-8, and groups do not occur.
- JSON, YAML, charts and page contents are parameters.

## Findings

Where code and comment disagree, the model follows the code.

- `LastSeq` is documented to be 0 for an empty ring; it is the anchor (`LogRing.RingCore.LastSeq`).
- A worker's log page never holds more than the handler's own limit, whatever the poller asks for; draining takes that many polls more (`LogDraining.DrainedExactlyWhen`).
- When the MAX lookup fails after a server restart the next insert can hit the primary key (`LogStandstill.BlindLookupCanCollide`), exactly when some live row is numbered from the oldest retained entry to the last one pulled (`LogStandstill.BlindLookupCollidesIff`). From then on no poll inserts anything until a write, a trim or a restart frees those entries (`LogStandstill.BlindLookupSticks`).
- A cluster listing that fails once makes the poller forget every worker's cursor (`LogsPoller.Poller.ReconcileOnce`).
- `ReadMsg` is documented to make any partial read an error; input that ends right after a complete length prefix passes for a clean end of file (`Framing.FrameCut`, `Framing.PrefixIsSafe`).
- A terminal size reaches the shell as sent exactly when both dimensions are below 65536 (`ExecInput.SizeSurvivesIff`), and the last resize of a burst can be lost with nothing to catch up (`ExecInput.ResizeLandsIff`).
- A buffered exchange can deadlock when the return window is smaller than a flushed gzip header and the request does not fit the other one; the room needed is given exactly (`RpcExchange.RoomIsExactlyEnough`).
- The status write before Helm can let the gate close on a release made from something else: when it is refused over an object that still shows Running for a release at the same place, or when its refetch brings other values, or another place while the tried release is not yet in its own. A run that has gone well so far can be led there if and only if that write is not harmless (`PluginGate.HarmlessIsExact`); both ways happen (`PluginGate.RefetchFoolsGate`, `PluginGate.LostAnnouncementFoolsGate`).
- With nothing queued, the status write that finishes an attempt settles the object if and only if it is not refused (`PluginRest.FinishSettlesIff`); refused, it leaves the object at Installing with nothing to mend it (`PluginRest.LostFinishStrands`). No other write matters for that.
- Uninstalling goes by the present spec, so enabling with another release name or namespace can leave a release without an object: if and only if one stands in the old place or a reconcile is on its way to run Helm there (`PluginMove.MoveOrphansIff`). It happens (`PluginMove.MoveOrphans`).
- The type comment promises that clicking enable again mends a missing local chart. Behind a closed gate, enabling leads to a new attempt if and only if the spec has another fingerprint (`PluginGate.EnableReopensIff`); with the same spec a Failed object stays as it is for good, chart or no chart (`PluginGate.ClosedGateStays`, `PluginGate.MissingChartStays`).
- After a finished uninstall, a status push that carries a phase brings the row back as enabled (`PluginRows.EchoesAfterDisable`).
- A reset frame that meets a full channel is not counted as dropped. A viewer with a counter of zero is right if and only if the last session start since it came did not find its channel full, or the new session fills the buffer (`PluginLogViews.ViewIsRightIff`); a run of 34 steps makes one wrong (`PluginLogHub.ResetLostUncounted`).
- The branch of `unregister` for a replaced worker cannot be taken (`WorkerRegistry.UnregisterFindsItself`).
- `loading` stays set when the list goes unready during a request (`PagedList.LoadingSticks`), and such steps are the only ones that make it wrong (`PagedList.AccurateStaysIff`).
- `total` is documented as the size of the list. The first page that reports what remains, or is the last, misses what stands before it, and every later such page adds all that was not there before it once more; the total is right if and only if the two come to the same (`PagedList.TotalIsRightIff`). A second such page makes it wrong (`PagedList.LoadMoreOvercounts`).
- A second `EnableGzip` after the decompressor has failed starts a second compressor in the middle of the first one's stream, and what that one held is lost (`GzipCodec.Codec.EnableGzip`, `GzipCodec.SecondHeaderStops`).
- The reported latency is within 3/4 and 3/2 of the exact one for 1 up to 2^23 milliseconds and for nothing else; 2^23 ms is about 2.3 hours, not 16 seconds, and bucket 1 is never used (`Percentiles.ReportedIsCloseIff`, `Percentiles.BucketCovers`).

## Model

| member | source | states |
|---|---|---|
| LogRing.RingCore.Write | pkg/log/ring.go:148-180 | appends one record to the history, of which the array with head and count keeps representing the last `cap` entries |
| LogRing.RingCore.Snapshot | pkg/log/ring.go:197-224 | the first `limit` retained entries above `since`, for the empty, the partial and the wrapped ring |
| LogRing.RingCore.LastSeq | pkg/log/ring.go:229-231 | the last number given out, or the anchor when there is none |
| LogRing.ServeLogs | pkg/log/http.go:37-76 | which parameters are refused, and that a reply holds the page after `since` with its own next and head numbers |
| LogRing.StoreKeepsOrder | pkg/log/ring.go:172-178 | one store at the head keeps slots and contents in step whether the ring grows or wraps |
| LogRing.IncreasingFromAnchorIff | pkg/log/ring.go:109-119 | emitted numbers are strictly increasing and above the anchor exactly while the counter has not wrapped at 2^64 |
| LogShipping.StepKeepsInv | pkg/server/diag/logs_poller.go:213-333 | each of writing, restarting, asking, sampling, answering, inserting, settling, forgetting and trimming keeps the protocol's invariant |
| LogShipping.CursorProtocol | pkg/server/diag/logs_poller.go:213-333 | over every run: rows at most at the cursor, no insert hits the key, the regression branch is never taken, and whatever was neither inserted nor retained was lost above the cursor |
| LogShipping.CommittedOnceInOrder | pkg/server/diag/logs_poller.go:256-295 | while the server keeps its cursor, entries are committed in order and once each |
| LogStandstill.BlindLookupCollidesIff | pkg/server/diag/logs_poller.go:301-325 | the poll after a failed MAX lookup hits the key exactly when some live row is numbered from the oldest retained entry to the last one it pulls |
| LogStandstill.BlindLookupSticks | pkg/server/diag/logs_poller.go:256-325 | after such a hit the cursor stays 0 and rows and inserted entries stay as they are over any run of further polls, until a write, a trim or a restart frees the oldest entries |
| LogStandstill.BlindLookupCanCollide | pkg/server/diag/logs_poller.go:301-325 | a run that ends in such a collision |
| LogDraining.OnePollTakesOneBatch | pkg/server/diag/logs_poller.go:256-295 | an undisturbed poll inserts exactly the next batch of unseen entries |
| LogDraining.QuietPollIsARun | pkg/server/diag/logs_poller.go:213-295 | such a poll is the five steps of the protocol, possible wherever the poll loop is idle |
| LogDraining.DrainedExactlyWhen | pkg/server/diag/logs_poller.go:256-295 | with a quiet ring all n unseen entries are inserted, in order and once, after exactly ceil(n / L) polls and not before |
| LogsPoller.PolledIsTheProtocol | pkg/server/diag/logs_poller.go:213-295 | from every idle state, with the MAX lookup answered or failed, an answered poll of the object is the protocol's run of steps; in reachable states with an answered lookup only the database can refuse the insert |
| LogsPoller.FailedPollIsTheProtocol | pkg/server/diag/logs_poller.go:213-227 | a poll whose fetch fails, at either of its two requests, is the protocol's failed fetch: cursor as initialised, rows untouched |
| LogsPoller.Poller.PollOne | pkg/server/diag/logs_poller.go:213-295 | a poll changes the cursor, the failing flag and the rows of its node as the poll function says, and nothing of any other node; a failed fetch leaves an initialised cursor and every row alone |
| LogsPoller.Poller.Cursor | pkg/server/diag/logs_poller.go:301-325 | the cursor is looked up once, and is 0 when the lookup fails |
| LogsPoller.Poller.SetCursor | pkg/server/diag/logs_poller.go:327-333 | the cursor only rises |
| LogsPoller.Poller.ReconcileOnce | pkg/server/diag/logs_poller.go:123-152 | tickers become the listed clusters and the server; the state of the others is forgotten |
| LogsPoller.SystemLogs.BatchInsert | pkg/server/store/system_log.go:122-127 | all rows or none, by the key (node, seq) |
| ProtoWire.UvarintReads | pkg/transport/yamux/codec.go:226-281 | a length below 2^64 reads back from its varint, whatever follows |
| ProtoWire.UvarintOverflows | pkg/transport/yamux/codec.go:274-287 | a length of 2^64 or more is an overflow, whatever follows |
| ProtoWire.OtherWires | pkg/common/proto/v2/pilot.pb.go:1253-1257 | a field of a fixed width is skipped, and one whose wire type is neither varint, bytes nor fixed is refused |
| ProtoWire.MessageRoundTrip | pkg/common/proto/v2/pilot.pb.go:1253-1257 | a marshalled message unmarshals to its fields |
| Framing.FrameCut | pkg/transport/yamux/codec.go:274-293 | a frame cut short is never read as a message; which of the three failures it gives |
| Framing.TooLongIsRefused | pkg/transport/yamux/codec.go:286-288 | a length above the limit is refused before anything of the payload is read |
| Framing.GarbledIsAnError | pkg/server/gateway/stream.go:115-134 | a frame that does not unmarshal is an error, as a chunk and as an end |
| Framing.RoundTripIff | pkg/server/gateway/stream.go:115-134 | chunks followed by sentinel and end arrive as exactly those chunks and that end, if and only if no chunk is itself zero in its discriminator |
| Framing.PrefixIsSafe | pkg/server/gateway/stream.go:115-134 | a proper prefix of the bytes yields exactly the chunks that are whole in it and never an end; for which cuts it looks like an end of file |
| SessionStreams.LogsContract | pkg/server/gateway/stream.go:115-134 | log chunks survive the wire, and are told from the sentinel exactly when they have data |
| SessionStreams.ExecContract | pkg/server/gateway/stream.go:186-205 | the same for exec output and its end, by stream number or data |
| SessionStreams.WSContract | pkg/server/gateway/stream.go:261-280 | the same for WebSocket frames and their end |
| SessionStreams.PluginLogContract | pkg/server/gateway/yamux_accept.go:242-257 | the same for install-log lines, by level, time or message, whatever the name |
| SessionStreams.OnTheWire | proto/v2/pilot.proto:214-272 | the bytes of every log, exec and WebSocket message: each field under the number and type the schema gives it, left out when zero |
| SessionStreams.PluginLogOnTheWire | proto/v2/pilot.proto:297-308 | the same for install logs |
| SessionStreams.SentinelReader.Receive | pkg/server/gateway/stream.go:186-205 | one receive is the receive function on the bytes that have arrived |
| SessionStreams.CopyLogs | pkg/worker/proxy/logs.go:102-131 | what the copier leaves on the stream is its plan, the chunks it forwards, the sentinel and the end, up to the byte at which the peer gives up |
| SessionStreams.PlanIsExact | pkg/worker/proxy/logs.go:102-131 | from the reads alone: up to and including the first round that reaches the cap with data, or comes with an error, every round with data is forwarded, and the end is the cap message, the error's text, or empty at the end of the log or a cancellation; without such a round all are forwarded and there is no end |
| SessionStreams.ForwardedExactly | pkg/worker/proxy/logs.go:102-131 | so the forwarded bytes are all of the log up to that round |
| SessionStreams.LogsDelivered | pkg/worker/proxy/logs.go:102-140 | however far the copier has come and wherever the stream breaks, the other side receives exactly the chunks that came through whole, and the planned end exactly when everything did |
| SessionStreams.ForwardedIsAPrefix | pkg/worker/proxy/logs.go:102-131 | forwarded bytes are a prefix of the pod's log and less than a chunk above the session cap |
| GzipCodec.Codec.EnableGzip | pkg/transport/yamux/codec.go:126-140 | sends the header at once and defers the reader; does nothing the second time, unless the reader has failed in between: then another compressor starts and what the first one held is lost |
| GzipCodec.SecondHeaderStops | pkg/transport/yamux/codec.go:126-140 | wherever a peer starts to read before a second header, it gets nothing past it |
| GzipCodec.Codec.WriteMsg | pkg/transport/yamux/codec.go:217-254 | the whole frame is on the stream when it returns, whatever the compressor would keep |
| GzipCodec.Codec.Flush | pkg/transport/yamux/codec.go:189-194 | nothing is held back afterwards |
| GzipCodec.Codec.Close | pkg/transport/yamux/codec.go:204-211 | flushes and ends the compressed stream once |
| GzipCodec.Codec.LazyInitReader | pkg/transport/yamux/codec.go:153-171 | on the first read after compression was enabled, takes the header, waits for one to arrive, or fails on anything else, having consumed it; every other time it does nothing |
| GzipCodec.PeerReads | pkg/transport/yamux/codec.go:126-171 | behind a single header, a peer finds it where it looks for it and then reads all that was handed over and is not held |
| ExecInput.ClassifiesAsSent | pkg/worker/proxy/exec.go:99-137 | each message is taken for what it is, and for neither exactly in its zero forms |
| ExecInput.InputOnTheWire | proto/v2/pilot.proto:238-245 | the same for keystrokes and sizes, whose first fields share their number and differ in type |
| ExecInput.DeliversAsSent | pkg/worker/proxy/exec.go:99-137 | any interleaving is delivered in order up to the first message that is neither, or the first keystroke after the executor has closed its pipe, and how the loop ends |
| ExecInput.LeadingEnds | pkg/worker/proxy/exec.go:109-138 | where that is: everything before is recognised and within what the executor takes, and the next message is not |
| ExecInput.DeliversAllIff | pkg/worker/proxy/exec.go:99-137 | everything is delivered, and the loop ends at the end of the stream, if and only if every keystroke message has data, every size has both dimensions, and the executor takes all keystrokes |
| ExecInput.CutIsSafe | pkg/worker/proxy/exec.go:109-112 | a stream that stops anywhere delivers a prefix and then a failed read, unless the executor has closed its pipe before |
| ExecInput.SizeSurvivesIff | pkg/worker/proxy/exec.go:122-128 | a size arrives as sent exactly when both dimensions fit in 16 bits |
| ExecInput.PlayKeepsKeys | pkg/worker/proxy/exec.go:113-133 | at any pace of the executor no keystroke is lost, the size queue stays within 4 and sizes keep their order |
| ExecInput.ResizeLandsIff | pkg/worker/proxy/exec.go:123-132 | a size gets through exactly when there was room or the executor had just taken one |
| ExecInput.InputPump.Run | pkg/worker/proxy/exec.go:88-138 | the reader loop is the pump function, and its effect on the terminal the play of its deliveries |
| RpcExchange.StepKeepsInv | pkg/server/gateway/send.go:69-130 | every step of either side, the watcher, the firing context and the close timer keeps the exchange's invariant |
| RpcExchange.NoEarlyCancel | pkg/worker/proxy/proxy.go:148-216 | unless the caller's context fires, the operation is not cancelled before its whole response is written |
| RpcExchange.CancelledIff | pkg/worker/proxy/proxy.go:148-216 | in every variant, fired or not, the operation is cancelled exactly when its watcher has returned or its handler is past it; the watcher goes on waiting exactly while only part of a trailer has come after the body; windows and compressors never hold more than they can |
| RpcExchange.FinishedIsComplete | pkg/server/gateway/send.go:69-130 | a finished exchange whose context did not fire delivered the whole request and the whole response |
| RpcExchange.Progress | pkg/server/gateway/send.go:69-130 | with room, every unfinished exchange whose context has not fired can go on by itself |
| RpcExchange.ProgressAfterFire | pkg/server/gateway/send.go:54-64 | after the context fires it goes on too, if need be by the close timer |
| RpcExchange.RunsAreFinite | pkg/worker/proxy/http.go:311-347 | no run is longer than the supply it starts with |
| RpcExchange.RoomIsExactlyEnough | pkg/transport/yamux/codec.go:107-140 | no unfired exchange gets stuck if and only if the trailer fits the return window, and so does the header unless the request fits the other window |
| RpcExchange.BodyNeedsFlush | pkg/server/gateway/send.go:96-106 | without the flush after the body, any body the compressor can hold has a run that is stuck for good |
| RpcExchange.CloseWriteCancels | pkg/server/gateway/send.go:107-112 | with a half-close after the request, from every running operation a run leads to its being cancelled while it runs, with nobody having given up |
| RpcExchange.OperationStarts | pkg/server/gateway/send.go:107-112 | such operations do get to run with a half-close after the request |
| RpcExchange.EagerReadersWaitForEachOther | pkg/transport/yamux/codec.go:107-140 | with both decompressors set up before either header is sent, nothing after the stream header is ever read |
| PluginFingerprint.ValuesHashIff | pkg/worker/plugin/reconciler.go:404-420 | two texts share a digest exactly when they are equal or both have one canonical tree |
| PluginFingerprint.AttemptHashIff | pkg/worker/plugin/reconciler.go:384-397 | fingerprints agree exactly when the fields fall into the same pieces at their NULs; if one spec is free of NUL, exactly when chart, release and values do |
| PluginFingerprint.NulCollides | pkg/worker/plugin/reconciler.go:384-397 | with a NUL in a field two charts share a fingerprint, whatever the digest |
| PluginLifecycle.ReleaseIsOwned | pkg/worker/plugin/reconciler.go:118-163 | for a fixed name and namespace, a release exists only while its object does and carries the finalizer, over every run with crashes and failures |
| PluginLifecycle.VanishesOnlyAfterUninstall | pkg/worker/plugin/reconciler.go:118-151 | an object with the finalizer goes only by the reconciler's own update, with nothing of the release left |
| PluginLifecycle.ChangesAreQueued | pkg/worker/plugin/reconciler.go:79-92 | whatever changes an object other than its status, or takes it away, leaves a request queued |
| PluginLifecycle.CommandsRepeat | pkg/worker/plugin/manager.go:54-109 | sending an enable or a disable again changes nothing further |
| PluginLifecycle.EnableKeepsTheRest | pkg/worker/plugin/manager.go:54-84 | an enable changes spec and version of an object that is there and caches its chart; status, finalizer, deletion mark and releases stay |
| PluginMove.MoveOrphansIff | pkg/worker/plugin/reconciler.go:118-151 | over every run that has named one place, with or without a reconcile under way: enabling with another place can end with the object gone and a release in the old place if and only if a release stands there or a reconcile that has announced itself still has values to run Helm with |
| PluginMove.MoveOrphans | pkg/worker/plugin/reconciler.go:124-139 | a run in which a changed place leaves a release without an object |
| PluginGate.GateIsSound | pkg/worker/plugin/reconciler.go:171-197 | where the gate closes on Running after harmless writes, another Helm run would put in place exactly what is there |
| PluginGate.HarmlessIsExact | pkg/worker/plugin/reconciler.go:229-343 | after any run of harmless writes, the write before Helm makes it possible to fool the gate if and only if it is refused under a Running status for the same place, or refetches other values, or another place while the tried release is not in its own; an object on its way out and values that do not parse aside |
| PluginGate.RefetchFoolsGate | pkg/worker/plugin/reconciler.go:315-343 | a run in which a refetch with another spec makes the gate close on the wrong release |
| PluginGate.LostAnnouncementFoolsGate | pkg/worker/plugin/reconciler.go:229-233 | a run in which lost status writes do |
| PluginRest.FinishSettlesIff | pkg/worker/plugin/reconciler.go:280-289 | after any run, a finishing status write with nothing queued leaves an idle reconciler and a settled object if and only if it is not refused |
| PluginRest.LostFinishStrands | pkg/worker/plugin/reconciler.go:280-289 | a run that ends at Installing with no reconcile queued |
| PluginGate.ClosedGateStays | pkg/worker/plugin/reconciler.go:171-197 | behind a closed gate any number of enables of the same spec, reconciles and restarts leave object and release alone |
| PluginGate.EnableReopensIff | pkg/worker/plugin/reconciler.go:171-197 | an enable behind a closed gate leads to a new attempt if and only if its spec has another fingerprint |
| PluginGate.MissingChartStays | pkg/worker/plugin/reconciler.go:215-221 | a run after which the object is at rest on Failed for want of a chart that is there again |
| PluginRest.RestMeansSettled | pkg/worker/plugin/reconciler.go:53-92 | unless a finishing status write is refused over an object that has not recorded the outcome, an idle reconciler with nothing queued has ended Running or Failed on the present fingerprint: no change is missed by the event filter |
| PluginRest.SettlesFromAnywhere | pkg/worker/plugin/reconciler.go:108-295 | from every reachable state with a request or a reconcile still there, every run in which no call to the API server or uninstall fails takes at most 76 steps, can go on unless it is at rest, and at rest has the object settled or gone |
| PluginRest.QuietRunsEnd | pkg/worker/plugin/reconciler.go:118-163 | in quiet the requeues die out: from no reachable state is such a run longer than the work there was |
| PluginRest.OneRunPerChange | pkg/worker/plugin/reconciler.go:171-197 | without crashes and forgotten outcomes, Helm runs at most once for each change of fingerprint |
| PluginRest.ForgettingCosts | pkg/worker/plugin/reconciler.go:280-289 | a finishing write adds a Helm run to those still owed if and only if it forgets the outcome |
| PluginPhases.PhasesTell | pkg/worker/plugin/reconciler.go:108-289 | over every run the phase of the reconcile's copy tells what it is at: Uninstalling on the way out and Failed once an uninstall has failed, Installing or Upgrading by whether a revision is known, at the end Running or Failed |
| PluginPhases.OutcomeIsRecorded | pkg/worker/plugin/reconciler.go:235-289 | Running with Helm's revision exactly when Helm succeeds on values that parse, otherwise Failed and nothing else changed |
| PluginPhases.FailureMayLeave | pkg/worker/plugin/helm.go:364-430 | what a failed Helm run may leave in its place, and that it touches no other release |
| PluginPhases.UninstallMayLeave | pkg/worker/plugin/helm.go:431-453 | the same for an uninstall |
| PluginPhases.CrashMayLeave | pkg/worker/plugin/reconciler.go:118-289 | a crash leaves of the release what the interrupted call would have left by failing, and the object as it is |
| PluginPhases.ReachesHelmIff | pkg/worker/plugin/reconciler.go:200-228 | which charts get as far as an announcement; any other attempt is Failed at once, under its own fingerprint |
| PluginPhases.StaleUpdatesFail | pkg/worker/plugin/reconciler.go:140-163 | an update of the finalizers over a copy that is out of date changes nothing and is tried again |
| PluginPhases.PartingIsTaken | pkg/server/store/plugin.go:267-281 | the phases sent during an uninstall are exactly those that the server takes for a disabled row or for its end |
| PluginReconciler.Reconciler.Reconcile | pkg/worker/plugin/reconciler.go:108-295 | with commands arriving between any two of its calls, a reconcile is a run of the lifecycle that ends idle, and its own steps are the fetch and the course that the fetched object puts it on; of a deleted object nothing but parting phases is pushed |
| PluginReconciler.Reconciler.Fetch | pkg/worker/plugin/reconciler.go:108-228 | the branch a reconcile takes and the status it prepares; a closed gate pushes the status it found once more |
| PluginReconciler.Reconciler.TouchAndPush | pkg/worker/plugin/reconciler.go:315-343 | the status write, its one retry over a fresh copy, the copy it leaves, and what is pushed to the server after it |
| PluginReconciler.Reconciler.InstallOrUpgrade | pkg/worker/plugin/reconciler.go:235-289 | what Helm is handed and what is recorded of it: Running with the revision on success, otherwise Failed |
| PluginReconciler.Reconciler.HelmUninstall | pkg/worker/plugin/reconciler.go:127-137 | uninstall or failure, and what follows from each: after a failure the copy is the same with phase Failed, to be written and tried again |
| PluginReconciler.Reconciler.Apply | pkg/worker/plugin/manager.go:54-84 | enable creates the object or replaces its spec and nothing else |
| PluginReconciler.Reconciler.Delete | pkg/worker/plugin/manager.go:86-109 | disable waits for the finalizer; of an object that is already gone an empty status is pushed |
| PluginRows.RowsStayOk | pkg/server/store/plugin.go:267-281 | whatever arrives in whatever order, no stored phase is empty or Disabled and every disabled row is Uninstalling or Failed |
| PluginRows.PushKeepsChoices | pkg/server/store/plugin.go:215-281 | a push never changes an existing row's enabled flag or overrides, and removes only a disabled row, by an end beat |
| PluginRows.RowsAreIndependent | pkg/server/store/plugin.go:156-281 | a row's history is that of its own events |
| PluginRows.EchoesAfterDisable | pkg/server/pluginservice/status.go:42-90 | after a disable, pushes alone keep the row with its overrides, showing field by field the last push of a leaving phase, until the first end beat removes it; it comes back exactly when a push with a phase follows |
| PluginRows.EchoesWhileEnabled | pkg/server/pluginservice/status.go:42-90 | an enabled row survives every push with its choice and shows, field by field, the last that carries a phase, and the last install time reported |
| PluginRows.EchoesFromNothing | pkg/server/store/plugin.go:215-247 | a row that is not there comes with the first push that carries a phase, enabled and without overrides, and then shows the last |
| PluginRows.AfterTheBeat | pkg/server/pluginservice/status.go:42-60 | after the first end beat of a disabled row nothing from before it is left |
| PluginRows.AfterTheLastCommand | pkg/server/pluginservice/status.go:42-90 | in a whole table under any interleaving, what a row is after the last command for it, enabled or disabled, choice and report |
| PluginRows.Store.PersistStatus | pkg/server/pluginservice/status.go:25-105 | a push for an unknown plugin is dropped, any other changes the table as the function says, with a long message cut |
| PluginRows.Store.PersistClusterPluginStatusIfActive | pkg/server/store/plugin.go:267-281 | which pushes are skipped, and the upsert otherwise |
| PluginRows.Store.DeleteDisabledClusterPlugin | pkg/server/store/plugin.go:189-193 | only a disabled row is deleted |
| PluginRows.Store.UpsertClusterPlugin | pkg/server/store/plugin.go:156-173 | enable overwrites the choice and starts over at Pending |
| PluginRows.Store.DisableClusterPlugin | pkg/server/api/handler/plugin.go:593-600 | disable updates a row there is and makes none |
| PluginRows.CommandsKeepObserved | pkg/server/store/plugin.go:156-173 | a command leaves the new choice, a fresh phase without message, and whatever the worker last observed, and no other row changed |
| PluginRows.Store.DeletePlugin | pkg/server/store/plugin.go:65-87 | a plugin is deleted exactly when all its rows are Disabled, and they go with it; as no such row is ever stored, no row does |
| PluginLogHub.StepKeepsInv | pkg/server/gateway/plugin_log.go:108-210 | appending, subscribing, reading, leaving and evicting keep shape and fidelity |
| PluginLogHub.ReplayIsFaithful | pkg/server/gateway/plugin_log.go:108-210 | the buffer is bounded and never holds a chunk after an end, closed means that its last entry is an end, and a viewer that missed nothing is shown exactly the buffer |
| PluginLogHub.OthersKeepTheirs | pkg/server/gateway/plugin_log.go:181-210 | viewers come, read, go and are evicted without effect on each other, and one that reads on catches up |
| PluginLogViews.RoomyAppend | pkg/server/gateway/plugin_log.go:123-168 | one append to a channel with two free slots drops nothing, and a session that starts over clears the view |
| PluginLogViews.RoomyViewIsRight | pkg/server/gateway/plugin_log.go:108-169 | over every run in which each append found room in its channel, a viewer has dropped nothing and is shown exactly the buffer |
| PluginLogViews.BufferIsTheSession | pkg/server/gateway/plugin_log.go:108-169 | the buffer is the newest entries of the present session, as the entries appended alone tell where that began |
| PluginLogViews.ViewIsRightIff | pkg/server/gateway/plugin_log.go:108-210 | over every run, a viewer whose drop counter is zero is shown the buffer if and only if the last session start since it came did not find its channel full, or the buffer is full |
| PluginLogHub.ResetLostUncounted | pkg/server/gateway/plugin_log.go:123-168 | a run, one subscriber, 31 lines, an end and a line of the next session, after which the counter is zero and the view wrong |
| PluginLogHub.Session.Append | pkg/server/gateway/plugin_log.go:108-169 | one append changes buffer, flag and every subscriber as the function says, viewers reading on meanwhile |
| PluginLogHub.Session.Subscribe | pkg/server/gateway/plugin_log.go:181-201 | the snapshot is the buffer, and the channel starts empty |
| WorkerRegistry.UnregisterFindsItself | pkg/server/gateway/server.go:143-166 | whenever unregister runs, the entry is the connection itself |
| WorkerRegistry.RollbackRemovesItself | pkg/server/gateway/yamux_accept.go:173-182 | the unconditional delete removes the registrant's own entry and no other |
| WorkerRegistry.DoneClosedAtMostOnce | pkg/server/gateway/server.go:143-166 | each done channel is closed at most once, and only after its entry is gone |
| WorkerRegistry.OneLivePerCluster | pkg/server/gateway/yamux_accept.go:155-171 | a cluster never has two live connections |
| WorkerRegistry.RegisterIsFound | pkg/server/gateway/yamux_accept.go:155-171 | a register for a free cluster is found there right after; for a taken one nothing changes but its own refusal |
| WorkerRegistry.AcknowledgedServes | pkg/server/gateway/yamux_accept.go:173-184 | an acknowledged connection serves and is the one its cluster leads to |
| WorkerRegistry.EntryStays | pkg/server/gateway/server.go:143-166 | only its own failed acknowledgement or leaving takes an entry out |
| WorkerRegistry.Gateway.AcceptRegister | pkg/server/gateway/yamux_accept.go:155-171 | a taken cluster is refused, a free one registered |
| WorkerRegistry.Gateway.WriteAck | pkg/server/gateway/yamux_accept.go:173-182 | an acknowledgement that fails takes the registration back |
| WorkerRegistry.Gateway.GetWorker | pkg/server/gateway/server.go:119-124 | a worker is found exactly when its cluster has an entry, and then it is a live connection of that cluster |
| WorkerRegistry.Gateway.Unregister | pkg/server/gateway/server.go:143-166 | takes the entry out and closes done, unless the connection was replaced |
| UsageScanner.CutAnywhere | pkg/server/api/handler/inference_proxy.go:136-151 | cutting a body anywhere keeps its lines and what follows the last newline |
| UsageScanner.RestHasNoNewline | pkg/server/api/handler/inference_proxy.go:136-151 | the rest that is carried over holds no newline, so it is the text after the last one |
| UsageScanner.LinesAreTheBody | pkg/server/api/handler/inference_proxy.go:136-151 | lines and rest are the body, cut at every newline |
| UsageScanner.LastUsageIsTheLast | pkg/server/api/handler/inference_proxy.go:136-170 | the answer is the usage of the line that carries one and has none after it |
| UsageScanner.LineCarries | pkg/server/api/handler/inference_proxy.go:153-170 | an event line carries its payload's usage, with or without a return at its end and unless it is empty or the end mark; no other line carries any |
| UsageScanner.Scan | pkg/server/api/handler/inference_proxy.go:123-192 | any way of splitting a body into writes gives the answer for the whole of it |
| UsageScanner.Scanner.Write | pkg/server/api/handler/inference_proxy.go:123-134 | the state after a write is that of one write of everything so far |
| UsageScanner.Scanner.FeedStream | pkg/server/api/handler/inference_proxy.go:136-151 | the last usage among complete lines is kept, and the text after the last newline |
| UsageScanner.Scanner.ProcessLine | pkg/server/api/handler/inference_proxy.go:153-170 | which lines carry usage |
| PagedList.ItemsAreAChain | web/src/hooks/useVolcanoList.ts:81-157 | for every interleaving the items are the first pages of the present list, each once and none left out, and the kept token is the next page's |
| PagedList.LoadingAll | web/src/hooks/useVolcanoList.ts:118-133 | from any state of a ready list, the run of a refresh and n answered requests for more ends with exactly the first n + 1 pages |
| PagedList.AccurateStaysIff | web/src/hooks/useVolcanoList.ts:81-157 | a loading flag that shows whether the latest request is out keeps doing so in exactly the steps that do not leave the list unready, or the page, during one |
| PagedList.LoadingIsAccurate | web/src/hooks/useVolcanoList.ts:81-116 | so it is accurate on every run without such a step |
| PagedList.LoadingSticks | web/src/hooks/useVolcanoList.ts:139-150 | otherwise it stays set until the list is ready again |
| PagedList.ErrorMeansNoRequest | web/src/hooks/useVolcanoList.ts:106-112 | an error is shown only while nothing is loading and the latest request is settled |
| PagedList.ErrorIff | web/src/hooks/useVolcanoList.ts:81-157 | in every step, an error is set by the failure of the latest request and by nothing else, and stays until something is started |
| PagedList.MoreIff | web/src/hooks/useVolcanoList.ts:86-93 | there is more exactly when the page brought a token that is not empty, and the next request asks with that |
| PagedList.RefreshStartsOver | web/src/hooks/useVolcanoList.ts:118-133 | a refresh keeps the items, forgets token and total, and until its page is there nothing more can be asked for |
| PagedList.TotalIsRightIff | web/src/hooks/useVolcanoList.ts:94-105 | over every interleaving and for every server whose counts are honest, the total is the size of the list if and only if the counted pages after the first counted one have left as many items as stand before that one |
| PagedList.LoadMoreOvercounts | web/src/hooks/useVolcanoList.ts:94-105 | a run of a first page and one request for more, after which the total is past the size of the list |
| PagedList.List.Settle | web/src/hooks/useVolcanoList.ts:86-113 | only the latest generation's response or error touches the state, total and error included, and how |
| PagedList.List.Change | web/src/hooks/useVolcanoList.ts:139-157 | a change of dependencies empties the list and cancels what is out |
| Percentiles.LatencyBucket | pkg/server/diag/http_collector.go:124-139 | the shift loop gives the capped bit length |
| Percentiles.BucketCovers | pkg/server/diag/http_collector.go:122-139 | which values a bucket holds |
| Percentiles.TargetIsLeast | pkg/server/diag/http_collector.go:157-161 | the rank is the least from 1 on that is not below the quantile's share of the total |
| Percentiles.ScanFindsRank | pkg/server/diag/http_collector.go:157-178 | the scan stops in the bucket of the observation with the wanted rank |
| Percentiles.ReportedIsCloseIff | pkg/server/diag/http_collector.go:157-178 | the reported value is above 3/4 and at most 3/2 of the exact one if and only if that is from 1 up to 2^23 |
| Percentiles.Collector.Percentile | pkg/server/diag/http_collector.go:145-178 | the reported value is that of the bucket of the exact nearest-rank percentile, above 3/4 and at most 3/2 of it exactly when that is from 1 up to 2^23 |
| Percentiles.Collector.Observe | pkg/server/diag/http_collector.go:87-91 | one request more in the live window, a negative time counting as none |
| Percentiles.Collector.Rotate | pkg/server/diag/http_collector.go:101-120 | with requests finishing between any two swaps, the reported window is everything live before and some of these, the live one the rest: each request counts in one window and one only |
| Percentiles.Percentile | pkg/diag/snapshot.go:193-228 | the middle of the bucket that the rank falls in; for a rank past the total, the last finite edge |
| Percentiles.MiddleIsHalfway | pkg/diag/snapshot.go:212-226 | halfway between finite edges, and the finite edge next to an infinite one |
| Percentiles.Summary | pkg/diag/snapshot.go:193-247 | median, 90th and 99th percentile and maximum never come out of order |
| Text.SplitJoin | pkg/worker/proxy/vgpu.go:395-424 | splitting undoes joining of parts free of the separator |
| VGpu.DeviceRoundTrip | pkg/worker/proxy/vgpu.go:395-424 | a device as the scheduler writes it reads back as that device |
| VGpu.PodRoundTrip | pkg/worker/proxy/vgpu.go:395-424 | a whole annotation, with its trailing separators, reads back as all its devices in order |
| VGpu.DeviceDecodes | pkg/worker/proxy/vgpu.go:395-424 | what any text decodes to as a device: its first, third and fourth comma-free fields, or nothing with fewer than four |
| VGpu.CardRoundTrip | pkg/worker/proxy/vgpu.go:325-369 | a registered card reads back field by field, or is skipped exactly when a number or the flag does not parse, wherever it stands |
| VGpu.CardDecodes | pkg/worker/proxy/vgpu.go:325-369 | the same for a card: fewer than six fields are skipped, further ones ignored |
| VGpu.CardReadsBack | pkg/worker/proxy/vgpu.go:325-369 | a card whose figures and flag are written out reads back as exactly that card |
| VGpu.RegisterRoundTrip | pkg/worker/proxy/vgpu.go:325-369 | a whole register, each card followed by its separator, reads back as all its cards that parse, in order and under their positions |
| VGpu.CardsAreThoseThatParse | pkg/worker/proxy/vgpu.go:325-369 | for any register, a card is in the result if and only if the entry at its index decodes to it |
| VGpu.FlagIsRead | pkg/worker/proxy/vgpu.go:353-357 | which spellings of the health flag are accepted, and as what |
| VGpu.AtoiReadsDecimals | pkg/worker/proxy/vgpu.go:325-424 | the decimal form of a number parses to it, with either sign and as far as 64 bits go; beyond that it fails with the nearest one |
| VGpu.InventoryIsFresh | pkg/worker/proxy/vgpu.go:325-369 | a decoded inventory is unused and already in index order |
| VGpu.InventoryIsExact | pkg/worker/proxy/vgpu.go:196-221 | a node is in the inventory exactly when it registers a card, with the cards of the last of its registers that has any |
| VGpu.LayeredIsBalanced | pkg/worker/proxy/vgpu.go:230-265 | each card's memory, cores and slots are the sums over the pods listed on it |
| VGpu.LayeredLists | pkg/worker/proxy/vgpu.go:230-317 | each card lists, in order, one line for every device of every pod that holds it |
| VGpu.OrderDoesNotMatter | pkg/worker/proxy/vgpu.go:230-265 | no figure of any card depends on the order of the pods |
| VGpu.ClusterOrderDoesNotMatter | pkg/worker/proxy/vgpu.go:230-288 | no total of the cluster depends on the order of the pods or of the nodes |
| VGpu.UsedIsClaimed | pkg/worker/proxy/vgpu.go:230-288 | over the cluster, used slots and used memory are those of the decoded devices of admitted pods that are on their pod's node |
| VGpu.Tracker.ApplyPodUsage | pkg/worker/proxy/vgpu.go:299-317 | the first card with the id is charged, an unknown id changes nothing and is reported |
| VGpu.Tracker.Layer | pkg/worker/proxy/vgpu.go:230-265 | each node's cards become those layered with all its pods |
| VGpu.Tracker.RollUp | pkg/worker/proxy/vgpu.go:269-288 | node figures are sums over cards, cluster figures sums over nodes |
| VGpu.OneCardAddsUp | pkg/worker/proxy/vgpu.go:269-288 | a cluster of one card has that card's figures and health |
| VGpu.Tracker.SnapshotLive | pkg/worker/proxy/vgpu.go:176-293 | a whole sweep is balanced on every card, its five totals are functions of inventory and pods, and its used slots and memory are those of the admitted devices |

## Left out

- Multiplexing, compression itself, TLS, TCP, the Kubernetes and Helm libraries and the SQL database: only the contracts listed under Assumptions are used.
- Ring order under concurrent writers, whose numbers are taken outside the lock.
- The mapping of a log entry's fields to columns, retention by time, and queries on the log table.
- Timeouts, deadlines, jitter and reconnect backoff; a deadline acts like a context that fires.
- RpcExchange.NoEarlyCancel: a worker that gives up after the caller has fired closes without the trailer it would still try to write.
- RpcExchange.Progress: the streaming variant of the HTTP path, which reads until the stream closes, is not part of this model.
- GzipCodec.Codec.EnableGzip: writes to the stream under the codec do not fail here; SessionStreams.CopyLogs has them fail.
- ExecInput.InputPump.Run: closing the size queue and the executor's own use of the pipe are not modelled beyond when it stops taking.
- PluginGate.GateIsSound: stale reads from an informer cache and releases changed by hand are not modelled.
- PluginRest.RestMeansSettled: display name and plugin id, which also count as a change of spec, are not modelled.
- PluginLogHub.StepKeepsInv: the reaper racing a lookup; lookup and lock are one step.
- VGpu.Tracker.RollUp: sorting of nodes by name is the caller's order of names; caching, paging and single flight of the sweep are left out.
- Percentiles.Collector.Percentile: a report read while the window is being swapped may mix two windows.
- Chart resolution beyond the local cache, handlers' validation and routing, dashboards and manifests: literals and single branches.
