# skein-js protocols in Dafny

A model of the parts of skein-js whose correctness rests on ordering, retries, wrap-around or encoding,
with proofs that hold for every input, every schedule and every reachable state.

- **Plan session (json-render example).** `UiEvents` is the consumer of sequenced UI events,
  `PlanGraph` the graph that writes them and commits a plan, `PlanSession` the asynchronous client as a
  step machine in which every `await` is a step boundary and the network is an adversary,
  `PlanSessionRuns` what its calls bring about, `PlanSessionClient` the same client as an object with fields,
  `Disconnection` what its `disconnect` silences, and `ApprovalFlow` the client and the graph together.
- **BullMQ transport.** `TransportLifecycle` interleaves `start` and `stop` over a first-in-first-out job
  queue, and `TransportProgress` says what they bring about; `Base64` and `ChunkRetrieval` are the chunked transfer of large values; `Outcomes` is the publisher
  with the deduplicating inbox.
- **Trip tools.** `TripTools` is the 32-bit hash and the weather; `Flights` the search and the lookup by id.
- **Delivery recorder.** `DeliveryRecorder` is the recorder with failure budgets and the batch that is
  retried from the start, alone or while others use the recorder.
- **Memory namespaces.** `MemoryNamespace` is the injective escaping of identities.
- **Dev server.** `ReloadLoop`, `DevState`, `EnvFile`, `ProjectEnv` and `GraphCache`.

Interleaving code appears twice: as a pure step machine, over which whole runs are reasoned about, and as a
class whose methods change fields the way the source does. Each method is proved equal to its step, and each
class has a method (`Replay`, `ReceiveAll`, `ApplyEach`) that runs any schedule through the others and concludes
about the object's own fields what the theorems say about runs.

`dafny verify dfyconfig.toml` checks the whole project.

## What turned out not to hold

- At most one open worker. A failed `close()` forgets its worker, and a later start opens a second one
  (`TransportLifecycle.FailedCloseCanLeaveTwoOpen`). In every run at most one worker is open among those whose
  `close()` has not failed, and there is never more than one open worker if and only if no worker is constructed
  while one whose `close()` failed is still open (`TransportLifecycle.AtMostOneWorkerExactly`). At rest, `worker`
  names all that is open if and only if no such worker is left.
- Weather highs at or above the current temperature: they are exactly when the location's hash is not -2^31.
  "xfjfxtf" hashes to -2^31 (`TripTools.ColdForecast`). Six capital letters never do, so flights are not
  affected (`Flights.RouteSeed`).
- Printing an environment as quoted lines and parsing it back: it is the same environment exactly when
  `EnvFile.Printable` holds of every binding (`EnvFile.EnvironmentPrintsExactly`). A key that looks like a comment
  or an `export`, `__proto__`, or a value with a newline breaks it, and can take a printable binding along: `a` and
  `export a` are read back as `a` alone (`EnvFile.ExportOverwrites`).
- After `disconnect`, no frame changes the screen until something is begun again: one can, exactly when a run is just
  being started or a follower has been orphaned (`Disconnection.DisconnectSilencesExactly`). Reconnecting while
  another follower is live orphans that one (`Disconnection.OrphanedExactlyByReconnect`), and this can happen,
  because an old follower that was waiting for the run's status clears `connected`
  (`Disconnection.OrphanSpeaksAfterDisconnect`).
- One effect for each delivery without an idempotency key: a destination with a colon in its name can be taken for
  another one's run (`DeliveryRecorder.ColonConfuses`). Without colons it holds exactly
  (`DeliveryRecorder.SameDeliveryExactly`).

The comment in `packages/cli/src/dev-command.ts` (lines 298-301) says that a reload applies only newly added
keys; the code, and its comment in `project-env.ts`, also updates keys that it set itself. The model follows
the code.

## Model

| member | source | states |
|---|---|---|
| `UiEvents.EveryFrameSequence` | examples/json-render/src/ui-events.ts:20-68 | for every frame sequence, the stream is the one that the events taken describe, where what is taken, what breaks the preview and what completes is said of the frames alone: the events taken are delivered events 0..lastSequence of one generation; without a gap each of their texts compiled and the preview is their compile (the baseline if there are none); with one it is the baseline; and a complete stream has validated |
| `UiEvents.PushReads` | examples/json-render/src/ui-events.ts:34-68 | each frame does to the stream exactly what it does to the events taken: ignored when old or foreign to the generation, taken when next, and otherwise a gap |
| `UiEvents.GapExactly` | examples/json-render/src/ui-events.ts:34-67 | the preview is lost if and only if some frame is malformed, skips ahead, comes after completion, or does not compile or validate |
| `UiEvents.InvalidPlanIsLost` | examples/json-render/src/ui-events.ts:59-67 | a complete event whose plan does not validate is a gap: the stream is not complete and shows what was saved before |
| `UiEvents.GapAndIdentityPersist` | examples/json-render/src/ui-events.ts:28-57 | a gap is absorbing and pins the preview to the baseline; a generation id that is set never changes; completion is never taken back |
| `UiEvents.CountIsCompiledTexts` | examples/json-render/src/ui-events.ts:57-77 | for every frame sequence, with or without a gap, a complete stream has compiled exactly `lastSequence - 1` texts, those of the chunks it took, and they validate |
| `UiEvents.DeliverOne` | examples/json-render/src/ui-events.ts:49-67 | after the first k events in order, an earlier event changes nothing, event k gives the state after k+1, and a later event opens a gap |
| `UiEvents.DeliverFrom` | examples/json-render/src/ui-events.ts:34-68 | every delivery from there on ends in the in-order state it reached if it never skips ahead, and with a gap otherwise |
| `UiEvents.DeliveryIsExactlyOnce` | examples/json-render/src/ui-events.ts:34-77 | for every delivery of a committed generation with drops, duplicates and reordering: complete without a gap if and only if it never skips ahead and reaches the end; the state then equals exactly-once delivery and shows the committed id, spec and chunk count |
| `UiEvents.UiStream.Receive` | examples/json-render/src/ui-events.ts:34-68 | the in-place code refines the step the theorems above are about, for every frame |
| `UiEvents.UiStream.ChunkCount` | examples/json-render/src/ui-events.ts:69-77 | the reported count is the number of texts compiled, and is reported exactly when the stream is complete |
| `UiEvents.UiStream.ReceiveAll` | examples/json-render/src/ui-events.ts:34-77 | whatever frames a new object is fed through `push`, its own fields are described by its accepted events, and its reported count and preview are those of the accepted chunks |
| `PlanGraph.GenerateUi` | examples/json-render/src/plan-graph.ts:29-46 | a run commits if and only if it is not aborted and its texts compile and validate; it has then written the whole generation with the committed spec and count, and otherwise a prefix without the complete event |
| `PlanGraph.UncommittedNeverCompletes` | examples/json-render/src/plan-graph.ts:36-44 | however the events of an uncommitted run are delivered, no consumer becomes complete |
| `PlanGraph.ReviewsCurrentPlan` | examples/json-render/src/plan-graph.ts:48-60 | a review succeeds if and only if the decision names the current plan, and then stores exactly its answer; otherwise it says whether there is no plan or an older one is meant |
| `PlanSession.StaleContinuationIsInert` | examples/json-render/src/plan-session.ts:78-273 | a continuation whose token is not the current epoch leaves snapshot, observation and every other variable unchanged, and so do its own continuations |
| `PlanSession.InvokeKeeps` | examples/json-render/src/plan-session.ts:206-274 | every user call keeps plan, spec, review and observation on the thread the snapshot names and leaves every suspended call what it relies on |
| `PlanSession.RestoredKeeps` | examples/json-render/src/plan-session.ts:78-94 | a state read from the session's thread may replace what is shown; an unparsable or mismatched one changes nothing |
| `PlanSession.FaithfulGrows` | examples/json-render/src/plan-session.ts:107-114 | the observed stream is the fold of the frames delivered for its run, one frame at a time |
| `PlanSession.FollowKeeps` | examples/json-render/src/plan-session.ts:107-122 | after a live frame the spec shown, if it is a preview, is that of the observed run of the named thread |
| `PlanSession.StartRunKeeps` | examples/json-render/src/plan-session.ts:159-176 | starting a run moves to a new epoch, shows the saved plan again and stays on the thread |
| `PlanSession.ObserveKeeps` | examples/json-render/src/plan-session.ts:183-186 | a new observation starts with an empty stream over the plan on screen |
| `PlanSession.StepKeeps` | examples/json-render/src/plan-session.ts:78-273 | every reply to every suspended call, stale or live, failed or not, keeps all of this |
| `PlanSession.NextKeepsInv` | examples/json-render/src/plan-session.ts:56-276 | one step of any schedule keeps the invariant: screen on its thread, every live continuation well founded, at most one of them starting a run, every decision naming the plan shown |
| `PlanSession.RunKeepsInv` | examples/json-render/src/plan-session.ts:56-276 | the invariant holds after every schedule of calls and replies |
| `PlanSession.EveryReachableSession` | examples/json-render/src/plan-session.ts:68-230 | for every interleaving: `ui`, `spec`, `review` and `approved` come from the thread in `threadId`, `review` has the generation id of `ui`, `review` and `approved` were each read in a state with this `ui`, a non-null observation is on that thread and run, and every decision sent names the plan that was shown |
| `PlanSession.EveryPreview` | examples/json-render/src/plan-session.ts:107-122 | for every interleaving, a preview on screen is the in-order compile of events 0..k of one generation, all delivered for the run and thread that the snapshot names |
| `PlanSessionRuns.ScreenKeepsUp` | examples/json-render/src/plan-session.ts:78-273 | for every interleaving: the plan on screen is that of the latest state read for the open thread; so are review and approval, unless a run has been started since; and a session that follows no run any more shows a state that was read after the server said the run was over |
| `PlanSessionRuns.NeverStuck` | examples/json-render/src/plan-session.ts:206-273 | for every interleaving that has settled without being disposed: the session is not connected, and `reconnect` gets through if it is busy, `decide` if a review is pending, `generate` otherwise |
| `PlanSessionRuns.StateIsShown` | examples/json-render/src/plan-session.ts:84-93 | a state served to a live `open`, `follow` or `stop` becomes plan, spec, review and approval on screen; one served to a stale call changes nothing |
| `PlanSessionRuns.TroubleIsReported` | examples/json-render/src/plan-session.ts:79-93 | a state that cannot be fetched, does not parse or has a review of another plan is reported by the call that asked, and what was on screen stays |
| `PlanSessionRuns.RunIsFollowedToItsEnd` | examples/json-render/src/plan-session.ts:102-150 | a whole run, for all frames and ways its stream ends: afterwards the screen is the state served last, the session is free and disconnected, and the error is the stream's own, the last one announced, or the run's |
| `PlanSessionRuns.FramesAreFollowed` | examples/json-render/src/plan-session.ts:106-123 | any frames move the display alone: to the preview of all of them, or back to the saved plan with a notice |
| `PlanSessionRuns.StreamEndsEarly` | examples/json-render/src/plan-session.ts:124-138 | a stream that ends while the run goes on, or whose run cannot be read, leaves the session busy, disconnected and with that error |
| `PlanSessionRuns.OpenAsks` | examples/json-render/src/plan-session.ts:206-211 | opening a thread clears the screen, aborts the stream that was followed and asks for the thread's state |
| `PlanSessionRuns.OpenShowsThread` | examples/json-render/src/plan-session.ts:206-222 | a thread without an active run ends on the second state read, with the session free |
| `PlanSessionRuns.OpenFollowsRun` | examples/json-render/src/plan-session.ts:206-226 | a thread with an active run, a running one first, shows its saved state and follows that run over it from the first event |
| `PlanSessionRuns.OpenListFails` | examples/json-render/src/plan-session.ts:227-229 | runs that cannot be listed are reported, and the session is free |
| `PlanSessionRuns.StartsExactly` | examples/json-render/src/plan-session.ts:231-245 | exactly when the session is free, and the request valid or a review pending, a run is asked for with this request or this answer to this review; any other call leaves all but a notice alone |
| `PlanSessionRuns.ThreadIsCreated` | examples/json-render/src/plan-session.ts:170-176 | a thread is created first where there is none, and the request stays the same |
| `PlanSessionRuns.RunIsCreated` | examples/json-render/src/plan-session.ts:177-186 | a created run is followed from its first event over the plan on screen, and the review it answered is gone |
| `PlanSessionRuns.StartFails` | examples/json-render/src/plan-session.ts:187-195 | a run that could not be created frees the session and says that the request may have arrived |
| `PlanSessionRuns.ReconnectResumes` | examples/json-render/src/plan-session.ts:246-255 | `disconnect` aborts the stream, and `reconnect` follows the same run from the last event id received |
| `PlanSessionRuns.ReconnectRefused` | examples/json-render/src/plan-session.ts:254 | without a run, while free, or while connected, `reconnect` does nothing |
| `PlanSessionRuns.StopAsks` | examples/json-render/src/plan-session.ts:256-263 | `stop` aborts the stream and cancels the run, if there is one to stop |
| `PlanSessionRuns.StopShowsSaved` | examples/json-render/src/plan-session.ts:263-269 | a cancelled run that is over ends on the state served last, with the session free |
| `PlanSessionRuns.StopFails` | examples/json-render/src/plan-session.ts:263-272 | a failing cancellation, or a run still going, is reported, and the session stays busy |
| `PlanSessionRuns.DisposeSilences` | examples/json-render/src/plan-session.ts:274 | `dispose` aborts the stream and leaves every suspended call stale |
| `Disconnection.SilenceExactly` | examples/json-render/src/plan-session.ts:95-128 | from every invariant state, no schedule of replies and of calls that begin nothing lets a frame change the screen, if and only if no live follower has a controller that was not aborted and no live call may still go on to follow a run |
| `Disconnection.DisconnectSilencesExactly` | examples/json-render/src/plan-session.ts:246-252 | for every reachable session: after `disconnect`, no frame changes the screen before a call begins something, if and only if there was no orphaned follower and nothing was being started |
| `Disconnection.OrphanedExactlyByReconnect` | examples/json-render/src/plan-session.ts:253-255 | a step leaves no orphaned follower behind, unless it is a `reconnect` that goes through while another follower is live and not aborted, and then it does |
| `Disconnection.OrphanSpeaksAfterDisconnect` | examples/json-render/src/plan-session.ts:128-137 | a schedule after which `disconnect` leaves the session disconnected and the next frame still changes the screen |
| `ApprovalFlow.TicketNamesPlan` | examples/json-render/src/plan-session.ts:240-245 | the generation id in a decision names, among all plans ever committed, the plan that was on screen, as validation reads it back |
| `ApprovalFlow.SoundScreen` | examples/json-render/src/plan-session.ts:78-94 | in a sound world, the approval on screen was recorded, on the thread on screen, for the plan on screen |
| `ApprovalFlow.ClientKeepsRequests` | examples/json-render/src/plan-session.ts:159-182 | every resume request the client sends carries a decision the user made on that thread |
| `ApprovalFlow.ReviewedKeepsSound` | examples/json-render/src/plan-graph.ts:48-60 | a review run, even one that is late, repeated or foreign, records an approval only for the current plan of its thread |
| `ApprovalFlow.ReviewedExactly` | examples/json-render/src/plan-graph.ts:48-60 | a review run of the current plan of a thread stores its answer beside the plan and adds one record; any other leaves the world as it was |
| `ApprovalFlow.DecisionIsStored` | examples/json-render/src/plan-session.ts:240-245 | a decision on screen can be executed, and if its plan is still the thread's, its answer is stored there |
| `ApprovalFlow.PlayKeepsSound` | examples/json-render/src/plan-graph.ts:29-60 | soundness of client, graph and records together is kept by every history |
| `ApprovalFlow.ApprovalIsForThePlanShown` | examples/json-render/src/plan-session.ts:240-245 | in every history: an approval a thread ever stored was recorded for the plan stored beside it; the approval on screen was recorded for the plan and thread on screen; and one recorded for this session is for the plan and thread on screen when `decide` was called with that answer |
| `ApprovalFlow.StoredExactly` | examples/json-render/src/plan-graph.ts:29-60 | in every history, a thread stores the last plan generated there and, beside it, the answer of the last review that named that plan since, or none |
| `ApprovalFlow.RecordedExactly` | examples/json-render/src/plan-graph.ts:48-60 | in every history, exactly the reviews that named the plan current at the time are recorded, once and in order |
| `PlanSessionClient.Client.Perform` | examples/json-render/src/plan-session.ts:206-274 | refines every user call, `dispose` included |
| `PlanSessionClient.Client.ResumeWith` | examples/json-render/src/plan-session.ts:78-273 | refines every continuation of every call |
| `PlanSessionClient.Client.Replay` | examples/json-render/src/plan-session.ts:56-276 | whatever schedule of calls and replies the methods run on a new object, the object's own fields belong to the thread they name and keep up with the latest state served, every suspended call has what it relies on, and every decision sent named the plan shown |
| `TransportLifecycle.BeginKeeps` | packages/bullmq/src/bullmq-transport.ts:299-322 | starting a worker while no `stop` is tearing one down keeps every open worker accounted for |
| `TransportLifecycle.TakeWorkerKeeps` | packages/bullmq/src/bullmq-transport.ts:332-335 | when `stop` takes the worker, no resumed `start` is queued that could open another |
| `TransportLifecycle.TickKeeps` | packages/bullmq/src/bullmq-transport.ts:297-344 | running the job at the head of the queue keeps the invariant, whichever job it is |
| `TransportLifecycle.NextKeepsInv` | packages/bullmq/src/bullmq-transport.ts:297-344 | every call, job and worker completion keeps the invariant |
| `TransportLifecycle.RunKeepsInv` | packages/bullmq/src/bullmq-transport.ts:297-344 | the invariant holds after every interleaving |
| `TransportLifecycle.OnlyFailedClosesLeak` | packages/bullmq/src/bullmq-transport.ts:319-335 | a run without a failing `close()` leaves no worker whose `close()` failed |
| `TransportLifecycle.AtMostOneWorker` | packages/bullmq/src/bullmq-transport.ts:297-344 | for every interleaving, of the workers whose `close()` has not failed at most one is open, at rest it is exactly the one in `worker`, and at rest the open workers are what `worker` says if and only if no worker whose `close()` failed is still open |
| `TransportLifecycle.OpeningStep` | packages/bullmq/src/bullmq-transport.ts:299-308 | exactly the steps that go through to `new Worker` add an open worker, and only when every worker still open is one whose `close()` failed |
| `TransportLifecycle.OneOpenExactly` | packages/bullmq/src/bullmq-transport.ts:297-344 | from every state the invariant allows: one open worker at a time throughout a run if and only if no step constructs a worker while one whose `close()` failed is still open |
| `TransportLifecycle.AtMostOneWorkerExactly` | packages/bullmq/src/bullmq-transport.ts:297-344 | the same from the start, for every interleaving; and a run without a failing `close()` is such a run |
| `TransportLifecycle.AtMostOneWorkerIfCloseSucceeds` | packages/bullmq/src/bullmq-transport.ts:297-344 | with no failing `close()`: at most one open worker, and once all calls have settled the open workers are the one in `worker`, or none |
| `TransportLifecycle.FailedCloseCanLeaveTwoOpen` | packages/bullmq/src/bullmq-transport.ts:332-343 | a schedule with one failing `close()` that ends with two open workers |
| `TransportProgress.StartSettlesExactly` | packages/bullmq/src/bullmq-transport.ts:301-327 | for every interleaving, a start settles well if and only if its own worker became ready |
| `TransportProgress.StopSettlesExactly` | packages/bullmq/src/bullmq-transport.ts:329-343 | for every interleaving, a stop settles well if and only if the start it waited for did and its `close()` did not fail; it has then closed the worker it took, waited for that worker's run to end, and left no worker open but one still being discarded or ones that failed to close |
| `TransportProgress.NothingOpensBeforeTheRunEnds` | packages/bullmq/src/bullmq-transport.ts:298-336 | for every interleaving, a worker is constructed only after every running worker that a stop took is closed and its run has ended, or failed to close |
| `TransportProgress.EveryCallSettles` | packages/bullmq/src/bullmq-transport.ts:297-344 | from every reachable state and without new calls, a bounded number of steps is left, and when none is possible every start and stop has settled and no start still waits for a stop |
| `TransportProgress.StartBringsWorker` | packages/bullmq/src/bullmq-transport.ts:301-327 | a start at rest brings a running worker |
| `TransportProgress.ConstructionFails` | packages/bullmq/src/bullmq-transport.ts:301-309 | a start whose worker cannot be constructed has failed, and the next one may try again |
| `TransportProgress.UnreadyIsDiscarded` | packages/bullmq/src/bullmq-transport.ts:313-322 | a worker that does not become ready is closed again |
| `TransportProgress.StopTakesWorker` | packages/bullmq/src/bullmq-transport.ts:329-343 | a stop at rest closes the running worker, waits for its run and leaves nothing |
| `TransportProgress.CallsJoin` | packages/bullmq/src/bullmq-transport.ts:298-330 | a start joins the one under way or does nothing beside a worker, and a stop joins the one under way |
| `TransportLifecycle.BullMqTransport.BeginStart` | packages/bullmq/src/bullmq-transport.ts:299-311 | refines `start` past its wait, including a constructor that throws |
| `TransportLifecycle.BullMqTransport.StartWorker` | packages/bullmq/src/bullmq-transport.ts:297-300 | refines a call of `start`: at once, or behind the `stop` under way |
| `TransportLifecycle.BullMqTransport.StopWorker` | packages/bullmq/src/bullmq-transport.ts:329-332 | refines a call of `stop` up to `await starting` |
| `TransportLifecycle.BullMqTransport.RunNextJob` | packages/bullmq/src/bullmq-transport.ts:312-343 | refines every continuation of `start` and `stop` |
| `TransportLifecycle.BullMqTransport.FinishClosing` | packages/bullmq/src/bullmq-transport.ts:319-335 | a settling `close()` closes its worker, or leaves it open and marks it as one that failed to close |
| `TransportLifecycle.BullMqTransport.Complete` | packages/bullmq/src/bullmq-transport.ts:313-336 | refines every completion of worker I/O that `start` or `stop` awaits |
| `TransportLifecycle.BullMqTransport.Replay` | packages/bullmq/src/bullmq-transport.ts:297-344 | whatever schedule the methods run on a new object, the largest number of workers open at once is reported, it is at most one if and only if none was constructed beside one that failed to close, and at rest the object's own `worker` names the open worker that has not failed to close |
| `Base64.GroupRoundTrip` | packages/bullmq/src/bullmq-transport.ts:150 | one quantum of section 4 of RFC 4648, padded or not, decodes to its bytes |
| `Base64.RoundTrip` | packages/bullmq/src/bullmq-transport.ts:150 | decoding recovers every byte sequence |
| `Base64.EncodedShape` | packages/bullmq/src/bullmq-transport.ts:142-150 | the expansion bound the step size rests on, and that no character needs escaping |
| `Base64.PublishedVectors` | packages/bullmq/src/bullmq-transport.ts:150 | the encoding agrees with the vectors in section 10 of RFC 4648 |
| `ChunkRetrieval.WireSizeIsFramed` | packages/bullmq/src/bullmq-transport.ts:144-152 | the serialized chunk is at most 256 bytes longer than its content, for every digest and every size below 2^53 |
| `ChunkRetrieval.EveryChunkFits` | packages/bullmq/src/bullmq-transport.ts:122-155 | for every cap of at least 1024, value below 2^53 bytes and request, the serialized chunk fits the cap and the framing error is unreachable |
| `ChunkRetrieval.ServedExactly` | packages/bullmq/src/bullmq-transport.ts:122-155 | for every request: it is refused for exactly one of three reasons, each with its error; otherwise the chunk starts at the requested offset or the first byte, carries the value's digest and size, and decodes to exactly the bytes up to its next offset, as many as the cap allows |
| `ChunkRetrieval.WireSizeExactly` | packages/bullmq/src/bullmq-transport.ts:144-152 | the size of the serialized chunk, to the byte |
| `ChunkRetrieval.RoundsIsCeiling` | packages/bullmq/src/bullmq-transport.ts:143 | the number of requests of a retrieval is the ceiling of total over step, and at least one |
| `ChunkRetrieval.Fetch` | examples/native-transports/src/producer.ts:52-56 | a round succeeds exactly when the value held has the known digest (or none is known at offset 0) and the offset lies in it; it then yields the exact slice and the next offset |
| `ChunkRetrieval.ReadFramed` | examples/native-transports/src/producer.ts:47-68 | the loop of `read`: the whole first value exactly when it is stable for as many requests as its size takes |
| `ChunkRetrieval.Read` | examples/native-transports/src/producer.ts:47-68 | over the real wire form, however the server's value changes between requests: the result is the whole first value if and only if the value is stable for as many requests as its size takes, nothing torn is returned, and no more requests than that are sent |
| `ChunkRetrieval.ReadReplies` | examples/native-transports/src/producer.ts:48-67 | against any server, honest or not: bytes are returned if and only if the chunks up to some point follow one another with one digest, the last says so, and together they have the announced size and digest; they are then exactly those bytes |
| `Outcomes.PublishedFits` | packages/bullmq/src/bullmq-transport.ts:250-296 | a delivery without its identities is refused; the whole event is published if it fits the cap, else the event without its outcome and marked if that fits, else nothing; what is published fits and carries the delivery's identities |
| `Outcomes.Dispatch` | packages/bullmq/src/bullmq-transport.ts:250-296 | the in-place editing of the event refines that publication |
| `Outcomes.NextKeepsInv` | examples/native-transports/src/producer.ts:29-37 | every attempt, hand-out, insert, acknowledgement, loss or removal keeps the inbox invariant and never drops a row |
| `Outcomes.AttemptQueues` | packages/bullmq/src/bullmq-transport.ts:295 | an attempt queues its event under its delivery id unless one is queued, and a refused one does nothing |
| `Outcomes.OutcomeArrives` | examples/native-transports/src/producer.ts:29-37 | a queued event that is handed out, inserted and acknowledged has its row, and a row that existed stays as it is |
| `Outcomes.LossKeepsRows` | examples/native-transports/src/producer.ts:29-37 | a job that is lost or removed leaves every row and every other job |
| `Outcomes.EveryRun` | examples/native-transports/src/producer.ts:20-37 | in every run with repeated attempts, removal and redelivery: at most one row per event id, with its own delivery's identities and within the cap, and acknowledgement only after the row exists |
| `TripTools.SeedFrom` | examples/chat-app/src/trip-tools.ts:32-36 | the loop computes the absolute value of the wrapped hash, at most 2^31 |
| `TripTools.HashIsWrappedPolynomial` | examples/chat-app/src/trip-tools.ts:32-36 | wrapping at every step equals wrapping the exact polynomial once |
| `TripTools.DayRange` | examples/chat-app/src/trip-tools.ts:42-50 | for every seed: a spread of 4 to 7 degrees, and the high above or below the current temperature according to the sign the seed has when shifted |
| `TripTools.WeatherRanges` | examples/chat-app/src/trip-tools.ts:39-56 | for every location: 6 to 27 degrees, five days with a spread of 4 to 7, and highs within 5 degrees above the current temperature if and only if the hash is not -2^31 |
| `TripTools.ConditionsTakeTurns` | examples/chat-app/src/trip-tools.ts:42-53 | for every location, the forecast starts with the current condition and goes through all five in turn |
| `TripTools.OsloForecast` | examples/chat-app/src/trip-tools.ts:39-56 | one ordinary forecast in full |
| `TripTools.ColdForecast` | examples/chat-app/src/trip-tools.ts:32-50 | a location whose hash is -2^31, and its forecast in full, every high below its current temperature |
| `Flights.CodeIsIdempotent` | examples/chat-app/src/trip-tools.ts:92-95 | a three-letter code is its own code |
| `Flights.LettersAppend` | examples/chat-app/src/trip-tools.ts:93 | the letters of a place are those of its parts, in order, and of one character itself or nothing |
| `Flights.CodeTakesLetters` | examples/chat-app/src/trip-tools.ts:92-95 | a code is the first three letters of the place, or all of them padded with X |
| `Flights.ClockRoundTrip` | examples/chat-app/src/trip-tools.ts:97-101 | reading a clock back gives the minute of the day |
| `Flights.SortByPriceSorts` | examples/chat-app/src/trip-tools.ts:125 | the sorted flights are a price-ordered permutation |
| `Flights.SortIsStable` | examples/chat-app/src/trip-tools.ts:125 | flights of one price keep their order |
| `Flights.StableSortIsUnique` | examples/chat-app/src/trip-tools.ts:125 | a price-ordered, stable arrangement of the flights is unique, so any stable sort gives this one |
| `Flights.SortInPlace` | examples/chat-app/src/trip-tools.ts:125 | the array is sorted where it is: cheapest first, a permutation, equal to the stable sort of its old contents |
| `Flights.SearchFlights` | examples/chat-app/src/trip-tools.ts:108-127 | the options, generated into an array and sorted in place, are the search result the lemmas are about |
| `Flights.RouteSeed` | examples/chat-app/src/trip-tools.ts:109-110 | every six-letter route has a seed in [1632456256, 2^31 - 1] |
| `Flights.ChoiceRanges` | examples/chat-app/src/trip-tools.ts:111-124 | every option takes 120 to 360 minutes, costs 149 to 744 dollars and arrives later the same day, by exactly its duration |
| `Flights.SearchReturnsChoices` | examples/chat-app/src/trip-tools.ts:108-127 | a search returns exactly the four options of its route codes |
| `Flights.SearchRanges` | examples/chat-app/src/trip-tools.ts:108-127 | for every pair of places: four flights, cheapest first, all within the ranges |
| `Flights.OneSearch` | examples/chat-app/src/trip-tools.ts:108-127 | one search in full: ids, airlines, times, durations, stops and prices, cheapest first |
| `Flights.EveryFoundFlightIsLookedUp` | examples/chat-app/src/trip-tools.ts:171-176 | for every pair of places and every flight found, `lookupFlight` of its id returns exactly that flight |
| `Flights.LookupSucceedsExactly` | examples/chat-app/src/trip-tools.ts:171-176 | a lookup succeeds if and only if the id is that of one of the four options of some route |
| `DeliveryRecorder.EveryRunKeepsKeys` | examples/decoupled-delivery/src/delivery-recorder.ts:18-70 | in every run of deliveries, budget changes and resets, the effects' keys are distinct and are exactly the completed deliveries |
| `DeliveryRecorder.OneDelivery` | examples/decoupled-delivery/src/delivery-recorder.ts:42-70 | each delivery is one attempt; it fails exactly while failures stand in the way, using up one of the destination or else of the target; otherwise the effect is recorded unless its key is completed |
| `DeliveryRecorder.ResetForgets` | examples/decoupled-delivery/src/delivery-recorder.ts:18-24 | after a reset nothing is recorded and nothing stands in the way of any delivery |
| `DeliveryRecorder.FailuresAreSet` | examples/decoupled-delivery/src/delivery-recorder.ts:26-32 | the failure switches make that many deliveries of a destination or to a target fail, and change nothing else |
| `DeliveryRecorder.EveryRunKeepsAttempts` | examples/decoupled-delivery/src/delivery-recorder.ts:12-48 | in every run, the attempts are those since the last reset, in order, and every effect was delivered |
| `DeliveryRecorder.SameDeliveryExactly` | examples/decoupled-delivery/src/delivery-recorder.ts:49 | with keys, deliveries are the same for the same key; without, and without colons in their destinations, for the same destination and run |
| `DeliveryRecorder.ColonConfuses` | examples/decoupled-delivery/src/delivery-recorder.ts:49-50 | two deliveries without keys that are taken for one |
| `DeliveryRecorder.BatchStep` | examples/decoupled-delivery/src/whatsapp-approval-destination.ts:16-37 | one attempt at a batch succeeds if and only if no failure stands in its way; otherwise it uses exactly one unit, and delivered plus pending effects are conserved |
| `DeliveryRecorder.RetryDeliversOnce` | examples/decoupled-delivery/src/whatsapp-approval-destination.ts:16-37 | retried from the start, a batch fails exactly as often as failures remain for it, then succeeds, having added exactly the pending effects, once each and in order |
| `DeliveryRecorder.FreshBatchDeliversEach` | examples/decoupled-delivery/src/whatsapp-approval-destination.ts:16-37 | with distinct, fresh ids that is exactly one effect per interrupt, in order, with the item's own key, recipient and text |
| `DeliveryRecorder.UnsendableNeverSucceeds` | examples/decoupled-delivery/src/whatsapp-approval-destination.ts:21-23 | a malformed approval, or one without an id, keeps every attempt from succeeding |
| `DeliveryRecorder.BatchAlone` | examples/decoupled-delivery/src/whatsapp-approval-destination.ts:16-37 | an attempt that nothing interleaves with is the undisturbed attempt |
| `DeliveryRecorder.BatchAmongOthers` | examples/decoupled-delivery/src/whatsapp-approval-destination.ts:16-37 | whatever deliveries and budget changes happen at the `await`s, effects keep matching completed keys, nothing delivered is undone, and an attempt that returns has delivered every item exactly once |
| `DeliveryRecorder.AttemptAmong` | examples/decoupled-delivery/src/whatsapp-approval-destination.ts:16-37 | whatever others deliver and whatever failures they ask for, a failing attempt uses up at least one of the failures in its way, old or newly asked for |
| `DeliveryRecorder.RetrySucceedsAmongOthers` | examples/decoupled-delivery/src/whatsapp-approval-destination.ts:16-37 | whatever others deliver and whatever failures they ask for, during and between attempts, one attempt more than the failures that stood in the way plus those asked for is enough, and every item has then been delivered exactly once |
| `DeliveryRecorder.Deliveries.RecordDelivery` | examples/decoupled-delivery/src/delivery-recorder.ts:42-70 | the in-place code refines the recording step: repeat, failing destination, failing target, new effect |
| `DeliveryRecorder.Deliveries.DeliverApprovals` | examples/decoupled-delivery/src/whatsapp-approval-destination.ts:16-37 | the loop, with arbitrary operations of others at each `await`, refines one attempt among others; if it returns and nobody resets the recorder, every item has been delivered exactly once |
| `DeliveryRecorder.Deliveries.Replay` | examples/decoupled-delivery/src/delivery-recorder.ts:12-70 | after any operations on the module's own state, the effects' keys are distinct and are the completed deliveries |
| `MemoryNamespace.ComponentRoundTrip` | examples/deep-agent/src/memory-namespace.ts:15-20 | a decoder recovers every sequence of UTF-16 code units |
| `MemoryNamespace.ComponentAlphabet` | examples/deep-agent/src/memory-namespace.ts:10-20 | a component uses only the store's alphabet and is empty only for the empty identity |
| `MemoryNamespace.OnlyOthersAreEscaped` | examples/deep-agent/src/memory-namespace.ts:15-20 | an identity in the permitted alphabet is its own component, and any other character becomes its number between tildes |
| `MemoryNamespace.NamespacesAreDistinct` | examples/deep-agent/src/memory-namespace.ts:23-32 | a namespace is given exactly to a non-empty identity: "memories" and a component from which the identity can be read back; two identities never share one |
| `EnvFile.ParseEnvFile` | packages/config/src/resolve-env.ts:16-37 | the loop refines the line-by-line parse |
| `EnvFile.JoinOverrides` | packages/config/src/resolve-env.ts:16-37 | for every two texts, joining them with a newline parses to the first overridden by the second |
| `EnvFile.PrintRoundTrip` | packages/config/src/resolve-env.ts:16-37 | every list of printable bindings, printed in either quote, parses back to its map |
| `EnvFile.PrintableExactly` | packages/config/src/resolve-env.ts:18-34 | a single binding survives printing and parsing if and only if it is printable |
| `EnvFile.EnvironmentPrintsExactly` | packages/config/src/resolve-env.ts:16-37 | an environment, as any list of bindings with distinct keys, survives printing in either quote and parsing if and only if every one of its bindings is printable |
| `EnvFile.ExportOverwrites` | packages/config/src/resolve-env.ts:22-34 | for every printable key, printing it together with the key `export ` in front of it loses its value |
| `EnvFile.KeySource` | packages/config/src/resolve-env.ts:18-34 | every key read back from a printed environment comes from one of its lines |
| `EnvFile.ExportIsIgnored` | packages/config/src/resolve-env.ts:22 | a leading `export ` changes nothing |
| `EnvFile.NothingToBind` | packages/config/src/resolve-env.ts:19-24 | blank lines, comments and lines without `=` bind nothing |
| `EnvFile.UnquotedLine` | packages/config/src/resolve-env.ts:29-34 | a value that is not between two of the same quotes is kept as it is, an empty one or one with a stray quote too |
| `EnvFile.TrimExactly` | packages/config/src/resolve-env.ts:19-29 | trimming takes all the white space around a text and nothing else |
| `EnvFile.PaddedLine` | packages/config/src/resolve-env.ts:19-29 | white space around a line, a key or a value is ignored |
| `EnvFile.SpacedExportIsNoKey` | packages/config/src/resolve-env.ts:22-27 | a key `export` with white space after it binds nothing |
| `ProjectEnv.EverySequenceOfApplications` | packages/cli/src/project-env.ts:24-37 | for every sequence of applications, an ambient key keeps its value and any other key holds the value of the last environment that has it |
| `ProjectEnv.Environment.ApplyEnv` | packages/cli/src/project-env.ts:30-37 | the loop refines one application |
| `ProjectEnv.Environment.ApplyEach` | packages/cli/src/project-env.ts:24-37 | after any sequence of applications by the methods, every key of the process environment has its ambient value or the last one given |
| `ReloadLoop.NextKeepsInv` | packages/cli/src/dev-command.ts:284-330 | every change, timer and completion keeps the invariant that ties flags, timers and history together |
| `ReloadLoop.EveryInterleaving` | packages/cli/src/dev-command.ts:284-335 | at most one reload runs, never more reloads than timer firings, at most one timer waits, and once nothing waits or runs the last reload started after the last relevant change |
| `ReloadLoop.NoReloadWithoutChange` | packages/cli/src/dev-command.ts:324-330 | there are never more reloads than relevant changes, and none at all without one |
| `ReloadLoop.ChangeIsReloaded` | packages/cli/src/dev-command.ts:287-330 | a relevant change puts off the waiting timer, whose firing starts a reload or asks for another |
| `ReloadLoop.Reloader.OnFileEvent` | packages/cli/src/dev-command.ts:324-330 | an irrelevant change does nothing, a relevant one replaces the waiting timer |
| `ReloadLoop.Reloader.OnReloadSettled` | packages/cli/src/dev-command.ts:312-318 | refines the `finally` block, after success or failure |
| `ReloadLoop.Reloader.Replay` | packages/cli/src/dev-command.ts:284-335 | whatever schedule the callbacks run, the object's own fields have one reload and one timer at most, and an up-to-date last reload once nothing is left to do |
| `GraphCache.EveryInterleaving` | packages/config/src/load-config.ts:127-147 | two unfailed loads of one graph are the same, a request joins it or starts the next, and a handler evicts only its own load |
| `GraphCache.SuccessIsKept` | packages/config/src/load-config.ts:127-137 | a load that succeeded is served after every further schedule, and its graph is never loaded again |
| `GraphCache.SettledWellIsServed` | packages/config/src/load-config.ts:128-137 | once the work behind a load succeeds, every later request for its graph gets that load, whatever happens in between |
| `GraphCache.SettledBadlyIsRetried` | packages/config/src/load-config.ts:131-136 | once it fails and the failure has been handled, the next request starts the work again |
| `GraphCache.PromiseCache.Get` | packages/config/src/load-config.ts:128-137 | refines `memoize` |
| `GraphCache.PromiseCache.Replay` | packages/config/src/load-config.ts:127-147 | whatever schedule of requests, settlements and handlers runs, the object's own cache holds exactly the loads that have not failed |
| `DevState.EveryRunOfSaves` | packages/cli/src/dev-state.ts:25-30 | for every run of saves, failures and crashes, the state file is what it was or the whole of the last snapshot whose write completed, and skipping unchanged snapshots leaves the same file as always writing |
| `DevState.SavedOnce` | packages/cli/src/dev-command.ts:264-271 | a snapshot that was written is the whole state file, is remembered, and is not written again |
| `DevState.FailedSaveIsForgotten` | packages/cli/src/dev-command.ts:266-274 | a write that fails leaves the state file as it was, beside at most a beginning of the snapshot, and is not remembered |
| `DevState.DevServer.WriteDevStateFile` | packages/cli/src/dev-state.ts:25-30 | refines write and rename, stopped at any point |
| `DevState.DevServer.SaveSnapshot` | packages/cli/src/dev-command.ts:264-275 | refines `saveState`: skipped when unchanged, remembered only after success |
| `DevState.DevServer.Replay` | packages/cli/src/dev-command.ts:264-275 | after any saves, failures and crashes the file on disk is what it was or the whole of the last snapshot whose write completed |

## Left out

- The json-render compiler and catalog validation are parameters: a compiler is a function of the texts
  pushed so far, and an exception is `None`. What validation makes of a saved spec when it is read back is any
  function, the same at every read; a saved plan that no longer validates is an unparsable reply. Schema failures appear as malformed or unparsable inputs.
- User-facing texts of the plan session are an enumeration; listeners are taken not to call the session back
  from inside `publish`; thread and run ids are not empty.
- LangGraph's interrupt and replay: a review run may resume late, repeatedly or with a foreign decision.
- A text generator that throws counts as an abort after the chunks it yielded.
- What the promises returned to callers of `start` and `stop` resolve to, and a worker's own work.
- `parseCommand`, `processCommand`, `classify`, authentication, BullMQ, Redis and SQLite internals.
- SHA-256 is any function to 64 hexadecimal digits under which no later value collides with the first one
  read; the wire JSON of values, `JSON.parse` of the result and the leniency of `Buffer.from` on malformed
  base64 are not modelled.
- URLs other than the outcome target, `projectResult` (its result is a parameter) and the wire JSON of an
  outcome (its size is a parameter).
- `toUpperCase` is any function that leaves capitals alone, and locations are lowered by the caller; weekday
  labels and the echoed place names are not modelled.
- The booking tool and its interrupt.
- Approval texts of the WhatsApp destination (one opaque body) and the grouping of its interrupts.
- Windows' case-insensitive environment; which files `applyProjectEnv` reads, their precedence and its
  warning.
- Which file paths are relevant to a reload (a flag), the reload's own work, creating the state directory,
  and other writers of the state file.
- Unknown graph ids and precomputed schemas; the graph cache and the schema cache are two instances of one
  model.
- `packages/agent-protocol`, stores, React and desktop code, command-line flags and the other examples.
