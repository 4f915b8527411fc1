# V4L2 JPEG decoder demo, modelled in Dafny

This project models the core of a V4L2 stateful JPEG decoder demo. The demo
finds the decoder, and optionally a camera, through the media controller.
It sets up the decoder's OUTPUT (bitstream) and CAPTURE (picture) queues and
each buffer in them. Buffers are allocated in one of three ways:

- by the V4L2 device, then mapped;
- from a dma-heap, then mapped;
- imported from another queue's buffers as dma-buf handles.

Imported buffers let the camera's MJPEG capture buffers feed the decoder
without a copy. The demo then runs decode rounds:

1. queue an OUTPUT and a CAPTURE buffer;
2. switch the streams on;
3. poll with a timeout;
4. dequeue the completed pair.

Between rounds it advances a cursor over each buffer pool, and it brackets
every CPU access with dma-buf sync calls. The standalone Cedrus demo
(`cedrus-jpeg-decode-demo.c`) is an earlier version of the same flow with
its own device probe, pools, access mapping and run loop. It is modelled in
a separate module.

Every call into the kernel, libc or libudev is a method of `Kernel.Kernel`.
Each one appends the call and its answer to a ghost `trace`. Every answer is
arbitrary, with one exception: a camera dequeue hands back the index of a
buffer that was queued (`Kernel.DequeueQueued`), as V4L2 does. Everything
the demo promises is stated in one of two ways:

- about the calls it leaves in the trace (their order, which of them run
  after a failure, what is closed and freed);
- about the fields of the demo's state, which are classes updated in place
  (`State.Demo`, `State.Decoder`, `State.Camera`, `State.Buffer`).

Module layout:

- `kernel.dfy`: constants, the call and event vocabulary, and the oracle.
- `calls.dfy`: fail-fast call sequences, the poll wait, format negotiation.
- `state.dfy`: the demo context, its pools and the cursor arithmetic.
- `buffer.dfy`: buffer sync, setup by each allocator, pool setup, cleanup.
- `media.dfy`: the media-controller topology query and the role walk.
- `decoder.dfy`, `camera.dfy`: the decoder and camera devices.
- `pipeline.dfy`: the order of `demo_setup` and `demo_cleanup`.
- `cedrus.dfy`: the standalone Cedrus demo.


## Model

| member | source | states |
|---|---|---|
| Kernel.PollFailure | demo_decoder.c:131-135 | the code for a poll that did not report the device ready is always negative: a timeout (0) becomes -ETIMEDOUT and an error answer is passed on unchanged |
| Kernel.Kernel.DequeueQueued | demo_camera.c:118-125 | a dequeue from a queue that holds `queued` buffers hands back the index of one of them, with whatever code, and the call is traced |
| Calls.Failure | demo_decoder.c:131-135 | a poll that did not report ready gives a negative code, -ETIMEDOUT for a timeout; a pixel-format check that stopped a run gives -EINVAL; any other call gives its own status |
| Calls.RanFailFast | demo_decoder.c:83-171 | a run is a fail-fast prefix of its plan; the code is 0 exactly when every call was issued and succeeded, and otherwise it is the failure code of the last call, which failed |
| Calls.RanSequence | demo_decoder.c:83-171 | a completed run of one plan followed by a run of another is a run of the two plans joined |
| Calls.RanStopped | demo_decoder.c:83-171 | a failed run of a plan is also a run of that plan followed by anything: nothing after the failing call is issued |
| Calls.RanThen | demo_decoder.c:83-171 | a phase, then the next phase only if the first returned 0, is one run of the joined plans with the first failure's code |
| Calls.RanSnoc | demo_decoder.c:83-171 | one more call after a completed run extends it, with code 0 or that call's failure code |
| Calls.CallPair | demo_decoder.c:137-163 | two status calls in order, the second only after the first succeeded, returning the first failure's code |
| Calls.Wait | demo_decoder.c:131-135 | one poll with the given timeout; 0 only when it reported the device ready, otherwise -ETIMEDOUT or the poll's error |
| Calls.CheckPixelFormat | demo_decoder.c:228-243 | one pixel-format query; 0 when the format is supported, -EINVAL otherwise |
| Calls.NegotiationRan | demo_decoder.c:263-273 | a negotiation is a fail-fast run of a try with the request and then a set with what the try wrote back; on success the field holds what the set wrote back, on failure the request or the tried format |
| Calls.NegotiateFormat | demo_decoder.c:263-273 | try and then set the format, stopping at the first failure, the format field following what each successful ioctl wrote back |
| State.AllocatorMemory | demo_camera.c:164-169 | a memory type exists exactly for the V4L2 and dma-heap allocators; it is MMAP exactly for V4L2, and DMABUF otherwise |
| State.Buffer.constructor | demo.h:33-40 | a zero-initialised buffer: no plane used, no mapping, every handle field 0 |
| State.JpegSizeHint | demo_camera.c:196-197 | the size hint is below 2^32 and congruent to width * height * 3 modulo 2^32, and equal to it when the product fits in unsigned int |
| State.Advance | demo_decoder.c:47-65 | after up to a full round of cycles the cursor still indexes the pool |
| State.NextInPool | demo_decoder.c:47-65 | one cycle keeps the cursor inside the pool |
| State.AdvanceNext | demo_decoder.c:47-65 | zero cycles leave the cursor at the start and each further cycle is one more wrap-around increment, so Advance is exactly what repeated cycles compute |
| State.Distance | demo_decoder.c:47-65 | the number of cycles from one index of the pool to another is less than the count |
| State.CycleRound | demo_camera.c:41-52 | count cycles bring the cursor back to the start; the positions on the way are pairwise distinct; every index is reached after Distance cycles |
| State.NewPool | demo.h:33-40 | a pool of fresh, pairwise distinct, valid buffers with no plane used |
| State.Decoder.constructor | demo.h:42-66 | two fresh pools that share no buffer, no video node (-1), both counts and both cursors 0 |
| State.Camera.constructor | demo.h:68-81 | a fresh pool, no video node (-1), count and cursor 0 |
| State.Demo.OutputNotCamera | demo.h:88-100 | no output buffer of the decoder is a capture buffer of the camera, whatever the two indices |
| State.Demo.PoolsDisjoint | demo.h:88-100 | the decoder's two pools and the camera's pool pairwise share no buffer |
| State.Demo.constructor | demo.c:609-610 | a valid context with a fresh footprint: file source, V4L2 allocator, heap handle and size 0, both video nodes -1, every count 0 |
| DemoBuffer.SyncDirection | demo.c:41-55 | WRITE exactly for the output types, READ exactly for the capture types (single- or multi-planar), 0 exactly for every other type |
| DemoBuffer.SyncStopped | demo.c:68-74 | a failure on the plane after the synced ones ends a sync that did not complete, returning that plane's code |
| DemoBuffer.SyncDone | demo.c:68-74 | a sync that reached every used plane successfully completed its plan |
| DemoBuffer.Sync | demo.c:57-75 | no handle on plane 0: 0 and no call; otherwise one sync per used plane in order, stopping at the first failure; 0 exactly when all completed, else the failing call's code |
| DemoBuffer.SyncBegin | demo.c:77-82 | the sync of every used plane carries the buffer's direction and START, with the same stopping rule; a failure returns the code of the last call, the one that failed |
| DemoBuffer.SyncFinish | demo.c:84-89 | the sync of every used plane carries the buffer's direction and END, with the same stopping rule; a failure returns the code of the last call, the one that failed |
| DemoBuffer.SyncBeginFinishFlags | demo.c:77-89 | begin flags are exactly the direction; finish flags have the END bit set and keep the direction in the low bits |
| DemoBuffer.Based | demo.c:107-114 | the buffer after its header is set and its query answered: type, memory and index as given, `count` planes, each used plane owning no handle and taking the reported length and offset, mappings and unused planes kept |
| DemoBuffer.SetupBase | demo.c:91-123 | more planes than the type allows is -EINVAL with no call and no change; otherwise the header is set, every used plane's handle becomes -1, mappings and other planes are kept, and one query is issued whose plane lengths and offsets the buffer takes (the view `Based` describes) |
| DemoBuffer.ProgressStart | demo.c:125-236 | a plane loop starts with no plane done |
| DemoBuffer.ProgressStep | demo.c:125-236 | a step that succeeds on the next plane extends the loop's progress by that plane alone |
| DemoBuffer.ProgressStop | demo.c:125-236 | a step that fails on the next plane ends the loop with its code: the planes before it are done and those after it untouched |
| DemoBuffer.ProgressDone | demo.c:125-236 | a loop that reached every used plane ends with 0, every plane done |
| DemoBuffer.DevicePlane | demo.c:221-233 | plane i is mapped from the device at its reported length and offset; no other plane and no handle changes |
| DemoBuffer.SetupV4l2 | demo.c:213-236 | every used plane is mapped from the device in order; a refused mapping stops the loop with -ENOMEM and earlier planes keep their mappings |
| DemoBuffer.HeapPlane | demo.c:187-208 | plane i gets a heap allocation of its length as its own handle, mapped at offset 0; no other plane changes |
| DemoBuffer.SetupDmaHeap | demo.c:178-211 | every used plane is allocated and mapped in order; either failure returns -ENOMEM and earlier planes keep theirs |
| DemoBuffer.ImportPlane | demo.c:139-172 | plane i takes the memory of the exporter's plane i, which must be at least as long, through its heap handle or through an export |
| DemoBuffer.ShareHeapPlane | demo.c:148-151 | the exporter's own heap handle, which must exist, is mapped, and the importer takes no handle of its own |
| DemoBuffer.ExportPlane | demo.c:152-172 | the exporter's plane is exported, a duplicate of the handle is kept as the importer's own, and the exported handle is mapped |
| DemoBuffer.SetupImport | demo.c:125-176 | differing plane counts are -EINVAL with no call and no change; otherwise every used plane is imported in order, stopping at the first failure |
| DemoBuffer.StrategyFor | demo.c:255-267 | a strategy exists exactly when importing or the allocator is known; it imports exactly when importing; the buffer owns handles exactly for a heap allocation, and for an import when the allocator is not the dma-heap one |
| DemoBuffer.OutcomeRealised | demo.c:238-270 | a plane loop that succeeded after the base setup leaves the buffer realised: every used plane got its memory by the strategy and owns a handle exactly when the strategy allocated or duplicated one |
| DemoBuffer.RealisedMapped | demo.c:238-270 | every used plane of a realised buffer holds a mapping |
| DemoBuffer.Setup | demo.c:238-270 | too many planes is -EINVAL with no call; otherwise the query comes first and a failure of it is returned; an unknown allocator without import is -EINVAL; after a good query with a known strategy the outcome is that strategy's, from the queried buffer: an import with differing plane counts is -EINVAL with no call and no change, otherwise the planes are stepped in order and a failure returns the failing plane step's code with earlier planes done; on 0 the buffer is realised by the selected strategy |
| DemoBuffer.BuffersStep | demo_decoder.c:308-318 | a buffer made ready after a successful query extends the pool loop's progress, and the buffers already ready stay ready |
| DemoBuffer.BuffersStop | demo_decoder.c:308-318 | a buffer that fails ends the loop with its code, its query's error when the query failed, the buffers before it ready |
| DemoBuffer.BuffersDone | demo_decoder.c:308-318 | once every buffer of the pool is ready, the loop's outcome is 0 |
| DemoBuffer.SetupPoolBuffer | demo_decoder.c:308-318 | buffer `index` is set up with one plane and its own index, importing the camera buffer of the same index when asked; no other buffer changes; a failed query is returned with no plane step; a failure after a good query is -EINVAL with no call for an unknown allocator, or the failure of its strategy (plane-count mismatch, or the failing plane step's code with earlier planes done); on 0 it is ready |
| DemoBuffer.SetupBuffersTurn | demo_decoder.c:308-318 | one turn of the pool loop either extends its progress or ends it with the failing buffer's code: its query's error, or its strategy's failure as `BufferFailedIn` states |
| DemoBuffer.SetupBuffers | demo_decoder.c:308-318 | the buffers are set up in index order with a single plane, stopping at the first failure, whose code is that buffer's failed query or its strategy's failure; 0 only when all are ready |
| DemoBuffer.SetupPool | demo_decoder.c:294-320 | POOL_SIZE buffers are requested, a refusal being returned; then each is set up in order, a failing buffer's query error or strategy failure being returned; 0 only when every buffer is ready |
| DemoBuffer.CleanupEventsOwned | demo.c:280-289 | the cleanup unmaps every used plane, closes exactly the handles that are not negative, and issues no other call |
| DemoBuffer.CleanedReleased | demo.c:272-290 | after a cleanup no used plane holds a mapping or a handle and the rest is unchanged; a second cleanup changes nothing and closes nothing, so no handle is closed twice |
| DemoBuffer.Cleanup | demo.c:272-290 | the used planes are unmapped and forget their mapping, the owned handles are closed and set to -1, and the calls are exactly those of the old state's cleanup |
| DemoBuffer.CleanupPool | demo_decoder.c:362-363 | the first `count` buffers are cleaned up in order and the others are left as they were |
| DemoBuffer.CleanupPoolBuffer | demo_decoder.c:362-363 | one round of the cleanup loop: buffer i goes to its cleaned state and the others keep theirs |
| DemoBuffer.ReleasePool | demo_decoder.c:360-366 | the cleanup loop over the first `count` buffers, then the queue's buffers destroyed whatever the count |
| DemoDecoder.Current | demo_decoder.c:25-45 | a buffer exists exactly for the output and capture types (output checked first): the one under that queue's cursor; an unknown type has none (-EINVAL) |
| DemoDecoder.Cycle | demo_decoder.c:47-65 | 0 exactly for the two queue types, else -EINVAL; only the selected queue's cursor moves, to its wrap-around successor; settings, video node and counts are unchanged |
| DemoDecoder.DequeuePair | demo_decoder.c:137-163 | two dequeues in order, the second only after the first succeeded |
| DemoDecoder.CopyBytesUsed | demo_decoder.c:97-111 | the first `count` planes take the source planes' bytes-used; lengths, offsets and handles are kept, and later planes are unchanged |
| DemoDecoder.CopyUsed | demo_decoder.c:97-111 | the output buffer's used planes take the camera buffer's bytes-used in place, and no other field changes |
| DemoDecoder.QueueBuffers | demo_decoder.c:83-117 | the capture buffer is queued, then the output buffer, fail-fast; the bytes-used are copied only when asked and once the capture queue succeeded |
| DemoDecoder.Run | demo_decoder.c:67-178 | the calls are a fail-fast run of the round plan: queue capture and output, stream both on, poll for 300 ms, dequeue both, stream both off; with the camera as source the output buffer takes the bytes-used of the camera buffer under the capture cursor once the capture buffer is queued; nothing else changes |
| DemoDecoder.Decode | demo_decoder.c:83-171 | both queues, then the stream plan, as one fail-fast run, with the copy rule of Run |
| DemoDecoder.Stream | demo_decoder.c:119-171 | stream on capture then output, then the wait and the collection, fail-fast |
| DemoDecoder.Drain | demo_decoder.c:131-171 | poll with the decode timeout, then dequeue both and stream both off, fail-fast |
| DemoDecoder.Collect | demo_decoder.c:137-171 | dequeue capture then output, then stream both off, fail-fast |
| DemoDecoder.Memories | demo_decoder.c:196-211 | memory types exist exactly for the known allocators; the capture queue maps (MMAP) exactly under V4L2, the output queue exactly under V4L2 without importing the camera |
| DemoDecoder.OutputSize | demo_decoder.c:252-261 | the camera buffer's plane length when importing, otherwise width * height * 3 modulo 2^32 |
| DemoDecoder.Setup | demo_decoder.c:180-352 | no video node is -ENODEV and an unknown allocator -EINVAL, both with no call and nothing changed; otherwise the settings, the formats (checks, then negotiations) and the queues, stopping at the first failure, with each field and count as the outcomes say |
| DemoDecoder.Settle | demo_decoder.c:196-224 | the memory types and JPEG output / NV16 capture at the demo's size are set; counts, cursors and every pool are unchanged |
| DemoDecoder.Configure | demo_decoder.c:226-349 | the formats, then the two pools only if the formats returned 0; otherwise the pools and counts are untouched |
| DemoDecoder.QueuesPhase | demo_decoder.c:294-349 | the output pool, then the capture pool only after it succeeded; each count becomes POOL_SIZE only once its pool is set up |
| DemoDecoder.SetFormats | demo_decoder.c:247-292 | only the two format fields change |
| DemoDecoder.SetCounts | demo_decoder.c:320-349 | each count becomes POOL_SIZE when its pool is set up; nothing else changes |
| DemoDecoder.FormatsRan | demo_decoder.c:226-292 | the format phase is one fail-fast run: the JPEG output and NV16 capture checks, then the output's try and set, then the capture's |
| DemoDecoder.SetupFormats | demo_decoder.c:226-292 | a missing pixel format stops with -EINVAL; the output is negotiated, then the capture only if that succeeded; a field that is never negotiated keeps its value |
| DemoDecoder.CheckFormats | demo_decoder.c:226-243 | the JPEG output check, then the NV16 capture check, fail-fast |
| DemoDecoder.SetupQueues | demo_decoder.c:294-349 | the output pool, importing the camera's buffers when it is the source, then only after it succeeded the capture pool, which never imports |
| DemoDecoder.SetupOutputPool | demo_decoder.c:294-320 | the output pool is set up, with the camera's buffers as exporters when importing; the other pools are unchanged |
| DemoDecoder.SetupCapturePool | demo_decoder.c:322-349 | the capture pool is set up from the allocator, never importing; the other pools are unchanged |
| DemoDecoder.Cleanup | demo_decoder.c:354-375 | the output pool's counted buffers are cleaned up and its queue destroyed, then the same for the capture pool; the camera pool is unchanged |
| DemoDecoder.CleanupOutputs | demo_decoder.c:360-366 | the output pool is released and the other pools are unchanged |
| DemoDecoder.CleanupCaptures | demo_decoder.c:368-374 | the capture pool is released and the other pools are unchanged |
| DemoCamera.Current | demo_camera.c:27-39 | the buffer under the cursor, one of the pool's |
| DemoCamera.Cycle | demo_camera.c:41-52 | the cursor moves to its wrap-around successor |
| DemoCamera.QueuePlan | demo_camera.c:68-82 | one queue call per buffer the count covers |
| DemoCamera.RoundPlan | demo_camera.c:96-126 | the queue of the buffer dequeued before, if there was one, then always the 4-second poll and a dequeue |
| DemoCamera.Roll | demo_camera.c:54-147 | queue every buffer from the cursor, then stream on, count + 1 rounds, stream off and sync, each phase only after the previous one succeeded; the cursor moves once per queued buffer |
| DemoCamera.RollComposed | demo_camera.c:54-147 | a queue phase and, after its success, the stream phases form a roll |
| DemoCamera.RollSucceeded | demo_camera.c:54-147 | a roll that returns 0 queued every buffer and left the cursor where it started, streamed on once, completed count + 1 rounds, streamed off, and synced every buffer |
| DemoCamera.RoundRequeues | demo_camera.c:96-125 | every round after the first opens by queueing again the buffer the previous round dequeued, a buffer of the pool because the dequeue hands back a queued one; the first opens with the wait |
| DemoCamera.Stream | demo_camera.c:84-144 | stream on, then the capture rounds only if that succeeded |
| DemoCamera.Capture | demo_camera.c:90-144 | count + 1 rounds, then the finish only if every round succeeded |
| DemoCamera.Finish | demo_camera.c:128-144 | stream off, then the syncs only if that succeeded |
| DemoCamera.QueueAll | demo_camera.c:68-82 | the queue plan from the cursor, fail-fast, the cursor moving once per queued buffer |
| DemoCamera.QueueDone | demo_camera.c:68-82 | a queue loop that ran the whole plan ends with 0, the cursor moved on once per buffer of the count |
| DemoCamera.QueueTurn | demo_camera.c:68-82 | queue the buffer under the cursor, then cycle on success; a failure ends the phase with its code |
| DemoCamera.QueueCurrent | demo_camera.c:68-82 | one queue call for the buffer under the cursor, with its type and index |
| DemoCamera.QueueStep | demo_camera.c:68-82 | one more successful queue extends the queued prefix; a failure ends the phase with its code, the cursor where it was |
| DemoCamera.Round | demo_camera.c:99-125 | a fail-fast run of the round plan; the dequeued index is a pool index, the one answer of the kernel the model restricts |
| DemoCamera.Rounds | demo_camera.c:96-126 | count + 1 rounds, each queueing again the pool buffer dequeued before it, stopping at the first failure |
| DemoCamera.RoundsStep | demo_camera.c:96-126 | a round that queued again what the previous round dequeued extends the rounds run so far |
| DemoCamera.SyncAll | demo_camera.c:136-144 | the counted buffers are synced in order with WRITE and END, up to the first failure |
| DemoCamera.SetupReady | demo_camera.c:212-239 | a setup that returns 0 leaves the count at POOL_SIZE and every buffer with one capture plane of the allocator's memory and its own index, mapped from the device or allocated from the heap, never imported |
| DemoCamera.Setup | demo_camera.c:149-242 | no video node is -ENODEV and an unknown allocator -EINVAL, both with no call and no change; otherwise MJPEG capture at the demo's size, then the check, the negotiation with the size hint and the pool, stopping at the first failure; on 0 the count is POOL_SIZE |
| DemoCamera.Prepare | demo_camera.c:171-239 | once the memory is known: the settings, then the check, the negotiation and the pool |
| DemoCamera.Settle | demo_camera.c:171-175 | the capture settings are assigned; the format, video node, count and cursor are unchanged |
| DemoCamera.Configure | demo_camera.c:179-239 | a missing MJPEG format is -EINVAL with nothing changed; otherwise the negotiation and then the pool |
| DemoCamera.Formats | demo_camera.c:189-239 | the negotiation, then the pool only if it succeeded; the count becomes POOL_SIZE only when every buffer was set up |
| DemoCamera.Adopt | demo_camera.c:200-239 | the negotiated format is kept; a failed negotiation is returned with no call and the pool unchanged; otherwise the pool is set up |
| DemoCamera.Provide | demo_camera.c:212-239 | the pool is set up without import; the count becomes POOL_SIZE only on success |
| DemoCamera.SetFormat | demo_camera.c:200-210 | the format field is set and every pool is unchanged |
| DemoCamera.SetCount | demo_camera.c:239 | the count becomes POOL_SIZE and every pool is unchanged |
| DemoCamera.SetupCameraPool | demo_camera.c:214-237 | the capture pool is set up without import; the decoder's pools are unchanged |
| DemoCamera.Cleanup | demo_camera.c:244-257 | the counted buffers are cleaned up and the queue destroyed; the decoder's pools are unchanged |
| Media.FindFrom | demo.c:369-412 | the first position from `from` on whose element satisfies the predicate; none exactly when no such element exists |
| Media.Find | demo.c:369-412 | a result is in the sequence and satisfies the predicate; none exactly when no element does |
| Media.Resolve | demo.c:369-412 | a route the walk finds joins an entity with the role, its sink pad, that pad's link, the source pad, its link and the interface |
| Media.ResolveNeedsRecords | demo.c:327-331 | a graph lacking some kind of record, or any entity with the role, resolves to nothing |
| Media.FindUnique | demo.c:369-412 | the lookup returns the only element that satisfies the predicate |
| Media.ResolveUniqueRoute | demo.c:369-412 | when every hop of a route is the only record that fits, the walk returns exactly that route |
| Media.FetchSucceeded | demo.c:319-367 | a query that returns 0 allocated all four arrays, saw no zero count and filled the graph with its seventh call |
| Media.AllocateArrays | demo.c:333-363 | the four arrays are allocated in order, the first refusal stopping the rest with -ENOMEM |
| Media.FetchTopology | demo.c:319-367 | the counts, then the arrays, then the records, fail-fast, a zero count being -ENODEV; the arrays acquired are a prefix of the four |
| Media.FreesExactly | demo.c:441-451 | every acquired array is freed exactly once, the last acquired first, and nothing else is freed |
| Media.Release | demo.c:437-451 | the media node is closed when it was opened, then every acquired array is freed |
| Media.OpenDevnode | demo.c:414-431 | the device lookup by number first; no device is -ENODEV and nothing more; otherwise the devnode query, then an open of the path it gave, a NULL path included, whose result is the handle (a failure is its code), then the device released when the caller releases it |
| Media.OpenMediaDecoder | demo.c:292-454 | a failed open is returned alone; otherwise the query, the walk to the decoder's interface, the device lookup, the devnode query, the open of that node and the release of the device, then the media node closed and every array freed; the video handle changes only on success |
| Media.TryInterface | demo.c:539-575 | an interface is accepted with a handle that captures, or passed over: not a video node, no device, a failed open (of a NULL devnode too) or probe, or no capture; a found device is released right after the open |
| Media.ScanInterfaces | demo.c:539-575 | the first interface accepted wins, every interface before it passed over; none accepted is -ENODEV after all were tried |
| Media.OpenMediaCamera | demo.c:456-594 | the query, then a camera-sensor entity required (else -ENODEV), then the scan, then the media node closed and every array freed; the video handle changes only on success |
| DemoPipeline.SetupSucceeded | demo.c:699-736 | a setup that returns 0 opened the heap when the allocator is the dma-heap one, set up the camera exactly when it is the source, and set up the decoder last; by the stage results, the camera then had its fd and allocator, passed the MJPEG check and the negotiation and holds a full pool, and the decoder passed both checks and negotiations and holds two full pools |
| DemoPipeline.Setup | demo.c:699-736 | records source, allocator and size; the heap, the camera and the decoder in that order, each stage only after the earlier ones succeeded, the failing stage's code returned; the trace is the heap open followed by the camera's and the decoder's setup runs; a stage that ran did exactly what its own setup promises from the demo's context (camera: DemoCamera.SetupResult; decoder: DemoDecoder.SetupResult with its pools being the decoder's buffers); a decoder that runs with the camera as source finds its full pool |
| DemoPipeline.Prepare | demo.c:708-719 | the source, allocator and size are recorded; the dma-heap is opened only for the dma-heap allocator, its handle kept when the open succeeded; the camera and the decoder are unchanged |
| DemoPipeline.Stages | demo.c:721-735 | the camera stage exactly when the camera is the source, and the decoder stage only after the camera succeeded, the failing stage's code returned; each stage that ran did what its own setup promises |
| DemoPipeline.CameraStage | demo.c:721-727 | the camera setup: the trace grows by the camera run's calls; the camera's format, pool and count go as DemoCamera.SetupResult says from its context; the decoder and the context are unchanged; success leaves the camera pool at the full count |
| DemoPipeline.DecoderStage | demo.c:729-733 | the decoder setup: the trace grows by the formats run and the queues run; the decoder's settings, counts and pools go as DemoDecoder.SetupResult says from its context (fd, allocator, import, size and provisions taken before), the pools returned being its buffers; the camera is unchanged |
| DemoPipeline.Cleanup | demo.c:738-750 | the decoder's pools, then the camera's when it is the source, then the heap handle under the dma-heap allocator, each counted buffer cleaned up |
| DemoPipeline.ReleaseDecoder | demo.c:743 | both decoder pools are released and the camera pool is unchanged |
| DemoPipeline.ReleaseCamera | demo.c:745-746 | the camera pool is released only when the camera is the source; otherwise nothing is called; the decoder pools are unchanged |
| DemoPipeline.CloseHeap | demo.c:748-749 | the heap handle is closed exactly under the dma-heap allocator |
| Cedrus.CedrusDemo.constructor | cedrus-jpeg-decode-demo.c:260-261 | both handles -1, the V4L2 allocator, counts and cursors 0, and two fresh pools |
| Cedrus.Probe | cedrus-jpeg-decode-demo.c:83-247 | a failed open is returned alone; otherwise the query, the walk from the role's entity, the device lookup (none: -ENODEV), the devnode query and the open of that node, the device never released; success records both handles and keeps the media node open, a failure closes only the media node; every array is freed |
| Cedrus.Walk | cedrus-jpeg-decode-demo.c:109-246 | the query, then the walk, the device lookup, the devnode query and the open, once the media node is open; the failing step's code, the open's own code when it fails |
| Cedrus.Locate | cedrus-jpeg-decode-demo.c:159-221 | a missing hop is -ENODEV with no call; otherwise no device is -ENODEV, and a found device's devnode is opened, NULL included, a failed open returning its code and a successful one recorded with the media node; the device is not released |
| Cedrus.PlaneStrategy | cedrus-jpeg-decode-demo.c:388-425 | planes are allocated from the heap exactly under the dma-heap allocator, mapped from the device exactly under V4L2, and get no memory under another allocator |
| Cedrus.SetupBase | cedrus-jpeg-decode-demo.c:365-386 | more planes than the type allows is -EINVAL with no call and no change; otherwise one query, whose plane layout the buffer takes, no handle being cleared |
| Cedrus.BufferSetup | cedrus-jpeg-decode-demo.c:352-428 | the query, then each used plane by the allocator's strategy, stopping at the first failure |
| Cedrus.SetupReady | cedrus-jpeg-decode-demo.c:352-428 | a setup that returns 0 leaves the buffer ready: its header as asked and every used plane given its memory |
| Cedrus.UnmapsHas | cedrus-jpeg-decode-demo.c:439-443 | the unmap calls are one per used plane, in order, each with the plane's mapping and length |
| Cedrus.ClosesHas | cedrus-jpeg-decode-demo.c:445-450 | the close calls are one per used plane, in order, whatever the handle's value |
| Cedrus.ReleaseUndoesSetup | cedrus-jpeg-decode-demo.c:388-450 | the cleanup of a ready buffer unmaps every mapping its setup obtained; under the dma-heap allocator it closes every handle the heap handed out, under V4L2 it closes nothing; a second cleanup changes nothing more |
| Cedrus.BufferCleanup | cedrus-jpeg-decode-demo.c:430-451 | every used plane is unmapped, then every handle closed under the dma-heap allocator; the buffer ends released |
| Cedrus.UnmapPlanes | cedrus-jpeg-decode-demo.c:439-443 | every used plane is unmapped in order and forgets its mapping |
| Cedrus.CloseHandles | cedrus-jpeg-decode-demo.c:445-450 | every used plane's handle is closed in order and cleared |
| Cedrus.PoolStep | cedrus-jpeg-decode-demo.c:682-690 | a buffer made ready extends the pool loop's progress |
| Cedrus.PoolStop | cedrus-jpeg-decode-demo.c:682-690 | a buffer that fails ends the pool loop with its code |
| Cedrus.SetupPoolBuffer | cedrus-jpeg-decode-demo.c:682-690 | buffer `index` is set up with one plane; no other buffer changes |
| Cedrus.SetupBuffersTurn | cedrus-jpeg-decode-demo.c:709-717 | one turn of the pool loop either extends its progress or ends it with the failing buffer's code |
| Cedrus.SetupBuffers | cedrus-jpeg-decode-demo.c:682-690 | the buffers are set up in index order, stopping at the first failure |
| Cedrus.SetupPool | cedrus-jpeg-decode-demo.c:671-690 | POOL_SIZE buffers are requested, a refusal being returned, then set up in order; the other pool is unchanged |
| Cedrus.PoolReady | cedrus-jpeg-decode-demo.c:671-690 | a pool set up with 0 has every buffer ready with one plane of the queue's type and its own index, and mapped under a known allocator |
| Cedrus.SelectedAllocator | cedrus-jpeg-decode-demo.c:578-595 | only a known allocator gets past the selection: V4L2 with MMAP memory and no call, the dma-heap one with DMABUF memory and the heap open |
| Cedrus.SelectAllocator | cedrus-jpeg-decode-demo.c:578-595 | V4L2 selects MMAP; the dma-heap allocator selects DMABUF and opens the heap, whose failure is returned; another allocator is -EINVAL with nothing changed |
| Cedrus.Settle | cedrus-jpeg-decode-demo.c:595-608 | the allocator, JPEG output and NV16 capture, both 1280 by 720, are recorded; formats and counts are unchanged |
| Cedrus.NegotiateFormats | cedrus-jpeg-decode-demo.c:610-667 | both pixel-format checks, then the output negotiation and the capture negotiation, stopping at the first failure; only the format fields change |
| Cedrus.SetFormats | cedrus-jpeg-decode-demo.c:628-667 | the output and capture format fields end holding what the negotiation left in them, and nothing else of the demo changes |
| Cedrus.OutputPool | cedrus-jpeg-decode-demo.c:669-692 | the output pool is set up, and its count becomes POOL_SIZE only on success; the capture pool is unchanged |
| Cedrus.SetOutputCount | cedrus-jpeg-decode-demo.c:692 | the output count becomes POOL_SIZE and nothing else changes |
| Cedrus.CapturePool | cedrus-jpeg-decode-demo.c:694-719 | the capture pool is set up, and its count becomes POOL_SIZE only on success; the output pool is unchanged |
| Cedrus.SetCaptureCount | cedrus-jpeg-decode-demo.c:719 | the capture count becomes POOL_SIZE and nothing else changes |
| Cedrus.Configure | cedrus-jpeg-decode-demo.c:575-667 | the allocator, then the settings and the formats only if it succeeded; the pools are unchanged |
| Cedrus.Pools | cedrus-jpeg-decode-demo.c:669-721 | the output pool, then the capture pool only if it succeeded, each count becoming POOL_SIZE once its pool is set up |
| Cedrus.Setup | cedrus-jpeg-decode-demo.c:565-722 | the allocator, the settings, the formats, then the two pools, stopping at the first failure, whose code is returned; a failure before the pools leaves them unchanged |
| Cedrus.Current | cedrus-jpeg-decode-demo.c:453-467 | a buffer exists exactly for the output and capture types (output checked first): the valid one under that queue's cursor |
| Cedrus.Cycle | cedrus-jpeg-decode-demo.c:469-485 | 0 exactly for the two queue types, else -EINVAL; only the selected cursor moves, to its wrap-around successor |
| Cedrus.AccessPlane | cedrus-jpeg-decode-demo.c:487-520 | an unused plane is -EINVAL and changes nothing; otherwise the plane's mapping is handed out; an output access records the size as bytes-used exactly when the plane can hold it; a capture access reports the plane's bytes-used |
| Cedrus.AccessRoundTrip | cedrus-jpeg-decode-demo.c:487-520 | an image written into a plane by an output access reads back with the same size and mapping by a capture access of it |
| Cedrus.BufferAccess | cedrus-jpeg-decode-demo.c:487-520 | an unknown type is -EINVAL; otherwise the buffer under the cursor is accessed as AccessPlane says, and only the output queue's buffer can change |
| Cedrus.Direction | cedrus-jpeg-decode-demo.c:535-540 | WRITE exactly for the output type, READ exactly for the capture type, none (-EINVAL) otherwise |
| Cedrus.Sync | cedrus-jpeg-decode-demo.c:522-553 | nothing and 0 unless the allocator is the dma-heap one; then an unknown type is -EINVAL, otherwise one sync per used plane in order, stopping at the first failure |
| Cedrus.SyncCalls | cedrus-jpeg-decode-demo.c:546-550 | syncs exist exactly for a known type, one per used plane of the buffer under the cursor |
| Cedrus.SyncPlanes | cedrus-jpeg-decode-demo.c:546-550 | the used planes are synced in order, stopping at the first failure, whose code is returned |
| Cedrus.SyncBegin | cedrus-jpeg-decode-demo.c:555-558 | Sync with START; a failure of a sync call returns the code of the last call, the one that failed |
| Cedrus.SyncFinish | cedrus-jpeg-decode-demo.c:560-563 | Sync with END; a failure of a sync call returns the code of the last call, the one that failed |
| Cedrus.SyncFlagsDirected | cedrus-jpeg-decode-demo.c:522-563 | begin flags are exactly the direction; finish flags have the END bit set and keep the direction; the two directions are distinct bits |
| Cedrus.CleanupPoolBuffer | cedrus-jpeg-decode-demo.c:734-737 | buffer i goes to its released state and the others keep theirs |
| Cedrus.CleanupPool | cedrus-jpeg-decode-demo.c:734-737 | the first `count` buffers are released in order, then the queue's buffers destroyed; the other pool is unchanged |
| Cedrus.Cleanup | cedrus-jpeg-decode-demo.c:724-748 | the counted buffers of each pool are released (handles cleared only under the dma-heap allocator); the calls are the output pool's cleanups and destroy, the capture pool's, then the heap close under the dma-heap allocator |
| Cedrus.CleanupPools | cedrus-jpeg-decode-demo.c:732-744 | the output pool released and destroyed, then the capture pool |
| Cedrus.PoolReleasesHas | cedrus-jpeg-decode-demo.c:734-737 | every cleanup call of a counted buffer is among the pool's cleanup calls |
| Cedrus.PoolCleanupUndoesSetup | cedrus-jpeg-decode-demo.c:671-737 | the cleanup of a pool set up with 0 unmaps every mapping its buffers obtained and, under the dma-heap allocator, closes every handle the heap handed out |
| Cedrus.Run | cedrus-jpeg-decode-demo.c:750-836 | as corrected (see Findings): the calls are a fail-fast run of the round plan: queue capture and output, stream both on, poll, dequeue both, stream both off; a poll that did not report ready is -ETIMEDOUT or its error |
| Cedrus.RunReportsCompletion | cedrus-jpeg-decode-demo.c:750-836 | a run returns 0 exactly when every call of its plan, the poll included, was issued and succeeded; otherwise it returns the failing call's code |
| Cedrus.ReportedWithoutPoll | cedrus-jpeg-decode-demo.c:793-797 | with no poll in the plan, the code as written is the fail-fast code |
| Cedrus.ReportedAfter | cedrus-jpeg-decode-demo.c:793-833 | the code as written is decided by the last phase of the run |
| Cedrus.RunAsWritten | cedrus-jpeg-decode-demo.c:750-836 | the run as the code has it: the same calls, but a poll that stopped the run hands back its own answer |
| Cedrus.StreamAsWritten | cedrus-jpeg-decode-demo.c:781-833 | stream both on, then the drain as written, fail-fast |
| Cedrus.DrainAsWritten | cedrus-jpeg-decode-demo.c:793-833 | the poll, then the collection only after a positive answer; a poll answer that is not positive is returned as is |
| Cedrus.TimeoutReportedAsSuccess | cedrus-jpeg-decode-demo.c:793-797 | a run whose every call succeeds up to a poll that answers 0 dequeues nothing, does not complete, and reports 0 as written, where the corrected run returns -ETIMEDOUT |

## Left out

- `main`, argument parsing, the file source (`demo_file_*`), the dump of decoded pictures and the perf timers are I/O around the core. They are not modelled.
- The contents of JPEG bitstreams and decoded pictures are not modelled. A mapping is a token, and the payload and its size are parameters.
- v4l2.c, media.c, dma_heap.c and dma_buf.c are not part of this model. Their ioctls and allocations are calls to the kernel oracle, with arbitrary answers. The topology find helpers are first-match lookups.
- The udev enumeration that finds the media nodes, in `demo_open` (demo.c:596-678) and in `cedrus_demo_open` (cedrus-jpeg-decode-demo.c:249-334), is left out, and so are the closes of the video handles in `demo_close` and `cedrus_demo_close`. Each resolver takes the media path as a parameter.
- The NULL-pointer guards at the top of most functions (each returns -EINVAL for a missing argument) are left out: every reference in the model is non-null.
- Partial failure is not unwound, just as the source does not unwind it. A failed setup leaves what it acquired for the cleanup.
- Handles passed over by the camera's interface scan, and handles exported for an import, are not closed. The model records that they stay open; it does not add a close.
- Timeouts are the source's constants. The clock itself and the time poll spends waiting are not modelled.
- Concurrency does not arise: the demo is single-threaded.
- DemoCamera.Round, DemoCamera.Rounds, DemoCamera.RoundRequeues: the dequeued index is in the pool because `Kernel.DequeueQueued` only hands back a queued buffer, as V4L2 does. The source indexes the pool with it unchecked (demo_camera.c:124-125), so an out-of-range answer from a faulty driver is not modelled. The decoder and Cedrus dequeues take any index, as their source only reports an unexpected one.
- Cedrus.Probe: only the media node is closed on failure. At the error label the video handle is always still negative, so the close of the video handle never runs. The model follows the code here, not a reading in which both are closed.
- State.Advance, DemoDecoder.Cycle, DemoCamera.Cycle, Cedrus.Cycle: require the pool count to be positive, because the source computes the successor modulo the count and a zero count is a division by zero there.

## Findings

| source | as written | input that shows it | evidently intended | confidence | as-written member | corrected member |
|---|---|---|---|---|---|---|
| cedrus-jpeg-decode-demo.c:793-797 | `if (ret <= 0) { fprintf(...); return ret; }` returns the poll's answer, so a timed-out poll (0) makes the run report success | every call up to stream-on succeeds and poll answers 0 | a timeout returns -ETIMEDOUT, as the decoder demo does at demo_decoder.c:131-135 | not executed | Cedrus.RunAsWritten | Cedrus.Run |
