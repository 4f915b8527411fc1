/**
 * demo.c: demo_setup and demo_cleanup, which order the setups and the
 * cleanups of the camera and of the decoder around the dma-heap.
 */
module DemoPipeline {
  import opened Kernel
  import opened State
  import opened DemoBuffer
  import DemoDecoder
  import DemoCamera

  /** The dma-heap the demo allocates from. */
  const DMA_HEAP_NAME := "reserved"

  /**
   * What demo_setup did, stage by stage: the dma-heap open, the camera
   * setup and the decoder setup, each with whether it ran, what it did and
   * its code.
   */
  datatype SetupStages = SetupStages(heap: seq<Event>, cameraRan: bool, camera: DemoCamera.SetupRun, cameraRet: int,
                                     decoderRan: bool, formats: DemoDecoder.FormatsRun,
                                     queues: Option<DemoDecoder.QueuesRun>, pools: DemoDecoder.Pools,
                                     decoderRet: int)
  {
    predicate WellFormed() {
      camera.WellFormed() && (queues.Some? ==> queues.value.WellFormed())
    }

    /** The calls of the decoder setup. */
    function Decoder(): seq<Event>
      requires WellFormed()
    {
      formats.Log() + if queues.Some? then queues.value.Log() else []
    }

    /** The calls of the camera and the decoder setups. */
    function Devices(): seq<Event>
      requires WellFormed()
    {
      camera.Log() + Decoder()
    }

    function Log(): seq<Event>
      requires WellFormed()
    {
      heap + Devices()
    }
  }

  /** A camera setup that made no call. */
  const NO_CAMERA := DemoCamera.SetupRun([], 0, DemoCamera.FormatRun([], 0, None))

  /** A stage that did not run made no call and has code 0. */
  ghost predicate SkippedIdle(s: SetupStages) {
    s.WellFormed() &&
    (!s.cameraRan ==> s.camera == NO_CAMERA && s.cameraRet == 0) &&
    (!s.decoderRan ==> s.Decoder() == [] && s.decoderRet == 0)
  }

  /**
   * The stages after the dma-heap: the camera is set up exactly when it is
   * the source, and the decoder only once that succeeded; `ret` is the
   * camera's failure or the decoder's code.
   */
  ghost predicate DevicesOrdered(source: int, s: SetupStages, ret: int) {
    (s.cameraRan <==> source == SOURCE_CAMERA) &&
    (s.cameraRet != 0 ==> ret == s.cameraRet && !s.decoderRan) &&
    (s.cameraRet == 0 ==> s.decoderRan && ret == s.decoderRet)
  }

  /**
   * The order of demo_setup: the dma-heap is opened first, only for the
   * dma-heap allocator, and a negative handle is returned as it is, with
   * no other stage run; otherwise the stages go as DevicesOrdered says.
   */
  ghost predicate SetupOrdered(allocator: int, source: int, s: SetupStages, ret: int) {
    SkippedIdle(s) &&
    (allocator != ALLOCATOR_DMA_HEAP ==> s.heap == []) &&
    (allocator == ALLOCATOR_DMA_HEAP ==> |s.heap| == 1 && s.heap[0].op == HeapOpen(DMA_HEAP_NAME)) &&
    if allocator == ALLOCATOR_DMA_HEAP && s.heap[0].ret < 0 then
      ret == s.heap[0].ret && !s.cameraRan && !s.decoderRan
    else
      DevicesOrdered(source, s, ret)
  }

  /** A decoder setup that made no call, and the pools it left alone. */
  const NO_FORMATS := DemoDecoder.FormatsRun([], 0, [], 0, [])
  const NO_POOLS := DemoDecoder.Pools([], [], Provision(ALLOCATOR_V4L2, -1, false, [], -1, -1),
                                      Provision(ALLOCATOR_V4L2, -1, false, [], -1, -1))

  /**
   * A setup succeeds only when every stage it needed ran and succeeded:
   * the heap opened when the allocator is the dma-heap, the camera set up
   * when it is the source, and the decoder set up, last.  With the stage
   * results Setup promises, this means the camera had a video fd and a
   * known allocator, passed its MJPEG check and its negotiation and holds
   * a full pool, and the decoder had a video fd and known memories, passed
   * both format checks and negotiations and holds two full pools.
   */
  lemma SetupSucceeded(allocator: int, source: int, s: SetupStages,
                       cx: CameraContext, cameraHeld: CameraHeld, cameraAfter: CameraHeld,
                       dx: DecoderContext, decoderHeld: DecoderHeld, decoderAfter: DecoderHeld)
    requires SetupOrdered(allocator, source, s, 0)
    requires s.cameraRan ==> CameraResult(cx, cameraHeld, cameraAfter, s.camera, s.cameraRet)
    requires s.decoderRan ==> DecoderResult(dx, decoderHeld, decoderAfter, s.pools, s.formats, s.queues, s.decoderRet)
    ensures allocator == ALLOCATOR_DMA_HEAP ==> s.heap[0].ret >= 0
    ensures s.cameraRan <==> source == SOURCE_CAMERA
    ensures s.cameraRet == 0 && s.decoderRan && s.decoderRet == 0
    ensures s.cameraRan ==>
              cx.fd >= 0 && AllocatorMemory(cx.allocator).Some? &&
              s.camera.checkRet == 0 && s.camera.format.negotiationRet == 0 && s.camera.format.pool.Some? &&
              cameraAfter.count == POOL_SIZE
    ensures dx.fd >= 0 && DemoDecoder.Memories(dx.allocator, dx.importCamera).Some? &&
            s.formats.checkRet == 0 && s.formats.outputRet == 0 &&
            s.queues.Some? && s.queues.value.outputRet == 0 && s.queues.value.capture.Some? &&
            decoderAfter.counts == (POOL_SIZE, POOL_SIZE)
  {
  }

  /** What the camera held before its setup, and holds after it, as values. */
  datatype CameraHeld = CameraHeld(format: Format, views: seq<BufferView>, count: nat)

  function CameraHeldOf(c: Camera): CameraHeld
    reads c, c.captureBuffers
  {
    CameraHeld(c.captureFormat, Views(c.captureBuffers), c.captureBuffersCount)
  }

  /** What the camera setup depends on: the camera's video fd and provision, the demo's allocator and size. */
  datatype CameraContext = CameraContext(p: Provision, fd: int, allocator: int, width: nat, height: nat)

  function CameraContextOf(demo: Demo): CameraContext
    reads demo, demo.camera
  {
    CameraContext(ProvisionOf(demo, demo.camera.videoFd, false), demo.camera.videoFd, demo.allocator,
                  demo.width, demo.height)
  }

  /** The camera setup in context `x`, on a camera that held `held` and now holds `after`, did what DemoCamera.SetupResult says. */
  ghost predicate CameraResult(x: CameraContext, held: CameraHeld, after: CameraHeld, run: DemoCamera.SetupRun,
                               ret: int)
  {
    DemoCamera.SetupResult(x.p, x.fd, x.allocator, x.width, x.height, held.format, held.views, held.count,
                           run, ret, after.format, after.views, after.count)
  }

  /** What the decoder held before its setup, and holds after it, as values. */
  datatype DecoderHeld = DecoderHeld(output: QueueSettings, capture: QueueSettings, counts: (nat, nat),
                                     outputs: seq<BufferView>, captures: seq<BufferView>)

  function DecoderHeldOf(d: Decoder): DecoderHeld
    reads d, d.outputBuffers, d.captureBuffers
  {
    DecoderHeld(d.Output(), d.Capture(), (d.outputBuffersCount, d.captureBuffersCount),
                Views(d.outputBuffers), Views(d.captureBuffers))
  }

  /**
   * What the decoder setup depends on besides the decoder: its video fd, the
   * demo's allocator, source and size, the size of an output buffer and the
   * provisions of the two pools.
   */
  datatype DecoderContext = DecoderContext(fd: int, allocator: int, importCamera: bool, width: nat, height: nat,
                                           outputSize: nat, p: Provision, q: Provision)

  function DecoderContextOf(demo: Demo): DecoderContext
    requires demo.camera.Valid()
    reads demo, demo.decoder, demo.camera, demo.camera.captureBuffers
  {
    var importCamera := demo.source == SOURCE_CAMERA;
    DecoderContext(demo.decoder.videoFd, demo.allocator, importCamera, demo.width, demo.height,
                   DemoDecoder.OutputSize(importCamera, DemoDecoder.CameraLength(demo.camera), demo.width, demo.height),
                   ProvisionOf(demo, demo.decoder.videoFd, importCamera), ProvisionOf(demo, demo.decoder.videoFd, false))
  }

  /**
   * The decoder setup in context `x`, on a decoder that held `held` and now
   * holds `after`, did what DemoDecoder.SetupResult says, and its pools are
   * the decoder's buffers.
   */
  ghost predicate DecoderResult(x: DecoderContext, held: DecoderHeld, after: DecoderHeld, pools: DemoDecoder.Pools,
                                formats: DemoDecoder.FormatsRun, queues: Option<DemoDecoder.QueuesRun>, ret: int)
  {
    pools.outputs == after.outputs && pools.captures == after.captures &&
    DemoDecoder.SetupResult(x.fd, x.allocator, x.importCamera, x.width, x.height, x.outputSize, x.p, x.q,
                            held.output, held.capture, after.output, after.capture, held.counts, after.counts,
                            held.outputs, held.captures, pools, formats, queues, ret)
  }

  /**
   * demo_setup: record the source, the allocator and the size, open the
   * dma-heap for the dma-heap allocator, then set up the camera when it is
   * the source and finally the decoder, which may import the camera's
   * buffers and so runs only once all three of them are set up.  The
   * camera and the decoder stages did what their setups do.
   */
  method Setup(demo: Demo, source: int, allocator: int, width: nat, height: nat, k: Kernel)
    returns (ret: int, ghost stages: SetupStages)
    requires demo.Valid() && width < UINT_MODULUS && height < UINT_MODULUS
    modifies demo, demo.camera, demo.camera.captureBuffers, demo.decoder, demo.decoder.outputBuffers,
             demo.decoder.captureBuffers, k
    ensures demo.Valid()
    ensures demo.source == source && demo.allocator == allocator && demo.width == width && demo.height == height
    ensures SetupOrdered(allocator, source, stages, ret)
    ensures k.trace == old(k.trace) + stages.Log()
    ensures allocator == ALLOCATOR_DMA_HEAP && stages.heap[0].ret >= 0 ==> demo.dmaHeapFd == stages.heap[0].ret
    ensures allocator != ALLOCATOR_DMA_HEAP ==> demo.dmaHeapFd == old(demo.dmaHeapFd)
    ensures stages.decoderRan && source == SOURCE_CAMERA ==> demo.camera.captureBuffersCount == POOL_SIZE
    ensures stages.cameraRan ==>
              CameraResult(CameraContextOf(demo), old(CameraHeldOf(demo.camera)), CameraHeldOf(demo.camera),
                           stages.camera, stages.cameraRet)
    ensures stages.decoderRan ==>
              DecoderResult(DecoderContextOf(demo), old(DecoderHeldOf(demo.decoder)), DecoderHeldOf(demo.decoder),
                            stages.pools, stages.formats, stages.queues, stages.decoderRet)
  {
    ghost var cameraHeld, decoderHeld := CameraHeldOf(demo.camera), DecoderHeldOf(demo.decoder);
    var heapRet;
    ghost var heap;
    heapRet, heap := Prepare(demo, source, allocator, width, height, k);
    if allocator == ALLOCATOR_DMA_HEAP && heapRet < 0 {
      stages := SetupStages(heap, false, NO_CAMERA, 0, false, NO_FORMATS, None, NO_POOLS, 0);
      assert stages.Devices() == [];
      return heapRet, stages;
    }
    ret, stages := Stages(demo, heap, cameraHeld, decoderHeld, k);
    TraceAppend(old(k.trace), heap, stages.Devices());
  }

  /**
   * The start of demo_setup: record the source, the allocator and the
   * size, then open the dma-heap for the dma-heap allocator and keep its
   * handle when the open succeeded.  The camera and the decoder are left as
   * they are.
   */
  method Prepare(demo: Demo, source: int, allocator: int, width: nat, height: nat, k: Kernel)
    returns (heapRet: int, ghost heap: seq<Event>)
    requires demo.Valid() && width < UINT_MODULUS && height < UINT_MODULUS
    modifies demo, k
    ensures demo.Valid()
    ensures demo.source == source && demo.allocator == allocator && demo.width == width && demo.height == height
    ensures CameraHeldOf(demo.camera) == old(CameraHeldOf(demo.camera)) &&
            DecoderHeldOf(demo.decoder) == old(DecoderHeldOf(demo.decoder))
    ensures k.trace == old(k.trace) + heap
    ensures allocator != ALLOCATOR_DMA_HEAP ==> heap == [] && demo.dmaHeapFd == old(demo.dmaHeapFd)
    ensures allocator == ALLOCATOR_DMA_HEAP ==>
              heap == [Event(HeapOpen(DMA_HEAP_NAME), heapRet, NoOut)] &&
              (heapRet >= 0 ==> demo.dmaHeapFd == heapRet)
  {
    heap, heapRet := [], 0;
    var heapFd := demo.dmaHeapFd;
    if allocator == ALLOCATOR_DMA_HEAP {
      heapRet := k.Call(HeapOpen(DMA_HEAP_NAME));
      heap := [Event(HeapOpen(DMA_HEAP_NAME), heapRet, NoOut)];
      if heapRet >= 0 {
        heapFd := heapRet;
      }
    }
    demo.source, demo.allocator, demo.width, demo.height, demo.dmaHeapFd := source, allocator, width, height, heapFd;
  }

  /**
   * The camera stage, then the decoder stage, of demo_setup, on a camera
   * and a decoder that hold `cameraHeld` and `decoderHeld`.
   */
  method Stages(demo: Demo, ghost heap: seq<Event>, ghost cameraHeld: CameraHeld, ghost decoderHeld: DecoderHeld,
                k: Kernel)
    returns (ret: int, ghost stages: SetupStages)
    requires demo.Valid() && cameraHeld == CameraHeldOf(demo.camera) && decoderHeld == DecoderHeldOf(demo.decoder)
    modifies demo.camera, demo.camera.captureBuffers, demo.decoder, demo.decoder.outputBuffers,
             demo.decoder.captureBuffers, k
    ensures demo.Valid()
    ensures stages.heap == heap && SkippedIdle(stages) && DevicesOrdered(demo.source, stages, ret)
    ensures k.trace == old(k.trace) + stages.Devices()
    ensures stages.decoderRan && demo.source == SOURCE_CAMERA ==> demo.camera.captureBuffersCount == POOL_SIZE
    ensures stages.cameraRan ==>
              CameraResult(CameraContextOf(demo), cameraHeld, CameraHeldOf(demo.camera), stages.camera, stages.cameraRet)
    ensures stages.decoderRan ==>
              DecoderResult(DecoderContextOf(demo), decoderHeld, DecoderHeldOf(demo.decoder),
                            stages.pools, stages.formats, stages.queues, stages.decoderRet)
  {
    ret := 0;
    ghost var camera, cameraAfter := NO_CAMERA, cameraHeld;
    assert NO_CAMERA.Log() == [];
    if demo.source == SOURCE_CAMERA {
      ret, camera, cameraAfter := CameraStage(demo, cameraHeld, decoderHeld, k);
      if ret != 0 {
        stages := SetupStages(heap, true, camera, ret, false, NO_FORMATS, None, NO_POOLS, 0);
        assert stages.Decoder() == [];
        return;
      }
    }
    ghost var mid := k.trace;
    assert mid == old(k.trace) + camera.Log();
    ghost var formats, queues, pools, after;
    ret, formats, queues, pools, after := DecoderStage(demo, DecoderContextOf(demo), decoderHeld, k);
    ghost var decoder := formats.Log() + if queues.Some? then queues.value.Log() else [];
    TraceAppend(mid, formats.Log(), if queues.Some? then queues.value.Log() else []);
    stages := SetupStages(heap, demo.source == SOURCE_CAMERA, camera, 0, true, formats, queues, pools, ret);
    TraceAppend(old(k.trace), camera.Log(), decoder);
  }

  /** The camera stage of demo_setup: demo_camera_setup, which leaves the decoder as it is. */
  method CameraStage(demo: Demo, ghost held: CameraHeld, ghost decoderHeld: DecoderHeld, k: Kernel)
    returns (ret: int, ghost run: DemoCamera.SetupRun, ghost after: CameraHeld)
    requires demo.Valid() && held == CameraHeldOf(demo.camera) && decoderHeld == DecoderHeldOf(demo.decoder)
    modifies demo.camera, demo.camera.captureBuffers, k
    ensures demo.Valid() && run.WellFormed()
    ensures k.trace == old(k.trace) + run.Log()
    ensures ret == 0 ==> demo.camera.captureBuffersCount == POOL_SIZE
    ensures after == CameraHeldOf(demo.camera) && decoderHeld == DecoderHeldOf(demo.decoder)
    ensures CameraContextOf(demo) == old(CameraContextOf(demo))
    ensures CameraResult(CameraContextOf(demo), held, after, run, ret)
  {
    ret, run := DemoCamera.Setup(demo, k);
    after := CameraHeldOf(demo.camera);
  }

  /** The decoder stage of demo_setup: demo_decoder_setup, which leaves the camera as it is. */
  method DecoderStage(demo: Demo, ghost x: DecoderContext, ghost held: DecoderHeld, k: Kernel)
    returns (ret: int, ghost formats: DemoDecoder.FormatsRun, ghost queues: Option<DemoDecoder.QueuesRun>,
             ghost pools: DemoDecoder.Pools, ghost after: DecoderHeld)
    requires demo.Valid() && x == DecoderContextOf(demo) && held == DecoderHeldOf(demo.decoder)
    modifies demo.decoder, demo.decoder.outputBuffers, demo.decoder.captureBuffers, k
    ensures demo.Valid()
    ensures CameraHeldOf(demo.camera) == old(CameraHeldOf(demo.camera)) && CameraContextOf(demo) == old(CameraContextOf(demo))
    ensures x == DecoderContextOf(demo) && after == DecoderHeldOf(demo.decoder)
    ensures DecoderResult(x, held, after, pools, formats, queues, ret)
    ensures k.trace == old(k.trace) + formats.Log() + if queues.Some? then queues.value.Log() else []
  {
    demo.PoolsDisjoint();
    ghost var cameras := Views(demo.camera.captureBuffers);
    ret, formats, queues, pools := DemoDecoder.Setup(demo, k);
    forall j | 0 <= j < POOL_SIZE
      ensures demo.camera.captureBuffers[j].View() == cameras[j]
    {
      assert demo.camera.captureBuffers[j] in demo.camera.captureBuffers;
    }
    after := DecoderHeldOf(demo.decoder);
  }

  /** The calls of demo_cleanup, from what the three pools held before it. */
  function CleanupEvents(outputs: seq<BufferView>, outputCount: nat, captures: seq<BufferView>, captureCount: nat,
                         decoderFd: int, outputType: int, outputMemory: int, captureType: int, captureMemory: int,
                         cameras: seq<BufferView>, cameraCount: nat, cameraFd: int, cameraType: int, cameraMemory: int,
                         source: int, allocator: int, heapFd: int): seq<Event>
    requires outputCount <= |outputs| && ViewsValid(outputs) && captureCount <= |captures| && ViewsValid(captures)
    requires source == SOURCE_CAMERA ==> cameraCount <= |cameras| && ViewsValid(cameras)
  {
    PoolReleaseEvents(outputs, outputCount, decoderFd, outputType, outputMemory) +
    PoolReleaseEvents(captures, captureCount, decoderFd, captureType, captureMemory) +
    (if source == SOURCE_CAMERA then PoolReleaseEvents(cameras, cameraCount, cameraFd, cameraType, cameraMemory) else []) +
    (if allocator == ALLOCATOR_DMA_HEAP then [Event(Close(heapFd), 0, NoOut)] else [])
  }

  /**
   * demo_cleanup: the decoder's pools first, then the camera's when it is
   * the source, and last the dma-heap handle for the dma-heap allocator.
   * Each pool has the buffers its count covers cleaned up.
   */
  method Cleanup(demo: Demo, k: Kernel)
    requires demo.Valid()
    modifies demo.decoder.outputBuffers, demo.decoder.captureBuffers, demo.camera.captureBuffers, k
    ensures demo.Valid()
    ensures var d := demo.decoder;
            PoolCleaned(old(Views(d.outputBuffers)), Views(d.outputBuffers), d.outputBuffersCount) &&
            PoolCleaned(old(Views(d.captureBuffers)), Views(d.captureBuffers), d.captureBuffersCount)
    ensures var c := demo.camera;
            if demo.source == SOURCE_CAMERA then PoolCleaned(old(Views(c.captureBuffers)), Views(c.captureBuffers), c.captureBuffersCount)
            else Views(c.captureBuffers) == old(Views(c.captureBuffers))
    ensures var d, c := demo.decoder, demo.camera;
            ViewsValid(old(Views(d.outputBuffers))) && ViewsValid(old(Views(d.captureBuffers))) &&
            ViewsValid(old(Views(c.captureBuffers))) &&
            k.trace == old(k.trace) +
                       CleanupEvents(old(Views(d.outputBuffers)), d.outputBuffersCount,
                                     old(Views(d.captureBuffers)), d.captureBuffersCount,
                                     d.videoFd, d.outputType, d.outputMemory, d.captureType, d.captureMemory,
                                     old(Views(c.captureBuffers)), c.captureBuffersCount, c.videoFd,
                                     c.captureType, c.captureMemory, demo.source, demo.allocator, demo.dmaHeapFd)
  {
    var d, c := demo.decoder, demo.camera;
    PoolViewsValid(c.captureBuffers);
    ghost var decoder := ReleaseDecoder(demo, k);
    ghost var camera := ReleaseCamera(demo, k);
    TraceAppend(old(k.trace), decoder, camera);
    ghost var heap := CloseHeap(demo, k);
    TraceAppend(old(k.trace), decoder + camera, heap);
  }

  /** The decoder half of demo_cleanup: demo_decoder_cleanup. */
  method ReleaseDecoder(demo: Demo, k: Kernel) returns (ghost log: seq<Event>)
    requires demo.Valid()
    modifies demo.decoder.outputBuffers, demo.decoder.captureBuffers, k
    ensures demo.Valid()
    ensures var d := demo.decoder;
            PoolCleaned(old(Views(d.outputBuffers)), Views(d.outputBuffers), d.outputBuffersCount) &&
            PoolCleaned(old(Views(d.captureBuffers)), Views(d.captureBuffers), d.captureBuffersCount)
    ensures Views(demo.camera.captureBuffers) == old(Views(demo.camera.captureBuffers))
    ensures var d := demo.decoder;
            ViewsValid(old(Views(d.outputBuffers))) && ViewsValid(old(Views(d.captureBuffers))) &&
            log == PoolReleaseEvents(old(Views(d.outputBuffers)), d.outputBuffersCount,
                                     d.videoFd, d.outputType, d.outputMemory) +
                   PoolReleaseEvents(old(Views(d.captureBuffers)), d.captureBuffersCount,
                                     d.videoFd, d.captureType, d.captureMemory)
    ensures k.trace == old(k.trace) + log
  {
    var d := demo.decoder;
    ghost var outputs, captures := Views(d.outputBuffers), Views(d.captureBuffers);
    DemoDecoder.Cleanup(demo, k);
    ghost var outputLog := PoolReleaseEvents(outputs, d.outputBuffersCount, d.videoFd, d.outputType, d.outputMemory);
    ghost var captureLog := PoolReleaseEvents(captures, d.captureBuffersCount, d.videoFd, d.captureType, d.captureMemory);
    TraceAppend(old(k.trace), outputLog, captureLog);
    log := outputLog + captureLog;
  }

  /** The camera half of demo_cleanup: demo_camera_cleanup, only when the camera is the source. */
  method ReleaseCamera(demo: Demo, k: Kernel) returns (ghost log: seq<Event>)
    requires demo.Valid()
    modifies demo.camera.captureBuffers, k
    ensures demo.Valid()
    ensures Views(demo.decoder.outputBuffers) == old(Views(demo.decoder.outputBuffers)) &&
            Views(demo.decoder.captureBuffers) == old(Views(demo.decoder.captureBuffers))
    ensures var c := demo.camera;
            ViewsValid(old(Views(c.captureBuffers))) &&
            (if demo.source == SOURCE_CAMERA then PoolCleaned(old(Views(c.captureBuffers)), Views(c.captureBuffers), c.captureBuffersCount)
             else Views(c.captureBuffers) == old(Views(c.captureBuffers))) &&
            log == (if demo.source == SOURCE_CAMERA
                    then PoolReleaseEvents(old(Views(c.captureBuffers)), c.captureBuffersCount, c.videoFd,
                                           c.captureType, c.captureMemory)
                    else [])
    ensures k.trace == old(k.trace) + log
  {
    PoolViewsValid(demo.camera.captureBuffers);
    log := [];
    if demo.source == SOURCE_CAMERA {
      ghost var cameras := Views(demo.camera.captureBuffers);
      DemoCamera.Cleanup(demo, k);
      log := PoolReleaseEvents(cameras, demo.camera.captureBuffersCount, demo.camera.videoFd,
                               demo.camera.captureType, demo.camera.captureMemory);
    }
  }

  /** The last step of demo_cleanup: close the dma-heap handle for the dma-heap allocator. */
  method CloseHeap(demo: Demo, k: Kernel) returns (ghost log: seq<Event>)
    requires demo.Valid()
    modifies k
    ensures demo.Valid()
    ensures Views(demo.decoder.outputBuffers) == old(Views(demo.decoder.outputBuffers)) &&
            Views(demo.decoder.captureBuffers) == old(Views(demo.decoder.captureBuffers)) &&
            Views(demo.camera.captureBuffers) == old(Views(demo.camera.captureBuffers))
    ensures log == if demo.allocator == ALLOCATOR_DMA_HEAP then [Event(Close(demo.dmaHeapFd), 0, NoOut)] else []
    ensures k.trace == old(k.trace) + log
  {
    log := [];
    if demo.allocator == ALLOCATOR_DMA_HEAP {
      k.Void(Close(demo.dmaHeapFd));
      log := [Event(Close(demo.dmaHeapFd), 0, NoOut)];
    }
  }
}
