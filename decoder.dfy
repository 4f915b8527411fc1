/**
 * demo_decoder.c: the cursors of the decoder's two pools, one decode run,
 * and the setup and cleanup of its output (JPEG) and capture (NV16) queues.
 */
module DemoDecoder {
  import opened Kernel
  import opened State
  import opened DemoBuffer
  import opened Calls

  /** How long, in microseconds, a decode run waits for the decoder. */
  const DECODE_TIMEOUT_US := 300000

  /* ---- demo_decoder_buffer_current / demo_decoder_buffer_cycle ---- */

  /**
   * The buffer under the cursor of the queue of type `bufType`; the output
   * type is checked first.  None stands for -EINVAL, an unknown type.
   */
  function Current(d: Decoder, bufType: int): (b: Option<Buffer>)
    requires d.Valid()
    reads d, d.outputBuffers, d.captureBuffers
    ensures b.Some? <==> bufType == d.outputType || bufType == d.captureType
    ensures bufType == d.outputType ==> b == Some(d.outputBuffers[d.outputBufferIndex])
    ensures bufType != d.outputType && bufType == d.captureType ==>
              b == Some(d.captureBuffers[d.captureBufferIndex])
  {
    if bufType == d.outputType then Some(d.outputBuffers[d.outputBufferIndex])
    else if bufType == d.captureType then Some(d.captureBuffers[d.captureBufferIndex])
    else None
  }

  /**
   * Move the cursor of the queue of type `bufType` to the next buffer of its
   * pool, wrapping at the count; the other cursor and every setting are left
   * alone.  The count of the selected queue must not be 0, as the code
   * divides by it.
   */
  method Cycle(d: Decoder, bufType: int) returns (ret: int)
    requires d.Valid()
    requires bufType == d.outputType ==> d.outputBuffersCount > 0
    requires bufType != d.outputType && bufType == d.captureType ==> d.captureBuffersCount > 0
    modifies d
    ensures d.Valid()
    ensures d.Output() == old(d.Output()) && d.Capture() == old(d.Capture()) && d.videoFd == old(d.videoFd)
    ensures d.outputBuffersCount == old(d.outputBuffersCount) && d.captureBuffersCount == old(d.captureBuffersCount)
    ensures ret == 0 <==> bufType == d.outputType || bufType == d.captureType
    ensures ret != 0 ==> ret == -EINVAL
    ensures d.outputBufferIndex ==
              if bufType == d.outputType then Next(old(d.outputBufferIndex), d.outputBuffersCount)
              else old(d.outputBufferIndex)
    ensures d.captureBufferIndex ==
              if bufType != d.outputType && bufType == d.captureType
              then Next(old(d.captureBufferIndex), d.captureBuffersCount)
              else old(d.captureBufferIndex)
  {
    if bufType == d.outputType {
      d.outputBufferIndex := (d.outputBufferIndex + 1) % d.outputBuffersCount;
    } else if bufType == d.captureType {
      d.captureBufferIndex := (d.captureBufferIndex + 1) % d.captureBuffersCount;
    } else {
      return -EINVAL;
    }
    ret := 0;
  }

  /* ---- demo_decoder_run ---- */

  /** The calls of a decode run, in order: queue both buffers, stream on, wait, dequeue, stream off. */
  ghost function RunPlan(d: Decoder): seq<Op>
    requires d.Valid()
    reads d, d.outputBuffers, d.captureBuffers
  {
    var capture := Current(d, d.captureType).value;
    var output := Current(d, d.outputType).value;
    [Queue(d.videoFd, capture.bufType, capture.index), Queue(d.videoFd, output.bufType, output.index)] +
    StreamPlan(d.videoFd, d.captureType, d.captureMemory, d.outputType, d.outputMemory)
  }

  /** The calls of a run once both buffers are queued. */
  function StreamPlan(fd: int, captureType: int, captureMemory: int, outputType: int, outputMemory: int): seq<Op> {
    [StreamOn(fd, captureType), StreamOn(fd, outputType)] +
    DrainPlan(fd, captureType, captureMemory, outputType, outputMemory)
  }

  /** The calls of a run once both streams are on. */
  function DrainPlan(fd: int, captureType: int, captureMemory: int, outputType: int, outputMemory: int): seq<Op> {
    [Poll(fd, DECODE_TIMEOUT_US)] + CollectPlan(fd, captureType, captureMemory, outputType, outputMemory)
  }

  /** The calls of a run once the decode is done: dequeue both buffers, stream off. */
  function CollectPlan(fd: int, captureType: int, captureMemory: int, outputType: int, outputMemory: int): seq<Op> {
    [Op.Dequeue(fd, captureType, captureMemory), Op.Dequeue(fd, outputType, outputMemory)] +
    [StreamOff(fd, captureType), StreamOff(fd, outputType)]
  }

  /** Dequeue one buffer of each queue; the indices are only compared in warnings. */
  method DequeuePair(fd: int, type1: int, memory1: int, type2: int, memory2: int, k: Kernel)
    returns (ret: int, ghost log: seq<Event>)
    modifies k
    ensures k.trace == old(k.trace) + log
    ensures Ran(log, [Op.Dequeue(fd, type1, memory1), Op.Dequeue(fd, type2, memory2)], ret)
  {
    var index;
    ret, index := k.Dequeue(fd, type1, memory1);
    log := [Event(Op.Dequeue(fd, type1, memory1), ret, Index(index))];
    if ret != 0 {
      return;
    }
    ret, index := k.Dequeue(fd, type2, memory2);
    TraceAppend(old(k.trace), log, [Event(Op.Dequeue(fd, type2, memory2), ret, Index(index))]);
    log := log + [Event(Op.Dequeue(fd, type2, memory2), ret, Index(index))];
    assert log[0].ret == 0 && log[1].ret == ret;
  }

  /** `planes` once the bytes-used of its first `count` planes are taken from `source`. */
  function CopyBytesUsed(planes: seq<Plane>, source: seq<Plane>, count: nat): (r: seq<Plane>)
    requires count <= |planes| && count <= |source|
    ensures |r| == |planes|
    ensures forall j | 0 <= j < |planes| ::
              r[j].length == planes[j].length && r[j].offset == planes[j].offset && r[j].fd == planes[j].fd
    ensures forall j | 0 <= j < |planes| ::
              r[j].bytesUsed == if j < count then source[j].bytesUsed else planes[j].bytesUsed
  {
    if count == 0 then planes
    else
      var i := count - 1;
      CopyBytesUsed(planes, source, i)[i := planes[i].(bytesUsed := source[i].bytesUsed)]
  }

  /** The copy loop of the run: the used planes of `output` take their bytes-used from `source`. */
  method CopyUsed(output: Buffer, source: Buffer)
    requires output.Valid() && source.Valid() && output != source
    modifies output
    ensures output.Valid()
    ensures output.View() == old(output.View()).(planes := output.planes)
    ensures output.planes == CopyBytesUsed(old(output.planes), source.planes, output.planesCount)
  {
    for i := 0 to output.planesCount
      invariant output.Valid()
      invariant output.View() == old(output.View()).(planes := output.planes)
      invariant output.planes == CopyBytesUsed(old(output.planes), source.planes, i)
    {
      output.planes := output.planes[i := output.planes[i].(bytesUsed := source.planes[i].bytesUsed)];
    }
  }

  /**
   * The first phase of a run: queue the capture buffer, take the bytes-used
   * from `source` when the camera is the source, queue the output buffer.
   */
  method QueueBuffers(fd: int, capture: Buffer, output: Buffer, source: Buffer, copy: bool, k: Kernel)
    returns (ret: int, ghost log: seq<Event>)
    requires output.Valid() && source.Valid() && output != source
    modifies output, k
    ensures output.Valid()
    ensures k.trace == old(k.trace) + log
    ensures Ran(log, [Queue(fd, old(capture.bufType), old(capture.index)),
                      Queue(fd, output.bufType, output.index)], ret)
    ensures output.View() == old(output.View()).(planes := output.planes)
    ensures output.planes ==
              if copy && log[0].ret == 0 then CopyBytesUsed(old(output.planes), source.planes, output.planesCount)
              else old(output.planes)
  {
    var op := Queue(fd, capture.bufType, capture.index);
    ret := k.Call(op);
    log := [Event(op, ret, NoOut)];
    if ret != 0 {
      return;
    }
    if copy {
      CopyUsed(output, source);
    }
    op := Queue(fd, output.bufType, output.index);
    ret := k.Call(op);
    TraceAppend(old(k.trace), log, [Event(op, ret, NoOut)]);
    log := log + [Event(op, ret, NoOut)];
    assert log[0].ret == 0 && log[1].ret == ret;
  }

  /**
   * One decode: the calls of RunPlan, failing fast, a poll timeout returned
   * as -ETIMEDOUT.  A dequeued index that is not the cursor's is only worth
   * a warning.  With the camera as source, the output buffer takes the
   * bytes-used of its planes from the camera buffer at the decoder's capture
   * cursor, once the capture buffer is queued.  No cursor moves.
   */
  method Run(demo: Demo, k: Kernel) returns (ret: int, ghost log: seq<Event>)
    requires demo.Valid()
    modifies demo.decoder.outputBuffers[demo.decoder.outputBufferIndex], k
    ensures demo.Valid()
    ensures k.trace == old(k.trace) + log
    ensures Ran(log, old(RunPlan(demo.decoder)), ret)
    ensures var output := demo.decoder.outputBuffers[demo.decoder.outputBufferIndex];
            var source := demo.camera.captureBuffers[demo.decoder.captureBufferIndex];
            old(output.Valid()) && output.Valid() && source.Valid() &&
            output.View() == old(output.View()).(planes := output.planes) &&
            output.planes ==
              if demo.source == SOURCE_CAMERA && |log| > 0 && log[0].ret == 0
              then CopyBytesUsed(old(output.planes), source.planes, output.planesCount)
              else old(output.planes)
  {
    var d := demo.decoder;
    var capture := Current(d, d.captureType).value;
    var output := Current(d, d.outputType).value;
    var source := demo.camera.captureBuffers[d.captureBufferIndex];
    assert source in demo.camera.captureBuffers && output in d.outputBuffers;
    demo.OutputNotCamera(d.outputBufferIndex, d.captureBufferIndex);
    ret, log := Decode(d.videoFd, capture, output, source, demo.source == SOURCE_CAMERA,
                       d.captureType, d.captureMemory, d.outputType, d.outputMemory, k);
  }

  /**
   * The calls of a run on the buffers it selected: queue the capture buffer,
   * take the bytes-used from `source` if `copy`, queue the output buffer,
   * then StreamPlan.
   */
  method Decode(fd: int, capture: Buffer, output: Buffer, source: Buffer, copy: bool,
                captureType: int, captureMemory: int, outputType: int, outputMemory: int, k: Kernel)
    returns (ret: int, ghost log: seq<Event>)
    requires output.Valid() && source.Valid() && output != source
    modifies output, k
    ensures output.Valid()
    ensures k.trace == old(k.trace) + log
    ensures Ran(log, [Queue(fd, old(capture.bufType), old(capture.index)), Queue(fd, old(output.bufType), old(output.index))] +
                     StreamPlan(fd, captureType, captureMemory, outputType, outputMemory), ret)
    ensures output.View() == old(output.View()).(planes := output.planes)
    ensures output.planes ==
              if copy && |log| > 0 && log[0].ret == 0
              then CopyBytesUsed(old(output.planes), source.planes, output.planesCount)
              else old(output.planes)
  {
    ghost var queue := [Queue(fd, capture.bufType, capture.index), Queue(fd, output.bufType, output.index)];
    ghost var rest := StreamPlan(fd, captureType, captureMemory, outputType, outputMemory);
    ret, log := QueueBuffers(fd, capture, output, source, copy, k);
    if ret != 0 {
      RanStopped(log, queue, rest, ret);
      return;
    }
    ghost var part;
    ret, part := Stream(fd, captureType, captureMemory, outputType, outputMemory, k);
    RanSequence(log, queue, part, rest, ret);
    TraceAppend(old(k.trace), log, part);
    log := log + part;
  }

  /** The calls of a run after the buffers are queued: StreamPlan, fail-fast. */
  method Stream(fd: int, captureType: int, captureMemory: int, outputType: int, outputMemory: int, k: Kernel)
    returns (ret: int, ghost log: seq<Event>)
    modifies k
    ensures k.trace == old(k.trace) + log
    ensures Ran(log, StreamPlan(fd, captureType, captureMemory, outputType, outputMemory), ret)
  {
    ghost var on := [StreamOn(fd, captureType), StreamOn(fd, outputType)];
    ghost var rest := DrainPlan(fd, captureType, captureMemory, outputType, outputMemory);
    ret, log := CallPair(StreamOn(fd, captureType), StreamOn(fd, outputType), k);
    if ret != 0 {
      RanStopped(log, on, rest, ret);
      return;
    }
    ghost var part;
    ret, part := Drain(fd, captureType, captureMemory, outputType, outputMemory, k);
    RanSequence(log, on, part, rest, ret);
    TraceAppend(old(k.trace), log, part);
    log := log + part;
  }

  /** The calls of a run once the streams are on: wait, then CollectPlan. */
  method Drain(fd: int, captureType: int, captureMemory: int, outputType: int, outputMemory: int, k: Kernel)
    returns (ret: int, ghost log: seq<Event>)
    modifies k
    ensures k.trace == old(k.trace) + log
    ensures Ran(log, DrainPlan(fd, captureType, captureMemory, outputType, outputMemory), ret)
  {
    ghost var wait := [Poll(fd, DECODE_TIMEOUT_US)];
    ghost var rest := CollectPlan(fd, captureType, captureMemory, outputType, outputMemory);
    ret, log := Wait(fd, DECODE_TIMEOUT_US, k);
    if ret != 0 {
      RanStopped(log, wait, rest, ret);
      return;
    }
    ghost var part;
    ret, part := Collect(fd, captureType, captureMemory, outputType, outputMemory, k);
    RanSequence(log, wait, part, rest, ret);
    TraceAppend(old(k.trace), log, part);
    log := log + part;
  }

  /** The calls of a run once the decode is done: CollectPlan, fail-fast. */
  method Collect(fd: int, captureType: int, captureMemory: int, outputType: int, outputMemory: int, k: Kernel)
    returns (ret: int, ghost log: seq<Event>)
    modifies k
    ensures k.trace == old(k.trace) + log
    ensures Ran(log, CollectPlan(fd, captureType, captureMemory, outputType, outputMemory), ret)
  {
    ghost var dequeue := [Op.Dequeue(fd, captureType, captureMemory), Op.Dequeue(fd, outputType, outputMemory)];
    ghost var off := [StreamOff(fd, captureType), StreamOff(fd, outputType)];
    ret, log := DequeuePair(fd, captureType, captureMemory, outputType, outputMemory, k);
    if ret != 0 {
      RanStopped(log, dequeue, off, ret);
      return;
    }
    ghost var part;
    ret, part := CallPair(StreamOff(fd, captureType), StreamOff(fd, outputType), k);
    RanSequence(log, dequeue, part, off, ret);
    TraceAppend(old(k.trace), log, part);
    log := log + part;
  }

  /* ---- demo_decoder_setup ---- */

  /**
   * The memory of the output and of the capture queue for an allocator:
   * the output imports the camera's buffers as dma-bufs when the camera is
   * the source, and the dma-heap allocator hands both queues dma-bufs.
   * None stands for -EINVAL, an unknown allocator.
   */
  function Memories(allocator: int, importCamera: bool): (m: Option<(int, int)>)
    ensures m.Some? <==> allocator == ALLOCATOR_V4L2 || allocator == ALLOCATOR_DMA_HEAP
    ensures m.Some? ==> (m.value.1 == MEMORY_MMAP <==> allocator == ALLOCATOR_V4L2)
    ensures m.Some? ==> (m.value.0 == MEMORY_MMAP <==> allocator == ALLOCATOR_V4L2 && !importCamera)
    ensures m.Some? ==> m.value.0 in {MEMORY_MMAP, MEMORY_DMABUF} && m.value.1 in {MEMORY_MMAP, MEMORY_DMABUF}
  {
    if allocator == ALLOCATOR_V4L2 then
      Some((if importCamera then MEMORY_DMABUF else MEMORY_MMAP, MEMORY_MMAP))
    else if allocator == ALLOCATOR_DMA_HEAP then Some((MEMORY_DMABUF, MEMORY_DMABUF))
    else None
  }

  /**
   * The size asked for the output (JPEG) buffers: the length of the first
   * plane of the camera's first buffer when they import it, otherwise
   * width * height * 3 computed in unsigned int, so modulo 2^32.
   */
  function OutputSize(importCamera: bool, cameraLength: nat, width: nat, height: nat): (size: nat)
    ensures importCamera ==> size == cameraLength
    ensures !importCamera ==> size < UINT_MODULUS && (size - width * height * 3) % UINT_MODULUS == 0
    ensures !importCamera && width * height * 3 < UINT_MODULUS ==> size == width * height * 3
  {
    if importCamera then cameraLength else JpegSizeHint(width, height)
  }

  /** The output format asked for: JPEG of the demo's size, `size` bytes per image. */
  function OutputRequest(width: nat, height: nat, size: nat): Format {
    Format(BUF_TYPE_VIDEO_OUTPUT, width, height, PIX_FMT_JPEG, size)
  }

  /** The capture format asked for: NV16 of the demo's size, the image size left to the driver. */
  function CaptureRequest(width: nat, height: nat): Format {
    Format(BUF_TYPE_VIDEO_CAPTURE, width, height, PIX_FMT_NV16, 0)
  }

  /**
   * The settings demo_decoder_setup gives the decoder before any call: the
   * memories of `m`, JPEG on the output queue and NV16 on the capture
   * queue, both of the demo's size.
   */
  ghost predicate Settled(d: Decoder, m: (int, int), width: nat, height: nat)
    reads d
  {
    d.Output() == QueueSettings(m.0, BUF_TYPE_VIDEO_OUTPUT, width, height, PIX_FMT_JPEG, d.outputFormat) &&
    d.Capture() == QueueSettings(m.1, BUF_TYPE_VIDEO_CAPTURE, width, height, PIX_FMT_NV16, d.captureFormat)
  }

  /** The length of the first plane of the camera's first buffer, which imported output buffers must hold. */
  function CameraLength(c: Camera): (length: nat)
    requires c.Valid()
    reads c, c.captureBuffers
  {
    assert c.captureBuffers[0] in c.captureBuffers;
    c.captureBuffers[0].planes[0].length
  }

  /** The decoder's two pools, and what each was set up from, as values. */
  datatype Pools = Pools(outputs: seq<BufferView>, captures: seq<BufferView>, p: Provision, q: Provision)

  /**
   * What demo_decoder_setup did for a decoder whose video fd is `fd`, in a
   * demo with allocator `allocator` that imports the camera's buffers when
   * `importCamera`: -ENODEV without a video fd and -EINVAL for an unknown
   * allocator, with no call and everything kept; otherwise the settings of
   * the allocator's memories, JPEG output of `outputSize` bytes and NV16
   * capture of the demo's size, the formats as FormatsOutcome says and the
   * pools, from the provisions `p` and `q`, as QueuesConfigured says.
   */
  ghost predicate SetupResult(fd: int, allocator: int, importCamera: bool, width: nat, height: nat,
                              outputSize: nat, p: Provision, q: Provision,
                              heldOutput: QueueSettings, heldCapture: QueueSettings,
                              output: QueueSettings, capture: QueueSettings, before: (nat, nat), after: (nat, nat),
                              outputsBefore: seq<BufferView>, capturesBefore: seq<BufferView>,
                              pools: Pools, formats: FormatsRun, queues: Option<QueuesRun>, ret: int)
  {
    (queues.Some? ==> queues.value.WellFormed()) &&
    var m := Memories(allocator, importCamera);
    if fd < 0 || m.None? then
      ret == (if fd < 0 then -ENODEV else -EINVAL) && formats.Log() == [] && queues == None &&
      output == heldOutput && capture == heldCapture && after == before &&
      pools.outputs == outputsBefore && pools.captures == capturesBefore
    else
      output == QueueSettings(m.value.0, BUF_TYPE_VIDEO_OUTPUT, width, height, PIX_FMT_JPEG, output.format) &&
      capture == QueueSettings(m.value.1, BUF_TYPE_VIDEO_CAPTURE, width, height, PIX_FMT_NV16, capture.format) &&
      pools.p == p && pools.q == q && (queues.None? ==> ret != 0) &&
      FormatsOutcome(fd, OutputRequest(width, height, outputSize), CaptureRequest(width, height),
                     heldOutput.format, heldCapture.format, formats, if queues.Some? then 0 else ret,
                     output.format, capture.format) &&
      QueuesConfigured(output, capture, fd, before, after, outputsBefore, capturesBefore, pools, queues, ret)
  }

  /**
   * demo_decoder_setup: -ENODEV without a decoder video fd and -EINVAL for
   * an unknown allocator, both before anything is changed; otherwise the
   * settings, then Configure.  Buffers already set up are not released on
   * a failure.
   */
  method Setup(demo: Demo, k: Kernel)
    returns (ret: int, ghost formats: FormatsRun, ghost queues: Option<QueuesRun>, ghost pools: Pools)
    requires demo.Valid()
    modifies demo.decoder, demo.decoder.outputBuffers, demo.decoder.captureBuffers, k
    ensures demo.Valid()
    ensures queues.Some? ==> queues.value.WellFormed()
    ensures k.trace == old(k.trace) + formats.Log() + if queues.Some? then queues.value.Log() else []
    ensures pools.outputs == Views(demo.decoder.outputBuffers) && pools.captures == Views(demo.decoder.captureBuffers)
    ensures var m := Memories(demo.allocator, demo.source == SOURCE_CAMERA);
            demo.decoder.videoFd < 0 || m.None? ==>
              ret == (if demo.decoder.videoFd < 0 then -ENODEV else -EINVAL) &&
              formats.Log() == [] && queues == None && unchanged(demo.decoder) &&
              pools.outputs == old(Views(demo.decoder.outputBuffers)) &&
              pools.captures == old(Views(demo.decoder.captureBuffers))
    ensures var m := Memories(demo.allocator, demo.source == SOURCE_CAMERA);
            var importCamera := demo.source == SOURCE_CAMERA;
            var d := demo.decoder;
            d.videoFd >= 0 && m.Some? ==>
              Settled(d, m.value, demo.width, demo.height) &&
              d.Snapshot() == old(d.Snapshot()).(outputFormat := d.outputFormat, captureFormat := d.captureFormat,
                                                 outputBuffersCount := d.outputBuffersCount,
                                                 captureBuffersCount := d.captureBuffersCount) &&
              pools.p == ProvisionOf(demo, d.videoFd, importCamera) && pools.q == ProvisionOf(demo, d.videoFd, false) &&
              (queues.None? ==> ret != 0) &&
              FormatsOutcome(d.videoFd,
                             OutputRequest(demo.width, demo.height,
                                           OutputSize(importCamera, old(CameraLength(demo.camera)), demo.width, demo.height)),
                             CaptureRequest(demo.width, demo.height), old(d.outputFormat), old(d.captureFormat),
                             formats, if queues.Some? then 0 else ret, d.outputFormat, d.captureFormat) &&
              QueuesConfigured(d.Output(), d.Capture(), d.videoFd,
                               (old(d.outputBuffersCount), old(d.captureBuffersCount)),
                               (d.outputBuffersCount, d.captureBuffersCount),
                               old(Views(d.outputBuffers)), old(Views(d.captureBuffers)), pools, queues, ret)
  {
    var d := demo.decoder;
    formats, queues := FormatsRun([], 0, [], 0, []), None;
    pools := Pools(Views(d.outputBuffers), Views(d.captureBuffers),
                   ProvisionOf(demo, d.videoFd, false), ProvisionOf(demo, d.videoFd, false));
    if d.videoFd < 0 {
      return -ENODEV, formats, queues, pools;
    }
    var importCamera := demo.source == SOURCE_CAMERA;
    var m := Memories(demo.allocator, importCamera);
    if m.None? {
      return -EINVAL, formats, queues, pools;
    }
    var size := OutputSize(importCamera, CameraLength(demo.camera), demo.width, demo.height);
    Settle(demo, m.value);
    ret, formats, queues, pools := Configure(demo, importCamera, size, k);
  }

  /** The settings assignments of demo_decoder_setup. */
  method Settle(demo: Demo, m: (int, int))
    requires demo.Valid()
    modifies demo.decoder
    ensures demo.Valid()
    ensures Settled(demo.decoder, m, demo.width, demo.height)
    ensures demo.decoder.Snapshot() == old(demo.decoder.Snapshot())
    ensures Views(demo.decoder.outputBuffers) == old(Views(demo.decoder.outputBuffers)) &&
            Views(demo.decoder.captureBuffers) == old(Views(demo.decoder.captureBuffers)) &&
            Views(demo.camera.captureBuffers) == old(Views(demo.camera.captureBuffers))
  {
    var d := demo.decoder;
    ghost var snapshot := d.Snapshot();
    d.outputMemory, d.captureMemory := m.0, m.1;
    d.outputWidth, d.outputHeight, d.outputPixelFormat := demo.width, demo.height, PIX_FMT_JPEG;
    d.captureWidth, d.captureHeight, d.capturePixelFormat := demo.width, demo.height, PIX_FMT_NV16;
    d.outputType, d.captureType := BUF_TYPE_VIDEO_OUTPUT, BUF_TYPE_VIDEO_CAPTURE;
    assert d.Snapshot() == snapshot;
  }

  /**
   * The queues part of a setup on a decoder with the settings `output` and
   * `capture`, whose counts went from `before` to `after`: if it ran
   * (`queues` is Some) the pools of `pools` are what QueuesOutcome says and
   * each count became POOL_SIZE once its pool was set up; otherwise both
   * pools and both counts are as they were.
   */
  ghost predicate QueuesConfigured(output: QueueSettings, capture: QueueSettings, fd: int,
                                   before: (nat, nat), after: (nat, nat),
                                   outputsBefore: seq<BufferView>, capturesBefore: seq<BufferView>,
                                   pools: Pools, queues: Option<QueuesRun>, ret: int)
  {
    (queues.None? ==> pools.outputs == outputsBefore && pools.captures == capturesBefore && after == before) &&
    (queues.Some? ==>
       pools.p.Valid() && pools.q.Valid() &&
       QueuesOutcome(pools.p, pools.q, fd, output.memory, capture.memory, output.bufType, capture.bufType,
                     pools.outputs, pools.captures, capturesBefore, queues.value, ret) &&
       after.0 == (if queues.value.outputRet == 0 then POOL_SIZE else before.0) &&
       after.1 == (if queues.value.outputRet == 0 && ret == 0 then POOL_SIZE else before.1))
  }

  /** The calls of demo_decoder_setup once the settings are made: formats, then, if they succeed, the two pools. */
  method Configure(demo: Demo, importCamera: bool, size: nat, k: Kernel)
    returns (ret: int, ghost formats: FormatsRun, ghost queues: Option<QueuesRun>, ghost pools: Pools)
    requires demo.Valid()
    modifies demo.decoder, demo.decoder.outputBuffers, demo.decoder.captureBuffers, k
    ensures demo.Valid()
    ensures queues.Some? ==> queues.value.WellFormed()
    ensures k.trace == old(k.trace) + formats.Log() + if queues.Some? then queues.value.Log() else []
    ensures var d := demo.decoder;
            d.Output() == old(d.Output()).(format := d.outputFormat) &&
            d.Capture() == old(d.Capture()).(format := d.captureFormat) &&
            d.Snapshot() == old(d.Snapshot()).(outputFormat := d.outputFormat, captureFormat := d.captureFormat,
                                               outputBuffersCount := d.outputBuffersCount,
                                               captureBuffersCount := d.captureBuffersCount)
    ensures pools.outputs == Views(demo.decoder.outputBuffers) && pools.captures == Views(demo.decoder.captureBuffers)
    ensures pools.p == ProvisionOf(demo, demo.decoder.videoFd, importCamera) &&
            pools.q == ProvisionOf(demo, demo.decoder.videoFd, false)
    ensures FormatsOutcome(old(demo.decoder.videoFd),
                           OutputRequest(old(demo.decoder.outputWidth), old(demo.decoder.outputHeight), size),
                           CaptureRequest(old(demo.decoder.captureWidth), old(demo.decoder.captureHeight)),
                           old(demo.decoder.outputFormat), old(demo.decoder.captureFormat), formats,
                           if queues.Some? then 0 else ret, demo.decoder.outputFormat, demo.decoder.captureFormat)
    ensures queues.None? ==> ret != 0
    ensures QueuesConfigured(old(demo.decoder.Output()), old(demo.decoder.Capture()), old(demo.decoder.videoFd),
                             (old(demo.decoder.outputBuffersCount), old(demo.decoder.captureBuffersCount)),
                             (demo.decoder.outputBuffersCount, demo.decoder.captureBuffersCount),
                             old(Views(demo.decoder.outputBuffers)), old(Views(demo.decoder.captureBuffers)),
                             pools, queues, ret)
  {
    var d := demo.decoder;
    queues := None;
    var outputFormat, captureFormat;
    ret, outputFormat, captureFormat, formats :=
      SetupFormats(d.videoFd, OutputRequest(d.outputWidth, d.outputHeight, size), CaptureRequest(d.captureWidth, d.captureHeight),
                   d.outputFormat, d.captureFormat, k);
    SetFormats(demo, outputFormat, captureFormat);
    if ret != 0 {
      pools := Pools(Views(d.outputBuffers), Views(d.captureBuffers),
                     ProvisionOf(demo, d.videoFd, importCamera), ProvisionOf(demo, d.videoFd, false));
      return;
    }
    ghost var run;
    ret, run, pools := QueuesPhase(demo, importCamera, k);
    TraceAppend(old(k.trace), formats.Log(), run.Log());
    queues := Some(run);
  }

  /** The two pools of a setup and the counts assignments after them. */
  method QueuesPhase(demo: Demo, importCamera: bool, k: Kernel) returns (ret: int, ghost run: QueuesRun, ghost pools: Pools)
    requires demo.Valid()
    modifies demo.decoder, demo.decoder.outputBuffers, demo.decoder.captureBuffers, k
    ensures demo.Valid() && run.WellFormed()
    ensures k.trace == old(k.trace) + run.Log()
    ensures demo.decoder.Output() == old(demo.decoder.Output()) && demo.decoder.Capture() == old(demo.decoder.Capture())
    ensures demo.decoder.Snapshot() ==
              old(demo.decoder.Snapshot()).(outputBuffersCount := demo.decoder.outputBuffersCount,
                                            captureBuffersCount := demo.decoder.captureBuffersCount)
    ensures pools.outputs == Views(demo.decoder.outputBuffers) && pools.captures == Views(demo.decoder.captureBuffers)
    ensures pools.p == ProvisionOf(demo, demo.decoder.videoFd, importCamera) &&
            pools.q == ProvisionOf(demo, demo.decoder.videoFd, false)
    ensures QueuesConfigured(old(demo.decoder.Output()), old(demo.decoder.Capture()), old(demo.decoder.videoFd),
                             (old(demo.decoder.outputBuffersCount), old(demo.decoder.captureBuffersCount)),
                             (demo.decoder.outputBuffersCount, demo.decoder.captureBuffersCount),
                             old(Views(demo.decoder.outputBuffers)), old(Views(demo.decoder.captureBuffers)),
                             pools, Some(run), ret)
  {
    var outputReady;
    ghost var p, q, outputs, captures;
    ret, outputReady, run, p, q, outputs, captures := SetupQueues(demo, importCamera, k);
    SetCounts(demo, outputReady, outputReady && ret == 0);
    pools := Pools(outputs, captures, p, q);
  }

  /** The format fields written back after the negotiations of demo_decoder_setup. */
  method SetFormats(demo: Demo, outputFormat: Format, captureFormat: Format)
    requires demo.Valid()
    modifies demo.decoder
    ensures demo.Valid()
    ensures demo.decoder.Output() == old(demo.decoder.Output()).(format := outputFormat) &&
            demo.decoder.Capture() == old(demo.decoder.Capture()).(format := captureFormat)
    ensures demo.decoder.Snapshot() ==
              old(demo.decoder.Snapshot()).(outputFormat := outputFormat, captureFormat := captureFormat)
    ensures Views(demo.decoder.outputBuffers) == old(Views(demo.decoder.outputBuffers)) &&
            Views(demo.decoder.captureBuffers) == old(Views(demo.decoder.captureBuffers)) &&
            Views(demo.camera.captureBuffers) == old(Views(demo.camera.captureBuffers))
  {
    demo.decoder.outputFormat, demo.decoder.captureFormat := outputFormat, captureFormat;
  }

  /** The counts assignments of demo_decoder_setup, each made once its pool is set up. */
  method SetCounts(demo: Demo, output: bool, capture: bool)
    requires demo.Valid()
    modifies demo.decoder
    ensures demo.Valid()
    ensures demo.decoder.Output() == old(demo.decoder.Output()) && demo.decoder.Capture() == old(demo.decoder.Capture())
    ensures demo.decoder.Snapshot() == old(demo.decoder.Snapshot()).(
              outputBuffersCount := if output then POOL_SIZE else old(demo.decoder.outputBuffersCount),
              captureBuffersCount := if capture then POOL_SIZE else old(demo.decoder.captureBuffersCount))
    ensures Views(demo.decoder.outputBuffers) == old(Views(demo.decoder.outputBuffers)) &&
            Views(demo.decoder.captureBuffers) == old(Views(demo.decoder.captureBuffers)) &&
            Views(demo.camera.captureBuffers) == old(Views(demo.camera.captureBuffers))
  {
    if output {
      demo.decoder.outputBuffersCount := POOL_SIZE;
    }
    if capture {
      demo.decoder.captureBuffersCount := POOL_SIZE;
    }
  }

  /** The format calls of a setup: the two pixel format checks, then the two negotiations. */
  datatype FormatsRun = FormatsRun(checks: seq<Event>, checkRet: int, output: seq<Event>, outputRet: int,
                                   capture: seq<Event>)
  {
    function Log(): seq<Event> {
      checks + output + capture
    }
  }

  /**
   * `run` checked the output then the capture pixel format, stopping with
   * -EINVAL at one that is missing; then negotiated the output format, and
   * only if that succeeded the capture format; `ret` is the first failure
   * or 0.  The format fields end up holding `outputFormat` and
   * `captureFormat`, and a field whose negotiation never started keeps
   * what it held.
   */
  ghost predicate FormatsOutcome(fd: int, outputRequest: Format, captureRequest: Format,
                                 heldOutput: Format, heldCapture: Format, run: FormatsRun, ret: int,
                                 outputFormat: Format, captureFormat: Format)
  {
    Ran(run.checks, [PixelFormatCheck(fd, BUF_TYPE_VIDEO_OUTPUT, PIX_FMT_JPEG),
                     PixelFormatCheck(fd, BUF_TYPE_VIDEO_CAPTURE, PIX_FMT_NV16)], run.checkRet) &&
    (run.checkRet != 0 ==>
       ret == run.checkRet && run.output == [] && run.capture == [] &&
       outputFormat == heldOutput && captureFormat == heldCapture) &&
    (run.checkRet == 0 ==> Negotiation(fd, outputRequest, run.output, run.outputRet, outputFormat)) &&
    (run.checkRet == 0 && run.outputRet != 0 ==>
       ret == run.outputRet && run.capture == [] && captureFormat == heldCapture) &&
    (run.checkRet == 0 && run.outputRet == 0 ==> Negotiation(fd, captureRequest, run.capture, ret, captureFormat))
  }

  /** The formats phase is one fail-fast run: checks, output try and set, capture try and set. */
  lemma FormatsRan(fd: int, outputRequest: Format, captureRequest: Format, heldOutput: Format, heldCapture: Format,
                   run: FormatsRun, ret: int, outputFormat: Format, captureFormat: Format)
    requires FormatsOutcome(fd, outputRequest, captureRequest, heldOutput, heldCapture, run, ret,
                            outputFormat, captureFormat)
    ensures Ran(run.Log(),
                [PixelFormatCheck(fd, BUF_TYPE_VIDEO_OUTPUT, PIX_FMT_JPEG),
                 PixelFormatCheck(fd, BUF_TYPE_VIDEO_CAPTURE, PIX_FMT_NV16)] +
                [FormatTry(fd, outputRequest), FormatSet(fd, if run.output == [] then outputRequest else run.output[0].out.format)] +
                [FormatTry(fd, captureRequest), FormatSet(fd, if run.capture == [] then captureRequest else run.capture[0].out.format)],
                ret)
  {
    var checks := [PixelFormatCheck(fd, BUF_TYPE_VIDEO_OUTPUT, PIX_FMT_JPEG),
                   PixelFormatCheck(fd, BUF_TYPE_VIDEO_CAPTURE, PIX_FMT_NV16)];
    var output := [FormatTry(fd, outputRequest), FormatSet(fd, if run.output == [] then outputRequest else run.output[0].out.format)];
    var capture := [FormatTry(fd, captureRequest), FormatSet(fd, if run.capture == [] then captureRequest else run.capture[0].out.format)];
    assert run.Log() == run.checks + run.output + run.capture;
    if run.checkRet != 0 {
      RanStopped(run.checks, checks, output + capture, ret);
      assert checks + output + capture == checks + (output + capture);
      assert run.Log() == run.checks;
      return;
    }
    NegotiationRan(fd, outputRequest, run.output, run.outputRet, outputFormat);
    RanSequence(run.checks, checks, run.output, output, run.outputRet);
    if run.outputRet != 0 {
      RanStopped(run.checks + run.output, checks + output, capture, ret);
      assert run.Log() == run.checks + run.output;
      return;
    }
    NegotiationRan(fd, captureRequest, run.capture, ret, captureFormat);
    RanSequence(run.checks + run.output, checks + output, run.capture, capture, ret);
  }

  /**
   * The format part of demo_decoder_setup: check both pixel formats, then
   * try and set the output format, then the capture format.  The format
   * fields are returned; `heldOutput` and `heldCapture` are what they held.
   */
  method SetupFormats(fd: int, outputRequest: Format, captureRequest: Format,
                      heldOutput: Format, heldCapture: Format, k: Kernel)
    returns (ret: int, outputFormat: Format, captureFormat: Format, ghost run: FormatsRun)
    modifies k
    ensures k.trace == old(k.trace) + run.Log()
    ensures FormatsOutcome(fd, outputRequest, captureRequest, heldOutput, heldCapture, run, ret,
                           outputFormat, captureFormat)
  {
    outputFormat, captureFormat := heldOutput, heldCapture;
    var checkRet, checks := CheckFormats(fd, k);
    run := FormatsRun(checks, checkRet, [], 0, []);
    if checkRet != 0 {
      return checkRet, outputFormat, captureFormat, run;
    }
    ghost var outputLog, captureLog;
    var outputRet;
    outputRet, outputFormat, outputLog := NegotiateFormat(fd, outputRequest, k);
    TraceAppend(old(k.trace), checks, outputLog);
    run := run.(output := outputLog, outputRet := outputRet);
    if outputRet != 0 {
      return outputRet, outputFormat, captureFormat, run;
    }
    ret, captureFormat, captureLog := NegotiateFormat(fd, captureRequest, k);
    TraceAppend(old(k.trace), checks + outputLog, captureLog);
    run := run.(capture := captureLog);
  }

  /** The two pixel format checks, output (JPEG) then capture (NV16). */
  method CheckFormats(fd: int, k: Kernel) returns (ret: int, ghost log: seq<Event>)
    modifies k
    ensures k.trace == old(k.trace) + log
    ensures Ran(log, [PixelFormatCheck(fd, BUF_TYPE_VIDEO_OUTPUT, PIX_FMT_JPEG),
                      PixelFormatCheck(fd, BUF_TYPE_VIDEO_CAPTURE, PIX_FMT_NV16)], ret)
  {
    ghost var first := [PixelFormatCheck(fd, BUF_TYPE_VIDEO_OUTPUT, PIX_FMT_JPEG)];
    ghost var second := [PixelFormatCheck(fd, BUF_TYPE_VIDEO_CAPTURE, PIX_FMT_NV16)];
    ret, log := CheckPixelFormat(fd, BUF_TYPE_VIDEO_OUTPUT, PIX_FMT_JPEG, k);
    if ret != 0 {
      RanStopped(log, first, second, ret);
      return;
    }
    ghost var part;
    ret, part := CheckPixelFormat(fd, BUF_TYPE_VIDEO_CAPTURE, PIX_FMT_NV16, k);
    RanSequence(log, first, part, second, ret);
    TraceAppend(old(k.trace), log, part);
    log := log + part;
  }

  /** The pool calls of a setup: the output pool, then, if that succeeded, the capture pool. */
  datatype QueuesRun = QueuesRun(output: PoolRun, outputRet: int, capture: Option<PoolRun>)
  {
    predicate WellFormed() {
      |output.queries| == |output.planeLogs| &&
      (capture.Some? ==> |capture.value.queries| == |capture.value.planeLogs|)
    }

    function Log(): seq<Event>
      requires WellFormed()
    {
      output.Log() + if capture.Some? then capture.value.Log() else []
    }
  }

  /**
   * `run` set up the output pool, whose buffers are now `outputs`, importing
   * as `p` provides; only if that answered 0 did it set up the capture pool,
   * whose buffers are now `captures` (still `heldCaptures` when it was not
   * touched), as `q` provides; `ret` is the first failure or 0.
   */
  ghost predicate QueuesOutcome(p: Provision, q: Provision, fd: int, outputMemory: int, captureMemory: int,
                                outputType: int, captureType: int, outputs: seq<BufferView>, captures: seq<BufferView>, heldCaptures: seq<BufferView>,
                                run: QueuesRun, ret: int)
    requires p.Valid() && q.Valid()
  {
    PoolOutcome(p, outputs, fd, outputMemory, outputType, run.output, run.outputRet) &&
    (run.outputRet != 0 ==> ret == run.outputRet && run.capture == None && captures == heldCaptures) &&
    (run.outputRet == 0 ==>
       run.capture.Some? &&
       PoolOutcome(q, captures, fd, captureMemory, captureType, run.capture.value, ret))
  }

  /**
   * The pool part of demo_decoder_setup: request and set up the output
   * buffers, importing the camera's when it is the source, then the capture
   * buffers; each count is set to POOL_SIZE only once its whole pool is
   * set up.
   */
  method SetupQueues(demo: Demo, importCamera: bool, k: Kernel)
    returns (ret: int, outputReady: bool, ghost run: QueuesRun, ghost p: Provision, ghost q: Provision,
             ghost outputs: seq<BufferView>, ghost captures: seq<BufferView>)
    requires demo.Valid()
    modifies demo.decoder.outputBuffers, demo.decoder.captureBuffers, k
    ensures demo.Valid() && run.WellFormed() && p.Valid() && q.Valid()
    ensures p == ProvisionOf(demo, demo.decoder.videoFd, importCamera) && q == ProvisionOf(demo, demo.decoder.videoFd, false)
    ensures outputs == Views(demo.decoder.outputBuffers) && captures == Views(demo.decoder.captureBuffers)
    ensures outputReady <==> run.outputRet == 0
    ensures QueuesOutcome(p, q, demo.decoder.videoFd, demo.decoder.outputMemory, demo.decoder.captureMemory,
                          demo.decoder.outputType, demo.decoder.captureType,
                          outputs, captures, old(Views(demo.decoder.captureBuffers)), run, ret)
    ensures k.trace == old(k.trace) + run.Log()
  {
    ghost var fd := demo.decoder.videoFd;
    p, q := ProvisionOf(demo, fd, importCamera), ProvisionOf(demo, fd, false);
    ProvisionValid(demo, fd, false);
    ProvisionValid(demo, fd, importCamera);
    var outputRet;
    ghost var output;
    outputRet, output := SetupOutputPool(demo, importCamera, k);
    outputs := Views(demo.decoder.outputBuffers);
    assert ProvisionOf(demo, fd, importCamera) == p && ProvisionOf(demo, fd, false) == q;
    if outputRet != 0 {
      captures := Views(demo.decoder.captureBuffers);
      run := QueuesRun(output, outputRet, None);
      assert run.Log() == output.Log();
      return outputRet, false, run, p, q, outputs, captures;
    }
    ghost var capture;
    ret, capture := SetupCapturePool(demo, k);
    captures := Views(demo.decoder.captureBuffers);
    assert ProvisionOf(demo, fd, importCamera) == p && ProvisionOf(demo, fd, false) == q;
    assert Views(demo.decoder.outputBuffers) == outputs;
    TraceAppend(old(k.trace), output.Log(), capture.Log());
    run := QueuesRun(output, 0, Some(capture));
    outputReady := true;
  }

  /** The output buffers setup: request the pool, then set each buffer up, importing the camera's when asked. */
  method SetupOutputPool(demo: Demo, importCamera: bool, k: Kernel) returns (ret: int, ghost run: PoolRun)
    requires demo.Valid()
    modifies demo.decoder.outputBuffers, k
    ensures demo.Valid() && |run.queries| == |run.planeLogs|
    ensures ProvisionOf(demo, demo.decoder.videoFd, importCamera).Valid()
    ensures PoolOutcome(ProvisionOf(demo, demo.decoder.videoFd, importCamera), Views(demo.decoder.outputBuffers),
                        demo.decoder.videoFd, demo.decoder.outputMemory, demo.decoder.outputType, run, ret)
    ensures k.trace == old(k.trace) + run.Log()
    ensures Views(demo.decoder.captureBuffers) == old(Views(demo.decoder.captureBuffers))
    ensures Views(demo.camera.captureBuffers) == old(Views(demo.camera.captureBuffers))
  {
    var d := demo.decoder;
    demo.PoolsDisjoint();
    ghost var captures := Views(d.captureBuffers);
    ghost var cameras := Views(demo.camera.captureBuffers);
    ret, run := SetupPool(demo, d.outputBuffers, d.videoFd, d.outputMemory, d.outputType, importCamera, k);
    forall j | 0 <= j < POOL_SIZE
      ensures d.captureBuffers[j].View() == captures[j] && demo.camera.captureBuffers[j].View() == cameras[j]
    {
      assert d.captureBuffers[j] in d.captureBuffers && demo.camera.captureBuffers[j] in demo.camera.captureBuffers;
    }
  }

  /** The capture buffers setup, which never imports. */
  method SetupCapturePool(demo: Demo, k: Kernel) returns (ret: int, ghost run: PoolRun)
    requires demo.Valid()
    modifies demo.decoder.captureBuffers, k
    ensures demo.Valid() && |run.queries| == |run.planeLogs|
    ensures ProvisionOf(demo, demo.decoder.videoFd, false).Valid()
    ensures PoolOutcome(ProvisionOf(demo, demo.decoder.videoFd, false), Views(demo.decoder.captureBuffers),
                        demo.decoder.videoFd, demo.decoder.captureMemory, demo.decoder.captureType, run, ret)
    ensures k.trace == old(k.trace) + run.Log()
    ensures Views(demo.decoder.outputBuffers) == old(Views(demo.decoder.outputBuffers))
    ensures Views(demo.camera.captureBuffers) == old(Views(demo.camera.captureBuffers))
  {
    var d := demo.decoder;
    demo.PoolsDisjoint();
    ghost var outputs := Views(d.outputBuffers);
    ghost var cameras := Views(demo.camera.captureBuffers);
    ret, run := SetupPool(demo, d.captureBuffers, d.videoFd, d.captureMemory, d.captureType, false, k);
    forall j | 0 <= j < POOL_SIZE
      ensures d.outputBuffers[j].View() == outputs[j] && demo.camera.captureBuffers[j].View() == cameras[j]
    {
      assert d.outputBuffers[j] in d.outputBuffers && demo.camera.captureBuffers[j] in demo.camera.captureBuffers;
    }
  }

  /**
   * demo_decoder_cleanup: the output buffers counted as set up are cleaned
   * up and the output queue's buffers released, then the same for the
   * capture pool.  The counts are left as they are.
   */
  method Cleanup(demo: Demo, k: Kernel)
    requires demo.Valid()
    modifies demo.decoder.outputBuffers, demo.decoder.captureBuffers, k
    ensures demo.Valid()
    ensures var d := demo.decoder;
            PoolCleaned(old(Views(d.outputBuffers)), Views(d.outputBuffers), d.outputBuffersCount) &&
            PoolCleaned(old(Views(d.captureBuffers)), Views(d.captureBuffers), d.captureBuffersCount)
    ensures Views(demo.camera.captureBuffers) == old(Views(demo.camera.captureBuffers))
    ensures var d := demo.decoder;
            ViewsValid(old(Views(d.outputBuffers))) && ViewsValid(old(Views(d.captureBuffers))) &&
            k.trace == old(k.trace) +
                       PoolReleaseEvents(old(Views(d.outputBuffers)), d.outputBuffersCount,
                                         d.videoFd, d.outputType, d.outputMemory) +
                       PoolReleaseEvents(old(Views(d.captureBuffers)), d.captureBuffersCount,
                                         d.videoFd, d.captureType, d.captureMemory)
  {
    CleanupOutputs(demo, k);
    CleanupCaptures(demo, k);
  }

  /** The output half of demo_decoder_cleanup. */
  method CleanupOutputs(demo: Demo, k: Kernel)
    requires demo.Valid()
    modifies demo.decoder.outputBuffers, k
    ensures demo.Valid()
    ensures PoolCleaned(old(Views(demo.decoder.outputBuffers)), Views(demo.decoder.outputBuffers),
                        demo.decoder.outputBuffersCount)
    ensures Views(demo.decoder.captureBuffers) == old(Views(demo.decoder.captureBuffers))
    ensures Views(demo.camera.captureBuffers) == old(Views(demo.camera.captureBuffers))
    ensures var d := demo.decoder;
            ViewsValid(old(Views(d.outputBuffers))) &&
            k.trace == old(k.trace) + PoolReleaseEvents(old(Views(d.outputBuffers)), d.outputBuffersCount,
                                                        d.videoFd, d.outputType, d.outputMemory)
  {
    var d := demo.decoder;
    demo.PoolsDisjoint();
    ghost var captures := Views(d.captureBuffers);
    ghost var cameras := Views(demo.camera.captureBuffers);
    ReleasePool(d.outputBuffers, d.outputBuffersCount, d.videoFd, d.outputType, d.outputMemory, k);
    forall j | 0 <= j < POOL_SIZE
      ensures d.captureBuffers[j].View() == captures[j] && demo.camera.captureBuffers[j].View() == cameras[j]
    {
      assert d.captureBuffers[j] in d.captureBuffers && demo.camera.captureBuffers[j] in demo.camera.captureBuffers;
    }
  }

  /** The capture half of demo_decoder_cleanup. */
  method CleanupCaptures(demo: Demo, k: Kernel)
    requires demo.Valid()
    modifies demo.decoder.captureBuffers, k
    ensures demo.Valid()
    ensures PoolCleaned(old(Views(demo.decoder.captureBuffers)), Views(demo.decoder.captureBuffers),
                        demo.decoder.captureBuffersCount)
    ensures Views(demo.decoder.outputBuffers) == old(Views(demo.decoder.outputBuffers))
    ensures Views(demo.camera.captureBuffers) == old(Views(demo.camera.captureBuffers))
    ensures var d := demo.decoder;
            ViewsValid(old(Views(d.captureBuffers))) &&
            k.trace == old(k.trace) + PoolReleaseEvents(old(Views(d.captureBuffers)), d.captureBuffersCount,
                                                        d.videoFd, d.captureType, d.captureMemory)
  {
    var d := demo.decoder;
    demo.PoolsDisjoint();
    ghost var outputs := Views(d.outputBuffers);
    ghost var cameras := Views(demo.camera.captureBuffers);
    ReleasePool(d.captureBuffers, d.captureBuffersCount, d.videoFd, d.captureType, d.captureMemory, k);
    forall j | 0 <= j < POOL_SIZE
      ensures d.outputBuffers[j].View() == outputs[j] && demo.camera.captureBuffers[j].View() == cameras[j]
    {
      assert d.outputBuffers[j] in d.outputBuffers && demo.camera.captureBuffers[j] in demo.camera.captureBuffers;
    }
  }
}
