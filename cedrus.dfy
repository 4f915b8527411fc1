/**
 * cedrus-jpeg-decode-demo.c: the earlier, decoder-only demo.  It keeps its
 * own context (struct cedrus_demo) with a single memory mode for both
 * queues, finds the decoder with the same two-hop walk as demo.c, and
 * differs from the pipeline in the rules below: the cache syncs and the
 * handle closes depend on the allocator rather than on a -1 handle, buffer
 * access checks the plane's length, and a poll that does not report the
 * device ready is passed on unchanged.
 */
module Cedrus {
  import opened Kernel
  import opened State
  import opened Calls
  import DemoBuffer
  import Media
  import DemoDecoder

  /* the fixed settings of cedrus_demo_setup */
  const OUTPUT_WIDTH := 1280
  const OUTPUT_HEIGHT := 720
  const PLANES_COUNT := 1
  const DMA_HEAP_NAME := "reserved"

  /** The size a JPEG image is assumed to fit in: one byte per pixel. */
  const OUTPUT_SIZE := OUTPUT_WIDTH * OUTPUT_HEIGHT

  /** The settings of one queue; the memory mode is the context's. */
  datatype QueueState = QueueState(bufType: int, width: nat, height: nat, pixelFormat: nat, format: Format)

  /** The fields of struct cedrus_demo besides its pools, as a value. */
  datatype Snapshot = Snapshot(mediaFd: int, videoFd: int, dmaHeapFd: int, allocator: int, memory: int,
                               output: QueueState, capture: QueueState,
                               outputBuffersCount: nat, outputBufferIndex: nat,
                               captureBuffersCount: nat, captureBufferIndex: nat)

  /** No buffer is in both pools. */
  predicate Disjoint(a: seq<Buffer>, b: seq<Buffer>) {
    forall x | x in a :: x !in b
  }

  lemma DisjointSwap(a: seq<Buffer>, b: seq<Buffer>)
    requires Disjoint(a, b)
    ensures Disjoint(b, a)
  {
  }

  /** struct cedrus_demo */
  class CedrusDemo {
    var mediaFd: int
    var videoFd: int
    var dmaHeapFd: int

    var allocator: int
    var memory: int

    var outputType: int
    var outputWidth: nat
    var outputHeight: nat
    var outputPixelFormat: nat
    var outputFormat: Format
    const outputBuffers: seq<Buffer>
    var outputBuffersCount: nat
    var outputBufferIndex: nat

    var captureType: int
    var captureWidth: nat
    var captureHeight: nat
    var capturePixelFormat: nat
    var captureFormat: Format
    const captureBuffers: seq<Buffer>
    var captureBuffersCount: nat
    var captureBufferIndex: nat

    /**
     * The two pools share no buffer, each cursor indexes its pool, and a
     * count is 0 (not set up yet) or the size of the pool.
     */
    ghost predicate Valid()
      reads this`outputBuffersCount, this`captureBuffersCount, this`outputBufferIndex, this`captureBufferIndex
      reads outputBuffers, captureBuffers
    {
      PoolsValid() &&
      outputBuffersCount in {0, POOL_SIZE} && captureBuffersCount in {0, POOL_SIZE} &&
      outputBufferIndex < POOL_SIZE && captureBufferIndex < POOL_SIZE
    }

    /** The part of Valid about the buffers, which no field of the context affects. */
    ghost predicate PoolsValid()
      reads outputBuffers, captureBuffers
    {
      PoolValid(outputBuffers) && PoolValid(captureBuffers) && Disjoint(outputBuffers, captureBuffers)
    }

    function Output(): QueueState
      reads this
    {
      QueueState(outputType, outputWidth, outputHeight, outputPixelFormat, outputFormat)
    }

    function Capture(): QueueState
      reads this
    {
      QueueState(captureType, captureWidth, captureHeight, capturePixelFormat, captureFormat)
    }

    function Snap(): Snapshot
      reads this
    {
      Snapshot(mediaFd, videoFd, dmaHeapFd, allocator, memory, Output(), Capture(),
               outputBuffersCount, outputBufferIndex, captureBuffersCount, captureBufferIndex)
    }

    /** `struct cedrus_demo demo = { 0 }` once cedrus_demo_open has marked both fds as not open. */
    constructor ()
      ensures Valid() && fresh(outputBuffers) && fresh(captureBuffers)
      ensures mediaFd == -1 && videoFd == -1 && allocator == ALLOCATOR_V4L2
      ensures outputBuffersCount == 0 && captureBuffersCount == 0
      ensures outputBufferIndex == 0 && captureBufferIndex == 0
    {
      var o := NewPool();
      var c := NewPool();
      outputBuffers, captureBuffers := o, c;
      mediaFd, videoFd, dmaHeapFd := -1, -1, 0;
      allocator, memory := ALLOCATOR_V4L2, 0;
      outputType, outputWidth, outputHeight, outputPixelFormat := 0, 0, 0, 0;
      captureType, captureWidth, captureHeight, capturePixelFormat := 0, 0, 0, 0;
      outputFormat, captureFormat := Format(0, 0, 0, 0, 0), Format(0, 0, 0, 0, 0);
      outputBuffersCount, outputBufferIndex := 0, 0;
      captureBuffersCount, captureBufferIndex := 0, 0;
    }
  }

  /* ---- media_device_probe ---- */

  /**
   * media_device_probe: the walk of demo_open_media_decoder from the entity
   * of function `role`, except that success keeps the media node open and
   * records both fds in the context; only a failure closes the media node
   * (the video node is never open then).  Every array allocated is freed on
   * every path after the open.
   */
  method Probe(demo: CedrusDemo, mediaPath: string, role: nat, k: Kernel)
    returns (ret: int, ghost mediaFd: int, ghost fetchRet: int, ghost topology: Topology,
             ghost acquired: seq<GraphArray>, ghost fetchLog: seq<Event>, ghost nodeLog: seq<Event>,
             ghost nodeFd: int)
    modifies demo`mediaFd, demo`videoFd, k
    ensures ret != 0 ==> demo.mediaFd == old(demo.mediaFd) && demo.videoFd == old(demo.videoFd)
    ensures ret == 0 ==> mediaFd >= 0 && nodeFd >= 0 && demo.mediaFd == mediaFd && demo.videoFd == nodeFd
    ensures mediaFd < 0 ==> ret == mediaFd && k.trace == old(k.trace) + [Event(Open(Some(mediaPath)), mediaFd, NoOut)]
    ensures mediaFd >= 0 ==>
              k.trace == old(k.trace) + [Event(Open(Some(mediaPath)), mediaFd, NoOut)] + fetchLog + nodeLog +
                         (if ret == 0 then [] else [Event(Close(mediaFd), 0, NoOut)]) + Media.Frees(acquired) &&
              Media.FetchOutcome(fetchLog, mediaFd, fetchRet, topology, acquired) &&
              (fetchRet != 0 ==> ret == fetchRet && nodeLog == []) &&
              (fetchRet == 0 ==>
                 match Media.Resolve(topology, role)
                 case None => ret == -ENODEV && nodeLog == []
                 case Some(route) =>
                   Media.NodeOpened(nodeLog, route.intf.major, route.intf.minor, false, nodeFd) &&
                   (nodeFd >= 0 ==> ret == 0) && (nodeFd < 0 ==> ret == nodeFd))
  {
    nodeLog, acquired, fetchLog, topology, fetchRet, nodeFd := [], [], [], Topology([], [], [], []), 0, -1;
    var media := k.Call(Open(Some(mediaPath)));
    mediaFd := media;
    if media < 0 {
      return media, mediaFd, fetchRet, topology, acquired, fetchLog, nodeLog, nodeFd;
    }
    ret, fetchRet, topology, acquired, fetchLog, nodeLog, nodeFd := Walk(demo, media, role, k);
  }

  /** media_device_probe once the media node `media` is open. */
  method Walk(demo: CedrusDemo, media: int, role: nat, k: Kernel)
    returns (ret: int, ghost fetchRet: int, ghost topology: Topology, ghost acquired: seq<GraphArray>,
             ghost fetchLog: seq<Event>, ghost nodeLog: seq<Event>, ghost nodeFd: int)
    requires media >= 0
    modifies demo`mediaFd, demo`videoFd, k
    ensures ret != 0 ==> demo.mediaFd == old(demo.mediaFd) && demo.videoFd == old(demo.videoFd)
    ensures ret == 0 ==> nodeFd >= 0 && demo.mediaFd == media && demo.videoFd == nodeFd
    ensures k.trace == old(k.trace) + fetchLog + nodeLog +
                       (if ret == 0 then [] else [Event(Close(media), 0, NoOut)]) + Media.Frees(acquired)
    ensures Media.FetchOutcome(fetchLog, media, fetchRet, topology, acquired)
    ensures fetchRet != 0 ==> ret == fetchRet && nodeLog == []
    ensures fetchRet == 0 ==>
              match Media.Resolve(topology, role)
              case None => ret == -ENODEV && nodeLog == []
              case Some(route) =>
                Media.NodeOpened(nodeLog, route.intf.major, route.intf.minor, false, nodeFd) &&
                (nodeFd >= 0 ==> ret == 0) && (nodeFd < 0 ==> ret == nodeFd)
  {
    nodeLog, nodeFd := [], -1;
    var topo, arrays;
    ret, topo, arrays, fetchLog := Media.FetchTopology(media, k);
    topology, acquired := topo, arrays;
    fetchRet := ret;
    if ret == 0 {
      ret, nodeLog, nodeFd := Locate(demo, media, topo, role, k);
    }
    Media.Release(if ret == 0 then -1 else media, arrays, k);
  }

  /** The part of media_device_probe after the topology is fetched: the resolution, then the open of the node. */
  method Locate(demo: CedrusDemo, media: int, topology: Topology, role: nat, k: Kernel)
    returns (ret: int, ghost nodeLog: seq<Event>, ghost nodeFd: int)
    modifies demo`mediaFd, demo`videoFd, k
    ensures ret != 0 ==> demo.mediaFd == old(demo.mediaFd) && demo.videoFd == old(demo.videoFd)
    ensures ret == 0 ==> nodeFd >= 0 && demo.mediaFd == media && demo.videoFd == nodeFd
    ensures k.trace == old(k.trace) + nodeLog
    ensures match Media.Resolve(topology, role)
            case None => ret == -ENODEV && nodeLog == []
            case Some(route) =>
              Media.NodeOpened(nodeLog, route.intf.major, route.intf.minor, false, nodeFd) &&
              (nodeFd >= 0 ==> ret == 0) && (nodeFd < 0 ==> ret == nodeFd)
  {
    nodeLog, nodeFd := [], -1;
    match Media.Resolve(topology, role)
    case None =>
      ret := -ENODEV;
    case Some(route) =>
      var fd;
      fd, nodeLog := Media.OpenDevnode(route.intf.major, route.intf.minor, false, k);
      nodeFd := fd;
      if fd < 0 {
        ret := fd;
      } else {
        demo.mediaFd, demo.videoFd := media, fd;
        ret := 0;
      }
  }

  /* ---- cedrus_demo_buffer_setup ---- */

  /** What cedrus_demo_buffer_setup reads from the context. */
  datatype Supply = Supply(allocator: int, heapFd: int, videoFd: int, memory: int)

  function SupplyOf(demo: CedrusDemo): Supply
    reads demo`allocator, demo`dmaHeapFd, demo`videoFd, demo`memory
  {
    Supply(demo.allocator, demo.dmaHeapFd, demo.videoFd, demo.memory)
  }

  /**
   * How the used planes get their memory: allocated from the dma-heap,
   * mapped from the device, or, under any other allocator, not at all.
   */
  function PlaneStrategy(s: Supply): (st: Option<DemoBuffer.Strategy>)
    ensures st.Some? <==> s.allocator == ALLOCATOR_DMA_HEAP || s.allocator == ALLOCATOR_V4L2
    ensures st == Some(DemoBuffer.HeapAllocate(s.heapFd)) <==> s.allocator == ALLOCATOR_DMA_HEAP
    ensures st == Some(DemoBuffer.DeviceMap(s.videoFd)) <==> s.allocator == ALLOCATOR_V4L2
    ensures st.Some? ==> st.value.Valid() && !st.value.Import?
  {
    if s.allocator == ALLOCATOR_DMA_HEAP then Some(DemoBuffer.HeapAllocate(s.heapFd))
    else if s.allocator == ALLOCATOR_V4L2 then Some(DemoBuffer.DeviceMap(s.videoFd))
    else None
  }

  /**
   * The buffer once its header is set and the query has answered `infos`
   * for the used planes; unlike demo.c, no handle is cleared.
   */
  function Queried(v0: BufferView, bufType: int, memory: int, index: nat, count: nat, infos: seq<PlaneInfo>): (v: BufferView)
    requires v0.Valid() && count <= MAX_PLANES && |infos| == count
    ensures v.Valid()
  {
    v0.(bufType := bufType, memory := memory, index := index, planesCount := count,
        planes := seq(MAX_PLANES, j requires 0 <= j < MAX_PLANES =>
                        if j < count then v0.planes[j].(length := infos[j].length, offset := infos[j].offset)
                        else v0.planes[j]))
  }

  /**
   * The base part of cedrus_demo_buffer_setup: refuse more planes than the
   * type allows, set the header and query the planes.
   */
  method SetupBase(b: Buffer, videoFd: int, memory: int, bufType: int, index: nat, planesCount: nat, k: Kernel)
    returns (ret: int, ghost query: Event)
    requires b.Valid()
    modifies b, k
    ensures b.Valid()
    ensures planesCount > DemoBuffer.PlaneLimit(bufType) ==>
              ret == -EINVAL && unchanged(b) && k.trace == old(k.trace)
    ensures planesCount <= DemoBuffer.PlaneLimit(bufType) ==>
              planesCount <= MAX_PLANES &&
              query.op == BufferQuery(videoFd, bufType, memory, index, planesCount) && query.ret == ret &&
              query.out.Planes? && |query.out.planes| == planesCount &&
              b.View() == Queried(old(b.View()), bufType, memory, index, planesCount, query.out.planes) &&
              k.trace == old(k.trace) + [query]
  {
    query := Event(BufferQuery(videoFd, bufType, memory, index, planesCount), 0, NoOut);
    if planesCount > DemoBuffer.PlaneLimit(bufType) {
      return -EINVAL, query;
    }
    ghost var v0 := b.View();
    var infos;
    ret, infos := k.BufferQuery(videoFd, bufType, memory, index, planesCount);
    query := Event(BufferQuery(videoFd, bufType, memory, index, planesCount), ret, Planes(infos));
    var planes := b.planes;
    b.planesCount, b.bufType, b.memory, b.index := planesCount, bufType, memory, index;
    b.planes := seq(MAX_PLANES, j requires 0 <= j < MAX_PLANES =>
                      if j < planesCount then planes[j].(length := infos[j].length, offset := infos[j].offset)
                      else planes[j]);
  }

  /**
   * The outcome of cedrus_demo_buffer_setup from `v0` to `v` with no more
   * planes than the type allows: the query, whose error is returned; then,
   * when it succeeded, the plane loop of the allocator, or nothing and 0
   * under another allocator.
   */
  ghost predicate SetupOutcome(s: Supply, bufType: int, index: nat, planesCount: nat, v0: BufferView, v: BufferView,
                               query: Event, logs: seq<seq<Event>>, ret: int)
    requires v0.Valid() && v.Valid()
  {
    planesCount <= MAX_PLANES &&
    query.op == BufferQuery(s.videoFd, bufType, s.memory, index, planesCount) &&
    query.out.Planes? && |query.out.planes| == planesCount &&
    var q := Queried(v0, bufType, s.memory, index, planesCount, query.out.planes);
    if query.ret != 0 then ret == query.ret && logs == [] && v == q
    else match PlaneStrategy(s)
      case None => ret == 0 && logs == [] && v == q
      case Some(st) => DemoBuffer.PlanesOutcome(st, q, v, logs, ret)
  }

  /**
   * cedrus_demo_buffer_setup: the base part, then every used plane gets its
   * memory by the allocator's strategy (failing with -ENOMEM, the planes
   * before keeping theirs).
   */
  method BufferSetup(b: Buffer, s: Supply, bufType: int, index: nat, planesCount: nat, k: Kernel)
    returns (ret: int, ghost query: Event, ghost logs: seq<seq<Event>>)
    requires b.Valid()
    modifies b, k
    ensures b.Valid()
    ensures planesCount > DemoBuffer.PlaneLimit(bufType) ==>
              ret == -EINVAL && unchanged(b) && k.trace == old(k.trace) && logs == []
    ensures planesCount <= DemoBuffer.PlaneLimit(bufType) ==>
              k.trace == old(k.trace) + [query] + Concat(logs) &&
              SetupOutcome(s, bufType, index, planesCount, old(b.View()), b.View(), query, logs, ret)
  {
    logs := [];
    ret, query := SetupBase(b, s.videoFd, s.memory, bufType, index, planesCount, k);
    if planesCount > DemoBuffer.PlaneLimit(bufType) || ret != 0 {
      return;
    }
    if s.allocator == ALLOCATOR_DMA_HEAP {
      ret, logs := DemoBuffer.SetupDmaHeap(b, s.heapFd, k);
    } else if s.allocator == ALLOCATOR_V4L2 {
      ret, logs := DemoBuffer.SetupV4l2(b, s.videoFd, k);
    }
  }

  /**
   * A buffer cedrus_demo_buffer_setup left ready: its header as asked, the
   * query answered, and each used plane given its memory by the allocator's
   * strategy through the calls of `logs` (none under another allocator).
   */
  ghost predicate Ready(s: Supply, v: BufferView, bufType: int, index: nat, planesCount: nat,
                        query: Event, logs: seq<seq<Event>>)
  {
    v.Valid() && v.bufType == bufType && v.memory == s.memory && v.index == index && v.planesCount == planesCount &&
    query.op == BufferQuery(s.videoFd, bufType, s.memory, index, planesCount) && query.ret == 0 &&
    match PlaneStrategy(s)
    case None => logs == []
    case Some(st) =>
      |logs| == planesCount && forall j | 0 <= j < planesCount :: DemoBuffer.PlaneDone(st, v, j, logs[j])
  }

  /** A buffer setup that returns 0 leaves the buffer ready. */
  lemma SetupReady(s: Supply, bufType: int, index: nat, planesCount: nat, v0: BufferView, v: BufferView,
                   query: Event, logs: seq<seq<Event>>)
    requires v0.Valid() && v.Valid()
    requires SetupOutcome(s, bufType, index, planesCount, v0, v, query, logs, 0)
    ensures Ready(s, v, bufType, index, planesCount, query, logs)
  {
    var q := Queried(v0, bufType, s.memory, index, planesCount, query.out.planes);
    assert q.bufType == bufType && q.memory == s.memory && q.index == index && q.planesCount == planesCount;
  }

  /* ---- cedrus_demo_buffer_cleanup ---- */

  /**
   * The buffer after cedrus_demo_buffer_cleanup: every used plane unmapped,
   * and, when `heap` (the dma-heap allocator), its handle cleared.
   */
  function Released(v: BufferView, heap: bool): (c: BufferView)
    requires v.Valid()
    ensures c.Valid()
  {
    v.(data := seq(MAX_PLANES, j requires 0 <= j < MAX_PLANES => if j < v.planesCount then Null else v.data[j]),
       dmaBufFd := seq(MAX_PLANES, j requires 0 <= j < MAX_PLANES =>
                         if heap && j < v.planesCount then -1 else v.dmaBufFd[j]))
  }

  /** The unmappings of the first `count` planes, in order. */
  function Unmaps(planes: seq<Plane>, data: seq<Region>, count: nat): seq<Event>
    requires count <= |planes| && count <= |data|
  {
    if count == 0 then []
    else Unmaps(planes, data, count - 1) + [Event(Munmap(data[count - 1], planes[count - 1].length), 0, NoOut)]
  }

  /** The closes of the first `count` handles, in order, whatever their value. */
  function Closes(fds: seq<int>, count: nat): seq<Event>
    requires count <= |fds|
  {
    if count == 0 then [] else Closes(fds, count - 1) + [Event(Close(fds[count - 1]), 0, NoOut)]
  }

  /** The calls of cedrus_demo_buffer_cleanup: all the unmappings, then, when `heap`, all the closes. */
  function ReleaseEvents(v: BufferView, heap: bool): seq<Event>
    requires v.Valid()
  {
    Unmaps(v.planes, v.data, v.planesCount) + if heap then Closes(v.dmaBufFd, v.planesCount) else []
  }

  lemma {:induction false} UnmapsHas(planes: seq<Plane>, data: seq<Region>, count: nat)
    requires count <= |planes| && count <= |data|
    ensures |Unmaps(planes, data, count)| == count
    ensures forall j | 0 <= j < count :: Unmaps(planes, data, count)[j] == Event(Munmap(data[j], planes[j].length), 0, NoOut)
  {
    if count > 0 {
      UnmapsHas(planes, data, count - 1);
    }
  }

  lemma {:induction false} ClosesHas(fds: seq<int>, count: nat)
    requires count <= |fds|
    ensures |Closes(fds, count)| == count
    ensures forall j | 0 <= j < count :: Closes(fds, count)[j] == Event(Close(fds[j]), 0, NoOut)
  {
    if count > 0 {
      ClosesHas(fds, count - 1);
    }
  }

  /**
   * The cleanup of a ready buffer undoes its setup: it unmaps, with its
   * length, every mapping the setup obtained, and under the dma-heap
   * allocator closes every handle the heap handed out, while mapping from
   * the device leaves nothing to close.  A cleanup of a cleaned buffer
   * changes nothing more.
   */
  lemma {:induction false} ReleaseUndoesSetup(s: Supply, v: BufferView, bufType: int, index: nat, count: nat,
                                              query: Event, logs: seq<seq<Event>>)
    requires Ready(s, v, bufType, index, count, query, logs) && PlaneStrategy(s).Some?
    ensures forall j | 0 <= j < count ::
              |logs[j]| > 0 && logs[j][|logs[j]| - 1].op.Mmap? && logs[j][|logs[j]| - 1].out.Mapping? &&
              Event(Munmap(Region(logs[j][|logs[j]| - 1].out.token), logs[j][|logs[j]| - 1].op.length), 0, NoOut)
                in ReleaseEvents(v, s.allocator == ALLOCATOR_DMA_HEAP)
    ensures s.allocator == ALLOCATOR_DMA_HEAP ==>
              forall j | 0 <= j < count ::
                logs[j][0].op == HeapAlloc(s.heapFd, v.planes[j].length) &&
                Event(Close(logs[j][0].ret), 0, NoOut) in ReleaseEvents(v, true)
    ensures s.allocator == ALLOCATOR_V4L2 ==> forall e | e in ReleaseEvents(v, false) :: !e.op.Close?
    ensures Released(Released(v, s.allocator == ALLOCATOR_DMA_HEAP), s.allocator == ALLOCATOR_DMA_HEAP) ==
            Released(v, s.allocator == ALLOCATOR_DMA_HEAP)
  {
    var heap := s.allocator == ALLOCATOR_DMA_HEAP;
    var st := PlaneStrategy(s).value;
    UnmapsHas(v.planes, v.data, count);
    ClosesHas(v.dmaBufFd, count);
    var events := ReleaseEvents(v, heap);
    forall j | 0 <= j < count
      ensures |logs[j]| > 0 && logs[j][|logs[j]| - 1].op.Mmap? && logs[j][|logs[j]| - 1].out.Mapping? &&
              Event(Munmap(Region(logs[j][|logs[j]| - 1].out.token), logs[j][|logs[j]| - 1].op.length), 0, NoOut)
                in events
    {
      assert DemoBuffer.PlaneDone(st, v, j, logs[j]);
      assert events[j] == Unmaps(v.planes, v.data, count)[j];
    }
    if heap {
      forall j | 0 <= j < count
        ensures logs[j][0].op == HeapAlloc(s.heapFd, v.planes[j].length) &&
                Event(Close(logs[j][0].ret), 0, NoOut) in events
      {
        assert DemoBuffer.PlaneDone(st, v, j, logs[j]);
        assert events[count + j] == Closes(v.dmaBufFd, count)[j];
      }
    } else {
      assert events == Unmaps(v.planes, v.data, count);
      forall e | e in events
        ensures !e.op.Close?
      {
        var j :| 0 <= j < count && events[j] == e;
      }
    }
    var c := Released(v, heap);
    assert Released(c, heap).data == c.data && Released(c, heap).dmaBufFd == c.dmaBufFd;
  }

  /** cedrus_demo_buffer_cleanup, with `heap` standing for the dma-heap allocator. */
  method BufferCleanup(b: Buffer, heap: bool, k: Kernel)
    requires b.Valid()
    modifies b, k
    ensures b.Valid()
    ensures b.View() == Released(old(b.View()), heap)
    ensures k.trace == old(k.trace) + ReleaseEvents(old(b.View()), heap)
  {
    ghost var v := b.View();
    UnmapPlanes(b, k);
    if heap {
      CloseHandles(b, k);
      assert b.dmaBufFd == Released(v, heap).dmaBufFd;
    } else {
      assert b.dmaBufFd == Released(v, heap).dmaBufFd;
    }
  }

  /** The unmapping loop of cedrus_demo_buffer_cleanup. */
  method UnmapPlanes(b: Buffer, k: Kernel)
    requires b.Valid()
    modifies b`data, k
    ensures b.Valid()
    ensures b.View() == Released(old(b.View()), false)
    ensures k.trace == old(k.trace) + Unmaps(old(b.planes), old(b.data), b.planesCount)
  {
    ghost var v := b.View();
    for i := 0 to b.planesCount
      invariant b.Valid() && b.View() == v.(data := b.data)
      invariant forall j | 0 <= j < MAX_PLANES :: b.data[j] == if j < i then Null else v.data[j]
      invariant k.trace == old(k.trace) + Unmaps(v.planes, v.data, i)
    {
      k.Void(Munmap(b.data[i], b.planes[i].length));
      b.data := b.data[i := Null];
    }
    assert b.data == Released(v, false).data;
  }

  /** The closing loop of cedrus_demo_buffer_cleanup, run under the dma-heap allocator. */
  method CloseHandles(b: Buffer, k: Kernel)
    requires b.Valid()
    modifies b`dmaBufFd, k
    ensures b.Valid()
    ensures b.View() == old(b.View()).(dmaBufFd := Released(old(b.View()), true).dmaBufFd)
    ensures k.trace == old(k.trace) + Closes(old(b.dmaBufFd), b.planesCount)
  {
    ghost var v := b.View();
    for i := 0 to b.planesCount
      invariant b.Valid() && b.View() == v.(dmaBufFd := b.dmaBufFd)
      invariant forall j | 0 <= j < MAX_PLANES :: b.dmaBufFd[j] == if j < i then -1 else v.dmaBufFd[j]
      invariant k.trace == old(k.trace) + Closes(v.dmaBufFd, i)
    {
      k.Void(Close(b.dmaBufFd[i]));
      b.dmaBufFd := b.dmaBufFd[i := -1];
    }
    assert b.dmaBufFd == Released(v, true).dmaBufFd;
  }

  /* ---- the pool loops of cedrus_demo_setup ---- */

  /**
   * The pool loop so far, from `views0` to `views`: the first |queries|
   * buffers are ready with one plane each, the others untouched.
   */
  ghost predicate PoolProgress(s: Supply, bufType: int, views0: seq<BufferView>, views: seq<BufferView>,
                               queries: seq<Event>, planeLogs: seq<seq<seq<Event>>>)
  {
    |views0| == POOL_SIZE && |views| == POOL_SIZE && ViewsValid(views0) && ViewsValid(views) &&
    |queries| == |planeLogs| <= POOL_SIZE &&
    (forall j | 0 <= j < |queries| :: Ready(s, views[j], bufType, j, PLANES_COUNT, queries[j], planeLogs[j])) &&
    (forall j | |queries| <= j < POOL_SIZE :: views[j] == views0[j])
  }

  /**
   * The outcome of the pool loop: the buffers were set up in order with one
   * plane each; all POOL_SIZE are ready and the code is 0, or the first
   * `ready` are, the next one's setup failed with the code returned, and
   * the buffers after it are untouched.
   */
  ghost predicate BuffersOutcome(s: Supply, bufType: int, views0: seq<BufferView>, views: seq<BufferView>,
                                 queries: seq<Event>, planeLogs: seq<seq<seq<Event>>>, ready: nat, ret: int)
  {
    |views0| == POOL_SIZE && |views| == POOL_SIZE && ViewsValid(views0) && ViewsValid(views) &&
    |queries| == |planeLogs| <= POOL_SIZE && ready <= |queries| &&
    (ret == 0 ==> ready == |queries| == POOL_SIZE) &&
    (ret != 0 ==>
       ready == |queries| - 1 &&
       SetupOutcome(s, bufType, ready, PLANES_COUNT, views0[ready], views[ready], queries[ready], planeLogs[ready], ret)) &&
    (forall j | 0 <= j < ready :: Ready(s, views[j], bufType, j, PLANES_COUNT, queries[j], planeLogs[j])) &&
    (forall j | |queries| <= j < POOL_SIZE :: views[j] == views0[j])
  }

  lemma PoolStep(s: Supply, bufType: int, views0: seq<BufferView>, views: seq<BufferView>,
                 queries: seq<Event>, planeLogs: seq<seq<seq<Event>>>, w: BufferView, query: Event,
                 logs: seq<seq<Event>>)
    requires PoolProgress(s, bufType, views0, views, queries, planeLogs) && |queries| < POOL_SIZE
    requires Ready(s, w, bufType, |queries|, PLANES_COUNT, query, logs)
    ensures PoolProgress(s, bufType, views0, views[|queries| := w], queries + [query], planeLogs + [logs])
  {
    var n := |queries|;
    var vs, qs, ls := views[n := w], queries + [query], planeLogs + [logs];
    forall j | 0 <= j < n + 1
      ensures Ready(s, vs[j], bufType, j, PLANES_COUNT, qs[j], ls[j])
    {
      if j < n {
        assert qs[j] == queries[j] && vs[j] == views[j] && ls[j] == planeLogs[j];
      }
    }
  }

  lemma PoolStop(s: Supply, bufType: int, views0: seq<BufferView>, views: seq<BufferView>,
                 queries: seq<Event>, planeLogs: seq<seq<seq<Event>>>, w: BufferView, query: Event,
                 logs: seq<seq<Event>>, ret: int)
    requires PoolProgress(s, bufType, views0, views, queries, planeLogs) && |queries| < POOL_SIZE
    requires w.Valid() && ret != 0
    requires SetupOutcome(s, bufType, |queries|, PLANES_COUNT, views0[|queries|], w, query, logs, ret)
    ensures BuffersOutcome(s, bufType, views0, views[|queries| := w], queries + [query], planeLogs + [logs],
                           |queries|, ret)
  {
    var n := |queries|;
    var vs, qs, ls := views[n := w], queries + [query], planeLogs + [logs];
    assert qs[n] == query && ls[n] == logs && vs[n] == w;
    forall j | 0 <= j < n
      ensures qs[j] == queries[j] && vs[j] == views[j] && ls[j] == planeLogs[j]
    {
    }
  }

  /** One turn of the pool loop: cedrus_demo_buffer_setup of buffer `index` with one plane. */
  method SetupPoolBuffer(pool: seq<Buffer>, s: Supply, bufType: int, index: nat, k: Kernel)
    returns (ret: int, ghost query: Event, ghost logs: seq<seq<Event>>)
    requires PoolValid(pool) && index < POOL_SIZE
    modifies pool[index], k
    ensures PoolValid(pool)
    ensures pool[index].Valid() && Views(pool) == old(Views(pool))[index := pool[index].View()]
    ensures k.trace == old(k.trace) + [query] + Concat(logs)
    ensures var v0 := old(Views(pool))[index];
            v0.Valid() && SetupOutcome(s, bufType, index, PLANES_COUNT, v0, pool[index].View(), query, logs, ret)
  {
    var b := pool[index];
    assert b in pool;
    ghost var before := Views(pool);
    ret, query, logs := BufferSetup(b, s, bufType, index, PLANES_COUNT, k);
    forall j | 0 <= j < POOL_SIZE && j != index
      ensures pool[j].View() == before[j]
    {
      assert pool[j] != b;
    }
  }

  /** One turn of the pool loop, as the loop sees it. */
  method SetupBuffersTurn(pool: seq<Buffer>, s: Supply, bufType: int, index: nat, ghost views0: seq<BufferView>,
                          ghost start: seq<Event>, ghost queries: seq<Event>, ghost planeLogs: seq<seq<seq<Event>>>,
                          k: Kernel)
    returns (ret: int, ghost query: Event, ghost logs: seq<seq<Event>>)
    requires PoolValid(pool) && index == |queries| == |planeLogs| < POOL_SIZE
    requires k.trace == start + DemoBuffer.BufferLogs(queries, planeLogs)
    requires PoolProgress(s, bufType, views0, Views(pool), queries, planeLogs)
    modifies pool, k
    ensures PoolValid(pool)
    ensures k.trace == start + DemoBuffer.BufferLogs(queries + [query], planeLogs + [logs])
    ensures ret == 0 ==> PoolProgress(s, bufType, views0, Views(pool), queries + [query], planeLogs + [logs])
    ensures ret != 0 ==>
              BuffersOutcome(s, bufType, views0, Views(pool), queries + [query], planeLogs + [logs], |queries|, ret)
  {
    var i := index;
    ghost var views := Views(pool);
    ret, query, logs := SetupPoolBuffer(pool, s, bufType, i, k);
    DemoBuffer.TraceStep(start, queries, planeLogs, query, logs);
    PoolViewsValid(pool);
    if ret != 0 {
      PoolStop(s, bufType, views0, views, queries, planeLogs, pool[i].View(), query, logs, ret);
    } else {
      SetupReady(s, bufType, i, PLANES_COUNT, views0[i], pool[i].View(), query, logs);
      PoolStep(s, bufType, views0, views, queries, planeLogs, pool[i].View(), query, logs);
    }
  }

  /** The loop of cedrus_demo_setup over a requested pool, stopping at the first failure. */
  method SetupBuffers(pool: seq<Buffer>, s: Supply, bufType: int, k: Kernel)
    returns (ret: int, ghost queries: seq<Event>, ghost planeLogs: seq<seq<seq<Event>>>, ghost ready: nat)
    requires PoolValid(pool)
    modifies pool, k
    ensures PoolValid(pool) && |queries| == |planeLogs|
    ensures k.trace == old(k.trace) + DemoBuffer.BufferLogs(queries, planeLogs)
    ensures BuffersOutcome(s, bufType, old(Views(pool)), Views(pool), queries, planeLogs, ready, ret)
  {
    PoolViewsValid(pool);
    ghost var views0 := Views(pool);
    queries, planeLogs, ready := [], [], 0;
    ghost var start := k.trace;
    var i := 0;
    while i < POOL_SIZE
      invariant i == |queries| == |planeLogs| && ready == i
      invariant PoolValid(pool)
      invariant k.trace == start + DemoBuffer.BufferLogs(queries, planeLogs)
      invariant PoolProgress(s, bufType, views0, Views(pool), queries, planeLogs)
    {
      ghost var query, logs;
      ret, query, logs := SetupBuffersTurn(pool, s, bufType, i, views0, start, queries, planeLogs, k);
      queries, planeLogs := queries + [query], planeLogs + [logs];
      if ret != 0 {
        return;
      }
      i, ready := i + 1, i + 1;
    }
    ret := 0;
  }

  /**
   * The outcome of setting up a pool, now `views` (before, `views0`):
   * request POOL_SIZE buffers, returning the error if that fails, then the
   * pool loop.
   */
  ghost predicate PoolOutcome(s: Supply, bufType: int, views0: seq<BufferView>, views: seq<BufferView>,
                              run: DemoBuffer.PoolRun, ret: int)
  {
    run.request.op == BuffersRequest(s.videoFd, bufType, s.memory, POOL_SIZE) &&
    (run.request.ret != 0 ==>
       ret == run.request.ret && run.queries == [] && run.planeLogs == [] && run.ready == 0 && views == views0) &&
    (run.request.ret == 0 ==>
       BuffersOutcome(s, bufType, views0, views, run.queries, run.planeLogs, run.ready, ret))
  }

  /** One pool of cedrus_demo_setup: request POOL_SIZE buffers of the queue, then set them up. */
  method SetupPool(pool: seq<Buffer>, ghost other: seq<Buffer>, s: Supply, bufType: int, k: Kernel)
    returns (ret: int, ghost run: DemoBuffer.PoolRun)
    requires PoolValid(pool) && PoolValid(other) && Disjoint(pool, other)
    modifies pool, k
    ensures PoolValid(pool) && PoolValid(other)
    ensures Views(other) == old(Views(other))
    ensures |run.queries| == |run.planeLogs|
    ensures k.trace == old(k.trace) + run.Log()
    ensures PoolOutcome(s, bufType, old(Views(pool)), Views(pool), run, ret)
  {
    var op := BuffersRequest(s.videoFd, bufType, s.memory, POOL_SIZE);
    ret := k.Call(op);
    if ret != 0 {
      run := DemoBuffer.PoolRun(Event(op, ret, NoOut), [], [], 0);
      return;
    }
    ghost var queries, planeLogs, ready;
    ret, queries, planeLogs, ready := SetupBuffers(pool, s, bufType, k);
    run := DemoBuffer.PoolRun(Event(op, 0, NoOut), queries, planeLogs, ready);
    TraceAppend(old(k.trace), [run.request], DemoBuffer.BufferLogs(queries, planeLogs));
    forall j | 0 <= j < |other|
      ensures other[j].View() == old(other[j].View())
    {
      assert other[j] in other;
    }
  }

  /**
   * A pool set up with code 0: every buffer is ready, with one plane of the
   * queue's type and the demo's memory, and with the allocator's strategy
   * every plane is mapped.
   */
  lemma {:induction false} PoolReady(s: Supply, bufType: int, views0: seq<BufferView>, views: seq<BufferView>,
                                     run: DemoBuffer.PoolRun)
    requires PoolOutcome(s, bufType, views0, views, run, 0)
    ensures |run.queries| == |run.planeLogs| == POOL_SIZE
    ensures forall j | 0 <= j < POOL_SIZE ::
              Ready(s, views[j], bufType, j, PLANES_COUNT, run.queries[j], run.planeLogs[j]) &&
              views[j].planesCount == 1 && views[j].index == j && views[j].bufType == bufType
    ensures PlaneStrategy(s).Some? ==> forall j | 0 <= j < POOL_SIZE :: views[j].data[0].Region?
  {
    assert run.request.ret == 0;
    if PlaneStrategy(s).Some? {
      var st := PlaneStrategy(s).value;
      forall j | 0 <= j < POOL_SIZE
        ensures views[j].data[0].Region?
      {
        assert Ready(s, views[j], bufType, j, PLANES_COUNT, run.queries[j], run.planeLogs[j]);
        assert DemoBuffer.PlaneDone(st, views[j], 0, run.planeLogs[j][0]);
      }
    }
  }

  /* ---- cedrus_demo_setup ---- */

  /**
   * The allocator part of cedrus_demo_setup, from `s0` to `s`: the V4L2
   * allocator maps from the device (MMAP memory); the dma-heap allocator
   * takes DMABUF memory and opens the heap DMA_HEAP_NAME, whose failure is
   * returned, the memory being recorded first; another allocator is
   * -EINVAL and changes nothing.
   */
  ghost predicate Selected(allocator: int, s0: Snapshot, s: Snapshot, log: seq<Event>, ret: int) {
    match AllocatorMemory(allocator)
    case None => ret == -EINVAL && log == [] && s == s0
    case Some(m) =>
      if allocator == ALLOCATOR_V4L2 then ret == 0 && log == [] && s == s0.(memory := m)
      else
        |log| == 1 && log[0] == Event(HeapOpen(DMA_HEAP_NAME), log[0].ret, NoOut) &&
        if log[0].ret < 0 then ret == log[0].ret && s == s0.(memory := m)
        else ret == 0 && s == s0.(memory := m, dmaHeapFd := log[0].ret)
  }

  /** Only a known allocator gets past the allocator part, and a dma-heap one with the heap open. */
  lemma SelectedAllocator(allocator: int, s0: Snapshot, s: Snapshot, log: seq<Event>, ret: int)
    requires Selected(allocator, s0, s, log, ret) && ret == 0
    ensures allocator == ALLOCATOR_V4L2 ==> s.memory == MEMORY_MMAP && s.dmaHeapFd == s0.dmaHeapFd && log == []
    ensures allocator == ALLOCATOR_DMA_HEAP ==>
              s.memory == MEMORY_DMABUF && s.dmaHeapFd >= 0 && log == [Event(HeapOpen(DMA_HEAP_NAME), s.dmaHeapFd, NoOut)]
    ensures allocator == ALLOCATOR_V4L2 || allocator == ALLOCATOR_DMA_HEAP
  {
  }

  method SelectAllocator(demo: CedrusDemo, allocator: int, k: Kernel) returns (ret: int, ghost log: seq<Event>)
    requires demo.Valid()
    modifies demo`memory, demo`dmaHeapFd, k
    ensures demo.Valid()
    ensures k.trace == old(k.trace) + log
    ensures Selected(allocator, old(demo.Snap()), demo.Snap(), log, ret)
  {
    log := [];
    var memory := AllocatorMemory(allocator);
    if memory.None? {
      return -EINVAL, log;
    }
    demo.memory := memory.value;
    if allocator == ALLOCATOR_DMA_HEAP {
      var fd := k.Call(HeapOpen(DMA_HEAP_NAME));
      log := [Event(HeapOpen(DMA_HEAP_NAME), fd, NoOut)];
      if fd < 0 {
        return fd, log;
      }
      demo.dmaHeapFd := fd;
    }
    ret := 0;
  }

  /**
   * The settings of cedrus_demo_setup before any format call: the
   * allocator, JPEG on the output queue and NV16 on the capture queue, both
   * OUTPUT_WIDTH by OUTPUT_HEIGHT; the formats and counts as they were.
   */
  function Settled(s: Snapshot, allocator: int): Snapshot {
    s.(allocator := allocator,
       output := QueueState(BUF_TYPE_VIDEO_OUTPUT, OUTPUT_WIDTH, OUTPUT_HEIGHT, PIX_FMT_JPEG, s.output.format),
       capture := QueueState(BUF_TYPE_VIDEO_CAPTURE, OUTPUT_WIDTH, OUTPUT_HEIGHT, PIX_FMT_NV16, s.capture.format))
  }

  /** The snapshot with the two format fields replaced. */
  function Formatted(s: Snapshot, outputFormat: Format, captureFormat: Format): Snapshot {
    s.(output := s.output.(format := outputFormat), capture := s.capture.(format := captureFormat))
  }

  method Settle(demo: CedrusDemo, allocator: int)
    requires demo.Valid()
    modifies demo`allocator, demo`outputType, demo`captureType, demo`outputWidth, demo`outputHeight,
             demo`outputPixelFormat, demo`captureWidth, demo`captureHeight, demo`capturePixelFormat
    ensures demo.Valid()
    ensures demo.Snap() == Settled(old(demo.Snap()), allocator)
  {
    ghost var s0 := demo.Snap();
    demo.allocator, demo.outputType, demo.captureType := allocator, BUF_TYPE_VIDEO_OUTPUT, BUF_TYPE_VIDEO_CAPTURE;
    demo.outputWidth, demo.outputHeight, demo.outputPixelFormat := OUTPUT_WIDTH, OUTPUT_HEIGHT, PIX_FMT_JPEG;
    demo.captureWidth, demo.captureHeight, demo.capturePixelFormat := OUTPUT_WIDTH, OUTPUT_HEIGHT, PIX_FMT_NV16;
    assert demo.Output() == Settled(s0, allocator).output;
    assert demo.Capture() == Settled(s0, allocator).capture;
  }

  /** The output format cedrus_demo_setup asks for: JPEG, one byte per pixel. */
  function OutputRequest(): Format {
    DemoDecoder.OutputRequest(OUTPUT_WIDTH, OUTPUT_HEIGHT, OUTPUT_SIZE)
  }

  /** The capture format it asks for: NV16 of the same size. */
  function CaptureRequest(): Format {
    DemoDecoder.CaptureRequest(OUTPUT_WIDTH, OUTPUT_HEIGHT)
  }

  /** The format part: both pixel format checks, then the output and the capture negotiation. */
  method NegotiateFormats(demo: CedrusDemo, k: Kernel) returns (ret: int, ghost run: DemoDecoder.FormatsRun)
    requires demo.Valid()
    modifies demo`outputFormat, demo`captureFormat, k
    ensures demo.Valid()
    ensures k.trace == old(k.trace) + run.Log()
    ensures DemoDecoder.FormatsOutcome(demo.videoFd, OutputRequest(), CaptureRequest(),
                                       old(demo.outputFormat), old(demo.captureFormat), run, ret,
                                       demo.outputFormat, demo.captureFormat)
    ensures demo.Snap() == Formatted(old(demo.Snap()), demo.outputFormat, demo.captureFormat)
  {
    var outputFormat, captureFormat;
    ret, outputFormat, captureFormat, run :=
      DemoDecoder.SetupFormats(demo.videoFd, OutputRequest(), CaptureRequest(), demo.outputFormat, demo.captureFormat, k);
    SetFormats(demo, outputFormat, captureFormat);
  }

  /** The format fields take the negotiated formats. */
  method SetFormats(demo: CedrusDemo, outputFormat: Format, captureFormat: Format)
    requires demo.Valid()
    modifies demo`outputFormat, demo`captureFormat
    ensures demo.Valid()
    ensures demo.outputFormat == outputFormat && demo.captureFormat == captureFormat
    ensures demo.Snap() == Formatted(old(demo.Snap()), outputFormat, captureFormat)
  {
    demo.outputFormat, demo.captureFormat := outputFormat, captureFormat;
  }

  /** The output pool of cedrus_demo_setup; its count is POOL_SIZE once every buffer is set up. */
  method OutputPool(demo: CedrusDemo, k: Kernel) returns (ret: int, ghost run: DemoBuffer.PoolRun)
    requires demo.Valid()
    modifies demo.outputBuffers, demo`outputBuffersCount, k
    ensures demo.Valid()
    ensures |run.queries| == |run.planeLogs| && k.trace == old(k.trace) + run.Log()
    ensures PoolOutcome(SupplyOf(demo), demo.outputType, old(Views(demo.outputBuffers)), Views(demo.outputBuffers), run, ret)
    ensures Views(demo.captureBuffers) == old(Views(demo.captureBuffers))
    ensures demo.Snap() == old(demo.Snap()).(outputBuffersCount := if ret == 0 then POOL_SIZE else old(demo.outputBuffersCount))
  {
    ghost var s0 := demo.Snap();
    ret, run := SetupPool(demo.outputBuffers, demo.captureBuffers, SupplyOf(demo), demo.outputType, k);
    assert demo.Snap() == s0 && demo.PoolsValid();
    if ret == 0 {
      SetOutputCount(demo);
    }
  }

  /** The output count assignment of cedrus_demo_setup, made once the whole pool is set up. */
  method SetOutputCount(demo: CedrusDemo)
    requires demo.Valid()
    modifies demo`outputBuffersCount
    ensures demo.Valid()
    ensures demo.Snap() == old(demo.Snap()).(outputBuffersCount := POOL_SIZE)
  {
    ghost var s0 := demo.Snap();
    demo.outputBuffersCount := POOL_SIZE;
    assert demo.Output() == s0.output && demo.Capture() == s0.capture;
  }

  /** The capture pool of cedrus_demo_setup, likewise. */
  method CapturePool(demo: CedrusDemo, k: Kernel) returns (ret: int, ghost run: DemoBuffer.PoolRun)
    requires demo.Valid()
    modifies demo.captureBuffers, demo`captureBuffersCount, k
    ensures demo.Valid()
    ensures |run.queries| == |run.planeLogs| && k.trace == old(k.trace) + run.Log()
    ensures PoolOutcome(SupplyOf(demo), demo.captureType, old(Views(demo.captureBuffers)), Views(demo.captureBuffers), run, ret)
    ensures Views(demo.outputBuffers) == old(Views(demo.outputBuffers))
    ensures demo.Snap() == old(demo.Snap()).(captureBuffersCount := if ret == 0 then POOL_SIZE else old(demo.captureBuffersCount))
  {
    ghost var s0 := demo.Snap();
    DisjointSwap(demo.outputBuffers, demo.captureBuffers);
    ret, run := SetupPool(demo.captureBuffers, demo.outputBuffers, SupplyOf(demo), demo.captureType, k);
    assert demo.Snap() == s0 && demo.PoolsValid();
    if ret == 0 {
      SetCaptureCount(demo);
    }
  }

  /** The capture count assignment of cedrus_demo_setup, made once the whole pool is set up. */
  method SetCaptureCount(demo: CedrusDemo)
    requires demo.Valid()
    modifies demo`captureBuffersCount
    ensures demo.Valid()
    ensures demo.Snap() == old(demo.Snap()).(captureBuffersCount := POOL_SIZE)
  {
    ghost var s0 := demo.Snap();
    demo.captureBuffersCount := POOL_SIZE;
    assert demo.Output() == s0.output && demo.Capture() == s0.capture;
  }

  /**
   * What a setup did, phase by phase; a phase that never started is None.
   * `configured` is the context once the formats are negotiated (or the
   * allocator part has failed).
   */
  datatype SetupRun = SetupRun(selected: Snapshot, heap: seq<Event>, heapRet: int,
                               formats: Option<DemoDecoder.FormatsRun>, formatsRet: int, configured: Snapshot,
                               output: Option<DemoBuffer.PoolRun>, outputRet: int,
                               capture: Option<DemoBuffer.PoolRun>)
  {
    predicate WellFormed() {
      (output.Some? ==> |output.value.queries| == |output.value.planeLogs|) &&
      (capture.Some? ==> |capture.value.queries| == |capture.value.planeLogs|)
    }

    /** The calls of the allocator and the format parts. */
    function ConfigureLog(): seq<Event> {
      heap + (if formats.Some? then formats.value.Log() else [])
    }

    /** The calls of the pool part. */
    function PoolsLog(): seq<Event>
      requires WellFormed()
    {
      (if output.Some? then output.value.Log() else []) +
      (if capture.Some? then capture.value.Log() else [])
    }

    /** The calls, in order. */
    function Log(): seq<Event>
      requires WellFormed()
    {
      ConfigureLog() + PoolsLog()
    }

    /** The code of the part before the pools: the allocator's, else the formats'. */
    function ConfigureRet(): int {
      if heapRet != 0 then heapRet else formatsRet
    }
  }

  /**
   * The allocator and format parts of cedrus_demo_setup, from `s0` to
   * `run.configured`: the allocator is selected; only if that succeeded are
   * the queues settled and the formats negotiated on the video node, asking
   * for OutputRequest and CaptureRequest and starting from the formats held
   * in `s0`.
   */
  ghost predicate Configured(allocator: int, s0: Snapshot, run: SetupRun) {
    var snap := run.configured;
    Selected(allocator, s0, run.selected, run.heap, run.heapRet) &&
    (run.heapRet != 0 ==> run.formats.None? && snap == run.selected) &&
    (run.heapRet == 0 ==>
       run.formats.Some? &&
       DemoDecoder.FormatsOutcome(snap.videoFd, OutputRequest(), CaptureRequest(),
                                  s0.output.format, s0.capture.format,
                                  run.formats.value, run.formatsRet, snap.output.format, snap.capture.format) &&
       snap == Formatted(Settled(run.selected, allocator), snap.output.format, snap.capture.format))
  }

  /** The part of cedrus_demo_setup before the pools. */
  method Configure(demo: CedrusDemo, allocator: int, k: Kernel) returns (ret: int, ghost run: SetupRun)
    requires demo.Valid()
    modifies demo, k
    ensures demo.Valid()
    ensures k.trace == old(k.trace) + run.ConfigureLog()
    ensures ret == run.ConfigureRet() && run.configured == demo.Snap() && Configured(allocator, old(demo.Snap()), run)
    ensures run.output.None? && run.capture.None? && run.WellFormed()
    ensures Views(demo.outputBuffers) == old(Views(demo.outputBuffers))
    ensures Views(demo.captureBuffers) == old(Views(demo.captureBuffers))
  {
    ghost var heap;
    ret, heap := SelectAllocator(demo, allocator, k);
    run := SetupRun(demo.Snap(), heap, ret, None, 0, demo.Snap(), None, 0, None);
    if ret != 0 {
      return;
    }
    Settle(demo, allocator);
    ghost var formats;
    ret, formats := NegotiateFormats(demo, k);
    TraceAppend(old(k.trace), heap, formats.Log());
    run := run.(formats := Some(formats), formatsRet := ret, configured := demo.Snap());
  }

  /**
   * The pool part of a setup that got past the formats, between snapshots
   * and pool views: the output pool, and only if it succeeded the capture
   * pool; each count becomes POOL_SIZE once its pool is set up.
   */
  ghost predicate PoolsOutcome(s: Supply, s0: Snapshot, snap: Snapshot, outputs0: seq<BufferView>, outputs: seq<BufferView>,
                               captures0: seq<BufferView>, captures: seq<BufferView>, run: SetupRun, ret: int)
  {
    run.output.Some? &&
    PoolOutcome(s, BUF_TYPE_VIDEO_OUTPUT, outputs0, outputs, run.output.value, run.outputRet) &&
    (run.outputRet != 0 ==>
       ret == run.outputRet && run.capture.None? && captures == captures0 && snap == s0) &&
    (run.outputRet == 0 ==>
       run.capture.Some? &&
       PoolOutcome(s, BUF_TYPE_VIDEO_CAPTURE, captures0, captures, run.capture.value, ret) &&
       snap == s0.(outputBuffersCount := POOL_SIZE,
                   captureBuffersCount := if ret == 0 then POOL_SIZE else s0.captureBuffersCount))
  }

  /** The pool part of cedrus_demo_setup, on the queues as Configure leaves them. */
  method Pools(demo: CedrusDemo, ghost run0: SetupRun, k: Kernel) returns (ret: int, ghost run: SetupRun)
    requires demo.Valid()
    requires demo.outputType == BUF_TYPE_VIDEO_OUTPUT && demo.captureType == BUF_TYPE_VIDEO_CAPTURE
    modifies demo.outputBuffers, demo.captureBuffers, demo`outputBuffersCount, demo`captureBuffersCount, k
    ensures demo.Valid() && run.WellFormed()
    ensures k.trace == old(k.trace) + run.PoolsLog()
    ensures run == run0.(output := run.output, outputRet := run.outputRet, capture := run.capture)
    ensures PoolsOutcome(SupplyOf(demo), old(demo.Snap()), demo.Snap(),
                         old(Views(demo.outputBuffers)), Views(demo.outputBuffers),
                         old(Views(demo.captureBuffers)), Views(demo.captureBuffers), run, ret)
  {
    ghost var output;
    ret, output := OutputPool(demo, k);
    run := run0.(output := Some(output), outputRet := ret, capture := None);
    if ret != 0 {
      return;
    }
    ghost var capture;
    ret, capture := CapturePool(demo, k);
    TraceAppend(old(k.trace), output.Log(), capture.Log());
    run := run.(capture := Some(capture));
  }

  /**
   * cedrus_demo_setup: select the allocator, settle the queues' settings,
   * negotiate the formats, then set up the output and the capture pool,
   * stopping at the first failure, whose code is returned.  Nothing set up
   * before a failure is undone.
   */
  method Setup(demo: CedrusDemo, allocator: int, k: Kernel) returns (ret: int, ghost run: SetupRun)
    requires demo.Valid()
    modifies demo, demo.outputBuffers, demo.captureBuffers, k
    ensures demo.Valid()
    ensures run.WellFormed() && k.trace == old(k.trace) + run.Log()
    ensures Configured(allocator, old(demo.Snap()), run)
    ensures run.ConfigureRet() != 0 ==>
              ret == run.ConfigureRet() && run.output.None? && run.capture.None? &&
              demo.Snap() == run.configured &&
              Views(demo.outputBuffers) == old(Views(demo.outputBuffers)) &&
              Views(demo.captureBuffers) == old(Views(demo.captureBuffers))
    ensures run.ConfigureRet() == 0 ==>
              PoolsOutcome(SupplyOf(demo), run.configured, demo.Snap(),
                           old(Views(demo.outputBuffers)), Views(demo.outputBuffers),
                           old(Views(demo.captureBuffers)), Views(demo.captureBuffers), run, ret)
  {
    ret, run := Configure(demo, allocator, k);
    if ret != 0 {
      return;
    }
    ghost var mid := run;
    ret, run := Pools(demo, run, k);
    TraceAppend(old(k.trace), mid.ConfigureLog(), run.PoolsLog());
  }

  /* ---- cedrus_demo_buffer_current / cedrus_demo_buffer_cycle ---- */

  /**
   * The buffer under the cursor of the queue of type `bufType`; the output
   * type is checked first.  None stands for -EINVAL, an unknown type.
   */
  function Current(demo: CedrusDemo, bufType: int): (b: Option<Buffer>)
    requires demo.Valid()
    reads demo, demo.outputBuffers, demo.captureBuffers
    ensures b.Some? <==> bufType == demo.outputType || bufType == demo.captureType
    ensures bufType == demo.outputType ==> b == Some(demo.outputBuffers[demo.outputBufferIndex])
    ensures bufType != demo.outputType && bufType == demo.captureType ==>
              b == Some(demo.captureBuffers[demo.captureBufferIndex])
    ensures b.Some? ==> b.value.Valid()
  {
    if bufType == demo.outputType then
      assert demo.outputBuffers[demo.outputBufferIndex] in demo.outputBuffers;
      Some(demo.outputBuffers[demo.outputBufferIndex])
    else if bufType == demo.captureType then
      assert demo.captureBuffers[demo.captureBufferIndex] in demo.captureBuffers;
      Some(demo.captureBuffers[demo.captureBufferIndex])
    else None
  }

  /**
   * Move the cursor of the queue of type `bufType` to the next buffer of its
   * pool, wrapping at the count; nothing else changes.  The count of the
   * selected queue must not be 0, as the code divides by it.
   */
  method Cycle(demo: CedrusDemo, bufType: int) returns (ret: int)
    requires demo.Valid()
    requires bufType == demo.outputType ==> demo.outputBuffersCount > 0
    requires bufType != demo.outputType && bufType == demo.captureType ==> demo.captureBuffersCount > 0
    modifies demo`outputBufferIndex, demo`captureBufferIndex
    ensures demo.Valid()
    ensures ret == 0 <==> bufType == demo.outputType || bufType == demo.captureType
    ensures ret != 0 ==> ret == -EINVAL
    ensures demo.Snap() == old(demo.Snap()).(
              outputBufferIndex :=
                if bufType == demo.outputType then Next(old(demo.outputBufferIndex), demo.outputBuffersCount)
                else old(demo.outputBufferIndex),
              captureBufferIndex :=
                if bufType != demo.outputType && bufType == demo.captureType
                then Next(old(demo.captureBufferIndex), demo.captureBuffersCount)
                else old(demo.captureBufferIndex))
  {
    if bufType == demo.outputType {
      demo.outputBufferIndex := (demo.outputBufferIndex + 1) % demo.outputBuffersCount;
    } else if bufType == demo.captureType {
      demo.captureBufferIndex := (demo.captureBufferIndex + 1) % demo.captureBuffersCount;
    } else {
      return -EINVAL;
    }
    ret := 0;
  }

  /* ---- cedrus_demo_buffer_access ---- */

  /** What an access leaves: the code, the two out-parameters and the buffer. */
  datatype Access = Access(ret: int, data: Region, size: nat, buffer: BufferView)

  /**
   * cedrus_demo_buffer_access on the buffer `v` under the cursor, `output`
   * telling whether it is the output queue's: a plane that is not used is
   * -EINVAL and changes nothing; otherwise the plane's mapping is handed
   * out, and an output image of `size` bytes is recorded as the plane's
   * bytes-used if the plane can hold it (else -EINVAL, nothing recorded),
   * while a capture access reports the plane's bytes-used as the size.
   */
  function AccessPlane(v: BufferView, output: bool, planeIndex: nat, data: Region, size: nat): (a: Access)
    requires v.Valid()
    ensures a.ret == 0 || a.ret == -EINVAL
    ensures planeIndex >= v.planesCount ==> a == Access(-EINVAL, data, size, v)
    ensures planeIndex < v.planesCount ==> a.data == v.data[planeIndex] && a.buffer.Valid()
    ensures planeIndex < v.planesCount && output ==>
              (a.ret == 0 <==> size <= v.planes[planeIndex].length) && a.size == size &&
              a.buffer == if a.ret == 0 then v.(planes := v.planes[planeIndex := v.planes[planeIndex].(bytesUsed := size)])
                          else v
    ensures planeIndex < v.planesCount && !output ==>
              a.ret == 0 && a.size == v.planes[planeIndex].bytesUsed && a.buffer == v
  {
    if planeIndex >= v.planesCount then Access(-EINVAL, data, size, v)
    else if output then
      if v.planes[planeIndex].length < size then Access(-EINVAL, v.data[planeIndex], size, v)
      else Access(0, v.data[planeIndex], size,
                  v.(planes := v.planes[planeIndex := v.planes[planeIndex].(bytesUsed := size)]))
    else Access(0, v.data[planeIndex], v.planes[planeIndex].bytesUsed, v)
  }

  /**
   * An image written into an output plane reads back with its size: the
   * bytes-used an output access records is what an access of the same plane
   * as a capture buffer reports, and the plane's mapping is the same.
   */
  lemma AccessRoundTrip(v: BufferView, planeIndex: nat, data: Region, size: nat, other: nat)
    requires v.Valid() && AccessPlane(v, true, planeIndex, data, size).ret == 0
    ensures var w := AccessPlane(v, true, planeIndex, data, size);
            var r := AccessPlane(w.buffer, false, planeIndex, data, other);
            r.ret == 0 && r.size == size && r.data == w.data && r.buffer == w.buffer
  {
    assert planeIndex < v.planesCount;
  }

  /**
   * cedrus_demo_buffer_access: the buffer under the cursor of `bufType`,
   * -EINVAL for an unknown type, then AccessPlane.  Only the output
   * queue's buffer can change.
   */
  method BufferAccess(demo: CedrusDemo, bufType: int, planeIndex: nat, data: Region, size: nat)
    returns (ret: int, dataOut: Region, sizeOut: nat)
    requires demo.Valid()
    modifies demo.outputBuffers[demo.outputBufferIndex]
    ensures demo.Valid()
    ensures Current(demo, bufType).None? ==>
              ret == -EINVAL && dataOut == data && sizeOut == size
    ensures Current(demo, bufType).Some? ==>
              var b := Current(demo, bufType).value;
              var v0 := old(b.View());
              v0.Valid() &&
              Access(ret, dataOut, sizeOut, b.View()) ==
                AccessPlane(v0, bufType == demo.outputType, planeIndex, data, size)
    ensures Current(demo, bufType).None? || bufType != demo.outputType ==>
              unchanged(demo.outputBuffers[demo.outputBufferIndex])
  {
    var current := Current(demo, bufType);
    if current.None? {
      return -EINVAL, data, size;
    }
    var b := current.value;
    var a := AccessPlane(b.View(), bufType == demo.outputType, planeIndex, data, size);
    if a.buffer != b.View() {
      b.planes := a.buffer.planes;
    }
    ret, dataOut, sizeOut := a.ret, a.data, a.size;
  }

  /* ---- cedrus_demo_buffer_sync ---- */

  /**
   * The direction of a CPU access to the buffers of `bufType`: WRITE for
   * the output queue, READ for the capture queue (output checked first).
   * None stands for -EINVAL, an unknown type.
   */
  function Direction(outputType: int, captureType: int, bufType: int): (flags: Option<SyncFlags>)
    ensures flags.Some? <==> bufType == outputType || bufType == captureType
    ensures flags == Some(DMA_BUF_SYNC_WRITE) <==> bufType == outputType
    ensures flags == Some(DMA_BUF_SYNC_READ) <==> bufType != outputType && bufType == captureType
  {
    if bufType == outputType then Some(DMA_BUF_SYNC_WRITE)
    else if bufType == captureType then Some(DMA_BUF_SYNC_READ)
    else None
  }

  /** `flags` with the direction bits `d` added. */
  function Directed(flags: SyncFlags, d: SyncFlags): SyncFlags
  {
    flags | d
  }

  /**
   * cedrus_demo_buffer_sync: nothing unless the allocator is the dma-heap
   * one; then -EINVAL for an unknown type, and otherwise every used plane
   * of the buffer under the cursor is synced with the access direction
   * added to `flags`, in order, returning the first failure.  Unlike
   * demo.c, there is no check of the handle.
   */
  method Sync(demo: CedrusDemo, bufType: int, flags: SyncFlags, k: Kernel) returns (ret: int, ghost log: seq<Event>)
    requires demo.Valid()
    modifies k
    ensures k.trace == old(k.trace) + log
    ensures demo.allocator != ALLOCATOR_DMA_HEAP ==> ret == 0 && log == []
    ensures demo.allocator == ALLOCATOR_DMA_HEAP ==>
              match SyncCalls(demo, bufType, flags)
              case None => ret == -EINVAL && log == []
              case Some(plan) =>
                FailFast(log, plan) && (ret == 0 <==> Completed(log, plan)) &&
                (ret != 0 ==> ret == log[|log| - 1].ret)
  {
    log := [];
    if demo.allocator != ALLOCATOR_DMA_HEAP {
      return 0, log;
    }
    var direction := Direction(demo.outputType, demo.captureType, bufType);
    if direction.None? {
      return -EINVAL, log;
    }
    var b := Current(demo, bufType).value;
    ret, log := SyncPlanes(b, Directed(flags, direction.value), k);
  }

  /**
   * The syncs cedrus_demo_buffer_sync issues for a dma-heap buffer: one per
   * used plane of the buffer under the cursor, with the direction of its
   * queue added to `flags`; None for an unknown type.
   */
  ghost function SyncCalls(demo: CedrusDemo, bufType: int, flags: SyncFlags): (plan: Option<seq<Op>>)
    requires demo.Valid()
    reads demo, demo.outputBuffers, demo.captureBuffers
    ensures plan.Some? <==> Current(demo, bufType).Some?
    ensures plan.Some? ==> |plan.value| == Current(demo, bufType).value.planesCount
  {
    match Direction(demo.outputType, demo.captureType, bufType)
    case None => None
    case Some(d) =>
      var b := Current(demo, bufType).value;
      Some(DemoBuffer.SyncPlan(b.dmaBufFd, b.planesCount, Directed(flags, d)))
  }

  /** The plane loop of cedrus_demo_buffer_sync. */
  method SyncPlanes(b: Buffer, flags: SyncFlags, k: Kernel) returns (ret: int, ghost log: seq<Event>)
    requires b.Valid()
    modifies k
    ensures k.trace == old(k.trace) + log
    ensures var plan := DemoBuffer.SyncPlan(b.dmaBufFd, b.planesCount, flags);
            FailFast(log, plan) && (ret == 0 <==> Completed(log, plan)) &&
            (ret != 0 ==> ret == log[|log| - 1].ret)
  {
    log := [];
    var i := 0;
    while i < b.planesCount
      invariant i <= b.planesCount && i == |log|
      invariant k.trace == old(k.trace) + log
      invariant DemoBuffer.SyncedSoFar(log, b.dmaBufFd, flags)
    {
      var e := Event(Op.Sync(b.dmaBufFd[i], flags), 0, NoOut);
      var r := k.Call(e.op);
      TraceAppend(old(k.trace), log, [e.(ret := r)]);
      if r != 0 {
        DemoBuffer.SyncStopped(b.dmaBufFd, b.planesCount, flags, log, r);
        return r, log + [e.(ret := r)];
      }
      log := log + [e];
      i := i + 1;
    }
    DemoBuffer.SyncDone(b.dmaBufFd, b.planesCount, flags, log);
    return 0, log;
  }

  /** cedrus_demo_buffer_sync_begin */
  method SyncBegin(demo: CedrusDemo, bufType: int, k: Kernel) returns (ret: int, ghost log: seq<Event>)
    requires demo.Valid()
    modifies k
    ensures k.trace == old(k.trace) + log
    ensures demo.allocator != ALLOCATOR_DMA_HEAP ==> ret == 0 && log == []
    ensures demo.allocator == ALLOCATOR_DMA_HEAP ==>
              match SyncCalls(demo, bufType, DMA_BUF_SYNC_START)
              case None => ret == -EINVAL && log == []
              case Some(plan) =>
                FailFast(log, plan) && (ret == 0 <==> Completed(log, plan)) &&
                (ret != 0 ==> ret == log[|log| - 1].ret)
  {
    ret, log := Sync(demo, bufType, DMA_BUF_SYNC_START, k);
  }

  /** cedrus_demo_buffer_sync_finish */
  method SyncFinish(demo: CedrusDemo, bufType: int, k: Kernel) returns (ret: int, ghost log: seq<Event>)
    requires demo.Valid()
    modifies k
    ensures k.trace == old(k.trace) + log
    ensures demo.allocator != ALLOCATOR_DMA_HEAP ==> ret == 0 && log == []
    ensures demo.allocator == ALLOCATOR_DMA_HEAP ==>
              match SyncCalls(demo, bufType, DMA_BUF_SYNC_END)
              case None => ret == -EINVAL && log == []
              case Some(plan) =>
                FailFast(log, plan) && (ret == 0 <==> Completed(log, plan)) &&
                (ret != 0 ==> ret == log[|log| - 1].ret)
  {
    ret, log := Sync(demo, bufType, DMA_BUF_SYNC_END, k);
  }

  /**
   * The flags of a begin sync are the direction alone (START is 0), those
   * of a finish the direction and END, and the two directions are distinct
   * bits: a begin and a finish of the same queue differ only in END.
   */
  lemma SyncFlagsDirected(outputType: int, captureType: int, bufType: int)
    requires Direction(outputType, captureType, bufType).Some?
    ensures var d := Direction(outputType, captureType, bufType).value;
            Directed(DMA_BUF_SYNC_START, d) == d &&
            Directed(DMA_BUF_SYNC_END, d) & DMA_BUF_SYNC_END == DMA_BUF_SYNC_END &&
            Directed(DMA_BUF_SYNC_END, d) & 3 == d &&
            (d == DMA_BUF_SYNC_WRITE <==> d & DMA_BUF_SYNC_READ == 0)
  {
  }

  /* ---- cedrus_demo_cleanup ---- */

  /** The calls that clean the first `count` buffers of a pool up, in order. */
  function PoolReleases(views: seq<BufferView>, count: nat, heap: bool): seq<Event>
    requires count <= |views| && ViewsValid(views)
  {
    if count == 0 then [] else PoolReleases(views, count - 1, heap) + ReleaseEvents(views[count - 1], heap)
  }

  /** `after` is the pool `before` with its first `count` buffers cleaned up and the others as they were. */
  ghost predicate PoolReleased(before: seq<BufferView>, after: seq<BufferView>, count: nat, heap: bool) {
    |before| == |after| == POOL_SIZE && ViewsValid(before) &&
    forall j | 0 <= j < POOL_SIZE :: after[j] == if j < count then Released(before[j], heap) else before[j]
  }

  /** One round of the cleanup loop: buffer `i` goes from its old state to Released. */
  method CleanupPoolBuffer(pool: seq<Buffer>, i: nat, heap: bool, ghost before: seq<BufferView>, k: Kernel)
    requires PoolValid(pool) && i < POOL_SIZE && |before| == POOL_SIZE && ViewsValid(before)
    requires forall j | 0 <= j < POOL_SIZE :: pool[j].View() == if j < i then Released(before[j], heap) else before[j]
    modifies pool[i], k
    ensures PoolValid(pool)
    ensures forall j | 0 <= j < POOL_SIZE :: pool[j].View() == if j < i + 1 then Released(before[j], heap) else before[j]
    ensures k.trace == old(k.trace) + ReleaseEvents(before[i], heap)
  {
    assert pool[i] in pool;
    BufferCleanup(pool[i], heap, k);
    forall j | 0 <= j < POOL_SIZE && j != i
      ensures pool[j].View() == old(pool[j].View())
    {
      assert pool[j] != pool[i];
    }
  }

  /**
   * One pool of cedrus_demo_cleanup: clean its first `count` buffers up,
   * then destroy the queue's buffers whatever the count.  `other`, the other
   * pool, is left as it was.
   */
  method CleanupPool(pool: seq<Buffer>, ghost other: seq<Buffer>, count: nat, heap: bool,
                     videoFd: int, bufType: int, memory: int, k: Kernel)
    requires PoolValid(pool) && PoolValid(other) && Disjoint(pool, other) && count <= POOL_SIZE
    modifies pool, k
    ensures PoolValid(pool) && PoolValid(other) && Views(other) == old(Views(other))
    ensures PoolReleased(old(Views(pool)), Views(pool), count, heap)
    ensures k.trace == old(k.trace) + PoolReleases(old(Views(pool)), count, heap) +
                       [Event(BuffersDestroy(videoFd, bufType, memory), 0, NoOut)]
  {
    ghost var before := Views(pool);
    PoolViewsValid(pool);
    for i := 0 to count
      invariant PoolValid(pool)
      invariant forall j | 0 <= j < POOL_SIZE :: pool[j].View() == if j < i then Released(before[j], heap) else before[j]
      invariant k.trace == old(k.trace) + PoolReleases(before, i, heap)
    {
      CleanupPoolBuffer(pool, i, heap, before, k);
      TraceAppend(old(k.trace), PoolReleases(before, i, heap), ReleaseEvents(before[i], heap));
    }
    k.Void(BuffersDestroy(videoFd, bufType, memory));
    forall j | 0 <= j < |other|
      ensures other[j].View() == old(other[j].View())
    {
      assert other[j] in other;
    }
  }

  /**
   * The calls of cedrus_demo_cleanup on the context `s` with pools
   * `outputs` and `captures`: the output pool's cleanup and destroy, the
   * capture pool's, then, under the dma-heap allocator, the close of the
   * heap.
   */
  function CleanupEvents(s: Snapshot, outputs: seq<BufferView>, captures: seq<BufferView>): seq<Event>
    requires |outputs| == |captures| == POOL_SIZE && ViewsValid(outputs) && ViewsValid(captures)
    requires s.outputBuffersCount <= POOL_SIZE && s.captureBuffersCount <= POOL_SIZE
  {
    var heap := s.allocator == ALLOCATOR_DMA_HEAP;
    ((PoolReleases(outputs, s.outputBuffersCount, heap) + [Event(BuffersDestroy(s.videoFd, s.output.bufType, s.memory), 0, NoOut)]) +
     (PoolReleases(captures, s.captureBuffersCount, heap) + [Event(BuffersDestroy(s.videoFd, s.capture.bufType, s.memory), 0, NoOut)])) +
    (if heap then [Event(Close(s.dmaHeapFd), 0, NoOut)] else [])
  }

  /**
   * cedrus_demo_cleanup: the first count buffers of each pool are cleaned
   * up, the handles cleared under the dma-heap allocator; no field of the
   * context changes.
   */
  method Cleanup(demo: CedrusDemo, k: Kernel)
    requires demo.Valid()
    modifies demo.outputBuffers, demo.captureBuffers, k
    ensures demo.Valid()
    ensures PoolReleased(old(Views(demo.outputBuffers)), Views(demo.outputBuffers), demo.outputBuffersCount,
                         demo.allocator == ALLOCATOR_DMA_HEAP)
    ensures PoolReleased(old(Views(demo.captureBuffers)), Views(demo.captureBuffers), demo.captureBuffersCount,
                         demo.allocator == ALLOCATOR_DMA_HEAP)
    ensures k.trace == old(k.trace) + CleanupEvents(demo.Snap(), old(Views(demo.outputBuffers)), old(Views(demo.captureBuffers)))
  {
    var heap := demo.allocator == ALLOCATOR_DMA_HEAP;
    ghost var s0 := demo.Snap();
    PoolViewsValid(demo.outputBuffers);
    PoolViewsValid(demo.captureBuffers);
    CleanupPools(demo.outputBuffers, demo.captureBuffers, demo.outputBuffersCount, demo.captureBuffersCount, heap,
                 demo.videoFd, demo.outputType, demo.captureType, demo.memory, k);
    assert demo.Snap() == s0 && demo.PoolsValid();
    ghost var pools := k.trace;
    ghost var last: seq<Event> := [];
    if heap {
      k.Void(Close(demo.dmaHeapFd));
      last := [Event(Close(demo.dmaHeapFd), 0, NoOut)];
    }
    assert k.trace == pools + last;
    TraceAppend(old(k.trace), pools[|old(k.trace)|..], last);
  }

  /** The two pool parts of cedrus_demo_cleanup: the output pool, then the capture pool. */
  method CleanupPools(outputs: seq<Buffer>, captures: seq<Buffer>, outputCount: nat, captureCount: nat, heap: bool,
                      videoFd: int, outputType: int, captureType: int, memory: int, k: Kernel)
    requires PoolValid(outputs) && PoolValid(captures) && Disjoint(outputs, captures)
    requires outputCount <= POOL_SIZE && captureCount <= POOL_SIZE
    modifies outputs, captures, k
    ensures PoolValid(outputs) && PoolValid(captures)
    ensures PoolReleased(old(Views(outputs)), Views(outputs), outputCount, heap)
    ensures PoolReleased(old(Views(captures)), Views(captures), captureCount, heap)
    ensures k.trace == old(k.trace) +
                       ((PoolReleases(old(Views(outputs)), outputCount, heap) + [Event(BuffersDestroy(videoFd, outputType, memory), 0, NoOut)]) +
                        (PoolReleases(old(Views(captures)), captureCount, heap) + [Event(BuffersDestroy(videoFd, captureType, memory), 0, NoOut)]))
  {
    ghost var outputs0, captures0 := Views(outputs), Views(captures);
    CleanupPool(outputs, captures, outputCount, heap, videoFd, outputType, memory, k);
    ghost var first := PoolReleases(outputs0, outputCount, heap) + [Event(BuffersDestroy(videoFd, outputType, memory), 0, NoOut)];
    ghost var outputs1 := Views(outputs);
    DisjointSwap(outputs, captures);
    CleanupPool(captures, outputs, captureCount, heap, videoFd, captureType, memory, k);
    assert Views(outputs) == outputs1;
    ghost var second := PoolReleases(captures0, captureCount, heap) + [Event(BuffersDestroy(videoFd, captureType, memory), 0, NoOut)];
    TraceAppend(old(k.trace), first, second);
  }

  /** The cleanups of the first `count` buffers are all among the cleanup calls of the pool. */
  lemma {:induction false} PoolReleasesHas(views: seq<BufferView>, count: nat, heap: bool, j: nat)
    requires count <= |views| && ViewsValid(views) && j < count
    ensures forall e | e in ReleaseEvents(views[j], heap) :: e in PoolReleases(views, count, heap)
  {
    if j < count - 1 {
      PoolReleasesHas(views, count - 1, heap, j);
    }
  }

  /** `log` ended by mapping a region, and `events` unmaps it with the length it was mapped with. */
  ghost predicate UnmapsMapping(log: seq<Event>, events: seq<Event>) {
    |log| > 0 && log[|log| - 1].op.Mmap? && log[|log| - 1].out.Mapping? &&
    Event(Munmap(Region(log[|log| - 1].out.token), log[|log| - 1].op.length), 0, NoOut) in events
  }

  /**
   * The cleanup of a pool that cedrus_demo_setup set up undoes it: the
   * mapping of every buffer's plane is unmapped, and under the dma-heap
   * allocator every handle the heap handed out is closed.
   */
  lemma PoolCleanupUndoesSetup(s: Supply, bufType: int, views0: seq<BufferView>, views: seq<BufferView>,
                               run: DemoBuffer.PoolRun)
    requires PoolOutcome(s, bufType, views0, views, run, 0) && PlaneStrategy(s).Some?
    ensures ViewsValid(views) && |views| == |run.planeLogs| == POOL_SIZE
    ensures forall j | 0 <= j < POOL_SIZE ::
              |run.planeLogs[j]| == PLANES_COUNT &&
              UnmapsMapping(run.planeLogs[j][0], PoolReleases(views, POOL_SIZE, s.allocator == ALLOCATOR_DMA_HEAP))
    ensures s.allocator == ALLOCATOR_DMA_HEAP ==>
              forall j | 0 <= j < POOL_SIZE ::
                run.planeLogs[j][0][0].op.HeapAlloc? &&
                Event(Close(run.planeLogs[j][0][0].ret), 0, NoOut) in PoolReleases(views, POOL_SIZE, true)
  {
    PoolReady(s, bufType, views0, views, run);
    var heap := s.allocator == ALLOCATOR_DMA_HEAP;
    forall j | 0 <= j < POOL_SIZE
      ensures |run.planeLogs[j]| == PLANES_COUNT &&
              UnmapsMapping(run.planeLogs[j][0], PoolReleases(views, POOL_SIZE, heap))
      ensures heap ==> run.planeLogs[j][0][0].op.HeapAlloc? &&
                       Event(Close(run.planeLogs[j][0][0].ret), 0, NoOut) in PoolReleases(views, POOL_SIZE, true)
    {
      ReleaseUndoesSetup(s, views[j], bufType, j, PLANES_COUNT, run.queries[j], run.planeLogs[j]);
      PoolReleasesHas(views, POOL_SIZE, heap, j);
    }
  }

  /* ---- cedrus_demo_run ---- */

  /**
   * The calls of a run, in order: queue the capture and then the output
   * buffer under the cursors, then StreamPlan on the context's memory (its
   * 300 ms poll timeout is the one of demo_decoder_run).
   */
  ghost function RunPlan(demo: CedrusDemo): seq<Op>
    requires demo.Valid()
    reads demo, demo.outputBuffers, demo.captureBuffers
  {
    var capture := Current(demo, demo.captureType).value;
    var output := Current(demo, demo.outputType).value;
    [Queue(demo.videoFd, capture.bufType, capture.index), Queue(demo.videoFd, output.bufType, output.index)] +
    DemoDecoder.StreamPlan(demo.videoFd, demo.captureType, demo.memory, demo.outputType, demo.memory)
  }

  /**
   * cedrus_demo_run as corrected: the calls of RunPlan, failing fast, a
   * poll that does not report the device ready being -ETIMEDOUT (a timeout)
   * or its error, as in demo_decoder_run.  The lookups of the two buffers
   * cannot fail, as each asks for a type of the context.  A dequeued index
   * that is not the cursor's is only worth a warning.
   */
  method Run(demo: CedrusDemo, k: Kernel) returns (ret: int, ghost log: seq<Event>)
    requires demo.Valid()
    modifies k
    ensures k.trace == old(k.trace) + log
    ensures Ran(log, RunPlan(demo), ret)
  {
    var capture := Current(demo, demo.captureType).value;
    var output := Current(demo, demo.outputType).value;
    var fd := demo.videoFd;
    ghost var queue := [Queue(fd, capture.bufType, capture.index), Queue(fd, output.bufType, output.index)];
    ghost var rest := DemoDecoder.StreamPlan(fd, demo.captureType, demo.memory, demo.outputType, demo.memory);
    ret, log := CallPair(Queue(fd, capture.bufType, capture.index), Queue(fd, output.bufType, output.index), k);
    if ret != 0 {
      RanStopped(log, queue, rest, ret);
      return;
    }
    ghost var part;
    ret, part := DemoDecoder.Stream(fd, demo.captureType, demo.memory, demo.outputType, demo.memory, k);
    RanSequence(log, queue, part, rest, ret);
    TraceAppend(old(k.trace), log, part);
    log := log + part;
  }

  /**
   * A run stops with code 0 exactly when every call of its plan was issued
   * and succeeded, the poll included; otherwise it returns the code of the
   * call that stopped it.
   */
  lemma RunReportsCompletion(demo: CedrusDemo, log: seq<Event>, ret: int)
    requires demo.Valid() && Ran(log, RunPlan(demo), ret)
    ensures ret == 0 <==> Completed(log, RunPlan(demo))
    ensures ret != 0 ==> |log| > 0 && !Succeeded(log[|log| - 1]) && ret == Failure(log[|log| - 1])
  {
    RanFailFast(log, RunPlan(demo), ret);
  }

  /**
   * The code cedrus_demo_run returns, as written, for a run `log` that a
   * fail-fast run reports as `code`: a poll that stopped the run hands back
   * its own answer, so a timeout is 0.
   */
  function Reported(log: seq<Event>, code: int): int {
    if code != 0 && |log| > 0 && log[|log| - 1].op.Poll? then log[|log| - 1].ret else code
  }

  /** A run that stops at a call other than a poll reports that call's code. */
  lemma {:induction false} ReportedWithoutPoll(log: seq<Event>, plan: seq<Op>, code: int)
    requires Ran(log, plan, code) && forall i | 0 <= i < |plan| :: !plan[i].Poll?
    ensures Reported(log, code) == code
  {
    RanFailFast(log, plan, code);
  }

  /** What a run reports is decided by its last steps. */
  lemma ReportedAfter(a: seq<Event>, b: seq<Event>, plan: seq<Op>, code: int)
    requires Ran(b, plan, code)
    ensures Reported(a + b, code) == Reported(b, code)
  {
    if code != 0 {
      RanFailFast(b, plan, code);
      assert (a + b)[|a + b| - 1] == b[|b| - 1];
    }
  }

  /** cedrus_demo_run as written: the calls of RunPlan, failing fast, with the code of Reported. */
  method RunAsWritten(demo: CedrusDemo, k: Kernel) returns (ret: int, ghost log: seq<Event>, ghost code: int)
    requires demo.Valid()
    modifies k
    ensures k.trace == old(k.trace) + log
    ensures Ran(log, RunPlan(demo), code)
    ensures ret == Reported(log, code)
  {
    var capture := Current(demo, demo.captureType).value;
    var output := Current(demo, demo.outputType).value;
    var fd := demo.videoFd;
    ghost var queue := [Queue(fd, capture.bufType, capture.index), Queue(fd, output.bufType, output.index)];
    ghost var rest := DemoDecoder.StreamPlan(fd, demo.captureType, demo.memory, demo.outputType, demo.memory);
    ret, log := CallPair(Queue(fd, capture.bufType, capture.index), Queue(fd, output.bufType, output.index), k);
    code := ret;
    if ret != 0 {
      RanStopped(log, queue, rest, ret);
      ReportedWithoutPoll(log, queue, ret);
      return;
    }
    ghost var part;
    ret, part, code := StreamAsWritten(fd, demo.captureType, demo.memory, demo.outputType, demo.memory, k);
    RanSequence(log, queue, part, rest, code);
    ReportedAfter(log, part, rest, code);
    TraceAppend(old(k.trace), log, part);
    log := log + part;
  }

  /** The calls of a run as written once the buffers are queued. */
  method StreamAsWritten(fd: int, captureType: int, captureMemory: int, outputType: int, outputMemory: int, k: Kernel)
    returns (ret: int, ghost log: seq<Event>, ghost code: int)
    modifies k
    ensures k.trace == old(k.trace) + log
    ensures Ran(log, DemoDecoder.StreamPlan(fd, captureType, captureMemory, outputType, outputMemory), code)
    ensures ret == Reported(log, code)
  {
    ghost var on := [StreamOn(fd, captureType), StreamOn(fd, outputType)];
    ghost var rest := DemoDecoder.DrainPlan(fd, captureType, captureMemory, outputType, outputMemory);
    ret, log := CallPair(StreamOn(fd, captureType), StreamOn(fd, outputType), k);
    code := ret;
    if ret != 0 {
      RanStopped(log, on, rest, ret);
      ReportedWithoutPoll(log, on, ret);
      return;
    }
    ghost var part;
    ret, part, code := DrainAsWritten(fd, captureType, captureMemory, outputType, outputMemory, k);
    RanSequence(log, on, part, rest, code);
    ReportedAfter(log, part, rest, code);
    TraceAppend(old(k.trace), log, part);
    log := log + part;
  }

  /** The calls of a run as written once the streams are on: the poll's answer is returned if it is not positive. */
  method DrainAsWritten(fd: int, captureType: int, captureMemory: int, outputType: int, outputMemory: int, k: Kernel)
    returns (ret: int, ghost log: seq<Event>, ghost code: int)
    modifies k
    ensures k.trace == old(k.trace) + log
    ensures Ran(log, DemoDecoder.DrainPlan(fd, captureType, captureMemory, outputType, outputMemory), code)
    ensures ret == Reported(log, code)
  {
    ghost var wait := [Poll(fd, DemoDecoder.DECODE_TIMEOUT_US)];
    ghost var rest := DemoDecoder.CollectPlan(fd, captureType, captureMemory, outputType, outputMemory);
    ret := k.Call(Poll(fd, DemoDecoder.DECODE_TIMEOUT_US));
    log := [Event(Poll(fd, DemoDecoder.DECODE_TIMEOUT_US), ret, NoOut)];
    if ret <= 0 {
      code := PollFailure(ret);
      assert log[0].ret == ret;
      RanStopped(log, wait, rest, code);
      return;
    }
    assert Ran(log, wait, 0) by {
      assert log[1..] == [] && wait[1..] == [];
    }
    ghost var part;
    ret, part := DemoDecoder.Collect(fd, captureType, captureMemory, outputType, outputMemory, k);
    code := ret;
    RanSequence(log, wait, part, rest, code);
    ReportedWithoutPoll(part, rest, code);
    ReportedAfter(log, part, rest, code);
    TraceAppend(old(k.trace), log, part);
    log := log + part;
  }

  /** The kernel's answers to a run whose every call succeeds but whose poll times out. */
  function TimeoutLog(plan: seq<Op>): seq<Event>
    requires |plan| >= 5
  {
    [Event(plan[0], 0, NoOut), Event(plan[1], 0, NoOut), Event(plan[2], 0, NoOut), Event(plan[3], 0, NoOut),
     Event(plan[4], 0, NoOut)]
  }

  /**
   * As written, a run whose decode does not finish within the timeout
   * reports success: both buffers are queued and both streams started, the
   * poll answers 0, nothing is dequeued, and the code is 0, where the
   * corrected run returns -ETIMEDOUT.
   */
  lemma TimeoutReportedAsSuccess(demo: CedrusDemo)
    requires demo.Valid()
    ensures |RunPlan(demo)| >= 5
    ensures var plan := RunPlan(demo);
            var log := TimeoutLog(plan);
            Ran(log, plan, -ETIMEDOUT) && Reported(log, -ETIMEDOUT) == 0 && !Completed(log, plan)
  {
    var plan := RunPlan(demo);
    var log := TimeoutLog(plan);
    assert plan[4] == Poll(demo.videoFd, DemoDecoder.DECODE_TIMEOUT_US);
    assert Ran(log[4..], plan[4..], -ETIMEDOUT);
    assert Ran(log[3..], plan[3..], -ETIMEDOUT) by {
      assert log[3..][1..] == log[4..] && plan[3..][1..] == plan[4..];
    }
    assert Ran(log[2..], plan[2..], -ETIMEDOUT) by {
      assert log[2..][1..] == log[3..] && plan[2..][1..] == plan[3..];
    }
    assert Ran(log[1..], plan[1..], -ETIMEDOUT) by {
      assert log[1..][1..] == log[2..] && plan[1..][1..] == plan[2..];
    }
  }
}
