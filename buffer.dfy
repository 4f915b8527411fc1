/**
 * The buffer operations of demo.c: the cache-sync direction rules, the
 * three ways a buffer's planes are given memory (kernel mmap, a dma-heap
 * allocation, or an import from the camera buffer of the same index), and
 * the teardown that unmaps every plane and closes the handles the buffer
 * owns.
 *
 * A share handle of -1 in `dmaBufFd[i]` means the buffer owns no handle for
 * plane i.  Each per-plane loop leaves one ghost log per plane it reached,
 * so that the trace the kernel saw is `Concat(logs)`.
 */
module DemoBuffer {
  import opened Kernel
  import opened State

  /** demo_buffer_sync_flags: the direction of a CPU access, by the base type. */
  function SyncDirection(bufType: int): (flags: SyncFlags)
    ensures flags == DMA_BUF_SYNC_WRITE <==>
              bufType in {BUF_TYPE_VIDEO_OUTPUT, BUF_TYPE_VIDEO_OUTPUT_MPLANE}
    ensures flags == DMA_BUF_SYNC_READ <==>
              bufType in {BUF_TYPE_VIDEO_CAPTURE, BUF_TYPE_VIDEO_CAPTURE_MPLANE}
    ensures flags == 0 <==>
              bufType !in {BUF_TYPE_VIDEO_CAPTURE, BUF_TYPE_VIDEO_OUTPUT,
                           BUF_TYPE_VIDEO_CAPTURE_MPLANE, BUF_TYPE_VIDEO_OUTPUT_MPLANE}
  {
    var base := TypeBase(bufType);
    if base == BUF_TYPE_VIDEO_OUTPUT then DMA_BUF_SYNC_WRITE
    else if base == BUF_TYPE_VIDEO_CAPTURE then DMA_BUF_SYNC_READ
    else 0
  }

  /** The calls demo_buffer_sync makes when every plane syncs. */
  function SyncPlan(fds: seq<int>, count: nat, flags: SyncFlags): seq<Op>
    requires count <= |fds|
  {
    seq(count, i requires 0 <= i < count => Op.Sync(fds[i], flags))
  }

  /** The first calls of a sync, all successful. */
  ghost predicate SyncedSoFar(log: seq<Event>, fds: seq<int>, flags: SyncFlags)
  {
    |log| <= |fds| && forall j | 0 <= j < |log| :: log[j] == Event(Op.Sync(fds[j], flags), 0, NoOut)
  }

  /** A sync that failed on the plane after the synced ones stopped early. */
  lemma SyncStopped(fds: seq<int>, count: nat, flags: SyncFlags, log: seq<Event>, r: int)
    requires count <= |fds| && |log| < count && SyncedSoFar(log, fds, flags) && r != 0
    ensures var t := log + [Event(Op.Sync(fds[|log|], flags), r, NoOut)];
            FailFast(t, SyncPlan(fds, count, flags)) && !Completed(t, SyncPlan(fds, count, flags)) &&
            t[|t| - 1].ret == r
  {
    var t := log + [Event(Op.Sync(fds[|log|], flags), r, NoOut)];
    assert !Succeeded(t[|t| - 1]);
  }

  /** A sync that reached every plane completed its plan. */
  lemma SyncDone(fds: seq<int>, count: nat, flags: SyncFlags, log: seq<Event>)
    requires count <= |fds| && |log| == count && SyncedSoFar(log, fds, flags)
    ensures FailFast(log, SyncPlan(fds, count, flags)) && Completed(log, SyncPlan(fds, count, flags))
  {
  }

  /**
   * demo_buffer_sync: nothing when plane 0 has no share handle; otherwise
   * every used plane in order, returning the first failure.
   */
  method Sync(b: Buffer, flags: SyncFlags, k: Kernel) returns (ret: int, ghost log: seq<Event>)
    requires b.Valid()
    modifies k
    ensures k.trace == old(k.trace) + log
    ensures b.dmaBufFd[0] < 0 ==> ret == 0 && log == []
    ensures b.dmaBufFd[0] >= 0 ==>
              var plan := SyncPlan(b.dmaBufFd, b.planesCount, flags);
              FailFast(log, plan) &&
              (ret == 0 <==> Completed(log, plan)) &&
              (ret != 0 ==> ret == log[|log| - 1].ret)
  {
    log := [];
    if b.dmaBufFd[0] < 0 {
      return 0, log;
    }
    var i := 0;
    while i < b.planesCount
      invariant i <= b.planesCount && i == |log|
      invariant k.trace == old(k.trace) + log
      invariant SyncedSoFar(log, b.dmaBufFd, flags)
    {
      var e := Event(Op.Sync(b.dmaBufFd[i], flags), 0, NoOut);
      var r := k.Call(e.op);
      TraceAppend(old(k.trace), log, [e.(ret := r)]);
      if r != 0 {
        SyncStopped(b.dmaBufFd, b.planesCount, flags, log, r);
        return r, log + [e.(ret := r)];
      }
      log := log + [e];
      i := i + 1;
    }
    SyncDone(b.dmaBufFd, b.planesCount, flags, log);
    return 0, log;
  }

  /** demo_buffer_sync_begin: the buffer's direction with START. */
  method SyncBegin(b: Buffer, k: Kernel) returns (ret: int, ghost log: seq<Event>)
    requires b.Valid()
    modifies k
    ensures k.trace == old(k.trace) + log
    ensures b.dmaBufFd[0] < 0 ==> ret == 0 && log == []
    ensures b.dmaBufFd[0] >= 0 ==>
              var plan := SyncPlan(b.dmaBufFd, b.planesCount, SyncDirection(b.bufType) | DMA_BUF_SYNC_START);
              FailFast(log, plan) && (ret == 0 <==> Completed(log, plan)) &&
              (ret != 0 ==> ret == log[|log| - 1].ret)
  {
    ret, log := Sync(b, SyncDirection(b.bufType) | DMA_BUF_SYNC_START, k);
  }

  /** demo_buffer_sync_finish: the buffer's direction with END. */
  method SyncFinish(b: Buffer, k: Kernel) returns (ret: int, ghost log: seq<Event>)
    requires b.Valid()
    modifies k
    ensures k.trace == old(k.trace) + log
    ensures b.dmaBufFd[0] < 0 ==> ret == 0 && log == []
    ensures b.dmaBufFd[0] >= 0 ==>
              var plan := SyncPlan(b.dmaBufFd, b.planesCount, SyncDirection(b.bufType) | DMA_BUF_SYNC_END);
              FailFast(log, plan) && (ret == 0 <==> Completed(log, plan)) &&
              (ret != 0 ==> ret == log[|log| - 1].ret)
  {
    ret, log := Sync(b, SyncDirection(b.bufType) | DMA_BUF_SYNC_END, k);
  }

  /** Begin and finish keep the direction bits and differ only in the END bit. */
  lemma SyncBeginFinishFlags(bufType: int)
    ensures (SyncDirection(bufType) | DMA_BUF_SYNC_START) == SyncDirection(bufType)
    ensures (SyncDirection(bufType) | DMA_BUF_SYNC_END) & DMA_BUF_SYNC_END == DMA_BUF_SYNC_END
    ensures (SyncDirection(bufType) | DMA_BUF_SYNC_END) & 3 == SyncDirection(bufType)
  {
  }

  /** The most planes a buffer of this type may have. */
  function PlaneLimit(bufType: int): nat {
    if TypeIsMplane(bufType) then MAX_PLANES else 1
  }

  /** What VIDIOC_QUERYBUF reported for the first `count` planes. */
  function PlaneInfos(planes: seq<Plane>, count: nat): seq<PlaneInfo>
    requires count <= |planes|
  {
    seq(count, i requires 0 <= i < count => PlaneInfo(planes[i].length, planes[i].offset))
  }

  /**
   * The buffer once demo_buffer_setup_base has set its header, marked the
   * used planes as owning no share handle, and the query has answered
   * `infos` for them.
   */
  function Based(v0: BufferView, bufType: int, memory: int, index: nat, count: nat, infos: seq<PlaneInfo>): (v: BufferView)
    requires v0.Valid() && count <= MAX_PLANES && |infos| == count
    ensures v.Valid() && v.planesCount == count && v.data == v0.data
    ensures v.bufType == bufType && v.memory == memory && v.index == index
    ensures forall j | 0 <= j < count ::
              v.dmaBufFd[j] == -1 && v.planes[j].length == infos[j].length && v.planes[j].offset == infos[j].offset
    ensures forall j | count <= j < MAX_PLANES :: v.dmaBufFd[j] == v0.dmaBufFd[j] && v.planes[j] == v0.planes[j]
  {
    v0.(bufType := bufType, memory := memory, index := index, planesCount := count,
        planes := seq(MAX_PLANES, j requires 0 <= j < MAX_PLANES =>
                        if j < count then v0.planes[j].(length := infos[j].length, offset := infos[j].offset)
                        else v0.planes[j]),
        dmaBufFd := seq(MAX_PLANES, j requires 0 <= j < MAX_PLANES => if j < count then -1 else v0.dmaBufFd[j]))
  }

  /**
   * demo_buffer_setup_base: check the plane count, mark every used plane as
   * owning no share handle, and query the planes' lengths and offsets.
   */
  method SetupBase(b: Buffer, videoFd: int, memory: int, bufType: int, index: nat,
                   planesCount: nat, k: Kernel) returns (ret: int)
    requires b.Valid()
    modifies b, k
    ensures b.Valid()
    ensures planesCount > PlaneLimit(bufType) ==>
              ret == -EINVAL && unchanged(b) && k.trace == old(k.trace)
    ensures planesCount <= PlaneLimit(bufType) ==>
              b.planesCount == planesCount && b.bufType == bufType && b.memory == memory &&
              b.index == index && b.data == old(b.data) &&
              (forall i | 0 <= i < MAX_PLANES ::
                 b.dmaBufFd[i] == (if i < planesCount then -1 else old(b.dmaBufFd[i]))) &&
              (forall i | 0 <= i < MAX_PLANES ::
                 b.planes[i].bytesUsed == old(b.planes[i].bytesUsed) &&
                 b.planes[i].fd == old(b.planes[i].fd) &&
                 (i >= planesCount ==> b.planes[i] == old(b.planes[i]))) &&
              k.trace == old(k.trace) +
                [Event(Op.BufferQuery(videoFd, bufType, memory, index, planesCount), ret,
                       Planes(PlaneInfos(b.planes, planesCount)))] &&
              b.View() == Based(old(b.View()), bufType, memory, index, planesCount, PlaneInfos(b.planes, planesCount))
  {
    if planesCount > PlaneLimit(bufType) {
      return -EINVAL;
    }
    b.planesCount := planesCount;
    for i := 0 to planesCount
      invariant b.Valid() && b.planesCount == planesCount
      invariant b.planes == old(b.planes) && b.data == old(b.data) && k.trace == old(k.trace)
      invariant forall j | 0 <= j < MAX_PLANES ::
                  b.dmaBufFd[j] == (if j < i then -1 else old(b.dmaBufFd[j]))
    {
      b.dmaBufFd := b.dmaBufFd[i := -1];
    }
    b.bufType, b.memory, b.index := bufType, memory, index;
    var infos;
    ret, infos := k.BufferQuery(videoFd, bufType, memory, index, planesCount);
    var planes := b.planes;
    b.planes := seq(MAX_PLANES, i requires 0 <= i < MAX_PLANES =>
                      if i < planesCount then planes[i].(length := infos[i].length, offset := infos[i].offset)
                      else planes[i]);
    forall i | 0 <= i < planesCount
      ensures PlaneInfos(b.planes, planesCount)[i] == infos[i]
    {
    }
    assert PlaneInfos(b.planes, planesCount) == infos;
    ghost var based := Based(old(b.View()), bufType, memory, index, planesCount, infos);
    assert b.planes == based.planes;
    assert b.dmaBufFd == based.dmaBufFd;
  }

  /* ---- the outcome of one plane's step, as the kernel saw it ---- */

  /** The step mapped the plane from the device at its offset (demo_buffer_setup_v4l2). */
  ghost predicate DeviceMapped(log: seq<Event>, videoFd: int, plane: Plane, region: Region) {
    region.Region? &&
    log == [Event(Op.Mmap(plane.length, videoFd, plane.offset), 0, Mapping(region.token))]
  }

  /** The step allocated the plane from the heap and mapped it (demo_buffer_setup_dma_heap). */
  ghost predicate HeapAllocated(log: seq<Event>, heapFd: int, plane: Plane, fd: int, region: Region) {
    region.Region? && fd >= 0 && plane.fd == fd &&
    log == [Event(HeapAlloc(heapFd, plane.length), fd, NoOut),
            Event(Op.Mmap(plane.length, fd, 0), 0, Mapping(region.token))]
  }

  /** The step mapped the exporter's own heap handle, which the importer does not own. */
  ghost predicate ImportedHeapFd(log: seq<Event>, exporterFd: int, plane: Plane, region: Region) {
    region.Region? && exporterFd >= 0 && plane.fd == exporterFd &&
    log == [Event(Op.Mmap(plane.length, exporterFd, 0), 0, Mapping(region.token))]
  }

  /**
   * The step exported the exporter's plane, kept a duplicate of the handle
   * as its own, and mapped the exported handle.
   */
  ghost predicate ImportedExport(log: seq<Event>, importFd: int, exporterType: int, exporterIndex: nat,
                                 i: nat, plane: Plane, ownFd: int, region: Region) {
    region.Region? &&
    log == [Event(Op.BufferExport(importFd, exporterType, exporterIndex, i), 0, Exported(plane.fd)),
            Event(Dup(plane.fd), ownFd, NoOut),
            Event(Op.Mmap(plane.length, plane.fd, 0), 0, Mapping(region.token))]
  }

  /** A mapping request that the kernel refused. */
  ghost predicate MapFailed(log: seq<Event>, length: nat, fd: int, offset: nat) {
    |log| == 1 && log[0].op == Op.Mmap(length, fd, offset) && log[0].ret != 0
  }

  /** How demo_buffer_setup_dma_heap fails on a plane: the allocation, or its mapping. */
  ghost predicate HeapFailed(log: seq<Event>, heapFd: int, length: nat) {
    (|log| == 1 && log[0].op == HeapAlloc(heapFd, length) && log[0].ret < 0) ||
    (|log| == 2 && log[0].op == HeapAlloc(heapFd, length) && log[0].ret >= 0 &&
     MapFailed(log[1..], length, log[0].ret, 0))
  }

  /**
   * How demo_buffer_setup_import fails on plane i: the exporter's plane is
   * too short, its heap handle is missing, the export fails (its error is
   * returned), or the mapping fails.
   */
  ghost predicate ImportFailed(log: seq<Event>, ret: int, heap: bool, importFd: int,
                               exporterPlane: Plane, exporterFd: int, exporterType: int,
                               exporterIndex: nat, i: nat, length: nat) {
    if exporterPlane.length < length then log == [] && ret == -EINVAL
    else if heap then
      if exporterFd < 0 then log == [] && ret == -EINVAL
      else ret == -ENOMEM && MapFailed(log, length, exporterFd, 0)
    else
      (|log| == 1 && log[0].op == Op.BufferExport(importFd, exporterType, exporterIndex, i) &&
       log[0].ret == ret && ret != 0) ||
      (|log| == 3 && log[0].op == Op.BufferExport(importFd, exporterType, exporterIndex, i) &&
       log[0].ret == 0 && log[1].op.Dup? && log[0].out == Exported(log[1].op.fd) &&
       ret == -ENOMEM && MapFailed(log[2..], length, log[1].op.fd, 0))
  }


  /**
   * Where the planes of a buffer get their memory: mapped from the device
   * (demo_buffer_setup_v4l2), allocated from the dma-heap
   * (demo_buffer_setup_dma_heap), or taken from the plane of the same number
   * of an exporting buffer (demo_buffer_setup_import), whose own heap handle
   * is reused when `heap` holds and which is exported otherwise.
   */
  datatype Strategy =
    | DeviceMap(videoFd: int)
    | HeapAllocate(heapFd: int)
    | Import(exporter: BufferView, importFd: int, heap: bool)
  {
    predicate Valid() {
      Import? ==> exporter.Valid()
    }

    /** Whether the buffer ends up owning a share handle for each plane. */
    predicate Owning() {
      HeapAllocate? || (Import? && !heap)
    }
  }

  /** Plane j of `v` got its memory by the strategy, through the calls of `log`. */
  ghost predicate PlaneDone(s: Strategy, v: BufferView, j: nat, log: seq<Event>)
    requires s.Valid() && v.Valid() && j < MAX_PLANES
  {
    match s
    case DeviceMap(videoFd) => DeviceMapped(log, videoFd, v.planes[j], v.data[j])
    case HeapAllocate(heapFd) => HeapAllocated(log, heapFd, v.planes[j], v.dmaBufFd[j], v.data[j])
    case Import(e, importFd, heap) =>
      e.planes[j].length >= v.planes[j].length &&
      if heap then ImportedHeapFd(log, e.dmaBufFd[j], v.planes[j], v.data[j])
      else ImportedExport(log, importFd, e.bufType, e.index, j, v.planes[j], v.dmaBufFd[j], v.data[j])
  }

  /** Plane j of `v` did not get its memory: the calls of `log` failed with `ret`. */
  ghost predicate PlaneFailed(s: Strategy, v: BufferView, j: nat, log: seq<Event>, ret: int)
    requires s.Valid() && v.Valid() && j < MAX_PLANES
  {
    match s
    case DeviceMap(videoFd) => ret == -ENOMEM && MapFailed(log, v.planes[j].length, videoFd, v.planes[j].offset)
    case HeapAllocate(heapFd) => ret == -ENOMEM && HeapFailed(log, heapFd, v.planes[j].length)
    case Import(e, importFd, heap) =>
      ImportFailed(log, ret, heap, importFd, e.planes[j], e.dmaBufFd[j], e.bufType, e.index, j, v.planes[j].length)
  }

  /**
   * What the plane steps of a strategy never change: the buffer's header and
   * each plane but for its handle; mapping from the device changes no handle,
   * and reusing the exporter's heap handle takes no handle of its own.
   */
  ghost predicate Framed(s: Strategy, v0: BufferView, v: BufferView)
    requires v0.Valid() && v.Valid()
  {
    v.bufType == v0.bufType && v.memory == v0.memory && v.index == v0.index &&
    v.planesCount == v0.planesCount &&
    (forall j | 0 <= j < MAX_PLANES :: v.planes[j] == v0.planes[j].(fd := v.planes[j].fd)) &&
    (s.DeviceMap? ==> v.planes == v0.planes && v.dmaBufFd == v0.dmaBufFd) &&
    (s.Import? && s.heap ==> v.dmaBufFd == v0.dmaBufFd)
  }

  lemma FramedTrans(s: Strategy, u: BufferView, v: BufferView, w: BufferView)
    requires u.Valid() && v.Valid() && w.Valid()
    requires Framed(s, u, v) && Framed(s, v, w)
    ensures Framed(s, u, w)
  {
    forall j | 0 <= j < MAX_PLANES
      ensures w.planes[j] == u.planes[j].(fd := w.planes[j].fd)
    {
      assert v.planes[j] == u.planes[j].(fd := v.planes[j].fd);
    }
  }

  /** One step of a plane loop, from `v` to `w` on plane i: no other plane changes. */
  ghost predicate Stepped(s: Strategy, v: BufferView, w: BufferView, i: nat, ret: int, log: seq<Event>)
    requires s.Valid() && v.Valid() && w.Valid() && i < MAX_PLANES
  {
    Framed(s, v, w) &&
    (forall j | 0 <= j < MAX_PLANES && j != i ::
       w.planes[j] == v.planes[j] && w.data[j] == v.data[j] && w.dmaBufFd[j] == v.dmaBufFd[j]) &&
    (ret == 0 ==> PlaneDone(s, w, i, log)) &&
    (ret != 0 ==> w.data[i] == v.data[i] && PlaneFailed(s, w, i, log, ret))
  }

  /** A plane loop from `v0` so far: the first |logs| planes are done, the others untouched. */
  ghost predicate Progress(s: Strategy, v0: BufferView, v: BufferView, logs: seq<seq<Event>>)
    requires s.Valid() && v0.Valid() && v.Valid()
  {
    Framed(s, v0, v) && |logs| <= v.planesCount &&
    (forall j | 0 <= j < |logs| :: PlaneDone(s, v, j, logs[j])) &&
    (forall j | |logs| <= j < MAX_PLANES ::
       v.planes[j] == v0.planes[j] && v.data[j] == v0.data[j] && v.dmaBufFd[j] == v0.dmaBufFd[j])
  }

  /**
   * The outcome of a plane loop from `v0` to `v`: every used plane got its
   * memory and the code is 0, or the planes before the last step got theirs
   * and the last step failed with the code returned.  A failed plane keeps
   * its old mapping, and the planes after it are untouched.
   */
  ghost predicate PlanesOutcome(s: Strategy, v0: BufferView, v: BufferView, logs: seq<seq<Event>>, ret: int)
    requires s.Valid() && v0.Valid() && v.Valid()
  {
    Framed(s, v0, v) &&
    (ret == 0 ==> |logs| == v.planesCount && forall j | 0 <= j < |logs| :: PlaneDone(s, v, j, logs[j])) &&
    (ret != 0 ==> PlanesFailed(s, v, logs, ret)) &&
    (forall j | 0 <= j < MAX_PLANES && j >= |logs| - (if ret == 0 then 0 else 1) :: v.data[j] == v0.data[j]) &&
    (forall j | |logs| <= j < MAX_PLANES :: v.dmaBufFd[j] == v0.dmaBufFd[j] && v.planes[j] == v0.planes[j])
  }

  /** A plane loop that failed: the planes before the last step got their memory, and the last step failed with `ret`. */
  ghost predicate PlanesFailed(s: Strategy, v: BufferView, logs: seq<seq<Event>>, ret: int)
    requires s.Valid() && v.Valid()
  {
    0 < |logs| <= v.planesCount &&
    (forall j | 0 <= j < |logs| - 1 :: PlaneDone(s, v, j, logs[j])) &&
    PlaneFailed(s, v, |logs| - 1, logs[|logs| - 1], ret)
  }

  /**
   * How the planes of a buffer that was queried fail: an import whose
   * exporter has another plane count is -EINVAL with no call, and any other
   * failure is the plane loop's.
   */
  ghost predicate BufferFailed(s: Strategy, v: BufferView, logs: seq<seq<Event>>, ret: int)
    requires s.Valid() && v.Valid()
  {
    if s.Import? && v.planesCount != s.exporter.planesCount then ret == -EINVAL && logs == []
    else PlanesFailed(s, v, logs, ret)
  }

  /**
   * The planes part of demo_buffer_setup from the queried buffer `v0` to
   * `v`: an import checks the plane counts first, changing nothing on a
   * mismatch; otherwise the plane loop goes as PlanesOutcome says.
   */
  ghost predicate StrategyOutcome(s: Strategy, v0: BufferView, v: BufferView, logs: seq<seq<Event>>, ret: int)
    requires s.Valid() && v0.Valid() && v.Valid()
  {
    if s.Import? && v0.planesCount != s.exporter.planesCount then ret == -EINVAL && logs == [] && v == v0
    else PlanesOutcome(s, v0, v, logs, ret)
  }

  lemma ProgressStart(s: Strategy, v0: BufferView)
    requires s.Valid() && v0.Valid()
    ensures Progress(s, v0, v0, [])
  {
    assert forall j | 0 <= j < MAX_PLANES :: v0.planes[j] == v0.planes[j].(fd := v0.planes[j].fd);
  }

  /** A plane step that succeeds on the next plane extends the progress by its log. */
  lemma ProgressStep(s: Strategy, v0: BufferView, v: BufferView, w: BufferView,
                     logs: seq<seq<Event>>, step: seq<Event>)
    requires s.Valid() && v0.Valid() && v.Valid() && w.Valid()
    requires Progress(s, v0, v, logs) && |logs| < v.planesCount
    requires Stepped(s, v, w, |logs|, 0, step)
    ensures Progress(s, v0, w, logs + [step])
  {
    FramedTrans(s, v0, v, w);
    var all := logs + [step];
    forall j | 0 <= j < |all|
      ensures PlaneDone(s, w, j, all[j])
    {
      if j < |logs| {
        assert all[j] == logs[j] && PlaneDone(s, v, j, logs[j]);
      }
    }
  }

  /** A plane step that fails on the next plane ends the loop with its code. */
  lemma ProgressStop(s: Strategy, v0: BufferView, v: BufferView, w: BufferView,
                     logs: seq<seq<Event>>, step: seq<Event>, ret: int)
    requires s.Valid() && v0.Valid() && v.Valid() && w.Valid()
    requires Progress(s, v0, v, logs) && |logs| < v.planesCount
    requires ret != 0 && Stepped(s, v, w, |logs|, ret, step)
    ensures PlanesOutcome(s, v0, w, logs + [step], ret)
  {
    FramedTrans(s, v0, v, w);
    var all := logs + [step];
    forall j | 0 <= j < |all| - 1
      ensures PlaneDone(s, w, j, all[j])
    {
      assert all[j] == logs[j] && PlaneDone(s, v, j, logs[j]);
    }
  }

  /** The loop ends with every used plane done. */
  lemma ProgressDone(s: Strategy, v0: BufferView, v: BufferView, logs: seq<seq<Event>>)
    requires s.Valid() && v0.Valid() && v.Valid()
    requires Progress(s, v0, v, logs) && |logs| == v.planesCount
    ensures PlanesOutcome(s, v0, v, logs, 0)
  {
  }

  /** One plane of demo_buffer_setup_v4l2: map it from the device at its offset. */
  method DevicePlane(b: Buffer, videoFd: int, i: nat, k: Kernel) returns (ret: int, ghost step: seq<Event>)
    requires b.Valid() && i < b.planesCount
    modifies b, k
    ensures b.Valid()
    ensures k.trace == old(k.trace) + step
    ensures Stepped(DeviceMap(videoFd), old(b.View()), b.View(), i, ret, step)
  {
    var length, offset := b.planes[i].length, b.planes[i].offset;
    var r, token := k.Mmap(length, videoFd, offset);
    step := [Event(Op.Mmap(length, videoFd, offset), r, Mapping(token))];
    if r != 0 {
      return -ENOMEM, step;
    }
    b.data := b.data[i := Region(token)];
    return 0, step;
  }

  /**
   * demo_buffer_setup_v4l2: map every used plane from the device.  On a
   * refused mapping it stops with -ENOMEM and the planes before keep their
   * mappings (the code does not unwind them).
   */
  method SetupV4l2(b: Buffer, videoFd: int, k: Kernel) returns (ret: int, ghost logs: seq<seq<Event>>)
    requires b.Valid()
    modifies b, k
    ensures b.Valid()
    ensures k.trace == old(k.trace) + Concat(logs)
    ensures PlanesOutcome(DeviceMap(videoFd), old(b.View()), b.View(), logs, ret)
  {
    ghost var s, v0 := DeviceMap(videoFd), b.View();
    logs := [];
    ProgressStart(s, v0);
    var i := 0;
    while i < b.planesCount
      invariant b.Valid() && i == |logs|
      invariant k.trace == old(k.trace) + Concat(logs)
      invariant Progress(s, v0, b.View(), logs)
    {
      ghost var v := b.View();
      var r, step := DevicePlane(b, videoFd, i, k);
      TraceSnoc(old(k.trace), logs, step);
      if r != 0 {
        ProgressStop(s, v0, v, b.View(), logs, step, r);
        return r, logs + [step];
      }
      ProgressStep(s, v0, v, b.View(), logs, step);
      logs := logs + [step];
      i := i + 1;
    }
    ProgressDone(s, v0, b.View(), logs);
    return 0, logs;
  }

  /**
   * One plane of demo_buffer_setup_dma_heap: allocate it from the heap, keep
   * the handle as the buffer's own, and map it at offset 0.
   */
  method HeapPlane(b: Buffer, heapFd: int, i: nat, k: Kernel) returns (ret: int, ghost step: seq<Event>)
    requires b.Valid() && i < b.planesCount
    modifies b, k
    ensures b.Valid()
    ensures k.trace == old(k.trace) + step
    ensures Stepped(HeapAllocate(heapFd), old(b.View()), b.View(), i, ret, step)
  {
    var length := b.planes[i].length;
    var fd := k.Call(HeapAlloc(heapFd, length));
    var alloc := Event(HeapAlloc(heapFd, length), fd, NoOut);
    if fd < 0 {
      return -ENOMEM, [alloc];
    }
    b.dmaBufFd := b.dmaBufFd[i := fd];
    b.planes := b.planes[i := b.planes[i].(fd := fd)];
    var r, token := k.Mmap(length, fd, 0);
    step := [alloc, Event(Op.Mmap(length, fd, 0), r, Mapping(token))];
    if r != 0 {
      assert step[1..] == [step[1]];
      return -ENOMEM, step;
    }
    b.data := b.data[i := Region(token)];
    return 0, step;
  }

  /**
   * demo_buffer_setup_dma_heap: give every used plane a heap allocation of
   * its own.  Either failure of a plane returns -ENOMEM; the planes before
   * keep their allocations and mappings.
   */
  method SetupDmaHeap(b: Buffer, heapFd: int, k: Kernel) returns (ret: int, ghost logs: seq<seq<Event>>)
    requires b.Valid()
    modifies b, k
    ensures b.Valid()
    ensures k.trace == old(k.trace) + Concat(logs)
    ensures PlanesOutcome(HeapAllocate(heapFd), old(b.View()), b.View(), logs, ret)
  {
    ghost var s, v0 := HeapAllocate(heapFd), b.View();
    logs := [];
    ProgressStart(s, v0);
    var i := 0;
    while i < b.planesCount
      invariant b.Valid() && i == |logs|
      invariant k.trace == old(k.trace) + Concat(logs)
      invariant Progress(s, v0, b.View(), logs)
    {
      ghost var v := b.View();
      var r, step := HeapPlane(b, heapFd, i, k);
      TraceSnoc(old(k.trace), logs, step);
      if r != 0 {
        ProgressStop(s, v0, v, b.View(), logs, step, r);
        return r, logs + [step];
      }
      ProgressStep(s, v0, v, b.View(), logs, step);
      logs := logs + [step];
      i := i + 1;
    }
    ProgressDone(s, v0, b.View(), logs);
    return 0, logs;
  }

  /**
   * One plane of demo_buffer_setup_import: the exporter's plane must be at
   * least as long; then its memory is shared by the heap handle or by export.
   */
  method ImportPlane(b: Buffer, exporter: BufferView, importFd: int, heap: bool, i: nat, k: Kernel)
    returns (ret: int, ghost step: seq<Event>)
    requires b.Valid() && exporter.Valid() && i < b.planesCount
    modifies b, k
    ensures b.Valid()
    ensures k.trace == old(k.trace) + step
    ensures Stepped(Import(exporter, importFd, heap), old(b.View()), b.View(), i, ret, step)
  {
    if exporter.planes[i].length < b.planes[i].length {
      return -EINVAL, [];
    }
    if heap {
      ret, step := ShareHeapPlane(b, exporter, importFd, i, k);
    } else {
      ret, step := ExportPlane(b, exporter, importFd, i, k);
    }
  }

  /**
   * Plane i of an import under the heap allocator: map the exporter's own
   * heap handle, which must exist; the importer takes no handle of its own.
   */
  method ShareHeapPlane(b: Buffer, exporter: BufferView, importFd: int, i: nat, k: Kernel)
    returns (ret: int, ghost step: seq<Event>)
    requires b.Valid() && exporter.Valid() && i < b.planesCount
    requires exporter.planes[i].length >= b.planes[i].length
    modifies b, k
    ensures b.Valid()
    ensures k.trace == old(k.trace) + step
    ensures Stepped(Import(exporter, importFd, true), old(b.View()), b.View(), i, ret, step)
  {
    var length := b.planes[i].length;
    var fd := exporter.dmaBufFd[i];
    if fd < 0 {
      return -EINVAL, [];
    }
    b.planes := b.planes[i := b.planes[i].(fd := fd)];
    var r, token := k.Mmap(length, fd, 0);
    step := [Event(Op.Mmap(length, fd, 0), r, Mapping(token))];
    if r != 0 {
      return -ENOMEM, step;
    }
    b.data := b.data[i := Region(token)];
    return 0, step;
  }

  /**
   * Plane i of an import otherwise: export the exporter's plane, keep a
   * duplicate of the handle as the importer's own reference, and map the
   * exported handle.
   */
  method ExportPlane(b: Buffer, exporter: BufferView, importFd: int, i: nat, k: Kernel)
    returns (ret: int, ghost step: seq<Event>)
    requires b.Valid() && exporter.Valid() && i < b.planesCount
    requires exporter.planes[i].length >= b.planes[i].length
    modifies b, k
    ensures b.Valid()
    ensures k.trace == old(k.trace) + step
    ensures Stepped(Import(exporter, importFd, false), old(b.View()), b.View(), i, ret, step)
  {
    var length := b.planes[i].length;
    var r, fd := k.BufferExport(importFd, exporter.bufType, exporter.index, i);
    var exported := Event(Op.BufferExport(importFd, exporter.bufType, exporter.index, i), r, Exported(fd));
    if r != 0 {
      return r, [exported];
    }
    var own := k.Call(Dup(fd));
    b.dmaBufFd := b.dmaBufFd[i := own];
    b.planes := b.planes[i := b.planes[i].(fd := fd)];
    var r', token := k.Mmap(length, fd, 0);
    step := [exported, Event(Dup(fd), own, NoOut), Event(Op.Mmap(length, fd, 0), r', Mapping(token))];
    if r' != 0 {
      assert step[2..] == [step[2]];
      return -ENOMEM, step;
    }
    b.data := b.data[i := Region(token)];
    return 0, step;
  }

  /**
   * demo_buffer_setup_import: give every used plane the memory of the
   * exporter's plane of the same number; the two buffers must have as many
   * planes.  `heap` is whether the demo allocates from the dma-heap, and the
   * exporter is passed as the value of its fields, which the import reads
   * and does not change.
   */
  method SetupImport(b: Buffer, exporter: BufferView, importFd: int, heap: bool, k: Kernel)
    returns (ret: int, ghost logs: seq<seq<Event>>)
    requires b.Valid() && exporter.Valid()
    modifies b, k
    ensures b.Valid()
    ensures k.trace == old(k.trace) + Concat(logs)
    ensures b.planesCount != exporter.planesCount ==>
              ret == -EINVAL && logs == [] && b.View() == old(b.View())
    ensures b.planesCount == exporter.planesCount ==>
              PlanesOutcome(Import(exporter, importFd, heap), old(b.View()), b.View(), logs, ret)
  {
    logs := [];
    if b.planesCount != exporter.planesCount {
      return -EINVAL, logs;
    }
    ghost var s, v0 := Import(exporter, importFd, heap), b.View();
    ProgressStart(s, v0);
    var i := 0;
    while i < b.planesCount
      invariant b.Valid() && i == |logs|
      invariant k.trace == old(k.trace) + Concat(logs)
      invariant Progress(s, v0, b.View(), logs)
    {
      ghost var v := b.View();
      var r, step := ImportPlane(b, exporter, importFd, heap, i, k);
      TraceSnoc(old(k.trace), logs, step);
      if r != 0 {
        ProgressStop(s, v0, v, b.View(), logs, step, r);
        return r, logs + [step];
      }
      ProgressStep(s, v0, v, b.View(), logs, step);
      logs := logs + [step];
      i := i + 1;
    }
    ProgressDone(s, v0, b.View(), logs);
    return 0, logs;
  }

  /**
   * The strategy demo_buffer_setup selects: import from `exporter` when
   * importing from the camera, otherwise the allocator's; none for an
   * unknown allocator.
   */
  function StrategyFor(allocator: int, heapFd: int, importCamera: bool, exporter: BufferView,
                       importFd: int, videoFd: int): (s: Option<Strategy>)
    ensures s.Some? <==> importCamera || allocator in {ALLOCATOR_DMA_HEAP, ALLOCATOR_V4L2}
    ensures s.Some? && s.value.Import? <==> importCamera
    ensures s.Some? && s.value.Owning() <==>
              (!importCamera && allocator == ALLOCATOR_DMA_HEAP) || (importCamera && allocator != ALLOCATOR_DMA_HEAP)
  {
    if importCamera then Some(Import(exporter, importFd, allocator == ALLOCATOR_DMA_HEAP))
    else if allocator == ALLOCATOR_DMA_HEAP then Some(HeapAllocate(heapFd))
    else if allocator == ALLOCATOR_V4L2 then Some(DeviceMap(videoFd))
    else None
  }

  /**
   * The state demo_buffer_setup leaves on success: every used plane got its
   * memory by the strategy, and a plane holds a share handle of its own
   * exactly when the strategy allocated or duplicated one for it.
   */
  ghost predicate Realised(s: Strategy, v: BufferView, logs: seq<seq<Event>>)
    requires s.Valid() && v.Valid()
  {
    |logs| == v.planesCount &&
    forall j | 0 <= j < v.planesCount ::
      PlaneDone(s, v, j, logs[j]) && (!s.Owning() ==> v.dmaBufFd[j] == -1)
  }

  /** A plane loop that succeeds after the base setup realises the buffer. */
  lemma OutcomeRealised(s: Strategy, v0: BufferView, v: BufferView, logs: seq<seq<Event>>)
    requires s.Valid() && v0.Valid() && v.Valid()
    requires PlanesOutcome(s, v0, v, logs, 0)
    requires forall j | 0 <= j < v0.planesCount :: v0.dmaBufFd[j] == -1
    ensures Realised(s, v, logs)
  {
  }

  /** Every realised plane is mapped. */
  lemma RealisedMapped(s: Strategy, v: BufferView, logs: seq<seq<Event>>)
    requires s.Valid() && v.Valid() && Realised(s, v, logs)
    ensures forall j | 0 <= j < v.planesCount :: v.data[j].Region?
  {
    forall j | 0 <= j < v.planesCount
      ensures v.data[j].Region?
    {
      assert PlaneDone(s, v, j, logs[j]);
    }
  }

  /** The camera buffer a decoder buffer imports from (the buffer itself when not importing). */
  function ExporterOf(demo: Demo, b: Buffer, index: nat, importCamera: bool): BufferView
    reads b
    reads if importCamera && index < |demo.camera.captureBuffers| then {demo.camera.captureBuffers[index]} else {}
  {
    if importCamera && index < |demo.camera.captureBuffers| then demo.camera.captureBuffers[index].View()
    else b.View()
  }

  /** Realised, for buffer `index` of a pool of the context `demo`. */
  ghost predicate RealisedIn(demo: Demo, b: Buffer, videoFd: int, index: nat, importCamera: bool,
                             logs: seq<seq<Event>>)
    reads demo, demo.camera, b
    reads if importCamera && index < |demo.camera.captureBuffers| then {demo.camera.captureBuffers[index]} else {}
  {
    var s := StrategyFor(demo.allocator, demo.dmaHeapFd, importCamera, ExporterOf(demo, b, index, importCamera),
                         demo.camera.videoFd, videoFd);
    b.Valid() && s.Some? && s.value.Valid() && Realised(s.value, b.View(), logs)
  }

  /**
   * demo_buffer_setup: the base setup, then the memory of the planes, from
   * the camera buffer of the same index when importing, otherwise by the
   * allocator; an unknown allocator is -EINVAL.
   */
  method Setup(demo: Demo, b: Buffer, videoFd: int, memory: int, bufType: int, index: nat,
               planesCount: nat, importCamera: bool, k: Kernel)
    returns (ret: int, ghost query: Event, ghost logs: seq<seq<Event>>)
    requires b.Valid()
    requires importCamera ==> demo.camera.Valid() && index < POOL_SIZE && b != demo.camera.captureBuffers[index]
    modifies b, k
    ensures b.Valid()
    ensures planesCount > PlaneLimit(bufType) ==>
              ret == -EINVAL && unchanged(b) && k.trace == old(k.trace)
    ensures planesCount <= PlaneLimit(bufType) ==>
              b.planesCount == planesCount && b.bufType == bufType && b.memory == memory && b.index == index &&
              query.op == Op.BufferQuery(videoFd, bufType, memory, index, planesCount) &&
              k.trace == old(k.trace) + [query] + Concat(logs) &&
              (query.ret != 0 ==> ret == query.ret && logs == []) &&
              (query.ret == 0 && !importCamera &&
               demo.allocator != ALLOCATOR_DMA_HEAP && demo.allocator != ALLOCATOR_V4L2 ==>
                 ret == -EINVAL && logs == [])
    ensures planesCount <= PlaneLimit(bufType) && query.ret == 0 ==>
              query.out.Planes? && |query.out.planes| == planesCount &&
              var s := StrategyFor(demo.allocator, demo.dmaHeapFd, importCamera, ExporterOf(demo, b, index, importCamera),
                                   demo.camera.videoFd, videoFd);
              s.Some? ==>
                s.value.Valid() &&
                StrategyOutcome(s.value, Based(old(b.View()), bufType, memory, index, planesCount, query.out.planes),
                                b.View(), logs, ret)
    ensures ret == 0 ==> RealisedIn(demo, b, videoFd, index, importCamera, logs)
  {
    logs := [];
    ghost var before := k.trace;
    ret := SetupBase(b, videoFd, memory, bufType, index, planesCount, k);
    query := Event(Op.BufferQuery(videoFd, bufType, memory, index, planesCount), ret, NoOut);
    if planesCount > PlaneLimit(bufType) {
      return;
    }
    query := k.trace[|before|];
    assert k.trace == before + [query];
    if ret != 0 {
      return;
    }
    ghost var base := b.View();
    ghost var s := StrategyFor(demo.allocator, demo.dmaHeapFd, importCamera, ExporterOf(demo, b, index, importCamera),
                               demo.camera.videoFd, videoFd);
    if importCamera {
      assert demo.camera.captureBuffers[index] in demo.camera.captureBuffers;
      var exporter := demo.camera.captureBuffers[index].View();
      ret, logs := SetupImport(b, exporter, demo.camera.videoFd, demo.allocator == ALLOCATOR_DMA_HEAP, k);
      if ret == 0 {
        OutcomeRealised(s.value, base, b.View(), logs);
      }
    } else if demo.allocator == ALLOCATOR_DMA_HEAP {
      ret, logs := SetupDmaHeap(b, demo.dmaHeapFd, k);
      if ret == 0 {
        OutcomeRealised(s.value, base, b.View(), logs);
      }
    } else if demo.allocator == ALLOCATOR_V4L2 {
      ret, logs := SetupV4l2(b, videoFd, k);
      if ret == 0 {
        OutcomeRealised(s.value, base, b.View(), logs);
      }
    } else {
      ret := -EINVAL;
    }
  }

  /**
   * Where the planes of a pool's buffers get their memory: the demo's
   * allocator and dma-heap handle, whether the buffers import the camera's,
   * the camera's buffers (as values) and its video handle, and the pool's own
   * video handle.
   */
  datatype Provision = Provision(allocator: int, heapFd: int, importCamera: bool,
                                 exporters: seq<BufferView>, importFd: int, videoFd: int)
  {
    predicate Valid() {
      importCamera ==> |exporters| == POOL_SIZE && ViewsValid(exporters)
    }

    /**
     * The strategy demo_buffer_setup selects for buffer `index`, which is
     * `own` (an exporter that is then never looked at) when not importing.
     */
    function StrategyAt(index: nat, own: BufferView): Option<Strategy>
      requires Valid() && index < POOL_SIZE
    {
      StrategyFor(allocator, heapFd, importCamera, if importCamera then exporters[index] else own, importFd, videoFd)
    }
  }

  /**
   * The provision of a pool of `demo` on the device `videoFd`; the camera's
   * buffers are part of it only when importing.
   */
  function ProvisionOf(demo: Demo, videoFd: int, importCamera: bool): Provision
    reads demo, demo.camera, if importCamera then demo.camera.captureBuffers else []
  {
    Provision(demo.allocator, demo.dmaHeapFd, importCamera,
              if importCamera then Views(demo.camera.captureBuffers) else [], demo.camera.videoFd, videoFd)
  }

  lemma ProvisionValid(demo: Demo, videoFd: int, importCamera: bool)
    requires importCamera ==> demo.camera.Valid()
    ensures ProvisionOf(demo, videoFd, importCamera).Valid()
  {
    if importCamera {
      PoolViewsValid(demo.camera.captureBuffers);
    }
  }

  /**
   * Buffer `index` of a pool is set up: a single plane of the pool's type
   * and memory, realised by the strategy of its provision with `logs`.
   */
  ghost predicate BufferReady(p: Provision, v: BufferView, index: nat, bufType: int, memory: int,
                              logs: seq<seq<Event>>)
    requires p.Valid() && index < POOL_SIZE
  {
    v.Valid() && v.planesCount == 1 && v.bufType == bufType && v.memory == memory && v.index == index &&
    var s := p.StrategyAt(index, v);
    s.Some? && s.value.Valid() && Realised(s.value, v, logs)
  }

  /**
   * Buffer `index` of a pool failed after its query succeeded: -EINVAL with
   * no call for an unknown allocator, otherwise as BufferFailed says for
   * the strategy of its provision.
   */
  ghost predicate BufferFailedIn(p: Provision, v: BufferView, index: nat, logs: seq<seq<Event>>, ret: int)
    requires p.Valid() && index < POOL_SIZE
  {
    v.Valid() &&
    var s := p.StrategyAt(index, v);
    if s.None? then ret == -EINVAL && logs == []
    else s.value.Valid() && BufferFailed(s.value, v, logs, ret)
  }

  /** The calls of a pool's buffer setups: per buffer, its query, then its planes' steps. */
  function BufferLogs(queries: seq<Event>, planeLogs: seq<seq<seq<Event>>>): seq<Event>
    requires |queries| == |planeLogs|
  {
    if queries == [] then []
    else
      var n := |queries| - 1;
      BufferLogs(queries[..n], planeLogs[..n]) + [queries[n]] + Concat(planeLogs[n])
  }

  /** Appending one buffer's calls to the trace of the buffers before it. */
  lemma TraceStep(start: seq<Event>, queries: seq<Event>, planeLogs: seq<seq<seq<Event>>>, query: Event,
                  logs: seq<seq<Event>>)
    requires |queries| == |planeLogs|
    ensures start + BufferLogs(queries + [query], planeLogs + [logs]) ==
            start + BufferLogs(queries, planeLogs) + [query] + Concat(logs)
  {
    assert (queries + [query])[..|queries|] == queries;
    assert (planeLogs + [logs])[..|planeLogs|] == planeLogs;
  }

  /** The pool loop so far: the first `n` buffers were queried and are ready. */
  ghost predicate BuffersProgress(p: Provision, views: seq<BufferView>, videoFd: int, bufType: int, memory: int,
                                  queries: seq<Event>, planeLogs: seq<seq<seq<Event>>>)
    requires p.Valid()
  {
    |views| == POOL_SIZE && |queries| == |planeLogs| <= POOL_SIZE &&
    forall j | 0 <= j < |queries| ::
      queries[j].op == BufferQuery(videoFd, bufType, memory, j, 1) && queries[j].ret == 0 &&
      BufferReady(p, views[j], j, bufType, memory, planeLogs[j])
  }

  /**
   * The outcome of the pool loop: each buffer was queried in order and the
   * first `ready` set up; the loop returns 0 once all are, and otherwise
   * stops at the buffer after the last ready one, returning the error of its
   * query when that query failed and the failure of its planes otherwise.
   */
  ghost predicate BuffersOutcome(p: Provision, views: seq<BufferView>, videoFd: int, bufType: int, memory: int,
                                 queries: seq<Event>, planeLogs: seq<seq<seq<Event>>>, ready: nat, ret: int)
    requires p.Valid()
  {
    |views| == POOL_SIZE && |queries| == |planeLogs| <= POOL_SIZE && ready <= |queries| &&
    (forall j | 0 <= j < |queries| :: queries[j].op == BufferQuery(videoFd, bufType, memory, j, 1)) &&
    (ret == 0 ==> ready == |queries| == POOL_SIZE) &&
    (ret != 0 ==>
       ready == |queries| - 1 &&
       (queries[ready].ret != 0 ==> ret == queries[ready].ret && planeLogs[ready] == []) &&
       (queries[ready].ret == 0 ==> BufferFailedIn(p, views[ready], ready, planeLogs[ready], ret))) &&
    forall j | 0 <= j < ready ::
      queries[j].ret == 0 && BufferReady(p, views[j], j, bufType, memory, planeLogs[j])
  }

  /** A buffer that becomes ready extends the progress; the ready ones stay ready. */
  lemma BuffersStep(p: Provision, views: seq<BufferView>, videoFd: int, bufType: int, memory: int,
                    queries: seq<Event>, planeLogs: seq<seq<seq<Event>>>, w: BufferView, query: Event,
                    logs: seq<seq<Event>>)
    requires p.Valid() && BuffersProgress(p, views, videoFd, bufType, memory, queries, planeLogs)
    requires |queries| < POOL_SIZE
    requires query.op == BufferQuery(videoFd, bufType, memory, |queries|, 1) && query.ret == 0
    requires BufferReady(p, w, |queries|, bufType, memory, logs)
    ensures BuffersProgress(p, views[|queries| := w], videoFd, bufType, memory, queries + [query], planeLogs + [logs])
  {
    var n := |queries|;
    var vs, qs, ls := views[n := w], queries + [query], planeLogs + [logs];
    forall j | 0 <= j < n + 1
      ensures qs[j].op == BufferQuery(videoFd, bufType, memory, j, 1) && qs[j].ret == 0 &&
              BufferReady(p, vs[j], j, bufType, memory, ls[j])
    {
      if j < n {
        assert qs[j] == queries[j] && vs[j] == views[j] && ls[j] == planeLogs[j];
      }
    }
  }

  /** A buffer that fails ends the loop with its code. */
  lemma BuffersStop(p: Provision, views: seq<BufferView>, videoFd: int, bufType: int, memory: int,
                    queries: seq<Event>, planeLogs: seq<seq<seq<Event>>>, w: BufferView, query: Event,
                    logs: seq<seq<Event>>, ret: int)
    requires p.Valid() && BuffersProgress(p, views, videoFd, bufType, memory, queries, planeLogs)
    requires |queries| < POOL_SIZE && ret != 0
    requires query.op == BufferQuery(videoFd, bufType, memory, |queries|, 1)
    requires query.ret != 0 ==> ret == query.ret && logs == []
    requires query.ret == 0 ==> BufferFailedIn(p, w, |queries|, logs, ret)
    ensures BuffersOutcome(p, views[|queries| := w], videoFd, bufType, memory, queries + [query], planeLogs + [logs],
                           |queries|, ret)
  {
    var n := |queries|;
    var vs, qs, ls := views[n := w], queries + [query], planeLogs + [logs];
    assert qs[n] == query && ls[n] == logs;
    forall j | 0 <= j < n
      ensures qs[j] == queries[j] && vs[j] == views[j] && ls[j] == planeLogs[j]
    {
    }
  }

  /**
   * One turn of the pool loop: demo_buffer_setup of the `index`th buffer
   * with a single plane; the other buffers do not change.
   */
  method SetupPoolBuffer(demo: Demo, pool: seq<Buffer>, videoFd: int, memory: int, bufType: int,
                         index: nat, importCamera: bool, k: Kernel)
    returns (ret: int, ghost query: Event, ghost logs: seq<seq<Event>>)
    requires PoolValid(pool) && index < POOL_SIZE
    requires importCamera ==> demo.camera.Valid() && forall b | b in pool :: b !in demo.camera.captureBuffers
    modifies pool[index], k
    ensures PoolValid(pool)
    ensures Views(pool) == old(Views(pool))[index := pool[index].View()]
    ensures k.trace == old(k.trace) + [query] + Concat(logs)
    ensures query.op == BufferQuery(videoFd, bufType, memory, index, 1)
    ensures query.ret != 0 ==> ret == query.ret && logs == []
    ensures (importCamera ==> demo.camera.Valid()) && ProvisionOf(demo, videoFd, importCamera).Valid()
    ensures ProvisionOf(demo, videoFd, importCamera) == old(ProvisionOf(demo, videoFd, importCamera))
    ensures ret == 0 ==>
              query.ret == 0 &&
              BufferReady(ProvisionOf(demo, videoFd, importCamera), pool[index].View(), index, bufType, memory, logs)
    ensures ret != 0 && query.ret == 0 ==>
              BufferFailedIn(ProvisionOf(demo, videoFd, importCamera), pool[index].View(), index, logs, ret)
  {
    var b := pool[index];
    assert b in pool;
    assert 1 <= PlaneLimit(bufType);
    ghost var before, cameras := Views(pool), Views(demo.camera.captureBuffers);
    ret, query, logs := Setup(demo, b, videoFd, memory, bufType, index, 1, importCamera, k);
    forall j | 0 <= j < POOL_SIZE && j != index
      ensures pool[j].View() == before[j]
    {
      assert pool[j] != b;
    }
    if importCamera {
      forall j | 0 <= j < POOL_SIZE
        ensures demo.camera.captureBuffers[j].View() == cameras[j]
      {
        assert demo.camera.captureBuffers[j] in demo.camera.captureBuffers;
      }
    }
    ProvisionValid(demo, videoFd, importCamera);
  }

  /** The pool loop ends with every buffer ready. */
  lemma BuffersDone(p: Provision, views: seq<BufferView>, videoFd: int, bufType: int, memory: int,
                    queries: seq<Event>, planeLogs: seq<seq<seq<Event>>>)
    requires p.Valid() && BuffersProgress(p, views, videoFd, bufType, memory, queries, planeLogs)
    requires |queries| == POOL_SIZE
    ensures BuffersOutcome(p, views, videoFd, bufType, memory, queries, planeLogs, POOL_SIZE, 0)
  {
  }

  /**
   * One turn of the pool loop, as the loop sees it: the buffer after the
   * ready ones is set up, and either joins them or ends the loop.
   */
  method SetupBuffersTurn(demo: Demo, pool: seq<Buffer>, videoFd: int, memory: int, bufType: int,
                          importCamera: bool, index: nat, ghost p: Provision, ghost start: seq<Event>,
                          ghost queries: seq<Event>, ghost planeLogs: seq<seq<seq<Event>>>, k: Kernel)
    returns (ret: int, ghost query: Event, ghost logs: seq<seq<Event>>)
    requires PoolValid(pool)
    requires importCamera ==> demo.camera.Valid() && forall b | b in pool :: b !in demo.camera.captureBuffers
    requires p.Valid() && ProvisionOf(demo, videoFd, importCamera) == p
    requires index == |queries| == |planeLogs| < POOL_SIZE
    requires k.trace == start + BufferLogs(queries, planeLogs)
    requires BuffersProgress(p, Views(pool), videoFd, bufType, memory, queries, planeLogs)
    modifies pool, k
    ensures PoolValid(pool) && (importCamera ==> demo.camera.Valid()) && ProvisionOf(demo, videoFd, importCamera) == p
    ensures k.trace == start + BufferLogs(queries + [query], planeLogs + [logs])
    ensures ret == 0 ==>
              BuffersProgress(p, Views(pool), videoFd, bufType, memory, queries + [query], planeLogs + [logs])
    ensures ret != 0 ==>
              BuffersOutcome(p, Views(pool), videoFd, bufType, memory, queries + [query], planeLogs + [logs],
                             |queries|, ret)
  {
    var i := index;
    ghost var views := Views(pool);
    ret, query, logs := SetupPoolBuffer(demo, pool, videoFd, memory, bufType, i, importCamera, k);
    TraceStep(start, queries, planeLogs, query, logs);
    if ret != 0 {
      BuffersStop(p, views, videoFd, bufType, memory, queries, planeLogs, pool[i].View(), query, logs, ret);
    } else {
      BuffersStep(p, views, videoFd, bufType, memory, queries, planeLogs, pool[i].View(), query, logs);
    }
  }

  /**
   * The loop of demo_decoder_setup and demo_camera_setup over a requested
   * pool: set each buffer up with a single plane, in order, stopping at the
   * first failure.
   */
  method SetupBuffers(demo: Demo, pool: seq<Buffer>, videoFd: int, memory: int, bufType: int,
                      importCamera: bool, k: Kernel)
    returns (ret: int, ghost queries: seq<Event>, ghost planeLogs: seq<seq<seq<Event>>>, ghost ready: nat)
    requires PoolValid(pool)
    requires importCamera ==> demo.camera.Valid() && forall b | b in pool :: b !in demo.camera.captureBuffers
    modifies pool, k
    ensures PoolValid(pool) && (importCamera ==> demo.camera.Valid()) && ProvisionOf(demo, videoFd, importCamera).Valid()
    ensures |queries| == |planeLogs|
    ensures k.trace == old(k.trace) + BufferLogs(queries, planeLogs)
    ensures BuffersOutcome(ProvisionOf(demo, videoFd, importCamera), Views(pool), videoFd, bufType, memory,
                           queries, planeLogs, ready, ret)
  {
    ProvisionValid(demo, videoFd, importCamera);
    ghost var p := ProvisionOf(demo, videoFd, importCamera);
    queries, planeLogs, ready := [], [], 0;
    ghost var start := k.trace;
    var i := 0;
    while i < POOL_SIZE
      invariant i == |queries| == |planeLogs| && ready == i
      invariant PoolValid(pool) && (importCamera ==> demo.camera.Valid()) && ProvisionOf(demo, videoFd, importCamera) == p
      invariant k.trace == start + BufferLogs(queries, planeLogs)
      invariant BuffersProgress(p, Views(pool), videoFd, bufType, memory, queries, planeLogs)
    {
      ghost var query, logs;
      ret, query, logs := SetupBuffersTurn(demo, pool, videoFd, memory, bufType, importCamera, i, p, start,
                                           queries, planeLogs, k);
      queries, planeLogs := queries + [query], planeLogs + [logs];
      if ret != 0 {
        return;
      }
      i, ready := i + 1, i + 1;
    }
    BuffersDone(p, Views(pool), videoFd, bufType, memory, queries, planeLogs);
    ret := 0;
  }

  /**
   * What setting up a pool did: the VIDIOC_REQBUFS call, then per buffer its
   * plane query and the steps of its planes; `ready` buffers were set up.
   */
  datatype PoolRun = PoolRun(request: Event, queries: seq<Event>, planeLogs: seq<seq<seq<Event>>>, ready: nat)
  {
    /** The calls, in order. */
    function Log(): seq<Event>
      requires |queries| == |planeLogs|
    {
      [request] + BufferLogs(queries, planeLogs)
    }
  }

  /**
   * The outcome of setting up a pool whose buffers are now `views`: request
   * POOL_SIZE buffers, returning the error if that fails; then set each up
   * in order with a single plane, stopping at the first failure, whose code
   * is returned; 0 when all of them are ready.
   */
  ghost predicate PoolOutcome(p: Provision, views: seq<BufferView>, videoFd: int, memory: int, bufType: int,
                              run: PoolRun, ret: int)
    requires p.Valid()
  {
    run.request.op == BuffersRequest(videoFd, bufType, memory, POOL_SIZE) &&
    (run.request.ret != 0 ==> ret == run.request.ret && run.queries == [] && run.planeLogs == [] && run.ready == 0) &&
    (run.request.ret == 0 ==>
       BuffersOutcome(p, views, videoFd, bufType, memory, run.queries, run.planeLogs, run.ready, ret))
  }

  /**
   * The pool part of demo_decoder_setup and demo_camera_setup: request
   * POOL_SIZE buffers of the queue, then set them up.
   */
  method SetupPool(demo: Demo, pool: seq<Buffer>, videoFd: int, memory: int, bufType: int,
                   importCamera: bool, k: Kernel)
    returns (ret: int, ghost run: PoolRun)
    requires PoolValid(pool)
    requires importCamera ==> demo.camera.Valid() && forall b | b in pool :: b !in demo.camera.captureBuffers
    modifies pool, k
    ensures PoolValid(pool) && (importCamera ==> demo.camera.Valid()) && ProvisionOf(demo, videoFd, importCamera).Valid()
    ensures |run.queries| == |run.planeLogs|
    ensures PoolOutcome(ProvisionOf(demo, videoFd, importCamera), Views(pool), videoFd, memory, bufType, run, ret)
    ensures k.trace == old(k.trace) + run.Log()
  {
    ProvisionValid(demo, videoFd, importCamera);
    ret := k.Call(BuffersRequest(videoFd, bufType, memory, POOL_SIZE));
    var request := Event(BuffersRequest(videoFd, bufType, memory, POOL_SIZE), ret, NoOut);
    if ret != 0 {
      run := PoolRun(request, [], [], 0);
      return;
    }
    ghost var queries, planeLogs, ready;
    ret, queries, planeLogs, ready := SetupBuffers(demo, pool, videoFd, memory, bufType, importCamera, k);
    run := PoolRun(request, queries, planeLogs, ready);
    TraceAppend(old(k.trace), [request], BufferLogs(queries, planeLogs));
  }

  /** The calls demo_buffer_cleanup makes for the first `count` planes. */
  function CleanupEvents(planes: seq<Plane>, data: seq<Region>, fds: seq<int>, count: nat): seq<Event>
    requires count <= |planes| && count <= |data| && count <= |fds|
  {
    if count == 0 then []
    else
      var i := count - 1;
      CleanupEvents(planes, data, fds, i) +
      [Event(Munmap(data[i], planes[i].length), 0, NoOut)] +
      (if fds[i] >= 0 then [Event(Close(fds[i]), 0, NoOut)] else [])
  }

  /**
   * The cleanup calls unmap every used plane, close exactly the handles that
   * are not negative, and do nothing else.
   */
  lemma {:induction false} CleanupEventsOwned(planes: seq<Plane>, data: seq<Region>, fds: seq<int>, count: nat)
    requires count <= |planes| && count <= |data| && count <= |fds|
    ensures forall j | 0 <= j < count ::
              Event(Munmap(data[j], planes[j].length), 0, NoOut) in CleanupEvents(planes, data, fds, count)
    ensures forall j | 0 <= j < count && fds[j] >= 0 ::
              Event(Close(fds[j]), 0, NoOut) in CleanupEvents(planes, data, fds, count)
    ensures forall e | e in CleanupEvents(planes, data, fds, count) ::
              e.ret == 0 && e.out == NoOut &&
              ((e.op.Munmap? && exists j | 0 <= j < count :: e.op == Munmap(data[j], planes[j].length)) ||
               (e.op.Close? && exists j | 0 <= j < count :: fds[j] >= 0 && e.op == Close(fds[j])))
  {
    if count > 0 {
      CleanupEventsOwned(planes, data, fds, count - 1);
    }
  }

  /** The trace after the cleanup of one more plane. */
  lemma CleanupTrace(start: seq<Event>, planes: seq<Plane>, data: seq<Region>, fds: seq<int>, i: nat)
    requires i < |planes| && i < |data| && i < |fds|
    ensures start + CleanupEvents(planes, data, fds, i + 1) ==
            start + CleanupEvents(planes, data, fds, i) + [Event(Munmap(data[i], planes[i].length), 0, NoOut)] +
            (if fds[i] >= 0 then [Event(Close(fds[i]), 0, NoOut)] else [])
  {
  }

  /** A buffer as demo_buffer_cleanup leaves it. */
  function Cleaned(v: BufferView): (c: BufferView)
    requires v.Valid()
    ensures c.Valid()
  {
    v.(data := seq(MAX_PLANES, j requires 0 <= j < MAX_PLANES =>
                     if j < v.planesCount then Null else v.data[j]),
       dmaBufFd := seq(MAX_PLANES, j requires 0 <= j < MAX_PLANES =>
                         if j < v.planesCount && v.dmaBufFd[j] >= 0 then -1 else v.dmaBufFd[j]))
  }

  /**
   * After a cleanup no used plane holds a mapping or a share handle, and the
   * rest of the buffer is as it was; a second cleanup changes nothing more
   * and closes nothing, so no handle is ever closed twice.
   */
  lemma CleanedReleased(v: BufferView)
    requires v.Valid()
    ensures forall j | 0 <= j < v.planesCount :: Cleaned(v).data[j] == Null && Cleaned(v).dmaBufFd[j] < 0
    ensures forall j | v.planesCount <= j < MAX_PLANES ::
              Cleaned(v).data[j] == v.data[j] && Cleaned(v).dmaBufFd[j] == v.dmaBufFd[j]
    ensures Cleaned(v).planes == v.planes && Cleaned(v).planesCount == v.planesCount
    ensures Cleaned(Cleaned(v)) == Cleaned(v)
    ensures forall e | e in CleanupEvents(v.planes, Cleaned(v).data, Cleaned(v).dmaBufFd, v.planesCount) :: !e.op.Close?
  {
    var c := Cleaned(v);
    assert Cleaned(c).data == c.data;
    assert Cleaned(c).dmaBufFd == c.dmaBufFd;
    CleanupEventsOwned(v.planes, c.data, c.dmaBufFd, v.planesCount);
  }

  /**
   * demo_buffer_cleanup: unmap every used plane and forget its mapping,
   * close the share handles the buffer owns and mark them as gone.
   */
  method Cleanup(b: Buffer, k: Kernel)
    requires b.Valid()
    modifies b, k
    ensures b.Valid()
    ensures b.planes == old(b.planes) && b.planesCount == old(b.planesCount)
    ensures b.bufType == old(b.bufType) && b.memory == old(b.memory) && b.index == old(b.index)
    ensures forall j | 0 <= j < MAX_PLANES ::
              b.data[j] == (if j < b.planesCount then Null else old(b.data[j])) &&
              b.dmaBufFd[j] == (if j < b.planesCount && old(b.dmaBufFd[j]) >= 0 then -1 else old(b.dmaBufFd[j]))
    ensures k.trace == old(k.trace) + CleanupEvents(old(b.planes), old(b.data), old(b.dmaBufFd), b.planesCount)
    ensures b.View() == Cleaned(old(b.View()))
  {
    for i := 0 to b.planesCount
      invariant b.Valid()
      invariant b.planes == old(b.planes) && b.planesCount == old(b.planesCount)
      invariant b.bufType == old(b.bufType) && b.memory == old(b.memory) && b.index == old(b.index)
      invariant forall j | 0 <= j < MAX_PLANES ::
                  b.data[j] == (if j < i then Null else old(b.data[j])) &&
                  b.dmaBufFd[j] == (if j < i && old(b.dmaBufFd[j]) >= 0 then -1 else old(b.dmaBufFd[j]))
      invariant k.trace == old(k.trace) + CleanupEvents(old(b.planes), old(b.data), old(b.dmaBufFd), i)
    {
      CleanupTrace(old(k.trace), old(b.planes), old(b.data), old(b.dmaBufFd), i);
      k.Void(Munmap(b.data[i], b.planes[i].length));
      b.data := b.data[i := Null];
      if b.dmaBufFd[i] >= 0 {
        k.Void(Close(b.dmaBufFd[i]));
        b.dmaBufFd := b.dmaBufFd[i := -1];
      }
    }
  }

  /** The calls cleaning up the first `count` buffers of a pool, in order. */
  function PoolCleanupEvents(views: seq<BufferView>, count: nat): seq<Event>
    requires count <= |views| && ViewsValid(views)
  {
    if count == 0 then []
    else
      var v := views[count - 1];
      PoolCleanupEvents(views, count - 1) + CleanupEvents(v.planes, v.data, v.dmaBufFd, v.planesCount)
  }

  /** The trace after the cleanup of one more buffer. */
  lemma PoolCleanupTrace(start: seq<Event>, views: seq<BufferView>, i: nat)
    requires i < |views| && ViewsValid(views)
    ensures start + PoolCleanupEvents(views, i + 1) ==
            start + PoolCleanupEvents(views, i) +
            CleanupEvents(views[i].planes, views[i].data, views[i].dmaBufFd, views[i].planesCount)
  {
  }

  /**
   * The cleanup loops of demo_decoder_cleanup and demo_camera_cleanup: clean
   * the first `count` buffers of the pool up, in order, and leave the rest.
   */
  method CleanupPool(pool: seq<Buffer>, count: nat, k: Kernel)
    requires PoolValid(pool) && count <= POOL_SIZE
    modifies pool, k
    ensures PoolValid(pool) && ViewsValid(old(Views(pool)))
    ensures forall j | 0 <= j < POOL_SIZE ::
              pool[j].View() == if j < count then Cleaned(old(Views(pool))[j]) else old(Views(pool))[j]
    ensures k.trace == old(k.trace) + PoolCleanupEvents(old(Views(pool)), count)
  {
    ghost var before := Views(pool);
    PoolViewsValid(pool);
    for i := 0 to count
      invariant PoolValid(pool)
      invariant forall j | 0 <= j < POOL_SIZE ::
                  pool[j].View() == if j < i then Cleaned(before[j]) else before[j]
      invariant k.trace == old(k.trace) + PoolCleanupEvents(before, i)
    {
      PoolCleanupTrace(old(k.trace), before, i);
      CleanupPoolBuffer(pool, i, before, k);
    }
  }

  /** One round of the cleanup loop: buffer `i` goes from its old state to Cleaned. */
  method CleanupPoolBuffer(pool: seq<Buffer>, i: nat, ghost before: seq<BufferView>, k: Kernel)
    requires PoolValid(pool) && i < POOL_SIZE && |before| == POOL_SIZE && ViewsValid(before)
    requires forall j | 0 <= j < POOL_SIZE :: pool[j].View() == if j < i then Cleaned(before[j]) else before[j]
    modifies pool[i], k
    ensures PoolValid(pool)
    ensures forall j | 0 <= j < POOL_SIZE :: pool[j].View() == if j < i + 1 then Cleaned(before[j]) else before[j]
    ensures k.trace == old(k.trace) + CleanupEvents(before[i].planes, before[i].data, before[i].dmaBufFd, before[i].planesCount)
  {
    assert pool[i] in pool;
    Cleanup(pool[i], k);
    forall j | 0 <= j < POOL_SIZE && j != i
      ensures pool[j].View() == old(pool[j].View())
    {
      assert pool[j] != pool[i];
    }
  }

  /**
   * `after` is the pool `before` once its first `count` buffers are cleaned
   * up; the others are as they were.
   */
  ghost predicate PoolCleaned(before: seq<BufferView>, after: seq<BufferView>, count: nat)
  {
    |before| == |after| == POOL_SIZE && ViewsValid(before) &&
    forall j | 0 <= j < POOL_SIZE :: after[j] == if j < count then Cleaned(before[j]) else before[j]
  }

  /** The calls releasing a pool: its first `count` buffers cleaned up, then the queue's buffers destroyed. */
  function PoolReleaseEvents(views: seq<BufferView>, count: nat, videoFd: int, bufType: int, memory: int): seq<Event>
    requires count <= |views| && ViewsValid(views)
  {
    PoolCleanupEvents(views, count) + [Event(BuffersDestroy(videoFd, bufType, memory), 0, NoOut)]
  }

  /**
   * The pool half of demo_decoder_cleanup and demo_camera_cleanup: the
   * cleanup loop over the first `count` buffers, then v4l2_buffers_destroy
   * on the queue whatever the count.
   */
  method ReleasePool(pool: seq<Buffer>, count: nat, videoFd: int, bufType: int, memory: int, k: Kernel)
    requires PoolValid(pool) && count <= POOL_SIZE
    modifies pool, k
    ensures PoolValid(pool) && ViewsValid(old(Views(pool)))
    ensures PoolCleaned(old(Views(pool)), Views(pool), count)
    ensures k.trace == old(k.trace) + PoolReleaseEvents(old(Views(pool)), count, videoFd, bufType, memory)
  {
    CleanupPool(pool, count, k);
    k.Void(BuffersDestroy(videoFd, bufType, memory));
  }
}
