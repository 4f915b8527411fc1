/**
 * The kernel, libc and libudev services the demo calls, seen as an oracle.
 *
 * Every call the C code makes into the kernel (V4L2 ioctls, mmap, poll,
 * dma-buf and dma-heap ioctls, open/close/dup, calloc/free, udev lookups)
 * is one method of class Kernel.  Its answer is arbitrary, with one
 * exception (DequeueQueued, whose index is one of the buffers queued), and
 * the call, together with its answer, is appended to the ghost trace.
 * Everything the demo promises is then stated about the trace it leaves
 * and about the state it updates.
 */
module Kernel {

  /* errno values (asm-generic/errno-base.h, errno.h); the code returns them negated */
  const ENOMEM := 12
  const ENODEV := 19
  const EINVAL := 22
  const ETIMEDOUT := 110

  /* enum v4l2_buf_type */
  const BUF_TYPE_VIDEO_CAPTURE := 1
  const BUF_TYPE_VIDEO_OUTPUT := 2
  const BUF_TYPE_VIDEO_CAPTURE_MPLANE := 9
  const BUF_TYPE_VIDEO_OUTPUT_MPLANE := 10

  /* enum v4l2_memory */
  const MEMORY_MMAP := 1
  const MEMORY_DMABUF := 4

  /* V4L2 pixel formats: v4l2_fourcc(a, b, c, d) = a | b << 8 | c << 16 | d << 24 */
  const PIX_FMT_JPEG := 0x4745_504A   // 'JPEG'
  const PIX_FMT_MJPEG := 0x4750_4A4D  // 'MJPG'
  const PIX_FMT_NV16 := 0x3631_564E   // 'NV16'

  /* V4L2_CAP_VIDEO_CAPTURE */
  const CAP_VIDEO_CAPTURE: bv32 := 0x0000_0001

  /* struct dma_buf_sync flags (linux/dma-buf.h); START is the zero flag */
  type SyncFlags = bv64
  const DMA_BUF_SYNC_READ: SyncFlags := 1
  const DMA_BUF_SYNC_WRITE: SyncFlags := 2
  const DMA_BUF_SYNC_START: SyncFlags := 0
  const DMA_BUF_SYNC_END: SyncFlags := 4

  /* media-controller constants (linux/media.h) */
  const MEDIA_ENT_F_PROC_VIDEO_DECODER := 0x0000_4008
  const MEDIA_ENT_F_CAM_SENSOR := 0x0002_0001
  const MEDIA_INTF_T_V4L_VIDEO := 0x0000_0200
  const MEDIA_PAD_FL_SINK: bv32 := 1
  const MEDIA_PAD_FL_SOURCE: bv32 := 2

  /* unsigned int of the C code */
  const UINT_MODULUS := 0x1_0000_0000

  /** v4l2_type_base: the single-planar type a multi-planar type stands for. */
  function TypeBase(bufType: int): (base: int)
    ensures base == BUF_TYPE_VIDEO_CAPTURE <==>
              bufType in {BUF_TYPE_VIDEO_CAPTURE, BUF_TYPE_VIDEO_CAPTURE_MPLANE}
    ensures base == BUF_TYPE_VIDEO_OUTPUT <==>
              bufType in {BUF_TYPE_VIDEO_OUTPUT, BUF_TYPE_VIDEO_OUTPUT_MPLANE}
  {
    if bufType == BUF_TYPE_VIDEO_CAPTURE_MPLANE then BUF_TYPE_VIDEO_CAPTURE
    else if bufType == BUF_TYPE_VIDEO_OUTPUT_MPLANE then BUF_TYPE_VIDEO_OUTPUT
    else bufType
  }

  /** v4l2_type_mplane_check */
  predicate TypeIsMplane(bufType: int) {
    bufType == BUF_TYPE_VIDEO_CAPTURE_MPLANE || bufType == BUF_TYPE_VIDEO_OUTPUT_MPLANE
  }

  datatype Option<T> = None | Some(value: T)

  /** A `void *` the code maps memory to: NULL, or a mapping the kernel handed out. */
  datatype Region = Null | Region(token: nat)

  /* struct v4l2_format, reduced to the fields the demo sets */
  datatype Format = Format(bufType: int, width: nat, height: nat, pixelFormat: nat, sizeImage: nat)

  /* What VIDIOC_QUERYBUF reports for one plane */
  datatype PlaneInfo = PlaneInfo(length: nat, offset: nat)

  /* The records of a media_v2_topology */
  datatype Entity = Entity(id: nat, role: nat)
  datatype Pad = Pad(id: nat, entityId: nat, flags: bv32)
  datatype Link = Link(id: nat, sourceId: nat, sinkId: nat, flags: bv32)
  datatype Interface = Interface(id: nat, intfType: nat, major: nat, minor: nat)
  datatype Topology = Topology(interfaces: seq<Interface>, entities: seq<Entity>,
                               pads: seq<Pad>, links: seq<Link>)

  /* The four graph arrays the resolver allocates between the two topology queries */
  datatype GraphArray = Interfaces | Entities | Pads | Links

  /** A call of the media-controller resolver: its ioctls, allocations and udev lookups. */
  datatype MediaCall =
    | DeviceInfo(fd: int)
    | TopologyGet(fd: int, filled: bool)
    | Calloc(kind: GraphArray, count: nat)
    | Free(kind: GraphArray)
    | DeviceNew(major: nat, minor: nat)
    | DevnodeGet(major: nat, minor: nat)
    | DeviceUnref(major: nat, minor: nat)
    | CapabilitiesProbe(fd: int)

  /** What one of those calls wrote back. */
  datatype MediaAnswer =
    | Counts(interfaces: nat, entities: nat, pads: nat, links: nat)
    | Graph(topology: Topology)
    | Caps(caps: bv32)
    | Device(found: bool)
    | Devnode(path: Option<string>)

  /** One call into the kernel, libc or libudev, with the arguments that matter. */
  datatype Op =
    | Media(call: MediaCall)
    | Open(path: Option<string>)
    | Close(fd: int)
    | PixelFormatCheck(fd: int, bufType: int, pixelFormat: nat)
    | FormatTry(fd: int, format: Format)
    | FormatSet(fd: int, format: Format)
    | BuffersRequest(fd: int, bufType: int, memory: int, count: nat)
    | BuffersDestroy(fd: int, bufType: int, memory: int)
    | BufferQuery(fd: int, bufType: int, memory: int, index: nat, planesCount: nat)
    | Mmap(length: nat, fd: int, offset: nat)
    | Munmap(region: Region, length: nat)
    | HeapOpen(name: string)
    | HeapAlloc(heapFd: int, length: nat)
    | BufferExport(fd: int, bufType: int, index: nat, plane: nat)
    | Dup(fd: int)
    | Queue(fd: int, bufType: int, index: nat)
    | Dequeue(fd: int, bufType: int, memory: int)
    | StreamOn(fd: int, bufType: int)
    | StreamOff(fd: int, bufType: int)
    | Poll(fd: int, timeoutUs: nat)
    | Sync(fd: int, flags: SyncFlags)

  /** What the kernel wrote back through the call's arguments. */
  datatype Out =
    | NoOut
    | MediaOut(answer: MediaAnswer)
    | Index(index: nat)
    | Planes(planes: seq<PlaneInfo>)
    | Mapping(token: nat)
    | Exported(fd: int)
    | Negotiated(format: Format)

  datatype Event = Event(op: Op, ret: int, out: Out)

  /** Whether a call answered as the calling code hopes. */
  predicate Succeeded(e: Event) {
    match e.op
    case Poll(_, _) => e.ret > 0
    case Open(_) => e.ret >= 0
    case HeapOpen(_) => e.ret >= 0
    case HeapAlloc(_, _) => e.ret >= 0
    case Dup(_) => e.ret >= 0
    case PixelFormatCheck(_, _, _) => e.ret != 0
    case Media(DeviceNew(_, _)) => e.out.MediaOut? && e.out.answer.Device? && e.out.answer.found
    case _ => e.ret == 0
  }

  function Ops(t: seq<Event>): (ops: seq<Op>)
    ensures |ops| == |t| && forall i | 0 <= i < |t| :: ops[i] == t[i].op
  {
    if t == [] then [] else Ops(t[..|t| - 1]) + [t[|t| - 1].op]
  }

  /**
   * The error a demo returns for a poll that did not report the device
   * ready: a timeout (0) becomes -ETIMEDOUT, an error is passed on.
   */
  function PollFailure(ret: int): (err: int)
    requires ret <= 0
    ensures err < 0
    ensures ret == 0 ==> err == -ETIMEDOUT
    ensures ret < 0 ==> err == ret
  {
    if ret == 0 then -ETIMEDOUT else ret
  }

  /** The events of several consecutive steps, in order. */
  function Concat(logs: seq<seq<Event>>): seq<Event> {
    if logs == [] then [] else Concat(logs[..|logs| - 1]) + logs[|logs| - 1]
  }

  lemma ConcatSnoc(logs: seq<seq<Event>>, log: seq<Event>)
    ensures Concat(logs + [log]) == Concat(logs) + log
  {
    assert (logs + [log])[..|logs|] == logs;
  }

  /** A prefix one longer is the prefix and the next element. */
  lemma TakeSnoc<T>(s: seq<T>, i: nat)
    requires i < |s|
    ensures s[..i + 1] == s[..i] + [s[i]]
  {
  }

  /** The prefix as long as the sequence is the sequence. */
  lemma TakeAll<T>(s: seq<T>)
    ensures s[..|s|] == s
  {
  }

  /** A sequence is its prefix followed by the rest. */
  lemma TakeDrop<T>(s: seq<T>, i: nat)
    requires i <= |s|
    ensures s[..i] + s[i..] == s
  {
  }

  /** A trace that grew by the calls of `a`, and then by those of `b`. */
  lemma TraceAppend(start: seq<Event>, a: seq<Event>, b: seq<Event>)
    ensures start + a + b == start + (a + b)
  {
  }

  /** A trace that grew by the logs of some steps, and then by one more step. */
  lemma TraceSnoc(start: seq<Event>, logs: seq<seq<Event>>, log: seq<Event>)
    ensures start + Concat(logs) + log == start + Concat(logs + [log])
  {
    ConcatSnoc(logs, log);
  }

  /**
   * `t` is what a fail-fast sequence of calls `plan` left: the calls of a
   * prefix of the plan, in order, every one but the last successful, and it
   * stops early only at a failure.
   */
  ghost predicate FailFast(t: seq<Event>, plan: seq<Op>) {
    |t| <= |plan| &&
    (forall i | 0 <= i < |t| :: t[i].op == plan[i]) &&
    (forall i | 0 <= i < |t| - 1 :: Succeeded(t[i])) &&
    (|t| < |plan| ==> |t| > 0 && !Succeeded(t[|t| - 1]))
  }

  /** Every call of `plan` was issued and succeeded. */
  ghost predicate Completed(t: seq<Event>, plan: seq<Op>) {
    |t| == |plan| &&
    (forall i | 0 <= i < |t| :: t[i].op == plan[i] && Succeeded(t[i]))
  }

  /** The kernel, libc and libudev, as seen from the demo. */
  class Kernel {
    ghost var trace: seq<Event>

    constructor ()
      ensures trace == []
    {
      trace := [];
    }

    /** A call whose only answer is its return value (a status or a new fd). */
    method Call(op: Op) returns (ret: int)
      modifies this
      ensures trace == old(trace) + [Event(op, ret, NoOut)]
    {
      ret := *;
      trace := trace + [Event(op, ret, NoOut)];
    }

    /** A call whose result the code does not look at (close, free, munmap, REQBUFS 0). */
    method Void(op: Op)
      modifies this
      ensures trace == old(trace) + [Event(op, 0, NoOut)]
    {
      trace := trace + [Event(op, 0, NoOut)];
    }

    /** VIDIOC_DQBUF: any code, and any index. */
    method Dequeue(fd: int, bufType: int, memory: int) returns (ret: int, index: nat)
      modifies this
      ensures trace == old(trace) + [Event(Op.Dequeue(fd, bufType, memory), ret, Index(index))]
    {
      ret, index := *, *;
      trace := trace + [Event(Op.Dequeue(fd, bufType, memory), ret, Index(index))];
    }

    /**
     * VIDIOC_DQBUF on a queue that holds only buffers of index below
     * `queued`: V4L2 hands back only a buffer that was queued, so the index
     * answered is one of them, whatever the code.  This is the one answer
     * of the kernel the model restricts; the camera's round loop, which
     * uses the index unchecked, relies on it.
     */
    method DequeueQueued(fd: int, bufType: int, memory: int, queued: nat) returns (ret: int, index: nat)
      requires queued > 0
      modifies this
      ensures index < queued
      ensures trace == old(trace) + [Event(Op.Dequeue(fd, bufType, memory), ret, Index(index))]
    {
      ret := *;
      index :| index < queued;
      trace := trace + [Event(Op.Dequeue(fd, bufType, memory), ret, Index(index))];
    }

    /** VIDIOC_QUERYBUF: the length and offset of each of the buffer's planes. */
    method BufferQuery(fd: int, bufType: int, memory: int, index: nat, planesCount: nat)
      returns (ret: int, planes: seq<PlaneInfo>)
      modifies this
      ensures |planes| == planesCount
      ensures trace == old(trace) + [Event(Op.BufferQuery(fd, bufType, memory, index, planesCount), ret, Planes(planes))]
    {
      ret, planes := *, *;
      if |planes| != planesCount {
        planes := seq(planesCount, _ => PlaneInfo(0, 0));
      }
      trace := trace + [Event(Op.BufferQuery(fd, bufType, memory, index, planesCount), ret, Planes(planes))];
    }

    /** MEDIA_IOC_G_TOPOLOGY without arrays: the four record counts. */
    method TopologyCounts(fd: int) returns (ret: int, interfaces: nat, entities: nat, pads: nat, links: nat)
      modifies this
      ensures trace == old(trace) + [Event(Media(TopologyGet(fd, false)), ret, MediaOut(Counts(interfaces, entities, pads, links)))]
    {
      ret, interfaces, entities, pads, links := *, *, *, *, *;
      trace := trace + [Event(Media(TopologyGet(fd, false)), ret, MediaOut(Counts(interfaces, entities, pads, links)))];
    }

    /** MEDIA_IOC_G_TOPOLOGY into allocated arrays: the records themselves. */
    method TopologyFill(fd: int) returns (ret: int, topology: Topology)
      modifies this
      ensures trace == old(trace) + [Event(Media(TopologyGet(fd, true)), ret, MediaOut(Graph(topology)))]
    {
      ret, topology := *, *;
      trace := trace + [Event(Media(TopologyGet(fd, true)), ret, MediaOut(Graph(topology)))];
    }

    /** VIDIOC_QUERYCAP through v4l2_capabilities_probe. */
    method CapabilitiesProbe(fd: int) returns (ret: int, caps: bv32)
      modifies this
      ensures trace == old(trace) + [Event(Media(MediaCall.CapabilitiesProbe(fd)), ret, MediaOut(Caps(caps)))]
    {
      ret, caps := *, *;
      trace := trace + [Event(Media(MediaCall.CapabilitiesProbe(fd)), ret, MediaOut(Caps(caps)))];
    }

    /** udev_device_new_from_devnum for the character device `major:minor`: whether there is one. */
    method DeviceNew(major: nat, minor: nat) returns (found: bool)
      modifies this
      ensures trace == old(trace) + [Event(Media(MediaCall.DeviceNew(major, minor)), 0, MediaOut(Device(found)))]
    {
      found := *;
      trace := trace + [Event(Media(MediaCall.DeviceNew(major, minor)), 0, MediaOut(Device(found)))];
    }

    /** udev_device_get_devnode of that device: its node's path, or NULL. */
    method DevnodeGet(major: nat, minor: nat) returns (path: Option<string>)
      modifies this
      ensures trace == old(trace) + [Event(Media(MediaCall.DevnodeGet(major, minor)), 0, MediaOut(Devnode(path)))]
    {
      path := *;
      trace := trace + [Event(Media(MediaCall.DevnodeGet(major, minor)), 0, MediaOut(Devnode(path)))];
    }

    /** mmap: `ret != 0` stands for MAP_FAILED, otherwise `token` names the mapping. */
    method Mmap(length: nat, fd: int, offset: nat) returns (ret: int, token: nat)
      modifies this
      ensures trace == old(trace) + [Event(Op.Mmap(length, fd, offset), ret, Mapping(token))]
    {
      ret, token := *, *;
      trace := trace + [Event(Op.Mmap(length, fd, offset), ret, Mapping(token))];
    }

    /** VIDIOC_EXPBUF for one plane: a dma-buf fd borrowed from the exporter. */
    method BufferExport(fd: int, bufType: int, index: nat, plane: nat) returns (ret: int, exported: int)
      modifies this
      ensures trace == old(trace) + [Event(Op.BufferExport(fd, bufType, index, plane), ret, Exported(exported))]
    {
      ret, exported := *, *;
      trace := trace + [Event(Op.BufferExport(fd, bufType, index, plane), ret, Exported(exported))];
    }

    /** v4l2_pixel_format_check over VIDIOC_ENUM_FMT. */
    method PixelFormatCheck(fd: int, bufType: int, pixelFormat: nat) returns (supported: bool)
      modifies this
      ensures trace == old(trace) + [Event(Op.PixelFormatCheck(fd, bufType, pixelFormat), if supported then 1 else 0, NoOut)]
    {
      supported := *;
      trace := trace + [Event(Op.PixelFormatCheck(fd, bufType, pixelFormat), if supported then 1 else 0, NoOut)];
    }

    /** VIDIOC_TRY_FMT (`commit` false) or VIDIOC_S_FMT: the format as the driver adjusted it. */
    method Negotiate(fd: int, format: Format, commit: bool) returns (ret: int, adjusted: Format)
      modifies this
      ensures trace == old(trace) +
                [Event(if commit then FormatSet(fd, format) else FormatTry(fd, format), ret, Negotiated(adjusted))]
    {
      ret, adjusted := *, *;
      trace := trace + [Event(if commit then FormatSet(fd, format) else FormatTry(fd, format), ret, Negotiated(adjusted))];
    }
  }
}
