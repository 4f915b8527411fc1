/**
 * The records of demo.h: one buffer of a queue's pool, the decoder and the
 * camera devices, and the pipeline context that threads through every call.
 *
 * The fixed arrays embedded in the C structs (planes[4], data[4],
 * dma_buf_fd[4]) are fields of type seq that the operations reassign element
 * by element: like the C arrays, and unlike Dafny arrays, they cannot alias.
 * A pool (`struct demo_buffer buffers[3]`) is a constant sequence of distinct
 * Buffer objects, because the code hands out pointers into it.
 */
module State {
  import opened Kernel

  /* enum demo_allocator */
  const ALLOCATOR_V4L2 := 0
  const ALLOCATOR_DMA_HEAP := 1

  /**
   * The memory of a queue whose buffers the allocator provides: buffers the
   * device maps with the V4L2 allocator, dma-bufs with the dma-heap one.
   * None stands for -EINVAL, an unknown allocator.
   */
  function AllocatorMemory(allocator: int): (m: Option<int>)
    ensures m.Some? <==> allocator == ALLOCATOR_V4L2 || allocator == ALLOCATOR_DMA_HEAP
    ensures m.Some? ==> (m.value == MEMORY_MMAP <==> allocator == ALLOCATOR_V4L2)
    ensures m.Some? ==> m.value in {MEMORY_MMAP, MEMORY_DMABUF}
  {
    if allocator == ALLOCATOR_V4L2 then Some(MEMORY_MMAP)
    else if allocator == ALLOCATOR_DMA_HEAP then Some(MEMORY_DMABUF)
    else None
  }

  /* enum demo_source */
  const SOURCE_FILE := 0
  const SOURCE_CAMERA := 1

  /* sizes of the arrays in demo.h */
  const MAX_PLANES := 4
  const POOL_SIZE := 3

  /** struct v4l2_plane, reduced to what the demo reads or writes. */
  datatype Plane = Plane(length: nat, offset: nat, bytesUsed: nat, fd: int)

  /** The fields of a Buffer, as a value. */
  datatype BufferView = BufferView(bufType: int, memory: int, index: nat, planes: seq<Plane>,
                                   planesCount: nat, data: seq<Region>, dmaBufFd: seq<int>)
  {
    predicate Valid() {
      |planes| == MAX_PLANES && |data| == MAX_PLANES && |dmaBufFd| == MAX_PLANES &&
      planesCount <= MAX_PLANES
    }
  }

  /** struct demo_buffer (and the identical struct cedrus_demo_buffer). */
  class Buffer {
    /* struct v4l2_buffer */
    var bufType: int
    var memory: int
    var index: nat
    var planes: seq<Plane>
    var planesCount: nat

    var data: seq<Region>
    var dmaBufFd: seq<int>

    ghost predicate Valid()
      reads this
    {
      |planes| == MAX_PLANES && |data| == MAX_PLANES && |dmaBufFd| == MAX_PLANES &&
      planesCount <= MAX_PLANES
    }

    function View(): BufferView
      reads this
    {
      BufferView(bufType, memory, index, planes, planesCount, data, dmaBufFd)
    }

    /** A zero-initialised buffer, as in `struct demo demo = { 0 }`. */
    constructor ()
      ensures Valid() && planesCount == 0
      ensures forall i | 0 <= i < MAX_PLANES :: data[i] == Null && dmaBufFd[i] == 0
    {
      bufType, memory, index := 0, 0, 0;
      planes := seq(MAX_PLANES, _ => Plane(0, 0, 0, 0));
      planesCount := 0;
      data := seq(MAX_PLANES, _ => Null);
      dmaBufFd := seq(MAX_PLANES, _ => 0);
    }
  }

  ghost predicate Distinct(pool: seq<Buffer>) {
    forall i, j | 0 <= i < |pool| && 0 <= j < |pool| && i != j :: pool[i] != pool[j]
  }

  lemma DistinctConcat(a: seq<Buffer>, b: seq<Buffer>)
    requires Distinct(a) && Distinct(b)
    requires forall x | x in a :: x !in b
    ensures Distinct(a + b)
  {
    forall i, j | 0 <= i < |a + b| && 0 <= j < |a + b| && i != j
      ensures (a + b)[i] != (a + b)[j]
    {
      if i < |a| && j >= |a| {
        assert (a + b)[i] in a && (a + b)[j] == b[j - |a|];
      } else if j < |a| && i >= |a| {
        assert (a + b)[j] in a && (a + b)[i] == b[i - |a|];
      }
    }
  }

  ghost predicate PoolValid(pool: seq<Buffer>)
    reads pool
  {
    |pool| == POOL_SIZE && Distinct(pool) && forall b | b in pool :: b.Valid()
  }

  /** The state of every buffer of a pool, as values. */
  function Views(pool: seq<Buffer>): (views: seq<BufferView>)
    reads pool
    ensures |views| == |pool| && forall i | 0 <= i < |pool| :: views[i] == pool[i].View()
  {
    seq(|pool|, i requires 0 <= i < |pool| reads pool => pool[i].View())
  }

  predicate ViewsValid(views: seq<BufferView>) {
    forall j | 0 <= j < |views| :: views[j].Valid()
  }

  lemma PoolViewsValid(pool: seq<Buffer>)
    requires PoolValid(pool)
    ensures ViewsValid(Views(pool))
  {
    forall j | 0 <= j < |pool|
      ensures Views(pool)[j].Valid()
    {
      assert pool[j] in pool;
    }
  }

  /** The settings of one queue of a device: everything but its pool, count and cursor. */
  datatype QueueSettings = QueueSettings(memory: int, bufType: int, width: nat, height: nat,
                                         pixelFormat: nat, format: Format)

  /**
   * The size a JPEG image of the demo is assumed to fit in, width * height
   * * 3, computed in unsigned int and so modulo 2^32.
   */
  function JpegSizeHint(width: nat, height: nat): (size: nat)
    ensures size < UINT_MODULUS && (size - width * height * 3) % UINT_MODULUS == 0
    ensures width * height * 3 < UINT_MODULUS ==> size == width * height * 3
  {
    (width * height * 3) % UINT_MODULUS
  }

  /* ---- the cursor of a pool, as the cycle operations move it ---- */

  /** One cycle: the next index, wrapping around at the count. */
  function Next(index: nat, count: nat): nat
    requires count > 0
  {
    (index + 1) % count
  }

  /**
   * The cursor after `n` cycles from `index`, for up to a full round: `n`
   * places forward, wrapping once past the end of the pool.
   */
  function Advance(index: nat, count: nat, n: nat): (cursor: nat)
    requires index < count && n <= count
    ensures cursor < count
  {
    if index + n < count then index + n else index + n - count
  }

  /** Every cycle keeps the cursor inside the pool. */
  lemma NextInPool(index: nat, count: nat)
    requires count > 0
    ensures Next(index, count) < count
  {
  }

  /** Below twice the count, the remainder is at most one subtraction away. */
  lemma Wrap(x: nat, count: nat)
    requires 0 < count && x < 2 * count
    ensures x % count == if x < count then x else x - count
  {
    if x >= count {
      assert x == 1 * count + (x - count);
    }
  }

  /** One more cycle moves the cursor one more place: Advance is what repeated cycles compute. */
  lemma {:induction false} AdvanceNext(index: nat, count: nat, n: nat)
    requires index < count && n < count
    ensures Advance(index, count, 0) == index
    ensures Advance(index, count, n + 1) == Next(Advance(index, count, n), count)
  {
    Wrap(Advance(index, count, n) + 1, count);
  }

  /** How many cycles take the cursor from `index` to `j`. */
  function Distance(index: nat, j: nat, count: nat): (n: nat)
    requires index < count && j < count
    ensures n < count
  {
    if index <= j then j - index else j + count - index
  }

  /**
   * A full round of `count` cycles comes back to the start, and visits every
   * buffer of the pool exactly once on the way.
   */
  lemma CycleRound(index: nat, count: nat)
    requires index < count
    ensures Advance(index, count, count) == index
    ensures forall m, n | 0 <= m < n < count :: Advance(index, count, m) != Advance(index, count, n)
    ensures forall j | 0 <= j < count :: Advance(index, count, Distance(index, j, count)) == j
  {
  }

  method NewPool() returns (pool: seq<Buffer>)
    ensures PoolValid(pool) && fresh(pool)
    ensures forall b | b in pool :: b.planesCount == 0
  {
    var b0 := new Buffer();
    var b1 := new Buffer();
    var b2 := new Buffer();
    pool := [b0, b1, b2];
  }

  datatype DecoderSnapshot = DecoderSnapshot(videoFd: int, outputFormat: Format, captureFormat: Format,
                                             outputBuffersCount: nat, captureBuffersCount: nat,
                                             outputBufferIndex: nat, captureBufferIndex: nat)

  /** struct demo_decoder */
  class Decoder {
    var videoFd: int

    var outputMemory: int
    var outputType: int
    var outputWidth: nat
    var outputHeight: nat
    var outputPixelFormat: nat
    var outputFormat: Format
    const outputBuffers: seq<Buffer>
    var outputBuffersCount: nat
    var outputBufferIndex: nat

    var captureMemory: int
    var captureType: int
    var captureWidth: nat
    var captureHeight: nat
    var capturePixelFormat: nat
    var captureFormat: Format
    const captureBuffers: seq<Buffer>
    var captureBuffersCount: nat
    var captureBufferIndex: nat

    /**
     * Each cursor indexes its pool, and a pool's count is either 0 (not set
     * up yet) or the size of the pool.
     */
    ghost predicate Valid()
      reads this, outputBuffers, captureBuffers
    {
      PoolValid(outputBuffers) && PoolValid(captureBuffers) &&
      outputBuffersCount in {0, POOL_SIZE} && captureBuffersCount in {0, POOL_SIZE} &&
      outputBufferIndex < POOL_SIZE && captureBufferIndex < POOL_SIZE
    }

    function Output(): QueueSettings
      reads this
    {
      QueueSettings(outputMemory, outputType, outputWidth, outputHeight, outputPixelFormat, outputFormat)
    }

    function Capture(): QueueSettings
      reads this
    {
      QueueSettings(captureMemory, captureType, captureWidth, captureHeight, capturePixelFormat, captureFormat)
    }

    /** The fields besides the settings: the fd, the formats held, the counts and the cursors. */
    function Snapshot(): DecoderSnapshot
      reads this
    {
      DecoderSnapshot(videoFd, outputFormat, captureFormat, outputBuffersCount, captureBuffersCount,
                      outputBufferIndex, captureBufferIndex)
    }

    constructor ()
      ensures Valid() && fresh(outputBuffers) && fresh(captureBuffers)
      ensures forall b | b in outputBuffers :: b !in captureBuffers
      ensures videoFd == -1
      ensures outputBuffersCount == 0 && captureBuffersCount == 0
      ensures outputBufferIndex == 0 && captureBufferIndex == 0
    {
      var o := NewPool();
      var c := NewPool();
      outputBuffers, captureBuffers := o, c;
      videoFd := -1;
      outputMemory, outputType, outputWidth, outputHeight, outputPixelFormat := 0, 0, 0, 0, 0;
      captureMemory, captureType, captureWidth, captureHeight, capturePixelFormat := 0, 0, 0, 0, 0;
      outputFormat, captureFormat := Format(0, 0, 0, 0, 0), Format(0, 0, 0, 0, 0);
      outputBuffersCount, outputBufferIndex := 0, 0;
      captureBuffersCount, captureBufferIndex := 0, 0;
    }
  }

  /** struct demo_camera */
  class Camera {
    var videoFd: int

    var captureMemory: int
    var captureType: int
    var captureWidth: nat
    var captureHeight: nat
    var capturePixelFormat: nat
    var captureFormat: Format
    const captureBuffers: seq<Buffer>
    var captureBuffersCount: nat
    var captureBufferIndex: nat

    ghost predicate Valid()
      reads this, captureBuffers
    {
      PoolValid(captureBuffers) &&
      captureBuffersCount in {0, POOL_SIZE} && captureBufferIndex < POOL_SIZE
    }

    function Capture(): QueueSettings
      reads this
    {
      QueueSettings(captureMemory, captureType, captureWidth, captureHeight, capturePixelFormat, captureFormat)
    }

    constructor ()
      ensures Valid() && fresh(captureBuffers)
      ensures videoFd == -1 && captureBuffersCount == 0 && captureBufferIndex == 0
    {
      var c := NewPool();
      captureBuffers := c;
      videoFd := -1;
      captureMemory, captureType, captureWidth, captureHeight, capturePixelFormat := 0, 0, 0, 0, 0;
      captureFormat := Format(0, 0, 0, 0, 0);
      captureBuffersCount, captureBufferIndex := 0, 0;
    }
  }

  /** struct demo: the pipeline context. */
  class Demo {
    var source: int
    var allocator: int
    var dmaHeapFd: int
    var width: nat
    var height: nat
    const decoder: Decoder
    const camera: Camera

    /** Every buffer of the three pools, decoder output first. */
    ghost function Buffers(): seq<Buffer>
      reads this
    {
      decoder.outputBuffers + decoder.captureBuffers + camera.captureBuffers
    }

    ghost function Repr(): set<object>
      reads this
    {
      {this, decoder, camera} + set b | b in Buffers()
    }

    ghost predicate Valid()
      reads this, decoder, camera, decoder.outputBuffers, decoder.captureBuffers, camera.captureBuffers
    {
      decoder.Valid() && camera.Valid() && Distinct(Buffers()) &&
      width < UINT_MODULUS && height < UINT_MODULUS
    }

    /** A decoder output buffer is never a camera buffer. */
    lemma OutputNotCamera(i: nat, j: nat)
      requires Valid() && i < POOL_SIZE && j < POOL_SIZE
      ensures decoder.outputBuffers[i] != camera.captureBuffers[j]
    {
      assert Buffers()[i] == decoder.outputBuffers[i];
      assert Buffers()[2 * POOL_SIZE + j] == camera.captureBuffers[j];
    }

    /** The three pools share no buffer. */
    lemma PoolsDisjoint()
      requires Valid()
      ensures forall b | b in decoder.outputBuffers :: b !in decoder.captureBuffers && b !in camera.captureBuffers
      ensures forall b | b in decoder.captureBuffers :: b !in camera.captureBuffers
    {
      var all := Buffers();
      var o, c, m := decoder.outputBuffers, decoder.captureBuffers, camera.captureBuffers;
      assert |o| == |c| == |m| == POOL_SIZE;
      forall i, j | 0 <= i < POOL_SIZE && 0 <= j < POOL_SIZE
        ensures o[i] != c[j] && o[i] != m[j] && c[i] != m[j]
      {
        assert all[i] == o[i] && all[POOL_SIZE + j] == c[j] && all[2 * POOL_SIZE + j] == m[j];
        assert all[POOL_SIZE + i] == c[i];
      }
    }

    /**
     * `struct demo demo = { 0 }` once demo_open has marked both video fds
     * as not open.
     */
    constructor ()
      ensures Valid() && fresh(Repr())
      ensures source == SOURCE_FILE && allocator == ALLOCATOR_V4L2 && dmaHeapFd == 0
      ensures width == 0 && height == 0
      ensures decoder.videoFd == -1 && camera.videoFd == -1
      ensures decoder.outputBuffersCount == 0 && decoder.captureBuffersCount == 0
      ensures camera.captureBuffersCount == 0
    {
      source, allocator, width, height := SOURCE_FILE, ALLOCATOR_V4L2, 0, 0;
      dmaHeapFd := 0;
      var d := new Decoder();
      var c := new Camera();
      DistinctConcat(d.outputBuffers, d.captureBuffers);
      DistinctConcat(d.outputBuffers + d.captureBuffers, c.captureBuffers);
      decoder, camera := d, c;
    }
  }
}
