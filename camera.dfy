/**
 * demo_camera.c: the cursor of the camera's pool, the roll that runs the
 * camera until its exposure has settled, and the setup and cleanup of its
 * capture (MJPEG) queue.
 */
module DemoCamera {
  import opened Kernel
  import opened State
  import opened DemoBuffer
  import opened Calls

  /** How long, in microseconds, the roll waits for each frame. */
  const ROLL_TIMEOUT_US := 4000000

  /** The flags the roll syncs every buffer with, for the CPU writes of a UVC camera. */
  const ROLL_SYNC_FLAGS: SyncFlags := DMA_BUF_SYNC_WRITE | DMA_BUF_SYNC_END

  /* ---- demo_camera_buffer_current / demo_camera_buffer_cycle ---- */

  /** demo_camera_buffer_current: the buffer under the cursor, one of the pool's. */
  function Current(c: Camera): (b: Buffer)
    requires c.Valid()
    reads c, c.captureBuffers
    ensures b in c.captureBuffers
    ensures b == c.captureBuffers[c.captureBufferIndex]
  {
    c.captureBuffers[c.captureBufferIndex]
  }

  /**
   * demo_camera_buffer_cycle: move the cursor to the next buffer, wrapping
   * at the count, which must not be 0 as the code divides by it.
   */
  method Cycle(c: Camera)
    requires c.Valid() && c.captureBuffersCount > 0
    modifies c`captureBufferIndex
    ensures c.Valid()
    ensures c.captureBufferIndex == Next(old(c.captureBufferIndex), c.captureBuffersCount)
  {
    c.captureBufferIndex := (c.captureBufferIndex + 1) % c.captureBuffersCount;
  }

  /* ---- demo_camera_roll ---- */

  /**
   * The queue calls of the roll: one per buffer of the count, each for the
   * buffer under the cursor, which moves on after each queue.
   */
  function QueuePlan(views: seq<BufferView>, fd: int, start: nat, count: nat): (plan: seq<Op>)
    requires count <= |views| && (count > 0 ==> start < count)
    ensures |plan| == count
  {
    if count == 0 then []
    else
      seq(count, i requires 0 <= i < count =>
            var v := views[Advance(start, count, i)];
            Queue(fd, v.bufType, v.index))
  }

  /**
   * The calls of one round of the roll: the buffer dequeued in the round
   * before is queued again, if there was one, then a wait for a frame and a
   * dequeue.
   */
  function RoundPlan(fd: int, bufType: int, memory: int, next: Option<BufferView>): (plan: seq<Op>)
    ensures |plan| == if next.Some? then 3 else 2
    ensures plan[|plan| - 2..] == [Poll(fd, ROLL_TIMEOUT_US), Op.Dequeue(fd, bufType, memory)]
  {
    (if next.Some? then [Queue(fd, next.value.bufType, next.value.index)] else []) +
    [Poll(fd, ROLL_TIMEOUT_US), Op.Dequeue(fd, bufType, memory)]
  }

  /** The index the last call of `log` dequeued, -1 when it is not a dequeue that answered one. */
  function Dequeued(log: seq<Event>): int {
    if |log| > 0 && log[|log| - 1].op.Dequeue? && log[|log| - 1].out.Index? then log[|log| - 1].out.index
    else -1
  }

  /** The buffer round `r` queues again: none in round 0, otherwise the one round r - 1 dequeued. */
  ghost function Requeued(views: seq<BufferView>, rounds: seq<seq<Event>>, r: nat): Option<BufferView>
    requires r < |rounds|
  {
    if r == 0 || !(0 <= Dequeued(rounds[r - 1]) < |views|) then None
    else Some(views[Dequeued(rounds[r - 1])])
  }

  /**
   * The rounds so far: each one ran its plan, the last with code `ret` and
   * all the others successfully, and every successful round dequeued a
   * buffer of the pool.
   */
  ghost predicate RoundsRan(views: seq<BufferView>, fd: int, bufType: int, memory: int,
                            rounds: seq<seq<Event>>, ret: int)
  {
    forall r | 0 <= r < |rounds| :: RoundRan(views, fd, bufType, memory, rounds, r, ret)
  }

  /**
   * Round `r` ran its plan, after a round that dequeued a buffer of the
   * pool; it succeeded unless it is the last, which ended with `ret`.
   */
  ghost predicate RoundRan(views: seq<BufferView>, fd: int, bufType: int, memory: int,
                           rounds: seq<seq<Event>>, r: nat, ret: int)
    requires r < |rounds|
  {
    (r > 0 ==> 0 <= Dequeued(rounds[r - 1]) < |views|) &&
    Ran(rounds[r], RoundPlan(fd, bufType, memory, Requeued(views, rounds, r)), if r == |rounds| - 1 then ret else 0)
  }

  /**
   * The loop of the roll over `total` rounds: it stops at the first round
   * that fails, with its code, and returns 0 only once all of them ran.
   */
  ghost predicate RoundsOutcome(views: seq<BufferView>, fd: int, bufType: int, memory: int, total: nat,
                                rounds: seq<seq<Event>>, ret: int)
  {
    RoundsRan(views, fd, bufType, memory, rounds, ret) &&
    (ret == 0 ==> |rounds| == total) &&
    (ret != 0 ==> 0 < |rounds| <= total)
  }

  /**
   * The buffer a sync reached, `v`, answered `log` and `ret`: nothing when
   * plane 0 has no share handle, otherwise a fail-fast sync of every used
   * plane.
   */
  ghost predicate Synced(v: BufferView, flags: SyncFlags, log: seq<Event>, ret: int) {
    v.Valid() &&
    (v.dmaBufFd[0] < 0 ==> ret == 0 && log == []) &&
    (v.dmaBufFd[0] >= 0 ==>
       var plan := SyncPlan(v.dmaBufFd, v.planesCount, flags);
       FailFast(log, plan) && (ret == 0 <==> Completed(log, plan)) &&
       (ret != 0 ==> ret == log[|log| - 1].ret))
  }

  /** The sync loop of the roll: the first `count` buffers in order, up to the first failure. */
  ghost predicate SyncsOutcome(views: seq<BufferView>, count: nat, syncs: seq<seq<Event>>, ret: int) {
    count <= |views| && |syncs| <= count &&
    (ret == 0 ==> |syncs| == count) &&
    (ret != 0 ==> |syncs| > 0) &&
    forall j | 0 <= j < |syncs| :: Synced(views[j], ROLL_SYNC_FLAGS, syncs[j], if j == |syncs| - 1 then ret else 0)
  }

  /** What a roll did, phase by phase, with the code each phase ended with. */
  datatype RollRun = RollRun(queues: seq<Event>, queueRet: int, stream: StreamRun)
  {
    function Log(): seq<Event> {
      queues + stream.Log()
    }
  }

  /** What the roll did once the pool was queued: stream on, then capture. */
  datatype StreamRun = StreamRun(streamOn: seq<Event>, streamOnRet: int, capture: CaptureRun)
  {
    function Log(): seq<Event> {
      streamOn + capture.Log()
    }
  }

  /** What the roll did once streaming: the rounds, then the finish. */
  datatype CaptureRun = CaptureRun(rounds: seq<seq<Event>>, roundsRet: int, finish: FinishRun)
  {
    function Log(): seq<Event> {
      Concat(rounds) + finish.Log()
    }
  }

  /** What the roll did once the rounds were over: stream off, then sync. */
  datatype FinishRun = FinishRun(streamOff: seq<Event>, streamOffRet: int, syncs: seq<seq<Event>>)
  {
    function Log(): seq<Event> {
      streamOff + Concat(syncs)
    }
  }

  /**
   * The outcome of a roll of the pool `views` with `count` buffers and the
   * cursor at `start`: queue every buffer, then stream; the stream phases
   * run only if the queue phase succeeded, and `ret` is the code of the
   * phase that failed, or 0.  `cursor` is where the cursor ends.
   */
  ghost predicate RollOutcome(views: seq<BufferView>, fd: int, bufType: int, memory: int, count: nat, start: nat,
                              run: RollRun, ret: int, cursor: nat)
  {
    QueueOutcome(views, fd, start, count, run.queues, run.queueRet, cursor) &&
    (run.queueRet != 0 ==> ret == run.queueRet && run.stream.Log() == []) &&
    (run.queueRet == 0 ==> StreamOutcome(views, fd, bufType, memory, count, run.stream, ret))
  }

  /** Stream on, and capture only if that succeeded. */
  ghost predicate StreamOutcome(views: seq<BufferView>, fd: int, bufType: int, memory: int, count: nat,
                                run: StreamRun, ret: int)
  {
    Ran(run.streamOn, [StreamOn(fd, bufType)], run.streamOnRet) &&
    (run.streamOnRet != 0 ==> ret == run.streamOnRet && run.capture.Log() == []) &&
    (run.streamOnRet == 0 ==> CaptureOutcome(views, fd, bufType, memory, count, run.capture, ret))
  }

  /** `count + 1` rounds, and the finish only if every round succeeded. */
  ghost predicate CaptureOutcome(views: seq<BufferView>, fd: int, bufType: int, memory: int, count: nat,
                                 run: CaptureRun, ret: int)
  {
    RoundsOutcome(views, fd, bufType, memory, count + 1, run.rounds, run.roundsRet) &&
    (run.roundsRet != 0 ==> ret == run.roundsRet && run.finish.Log() == []) &&
    (run.roundsRet == 0 ==> FinishOutcome(views, fd, bufType, count, run.finish, ret))
  }

  /** Stream off, and the syncs only if that succeeded. */
  ghost predicate FinishOutcome(views: seq<BufferView>, fd: int, bufType: int, count: nat, run: FinishRun, ret: int) {
    Ran(run.streamOff, [StreamOff(fd, bufType)], run.streamOffRet) &&
    (run.streamOffRet != 0 ==> ret == run.streamOffRet && run.syncs == []) &&
    (run.streamOffRet == 0 ==> SyncsOutcome(views, count, run.syncs, ret))
  }

  /** How many buffers a queue phase that ended with `ret` queued. */
  function Queued(log: seq<Event>, ret: int): nat {
    if ret == 0 || |log| == 0 then |log| else |log| - 1
  }

  /**
   * demo_camera_roll: queue the whole pool, stream on, wait for and dequeue
   * `count + 1` frames, each time queueing again the buffer of the frame
   * before, stream off, then sync every buffer for the CPU's writes.  The
   * cursor moves once per queued buffer, so a roll that queued the whole
   * pool leaves it where it was.
   */
  method Roll(c: Camera, k: Kernel) returns (ret: int, ghost run: RollRun)
    requires c.Valid()
    modifies c`captureBufferIndex, k
    ensures c.Valid()
    ensures k.trace == old(k.trace) + run.Log()
    ensures RollOutcome(old(Views(c.captureBuffers)), c.videoFd, c.captureType, c.captureMemory, c.captureBuffersCount,
                        old(c.captureBufferIndex), run, ret, c.captureBufferIndex)
  {
    ghost var views := Views(c.captureBuffers);
    ghost var queues;
    ret, queues := QueueAll(c, k);
    ghost var cursor := c.captureBufferIndex;
    ghost var queueRet := ret;
    ghost var stream := StreamRun([], 0, CaptureRun([], 0, FinishRun([], 0, [])));
    if ret == 0 {
      ret, stream := Stream(c, k);
      TraceAppend(old(k.trace), queues, stream.Log());
    }
    run := RollRun(queues, queueRet, stream);
    RollComposed(views, c.videoFd, c.captureType, c.captureMemory, c.captureBuffersCount, old(c.captureBufferIndex),
                 run, ret, cursor);
  }

  /** A roll is its queue phase followed, if that succeeded, by its stream phases. */
  lemma RollComposed(views: seq<BufferView>, fd: int, bufType: int, memory: int, count: nat, start: nat,
                     run: RollRun, ret: int, cursor: nat)
    requires QueueOutcome(views, fd, start, count, run.queues, run.queueRet, cursor)
    requires run.queueRet != 0 ==> ret == run.queueRet && run.stream == StreamRun([], 0, CaptureRun([], 0, FinishRun([], 0, [])))
    requires run.queueRet == 0 ==> StreamOutcome(views, fd, bufType, memory, count, run.stream, ret)
    ensures RollOutcome(views, fd, bufType, memory, count, start, run, ret, cursor)
  {
  }

  /**
   * A roll that returns 0 queued every buffer of the pool and left the
   * cursor where it started, streamed on once, ran `count + 1` rounds
   * that all succeeded, streamed off and synced every buffer.
   */
  lemma RollSucceeded(views: seq<BufferView>, fd: int, bufType: int, memory: int, count: nat, start: nat,
                      run: RollRun, cursor: nat)
    requires RollOutcome(views, fd, bufType, memory, count, start, run, 0, cursor)
    ensures cursor == start
    ensures count <= |views| && (count > 0 ==> start < count) &&
            Completed(run.queues, QueuePlan(views, fd, start, count))
    ensures Completed(run.stream.streamOn, [StreamOn(fd, bufType)])
    ensures var rounds := run.stream.capture.rounds;
            |rounds| == count + 1 &&
            forall r | 0 <= r < |rounds| :: Completed(rounds[r], RoundPlan(fd, bufType, memory, Requeued(views, rounds, r)))
    ensures Completed(run.stream.capture.finish.streamOff, [StreamOff(fd, bufType)])
    ensures |run.stream.capture.finish.syncs| == count
  {
    RanFailFast(run.queues, QueuePlan(views, fd, start, count), 0);
    RanFailFast(run.stream.streamOn, [StreamOn(fd, bufType)], 0);
    var rounds := run.stream.capture.rounds;
    forall r | 0 <= r < |rounds|
      ensures Completed(rounds[r], RoundPlan(fd, bufType, memory, Requeued(views, rounds, r)))
    {
      assert RoundRan(views, fd, bufType, memory, rounds, r, 0);
      RanFailFast(rounds[r], RoundPlan(fd, bufType, memory, Requeued(views, rounds, r)), 0);
    }
    RanFailFast(run.stream.capture.finish.streamOff, [StreamOff(fd, bufType)], 0);
  }

  /**
   * The round loop re-queues: every round after the first opens by queueing
   * again the buffer the round before it dequeued, and the first opens with
   * the wait for a frame.
   */
  lemma RoundRequeues(views: seq<BufferView>, fd: int, bufType: int, memory: int, total: nat,
                      rounds: seq<seq<Event>>, ret: int, r: nat)
    requires RoundsOutcome(views, fd, bufType, memory, total, rounds, ret)
    requires r < |rounds|
    ensures |rounds[r]| > 0
    ensures r == 0 ==> rounds[0][0].op == Poll(fd, ROLL_TIMEOUT_US)
    ensures r > 0 ==>
              var d := Dequeued(rounds[r - 1]);
              0 <= d < |views| && rounds[r - 1][|rounds[r - 1]| - 1].op == Op.Dequeue(fd, bufType, memory) &&
              rounds[r][0].op == Queue(fd, views[d].bufType, views[d].index)
  {
    assert RoundRan(views, fd, bufType, memory, rounds, r, ret);
    if r > 0 {
      var prev := rounds[r - 1];
      assert RoundRan(views, fd, bufType, memory, rounds, r - 1, ret);
      var plan := RoundPlan(fd, bufType, memory, Requeued(views, rounds, r - 1));
      RanFailFast(prev, plan, if r - 1 == |rounds| - 1 then ret else 0);
    }
  }

  /** The stream phases of the roll, once the pool is queued. */
  method Stream(c: Camera, k: Kernel) returns (ret: int, ghost run: StreamRun)
    requires c.Valid()
    modifies k
    ensures c.Valid() && Views(c.captureBuffers) == old(Views(c.captureBuffers))
    ensures k.trace == old(k.trace) + run.Log()
    ensures StreamOutcome(Views(c.captureBuffers), c.videoFd, c.captureType, c.captureMemory, c.captureBuffersCount,
                          run, ret)
  {
    ret := k.Call(StreamOn(c.videoFd, c.captureType));
    ghost var streamOn := [Event(StreamOn(c.videoFd, c.captureType), ret, NoOut)];
    assert streamOn[1..] == [];
    ghost var capture := CaptureRun([], 0, FinishRun([], 0, []));
    if ret == 0 {
      ret, capture := Capture(c, k);
      TraceAppend(old(k.trace), streamOn, capture.Log());
      run := StreamRun(streamOn, 0, capture);
    } else {
      run := StreamRun(streamOn, ret, capture);
    }
  }

  /** The rounds of the roll, then its finish. */
  method Capture(c: Camera, k: Kernel) returns (ret: int, ghost run: CaptureRun)
    requires c.Valid()
    modifies k
    ensures k.trace == old(k.trace) + run.Log()
    ensures CaptureOutcome(Views(c.captureBuffers), c.videoFd, c.captureType, c.captureMemory, c.captureBuffersCount,
                           run, ret)
  {
    ghost var rounds;
    ret, rounds := Rounds(c, k);
    ghost var finish := FinishRun([], 0, []);
    if ret == 0 {
      ret, finish := Finish(c, k);
      TraceAppend(old(k.trace), Concat(rounds), finish.Log());
      run := CaptureRun(rounds, 0, finish);
    } else {
      run := CaptureRun(rounds, ret, finish);
    }
  }

  /** Stream off, then the syncs of the roll. */
  method Finish(c: Camera, k: Kernel) returns (ret: int, ghost run: FinishRun)
    requires c.Valid()
    modifies k
    ensures k.trace == old(k.trace) + run.Log()
    ensures FinishOutcome(Views(c.captureBuffers), c.videoFd, c.captureType, c.captureBuffersCount, run, ret)
  {
    ret := k.Call(StreamOff(c.videoFd, c.captureType));
    ghost var streamOff := [Event(StreamOff(c.videoFd, c.captureType), ret, NoOut)];
    assert streamOff[1..] == [];
    ghost var syncs := [];
    if ret == 0 {
      ret, syncs := SyncAll(c, k);
      TraceAppend(old(k.trace), streamOff, Concat(syncs));
      run := FinishRun(streamOff, 0, syncs);
    } else {
      run := FinishRun(streamOff, ret, syncs);
    }
  }

  /** The queue loop of the roll. */
  method QueueAll(c: Camera, k: Kernel) returns (ret: int, ghost log: seq<Event>)
    requires c.Valid()
    modifies c`captureBufferIndex, k
    ensures c.Valid() && Views(c.captureBuffers) == old(Views(c.captureBuffers))
    ensures k.trace == old(k.trace) + log
    ensures QueueOutcome(Views(c.captureBuffers), c.videoFd, old(c.captureBufferIndex), c.captureBuffersCount,
                         log, ret, c.captureBufferIndex)
  {
    ghost var views, start, count := Views(c.captureBuffers), c.captureBufferIndex, c.captureBuffersCount;
    log := [];
    for i := 0 to c.captureBuffersCount
      invariant QueuingSoFar(c, views, start, count, log) && |log| == i
      invariant k.trace == old(k.trace) + log
    {
      ghost var e;
      ret, e := QueueTurn(c, views, start, count, log, k);
      TraceAppend(old(k.trace), log, [e]);
      log := log + [e];
      if ret != 0 {
        return;
      }
    }
    ret := 0;
    QueueDone(views, c.videoFd, start, count, log);
  }

  /**
   * What the queue phase did, as values: it ran the plan for the pool
   * `views` from the cursor `start`, and the cursor moved once per queued
   * buffer, so a phase that queued the whole pool ends where it started.
   */
  ghost predicate QueueOutcome(views: seq<BufferView>, fd: int, start: nat, count: nat, log: seq<Event>, ret: int,
                               cursor: nat)
  {
    count <= |views| && (count > 0 ==> start < count) && Queued(log, ret) <= count &&
    Ran(log, QueuePlan(views, fd, start, count), ret) &&
    cursor == (if count == 0 then start else Advance(start, count, Queued(log, ret))) &&
    (ret == 0 ==> cursor == start)
  }

  /** The queue loop ran to the end: the whole plan, and the cursor is back at the start. */
  lemma QueueDone(views: seq<BufferView>, fd: int, start: nat, count: nat, log: seq<Event>)
    requires QueueLogged(views, fd, start, count, log) && |log| == count
    ensures QueueOutcome(views, fd, start, count, log, 0, if count == 0 then start else Advance(start, count, count))
  {
    TakeAll(QueuePlan(views, fd, start, count));
    if count > 0 {
      CycleRound(start, count);
    }
  }

  /**
   * The queue loop so far: `log` queued the first buffers of the plan, all
   * successfully, and the cursor moved on once per buffer.
   */
  ghost predicate QueuingSoFar(c: Camera, views: seq<BufferView>, start: nat, count: nat, log: seq<Event>)
    reads c, c.captureBuffers
  {
    c.Valid() && c.captureBuffersCount == count && Views(c.captureBuffers) == views &&
    QueueLogged(views, c.videoFd, start, count, log) &&
    c.captureBufferIndex == if count == 0 then start else Advance(start, count, |log|)
  }

  /** `log` ran the first calls of the queue plan, all successfully. */
  ghost predicate QueueLogged(views: seq<BufferView>, fd: int, start: nat, count: nat, log: seq<Event>) {
    count <= |views| && (count > 0 ==> start < count) && |log| <= count &&
    Ran(log, QueuePlan(views, fd, start, count)[..|log|], 0)
  }

  /** One turn of the queue loop: queue the buffer under the cursor, and cycle if that succeeded. */
  method QueueTurn(c: Camera, ghost views: seq<BufferView>, ghost start: nat, ghost count: nat,
                   ghost log: seq<Event>, k: Kernel)
    returns (ret: int, ghost e: Event)
    requires QueuingSoFar(c, views, start, count, log) && |log| < count
    modifies c`captureBufferIndex, k
    ensures k.trace == old(k.trace) + [e]
    ensures ret == 0 ==> QueuingSoFar(c, views, start, count, log + [e])
    ensures ret != 0 ==>
              c.Valid() && Views(c.captureBuffers) == views && c.captureBuffersCount == count &&
              QueueOutcome(views, c.videoFd, start, count, log + [e], ret, c.captureBufferIndex)
  {
    ghost var fd := c.videoFd;
    ret, e := QueueCurrent(c, k);
    if ret == 0 {
      Cycle(c);
      AdvanceNext(start, count, |log|);
    }
    QueueStep(views, fd, start, count, log, e);
  }

  /** v4l2_buffer_queue of the buffer under the cursor. */
  method QueueCurrent(c: Camera, k: Kernel) returns (ret: int, ghost e: Event)
    requires c.Valid()
    modifies k
    ensures c.captureBufferIndex < |Views(c.captureBuffers)|
    ensures var v := Views(c.captureBuffers)[c.captureBufferIndex];
            e == Event(Queue(c.videoFd, v.bufType, v.index), ret, NoOut)
    ensures k.trace == old(k.trace) + [e]
  {
    var b := Current(c);
    ret := k.Call(Queue(c.videoFd, b.bufType, b.index));
    e := Event(Queue(c.videoFd, b.bufType, b.index), ret, NoOut);
  }

  /** One more queue of the roll's plan, which ends the phase if it fails. */
  lemma QueueStep(views: seq<BufferView>, fd: int, start: nat, count: nat, log: seq<Event>, e: Event)
    requires QueueLogged(views, fd, start, count, log) && |log| < count
    requires var v := views[Advance(start, count, |log|)]; e == Event(Queue(fd, v.bufType, v.index), e.ret, NoOut)
    ensures e.ret == 0 ==> QueueLogged(views, fd, start, count, log + [e])
    ensures e.ret != 0 ==> QueueOutcome(views, fd, start, count, log + [e], e.ret, Advance(start, count, |log|))
  {
    var plan := QueuePlan(views, fd, start, count);
    var i := |log|;
    assert plan[i] == e.op;
    TakeSnoc(plan, i);
    RanSnoc(log, plan[..i], e);
    if e.ret != 0 {
      RanStopped(log + [e], plan[..i + 1], plan[i + 1..], e.ret);
      TakeDrop(plan, i + 1);
    }
  }

  /** One round of the roll on the video node `fd`, queuing `next` again first if there is one. */
  method Round(fd: int, bufType: int, memory: int, next: Option<BufferView>, k: Kernel)
    returns (ret: int, index: nat, ghost log: seq<Event>)
    modifies k
    ensures k.trace == old(k.trace) + log
    ensures Ran(log, RoundPlan(fd, bufType, memory, next), ret)
    ensures ret == 0 ==> index < POOL_SIZE && Dequeued(log) == index
  {
    var queue: seq<Event> := [];
    ghost var queuePlan: seq<Op> := [];
    ret := 0;
    if next.Some? {
      var op := Queue(fd, next.value.bufType, next.value.index);
      ret := k.Call(op);
      queue, queuePlan := [Event(op, ret, NoOut)], [op];
      assert queue[1..] == [];
    }
    index := 0;
    log := queue;
    if ret != 0 {
      RanStopped(queue, queuePlan, [Poll(fd, ROLL_TIMEOUT_US), Op.Dequeue(fd, bufType, memory)], ret);
      return;
    }
    ghost var wait;
    ret, wait := Wait(fd, ROLL_TIMEOUT_US, k);
    ghost var dequeue: seq<Event> := [];
    if ret == 0 {
      ret, index := k.DequeueQueued(fd, bufType, memory, POOL_SIZE);
      dequeue := [Event(Op.Dequeue(fd, bufType, memory), ret, Index(index))];
      assert dequeue[1..] == [];
      TraceAppend(old(k.trace), queue + wait, dequeue);
    }
    RanThen(wait, [Poll(fd, ROLL_TIMEOUT_US)], if wait[0].ret > 0 then 0 else ret,
            dequeue, [Op.Dequeue(fd, bufType, memory)], ret);
    TraceAppend(old(k.trace), queue, wait + dequeue);
    RanSequence(queue, queuePlan, wait + dequeue, [Poll(fd, ROLL_TIMEOUT_US), Op.Dequeue(fd, bufType, memory)], ret);
    log := queue + (wait + dequeue);
  }

  /** The rounds loop of the roll: `count + 1` rounds, stopping at the first failure. */
  method Rounds(c: Camera, k: Kernel) returns (ret: int, ghost rounds: seq<seq<Event>>)
    requires c.Valid()
    modifies k
    ensures k.trace == old(k.trace) + Concat(rounds)
    ensures RoundsOutcome(Views(c.captureBuffers), c.videoFd, c.captureType, c.captureMemory,
                          c.captureBuffersCount + 1, rounds, ret)
  {
    var views := Views(c.captureBuffers);
    var fd, bufType, memory, total := c.videoFd, c.captureType, c.captureMemory, c.captureBuffersCount + 1;
    var next: Option<BufferView> := None;
    rounds := [];
    ret := 0;
    var i := 0;
    while i < total
      invariant i <= total && i == |rounds|
      invariant k.trace == old(k.trace) + Concat(rounds)
      invariant RoundsRan(views, fd, bufType, memory, rounds, 0)
      invariant i == 0 ==> next == None
      invariant i > 0 ==> 0 <= Dequeued(rounds[i - 1]) < |views| && next == Some(views[Dequeued(rounds[i - 1])])
    {
      ghost var log;
      var index;
      ret, index, log := Round(fd, bufType, memory, next, k);
      TraceSnoc(old(k.trace), rounds, log);
      RoundsStep(views, fd, bufType, memory, rounds, log, ret, next);
      rounds := rounds + [log];
      if ret != 0 {
        return;
      }
      next := Some(views[index]);
      i := i + 1;
    }
  }

  /** A round whose plan queued the buffer the round before dequeued extends the rounds. */
  lemma RoundsStep(views: seq<BufferView>, fd: int, bufType: int, memory: int, rounds: seq<seq<Event>>,
                   log: seq<Event>, ret: int, next: Option<BufferView>)
    requires RoundsRan(views, fd, bufType, memory, rounds, 0)
    requires |rounds| == 0 ==> next == None
    requires |rounds| > 0 ==>
               0 <= Dequeued(rounds[|rounds| - 1]) < |views| && next == Some(views[Dequeued(rounds[|rounds| - 1])])
    requires Ran(log, RoundPlan(fd, bufType, memory, next), ret)
    ensures RoundsRan(views, fd, bufType, memory, rounds + [log], ret)
  {
    var rs := rounds + [log];
    forall r | 0 <= r < |rs|
      ensures RoundRan(views, fd, bufType, memory, rs, r, ret)
    {
      if r < |rounds| {
        assert RoundRan(views, fd, bufType, memory, rounds, r, 0);
        assert rs[r] == rounds[r];
        if r > 0 {
          assert rs[r - 1] == rounds[r - 1];
        }
        assert Requeued(views, rs, r) == Requeued(views, rounds, r);
      } else {
        assert rs[r] == log;
        if r > 0 {
          assert rs[r - 1] == rounds[r - 1];
        }
      }
    }
  }

  /** The sync loop of the roll. */
  method SyncAll(c: Camera, k: Kernel) returns (ret: int, ghost syncs: seq<seq<Event>>)
    requires c.Valid()
    modifies k
    ensures k.trace == old(k.trace) + Concat(syncs)
    ensures SyncsOutcome(Views(c.captureBuffers), c.captureBuffersCount, syncs, ret)
  {
    ghost var views := Views(c.captureBuffers);
    syncs := [];
    for i := 0 to c.captureBuffersCount
      invariant |syncs| == i
      invariant k.trace == old(k.trace) + Concat(syncs)
      invariant forall j | 0 <= j < i :: Synced(views[j], ROLL_SYNC_FLAGS, syncs[j], 0)
    {
      var b := c.captureBuffers[i];
      assert b in c.captureBuffers && views[i] == b.View();
      ghost var log;
      ret, log := DemoBuffer.Sync(b, ROLL_SYNC_FLAGS, k);
      TraceSnoc(old(k.trace), syncs, log);
      syncs := syncs + [log];
      if ret != 0 {
        return;
      }
    }
    ret := 0;
  }

  /* ---- demo_camera_setup / demo_camera_cleanup ---- */

  /** The capture format asked for: MJPEG of the demo's size, in at most width * height * 3 bytes. */
  function CaptureRequest(width: nat, height: nat): Format {
    Format(BUF_TYPE_VIDEO_CAPTURE, width, height, PIX_FMT_MJPEG, JpegSizeHint(width, height))
  }

  /** What a camera setup did once its settings were made: the pixel format check, then the rest. */
  datatype SetupRun = SetupRun(check: seq<Event>, checkRet: int, format: FormatRun)
  {
    predicate WellFormed() {
      format.WellFormed()
    }

    function Log(): seq<Event>
      requires WellFormed()
    {
      check + format.Log()
    }
  }

  /** What a camera setup did once the pixel format was found supported: the negotiation, then the pool. */
  datatype FormatRun = FormatRun(negotiation: seq<Event>, negotiationRet: int, pool: Option<PoolRun>)
  {
    predicate WellFormed() {
      pool.Some? ==> |pool.value.queries| == |pool.value.planeLogs|
    }

    function Log(): seq<Event>
      requires WellFormed()
    {
      negotiation + if pool.Some? then pool.value.Log() else []
    }
  }

  /**
   * `run` checked that the camera supports MJPEG capture, returning -EINVAL
   * and changing nothing if not, then went on as FormatOutcome says.  The
   * format field held `heldFormat`, the pool `heldViews` and the count
   * `heldCount`; they now hold `format`, `views` and `count`.
   */
  ghost predicate SetupOutcome(p: Provision, fd: int, memory: int, request: Format, heldFormat: Format,
                               heldViews: seq<BufferView>, heldCount: nat, run: SetupRun, ret: int,
                               format: Format, views: seq<BufferView>, count: nat)
    requires p.Valid()
  {
    run.WellFormed() &&
    Ran(run.check, [PixelFormatCheck(fd, BUF_TYPE_VIDEO_CAPTURE, PIX_FMT_MJPEG)], run.checkRet) &&
    (run.checkRet != 0 ==>
       ret == run.checkRet && run.format == FormatRun([], 0, None) &&
       format == heldFormat && views == heldViews && count == heldCount) &&
    (run.checkRet == 0 ==> FormatOutcome(p, fd, memory, request, heldViews, heldCount, run.format, ret, format, views, count))
  }

  /**
   * `run` negotiated `request`, leaving `format` in the format field; then,
   * only if that succeeded, set up the pool of capture buffers as `p`
   * provides.  The count became POOL_SIZE only if every buffer was set up,
   * and `ret` is the first failure or 0.
   */
  ghost predicate FormatOutcome(p: Provision, fd: int, memory: int, request: Format,
                                heldViews: seq<BufferView>, heldCount: nat, run: FormatRun, ret: int,
                                format: Format, views: seq<BufferView>, count: nat)
    requires p.Valid()
  {
    run.WellFormed() &&
    Negotiation(fd, request, run.negotiation, run.negotiationRet, format) &&
    (run.negotiationRet != 0 ==>
       ret == run.negotiationRet && run.pool == None && views == heldViews && count == heldCount) &&
    (run.negotiationRet == 0 ==>
       run.pool.Some? && PoolOutcome(p, views, fd, memory, BUF_TYPE_VIDEO_CAPTURE, run.pool.value, ret) &&
       count == if ret == 0 then POOL_SIZE else heldCount)
  }

  /**
   * A setup that returns 0 leaves the count at POOL_SIZE with every buffer
   * of the pool set up with one plane of the capture memory, from the
   * allocator and never by importing: mapped from the device with the V4L2
   * allocator, allocated from the dma-heap otherwise.
   */
  lemma SetupReady(demo: Demo, fd: int, memory: int, request: Format, heldFormat: Format,
                   heldViews: seq<BufferView>, heldCount: nat, run: SetupRun,
                   format: Format, views: seq<BufferView>, count: nat, j: nat)
    requires AllocatorMemory(demo.allocator).Some? && memory == AllocatorMemory(demo.allocator).value
    requires SetupOutcome(Provision(demo.allocator, demo.dmaHeapFd, false, [], demo.camera.videoFd, fd), fd, memory,
                          request, heldFormat, heldViews, heldCount, run, 0, format, views, count)
    requires j < POOL_SIZE
    ensures count == POOL_SIZE && run.format.pool.Some? && |run.format.pool.value.planeLogs| == POOL_SIZE
    ensures views[j].planesCount == 1 && views[j].bufType == BUF_TYPE_VIDEO_CAPTURE &&
            views[j].memory == memory && views[j].index == j
    ensures Realised(if memory == MEMORY_MMAP then DeviceMap(fd) else HeapAllocate(demo.dmaHeapFd),
                     views[j], run.format.pool.value.planeLogs[j])
  {
    var p := Provision(demo.allocator, demo.dmaHeapFd, false, [], demo.camera.videoFd, fd);
    var pool := run.format.pool.value;
    assert BuffersOutcome(p, views, fd, BUF_TYPE_VIDEO_CAPTURE, memory, pool.queries, pool.planeLogs, pool.ready, 0);
    assert BufferReady(p, views[j], j, BUF_TYPE_VIDEO_CAPTURE, memory, pool.planeLogs[j]);
  }

  /**
   * What demo_camera_setup did for a camera whose video fd is `fd`, in a
   * demo with allocator `allocator` and size `width` x `height`: -ENODEV
   * without a video fd and -EINVAL for an unknown allocator, with no call
   * and the format, pool and count kept; otherwise SetupOutcome for the
   * allocator's memory and MJPEG capture of that size.
   */
  ghost predicate SetupResult(p: Provision, fd: int, allocator: int, width: nat, height: nat,
                              heldFormat: Format, heldViews: seq<BufferView>, heldCount: nat,
                              run: SetupRun, ret: int, format: Format, views: seq<BufferView>, count: nat)
  {
    run.WellFormed() &&
    var m := AllocatorMemory(allocator);
    if fd < 0 || m.None? then
      ret == (if fd < 0 then -ENODEV else -EINVAL) && run.Log() == [] &&
      format == heldFormat && views == heldViews && count == heldCount
    else
      p.Valid() &&
      SetupOutcome(p, fd, m.value, CaptureRequest(width, height), heldFormat, heldViews, heldCount, run, ret,
                   format, views, count)
  }

  /**
   * demo_camera_setup: -ENODEV without a camera video fd and -EINVAL for an
   * unknown allocator, both before anything is changed; otherwise the
   * settings (MJPEG capture of the demo's size), then the pixel format
   * check, the negotiation and the pool of single-plane buffers, which never
   * import.  Buffers already set up are not released on a failure.
   */
  method Setup(demo: Demo, k: Kernel) returns (ret: int, ghost run: SetupRun)
    requires demo.Valid()
    modifies demo.camera, demo.camera.captureBuffers, k
    ensures demo.Valid() && run.WellFormed()
    ensures ret == 0 ==> demo.camera.captureBuffersCount == POOL_SIZE
    ensures k.trace == old(k.trace) + run.Log()
    ensures demo.camera.videoFd == old(demo.camera.videoFd)
    ensures demo.camera.captureBufferIndex == old(demo.camera.captureBufferIndex)
    ensures Views(demo.decoder.outputBuffers) == old(Views(demo.decoder.outputBuffers)) &&
            Views(demo.decoder.captureBuffers) == old(Views(demo.decoder.captureBuffers))
    ensures var m := AllocatorMemory(demo.allocator);
            demo.camera.videoFd < 0 || m.None? ==>
              ret == (if demo.camera.videoFd < 0 then -ENODEV else -EINVAL) && run.Log() == [] &&
              unchanged(demo.camera) && Views(demo.camera.captureBuffers) == old(Views(demo.camera.captureBuffers))
    ensures var m := AllocatorMemory(demo.allocator);
            var c := demo.camera;
            c.videoFd >= 0 && m.Some? ==>
              c.Capture() == QueueSettings(m.value, BUF_TYPE_VIDEO_CAPTURE, demo.width, demo.height, PIX_FMT_MJPEG,
                                           c.captureFormat) &&
              SetupOutcome(ProvisionOf(demo, c.videoFd, false), c.videoFd, m.value,
                           CaptureRequest(demo.width, demo.height), old(c.captureFormat),
                           old(Views(c.captureBuffers)), old(c.captureBuffersCount), run, ret,
                           c.captureFormat, Views(c.captureBuffers), c.captureBuffersCount)
  {
    run := SetupRun([], 0, FormatRun([], 0, None));
    if demo.camera.videoFd < 0 {
      return -ENODEV, run;
    }
    var m := AllocatorMemory(demo.allocator);
    if m.None? {
      return -EINVAL, run;
    }
    ret, run := Prepare(demo, m.value, k);
  }

  /** demo_camera_setup once the video node and the memory are known: the settings, then the calls. */
  method Prepare(demo: Demo, memory: int, k: Kernel) returns (ret: int, ghost run: SetupRun)
    requires demo.Valid()
    modifies demo.camera, demo.camera.captureBuffers, k
    ensures demo.Valid() && run.WellFormed()
    ensures ret == 0 ==> demo.camera.captureBuffersCount == POOL_SIZE
    ensures k.trace == old(k.trace) + run.Log()
    ensures demo.camera.videoFd == old(demo.camera.videoFd)
    ensures demo.camera.captureBufferIndex == old(demo.camera.captureBufferIndex)
    ensures Views(demo.decoder.outputBuffers) == old(Views(demo.decoder.outputBuffers)) &&
            Views(demo.decoder.captureBuffers) == old(Views(demo.decoder.captureBuffers))
    ensures var c := demo.camera;
            c.Capture() == QueueSettings(memory, BUF_TYPE_VIDEO_CAPTURE, demo.width, demo.height, PIX_FMT_MJPEG,
                                         c.captureFormat) &&
            SetupOutcome(ProvisionOf(demo, c.videoFd, false), c.videoFd, memory,
                         CaptureRequest(demo.width, demo.height), old(c.captureFormat),
                         old(Views(c.captureBuffers)), old(c.captureBuffersCount), run, ret,
                         c.captureFormat, Views(c.captureBuffers), c.captureBuffersCount)
  {
    Settle(demo, memory);
    ret, run := Configure(demo, k);
  }

  /** The settings assignments of demo_camera_setup. */
  method Settle(demo: Demo, memory: int)
    requires demo.Valid()
    modifies demo.camera
    ensures demo.Valid()
    ensures demo.camera.Capture() == QueueSettings(memory, BUF_TYPE_VIDEO_CAPTURE, demo.width, demo.height,
                                                   PIX_FMT_MJPEG, old(demo.camera.captureFormat))
    ensures demo.camera.captureMemory == memory && demo.camera.captureType == BUF_TYPE_VIDEO_CAPTURE &&
            demo.camera.captureWidth == demo.width && demo.camera.captureHeight == demo.height &&
            demo.camera.capturePixelFormat == PIX_FMT_MJPEG && demo.camera.captureFormat == old(demo.camera.captureFormat)
    ensures demo.camera.videoFd == old(demo.camera.videoFd) &&
            demo.camera.captureBuffersCount == old(demo.camera.captureBuffersCount) &&
            demo.camera.captureBufferIndex == old(demo.camera.captureBufferIndex)
  {
    var c := demo.camera;
    c.captureMemory := memory;
    c.captureWidth, c.captureHeight, c.capturePixelFormat := demo.width, demo.height, PIX_FMT_MJPEG;
    c.captureType := BUF_TYPE_VIDEO_CAPTURE;
  }

  /** The calls of demo_camera_setup once the settings are made. */
  method Configure(demo: Demo, k: Kernel) returns (ret: int, ghost run: SetupRun)
    requires demo.Valid()
    requires demo.camera.captureType == BUF_TYPE_VIDEO_CAPTURE && demo.camera.capturePixelFormat == PIX_FMT_MJPEG
    modifies demo.camera`captureFormat, demo.camera`captureBuffersCount, demo.camera.captureBuffers, k
    ensures demo.Valid() && run.WellFormed()
    ensures k.trace == old(k.trace) + run.Log()
    ensures Views(demo.decoder.outputBuffers) == old(Views(demo.decoder.outputBuffers)) &&
            Views(demo.decoder.captureBuffers) == old(Views(demo.decoder.captureBuffers))
    ensures var c := demo.camera;
            SetupOutcome(ProvisionOf(demo, c.videoFd, false), c.videoFd, c.captureMemory,
                         CaptureRequest(c.captureWidth, c.captureHeight), old(c.captureFormat),
                         old(Views(c.captureBuffers)), old(c.captureBuffersCount), run, ret,
                         c.captureFormat, Views(c.captureBuffers), c.captureBuffersCount)
  {
    var c := demo.camera;
    var checkRet, check := CheckPixelFormat(c.videoFd, c.captureType, c.capturePixelFormat, k);
    ghost var format := FormatRun([], 0, None);
    ret := checkRet;
    if checkRet == 0 {
      ret, format := Formats(demo, k);
      TraceAppend(old(k.trace), check, format.Log());
    }
    run := SetupRun(check, checkRet, format);
  }

  /** The negotiation of demo_camera_setup, then its pool if the negotiation succeeded. */
  method Formats(demo: Demo, k: Kernel) returns (ret: int, ghost run: FormatRun)
    requires demo.Valid() && demo.camera.captureType == BUF_TYPE_VIDEO_CAPTURE
    modifies demo.camera`captureFormat, demo.camera`captureBuffersCount, demo.camera.captureBuffers, k
    ensures demo.Valid() && run.WellFormed()
    ensures k.trace == old(k.trace) + run.Log()
    ensures Views(demo.decoder.outputBuffers) == old(Views(demo.decoder.outputBuffers)) &&
            Views(demo.decoder.captureBuffers) == old(Views(demo.decoder.captureBuffers))
    ensures var c := demo.camera;
            FormatOutcome(ProvisionOf(demo, c.videoFd, false), c.videoFd, c.captureMemory,
                          CaptureRequest(c.captureWidth, c.captureHeight),
                          old(Views(c.captureBuffers)), old(c.captureBuffersCount), run, ret,
                          c.captureFormat, Views(c.captureBuffers), c.captureBuffersCount)
  {
    var c := demo.camera;
    var format;
    ghost var negotiation, pool;
    ret, format, negotiation := NegotiateFormat(c.videoFd, CaptureRequest(c.captureWidth, c.captureHeight), k);
    ghost var negotiationRet := ret;
    ret, pool := Adopt(demo, format, ret, k);
    if pool.Some? {
      TraceAppend(old(k.trace), negotiation, pool.value.Log());
    }
    run := FormatRun(negotiation, negotiationRet, pool);
  }

  /**
   * What demo_camera_setup does with the negotiated format: it keeps it,
   * and sets up the pool only when the negotiation returned 0.
   */
  method Adopt(demo: Demo, format: Format, negotiated: int, k: Kernel) returns (ret: int, ghost pool: Option<PoolRun>)
    requires demo.Valid()
    modifies demo.camera`captureFormat, demo.camera`captureBuffersCount, demo.camera.captureBuffers, k
    ensures demo.Valid() && demo.camera.captureFormat == format
    ensures Views(demo.decoder.outputBuffers) == old(Views(demo.decoder.outputBuffers)) &&
            Views(demo.decoder.captureBuffers) == old(Views(demo.decoder.captureBuffers))
    ensures negotiated != 0 ==>
              ret == negotiated && pool == None && k.trace == old(k.trace) &&
              Views(demo.camera.captureBuffers) == old(Views(demo.camera.captureBuffers)) &&
              demo.camera.captureBuffersCount == old(demo.camera.captureBuffersCount)
    ensures var c := demo.camera;
            negotiated == 0 ==>
              pool.Some? && |pool.value.queries| == |pool.value.planeLogs| &&
              k.trace == old(k.trace) + pool.value.Log() &&
              PoolOutcome(ProvisionOf(demo, c.videoFd, false), Views(c.captureBuffers),
                          c.videoFd, c.captureMemory, c.captureType, pool.value, ret) &&
              c.captureBuffersCount == if ret == 0 then POOL_SIZE else old(c.captureBuffersCount)
  {
    SetFormat(demo, format);
    ret, pool := negotiated, None;
    if negotiated == 0 {
      ghost var run;
      ret, run := Provide(demo, k);
      pool := Some(run);
    }
  }

  /** The pool of demo_camera_setup, and the count assignment once all of it is set up. */
  method Provide(demo: Demo, k: Kernel) returns (ret: int, ghost run: PoolRun)
    requires demo.Valid()
    modifies demo.camera`captureBuffersCount, demo.camera.captureBuffers, k
    ensures demo.Valid() && |run.queries| == |run.planeLogs|
    ensures ProvisionOf(demo, demo.camera.videoFd, false).Valid()
    ensures PoolOutcome(ProvisionOf(demo, demo.camera.videoFd, false), Views(demo.camera.captureBuffers),
                        demo.camera.videoFd, demo.camera.captureMemory, demo.camera.captureType, run, ret)
    ensures demo.camera.captureBuffersCount == if ret == 0 then POOL_SIZE else old(demo.camera.captureBuffersCount)
    ensures k.trace == old(k.trace) + run.Log()
    ensures Views(demo.decoder.outputBuffers) == old(Views(demo.decoder.outputBuffers)) &&
            Views(demo.decoder.captureBuffers) == old(Views(demo.decoder.captureBuffers))
  {
    ret, run := SetupCameraPool(demo, k);
    if ret == 0 {
      SetCount(demo);
    }
  }

  /** The format field written back after the negotiation of demo_camera_setup. */
  method SetFormat(demo: Demo, format: Format)
    requires demo.Valid()
    modifies demo.camera`captureFormat
    ensures demo.Valid() && demo.camera.captureFormat == format
    ensures Views(demo.decoder.outputBuffers) == old(Views(demo.decoder.outputBuffers)) &&
            Views(demo.decoder.captureBuffers) == old(Views(demo.decoder.captureBuffers)) &&
            Views(demo.camera.captureBuffers) == old(Views(demo.camera.captureBuffers))
  {
    demo.camera.captureFormat := format;
  }

  /** The count assignment of demo_camera_setup, made once the whole pool is set up. */
  method SetCount(demo: Demo)
    requires demo.Valid()
    modifies demo.camera`captureBuffersCount
    ensures demo.Valid() && demo.camera.captureBuffersCount == POOL_SIZE
    ensures Views(demo.decoder.outputBuffers) == old(Views(demo.decoder.outputBuffers)) &&
            Views(demo.decoder.captureBuffers) == old(Views(demo.decoder.captureBuffers)) &&
            Views(demo.camera.captureBuffers) == old(Views(demo.camera.captureBuffers))
  {
    demo.camera.captureBuffersCount := POOL_SIZE;
  }

  /** The capture buffers setup of the camera, which never imports. */
  method SetupCameraPool(demo: Demo, k: Kernel) returns (ret: int, ghost run: PoolRun)
    requires demo.Valid()
    modifies demo.camera.captureBuffers, k
    ensures demo.Valid() && |run.queries| == |run.planeLogs|
    ensures ProvisionOf(demo, demo.camera.videoFd, false).Valid()
    ensures PoolOutcome(ProvisionOf(demo, demo.camera.videoFd, false), Views(demo.camera.captureBuffers),
                        demo.camera.videoFd, demo.camera.captureMemory, demo.camera.captureType, run, ret)
    ensures k.trace == old(k.trace) + run.Log()
    ensures Views(demo.decoder.outputBuffers) == old(Views(demo.decoder.outputBuffers)) &&
            Views(demo.decoder.captureBuffers) == old(Views(demo.decoder.captureBuffers))
  {
    var c := demo.camera;
    demo.PoolsDisjoint();
    ghost var outputs := Views(demo.decoder.outputBuffers);
    ghost var captures := Views(demo.decoder.captureBuffers);
    ret, run := SetupPool(demo, c.captureBuffers, c.videoFd, c.captureMemory, c.captureType, false, k);
    forall j | 0 <= j < POOL_SIZE
      ensures demo.decoder.outputBuffers[j].View() == outputs[j] && demo.decoder.captureBuffers[j].View() == captures[j]
    {
      assert demo.decoder.outputBuffers[j] in demo.decoder.outputBuffers;
      assert demo.decoder.captureBuffers[j] in demo.decoder.captureBuffers;
    }
  }

  /**
   * demo_camera_cleanup: the buffers counted as set up are cleaned up and
   * the capture queue's buffers released.  The count is left as it is.
   */
  method Cleanup(demo: Demo, k: Kernel)
    requires demo.Valid()
    modifies demo.camera.captureBuffers, k
    ensures demo.Valid()
    ensures PoolCleaned(old(Views(demo.camera.captureBuffers)), Views(demo.camera.captureBuffers),
                        demo.camera.captureBuffersCount)
    ensures Views(demo.decoder.outputBuffers) == old(Views(demo.decoder.outputBuffers)) &&
            Views(demo.decoder.captureBuffers) == old(Views(demo.decoder.captureBuffers))
    ensures var c := demo.camera;
            ViewsValid(old(Views(c.captureBuffers))) &&
            k.trace == old(k.trace) + PoolReleaseEvents(old(Views(c.captureBuffers)), c.captureBuffersCount,
                                                        c.videoFd, c.captureType, c.captureMemory)
  {
    var c := demo.camera;
    demo.PoolsDisjoint();
    ghost var outputs := Views(demo.decoder.outputBuffers);
    ghost var captures := Views(demo.decoder.captureBuffers);
    ReleasePool(c.captureBuffers, c.captureBuffersCount, c.videoFd, c.captureType, c.captureMemory, k);
    forall j | 0 <= j < POOL_SIZE
      ensures demo.decoder.outputBuffers[j].View() == outputs[j] && demo.decoder.captureBuffers[j].View() == captures[j]
    {
      assert demo.decoder.outputBuffers[j] in demo.decoder.outputBuffers;
      assert demo.decoder.captureBuffers[j] in demo.decoder.captureBuffers;
    }
  }
}
