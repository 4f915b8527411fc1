/**
 * Fail-fast sequences of calls, the shape every setup and run of the demo
 * takes: issue the calls of a plan in order and stop at the first that
 * fails, returning its code.
 */
module Calls {
  import opened Kernel

  /**
   * The code a demo returns for the call that stopped it: a failed pixel
   * format check is -EINVAL, a poll that did not report the device ready is
   * -ETIMEDOUT or its error, any other call gives its own status.
   */
  function Failure(e: Event): (err: int)
    ensures e.op.Poll? && e.ret <= 0 ==> err < 0 && (e.ret == 0 ==> err == -ETIMEDOUT)
    ensures e.op.PixelFormatCheck? ==> err == -EINVAL
    ensures !e.op.Poll? && !e.op.PixelFormatCheck? ==> err == e.ret
  {
    if e.op.Poll? && e.ret <= 0 then PollFailure(e.ret)
    else if e.op.PixelFormatCheck? then -EINVAL
    else e.ret
  }

  /**
   * The calls of `plan` were issued in order, each only once every earlier
   * one had succeeded, and `log` is what they answered: either all of them
   * succeeded and `ret` is 0, or the last one failed and `ret` is its code.
   */
  ghost predicate Ran(log: seq<Event>, plan: seq<Op>, ret: int)
    decreases |plan|
  {
    if plan == [] then log == [] && ret == 0
    else
      |log| > 0 && log[0].op == plan[0] &&
      if Succeeded(log[0]) then Ran(log[1..], plan[1..], ret)
      else |log| == 1 && ret != 0 && ret == Failure(log[0])
  }

  /**
   * Ran is a fail-fast run of the plan: success exactly when every call
   * succeeded, otherwise the code of the failing call, after which nothing
   * more was called.
   */
  lemma {:induction false} RanFailFast(log: seq<Event>, plan: seq<Op>, ret: int)
    requires Ran(log, plan, ret)
    ensures FailFast(log, plan)
    ensures ret == 0 <==> Completed(log, plan)
    ensures ret != 0 ==> |log| > 0 && !Succeeded(log[|log| - 1]) && ret == Failure(log[|log| - 1])
    decreases |plan|
  {
    if plan != [] && Succeeded(log[0]) {
      RanFailFast(log[1..], plan[1..], ret);
      assert log == [log[0]] + log[1..];
      assert forall i | 1 <= i < |log| :: log[i] == log[1..][i - 1];
    }
  }

  /** A phase that completed, then another: the two are one run. */
  lemma {:induction false} RanSequence(a: seq<Event>, p: seq<Op>, b: seq<Event>, q: seq<Op>, ret: int)
    requires Ran(a, p, 0) && Ran(b, q, ret)
    ensures Ran(a + b, p + q, ret)
    decreases |p|
  {
    if p != [] {
      RanSequence(a[1..], p[1..], b, q, ret);
      assert (a + b)[0] == a[0] && (p + q)[0] == p[0];
      assert (a + b)[1..] == a[1..] + b;
      assert (p + q)[1..] == p[1..] + q;
    } else {
      assert a + b == b && p + q == q;
    }
  }

  /** A phase that failed ends the run: what the rest of the plan would have called is never called. */
  lemma {:induction false} RanStopped(log: seq<Event>, plan: seq<Op>, rest: seq<Op>, ret: int)
    requires Ran(log, plan, ret) && ret != 0
    ensures Ran(log, plan + rest, ret)
    decreases |plan|
  {
    assert plan != [];
    if Succeeded(log[0]) {
      RanStopped(log[1..], plan[1..], rest, ret);
      assert (plan + rest)[1..] == plan[1..] + rest;
    }
  }

  /**
   * A phase, then the next one only if the first succeeded: the two are one
   * run of the joined plans.
   */
  lemma RanThen(a: seq<Event>, p: seq<Op>, first: int, b: seq<Event>, q: seq<Op>, ret: int)
    requires Ran(a, p, first)
    requires first == 0 ==> Ran(b, q, ret)
    requires first != 0 ==> b == [] && ret == first
    ensures Ran(a + b, p + q, ret)
  {
    if first == 0 {
      RanSequence(a, p, b, q, ret);
    } else {
      assert a + b == a;
      RanStopped(a, p, q, ret);
    }
  }

  /** One more call after a completed run. */
  lemma RanSnoc(log: seq<Event>, plan: seq<Op>, e: Event)
    requires Ran(log, plan, 0)
    requires !Succeeded(e) ==> Failure(e) != 0
    ensures Ran(log + [e], plan + [e.op], if Succeeded(e) then 0 else Failure(e))
  {
    assert [e][1..] == [];
    RanSequence(log, plan, [e], [e.op], if Succeeded(e) then 0 else Failure(e));
  }

  /** A call that answers with a status, 0 for success. */
  predicate StatusCall(op: Op) {
    op.Queue? || op.StreamOn? || op.StreamOff?
  }

  /** Two status calls, the second only if the first succeeded. */
  method CallPair(op1: Op, op2: Op, k: Kernel) returns (ret: int, ghost log: seq<Event>)
    requires StatusCall(op1) && StatusCall(op2)
    modifies k
    ensures k.trace == old(k.trace) + log
    ensures Ran(log, [op1, op2], ret)
  {
    ret := k.Call(op1);
    log := [Event(op1, ret, NoOut)];
    if ret != 0 {
      return;
    }
    ret := k.Call(op2);
    TraceAppend(old(k.trace), log, [Event(op2, ret, NoOut)]);
    log := log + [Event(op2, ret, NoOut)];
    assert log[0].ret == 0 && log[1].ret == ret;
  }

  /** Poll the device for at most `timeoutUs`; 0 once it is ready. */
  method Wait(fd: int, timeoutUs: nat, k: Kernel) returns (ret: int, ghost log: seq<Event>)
    modifies k
    ensures k.trace == old(k.trace) + log
    ensures Ran(log, [Poll(fd, timeoutUs)], ret)
  {
    ret := k.Call(Poll(fd, timeoutUs));
    log := [Event(Poll(fd, timeoutUs), ret, NoOut)];
    assert log[0].ret == ret;
    if ret <= 0 {
      ret := PollFailure(ret);
    } else {
      ret := 0;
    }
  }

  /** Check that the queue supports the pixel format; -EINVAL when it does not. */
  method CheckPixelFormat(fd: int, bufType: int, pixelFormat: nat, k: Kernel) returns (ret: int, ghost log: seq<Event>)
    modifies k
    ensures k.trace == old(k.trace) + log
    ensures Ran(log, [PixelFormatCheck(fd, bufType, pixelFormat)], ret)
  {
    var supported := k.PixelFormatCheck(fd, bufType, pixelFormat);
    log := [Event(PixelFormatCheck(fd, bufType, pixelFormat), if supported then 1 else 0, NoOut)];
    ret := if supported then 0 else -EINVAL;
  }

  /* ---- format negotiation: v4l2_format_try, then v4l2_format_set ---- */

  /**
   * `log` negotiated `request` and left the queue's format field holding
   * `format`: the try is issued with the request, and if it fails its code
   * is returned and the request stays in the field; otherwise the field
   * holds what the try wrote back, the set is issued with it, its code is
   * returned and on success the field holds what the set wrote back.
   */
  ghost predicate Negotiation(fd: int, request: Format, log: seq<Event>, ret: int, format: Format) {
    |log| > 0 && log[0].op == FormatTry(fd, request) && log[0].out.Negotiated? &&
    if log[0].ret != 0 then |log| == 1 && ret == log[0].ret && format == request
    else
      var tried := log[0].out.format;
      |log| == 2 && log[1].op == FormatSet(fd, tried) && log[1].out.Negotiated? && ret == log[1].ret &&
      format == if ret == 0 then log[1].out.format else tried
  }

  /** A negotiation is a fail-fast run of a try and of a set with the tried format. */
  lemma NegotiationRan(fd: int, request: Format, log: seq<Event>, ret: int, format: Format)
    requires Negotiation(fd, request, log, ret, format)
    ensures Ran(log, [FormatTry(fd, request), FormatSet(fd, log[0].out.format)], ret)
    ensures ret == 0 ==> |log| == 2 && format == log[1].out.format
    ensures ret != 0 ==> format == if |log| == 1 then request else log[0].out.format
  {
    if log[0].ret == 0 {
      assert log[1..][0] == log[1] && log[1..][1..] == [];
    }
  }

  /**
   * Try `request`, then set the adjusted format; the ioctls write the
   * driver's adjusted format back only when they succeed.
   */
  method NegotiateFormat(fd: int, request: Format, k: Kernel)
    returns (ret: int, format: Format, ghost log: seq<Event>)
    modifies k
    ensures k.trace == old(k.trace) + log
    ensures Negotiation(fd, request, log, ret, format)
  {
    var adjusted;
    ret, adjusted := k.Negotiate(fd, request, false);
    log := [Event(FormatTry(fd, request), ret, Negotiated(adjusted))];
    if ret != 0 {
      return ret, request, log;
    }
    format := adjusted;
    var e;
    ret, adjusted := k.Negotiate(fd, format, true);
    e := Event(FormatSet(fd, format), ret, Negotiated(adjusted));
    TraceAppend(old(k.trace), log, [e]);
    log := log + [e];
    if ret == 0 {
      format := adjusted;
    }
  }
}
