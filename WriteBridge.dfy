/**
 * The sink the body is streamed into, seen only at its write/close
 * boundary, and the pure specification of the fetcher's body callback: one
 * chunk pushed into the sink by repeated bounded writes, each asking for
 * what is left of the chunk and each answered by the sink with a byte count
 * and a status.
 */
module WriteBridge {
  import opened Base

  /** AttachmentWriter::WriteStatus, plus one value the callback's switch does not list. */
  datatype WriteStatus =
    | Ok
    | OkBufferFull
    | Closed
    | ErrorBytesLessThanWordSize
    | ErrorInternal
    | TimedOut
    | Unrecognized  // a status outside the enumeration: the code after the switch

  /** The statuses after which the callback returns the bytes written so far. */
  predicate EndsDelivery(s: WriteStatus) {
    s == Closed || s == ErrorBytesLessThanWordSize || s == ErrorInternal
  }

  /** The statuses after which the callback returns 0 whatever was written. */
  predicate RejectsDelivery(s: WriteStatus) {
    s == OkBufferFull || s == Unrecognized
  }

  /** The statuses after which the callback goes round its loop again. */
  predicate Retries(s: WriteStatus) {
    s == Ok || s == TimedOut
  }

  /** One scripted reply of the sink: how many bytes it takes and the status it reports. */
  datatype WriteReply = WriteReply(count: nat, status: WriteStatus)

  /**
   * The sink's answer to a request for `requested` bytes. The sink never
   * takes more than it is asked for; once its script is used up it reports
   * itself closed, which is the budget that bounds every write loop.
   */
  function Answer(replies: seq<WriteReply>, requested: nat): (a: WriteReply)
    ensures a.count <= requested
    ensures replies == [] ==> a == WriteReply(0, Closed)
    ensures replies != [] ==> a.status == replies[0].status
  {
    if replies == [] then WriteReply(0, Closed)
    else if replies[0].count <= requested then replies[0]
    else WriteReply(requested, replies[0].status)
  }

  /** The replies left after `n` requests. */
  function Drop(replies: seq<WriteReply>, n: nat): (r: seq<WriteReply>)
    ensures |r| == if n <= |replies| then |replies| - n else 0
  {
    if n <= |replies| then replies[n..] else []
  }

  /** The status the sink reports to its `i`-th request. */
  function StatusAt(replies: seq<WriteReply>, i: nat): WriteStatus {
    if i < |replies| then replies[i].status else Closed
  }

  /**
   * When the destructor's stores to the done and shutdown flags land during
   * one delivery: `Some(k)` while write call number k (counting from 0) is
   * blocked, `None` not during this delivery. `InterruptedWithin` says they
   * have landed once `calls` writes were made.
   */
  predicate InterruptedWithin(interruptAt: Option<nat>, calls: nat) {
    interruptAt.Some? && interruptAt.value < calls
  }

  /** Why one delivery stopped. */
  datatype Exit =
    | Completed               // every byte of the chunk was accepted
    | Stopped                 // the done flag was found set with bytes still unwritten
    | SinkEnded(status: WriteStatus) // closed or an error: the bytes so far are returned
    | Rejected(status: WriteStatus)  // buffer-full or an unknown status: 0 is returned

  /**
   * The result of delivering one chunk: the count the callback returns, the
   * number of bytes the sink actually accepted (its log grows by exactly
   * that prefix of the chunk), how many write calls were made, and why the
   * loop ended.
   */
  datatype WriteOutcome = WriteOutcome(returned: nat, accepted: nat, calls: nat, exit: Exit)

  /**
   * The body callback's write loop from the point where `total` bytes of
   * the chunk have been accepted in `calls` writes, against the sink's
   * remaining replies.
   */
  function DeliverFrom(chunk: seq<uint8>, total: nat, replies: seq<WriteReply>, interruptAt: Option<nat>, calls: nat): (o: WriteOutcome)
    requires total <= |chunk|
    decreases |replies|
    ensures total <= o.accepted <= |chunk|
    ensures o.returned == if o.exit.Rejected? then 0 else o.accepted
  {
    if total == |chunk| then WriteOutcome(total, total, calls, Completed)
    else
      var a := Answer(replies, |chunk| - total);
      var t := total + a.count;
      if EndsDelivery(a.status) then WriteOutcome(t, t, calls + 1, SinkEnded(a.status))
      else if RejectsDelivery(a.status) then WriteOutcome(0, t, calls + 1, Rejected(a.status))
      else if interruptAt == Some(calls) && t < |chunk| then WriteOutcome(t, t, calls + 1, Stopped)
      else DeliverFrom(chunk, t, Drop(replies, 1), interruptAt, calls + 1)
  }

  /** What one write of the loop decides, by the class of the status the sink reported. */
  lemma DeliverFromStep(chunk: seq<uint8>, total: nat, replies: seq<WriteReply>, interruptAt: Option<nat>, calls: nat,
                        n: nat, status: WriteStatus)
    requires total < |chunk| && WriteReply(n, status) == Answer(replies, |chunk| - total)
    ensures var o := DeliverFrom(chunk, total, replies, interruptAt, calls);
            var t := total + n;
            (EndsDelivery(status) ==> o == WriteOutcome(t, t, calls + 1, SinkEnded(status))) &&
            (RejectsDelivery(status) ==> o == WriteOutcome(0, t, calls + 1, Rejected(status))) &&
            (Retries(status) && interruptAt == Some(calls) && t < |chunk| ==> o == WriteOutcome(t, t, calls + 1, Stopped)) &&
            (Retries(status) && !(interruptAt == Some(calls) && t < |chunk|) ==>
               o == DeliverFrom(chunk, t, Drop(replies, 1), interruptAt, calls + 1))
  {
  }

  /** One delivery of a whole chunk, as the body callback starts it. */
  function Deliver(chunk: seq<uint8>, replies: seq<WriteReply>, interruptAt: Option<nat>): WriteOutcome {
    DeliverFrom(chunk, 0, replies, interruptAt, 0)
  }

  // ---------------------------------------------------------------------------
  // Properties of one delivery
  // ---------------------------------------------------------------------------

  /**
   * How a delivery can end: with the whole chunk; stopped short by the done
   * flag only right after the write during which the destructor landed;
   * with a status of the matching class. No write is made for an empty
   * rest, at most one per reply plus the final closed answer, and never one
   * after the write during which the destructor landed.
   */
  lemma {:induction false} DeliveryExits(chunk: seq<uint8>, total: nat, replies: seq<WriteReply>, interruptAt: Option<nat>, calls: nat)
    requires total <= |chunk|
    ensures var o := DeliverFrom(chunk, total, replies, interruptAt, calls);
            (o.exit == Completed ==> o.accepted == |chunk|) &&
            (o.exit == Stopped ==> o.accepted < |chunk| && interruptAt == Some(o.calls - 1)) &&
            (o.exit.SinkEnded? ==> EndsDelivery(o.exit.status)) &&
            (o.exit.Rejected? ==> RejectsDelivery(o.exit.status)) &&
            (o.calls == calls <==> total == |chunk|) &&
            calls <= o.calls <= calls + |replies| + 1 &&
            (interruptAt.Some? && calls <= interruptAt.value ==> o.calls <= interruptAt.value + 1)
    decreases |replies|
  {
    if total < |chunk| {
      var a := Answer(replies, |chunk| - total);
      var t := total + a.count;
      DeliverFromStep(chunk, total, replies, interruptAt, calls, a.count, a.status);
      if Retries(a.status) && !(interruptAt == Some(calls) && t < |chunk|) {
        DeliveryExits(chunk, t, Drop(replies, 1), interruptAt, calls + 1);
      }
    }
  }

  /**
   * The status handling of the loop: every write before the last one
   * reported OK or TIMEDOUT, and a delivery that ended on the sink's word
   * ended on the status of its last write.
   */
  lemma {:induction false} DeliveryStatuses(chunk: seq<uint8>, total: nat, replies: seq<WriteReply>, interruptAt: Option<nat>, calls: nat)
    requires total <= |chunk|
    ensures var o := DeliverFrom(chunk, total, replies, interruptAt, calls);
            var n := o.calls - calls;
            (forall i :: 0 <= i < n - 1 ==> Retries(StatusAt(replies, i))) &&
            ((o.exit.SinkEnded? || o.exit.Rejected?) ==> n > 0 && o.exit.status == StatusAt(replies, n - 1)) &&
            ((o.exit == Completed || o.exit == Stopped) && n > 0 ==> Retries(StatusAt(replies, n - 1)))
    decreases |replies|
  {
    DeliveryExits(chunk, total, replies, interruptAt, calls);
    if total < |chunk| {
      var a := Answer(replies, |chunk| - total);
      var t := total + a.count;
      DeliverFromStep(chunk, total, replies, interruptAt, calls, a.count, a.status);
      assert a.status == StatusAt(replies, 0);
      var o := DeliverFrom(chunk, total, replies, interruptAt, calls);
      if Retries(a.status) && !(interruptAt == Some(calls) && t < |chunk|) {
        var rest := Drop(replies, 1);
        DeliveryStatuses(chunk, t, rest, interruptAt, calls + 1);
        DeliveryExits(chunk, t, rest, interruptAt, calls + 1);
        var o' := DeliverFrom(chunk, t, rest, interruptAt, calls + 1);
        var n' := o'.calls - (calls + 1);
        assert o == o' && o.calls - calls == n' + 1;
        forall i | 0 <= i < n' ensures Retries(StatusAt(replies, i)) {
          if i > 0 {
            StatusAtRest(replies, i);
          }
        }
        if n' > 0 {
          StatusAtRest(replies, n');
        }
      } else {
        assert o.calls == calls + 1;
        if !Retries(a.status) {
          assert o.exit.status == a.status;
        }
      }
    }
  }

  /** The status of a later request, counted in what is left after the first one. */
  lemma StatusAtRest(replies: seq<WriteReply>, i: nat)
    requires i > 0
    ensures StatusAt(replies, i) == StatusAt(Drop(replies, 1), i - 1)
  {
  }

  /** Without the destructor landing, the loop never stops short on the done flag, so a delivery that ends on its own loop condition returns the whole chunk. */
  lemma UninterruptedDeliveryIsWhole(chunk: seq<uint8>, replies: seq<WriteReply>)
    ensures var o := Deliver(chunk, replies, None);
            o.exit != Stopped &&
            (o.exit == Completed ==> o.returned == |chunk|)
  {
    DeliveryExits(chunk, 0, replies, None, 0);
  }

  /**
   * The loop stops short of the whole chunk on its own condition only when
   * the done flag was set during it: a delivery whose loop condition ended
   * it with the done flag still clear returns every byte of the chunk.
   */
  lemma NormalEndReturnsWholeChunk(chunk: seq<uint8>, replies: seq<WriteReply>, interruptAt: Option<nat>)
    ensures var o := Deliver(chunk, replies, interruptAt);
            (o.exit == Stopped ==> InterruptedWithin(interruptAt, o.calls)) &&
            ((o.exit == Completed || o.exit == Stopped) && !InterruptedWithin(interruptAt, o.calls) ==>
               o.returned == |chunk|)
  {
    DeliveryExits(chunk, 0, replies, interruptAt, 0);
  }

  /** A write that times out having taken nothing is a pure retry: backpressure loses no byte. */
  lemma TimeoutIsRetry(chunk: seq<uint8>, total: nat, rest: seq<WriteReply>, calls: nat)
    requires total < |chunk|
    ensures DeliverFrom(chunk, total, [WriteReply(0, TimedOut)] + rest, None, calls)
         == DeliverFrom(chunk, total, rest, None, calls + 1)
  {
    assert Drop([WriteReply(0, TimedOut)] + rest, 1) == rest;
  }

  /** A sink that takes every requested byte in one OK write receives the whole chunk in one call. */
  lemma CooperativeSinkTakesChunk(chunk: seq<uint8>, replies: seq<WriteReply>)
    requires chunk != [] && replies != []
    requires replies[0].status == Ok && replies[0].count >= |chunk|
    ensures Deliver(chunk, replies, None) == WriteOutcome(|chunk|, |chunk|, 1, Completed)
  {
    assert Answer(replies, |chunk|) == WriteReply(|chunk|, Ok);
    assert DeliverFrom(chunk, |chunk|, Drop(replies, 1), None, 1) == WriteOutcome(|chunk|, |chunk|, 1, Completed);
  }

  // ---------------------------------------------------------------------------
  // The sink
  // ---------------------------------------------------------------------------

  /**
   * An attachment writer as the fetcher sees it: a bounded write that
   * answers from the sink's script of replies, and an idempotent close. The
   * ghost log is the byte stream a reader of the attachment observes.
   */
  class Sink {
    const name: string
    var replies: seq<WriteReply>
    ghost var log: seq<uint8>
    var closed: bool

    constructor (name: string, replies: seq<WriteReply>)
      ensures this.name == name && this.replies == replies
      ensures log == [] && !closed
    {
      this.name := name;
      this.replies := replies;
      log := [];
      closed := false;
    }

    /** A bounded write of `data`: the sink takes a prefix of it and reports a status. */
    method Write(data: seq<uint8>) returns (written: nat, status: WriteStatus)
      modifies this`replies, this`log
      ensures WriteReply(written, status) == Answer(old(replies), |data|)
      ensures written <= |data| && log == old(log) + data[..written]
      ensures replies == Drop(old(replies), 1)
    {
      var a := Answer(replies, |data|);
      written, status := a.count, a.status;
      log := log + data[..written];
      replies := Drop(replies, 1);
    }

    /** Closing signals end-of-stream to readers; closing again changes nothing. */
    method Close()
      modifies this`closed
      ensures closed
    {
      closed := true;
    }
  }
}
