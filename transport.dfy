/** The message transport: a bounded FIFO queue of envelopes (`ObjMessage`)
    each carrying one payload reference. Sending never waits and fails on a
    full queue; receiving takes the oldest envelope, hands its payload
    reference to the caller and fails without touching the caller's
    variable when the queue is empty. */
module Transport {
  import opened CInt
  import opened Payload

  /** The envelope: it carries the payload reference it was built with. */
  class ObjMessage {
    const p: ObjMsgData?

    constructor (data: ObjMsgData?)
      ensures p == data
    {
      p := data;
    }

    /** `data()`: the reference given at construction. */
    function Data(): ObjMsgData? {
      p
    }
  }

  // ------------------------------------------------ the queue as a sequence

  /** `xQueueSend` with zero wait on a queue of `depth` slots holding `q`:
      succeeds and appends, or reports the queue full and changes nothing. */
  function Enqueue<T>(q: seq<T>, depth: nat, x: T): (seq<T>, bool) {
    if |q| < depth then (q + [x], true) else (q, false)
  }

  /** `xQueueReceive` once the wait has run out: the oldest item, or failure
      with the caller's variable `current` left as it was. */
  function Dequeue<T>(q: seq<T>, current: T): (seq<T>, bool, T) {
    if q == [] then (q, false, current) else (q[1..], true, q[0])
  }

  /** Sending the items of `xs` one after another. */
  function EnqueueAll<T>(q: seq<T>, depth: nat, xs: seq<T>): (r: (seq<T>, seq<bool>))
    ensures |r.1| == |xs|
    decreases |xs|
  {
    if xs == [] then (q, [])
    else
      var (q1, ok) := Enqueue(q, depth, xs[0]);
      var (q2, oks) := EnqueueAll(q1, depth, xs[1..]);
      (q2, [ok] + oks)
  }

  /** Receiving `n` times, collecting what arrives. */
  function DequeueAll<T>(q: seq<T>, n: nat, current: T): (r: (seq<T>, seq<T>))
    decreases n
  {
    if n == 0 then (q, [])
    else
      var (q1, ok, x) := Dequeue(q, current);
      var (q2, xs) := DequeueAll(q1, n - 1, x);
      (q2, (if ok then [x] else []) + xs)
  }

  /** Sends into a queue with room for all of them all succeed and append
      the items in order. */
  lemma {:induction false} EnqueueAllFits<T>(q: seq<T>, depth: nat, xs: seq<T>)
    requires |q| + |xs| <= depth
    ensures EnqueueAll(q, depth, xs).0 == q + xs
    ensures forall i :: 0 <= i < |xs| ==> EnqueueAll(q, depth, xs).1[i]
    decreases |xs|
  {
    if xs != [] {
      EnqueueAllFits(q + [xs[0]], depth, xs[1..]);
      assert q + [xs[0]] + xs[1..] == q + xs;
    }
  }

  /** After `depth` successful sends into an empty queue the next send
      fails, and the items stay in the order sent. */
  lemma FillThenFull<T>(depth: nat, xs: seq<T>, y: T)
    requires |xs| == depth
    ensures EnqueueAll([], depth, xs).0 == xs
    ensures forall i :: 0 <= i < |xs| ==> EnqueueAll([], depth, xs).1[i]
    ensures Enqueue(xs, depth, y) == (xs, false)
  {
    EnqueueAllFits([], depth, xs);
    assert [] + xs == xs;
  }

  /** Receiving as many times as there are items yields them oldest first
      and empties the queue. */
  lemma {:induction false} DrainInOrder<T>(q: seq<T>, current: T)
    ensures DequeueAll(q, |q|, current) == ([], q)
    decreases |q|
  {
    if q != [] {
      DrainInOrder(q[1..], q[0]);
      assert [q[0]] + q[1..] == q;
    }
  }

  /** FIFO: what is sent into an empty queue with room for it is received
      in the same order. */
  lemma SendThenReceive<T>(depth: nat, xs: seq<T>, current: T)
    requires |xs| <= depth
    ensures DequeueAll(EnqueueAll([], depth, xs).0, |xs|, current) == ([], xs)
  {
    EnqueueAllFits([], depth, xs);
    assert [] + xs == xs;
    DrainInOrder(xs, current);
  }

  /** Receiving from an empty queue, however often, changes neither the
      queue nor the caller's variable. */
  lemma {:induction false} ReceiveEmpty<T>(n: nat, current: T)
    ensures DequeueAll([], n, current).0 == [] && DequeueAll([], n, current).1 == []
    decreases n
  {
    if n > 0 {
      ReceiveEmpty(n - 1, current);
    }
  }

  // ---------------------------------------------------- the ring buffer

  /** The buffer index `i` places after `head` in a ring of `depth` slots. */
  function Slot(head: nat, i: nat, depth: nat): (k: nat)
    requires head < depth && i < depth
    ensures k < depth
  {
    if head + i < depth then head + i else head + i - depth
  }

  /** `ObjMsgTransport`: the queue's slots are a ring buffer; `Contents` is
      the sequence of payload references queued, oldest first. */
  class ObjMsgTransport {
    const depth: nat
    const buf: array<ObjMessage?>
    var head: nat
    var count: nat
    ghost var Contents: seq<ObjMsgData?>

    ghost predicate Valid()
      reads this, buf
    {
      buf.Length == depth && 0 < depth && head < depth && count <= depth && |Contents| == count
      && forall i :: 0 <= i < count ==> buf[Slot(head, i, depth)] != null && buf[Slot(head, i, depth)].p == Contents[i]
    }

    /** `xQueueCreate(depth, ...)`: an empty queue of `depth` slots. FreeRTOS
        requires a positive length. */
    constructor (queueDepth: UInt16)
      requires queueDepth > 0
      ensures Valid() && fresh(buf)
      ensures depth == queueDepth && Contents == []
    {
      depth := queueDepth;
      buf := new ObjMessage?[queueDepth];
      head := 0;
      count := 0;
      Contents := [];
    }

    /** `Send`: a new envelope for `data`, queued without waiting. */
    method Send(data: ObjMsgData?) returns (ok: bool)
      requires Valid()
      modifies this, buf
      ensures Valid()
      ensures (Contents, ok) == Enqueue(old(Contents), depth, data)
    {
      if count == depth {
        return false;
      }
      var msg := new ObjMessage(data);
      var tail := Slot(head, count, depth);
      buf[tail] := msg;
      assert forall i :: 0 <= i < count ==> Slot(head, i, depth) != tail;
      count := count + 1;
      Contents := Contents + [data];
      ok := true;
    }

    /** `Receive(data, ticks)` once the wait has run out: `received` is the
        caller's variable after the call, `data` before it. */
    method Receive(data: ObjMsgData?) returns (ok: bool, received: ObjMsgData?)
      requires Valid()
      modifies this
      ensures Valid()
      ensures (Contents, ok, received) == Dequeue(old(Contents), data)
    {
      if count == 0 {
        return false, data;
      }
      var msg := buf[head];
      assert Slot(head, 0, depth) == head;
      received := msg.Data();
      ghost var oldHead := head;
      head := if head + 1 < depth then head + 1 else 0;
      assert forall i :: 0 <= i < count - 1 ==> Slot(head, i, depth) == Slot(oldHead, i + 1, depth);
      count := count - 1;
      Contents := Contents[1..];
      ok := true;
    }
  }
}
