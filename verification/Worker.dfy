/** A scheduler worker: a 512-slot ring that thieves share and a private 64-slot buffer. */
module Workers {
  type Task = nat

  datatype Next = Nothing | Some(task: Task)

  const QUEUE_SIZE: nat := 512
  const BUFFER_SIZE: nat := 64
  const BATCH: nat := 256

  function Min(a: nat, b: nat): (m: nat)
    ensures m <= a && m <= b && (m == a || m == b)
  {
    if a <= b then a else b
  }

  /** How many tasks a fetch takes from a global queue of n. */
  function FetchCount(n: nat, threads: nat, space: nat, batch: nat): (c: nat)
    requires threads > 0
  {
    Min(n / threads + 1, Min(space, batch))
  }

  /** How many a thief takes: half, rounded up. */
  function StealCount(n: nat, space: nat, batch: nat): (c: nat)
  {
    Min((n + 1) / 2, Min(space, batch))
  }

  /** A fetch from a nonempty global queue asks for no more than it holds, except exactly with a
      single thread whose ring and batch have room for the whole queue and one more. */
  lemma FetchFitsIff(n: nat, threads: nat, space: nat, batch: nat)
    requires n > 0 && threads > 0
    ensures FetchCount(n, threads, space, batch) <= n <==> !(threads == 1 && n < space && n < batch)
    ensures FetchCount(n, threads, space, batch) == 0 <==> space == 0 || batch == 0
  {
    if threads >= 2 {
      HalfBound(n, threads);
    }
  }

  lemma HalfBound(n: nat, threads: nat)
    requires n > 0 && threads >= 2
    ensures n / threads + 1 <= n
  {
    var q := n / threads;
    assert q * threads <= n;
    if q > 0 {
      assert q * threads >= q * 2;
    }
  }

  /** A fetch takes its share of the queue, rounded up over a full share, unless space or batch is
      smaller: c tasks with (c - 1) * threads <= n < c * threads. */
  lemma FetchTakesShare(n: nat, threads: nat, space: nat, batch: nat)
    requires threads > 0
    ensures var c := FetchCount(n, threads, space, batch);
      && c <= space && c <= batch && (c > 0 ==> (c - 1) * threads <= n)
      && (c < space && c < batch ==> n < c * threads)
  {
    var q, c := n / threads, FetchCount(n, threads, space, batch);
    assert q * threads <= n < (q + 1) * threads;
    if c > 0 {
      assert (c - 1) * threads <= q * threads;
    }
  }

  /** A thief takes half, rounded up, unless space or batch is smaller: what it takes is at most one
      more than what it leaves, and not less. */
  lemma StealTakesHalf(n: nat, space: nat, batch: nat)
    ensures var c := StealCount(n, space, batch);
      && c <= n && c <= space && c <= batch && c <= (n - c) + 1
      && (c < space && c < batch ==> n - c <= c)
  {
  }

  lemma StealFits(n: nat, space: nat, batch: nat)
    ensures StealCount(n, space, batch) <= n && StealCount(n, space, batch) <= space
    ensures StealCount(n, space, batch) == 0 <==> n == 0 || space == 0 || batch == 0
  {
  }

  // ---------- circular storage ----------

  /** Where a running counter points in storage of n slots. */
  function Slot(c: nat, n: nat): (i: nat)
    requires n > 0
    ensures i < n
  {
    c % n
  }

  lemma SlotsDiffer(a: nat, b: nat, n: nat)
    requires a < b < a + n
    ensures Slot(a, n) != Slot(b, n)
  {
    var q := b / n - a / n;
    assert a == n * (a / n) + a % n && b == n * (b / n) + b % n;
    assert b - a == n * q + (b % n - a % n);
    assert q <= 0 ==> n * q <= 0;
    assert q >= 1 ==> n * q >= n;
  }

  /** The tasks between two running counters. */
  ghost function Window(d: seq<Task>, head: nat, tail: nat): (s: seq<Task>)
    requires |d| > 0 && head <= tail
    ensures |s| == tail - head
    ensures forall k :: 0 <= k < |s| ==> s[k] == d[Slot(head + k, |d|)]
  {
    seq(tail - head, k requires 0 <= k < tail - head => d[Slot(head + k, |d|)])
  }

  lemma WindowPush(d: seq<Task>, head: nat, tail: nat, t: Task)
    requires |d| > 0 && head <= tail < head + |d|
    ensures Window(d[Slot(tail, |d|) := t], head, tail + 1) == Window(d, head, tail) + [t]
  {
    forall c | head <= c < tail
      ensures Slot(c, |d|) != Slot(tail, |d|)
    {
      SlotsDiffer(c, tail, |d|);
    }
    var w, w' := Window(d, head, tail), Window(d[Slot(tail, |d|) := t], head, tail + 1);
    forall k | 0 <= k < |w'|
      ensures w'[k] == (w + [t])[k]
    {
      assert k < tail - head ==> head <= head + k < tail;
    }
  }

  class Context {
    var globalQueue: seq<Task>
    const numThreads: nat

    constructor (tasks: seq<Task>, numThreads: nat)
      ensures globalQueue == tasks && this.numThreads == numThreads
    {
      globalQueue := tasks;
      this.numThreads := numThreads;
    }
  }

  class Worker {
    const queue: array<Task>
    const buffer: array<Task>
    var queueHead: nat
    var queueTail: nat
    var bufferHead: nat
    var bufferTail: nat

    ghost predicate Valid()
      reads this
    {
      && queue.Length == QUEUE_SIZE && buffer.Length == BUFFER_SIZE && queue != buffer
      && queueHead <= queueTail <= queueHead + QUEUE_SIZE
      && bufferHead <= bufferTail <= bufferHead + BUFFER_SIZE
    }

    ghost function Queue(): (s: seq<Task>)
      requires Valid()
      reads this, queue
    {
      Window(queue[..], queueHead, queueTail)
    }

    ghost function Buffer(): (s: seq<Task>)
      requires Valid()
      reads this, buffer
    {
      Window(buffer[..], bufferHead, bufferTail)
    }

    constructor ()
      ensures Valid() && Queue() == [] && Buffer() == [] && fresh(queue) && fresh(buffer)
    {
      var q := new Task[QUEUE_SIZE];
      var b := new Task[BUFFER_SIZE];
      queue, buffer := q, b;
      queueHead, queueTail, bufferHead, bufferTail := 0, 0, 0, 0;
    }

    method PushQueue(t: Task)
      requires Valid() && |Queue()| < QUEUE_SIZE
      modifies this`queueTail, queue
      ensures Valid() && Queue() == old(Queue()) + [t]
    {
      WindowPush(queue[..], queueHead, queueTail, t);
      ghost var before := queue[..];
      queue[Slot(queueTail, QUEUE_SIZE)] := t;
      assert queue[..] == before[Slot(queueTail, QUEUE_SIZE) := t];
      queueTail := queueTail + 1;
    }

    method PopQueue() returns (t: Task)
      requires Valid() && Queue() != []
      modifies this`queueHead
      ensures Valid() && t == old(Queue())[0] && Queue() == old(Queue())[1..]
    {
      t := queue[Slot(queueHead, QUEUE_SIZE)];
      queueHead := queueHead + 1;
    }

    method PushBuffer(t: Task)
      requires Valid() && |Buffer()| < BUFFER_SIZE
      modifies this`bufferTail, buffer
      ensures Valid() && Buffer() == old(Buffer()) + [t]
    {
      WindowPush(buffer[..], bufferHead, bufferTail, t);
      ghost var before := buffer[..];
      buffer[Slot(bufferTail, BUFFER_SIZE)] := t;
      assert buffer[..] == before[Slot(bufferTail, BUFFER_SIZE) := t];
      bufferTail := bufferTail + 1;
    }

    method GetNextTask() returns (r: Next)
      requires Valid()
      modifies this`bufferHead
      ensures Valid() && (r == Nothing <==> old(Buffer()) == [])
      ensures r.Some? ==> r.task == old(Buffer())[0] && Buffer() == old(Buffer())[1..]
      ensures r == Nothing ==> Buffer() == []
    {
      if bufferTail - bufferHead > 0 {
        r := Some(buffer[Slot(bufferHead, BUFFER_SIZE)]);
        bufferHead := bufferHead + 1;
      } else {
        r := Nothing;
      }
    }

    /** Moves a batch from the shared ring to the private buffer, which must have room for it: the
        code does not check, and calls it only when the buffer is empty. */
    method FillBuffer(batch: nat) returns (cnt: nat)
      requires Valid() && |Buffer()| + Min(|Queue()|, batch) <= BUFFER_SIZE
      modifies this`queueHead, this`bufferTail, buffer
      ensures Valid() && cnt <= batch && (cnt < batch ==> Queue() == [])
      ensures cnt == Min(|old(Queue())|, batch)
      ensures Buffer() == old(Buffer()) + old(Queue())[..cnt] && Queue() == old(Queue())[cnt..]
    {
      cnt := Min(queueTail - queueHead, batch);
      for i := 0 to cnt
        invariant Valid()
        invariant Queue() == old(Queue())[i..] && Buffer() == old(Buffer()) + old(Queue())[..i]
      {
        var t := PopQueue();
        PushBuffer(t);
      }
    }

    /** Takes a share of the global queue; locked and localLocked are the results of the two
        try-locks. */
    method TryFetchGlobal(ctx: Context, locked: bool, localLocked: bool, batch: nat) returns (cnt: nat)
      requires Valid() && ctx.numThreads > 0
      requires ctx.numThreads >= 2 || ctx.globalQueue == [] || |ctx.globalQueue| >= Min(QUEUE_SIZE - |Queue()|, batch)
      modifies this`queueTail, queue, ctx`globalQueue
      ensures Valid()
      ensures cnt ==
        if locked && localLocked && old(ctx.globalQueue) != []
        then FetchCount(|old(ctx.globalQueue)|, ctx.numThreads, QUEUE_SIZE - |old(Queue())|, batch) else 0
      ensures cnt <= |old(ctx.globalQueue)|
      ensures locked && localLocked && old(ctx.globalQueue) != [] ==>
        var n, space := |old(ctx.globalQueue)|, QUEUE_SIZE - |old(Queue())|;
        && cnt <= space && cnt <= batch && (cnt > 0 ==> (cnt - 1) * ctx.numThreads <= n)
        && (cnt < space && cnt < batch ==> n < cnt * ctx.numThreads)
      ensures Queue() == old(Queue()) + old(ctx.globalQueue)[..cnt]
      ensures ctx.globalQueue == old(ctx.globalQueue)[cnt..]
    {
      if !locked || ctx.globalQueue == [] {
        return 0;
      }
      if !localLocked {
        return 0;
      }
      FetchFitsIff(|ctx.globalQueue|, ctx.numThreads, QUEUE_SIZE - (queueTail - queueHead), batch);
      FetchTakesShare(|ctx.globalQueue|, ctx.numThreads, QUEUE_SIZE - (queueTail - queueHead), batch);
      cnt := FetchCount(|ctx.globalQueue|, ctx.numThreads, QUEUE_SIZE - (queueTail - queueHead), batch);
      for i := 0 to cnt
        invariant Valid()
        invariant Queue() == old(Queue()) + old(ctx.globalQueue)[..i]
        invariant ctx.globalQueue == old(ctx.globalQueue)[i..]
      {
        PushQueue(ctx.globalQueue[0]);
        ctx.globalQueue := ctx.globalQueue[1..];
      }
    }

    /** Steals half of another worker's ring. A worker that picks itself has an empty ring and
        leaves before it touches a lock. */
    method TryStealFrom(victim: Worker, locked: bool, localLocked: bool, batch: nat) returns (cnt: nat)
      requires Valid() && victim.Valid()
      requires if victim == this then Queue() == [] else victim.queue != queue
      modifies this`queueTail, queue, victim`queueHead
      ensures Valid() && victim.Valid()
      ensures cnt ==
        if locked && localLocked then StealCount(|old(victim.Queue())|, QUEUE_SIZE - |old(Queue())|, batch) else 0
      ensures cnt <= |old(victim.Queue())|
      // half, unless space or batch is smaller
      ensures locked && localLocked && victim != this ==>
        var space := QUEUE_SIZE - |old(Queue())|;
        && cnt <= space && cnt <= batch && cnt <= |victim.Queue()| + 1
        && (cnt < space && cnt < batch ==> |victim.Queue()| <= cnt)
      ensures victim == this ==> cnt == 0 && Queue() == old(Queue())
      ensures victim != this ==>
        Queue() == old(Queue()) + old(victim.Queue())[..cnt] && victim.Queue() == old(victim.Queue())[cnt..]
    {
      if victim.queueTail - victim.queueHead == 0 {
        return 0;
      }
      if !locked || victim.queueTail - victim.queueHead == 0 {
        return 0;
      }
      if !localLocked {
        return 0;
      }
      cnt := StealCount(victim.queueTail - victim.queueHead, QUEUE_SIZE - (queueTail - queueHead), batch);
      for i := 0 to cnt
        invariant Valid() && victim.Valid()
        invariant Queue() == old(Queue()) + old(victim.Queue())[..i]
        invariant victim.Queue() == old(victim.Queue())[i..]
      {
        var t := victim.PopQueue();
        PushQueue(t);
      }
    }
  }
}
