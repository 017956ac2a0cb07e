/** All workers of the batching scheduler at once, under every interleaving of their locked sections:
    nothing is lost or run twice, completion is counted exactly, and every batch fits. */
module Scheduler {
  import opened Workers

  /** Where a worker's loop stands. */
  datatype Pc = Get | Fill | Fetch | Steal(tries: nat) | Check | Flush | Exited

  datatype W = W(queue: seq<Task>, buffer: seq<Task>, did: nat, pc: Pc)

  /** executed lists the tasks run so far; notified counts the flushes that took pending to zero. */
  datatype State = State(global: seq<Task>, workers: seq<W>, executed: seq<Task>,
                         pending: int, stop: bool, notified: nat)

  /** One step of worker w. locked is whether the try-locks of the section succeeded, victim the
      worker a thief drew. StopAll is the main thread, once it saw pending at zero. */
  datatype Event = Work(w: nat, locked: bool, victim: nat) | StopAll

  ghost predicate Possible(s: State, e: Event)
  {
    match e
    case StopAll => s.pending == 0
    case Work(w, _, victim) => w < |s.workers| && !s.workers[w].pc.Exited? && victim < |s.workers|
  }

  ghost function Put(s: State, w: nat, x: W): State
    requires w < |s.workers|
  {
    s.(workers := s.workers[w := x])
  }

  /** A batch of c tasks from the victim's ring to the thief's. */
  ghost function Move(s: State, w: nat, victim: nat, c: nat, pc: Pc): State
    requires w < |s.workers| && victim < |s.workers| && w != victim && c <= |s.workers[victim].queue|
  {
    var v, x := s.workers[victim], s.workers[w];
    Put(Put(s, victim, v.(queue := v.queue[c..])), w, x.(queue := x.queue + v.queue[..c], pc := pc))
  }

  ghost function Step(s: State, e: Event): State
    requires Possible(s, e) && Bounded(s)
  {
    match e
    case StopAll => s.(stop := true)
    case Work(w, locked, victim) =>
      var x := s.workers[w];
      match x.pc
      case Get =>
        if x.buffer != [] then
          Put(s, w, x.(buffer := x.buffer[1..], did := x.did + 1)).(executed := s.executed + [x.buffer[0]])
        else Put(s, w, x.(pc := Fill))
      case Fill =>
        var c := Min(|x.queue|, BUFFER_SIZE);
        if c > 0 then Put(s, w, x.(buffer := x.buffer + x.queue[..c], queue := x.queue[c..], pc := Get))
        else Put(s, w, x.(pc := Fetch))
      case Fetch =>
        if !locked || s.global == [] then Put(s, w, x.(pc := Steal(0)))
        else
          var c := FetchCount(|s.global|, |s.workers|, QUEUE_SIZE - |x.queue|, BATCH);
          FetchFitsIff(|s.global|, |s.workers|, QUEUE_SIZE - |x.queue|, BATCH);
          Put(s, w, x.(queue := x.queue + s.global[..c], pc := if c > 0 then Get else Steal(0)))
          .(global := s.global[c..])
      case Steal(tries) =>
        if tries >= |s.workers| then Put(s, w, x.(pc := Check))
        else if !locked || s.workers[victim].queue == [] || victim == w then Put(s, w, x.(pc := Steal(tries + 1)))
        else
          var c := StealCount(|s.workers[victim].queue|, QUEUE_SIZE - |x.queue|, BATCH);
          StealFits(|s.workers[victim].queue|, QUEUE_SIZE - |x.queue|, BATCH);
          Move(s, w, victim, c, if c > 0 then Get else Steal(tries + 1))
      case Check => Put(s, w, x.(pc := if s.stop then Exited else Flush))
      case Flush =>
        if x.did > 0 then
          Put(s, w, x.(did := 0, pc := Get))
          .(pending := s.pending - x.did, notified := s.notified + if s.pending == x.did then 1 else 0)
        else Put(s, w, x.(pc := Get))
      case Exited => s
  }

  /** Nobody's ring overflows, and there are at least two threads: one thread alone may ask for more
      than the global queue holds. */
  ghost predicate Bounded(s: State)
  {
    |s.workers| >= 2 && forall w :: 0 <= w < |s.workers| ==> |s.workers[w].queue| <= QUEUE_SIZE
  }

  // ---------- sums over workers ----------

  ghost function Copies(x: W, t: Task): nat
  {
    multiset(x.queue)[t] + multiset(x.buffer)[t]
  }

  /** How often a task is in some ring or buffer, how many tasks are, and how many that were run have
      not been reported. */
  ghost function Held(ws: seq<W>, t: Task): nat
  {
    if ws == [] then 0 else Copies(ws[0], t) + Held(ws[1..], t)
  }

  ghost function Waiting(ws: seq<W>): nat
  {
    if ws == [] then 0 else |ws[0].queue| + |ws[0].buffer| + Waiting(ws[1..])
  }

  ghost function Unreported(ws: seq<W>): nat
  {
    if ws == [] then 0 else ws[0].did + Unreported(ws[1..])
  }

  lemma {:induction false} HeldUpdate(ws: seq<W>, w: nat, x: W, t: Task)
    requires w < |ws|
    ensures Held(ws[w := x], t) == Held(ws, t) + Copies(x, t) - Copies(ws[w], t)
    decreases |ws|
  {
    if w == 0 {
      assert ws[w := x][1..] == ws[1..];
    } else {
      HeldUpdate(ws[1..], w - 1, x, t);
      assert ws[w := x][1..] == ws[1..][w - 1 := x];
    }
  }

  lemma {:induction false} SumsUpdate(ws: seq<W>, w: nat, x: W)
    requires w < |ws|
    ensures Waiting(ws[w := x]) == Waiting(ws) + |x.queue| + |x.buffer| - |ws[w].queue| - |ws[w].buffer|
    ensures Unreported(ws[w := x]) == Unreported(ws) + x.did - ws[w].did
    decreases |ws|
  {
    if w == 0 {
      assert ws[w := x][1..] == ws[1..];
    } else {
      SumsUpdate(ws[1..], w - 1, x);
      assert ws[w := x][1..] == ws[1..][w - 1 := x];
    }
  }

  lemma {:induction false} SumsBound(ws: seq<W>, w: nat, t: Task)
    requires w < |ws|
    ensures |ws[w].queue| + |ws[w].buffer| <= Waiting(ws) && ws[w].did <= Unreported(ws)
    decreases |ws|
  {
    if w > 0 {
      SumsBound(ws[1..], w - 1, t);
    }
  }

  // ---------- what every step keeps ----------

  /** Occurrences of a task anywhere: waiting globally, held by a worker, run. */
  ghost function Everywhere(s: State, t: Task): nat
  {
    multiset(s.global)[t] + Held(s.workers, t) + multiset(s.executed)[t]
  }

  /** The private buffer is empty when it is filled, and the ring too when a worker looks outside. */
  ghost predicate PlaceOk(x: W)
  {
    && |x.queue| <= QUEUE_SIZE && |x.buffer| <= BUFFER_SIZE
    && (!x.pc.Get? ==> x.buffer == [])
    && (!x.pc.Get? && !x.pc.Fill? ==> x.queue == [])
    && (x.pc.Exited? ==> x.did == 0)
  }

  ghost predicate Conserved(s: State, tasks: multiset<Task>)
  {
    forall t :: Everywhere(s, t) == tasks[t]
  }

  ghost predicate Counted(s: State)
  {
    && s.pending == |s.global| + Waiting(s.workers) + Unreported(s.workers)
    && Unreported(s.workers) <= |s.executed|
    && (s.stop ==> s.pending == 0)
  }

  /** If there is any work, pending reaches zero in one flush, and only that one notifies. */
  ghost predicate NotifiedOnce(s: State, tasks: multiset<Task>)
  {
    s.notified == if s.pending == 0 && tasks != multiset{} then 1 else 0
  }

  ghost predicate Inv(s: State, tasks: multiset<Task>)
  {
    && |s.workers| >= 2 && (forall w :: 0 <= w < |s.workers| ==> PlaceOk(s.workers[w]))
    && Conserved(s, tasks) && Counted(s) && NotifiedOnce(s, tasks)
  }

  ghost predicate Start(s: State)
  {
    && |s.workers| >= 2 && s.executed == [] && s.pending == |s.global| && !s.stop && s.notified == 0
    && forall w :: 0 <= w < |s.workers| ==> s.workers[w] == W([], [], 0, Get)
  }

  lemma {:induction false} EmptySums(ws: seq<W>, t: Task)
    requires forall w :: 0 <= w < |ws| ==> ws[w].queue == [] && ws[w].buffer == [] && ws[w].did == 0
    ensures Held(ws, t) == Waiting(ws) == Unreported(ws) == 0
    decreases |ws|
  {
    if ws != [] {
      EmptySums(ws[1..], t);
    }
  }

  lemma StartIsGood(s: State)
    requires Start(s)
    ensures Inv(s, multiset(s.global))
  {
    forall t
      ensures Everywhere(s, t) == multiset(s.global)[t] && Waiting(s.workers) == Unreported(s.workers) == 0
    {
      EmptySums(s.workers, t);
    }
    EmptySums(s.workers, 0);
    assert |multiset(s.global)| == |s.global|;
  }

  /** Worker w's record becomes x, the global queue and the list of tasks run change along. */
  lemma OneWorker(s: State, t: State, tasks: multiset<Task>, w: nat, x: W)
    requires Inv(s, tasks) && w < |s.workers| && PlaceOk(x) && t.workers == s.workers[w := x]
    requires forall k :: multiset(t.global)[k] + Copies(x, k) + multiset(t.executed)[k]
                         == multiset(s.global)[k] + Copies(s.workers[w], k) + multiset(s.executed)[k]
    requires t.pending - |t.global| - |x.queue| - |x.buffer| - x.did ==
             s.pending - |s.global| - |s.workers[w].queue| - |s.workers[w].buffer| - s.workers[w].did
    requires |t.executed| - x.did >= |s.executed| - s.workers[w].did
    requires t.stop ==> t.pending == 0
    requires NotifiedOnce(t, tasks)
    ensures Inv(t, tasks)
  {
    SumsUpdate(s.workers, w, x);
    forall k
      ensures Everywhere(t, k) == tasks[k]
    {
      HeldUpdate(s.workers, w, x, k);
      assert Everywhere(s, k) == tasks[k];
    }
  }

  lemma OwnMove(s: State, tasks: multiset<Task>, w: nat, x: W)
    requires Inv(s, tasks) && w < |s.workers| && PlaceOk(x)
    requires forall k :: Copies(x, k) == Copies(s.workers[w], k)
    requires |x.queue| + |x.buffer| == |s.workers[w].queue| + |s.workers[w].buffer| && x.did == s.workers[w].did
    ensures Inv(Put(s, w, x), tasks)
  {
    OneWorker(s, Put(s, w, x), tasks, w, x);
  }

  lemma PlaceMove(s: State, tasks: multiset<Task>, w: nat, pc: Pc)
    requires Inv(s, tasks) && w < |s.workers| && PlaceOk(s.workers[w].(pc := pc))
    ensures Inv(Put(s, w, s.workers[w].(pc := pc)), tasks)
  {
    OwnMove(s, tasks, w, s.workers[w].(pc := pc));
  }

  lemma SplitCount(q: seq<Task>, c: nat, t: Task)
    requires c <= |q|
    ensures multiset(q[..c])[t] + multiset(q[c..])[t] == multiset(q)[t]
  {
    assert q[..c] + q[c..] == q;
  }

  // ---------- the steps ----------

  lemma GetStep(s: State, tasks: multiset<Task>, w: nat)
    requires Inv(s, tasks) && w < |s.workers| && s.workers[w].pc.Get? && s.workers[w].buffer != []
    ensures var x := s.workers[w];
      Inv(Put(s, w, x.(buffer := x.buffer[1..], did := x.did + 1)).(executed := s.executed + [x.buffer[0]]), tasks)
  {
    var x := s.workers[w];
    var y := x.(buffer := x.buffer[1..], did := x.did + 1);
    assert PlaceOk(x);
    forall k
      ensures Copies(y, k) + multiset(s.executed + [x.buffer[0]])[k] == Copies(x, k) + multiset(s.executed)[k]
    {
      RunCount(x, s.executed, k);
    }
    OneWorker(s, Put(s, w, y).(executed := s.executed + [x.buffer[0]]), tasks, w, y);
  }

  lemma RunCount(x: W, executed: seq<Task>, t: Task)
    requires x.buffer != []
    ensures Copies(x.(buffer := x.buffer[1..], did := x.did + 1), t) + multiset(executed + [x.buffer[0]])[t]
            == Copies(x, t) + multiset(executed)[t]
  {
    assert [x.buffer[0]] + x.buffer[1..] == x.buffer;
  }

  lemma FillStep(s: State, tasks: multiset<Task>, w: nat, c: nat)
    requires Inv(s, tasks) && w < |s.workers| && s.workers[w].pc.Fill?
    requires c == Min(|s.workers[w].queue|, BUFFER_SIZE)
    ensures var x := s.workers[w];
      if c > 0 then Inv(Put(s, w, x.(buffer := x.buffer + x.queue[..c], queue := x.queue[c..], pc := Get)), tasks)
      else Inv(Put(s, w, x.(pc := Fetch)), tasks)
  {
    var x := s.workers[w];
    assert PlaceOk(x);
    if c > 0 {
      var y := x.(buffer := x.buffer + x.queue[..c], queue := x.queue[c..], pc := Get);
      forall k
        ensures Copies(y, k) == Copies(x, k)
      {
        SplitCount(x.queue, c, k);
      }
      OwnMove(s, tasks, w, y);
    } else {
      PlaceMove(s, tasks, w, Fetch);
    }
  }

  lemma FetchStep(s: State, tasks: multiset<Task>, w: nat, c: nat, pc: Pc)
    requires Inv(s, tasks) && w < |s.workers| && s.workers[w].pc.Fetch? && c <= |s.global| && c <= QUEUE_SIZE
    requires pc == Get || (c == 0 && pc.Steal?)
    ensures var x := s.workers[w];
      Inv(Put(s, w, x.(queue := x.queue + s.global[..c], pc := pc)).(global := s.global[c..]), tasks)
  {
    var x := s.workers[w];
    var y := x.(queue := x.queue + s.global[..c], pc := pc);
    assert PlaceOk(x);
    forall k
      ensures multiset(s.global[c..])[k] + Copies(y, k) == multiset(s.global)[k] + Copies(x, k)
    {
      SplitCount(s.global, c, k);
    }
    OneWorker(s, Put(s, w, y).(global := s.global[c..]), tasks, w, y);
  }

  lemma StealCounts(ws: seq<W>, w: nat, victim: nat, c: nat, pc: Pc, k: Task)
    requires w < |ws| && victim < |ws| && w != victim && c <= |ws[victim].queue|
    ensures var v, x := ws[victim], ws[w];
      var r := ws[victim := v.(queue := v.queue[c..])][w := x.(queue := x.queue + v.queue[..c], pc := pc)];
      Held(r, k) == Held(ws, k) && Waiting(r) == Waiting(ws) && Unreported(r) == Unreported(ws)
  {
    var v, x := ws[victim], ws[w];
    var v', x' := v.(queue := v.queue[c..]), x.(queue := x.queue + v.queue[..c], pc := pc);
    var mid := ws[victim := v'];
    SumsUpdate(ws, victim, v');
    SumsUpdate(mid, w, x');
    HeldUpdate(ws, victim, v', k);
    HeldUpdate(mid, w, x', k);
    SplitCount(v.queue, c, k);
  }

  lemma StealStep(s: State, tasks: multiset<Task>, w: nat, victim: nat, c: nat, pc: Pc)
    requires Inv(s, tasks) && w < |s.workers| && victim < |s.workers| && w != victim && s.workers[w].pc.Steal?
    requires c <= |s.workers[victim].queue| && (pc == Get || (c == 0 && pc.Steal?))
    ensures Inv(Move(s, w, victim, c, pc), tasks)
  {
    assert PlaceOk(s.workers[victim]) && PlaceOk(s.workers[w]);
    var t := Move(s, w, victim, c, pc);
    StealCounts(s.workers, w, victim, c, pc, 0);
    forall k
      ensures Everywhere(t, k) == tasks[k]
    {
      StealCounts(s.workers, w, victim, c, pc, k);
      assert Everywhere(s, k) == tasks[k];
    }
  }

  lemma FlushStep(s: State, tasks: multiset<Task>, w: nat)
    requires Inv(s, tasks) && w < |s.workers| && s.workers[w].pc.Flush? && s.workers[w].did > 0
    ensures var x := s.workers[w];
      Inv(Put(s, w, x.(did := 0, pc := Get))
          .(pending := s.pending - x.did, notified := s.notified + if s.pending == x.did then 1 else 0), tasks)
  {
    var x := s.workers[w];
    assert PlaceOk(x);
    SumsBound(s.workers, w, 0);
    assert Everywhere(s, s.executed[0]) > 0;
    var y := x.(did := 0, pc := Get);
    var t := Put(s, w, y)
    .(pending := s.pending - x.did, notified := s.notified + if s.pending == x.did then 1 else 0);
    OneWorker(s, t, tasks, w, y);
  }

  /** A worker that sees the stop flag has nothing left to report. */
  lemma CheckStep(s: State, tasks: multiset<Task>, w: nat)
    requires Inv(s, tasks) && w < |s.workers| && s.workers[w].pc.Check?
    ensures Inv(Put(s, w, s.workers[w].(pc := if s.stop then Exited else Flush)), tasks)
  {
    SumsBound(s.workers, w, 0);
    assert PlaceOk(s.workers[w]);
    PlaceMove(s, tasks, w, if s.stop then Exited else Flush);
  }

  /** A step of any worker, or the stop, keeps the invariant: every batch fits where it goes and is
      there to be taken, and the count of pending tasks is exact. */
  lemma StepKeepsInv(s: State, tasks: multiset<Task>, e: Event)
    requires Inv(s, tasks) && Possible(s, e)
    ensures Bounded(s) && Inv(Step(s, e), tasks)
  {
    assert forall w :: 0 <= w < |s.workers| ==> PlaceOk(s.workers[w]);
    if e.Work? {
      WorkKeepsInv(s, tasks, e.w, e.locked, e.victim);
    }
  }

  lemma WorkKeepsInv(s: State, tasks: multiset<Task>, w: nat, locked: bool, victim: nat)
    requires Inv(s, tasks) && Bounded(s) && Possible(s, Work(w, locked, victim))
    ensures Inv(Step(s, Work(w, locked, victim)), tasks)
  {
    var x := s.workers[w];
    assert PlaceOk(x);
    match x.pc
    case Get =>
      if x.buffer != [] {
        GetStep(s, tasks, w);
      } else {
        PlaceMove(s, tasks, w, Fill);
      }
    case Fill => FillStep(s, tasks, w, Min(|x.queue|, BUFFER_SIZE));
    case Fetch => FetchKeepsInv(s, tasks, w, locked, victim);
    case Steal(_) => StealKeepsInv(s, tasks, w, locked, victim);
    case Check => CheckStep(s, tasks, w);
    case Flush =>
      if x.did > 0 {
        FlushStep(s, tasks, w);
      } else {
        PlaceMove(s, tasks, w, Get);
      }
  }

  lemma FetchKeepsInv(s: State, tasks: multiset<Task>, w: nat, locked: bool, victim: nat)
    requires Inv(s, tasks) && Bounded(s) && Possible(s, Work(w, locked, victim)) && s.workers[w].pc.Fetch?
    ensures Inv(Step(s, Work(w, locked, victim)), tasks)
  {
    var x := s.workers[w];
    assert PlaceOk(x);
    if !locked || s.global == [] {
      PlaceMove(s, tasks, w, Steal(0));
    } else {
      FetchFitsIff(|s.global|, |s.workers|, QUEUE_SIZE - |x.queue|, BATCH);
      FetchStep(s, tasks, w, FetchCount(|s.global|, |s.workers|, QUEUE_SIZE - |x.queue|, BATCH), Get);
    }
  }

  lemma StealKeepsInv(s: State, tasks: multiset<Task>, w: nat, locked: bool, victim: nat)
    requires Inv(s, tasks) && Bounded(s) && Possible(s, Work(w, locked, victim)) && s.workers[w].pc.Steal?
    ensures Inv(Step(s, Work(w, locked, victim)), tasks)
  {
    var x := s.workers[w];
    assert PlaceOk(x);
    if x.pc.tries >= |s.workers| {
      PlaceMove(s, tasks, w, Check);
    } else if !locked || s.workers[victim].queue == [] || victim == w {
      PlaceMove(s, tasks, w, Steal(x.pc.tries + 1));
    } else {
      StealFits(|s.workers[victim].queue|, QUEUE_SIZE - |x.queue|, BATCH);
      StealStep(s, tasks, w, victim, StealCount(|s.workers[victim].queue|, QUEUE_SIZE - |x.queue|, BATCH), Get);
    }
  }

  // ---------- every run ----------

  ghost predicate Run(s: State, es: seq<Event>)
    decreases |es|
  {
    es == [] || (Possible(s, es[0]) && Bounded(s) && Run(Step(s, es[0]), es[1..]))
  }

  ghost function After(s: State, es: seq<Event>): State
    requires Run(s, es)
    decreases |es|
  {
    if es == [] then s else After(Step(s, es[0]), es[1..])
  }

  lemma {:induction false} RunKeepsInv(s: State, tasks: multiset<Task>, es: seq<Event>)
    requires Inv(s, tasks) && Run(s, es)
    ensures Inv(After(s, es), tasks)
    decreases |es|
  {
    if es != [] {
      StepKeepsInv(s, tasks, es[0]);
      RunKeepsInv(Step(s, es[0]), tasks, es[1..]);
    }
  }

  /** Pending at zero means that nothing is left anywhere and every task has been run. */
  lemma ZeroMeansDone(s: State, tasks: multiset<Task>)
    requires Inv(s, tasks) && s.pending == 0
    ensures s.global == [] && multiset(s.executed) == tasks
    ensures forall w :: 0 <= w < |s.workers| ==>
      s.workers[w].queue == [] && s.workers[w].buffer == [] && s.workers[w].did == 0
  {
    forall w | 0 <= w < |s.workers|
      ensures s.workers[w].queue == [] && s.workers[w].buffer == [] && s.workers[w].did == 0
    {
      SumsBound(s.workers, w, 0);
    }
    forall t
      ensures multiset(s.executed)[t] == tasks[t]
    {
      EmptySums(s.workers, t);
      assert Everywhere(s, t) == tasks[t];
    }
  }

  /** Each task is run exactly as often as it was made: never more at any time, and exactly that
      often once the stop flag is set. By then every ring, buffer and unreported count is empty,
      so clearing them before the next iteration drops nothing, and one flush has notified. */
  lemma ExactlyOnce(s: State, es: seq<Event>)
    requires Start(s) && Run(s, es)
    ensures var r := After(s, es);
      && multiset(r.executed) <= multiset(s.global)
      && (r.stop ==>
            && multiset(r.executed) == multiset(s.global) && r.global == []
            && (forall w :: 0 <= w < |r.workers| ==>
                  r.workers[w].queue == [] && r.workers[w].buffer == [] && r.workers[w].did == 0)
            && (s.global != [] ==> r.notified == 1))
  {
    var tasks := multiset(s.global);
    StartIsGood(s);
    RunKeepsInv(s, tasks, es);
    var r := After(s, es);
    forall t
      ensures multiset(r.executed)[t] <= tasks[t]
    {
      assert Everywhere(r, t) == tasks[t];
    }
    if r.stop {
      ZeroMeansDone(r, tasks);
      assert s.global != [] ==> s.global[0] in tasks;
    }
  }
}
