/** The single-file scheduler: a locked ring per worker, used as a double-ended queue that never
    checks for overflow. */
module WorkStealing {
  import opened Workers

  const CAPACITY: nat := 1024

  class WorkerQueue {
    const tasks: array<Task>
    var head: nat
    var tail: nat

    ghost predicate Valid()
      reads this
    {
      tasks.Length == CAPACITY && head <= tail <= head + CAPACITY
    }

    ghost function Contents(): (s: seq<Task>)
      requires Valid()
      reads this, tasks
    {
      Window(tasks[..], head, tail)
    }

    constructor ()
      ensures Valid() && Contents() == [] && fresh(tasks)
    {
      var a := new Task[CAPACITY];
      tasks, head, tail := a, 0, 0;
    }

    /** Adds at the back; the caller must know that there is room. */
    method Push(t: Task)
      requires Valid() && |Contents()| < CAPACITY
      modifies this`tail, tasks
      ensures Valid() && Contents() == old(Contents()) + [t]
    {
      WindowPush(tasks[..], head, tail, t);
      ghost var before := tasks[..];
      tasks[Slot(tail, CAPACITY)] := t;
      assert tasks[..] == before[Slot(tail, CAPACITY) := t];
      tail := tail + 1;
    }

    /** The owner's end: the newest task. */
    method TryPop() returns (r: Next)
      requires Valid()
      modifies this`tail
      ensures Valid() && (r == Nothing <==> old(Contents()) == [])
      ensures r == Nothing ==> Contents() == old(Contents())
      ensures r.Some? ==> Contents() + [r.task] == old(Contents())
    {
      if head == tail {
        return Nothing;
      }
      tail := tail - 1;
      r := Some(tasks[Slot(tail, CAPACITY)]);
    }

    /** The thieves' end: the oldest task. */
    method TrySteal() returns (r: Next)
      requires Valid()
      modifies this`head
      ensures Valid() && (r == Nothing <==> old(Contents()) == [])
      ensures r == Nothing ==> Contents() == old(Contents())
      ensures r.Some? ==> [r.task] + Contents() == old(Contents())
    {
      if head == tail {
        return Nothing;
      }
      r := Some(tasks[Slot(head, CAPACITY)]);
      head := head + 1;
    }
  }

  // ---------- all workers at once ----------

  /** Pop and Run: the worker takes its own newest task and runs it; Report: lowers the count;
      Steal: has tried some victims; Stolen: carries a stolen task to its own queue; Global: holds
      the global lock with `left` tasks still to move. */
  datatype Pc = Pop | Run(task: Task) | Report | Steal(tries: nat) | Stolen(task: Task) | Ask | Global(left: nat)
              | Exited

  datatype W = W(queue: seq<Task>, pc: Pc)

  datatype State = State(global: seq<Task>, workers: seq<W>, executed: seq<Task>,
                         pending: int, stop: bool, notified: nat)

  datatype Event = Work(w: nat, victim: nat) | StopAll

  ghost predicate Possible(s: State, e: Event)
  {
    match e
    case StopAll => s.pending == 0
    case Work(w, victim) =>
      && w < |s.workers| && !s.workers[w].pc.Exited? && victim < |s.workers|
      // one worker at a time holds the global lock
      && (s.workers[w].pc.Ask? ==> forall u :: 0 <= u < |s.workers| ==> !s.workers[u].pc.Global?)
  }

  ghost function Put(s: State, w: nat, x: W): State
    requires w < |s.workers|
  {
    s.(workers := s.workers[w := x])
  }

  ghost function Step(s: State, e: Event): State
    requires Possible(s, e)
  {
    match e
    case StopAll => s.(stop := true)
    case Work(w, victim) =>
      var x := s.workers[w];
      var n := |x.queue|;
      match x.pc
      case Pop =>
        if n > 0 then Put(s, w, W(x.queue[..n - 1], Run(x.queue[n - 1]))) else Put(s, w, x.(pc := Steal(0)))
      case Run(t) => Put(s, w, x.(pc := Report)).(executed := s.executed + [t])
      case Report =>
        Put(s, w, x.(pc := Pop)).(pending := s.pending - 1, notified := s.notified + if s.pending == 1 then 1 else 0)
      case Steal(tries) =>
        if tries >= |s.workers| then Put(s, w, x.(pc := Ask))
        else if victim == w || s.workers[victim].queue == [] then Put(s, w, x.(pc := Steal(tries + 1)))
        else
          var v := s.workers[victim];
          Put(Put(s, victim, v.(queue := v.queue[1..])), w, x.(pc := Stolen(v.queue[0])))
      case Stolen(t) => Put(s, w, W(x.queue + [t], Pop))
      case Ask =>
        if s.global != [] then Put(s, w, x.(pc := Global(Min(|s.global|, CAPACITY / 2))))
        else Put(s, w, x.(pc := if s.stop then Exited else Pop))
      case Global(left) =>
        var m := |s.global|;
        if left > 0 && m > 0 then
          Put(s, w, W(x.queue + [s.global[m - 1]], Global(left - 1))).(global := s.global[..m - 1])
        else Put(s, w, x.(pc := Pop))
      case Exited => s
  }

  // ---------- sums ----------

  ghost function InHand(pc: Pc, t: Task): nat
  {
    if pc == Run(t) || pc == Stolen(t) then 1 else 0
  }

  ghost function Copies(x: W, t: Task): nat
  {
    multiset(x.queue)[t] + InHand(x.pc, t)
  }

  /** Tasks at a worker that are not reported: queued, in hand, or just run. */
  ghost function Open(x: W): nat
  {
    |x.queue| + if x.pc.Run? || x.pc.Stolen? || x.pc.Report? then 1 else 0
  }

  ghost function Held(ws: seq<W>, t: Task): nat
  {
    if ws == [] then 0 else Copies(ws[0], t) + Held(ws[1..], t)
  }

  ghost function AllOpen(ws: seq<W>): nat
  {
    if ws == [] then 0 else Open(ws[0]) + AllOpen(ws[1..])
  }

  lemma {:induction false} SumsUpdate(ws: seq<W>, w: nat, x: W, t: Task)
    requires w < |ws|
    ensures Held(ws[w := x], t) == Held(ws, t) + Copies(x, t) - Copies(ws[w], t)
    ensures AllOpen(ws[w := x]) == AllOpen(ws) + Open(x) - Open(ws[w])
    decreases |ws|
  {
    if w == 0 {
      assert ws[w := x][1..] == ws[1..];
    } else {
      SumsUpdate(ws[1..], w - 1, x, t);
      assert ws[w := x][1..] == ws[1..][w - 1 := x];
    }
  }

  lemma {:induction false} SumsZero(ws: seq<W>, t: Task)
    ensures AllOpen(ws) == 0 ==> Held(ws, t) == 0
    ensures (forall w :: 0 <= w < |ws| ==> ws[w] == W([], Pop)) ==> AllOpen(ws) == 0
    decreases |ws|
  {
    if ws != [] {
      SumsZero(ws[1..], t);
    }
  }

  // ---------- what every step keeps ----------

  /** The owner refills only what it found empty, and then at most half of the ring: thieves only
      take away. */
  ghost predicate PlaceOk(x: W)
  {
    match x.pc
    case Steal(_) => x.queue == []
    case Stolen(_) => x.queue == []
    case Ask => x.queue == []
    case Global(left) => |x.queue| + left <= CAPACITY / 2
    case _ => |x.queue| <= CAPACITY / 2
  }

  ghost predicate Conserved(s: State, tasks: multiset<Task>)
  {
    forall t :: multiset(s.global)[t] + Held(s.workers, t) + multiset(s.executed)[t] == tasks[t]
  }

  ghost predicate Inv(s: State, tasks: multiset<Task>)
  {
    && (forall w :: 0 <= w < |s.workers| ==> PlaceOk(s.workers[w]))
    && Conserved(s, tasks)
    && s.pending == |s.global| + AllOpen(s.workers)
    && (s.stop ==> s.pending == 0)
    && (forall w :: 0 <= w < |s.workers| && s.workers[w].pc.Report? ==> s.executed != [])
    && NotifiedOnce(s, tasks)
  }

  /** If there is any work, exactly the report that takes the count to zero notifies. */
  ghost predicate NotifiedOnce(s: State, tasks: multiset<Task>)
  {
    s.notified == if s.pending == 0 && tasks != multiset{} then 1 else 0
  }

  lemma OneWorker(s: State, r: State, tasks: multiset<Task>, w: nat, x: W)
    requires Inv(s, tasks) && w < |s.workers| && r.workers == s.workers[w := x] && PlaceOk(x)
    requires forall t :: multiset(r.global)[t] + multiset(r.executed)[t] + Copies(x, t)
                         == multiset(s.global)[t] + multiset(s.executed)[t] + Copies(s.workers[w], t)
    requires r.pending - |r.global| - Open(x) == s.pending - |s.global| - Open(s.workers[w])
    requires r.stop ==> r.pending == 0
    requires |r.executed| >= |s.executed| && (x.pc.Report? ==> r.executed != []) && NotifiedOnce(r, tasks)
    ensures Inv(r, tasks)
  {
    SumsUpdate(s.workers, w, x, 0);
    forall t
      ensures multiset(r.global)[t] + Held(r.workers, t) + multiset(r.executed)[t] == tasks[t]
    {
      SumsUpdate(s.workers, w, x, t);
      assert multiset(s.global)[t] + Held(s.workers, t) + multiset(s.executed)[t] == tasks[t];
    }
  }

  lemma OpenBound(ws: seq<W>, w: nat)
    requires w < |ws|
    ensures Open(ws[w]) <= AllOpen(ws)
    decreases |ws|
  {
    if w > 0 {
      OpenBound(ws[1..], w - 1);
    }
  }

  lemma PlaceMove(s: State, tasks: multiset<Task>, w: nat, pc: Pc)
    requires Inv(s, tasks) && w < |s.workers| && PlaceOk(s.workers[w].(pc := pc))
    requires !(s.workers[w].pc.Run? || s.workers[w].pc.Stolen? || s.workers[w].pc.Report?)
    requires !(pc.Run? || pc.Stolen? || pc.Report?)
    ensures Inv(Put(s, w, s.workers[w].(pc := pc)), tasks)
  {
    OneWorker(s, Put(s, w, s.workers[w].(pc := pc)), tasks, w, s.workers[w].(pc := pc));
  }

  lemma PopStep(s: State, tasks: multiset<Task>, w: nat)
    requires Inv(s, tasks) && w < |s.workers| && s.workers[w].pc.Pop? && s.workers[w].queue != []
    ensures var q := s.workers[w].queue;
      Inv(Put(s, w, W(q[..|q| - 1], Run(q[|q| - 1]))), tasks)
  {
    var q := s.workers[w].queue;
    var n := |q| - 1;
    assert PlaceOk(s.workers[w]);
    assert q[..n] + [q[n]] == q;
    OneWorker(s, Put(s, w, W(q[..n], Run(q[n]))), tasks, w, W(q[..n], Run(q[n])));
  }

  lemma RunStep(s: State, tasks: multiset<Task>, w: nat, t: Task)
    requires Inv(s, tasks) && w < |s.workers| && s.workers[w].pc == Run(t)
    ensures Inv(Put(s, w, s.workers[w].(pc := Report)).(executed := s.executed + [t]), tasks)
  {
    var x := s.workers[w];
    assert PlaceOk(x);
    OneWorker(s, Put(s, w, x.(pc := Report)).(executed := s.executed + [t]), tasks, w, x.(pc := Report));
  }

  lemma StolenStep(s: State, tasks: multiset<Task>, w: nat, t: Task)
    requires Inv(s, tasks) && w < |s.workers| && s.workers[w].pc == Stolen(t)
    ensures Inv(Put(s, w, W(s.workers[w].queue + [t], Pop)), tasks)
  {
    var x := s.workers[w];
    assert PlaceOk(x);
    OneWorker(s, Put(s, w, W(x.queue + [t], Pop)), tasks, w, W(x.queue + [t], Pop));
  }

  lemma StealStep(s: State, tasks: multiset<Task>, w: nat, victim: nat)
    requires Inv(s, tasks) && w < |s.workers| && victim < |s.workers| && w != victim
    requires s.workers[w].pc.Steal? && s.workers[victim].queue != []
    ensures var v, x := s.workers[victim], s.workers[w];
      Inv(Put(Put(s, victim, v.(queue := v.queue[1..])), w, x.(pc := Stolen(v.queue[0]))), tasks)
  {
    var v, x := s.workers[victim], s.workers[w];
    var v', x' := v.(queue := v.queue[1..]), x.(pc := Stolen(v.queue[0]));
    assert PlaceOk(v) && PlaceOk(x);
    assert PlaceOk(v') && PlaceOk(x');
    var mid := s.workers[victim := v'];
    var r := Put(Put(s, victim, v'), w, x');
    forall t
      ensures multiset(r.global)[t] + Held(r.workers, t) + multiset(r.executed)[t] == tasks[t]
    {
      StealCounts(s.workers, w, victim, t);
      assert multiset(s.global)[t] + Held(s.workers, t) + multiset(s.executed)[t] == tasks[t];
    }
    StealCounts(s.workers, w, victim, 0);
  }

  lemma StealCounts(ws: seq<W>, w: nat, victim: nat, t: Task)
    requires w < |ws| && victim < |ws| && w != victim && ws[w].pc.Steal? && ws[victim].queue != []
    ensures var q := ws[victim].queue;
      var r := ws[victim := ws[victim].(queue := q[1..])][w := ws[w].(pc := Stolen(q[0]))];
      Held(r, t) == Held(ws, t) && AllOpen(r) == AllOpen(ws)
  {
    var v', x' := ws[victim].(queue := ws[victim].queue[1..]), ws[w].(pc := Stolen(ws[victim].queue[0]));
    assert ws[victim].queue == [ws[victim].queue[0]] + ws[victim].queue[1..];
    SumsUpdate(ws, victim, v', t);
    SumsUpdate(ws[victim := v'], w, x', t);
  }

  lemma GlobalStep(s: State, tasks: multiset<Task>, w: nat, left: nat)
    requires Inv(s, tasks) && w < |s.workers| && s.workers[w].pc == Global(left) && left > 0 && s.global != []
    ensures var m, x := |s.global|, s.workers[w];
      Inv(Put(s, w, W(x.queue + [s.global[m - 1]], Global(left - 1))).(global := s.global[..m - 1]), tasks)
  {
    var m, x := |s.global|, s.workers[w];
    var y := W(x.queue + [s.global[m - 1]], Global(left - 1));
    assert PlaceOk(x);
    assert s.global[..m - 1] + [s.global[m - 1]] == s.global;
    OneWorker(s, Put(s, w, y).(global := s.global[..m - 1]), tasks, w, y);
  }

  lemma ReportStep(s: State, tasks: multiset<Task>, w: nat)
    requires Inv(s, tasks) && w < |s.workers| && s.workers[w].pc.Report?
    ensures Inv(Put(s, w, s.workers[w].(pc := Pop))
                .(pending := s.pending - 1, notified := s.notified + if s.pending == 1 then 1 else 0), tasks)
  {
    assert PlaceOk(s.workers[w]);
    OpenBound(s.workers, w);
    var t := s.executed[0];
    assert t in multiset(s.executed);
    assert multiset(s.global)[t] + Held(s.workers, t) + multiset(s.executed)[t] == tasks[t];
    OneWorker(s, Put(s, w, s.workers[w].(pc := Pop))
              .(pending := s.pending - 1, notified := s.notified + if s.pending == 1 then 1 else 0),
              tasks, w, s.workers[w].(pc := Pop));
  }

  lemma StealKeepsInv(s: State, tasks: multiset<Task>, w: nat, victim: nat)
    requires Inv(s, tasks) && Possible(s, Work(w, victim)) && s.workers[w].pc.Steal?
    ensures Inv(Step(s, Work(w, victim)), tasks)
  {
    var x := s.workers[w];
    assert PlaceOk(x);
    if x.pc.tries >= |s.workers| {
      PlaceMove(s, tasks, w, Ask);
    } else if victim == w || s.workers[victim].queue == [] {
      PlaceMove(s, tasks, w, Steal(x.pc.tries + 1));
    } else {
      StealStep(s, tasks, w, victim);
    }
  }

  lemma AskKeepsInv(s: State, tasks: multiset<Task>, w: nat, victim: nat)
    requires Inv(s, tasks) && Possible(s, Work(w, victim)) && s.workers[w].pc.Ask?
    ensures Inv(Step(s, Work(w, victim)), tasks)
  {
    assert PlaceOk(s.workers[w]);
    if s.global != [] {
      PlaceMove(s, tasks, w, Global(Min(|s.global|, CAPACITY / 2)));
    } else if s.stop {
      PlaceMove(s, tasks, w, Exited);
    } else {
      PlaceMove(s, tasks, w, Pop);
    }
  }

  lemma TaskKeepsInv(s: State, tasks: multiset<Task>, w: nat, victim: nat)
    requires Inv(s, tasks) && Possible(s, Work(w, victim))
    requires s.workers[w].pc.Run? || s.workers[w].pc.Report? || s.workers[w].pc.Stolen?
    ensures Inv(Step(s, Work(w, victim)), tasks)
  {
    match s.workers[w].pc
    case Run(t) => RunStep(s, tasks, w, t);
    case Report => ReportStep(s, tasks, w);
    case Stolen(t) => StolenStep(s, tasks, w, t);
  }

  lemma PopKeepsInv(s: State, tasks: multiset<Task>, w: nat, victim: nat)
    requires Inv(s, tasks) && Possible(s, Work(w, victim)) && s.workers[w].pc.Pop?
    ensures Inv(Step(s, Work(w, victim)), tasks)
  {
    assert PlaceOk(s.workers[w]);
    if s.workers[w].queue != [] {
      PopStep(s, tasks, w);
    } else {
      PlaceMove(s, tasks, w, Steal(0));
    }
  }

  lemma GlobalKeepsInv(s: State, tasks: multiset<Task>, w: nat, victim: nat)
    requires Inv(s, tasks) && Possible(s, Work(w, victim)) && s.workers[w].pc.Global?
    ensures Inv(Step(s, Work(w, victim)), tasks)
  {
    assert PlaceOk(s.workers[w]);
    if s.workers[w].pc.left > 0 && s.global != [] {
      GlobalStep(s, tasks, w, s.workers[w].pc.left);
    } else {
      PlaceMove(s, tasks, w, Pop);
    }
  }

  lemma StepKeepsInv(s: State, tasks: multiset<Task>, e: Event)
    requires Inv(s, tasks) && Possible(s, e)
    ensures Inv(Step(s, e), tasks)
  {
    if e.Work? {
      var pc := s.workers[e.w].pc;
      if pc.Steal? {
        StealKeepsInv(s, tasks, e.w, e.victim);
      } else if pc.Ask? {
        AskKeepsInv(s, tasks, e.w, e.victim);
      } else if pc.Pop? {
        PopKeepsInv(s, tasks, e.w, e.victim);
      } else if pc.Global? {
        GlobalKeepsInv(s, tasks, e.w, e.victim);
      } else {
        TaskKeepsInv(s, tasks, e.w, e.victim);
      }
    }
  }

  // ---------- every run ----------

  ghost predicate Start(s: State)
  {
    && s.executed == [] && s.pending == |s.global| && !s.stop && s.notified == 0
    && forall w :: 0 <= w < |s.workers| ==> s.workers[w] == W([], Pop)
  }

  ghost predicate Runs(s: State, es: seq<Event>)
    decreases |es|
  {
    es == [] || (Possible(s, es[0]) && Runs(Step(s, es[0]), es[1..]))
  }

  ghost function After(s: State, es: seq<Event>): State
    requires Runs(s, es)
    decreases |es|
  {
    if es == [] then s else After(Step(s, es[0]), es[1..])
  }

  lemma {:induction false} RunKeepsInv(s: State, tasks: multiset<Task>, es: seq<Event>)
    requires Inv(s, tasks) && Runs(s, es)
    ensures Inv(After(s, es), tasks)
    decreases |es|
  {
    if es != [] {
      StepKeepsInv(s, tasks, es[0]);
      RunKeepsInv(Step(s, es[0]), tasks, es[1..]);
    }
  }

  lemma StartIsGood(s: State)
    requires Start(s)
    ensures Inv(s, multiset(s.global))
  {
    forall t
      ensures Held(s.workers, t) == 0
    {
      SumsZero(s.workers, t);
    }
    SumsZero(s.workers, 0);
    assert |multiset(s.global)| == |s.global|;
  }

  /** In every run no queue ever holds more than half of its ring, although push never checks, and
      every task is run exactly once by the time the workers are told to stop. */
  lemma NeverOverflowsAndRunsAll(s: State, es: seq<Event>)
    requires Start(s) && Runs(s, es)
    ensures var r := After(s, es);
      && (forall w :: 0 <= w < |r.workers| ==> |r.workers[w].queue| <= CAPACITY / 2)
      && multiset(r.executed) <= multiset(s.global)
      && (r.stop ==> multiset(r.executed) == multiset(s.global) && r.global == [])
      && (s.global != [] ==> r.notified == if r.pending == 0 then 1 else 0)
  {
    var tasks := multiset(s.global);
    StartIsGood(s);
    RunKeepsInv(s, tasks, es);
    var r := After(s, es);
    assert s.global != [] ==> s.global[0] in tasks;
    forall w | 0 <= w < |r.workers|
      ensures |r.workers[w].queue| <= CAPACITY / 2
    {
      assert PlaceOk(r.workers[w]);
    }
    forall t
      ensures multiset(r.executed)[t] <= tasks[t] && (r.stop ==> multiset(r.executed)[t] == tasks[t])
    {
      SumsZero(r.workers, t);
      assert multiset(r.global)[t] + Held(r.workers, t) + multiset(r.executed)[t] == tasks[t];
    }
  }
}
