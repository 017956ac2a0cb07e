/** The simple worker: every task straight from the global queue. The reference that the batching
    scheduler is compared with. */
module CentralQueue {
  import opened Workers
  import Scheduler

  datatype Pc = Take | Holding(task: Task) | Report | Exited

  datatype State = State(global: seq<Task>, workers: seq<Pc>, executed: seq<Task>,
                         pending: int, stop: bool, notified: nat)

  datatype Event = Work(w: nat) | StopAll

  ghost predicate Possible(s: State, e: Event)
  {
    match e
    case StopAll => s.pending == 0
    case Work(w) => w < |s.workers| && !s.workers[w].Exited?
  }

  ghost function Step(s: State, e: Event): State
    requires Possible(s, e)
  {
    match e
    case StopAll => s.(stop := true)
    case Work(w) =>
      match s.workers[w]
      case Take =>
        if s.global != [] then s.(workers := s.workers[w := Holding(s.global[0])], global := s.global[1..])
        else if s.stop then s.(workers := s.workers[w := Exited])
        else s
      case Holding(t) => s.(workers := s.workers[w := Report], executed := s.executed + [t])
      case Report =>
        s.(workers := s.workers[w := Take], pending := s.pending - 1,
           notified := s.notified + if s.pending == 1 then 1 else 0)
      case Exited => s
  }

  ghost function Held(ws: seq<Pc>, t: Task): nat
  {
    if ws == [] then 0 else (if ws[0] == Holding(t) then 1 else 0) + Held(ws[1..], t)
  }

  /** Workers with a task in hand, run or not, that they have not reported. */
  ghost function Busy(ws: seq<Pc>): nat
  {
    if ws == [] then 0 else (if ws[0].Holding? || ws[0].Report? then 1 else 0) + Busy(ws[1..])
  }

  lemma {:induction false} HeldUpdate(ws: seq<Pc>, w: nat, x: Pc, t: Task)
    requires w < |ws|
    ensures Held(ws[w := x], t) ==
      Held(ws, t) + (if x == Holding(t) then 1 else 0) - (if ws[w] == Holding(t) then 1 else 0)
    ensures Busy(ws[w := x]) ==
      Busy(ws) + (if x.Holding? || x.Report? then 1 else 0) - (if ws[w].Holding? || ws[w].Report? then 1 else 0)
    ensures Busy(ws) >= if ws[w].Holding? || ws[w].Report? then 1 else 0
    decreases |ws|
  {
    if w == 0 {
      assert ws[w := x][1..] == ws[1..];
    } else {
      HeldUpdate(ws[1..], w - 1, x, t);
      assert ws[w := x][1..] == ws[1..][w - 1 := x];
    }
  }

  lemma {:induction false} NobodyBusy(ws: seq<Pc>, t: Task)
    ensures Busy(ws) == 0 ==> Held(ws, t) == 0
    ensures (forall w :: 0 <= w < |ws| ==> ws[w] == Take) ==> Busy(ws) == 0
    decreases |ws|
  {
    if ws != [] {
      NobodyBusy(ws[1..], t);
    }
  }

  ghost predicate Inv(s: State, tasks: multiset<Task>)
  {
    && (forall t :: multiset(s.global)[t] + Held(s.workers, t) + multiset(s.executed)[t] == tasks[t])
    && s.pending == |s.global| + Busy(s.workers)
    && (forall w :: 0 <= w < |s.workers| && s.workers[w].Report? ==> s.executed != [])
    && (s.stop ==> s.pending == 0)
    && s.notified == if s.pending == 0 && tasks != multiset{} then 1 else 0
  }

  ghost predicate Start(s: State)
  {
    && s.executed == [] && s.pending == |s.global| && !s.stop && s.notified == 0
    && forall w :: 0 <= w < |s.workers| ==> s.workers[w] == Take
  }

  lemma StartIsGood(s: State)
    requires Start(s)
    ensures Inv(s, multiset(s.global))
  {
    forall t
      ensures Held(s.workers, t) == 0
    {
      NobodyBusy(s.workers, t);
    }
    NobodyBusy(s.workers, 0);
    assert |multiset(s.global)| == |s.global|;
  }

  lemma OneWorker(s: State, r: State, tasks: multiset<Task>, w: nat, x: Pc)
    requires Inv(s, tasks) && w < |s.workers| && r.workers == s.workers[w := x]
    requires forall t :: multiset(r.global)[t] + multiset(r.executed)[t] + (if x == Holding(t) then 1 else 0)
                         == multiset(s.global)[t] + multiset(s.executed)[t]
                            + (if s.workers[w] == Holding(t) then 1 else 0)
    requires r.pending - |r.global| - (if x.Holding? || x.Report? then 1 else 0)
             == s.pending - |s.global| - (if s.workers[w].Holding? || s.workers[w].Report? then 1 else 0)
    requires |r.executed| >= |s.executed| && (x.Report? ==> r.executed != [])
    requires r.stop == s.stop && (r.stop ==> r.pending == 0)
    requires r.notified == if r.pending == 0 && tasks != multiset{} then 1 else 0
    ensures Inv(r, tasks)
  {
    HeldUpdate(s.workers, w, x, 0);
    forall t
      ensures multiset(r.global)[t] + Held(r.workers, t) + multiset(r.executed)[t] == tasks[t]
    {
      HeldUpdate(s.workers, w, x, t);
      assert multiset(s.global)[t] + Held(s.workers, t) + multiset(s.executed)[t] == tasks[t];
    }
  }

  lemma TakeStep(s: State, tasks: multiset<Task>, w: nat)
    requires Inv(s, tasks) && Possible(s, Work(w)) && s.workers[w].Take?
    ensures Inv(Step(s, Work(w)), tasks)
  {
    if s.global != [] {
      assert s.global == [s.global[0]] + s.global[1..];
      OneWorker(s, Step(s, Work(w)), tasks, w, Holding(s.global[0]));
    } else if s.stop {
      OneWorker(s, Step(s, Work(w)), tasks, w, Exited);
    }
  }

  lemma ReportStep(s: State, tasks: multiset<Task>, w: nat)
    requires Inv(s, tasks) && Possible(s, Work(w)) && s.workers[w].Report?
    ensures Inv(Step(s, Work(w)), tasks)
  {
    HeldUpdate(s.workers, w, Take, 0);
    var t := s.executed[0];
    assert t in multiset(s.executed);
    assert multiset(s.global)[t] + Held(s.workers, t) + multiset(s.executed)[t] == tasks[t];
    OneWorker(s, Step(s, Work(w)), tasks, w, Take);
  }

  lemma StepKeepsInv(s: State, tasks: multiset<Task>, e: Event)
    requires Inv(s, tasks) && Possible(s, e)
    ensures Inv(Step(s, e), tasks)
  {
    if e.Work? {
      match s.workers[e.w]
      case Take => TakeStep(s, tasks, e.w);
      case Holding(t) => OneWorker(s, Step(s, e), tasks, e.w, Report);
      case Report => ReportStep(s, tasks, e.w);
    }
  }

  ghost predicate Run(s: State, es: seq<Event>)
    decreases |es|
  {
    es == [] || (Possible(s, es[0]) && Run(Step(s, es[0]), es[1..]))
  }

  ghost function After(s: State, es: seq<Event>): State
    requires Run(s, es)
    decreases |es|
  {
    if es == [] then s else After(Step(s, es[0]), es[1..])
  }

  lemma {:induction false} RunKeepsInv(s: State, tasks: multiset<Task>, es: seq<Event>)
    requires Inv(s, tasks) && Run(s, es)
    ensures Inv(After(s, es), tasks)
    decreases |es|
  {
    if es != [] {
      StepKeepsInv(s, tasks, es[0]);
      RunKeepsInv(Step(s, es[0]), tasks, es[1..]);
    }
  }

  lemma StoppedMeansDone(s: State, es: seq<Event>)
    requires Start(s) && Run(s, es) && After(s, es).stop
    ensures multiset(After(s, es).executed) == multiset(s.global) && After(s, es).global == []
  {
    var tasks := multiset(s.global);
    StartIsGood(s);
    RunKeepsInv(s, tasks, es);
    var r := After(s, es);
    forall t
      ensures multiset(r.executed)[t] == tasks[t]
    {
      NobodyBusy(r.workers, t);
      assert multiset(r.global)[t] + Held(r.workers, t) + multiset(r.executed)[t] == tasks[t];
    }
  }

  /** Stopped runs of the two schedulers on the same tasks have run the same tasks as often, however
      they interleaved and however many workers either had. */
  lemma SameWork(s: State, es: seq<Event>, b: Scheduler.State, bs: seq<Scheduler.Event>)
    requires Start(s) && Run(s, es) && After(s, es).stop
    requires Scheduler.Start(b) && Scheduler.Run(b, bs) && Scheduler.After(b, bs).stop
    requires multiset(s.global) == multiset(b.global)
    ensures multiset(After(s, es).executed) == multiset(Scheduler.After(b, bs).executed)
  {
    StoppedMeansDone(s, es);
    Scheduler.ExactlyOnce(b, bs);
  }

  // ---------- nobody gets stuck ----------

  /** Some run leads from s to t. */
  ghost predicate Leads(s: State, t: State)
  {
    exists es :: Run(s, es) && After(s, es) == t
  }

  lemma LeadsBehind(s: State, e: Event, t: State)
    requires Possible(s, e) && Leads(Step(s, e), t)
    ensures Leads(s, t)
  {
    var es :| Run(Step(s, e), es) && After(Step(s, e), es) == t;
    var all := [e] + es;
    assert all[0] == e && all[1..] == es;
    assert Run(s, all) && After(s, all) == t;
  }

  lemma LeadsItself(s: State)
    ensures Leads(s, s)
  {
    assert Run(s, []) && After(s, []) == s;
  }

  /** What a worker has in hand still takes. */
  ghost function Effort(x: Pc): nat
  {
    if x.Holding? then 2 else if x.Report? then 1 else 0
  }

  ghost function Efforts(ws: seq<Pc>): nat
  {
    if ws == [] then 0 else Effort(ws[0]) + Efforts(ws[1..])
  }

  lemma {:induction false} EffortsUpdate(ws: seq<Pc>, w: nat, x: Pc)
    requires w < |ws|
    ensures Efforts(ws[w := x]) == Efforts(ws) + Effort(x) - Effort(ws[w])
    decreases |ws|
  {
    if w == 0 {
      assert ws[w := x][1..] == ws[1..];
    } else {
      EffortsUpdate(ws[1..], w - 1, x);
      assert ws[w := x][1..] == ws[1..][w - 1 := x];
    }
  }

  lemma {:induction false} SomeoneIsBusy(ws: seq<Pc>) returns (w: nat)
    requires Busy(ws) > 0
    ensures w < |ws| && (ws[w].Holding? || ws[w].Report?)
  {
    if ws[0].Holding? || ws[0].Report? {
      w := 0;
    } else {
      var v := SomeoneIsBusy(ws[1..]);
      w := v + 1;
    }
  }

  ghost predicate NobodyLeft(s: State)
  {
    forall w :: 0 <= w < |s.workers| ==> !s.workers[w].Exited?
  }

  ghost function Left(s: State): nat
  {
    3 * |s.global| + Efforts(s.workers)
  }

  /** A worker with a task in hand gets on with it; if there is none, the first worker takes one. */
  lemma Progresses(s: State, tasks: multiset<Task>) returns (e: Event)
    requires Inv(s, tasks) && |s.workers| > 0 && !s.stop && NobodyLeft(s) && s.pending > 0
    ensures Possible(s, e) && !Step(s, e).stop && |Step(s, e).workers| == |s.workers| && NobodyLeft(Step(s, e))
    ensures Left(Step(s, e)) < Left(s)
  {
    var w := 0;
    HeldUpdate(s.workers, w, Take, 0);
    if Busy(s.workers) > 0 {
      w := SomeoneIsBusy(s.workers);
    }
    e := Work(w);
    EffortsUpdate(s.workers, w, Step(s, e).workers[w]);
  }

  lemma {:induction false} Finishes(s: State, tasks: multiset<Task>) returns (t: State)
    requires Inv(s, tasks) && |s.workers| > 0 && (s.stop || NobodyLeft(s))
    ensures Leads(s, t) && Inv(t, tasks) && t.stop
    decreases !s.stop, Left(s)
  {
    if s.stop {
      LeadsItself(s);
      t := s;
    } else {
      var e := StopAll;
      if s.pending > 0 {
        e := Progresses(s, tasks);
      }
      StepKeepsInv(s, tasks, e);
      t := Finishes(Step(s, e), tasks);
      LeadsBehind(s, e, t);
    }
  }

  /** What worker w will run if it is left alone: the task in its hand, then the global queue. */
  ghost function Ahead(s: State, w: nat): seq<Task>
    requires w < |s.workers|
  {
    (if s.workers[w].Holding? then [s.workers[w].task] else []) + s.global
  }

  lemma OrderKept(s: State, w: nat)
    requires Possible(s, Work(w)) && (s.workers[w].Take? ==> s.global != [])
    ensures var u := Step(s, Work(w));
      |u.workers| == |s.workers| && u.executed + Ahead(u, w) == s.executed + Ahead(s, w)
  {
    match s.workers[w]
    case Take => assert [] + s.global == [s.global[0]] + s.global[1..];
    case Holding(t) => Regroup(s.executed, [t], s.global);
    case Report =>
  }

  lemma Regroup(x: seq<Task>, y: seq<Task>, z: seq<Task>)
    ensures (x + y) + ([] + z) == x + (y + z)
  {
  }

  /** A worker that is left alone runs the global queue in order. */
  lemma {:induction false} AloneRunsInOrder(s: State, w: nat) returns (t: State)
    requires w < |s.workers| && !s.workers[w].Exited?
    ensures Leads(s, t) && t.executed == s.executed + Ahead(s, w)
    decreases |s.global|, Effort(s.workers[w])
  {
    if Ahead(s, w) == [] {
      LeadsItself(s);
      assert s.executed + [] == s.executed;
      t := s;
    } else {
      var u := Step(s, Work(w));
      OrderKept(s, w);
      t := AloneRunsInOrder(u, w);
      LeadsBehind(s, Work(w), t);
    }
  }

  lemma {:induction false} LeaversAreStopped(s: State, es: seq<Event>)
    requires Run(s, es) && (s.stop || NobodyLeft(s))
    ensures After(s, es).stop || NobodyLeft(After(s, es))
    ensures |After(s, es).workers| == |s.workers|
    decreases |es|
  {
    if es != [] {
      LeaversAreStopped(Step(s, es[0]), es[1..]);
    }
  }

  /** From every state that a run from the start reaches, some run goes on to the stop, with every task
      run as often as it was made; there need only be a worker. */
  lemma CanAlwaysFinish(s: State, es: seq<Event>) returns (t: State)
    requires Start(s) && Run(s, es) && |s.workers| > 0
    ensures Leads(After(s, es), t) && t.stop && multiset(t.executed) == multiset(s.global)
  {
    var tasks := multiset(s.global);
    StartIsGood(s);
    RunKeepsInv(s, tasks, es);
    LeaversAreStopped(s, es);
    t := Finishes(After(s, es), tasks);
    forall k
      ensures multiset(t.executed)[k] == tasks[k]
    {
      NobodyBusy(t.workers, k);
      assert multiset(t.global)[k] + Held(t.workers, k) + multiset(t.executed)[k] == tasks[k];
    }
  }
}
