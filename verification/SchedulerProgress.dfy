/** The batching scheduler never gets stuck: from every state that it reaches some run finishes all
    tasks. */
module SchedulerProgress {
  import opened Workers
  import opened Scheduler

  // ---------- runs ----------

  /** Some run leads from s to t. */
  ghost predicate Leads(s: State, t: State)
  {
    exists es :: Run(s, es) && After(s, es) == t
  }

  lemma {:induction false} RunThen(s: State, es: seq<Event>, fs: seq<Event>)
    requires Run(s, es) && Run(After(s, es), fs)
    ensures Run(s, es + fs) && After(s, es + fs) == After(After(s, es), fs)
    decreases |es|
  {
    if es == [] {
      assert es + fs == fs;
    } else {
      RunThen(Step(s, es[0]), es[1..], fs);
      assert (es + fs)[1..] == es[1..] + fs;
    }
  }

  lemma LeadsThen(s: State, t: State, u: State)
    requires Leads(s, t) && Leads(t, u)
    ensures Leads(s, u)
  {
    var es :| Run(s, es) && After(s, es) == t;
    var fs :| Run(t, fs) && After(t, fs) == u;
    RunThen(s, es, fs);
  }

  lemma LeadsOne(s: State, e: Event)
    requires Possible(s, e) && Bounded(s)
    ensures Leads(s, Step(s, e))
  {
    var t := Step(s, e);
    assert [e][1..] == [];
    assert Run(t, []) && After(t, []) == t;
    assert Run(s, [e]) && After(s, [e]) == t;
  }

  lemma LeadsItself(s: State)
    ensures Leads(s, s)
  {
    assert Run(s, []) && After(s, []) == s;
  }

  // ---------- how much is left ----------

  /** What a worker still has to do, and to report. */
  ghost function Effort(x: W): nat
  {
    3 * |x.queue| + 2 * |x.buffer| + x.did
  }

  ghost function Efforts(ws: seq<W>): nat
  {
    if ws == [] then 0 else Effort(ws[0]) + Efforts(ws[1..])
  }

  ghost function Left(s: State): nat
  {
    4 * |s.global| + Efforts(s.workers)
  }

  lemma {:induction false} EffortsUpdate(ws: seq<W>, w: nat, x: W)
    requires w < |ws|
    ensures Efforts(ws[w := x]) == Efforts(ws) + Effort(x) - Effort(ws[w])
    decreases |ws|
  {
    if w == 0 {
      assert ws[w := x][1..] == ws[1..];
    } else {
      EffortsUpdate(ws[1..], w - 1, x);
      assert ws[w := x][1..] == ws[1..][w - 1 := x];
    }
  }

  /** Work goes on: not stopped, and nobody has left. */
  ghost predicate Going(s: State, tasks: multiset<Task>)
  {
    Inv(s, tasks) && !s.stop && NobodyLeft(s)
  }

  ghost predicate NobodyLeft(s: State)
  {
    forall w :: 0 <= w < |s.workers| ==> !s.workers[w].pc.Exited?
  }

  /** Before the stop nobody leaves. */
  lemma NobodyLeaves(s: State, w: nat, locked: bool, victim: nat)
    requires Bounded(s) && Possible(s, Work(w, locked, victim)) && !s.stop && NobodyLeft(s)
    ensures var t := Step(s, Work(w, locked, victim));
      !t.stop && |t.workers| == |s.workers| && NobodyLeft(t)
  {
    var t := Step(s, Work(w, locked, victim));
    WorkerStays(s, w, locked, victim, w);
    forall u | 0 <= u < |s.workers| && u != w
      ensures !t.workers[u].pc.Exited?
    {
      WorkerStays(s, w, locked, victim, u);
    }
  }

  lemma WorkerStays(s: State, w: nat, locked: bool, victim: nat, u: nat)
    requires Bounded(s) && Possible(s, Work(w, locked, victim)) && !s.stop
    requires u < |s.workers| && !s.workers[u].pc.Exited?
    ensures var t := Step(s, Work(w, locked, victim));
      !t.stop && |t.workers| == |s.workers| && !t.workers[u].pc.Exited?
  {
  }

  lemma GoesOn(s: State, tasks: multiset<Task>, w: nat, locked: bool)
    requires Going(s, tasks) && w < |s.workers|
    ensures Bounded(s) && Possible(s, Work(w, locked, w))
    ensures Going(Step(s, Work(w, locked, w)), tasks) && Leads(s, Step(s, Work(w, locked, w)))
  {
    StepKeepsInv(s, tasks, Work(w, locked, w));
    NobodyLeaves(s, w, locked, w);
    LeadsOne(s, Work(w, locked, w));
  }

  /** A step of worker w that gets on with the work. */
  lemma Advances(s: State, t: State, w: nat, x: W)
    requires w < |s.workers| && t.workers == s.workers[w := x]
    requires 4 * |t.global| + Effort(x) < 4 * |s.global| + Effort(s.workers[w])
    ensures Left(t) < Left(s)
  {
    EffortsUpdate(s.workers, w, x);
  }

  // ---------- one worker ----------

  lemma Runs(s: State, tasks: multiset<Task>, w: nat) returns (t: State)
    requires Going(s, tasks) && w < |s.workers| && s.workers[w].buffer != []
    ensures Leads(s, t) && Going(t, tasks) && Left(t) < Left(s)
  {
    GoesOn(s, tasks, w, false);
    assert PlaceOk(s.workers[w]);
    t := Step(s, Work(w, false, w));
    Advances(s, t, w, t.workers[w]);
  }

  lemma Fills(s: State, tasks: multiset<Task>, w: nat) returns (t: State)
    requires Going(s, tasks) && w < |s.workers| && s.workers[w].pc.Fill? && s.workers[w].queue != []
    ensures Leads(s, t) && Going(t, tasks) && Left(t) < Left(s)
  {
    GoesOn(s, tasks, w, false);
    assert PlaceOk(s.workers[w]);
    t := Step(s, Work(w, false, w));
    Advances(s, t, w, t.workers[w]);
  }

  lemma LooksAndFills(s: State, tasks: multiset<Task>, w: nat) returns (t: State)
    requires Going(s, tasks) && w < |s.workers| && s.workers[w].buffer == [] && s.workers[w].queue != []
    ensures Leads(s, t) && Going(t, tasks) && Left(t) < Left(s)
  {
    assert PlaceOk(s.workers[w]);
    if s.workers[w].pc.Fill? {
      t := Fills(s, tasks, w);
    } else {
      GoesOn(s, tasks, w, false);
      var u := Step(s, Work(w, false, w));
      EffortsUpdate(s.workers, w, u.workers[w]);
      t := Fills(u, tasks, w);
      LeadsThen(s, u, t);
    }
  }

  lemma Fetches(s: State, tasks: multiset<Task>, w: nat) returns (t: State)
    requires Going(s, tasks) && w < |s.workers| && s.workers[w].pc.Fetch? && s.global != []
    ensures Leads(s, t) && Going(t, tasks) && Left(t) < Left(s)
  {
    GoesOn(s, tasks, w, true);
    assert PlaceOk(s.workers[w]);
    FetchFitsIff(|s.global|, |s.workers|, QUEUE_SIZE, BATCH);
    t := Step(s, Work(w, true, w));
    Advances(s, t, w, t.workers[w]);
  }

  lemma Flushes(s: State, tasks: multiset<Task>, w: nat) returns (t: State)
    requires Going(s, tasks) && w < |s.workers| && s.workers[w].pc.Flush? && s.workers[w].did > 0
    ensures Leads(s, t) && Going(t, tasks) && Left(t) < Left(s)
  {
    GoesOn(s, tasks, w, false);
    t := Step(s, Work(w, false, w));
    Advances(s, t, w, t.workers[w]);
  }

  /** How far a worker that finds nothing is from its next fetch, or from its next report. */
  ghost function ToFetch(pc: Pc, n: nat): nat
  {
    match pc
    case Fetch => 0
    case Fill => 1
    case Get => 2
    case Flush => 3
    case Check => 4
    case Steal(k) => if k < n then 5 + n - k else 5
    case Exited => 0
  }

  ghost function ToFlush(pc: Pc, n: nat): nat
  {
    match pc
    case Flush => 0
    case Check => 1
    case Steal(k) => if k < n then 2 + n - k else 2
    case Fetch => n + 3
    case Fill => n + 4
    case Get => n + 5
    case Exited => 0
  }

  /** It moves on through its loop. */
  lemma IdlesPlace(s: State, w: nat)
    requires Bounded(s) && Possible(s, Work(w, false, w)) && !s.stop
    requires s.workers[w].buffer == [] && s.workers[w].queue == []
    requires !(s.workers[w].pc.Flush? && s.workers[w].did > 0)
    ensures var t, pc := Step(s, Work(w, false, w)), s.workers[w].pc;
      && w < |t.workers| && t == Put(s, w, s.workers[w].(pc := t.workers[w].pc))
      && (!pc.Fetch? ==> ToFetch(t.workers[w].pc, |s.workers|) < ToFetch(pc, |s.workers|))
      && (!pc.Flush? ==> ToFlush(t.workers[w].pc, |s.workers|) < ToFlush(pc, |s.workers|))
  {
  }

  lemma Idles(s: State, tasks: multiset<Task>, w: nat) returns (t: State)
    requires Going(s, tasks) && w < |s.workers| && s.workers[w].buffer == [] && s.workers[w].queue == []
    requires !(s.workers[w].pc.Flush? && s.workers[w].did > 0)
    ensures Leads(s, t) && Going(t, tasks) && Left(t) == Left(s) && t.global == s.global
    ensures |t.workers| == |s.workers| && t.workers == s.workers[w := s.workers[w].(pc := t.workers[w].pc)]
    ensures !s.workers[w].pc.Fetch? ==> ToFetch(t.workers[w].pc, |s.workers|) < ToFetch(s.workers[w].pc, |s.workers|)
    ensures !s.workers[w].pc.Flush? ==> ToFlush(t.workers[w].pc, |s.workers|) < ToFlush(s.workers[w].pc, |s.workers|)
  {
    GoesOn(s, tasks, w, false);
    IdlesPlace(s, w);
    t := Step(s, Work(w, false, w));
    EffortsUpdate(s.workers, w, t.workers[w]);
  }

  lemma {:induction false} DrivesToFetch(s: State, tasks: multiset<Task>, w: nat) returns (t: State)
    requires Going(s, tasks) && w < |s.workers| && s.workers[w].buffer == [] && s.workers[w].queue == []
    requires s.global != []
    ensures Leads(s, t) && Going(t, tasks) && Left(t) < Left(s)
    decreases ToFetch(s.workers[w].pc, |s.workers|)
  {
    if s.workers[w].pc.Fetch? {
      t := Fetches(s, tasks, w);
    } else if s.workers[w].pc.Flush? && s.workers[w].did > 0 {
      t := Flushes(s, tasks, w);
    } else {
      var u := Idles(s, tasks, w);
      t := DrivesToFetch(u, tasks, w);
      LeadsThen(s, u, t);
    }
  }

  lemma {:induction false} DrivesToFlush(s: State, tasks: multiset<Task>, w: nat) returns (t: State)
    requires Going(s, tasks) && w < |s.workers| && s.workers[w].buffer == [] && s.workers[w].queue == []
    requires s.workers[w].did > 0
    ensures Leads(s, t) && Going(t, tasks) && Left(t) < Left(s)
    decreases ToFlush(s.workers[w].pc, |s.workers|)
  {
    if s.workers[w].pc.Flush? {
      t := Flushes(s, tasks, w);
    } else {
      var u := Idles(s, tasks, w);
      t := DrivesToFlush(u, tasks, w);
      LeadsThen(s, u, t);
    }
  }

  // ---------- in which order ----------

  /** What worker w will run if it is left alone: its buffer, its ring, then the global queue. */
  ghost function Ahead(s: State, w: nat): seq<Task>
    requires w < |s.workers|
  {
    s.workers[w].buffer + s.workers[w].queue + s.global
  }

  lemma Regroup(x: seq<Task>, y: seq<Task>, z: seq<Task>, u: seq<Task>)
    ensures (x + y) + (z + u) == x + (y + z + u) && (x + y) + z + u == x + (y + z) + u && [] + [] + u == u
  {
  }

  lemma GetKeepsOrder(s: State, w: nat, locked: bool)
    requires Bounded(s) && Possible(s, Work(w, locked, w)) && s.workers[w].pc.Get? && s.workers[w].buffer != []
    ensures var t := Step(s, Work(w, locked, w));
      |t.workers| == |s.workers| && t.executed + Ahead(t, w) == s.executed + Ahead(s, w)
  {
    var x, t := s.workers[w], Step(s, Work(w, locked, w));
    var first, rest := [x.buffer[0]], x.buffer[1..];
    assert x.buffer == first + rest && t.executed == s.executed + first;
    Regroup(s.executed, first, rest, x.queue + s.global);
    assert Ahead(s, w) == first + rest + (x.queue + s.global);
    assert Ahead(t, w) == rest + (x.queue + s.global);
  }

  lemma FillKeepsOrder(s: State, w: nat, locked: bool)
    requires Bounded(s) && Possible(s, Work(w, locked, w)) && s.workers[w].pc.Fill? && s.workers[w].queue != []
    ensures var t := Step(s, Work(w, locked, w));
      |t.workers| == |s.workers| && t.executed + Ahead(t, w) == s.executed + Ahead(s, w)
  {
    var x := s.workers[w];
    var c := Min(|x.queue|, BUFFER_SIZE);
    assert x.queue == x.queue[..c] + x.queue[c..];
    Regroup(x.buffer, x.queue[..c], x.queue[c..], s.global);
  }

  lemma FetchKeepsOrder(s: State, w: nat)
    requires Bounded(s) && Possible(s, Work(w, true, w)) && s.workers[w].pc.Fetch?
    requires s.workers[w].buffer == [] && s.workers[w].queue == []
    ensures var t := Step(s, Work(w, true, w));
      |t.workers| == |s.workers| && t.executed + Ahead(t, w) == s.executed + Ahead(s, w)
  {
    if s.global != [] {
      var c := FetchCount(|s.global|, |s.workers|, QUEUE_SIZE, BATCH);
      FetchFitsIff(|s.global|, |s.workers|, QUEUE_SIZE, BATCH);
      FetchEffect(s, w, c);
      FetchSplit(s.global, c);
    }
  }

  lemma FetchEffect(s: State, w: nat, c: nat)
    requires Bounded(s) && Possible(s, Work(w, true, w)) && s.workers[w].pc.Fetch? && s.global != []
    requires s.workers[w].buffer == [] && s.workers[w].queue == [] && c <= |s.global|
    requires c == FetchCount(|s.global|, |s.workers|, QUEUE_SIZE, BATCH)
    ensures var t := Step(s, Work(w, true, w));
      && |t.workers| == |s.workers| && t.executed == s.executed
      && Ahead(t, w) == [] + ([] + s.global[..c]) + s.global[c..]
  {
  }

  lemma FetchSplit(g: seq<Task>, c: nat)
    requires c <= |g|
    ensures [] + ([] + g[..c]) + g[c..] == [] + [] + g
  {
  }

  /** A step of w that does not steal leaves this order alone. */
  lemma OrderKept(s: State, w: nat)
    requires Bounded(s) && w < |s.workers| && Possible(s, Work(w, s.workers[w].pc.Fetch?, w))
    requires !s.workers[w].pc.Fetch? || (s.workers[w].buffer == [] && s.workers[w].queue == [])
    ensures var t := Step(s, Work(w, s.workers[w].pc.Fetch?, w));
      |t.workers| == |s.workers| && t.executed + Ahead(t, w) == s.executed + Ahead(s, w)
  {
    var x := s.workers[w];
    if x.pc.Get? && x.buffer != [] {
      GetKeepsOrder(s, w, false);
    } else if x.pc.Fill? && x.queue != [] {
      FillKeepsOrder(s, w, false);
    } else if x.pc.Fetch? {
      FetchKeepsOrder(s, w);
    }
  }

  /** Every such step gets on with the work, or takes w closer to its next fetch. */
  lemma AloneStep(s: State, tasks: multiset<Task>, w: nat) returns (t: State)
    requires Going(s, tasks) && w < |s.workers| && Ahead(s, w) != []
    ensures Leads(s, t) && Going(t, tasks) && |t.workers| == |s.workers|
    ensures t.executed + Ahead(t, w) == s.executed + Ahead(s, w)
    ensures Left(t) < Left(s)
      || (Left(t) == Left(s) && ToFetch(t.workers[w].pc, |s.workers|) < ToFetch(s.workers[w].pc, |s.workers|))
  {
    var x := s.workers[w];
    assert PlaceOk(x);
    GoesOn(s, tasks, w, x.pc.Fetch?);
    OrderKept(s, w);
    t := Step(s, Work(w, x.pc.Fetch?, w));
    AloneGetsOn(s, w);
  }

  lemma AloneGetsOn(s: State, w: nat)
    requires Bounded(s) && w < |s.workers| && PlaceOk(s.workers[w]) && Ahead(s, w) != [] && !s.stop
    requires Possible(s, Work(w, s.workers[w].pc.Fetch?, w))
    ensures var t := Step(s, Work(w, s.workers[w].pc.Fetch?, w));
      && |t.workers| == |s.workers|
      && (Left(t) < Left(s)
          || (Left(t) == Left(s) && ToFetch(t.workers[w].pc, |s.workers|) < ToFetch(s.workers[w].pc, |s.workers|)))
  {
    var x, t := s.workers[w], Step(s, Work(w, s.workers[w].pc.Fetch?, w));
    EffortsUpdate(s.workers, w, t.workers[w]);
    if x.pc.Fetch? {
      FetchFitsIff(|s.global|, |s.workers|, QUEUE_SIZE, BATCH);
    }
  }

  /** A worker that is left alone runs its buffer, its ring and the global queue in this order. */
  lemma {:induction false} AloneRunsInOrder(s: State, tasks: multiset<Task>, w: nat) returns (t: State)
    requires Going(s, tasks) && w < |s.workers|
    ensures Leads(s, t) && Going(t, tasks) && t.executed == s.executed + Ahead(s, w)
    decreases Left(s), ToFetch(s.workers[w].pc, |s.workers|)
  {
    if Ahead(s, w) == [] {
      LeadsItself(s);
      assert s.executed + [] == s.executed;
      t := s;
    } else {
      var u := AloneStep(s, tasks, w);
      t := AloneRunsInOrder(u, tasks, w);
      LeadsThen(s, u, t);
    }
  }

  /** A thief with room takes the first half of its victim's ring, rounded up, in order. */
  lemma StealTakesFirstHalf(s: State, tasks: multiset<Task>, w: nat, victim: nat)
    requires Going(s, tasks) && w < |s.workers| && victim < |s.workers| && w != victim
    requires s.workers[w].pc.Steal? && s.workers[w].pc.tries < |s.workers| && s.workers[victim].queue != []
    ensures Bounded(s) && Possible(s, Work(w, true, victim))
    ensures var t := Step(s, Work(w, true, victim));
      && |t.workers| == |s.workers|
      && t.workers[w].queue + t.workers[victim].queue == s.workers[victim].queue
      && |t.workers[victim].queue| <= |t.workers[w].queue| <= |t.workers[victim].queue| + 1
  {
    assert PlaceOk(s.workers[w]) && PlaceOk(s.workers[victim]);
    StepKeepsInv(s, tasks, Work(w, true, victim));
    StealTakesHalf(|s.workers[victim].queue|, QUEUE_SIZE, BATCH);
    StealFits(|s.workers[victim].queue|, QUEUE_SIZE, BATCH);
  }

  // ---------- to the end ----------

  lemma {:induction false} SomeoneIsBehind(ws: seq<W>) returns (w: nat)
    requires Waiting(ws) == 0 && Unreported(ws) > 0
    ensures w < |ws| && ws[w].did > 0
  {
    if ws[0].did > 0 {
      w := 0;
    } else {
      var v := SomeoneIsBehind(ws[1..]);
      w := v + 1;
    }
  }

  lemma {:induction false} NobodyHolds(ws: seq<W>)
    requires forall w :: 0 <= w < |ws| ==> ws[w].buffer == [] && ws[w].queue == []
    ensures Waiting(ws) == 0
  {
    if ws != [] {
      NobodyHolds(ws[1..]);
    }
  }

  /** While something is pending, some worker can get on with it. */
  lemma Progresses(s: State, tasks: multiset<Task>) returns (t: State)
    requires Going(s, tasks) && s.pending > 0
    ensures Leads(s, t) && Going(t, tasks) && Left(t) < Left(s)
  {
    if w: nat :| w < |s.workers| && s.workers[w].buffer != [] {
      t := Runs(s, tasks, w);
    } else if w: nat :| w < |s.workers| && s.workers[w].queue != [] {
      t := LooksAndFills(s, tasks, w);
    } else if s.global != [] {
      t := DrivesToFetch(s, tasks, 0);
    } else {
      NobodyHolds(s.workers);
      var w := SomeoneIsBehind(s.workers);
      t := DrivesToFlush(s, tasks, w);
    }
  }

  lemma {:induction false} Finishes(s: State, tasks: multiset<Task>) returns (t: State)
    requires Going(s, tasks)
    ensures Leads(s, t) && Inv(t, tasks) && t.stop
    decreases Left(s)
  {
    if s.pending == 0 {
      StepKeepsInv(s, tasks, StopAll);
      LeadsOne(s, StopAll);
      t := Step(s, StopAll);
    } else {
      var u := Progresses(s, tasks);
      t := Finishes(u, tasks);
      LeadsThen(s, u, t);
    }
  }

  lemma {:induction false} LeaversAreStopped(s: State, tasks: multiset<Task>, es: seq<Event>)
    requires Inv(s, tasks) && Run(s, es) && (s.stop || NobodyLeft(s))
    ensures After(s, es).stop || NobodyLeft(After(s, es))
    decreases |es|
  {
    if es != [] {
      StepKeepsInv(s, tasks, es[0]);
      LeaverIsStopped(s, es[0]);
      LeaversAreStopped(Step(s, es[0]), tasks, es[1..]);
    }
  }

  lemma LeaverIsStopped(s: State, e: Event)
    requires Bounded(s) && Possible(s, e) && (s.stop || NobodyLeft(s))
    ensures Step(s, e).stop || NobodyLeft(Step(s, e))
  {
    if e.Work? && !s.stop {
      NobodyLeaves(s, e.w, e.locked, e.victim);
    }
  }

  /** From every state that a run from the start reaches, some run goes on to the stop, and by then every
      task has been run exactly as often as it was made. */
  lemma CanAlwaysFinish(s: State, es: seq<Event>) returns (t: State)
    requires Start(s) && Run(s, es)
    ensures Leads(After(s, es), t) && t.stop && multiset(t.executed) == multiset(s.global)
  {
    var tasks := multiset(s.global);
    StartIsGood(s);
    RunKeepsInv(s, tasks, es);
    LeaversAreStopped(s, tasks, es);
    var r := After(s, es);
    if r.stop {
      LeadsItself(r);
      t := r;
    } else {
      t := Finishes(r, tasks);
    }
    ZeroMeansDone(t, tasks);
  }
}
