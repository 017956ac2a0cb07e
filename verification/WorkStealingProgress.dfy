/** The single-file scheduler never gets stuck: from every state that it reaches some run finishes all
    tasks. */
module WorkStealingProgress {
  import opened Workers
  import opened WorkStealing

  // ---------- runs ----------

  /** Some run leads from s to t. */
  ghost predicate Leads(s: State, t: State)
  {
    exists es :: Runs(s, es) && After(s, es) == t
  }

  lemma LeadsBehind(s: State, e: Event, t: State)
    requires Possible(s, e) && Leads(Step(s, e), t)
    ensures Leads(s, t)
  {
    var es :| Runs(Step(s, e), es) && After(Step(s, e), es) == t;
    var all := [e] + es;
    assert all[0] == e && all[1..] == es;
    assert Runs(s, all) && After(s, all) == t;
  }

  lemma LeadsItself(s: State)
    ensures Leads(s, s)
  {
    assert Runs(s, []) && After(s, []) == s;
  }

  // ---------- how much is left ----------

  ghost function InHand(pc: Pc): nat
  {
    match pc
    case Stolen(_) => 5
    case Run(_) => 3
    case Report => 2
    case Global(_) => 1
    case _ => 0
  }

  ghost function Effort(x: W): nat
  {
    4 * |x.queue| + InHand(x.pc)
  }

  ghost function Efforts(ws: seq<W>): nat
  {
    if ws == [] then 0 else Effort(ws[0]) + Efforts(ws[1..])
  }

  ghost function Left(s: State): nat
  {
    6 * |s.global| + Efforts(s.workers)
  }

  lemma {:induction false} EffortsUpdate(ws: seq<W>, w: nat, x: W)
    requires w < |ws|
    ensures Efforts(ws[w := x]) == Efforts(ws) + Effort(x) - Effort(ws[w])
    decreases |ws|
  {
    if w == 0 {
      assert ws[w := x][1..] == ws[1..];
    } else {
      EffortsUpdate(ws[1..], w - 1, x);
      assert ws[w := x][1..] == ws[1..][w - 1 := x];
    }
  }

  lemma {:induction false} NothingOpen(ws: seq<W>)
    requires forall w :: 0 <= w < |ws| ==> Open(ws[w]) == 0
    ensures AllOpen(ws) == 0
  {
    if ws != [] {
      NothingOpen(ws[1..]);
    }
  }

  ghost predicate NobodyLeft(s: State)
  {
    forall w :: 0 <= w < |s.workers| ==> !s.workers[w].pc.Exited?
  }

  ghost predicate Going(s: State, tasks: multiset<Task>)
  {
    Inv(s, tasks) && !s.stop && NobodyLeft(s) && |s.workers| > 0
  }

  lemma MovesOnly(s: State, w: nat)
    requires w < |s.workers| && Possible(s, Work(w, w)) && !s.stop && NobodyLeft(s)
    ensures var t := Step(s, Work(w, w));
      && !t.stop && |t.workers| == |s.workers| && t.workers == s.workers[w := t.workers[w]] && NobodyLeft(t)
  {
  }

  /** A step of worker w that changes nobody else and steals from nobody. */
  lemma Moves(s: State, tasks: multiset<Task>, w: nat) returns (t: State)
    requires Going(s, tasks) && w < |s.workers| && Possible(s, Work(w, w))
    ensures t == Step(s, Work(w, w)) && Going(t, tasks)
    ensures |t.workers| == |s.workers| && t.workers == s.workers[w := t.workers[w]]
    ensures Efforts(t.workers) == Efforts(s.workers) + Effort(t.workers[w]) - Effort(s.workers[w])
  {
    StepKeepsInv(s, tasks, Work(w, w));
    MovesOnly(s, w);
    t := Step(s, Work(w, w));
    EffortsUpdate(s.workers, w, t.workers[w]);
  }

  /** A worker that holds a task, or the global lock, gets on with it. */
  lemma Handles(s: State, tasks: multiset<Task>, w: nat) returns (t: State)
    requires Going(s, tasks) && w < |s.workers|
    requires InHand(s.workers[w].pc) > 0 || s.workers[w].queue != []
    ensures Possible(s, Work(w, w)) && t == Step(s, Work(w, w)) && Going(t, tasks) && Left(t) < Left(s)
  {
    assert PlaceOk(s.workers[w]);
    t := Moves(s, tasks, w);
  }

  // ---------- to the global queue ----------

  ghost function ToAsk(pc: Pc, n: nat): nat
  {
    match pc
    case Ask => 1
    case Steal(k) => if k < n then 2 + n - k else 2
    case _ => n + 3
  }

  ghost predicate AllIdle(s: State)
  {
    forall w :: 0 <= w < |s.workers| ==> s.workers[w].queue == [] && InHand(s.workers[w].pc) == 0
  }

  /** With nothing in any queue or hand, worker 0 comes to the global queue and takes a task. */
  lemma {:induction false} Fetches(s: State, tasks: multiset<Task>) returns (t: State)
    requires Going(s, tasks) && AllIdle(s) && s.global != []
    ensures Leads(s, t) && Going(t, tasks) && Left(t) < Left(s)
    decreases ToAsk(s.workers[0].pc, |s.workers|)
  {
    var e := Work(0, 0);
    var u := Moves(s, tasks, 0);
    if s.workers[0].pc.Ask? {
      assert u.workers[0].pc == Global(Min(|s.global|, CAPACITY / 2));
      t := Handles(u, tasks, 0);
      assert u.global == s.global;
      LeadsItself(t);
      LeadsBehind(u, e, t);
      TakesOne(s, u, t);
    } else {
      t := Fetches(u, tasks);
    }
    LeadsBehind(s, e, t);
  }

  /** The lock taken and one task moved: less is left than before. */
  lemma TakesOne(s: State, u: State, t: State)
    requires 0 < |s.workers| && s.workers[0].pc.Ask? && s.global != []
    requires Possible(s, Work(0, 0)) && u == Step(s, Work(0, 0)) && Possible(u, Work(0, 0)) && t == Step(u, Work(0, 0))
    ensures Left(t) < Left(s)
  {
    EffortsUpdate(s.workers, 0, u.workers[0]);
    EffortsUpdate(u.workers, 0, t.workers[0]);
  }

  // ---------- in which order ----------

  ghost function Reversed(q: seq<Task>): (r: seq<Task>)
    ensures |r| == |q|
  {
    if q == [] then [] else [q[|q| - 1]] + Reversed(q[..|q| - 1])
  }

  lemma Regroup(x: seq<Task>, y: seq<Task>, z: seq<Task>)
    ensures (x + y) + z == x + (y + z)
  {
  }

  lemma LastOfTail(g: seq<Task>, left: nat)
    requires 0 < left <= |g|
    ensures Reversed(g[|g| - left..]) == [g[|g| - 1]] + Reversed(g[..|g| - 1][|g| - left..])
  {
    var tail := g[|g| - left..];
    assert tail[left - 1] == g[|g| - 1] && tail[..left - 1] == g[..|g| - 1][|g| - left..];
  }

  /** Left alone, a worker runs its own queue with the newest task first. */
  lemma {:induction false} OwnerRunsNewestFirst(s: State, w: nat) returns (t: State)
    requires w < |s.workers| && s.workers[w].pc.Pop?
    ensures Leads(s, t) && t.executed == s.executed + Reversed(s.workers[w].queue)
    ensures w < |t.workers| && t.workers[w] == W([], Pop) && t.global == s.global
    decreases |s.workers[w].queue|
  {
    var q := s.workers[w].queue;
    if q == [] {
      LeadsItself(s);
      assert s.executed + [] == s.executed;
      t := s;
    } else {
      var e := Work(w, w);
      var s1 := Step(s, e);
      var s2 := Step(s1, e);
      var s3 := Step(s2, e);
      assert s3.executed == s.executed + [q[|q| - 1]];
      Regroup(s.executed, [q[|q| - 1]], Reversed(q[..|q| - 1]));
      t := OwnerRunsNewestFirst(s3, w);
      LeadsBehind(s2, e, t);
      LeadsBehind(s1, e, t);
      LeadsBehind(s, e, t);
    }
  }

  /** A thief takes its victim's oldest task and puts it into its own queue. */
  lemma ThiefTakesOldest(s: State, w: nat, victim: nat)
    requires w < |s.workers| && victim < |s.workers| && w != victim
    requires s.workers[w].pc.Steal? && s.workers[w].pc.tries < |s.workers| && s.workers[victim].queue != []
    ensures Possible(s, Work(w, victim)) && Possible(Step(s, Work(w, victim)), Work(w, w))
    ensures var t := Step(Step(s, Work(w, victim)), Work(w, w));
      && |t.workers| == |s.workers| && [s.workers[victim].queue[0]] + t.workers[victim].queue == s.workers[victim].queue
      && t.workers[w] == W(s.workers[w].queue + [s.workers[victim].queue[0]], Pop)
  {
  }

  /** With the global lock and `left` tasks to go, the worker takes that many from the back. */
  lemma {:induction false} LockTakes(s: State, w: nat, left: nat) returns (t: State)
    requires w < |s.workers| && s.workers[w].pc == Global(left) && left <= |s.global|
    ensures Leads(s, t) && |t.workers| == |s.workers|
    ensures t.workers[w] == W(s.workers[w].queue + Reversed(s.global[|s.global| - left..]), Pop)
    ensures t.global == s.global[..|s.global| - left]
    decreases left
  {
    var e := Work(w, w);
    var u := Step(s, e);
    if left == 0 {
      assert s.global[|s.global|..] == [] && s.global[..|s.global|] == s.global;
      assert s.workers[w].queue + [] == s.workers[w].queue;
      LeadsItself(u);
      t := u;
    } else {
      var m := |s.global|;
      LastOfTail(s.global, left);
      Regroup(s.workers[w].queue, [s.global[m - 1]], Reversed(u.global[m - left..]));
      t := LockTakes(u, w, left - 1);
      assert u.global[..m - left] == s.global[..m - left];
    }
    LeadsBehind(s, e, t);
  }

  /** One visit to the global queue takes all of it, or as much as half a ring, the newest first. */
  lemma VisitTakes(s: State, w: nat, n: nat) returns (t: State)
    requires w < |s.workers| && s.workers[w] == W([], Ask) && s.global != [] && Possible(s, Work(w, w))
    requires n == if |s.global| < 512 then |s.global| else 512
    ensures Leads(s, t) && w < |t.workers| && t.global == s.global[..|s.global| - n]
    ensures t.workers[w] == W(Reversed(s.global[|s.global| - n..]), Pop)
  {
    var u := Step(s, Work(w, w));
    t := LockTakes(u, w, n);
    LeadsBehind(s, Work(w, w), t);
  }

  // ---------- to the end ----------

  /** While something is pending, some worker can get on with it. */
  lemma Progresses(s: State, tasks: multiset<Task>) returns (t: State)
    requires Going(s, tasks) && s.pending > 0
    ensures Leads(s, t) && Going(t, tasks) && Left(t) < Left(s)
  {
    if w: nat :| w < |s.workers| && (InHand(s.workers[w].pc) > 0 || s.workers[w].queue != []) {
      t := Handles(s, tasks, w);
      LeadsItself(t);
      LeadsBehind(s, Work(w, w), t);
    } else {
      NothingOpen(s.workers);
      t := Fetches(s, tasks);
    }
  }

  lemma {:induction false} LeadsThen(s: State, es: seq<Event>, u: State)
    requires Runs(s, es) && Leads(After(s, es), u)
    ensures Leads(s, u)
    decreases |es|
  {
    if es != [] {
      LeadsThen(Step(s, es[0]), es[1..], u);
      LeadsBehind(s, es[0], u);
    }
  }

  lemma {:induction false} Finishes(s: State, tasks: multiset<Task>) returns (t: State)
    requires Going(s, tasks)
    ensures Leads(s, t) && Inv(t, tasks) && t.stop
    decreases Left(s)
  {
    if s.pending == 0 {
      StepKeepsInv(s, tasks, StopAll);
      t := Step(s, StopAll);
      LeadsItself(t);
      LeadsBehind(s, StopAll, t);
    } else {
      var u := Progresses(s, tasks);
      t := Finishes(u, tasks);
      var es :| Runs(s, es) && After(s, es) == u;
      LeadsThen(s, es, t);
    }
  }

  lemma {:induction false} LeaversAreStopped(s: State, es: seq<Event>)
    requires Runs(s, es) && (s.stop || NobodyLeft(s))
    ensures After(s, es).stop || NobodyLeft(After(s, es))
    ensures |After(s, es).workers| == |s.workers|
    decreases |es|
  {
    if es != [] {
      LeaversAreStopped(Step(s, es[0]), es[1..]);
    }
  }

  /** From every state that a run from the start reaches, some run goes on to the stop, with every task
      run exactly as often as it was made; there need only be a worker. */
  lemma CanAlwaysFinish(s: State, es: seq<Event>) returns (t: State)
    requires Start(s) && Runs(s, es) && |s.workers| > 0
    ensures Leads(After(s, es), t) && t.stop && multiset(t.executed) == multiset(s.global)
  {
    var tasks := multiset(s.global);
    StartIsGood(s);
    RunKeepsInv(s, tasks, es);
    LeaversAreStopped(s, es);
    var r := After(s, es);
    if r.stop {
      LeadsItself(r);
      t := r;
    } else {
      t := Finishes(r, tasks);
    }
    forall k
      ensures multiset(t.executed)[k] == tasks[k]
    {
      SumsZero(t.workers, k);
      assert multiset(t.global)[k] + Held(t.workers, k) + multiset(t.executed)[k] == tasks[k];
    }
  }
}
