/** The locks behind the scheduler's steps: one for the global queue and one per worker. Fetching and
    stealing take both of their locks by try-lock; only FillBuffer waits. */
module WorkerLocks {
  import opened Workers

  datatype Lock = GlobalLock | Own(w: nat)

  /** Where a worker's loop stands: running tasks; waiting for or inside FillBuffer; about to fetch,
      holding the first or both locks of a fetch; drawing victims, holding the first or both locks of a
      steal from v. */
  datatype Pc = Work | FillWant | FillIn | Look | FetchG | FetchBoth | Hunt | StealV(v: nat) | StealBoth(v: nat)

  /** queue is how many tasks the worker's ring holds. */
  datatype W = W(pc: Pc, queue: nat)

  datatype State = State(owner: map<Lock, nat>, ws: seq<W>)

  /** Go is a worker's next step; n is how many tasks a fetch finds for it. Draw picks a victim, any
      worker, itself included. GiveUp ends the hunt. */
  datatype Event = Go(w: nat, n: nat) | Draw(w: nat, v: nat) | GiveUp(w: nat)

  ghost function Holds(pc: Pc, w: nat): set<Lock>
  {
    match pc
    case FillIn => {Own(w)}
    case FetchG => {GlobalLock}
    case FetchBoth => {GlobalLock, Own(w)}
    case StealV(v) => {Own(v)}
    case StealBoth(v) => {Own(v), Own(w)}
    case _ => {}
  }

  ghost predicate Has(pc: Pc, w: nat, l: Lock)
  {
    l in Holds(pc, w)
  }

  ghost predicate Possible(s: State, e: Event)
  {
    && e.w < |s.ws|
    && match e
       case Go(w, n) =>
         && !s.ws[w].pc.Hunt? && (s.ws[w].pc.FillWant? ==> Own(w) !in s.owner)
         && (s.ws[w].pc.FetchBoth? ==> n + s.ws[w].queue <= QUEUE_SIZE)
       case Draw(w, v) => s.ws[w].pc.Hunt? && v < |s.ws|
       case GiveUp(w) => s.ws[w].pc.Hunt?
  }

  ghost function To(s: State, w: nat, x: W): State
    requires w < |s.ws|
  {
    State((s.owner - Holds(s.ws[w].pc, w)) + (map l | l in Holds(x.pc, w) :: w), s.ws[w := x])
  }

  /** How many tasks a thief with an empty ring takes from a ring of n. */
  ghost function Loot(n: nat): nat
  {
    StealCount(n, QUEUE_SIZE, BATCH)
  }

  ghost function Robbed(s: State, v: nat): State
    requires v < |s.ws|
  {
    StealFits(s.ws[v].queue, QUEUE_SIZE, BATCH);
    s.(ws := s.ws[v := s.ws[v].(queue := s.ws[v].queue - Loot(s.ws[v].queue))])
  }

  ghost function Step(s: State, e: Event): State
    requires Possible(s, e)
  {
    var x := s.ws[e.w];
    match e
    case Draw(w, v) =>
      // an empty victim is passed over before its lock is tried
      if s.ws[v].queue == 0 || Own(v) in s.owner then s else To(s, w, x.(pc := StealV(v)))
    case GiveUp(w) => To(s, w, x.(pc := Work))
    case Go(w, n) =>
      match x.pc
      case Work => To(s, w, x.(pc := FillWant))
      case FillWant => To(s, w, x.(pc := FillIn))
      case FillIn =>
        To(s, w, if x.queue == 0 then x.(pc := Look) else W(Work, x.queue - Min(x.queue, BUFFER_SIZE)))
      case Look => To(s, w, x.(pc := if GlobalLock in s.owner then Hunt else FetchG))
      case FetchG => To(s, w, x.(pc := if Own(w) in s.owner || n == 0 then Hunt else FetchBoth))
      case FetchBoth => To(s, w, W(if n > 0 then Work else Hunt, x.queue + n))
      case StealV(v) =>
        To(s, w, x.(pc := if Own(w) in s.owner || v >= |s.ws| || s.ws[v].queue == 0 then Hunt else StealBoth(v)))
      case StealBoth(v) =>
        if v >= |s.ws| || v == w then To(s, w, x.(pc := Hunt))
        else
          var c := Loot(s.ws[v].queue);
          To(Robbed(s, v), w, W(if c > 0 then Work else Hunt, x.queue + c))
      case Hunt => s
  }

  /** The owner map records exactly who holds what. */
  ghost predicate Owned(s: State)
  {
    && (forall w, l :: 0 <= w < |s.ws| && Has(s.ws[w].pc, w, l) ==> l in s.owner && s.owner[l] == w)
    && (forall l :: l in s.owner ==> s.owner[l] < |s.ws| && Has(s.ws[s.owner[l]].pc, s.owner[l], l))
  }

  /** A worker that looks for tasks outside has an empty ring, so it never has its own lock to try as
      a victim's. */
  ghost predicate PlaceOk(s: State, w: nat)
    requires w < |s.ws|
  {
    var x := s.ws[w];
    && x.queue <= QUEUE_SIZE
    && (!x.pc.Work? && !x.pc.FillWant? && !x.pc.FillIn? ==> x.queue == 0)
    && (x.pc.StealV? || x.pc.StealBoth? ==> x.pc.v < |s.ws| && x.pc.v != w)
  }

  ghost predicate Inv(s: State)
  {
    Owned(s) && forall w :: 0 <= w < |s.ws| ==> PlaceOk(s, w)
  }

  lemma HolderOwns(s: State, w: nat, l: Lock)
    requires Owned(s) && w < |s.ws| && Has(s.ws[w].pc, w, l)
    ensures l in s.owner && s.owner[l] == w
  {
  }

  lemma MoveKeepsOwned(s: State, w: nat, x: W)
    requires Owned(s) && w < |s.ws|
    requires forall l :: Has(x.pc, w, l) ==> Has(s.ws[w].pc, w, l) || l !in s.owner
    ensures Owned(To(s, w, x))
  {
    var t := To(s, w, x);
    forall u, l | 0 <= u < |t.ws| && Has(t.ws[u].pc, u, l)
      ensures l in t.owner && t.owner[l] == u
    {
      if u != w {
        assert Has(s.ws[u].pc, u, l) && s.owner[l] == u;
        assert !Has(s.ws[w].pc, w, l) && !Has(x.pc, w, l);
      }
    }
    forall l | l in t.owner
      ensures t.owner[l] < |t.ws| && Has(t.ws[t.owner[l]].pc, t.owner[l], l)
    {
      if !Has(x.pc, w, l) {
        assert l in s.owner && !Has(s.ws[w].pc, w, l) && t.owner[l] == s.owner[l];
        assert Has(s.ws[s.owner[l]].pc, s.owner[l], l);
      }
    }
  }

  lemma MoveKeepsInv(s: State, w: nat, x: W)
    requires Inv(s) && w < |s.ws| && PlaceOk(To(s, w, x), w)
    requires forall l :: Has(x.pc, w, l) ==> Has(s.ws[w].pc, w, l) || l !in s.owner
    ensures Inv(To(s, w, x))
  {
    MoveKeepsOwned(s, w, x);
    forall u | 0 <= u < |s.ws|
      ensures PlaceOk(To(s, w, x), u)
    {
      assert PlaceOk(s, u);
    }
  }

  lemma RobKeepsInv(s: State, v: nat)
    requires Inv(s) && v < |s.ws|
    ensures Inv(Robbed(s, v))
  {
    var t := Robbed(s, v);
    StealFits(s.ws[v].queue, QUEUE_SIZE, BATCH);
    forall u | 0 <= u < |s.ws|
      ensures PlaceOk(t, u) && t.ws[u].pc == s.ws[u].pc
    {
      assert PlaceOk(s, u);
    }
  }

  lemma LootKeepsInv(s: State, w: nat, v: nat, c: nat)
    requires Inv(s) && w < |s.ws| && v < |s.ws| && s.ws[w].pc == StealBoth(v) && c <= QUEUE_SIZE
    ensures Inv(To(s, w, W(if c > 0 then Work else Hunt, s.ws[w].queue + c)))
  {
    assert PlaceOk(s, w);
    MoveKeepsInv(s, w, W(if c > 0 then Work else Hunt, s.ws[w].queue + c));
  }

  lemma StealKeepsInv(s: State, w: nat)
    requires Inv(s) && w < |s.ws| && s.ws[w].pc.StealBoth?
    ensures Inv(Step(s, Go(w, 0)))
  {
    assert PlaceOk(s, w);
    var v := s.ws[w].pc.v;
    StealFits(s.ws[v].queue, QUEUE_SIZE, BATCH);
    RobKeepsInv(s, v);
    LootKeepsInv(Robbed(s, v), w, v, Loot(s.ws[v].queue));
  }

  /** Any other step moves one worker, which takes only locks that are free. */
  ghost predicate Takes(s: State, w: nat, x: W)
    requires w < |s.ws|
  {
    && (forall l :: Has(x.pc, w, l) ==> Has(s.ws[w].pc, w, l) || l !in s.owner)
    && x.queue <= QUEUE_SIZE && (!x.pc.Work? && !x.pc.FillWant? && !x.pc.FillIn? ==> x.queue == 0)
    && (x.pc.StealV? || x.pc.StealBoth? ==> x.pc.v < |s.ws| && x.pc.v != w)
  }

  lemma GoTakes(s: State, w: nat, n: nat)
    requires w < |s.ws| && PlaceOk(s, w) && Possible(s, Go(w, n)) && !s.ws[w].pc.StealBoth?
    ensures var t := Step(s, Go(w, n)); w < |t.ws| && t == To(s, w, t.ws[w]) && Takes(s, w, t.ws[w])
  {
  }

  lemma StepKeepsInv(s: State, e: Event)
    requires Inv(s) && Possible(s, e)
    ensures Inv(Step(s, e))
  {
    assert PlaceOk(s, e.w);
    match e
    case Go(w, n) =>
      if s.ws[w].pc.StealBoth? {
        StealKeepsInv(s, w);
      } else {
        GoTakes(s, w, n);
        MoveKeepsInv(s, w, Step(s, e).ws[w]);
      }
    case Draw(w, v) =>
      if Step(s, e) != s {
        MoveKeepsInv(s, w, s.ws[w].(pc := StealV(v)));
      }
    case GiveUp(w) => MoveKeepsInv(s, w, s.ws[w].(pc := Work));
  }

  ghost predicate Start(s: State)
  {
    s.owner == map[] && forall w :: 0 <= w < |s.ws| ==> s.ws[w] == W(Work, 0)
  }

  ghost predicate Run(s: State, es: seq<Event>)
    decreases |es|
  {
    es == [] || (Possible(s, es[0]) && Run(Step(s, es[0]), es[1..]))
  }

  ghost function After(s: State, es: seq<Event>): State
    requires Run(s, es)
    decreases |es|
  {
    if es == [] then s else After(Step(s, es[0]), es[1..])
  }

  lemma {:induction false} RunKeepsInv(s: State, es: seq<Event>)
    requires (Start(s) || Inv(s)) && Run(s, es)
    ensures Inv(After(s, es))
    decreases |es|
  {
    if es != [] {
      StepKeepsInv(s, es[0]);
      RunKeepsInv(Step(s, es[0]), es[1..]);
    }
  }

  /** In every run, a worker that draws itself passes over its own empty ring, and no worker ever holds
      its own lock as its victim's. */
  lemma NobodyStealsFromItself(s: State, es: seq<Event>, w: nat)
    requires Start(s) && Run(s, es) && w < |After(s, es).ws|
    ensures var t := After(s, es);
      && t.ws[w].pc != StealV(w) && t.ws[w].pc != StealBoth(w)
      && (t.ws[w].pc.Hunt? ==> Possible(t, Draw(w, w)) && Step(t, Draw(w, w)) == t)
  {
    RunKeepsInv(s, es);
    assert PlaceOk(After(s, es), w);
  }

  ghost predicate Waiting(s: State, w: nat)
    requires w < |s.ws|
  {
    s.ws[w].pc.FillWant? && Own(w) in s.owner
  }

  /** How many steps of its own a worker needs to let go of everything. */
  ghost function Remaining(pc: Pc): nat
  {
    match pc
    case FillWant => 2
    case FillIn => 1
    case FetchG => 2
    case FetchBoth => 1
    case StealV(_) => 2
    case StealBoth(_) => 1
    case _ => 0
  }

  /** No deadlock: whoever waits holds nothing, and the worker it waits for does not wait, whatever
      the others do, but releases everything within two steps of its own. */
  lemma WaitersWaitForRunners(s: State, w: nat)
    requires Inv(s) && w < |s.ws| && Waiting(s, w)
    ensures Holds(s.ws[w].pc, w) == {}
    ensures var u := s.owner[Own(w)];
      && u < |s.ws| && u != w && !Waiting(s, u) && Possible(s, Go(u, 0))
      && Remaining(s.ws[u].pc) <= 2
      && Remaining(Step(s, Go(u, 0)).ws[u].pc) < Remaining(s.ws[u].pc)
  {
    var u := s.owner[Own(w)];
    assert Has(s.ws[u].pc, u, Own(w));
    assert PlaceOk(s, u);
  }

  /** A try-lock fails only on a lock that somebody holds: with its locks free, and tasks to be had, a
      worker gets into each of its sections. */
  lemma FreeLocksAreTaken(s: State, w: nat, v: nat, n: nat)
    requires Inv(s) && w < |s.ws| && v < |s.ws| && v != w && Own(w) !in s.owner && n > 0
    ensures s.ws[w].pc.FillWant? ==> Step(s, Go(w, n)).ws[w].pc == FillIn
    ensures s.ws[w].pc.Look? && GlobalLock !in s.owner ==>
      var t := Step(s, Go(w, n)); Possible(t, Go(w, n)) && Step(t, Go(w, n)).ws[w].pc == FetchBoth
    ensures s.ws[w].pc.Hunt? && Own(v) !in s.owner && s.ws[v].queue > 0 ==>
      var t := Step(s, Draw(w, v)); Possible(t, Go(w, n)) && Step(t, Go(w, n)).ws[w].pc == StealBoth(v)
  {
  }

  /** The rings a worker changes in a section. */
  ghost function Touches(pc: Pc, w: nat): set<nat>
  {
    match pc
    case FillIn => {w}
    case FetchBoth => {w}
    case StealBoth(v) => {v, w}
    case _ => {}
  }

  /** Two workers never change the same ring, nor two of them the global queue, at once: the moves of
      a section are one step for everybody else. */
  lemma SectionsAreExclusive(s: State, w: nat, u: nat)
    requires Inv(s) && w < |s.ws| && u < |s.ws| && w != u
    ensures Touches(s.ws[w].pc, w) !! Touches(s.ws[u].pc, u)
    ensures !(s.ws[w].pc.FetchBoth? && s.ws[u].pc.FetchBoth?)
  {
    forall l | Has(s.ws[w].pc, w, l) && Has(s.ws[u].pc, u, l)
      ensures false
    {
      HolderOwns(s, w, l);
      HolderOwns(s, u, l);
    }
    forall r | r in Touches(s.ws[w].pc, w)
      ensures Has(s.ws[w].pc, w, Own(r)) && (r in Touches(s.ws[u].pc, u) ==> Has(s.ws[u].pc, u, Own(r)))
    {
    }
    assert Has(s.ws[w].pc, w, GlobalLock) <==> s.ws[w].pc.FetchG? || s.ws[w].pc.FetchBoth?;
    assert Has(s.ws[u].pc, u, GlobalLock) <==> s.ws[u].pc.FetchG? || s.ws[u].pc.FetchBoth?;
  }
}
