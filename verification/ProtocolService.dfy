/** What the server keeps up: accepts are posted again, a broadcast serves every target, and nobody is
    disconnected while everything succeeds. */
module ProtocolService {
  import opened LeasePool
  import opened SessionProtocol
  import opened ProtocolInvariant
  import opened ProtocolTheorems
  import opened ProtocolEffects
  import opened ProtocolRuns
  import opened ProtocolLeases
  import opened ProtocolAccepts
  import opened ProtocolEndings

  // ---------- accepts are posted again ----------

  /** The activity is in PostAccept and will look at the counter again. */
  ghost predicate Posting(pc: Pc)
  {
    pc.PaTop? || pc.PaCas? || pc.PaReserved? || pc.PaCreated? || pc.PaPosting? || pc.PaDrop?
  }

  ghost predicate SomePosting(s: State)
  {
    exists a :: 0 <= a < |s.acts| && Posting(s.acts[a])
  }

  ghost predicate AcceptFails(s: State, e: Event)
    requires Shaped(s) && Enabled(s, e)
  {
    e.Do? && s.acts[e.act].PaPosting? && !e.ok
  }

  ghost predicate AcceptFailedIn(s: State, es: seq<Event>)
    requires Shaped(s) && Run(s, es)
    decreases |es|
  {
    es != [] && (AcceptFails(s, es[0]) || AcceptFailedIn(Step(s, es[0]), es[1..]))
  }

  /** As many accepts as allowed, or PostAccept is at work, or every session is in use. */
  ghost predicate Replenished(s: State)
    requires Shaped(s)
  {
    s.pending >= s.limit || SomePosting(s) || !AnyIdle(s)
  }

  /** The activity's own step leaves PostAccept only at the limit, without an idle session or with a
      failed post; and whoever lowers the counter or returns a slot starts PostAccept. */
  lemma PosterStep(s: State, t: State, act: nat, ok: bool, more: bool, pick: nat)
    requires Inv(s) && CanDo(s, act, ok, more, pick) && Moves(s, t, act, ok, more, pick, 0)
    requires Replenished(s) && !AcceptFails(s, Do(act, ok, more, pick)) && t.limit == s.limit
    requires t.pending == NextPending(s, act) && !(s.acts[act].PaFailed?)
    requires s.acts[act].AccDone? ==> |t.acts| > |s.acts|
    requires (exists i :: 0 <= i < |s.sess| && StateOf(s, i) != IDLE && StateOf(t, i) == IDLE) ==> |t.acts| > |s.acts|
    ensures Replenished(t)
  {
    if |t.acts| > |s.acts| {
      assert Posting(t.acts[|s.acts|]);
    } else if Posting(s.acts[act]) {
      if Posting(t.acts[act]) {
      } else if s.acts[act].PaReserved? {
        assert t.pool.slots == s.pool.slots;
      }
    } else if SomePosting(s) {
      var a :| 0 <= a < |s.acts| && Posting(s.acts[a]);
      assert t.acts[a] == s.acts[a];
    } else if AnyIdle(t) {
      var i :| 0 <= i < |t.sess| && t.pool.slots.states[i] == IDLE;
      assert StateOf(t, i) == IDLE;
    }
  }

  /** Whoever returns a slot to the pool starts PostAccept. */
  lemma ReturnStarts(s: State, act: nat, ok: bool, more: bool, pick: nat, i: nat)
    requires Inv(s) && CanDo(s, act, ok, more, pick) && !Race(s, Do(act, ok, more, pick)) && i < |s.sess|
    requires StateOf(s, i) != IDLE && NextSlots(s, act, ok, more, pick).states[i] == IDLE
    ensures |DoStep(s, act, ok, more, pick).acts| > |s.acts|
  {
    HomeLeased(s, act);
    DeleterFindsNothing(s, act, ok, more, pick);
  }

  lemma CompletionStarts(s: State, act: nat, ok: bool, more: bool, pick: nat)
    requires Shaped(s) && CanDo(s, act, ok, more, pick) && s.acts[act].AccDone?
    ensures |DoStep(s, act, ok, more, pick).acts| > |s.acts|
  {
  }

  ghost predicate NoneFailed(s: State)
  {
    forall a :: 0 <= a < |s.acts| ==> !s.acts[a].PaFailed?
  }

  lemma ActivityReplenishes(s: State, act: nat, ok: bool, more: bool, pick: nat)
    requires Inv(s) && CanDo(s, act, ok, more, pick) && !Race(s, Do(act, ok, more, pick))
    requires Replenished(s) && NoneFailed(s) && !AcceptFails(s, Do(act, ok, more, pick))
    ensures Shaped(DoStep(s, act, ok, more, pick))
    ensures Replenished(DoStep(s, act, ok, more, pick)) && NoneFailed(DoStep(s, act, ok, more, pick))
  {
    var t := DoStep(s, act, ok, more, pick);
    StepMoves(s, act, ok, more, pick, 0);
    PendingStep(s, act, ok, more, pick);
    if s.acts[act].AccDone? {
      CompletionStarts(s, act, ok, more, pick);
    }
    forall i | 0 <= i < |s.sess| && StateOf(s, i) != IDLE && StateOf(t, i) == IDLE
      ensures |t.acts| > |s.acts|
    {
      ReturnStarts(s, act, ok, more, pick, i);
    }
    PosterStep(s, t, act, ok, more, pick);
    assert !NextPc(s, act, ok, more, pick).PaFailed?;
  }

  lemma StepReplenishes(s: State, e: Event)
    requires Inv(s) && Enabled(s, e) && !Race(s, e) && NoneFailed(s) && !AcceptFails(s, e)
    requires Replenished(s) || e.Start?
    ensures Inv(Step(s, e)) && Replenished(Step(s, e)) && NoneFailed(Step(s, e))
  {
    StepKeepsIff(s, e);
    var t := Step(s, e);
    match e
    case Start =>
      assert Posting(t.acts[|s.acts|]);
    case Dequeue(k, r, ok) =>
      if SomePosting(s) {
        var a :| 0 <= a < |s.acts| && Posting(s.acts[a]);
        assert t.acts[a] == s.acts[a];
      }
    case Do(act, ok, more, pick) => ActivityReplenishes(s, act, ok, more, pick);
  }

  lemma {:induction false} RunReplenishes(s: State, es: seq<Event>)
    requires Inv(s) && Run(s, es) && RaceFree(s, es) && !AcceptFailedIn(s, es) && Replenished(s) && NoneFailed(s)
    ensures Inv(After(s, es)) && Replenished(After(s, es))
    decreases |es|
  {
    if es != [] {
      StepReplenishes(s, es[0]);
      RunReplenishes(Step(s, es[0]), es[1..]);
    }
  }

  /** In every race-free run from start-up that has begun and in which no accept post failed: the accepts
      counted are as many as allowed, or PostAccept is at work, or no session is idle. */
  lemma AcceptsAreReplenished(s: State, es: seq<Event>)
    requires Initial(s) && Run(s, es) && RaceFree(s, es) && es != [] && !AcceptFailedIn(s, es)
    ensures var t := After(s, es);
      Shaped(t) && (t.pending == t.limit || SomePosting(t) || !AnyIdle(t))
  {
    InitialIsGood(s);
    AcceptsFromStart(s, es);
    StepReplenishes(s, es[0]);
    RunReplenishes(Step(s, es[0]), es[1..]);
  }

  // ---------- a broadcast serves every target ----------

  /** The activity relays a packet for slot i. */
  ghost predicate Relaying(pc: Pc, i: nat)
  {
    match pc
    case Bcast(h, _) => h == i
    case Target(h, _, _) => h == i
    case Sending(h, _, why) => h == i && why.Relay?
    case _ => false
  }

  /** The targets that it has not looked up yet. */
  ghost function Rest(pc: Pc): set<nat>
  {
    match pc
    case Bcast(_, rest) => rest
    case Target(_, _, rest) => rest
    case Sending(_, _, why) => if why.Relay? then why.rest else {}
    case _ => {}
  }

  /** The slots that the activity looks up in the run. */
  ghost function LookedUp(s: State, es: seq<Event>, a: nat): set<nat>
    requires Shaped(s) && Run(s, es)
    decreases |es|
  {
    if es == [] then {} else LooksUp(s, es[0], a) + LookedUp(Step(s, es[0]), es[1..], a)
  }

  ghost function LooksUp(s: State, e: Event, a: nat): set<nat>
    requires Shaped(s) && Enabled(s, e)
  {
    if e.Do? && e.act == a && s.acts[a].Bcast? && s.acts[a].rest != {} then {e.pick} else {}
  }

  /** It relays that packet until the end of the run. */
  ghost predicate RelaysOn(s: State, es: seq<Event>, a: nat, i: nat)
    requires Shaped(s) && Run(s, es)
    decreases |es|
  {
    es == [] || (a < |s.acts| && Relaying(s.acts[a], i) && RelaysOn(Step(s, es[0]), es[1..], a, i))
  }

  lemma RelayStep(s: State, act: nat, ok: bool, more: bool, pick: nat, i: nat)
    requires Shaped(s) && CanDo(s, act, ok, more, pick) && Relaying(s.acts[act], i)
    ensures var pc, next := s.acts[act], NextPc(s, act, ok, more, pick);
      && Rest(next) + LooksUp(s, Do(act, ok, more, pick), act) == Rest(pc)
      && (Relaying(next, i) || (next == Reading(i) && Rest(pc) == {}))
      && (next.Target? ==> next.j == pick && Counted(s.pool, Table(pick)))
  {
  }

  lemma LooksUpStep(s: State, e: Event, a: nat, i: nat)
    requires Shaped(s) && Enabled(s, e) && a < |s.acts| && Relaying(s.acts[a], i)
    ensures a < |Step(s, e).acts| && Rest(Step(s, e).acts[a]) + LooksUp(s, e, a) == Rest(s.acts[a])
    ensures Relaying(Step(s, e).acts[a], i) || Step(s, e).acts[a] == Reading(i)
  {
    if e.Do? {
      ActsStep(s, e.act, e.ok, e.more, e.pick);
      PlaceStep(s, e.act, e.ok, e.more, e.pick);
      if e.act == a {
        RelayStep(s, a, e.ok, e.more, e.pick, i);
      }
    }
  }

  lemma {:induction false} LooksUpAll(s: State, es: seq<Event>, a: nat, i: nat)
    requires Shaped(s) && Run(s, es) && RelaysOn(s, es, a, i) && a < |s.acts| && Relaying(s.acts[a], i)
    ensures a < |After(s, es).acts| && Rest(After(s, es).acts[a]) + LookedUp(s, es, a) == Rest(s.acts[a])
    ensures Relaying(After(s, es).acts[a], i) || After(s, es).acts[a] == Reading(i)
    decreases |es|
  {
    if es != [] {
      var t := Step(s, es[0]);
      LooksUpStep(s, es[0], a, i);
      if Relaying(t.acts[a], i) {
        LooksUpAll(t, es[1..], a, i);
        Joined(Rest(After(s, es).acts[a]), LookedUp(t, es[1..], a), LooksUp(s, es[0], a));
      } else {
        assert es[1..] == [];
        Joined(Rest(t.acts[a]), {}, LooksUp(s, es[0], a));
      }
    }
  }

  lemma Joined(x: set<nat>, y: set<nat>, z: set<nat>)
    ensures (x + y) + z == x + (z + y) && z + {} == z
  {
  }

  /** A reader that relays a packet goes on to the next one only when it has looked up exactly the slots
      that were connected when it took the packet up, without its own. */
  lemma BroadcastServesAll(s: State, es: seq<Event>, a: nat, i: nat)
    requires Shaped(s) && Enabled(s, Do(a, true, true, 0)) && s.acts[a] == Reading(i)
    requires Shaped(Step(s, Do(a, true, true, 0)))
    requires var u := Step(s, Do(a, true, true, 0));
      Run(u, es) && RelaysOn(u, es, a, i) && a < |After(u, es).acts| && After(u, es).acts[a] == Reading(i)
    ensures forall j: nat :: j in LookedUp(Step(s, Do(a, true, true, 0)), es, a) <==>
      j < |s.sess| && StateOf(s, j) == CONNECTED && j != i
  {
    PlaceStep(s, a, true, true, 0);
    LooksUpAll(Step(s, Do(a, true, true, 0)), es, a, i);
  }

  // ---------- nobody is disconnected without a failure ----------

  ghost predicate Succeeds(e: Event)
  {
    e.Start? || e.ok
  }

  ghost predicate AllSucceed(es: seq<Event>)
  {
    forall k :: 0 <= k < |es| ==> Succeeds(es[k])
  }

  /** The activity accepts a connection on slot i and has not connected it yet. */
  ghost predicate Accepts(pc: Pc, i: nat)
  {
    match pc
    case PaCreated(h) => h == i
    case PaPosting(h) => h == i
    case AccDone(h, _) => h == i
    case Got(h, r, accept, _) => h == i && r == ReadRec && accept
    case Copied(h, r, accept, _) => h == i && r == ReadRec && accept
    case Accepting(h) => h == i
    case _ => false
  }

  /** No failure is being handled. */
  ghost predicate Unhurt(pc: Pc)
  {
    match pc
    case PaFailed(_) => false
    case AccDone(_, good) => good
    case Got(_, r, _, good) => good && r != DiscRec
    case Copied(_, r, _, good) => good && r != DiscRec
    case Closing(_, _) => false
    case Hanging(_, _) => false
    case Hung(_, _) => false
    case Clearing(_) => false
    case _ => true
  }

  ghost predicate SlotHealthy(s: State, i: nat)
    requires Shaped(s) && i < |s.sess|
  {
    && StateOf(s, i) != DISCONNECTING && !s.sess[i].discIo
    && (s.sess[i].readIo == AcceptIo ==> StateOf(s, i) == PENDING)
    && forall a :: 0 <= a < |s.acts| && Accepts(s.acts[a], i) ==> StateOf(s, i) == PENDING
  }

  ghost predicate Healthy(s: State)
    requires Shaped(s)
  {
    && (forall a :: 0 <= a < |s.acts| ==> Unhurt(s.acts[a]))
    && (forall i :: 0 <= i < |s.sess| ==> SlotHealthy(s, i))
  }

  /** While all is well an activity that succeeds goes on without closing anything. */
  lemma UnhurtGoesOn(s: State, act: nat, more: bool, pick: nat)
    requires Inv(s) && CanDo(s, act, true, more, pick) && Healthy(s)
    ensures Unhurt(NextPc(s, act, true, more, pick))
  {
    if s.acts[act].Accepting? {
      var i := s.acts[act].i;
      HomeLeased(s, act);
      assert Accepts(s.acts[act], i) && SlotHealthy(s, i) && SlotOk(s, i);
    }
  }

  /** What becomes of one slot. */
  lemma SlotGoesOn(s: State, t: State, act: nat, more: bool, pick: nat, i: nat)
    requires Inv(s) && CanDo(s, act, true, more, pick) && Healthy(s) && i < |s.sess|
    requires Moves(s, t, act, true, more, pick, i) && LifecycleMove(s, t, i)
    ensures StateOf(t, i) != DISCONNECTING && !t.sess[i].discIo
    ensures t.sess[i].readIo == AcceptIo ==> StateOf(t, i) == PENDING
  {
    assert SlotHealthy(s, i) && Unhurt(s.acts[act]);
    if s.acts[act].Accepting? && s.acts[act].i == i {
      assert Tok(s.acts[act], ReadRec, i) && !Outstanding(s, ReadRec, i);
    }
    if s.acts[act] == PaPosting(i) {
      assert Accepts(s.acts[act], i);
    }
  }

  lemma AccepterGoesOn(s: State, t: State, act: nat, more: bool, pick: nat, i: nat, a: nat)
    requires Inv(s) && CanDo(s, act, true, more, pick) && Healthy(s) && i < |s.sess|
    requires Moves(s, t, act, true, more, pick, i) && a < |t.acts| && Accepts(t.acts[a], i)
    ensures StateOf(t, i) == PENDING
  {
    assert SlotHealthy(s, i) && Unhurt(s.acts[act]);
    if a == act {
      assert t.acts[act] != PaCreated(i) ==> Accepts(s.acts[act], i);
    } else {
      assert t.acts[a] == s.acts[a] && Accepts(s.acts[a], i) && Tok(s.acts[a], ReadRec, i);
      HomeLeased(s, a);
      assert Mine(s, a, ReadRec, i) && Tok(Accepting(i), ReadRec, i);
      LeaverIsNotAlone(s, act, a, i);
    }
  }

  /** An activity that drops the last pointer to a slot is not dropping a healthy one. */
  lemma LeaverIsNotAlone(s: State, act: nat, a: nat, i: nat)
    requires Inv(s) && Healthy(s) && act < |s.acts| && i < |s.sess| && a < |s.acts| && a != act && Home(s.acts[a], i)
    ensures Home(s.acts[act], i) ==> s.pool.refs[i] != 1
  {
    assert SlotHealthy(s, i);
    if Home(s.acts[act], i) && s.pool.refs[i] == 1 {
      LastIsAlone(s, act);
    }
  }

  lemma ActivityKeepsHealthy(s: State, act: nat, more: bool, pick: nat)
    requires Inv(s) && CanDo(s, act, true, more, pick) && !Race(s, Do(act, true, more, pick)) && Healthy(s)
    ensures Shaped(DoStep(s, act, true, more, pick)) && Healthy(DoStep(s, act, true, more, pick))
  {
    var t := DoStep(s, act, true, more, pick);
    StepKeepsIff(s, Do(act, true, more, pick));
    UnhurtGoesOn(s, act, more, pick);
    StepMoves(s, act, true, more, pick, 0);
    forall i | 0 <= i < |t.sess|
      ensures SlotHealthy(t, i)
    {
      StepMoves(s, act, true, more, pick, i);
      StepFollowsLifecycle(s, Do(act, true, more, pick), i);
      SlotGoesOn(s, t, act, more, pick, i);
      forall a | 0 <= a < |t.acts| && Accepts(t.acts[a], i)
        ensures StateOf(t, i) == PENDING
      {
        AccepterGoesOn(s, t, act, more, pick, i, a);
      }
    }
    forall a | 0 <= a < |t.acts|
      ensures Unhurt(t.acts[a])
    {
      assert a < |s.acts| && a != act ==> t.acts[a] == s.acts[a];
    }
  }

  lemma CompletionKeepsHealthy(s: State, k: nat, r: Record)
    requires Inv(s) && k < |s.sess| && Outstanding(s, r, k) && Healthy(s)
    ensures Shaped(TakeCompletion(s, k, r, true)) && Healthy(TakeCompletion(s, k, r, true))
  {
    var t := TakeCompletion(s, k, r, true);
    StepKeepsIff(s, Dequeue(k, r, true));
    assert SlotHealthy(s, k);
    forall i | 0 <= i < |t.sess|
      ensures SlotHealthy(t, i)
    {
      assert SlotHealthy(s, i);
      forall a | 0 <= a < |t.acts| && Accepts(t.acts[a], i)
        ensures StateOf(t, i) == PENDING
      {
        assert a < |s.acts| ==> t.acts[a] == s.acts[a];
      }
    }
    assert forall a :: 0 <= a < |s.acts| ==> t.acts[a] == s.acts[a];
  }

  lemma StepKeepsHealthy(s: State, e: Event)
    requires Inv(s) && Enabled(s, e) && !Race(s, e) && Healthy(s) && Succeeds(e)
    ensures Inv(Step(s, e)) && Healthy(Step(s, e))
  {
    StepKeepsIff(s, e);
    match e
    case Start =>
      forall i | 0 <= i < |s.sess|
        ensures SlotHealthy(Step(s, e), i)
      {
        assert SlotHealthy(s, i);
      }
    case Dequeue(k, r, ok) => CompletionKeepsHealthy(s, k, r);
    case Do(act, ok, more, pick) => ActivityKeepsHealthy(s, act, more, pick);
  }

  lemma {:induction false} RunKeepsHealthy(s: State, es: seq<Event>)
    requires Inv(s) && Run(s, es) && RaceFree(s, es) && Healthy(s) && AllSucceed(es)
    ensures Inv(After(s, es)) && Healthy(After(s, es))
    decreases |es|
  {
    if es != [] {
      assert Succeeds(es[0]);
      StepKeepsHealthy(s, es[0]);
      RunKeepsHealthy(Step(s, es[0]), es[1..]);
    }
  }

  /** In a race-free run from start-up in which every operation and every handler succeeds, no session is
      ever disconnected. */
  lemma SuccessKeepsSessions(s: State, es: seq<Event>, i: nat)
    requires Initial(s) && Run(s, es) && RaceFree(s, es) && AllSucceed(es) && i < |s.sess|
    ensures var t := After(s, es);
      Inv(t) && (i < |t.sess| ==> StateOf(t, i) != DISCONNECTING && t.sess[i].discCalls == 0)
  {
    InitialIsGood(s);
    RunKeepsHealthy(s, es);
    if i < |After(s, es).sess| {
      assert SlotOk(After(s, es), i) && SlotHealthy(After(s, es), i);
    }
  }
}
