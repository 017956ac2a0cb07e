/** Whole runs of the session protocol. */
module ProtocolRuns {
  import opened Handles
  import opened SparseSets
  import opened LeasePool
  import opened SessionProtocol
  import opened ProtocolInvariant
  import opened ProtocolSteps
  import opened ProtocolCases
  import opened ProtocolSends
  import opened ProtocolLeases
  import opened ProtocolTheorems
  import opened ProtocolEffects

  // ---------- runs ----------

  /** A server before its first PostAccept. */
  ghost predicate Initial(s: State)
  {
    && Shaped(s) && |s.sess| > 0 && s.acts == [] && s.pool.ptrs == map[] && s.pending == 0
    && forall i :: 0 <= i < |s.sess| ==>
      && s.pool.refs[i] == 0 && s.pool.slots.states[i] == IDLE && s.pool.owned[i] == [ReadOv(i), WriteOv(i)]
      && s.sess[i] == Sess(NO_HANDLE, NoIo, false, false, false, false, true, 0, 0)
  }

  lemma InitialIsGood(s: State)
    requires Initial(s)
    ensures Inv(s)
  {
    assert forall i :: 0 <= i < |s.sess| ==> Owners(s.pool, i) == {};
  }

  ghost predicate Run(s: State, es: seq<Event>)
    requires Shaped(s)
    decreases |es|
  {
    es == [] || (Enabled(s, es[0]) && Shaped(Step(s, es[0])) && Run(Step(s, es[0]), es[1..]))
  }

  ghost function After(s: State, es: seq<Event>): State
    requires Shaped(s) && Run(s, es)
    decreases |es|
  {
    if es == [] then s else After(Step(s, es[0]), es[1..])
  }

  ghost predicate RaceFree(s: State, es: seq<Event>)
    requires Shaped(s) && Run(s, es)
    decreases |es|
  {
    es == [] || (!Race(s, es[0]) && RaceFree(Step(s, es[0]), es[1..]))
  }

  /** Every state of every run that avoids the race is good. */
  lemma {:induction false} RunKeepsInvariant(s: State, es: seq<Event>)
    requires Inv(s) && Run(s, es) && RaceFree(s, es)
    ensures Shaped(After(s, es)) && Inv(After(s, es))
    decreases |es|
  {
    if es != [] {
      StepKeepsIff(s, es[0]);
      RunKeepsInvariant(Step(s, es[0]), es[1..]);
    }
  }

  // ---------- when the race cannot happen ----------

  /** A sender that holds a counted pointer to the session it sends to never races. */
  lemma HolderNeverRaces(s: State, act: nat, ok: bool, more: bool, pick: nat)
    requires Inv(s) && CanDo(s, act, ok, more, pick)
    requires s.acts[act].Sending? && !s.acts[act].why.Relay?
    ensures !Race(s, Do(act, ok, more, pick))
  {
    assert ActOk(s, act);
    HomeLeased(s, act);
    if Has(s, WriteOv(s.acts[act].j)) {
      PinnedByOther(s, WriteOv(s.acts[act].j), Local(act, 0));
    }
  }

  /** Send sections run without interleaving: between storing the pointer and the result of the
      post no other activity moves. */
  ghost predicate SendsAtomic(s: State, es: seq<Event>)
    requires Shaped(s) && Run(s, es)
    decreases |es|
  {
    es == [] ||
    ((forall a :: 0 <= a < |s.acts| && s.acts[a].Sending? ==> es[0].Do? && es[0].act == a)
     && SendsAtomic(Step(s, es[0]), es[1..]))
  }

  /** A pointer just stored by GetSession: the table has it too, or the session is closed. */
  ghost predicate FreshSends(s: State)
    requires Shaped(s)
  {
    forall a :: 0 <= a < |s.acts| && s.acts[a].Sending? ==>
      var j := s.acts[a].j;
      j < |s.sess| && (if Has(s, WriteOv(j)) then Has(s, Table(j)) else s.sess[j].closed)
  }

  lemma FreshNeverRaces(s: State, e: Event)
    requires Inv(s) && Enabled(s, e) && FreshSends(s)
    ensures !Race(s, e)
  {
    if e.Do? && s.acts[e.act].Sending? {
      var j := s.acts[e.act].j;
      if Has(s, WriteOv(j)) {
        PinnedByOther(s, WriteOv(j), Table(j));
      }
    }
  }

  ghost predicate StartsSend(s: State, e: Event)
    requires Shaped(s) && Enabled(s, e)
  {
    e.Do? && e.ok &&
    match s.acts[e.act]
    case Welcome(i) => !s.sess[i].sending
    case Target(_, j, _) => !s.sess[j].sending
    case Wrote(_) => e.more
    case _ => false
  }

  /** Other steps put nobody into a send section, and the one that is in it leaves. */
  lemma OthersStartNoSend(s: State, e: Event, b: nat)
    requires Shaped(s) && Enabled(s, e) && !StartsSend(s, e) && b < |Step(s, e).acts| && Step(s, e).acts[b].Sending?
    ensures b < |s.acts| && s.acts[b].Sending? && !(e.Do? && e.act == b)
  {
    if e.Do? {
      ActsStep(s, e.act, e.ok, e.more, e.pick);
      NextIsNoSend(s, e.act, e.ok, e.more, e.pick);
    }
  }

  lemma ActsStep(s: State, act: nat, ok: bool, more: bool, pick: nat)
    requires Shaped(s) && CanDo(s, act, ok, more, pick)
    ensures var t := DoStep(s, act, ok, more, pick);
      && |s.acts| <= |t.acts|
      && (forall b :: 0 <= b < |s.acts| && b != act ==> t.acts[b] == s.acts[b])
      && (forall b :: |s.acts| <= b < |t.acts| ==> t.acts[b] == PaTop)
  {
  }

  lemma NextIsNoSend(s: State, act: nat, ok: bool, more: bool, pick: nat)
    requires Shaped(s) && CanDo(s, act, ok, more, pick) && !StartsSend(s, Do(act, ok, more, pick))
    ensures act < |DoStep(s, act, ok, more, pick).acts| && !DoStep(s, act, ok, more, pick).acts[act].Sending?
  {
  }

  lemma BegunSendIsFresh(s: State, act: nat, i: nat, j: nat, why: Why)
    requires Inv(s) && act < |s.acts| && j < |s.sess| && !s.sess[j].writeLock
    requires SendFrom(s.acts[act], i, j, why) && (why.Drain? || !s.sess[j].sending)
    ensures var t := BeginSend(s, act, i, j, why);
      if Has(t, WriteOv(j)) then Has(t, Table(j)) else t.sess[j].closed
  {
    NoWriter(s, act, j);
    assert SlotOk(s, j);
    GainFromTable(s, WriteOv(j), j);
    if Has(s, Table(j)) {
      PointerCounted(s, Table(j));
    }
  }

  lemma SendStaysFresh(s: State, e: Event)
    requires Inv(s) && Enabled(s, e)
    requires forall a :: 0 <= a < |s.acts| && s.acts[a].Sending? ==> e.Do? && e.act == a
    requires Shaped(Step(s, e))
    ensures FreshSends(Step(s, e))
  {
    var t := Step(s, e);
    if StartsSend(s, e) {
      match s.acts[e.act]
      case Welcome(i) => BegunSendIsFresh(s, e.act, i, i, Greeting);
      case Target(i, j, rest) => BegunSendIsFresh(s, e.act, i, j, Relay(rest));
      case Wrote(i) => BegunSendIsFresh(s, e.act, i, i, Drain);
    } else {
      forall b | 0 <= b < |t.acts| && t.acts[b].Sending?
        ensures false
      {
        OthersStartNoSend(s, e, b);
      }
    }
  }

  lemma {:induction false} AtomicSendsFromFresh(s: State, es: seq<Event>)
    requires Inv(s) && Run(s, es) && SendsAtomic(s, es) && FreshSends(s)
    ensures RaceFree(s, es)
    decreases |es|
  {
    if es != [] {
      FreshNeverRaces(s, es[0]);
      StepKeepsIff(s, es[0]);
      SendStaysFresh(s, es[0]);
      AtomicSendsFromFresh(Step(s, es[0]), es[1..]);
    }
  }

  /** With send sections undisturbed, every state of every run from start-up is good. */
  lemma AtomicSendsAreSafe(s: State, es: seq<Event>)
    requires Initial(s) && Run(s, es) && SendsAtomic(s, es)
    ensures Shaped(After(s, es)) && Inv(After(s, es))
  {
    InitialIsGood(s);
    AtomicSendsFromFresh(s, es);
    RunKeepsInvariant(s, es);
  }

  // ---------- what a good state means ----------

  /** Each outstanding operation is pinned by the counted pointer in its own record, so its slot is
      leased and its generation current. */
  lemma OutstandingIsCovered(s: State, r: Record, i: nat)
    requires Inv(s) && i < |s.sess| && Outstanding(s, r, i)
    ensures Counted(s.pool, RecordAddr(r, i)) && s.pool.ptrs[RecordAddr(r, i)] == Current(s, i)
    ensures StateOf(s, i) != IDLE && s.pool.refs[i] >= 1
  {
    assert SlotOk(s, i);
    PointerCounted(s, RecordAddr(r, i));
  }

  /** A slot is idle exactly when no table entry, no record and no running activity names it. */
  lemma IdleIffUnreferenced(s: State, i: nat)
    requires Inv(s) && i < |s.sess|
    ensures StateOf(s, i) == IDLE <==>
      && !Has(s, Table(i)) && !Has(s, ReadOv(i)) && !Has(s, WriteOv(i)) && !Has(s, DiscOv(i))
      && forall act :: 0 <= act < |s.acts| ==> !Home(s.acts[act], i)
  {
    if StateOf(s, i) == IDLE {
      IdleIsBare(s, i);
      assert SlotOf(s, Table(i)) == SlotOf(s, ReadOv(i)) == SlotOf(s, WriteOv(i)) == SlotOf(s, DiscOv(i)) == i;
    } else {
      assert |Owners(s.pool, i)| > 0;
      var a :| a in Owners(s.pool, i);
      assert SlotOf(s, a) == i;
      if a.Local? {
        HoldsOuter(s.acts[a.act], a.k);
        assert Home(s.acts[a.act], i);
      }
    }
  }

  // ---------- lifecycle ----------

  /** The moves of a lease: idle, pending, possibly connected, disconnecting, idle again with the
      next generation, unpinned and with its fields cleaned. */
  ghost predicate LifecycleMove(s: State, t: State, i: nat)
    requires Shaped(s) && Shaped(t) && i < |s.sess| == |t.sess|
  {
    var from, to := StateOf(s, i), StateOf(t, i);
    var gen, gen' := s.pool.slots.gens[i], t.pool.slots.gens[i];
    || (to == from && gen' == gen)
    || (from == IDLE && to == PENDING && gen' == gen)
    || (from == PENDING && to == CONNECTED && gen' == gen)
    || (from in {PENDING, CONNECTED} && to == DISCONNECTING && gen' == gen)
    || (from == DISCONNECTING && to == IDLE && gen' == NextGen(gen) && s.sess[i].closed
        && t.sess[i].handle == NO_HANDLE && !t.sess[i].sending && t.sess[i].readIo == NoIo
        && !t.sess[i].sendIo && !t.sess[i].discIo)
  }

  lemma LeaseEnds(s: State, act: nat, ok: bool, more: bool, pick: nat)
    requires Inv(s) && CanDo(s, act, ok, more, pick)
    requires s.acts[act].PaDrop? || (s.acts[act].Leaving? && !s.acts[act].two)
    ensures Shaped(DoStep(s, act, ok, more, pick)) && |DoStep(s, act, ok, more, pick).sess| == |s.sess|
    ensures LifecycleMove(s, DoStep(s, act, ok, more, pick), s.acts[act].i)
  {
    var i := s.acts[act].i;
    var pc := if s.acts[act].PaDrop? then PaTop else Done;
    HomeLeased(s, act);
    LeavesAsUncounted(s, act, ok, more, pick);
    LeaveKeeps(s, act, i, pc);
    if s.pool.refs[i] == 1 {
      LastIsAlone(s, act);
      DropsLast(s, act, i, pc);
    }
  }

  lemma SlotsFollowLifecycle(s: State, t: State, act: nat, ok: bool, more: bool, pick: nat, i: nat)
    requires Shaped(s) && Shaped(t) && |s.sess| == |t.sess| && CanDo(s, act, ok, more, pick) && i < |s.sess|
    requires t.pool.slots == NextSlots(s, act, ok, more, pick)
    requires !((s.acts[act].PaDrop? || (s.acts[act].Leaving? && !s.acts[act].two)) && s.acts[act].i == i)
    ensures LifecycleMove(s, t, i)
  {
  }

  lemma StepFollowsLifecycle(s: State, e: Event, i: nat)
    requires Inv(s) && Enabled(s, e) && !Race(s, e) && i < |s.sess|
    ensures Shaped(Step(s, e)) && |Step(s, e).sess| == |s.sess| && LifecycleMove(s, Step(s, e), i)
  {
    StepKeepsIff(s, e);
    SameSlots(s, e);
    if e.Do? {
      var Do(act, ok, more, pick) := e;
      if (s.acts[act].PaDrop? || (s.acts[act].Leaving? && !s.acts[act].two)) && s.acts[act].i == i {
        LeaseEnds(s, act, ok, more, pick);
      } else {
        StepAsUncounted(s, act, ok, more, pick);
        SlotsFollowLifecycle(s, Step(s, e), act, ok, more, pick, i);
      }
    }
  }

  lemma SameSlots(s: State, e: Event)
    requires Shaped(s) && Enabled(s, e)
    ensures |Step(s, e).sess| == |s.sess|
  {
  }

  /** No slot is cleaned, made idle or given a new generation while an operation on it is
      outstanding, or while an activity that works for it goes on. */
  lemma OutstandingKeepsLease(s: State, e: Event, r: Record, i: nat)
    requires Inv(s) && Enabled(s, e) && !Race(s, e) && i < |s.sess| && Outstanding(s, r, i)
    ensures Shaped(Step(s, e)) && |Step(s, e).sess| == |s.sess|
    ensures StateOf(Step(s, e), i) != IDLE && Step(s, e).pool.slots.gens[i] == s.pool.slots.gens[i]
  {
    StepFollowsLifecycle(s, e, i);
    OutstandingIsCovered(s, r, i);
    if e.Do? {
      var Do(act, ok, more, pick) := e;
      StepAsUncounted(s, act, ok, more, pick);
      var pc := s.acts[act];
      if (pc.PaDrop? || (pc.Leaving? && !pc.two)) && pc.i == i && s.pool.refs[i] == 1 {
        LastIsAlone(s, act);
      }
    }
  }
}
