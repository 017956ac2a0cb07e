/** What a lease may inherit: the sending flag of a relay that came too late for the lease before. */
module ProtocolDirty {
  import opened SessionProtocol
  import opened ProtocolInvariant
  import opened ProtocolLeases
  import opened ProtocolTheorems
  import opened ProtocolEffects
  import opened ProtocolRuns
  import opened ProtocolEndings

  /** A relay enters SendPacket on slot i, which it found leased, when the slot is idle again. */
  ghost predicate RelaysIdle(s: State, e: Event, i: nat)
    requires Shaped(s) && Enabled(s, e)
  {
    e.Do? && e.ok && s.acts[e.act].Target? && s.acts[e.act].j == i && i < |s.sess| && StateOf(s, i) == IDLE
  }

  /** Such a relay came to slot i since it was last returned to the pool. */
  ghost predicate RelayedSince(s: State, es: seq<Event>, i: nat, before: bool)
    requires Shaped(s) && Run(s, es) && i < |s.sess|
    decreases |es|
  {
    if es == [] then before
    else
      SameSlots(s, es[0]);
      RelayedSince(Step(s, es[0]), es[1..], i, StateOf(s, i) == IDLE && (before || RelaysIdle(s, es[0], i)))
  }

  /** On a slot that is idle and stays idle only such a relay sets the flag, and nothing clears it. */
  lemma IdleFlag(s: State, act: nat, ok: bool, more: bool, pick: nat, i: nat)
    requires Shaped(s) && CanDo(s, act, ok, more, pick) && i < |s.sess| && StateOf(s, i) == IDLE
    requires !Home(s.acts[act], i)
    ensures NextSess(s, act, ok, more, pick)[i].sending ==
      (s.sess[i].sending || RelaysIdle(s, Do(act, ok, more, pick), i))
  {
  }

  lemma FlagStep(s: State, e: Event, i: nat, before: bool)
    requires Inv(s) && Enabled(s, e) && !Race(s, e) && i < |s.sess|
    requires StateOf(s, i) == IDLE ==> s.sess[i].sending == before
    ensures Inv(Step(s, e)) && |Step(s, e).sess| == |s.sess|
    ensures StateOf(Step(s, e), i) == IDLE ==>
      Step(s, e).sess[i].sending == (StateOf(s, i) == IDLE && (before || RelaysIdle(s, e, i)))
  {
    StepKeepsIff(s, e);
    StepFollowsLifecycle(s, e, i);
    if e.Do? && StateOf(s, i) == IDLE {
      IdleIsBare(s, i);
      StepAsUncounted(s, e.act, e.ok, e.more, e.pick);
      IdleFlag(s, e.act, e.ok, e.more, e.pick, i);
    }
  }

  lemma {:induction false} FlagRun(s: State, es: seq<Event>, i: nat, before: bool)
    requires Inv(s) && Run(s, es) && RaceFree(s, es) && i < |s.sess|
    requires StateOf(s, i) == IDLE ==> s.sess[i].sending == before
    ensures var t := After(s, es);
      Inv(t) && |t.sess| == |s.sess| && (StateOf(t, i) == IDLE ==> t.sess[i].sending == RelayedSince(s, es, i, before))
    decreases |es|
  {
    if es != [] {
      FlagStep(s, es[0], i, before);
      FlagRun(Step(s, es[0]), es[1..], i, StateOf(s, i) == IDLE && (before || RelaysIdle(s, es[0], i)));
    }
  }

  /** In every race-free run from start-up, a lease starts with the sending flag set exactly when a
      relay came to its slot while that was idle. */
  lemma LeaseStartsDirtyIff(s: State, es: seq<Event>, act: nat, i: nat)
    requires Initial(s) && Run(s, es) && RaceFree(s, es) && i < |s.sess|
    requires Shaped(After(s, es)) && CanDo(After(s, es), act, true, false, i)
    requires After(s, es).acts[act] == PaReserved && AnyIdle(After(s, es))
    ensures var t := DoStep(After(s, es), act, true, false, i);
      i < |t.sess| && StartsLease(After(s, es), t, i) && (t.sess[i].sending <==> RelayedSince(s, es, i, false))
  {
    InitialIsGood(s);
    FlagRun(s, es, i, false);
    CreateKeeps(After(s, es), act, true, false, i);
  }

  // ---------- when leases start clean ----------

  /** Between finding a session in the table and entering its SendPacket no other activity moves. */
  ghost predicate LookupsAtomic(s: State, es: seq<Event>)
    requires Shaped(s) && Run(s, es)
    decreases |es|
  {
    es == [] ||
    ((forall a :: 0 <= a < |s.acts| && s.acts[a].Target? ==> es[0].Do? && es[0].act == a)
     && LookupsAtomic(Step(s, es[0]), es[1..]))
  }

  ghost predicate TargetsLeased(s: State)
    requires Shaped(s)
  {
    forall a :: 0 <= a < |s.acts| && s.acts[a].Target? ==>
      s.acts[a].j < |s.sess| && StateOf(s, s.acts[a].j) != IDLE
  }

  /** Only the lookup of a live table entry makes a target. */
  lemma LookupFinds(s: State, act: nat, ok: bool, more: bool, pick: nat)
    requires Inv(s) && CanDo(s, act, ok, more, pick) && NextPc(s, act, ok, more, pick).Target?
    ensures NextPc(s, act, ok, more, pick).j == pick < |s.sess| && StateOf(s, pick) != IDLE
    ensures NextSlots(s, act, ok, more, pick) == s.pool.slots
  {
    PointerCounted(s, Table(pick));
  }

  lemma TargetsStayLeased(s: State, e: Event)
    requires Inv(s) && Enabled(s, e) && !Race(s, e)
    requires forall a :: 0 <= a < |s.acts| && s.acts[a].Target? ==> e.Do? && e.act == a
    ensures Inv(Step(s, e)) && TargetsLeased(Step(s, e))
  {
    StepKeepsIff(s, e);
    if e.Do? {
      StepMoves(s, e.act, e.ok, e.more, e.pick, 0);
      MovesLeased(s, Step(s, e), e.act, e.ok, e.more, e.pick);
    }
  }

  lemma MovesLeased(s: State, t: State, act: nat, ok: bool, more: bool, pick: nat)
    requires Inv(s) && CanDo(s, act, ok, more, pick) && Moves(s, t, act, ok, more, pick, 0)
    requires forall a :: 0 <= a < |s.acts| && s.acts[a].Target? ==> act == a
    ensures TargetsLeased(t)
  {
    if t.acts[act].Target? {
      LookupFinds(s, act, ok, more, pick);
    }
  }

  lemma {:induction false} NoIdleRelay(s: State, es: seq<Event>, i: nat)
    requires Inv(s) && Run(s, es) && RaceFree(s, es) && LookupsAtomic(s, es) && TargetsLeased(s) && i < |s.sess|
    ensures !RelayedSince(s, es, i, false)
    decreases |es|
  {
    if es != [] {
      TargetsStayLeased(s, es[0]);
      SameSlots(s, es[0]);
      NoIdleRelay(Step(s, es[0]), es[1..], i);
    }
  }

  /** With lookups undisturbed every idle slot is clean, so every lease starts clean. */
  lemma AtomicLookupsAreClean(s: State, es: seq<Event>, i: nat)
    requires Initial(s) && Run(s, es) && RaceFree(s, es) && LookupsAtomic(s, es) && i < |s.sess|
    ensures var t := After(s, es);
      Shaped(t) && |t.sess| == |s.sess| && (StateOf(t, i) == IDLE ==> !t.sess[i].sending)
  {
    InitialIsGood(s);
    FlagRun(s, es, i, false);
    NoIdleRelay(s, es, i);
  }

  // ---------- what becomes of a dirty lease ----------

  /** The flag is set, nothing is being sent, and nobody is left who would send or clear the flag. */
  ghost predicate Muted(s: State, i: nat)
    requires i < |s.sess|
  {
    && s.sess[i].sending && !s.sess[i].sendIo && !Has(s, WriteOv(i))
    && forall a :: 0 <= a < |s.acts| && Tok(s.acts[a], WriteRec, i) ==> s.acts[a].Sending?
  }

  lemma DirtyIsMuted(s: State, i: nat)
    requires Inv(s) && i < |s.sess| && StateOf(s, i) == IDLE && s.sess[i].sending
    ensures Muted(s, i)
  {
    IdleIsBare(s, i);
    assert SlotOf(s, WriteOv(i)) == i;
  }

  lemma MutedFlag(s: State, act: nat, ok: bool, more: bool, pick: nat, i: nat)
    requires Shaped(s) && CanDo(s, act, ok, more, pick) && i < |s.sess| && s.sess[i].sending
    requires s.acts[act] != Wrote(i) && (Home(s.acts[act], i) ==> StateOf(s, i) != IDLE)
    requires StateOf(s, i) == IDLE || NextSlots(s, act, ok, more, pick).states[i] != IDLE
    ensures NextSess(s, act, ok, more, pick)[i].sending
  {
  }

  /** Nobody starts a send on a muted slot, and a section that is under way has nothing to post. */
  lemma MutedStep(s: State, t: State, act: nat, ok: bool, more: bool, pick: nat, i: nat)
    requires Inv(s) && CanDo(s, act, ok, more, pick) && !Race(s, Do(act, ok, more, pick)) && i < |s.sess|
    requires Muted(s, i) && Moves(s, t, act, ok, more, pick, i) && t.sess[i].sending
    ensures Muted(t, i)
  {
    var pc := s.acts[act];
    assert Tok(pc, WriteRec, i) ==> pc.Sending?;
  }

  /** A muted slot stays muted until its lease ends. */
  lemma MutedStays(s: State, e: Event, i: nat)
    requires Inv(s) && Enabled(s, e) && !Race(s, e) && i < |s.sess| && Muted(s, i)
    requires Shaped(Step(s, e)) && |Step(s, e).sess| == |s.sess|
    requires StateOf(s, i) == IDLE || StateOf(Step(s, e), i) != IDLE
    ensures Muted(Step(s, e), i)
  {
    if e.Do? {
      var Do(act, ok, more, pick) := e;
      StepMoves(s, act, ok, more, pick, i);
      StepAsUncounted(s, act, ok, more, pick);
      assert Tok(Wrote(i), WriteRec, i);
      if Holds(s.acts[act], 0) {
        HomeLeased(s, act);
      }
      MutedFlag(s, act, ok, more, pick, i);
      MutedStep(s, Step(s, e), act, ok, more, pick, i);
    } else if e.Dequeue? {
      OutstandingIsCovered(s, e.r, e.i);
    }
  }

  /** A lease that starts dirty never sends: as long as its slot does not go back to the pool, no send
      is ever outstanding on it, whatever its client and the other sessions do. */
  lemma {:induction false} DirtyLeaseIsSilent(s: State, es: seq<Event>, i: nat)
    requires Inv(s) && Run(s, es) && RaceFree(s, es) && i < |s.sess|
    requires Muted(s, i) || (StateOf(s, i) == IDLE && s.sess[i].sending)
    requires Returns(s, es, i) == 0
    ensures var t := After(s, es); Inv(t) && i < |t.sess| && Muted(t, i) && !Outstanding(t, WriteRec, i)
    decreases |es|
  {
    if !Muted(s, i) {
      DirtyIsMuted(s, i);
    }
    if es != [] {
      StepKeepsIff(s, es[0]);
      StepFollowsLifecycle(s, es[0], i);
      MutedStays(s, es[0], i);
      DirtyLeaseIsSilent(Step(s, es[0]), es[1..], i);
    }
  }
}
