/** Sessions that never come back. */
module ProtocolLeaks {
  import opened SparseSets
  import opened SessionProtocol
  import opened ProtocolInvariant
  import opened ProtocolSteps
  import opened ProtocolTheorems
  import opened ProtocolEffects
  import opened ProtocolRuns

  /** The activity handles a disconnect that completed with an error, or only has the table entry left
      to clear: it will not reset the disconnect record. */
  ghost predicate Abandons(pc: Pc)
  {
    pc.Clearing? || ((pc.Got? || pc.Copied?) && pc.r == DiscRec && !pc.ok)
  }

  /** A record keeps its pointer although no operation is outstanding on it and no activity will
      reset it. */
  ghost predicate Leaked(s: State, r: Record, i: nat)
    requires Shaped(s)
  {
    && r != WriteRec && i < |s.sess| && Has(s, RecordAddr(r, i)) && !Outstanding(s, r, i)
    && (forall a :: 0 <= a < |s.acts| && Tok(s.acts[a], r, i) ==> r == DiscRec && Abandons(s.acts[a]))
    && (r == DiscRec ==> StateOf(s, i) == DISCONNECTING)
  }

  lemma LeakStays(s: State, e: Event, r: Record, i: nat)
    requires Inv(s) && Enabled(s, e) && !Race(s, e) && Leaked(s, r, i)
    ensures Inv(Step(s, e)) && Leaked(Step(s, e), r, i)
    ensures Step(s, e).pool.slots.gens[i] == s.pool.slots.gens[i] && StateOf(Step(s, e), i) != IDLE
  {
    var t := Step(s, e);
    StepKeepsIff(s, e);
    StepFollowsLifecycle(s, e, i);
    PointerCounted(s, RecordAddr(r, i));
    LeakPointerStays(s, e, r, i);
    PointerCounted(t, RecordAddr(r, i));
    LeakUnused(s, e, r, i);
  }

  lemma LeakPointerStays(s: State, e: Event, r: Record, i: nat)
    requires Inv(s) && Enabled(s, e) && !Race(s, e) && Leaked(s, r, i)
    ensures Has(Step(s, e), RecordAddr(r, i))
  {
    match e
    case Start =>
    case Dequeue(k, r', ok) =>
      assert SlotOk(s, k);
    case Do(act, ok, more, pick) =>
      StepAsUncounted(s, act, ok, more, pick);
      assert Tok(s.acts[act], r, i) ==> r == DiscRec && Abandons(s.acts[act]);
  }

  /** An activity gets hold of a read or disconnect record only of a slot that it leases or closes. */
  lemma TakesRecord(s: State, act: nat, ok: bool, more: bool, pick: nat, r: Record, i: nat)
    requires Shaped(s) && CanDo(s, act, ok, more, pick) && r != WriteRec && i < |s.sess| && StateOf(s, i) != IDLE
    requires r == DiscRec ==> StateOf(s, i) == DISCONNECTING
    ensures Tok(NextPc(s, act, ok, more, pick), r, i) ==> Tok(s.acts[act], r, i)
    ensures Abandons(s.acts[act]) && Tok(NextPc(s, act, ok, more, pick), DiscRec, i) ==>
      Abandons(NextPc(s, act, ok, more, pick))
  {
  }

  lemma PostsOnRecord(s: State, act: nat, ok: bool, more: bool, pick: nat, r: Record, i: nat)
    requires Shaped(s) && CanDo(s, act, ok, more, pick) && r != WriteRec && i < |s.sess|
    requires |DoStep(s, act, ok, more, pick).sess| == |s.sess|
    ensures Outstanding(DoStep(s, act, ok, more, pick), r, i) ==>
      Outstanding(s, r, i) || (Tok(s.acts[act], r, i) && !Abandons(s.acts[act]))
  {
  }

  lemma LeakUnused(s: State, e: Event, r: Record, i: nat)
    requires Inv(s) && Enabled(s, e) && Leaked(s, r, i) && StateOf(s, i) != IDLE
    requires Shaped(Step(s, e)) && |Step(s, e).sess| == |s.sess|
    ensures !Outstanding(Step(s, e), r, i)
    ensures forall a :: 0 <= a < |Step(s, e).acts| && Tok(Step(s, e).acts[a], r, i) ==>
      r == DiscRec && Abandons(Step(s, e).acts[a])
  {
    if e.Do? {
      var Do(act, ok, more, pick) := e;
      ActsStep(s, act, ok, more, pick);
      PlaceStep(s, act, ok, more, pick);
      TakesRecord(s, act, ok, more, pick, r, i);
      PostsOnRecord(s, act, ok, more, pick, r, i);
      assert Tok(s.acts[act], r, i) ==> r == DiscRec && Abandons(s.acts[act]);
      forall a | 0 <= a < |Step(s, e).acts| && Tok(Step(s, e).acts[a], r, i)
        ensures r == DiscRec && Abandons(Step(s, e).acts[a])
      {
        if a < |s.acts| && a != act {
          assert Step(s, e).acts[a] == s.acts[a];
        }
      }
    }
  }

  /** A leaked session stays leased, at the same generation, in every run from then on. */
  lemma {:induction false} LeakIsForever(s: State, es: seq<Event>, r: Record, i: nat)
    requires Inv(s) && Run(s, es) && RaceFree(s, es) && Leaked(s, r, i)
    ensures Inv(After(s, es)) && Leaked(After(s, es), r, i)
    ensures After(s, es).pool.slots.gens[i] == s.pool.slots.gens[i] && StateOf(After(s, es), i) != IDLE
    decreases |es|
  {
    if es == [] {
      PointerCounted(s, RecordAddr(r, i));
    } else {
      LeakStays(s, es[0], r, i);
      LeakIsForever(Step(s, es[0]), es[1..], r, i);
    }
  }

  /** An accept that cannot be posted leaves the read record's pointer behind. */
  lemma FailedAcceptLeaks(s: State, act: nat, more: bool, pick: nat)
    requires Inv(s) && CanDo(s, act, false, more, pick) && s.acts[act].PaPosting?
    ensures Inv(DoStep(s, act, false, more, pick)) && Leaked(DoStep(s, act, false, more, pick), ReadRec, s.acts[act].i)
  {
    var i := s.acts[act].i;
    assert ActOk(s, act);
    StepKeepsIff(s, Do(act, false, more, pick));
    TokIsMine(s, act, ReadRec, i);
    assert !Outstanding(s, ReadRec, i);
  }

  /** A disconnect that cannot be posted leaves its record's pointer behind. */
  lemma FailedDisconnectLeaks(s: State, act: nat, more: bool, pick: nat)
    requires Inv(s) && CanDo(s, act, false, more, pick) && s.acts[act].Hung?
    ensures Inv(DoStep(s, act, false, more, pick)) && Leaked(DoStep(s, act, false, more, pick), DiscRec, s.acts[act].i)
  {
    var i := s.acts[act].i;
    assert ActOk(s, act);
    StepKeepsIff(s, Do(act, false, more, pick));
    TokIsMine(s, act, DiscRec, i);
    assert !Outstanding(s, DiscRec, i);
  }

  /** So does a disconnect that completes with an error: its handler clears the table entry only. */
  lemma FailedCompletionLeaks(s: State, i: nat)
    requires Inv(s) && i < |s.sess| && Outstanding(s, DiscRec, i)
    ensures Inv(TakeCompletion(s, i, DiscRec, false)) && Leaked(TakeCompletion(s, i, DiscRec, false), DiscRec, i)
  {
    assert SlotOk(s, i);
    StepKeepsIff(s, Dequeue(i, DiscRec, false));
    assert forall a :: 0 <= a < |s.acts| ==> !Tok(s.acts[a], DiscRec, i);
  }
}
