/** The listener's count of pending accepts, under every interleaving of PostAccept calls and
    accept completions. */
module ProtocolAccepts {
  import opened SparseSets
  import opened SessionProtocol
  import opened ProtocolInvariant
  import opened ProtocolTheorems
  import opened ProtocolRuns
  import opened ProtocolEffects

  /** Slots with an accept posted and not yet completed. */
  ghost function Accepts(s: State): set<int>
  {
    set i | 0 <= i < |s.sess| && s.sess[i].readIo == AcceptIo
  }

  /** The activity has raised the counter for an accept it has not posted, or has taken a completed
      accept and not lowered it yet. */
  ghost predicate Reserving(pc: Pc)
  {
    pc.PaReserved? || pc.PaCreated? || pc.PaPosting? || pc.PaFailed? || pc.AccDone?
  }

  ghost function Reservations(s: State): set<int>
  {
    set a | 0 <= a < |s.acts| && Reserving(s.acts[a])
  }

  ghost predicate AcceptLedger(s: State)
  {
    s.pending == |Accepts(s)| + |Reservations(s)| && s.pending <= s.limit
  }

  lemma ReservationsStep(s: State, act: nat, ok: bool, more: bool, pick: nat)
    requires Shaped(s) && CanDo(s, act, ok, more, pick)
    ensures Reservations(DoStep(s, act, ok, more, pick)) ==
      if Reserving(NextPc(s, act, ok, more, pick)) then Reservations(s) + {act as int}
      else Reservations(s) - {act as int}
  {
    ActsStep(s, act, ok, more, pick);
    PlaceStep(s, act, ok, more, pick);
    var t := DoStep(s, act, ok, more, pick);
    assert forall b :: 0 <= b < |s.acts| && b != act ==> t.acts[b] == s.acts[b];
  }

  lemma AcceptIoStep(s: State, act: nat, ok: bool, more: bool, pick: nat, i: nat)
    requires Shaped(s) && CanDo(s, act, ok, more, pick) && i < |s.sess|
    requires |DoStep(s, act, ok, more, pick).sess| == |s.sess|
    requires s.acts[act] == Armed(i) ==> s.sess[i].readIo == NoIo
    ensures DoStep(s, act, ok, more, pick).sess[i].readIo == AcceptIo <==>
      s.sess[i].readIo == AcceptIo || (s.acts[act] == PaPosting(i) && ok)
  {
  }

  lemma AcceptsStep(s: State, act: nat, ok: bool, more: bool, pick: nat)
    requires Inv(s) && CanDo(s, act, ok, more, pick)
    ensures Accepts(DoStep(s, act, ok, more, pick)) ==
      if s.acts[act].PaPosting? && ok then Accepts(s) + {s.acts[act].i as int} else Accepts(s)
  {
    SameSlots(s, Do(act, ok, more, pick));
    forall i: int | 0 <= i < |s.sess|
      ensures i in Accepts(DoStep(s, act, ok, more, pick)) <==>
        i in Accepts(s) || (s.acts[act] == PaPosting(i) && ok)
    {
      if s.acts[act] == Armed(i) {
        assert Tok(s.acts[act], ReadRec, i);
        assert !Outstanding(s, ReadRec, i);
      }
      AcceptIoStep(s, act, ok, more, pick, i);
    }
  }

  ghost predicate Raises(s: State, pc: Pc)
  {
    pc == PaCas(s.pending)
  }

  ghost predicate Lowers(s: State, pc: Pc)
    requires Shaped(s)
  {
    pc.PaFailed? || pc.AccDone? || (pc.PaReserved? && !AnyIdle(s))
  }

  /** Reservations begin where the counter is raised, and end where it is lowered or an accept is
      posted. */
  lemma PlaceCounts(s: State, act: nat, ok: bool, more: bool, pick: nat)
    requires Shaped(s) && CanDo(s, act, ok, more, pick)
    ensures var pc, next := s.acts[act], NextPc(s, act, ok, more, pick);
      if Raises(s, pc) then !Reserving(pc) && Reserving(next)
      else if Lowers(s, pc) || (pc.PaPosting? && ok) then Reserving(pc) && !Reserving(next)
      else Reserving(pc) == Reserving(next)
  {
  }

  lemma CountsAdd(s: State, t: State, act: nat, next: Pc, ok: bool)
    requires Shaped(s) && AcceptLedger(s) && act < |s.acts|
    requires var pc := s.acts[act];
      && Reservations(t) == (if Reserving(next) then Reservations(s) + {act as int} else Reservations(s) - {act as int})
      && Accepts(t) == (if pc.PaPosting? && ok then Accepts(s) + {pc.i as int} else Accepts(s))
      && t.limit == s.limit
      && t.pending == (if Raises(s, pc) then s.pending + 1 else if Lowers(s, pc) then Minus1(s.pending) else s.pending)
      && (Raises(s, pc) ==> s.pending < s.limit)
      && (pc.PaPosting? ==> pc.i as int !in Accepts(s))
      && (if Raises(s, pc) then !Reserving(pc) && Reserving(next)
          else if Lowers(s, pc) || (pc.PaPosting? && ok) then Reserving(pc) && !Reserving(next)
          else Reserving(pc) == Reserving(next))
    ensures AcceptLedger(t)
  {
    var here: int := act;
    assert here in Reservations(s) <==> Reserving(s.acts[act]);
    OneElement(Reservations(s), here);
    if s.acts[act].PaPosting? {
      OneElement(Accepts(s), s.acts[act].i);
    }
  }

  lemma OneElement(xs: set<int>, x: int)
    ensures |xs + {x}| == |xs| + if x in xs then 0 else 1
    ensures |xs - {x}| == |xs| - if x in xs then 1 else 0
  {
    assert x in xs ==> xs + {x} == xs;
    assert x !in xs ==> xs - {x} == xs;
  }

  lemma ActivityKeepsAccepts(s: State, act: nat, ok: bool, more: bool, pick: nat)
    requires Inv(s) && AcceptLedger(s) && CanDo(s, act, ok, more, pick)
    ensures AcceptLedger(DoStep(s, act, ok, more, pick))
  {
    ReservationsStep(s, act, ok, more, pick);
    AcceptsStep(s, act, ok, more, pick);
    PendingStep(s, act, ok, more, pick);
    PlaceCounts(s, act, ok, more, pick);
    assert ActOk(s, act);
    var pc := s.acts[act];
    assert pc.PaPosting? ==> Tok(pc, ReadRec, pc.i) && !Outstanding(s, ReadRec, pc.i);
    CountsAdd(s, DoStep(s, act, ok, more, pick), act, NextPc(s, act, ok, more, pick), ok);
  }

  /** The counter is exactly the posted accepts plus the reservations under way; it never exceeds
      its limit and is never lowered below zero. */
  lemma StepKeepsAccepts(s: State, e: Event)
    requires Inv(s) && Enabled(s, e) && AcceptLedger(s)
    ensures AcceptLedger(Step(s, e))
    ensures e.Do? && (s.acts[e.act].PaFailed? || s.acts[e.act].AccDone? || (s.acts[e.act].PaReserved? && !AnyIdle(s)))
      ==> s.pending > 0 && Step(s, e).pending == s.pending - 1
  {
    match e
    case Start =>
      assert Reservations(Step(s, e)) == Reservations(s);
    case Dequeue(i, r, ok) =>
      DequeueKeepsAccepts(s, i, r, ok);
    case Do(act, ok, more, pick) =>
      ActivityKeepsAccepts(s, act, ok, more, pick);
      PendingStep(s, act, ok, more, pick);
      assert Reserving(s.acts[act]) ==> act as int in Reservations(s);
  }

  lemma DequeueKeepsAccepts(s: State, i: nat, r: Record, ok: bool)
    requires Inv(s) && AcceptLedger(s) && i < |s.sess| && Outstanding(s, r, i)
    ensures AcceptLedger(TakeCompletion(s, i, r, ok))
  {
    var t := TakeCompletion(s, i, r, ok);
    TakenCounts(s, t, i, r, t.acts[|s.acts|]);
  }

  lemma TakenCounts(s: State, t: State, i: nat, r: Record, pc: Pc)
    requires AcceptLedger(s) && i < |s.sess| && t.acts == s.acts + [pc]
    requires t.sess == s.sess[i := WithoutIo(s.sess[i], r)]
    requires t.pending == s.pending && t.limit == s.limit
    requires r == ReadRec ==> s.sess[i].readIo != NoIo
    requires Reserving(pc) <==> r == ReadRec && s.sess[i].readIo == AcceptIo
    ensures AcceptLedger(t)
  {
    var n: int := |s.acts|;
    if Reserving(pc) {
      assert i as int in Accepts(s);
      assert Accepts(t) == Accepts(s) - {i as int};
      assert Reservations(t) == Reservations(s) + {n};
    } else {
      assert Accepts(t) == Accepts(s);
      assert Reservations(t) == Reservations(s);
    }
  }

  lemma {:induction false} RunKeepsAccepts(s: State, es: seq<Event>)
    requires Inv(s) && AcceptLedger(s) && Run(s, es) && RaceFree(s, es)
    ensures AcceptLedger(After(s, es))
    decreases |es|
  {
    if es != [] {
      StepKeepsIff(s, es[0]);
      StepKeepsAccepts(s, es[0]);
      RunKeepsAccepts(Step(s, es[0]), es[1..]);
    }
  }

  /** From start-up, in every run that avoids the race. */
  lemma AcceptsFromStart(s: State, es: seq<Event>)
    requires Initial(s) && Run(s, es) && RaceFree(s, es)
    ensures AcceptLedger(After(s, es))
  {
    InitialIsGood(s);
    assert Accepts(s) == {} && Reservations(s) == {};
    RunKeepsAccepts(s, es);
  }
}
