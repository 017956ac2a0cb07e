/** What holds in every run of the session protocol. */
module ProtocolTheorems {
  import opened LeasePool
  import opened SessionProtocol
  import opened ProtocolInvariant
  import opened ProtocolSteps
  import opened ProtocolCases
  import opened ProtocolSends
  import opened ProtocolLeases

  lemma PostAcceptKeeps(s: State, act: nat, ok: bool, more: bool, pick: nat)
    requires Inv(s) && CanDo(s, act, ok, more, pick)
    requires var pc := s.acts[act];
      pc.PaTop? || pc.PaCas? || pc.PaReserved? || pc.PaCreated? || pc.PaPosting? || pc.PaFailed? || pc.PaDrop?
    ensures Inv(DoStep(s, act, ok, more, pick))
  {
    var pc := s.acts[act];
    if pc.PaReserved? && AnyIdle(s) {
      CreateKeeps(s, act, ok, more, pick);
    } else if pc.PaCreated? {
      AcceptEmbedded(s, act, ok, more, pick);
    } else if pc.PaPosting? {
      AcceptPosted(s, act, ok, more, pick);
    } else if pc.PaDrop? {
      LeaveKeeps(s, act, pc.i, PaTop);
    } else {
      PostAcceptCounts(s, act, ok, more, pick);
    }
  }

  lemma DispatchKeeps(s: State, act: nat, ok: bool, more: bool, pick: nat)
    requires Inv(s) && CanDo(s, act, ok, more, pick)
    requires var pc := s.acts[act];
      pc.AccDone? || pc.Got? || pc.Copied? || pc.Accepting? || pc.Reading? || pc.Bcast? || pc.Arming? || pc.Armed?
    ensures Inv(DoStep(s, act, ok, more, pick))
  {
    var pc := s.acts[act];
    if Plain(s, act, ok, more, pick) {
      PlainKeeps(s, act, ok, more, pick);
    } else if pc.AccDone? {
      AcceptCounted(s, act, ok, more, pick);
    } else if pc.Got? {
      InnerCopied(s, act, ok, more, pick);
    } else if pc.Copied? {
      RecordReset(s, act, ok, more, pick);
    } else if pc.Accepting? {
      ConnectDecided(s, act, ok, more, pick);
    } else if pc.Arming? {
      ReadArmed(s, act, ok, more, pick);
    } else if ok {
      ReadPosted(s, act, pc.i);
    } else {
      ReadRefused(s, act, ok, more, pick);
    }
  }

  lemma CloseKeeps(s: State, act: nat, ok: bool, more: bool, pick: nat)
    requires Inv(s) && CanDo(s, act, ok, more, pick)
    requires var pc := s.acts[act];
      pc.Closing? || pc.Hanging? || pc.Hung? || pc.Clearing? || pc.Leaving?
    ensures Inv(DoStep(s, act, ok, more, pick))
  {
    match s.acts[act]
    case Closing(_, _) => CloseDecided(s, act, ok, more, pick);
    case Hanging(_, _) => DisconnectEmbedded(s, act, ok, more, pick);
    case Hung(i, two) => DisconnectPosted(s, act, i, two, ok);
    case Clearing(_) => TableCleared(s, act, ok, more, pick);
    case Leaving(i, two) =>
      if two {
        InnerLeft(s, act, i);
      } else {
        LeaveKeeps(s, act, i, Done);
      }
  }

  lemma ActivityStepKeeps(s: State, act: nat, ok: bool, more: bool, pick: nat)
    requires Inv(s) && CanDo(s, act, ok, more, pick) && !Race(s, Do(act, ok, more, pick))
    ensures Inv(DoStep(s, act, ok, more, pick))
  {
    var pc := s.acts[act];
    if pc.PaTop? || pc.PaCas? || pc.PaReserved? || pc.PaCreated? || pc.PaPosting? || pc.PaFailed? || pc.PaDrop? {
      PostAcceptKeeps(s, act, ok, more, pick);
    } else if pc.Welcome? || pc.Target? || pc.Wrote? || pc.Sending? {
      SendKeeps(s, act, ok, more, pick);
    } else if pc.Closing? || pc.Hanging? || pc.Hung? || pc.Clearing? || pc.Leaving? {
      CloseKeeps(s, act, ok, more, pick);
    } else {
      DispatchKeeps(s, act, ok, more, pick);
    }
  }

  lemma SendKeeps(s: State, act: nat, ok: bool, more: bool, pick: nat)
    requires Inv(s) && CanDo(s, act, ok, more, pick) && !Race(s, Do(act, ok, more, pick))
    requires s.acts[act].Welcome? || s.acts[act].Target? || s.acts[act].Wrote? || s.acts[act].Sending?
    ensures Inv(DoStep(s, act, ok, more, pick))
  {
    if s.acts[act].Sending? {
      if ok {
        SendPosted(s, act, ok, more, pick);
      } else {
        if Has(s, WriteOv(s.acts[act].j)) {
          PointerCounted(s, WriteOv(s.acts[act].j));
        }
        SendFailed(s, act, ok, more, pick);
      }
    } else if Plain(s, act, ok, more, pick) {
      PlainKeeps(s, act, ok, more, pick);
    } else if s.acts[act].Wrote? && !more {
      SendDrained(s, act, s.acts[act].i);
    } else {
      SendStarted(s, act, ok, more, pick);
    }
  }

  lemma LeaveKeeps(s: State, act: nat, i: nat, pc: Pc)
    requires Inv(s) && act < |s.acts| && LastLocal(s.acts[act], pc, i) && i < |s.sess|
    ensures Inv(To(DropLocal(s, Local(act, 0)), act, pc))
  {
    if s.pool.refs[i] == 1 {
      OuterLeftLast(s, act, i, pc);
    } else {
      OuterLeft(s, act, i, pc);
    }
  }

  /** The racing step breaks what all others keep: an operation is outstanding without a pointer in
      its record, or the counter of an idle slot reads 2^64 - 1. */
  lemma RaceBreaks(s: State, e: Event)
    requires Inv(s) && Enabled(s, e) && Race(s, e)
    ensures !Inv(Step(s, e)) && e.Do?
    ensures var t, j := Step(s, e), s.acts[e.act].j;
      && j < |t.sess| && Shaped(t)
      && if e.ok then Outstanding(t, WriteRec, j) && !Has(t, WriteOv(j))
         else StateOf(t, j) == IDLE && t.pool.refs[j] == COUNT_MAX
  {
    var t := Step(s, e);
    var j := s.acts[e.act].j;
    var a := WriteOv(j);
    if e.ok {
      assert t.sess[j].sendIo && !Has(t, a);
      assert !SlotOk(t, j);
    } else {
      Pinned(s);
      NextIsFresh(s, j);
      assert s.pool.ptrs[a].idx == SlotOf(s, a) == j;
      assert a == s.pool.owned[j][1];
      ResetKeepsIff(s.pool, a);
      assert t.pool == Reset(s.pool, a);
    }
  }

  /** The step resets a pointer in a record or in the table. */
  ghost predicate Resets(s: State, e: Event, a: Addr)
    requires Shaped(s) && Enabled(s, e)
  {
    e.Do? && match s.acts[e.act]
             case Copied(i, r, _, good) => !(r == DiscRec && !good) && a == RecordAddr(r, i)
             case Armed(i) => !e.ok && a == ReadOv(i)
             case Sending(_, j, _) => !e.ok && a == WriteOv(j)
             case Clearing(i) => a == Table(i)
             case _ => false
  }

  /** A Reset of a pointer in a record or in the table is the last release of its session exactly when
      it is a racing send that failed. */
  lemma LastResetIffRace(s: State, e: Event, a: Addr)
    requires Inv(s) && Enabled(s, e) && Resets(s, e, a)
    ensures !NotLast(s, a) <==> Race(s, e)
  {
    var act := e.act;
    assert ActOk(s, act);
    if !s.acts[act].Sending? && Has(s, a) {
      HomeLeased(s, act);
      PinnedByOther(s, a, Local(act, 0));
    }
  }

  /** The deleter never meets a pointer to reset: when the last local goes, both records that it clears
      are empty. */
  lemma DeleterFindsNothing(s: State, act: nat, ok: bool, more: bool, pick: nat)
    requires Inv(s) && CanDo(s, act, ok, more, pick)
    requires s.acts[act].PaDrop? || (s.acts[act].Leaving? && !s.acts[act].two)
    requires s.pool.refs[s.acts[act].i] == 1
    ensures forall a :: a in s.pool.owned[s.acts[act].i] ==> !Has(s, a)
    ensures DoStep(s, act, ok, more, pick).acts == s.acts[act := NextOut(s.acts[act])] + [PaTop]
  {
    OuterLeftLast(s, act, s.acts[act].i, NextOut(s.acts[act]));
  }

  ghost function NextOut(pc: Pc): Pc
  {
    if pc.PaDrop? then PaTop else Done
  }

  /** Every step keeps the invariant, except exactly a send whose post succeeds after GetSession
      found nothing, or fails when the record holds the last pointer to the session. */
  lemma StepKeepsIff(s: State, e: Event)
    requires Inv(s) && Enabled(s, e)
    ensures Inv(Step(s, e)) <==> !Race(s, e)
  {
    if Race(s, e) {
      RaceBreaks(s, e);
    } else {
      match e
      case Start => SpawnKeeps(s);
      case Dequeue(i, r, ok) => DequeueKeeps(s, i, r, ok);
      case Do(act, ok, more, pick) => ActivityStepKeeps(s, act, ok, more, pick);
    }
  }
}
