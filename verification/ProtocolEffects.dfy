/** The protocol without reference counts: where one step leads, and what it does to pointers and
    slot states.
    Off the race, the counted protocol does exactly this. */
module ProtocolEffects {
  import opened Handles
  import opened SparseSets
  import opened LeasePool
  import opened SessionProtocol
  import opened ProtocolInvariant
  import opened ProtocolSteps
  import opened ProtocolSends
  import opened ProtocolLeases

  ghost function Current(s: State, i: nat): Handle
    requires Shaped(s) && i < |s.sess|
  {
    Handle(i, s.pool.slots.gens[i])
  }

  ghost function Stored(s: State, a: Addr, j: nat): map<Addr, Handle>
    requires Shaped(s) && j < |s.sess|
  {
    if Has(s, Table(j)) then s.pool.ptrs[a := Current(s, j)] else s.pool.ptrs
  }

  ghost function NextPtrs(s: State, act: nat, ok: bool, more: bool, pick: nat): map<Addr, Handle>
    requires Shaped(s) && CanDo(s, act, ok, more, pick)
  {
    match s.acts[act]
    case PaReserved =>
      if AnyIdle(s) then s.pool.ptrs[Table(pick) := Current(s, pick)][Local(act, 0) := Current(s, pick)]
      else s.pool.ptrs
    case PaCreated(i) => s.pool.ptrs[ReadOv(i) := Current(s, i)]
    case PaDrop(_) => s.pool.ptrs - {Local(act, 0)}
    case Got(i, _, _, _) => s.pool.ptrs[Local(act, 1) := Current(s, i)]
    case Copied(i, r, _, good) => if r == DiscRec && !good then s.pool.ptrs else s.pool.ptrs - {RecordAddr(r, i)}
    case Welcome(i) => if ok && !s.sess[i].sending then Stored(s, WriteOv(i), i) else s.pool.ptrs
    case Target(_, j, _) => if ok && !s.sess[j].sending then Stored(s, WriteOv(j), j) else s.pool.ptrs
    case Wrote(i) => if ok && more then Stored(s, WriteOv(i), i) else s.pool.ptrs
    case Arming(i) => if ok then Stored(s, ReadOv(i), i) else s.pool.ptrs
    case Armed(i) => if ok then s.pool.ptrs else s.pool.ptrs - {ReadOv(i)}
    case Sending(_, j, _) => if ok then s.pool.ptrs else s.pool.ptrs - {WriteOv(j)}
    case Hanging(i, _) => s.pool.ptrs[DiscOv(i) := Current(s, i)]
    case Clearing(i) => s.pool.ptrs - {Table(i)}
    case Leaving(_, two) => s.pool.ptrs - {Local(act, if two then 1 else 0)}
    case _ => s.pool.ptrs
  }

  ghost function NextSlots(s: State, act: nat, ok: bool, more: bool, pick: nat): Slots
    requires Shaped(s) && CanDo(s, act, ok, more, pick)
  {
    match s.acts[act]
    case PaReserved => if AnyIdle(s) then Moved(s.pool.slots, pick, PENDING) else s.pool.slots
    case PaDrop(i) => if s.pool.refs[i] == 1 then Recycled(s.pool.slots, i) else s.pool.slots
    case Leaving(i, two) => if !two && s.pool.refs[i] == 1 then Recycled(s.pool.slots, i) else s.pool.slots
    case Accepting(i) => if ok && StateOf(s, i) == PENDING then Moved(s.pool.slots, i, CONNECTED) else s.pool.slots
    case Closing(i, _) =>
      if StateOf(s, i) in {PENDING, CONNECTED} then Moved(s.pool.slots, i, DISCONNECTING) else s.pool.slots
    case _ => s.pool.slots
  }

  ghost function NextSess(s: State, act: nat, ok: bool, more: bool, pick: nat): seq<Sess>
    requires Shaped(s) && CanDo(s, act, ok, more, pick)
  {
    match s.acts[act]
    case PaReserved =>
      if AnyIdle(s) then s.sess[pick := s.sess[pick].(handle := Current(s, pick), closed := false)] else s.sess
    case PaPosting(i) => if ok then s.sess[i := s.sess[i].(readIo := AcceptIo)] else s.sess
    case PaDrop(i) => if s.pool.refs[i] == 1 then s.sess[i := Cleaned(s.sess[i])] else s.sess
    case Accepting(i) =>
      if ok && StateOf(s, i) == PENDING then s.sess[i := s.sess[i].(connects := s.sess[i].connects + 1)] else s.sess
    case Welcome(i) => if ok && !s.sess[i].sending then Locked(s, i) else s.sess
    case Target(_, j, _) => if ok && !s.sess[j].sending then Locked(s, j) else s.sess
    case Wrote(i) =>
      if !ok then s.sess else if more then Locked(s, i) else s.sess[i := s.sess[i].(sending := false)]
    case Armed(i) => if ok then s.sess[i := s.sess[i].(readIo := RecvIo)] else s.sess
    case Sending(_, j, _) => s.sess[j := s.sess[j].(sendIo := s.sess[j].sendIo || ok, writeLock := false)]
    case Hung(i, _) => s.sess[i := s.sess[i].(discIo := ok, discCalls := s.sess[i].discCalls + 1)]
    case Leaving(i, two) => if !two && s.pool.refs[i] == 1 then s.sess[i := Cleaned(s.sess[i])] else s.sess
    case _ => s.sess
  }

  /** A send section begins. */
  ghost function Locked(s: State, j: nat): seq<Sess>
    requires j < |s.sess|
  {
    s.sess[j := s.sess[j].(sending := true, writeLock := true)]
  }

  /** Where an activity goes next. */
  ghost function NextPc(s: State, act: nat, ok: bool, more: bool, pick: nat): Pc
    requires Shaped(s) && CanDo(s, act, ok, more, pick)
  {
    match s.acts[act]
    case PaTop => if s.pending >= s.limit then Done else PaCas(s.pending)
    case PaCas(seen) => if s.pending == seen then PaReserved else PaTop
    case PaReserved => if AnyIdle(s) then PaCreated(pick) else Done
    case PaCreated(i) => PaPosting(i)
    case PaPosting(i) => if ok then PaDrop(i) else PaFailed(i)
    case PaFailed(i) => Closing(i, false)
    case PaDrop(i) => PaTop
    case AccDone(i, good) => Got(i, ReadRec, true, good)
    case Got(i, r, accept, good) => Copied(i, r, accept, good)
    case Copied(i, r, accept, good) =>
      if r == DiscRec then Clearing(i)
      else if !good then Closing(i, true)
      else if r == WriteRec then Wrote(i)
      else if accept then Accepting(i) else Reading(i)
    case Accepting(i) =>
      if ok && Live(s.pool.slots, s.sess[i].handle) && StateOf(s, i) == PENDING then Welcome(i) else Closing(i, true)
    case Welcome(i) =>
      if ok && !s.sess[i].sending then Sending(i, i, Greeting) else SendReturns(i, Greeting, ok)
    case Reading(i) =>
      if !ok then Closing(i, true)
      else if more then Bcast(i, set j | 0 <= j < |s.sess| && s.pool.slots.states[j] == CONNECTED && j != i)
      else Arming(i)
    case Bcast(i, rest) =>
      if rest == {} then Reading(i)
      else if Counted(s.pool, Table(pick)) then Target(i, pick, rest - {pick}) else Bcast(i, rest - {pick})
    case Target(i, j, rest) =>
      if ok && !s.sess[j].sending then Sending(i, j, Relay(rest)) else Bcast(i, rest)
    case Arming(i) => if ok then Armed(i) else Closing(i, true)
    case Armed(i) => if ok then Leaving(i, true) else Closing(i, true)
    case Wrote(i) => if !ok then Closing(i, true) else if more then Sending(i, i, Drain) else Leaving(i, true)
    case Sending(i, _, why) => SendReturns(i, why, ok)
    case Closing(i, two) =>
      if Live(s.pool.slots, s.sess[i].handle) && StateOf(s, i) in {PENDING, CONNECTED} then Hanging(i, two)
      else Leaving(i, two)
    case Hanging(i, two) => Hung(i, two)
    case Hung(i, two) => Leaving(i, two)
    case Clearing(i) => Leaving(i, true)
    case Leaving(i, two) => if two then Leaving(i, false) else Done
    case Done => Done
  }

  lemma PlaceStep(s: State, act: nat, ok: bool, more: bool, pick: nat)
    requires Shaped(s) && CanDo(s, act, ok, more, pick)
    ensures act < |DoStep(s, act, ok, more, pick).acts|
    ensures DoStep(s, act, ok, more, pick).acts[act] == NextPc(s, act, ok, more, pick)
  {
  }

  /** What becomes of the listener's count. */
  ghost function NextPending(s: State, act: nat): nat
    requires Shaped(s) && act < |s.acts|
  {
    var pc := s.acts[act];
    if pc == PaCas(s.pending) then s.pending + 1
    else if pc.PaFailed? || pc.AccDone? || (pc.PaReserved? && !AnyIdle(s)) then Minus1(s.pending)
    else s.pending
  }

  lemma PendingStep(s: State, act: nat, ok: bool, more: bool, pick: nat)
    requires Shaped(s) && CanDo(s, act, ok, more, pick)
    ensures DoStep(s, act, ok, more, pick).limit == s.limit
    ensures DoStep(s, act, ok, more, pick).pending == NextPending(s, act)
  {
  }

  ghost predicate AsUncounted(s: State, act: nat, ok: bool, more: bool, pick: nat)
    requires Shaped(s) && CanDo(s, act, ok, more, pick)
  {
    var t := DoStep(s, act, ok, more, pick);
    && t.pool.ptrs == NextPtrs(s, act, ok, more, pick) && t.pool.slots == NextSlots(s, act, ok, more, pick)
    && t.sess == NextSess(s, act, ok, more, pick)
  }

  /** A release that is not the last one, or of nothing at all. */
  lemma ResetPlainly(s: State, a: Addr)
    requires Inv(s) && (Has(s, a) ==> s.pool.refs[s.pool.ptrs[a].idx] != 1)
    ensures ResetAt(s, a).pool.ptrs == s.pool.ptrs - {a} && ResetAt(s, a).pool.slots == s.pool.slots
    ensures ResetAt(s, a).sess == s.sess && ResetAt(s, a).acts == s.acts
  {
    if Has(s, a) {
      LosePointer(s, a);
    } else {
      assert s.pool.ptrs - {a} == s.pool.ptrs;
    }
  }

  lemma OwnResetPlainly(s: State, act: nat, a: Addr)
    requires Inv(s) && act < |s.acts| && Holds(s.acts[act], 0) && !a.Local? && a.i == s.acts[act].i
    ensures ResetAt(s, a).pool.ptrs == s.pool.ptrs - {a} && ResetAt(s, a).pool.slots == s.pool.slots
    ensures ResetAt(s, a).sess == s.sess
  {
    HomeLeased(s, act);
    if Has(s, a) {
      PinnedByOther(s, a, Local(act, 0));
    }
    ResetPlainly(s, a);
  }

  lemma RecordAsUncounted(s: State, act: nat, ok: bool, more: bool, pick: nat)
    requires Inv(s) && CanDo(s, act, ok, more, pick) && (s.acts[act].Copied? || s.acts[act].Armed?)
    ensures AsUncounted(s, act, ok, more, pick)
  {
    var pc := s.acts[act];
    OwnResetPlainly(s, act, if pc.Armed? then ReadOv(pc.i) else RecordAddr(pc.r, pc.i));
  }

  lemma ClearAsUncounted(s: State, act: nat, ok: bool, more: bool, pick: nat)
    requires Inv(s) && CanDo(s, act, ok, more, pick) && s.acts[act].Clearing?
    ensures AsUncounted(s, act, ok, more, pick)
  {
    HomeLeased(s, act);
    assert SlotOk(s, s.acts[act].i);
    OwnResetPlainly(s, act, Table(s.acts[act].i));
  }

  lemma SendAsUncounted(s: State, act: nat, ok: bool, more: bool, pick: nat)
    requires Inv(s) && CanDo(s, act, ok, more, pick) && !Race(s, Do(act, ok, more, pick)) && s.acts[act].Sending?
    ensures AsUncounted(s, act, ok, more, pick)
  {
    var a := WriteOv(s.acts[act].j);
    if Has(s, a) {
      PointerCounted(s, a);
    }
    if !ok {
      ResetPlainly(s, a);
    }
  }

  lemma CopyAsUncounted(s: State, act: nat, ok: bool, more: bool, pick: nat)
    requires Inv(s) && CanDo(s, act, ok, more, pick) && (s.acts[act].PaCreated? || s.acts[act].Got?)
    ensures AsUncounted(s, act, ok, more, pick)
  {
    assert ActOk(s, act);
    HomeLeased(s, act);
    var pc := s.acts[act];
    if pc.PaCreated? {
      PointerCounted(s, Local(act, 0));
      GainPointer(s, ReadOv(pc.i), Local(act, 0));
    } else {
      assert SlotOf(s, Local(act, 1)) == -1;
      PointerCounted(s, RecordAddr(pc.r, pc.i));
      GainPointer(s, Local(act, 1), RecordAddr(pc.r, pc.i));
    }
  }

  lemma EmbedAsUncounted(s: State, act: nat, ok: bool, more: bool, pick: nat)
    requires Inv(s) && CanDo(s, act, ok, more, pick) && (s.acts[act].Arming? || s.acts[act].Hanging?)
    ensures AsUncounted(s, act, ok, more, pick)
  {
    assert ActOk(s, act);
    HomeLeased(s, act);
    var i := s.acts[act].i;
    assert SlotOk(s, i);
    if Has(s, Table(i)) {
      PointerCounted(s, Table(i));
    }
    GainFromTable(s, if s.acts[act].Arming? then ReadOv(i) else DiscOv(i), i);
  }

  lemma SendsAsUncounted(s: State, act: nat, ok: bool, more: bool, pick: nat)
    requires Inv(s) && CanDo(s, act, ok, more, pick)
    requires var pc := s.acts[act]; pc.Welcome? || pc.Target? || pc.Wrote?
    ensures AsUncounted(s, act, ok, more, pick)
  {
    assert ActOk(s, act);
    var pc := s.acts[act];
    var j := if pc.Target? then pc.j else pc.i;
    if ok && (if pc.Wrote? then more else !s.sess[j].sending) {
      NoWriter(s, act, j);
      GainFromTable(s, WriteOv(j), j);
      if Has(s, Table(j)) {
        PointerCounted(s, Table(j));
      }
    }
  }

  lemma LeavesAsUncounted(s: State, act: nat, ok: bool, more: bool, pick: nat)
    requires Inv(s) && CanDo(s, act, ok, more, pick)
    requires s.acts[act].PaDrop? || s.acts[act].Leaving?
    ensures AsUncounted(s, act, ok, more, pick)
  {
    HomeLeased(s, act);
    var i := s.acts[act].i;
    PointerCounted(s, Local(act, 0));
    if s.acts[act].Leaving? && s.acts[act].two {
      assert Has(s, Local(act, 1));
      PinnedByOther(s, Local(act, 1), Local(act, 0));
      LosePointer(s, Local(act, 1));
    } else if s.pool.refs[i] == 1 {
      DropsLast(s, act, i, if s.acts[act].PaDrop? then PaTop else Done);
    } else {
      LosePointer(s, Local(act, 0));
    }
  }

  /** Except for the race, a step of the counted protocol is a step of the uncounted one. */
  lemma StepAsUncounted(s: State, act: nat, ok: bool, more: bool, pick: nat)
    requires Inv(s) && CanDo(s, act, ok, more, pick) && !Race(s, Do(act, ok, more, pick))
    ensures AsUncounted(s, act, ok, more, pick)
  {
    var pc := s.acts[act];
    if pc.Copied? || pc.Armed? {
      RecordAsUncounted(s, act, ok, more, pick);
    } else if pc.Clearing? {
      ClearAsUncounted(s, act, ok, more, pick);
    } else if pc.Sending? {
      SendAsUncounted(s, act, ok, more, pick);
    } else if pc.PaCreated? || pc.Got? {
      CopyAsUncounted(s, act, ok, more, pick);
    } else if pc.Arming? || pc.Hanging? {
      EmbedAsUncounted(s, act, ok, more, pick);
    } else if pc.Welcome? || pc.Target? || pc.Wrote? {
      SendsAsUncounted(s, act, ok, more, pick);
    } else if pc.PaDrop? || pc.Leaving? {
      LeavesAsUncounted(s, act, ok, more, pick);
    } else if pc.PaReserved? {
      if AnyIdle(s) {
        CreatePool(s, act, pick);
      }
    } else {
      PlainAsUncounted(s, act, ok, more, pick);
    }
  }

  lemma PlainAsUncounted(s: State, act: nat, ok: bool, more: bool, pick: nat)
    requires Inv(s) && CanDo(s, act, ok, more, pick)
    requires var pc := s.acts[act];
      || pc.PaTop? || pc.PaCas? || pc.PaPosting? || pc.PaFailed? || pc.AccDone? || pc.Accepting? || pc.Reading?
      || pc.Bcast? || pc.Closing? || pc.Hung?
    ensures AsUncounted(s, act, ok, more, pick)
  {
    if s.acts[act].Accepting? || s.acts[act].Closing? {
      MarkAsUncounted(s, act, ok, more, pick);
    }
  }

  lemma MarkAsUncounted(s: State, act: nat, ok: bool, more: bool, pick: nat)
    requires Inv(s) && CanDo(s, act, ok, more, pick) && (s.acts[act].Accepting? || s.acts[act].Closing?)
    ensures AsUncounted(s, act, ok, more, pick)
  {
    HomeLeased(s, act);
    assert SlotOk(s, s.acts[act].i);
  }
}
