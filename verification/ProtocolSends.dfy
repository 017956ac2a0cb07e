/** Steps of RegisterRead, SendPacket, OnWrite, Disconnect and Clear. */
module ProtocolSends {
  import opened Handles
  import opened SparseSets
  import opened LeasePool
  import opened SessionProtocol
  import opened ProtocolInvariant
  import opened ProtocolSteps
  import opened ProtocolCases

  // ---------- RegisterRead ----------

  lemma ReadArmed(s: State, act: nat, ok: bool, more: bool, pick: nat)
    requires Inv(s) && CanDo(s, act, ok, more, pick) && s.acts[act].Arming? && ok
    ensures Inv(DoStep(s, act, ok, more, pick))
  {
    var i := s.acts[act].i;
    assert ActOk(s, act) && SlotOk(s, i);
    HomeLeased(s, act);
    RecordFilled(s, act, ReadRec, i, Armed(i));
  }

  /** record := GetSession(own handle), for a record that this activity alone uses. */
  lemma RecordFilled(s: State, act: nat, r: Record, i: nat, pc: Pc)
    requires Inv(s) && act < |s.acts| && i < |s.sess| && StateOf(s, i) != IDLE
    requires Tok(s.acts[act], r, i) && r != WriteRec && !Has(s, RecordAddr(r, i))
    requires r == DiscRec ==> StateOf(s, i) == DISCONNECTING
    requires Continues(s.acts[act], pc)
    requires (pc == Armed(i) && r == ReadRec)
      || (pc.Hung? && pc.i == i && r == DiscRec && !s.sess[i].closed && s.sess[i].discCalls == 0)
    ensures Inv(To(Embed(s, RecordAddr(r, i), s.sess[i].handle), act, pc))
  {
    assert SlotOk(s, i);
    var a := RecordAddr(r, i);
    GainFromTable(s, a, i);
    if Has(s, Table(i)) {
      PointerCounted(s, Table(i));
      FillRecord(s, To(Embed(s, a, s.sess[i].handle), act, pc), act, r, i, pc);
    } else {
      Quiet(s, act, pc, s.pending);
    }
  }

  lemma ReadPosted(s: State, act: nat, i: nat)
    requires Inv(s) && act < |s.acts| && s.acts[act] == Armed(i) && i < |s.sess| && !s.sess[i].closed
    ensures Inv(To(SetSess(s, i, s.sess[i].(readIo := RecvIo)), act, Leaving(i, true)))
  {
    var t := To(SetSess(s, i, s.sess[i].(readIo := RecvIo)), act, Leaving(i, true));
    assert ActOk(s, act) && SlotOk(s, i);
    TokIsMine(s, act, ReadRec, i);
    assert SlotOk(t, i);
    GoesOut(s, t, act, i, ReadRec, true);
  }

  /** An activity settles its record of slot i and goes on its way out. */
  lemma GoesOut(s: State, t: State, act: nat, i: nat, r: Record, two: bool)
    requires Inv(s) && act < |s.acts| && i < |s.sess| && Mine(s, act, r, i) && Tok(s.acts[act], r, i)
    requires i < |t.sess| && t == To(SetSess(s, i, t.sess[i]), act, Leaving(i, two))
    requires SameLocals(s.acts[act], Leaving(i, two))
    requires forall r' :: Outstanding(t, r', i) ==> r' == r || Outstanding(s, r', i)
    requires var x, y := s.sess[i], t.sess[i];
      && x.closed == y.closed && x.writeLock == y.writeLock
      && (x.discCalls == y.discCalls || r == DiscRec) && (x.sending == y.sending || r == WriteRec)
    requires SlotOk(t, i)
    ensures Inv(t)
  {
    Advance(s, t, act, i, Table(i));
  }

  lemma ReadRefused(s: State, act: nat, ok: bool, more: bool, pick: nat)
    requires Inv(s) && CanDo(s, act, ok, more, pick) && s.acts[act].Armed? && !ok
    ensures Inv(DoStep(s, act, ok, more, pick)) && NotLast(s, ReadOv(s.acts[act].i))
  {
    var i := s.acts[act].i;
    assert ActOk(s, act);
    if Has(s, ReadOv(i)) {
      HomeLeased(s, act);
      PinnedByOther(s, ReadOv(i), Local(act, 0));
      LetGo(s, act, ReadRec, i, Closing(i, true));
    } else {
      Quiet(s, act, Closing(i, true), s.pending);
    }
  }

  // ---------- SendPacket and OnWrite ----------

  lemma NoWriter(s: State, act: nat, j: nat)
    requires Inv(s) && j < |s.sess| && !s.sess[j].writeLock
    requires !s.sess[j].sending || (act < |s.acts| && s.acts[act] == Wrote(j))
    ensures Mine(s, act, WriteRec, j) && !s.sess[j].sendIo && !Has(s, WriteOv(j))
  {
    assert SlotOk(s, j);
    if !s.sess[j].sending {
      forall b | 0 <= b < |s.acts|
        ensures !Tok(s.acts[b], WriteRec, j)
      {
        assert ActOk(s, b);
      }
    } else {
      assert ActOk(s, act);
      TokIsMine(s, act, WriteRec, j);
      assert !Outstanding(s, WriteRec, j);
    }
  }

  /** The write mutex taken and the session pointer stored: what became of the state. */
  ghost predicate SendTaken(s: State, t: State, act: nat, i: nat, j: nat, why: Why)
  {
    && Inv(s) && Frame(t) && act < |s.acts| && Local1(s, t, act, j) && OnePointer(s, t, WriteOv(j), j)
    && t.acts[act] == Sending(i, j, why) && t.pool.slots == s.pool.slots
    && t.sess == s.sess[j := s.sess[j].(sending := true, writeLock := true)]
    && (Has(s, Table(j)) ==> Has(t, WriteOv(j)))
  }

  lemma SendTakes(s: State, act: nat, i: nat, j: nat, why: Why)
    requires Inv(s) && act < |s.acts| && j < |s.sess| && !Has(s, WriteOv(j))
    ensures SendTaken(s, BeginSend(s, act, i, j, why), act, i, j, why)
  {
    GainFromTable(s, WriteOv(j), j);
    if Has(s, Table(j)) {
      PointerCounted(s, Table(j));
    }
    FrameKept(s, BeginSend(s, act, i, j, why));
  }

  /** The same for an activity that works for slot i. */
  lemma SendBegun(s: State, act: nat, i: nat, j: nat, why: Why)
    requires Inv(s) && act < |s.acts| && j < |s.sess| && !s.sess[j].writeLock
    requires SendFrom(s.acts[act], i, j, why)
    requires why.Drain? || !s.sess[j].sending
    ensures Inv(BeginSend(s, act, i, j, why))
  {
    NoWriter(s, act, j);
    SendTakes(s, act, i, j, why);
    SendTakenUp(s, BeginSend(s, act, i, j, why), act, i, j, why);
  }

  ghost predicate SendFrom(from: Pc, i: nat, j: nat, why: Why)
  {
    match why
    case Greeting => i == j && from == Welcome(i)
    case Relay(rest) => from == Target(i, j, rest)
    case Drain => i == j && from == Wrote(i)
  }

  lemma SendPlace(s: State, t: State, act: nat, i: nat, j: nat, why: Why)
    requires Shaped(s) && Shaped(t) && act < |s.acts| && act < |t.acts| && i < |s.sess| && j < |s.sess| == |t.sess|
    requires SendFrom(s.acts[act], i, j, why) && t.acts[act] == Sending(i, j, why) && ActOk(s, act)
    requires t.sess[j] == s.sess[j].(sending := true, writeLock := true)
    requires !why.Relay? ==> Has(t, WriteOv(j)) || s.sess[j].closed
    requires forall k :: Has(s, ReadOv(k)) <==> Has(t, ReadOv(k))
    ensures ActOk(t, act)
  {
  }

  lemma SendTakenUp(s: State, t: State, act: nat, i: nat, j: nat, why: Why)
    requires SendTaken(s, t, act, i, j, why) && SendFrom(s.acts[act], i, j, why)
    requires Mine(s, act, WriteRec, j) && !s.sess[j].sendIo
    ensures Inv(t)
  {
    HomeLeased(s, act);
    assert ActOk(s, act) && SlotOk(s, j);
    SendPlace(s, t, act, i, j, why);
    SendSlot(s, t, j);
    SendGentle(s, t, act, j);
    SendTokens(s.acts[act], i, j, why);
    TakeUp(s, t, act, j, WriteOv(j), WriteRec);
  }

  lemma SendTokens(from: Pc, i: nat, j: nat, why: Why)
    requires SendFrom(from, i, j, why)
    ensures SameLocals(from, Sending(i, j, why))
    ensures forall r, h: nat :: Tok(Sending(i, j, why), r, h) ==> Tok(from, r, h) || (r == WriteRec && h == j)
  {
  }

  lemma SendGentle(s: State, t: State, act: nat, j: nat)
    requires Local1(s, t, act, j) && t.pool.slots == s.pool.slots && Mine(s, act, WriteRec, j)
    requires t.sess == s.sess[j := s.sess[j].(sending := true, writeLock := true)]
    requires forall a :: a != WriteOv(j) ==> (Has(s, a) <==> Has(t, a))
    ensures Gentle(s, t, act, j)
  {
    forall r
      ensures (Has(s, RecordAddr(r, j)) <==> Has(t, RecordAddr(r, j))) || Mine(s, act, r, j)
    {
      assert r != WriteRec ==> RecordAddr(r, j) != WriteOv(j);
    }
  }

  lemma SendSlot(s: State, t: State, j: nat)
    requires Inv(s) && Shaped(t) && j < |s.sess| && t.pool.slots == s.pool.slots
    requires t.sess == s.sess[j := s.sess[j].(sending := true, writeLock := true)]
    requires forall a :: a != WriteOv(j) ==> (Has(s, a) <==> Has(t, a))
    requires !s.sess[j].sendIo
    ensures SlotOk(t, j)
  {
    assert SlotOk(s, j);
  }

  lemma SendStarted(s: State, act: nat, ok: bool, more: bool, pick: nat)
    requires Inv(s) && CanDo(s, act, ok, more, pick)
    requires ok && match s.acts[act]
                   case Welcome(i) => !s.sess[i].sending
                   case Target(_, j, _) => !s.sess[j].sending
                   case Wrote(_) => more
                   case _ => false
    ensures Inv(DoStep(s, act, ok, more, pick))
  {
    match s.acts[act] {
      case Welcome(i) => SendBegun(s, act, i, i, Greeting);
      case Target(i, j, rest) => SendBegun(s, act, i, j, Relay(rest));
      case Wrote(i) => SendBegun(s, act, i, i, Drain);
    }
  }

  lemma SendDrained(s: State, act: nat, i: nat)
    requires Inv(s) && act < |s.acts| && s.acts[act] == Wrote(i) && i < |s.sess|
    ensures Inv(To(SetSess(s, i, s.sess[i].(sending := false)), act, Leaving(i, true)))
  {
    var t := To(SetSess(s, i, s.sess[i].(sending := false)), act, Leaving(i, true));
    assert ActOk(s, act) && SlotOk(s, i);
    TokIsMine(s, act, WriteRec, i);
    assert SlotOk(t, i);
    GoesOut(s, t, act, i, WriteRec, true);
  }

  lemma SendReturnOk(s: State, t: State, act: nat, ok: bool)
    requires Shaped(s) && Shaped(t) && |s.sess| == |t.sess| && act < |s.acts| && act < |t.acts| && ActOk(s, act)
    requires s.acts[act].Sending? && t.acts[act] == SendReturns(s.acts[act].i, s.acts[act].why, ok)
    requires forall i :: Has(s, ReadOv(i)) <==> Has(t, ReadOv(i))
    ensures ActOk(t, act) && Continues(s.acts[act], t.acts[act]) && !Tok(t.acts[act], WriteRec, s.acts[act].j)
  {
  }

  lemma SendPosted(s: State, act: nat, ok: bool, more: bool, pick: nat)
    requires Inv(s) && CanDo(s, act, ok, more, pick) && s.acts[act].Sending? && ok && Has(s, WriteOv(s.acts[act].j))
    ensures Inv(DoStep(s, act, ok, more, pick))
  {
    var j := s.acts[act].j;
    var t := DoStep(s, act, ok, more, pick);
    assert ActOk(s, act) && SlotOk(s, j);
    assert SlotOk(t, j);
    SendReturnOk(s, t, act, true);
    TokIsMine(s, act, WriteRec, j);
    Advance(s, t, act, j, WriteOv(j));
  }

  lemma SendFailed(s: State, act: nat, ok: bool, more: bool, pick: nat)
    requires Inv(s) && CanDo(s, act, ok, more, pick) && s.acts[act].Sending? && !ok
    requires var a := WriteOv(s.acts[act].j); Has(s, a) ==> s.pool.refs[s.pool.ptrs[a].idx] != 1
    ensures Inv(DoStep(s, act, ok, more, pick))
  {
    var j := s.acts[act].j;
    var a := WriteOv(j);
    if Has(s, a) {
      LosePointer(s, a);
    } else {
      assert s.pool.ptrs - {a} == s.pool.ptrs;
    }
    SendLetGo(s, DoStep(s, act, ok, more, pick), act);
  }

  lemma SendLetGo(s: State, t: State, act: nat)
    requires Inv(s) && act < |s.acts| && s.acts[act].Sending?
    requires Repointed(s.pool, t.pool, s.pool.ptrs - {WriteOv(s.acts[act].j)})
    requires var j := s.acts[act].j; j < |s.sess| && t.sess == s.sess[j := s.sess[j].(writeLock := false)]
    requires t.acts == s.acts[act := SendReturns(s.acts[act].i, s.acts[act].why, false)] && t.limit == s.limit
    ensures Inv(t)
  {
    var j := s.acts[act].j;
    assert ActOk(s, act) && SlotOk(s, j);
    TokIsMine(s, act, WriteRec, j);
    UnlockedSlot(s, t, act, j);
    FrameKept(s, t);
    SendReturned(s, t, act, j);
  }

  lemma SendReturned(s: State, t: State, act: nat, j: nat)
    requires Inv(s) && Frame(t) && act < |s.acts| && Local1(s, t, act, j) && OnePointer(s, t, WriteOv(j), j)
    requires s.acts[act].Sending? && t.acts[act] == SendReturns(s.acts[act].i, s.acts[act].why, false)
    requires SlotOk(t, j) && Gentle(s, t, act, j)
    requires forall r :: Outstanding(t, r, j) ==> Outstanding(s, r, j)
    ensures Inv(t)
  {
    assert ActOk(s, act);
    SendReturnOk(s, t, act, false);
    Advance(s, t, act, j, WriteOv(j));
  }

  lemma UnlockedSlot(s: State, t: State, act: nat, j: nat)
    requires Local1(s, t, act, j) && SlotOk(s, j) && !s.sess[j].sendIo && t.pool.slots == s.pool.slots
    requires t.sess[j] == s.sess[j].(writeLock := false) && t.pool.ptrs == s.pool.ptrs - {WriteOv(j)}
    requires Mine(s, act, WriteRec, j)
    ensures SlotOk(t, j) && Gentle(s, t, act, j) && OnePointer(s, t, WriteOv(j), j)
    ensures forall r :: Outstanding(t, r, j) ==> Outstanding(s, r, j)
  {
    assert forall r :: r != WriteRec ==> RecordAddr(r, j) != WriteOv(j);
  }

  // ---------- Disconnect and Clear ----------

  lemma CloseDecided(s: State, act: nat, ok: bool, more: bool, pick: nat)
    requires Inv(s) && CanDo(s, act, ok, more, pick) && s.acts[act].Closing?
    ensures Inv(DoStep(s, act, ok, more, pick))
  {
    var Closing(i, two) := s.acts[act];
    var t := DoStep(s, act, ok, more, pick);
    assert ActOk(s, act) && SlotOk(s, i);
    HomeLeased(s, act);
    if t.acts[act].Hanging? {
      MovedKeepsFrame(s, t, i);
      CloseMarked(s, t, act, i, two);
    } else {
      Quiet(s, act, Leaving(i, two), s.pending);
    }
  }

  lemma NoCloser(s: State, act: nat, i: nat)
    requires Inv(s) && i < |s.sess| && StateOf(s, i) in {PENDING, CONNECTED}
    ensures Mine(s, act, DiscRec, i) && !Outstanding(s, DiscRec, i) && !s.sess[i].closed
  {
    assert SlotOk(s, i);
    forall b | 0 <= b < |s.acts|
      ensures !Tok(s.acts[b], DiscRec, i)
    {
      assert ActOk(s, b);
    }
  }

  lemma CloseMarked(s: State, t: State, act: nat, i: nat, two: bool)
    requires Inv(s) && Frame(t) && act < |s.acts| && s.acts[act] == Closing(i, two) && i < |s.sess|
    requires StateOf(s, i) in {PENDING, CONNECTED}
    requires t == To(SetState(s, i, DISCONNECTING), act, Hanging(i, two))
    ensures Inv(t)
  {
    NoCloser(s, act, i);
    assert SlotOk(s, i);
    assert SlotOk(t, i);
    TakeUp(s, t, act, i, Table(i), DiscRec);
  }

  lemma DisconnectEmbedded(s: State, act: nat, ok: bool, more: bool, pick: nat)
    requires Inv(s) && CanDo(s, act, ok, more, pick) && s.acts[act].Hanging?
    ensures Inv(DoStep(s, act, ok, more, pick))
  {
    var Hanging(i, two) := s.acts[act];
    assert ActOk(s, act) && SlotOk(s, i);
    RecordFilled(s, act, DiscRec, i, Hung(i, two));
  }

  /** A record that this activity alone uses receives a pointer to its own session. */
  lemma FillRecord(s: State, t: State, act: nat, r: Record, i: nat, pc: Pc)
    requires Inv(s) && act < |s.acts| && i < |s.sess| && Tok(s.acts[act], r, i) && r != WriteRec
    requires r == DiscRec ==> StateOf(s, i) == DISCONNECTING
    requires Repointed(s.pool, t.pool, s.pool.ptrs[RecordAddr(r, i) := Handle(i, s.pool.slots.gens[i])])
    requires t.sess == s.sess && t.acts == s.acts[act := pc] && t.limit == s.limit
    requires Continues(s.acts[act], pc) && ActOk(t, act)
    ensures Inv(t)
  {
    assert SlotOk(s, i);
    assert SlotOk(t, i);
    TokIsMine(s, act, r, i);
    FrameKept(s, t);
    GentleRecord(s, t, act, i, r);
    Advance(s, t, act, i, RecordAddr(r, i));
  }

  lemma DisconnectPosted(s: State, act: nat, i: nat, two: bool, ok: bool)
    requires Inv(s) && act < |s.acts| && s.acts[act] == Hung(i, two) && i < |s.sess|
    ensures Inv(To(SetSess(s, i, s.sess[i].(discIo := ok, discCalls := s.sess[i].discCalls + 1)), act, Leaving(i, two)))
  {
    var t := To(SetSess(s, i, s.sess[i].(discIo := ok, discCalls := s.sess[i].discCalls + 1)), act, Leaving(i, two));
    assert ActOk(s, act) && SlotOk(s, i);
    TokIsMine(s, act, DiscRec, i);
    assert SlotOk(t, i);
    GoesOut(s, t, act, i, DiscRec, two);
  }

  lemma TableCleared(s: State, act: nat, ok: bool, more: bool, pick: nat)
    requires Inv(s) && CanDo(s, act, ok, more, pick) && s.acts[act].Clearing?
    ensures Inv(DoStep(s, act, ok, more, pick)) && NotLast(s, Table(s.acts[act].i))
  {
    var i := s.acts[act].i;
    var t := DoStep(s, act, ok, more, pick);
    assert ActOk(s, act) && SlotOk(s, i);
    HomeLeased(s, act);
    if Has(s, Table(i)) {
      LoseTable(s, act, i);
      TableLost(s, t, act, i);
    } else {
      Quiet(s, act, Leaving(i, true), s.pending);
    }
  }

  lemma TableLost(s: State, t: State, act: nat, i: nat)
    requires Inv(s) && act < |s.acts| && s.acts[act] == Clearing(i)
    requires Repointed(s.pool, t.pool, s.pool.ptrs - {Table(i)})
    requires t.sess == s.sess && t.acts == s.acts[act := Leaving(i, true)] && t.limit == s.limit
    ensures Inv(t)
  {
    assert ActOk(s, act) && SlotOk(s, i);
    assert SlotOk(t, i);
    FrameKept(s, t);
    assert forall r :: RecordAddr(r, i) != Table(i);
    assert Gentle(s, t, act, i);
    Advance(s, t, act, i, Table(i));
  }

  lemma LoseTable(s: State, act: nat, i: nat)
    requires Inv(s) && act < |s.acts| && s.acts[act] == Clearing(i) && Has(s, Table(i))
    ensures Repointed(s.pool, Reset(s.pool, Table(i)), s.pool.ptrs - {Table(i)}) && NotLast(s, Table(i))
    ensures ResetAt(s, Table(i)) == s.(pool := Reset(s.pool, Table(i)))
  {
    HomeLeased(s, act);
    PinnedByOther(s, Table(i), Local(act, 0));
    LosePointer(s, Table(i));
  }
}
