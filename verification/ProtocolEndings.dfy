/** Which leases end: in every run, a session that nothing works on any more is back in the pool
    exactly when none of the three operations that leak a pointer failed on it. */
module ProtocolEndings {
  import opened SparseSets
  import opened SessionProtocol
  import opened ProtocolInvariant
  import opened ProtocolCases
  import opened ProtocolTheorems
  import opened ProtocolEffects
  import opened ProtocolRuns
  import opened ProtocolLeaks
  import PR = PointerRuns

  /** The accept or the disconnect of slot i could not be posted, or its disconnect completed with an
      error. */
  ghost predicate Fails(s: State, e: Event, i: nat)
    requires Shaped(s) && Enabled(s, e)
  {
    match e
    case Start => false
    case Dequeue(k, r, ok) => k == i && r == DiscRec && !ok
    case Do(act, ok, _, _) =>
      !ok && (s.acts[act] == PaPosting(i) || s.acts[act] == Hung(i, true) || s.acts[act] == Hung(i, false))
  }

  ghost predicate FailedIn(s: State, es: seq<Event>, i: nat)
    requires Shaped(s) && Run(s, es)
    decreases |es|
  {
    es != [] && (Fails(s, es[0], i) || FailedIn(Step(s, es[0]), es[1..], i))
  }

  // ---------- why every pointer is still there ----------

  ghost predicate Used(s: State, r: Record, i: nat)
  {
    exists a :: 0 <= a < |s.acts| && Tok(s.acts[a], r, i)
  }

  /** The activity still has to receive for slot i or to disconnect it. */
  ghost predicate Carries(pc: Pc, i: nat)
  {
    Tok(pc, ReadRec, i) || pc == PaFailed(i) || (pc.Closing? && pc.i == i)
  }

  ghost predicate Carried(s: State, i: nat)
  {
    exists a :: 0 <= a < |s.acts| && Carries(s.acts[a], i)
  }

  /** A pointer in a record is there for an operation or an activity, or for a failure. */
  ghost predicate RecordsKept(s: State, i: nat, failed: bool)
    requires i < |s.sess|
  {
    forall r :: Has(s, RecordAddr(r, i)) ==> Outstanding(s, r, i) || Used(s, r, i) || (failed && r != WriteRec)
  }

  /** The table entry of a closed session is about to be cleared; a session that is not closed is
      worked on, or its disconnect failed. */
  ghost predicate LeaseKept(s: State, i: nat, failed: bool)
    requires Shaped(s) && i < |s.sess|
  {
    && (Has(s, Table(i)) && s.sess[i].closed && StateOf(s, i) != IDLE ==> Used(s, DiscRec, i))
    && (StateOf(s, i) in {PENDING, CONNECTED} ==> s.sess[i].readIo != NoIo || Carried(s, i))
    && (StateOf(s, i) == DISCONNECTING && !s.sess[i].closed ==> s.sess[i].discIo || Used(s, DiscRec, i) || failed)
  }

  /** The activity abandons the disconnect of slot i and leaves its pointer in the record. */
  ghost predicate Leaves(s: State, pc: Pc, i: nat)
  {
    Abandons(pc) && pc.i == i && (pc.Clearing? ==> Has(s, DiscOv(i)))
  }

  /** Only a failed disconnect is abandoned with its pointer in the record. */
  ghost predicate NotAbandoned(s: State, i: nat, failed: bool)
    requires i < |s.sess|
  {
    forall a :: 0 <= a < |s.acts| && Leaves(s, s.acts[a], i) ==> failed
  }

  ghost predicate Kept(s: State, i: nat, failed: bool)
    requires Shaped(s) && i < |s.sess|
  {
    RecordsKept(s, i, failed) && LeaseKept(s, i, failed) && NotAbandoned(s, i, failed)
  }

  // ---------- one step of an activity ----------

  /** What a step does to the operations of slot i. */
  ghost predicate OperationsMove(s: State, act: nat, ok: bool, pick: nat, i: nat, y: Sess)
    requires Shaped(s) && act < |s.acts| && i < |s.sess|
  {
    var x, pc := s.sess[i], s.acts[act];
    && y.readIo == (if pc == PaPosting(i) && ok then AcceptIo else if pc == Armed(i) && ok then RecvIo else x.readIo)
    && y.sendIo == (x.sendIo || (pc.Sending? && pc.j == i && ok))
    && y.discIo == (if pc.Hung? && pc.i == i then ok else x.discIo)
    && y.closed == (x.closed && !(pc == PaReserved && AnyIdle(s) && pick == i))
  }

  lemma OperationsStep(s: State, act: nat, ok: bool, more: bool, pick: nat, i: nat)
    requires Shaped(s) && CanDo(s, act, ok, more, pick) && i < |s.sess|
    ensures OperationsMove(s, act, ok, pick, i, NextSess(s, act, ok, more, pick)[i])
  {
    TransfersStep(s, act, ok, more, pick, i);
  }

  lemma TransfersStep(s: State, act: nat, ok: bool, more: bool, pick: nat, i: nat)
    requires Shaped(s) && CanDo(s, act, ok, more, pick) && i < |s.sess|
    ensures var x, y, pc := s.sess[i], NextSess(s, act, ok, more, pick)[i], s.acts[act];
      && y.readIo == (if pc == PaPosting(i) && ok then AcceptIo else if pc == Armed(i) && ok then RecvIo else x.readIo)
      && y.sendIo == (x.sendIo || (pc.Sending? && pc.j == i && ok))
  {
  }

  /** t is s after a step of an activity, as far as slot i is concerned. */
  ghost predicate Moves(s: State, t: State, act: nat, ok: bool, more: bool, pick: nat, i: nat)
    requires Shaped(s) && CanDo(s, act, ok, more, pick) && i < |s.sess|
  {
    && Shaped(t) && |t.sess| == |s.sess| && |s.acts| <= |t.acts|
    && t.pool.ptrs == NextPtrs(s, act, ok, more, pick) && t.pool.slots == NextSlots(s, act, ok, more, pick)
    && t.acts[act] == NextPc(s, act, ok, more, pick)
    && (forall b :: 0 <= b < |s.acts| && b != act ==> t.acts[b] == s.acts[b])
    && (forall b :: |s.acts| <= b < |t.acts| ==> t.acts[b] == PaTop)
    && OperationsMove(s, act, ok, pick, i, t.sess[i])
  }

  lemma StepMoves(s: State, act: nat, ok: bool, more: bool, pick: nat, i: nat)
    requires Inv(s) && CanDo(s, act, ok, more, pick) && !Race(s, Do(act, ok, more, pick)) && i < |s.sess|
    ensures Moves(s, DoStep(s, act, ok, more, pick), act, ok, more, pick, i)
  {
    var e := Do(act, ok, more, pick);
    StepKeepsIff(s, e);
    StepAsUncounted(s, act, ok, more, pick);
    ActsStep(s, act, ok, more, pick);
    PlaceStep(s, act, ok, more, pick);
    OperationsStep(s, act, ok, more, pick, i);
    SameSlots(s, e);
  }

  /** A record in use stays in use, or the activity that used it has moved on. */
  lemma UsedOn(s: State, t: State, act: nat, r: Record, i: nat)
    requires act < |s.acts| <= |t.acts| && (forall b :: 0 <= b < |s.acts| && b != act ==> t.acts[b] == s.acts[b])
    requires Used(s, r, i)
    ensures Used(t, r, i) || (Tok(s.acts[act], r, i) && !Tok(t.acts[act], r, i))
  {
    var a :| 0 <= a < |s.acts| && Tok(s.acts[a], r, i);
    assert a != act ==> t.acts[a] == s.acts[a];
    assert a < |t.acts|;
  }

  lemma CarriedOn(s: State, t: State, act: nat, i: nat)
    requires act < |s.acts| <= |t.acts| && (forall b :: 0 <= b < |s.acts| && b != act ==> t.acts[b] == s.acts[b])
    requires Carried(s, i)
    ensures Carried(t, i) || (Carries(s.acts[act], i) && !Carries(t.acts[act], i))
  {
    var a :| 0 <= a < |s.acts| && Carries(s.acts[a], i);
    assert a != act ==> t.acts[a] == s.acts[a];
    assert a < |t.acts|;
  }

  /** A pointer that the step stored is used; one that was there and loses its user is posted, gone or
      failed. */
  lemma ReadRecordOn(s: State, t: State, act: nat, ok: bool, more: bool, pick: nat, i: nat)
    requires Inv(s) && CanDo(s, act, ok, more, pick) && i < |s.sess| && Moves(s, t, act, ok, more, pick, i)
    requires Has(t, ReadOv(i)) && (Tok(s.acts[act], ReadRec, i) || !Has(s, ReadOv(i)))
    ensures Outstanding(t, ReadRec, i) || Tok(t.acts[act], ReadRec, i) || Fails(s, Do(act, ok, more, pick), i)
  {
    assert ActOk(s, act);
  }

  lemma WriteRecordOn(s: State, t: State, act: nat, ok: bool, more: bool, pick: nat, i: nat)
    requires Inv(s) && CanDo(s, act, ok, more, pick) && i < |s.sess| && Moves(s, t, act, ok, more, pick, i)
    requires Has(t, WriteOv(i)) && (Tok(s.acts[act], WriteRec, i) || !Has(s, WriteOv(i)))
    ensures Outstanding(t, WriteRec, i) || Tok(t.acts[act], WriteRec, i)
  {
    assert ActOk(s, act);
  }

  lemma DiscRecordOn(s: State, t: State, act: nat, ok: bool, more: bool, pick: nat, i: nat, failed: bool)
    requires Inv(s) && CanDo(s, act, ok, more, pick) && i < |s.sess| && Moves(s, t, act, ok, more, pick, i)
    requires NotAbandoned(s, i, failed) && Has(t, DiscOv(i)) && (Tok(s.acts[act], DiscRec, i) || !Has(s, DiscOv(i)))
    ensures Outstanding(t, DiscRec, i) || Tok(t.acts[act], DiscRec, i) || failed || Fails(s, Do(act, ok, more, pick), i)
  {
    assert ActOk(s, act);
  }

  lemma RecordsStep(s: State, t: State, act: nat, ok: bool, more: bool, pick: nat, i: nat, r: Record, failed: bool)
    requires Inv(s) && CanDo(s, act, ok, more, pick) && i < |s.sess| && Moves(s, t, act, ok, more, pick, i)
    requires RecordsKept(s, i, failed) && NotAbandoned(s, i, failed) && Has(t, RecordAddr(r, i))
    ensures Outstanding(t, r, i) || Used(t, r, i)
      || (r != WriteRec && (failed || Fails(s, Do(act, ok, more, pick), i)))
  {
    if Tok(s.acts[act], r, i) || !Has(s, RecordAddr(r, i)) {
      match r {
        case ReadRec => ReadRecordOn(s, t, act, ok, more, pick, i);
        case WriteRec => WriteRecordOn(s, t, act, ok, more, pick, i);
        case DiscRec => DiscRecordOn(s, t, act, ok, more, pick, i, failed);
      }
    } else if Outstanding(s, r, i) {
      assert !(s.acts[act].Hung? && s.acts[act].i == i && r == DiscRec);
    } else if Used(s, r, i) {
      UsedOn(s, t, act, r, i);
    }
  }

  lemma TableStep(s: State, t: State, act: nat, ok: bool, more: bool, pick: nat, i: nat)
    requires Inv(s) && CanDo(s, act, ok, more, pick) && i < |s.sess| && Moves(s, t, act, ok, more, pick, i)
    requires LeaseKept(s, i, true) && Has(t, Table(i)) && t.sess[i].closed && StateOf(t, i) != IDLE
    ensures Used(t, DiscRec, i)
  {
    assert ActOk(s, act) && SlotOk(s, i);
    UsedOn(s, t, act, DiscRec, i);
  }

  lemma ReaderStarts(s: State, t: State, act: nat, ok: bool, more: bool, pick: nat, i: nat)
    requires Inv(s) && CanDo(s, act, ok, more, pick) && i < |s.sess| && Moves(s, t, act, ok, more, pick, i)
    requires StateOf(s, i) !in {PENDING, CONNECTED} && StateOf(t, i) in {PENDING, CONNECTED}
    ensures Carries(t.acts[act], i)
  {
  }

  lemma ReaderGoesOn(s: State, t: State, act: nat, ok: bool, more: bool, pick: nat, i: nat)
    requires Inv(s) && CanDo(s, act, ok, more, pick) && i < |s.sess| && Moves(s, t, act, ok, more, pick, i)
    requires StateOf(s, i) in {PENDING, CONNECTED} && StateOf(t, i) in {PENDING, CONNECTED} && Carries(s.acts[act], i)
    ensures t.sess[i].readIo != NoIo || Carries(t.acts[act], i)
  {
    assert SlotOk(s, i);
  }

  lemma ReaderStep(s: State, t: State, act: nat, ok: bool, more: bool, pick: nat, i: nat)
    requires Inv(s) && CanDo(s, act, ok, more, pick) && i < |s.sess| && Moves(s, t, act, ok, more, pick, i)
    requires LeaseKept(s, i, true) && StateOf(t, i) in {PENDING, CONNECTED}
    ensures t.sess[i].readIo != NoIo || Carried(t, i)
  {
    if StateOf(s, i) !in {PENDING, CONNECTED} {
      ReaderStarts(s, t, act, ok, more, pick, i);
    } else if Carries(s.acts[act], i) {
      ReaderGoesOn(s, t, act, ok, more, pick, i);
    } else if Carried(s, i) {
      CarriedOn(s, t, act, i);
    }
  }

  lemma CloserStep(s: State, t: State, act: nat, ok: bool, more: bool, pick: nat, i: nat, failed: bool)
    requires Inv(s) && CanDo(s, act, ok, more, pick) && i < |s.sess| && Moves(s, t, act, ok, more, pick, i)
    requires LeaseKept(s, i, failed) && StateOf(t, i) == DISCONNECTING && !t.sess[i].closed
    ensures t.sess[i].discIo || Used(t, DiscRec, i) || failed || Fails(s, Do(act, ok, more, pick), i)
  {
    assert ActOk(s, act) && SlotOk(s, i);
    if Used(s, DiscRec, i) {
      UsedOn(s, t, act, DiscRec, i);
    }
  }

  lemma AbandonStep(s: State, t: State, act: nat, ok: bool, more: bool, pick: nat, i: nat, failed: bool)
    requires Inv(s) && CanDo(s, act, ok, more, pick) && i < |s.sess| && Moves(s, t, act, ok, more, pick, i)
    requires NotAbandoned(s, i, failed)
    ensures NotAbandoned(t, i, failed)
  {
    forall a | 0 <= a < |t.acts| && Leaves(t, t.acts[a], i)
      ensures failed
    {
      if a == act {
        AbandonsNext(s, t, act, ok, more, pick, i);
      } else {
        assert t.acts[a] == s.acts[a] && Tok(s.acts[a], DiscRec, i);
        assert Mine(s, a, DiscRec, i);
        assert Has(t, DiscOv(i)) && !Has(s, DiscOv(i)) ==> Tok(s.acts[act], DiscRec, i);
      }
    }
  }

  /** An activity that comes to abandon a disconnect was about to. */
  lemma AbandonsNext(s: State, t: State, act: nat, ok: bool, more: bool, pick: nat, i: nat)
    requires Inv(s) && CanDo(s, act, ok, more, pick) && i < |s.sess| && Moves(s, t, act, ok, more, pick, i)
    requires Leaves(t, t.acts[act], i)
    ensures Leaves(s, s.acts[act], i)
  {
  }

  lemma ActivityKept(s: State, act: nat, ok: bool, more: bool, pick: nat, i: nat, failed: bool)
    requires Inv(s) && CanDo(s, act, ok, more, pick) && !Race(s, Do(act, ok, more, pick)) && i < |s.sess|
    requires Kept(s, i, failed)
    ensures var t := DoStep(s, act, ok, more, pick);
      Shaped(t) && Kept(t, i, failed || Fails(s, Do(act, ok, more, pick), i))
  {
    var t := DoStep(s, act, ok, more, pick);
    StepMoves(s, act, ok, more, pick, i);
    MovesKept(s, t, act, ok, more, pick, i, failed);
  }

  lemma MovesKept(s: State, t: State, act: nat, ok: bool, more: bool, pick: nat, i: nat, failed: bool)
    requires Inv(s) && CanDo(s, act, ok, more, pick) && i < |s.sess| && Moves(s, t, act, ok, more, pick, i)
    requires Kept(s, i, failed)
    ensures Kept(t, i, failed || Fails(s, Do(act, ok, more, pick), i))
  {
    forall r | Has(t, RecordAddr(r, i))
      ensures Outstanding(t, r, i) || Used(t, r, i)
        || (r != WriteRec && (failed || Fails(s, Do(act, ok, more, pick), i)))
    {
      RecordsStep(s, t, act, ok, more, pick, i, r, failed);
    }
    AbandonStep(s, t, act, ok, more, pick, i, failed);
    if Has(t, Table(i)) && t.sess[i].closed && StateOf(t, i) != IDLE {
      TableStep(s, t, act, ok, more, pick, i);
    }
    if StateOf(t, i) in {PENDING, CONNECTED} {
      ReaderStep(s, t, act, ok, more, pick, i);
    }
    if StateOf(t, i) == DISCONNECTING && !t.sess[i].closed {
      CloserStep(s, t, act, ok, more, pick, i, failed);
    }
  }

  // ---------- completions, and every step ----------

  /** A new activity joins; what the others use and carry they still do. */
  lemma StillUsed(s: State, t: State, i: nat)
    requires |s.acts| <= |t.acts| && forall b :: 0 <= b < |s.acts| ==> t.acts[b] == s.acts[b]
    ensures forall r :: Used(s, r, i) ==> Used(t, r, i)
    ensures Carried(s, i) ==> Carried(t, i)
  {
    forall r | Used(s, r, i)
      ensures Used(t, r, i)
    {
      var a :| 0 <= a < |s.acts| && Tok(s.acts[a], r, i);
      assert Tok(t.acts[a], r, i);
    }
    if Carried(s, i) {
      var a :| 0 <= a < |s.acts| && Carries(s.acts[a], i);
      assert Carries(t.acts[a], i);
    }
  }

  lemma CompletionKept(s: State, k: nat, r: Record, ok: bool, i: nat, failed: bool)
    requires Inv(s) && k < |s.sess| && Outstanding(s, r, k) && i < |s.sess| && Kept(s, i, failed)
    ensures Shaped(TakeCompletion(s, k, r, ok))
    ensures Kept(TakeCompletion(s, k, r, ok), i, failed || Fails(s, Dequeue(k, r, ok), i))
  {
    var t := TakeCompletion(s, k, r, ok);
    StepKeepsIff(s, Dequeue(k, r, ok));
    OutstandingIsCovered(s, r, k);
    TakenKept(s, t, k, r, ok, i, failed);
  }

  lemma TakenKept(s: State, t: State, k: nat, r: Record, ok: bool, i: nat, failed: bool)
    requires Shaped(s) && Shaped(t) && k < |s.sess| == |t.sess| && i < |s.sess| && Kept(s, i, failed)
    requires t.pool.slots == s.pool.slots && t.sess == s.sess[k := WithoutIo(s.sess[k], r)]
    requires t.pool.ptrs == s.pool.ptrs[Local(|s.acts|, 0) := Current(s, k)]
    requires |t.acts| == |s.acts| + 1 && forall b :: 0 <= b < |s.acts| ==> t.acts[b] == s.acts[b]
    requires var pc := t.acts[|s.acts|]; (pc == AccDone(k, ok) && r == ReadRec) || pc == Got(k, r, false, ok)
    ensures Kept(t, i, failed || (k == i && r == DiscRec && !ok))
  {
    StillUsed(s, t, i);
    if k == i {
      assert Tok(t.acts[|s.acts|], r, i);
      assert Used(t, r, i) && (r == ReadRec ==> Carries(t.acts[|s.acts|], i));
    }
  }

  lemma StepKept(s: State, e: Event, i: nat, failed: bool)
    requires Inv(s) && Enabled(s, e) && !Race(s, e) && i < |s.sess| && Kept(s, i, failed)
    ensures Shaped(Step(s, e)) && |Step(s, e).sess| == |s.sess| && Kept(Step(s, e), i, failed || Fails(s, e, i))
  {
    SameSlots(s, e);
    match e
    case Start => StillUsed(s, Step(s, e), i);
    case Dequeue(k, r, ok) => CompletionKept(s, k, r, ok, i, failed);
    case Do(act, ok, more, pick) => ActivityKept(s, act, ok, more, pick, i, failed);
  }

  /** A failure leaks. */
  lemma FailureLeaks(s: State, e: Event, i: nat)
    requires Inv(s) && Enabled(s, e) && !Race(s, e) && i < |s.sess| && Fails(s, e, i)
    ensures Inv(Step(s, e)) && (Leaked(Step(s, e), ReadRec, i) || Leaked(Step(s, e), DiscRec, i))
  {
    match e
    case Dequeue(k, r, ok) => FailedCompletionLeaks(s, i);
    case Do(act, ok, more, pick) =>
      if s.acts[act].PaPosting? {
        FailedAcceptLeaks(s, act, more, pick);
      } else {
        FailedDisconnectLeaks(s, act, more, pick);
      }
  }

  // ---------- every run ----------

  /** All pointers of slot i are accounted for, and if an operation failed one of them is leaked. */
  ghost predicate Accounted(s: State, i: nat, failed: bool)
    requires Shaped(s) && i < |s.sess|
  {
    Kept(s, i, failed) && (failed ==> Leaked(s, ReadRec, i) || Leaked(s, DiscRec, i))
  }

  lemma StepAccounted(s: State, e: Event, i: nat, failed: bool)
    requires Inv(s) && Enabled(s, e) && !Race(s, e) && i < |s.sess| && Accounted(s, i, failed)
    ensures Shaped(Step(s, e)) && |Step(s, e).sess| == |s.sess| && Inv(Step(s, e))
    ensures Accounted(Step(s, e), i, failed || Fails(s, e, i))
  {
    StepKept(s, e, i, failed);
    StepKeepsIff(s, e);
    if failed {
      LeakStays(s, e, if Leaked(s, ReadRec, i) then ReadRec else DiscRec, i);
    } else if Fails(s, e, i) {
      FailureLeaks(s, e, i);
    }
  }

  lemma {:induction false} RunAccounted(s: State, es: seq<Event>, i: nat, failed: bool)
    requires Inv(s) && Run(s, es) && RaceFree(s, es) && i < |s.sess| && Accounted(s, i, failed)
    ensures var t := After(s, es);
      Inv(t) && |t.sess| == |s.sess| && Accounted(t, i, failed || FailedIn(s, es, i))
    decreases |es|
  {
    if es != [] {
      StepAccounted(s, es[0], i, failed);
      RunAccounted(Step(s, es[0]), es[1..], i, failed || Fails(s, es[0], i));
    }
  }

  /** No operation is outstanding on slot i, and no activity works for it or uses its records. */
  ghost predicate Quiet(s: State, i: nat)
    requires i < |s.sess|
  {
    && (forall r :: !Outstanding(s, r, i) && !Used(s, r, i))
    && (forall a :: 0 <= a < |s.acts| ==> !Home(s.acts[a], i))
  }

  lemma QuietIsIdle(s: State, i: nat, failed: bool)
    requires Inv(s) && i < |s.sess| && Accounted(s, i, failed) && Quiet(s, i)
    ensures StateOf(s, i) == IDLE <==> !failed
  {
    if failed {
      PointerCounted(s, if Leaked(s, ReadRec, i) then ReadOv(i) else DiscOv(i));
    } else {
      assert SlotOk(s, i);
      assert !Carried(s, i);
      assert !Has(s, RecordAddr(ReadRec, i)) && !Has(s, RecordAddr(WriteRec, i)) && !Has(s, RecordAddr(DiscRec, i));
      IdleIffUnreferenced(s, i);
    }
  }

  /** In every race-free run from start-up: a slot with no operation outstanding and no activity left
      on it is idle exactly when no accept post, disconnect post or disconnect completion has ever
      failed on it. */
  lemma QuietIsIdleIff(s: State, es: seq<Event>, i: nat)
    requires Initial(s) && Run(s, es) && RaceFree(s, es) && i < |s.sess|
    ensures var t := After(s, es);
      Shaped(t) && |t.sess| == |s.sess| && (Quiet(t, i) ==> (StateOf(t, i) == IDLE <==> !FailedIn(s, es, i)))
  {
    InitialIsGood(s);
    RunAccounted(s, es, i, false);
    if Quiet(After(s, es), i) {
      QuietIsIdle(After(s, es), i, FailedIn(s, es, i));
    }
  }

  // ---------- a new generation ----------

  /** How often slot i comes back to the pool. */
  ghost function Returns(s: State, es: seq<Event>, i: nat): nat
    requires Inv(s) && Run(s, es) && RaceFree(s, es) && i < |s.sess|
    decreases |es|
  {
    if es == [] then 0
    else
      var t := Step(s, es[0]);
      StepFollowsLifecycle(s, es[0], i);
      StepKeepsIff(s, es[0]);
      (if StateOf(s, i) != IDLE && StateOf(t, i) == IDLE then 1 else 0) + Returns(t, es[1..], i)
  }

  lemma {:induction false} GenerationCountsReturns(s: State, es: seq<Event>, i: nat)
    requires Inv(s) && Run(s, es) && RaceFree(s, es) && i < |s.sess|
    ensures var t := After(s, es);
      && Shaped(t) && |t.sess| == |s.sess| && t.pool.slots.gens[i] == PR.Turned(s.pool.slots.gens[i], Returns(s, es, i))
      && (StateOf(s, i) != IDLE && StateOf(t, i) == IDLE ==> Returns(s, es, i) >= 1)
    decreases |es|
  {
    if es != [] {
      StepFollowsLifecycle(s, es[0], i);
      StepKeepsIff(s, es[0]);
      GenerationCountsReturns(Step(s, es[0]), es[1..], i);
    }
  }

  /** A lease that is under way and on which nothing ever fails is over once the slot is quiet: the
      slot is idle, without handle and table entry, and its generation has moved on. */
  lemma LeaseEndsWhenQuiet(s: State, es: seq<Event>, more: seq<Event>, i: nat)
    requires Initial(s) && Run(s, es) && RaceFree(s, es) && i < |s.sess|
    requires Shaped(After(s, es)) && Run(After(s, es), more) && RaceFree(After(s, es), more)
    requires i < |After(s, es).sess| && StateOf(After(s, es), i) != IDLE
    requires !FailedIn(s, es, i) && !FailedIn(After(s, es), more, i)
    requires i < |After(After(s, es), more).sess| && Quiet(After(After(s, es), more), i)
    ensures var u, t := After(s, es), After(After(s, es), more);
      && Inv(u) && Shaped(t) && StateOf(t, i) == IDLE && t.sess[i].handle == NO_HANDLE && !Has(t, Table(i))
      && Returns(u, more, i) >= 1 && t.pool.slots.gens[i] == PR.Turned(u.pool.slots.gens[i], Returns(u, more, i))
  {
    InitialIsGood(s);
    RunAccounted(s, es, i, false);
    var u := After(s, es);
    RunAccounted(u, more, i, false);
    var t := After(u, more);
    QuietIsIdle(t, i, false);
    GenerationCountsReturns(u, more, i);
    assert SlotOk(t, i);
    IdleIffUnreferenced(t, i);
  }
}
