/** Sessions with bytes to send are looked after: whoever fails to post a send closes the session, and
    only a relay's failure leaves a session that cannot send and that nobody closes. */
module ProtocolSending {
  import opened SessionProtocol
  import opened ProtocolInvariant
  import opened ProtocolSteps
  import opened ProtocolTheorems
  import opened ProtocolEffects
  import opened ProtocolRuns
  import opened ProtocolEndings
  import opened ProtocolDirty

  /** A relay's post fails on slot i, which it had marked as sending. */
  ghost predicate RelayFails(s: State, e: Event, i: nat)
    requires Shaped(s) && Enabled(s, e)
  {
    && e.Do? && !e.ok && s.acts[e.act].Sending? && s.acts[e.act].why.Relay? && s.acts[e.act].j == i
    && i < |s.sess| && s.sess[i].sending
  }

  /** Slot i goes back to the pool. */
  ghost predicate GoesBack(s: State, t: State, i: nat)
    requires Shaped(s) && Shaped(t) && i < |s.sess| == |t.sess|
  {
    StateOf(s, i) != IDLE && StateOf(t, i) == IDLE
  }

  /** Such a failure happened on slot i since it last went back to the pool. */
  ghost predicate RelayFailedSince(s: State, es: seq<Event>, i: nat, before: bool)
    requires Shaped(s) && Run(s, es) && i < |s.sess|
    decreases |es|
  {
    if es == [] then before
    else
      SameSlots(s, es[0]);
      var t := Step(s, es[0]);
      RelayFailedSince(t, es[1..], i, !GoesBack(s, t, i) && (before || RelayFails(s, es[0], i)))
  }

  ghost predicate Closer(s: State, i: nat)
  {
    exists a :: 0 <= a < |s.acts| && s.acts[a].Closing? && s.acts[a].i == i
  }

  /** A session marked as sending has a send outstanding, a user of its write record or somebody about
      to close it, or it is muted. */
  ghost predicate Attended(s: State, i: nat, failed: bool)
    requires Shaped(s) && i < |s.sess|
  {
    && (StateOf(s, i) != DISCONNECTING && s.sess[i].sending ==>
          s.sess[i].sendIo || Used(s, WriteRec, i) || Closer(s, i) || failed)
    && (failed ==> Muted(s, i))
  }

  // ---------- one step of an activity ----------

  /** The last user of the write record posts, closes, is done, or is a relay that failed. */
  lemma UserLeaves(s: State, t: State, act: nat, ok: bool, more: bool, pick: nat, i: nat)
    requires Inv(s) && CanDo(s, act, ok, more, pick) && i < |s.sess| && Moves(s, t, act, ok, more, pick, i)
    requires t.sess[i].sending == NextSess(s, act, ok, more, pick)[i].sending && t.sess[i].sending
    requires s.sess[i].sending && Tok(s.acts[act], WriteRec, i) && !Tok(t.acts[act], WriteRec, i)
    ensures t.sess[i].sendIo || (t.acts[act].Closing? && t.acts[act].i == i)
      || RelayFails(s, Do(act, ok, more, pick), i)
  {
    assert ActOk(s, act);
  }

  lemma SenderStarts(s: State, act: nat, ok: bool, more: bool, pick: nat, i: nat)
    requires Shaped(s) && CanDo(s, act, ok, more, pick) && i < |s.sess|
    requires !s.sess[i].sending && NextSess(s, act, ok, more, pick)[i].sending
    ensures Tok(NextPc(s, act, ok, more, pick), WriteRec, i)
  {
  }

  lemma CloserCloses(s: State, t: State, act: nat, ok: bool, more: bool, pick: nat, i: nat)
    requires Inv(s) && CanDo(s, act, ok, more, pick) && i < |s.sess| && Moves(s, t, act, ok, more, pick, i)
    requires Closer(s, i)
    ensures Closer(t, i) || StateOf(t, i) == DISCONNECTING
  {
    var a :| 0 <= a < |s.acts| && s.acts[a].Closing? && s.acts[a].i == i;
    HomeLeased(s, a);
    assert SlotOk(s, i);
    if a != act {
      assert t.acts[a] == s.acts[a];
    }
  }

  lemma AttendedStep(s: State, t: State, act: nat, ok: bool, more: bool, pick: nat, i: nat, failed: bool)
    requires Inv(s) && CanDo(s, act, ok, more, pick) && i < |s.sess| && Moves(s, t, act, ok, more, pick, i)
    requires t.sess[i].sending == NextSess(s, act, ok, more, pick)[i].sending
    requires Attended(s, i, failed) && StateOf(s, i) != DISCONNECTING
    requires StateOf(t, i) != DISCONNECTING && t.sess[i].sending
    ensures t.sess[i].sendIo || Used(t, WriteRec, i) || Closer(t, i) || failed
      || RelayFails(s, Do(act, ok, more, pick), i)
  {
    if !s.sess[i].sending {
      SenderStarts(s, act, ok, more, pick, i);
    } else if s.sess[i].sendIo {
    } else if Used(s, WriteRec, i) {
      UsedOn(s, t, act, WriteRec, i);
      if Tok(s.acts[act], WriteRec, i) && !Tok(t.acts[act], WriteRec, i) {
        UserLeaves(s, t, act, ok, more, pick, i);
      }
    } else if Closer(s, i) {
      CloserCloses(s, t, act, ok, more, pick, i);
    }
  }

  /** A relay that fails leaves the session muted. */
  lemma FailureMutes(s: State, act: nat, more: bool, pick: nat, i: nat)
    requires Inv(s) && CanDo(s, act, false, more, pick) && RelayFails(s, Do(act, false, more, pick), i)
    requires !Race(s, Do(act, false, more, pick))
    ensures Shaped(DoStep(s, act, false, more, pick)) && |DoStep(s, act, false, more, pick).sess| == |s.sess|
    ensures Muted(DoStep(s, act, false, more, pick), i)
  {
    StepMoves(s, act, false, more, pick, i);
    StepAsUncounted(s, act, false, more, pick);
    assert Tok(s.acts[act], WriteRec, i);
    TokIsMine(s, act, WriteRec, i);
    assert !Outstanding(s, WriteRec, i);
  }

  // ---------- every step ----------

  lemma ActivityAttends(s: State, act: nat, ok: bool, more: bool, pick: nat, i: nat, failed: bool)
    requires Inv(s) && CanDo(s, act, ok, more, pick) && !Race(s, Do(act, ok, more, pick)) && i < |s.sess|
    requires Attended(s, i, failed)
    ensures var e := Do(act, ok, more, pick);
      var t := DoStep(s, act, ok, more, pick);
      Shaped(t) && |t.sess| == |s.sess| && Attended(t, i, !GoesBack(s, t, i) && (failed || RelayFails(s, e, i)))
  {
    var e := Do(act, ok, more, pick);
    var t := DoStep(s, act, ok, more, pick);
    StepMoves(s, act, ok, more, pick, i);
    StepAsUncounted(s, act, ok, more, pick);
    StepFollowsLifecycle(s, e, i);
    if StateOf(s, i) != DISCONNECTING && StateOf(t, i) != DISCONNECTING && t.sess[i].sending {
      AttendedStep(s, t, act, ok, more, pick, i, failed);
    }
    if !GoesBack(s, t, i) {
      if RelayFails(s, e, i) {
        FailureMutes(s, act, more, pick, i);
      } else if failed {
        MutedStays(s, e, i);
      }
    }
  }

  lemma CompletionAttends(s: State, k: nat, r: Record, ok: bool, i: nat, failed: bool)
    requires Inv(s) && k < |s.sess| && Outstanding(s, r, k) && i < |s.sess| && Attended(s, i, failed)
    ensures var t := TakeCompletion(s, k, r, ok); Shaped(t) && |t.sess| == |s.sess| && Attended(t, i, failed)
  {
    var t := TakeCompletion(s, k, r, ok);
    StepKeepsIff(s, Dequeue(k, r, ok));
    StillUsed(s, t, i);
    if Closer(s, i) {
      var a :| 0 <= a < |s.acts| && s.acts[a].Closing? && s.acts[a].i == i;
      assert t.acts[a] == s.acts[a];
    }
    if k == i {
      assert Tok(t.acts[|s.acts|], r, i);
    }
    if failed {
      MutedStays(s, Dequeue(k, r, ok), i);
    }
  }

  lemma StepAttends(s: State, e: Event, i: nat, failed: bool)
    requires Inv(s) && Enabled(s, e) && !Race(s, e) && i < |s.sess| && Attended(s, i, failed)
    ensures Inv(Step(s, e)) && |Step(s, e).sess| == |s.sess|
    ensures Attended(Step(s, e), i, !GoesBack(s, Step(s, e), i) && (failed || RelayFails(s, e, i)))
  {
    StepKeepsIff(s, e);
    SameSlots(s, e);
    match e
    case Start =>
      var t := Step(s, e);
      StillUsed(s, t, i);
      assert forall a :: 0 <= a < |s.acts| ==> t.acts[a] == s.acts[a];
    case Dequeue(k, r, ok) => CompletionAttends(s, k, r, ok, i, failed);
    case Do(act, ok, more, pick) => ActivityAttends(s, act, ok, more, pick, i, failed);
  }

  // ---------- every run ----------

  lemma {:induction false} RunAttends(s: State, es: seq<Event>, i: nat, failed: bool)
    requires Inv(s) && Run(s, es) && RaceFree(s, es) && i < |s.sess| && Attended(s, i, failed)
    ensures var t := After(s, es);
      Inv(t) && |t.sess| == |s.sess| && Attended(t, i, RelayFailedSince(s, es, i, failed))
    decreases |es|
  {
    if es != [] {
      var t := Step(s, es[0]);
      StepAttends(s, es[0], i, failed);
      RunAttends(t, es[1..], i, !GoesBack(s, t, i) && (failed || RelayFails(s, es[0], i)));
    }
  }

  /** In every race-free run from start-up: a pending or connected session that nobody is about to close
      and whose write record nobody uses is marked as sending without a send outstanding if and only if
      a relay's post failed on its slot since the slot last went back to the pool. */
  lemma StalledIff(s: State, es: seq<Event>, i: nat)
    requires Initial(s) && Run(s, es) && RaceFree(s, es) && i < |s.sess|
    ensures var t := After(s, es);
      && Shaped(t) && |t.sess| == |s.sess|
      && (StateOf(t, i) in {PENDING, CONNECTED} && !Used(t, WriteRec, i) && !Closer(t, i) ==>
            (t.sess[i].sending && !t.sess[i].sendIo <==> RelayFailedSince(s, es, i, false)))
  {
    InitialIsGood(s);
    RunAttends(s, es, i, false);
  }

  // ---------- who fails closes ----------

  /** The activity handles a failure on slot i and has yet to close it. */
  ghost predicate Doomed(pc: Pc, i: nat)
  {
    match pc
    case PaFailed(h) => h == i
    case AccDone(h, good) => h == i && !good
    case Got(h, r, _, good) => h == i && r != DiscRec && !good
    case Copied(h, r, _, good) => h == i && r != DiscRec && !good
    case Closing(h, _) => h == i
    case _ => false
  }

  /** A failure on slot i: its accept cannot be posted, an accept, receive or send completes with an
      error, a handler refuses what it got, or a post of its own fails. */
  ghost predicate Hurts(s: State, e: Event, i: nat)
    requires Shaped(s) && Enabled(s, e)
  {
    match e
    case Start => false
    case Dequeue(k, r, ok) => k == i && r != DiscRec && !ok
    case Do(act, ok, _, _) =>
      && !ok
      && match s.acts[act]
         case PaPosting(h) => h == i
         case Accepting(h) => h == i
         case Welcome(h) => h == i
         case Reading(h) => h == i
         case Arming(h) => h == i
         case Armed(h) => h == i
         case Wrote(h) => h == i
         case Sending(h, _, why) => h == i && !why.Relay?
         case _ => false
  }

  /** The activity that handles it. */
  ghost function Handler(s: State, e: Event): nat
  {
    if e.Do? then e.act else |s.acts|
  }

  lemma HurtDooms(s: State, e: Event, i: nat)
    requires Inv(s) && Enabled(s, e) && !Race(s, e) && Hurts(s, e, i)
    ensures Handler(s, e) < |Step(s, e).acts| && Doomed(Step(s, e).acts[Handler(s, e)], i)
  {
    if e.Do? {
      ActsStep(s, e.act, e.ok, e.more, e.pick);
      PlaceStep(s, e.act, e.ok, e.more, e.pick);
    }
  }

  /** A session that is disconnecting stays so until it goes back to the pool. */
  lemma {:induction false} DisconnectingLasts(s: State, es: seq<Event>, i: nat)
    requires Inv(s) && Run(s, es) && RaceFree(s, es) && i < |s.sess| && StateOf(s, i) == DISCONNECTING
    ensures var t := After(s, es); Inv(t) && |t.sess| == |s.sess|
    ensures Returns(s, es, i) >= 1 || StateOf(After(s, es), i) == DISCONNECTING
    decreases |es|
  {
    RunFrame(s, es);
    if es != [] {
      StepKeepsIff(s, es[0]);
      StepFollowsLifecycle(s, es[0], i);
      if StateOf(Step(s, es[0]), i) == DISCONNECTING {
        DisconnectingLasts(Step(s, es[0]), es[1..], i);
      }
    }
  }

  lemma {:induction false} RunFrame(s: State, es: seq<Event>)
    requires Inv(s) && Run(s, es) && RaceFree(s, es)
    ensures Inv(After(s, es)) && |After(s, es).sess| == |s.sess|
    decreases |es|
  {
    if es != [] {
      StepKeepsIff(s, es[0]);
      SameSlots(s, es[0]);
      RunFrame(Step(s, es[0]), es[1..]);
    }
  }

  lemma DoomedStep(s: State, e: Event, a: nat, i: nat)
    requires Inv(s) && Enabled(s, e) && !Race(s, e) && a < |s.acts| && Doomed(s.acts[a], i)
    requires i < |s.sess| == |Step(s, e).sess| && Shaped(Step(s, e))
    ensures a < |Step(s, e).acts|
    ensures Doomed(Step(s, e).acts[a], i) || StateOf(Step(s, e), i) == DISCONNECTING
  {
    if e.Do? {
      StepMoves(s, e.act, e.ok, e.more, e.pick, i);
      if e.act == a {
        HomeLeased(s, a);
        DoomedGoesOn(s, a, e.ok, e.more, e.pick, i);
      }
    }
  }

  lemma DoomedGoesOn(s: State, a: nat, ok: bool, more: bool, pick: nat, i: nat)
    requires Shaped(s) && CanDo(s, a, ok, more, pick) && Doomed(s.acts[a], i) && i < |s.sess|
    requires SlotOk(s, i) && StateOf(s, i) != IDLE
    ensures Doomed(NextPc(s, a, ok, more, pick), i) || NextSlots(s, a, ok, more, pick).states[i] == DISCONNECTING
  {
  }

  /** An activity that handles a failure closes the session whenever it goes on. */
  lemma {:induction false} DoomedCloses(s: State, es: seq<Event>, a: nat, i: nat)
    requires Inv(s) && Run(s, es) && RaceFree(s, es) && a < |s.acts| && Doomed(s.acts[a], i)
    ensures Inv(After(s, es)) && i < |s.sess| == |After(s, es).sess| && a < |After(s, es).acts|
    ensures Doomed(After(s, es).acts[a], i) || Returns(s, es, i) >= 1 || StateOf(After(s, es), i) == DISCONNECTING
    decreases |es|
  {
    HomeLeased(s, a);
    RunFrame(s, es);
    if es != [] {
      var t := Step(s, es[0]);
      StepKeepsIff(s, es[0]);
      StepFollowsLifecycle(s, es[0], i);
      DoomedStep(s, es[0], a, i);
      if Doomed(t.acts[a], i) {
        DoomedCloses(t, es[1..], a, i);
      } else {
        DisconnectingLasts(t, es[1..], i);
        RunActsGrow(t, es[1..]);
      }
    }
  }

  lemma {:induction false} RunActsGrow(s: State, es: seq<Event>)
    requires Inv(s) && Run(s, es) && RaceFree(s, es)
    ensures |s.acts| <= |After(s, es).acts|
    decreases |es|
  {
    if es != [] {
      StepKeepsIff(s, es[0]);
      if es[0].Do? {
        ActsStep(s, es[0].act, es[0].ok, es[0].more, es[0].pick);
      }
      RunActsGrow(Step(s, es[0]), es[1..]);
    }
  }

  /** Whatever fails on a session: when its handler is done, the session is disconnecting or has gone
      back to the pool. */
  lemma FailureEndsLease(s: State, e: Event, i: nat, es: seq<Event>)
    requires Inv(s) && Enabled(s, e) && !Race(s, e) && Hurts(s, e, i)
    requires var t := Step(s, e);
      && Inv(t) && Run(t, es) && RaceFree(t, es)
      && Handler(s, e) < |After(t, es).acts| && After(t, es).acts[Handler(s, e)] == Done
    ensures var t := Step(s, e);
      && i < |t.sess| == |After(t, es).sess| && Shaped(After(t, es))
      && (Returns(t, es, i) >= 1 || StateOf(After(t, es), i) == DISCONNECTING)
  {
    HurtDooms(s, e, i);
    DoomedCloses(Step(s, e), es, Handler(s, e), i);
  }

  // ---------- when the flag falls ----------

  /** A session stops being marked as sending only when its handler finds nothing left to send, or when
      it goes back to the pool. */
  lemma FlagFalls(s: State, e: Event, i: nat)
    requires Inv(s) && Enabled(s, e) && !Race(s, e) && i < |s.sess| && s.sess[i].sending
    ensures Inv(Step(s, e)) && |Step(s, e).sess| == |s.sess|
    ensures !Step(s, e).sess[i].sending ==>
      GoesBack(s, Step(s, e), i) || (e.Do? && s.acts[e.act] == Wrote(i) && e.ok && !e.more)
  {
    StepKeepsIff(s, e);
    SameSlots(s, e);
    if e.Do? {
      var Do(act, ok, more, pick) := e;
      StepAsUncounted(s, act, ok, more, pick);
      if Holds(s.acts[act], 0) {
        HomeLeased(s, act);
      }
      if !GoesBack(s, Step(s, e), i) {
        FlagStays(s, act, ok, more, pick, i);
      }
    }
  }

  lemma FlagStays(s: State, act: nat, ok: bool, more: bool, pick: nat, i: nat)
    requires Shaped(s) && CanDo(s, act, ok, more, pick) && i < |s.sess| && s.sess[i].sending
    requires Home(s.acts[act], i) ==> StateOf(s, i) != IDLE
    requires StateOf(s, i) == IDLE || NextSlots(s, act, ok, more, pick).states[i] != IDLE
    ensures NextSess(s, act, ok, more, pick)[i].sending || (s.acts[act] == Wrote(i) && ok && !more)
  {
    if s.acts[act] != Wrote(i) {
      MutedFlag(s, act, ok, more, pick, i);
    }
  }
}
