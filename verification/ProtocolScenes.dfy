/** Scenes from the life of a session, played by one activity at a time. */
module ProtocolScenes {
  import opened SparseSets
  import opened SessionProtocol
  import opened ProtocolInvariant
  import opened ProtocolSteps
  import opened ProtocolLeases
  import opened ProtocolTheorems
  import opened ProtocolEffects
  import opened ProtocolReach

  lemma StepsOn(s: State, u: State, t: State, b: nat, k: nat)
    requires Stepped(s, u, b, k) && Stepped(u, t, b, k)
    ensures Stepped(s, t, b, k)
  {
    forall x | 0 <= x < |s.sess| && x != k
      ensures ViewOf(t, x) == ViewOf(s, x)
    {
      assert ViewOf(u, x) == ViewOf(s, x);
    }
  }

  lemma LedBy(s: State, u: State, t: State, k: nat)
    requires Led(s, u, k) && Led(u, t, k)
    ensures Led(s, t, k)
  {
    forall x | 0 <= x < |s.sess| && x != k
      ensures ViewOf(t, x) == ViewOf(s, x)
    {
      assert ViewOf(u, x) == ViewOf(s, x);
    }
  }

  /** A handler drops its inner pointer. */
  lemma DropsInner(s: State, b: nat, k: nat) returns (t: State)
    requires Inv(s) && b < |s.acts| && k < |s.sess| && s.acts[b] == Leaving(k, true)
    ensures Stepped(s, t, b, k) && t.acts[b] == Leaving(k, false) && t.pending == s.pending
    ensures ViewOf(t, k) == ViewOf(s, k).(pins := Pins(s, k) - {Local(b, 1)})
  {
    PinsWithout(s.pool.ptrs, Local(b, 1), k);
    t := Go(s, b, true, false, 0, k);
  }

  /** An activity drops its outer pointer, while something else still pins the slot. */
  lemma DropsOuter(s: State, b: nat, k: nat, other: Addr) returns (t: State)
    requires Inv(s) && b < |s.acts| && k < |s.sess| && other in Pins(s, k) && other != Local(b, 0)
    requires s.acts[b] == PaDrop(k) || s.acts[b] == Leaving(k, false)
    ensures Stepped(s, t, b, k) && t.acts[b] == NextOut(s.acts[b]) && t.pending == s.pending
    ensures ViewOf(t, k) == ViewOf(s, k).(pins := Pins(s, k) - {Local(b, 0)})
  {
    HomeLeased(s, b);
    PinnedByOther(s, Local(b, 0), other);
    PinsWithout(s.pool.ptrs, Local(b, 0), k);
    t := Go(s, b, true, false, 0, k);
  }

  /** The parts of a session's fields that a scene cares about; it is not being closed. */
  ghost predicate Fields(x: Sess, readIo: ReadIo, sendIo: bool, sending: bool)
  {
    x.readIo == readIo && x.sendIo == sendIo && !x.discIo && x.sending == sending && !x.writeLock && !x.closed
  }

  ghost predicate Looks(s: State, k: nat, state: nat, readIo: ReadIo, sendIo: bool, sending: bool, pins: set<Addr>)
  {
    && Shaped(s) && k < |s.sess| && StateOf(s, k) == state && Fields(s.sess[k], readIo, sendIo, sending)
    && Pins(s, k) == pins
  }

  // ---------- PostAccept ----------

  /** PostAccept raises the counter. */
  lemma Reserves(s: State, b: nat, k: nat) returns (t: State)
    requires Inv(s) && b < |s.acts| && s.acts[b] == PaTop && s.pending < s.limit && k < |s.sess|
    ensures Stepped(s, t, b, k) && t.acts[b] == PaReserved && t.pending == s.pending + 1 && ViewOf(t, k) == ViewOf(s, k)
  {
    var s1 := Go(s, b, true, false, k, k);
    t := Go(s1, b, true, false, k, k);
    StepsOn(s, s1, t, b, k);
  }

  /** It leases an idle slot. */
  lemma Leases(s: State, b: nat, k: nat) returns (t: State)
    requires Inv(s) && b < |s.acts| && s.acts[b] == PaReserved && k < |s.sess|
    requires StateOf(s, k) == IDLE && !s.sess[k].writeLock
    ensures Stepped(s, t, b, k) && t.acts[b] == PaCreated(k) && t.pending == s.pending
    ensures Looks(t, k, PENDING, NoIo, false, s.sess[k].sending, {Table(k), Local(b, 0)})
  {
    IdleIsBare(s, k);
    forall a | a in Pins(s, k)
      ensures false
    {
      PinnedBy(s, k, a);
    }
    t := Go(s, b, true, false, k, k);
  }

  lemma StoresAccept(s: State, b: nat, k: nat) returns (t: State)
    requires Inv(s) && b < |s.acts| && s.acts[b] == PaCreated(k) && k < |s.sess|
    ensures Stepped(s, t, b, k) && t.acts[b] == PaPosting(k) && t.pending == s.pending
    ensures ViewOf(t, k) == ViewOf(s, k).(pins := Pins(s, k) + {ReadOv(k)})
  {
    PinsWith(s.pool.ptrs, ReadOv(k), Current(s, k), k);
    t := Go(s, b, true, false, k, k);
  }

  lemma PostsAccept(s: State, b: nat, k: nat) returns (t: State)
    requires Inv(s) && b < |s.acts| && s.acts[b] == PaPosting(k) && k < |s.sess|
    ensures Stepped(s, t, b, k) && t.acts[b] == PaDrop(k) && t.pending == s.pending
    ensures ViewOf(t, k) == ViewOf(s, k).(x := s.sess[k].(readIo := AcceptIo))
  {
    t := Go(s, b, true, false, k, k);
  }

  /** An accept is posted on an idle slot. */
  lemma AcceptScene(s: State, b: nat, k: nat) returns (t: State)
    requires Inv(s) && b < |s.acts| && s.acts[b] == PaTop && s.pending < s.limit && k < |s.sess|
    requires StateOf(s, k) == IDLE && !s.sess[k].writeLock
    ensures Stepped(s, t, b, k) && t.acts[b] == PaTop && t.pending == s.pending + 1
    ensures Looks(t, k, PENDING, AcceptIo, false, s.sess[k].sending, {Table(k), ReadOv(k)})
  {
    var s1 := Reserves(s, b, k);
    var s2 := Leases(s1, b, k);
    StepsOn(s, s1, s2, b, k);
    t := PostScene(s2, b, k, s.sess[k].sending);
    StepsOn(s, s2, t, b, k);
  }

  lemma PostScene(s: State, b: nat, k: nat, sending: bool) returns (t: State)
    requires Inv(s) && b < |s.acts| && s.acts[b] == PaCreated(k)
    requires Looks(s, k, PENDING, NoIo, false, sending, {Table(k), Local(b, 0)})
    ensures Stepped(s, t, b, k) && t.acts[b] == PaTop && t.pending == s.pending
    ensures Looks(t, k, PENDING, AcceptIo, false, sending, {Table(k), ReadOv(k)})
  {
    assert {Table(k), Local(b, 0)} + {ReadOv(k)} - {Local(b, 0)} == {Table(k), ReadOv(k)};
    var s1 := StoresAccept(s, b, k);
    var s2 := PostsAccept(s1, b, k);
    StepsOn(s, s1, s2, b, k);
    t := DropsOuter(s2, b, k, Table(k));
    StepsOn(s, s2, t, b, k);
  }

  // ---------- a client connects ----------

  /** The accept completes: its handler makes its own copy and resets the record. */
  lemma AcceptTaken(s: State, k: nat) returns (t: State)
    requires Inv(s) && Looks(s, k, PENDING, AcceptIo, false, false, {Table(k), ReadOv(k)}) && s.pending > 0
    ensures Led(s, t, k) && t.pending == s.pending - 1 && |s.acts| < |t.acts|
    ensures t.acts[|s.acts|] == Got(k, ReadRec, true, true)
    ensures Looks(t, k, PENDING, NoIo, false, false, {Table(k), ReadOv(k), Local(|s.acts|, 0)})
  {
    var b := |s.acts|;
    var s1 := Take(s, k, ReadRec, true);
    t := Go(s1, b, true, false, 0, k);
    LedOn(s, s1, t, b, k);
  }

  /** A handler starts with its inner copy. */
  lemma InnerCopies(s: State, b: nat, k: nat, r: Record, accept: bool, good: bool) returns (t: State)
    requires Inv(s) && b < |s.acts| && s.acts[b] == Got(k, r, accept, good) && k < |s.sess|
    ensures Stepped(s, t, b, k) && t.pending == s.pending && t.acts[b] == Copied(k, r, accept, good)
    ensures ViewOf(t, k) == ViewOf(s, k).(pins := Pins(s, k) + {Local(b, 1)})
  {
    t := Go(s, b, true, false, 0, k);
  }

  /** Where Dispatch and HandleError go once the record is reset. */
  ghost function Handler(k: nat, r: Record, accept: bool, good: bool): Pc
  {
    if r == DiscRec then Clearing(k) else if !good then Closing(k, true)
    else if r == WriteRec then Wrote(k) else if accept then Accepting(k) else Reading(k)
  }

  lemma RecordGoes(s: State, b: nat, k: nat, r: Record, accept: bool, good: bool) returns (t: State)
    requires Inv(s) && b < |s.acts| && s.acts[b] == Copied(k, r, accept, good) && k < |s.sess|
    requires r == DiscRec ==> good
    ensures Stepped(s, t, b, k) && t.pending == s.pending && t.acts[b] == Handler(k, r, accept, good)
    ensures ViewOf(t, k) == ViewOf(s, k).(pins := Pins(s, k) - {RecordAddr(r, k)})
  {
    t := Go(s, b, true, false, 0, k);
  }

  /** The inner copy, then the record is reset. */
  lemma Dispatches(s: State, b: nat, k: nat, r: Record, accept: bool, good: bool) returns (t: State)
    requires Inv(s) && b < |s.acts| && s.acts[b] == Got(k, r, accept, good) && k < |s.sess| && (r == DiscRec ==> good)
    ensures Stepped(s, t, b, k) && t.pending == s.pending && t.acts[b] == Handler(k, r, accept, good)
    ensures ViewOf(t, k) == ViewOf(s, k).(pins := Pins(s, k) + {Local(b, 1)} - {RecordAddr(r, k)})
  {
    var s1 := InnerCopies(s, b, k, r, accept, good);
    t := RecordGoes(s1, b, k, r, accept, good);
    StepsOn(s, s1, t, b, k);
  }

  /** Connect: the session becomes connected. */
  lemma Connects(s: State, b: nat, k: nat) returns (t: State)
    requires Inv(s) && b < |s.acts| && s.acts[b] == Accepting(k) && k < |s.sess| && StateOf(s, k) == PENDING
    ensures Stepped(s, t, b, k) && t.acts[b] == Welcome(k) && t.pending == s.pending
    ensures ViewOf(t, k) ==
      ViewOf(s, k).(state := CONNECTED, x := s.sess[k].(connects := s.sess[k].connects + 1))
  {
    assert SlotOk(s, k);
    t := Go(s, b, true, false, 0, k);
  }

  /** SendPacket begins, for the greeting. */
  lemma BeginsGreeting(s: State, b: nat, k: nat) returns (t: State)
    requires Inv(s) && b < |s.acts| && s.acts[b] == Welcome(k) && k < |s.sess|
    requires !s.sess[k].sending && !s.sess[k].writeLock && Table(k) in Pins(s, k)
    ensures Stepped(s, t, b, k) && t.acts[b] == Sending(k, k, Greeting) && t.pending == s.pending
    ensures ViewOf(t, k) ==
      ViewOf(s, k).(x := s.sess[k].(sending := true, writeLock := true), pins := Pins(s, k) + {WriteOv(k)})
  {
    t := Go(s, b, true, false, 0, k);
  }

  lemma PostsGreeting(s: State, b: nat, k: nat) returns (t: State)
    requires Inv(s) && b < |s.acts| && s.acts[b] == Sending(k, k, Greeting) && k < |s.sess|
    requires !s.sess[k].closed && WriteOv(k) in Pins(s, k)
    ensures Stepped(s, t, b, k) && t.acts[b] == Arming(k) && t.pending == s.pending
    ensures ViewOf(t, k) == ViewOf(s, k).(x := s.sess[k].(sendIo := true, writeLock := false))
  {
    t := Go(s, b, true, false, 0, k);
  }

  lemma Arms(s: State, b: nat, k: nat) returns (t: State)
    requires Inv(s) && b < |s.acts| && s.acts[b] == Arming(k) && k < |s.sess| && Table(k) in Pins(s, k)
    ensures Stepped(s, t, b, k) && t.acts[b] == Armed(k) && t.pending == s.pending
    ensures ViewOf(t, k) == ViewOf(s, k).(pins := Pins(s, k) + {ReadOv(k)})
  {
    t := Go(s, b, true, false, 0, k);
  }

  lemma PostsReceive(s: State, b: nat, k: nat) returns (t: State)
    requires Inv(s) && b < |s.acts| && s.acts[b] == Armed(k) && k < |s.sess| && !s.sess[k].closed
    ensures Stepped(s, t, b, k) && t.acts[b] == Leaving(k, true) && t.pending == s.pending
    ensures ViewOf(t, k) == ViewOf(s, k).(x := s.sess[k].(readIo := RecvIo))
  {
    t := Go(s, b, true, false, 0, k);
  }

  /** A handler that is done drops both of its pointers. */
  lemma Leaves(s: State, b: nat, k: nat, other: Addr) returns (t: State)
    requires Inv(s) && b < |s.acts| && s.acts[b] == Leaving(k, true) && k < |s.sess|
    requires other in Pins(s, k) && other != Local(b, 0) && other != Local(b, 1)
    ensures Stepped(s, t, b, k) && t.acts[b] == Done && t.pending == s.pending
    ensures ViewOf(t, k) == ViewOf(s, k).(pins := Pins(s, k) - {Local(b, 0), Local(b, 1)})
  {
    var s1 := DropsInner(s, b, k);
    t := DropsOuter(s1, b, k, other);
    StepsOn(s, s1, t, b, k);
  }

  lemma LeaveScene(s: State, u: State, b: nat, k: nat, other: Addr) returns (t: State)
    requires Led(s, u, k) && |s.acts| <= b < |u.acts| && u.acts[b] == Leaving(k, true) && k < |u.sess|
    requires other in Pins(u, k) && other != Local(b, 0) && other != Local(b, 1)
    ensures Led(s, t, k) && t.pending == u.pending
    ensures ViewOf(t, k) == ViewOf(u, k).(pins := Pins(u, k) - {Local(b, 0), Local(b, 1)})
  {
    t := Leaves(u, b, k, other);
    LedOn(s, u, t, b, k);
  }

  lemma ConnectScene(s: State, k: nat) returns (t: State)
    requires Inv(s) && Looks(s, k, PENDING, AcceptIo, false, false, {Table(k), ReadOv(k)}) && s.pending > 0
    ensures Led(s, t, k) && t.pending == s.pending - 1
    ensures Looks(t, k, CONNECTED, RecvIo, true, true, {Table(k), ReadOv(k), WriteOv(k)})
  {
    var b := |s.acts|;
    var s1 := AcceptTaken(s, k);
    var s2 := Dispatches(s1, b, k, ReadRec, true, true);
    LedOn(s, s1, s2, b, k);
    assert Looks(s2, k, PENDING, NoIo, false, false, {Table(k), Local(b, 0), Local(b, 1)});
    t := GreetScene(s, s2, b, k);
  }

  lemma GreetScene(s: State, u: State, b: nat, k: nat) returns (t: State)
    requires Led(s, u, k) && b == |s.acts| < |u.acts| && u.acts[b] == Accepting(k)
    requires Looks(u, k, PENDING, NoIo, false, false, {Table(k), Local(b, 0), Local(b, 1)})
    ensures Led(s, t, k) && t.pending == u.pending
    ensures Looks(t, k, CONNECTED, RecvIo, true, true, {Table(k), ReadOv(k), WriteOv(k)})
  {
    var s1 := Connects(u, b, k);
    LedOn(s, u, s1, b, k);
    var s2 := BeginsGreeting(s1, b, k);
    LedOn(s, s1, s2, b, k);
    var s3 := PostsGreeting(s2, b, k);
    LedOn(s, s2, s3, b, k);
    t := ArmScene(s, s3, b, k);
  }

  lemma ArmScene(s: State, u: State, b: nat, k: nat) returns (t: State)
    requires Led(s, u, k) && b == |s.acts| < |u.acts| && u.acts[b] == Arming(k)
    requires Looks(u, k, CONNECTED, NoIo, true, true, {Table(k), Local(b, 0), Local(b, 1), WriteOv(k)})
    ensures Led(s, t, k) && t.pending == u.pending
    ensures Looks(t, k, CONNECTED, RecvIo, true, true, {Table(k), ReadOv(k), WriteOv(k)})
  {
    assert {Table(k), Local(b, 0), Local(b, 1), WriteOv(k)} + {ReadOv(k)} - {Local(b, 0), Local(b, 1)}
        == {Table(k), ReadOv(k), WriteOv(k)};
    var s1 := Arms(u, b, k);
    LedOn(s, u, s1, b, k);
    var s2 := PostsReceive(s1, b, k);
    LedOn(s, s1, s2, b, k);
    t := LeaveScene(s, s2, b, k, Table(k));
  }

  // ---------- the greeting is sent, a packet comes in ----------

  /** A completion other than that of an accept is taken and dispatched. */
  lemma Dispatched(s: State, k: nat, r: Record, good: bool) returns (t: State)
    requires Inv(s) && k < |s.sess| && Outstanding(s, r, k) && (r == ReadRec ==> s.sess[k].readIo == RecvIo)
    requires r == DiscRec ==> good
    ensures Led(s, t, k) && t.pending == s.pending && |s.acts| < |t.acts|
    ensures t.acts[|s.acts|] == Handler(k, r, false, good)
    ensures ViewOf(t, k) ==
      ViewOf(s, k).(x := WithoutIo(s.sess[k], r),
                    pins := Pins(s, k) + {Local(|s.acts|, 0), Local(|s.acts|, 1)} - {RecordAddr(r, k)})
  {
    var b := |s.acts|;
    var s1 := Take(s, k, r, good);
    t := Dispatches(s1, b, k, r, false, good);
    LedOn(s, s1, t, b, k);
  }

  lemma Drains(s: State, b: nat, k: nat) returns (t: State)
    requires Inv(s) && b < |s.acts| && s.acts[b] == Wrote(k) && k < |s.sess| && !s.sess[k].writeLock
    ensures Stepped(s, t, b, k) && t.acts[b] == Leaving(k, true) && t.pending == s.pending
    ensures ViewOf(t, k) == ViewOf(s, k).(x := s.sess[k].(sending := false))
  {
    t := Go(s, b, true, false, 0, k);
  }

  lemma DrainPins(b: nat, k: nat)
    ensures {Table(k), ReadOv(k), WriteOv(k)} + {Local(b, 0), Local(b, 1)} - {WriteOv(k)} - {Local(b, 0), Local(b, 1)}
         == {Table(k), ReadOv(k)}
  {
  }

  /** The send completes in full: the session is quiet. */
  lemma DrainScene(s: State, k: nat) returns (t: State)
    requires Inv(s) && Looks(s, k, CONNECTED, RecvIo, true, true, {Table(k), ReadOv(k), WriteOv(k)})
    ensures Led(s, t, k) && t.pending == s.pending
    ensures Looks(t, k, CONNECTED, RecvIo, false, false, {Table(k), ReadOv(k)})
  {
    var b := |s.acts|;
    DrainPins(b, k);
    var s1 := Dispatched(s, k, WriteRec, true);
    var s2 := Drains(s1, b, k);
    LedOn(s, s1, s2, b, k);
    t := LeaveScene(s, s2, b, k, Table(k));
  }

  /** A receive completes: the new activity reads. */
  lemma ReadScene(s: State, k: nat) returns (t: State)
    requires Inv(s) && k < |s.sess| && s.sess[k].readIo == RecvIo
    ensures Led(s, t, k) && t.pending == s.pending && |s.acts| < |t.acts| && t.acts[|s.acts|] == Reading(k)
  {
    t := Dispatched(s, k, ReadRec, true);
  }

  // ---------- a session goes down ----------

  lemma Closes(s: State, b: nat, k: nat) returns (t: State)
    requires Inv(s) && b < |s.acts| && s.acts[b] == Closing(k, true) && k < |s.sess| && StateOf(s, k) == CONNECTED
    ensures Stepped(s, t, b, k) && t.acts[b] == Hanging(k, true) && t.pending == s.pending
    ensures ViewOf(t, k) == ViewOf(s, k).(state := DISCONNECTING)
  {
    assert SlotOk(s, k);
    t := Go(s, b, true, false, 0, k);
  }

  lemma Stores(s: State, b: nat, k: nat) returns (t: State)
    requires Inv(s) && b < |s.acts| && s.acts[b] == Hanging(k, true) && k < |s.sess|
    ensures Stepped(s, t, b, k) && t.acts[b] == Hung(k, true) && t.pending == s.pending
    ensures ViewOf(t, k) == ViewOf(s, k).(pins := Pins(s, k) + {DiscOv(k)})
  {
    t := Go(s, b, true, false, 0, k);
  }

  lemma PostsDisconnect(s: State, b: nat, k: nat) returns (t: State)
    requires Inv(s) && b < |s.acts| && s.acts[b] == Hung(k, true) && k < |s.sess|
    ensures Stepped(s, t, b, k) && t.acts[b] == Leaving(k, true) && t.pending == s.pending
    ensures ViewOf(t, k) == ViewOf(s, k).(x := s.sess[k].(discIo := true, discCalls := s.sess[k].discCalls + 1))
  {
    t := Go(s, b, true, false, 0, k);
  }

  lemma Disconnects(s: State, u: State, b: nat, k: nat) returns (t: State)
    requires Led(s, u, k) && |s.acts| <= b < |u.acts| && u.acts[b] == Closing(k, true) && k < |u.sess|
    requires StateOf(u, k) == CONNECTED
    ensures Led(s, t, k) && t.pending == u.pending && b < |t.acts| && t.acts[b] == Leaving(k, true)
    ensures ViewOf(t, k) ==
      ViewOf(u, k).(state := DISCONNECTING, pins := Pins(u, k) + {DiscOv(k)},
                    x := u.sess[k].(discIo := true, discCalls := u.sess[k].discCalls + 1))
  {
    var s1 := Closes(u, b, k);
    LedOn(s, u, s1, b, k);
    var s2 := Stores(s1, b, k);
    LedOn(s, s1, s2, b, k);
    t := PostsDisconnect(s2, b, k);
    LedOn(s, s2, t, b, k);
  }

  ghost predicate SendFieldsSame(s: State, t: State, k: nat)
    requires k < |s.sess| == |t.sess|
  {
    && t.sess[k].sending == s.sess[k].sending && t.sess[k].writeLock == s.sess[k].writeLock
    && t.sess[k].sendIo == s.sess[k].sendIo
  }

  lemma FailPins(b: nat, k: nat, extra: set<Addr>)
    requires extra <= {WriteOv(k)}
    ensures {Table(k), ReadOv(k)} + extra + {Local(b, 0), Local(b, 1)} - {ReadOv(k)} + {DiscOv(k)}
            - {Local(b, 0), Local(b, 1)} == {Table(k), DiscOv(k)} + extra
  {
  }

  lemma GonePins(b: nat, k: nat, extra: set<Addr>)
    requires extra <= {WriteOv(k)}
    ensures {Table(k), DiscOv(k)} + extra + {Local(b, 0), Local(b, 1)} - {DiscOv(k)} - {Table(k)} - {Local(b, 1)}
         == {Local(b, 0)} + extra
  {
  }

  /** A receive fails: the session is disconnected. extra are pointers that others hold. */
  lemma FailScene(s: State, k: nat, extra: set<Addr>) returns (t: State)
    requires Inv(s) && k < |s.sess| && StateOf(s, k) == CONNECTED && s.sess[k].readIo == RecvIo
    requires Pins(s, k) == {Table(k), ReadOv(k)} + extra && extra <= {WriteOv(k)}
    ensures Led(s, t, k) && t.pending == s.pending && StateOf(t, k) == DISCONNECTING && t.sess[k].discIo
    ensures Pins(t, k) == {Table(k), DiscOv(k)} + extra && SendFieldsSame(s, t, k)
  {
    var b := |s.acts|;
    FailPins(b, k, extra);
    var s1 := Dispatched(s, k, ReadRec, false);
    var s2 := Disconnects(s, s1, b, k);
    t := LeaveScene(s, s2, b, k, Table(k));
  }

  /** The table entry goes. */
  lemma Clears(s: State, b: nat, k: nat) returns (t: State)
    requires Inv(s) && b < |s.acts| && s.acts[b] == Clearing(k) && k < |s.sess|
    ensures Stepped(s, t, b, k) && t.acts[b] == Leaving(k, true) && t.pending == s.pending
    ensures ViewOf(t, k) == ViewOf(s, k).(pins := Pins(s, k) - {Table(k)})
  {
    t := Go(s, b, true, false, 0, k);
  }

  /** The disconnect completes: its handler, activity |s.acts|, is left with one local pointer. */
  lemma GoneScene(s: State, k: nat, extra: set<Addr>) returns (t: State)
    requires Inv(s) && k < |s.sess| && s.sess[k].discIo
    requires Pins(s, k) == {Table(k), DiscOv(k)} + extra && extra <= {WriteOv(k)}
    ensures Led(s, t, k) && t.pending == s.pending && |s.acts| < |t.acts| && t.acts[|s.acts|] == Leaving(k, false)
    ensures Pins(t, k) == {Local(|s.acts|, 0)} + extra && SendFieldsSame(s, t, k)
  {
    var b := |s.acts|;
    GonePins(b, k, extra);
    var s1 := Dispatched(s, k, DiscRec, true);
    var s2 := Clears(s1, b, k);
    LedOn(s, s1, s2, b, k);
    t := DropsInner(s2, b, k);
    LedOn(s, s2, t, b, k);
  }

  /** A connected session goes down up to the last local pointer of the disconnect's handler. */
  lemma DownScene(s: State, k: nat, extra: set<Addr>) returns (t: State, c: nat)
    requires Inv(s) && k < |s.sess| && StateOf(s, k) == CONNECTED && s.sess[k].readIo == RecvIo
    requires Pins(s, k) == {Table(k), ReadOv(k)} + extra && extra <= {WriteOv(k)}
    ensures Led(s, t, k) && t.pending == s.pending && |s.acts| <= c < |t.acts| && t.acts[c] == Leaving(k, false)
    ensures Pins(t, k) == {Local(c, 0)} + extra && SendFieldsSame(s, t, k)
  {
    var s1 := FailScene(s, k, extra);
    c := |s1.acts|;
    t := GoneScene(s1, k, extra);
    LedBy(s, s1, t, k);
  }
}
