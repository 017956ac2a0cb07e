/** How a lease ends when nothing goes wrong. */
module ProtocolRecycle {
  import opened Handles
  import opened SparseSets
  import opened SessionProtocol
  import opened ProtocolInvariant
  import opened ProtocolCases
  import opened ProtocolLeases
  import opened ProtocolReach
  import opened ProtocolScenes
  import opened ProtocolEndings

  ghost predicate Returned(s: State, t: State, i: nat)
    requires Shaped(s) && i < |s.sess|
  {
    && Shaped(t) && |t.sess| == |s.sess| && StateOf(t, i) == IDLE
    && t.pool.slots.gens[i] == NextGen(s.pool.slots.gens[i]) && t.pool.refs[i] == 0 && Pins(t, i) == {}
    && t.sess[i].handle == NO_HANDLE && !t.sess[i].sending && t.sess[i].readIo == NoIo
    && !t.sess[i].sendIo && !t.sess[i].discIo && t.sess[i].connects == 0 && t.sess[i].discCalls == 0
  }

  /** No operation is outstanding on slot i, and no activity but c works for it or uses its records. */
  ghost predicate OnlyHandler(s: State, c: nat, i: nat)
    requires i < |s.sess|
  {
    && (forall r :: !Outstanding(s, r, i))
    && (forall a :: 0 <= a < |s.acts| && a != c ==> !Home(s.acts[a], i) && forall r :: !Tok(s.acts[a], r, i))
  }

  lemma HandlerPins(s: State, c: nat, i: nat)
    requires Inv(s) && c < |s.acts| && s.acts[c] == Got(i, DiscRec, false, true) && i < |s.sess|
    requires Kept(s, i, false) && OnlyHandler(s, c, i)
    ensures {Local(c, 0)} <= Pins(s, i) <= {Table(i), DiscOv(i), Local(c, 0)}
  {
    HomeLeased(s, c);
    PointerCounted(s, Local(c, 0));
    assert !Used(s, ReadRec, i) && !Used(s, WriteRec, i);
    assert !Has(s, RecordAddr(ReadRec, i)) && !Has(s, RecordAddr(WriteRec, i));
    forall a | a in Pins(s, i)
      ensures a in {Table(i), DiscOv(i), Local(c, 0)}
    {
      PointerCounted(s, a);
      if a.Local? {
        HoldsOuter(s.acts[a.act], a.k);
        assert Home(s.acts[a.act], i);
      }
    }
  }

  /** A disconnect that completed successfully, on a session with no other operation or activity left
      and no earlier failure, ends in an idle, clean slot of the next generation when its handler runs
      through. */
  lemma DisconnectRecycles(s: State, c: nat, i: nat) returns (t: State)
    requires Inv(s) && c < |s.acts| && s.acts[c] == Got(i, DiscRec, false, true) && i < |s.sess|
    requires Kept(s, i, false) && OnlyHandler(s, c, i)
    ensures Reaches(s, t) && Inv(t) && Returned(s, t, i)
  {
    HandlerPins(s, c, i);
    t := HandlerRuns(s, c, i);
  }

  lemma HandlerRuns(s: State, c: nat, i: nat) returns (t: State)
    requires Inv(s) && c < |s.acts| && s.acts[c] == Got(i, DiscRec, false, true) && i < |s.sess|
    requires {Local(c, 0)} <= Pins(s, i) <= {Table(i), DiscOv(i), Local(c, 0)}
    ensures Reaches(s, t) && Inv(t) && Returned(s, t, i)
  {
    var s1 := Dispatches(s, c, i, DiscRec, false, true);
    var s2 := Clears(s1, c, i);
    var s3 := DropsInner(s2, c, i);
    assert Pins(s3, i) == {Local(c, 0)};
    t := HandlerEnds(s3, c, i);
  }

  lemma HandlerEnds(s: State, c: nat, i: nat) returns (t: State)
    requires Inv(s) && c < |s.acts| && s.acts[c] == Leaving(i, false) && i < |s.sess| && Pins(s, i) == {Local(c, 0)}
    ensures Reaches(s, t) && Inv(t) && Returned(s, t, i)
  {
    PinsAreOwners(s, i);
    LastIsAlone(s, c);
    t := GoLast(s, c, i);
    PinsAreOwners(t, i);
    ReachesItself(t);
  }
}
