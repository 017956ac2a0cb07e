/** Two things that go wrong, with runs that show them. A relay that stands between GetSession and a
    failing WSASend while its target goes down corrupts the target's reference count. A relay that
    enters SendPacket after its target has gone down leaves the sending flag to the next lease. */
module ProtocolRace {
  import opened SparseSets
  import opened LeasePool
  import opened SessionProtocol
  import opened ProtocolInvariant
  import opened ProtocolCases
  import opened ProtocolTheorems
  import opened ProtocolRuns
  import opened ProtocolReach
  import opened ProtocolScenes
  import opened ProtocolDirty

  /** Slot j is idle and its counter wrapped: the next lease starts one reference short. */
  ghost predicate Wrapped(s: State, j: nat)
  {
    Shaped(s) && j < |s.sess| && StateOf(s, j) == IDLE && s.pool.refs[j] == COUNT_MAX
  }

  /** A run without a race leads to a state in which one more step wraps the counter of slot j. */
  ghost predicate Corruptible(s: State, j: nat)
    requires Shaped(s)
  {
    exists g, e :: Reaches(s, g) && Shaped(g) && Enabled(g, e) && Wrapped(Step(g, e), j)
  }

  /** j is connected and idle on the wire: its receive is outstanding and nothing else names it. */
  ghost predicate QuietPeer(s: State, j: nat)
  {
    Looks(s, j, CONNECTED, RecvIo, false, false, {Table(j), ReadOv(j)})
  }

  // ---------- the relay picks its target ----------

  lemma Relays(s: State, a: nat, i: nat, j: nat) returns (t: State)
    requires Inv(s) && a < |s.acts| && s.acts[a] == Reading(i) && i < |s.sess| && i != j && QuietPeer(s, j)
    ensures Stepped(s, t, a, i) && t.acts[a].Bcast? && t.acts[a].i == i && j in t.acts[a].rest
    ensures QuietPeer(t, j) && t.pending == s.pending
  {
    t := Go(s, a, true, true, 0, i);
    assert ViewOf(t, j) == ViewOf(s, j);
  }

  lemma Finds(s: State, a: nat, i: nat, j: nat) returns (t: State)
    requires Inv(s) && a < |s.acts| && s.acts[a].Bcast? && s.acts[a].i == i && j in s.acts[a].rest
    requires i < |s.sess| && i != j && QuietPeer(s, j)
    ensures Stepped(s, t, a, i) && t.acts[a].Target? && t.acts[a].i == i && t.acts[a].j == j
    ensures QuietPeer(t, j) && t.pending == s.pending
  {
    PinnedBy(s, j, Table(j));
    PointerCounted(s, Table(j));
    t := Go(s, a, true, false, j, i);
    assert ViewOf(t, j) == ViewOf(s, j);
  }

  lemma TargetScene(s: State, a: nat, i: nat, j: nat) returns (t: State)
    requires Inv(s) && a < |s.acts| && s.acts[a] == Reading(i) && i < |s.sess| && i != j && QuietPeer(s, j)
    ensures Inv(t) && LeadsTo(s, t) && a < |t.acts| && t.acts[a].Target? && t.acts[a].i == i && t.acts[a].j == j
    ensures QuietPeer(t, j) && t.pending == s.pending && t.limit == s.limit
  {
    var u := Relays(s, a, i, j);
    t := Finds(u, a, i, j);
  }

  // ---------- the counter wraps ----------

  /** Activity a stands between GetSession and WSASend for a relay to j; its pointer is stored. */
  ghost predicate InWindow(s: State, a: nat, j: nat)
  {
    && Inv(s) && a < |s.acts| && s.acts[a].Sending? && s.acts[a].j == j && s.acts[a].i != j && j < |s.sess|
    && WriteOv(j) in Pins(s, j)
  }

  /** With the record's pointer the only one left, a failing post corrupts the count. */
  lemma LastPointerCorrupts(s: State, a: nat, j: nat)
    requires InWindow(s, a, j) && Pins(s, j) == {WriteOv(j)}
    ensures Corruptible(s, j)
  {
    var e := Do(a, false, false, 0);
    PinsAreOwners(s, j);
    PointerCounted(s, WriteOv(j));
    assert ActOk(s, a);
    RaceBreaks(s, e);
    ReachesItself(s);
  }

  lemma Stores(s: State, a: nat, i: nat, j: nat) returns (t: State)
    requires Inv(s) && a < |s.acts| && s.acts[a].Target? && s.acts[a].i == i && s.acts[a].j == j && i != j
    requires QuietPeer(s, j)
    ensures Stepped(s, t, a, j) && InWindow(t, a, j) && StateOf(t, j) == CONNECTED && t.sess[j].readIo == RecvIo
    ensures Pins(t, j) == {Table(j), ReadOv(j)} + {WriteOv(j)}
  {
    assert ActOk(s, a);
    t := Go(s, a, true, false, 0, j);
  }

  /** A reader that relays one packet, a peer whose receive fails at that moment, and a post that
      finds the socket closed: the peer's count ends at 2^64 - 1. */
  lemma RaceIsReachable(s: State, a: nat, i: nat, j: nat)
    requires Inv(s) && a < |s.acts| && s.acts[a] == Reading(i) && i < |s.sess| && i != j && QuietPeer(s, j)
    ensures Corruptible(s, j)
  {
    var s1 := TargetScene(s, a, i, j);
    var s2 := Stores(s1, a, i, j);
    WindowCorrupts(s2, a, j);
  }

  lemma WindowCorrupts(s: State, a: nat, j: nat)
    requires InWindow(s, a, j) && StateOf(s, j) == CONNECTED && s.sess[j].readIo == RecvIo
    requires Pins(s, j) == {Table(j), ReadOv(j)} + {WriteOv(j)}
    ensures Corruptible(s, j)
  {
    var s1, c := DownScene(s, j, {WriteOv(j)});
    var s2 := DropsOuter(s1, c, j, WriteOv(j));
    LastPointerCorrupts(s2, a, j);
  }

  // ---------- the sending flag stays behind ----------

  /** The target goes down; the relay still has its address. */
  lemma TargetGone(s: State, a: nat, i: nat, j: nat) returns (t: State, d: nat)
    requires Inv(s) && a < |s.acts| && s.acts[a].Target? && s.acts[a].i == i && s.acts[a].j == j && i != j
    requires QuietPeer(s, j)
    ensures Inv(t) && LeadsTo(s, t) && |t.sess| == |s.sess| && t.pending == s.pending && t.limit == s.limit
    ensures a < d < |t.acts| && t.acts[a] == s.acts[a] && t.acts[d] == PaTop
    ensures ViewOf(t, j).state == IDLE && ViewOf(t, j).pins == {} && !t.sess[j].sending && !t.sess[j].writeLock
  {
    var s1, c := DownScene(s, j, {});
    d := |s1.acts|;
    t := GoLast(s1, c, j);
  }

  /** The relay enters SendPacket on the idle slot; its post fails. */
  lemma LeavesFlag(s: State, a: nat, i: nat, j: nat) returns (t: State)
    requires Inv(s) && a < |s.acts| && s.acts[a].Target? && s.acts[a].i == i && s.acts[a].j == j && j < |s.sess|
    requires StateOf(s, j) == IDLE && Pins(s, j) == {} && !s.sess[j].sending && !s.sess[j].writeLock
    ensures Stepped(s, t, a, j) && t.pending == s.pending
    ensures StateOf(t, j) == IDLE && t.sess[j].sending && !t.sess[j].writeLock
  {
    assert ActOk(s, a);
    PinnedBy(s, j, Table(j));
    PinnedBy(s, j, WriteOv(j));
    var s1 := Go(s, a, true, false, 0, j);
    PinnedBy(s1, j, WriteOv(j));
    t := Go(s1, a, false, false, 0, j);
    StepsOn(s, s1, t, a, j);
  }

  /** A reader that looks its peer up just before the peer goes down leaves the sending flag to the
      next lease of the peer's slot. No race is involved. */
  lemma DirtyLeaseIsReachable(s: State, a: nat, i: nat, j: nat) returns (t: State)
    requires Inv(s) && a < |s.acts| && s.acts[a] == Reading(i) && i < |s.sess| && i != j && QuietPeer(s, j)
    requires s.pending < s.limit
    ensures Inv(t) && Reaches(s, t) && Looks(t, j, PENDING, AcceptIo, false, true, {Table(j), ReadOv(j)})
  {
    var s1 := TargetScene(s, a, i, j);
    var s2, d := TargetGone(s1, a, i, j);
    var s3 := LeavesFlag(s2, a, i, j);
    t := AcceptScene(s3, d, j);
    ReachesItself(t);
  }

  // ---------- from start-up ----------

  lemma FirstActivity(s: State) returns (t: State)
    requires Initial(s)
    ensures Inv(t) && LeadsTo(s, t) && t.acts == [PaTop] && t.pool == s.pool && t.sess == s.sess
    ensures t.pending == 0 && t.limit == s.limit
  {
    InitialIsGood(s);
    SpawnKeeps(s);
    LeadsByStep(s, Start);
    t := Step(s, Start);
  }

  lemma TwoAccepts(s: State, i: nat, j: nat) returns (t: State)
    requires Initial(s) && i < |s.sess| && j < |s.sess| && i != j && s.limit >= 2
    ensures Inv(t) && LeadsTo(s, t) && |t.sess| == |s.sess| && t.pending == 2 && t.limit == s.limit
    ensures Looks(t, i, PENDING, AcceptIo, false, false, {Table(i), ReadOv(i)})
    ensures Looks(t, j, PENDING, AcceptIo, false, false, {Table(j), ReadOv(j)})
  {
    var s0 := FirstActivity(s);
    var s1 := AcceptScene(s0, 0, i);
    assert ViewOf(s1, j) == ViewOf(s0, j);
    t := AcceptScene(s1, 0, j);
    assert ViewOf(t, i) == ViewOf(s1, i);
  }

  /** Two clients connect; one is quiet, the other one sends a packet. */
  lemma Stage(s: State, i: nat, j: nat) returns (t: State, a: nat)
    requires Initial(s) && i < |s.sess| && j < |s.sess| && i != j && s.limit >= 2
    ensures Inv(t) && LeadsTo(s, t) && |t.sess| == |s.sess| && t.pending == 0 && t.limit == s.limit
    ensures a < |t.acts| && t.acts[a] == Reading(i) && QuietPeer(t, j)
  {
    var s1 := TwoAccepts(s, i, j);
    var s2 := PeerScene(s1, i, j);
    var s3 := ConnectScene(s2, i);
    assert ViewOf(s3, j) == ViewOf(s2, j);
    a := |s3.acts|;
    t := ReadScene(s3, i);
    assert ViewOf(t, j) == ViewOf(s3, j);
  }

  lemma PeerScene(s: State, i: nat, j: nat) returns (t: State)
    requires Inv(s) && i != j && s.pending == 2
    requires Looks(s, i, PENDING, AcceptIo, false, false, {Table(i), ReadOv(i)})
    requires Looks(s, j, PENDING, AcceptIo, false, false, {Table(j), ReadOv(j)})
    ensures Inv(t) && LeadsTo(s, t) && |t.sess| == |s.sess| && t.pending == 1 && t.limit == s.limit
    ensures Looks(t, i, PENDING, AcceptIo, false, false, {Table(i), ReadOv(i)}) && QuietPeer(t, j)
  {
    var s1 := ConnectScene(s, j);
    assert ViewOf(s1, i) == ViewOf(s, i);
    t := DrainScene(s1, j);
    assert ViewOf(t, i) == ViewOf(s1, i);
  }

  /** From start-up, with two slots and two accepts allowed, a run corrupts the count of any slot. */
  lemma RaceFromStart(s: State, i: nat, j: nat)
    requires Initial(s) && i < |s.sess| && j < |s.sess| && i != j && s.limit >= 2
    ensures Corruptible(s, j)
  {
    var t, a := Stage(s, i, j);
    RaceIsReachable(t, a, i, j);
  }

  /** And a run without a race gives any slot a lease that starts with the sending flag set. */
  lemma DirtyLeaseFromStart(s: State, i: nat, j: nat) returns (t: State)
    requires Initial(s) && i < |s.sess| && j < |s.sess| && i != j && s.limit >= 2
    ensures Inv(t) && Reaches(s, t) && Looks(t, j, PENDING, AcceptIo, false, true, {Table(j), ReadOv(j)})
    ensures Muted(t, j)
  {
    var u, a := Stage(s, i, j);
    t := DirtyLeaseIsReachable(u, a, i, j);
    DirtyLeaseIsMuted(t, j);
  }

  lemma DirtyLeaseIsMuted(s: State, j: nat)
    requires Inv(s) && Looks(s, j, PENDING, AcceptIo, false, true, {Table(j), ReadOv(j)})
    ensures Muted(s, j)
  {
    PinnedBy(s, j, WriteOv(j));
    forall a | 0 <= a < |s.acts| && Tok(s.acts[a], WriteRec, j) && !s.acts[a].Sending?
      ensures false
    {
      HomeLeased(s, a);
      PinnedBy(s, j, Local(a, 0));
    }
  }
}
