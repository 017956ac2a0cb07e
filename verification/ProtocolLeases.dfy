/** Steps that begin or end a lease, and completions leaving the port. */
module ProtocolLeases {
  import opened Handles
  import opened SparseSets
  import opened LeasePool
  import opened SessionProtocol
  import opened ProtocolInvariant
  import opened ProtocolSteps
  import opened ProtocolCases

  // ---------- CreateSession ----------

  lemma IdleIsBare(s: State, i: nat)
    requires Inv(s) && i < |s.sess| && StateOf(s, i) == IDLE
    ensures forall a :: Has(s, a) ==> SlotOf(s, a) != i
    ensures forall act :: 0 <= act < |s.acts| ==> !Home(s.acts[act], i)
    ensures s.sess[i].readIo == NoIo && !s.sess[i].sendIo && !s.sess[i].discIo
  {
    forall a | Has(s, a)
      ensures SlotOf(s, a) != i
    {
      PointerCounted(s, a);
    }
    forall act | 0 <= act < |s.acts|
      ensures !Home(s.acts[act], i)
    {
      if Home(s.acts[act], i) {
        HomeLeased(s, act);
      }
    }
    assert SlotOk(s, i);
    assert !Has(s, ReadOv(i)) && !Has(s, WriteOv(i)) && !Has(s, DiscOv(i)) by {
      assert SlotOf(s, ReadOv(i)) == SlotOf(s, WriteOv(i)) == SlotOf(s, DiscOv(i)) == i;
    }
  }

  lemma CreatePool(s: State, act: nat, i: nat)
    requires Inv(s) && act < |s.acts| && !Holds(s.acts[act], 0) && i < |s.sess| && StateOf(s, i) == IDLE
    ensures var h := Handle(i, s.pool.slots.gens[i]);
      var q := Create(s, act, i).pool;
      && WF(q) && Ledger(q) && IdleExact(q) && q.owned == s.pool.owned
      && q.slots == Moved(s.pool.slots, i, PENDING)
      && q.ptrs == s.pool.ptrs[Table(i) := h][Local(act, 0) := h]
  {
    IdleIsBare(s, i);
    assert SlotOf(s, Table(i)) == i && SlotOf(s, Local(act, 0)) == -1;
    AcquireKeeps(s.pool, Table(i), i, PENDING);
    CopyConstructKeeps(Acquire(s.pool, Table(i), i, PENDING), Local(act, 0), Table(i));
  }

  /** Slot i of t is at the start of a lease: pending under its present generation, with no operation
      outstanding and no pointer in its records. The sending flag is the one thing it may inherit. */
  ghost predicate StartsLease(s: State, t: State, i: nat)
    requires Shaped(s) && i < |s.sess|
  {
    && Shaped(t) && |t.sess| == |s.sess| && StateOf(s, i) == IDLE && StateOf(t, i) == PENDING
    && t.pool.slots.gens[i] == s.pool.slots.gens[i] && t.sess[i].handle == Handle(i, s.pool.slots.gens[i])
    && t.sess[i].readIo == NoIo && !t.sess[i].sendIo && !t.sess[i].discIo && !t.sess[i].closed
    && t.sess[i].connects == 0 && t.sess[i].discCalls == 0 && t.sess[i].sending == s.sess[i].sending
    && Has(t, Table(i)) && !Has(t, ReadOv(i)) && !Has(t, WriteOv(i)) && !Has(t, DiscOv(i))
  }

  lemma CreateKeeps(s: State, act: nat, ok: bool, more: bool, pick: nat)
    requires Inv(s) && CanDo(s, act, ok, more, pick) && s.acts[act].PaReserved? && AnyIdle(s)
    ensures Inv(DoStep(s, act, ok, more, pick)) && StartsLease(s, DoStep(s, act, ok, more, pick), pick)
  {
    CreatePool(s, act, pick);
    IdleIsBare(s, pick);
    Created(s, DoStep(s, act, ok, more, pick), act, pick);
    assert SlotOk(s, pick) && SlotOf(s, WriteOv(pick)) == SlotOf(s, DiscOv(pick)) == SlotOf(s, ReadOv(pick)) == pick;
  }

  lemma Created(s: State, t: State, act: nat, i: nat)
    requires Inv(s) && Frame(t) && act < |s.acts| && s.acts[act] == PaReserved && i < |s.sess| && StateOf(s, i) == IDLE
    requires t.acts == s.acts[act := PaCreated(i)] && t.limit == s.limit
    requires t.pool.slots == Moved(s.pool.slots, i, PENDING)
    requires var h := Handle(i, s.pool.slots.gens[i]);
      && t.pool.ptrs == s.pool.ptrs[Table(i) := h][Local(act, 0) := h]
      && t.sess == s.sess[i := s.sess[i].(handle := h, closed := false)]
    ensures Inv(t)
  {
    IdleIsBare(s, i);
    CreatedSlot(s, t, act, i);
    NearCreated(s, t, act, i);
    assert Mine(s, act, ReadRec, i) by {
      assert forall b, r :: 0 <= b < |s.acts| && r == ReadRec && Tok(s.acts[b], r, i) ==> Home(s.acts[b], i);
    }
    Transfer(s, t, act, i);
  }

  lemma CreatedSlot(s: State, t: State, act: nat, i: nat)
    requires Inv(s) && Local1(s, t, act, i) && StateOf(s, i) == IDLE && StateOf(t, i) == PENDING
    requires t.sess[i] == s.sess[i].(handle := Handle(i, s.pool.slots.gens[i]), closed := false)
    requires forall a: Addr :: !a.Local? && a != Table(i) ==> (Has(s, a) <==> Has(t, a))
    requires Has(t, Table(i))
    ensures SlotOk(t, i) && Gentle(s, t, act, i) && !Has(t, ReadOv(i))
  {
    IdleIsBare(s, i);
    assert SlotOk(s, i);
    assert SlotOf(s, ReadOv(i)) == SlotOf(s, WriteOv(i)) == SlotOf(s, DiscOv(i)) == i;
  }

  lemma NearCreated(s: State, t: State, act: nat, i: nat)
    requires Inv(s) && act < |s.acts| && s.acts[act] == PaReserved
    requires Local1(s, t, act, i) && t.acts[act] == PaCreated(i)
    requires var h := Handle(i, s.pool.slots.gens[i]);
      t.pool.ptrs == s.pool.ptrs[Table(i) := h][Local(act, 0) := h]
    ensures PointersNear(s, t, act, i)
  {
    forall a | Near(a, act, i) && Has(t, a)
      ensures 0 <= SlotOf(t, a) < |t.sess| && t.pool.ptrs[a] == Handle(SlotOf(t, a), t.pool.slots.gens[SlotOf(t, a)])
    {
      assert a == Table(i) || a == Local(act, 0) || (Has(s, a) && SlotOf(s, a) == SlotOf(t, a));
    }
  }

  // ---------- a completion leaves the port ----------

  lemma DequeueKeeps(s: State, i: nat, r: Record, ok: bool)
    requires Inv(s) && i < |s.sess| && Outstanding(s, r, i)
    ensures Inv(TakeCompletion(s, i, r, ok))
  {
    var act := |s.acts|;
    var a := Local(act, 0);
    assert SlotOk(s, i);
    assert Has(s, RecordAddr(r, i));
    assert !Has(s, a) by {
      assert SlotOf(s, a) == -1;
    }
    PointerCounted(s, RecordAddr(r, i));
    GainPointer(s, a, RecordAddr(r, i));
    Taken(s, TakeCompletion(s, i, r, ok), i, r);
  }

  lemma Taken(s: State, t: State, i: nat, r: Record)
    requires Inv(s) && i < |s.sess| && Outstanding(s, r, i)
    requires Repointed(s.pool, t.pool, s.pool.ptrs[Local(|s.acts|, 0) := Handle(i, s.pool.slots.gens[i])])
    requires |t.acts| == |s.acts| + 1 && t.acts == s.acts + [t.acts[|s.acts|]] && t.limit == s.limit
    requires t.sess == s.sess[i := WithoutIo(s.sess[i], r)]
    requires TakenPlace(t.acts[|s.acts|], i, r)
    ensures Inv(t)
  {
    var act := |s.acts|;
    TakenTokens(s, t, i, r);
    TakenSlot(s, t, i, r);
    NearTaken(s, t, i);
    FrameKept(s, t);
    Transfer(s, t, act, i);
  }

  ghost predicate TakenPlace(pc: Pc, i: nat, r: Record)
  {
    (pc.AccDone? && pc.i == i && r == ReadRec) || (pc.Got? && pc.i == i && pc.r == r)
  }

  lemma TakenTokens(s: State, t: State, i: nat, r: Record)
    requires Inv(s) && Local1(s, t, |s.acts|, i) && Outstanding(s, r, i)
    requires t.sess[i] == WithoutIo(s.sess[i], r) && TakenPlace(t.acts[|s.acts|], i, r)
    ensures Mine(s, |s.acts|, r, i) && TokensKept(s, t, |s.acts|, i)
  {
  }

  lemma TakenSlot(s: State, t: State, i: nat, r: Record)
    requires Inv(s) && Local1(s, t, |s.acts|, i) && Outstanding(s, r, i) && Mine(s, |s.acts|, r, i)
    requires t.sess[i] == WithoutIo(s.sess[i], r) && t.pool.slots == s.pool.slots
    requires forall a: Addr :: !a.Local? ==> (Has(s, a) <==> Has(t, a))
    requires TakenPlace(t.acts[|s.acts|], i, r)
    ensures SlotOk(t, i) && Gentle(s, t, |s.acts|, i) && ActOk(t, |s.acts|)
  {
    assert SlotOk(s, i);
  }

  lemma NearTaken(s: State, t: State, i: nat)
    requires Inv(s) && Local1(s, t, |s.acts|, i)
    requires t.pool.ptrs == s.pool.ptrs[Local(|s.acts|, 0) := Handle(i, s.pool.slots.gens[i])]
    requires var pc := t.acts[|s.acts|]; (pc.AccDone? || pc.Got?) && pc.i == i
    ensures PointersNear(s, t, |s.acts|, i)
  {
    var act := |s.acts|;
    forall a | Near(a, act, i) && Has(t, a)
      ensures 0 <= SlotOf(t, a) < |t.sess| && t.pool.ptrs[a] == Handle(SlotOf(t, a), t.pool.slots.gens[SlotOf(t, a)])
    {
      assert a == Local(act, 0) || (Has(s, a) && SlotOf(s, a) == SlotOf(t, a));
    }
  }

  // ---------- local pointers go out of scope ----------

  lemma LocalDropped(s: State, t: State, act: nat, n: nat)
    requires Inv(s) && act < |s.acts| && Holds(s.acts[act], n)
    requires Repointed(s.pool, t.pool, s.pool.ptrs - {Local(act, n)})
    requires t.sess == s.sess && t.limit == s.limit && |t.acts| == |s.acts| && t.acts == s.acts[act := t.acts[act]]
    requires forall m: nat :: Holds(t.acts[act], m) <==> Holds(s.acts[act], m) && m != n
    requires Holds(t.acts[act], 0) ==> t.acts[act].i == s.acts[act].i
    requires forall r, i: nat :: !Tok(t.acts[act], r, i)
    requires ActOk(t, act)
    ensures Inv(t)
  {
    HoldsOuter(s.acts[act], n);
    HomeLeased(s, act);
    var i := s.acts[act].i;
    forall a | Near(a, act, i) && Has(t, a)
      ensures 0 <= SlotOf(t, a) < |t.sess| && t.pool.ptrs[a] == Handle(SlotOf(t, a), t.pool.slots.gens[SlotOf(t, a)])
    {
      assert Has(s, a) && SlotOf(s, a) == SlotOf(t, a);
    }
    SlotSame(s, t, i);
    GentleSame(s, t, act, i);
    ContinuesTokensOnly(s, t, act, i);
    FrameKept(s, t);
    Transfer(s, t, act, i);
  }

  lemma InnerLeft(s: State, act: nat, i: nat)
    requires Inv(s) && act < |s.acts| && s.acts[act] == Leaving(i, true)
    ensures Inv(To(DropLocal(s, Local(act, 1)), act, Leaving(i, false))) && NotLast(s, Local(act, 1))
  {
    HomeLeased(s, act);
    assert Has(s, Local(act, 1));
    PinnedByOther(s, Local(act, 1), Local(act, 0));
    LosePointer(s, Local(act, 1));
    LocalDropped(s, To(DropLocal(s, Local(act, 1)), act, Leaving(i, false)), act, 1);
  }

  ghost predicate LastLocal(from: Pc, to: Pc, i: nat)
  {
    (from == PaDrop(i) && to == PaTop) || (from == Leaving(i, false) && to == Done)
  }

  lemma OuterLeft(s: State, act: nat, i: nat, pc: Pc)
    requires Inv(s) && act < |s.acts| && LastLocal(s.acts[act], pc, i) && i < |s.sess| && s.pool.refs[i] != 1
    ensures Inv(To(DropLocal(s, Local(act, 0)), act, pc))
  {
    HomeLeased(s, act);
    PointerCounted(s, Local(act, 0));
    LosePointer(s, Local(act, 0));
    LocalDropped(s, To(DropLocal(s, Local(act, 0)), act, pc), act, 0);
  }

  /** When the last local goes, no other pointer names the slot, no operation is outstanding on it
      and its disconnect has completed. */
  lemma LastIsAlone(s: State, act: nat)
    requires Inv(s) && act < |s.acts| && Holds(s.acts[act], 0) && s.pool.refs[s.acts[act].i] == 1
    ensures forall a :: Has(s, a) && a != Local(act, 0) ==> SlotOf(s, a) != s.acts[act].i
    ensures var x := s.sess[s.acts[act].i]; x.readIo == NoIo && !x.sendIo && !x.discIo && x.closed
    ensures StateOf(s, s.acts[act].i) == DISCONNECTING
  {
    var k := s.acts[act].i;
    HomeLeased(s, act);
    PointerCounted(s, Local(act, 0));
    forall a | Has(s, a) && a != Local(act, 0)
      ensures SlotOf(s, a) != k
    {
      if SlotOf(s, a) == k {
        PinnedByOther(s, a, Local(act, 0));
      }
    }
    assert SlotOk(s, k);
    assert SlotOf(s, ReadOv(k)) == SlotOf(s, WriteOv(k)) == SlotOf(s, DiscOv(k)) == SlotOf(s, Table(k)) == k;
    assert !Has(s, ReadOv(k)) && !Has(s, WriteOv(k)) && !Has(s, DiscOv(k)) && !Has(s, Table(k));
  }

  /** The recycled slot, before the post-release callback starts. */
  ghost function RecycledState(s: State, act: nat, k: nat, pc: Pc): State
    requires Shaped(s) && act < |s.acts| && k < |s.sess|
  {
    s.(pool := Destroy(s.pool, Local(act, 0)), sess := s.sess[k := Cleaned(s.sess[k])], acts := s.acts[act := pc])
  }

  lemma DropsLast(s: State, act: nat, i: nat, pc: Pc)
    requires Inv(s) && act < |s.acts| && LastLocal(s.acts[act], pc, i) && i < |s.sess| && s.pool.refs[i] == 1
    ensures var u := RecycledState(s, act, i, pc);
      && Frame(u) && u.pool.slots == Recycled(s.pool.slots, i) && u.pool.ptrs == s.pool.ptrs - {Local(act, 0)}
      && To(DropLocal(s, Local(act, 0)), act, pc) == u.(acts := u.acts + [PaTop])
  {
    var a := Local(act, 0);
    HomeLeased(s, act);
    PointerCounted(s, a);
    Pinned(s);
    NextIsFresh(s, i);
    DestroyKeeps(s.pool, a);
  }

  lemma OuterLeftLast(s: State, act: nat, i: nat, pc: Pc)
    requires Inv(s) && act < |s.acts| && LastLocal(s.acts[act], pc, i) && i < |s.sess| && s.pool.refs[i] == 1
    ensures var t := To(DropLocal(s, Local(act, 0)), act, pc);
      && Inv(t) && t.pool.slots == Recycled(s.pool.slots, i) && t.acts == s.acts[act := pc] + [PaTop]
      && t.sess == s.sess[i := Cleaned(s.sess[i])]
    ensures !Has(s, ReadOv(i)) && !Has(s, WriteOv(i))
  {
    HomeLeased(s, act);
    LastIsAlone(s, act);
    assert SlotOf(s, ReadOv(i)) == SlotOf(s, WriteOv(i)) == i;
    DropsLast(s, act, i, pc);
    var u := RecycledState(s, act, i, pc);
    RecycleKeeps(s, u, act, pc);
    SpawnKeeps(u);
  }

  lemma RecycleKeeps(s: State, u: State, act: nat, pc: Pc)
    requires Inv(s) && act < |s.acts| && (s.acts[act].PaDrop? || (s.acts[act].Leaving? && !s.acts[act].two))
    requires pc == PaTop || pc == Done
    requires s.acts[act].i < |s.sess| && s.pool.refs[s.acts[act].i] == 1 && Frame(u)
    requires var k := s.acts[act].i;
      && u.sess == s.sess[k := Cleaned(s.sess[k])] && u.acts == s.acts[act := pc] && u.limit == s.limit
      && u.pool.slots == Recycled(s.pool.slots, k) && u.pool.ptrs == s.pool.ptrs - {Local(act, 0)}
    ensures Inv(u)
  {
    var k := s.acts[act].i;
    LastIsAlone(s, act);
    RecyclePointers(s, u, act, pc, k);
    forall i | 0 <= i < |u.sess|
      ensures SlotOk(u, i)
    {
      RecycleSlot(s, u, act, k, i);
    }
    forall b | 0 <= b < |u.acts|
      ensures ActOk(u, b)
    {
      if b != act {
        RecycleOthers(s, u, act, k, b);
      }
    }
    forall a, r, i: nat | 0 <= a < |u.acts| && Tok(u.acts[a], r, i)
      ensures Mine(u, a, r, i) && (i < |u.sess| ==> !Outstanding(u, r, i))
    {
      assert a != act && u.acts[a] == s.acts[a];
      assert Mine(s, a, r, i);
      assert i < |u.sess| ==> !Outstanding(s, r, i);
    }
  }

  lemma RecyclePointers(s: State, u: State, act: nat, pc: Pc, k: nat)
    requires Inv(s) && Shaped(u) && act < |s.acts| && k < |s.sess| == |u.sess| && (pc == PaTop || pc == Done)
    requires forall a :: Has(s, a) && a != Local(act, 0) ==> SlotOf(s, a) != k
    requires s.acts[act].PaDrop? || (s.acts[act].Leaving? && !s.acts[act].two)
    requires u.acts == s.acts[act := pc] && u.pool.slots == Recycled(s.pool.slots, k)
    requires u.pool.ptrs == s.pool.ptrs - {Local(act, 0)}
    ensures PointersCurrent(u) && LocalsHeld(u)
  {
    forall a | a in u.pool.ptrs
      ensures 0 <= SlotOf(u, a) < |u.sess| && u.pool.ptrs[a] == Handle(SlotOf(u, a), u.pool.slots.gens[SlotOf(u, a)])
    {
      assert Has(s, a) && SlotOf(s, a) != k;
      assert SlotOf(u, a) == SlotOf(s, a);
    }
    forall b, n | 0 <= b < |u.acts| && 0 <= n && Holds(u.acts[b], n)
      ensures Has(u, Local(b, n))
    {
      assert b != act && Has(s, Local(b, n));
    }
  }

  lemma RecycleSlot(s: State, u: State, act: nat, k: nat, i: nat)
    requires Inv(s) && Shaped(u) && k < |s.sess| == |u.sess| && i < |s.sess|
    requires forall a :: Has(s, a) && a != Local(act, 0) ==> SlotOf(s, a) != k
    requires u.sess == s.sess[k := Cleaned(s.sess[k])] && u.pool.slots == Recycled(s.pool.slots, k)
    requires u.pool.ptrs == s.pool.ptrs - {Local(act, 0)}
    requires s.sess[k].readIo == NoIo && !s.sess[k].sendIo && !s.sess[k].discIo && s.sess[k].closed
    ensures SlotOk(u, i)
  {
    assert SlotOk(s, i);
    if i == k {
      assert SlotOf(s, WriteOv(k)) == SlotOf(s, DiscOv(k)) == k;
    }
  }

  lemma RecycleOthers(s: State, u: State, act: nat, k: nat, b: nat)
    requires Inv(s) && Shaped(u) && k < |s.sess| == |u.sess| && b < |s.acts| == |u.acts| && b != act
    requires forall a :: Has(s, a) && a != Local(act, 0) ==> SlotOf(s, a) != k
    requires u.sess == s.sess[k := Cleaned(s.sess[k])] && u.pool.slots == Recycled(s.pool.slots, k)
    requires u.pool.ptrs == s.pool.ptrs - {Local(act, 0)}
    requires u.acts[b] == s.acts[b] && u.limit == s.limit
    ensures ActOk(u, b)
  {
    assert ActOk(s, b);
    if Holds(s.acts[b], 0) {
      HomeLeased(s, b);
      assert SlotOf(s, Local(b, 0)) == s.acts[b].i != k;
    }
    forall i | 0 <= i < |s.sess|
      ensures Relied(s, u, s.acts[b], i)
    {
    }
    ReliedSuffices(s, u, b);
  }
}
