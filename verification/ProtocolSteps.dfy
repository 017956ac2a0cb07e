/** Each kind of step keeps the protocol's invariant. */
module ProtocolSteps {
  import opened Handles
  import opened SparseSets
  import opened LeasePool
  import opened SessionProtocol
  import opened ProtocolInvariant

  /** From p to q only counts and pointers moved, and the counts are right again. */
  ghost predicate Repointed(p: Pool<Addr>, q: Pool<Addr>, ptrs: map<Addr, Handle>)
  {
    WF(p) && WF(q) && Ledger(q) && IdleExact(q) && q.slots == p.slots && q.owned == p.owned && q.ptrs == ptrs
  }

  /** Storing a copy of pointer b in an empty place. */
  lemma GainPointer(s: State, a: Addr, b: Addr)
    requires Inv(s) && !Has(s, a) && a != b
    ensures CopyAssign(s.pool, a, b) == CopyConstruct(s.pool, a, b)
    ensures Repointed(s.pool, CopyConstruct(s.pool, a, b),
                      if Has(s, b) then s.pool.ptrs[a := s.pool.ptrs[b]] else s.pool.ptrs)
  {
    CopyConstructKeeps(s.pool, a, b);
    assert !Has(s, b) ==> s.pool.ptrs - {a} == s.pool.ptrs;
  }

  /** GetSession into an empty record of a session with handle h. */
  lemma GainFromTable(s: State, a: Addr, i: nat)
    requires Inv(s) && i < |s.sess| && !Has(s, a) && !a.Table?
    ensures Repointed(s.pool, Embed(s, a, s.sess[i].handle).pool,
                      if StateOf(s, i) != IDLE && Has(s, Table(i)) then s.pool.ptrs[a := s.pool.ptrs[Table(i)]]
                      else s.pool.ptrs)
    ensures StateOf(s, i) == IDLE || !Has(s, Table(i)) ==> Embed(s, a, s.sess[i].handle) == s
  {
    assert SlotOk(s, i);
    GainPointer(s, a, Table(i));
    if StateOf(s, i) == IDLE {
      assert !Live(s.pool.slots, NO_HANDLE);
    }
    assert s.pool.ptrs - {a} == s.pool.ptrs;
  }

  /** Giving up a pointer that is not the last one to its slot. */
  lemma LosePointer(s: State, a: Addr)
    requires Inv(s) && Has(s, a) && s.pool.refs[s.pool.ptrs[a].idx] != 1
    ensures Repointed(s.pool, Reset(s.pool, a), s.pool.ptrs - {a})
    ensures Repointed(s.pool, Destroy(s.pool, a), s.pool.ptrs - {a})
    ensures ResetAt(s, a) == s.(pool := Reset(s.pool, a))
    ensures DropLocal(s, a) == s.(pool := Destroy(s.pool, a))
  {
    Pinned(s);
    PointerCounted(s, a);
    ResetKeepsIff(s.pool, a);
    DestroyKeeps(s.pool, a);
  }

  /** It is not the last one while another pointer names the same slot. */
  lemma PinnedByOther(s: State, a: Addr, b: Addr)
    requires Inv(s) && a != b && Has(s, a) && Has(s, b) && SlotOf(s, a) == SlotOf(s, b)
    ensures Counted(s.pool, a) && s.pool.ptrs[a].idx == SlotOf(s, a) && s.pool.refs[s.pool.ptrs[a].idx] >= 2
  {
    PointerCounted(s, a);
    PointerCounted(s, b);
    SharedIsNotLast(s.pool, a, b);
  }

  // ---------- one activity, one slot ----------

  /** From s to t activity act moved, or was added, and slot k changed. */
  ghost predicate Local1(s: State, t: State, act: nat, k: nat)
  {
    && Shaped(s) && Shaped(t) && act < |t.acts| && k < |s.sess| == |t.sess|
    && t.limit == s.limit
    && (act < |s.acts| ==> t.acts == s.acts[act := t.acts[act]])
    && (act >= |s.acts| ==> t.acts == s.acts + [t.acts[act]])
    && t.sess == s.sess[k := t.sess[k]]
    && t.pool.slots == Moved(s.pool.slots, k, t.pool.slots.states[k])
  }

  ghost predicate Near(a: Addr, act: nat, k: nat)
  {
    if a.Local? then a.act == act else a.i == k
  }

  /** Only pointers of that slot and that activity changed, and those are current. */
  ghost predicate PointersNear(s: State, t: State, act: nat, k: nat)
    requires Local1(s, t, act, k)
  {
    && (forall a :: !Near(a, act, k) ==> (Has(s, a) <==> Has(t, a)) && (Has(s, a) ==> t.pool.ptrs[a] == s.pool.ptrs[a]))
    && (forall a :: Near(a, act, k) && Has(t, a) ==>
          0 <= SlotOf(t, a) < |t.sess| && t.pool.ptrs[a] == Handle(SlotOf(t, a), t.pool.slots.gens[SlotOf(t, a)]))
    && (forall n :: 0 <= n && Holds(t.acts[act], n) ==> Has(t, Local(act, n)))
  }

  /** What others rely on about slot k changed only where this activity has the record. */
  ghost predicate Gentle(s: State, t: State, act: nat, k: nat)
    requires Local1(s, t, act, k)
  {
    var x, y := s.sess[k], t.sess[k];
    && (forall r :: (Has(s, RecordAddr(r, k)) <==> Has(t, RecordAddr(r, k))) || Mine(s, act, r, k))
    && (x.closed && StateOf(s, k) != IDLE ==> y.closed)
    && (x.closed == y.closed || StateOf(s, k) == IDLE || Mine(s, act, DiscRec, k))
    && (x.discCalls == y.discCalls || Mine(s, act, DiscRec, k))
    && ((x.sending ==> y.sending) || Mine(s, act, WriteRec, k))
    && ((x.writeLock ==> y.writeLock) || Mine(s, act, WriteRec, k))
    && (StateOf(s, k) == DISCONNECTING ==> StateOf(t, k) == DISCONNECTING)
  }

  /** Records the activity goes on with are free, and operations it posts are the only users. */
  ghost predicate TokensKept(s: State, t: State, act: nat, k: nat)
    requires Local1(s, t, act, k)
  {
    && (forall r, i: nat :: Tok(t.acts[act], r, i) ==> Mine(s, act, r, i) && (i < |t.sess| ==> !Outstanding(t, r, i)))
    && (forall r :: Outstanding(t, r, k) ==> Outstanding(s, r, k) || Mine(s, act, r, k))
  }

  lemma TokIsMine(s: State, act: nat, r: Record, k: nat)
    requires Inv(s) && act < |s.acts| && Tok(s.acts[act], r, k)
    ensures Mine(s, act, r, k)
  {
  }

  /** What an activity at pc relies on about slot i. */
  ghost predicate Relied(s: State, t: State, pc: Pc, i: nat)
    requires Shaped(s) && Shaped(t) && i < |s.sess| == |t.sess|
  {
    && (forall r :: Tok(pc, r, i) ==> (Has(s, RecordAddr(r, i)) <==> Has(t, RecordAddr(r, i))))
    && (Tok(pc, WriteRec, i) && s.sess[i].writeLock ==> t.sess[i].writeLock)
    && (Home(pc, i) ==>
          && (s.sess[i].closed ==> t.sess[i].closed)
          && (Tok(pc, DiscRec, i) ==>
                s.sess[i].closed == t.sess[i].closed && s.sess[i].discCalls == t.sess[i].discCalls)
          && (Tok(pc, WriteRec, i) && s.sess[i].sending ==> t.sess[i].sending)
          && (StateOf(s, i) == DISCONNECTING ==> StateOf(t, i) == DISCONNECTING))
  }

  lemma ReliedKept(s: State, t: State, act: nat, k: nat, b: nat, i: nat)
    requires Inv(s) && Local1(s, t, act, k) && PointersNear(s, t, act, k) && Gentle(s, t, act, k)
    requires b < |s.acts| && b != act && i < |s.sess|
    ensures Relied(s, t, s.acts[b], i)
  {
    var pc := s.acts[b];
    if Holds(pc, 0) {
      HomeLeased(s, b);
    }
    forall r | Tok(pc, r, i)
      ensures Has(s, RecordAddr(r, i)) <==> Has(t, RecordAddr(r, i))
    {
      if i == k {
        assert !Mine(s, act, r, k);
      } else {
        assert !Near(RecordAddr(r, i), act, k);
      }
    }
  }

  lemma ReliedSuffices(s: State, t: State, b: nat)
    requires Shaped(s) && Shaped(t) && |s.sess| == |t.sess| && s.limit == t.limit
    requires b < |s.acts| && b < |t.acts| && t.acts[b] == s.acts[b] && ActOk(s, b)
    requires forall i :: 0 <= i < |s.sess| ==> Relied(s, t, s.acts[b], i)
    ensures ActOk(t, b)
  {
    var pc := s.acts[b];
    if !(pc.PaTop? || pc.PaCas? || pc.PaReserved? || pc.Done?) {
      assert Relied(s, t, pc, pc.i);
      if pc.Sending? {
        assert Relied(s, t, pc, pc.j);
        assert Tok(pc, WriteRec, pc.j) && RecordAddr(WriteRec, pc.j) == WriteOv(pc.j);
      }
      assert RecordAddr(ReadRec, pc.i) == ReadOv(pc.i) && RecordAddr(WriteRec, pc.i) == WriteOv(pc.i);
      assert RecordAddr(DiscRec, pc.i) == DiscOv(pc.i);
    }
  }

  lemma OthersOk(s: State, t: State, act: nat, k: nat, b: nat)
    requires Inv(s) && Local1(s, t, act, k) && PointersNear(s, t, act, k) && Gentle(s, t, act, k)
    requires b < |s.acts| && b != act
    ensures ActOk(t, b)
  {
    forall i | 0 <= i < |s.sess|
      ensures Relied(s, t, s.acts[b], i)
    {
      ReliedKept(s, t, act, k, b, i);
    }
    assert ActOk(s, b);
    ReliedSuffices(s, t, b);
  }

  lemma PointersTransfer(s: State, t: State, act: nat, k: nat)
    requires Inv(s) && Local1(s, t, act, k) && PointersNear(s, t, act, k)
    ensures PointersCurrent(t) && LocalsHeld(t)
  {
    forall a | a in t.pool.ptrs
      ensures 0 <= SlotOf(t, a) < |t.sess| && t.pool.ptrs[a] == Handle(SlotOf(t, a), t.pool.slots.gens[SlotOf(t, a)])
    {
      assert Near(a, act, k) || (Has(s, a) && SlotOf(s, a) == SlotOf(t, a));
    }
    forall b, n | 0 <= b < |t.acts| && 0 <= n && Holds(t.acts[b], n)
      ensures Has(t, Local(b, n))
    {
      assert b != act ==> Has(s, Local(b, n)) && !Near(Local(b, n), act, k);
    }
  }

  lemma SlotsTransfer(s: State, t: State, act: nat, k: nat, i: nat)
    requires Inv(s) && Local1(s, t, act, k) && PointersNear(s, t, act, k) && i < |t.sess| && i != k
    ensures SlotOk(t, i)
  {
    assert SlotOk(s, i);
    assert forall a: Addr :: !a.Local? && a.i == i ==> (Has(s, a) <==> Has(t, a));
    assert Has(s, ReadOv(i)) <==> Has(t, ReadOv(i));
    assert Has(s, WriteOv(i)) <==> Has(t, WriteOv(i));
    assert Has(s, DiscOv(i)) <==> Has(t, DiscOv(i));
    assert Has(s, Table(i)) <==> Has(t, Table(i));
  }

  lemma ExclusiveTransfer(s: State, t: State, act: nat, k: nat)
    requires Inv(s) && Local1(s, t, act, k) && TokensKept(s, t, act, k)
    ensures Exclusive(t)
  {
    forall a, r, i: nat | 0 <= a < |t.acts| && Tok(t.acts[a], r, i)
      ensures Mine(t, a, r, i) && (i < |t.sess| ==> !Outstanding(t, r, i))
    {
      forall b | 0 <= b < |t.acts| && b != a
        ensures !Tok(t.acts[b], r, i)
      {
        assert b != act ==> t.acts[b] == s.acts[b];
        assert a != act ==> t.acts[a] == s.acts[a] && Mine(s, a, r, i);
        assert b == act && Tok(t.acts[act], r, i) ==> Mine(s, act, r, i);
      }
      if a != act && i < |t.sess| {
        assert t.acts[a] == s.acts[a] && !Outstanding(s, r, i);
        assert i != k ==> t.sess[i] == s.sess[i];
      }
    }
  }

  /** A step that is local in this sense keeps the invariant. */
  lemma Transfer(s: State, t: State, act: nat, k: nat)
    requires Inv(s) && Frame(t) && Local1(s, t, act, k)
    requires PointersNear(s, t, act, k) && Gentle(s, t, act, k) && TokensKept(s, t, act, k)
    requires SlotOk(t, k) && ActOk(t, act)
    ensures Inv(t)
  {
    PointersTransfer(s, t, act, k);
    ExclusiveTransfer(s, t, act, k);
    forall i | 0 <= i < |t.sess|
      ensures SlotOk(t, i)
    {
      if i != k {
        SlotsTransfer(s, t, act, k, i);
      }
    }
    forall b | 0 <= b < |t.acts|
      ensures ActOk(t, b)
    {
      if b != act {
        OthersOk(s, t, act, k, b);
      }
    }
  }
}
