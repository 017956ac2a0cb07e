/** Reference-counted leases: the pool together with every counted pointer in memory.
    A pointer variable is known by its address; a null pointer is an address without an entry.
    `owned[i]` lists the pointers stored inside the object of slot i, which the pool's deleter
    resets when the last reference to the slot is released. */
module LeasePool {
  import opened Handles
  import opened SparseSets

  const COUNT_MAX: nat := WORD * WORD - 1

  datatype Pool<A> = Pool(slots: Slots, refs: seq<nat>, ptrs: map<A, Handle>, owned: seq<seq<A>>)

  ghost predicate WF<A>(p: Pool<A>)
  {
    WellFormed(p.slots) && |p.refs| == |p.owned| == |p.slots.states|
  }

  // ---------- the operations ----------

  ghost predicate Counted<A>(p: Pool<A>, a: A)
  {
    a in p.ptrs && Live(p.slots, p.ptrs[a])
  }

  ghost function AddRef<A>(p: Pool<A>, h: Handle): (r: Pool<A>)
    requires WF(p)
    ensures WF(r)
  {
    if Live(p.slots, h) then p.(refs := p.refs[h.idx := p.refs[h.idx] + 1]) else p
  }

  /** fetch_sub(1) on an unsigned 64-bit counter. */
  ghost function DecRef<A>(p: Pool<A>, i: nat): (r: Pool<A>)
    requires WF(p) && i < |p.refs|
    ensures WF(r)
  {
    p.(refs := p.refs[i := if p.refs[i] == 0 then COUNT_MAX else p.refs[i] - 1])
  }

  /** The deleter's Reset of a pointer that pins the very slot being deleted: the count is
      already zero, so this decrement cannot be another last release. */
  ghost function InnerReset<A>(p: Pool<A>, a: A): (r: Pool<A>)
    requires WF(p)
    ensures WF(r) && r.slots == p.slots && r.owned == p.owned
  {
    if Counted(p, a) then DecRef(p, p.ptrs[a].idx).(ptrs := p.ptrs - {a}) else p
  }

  ghost function InnerResets<A>(p: Pool<A>, inside: seq<A>): (r: Pool<A>)
    requires WF(p)
    ensures WF(r) && r.slots == p.slots && r.owned == p.owned
    decreases |inside|
  {
    if inside == [] then p else InnerResets(InnerReset(p, inside[0]), inside[1..])
  }

  /** Whether releasing this handle takes the count from one to zero. */
  ghost predicate Last<A>(p: Pool<A>, h: Handle)
    requires WF(p)
  {
    Live(p.slots, h) && p.refs[h.idx] == 1
  }

  ghost function ReleaseRef<A>(p: Pool<A>, h: Handle): (r: Pool<A>)
    requires WF(p)
    ensures WF(r)
  {
    if !Live(p.slots, h) then p
    else if p.refs[h.idx] == 1 then
      var q := InnerResets(DecRef(p, h.idx), p.owned[h.idx]);
      q.(slots := Recycled(q.slots, h.idx))
    else DecRef(p, h.idx)
  }

  /** Construction from a pool and a handle. */
  ghost function Adopt<A>(p: Pool<A>, a: A, h: Handle): (r: Pool<A>)
    requires WF(p)
    ensures WF(r)
  {
    AddRef(p.(ptrs := p.ptrs[a := h]), h)
  }

  ghost function CopyConstruct<A>(p: Pool<A>, a: A, b: A): (r: Pool<A>)
    requires WF(p)
    ensures WF(r)
  {
    if b in p.ptrs then Adopt(p, a, p.ptrs[b]) else p.(ptrs := p.ptrs - {a})
  }

  ghost function CopyAssign<A>(p: Pool<A>, a: A, b: A): (r: Pool<A>)
    requires WF(p)
    ensures WF(r)
  {
    if a == b then p
    else
      var q := CopyConstruct(p, a, b);
      if a in p.ptrs then ReleaseRef(q, p.ptrs[a]) else q
  }

  ghost function MoveConstruct<A>(p: Pool<A>, a: A, b: A): (r: Pool<A>)
    requires WF(p)
    ensures WF(r)
  {
    if b in p.ptrs then p.(ptrs := (p.ptrs - {b})[a := p.ptrs[b]]) else p.(ptrs := p.ptrs - {a})
  }

  ghost function MoveAssign<A>(p: Pool<A>, a: A, b: A): (r: Pool<A>)
    requires WF(p)
    ensures WF(r)
  {
    if a == b then p
    else MoveConstruct(if a in p.ptrs then ReleaseRef(p, p.ptrs[a]) else p, a, b)
  }

  ghost function Destroy<A>(p: Pool<A>, a: A): (r: Pool<A>)
    requires WF(p)
    ensures WF(r)
  {
    var q := if Counted(p, a) then ReleaseRef(p, p.ptrs[a]) else p;
    q.(ptrs := q.ptrs - {a})
  }

  /** Reset leaves the pointer as it is, now stale, when it was the last one. */
  ghost function Reset<A>(p: Pool<A>, a: A): (r: Pool<A>)
    requires WF(p)
    ensures WF(r)
  {
    if !Counted(p, a) then p
    else
      var q := ReleaseRef(p, p.ptrs[a]);
      if Last(p, p.ptrs[a]) then q else q.(ptrs := q.ptrs - {a})
  }

  /** Acquire, once the slot set has chosen an idle slot. */
  ghost function Acquire<A>(p: Pool<A>, a: A, i: Word32, state: nat): (r: Pool<A>)
    requires WF(p) && i < |p.refs|
    ensures WF(r)
  {
    Adopt(p.(slots := Moved(p.slots, i, state)), a, Handle(i, p.slots.gens[i]))
  }

  // ---------- the ledger ----------

  ghost function Owners<A>(p: Pool<A>, i: nat): (s: set<A>)
    requires WF(p) && i < |p.refs|
  {
    set a | a in p.ptrs && p.ptrs[a] == Handle(i, p.slots.gens[i])
  }

  /** Every count is the number of pointers in memory whose handle is live for that slot;
      slot `over`, if it is one, is counted once more than that. */
  ghost predicate Counts<A>(p: Pool<A>, over: int)
    requires WF(p)
  {
    forall i :: 0 <= i < |p.refs| ==> p.refs[i] == |Owners(p, i)| + (if i == over then 1 else 0)
  }

  ghost predicate Ledger<A>(p: Pool<A>)
    requires WF(p)
  {
    Counts(p, -1)
  }

  ghost predicate IdleExact<A>(p: Pool<A>)
    requires WF(p)
  {
    forall i :: 0 <= i < |p.refs| ==> (p.slots.states[i] == 0 <==> p.refs[i] == 0)
  }

  /** No pointer already carries the handle that the next lease of slot i will get. */
  ghost predicate NextFresh<A>(p: Pool<A>, i: nat)
    requires WF(p) && i < |p.refs|
  {
    forall a :: a in p.ptrs ==> p.ptrs[a] != Handle(i, NextGen(p.slots.gens[i]))
  }

  /** Pointers stored inside a pooled object pin that object's own slot. */
  ghost predicate SelfPinned<A>(p: Pool<A>)
    requires WF(p)
  {
    forall i, k :: 0 <= i < |p.owned| && 0 <= k < |p.owned[i]| && Counted(p, p.owned[i][k])
      ==> p.ptrs[p.owned[i][k]].idx == i
  }

  lemma {:induction false} InnerResetsIdle<A>(p: Pool<A>, inside: seq<A>)
    requires WF(p) && forall k :: 0 <= k < |inside| ==> !Counted(p, inside[k])
    ensures InnerResets(p, inside) == p
  {
    if inside != [] {
      assert !Counted(p, inside[0]);
      InnerResetsIdle(p, inside[1..]);
    }
  }

  lemma OwnedPins<A>(p: Pool<A>, i: nat, k: nat)
    requires WF(p) && SelfPinned(p) && i < |p.owned| && k < |p.owned[i]|
    ensures Counted(p, p.owned[i][k]) ==> p.owned[i][k] in Owners(p, i)
  {
  }

  /** Two pointers to one slot: neither release alone can be the last. */
  lemma SharedIsNotLast<A>(p: Pool<A>, a: A, b: A)
    requires WF(p) && Ledger(p) && a != b
    requires Counted(p, a) && Counted(p, b) && p.ptrs[a].idx == p.ptrs[b].idx
    ensures p.refs[p.ptrs[a].idx] >= 2
  {
    var i := p.ptrs[a].idx;
    assert {a, b} <= Owners(p, i);
    assert Owners(p, i) == (Owners(p, i) - {a, b}) + {a, b};
  }

  lemma CountedHasRef<A>(p: Pool<A>, a: A)
    requires WF(p) && Ledger(p) && Counted(p, a)
    ensures p.refs[p.ptrs[a].idx] >= 1
  {
    assert a in Owners(p, p.ptrs[a].idx);
  }

  lemma SetPointer<A>(p: Pool<A>, a: A, h: Handle, i: nat)
    requires WF(p) && i < |p.refs|
    ensures var q := p.(ptrs := p.ptrs[a := h]);
      Owners(q, i) == if h == Handle(i, p.slots.gens[i]) then Owners(p, i) + {a} else Owners(p, i) - {a}
  {
  }

  lemma DropPointer<A>(p: Pool<A>, a: A, i: nat)
    requires WF(p) && i < |p.refs|
    ensures Owners(p.(ptrs := p.ptrs - {a}), i) == Owners(p, i) - {a}
  {
  }

  /** Taking a counted pointer out of memory leaves its slot counted once too often. */
  lemma ForgetLeavesSurplus<A>(p: Pool<A>, a: A)
    requires WF(p) && Ledger(p)
    ensures Counts(p.(ptrs := p.ptrs - {a}), if Counted(p, a) then p.ptrs[a].idx else -1)
  {
    var q := p.(ptrs := p.ptrs - {a});
    forall i | 0 <= i < |q.refs|
      ensures q.refs[i] == |Owners(q, i)| + (if i == (if Counted(p, a) then p.ptrs[a].idx else -1) then 1 else 0)
    {
      DropPointer(p, a, i);
      assert a in Owners(p, i) <==> Counted(p, a) && p.ptrs[a].idx == i;
    }
  }

  /** Copying a handle into an empty pointer. */
  lemma AdoptKeeps<A>(p: Pool<A>, a: A, h: Handle, over: int)
    requires WF(p) && Counts(p, over) && !Counted(p, a)
    ensures Counts(Adopt(p, a, h), over)
  {
    var q := Adopt(p, a, h);
    var m := p.(ptrs := p.ptrs[a := h]);
    forall i | 0 <= i < |q.refs|
      ensures q.refs[i] == |Owners(q, i)| + (if i == over then 1 else 0)
    {
      SetPointer(p, a, h, i);
      assert a !in Owners(p, i);
      assert Owners(q, i) == Owners(m, i);
    }
  }

  /** Giving back the surplus reference of a slot settles the ledger; when it is the last one the
      slot turns idle and its generation moves on, and the deleter finds nothing left to reset. */
  lemma ReleaseSettles<A>(p: Pool<A>, h: Handle)
    requires WF(p) && Live(p.slots, h) && Counts(p, h.idx) && SelfPinned(p)
    requires p.refs[h.idx] == 1 ==> NextFresh(p, h.idx)
    ensures Ledger(ReleaseRef(p, h))
    ensures ReleaseRef(p, h) ==
      if p.refs[h.idx] == 1 then p.(refs := p.refs[h.idx := 0], slots := Recycled(p.slots, h.idx))
      else p.(refs := p.refs[h.idx := p.refs[h.idx] - 1])
  {
    var i := h.idx;
    var d := DecRef(p, i);
    assert forall j :: 0 <= j < |p.refs| ==> Owners(d, j) == Owners(p, j);
    if p.refs[i] == 1 {
      assert |Owners(p, i)| == 0;
      forall k | 0 <= k < |p.owned[i]|
        ensures !Counted(d, p.owned[i][k])
      {
        var a := p.owned[i][k];
        assert Counted(d, a) <==> Counted(p, a);
        OwnedPins(p, i, k);
      }
      InnerResetsIdle(d, p.owned[i]);
      var q := ReleaseRef(p, h);
      assert q == d.(slots := Recycled(d.slots, i));
      assert Owners(q, i) == {};
      assert forall j :: 0 <= j < |p.refs| && j != i ==> Owners(q, j) == Owners(p, j);
    }
  }

  // ---------- what each pointer operation keeps ----------

  lemma AcquireKeeps<A>(p: Pool<A>, a: A, i: Word32, state: nat)
    requires WF(p) && Ledger(p) && i < |p.refs| && p.refs[i] == 0 && !Counted(p, a)
    ensures Ledger(Acquire(p, a, i, state))
    ensures IdleExact(p) && state > 0 ==> IdleExact(Acquire(p, a, i, state))
    ensures Acquire(p, a, i, state) ==
      Pool(Moved(p.slots, i, state), p.refs[i := 1], p.ptrs[a := Handle(i, p.slots.gens[i])], p.owned)
  {
    var m := p.(slots := Moved(p.slots, i, state));
    assert forall j :: 0 <= j < |p.refs| ==> Owners(m, j) == Owners(p, j);
    AdoptKeeps(m, a, Handle(i, p.slots.gens[i]), -1);
  }

  /** All pointers but a and b are as before. */
  ghost predicate OthersKept<A>(p: Pool<A>, r: Pool<A>, a: A, b: A)
  {
    r.ptrs - {a, b} == p.ptrs - {a, b}
  }

  /** a names what b named, and b still does. */
  ghost predicate PointerCopied<A>(p: Pool<A>, r: Pool<A>, a: A, b: A)
  {
    && OthersKept(p, r, a, b) && (b in r.ptrs <==> b in p.ptrs) && (a in r.ptrs <==> b in p.ptrs)
    && (b in p.ptrs ==> r.ptrs[a] == p.ptrs[b] && r.ptrs[b] == p.ptrs[b])
  }

  /** a names what b named, and b is null. */
  ghost predicate PointerMoved<A>(p: Pool<A>, r: Pool<A>, a: A, b: A)
  {
    && OthersKept(p, r, a, b) && b !in r.ptrs && (a in r.ptrs <==> b in p.ptrs)
    && (b in p.ptrs ==> r.ptrs[a] == p.ptrs[b])
  }

  lemma SelfAssignment<A>(p: Pool<A>, a: A)
    requires WF(p)
    ensures CopyAssign(p, a, a) == p && MoveAssign(p, a, a) == p
  {
  }

  lemma CopyConstructKeeps<A>(p: Pool<A>, a: A, b: A)
    requires WF(p) && Ledger(p) && a !in p.ptrs
    ensures a != b ==> PointerCopied(p, CopyConstruct(p, a, b), a, b)
    ensures Ledger(CopyConstruct(p, a, b))
    ensures IdleExact(p) ==> IdleExact(CopyConstruct(p, a, b))
  {
    if b in p.ptrs {
      AdoptKeeps(p, a, p.ptrs[b], -1);
      if Counted(p, b) {
        CountedHasRef(p, b);
      }
    } else {
      assert p.ptrs - {a} == p.ptrs;
    }
  }

  lemma CopyAssignKeeps<A>(p: Pool<A>, a: A, b: A)
    requires WF(p) && Ledger(p) && a != b
    requires SelfPinned(CopyConstruct(p, a, b))
    requires a in p.ptrs && Last(CopyConstruct(p, a, b), p.ptrs[a]) ==>
      NextFresh(CopyConstruct(p, a, b), p.ptrs[a].idx)
    ensures PointerCopied(p, CopyAssign(p, a, b), a, b)
    ensures Ledger(CopyAssign(p, a, b))
    ensures IdleExact(p) ==> IdleExact(CopyAssign(p, a, b))
  {
    var cleared := p.(ptrs := p.ptrs - {a});
    var over := if Counted(p, a) then p.ptrs[a].idx else -1;
    ForgetLeavesSurplus(p, a);
    var q := CopyConstruct(p, a, b);
    if b in p.ptrs {
      AdoptKeeps(cleared, a, p.ptrs[b], over);
      assert p.ptrs[a := p.ptrs[b]] == cleared.ptrs[a := p.ptrs[b]];
      assert q == Adopt(cleared, a, p.ptrs[b]);
      if Counted(p, b) {
        CountedHasRef(p, b);
      }
    }
    assert Counts(q, over);
    if Counted(p, a) {
      CountedHasRef(p, a);
      ReleaseSettles(q, p.ptrs[a]);
    }
  }

  /** Releasing a counted pointer and taking it out of memory is the same, in either order,
      unless it is the last one and lives inside the object being deleted. */
  lemma ReleaseThenForget<A>(p: Pool<A>, a: A)
    requires WF(p) && Ledger(p) && SelfPinned(p) && Counted(p, a)
    requires Last(p, p.ptrs[a]) ==> a !in p.owned[p.ptrs[a].idx]
    ensures var cleared := p.(ptrs := p.ptrs - {a});
      var q := ReleaseRef(p, p.ptrs[a]);
      && Counts(cleared, p.ptrs[a].idx) && SelfPinned(cleared)
      && q.(ptrs := q.ptrs - {a}) == ReleaseRef(cleared, p.ptrs[a])
      && q.ptrs == p.ptrs
  {
    var i := p.ptrs[a].idx;
    var cleared := p.(ptrs := p.ptrs - {a});
    ForgetLeavesSurplus(p, a);
    if p.refs[i] == 1 {
      LastIsOnlyOwner(p, a);
      forall k | 0 <= k < |p.owned[i]|
        ensures !Counted(DecRef(p, i), p.owned[i][k]) && !Counted(DecRef(cleared, i), p.owned[i][k])
      {
        var b := p.owned[i][k];
        assert Counted(DecRef(p, i), b) ==> Counted(p, b);
        OwnedPins(p, i, k);
      }
      InnerResetsIdle(DecRef(p, i), p.owned[i]);
      InnerResetsIdle(DecRef(cleared, i), p.owned[i]);
    }
  }

  lemma LastIsOnlyOwner<A>(p: Pool<A>, a: A)
    requires WF(p) && Ledger(p) && Counted(p, a) && p.refs[p.ptrs[a].idx] == 1
    ensures Owners(p, p.ptrs[a].idx) == {a}
  {
    var s := Owners(p, p.ptrs[a].idx);
    assert s == (s - {a}) + {a};
    assert |s - {a}| == 0;
  }

  /** A counted pointer gone, its reference given back, the slot recycled if it was the last. */
  ghost function Dropped<A>(p: Pool<A>, a: A): (r: Pool<A>)
    requires WF(p) && Counted(p, a)
  {
    var i := p.ptrs[a].idx;
    var q := DecRef(p, i).(ptrs := p.ptrs - {a});
    if p.refs[i] == 1 then q.(slots := Recycled(p.slots, i)) else q
  }

  lemma DestroyKeeps<A>(p: Pool<A>, a: A)
    requires WF(p) && Ledger(p) && SelfPinned(p)
    requires Counted(p, a) && Last(p, p.ptrs[a]) ==>
      a !in p.owned[p.ptrs[a].idx] && NextFresh(p, p.ptrs[a].idx)
    ensures Ledger(Destroy(p, a)) && Destroy(p, a).ptrs == p.ptrs - {a}
    ensures IdleExact(p) ==> IdleExact(Destroy(p, a))
    ensures Counted(p, a) ==> Destroy(p, a) == Dropped(p, a)
  {
    ForgetLeavesSurplus(p, a);
    if Counted(p, a) {
      CountedHasRef(p, a);
      ReleaseThenForget(p, a);
      ReleaseSettles(p.(ptrs := p.ptrs - {a}), p.ptrs[a]);
    }
  }

  lemma MoveAssignKeeps<A>(p: Pool<A>, a: A, b: A)
    requires WF(p) && Ledger(p) && SelfPinned(p) && a != b
    requires Counted(p, a) && Last(p, p.ptrs[a]) ==>
      a !in p.owned[p.ptrs[a].idx] && NextFresh(p, p.ptrs[a].idx)
    ensures PointerMoved(p, MoveAssign(p, a, b), a, b)
    ensures Ledger(MoveAssign(p, a, b))
    ensures IdleExact(p) ==> IdleExact(MoveAssign(p, a, b))
  {
    var q := if a in p.ptrs then ReleaseRef(p, p.ptrs[a]) else p;
    var d := Destroy(p, a);
    DestroyKeeps(p, a);
    if Counted(p, a) {
      ReleaseThenForget(p, a);
    }
    assert d == q.(ptrs := q.ptrs - {a});
    MoveConstructKeeps(d, a, b);
    if b in q.ptrs {
      assert (q.ptrs - {b})[a := q.ptrs[b]] == (d.ptrs - {b})[a := d.ptrs[b]];
    } else {
      assert d.ptrs - {a} == q.ptrs - {a};
    }
  }

  lemma MoveConstructMoves<A>(p: Pool<A>, a: A, b: A)
    requires WF(p) && a != b
    ensures PointerMoved(p, MoveConstruct(p, a, b), a, b)
  {
  }

  lemma OwnersMoved<A>(p: Pool<A>, a: A, b: A, i: nat)
    requires WF(p) && a !in p.ptrs && i < |p.refs|
    ensures |Owners(MoveConstruct(p, a, b), i)| == |Owners(p, i)|
  {
    var owners, moved := Owners(p, i), Owners(MoveConstruct(p, a, b), i);
    assert a !in owners;
    if b in owners {
      assert moved == owners - {b} + {a};
    } else {
      assert moved == owners;
    }
  }

  /** Moving into fresh storage. */
  lemma MoveConstructKeeps<A>(p: Pool<A>, a: A, b: A)
    requires WF(p) && Ledger(p) && a !in p.ptrs
    ensures a != b ==> PointerMoved(p, MoveConstruct(p, a, b), a, b)
    ensures Ledger(MoveConstruct(p, a, b))
    ensures IdleExact(p) ==> IdleExact(MoveConstruct(p, a, b))
  {
    if a != b {
      MoveConstructMoves(p, a, b);
    }
    forall i | 0 <= i < |p.refs|
      ensures |Owners(MoveConstruct(p, a, b), i)| == |Owners(p, i)|
    {
      OwnersMoved(p, a, b, i);
    }
  }

  /** CreateSession acquires into a local and moves the lease to the table: as if acquired there. */
  lemma AcquireThenMove<A>(p: Pool<A>, table: A, local: A, i: Word32, state: nat)
    requires WF(p) && i < |p.refs| && table != local && table !in p.ptrs && local !in p.ptrs
    ensures MoveAssign(Acquire(p, local, i, state), table, local) == Acquire(p, table, i, state)
  {
    var h := Handle(i, p.slots.gens[i]);
    assert (p.ptrs[local := h] - {local})[table := h] == p.ptrs[table := h];
  }

  lemma {:induction false} InnerResetsWrap<A>(p: Pool<A>, a: A, inside: seq<A>)
    requires WF(p) && Counted(p, a) && p.refs[p.ptrs[a].idx] == 0 && a in inside
    requires forall k :: 0 <= k < |inside| && inside[k] != a ==> !Counted(p, inside[k])
    ensures InnerResets(p, inside) == p.(refs := p.refs[p.ptrs[a].idx := COUNT_MAX], ptrs := p.ptrs - {a})
    decreases |inside|
  {
    assert inside[0] == a || !Counted(p, inside[0]);
    if inside[0] == a {
      var q := InnerReset(p, a);
      forall k | 0 <= k < |inside[1..]|
        ensures !Counted(q, inside[1..][k])
      {
        assert inside[1..][k] == inside[k + 1];
      }
      InnerResetsIdle(q, inside[1..]);
    } else {
      InnerResetsWrap(p, a, inside[1..]);
    }
  }

  /** Reset keeps the ledger exactly when it is not the last release of a pointer that lives inside
      the object it pins. In that case the deleter resets the same pointer again, and the counter
      of the now idle slot is left at 2^64 - 1. */
  lemma ResetKeepsIff<A>(p: Pool<A>, a: A)
    requires WF(p) && Ledger(p) && SelfPinned(p)
    requires Counted(p, a) && Last(p, p.ptrs[a]) ==> NextFresh(p, p.ptrs[a].idx)
    ensures Ledger(Reset(p, a)) <==>
      !(Counted(p, a) && Last(p, p.ptrs[a]) && a in p.owned[p.ptrs[a].idx])
    ensures Ledger(Reset(p, a)) && IdleExact(p) ==> IdleExact(Reset(p, a))
    ensures !Ledger(Reset(p, a)) ==> Reset(p, a).refs[p.ptrs[a].idx] == COUNT_MAX && a !in Reset(p, a).ptrs
    ensures Counted(p, a) && !Last(p, p.ptrs[a]) ==> Reset(p, a) == Dropped(p, a)
    ensures !Counted(p, a) ==> Reset(p, a) == p
    ensures Counted(p, a) && Last(p, p.ptrs[a]) && Ledger(Reset(p, a)) ==>
      Reset(p, a) == Dropped(p, a).(ptrs := p.ptrs)
  {
    if Counted(p, a) {
      var i := p.ptrs[a].idx;
      CountedHasRef(p, a);
      if !Last(p, p.ptrs[a]) {
        DestroyKeeps(p, a);
      } else {
        LastIsOnlyOwner(p, a);
        if a in p.owned[i] {
          ResetLastInside(p, a);
        } else {
          DestroyKeeps(p, a);
          ReleaseThenForget(p, a);
          var q := Reset(p, a);
          assert forall j :: 0 <= j < |q.refs| ==> Owners(q, j) == Owners(Destroy(p, a), j);
        }
      }
    }
  }

  lemma ResetLastInside<A>(p: Pool<A>, a: A)
    requires WF(p) && Ledger(p) && SelfPinned(p)
    requires Counted(p, a) && Last(p, p.ptrs[a]) && a in p.owned[p.ptrs[a].idx]
    requires NextFresh(p, p.ptrs[a].idx)
    ensures var q := Reset(p, a);
      q.refs[p.ptrs[a].idx] == COUNT_MAX && a !in q.ptrs && !Ledger(q)
  {
    var i := p.ptrs[a].idx;
    var d := DecRef(p, i);
    LastIsOnlyOwner(p, a);
    forall k | 0 <= k < |p.owned[i]| && p.owned[i][k] != a
      ensures !Counted(d, p.owned[i][k])
    {
      var b := p.owned[i][k];
      assert Counted(d, b) <==> Counted(p, b);
      OwnedPins(p, i, k);
    }
    InnerResetsWrap(d, a, p.owned[i]);
    assert Owners(Reset(p, a), i) == {};
  }
}
