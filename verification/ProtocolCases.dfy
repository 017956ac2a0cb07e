/** The steps of the protocol, case by case. */
module ProtocolCases {
  import opened Handles
  import opened SparseSets
  import opened LeasePool
  import opened SessionProtocol
  import opened ProtocolInvariant
  import opened ProtocolSteps

  ghost predicate SameLocals(from: Pc, to: Pc)
  {
    && (forall n: nat :: Holds(from, n) <==> Holds(to, n))
    && (Holds(from, 0) ==> from.i == to.i)
  }

  /** The activity keeps its locals, and every record it goes on with it already had. */
  ghost predicate Continues(from: Pc, to: Pc)
  {
    && SameLocals(from, to)
    && (forall r, i: nat :: Tok(to, r, i) ==> Tok(from, r, i))
  }

  lemma HoldsOuter(pc: Pc, n: nat)
    requires Holds(pc, n)
    ensures Holds(pc, 0)
  {
  }

  /** At most the pointer at `a`, of slot k, came or went. */
  ghost predicate OnePointer(s: State, t: State, a: Addr, k: nat)
    requires Shaped(s) && k < |s.sess|
  {
    && !a.Local? && a.i == k
    && (forall b :: b != a ==> (Has(s, b) <==> Has(t, b)) && (Has(s, b) ==> t.pool.ptrs[b] == s.pool.ptrs[b]))
    && (Has(t, a) ==> t.pool.ptrs[a] == Handle(k, s.pool.slots.gens[k]))
  }

  lemma OnePointerNear(s: State, t: State, act: nat, k: nat, a: Addr)
    requires Inv(s) && act < |s.acts| && Local1(s, t, act, k) && OnePointer(s, t, a, k)
    requires SameLocals(s.acts[act], t.acts[act])
    ensures PointersNear(s, t, act, k)
  {
    forall b | Near(b, act, k) && Has(t, b)
      ensures 0 <= SlotOf(t, b) < |t.sess| && t.pool.ptrs[b] == Handle(SlotOf(t, b), t.pool.slots.gens[SlotOf(t, b)])
    {
      if b != a {
        assert Has(s, b);
        if b.Local? && Holds(s.acts[act], b.k) {
          HoldsOuter(s.acts[act], b.k);
        }
        assert SlotOf(s, b) == SlotOf(t, b);
      }
    }
  }

  lemma ContinuesTokens(s: State, t: State, act: nat, k: nat)
    requires Inv(s) && act < |s.acts| && Local1(s, t, act, k)
    requires Continues(s.acts[act], t.acts[act])
    requires forall r :: Outstanding(t, r, k) ==>
      Outstanding(s, r, k) || (Tok(s.acts[act], r, k) && !Tok(t.acts[act], r, k))
    ensures TokensKept(s, t, act, k)
  {
    forall r, i: nat | Tok(t.acts[act], r, i)
      ensures Mine(s, act, r, i) && (i < |t.sess| ==> !Outstanding(t, r, i))
    {
      TokIsMine(s, act, r, i);
      if i < |t.sess| {
        assert !Outstanding(s, r, i);
        assert i != k ==> t.sess[i] == s.sess[i];
      }
    }
    forall r | Outstanding(t, r, k)
      ensures Outstanding(s, r, k) || Mine(s, act, r, k)
    {
      if !Outstanding(s, r, k) {
        TokIsMine(s, act, r, k);
      }
    }
  }

  /** An activity that works with slot k moves on. */
  lemma Advance(s: State, t: State, act: nat, k: nat, a: Addr)
    requires Inv(s) && Frame(t) && act < |s.acts| && Local1(s, t, act, k) && OnePointer(s, t, a, k)
    requires Continues(s.acts[act], t.acts[act]) && Gentle(s, t, act, k)
    requires forall r :: Outstanding(t, r, k) ==>
      Outstanding(s, r, k) || (Tok(s.acts[act], r, k) && !Tok(t.acts[act], r, k))
    requires SlotOk(t, k) && ActOk(t, act)
    ensures Inv(t)
  {
    OnePointerNear(s, t, act, k, a);
    ContinuesTokens(s, t, act, k);
    Transfer(s, t, act, k);
  }

  /** The same, for an activity that takes up record r of slot k, which nobody uses. */
  lemma TakeUp(s: State, t: State, act: nat, k: nat, a: Addr, r: Record)
    requires Inv(s) && Frame(t) && act < |s.acts| && Local1(s, t, act, k) && OnePointer(s, t, a, k)
    requires SameLocals(s.acts[act], t.acts[act]) && Gentle(s, t, act, k)
    requires Mine(s, act, r, k) && !Outstanding(s, r, k)
    requires forall r', i: nat :: Tok(t.acts[act], r', i) ==> Tok(s.acts[act], r', i) || (r' == r && i == k)
    requires forall r' :: Outstanding(t, r', k) ==> Outstanding(s, r', k)
    requires SlotOk(t, k) && ActOk(t, act)
    ensures Inv(t)
  {
    OnePointerNear(s, t, act, k, a);
    forall r', i: nat | Tok(t.acts[act], r', i)
      ensures Mine(s, act, r', i) && (i < |t.sess| ==> !Outstanding(t, r', i))
    {
      if Tok(s.acts[act], r', i) {
        TokIsMine(s, act, r', i);
        assert i < |t.sess| ==> !Outstanding(s, r', i);
      }
      assert i != k && i < |t.sess| ==> t.sess[i] == s.sess[i];
    }
    Transfer(s, t, act, k);
  }

  /** Only the place in the program changes. */
  lemma Quiet(s: State, act: nat, pc: Pc, pending: nat)
    requires Inv(s) && act < |s.acts| && Continues(s.acts[act], pc)
    requires ActOk(To(s, act, pc), act)
    ensures Inv(To(s.(pending := pending), act, pc))
  {
    var t := To(s.(pending := pending), act, pc);
    assert ActOk(To(s, act, pc), act) ==> ActOk(t, act);
    assert SlotOk(s, 0);
    assert SlotOk(t, 0);
    Advance(s, t, act, 0, Table(0));
  }

  lemma PostAcceptCounts(s: State, act: nat, ok: bool, more: bool, pick: nat)
    requires Inv(s) && CanDo(s, act, ok, more, pick)
    requires var pc := s.acts[act];
      pc.PaTop? || pc.PaCas? || (pc.PaReserved? && !AnyIdle(s)) || pc.PaFailed?
    ensures Inv(DoStep(s, act, ok, more, pick))
  {
    assert ActOk(s, act);
    var t := DoStep(s, act, ok, more, pick);
    Quiet(s, act, t.acts[act], t.pending);
  }

  lemma AcceptPosted(s: State, act: nat, ok: bool, more: bool, pick: nat)
    requires Inv(s) && CanDo(s, act, ok, more, pick) && s.acts[act].PaPosting?
    ensures Inv(DoStep(s, act, ok, more, pick))
  {
    var t := DoStep(s, act, ok, more, pick);
    var i := s.acts[act].i;
    assert ActOk(s, act) && SlotOk(s, i);
    if ok {
      Advance(s, t, act, i, ReadOv(i));
    } else {
      Quiet(s, act, PaFailed(i), s.pending);
    }
  }

  lemma AcceptEmbedded(s: State, act: nat, ok: bool, more: bool, pick: nat)
    requires Inv(s) && CanDo(s, act, ok, more, pick) && s.acts[act].PaCreated?
    ensures Inv(DoStep(s, act, ok, more, pick))
  {
    var t := DoStep(s, act, ok, more, pick);
    var i := s.acts[act].i;
    assert ActOk(s, act) && SlotOk(s, i);
    HomeLeased(s, act);
    GainPointer(s, ReadOv(i), Local(act, 0));
    TokIsMine(s, act, ReadRec, i);
    Advance(s, t, act, i, ReadOv(i));
  }

  // ---------- steps that change only the place ----------

  ghost predicate Plain(s: State, act: nat, ok: bool, more: bool, pick: nat)
    requires Shaped(s) && CanDo(s, act, ok, more, pick)
  {
    match s.acts[act]
    case Reading(_) => true
    case Bcast(_, _) => true
    case Arming(_) => !ok
    case Wrote(_) => !ok
    case Welcome(i) => !ok || s.sess[i].sending
    case Target(_, j, _) => !ok || s.sess[j].sending
    case Copied(_, r, _, good) => r == DiscRec && !good
    case _ => false
  }

  lemma ReaderPlace(s: State, act: nat, ok: bool, more: bool, pick: nat)
    requires Shaped(s) && CanDo(s, act, ok, more, pick) && ActOk(s, act)
    requires s.acts[act].Reading? || s.acts[act].Bcast?
    ensures var t := DoStep(s, act, ok, more, pick);
      act < |t.acts| && t == To(s, act, t.acts[act]) && Continues(s.acts[act], t.acts[act]) && ActOk(t, act)
  {
  }

  lemma PlainPlace(s: State, act: nat, ok: bool, more: bool, pick: nat)
    requires Shaped(s) && CanDo(s, act, ok, more, pick) && Plain(s, act, ok, more, pick) && ActOk(s, act)
    ensures var t := DoStep(s, act, ok, more, pick);
      act < |t.acts| && t == To(s, act, t.acts[act]) && Continues(s.acts[act], t.acts[act]) && ActOk(t, act)
  {
    if s.acts[act].Reading? || s.acts[act].Bcast? {
      ReaderPlace(s, act, ok, more, pick);
    }
  }

  lemma PlainKeeps(s: State, act: nat, ok: bool, more: bool, pick: nat)
    requires Inv(s) && CanDo(s, act, ok, more, pick) && Plain(s, act, ok, more, pick)
    ensures Inv(DoStep(s, act, ok, more, pick))
  {
    assert ActOk(s, act);
    PlainPlace(s, act, ok, more, pick);
    Quiet(s, act, DoStep(s, act, ok, more, pick).acts[act], s.pending);
  }

  // ---------- completions ----------

  lemma SpawnKeeps(s: State)
    requires Inv(s)
    ensures Inv(s.(acts := s.acts + [PaTop]))
  {
    var t := s.(acts := s.acts + [PaTop]);
    assert SlotOk(s, 0);
    assert SlotOk(t, 0);
    Transfer(s, t, |s.acts|, 0);
  }

  lemma AcceptCounted(s: State, act: nat, ok: bool, more: bool, pick: nat)
    requires Inv(s) && CanDo(s, act, ok, more, pick) && s.acts[act].AccDone?
    ensures Inv(DoStep(s, act, ok, more, pick))
  {
    assert ActOk(s, act);
    var pc := Got(s.acts[act].i, ReadRec, true, s.acts[act].ok);
    Quiet(s, act, pc, Minus1(s.pending));
    var u := To(s.(pending := Minus1(s.pending)), act, pc);
    SpawnKeeps(u);
    assert DoStep(s, act, ok, more, pick) == u.(acts := u.acts + [PaTop]);
  }

  /** The handler's inner copy. */
  lemma SecondLocal(s: State, act: nat, b: Addr, pc: Pc)
    requires Inv(s) && act < |s.acts| && s.acts[act].Got? && pc.Copied? && pc.i == s.acts[act].i
    requires Has(s, b) && !b.Local? && b.i == pc.i < |s.sess|
    requires pc.r == s.acts[act].r && ActOk(s, act)
    ensures Inv(To(s.(pool := CopyConstruct(s.pool, Local(act, 1), b)), act, pc))
  {
    var i, a := pc.i, Local(act, 1);
    assert SlotOf(s, a) == -1;
    HomeLeased(s, act);
    PointerCounted(s, b);
    GainPointer(s, a, b);
    var t := To(s.(pool := CopyConstruct(s.pool, a, b)), act, pc);
    assert t.pool.ptrs == s.pool.ptrs[a := Handle(i, s.pool.slots.gens[i])];
    SecondLocalNear(s, t, act, i);
    SlotSame(s, t, i);
    ContinuesTokensOnly(s, t, act, i);
    GentleSame(s, t, act, i);
    FrameKept(s, t);
    Transfer(s, t, act, i);
  }

  lemma SecondLocalNear(s: State, t: State, act: nat, i: nat)
    requires Inv(s) && act < |s.acts| && Local1(s, t, act, i) && t.pool.slots == s.pool.slots
    requires s.acts[act].Got? && t.acts[act].Copied? && s.acts[act].i == t.acts[act].i == i
    requires t.pool.ptrs == s.pool.ptrs[Local(act, 1) := Handle(i, s.pool.slots.gens[i])]
    ensures PointersNear(s, t, act, i)
  {
    forall a | Near(a, act, i) && Has(t, a)
      ensures 0 <= SlotOf(t, a) < |t.sess| && t.pool.ptrs[a] == Handle(SlotOf(t, a), t.pool.slots.gens[SlotOf(t, a)])
    {
      assert a == Local(act, 1) || (Has(s, a) && SlotOf(s, a) == SlotOf(t, a));
    }
    assert Has(s, Local(act, 0));
  }

  lemma SlotSame(s: State, t: State, i: nat)
    requires Inv(s) && Shaped(t) && i < |s.sess| && t.sess == s.sess && t.pool.slots == s.pool.slots
    requires forall a: Addr :: !a.Local? ==> (Has(s, a) <==> Has(t, a))
    ensures SlotOk(t, i)
  {
    assert SlotOk(s, i);
  }

  lemma GentleSame(s: State, t: State, act: nat, k: nat)
    requires Local1(s, t, act, k) && t.sess == s.sess && t.pool.slots == s.pool.slots
    requires forall a: Addr :: !a.Local? ==> (Has(s, a) <==> Has(t, a))
    ensures Gentle(s, t, act, k)
  {
  }

  lemma InnerCopied(s: State, act: nat, ok: bool, more: bool, pick: nat)
    requires Inv(s) && CanDo(s, act, ok, more, pick) && s.acts[act].Got?
    ensures Inv(DoStep(s, act, ok, more, pick))
  {
    var Got(i, r, accept, good) := s.acts[act];
    assert ActOk(s, act);
    SecondLocal(s, act, RecordAddr(r, i), Copied(i, r, accept, good));
  }

  lemma ContinuesTokensOnly(s: State, t: State, act: nat, k: nat)
    requires Inv(s) && act < |s.acts| && Local1(s, t, act, k) && t.sess == s.sess
    requires forall r, i: nat :: Tok(t.acts[act], r, i) ==> Tok(s.acts[act], r, i)
    ensures TokensKept(s, t, act, k)
  {
    forall r, i: nat | Tok(t.acts[act], r, i)
      ensures Mine(s, act, r, i) && (i < |t.sess| ==> !Outstanding(t, r, i))
    {
      TokIsMine(s, act, r, i);
      assert i < |t.sess| ==> !Outstanding(s, r, i);
    }
  }

  lemma GentleRecord(s: State, t: State, act: nat, k: nat, r: Record)
    requires Local1(s, t, act, k) && OnePointer(s, t, RecordAddr(r, k), k) && Mine(s, act, r, k)
    requires t.sess == s.sess && t.pool.slots == s.pool.slots
    ensures Gentle(s, t, act, k)
  {
    forall r'
      ensures (Has(s, RecordAddr(r', k)) <==> Has(t, RecordAddr(r', k))) || Mine(s, act, r', k)
    {
      assert r' != r ==> RecordAddr(r', k) != RecordAddr(r, k);
    }
  }

  lemma SlotWithout(s: State, t: State, r: Record, i: nat)
    requires Shaped(s) && Shaped(t) && i < |s.sess| && t.sess == s.sess && t.pool.slots == s.pool.slots
    requires SlotOk(s, i) && !Outstanding(s, r, i) && t.pool.ptrs == s.pool.ptrs - {RecordAddr(r, i)}
    ensures SlotOk(t, i)
  {
  }

  lemma FrameKept(s: State, t: State)
    requires Inv(s) && |s.sess| == |t.sess| && Repointed(s.pool, t.pool, t.pool.ptrs)
    ensures Frame(t)
  {
  }

  /** An activity lets go of the pointer in a record that it alone uses. */
  lemma LetGo(s: State, act: nat, r: Record, i: nat, pc: Pc)
    requires Inv(s) && act < |s.acts| && i < |s.sess| && Tok(s.acts[act], r, i)
    requires Holds(s.acts[act], 0) && s.acts[act].i == i && Has(s, RecordAddr(r, i))
    requires Continues(s.acts[act], pc)
    requires ActOk(To(s.(pool := Reset(s.pool, RecordAddr(r, i))), act, pc), act)
    ensures Inv(To(ResetAt(s, RecordAddr(r, i)), act, pc))
  {
    var a := RecordAddr(r, i);
    HomeLeased(s, act);
    PinnedByOther(s, a, Local(act, 0));
    LosePointer(s, a);
    TokIsMine(s, act, r, i);
    var t := To(ResetAt(s, a), act, pc);
    WithoutRecord(s, t, act, i, r);
    Advance(s, t, act, i, a);
  }

  lemma WithoutRecord(s: State, t: State, act: nat, i: nat, r: Record)
    requires Inv(s) && Local1(s, t, act, i) && Repointed(s.pool, t.pool, s.pool.ptrs - {RecordAddr(r, i)})
    requires t.sess == s.sess && !Outstanding(s, r, i) && Mine(s, act, r, i)
    ensures Frame(t) && SlotOk(t, i) && Gentle(s, t, act, i) && OnePointer(s, t, RecordAddr(r, i), i)
  {
    assert SlotOk(s, i);
    SlotWithout(s, t, r, i);
    GentleRecord(s, t, act, i, r);
    FrameKept(s, t);
  }

  lemma AfterReset(s: State, act: nat, i: nat, r: Record, accept: bool, good: bool, t: State)
    requires Shaped(s) && Shaped(t) && |s.sess| == |t.sess| && act < |t.acts| && act < |s.acts|
    requires s.acts[act] == Copied(i, r, accept, good) && ActOk(s, act) && SlotOk(s, i)
    requires t.sess == s.sess && t.pool.slots == s.pool.slots && t.pool.ptrs == s.pool.ptrs - {RecordAddr(r, i)}
    requires t.acts[act] ==
      if !good then Closing(i, true)
      else match r
           case DiscRec => Clearing(i)
           case WriteRec => Wrote(i)
           case ReadRec => if accept then Accepting(i) else Reading(i)
    ensures ActOk(t, act) && Continues(s.acts[act], t.acts[act])
  {
  }

  lemma RecordReset(s: State, act: nat, ok: bool, more: bool, pick: nat)
    requires Inv(s) && CanDo(s, act, ok, more, pick) && s.acts[act].Copied?
    requires !(s.acts[act].r == DiscRec && !s.acts[act].ok)
    ensures Inv(DoStep(s, act, ok, more, pick)) && NotLast(s, RecordAddr(s.acts[act].r, s.acts[act].i))
  {
    var Copied(i, r, accept, good) := s.acts[act];
    assert ActOk(s, act) && SlotOk(s, i);
    HomeLeased(s, act);
    PinnedByOther(s, RecordAddr(r, i), Local(act, 0));
    LosePointer(s, RecordAddr(r, i));
    var t := DoStep(s, act, ok, more, pick);
    AfterReset(s, act, i, r, accept, good, t);
    LetGo(s, act, r, i, t.acts[act]);
  }

  // ---------- Connect ----------

  lemma ConnectDecided(s: State, act: nat, ok: bool, more: bool, pick: nat)
    requires Inv(s) && CanDo(s, act, ok, more, pick) && s.acts[act].Accepting?
    ensures Inv(DoStep(s, act, ok, more, pick))
  {
    var t := DoStep(s, act, ok, more, pick);
    var i := s.acts[act].i;
    assert ActOk(s, act) && SlotOk(s, i);
    if t.acts[act].Welcome? {
      MovedKeepsFrame(s, t, i);
      Advance(s, t, act, i, Table(i));
    } else {
      Quiet(s, act, Closing(i, true), s.pending);
    }
  }

  /** The session goes on as connected exactly if it was pending, for the first time in its lease. */
  lemma ConnectsOnce(s: State, act: nat, ok: bool, more: bool, pick: nat)
    requires Inv(s) && CanDo(s, act, ok, more, pick) && s.acts[act].Accepting?
    ensures var t, i := DoStep(s, act, ok, more, pick), s.acts[act].i;
      && (t.acts[act].Welcome? <==> ok && StateOf(s, i) == PENDING)
      && (t.acts[act].Welcome? ==> Shaped(t) && StateOf(t, i) == CONNECTED && s.sess[i].connects == 0)
      && t.sess[i].connects <= 1
  {
    assert SlotOk(s, s.acts[act].i);
  }

  lemma MovedKeepsFrame(s: State, t: State, i: nat)
    requires Inv(s) && i < |s.sess| == |t.sess| && StateOf(s, i) != IDLE
    requires exists state :: state != IDLE && t.pool == s.pool.(slots := Moved(s.pool.slots, i, state))
    ensures Frame(t)
  {
    assert forall j :: 0 <= j < |s.sess| ==> Owners(t.pool, j) == Owners(s.pool, j);
  }
}
