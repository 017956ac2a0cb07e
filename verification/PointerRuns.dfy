/** Whole runs of counted pointers over a pool whose objects hold no pointers themselves. */
module PointerRuns {
  import opened Handles
  import opened SparseSets
  import opened LeasePool

  datatype PtrOp<A> =
    | Lease(a: A, i: Word32, state: nat)
    | CopyNew(a: A, b: A)
    | Copy(a: A, b: A)
    | MoveNew(a: A, b: A)
    | Move(a: A, b: A)
    | Clear(a: A)
    | Kill(a: A)
    | Shift(h: Handle, state: nat)

  /** Constructors run on storage that holds no pointer; leases come from idle slots and ask for
      a state other than idle; a lease is never shifted back to idle by hand. */
  ghost predicate Allowed<A>(p: Pool<A>, op: PtrOp<A>)
    requires WF(p)
  {
    match op
    case Lease(a, i, state) => a !in p.ptrs && i < |p.refs| && p.slots.states[i] == 0 && state > 0
    case CopyNew(a, _) => a !in p.ptrs
    case MoveNew(a, _) => a !in p.ptrs
    case Shift(h, state) => Live(p.slots, h) ==> (p.slots.states[h.idx] == 0 <==> state == 0)
    case _ => true
  }

  ghost function Apply<A>(p: Pool<A>, op: PtrOp<A>): (r: Pool<A>)
    requires WF(p) && Allowed(p, op)
    ensures WF(r)
  {
    match op
    case Lease(a, i, state) => LeasePool.Acquire(p, a, i, state)
    case CopyNew(a, b) => CopyConstruct(p, a, b)
    case Copy(a, b) => CopyAssign(p, a, b)
    case MoveNew(a, b) => MoveConstruct(p, a, b)
    case Move(a, b) => MoveAssign(p, a, b)
    case Clear(a) => Reset(p, a)
    case Kill(a) => Destroy(p, a)
    case Shift(h, state) => if Live(p.slots, h) then p.(slots := Moved(p.slots, h.idx, state)) else p
  }

  ghost predicate Bare<A>(p: Pool<A>)
  {
    forall i :: 0 <= i < |p.owned| ==> p.owned[i] == []
  }

  ghost predicate Sound<A>(p: Pool<A>)
  {
    WF(p) && Ledger(p) && IdleExact(p) && Bare(p)
  }

  /** The operation gives up the last reference to the slot that a names. */
  ghost predicate GivesUpLast<A>(p: Pool<A>, op: PtrOp<A>)
    requires WF(p)
  {
    match op
    case Copy(a, b) => a != b && Counted(p, a) && Last(p, p.ptrs[a])
    case Move(a, b) => a != b && Counted(p, a) && Last(p, p.ptrs[a])
    case Clear(a) => Counted(p, a) && Last(p, p.ptrs[a])
    case Kill(a) => Counted(p, a) && Last(p, p.ptrs[a])
    case _ => false
  }

  /** The operation recycles a slot while some stale pointer already carries the handle that the
      slot's next lease will get. */
  ghost predicate Revives<A>(p: Pool<A>, op: PtrOp<A>)
    requires WF(p)
  {
    GivesUpLast(p, op) && !NextFresh(p, p.ptrs[op.a].idx)
  }

  // ---------- one operation ----------

  lemma ConstructKeeps<A>(p: Pool<A>, op: PtrOp<A>)
    requires Sound(p) && Allowed(p, op) && (op.Lease? || op.CopyNew? || op.MoveNew? || op.Shift?)
    ensures Sound(Apply(p, op))
  {
    match op
    case Lease(a, i, state) => AcquireKeeps(p, a, i, state);
    case CopyNew(a, b) => CopyConstructKeeps(p, a, b);
    case MoveNew(a, b) => MoveConstructKeeps(p, a, b);
    case Shift(h, state) =>
      assert forall i :: 0 <= i < |p.refs| ==> Owners(Apply(p, op), i) == Owners(p, i);
  }

  lemma MoveKeeps<A>(p: Pool<A>, a: A, b: A)
    requires Sound(p) && a != b && !Revives(p, Move(a, b))
    ensures Sound(MoveAssign(p, a, b))
  {
    MoveAssignKeeps(p, a, b);
    if Counted(p, a) {
      ReleaseThenForget(p, a);
    }
  }

  lemma ClearKeeps<A>(p: Pool<A>, a: A)
    requires Sound(p) && !Revives(p, Clear(a))
    ensures Sound(Reset(p, a))
  {
    ResetKeepsIff(p, a);
  }

  lemma KillKeeps<A>(p: Pool<A>, a: A)
    requires Sound(p) && !Revives(p, Kill(a))
    ensures Sound(Destroy(p, a))
  {
    DestroyKeeps(p, a);
  }

  /** Assignment adds its reference first, so it gives up the last one exactly when a had it. */
  lemma CopyGivesUp<A>(p: Pool<A>, a: A, b: A)
    requires Sound(p) && a != b && a in p.ptrs
    ensures var q := CopyConstruct(p, a, b);
      && (Last(q, p.ptrs[a]) <==> GivesUpLast(p, Copy(a, b)))
      && (Last(q, p.ptrs[a]) ==> (NextFresh(q, p.ptrs[a].idx) <==> NextFresh(p, p.ptrs[a].idx)))
  {
    var q := CopyConstruct(p, a, b);
    if Counted(p, a) {
      CountedHasRef(p, a);
      if Counted(p, b) && p.ptrs[b].idx == p.ptrs[a].idx {
        SharedIsNotLast(p, a, b);
      }
      var next := Handle(p.ptrs[a].idx, NextGen(p.ptrs[a].gen));
      forall c | c in p.ptrs && p.ptrs[c] == next
        ensures c in q.ptrs && q.ptrs[c] == next
      {
      }
    }
  }

  lemma CopyKeeps<A>(p: Pool<A>, a: A, b: A)
    requires Sound(p) && a != b && !Revives(p, Copy(a, b))
    ensures Sound(CopyAssign(p, a, b))
  {
    if a in p.ptrs {
      CopyGivesUp(p, a, b);
    }
    CopyAssignKeeps(p, a, b);
  }

  /** Recycling slot i while pointer c carries its next handle: c is counted for by nobody. */
  lemma RevivedBreaks<A>(q: Pool<A>, i: nat, c: A)
    requires WF(q) && i < |q.refs| && q.refs[i] == 0 && c in q.ptrs && q.ptrs[c] == Handle(i, q.slots.gens[i])
    ensures !Ledger(q)
  {
    assert c in Owners(q, i);
  }

  /** What the release inside a recycling operation does to a bare pool. */
  lemma LastReleaseRecycles<A>(p: Pool<A>, h: Handle)
    requires WF(p) && Bare(p) && Last(p, h)
    ensures ReleaseRef(p, h) == p.(refs := p.refs[h.idx := 0], slots := Recycled(p.slots, h.idx))
  {
    InnerResetsIdle(DecRef(p, h.idx), []);
  }

  lemma ReviveBreaks<A>(p: Pool<A>, op: PtrOp<A>)
    requires Sound(p) && Allowed(p, op) && Revives(p, op)
    ensures !Ledger(Apply(p, op))
  {
    var h := p.ptrs[op.a];
    var c :| c in p.ptrs && p.ptrs[c] == Handle(h.idx, NextGen(h.gen));
    LastReleaseRecycles(p, h);
    var q := Apply(p, op);
    if op.Copy? {
      CopyGivesUp(p, op.a, op.b);
      LastReleaseRecycles(CopyConstruct(p, op.a, op.b), h);
    }
    RevivedBreaks(q, h.idx, if op.Move? && op.b == c then op.a else c);
  }

  /** Every operation keeps the counts, except exactly a recycle that brings a stale pointer back
      to life. */
  lemma StepKeepsIff<A>(p: Pool<A>, op: PtrOp<A>)
    requires Sound(p) && Allowed(p, op)
    ensures Sound(Apply(p, op)) <==> !Revives(p, op)
    ensures Ledger(Apply(p, op)) <==> !Revives(p, op)
  {
    if Revives(p, op) {
      ReviveBreaks(p, op);
    } else {
      match op
      case Copy(a, b) =>
        if a != b {
          CopyKeeps(p, a, b);
        }
      case Move(a, b) =>
        if a != b {
          MoveKeeps(p, a, b);
        }
      case Clear(a) => ClearKeeps(p, a);
      case Kill(a) => KillKeeps(p, a);
      case _ => ConstructKeeps(p, op);
    }
  }

  // ---------- whole runs ----------

  ghost predicate Legal<A>(p: Pool<A>, ops: seq<PtrOp<A>>)
    requires WF(p)
    decreases |ops|
  {
    ops == [] || (Allowed(p, ops[0]) && Legal(Apply(p, ops[0]), ops[1..]))
  }

  ghost function Final<A>(p: Pool<A>, ops: seq<PtrOp<A>>): (r: Pool<A>)
    requires WF(p) && Legal(p, ops)
    ensures WF(r)
    decreases |ops|
  {
    if ops == [] then p else Final(Apply(p, ops[0]), ops[1..])
  }

  /** No recycle of the run brings a stale pointer back to life. */
  ghost predicate NeverRevives<A>(p: Pool<A>, ops: seq<PtrOp<A>>)
    requires WF(p) && Legal(p, ops)
    decreases |ops|
  {
    ops == [] || (!Revives(p, ops[0]) && NeverRevives(Apply(p, ops[0]), ops[1..]))
  }

  ghost predicate AlwaysSound<A>(p: Pool<A>, ops: seq<PtrOp<A>>)
    requires WF(p) && Legal(p, ops)
    decreases |ops|
  {
    Sound(p) && (ops == [] || AlwaysSound(Apply(p, ops[0]), ops[1..]))
  }

  /** Over every run of leases, copies, moves, assignments, resets and destructions, each count is
      at all times the number of pointers whose handle is live, and a slot idle exactly when it is
      zero, if and only if no recycle of the run brings a stale pointer back to life. */
  lemma {:induction false} RunKeepsLedgerIff<A>(p: Pool<A>, ops: seq<PtrOp<A>>)
    requires Sound(p) && Legal(p, ops)
    ensures AlwaysSound(p, ops) <==> NeverRevives(p, ops)
    ensures NeverRevives(p, ops) ==> Sound(Final(p, ops))
    decreases |ops|
  {
    if ops != [] {
      StepKeepsIff(p, ops[0]);
      if !Revives(p, ops[0]) {
        RunKeepsLedgerIff(Apply(p, ops[0]), ops[1..]);
      }
    }
  }

  lemma EmptyPoolIsSound<A>(p: Pool<A>)
    requires WF(p) && p.ptrs == map[] && Bare(p)
    requires forall i :: 0 <= i < |p.refs| ==> p.refs[i] == 0 && p.slots.states[i] == 0
    ensures Sound(p)
  {
    assert forall i :: 0 <= i < |p.refs| ==> Owners(p, i) == {};
  }

  // ---------- how long a stale pointer is safe ----------

  /** How often the run recycles slot i. */
  ghost function Recycles<A>(p: Pool<A>, ops: seq<PtrOp<A>>, i: nat): (n: nat)
    requires WF(p) && Legal(p, ops)
    decreases |ops|
  {
    if ops == [] then 0
    else
      (if GivesUpLast(p, ops[0]) && p.ptrs[ops[0].a].idx == i then 1 else 0)
      + Recycles(Apply(p, ops[0]), ops[1..], i)
  }

  lemma GenerationStep<A>(p: Pool<A>, op: PtrOp<A>, i: nat)
    requires Sound(p) && Allowed(p, op) && i < |p.refs|
    ensures |Apply(p, op).refs| == |p.refs|
    ensures Apply(p, op).slots.gens[i] ==
      if GivesUpLast(p, op) && p.ptrs[op.a].idx == i then NextGen(p.slots.gens[i]) else p.slots.gens[i]
  {
    if GivesUpLast(p, op) {
      LastReleaseRecycles(p, p.ptrs[op.a]);
    }
    if op.Copy? && op.a != op.b && op.a in p.ptrs {
      CopyGivesUp(p, op.a, op.b);
      if GivesUpLast(p, op) {
        LastReleaseRecycles(CopyConstruct(p, op.a, op.b), p.ptrs[op.a]);
      }
    }
  }

  /** The generation n recycles later. */
  ghost function Turned(gen: Word32, n: nat): (r: Word32)
    decreases n
  {
    if n == 0 then gen else Turned(NextGen(gen), n - 1)
  }

  lemma {:induction false} TurnedIsSum(gen: Word32, n: nat)
    ensures Turned(gen, n) == (gen + n) % WORD
    decreases n
  {
    if n > 0 {
      TurnedIsSum(NextGen(gen), n - 1);
    }
  }

  lemma {:induction false} GenerationTurns<A>(p: Pool<A>, ops: seq<PtrOp<A>>, i: nat)
    requires Sound(p) && Legal(p, ops) && NeverRevives(p, ops) && i < |p.refs|
    ensures |Final(p, ops).refs| == |p.refs|
    ensures Final(p, ops).slots.gens[i] == Turned(p.slots.gens[i], Recycles(p, ops, i))
    decreases |ops|
  {
    if ops != [] {
      StepKeepsIff(p, ops[0]);
      GenerationStep(p, ops[0], i);
      GenerationTurns(Apply(p, ops[0]), ops[1..], i);
    }
  }

  /** A handle that was live when the run began can be brought back to life by the next recycle
      exactly when its slot has been recycled one short of a multiple of 2^32 times since. */
  lemma StaleUntilFullTurn<A>(p: Pool<A>, ops: seq<PtrOp<A>>, h: Handle)
    requires Sound(p) && Legal(p, ops) && NeverRevives(p, ops) && Live(p.slots, h)
    ensures |Final(p, ops).refs| == |p.refs|
    ensures h == Handle(h.idx, NextGen(Final(p, ops).slots.gens[h.idx])) <==>
      (Recycles(p, ops, h.idx) + 1) % WORD == 0
  {
    GenerationTurns(p, ops, h.idx);
    FullTurn(h.gen, Recycles(p, ops, h.idx));
  }

  lemma FullTurn(gen: Word32, n: nat)
    ensures gen == NextGen(Turned(gen, n)) <==> (n + 1) % WORD == 0
  {
    TurnedIsSum(gen, n);
    SumTurns(gen, n);
  }

  lemma SumTurns(gen: Word32, n: nat)
    ensures gen == ((gen + n) % WORD + 1) % WORD <==> (n + 1) % WORD == 0
  {
    var m := n % WORD;
    assert (gen + n) % WORD == (gen + m) % WORD;
    assert (n + 1) % WORD == (m + 1) % WORD;
  }
}
