/** Building runs of the session protocol step by step, from what each step does to one slot. */
module ProtocolReach {
  import opened Handles
  import opened SparseSets
  import opened LeasePool
  import opened SessionProtocol
  import opened ProtocolInvariant
  import opened ProtocolLeases
  import opened ProtocolTheorems
  import opened ProtocolEffects
  import opened ProtocolRuns

  /** The places that hold a pointer to slot j. */
  ghost function PinsIn(ptrs: map<Addr, Handle>, j: nat): set<Addr>
  {
    set a | a in ptrs && ptrs[a].idx == j
  }

  ghost function Pins(s: State, j: nat): set<Addr>
  {
    PinsIn(s.pool.ptrs, j)
  }

  lemma PinsWithout(ptrs: map<Addr, Handle>, a: Addr, k: nat)
    ensures PinsIn(ptrs - {a}, k) == PinsIn(ptrs, k) - {a}
  {
  }

  lemma PinsWith(ptrs: map<Addr, Handle>, a: Addr, h: Handle, k: nat)
    ensures PinsIn(ptrs[a := h], k) == if h.idx == k then PinsIn(ptrs, k) + {a} else PinsIn(ptrs, k) - {a}
  {
  }

  lemma PinsAreOwners(s: State, j: nat)
    requires Inv(s) && j < |s.sess|
    ensures Owners(s.pool, j) == Pins(s, j) && s.pool.refs[j] == |Pins(s, j)|
  {
  }

  lemma PinnedBy(s: State, j: nat, a: Addr)
    requires Inv(s) && j < |s.sess|
    ensures a in Pins(s, j) <==> Has(s, a) && SlotOf(s, a) == j
  {
  }

  // ---------- runs ----------

  /** Some run without a race leads from s to g. */
  ghost predicate Reaches(s: State, g: State)
    requires Shaped(s)
  {
    exists es :: Run(s, es) && RaceFree(s, es) && After(s, es) == g
  }

  lemma ReachesItself(s: State)
    requires Shaped(s)
    ensures Reaches(s, s)
  {
    assert Run(s, []) && RaceFree(s, []) && After(s, []) == s;
  }

  lemma Prepend(s: State, e: Event, g: State)
    requires Shaped(s) && Enabled(s, e) && !Race(s, e) && Shaped(Step(s, e)) && Reaches(Step(s, e), g)
    ensures Reaches(s, g)
  {
    var es :| Run(Step(s, e), es) && RaceFree(Step(s, e), es) && After(Step(s, e), es) == g;
    var all := [e] + es;
    assert all[0] == e && all[1..] == es;
    assert Run(s, all) && RaceFree(s, all) && After(s, all) == g;
  }

  /** Whatever can happen from t can happen from s. */
  ghost predicate LeadsTo(s: State, t: State)
  {
    Shaped(s) && Shaped(t) && forall g :: Reaches(t, g) ==> Reaches(s, g)
  }

  lemma LeadsByStep(s: State, e: Event)
    requires Shaped(s) && Enabled(s, e) && !Race(s, e) && Shaped(Step(s, e))
    ensures LeadsTo(s, Step(s, e))
  {
    forall g | Reaches(Step(s, e), g)
      ensures Reaches(s, g)
    {
      Prepend(s, e, g);
    }
  }

  // ---------- one slot ----------

  /** A slot as a scene sees it. */
  datatype View = View(state: nat, gen: Word32, x: Sess, pins: set<Addr>)

  ghost function ViewOf(s: State, k: nat): View
    requires Shaped(s) && k < |s.sess|
  {
    View(StateOf(s, k), s.pool.slots.gens[k], s.sess[k], Pins(s, k))
  }

  /** The slots other than k look the same. */
  ghost predicate OthersSame(s: State, t: State, k: nat)
  {
    && Shaped(s) && Shaped(t) && |t.sess| == |s.sess| && t.limit == s.limit
    && forall x :: 0 <= x < |s.sess| && x != k ==> ViewOf(t, x) == ViewOf(s, x)
  }

  /** t follows s, after a step of activity b that is about slot k. */
  ghost predicate Stepped(s: State, t: State, b: nat, k: nat)
  {
    && Inv(t) && LeadsTo(s, t) && OthersSame(s, t, k) && b < |s.acts| <= |t.acts|
    && forall c :: 0 <= c < |s.acts| && c != b ==> t.acts[c] == s.acts[c]
  }

  /** t follows s after activities that began later moved on slot k; the ones of s stayed in place. */
  ghost predicate Led(s: State, t: State, k: nat)
  {
    && Inv(t) && LeadsTo(s, t) && OthersSame(s, t, k) && |s.acts| <= |t.acts|
    && forall c :: 0 <= c < |s.acts| ==> t.acts[c] == s.acts[c]
  }

  lemma LedOn(s: State, u: State, t: State, b: nat, k: nat)
    requires Led(s, u, k) && Stepped(u, t, b, k) && |s.acts| <= b
    ensures Led(s, t, k)
  {
    forall x | 0 <= x < |s.sess| && x != k
      ensures ViewOf(t, x) == ViewOf(s, x)
    {
      assert ViewOf(u, x) == ViewOf(s, x);
    }
  }

  /** The slot that a step of an activity at pc is about. */
  ghost predicate About(pc: Pc, pick: nat, k: nat)
  {
    match pc
    case PaTop => true
    case PaCas(_) => true
    case PaReserved => pick == k
    case Target(_, j, _) => j == k
    case Sending(_, j, _) => j == k
    case Done => false
    case _ => pc.i == k
  }

  /** What the slot looks like after the step. */
  ghost function NextView(s: State, b: nat, ok: bool, more: bool, pick: nat, k: nat): View
    requires Shaped(s) && CanDo(s, b, ok, more, pick) && k < |s.sess|
  {
    View(NextSlots(s, b, ok, more, pick).states[k], NextSlots(s, b, ok, more, pick).gens[k],
         NextSess(s, b, ok, more, pick)[k], PinsIn(NextPtrs(s, b, ok, more, pick), k))
  }

  lemma PinsElsewhere(s: State, b: nat, ok: bool, more: bool, pick: nat, k: nat, x: nat)
    requires Inv(s) && CanDo(s, b, ok, more, pick) && About(s.acts[b], pick, k) && x < |s.sess| && x != k
    ensures PinsIn(NextPtrs(s, b, ok, more, pick), x) == Pins(s, x)
  {
    if Holds(s.acts[b], 0) {
      HomeLeased(s, b);
    }
    PinnedBy(s, x, Local(b, 0));
    PinnedBy(s, x, Local(b, 1));
  }

  lemma ViewsElsewhere(s: State, b: nat, ok: bool, more: bool, pick: nat, k: nat, x: nat)
    requires Inv(s) && CanDo(s, b, ok, more, pick) && About(s.acts[b], pick, k) && x < |s.sess| && x != k
    ensures NextView(s, b, ok, more, pick, x) == ViewOf(s, x)
  {
    PinsElsewhere(s, b, ok, more, pick, k, x);
  }

  lemma Go(s: State, b: nat, ok: bool, more: bool, pick: nat, k: nat) returns (t: State)
    requires Inv(s) && CanDo(s, b, ok, more, pick) && !Race(s, Do(b, ok, more, pick)) && k < |s.sess|
    requires About(s.acts[b], pick, k)
    ensures Stepped(s, t, b, k) && t.acts[b] == NextPc(s, b, ok, more, pick)
    ensures ViewOf(t, k) == NextView(s, b, ok, more, pick, k)
    ensures t.pending == NextPending(s, b)
  {
    var e := Do(b, ok, more, pick);
    t := DoStep(s, b, ok, more, pick);
    StepKeepsIff(s, e);
    StepAsUncounted(s, b, ok, more, pick);
    ActsStep(s, b, ok, more, pick);
    PlaceStep(s, b, ok, more, pick);
    PendingStep(s, b, ok, more, pick);
    SameSlots(s, e);
    LeadsByStep(s, e);
    forall x | 0 <= x < |s.sess| && x != k
      ensures ViewOf(t, x) == ViewOf(s, x)
    {
      ViewsElsewhere(s, b, ok, more, pick, k, x);
    }
  }

  /** The last local of a slot goes: the slot is idle and clean, has a new generation, and the callback
      has started another PostAccept. */
  lemma GoLast(s: State, c: nat, k: nat) returns (t: State)
    requires Inv(s) && c < |s.acts| && s.acts[c] == Leaving(k, false) && k < |s.sess| && Pins(s, k) == {Local(c, 0)}
    ensures Stepped(s, t, c, k) && t.acts == s.acts[c := Done] + [PaTop] && t.pending == s.pending
    ensures ViewOf(t, k) == View(IDLE, NextGen(s.pool.slots.gens[k]), Cleaned(s.sess[k]), {})
  {
    var e := Do(c, true, false, 0);
    PinsAreOwners(s, k);
    OuterLeftLast(s, c, k, Done);
    t := DoStep(s, c, true, false, 0);
    StepAsUncounted(s, c, true, false, 0);
    PendingStep(s, c, true, false, 0);
    LeadsByStep(s, e);
    forall x | 0 <= x < |s.sess| && x != k
      ensures ViewOf(t, x) == ViewOf(s, x)
    {
      ViewsElsewhere(s, c, true, false, 0, k, x);
    }
  }

  /** A completion leaves the port, for the new activity |s.acts|. */
  lemma Take(s: State, k: nat, r: Record, ok: bool) returns (t: State)
    requires Inv(s) && k < |s.sess| && Outstanding(s, r, k)
    ensures Led(s, t, k) && |t.acts| == |s.acts| + 1 && t.pending == s.pending
    ensures t.acts[|s.acts|] ==
      if r == ReadRec && s.sess[k].readIo == AcceptIo then AccDone(k, ok) else Got(k, r, false, ok)
    ensures ViewOf(t, k) == ViewOf(s, k).(x := WithoutIo(s.sess[k], r), pins := Pins(s, k) + {Local(|s.acts|, 0)})
  {
    var e := Dequeue(k, r, ok);
    t := TakeCompletion(s, k, r, ok);
    StepKeepsIff(s, e);
    OutstandingIsCovered(s, r, k);
    LeadsByStep(s, e);
    assert SlotOf(s, Local(|s.acts|, 0)) == -1;
    assert !Has(s, Local(|s.acts|, 0));
    forall x | 0 <= x < |s.sess|
      ensures Pins(t, x) == if x == k then Pins(s, x) + {Local(|s.acts|, 0)} else Pins(s, x)
    {
      PinsWith(s.pool.ptrs, Local(|s.acts|, 0), Current(s, k), x);
    }
  }
}
