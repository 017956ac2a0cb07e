/** Handle freshness over whole runs of a slot set. */
module HandleRuns {
  import opened Handles
  import opened SparseSets

  datatype Op = Lease(who: nat, state: nat) | Return(h: Handle) | Shift(h: Handle, state: nat)

  /** One call: Pop on an idle slot, Push, or MoveToState; calls that fail change nothing. */
  ghost function Step(m: Slots, op: Op): (r: Slots)
    requires WellFormed(m)
    ensures WellFormed(r) && |r.states| == |m.states|
  {
    match op
    case Lease(who, state) => if who < |m.states| && m.states[who] == 0 then Moved(m, who, state) else m
    case Return(h) => if Live(m, h) then Recycled(m, h.idx) else m
    case Shift(h, state) => if Live(m, h) then Moved(m, h.idx, state) else m
  }

  ghost function Final(m: Slots, ops: seq<Op>): (r: Slots)
    requires WellFormed(m)
    ensures WellFormed(r) && |r.states| == |m.states|
    decreases |ops|
  {
    if ops == [] then m else Final(Step(m, ops[0]), ops[1..])
  }

  /** How often the run returns the given slot. */
  ghost function Recycles(m: Slots, ops: seq<Op>, who: nat): (c: nat)
    requires WellFormed(m)
    decreases |ops|
  {
    if ops == [] then 0 else
      (if ops[0].Return? && Live(m, ops[0].h) && ops[0].h.idx == who then 1 else 0)
      + Recycles(Step(m, ops[0]), ops[1..], who)
  }

  lemma {:induction false} GenerationCountsRecycles(m: Slots, ops: seq<Op>, who: nat)
    requires WellFormed(m) && who < |m.gens|
    ensures Final(m, ops).gens[who] == (m.gens[who] + Recycles(m, ops, who)) % WORD
    decreases |ops|
  {
    if ops != [] {
      GenerationCountsRecycles(Step(m, ops[0]), ops[1..], who);
    }
  }

  /** After any run, a handle that was live is accepted again exactly when its slot came back a
      multiple of 2^32 times: in particular a returned handle is rejected until the counter wraps. */
  lemma HandleLiveIffWrapped(m: Slots, ops: seq<Op>, h: Handle)
    requires WellFormed(m) && Live(m, h)
    ensures Live(Final(m, ops), h) <==> Recycles(m, ops, h.idx) % WORD == 0
  {
    GenerationCountsRecycles(m, ops, h.idx);
  }
}
