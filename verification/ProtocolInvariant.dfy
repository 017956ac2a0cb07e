/** What every step of the session protocol keeps. */
module ProtocolInvariant {
  import opened Handles
  import opened SparseSets
  import opened LeasePool
  import opened SessionProtocol

  /** The activity holds its k-th local pointer. */
  ghost predicate Holds(pc: Pc, k: nat)
  {
    match pc
    case PaTop => false
    case PaCas(_) => false
    case PaReserved => false
    case Done => false
    case PaCreated(_) => k == 0
    case PaPosting(_) => k == 0
    case PaFailed(_) => k == 0
    case PaDrop(_) => k == 0
    case AccDone(_, _) => k == 0
    case Got(_, _, _, _) => k == 0
    case Closing(_, two) => k == 0 || (k == 1 && two)
    case Hanging(_, two) => k == 0 || (k == 1 && two)
    case Hung(_, two) => k == 0 || (k == 1 && two)
    case Leaving(_, two) => k == 0 || (k == 1 && two)
    case _ => k <= 1
  }

  ghost predicate Home(pc: Pc, i: nat)
  {
    Holds(pc, 0) && pc.i == i
  }

  /** The activity is the one that may use record r of slot i. */
  ghost predicate Tok(pc: Pc, r: Record, i: nat)
  {
    match pc
    case PaCreated(h) => r == ReadRec && h == i
    case PaPosting(h) => r == ReadRec && h == i
    case AccDone(h, _) => r == ReadRec && h == i
    case Got(h, r', _, _) => r == r' && h == i
    case Copied(h, r', _, _) => r == r' && h == i
    case Accepting(h) => r == ReadRec && h == i
    case Welcome(h) => r == ReadRec && h == i
    case Reading(h) => r == ReadRec && h == i
    case Bcast(h, _) => r == ReadRec && h == i
    case Target(h, _, _) => r == ReadRec && h == i
    case Arming(h) => r == ReadRec && h == i
    case Armed(h) => r == ReadRec && h == i
    case Wrote(h) => r == WriteRec && h == i
    case Sending(h, j, why) => (r == WriteRec && j == i) || (r == ReadRec && h == i && !why.Drain?)
    case Hanging(h, _) => r == DiscRec && h == i
    case Hung(h, _) => r == DiscRec && h == i
    case Clearing(h) => r == DiscRec && h == i
    case _ => false
  }

  /** The slot a pointer at this address must name. */
  ghost function SlotOf(s: State, a: Addr): int
  {
    match a
    case Local(act, k) => if act < |s.acts| && Holds(s.acts[act], k) then s.acts[act].i else -1
    case _ => a.i
  }

  ghost predicate Frame(s: State)
  {
    && Shaped(s) && |s.sess| > 0 && Ledger(s.pool) && IdleExact(s.pool)
    && forall i :: 0 <= i < |s.sess| ==> s.pool.owned[i] == [ReadOv(i), WriteOv(i)]
  }

  /** No pointer is stale: each one names the slot it belongs to, at its present generation. */
  ghost predicate PointersCurrent(s: State)
    requires Shaped(s)
  {
    forall a :: a in s.pool.ptrs ==>
      0 <= SlotOf(s, a) < |s.sess| && s.pool.ptrs[a] == Handle(SlotOf(s, a), s.pool.slots.gens[SlotOf(s, a)])
  }

  ghost predicate LocalsHeld(s: State)
  {
    forall act, k :: 0 <= act < |s.acts| && 0 <= k && Holds(s.acts[act], k) ==> Has(s, Local(act, k))
  }

  ghost predicate SlotOk(s: State, i: nat)
    requires Shaped(s) && i < |s.sess|
  {
    var x, state := s.sess[i], StateOf(s, i);
    // every outstanding operation is covered by the pointer in its record
    && (x.readIo != NoIo ==> Has(s, ReadOv(i)))
    && (x.sendIo ==> Has(s, WriteOv(i)))
    && (x.discIo ==> Has(s, DiscOv(i)) && state == DISCONNECTING && !x.closed)
    && (Has(s, WriteOv(i)) ==> x.sending)
    && state <= DISCONNECTING
    && (state == IDLE ==> x.handle == NO_HANDLE && x.closed)
    && (state != IDLE ==> x.handle == Handle(i, s.pool.slots.gens[i]) && (Has(s, Table(i)) || x.closed))
    && (state != IDLE && x.closed ==> state == DISCONNECTING)
    && (state != DISCONNECTING ==> !Has(s, DiscOv(i)) && x.discCalls == 0)
    && x.discCalls <= 1 && x.connects <= 1
    && (state <= PENDING ==> x.connects == 0)
  }

  ghost predicate ActOk(s: State, act: nat)
    requires Shaped(s) && act < |s.acts|
  {
    var n := |s.sess|;
    match s.acts[act]
    case PaTop => true
    case PaReserved => true
    case Done => true
    case PaCas(seen) => seen < s.limit
    case PaCreated(i) => i < n && !Has(s, ReadOv(i))
    case PaPosting(i) => i < n && Has(s, ReadOv(i))
    case AccDone(i, _) => i < n && Has(s, ReadOv(i))
    case Got(i, r, _, _) => i < n && Has(s, RecordAddr(r, i)) && (r == DiscRec ==> s.sess[i].closed)
    case Copied(i, r, _, _) => i < n && Has(s, RecordAddr(r, i)) && (r == DiscRec ==> s.sess[i].closed)
    case Bcast(i, rest) => i < n && !Has(s, ReadOv(i)) && forall j :: j in rest ==> j < n
    case Target(i, j, rest) => i < n && j < n && !Has(s, ReadOv(i)) && forall j :: j in rest ==> j < n
    case Accepting(i) => i < n && !Has(s, ReadOv(i))
    case Welcome(i) => i < n && !Has(s, ReadOv(i))
    case Reading(i) => i < n && !Has(s, ReadOv(i))
    case Arming(i) => i < n && !Has(s, ReadOv(i))
    case Armed(i) => i < n && (Has(s, ReadOv(i)) || s.sess[i].closed)
    case Wrote(i) => i < n && !Has(s, WriteOv(i)) && s.sess[i].sending
    case Sending(i, j, why) =>
      && i < n && j < n && s.sess[j].writeLock
      && (why.Relay? ==> forall k :: k in why.rest ==> k < n)
      && (!why.Drain? ==> !Has(s, ReadOv(i)))
      && (!why.Relay? ==> i == j && s.sess[j].sending && (Has(s, WriteOv(j)) || s.sess[j].closed))
    case Hanging(i, _) =>
      i < n && StateOf(s, i) == DISCONNECTING && !s.sess[i].closed && !Has(s, DiscOv(i)) && s.sess[i].discCalls == 0
    case Hung(i, _) =>
      i < n && StateOf(s, i) == DISCONNECTING && !s.sess[i].closed && Has(s, DiscOv(i)) && s.sess[i].discCalls == 0
    case Clearing(i) => i < n && s.sess[i].closed
    case pc => pc.i < n
  }

  /** No other activity uses record r of slot k. */
  ghost predicate Mine(s: State, act: nat, r: Record, k: nat)
  {
    forall b :: 0 <= b < |s.acts| && b != act ==> !Tok(s.acts[b], r, k)
  }

  /** One user at a time for every record: an activity or an outstanding operation. */
  ghost predicate Exclusive(s: State)
  {
    forall a, r, i: nat :: 0 <= a < |s.acts| && Tok(s.acts[a], r, i) ==>
      Mine(s, a, r, i) && (i < |s.sess| ==> !Outstanding(s, r, i))
  }

  ghost predicate Inv(s: State)
  {
    && Frame(s) && PointersCurrent(s) && LocalsHeld(s)
    && (forall i :: 0 <= i < |s.sess| ==> SlotOk(s, i))
    && (forall act :: 0 <= act < |s.acts| ==> ActOk(s, act))
    && Exclusive(s)
  }

  /** The two ways in which a send that its caller does not hold a reference for goes wrong:
      the post succeeds although GetSession had found no session, or it fails after every other
      pointer to the session has gone. */
  ghost predicate Race(s: State, e: Event)
    requires Shaped(s) && Enabled(s, e)
  {
    e.Do? && s.acts[e.act].Sending? &&
    var j := s.acts[e.act].j;
    if e.ok then !Has(s, WriteOv(j)) else Counted(s.pool, WriteOv(j)) && Last(s.pool, s.pool.ptrs[WriteOv(j)])
  }

  /** Giving up this pointer is not the last release of its slot. */
  ghost predicate NotLast(s: State, a: Addr)
    requires Shaped(s)
  {
    Has(s, a) ==> !Last(s.pool, s.pool.ptrs[a])
  }

  // ---------- facts about good states ----------

  lemma PointerCounted(s: State, a: Addr)
    requires Inv(s) && Has(s, a)
    ensures Counted(s.pool, a) && s.pool.ptrs[a].idx == SlotOf(s, a) && StateOf(s, SlotOf(s, a)) != IDLE
  {
    CountedHasRef(s.pool, a);
  }

  lemma HomeLeased(s: State, act: nat)
    requires Inv(s) && act < |s.acts| && Holds(s.acts[act], 0)
    ensures Has(s, Local(act, 0)) && 0 <= s.acts[act].i < |s.sess| && StateOf(s, s.acts[act].i) != IDLE
  {
    PointerCounted(s, Local(act, 0));
  }

  lemma Pinned(s: State)
    requires Inv(s)
    ensures SelfPinned(s.pool)
  {
  }

  lemma NextIsFresh(s: State, i: nat)
    requires Inv(s) && i < |s.sess|
    ensures NextFresh(s.pool, i)
  {
  }
}
