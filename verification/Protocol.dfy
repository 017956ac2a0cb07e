/** The server's session protocol as a state machine.
    An activity is one run of PostAccept or of a completion handler; any number of them interleave.
    Each pool call, each mutex-protected decision and each result of a posted operation is a step of
    its own, so other activities run between storing a session pointer in an overlapped record and
    the post that the pointer is to cover. What sockets and clients do is in the events. */
module SessionProtocol {
  import opened Handles
  import opened SparseSets
  import opened LeasePool

  const IDLE: nat := 0
  const PENDING: nat := 1
  const CONNECTED: nat := 2
  const DISCONNECTING: nat := 3

  /** The handle field of a session that is not leased: index 2^32 - 1 is no slot. */
  const NO_HANDLE: Handle := Decode(INVALID_HANDLE)

  /** Where counted pointers live: the manager's table, the three overlapped records inside a
      session, and the locals of an activity. */
  datatype Addr =
    | Table(i: nat)
    | ReadOv(i: nat)
    | WriteOv(i: nat)
    | DiscOv(i: nat)
    | Local(act: nat, k: nat)

  datatype Record = ReadRec | WriteRec | DiscRec

  datatype ReadIo = NoIo | AcceptIo | RecvIo

  /** A session's fields. readIo, sendIo and discIo say which operation is outstanding on each
      record. closed says that this lease's disconnect has completed, or that there is no lease.
      connects and discCalls count, for the present lease, the moves to Connected and the calls
      of DisconnectEx. */
  datatype Sess = Sess(handle: Handle, readIo: ReadIo, sendIo: bool, discIo: bool, sending: bool,
                       writeLock: bool, closed: bool, connects: nat, discCalls: nat)

  /** Why an activity is inside SendPacket or OnWrite. */
  datatype Why = Greeting | Relay(rest: set<nat>) | Drain

  /** Where an activity stands; `i` is the slot whose session it works for, and `two` says whether
      the handler's inner copy of the pointer exists besides the outer one. */
  datatype Pc =
    | PaTop | PaCas(seen: nat) | PaReserved
    | PaCreated(i: nat) | PaPosting(i: nat) | PaFailed(i: nat) | PaDrop(i: nat)
    | AccDone(i: nat, ok: bool)
    | Got(i: nat, r: Record, accept: bool, ok: bool)
    | Copied(i: nat, r: Record, accept: bool, ok: bool)
    | Accepting(i: nat) | Welcome(i: nat)
    | Reading(i: nat) | Bcast(i: nat, rest: set<nat>) | Target(i: nat, j: nat, rest: set<nat>)
    | Arming(i: nat) | Armed(i: nat)
    | Wrote(i: nat)
    | Sending(i: nat, j: nat, why: Why)
    | Closing(i: nat, two: bool) | Hanging(i: nat, two: bool) | Hung(i: nat, two: bool)
    | Clearing(i: nat)
    | Leaving(i: nat, two: bool)
    | Done

  /** pending is the listener's count of accepts and limit its bound. */
  datatype State = State(pool: Pool<Addr>, sess: seq<Sess>, acts: seq<Pc>, pending: nat, limit: nat)

  /** Start is a call of PostAccept from outside; Dequeue takes one completion from the port;
      Do lets an activity make its next step. `ok` is the result of a socket call or handler,
      `more` whether a reader relays another packet or a send left bytes behind, and `pick` the
      slot that the pool or the broadcast loop takes next. */
  datatype Event =
    | Start
    | Dequeue(i: nat, r: Record, ok: bool)
    | Do(act: nat, ok: bool, more: bool, pick: nat)

  // ---------- helpers ----------

  ghost predicate Shaped(s: State)
  {
    WF(s.pool) && |s.sess| == |s.pool.refs|
  }

  ghost function StateOf(s: State, i: nat): nat
    requires Shaped(s) && i < |s.sess|
  {
    s.pool.slots.states[i]
  }

  ghost predicate Has(s: State, a: Addr)
  {
    a in s.pool.ptrs
  }

  function RecordAddr(r: Record, i: nat): Addr
  {
    match r case ReadRec => ReadOv(i) case WriteRec => WriteOv(i) case DiscRec => DiscOv(i)
  }

  ghost function To(s: State, act: nat, pc: Pc): State
    requires act < |s.acts|
  {
    s.(acts := s.acts[act := pc])
  }

  function Minus1(n: nat): nat
  {
    if n == 0 then COUNT_MAX else n - 1
  }

  /** The deleter's effect on the session's own fields. */
  ghost function Cleaned(x: Sess): Sess
  {
    x.(handle := NO_HANDLE, sending := false, connects := 0, discCalls := 0)
  }

  /** After a release: if it was the last one, the deleter has cleaned the session and the
      post-release callback starts PostAccept. */
  ghost function AfterRelease(s: State, pool: Pool<Addr>, a: Addr): (t: State)
    requires Shaped(s)
    ensures |t.sess| == |s.sess|
  {
    if Counted(s.pool, a) && Last(s.pool, s.pool.ptrs[a]) then
      var k := s.pool.ptrs[a].idx;
      s.(pool := pool, sess := s.sess[k := Cleaned(s.sess[k])], acts := s.acts + [PaTop])
    else s.(pool := pool)
  }

  ghost function DropLocal(s: State, a: Addr): State
    requires Shaped(s)
  {
    AfterRelease(s, Destroy(s.pool, a), a)
  }

  ghost function ResetAt(s: State, a: Addr): State
    requires Shaped(s)
  {
    AfterRelease(s, Reset(s.pool, a), a)
  }

  /** record := GetSession(handle): a copy of the table entry, or null for a dead handle. */
  ghost function Embed(s: State, a: Addr, h: Handle): State
    requires Shaped(s)
  {
    s.(pool := if Live(s.pool.slots, h) then CopyAssign(s.pool, a, Table(h.idx)) else Destroy(s.pool, a))
  }

  ghost function SetSess(s: State, i: nat, x: Sess): State
    requires i < |s.sess|
  {
    s.(sess := s.sess[i := x])
  }

  ghost function SetState(s: State, i: nat, state: nat): State
    requires Shaped(s) && i < |s.sess|
  {
    s.(pool := s.pool.(slots := Moved(s.pool.slots, i, state)))
  }

  // ---------- PostAccept ----------

  ghost predicate AnyIdle(s: State)
    requires Shaped(s)
  {
    exists i :: 0 <= i < |s.sess| && s.pool.slots.states[i] == IDLE
  }

  /** CreateSession on an idle slot: the lease, its table entry and the caller's copy. */
  ghost function Create(s: State, act: nat, i: nat): State
    requires Shaped(s) && i < |s.sess|
  {
    var leased := Acquire(s.pool, Table(i), i, PENDING);
    var fields := s.sess[i].(handle := Handle(i, s.pool.slots.gens[i]), closed := false);
    SetSess(s, i, fields).(pool := CopyConstruct(leased, Local(act, 0), Table(i)))
  }

  // ---------- SendPacket, OnWrite ----------

  /** Where a call of SendPacket or OnWrite returns to. */
  ghost function SendReturns(i: nat, why: Why, ok: bool): Pc
  {
    match why
    case Greeting => if ok then Arming(i) else Closing(i, true)
    case Relay(rest) => Bcast(i, rest)
    case Drain => if ok then Leaving(i, true) else Closing(i, true)
  }

  /** Under the write mutex, up to and including GetSession. */
  ghost function BeginSend(s: State, act: nat, i: nat, j: nat, why: Why): State
    requires Shaped(s) && act < |s.acts| && j < |s.sess|
  {
    var x := s.sess[j].(sending := true, writeLock := true);
    To(SetSess(Embed(s, WriteOv(j), s.sess[j].handle), j, x), act, Sending(i, j, why))
  }

  /** SendPacket: refused when the ring is full; appended only, when a send is outstanding. */
  ghost function SendPacket(s: State, act: nat, i: nat, j: nat, why: Why, fits: bool): State
    requires Shaped(s) && act < |s.acts| && j < |s.sess|
  {
    if !fits then To(s, act, SendReturns(i, why, false))
    else if s.sess[j].sending then To(s, act, SendReturns(i, why, true))
    else BeginSend(s, act, i, j, why)
  }

  // ---------- the steps ----------

  /** The index fields of an activity name slots, and what a step reads is there. */
  ghost predicate CanDo(s: State, act: nat, ok: bool, more: bool, pick: nat)
    requires Shaped(s)
  {
    && act < |s.acts|
    && match s.acts[act]
       case PaTop => true
       case PaCas(_) => true
       case PaReserved => AnyIdle(s) ==> pick < |s.sess| && s.pool.slots.states[pick] == IDLE
       case Welcome(i) => i < |s.sess| && !s.sess[i].writeLock
       case Bcast(i, rest) => i < |s.sess| && (rest == {} || (pick in rest && pick < |s.sess|))
       case Target(i, j, _) => i < |s.sess| && j < |s.sess| && !s.sess[j].writeLock
       case Wrote(i) => i < |s.sess| && !s.sess[i].writeLock
       // a post on a socket whose disconnect has completed fails
       case Armed(i) => i < |s.sess| && (ok ==> !s.sess[i].closed)
       case Sending(i, j, _) => i < |s.sess| && j < |s.sess| && (ok ==> !s.sess[j].closed)
       case Done => false
       case pc => pc.i < |s.sess|
  }

  ghost function DoStep(s: State, act: nat, ok: bool, more: bool, pick: nat): (t: State)
    requires Shaped(s) && CanDo(s, act, ok, more, pick)
    ensures |t.sess| == |s.sess|
  {
    match s.acts[act]
    // Listener::PostAccept
    case PaTop => To(s, act, if s.pending >= s.limit then Done else PaCas(s.pending))
    case PaCas(seen) =>
      if s.pending == seen then To(s.(pending := s.pending + 1), act, PaReserved) else To(s, act, PaTop)
    case PaReserved =>
      if AnyIdle(s) then To(Create(s, act, pick), act, PaCreated(pick))
      else To(s.(pending := Minus1(s.pending)), act, Done)
    case PaCreated(i) =>
      To(s.(pool := CopyAssign(s.pool, ReadOv(i), Local(act, 0))), act, PaPosting(i))
    case PaPosting(i) =>
      if ok then To(SetSess(s, i, s.sess[i].(readIo := AcceptIo)), act, PaDrop(i))
      else To(s, act, PaFailed(i))
    case PaFailed(i) => To(s.(pending := Minus1(s.pending)), act, Closing(i, false))
    case PaDrop(i) => To(DropLocal(s, Local(act, 0)), act, PaTop)
    // IocpCore::WorkerThread, Dispatch and HandleError
    case AccDone(i, good) =>
      To(s.(pending := Minus1(s.pending), acts := s.acts + [PaTop]), act, Got(i, ReadRec, true, good))
    case Got(i, r, accept, good) =>
      To(s.(pool := CopyConstruct(s.pool, Local(act, 1), RecordAddr(r, i))), act, Copied(i, r, accept, good))
    case Copied(i, r, accept, good) =>
      if r == DiscRec && !good then To(s, act, Clearing(i))
      else
        To(ResetAt(s, RecordAddr(r, i)), act,
           if !good then Closing(i, true)
           else match r
                case DiscRec => Clearing(i)
                case WriteRec => Wrote(i)
                case ReadRec => if accept then Accepting(i) else Reading(i))
    // Listener::HandleAccept and Session::Connect
    case Accepting(i) =>
      if ok && Live(s.pool.slots, s.sess[i].handle) && StateOf(s, i) == PENDING then
        To(SetSess(SetState(s, i, CONNECTED), i, s.sess[i].(connects := s.sess[i].connects + 1)), act, Welcome(i))
      else To(s, act, Closing(i, true))
    case Welcome(i) => SendPacket(s, act, i, i, Greeting, ok)
    // Session::OnRead, PacketHandler and SessionManager::Broadcast
    case Reading(i) =>
      if !ok then To(s, act, Closing(i, true))
      else if more then
        To(s, act, Bcast(i, set j | 0 <= j < |s.sess| && s.pool.slots.states[j] == CONNECTED && j != i))
      else To(s, act, Arming(i))
    case Bcast(i, rest) =>
      if rest == {} then To(s, act, Reading(i))
      else if Counted(s.pool, Table(pick)) then To(s, act, Target(i, pick, rest - {pick}))
      else To(s, act, Bcast(i, rest - {pick}))
    case Target(i, j, rest) => SendPacket(s, act, i, j, Relay(rest), ok)
    // Session::RegisterRead
    case Arming(i) =>
      if ok then To(Embed(s, ReadOv(i), s.sess[i].handle), act, Armed(i)) else To(s, act, Closing(i, true))
    case Armed(i) =>
      if ok then To(SetSess(s, i, s.sess[i].(readIo := RecvIo)), act, Leaving(i, true))
      else To(ResetAt(s, ReadOv(i)), act, Closing(i, true))
    // Session::OnWrite and RegisterWriteInternal
    case Wrote(i) =>
      if !ok then To(s, act, Closing(i, true))
      else if more then BeginSend(s, act, i, i, Drain)
      else To(SetSess(s, i, s.sess[i].(sending := false)), act, Leaving(i, true))
    case Sending(i, j, why) =>
      if ok then To(SetSess(s, j, s.sess[j].(sendIo := true, writeLock := false)), act, SendReturns(i, why, true))
      else
        var t := ResetAt(s, WriteOv(j));
        To(SetSess(t, j, t.sess[j].(writeLock := false)), act, SendReturns(i, why, false))
    // Session::Disconnect
    case Closing(i, two) =>
      if Live(s.pool.slots, s.sess[i].handle) && StateOf(s, i) in {PENDING, CONNECTED} then
        To(SetState(s, i, DISCONNECTING), act, Hanging(i, two))
      else To(s, act, Leaving(i, two))
    case Hanging(i, two) => To(Embed(s, DiscOv(i), s.sess[i].handle), act, Hung(i, two))
    case Hung(i, two) =>
      To(SetSess(s, i, s.sess[i].(discIo := ok, discCalls := s.sess[i].discCalls + 1)), act, Leaving(i, two))
    // Session::Clear and SessionManager::DisconnectSession
    case Clearing(i) =>
      To(if Live(s.pool.slots, s.sess[i].handle) then ResetAt(s, Table(s.sess[i].handle.idx)) else s,
         act, Leaving(i, true))
    // the handler's pointers go out of scope, the inner one first
    case Leaving(i, two) =>
      if two then To(DropLocal(s, Local(act, 1)), act, Leaving(i, false))
      else To(DropLocal(s, Local(act, 0)), act, Done)
    case Done => s
  }

  ghost predicate Outstanding(s: State, r: Record, i: nat)
    requires i < |s.sess|
  {
    match r
    case ReadRec => s.sess[i].readIo != NoIo
    case WriteRec => s.sess[i].sendIo
    case DiscRec => s.sess[i].discIo
  }

  ghost predicate Enabled(s: State, e: Event)
    requires Shaped(s)
  {
    match e
    case Start => true
    case Dequeue(i, r, _) => i < |s.sess| && Outstanding(s, r, i)
    case Do(act, ok, more, pick) => CanDo(s, act, ok, more, pick)
  }

  ghost function WithoutIo(x: Sess, r: Record): Sess
  {
    match r
    case ReadRec => x.(readIo := NoIo)
    case WriteRec => x.(sendIo := false)
    case DiscRec => x.(discIo := false, closed := true)
  }

  /** A completion leaves the port: its worker copies the record's pointer into a new local. */
  ghost function TakeCompletion(s: State, i: nat, r: Record, ok: bool): State
    requires Shaped(s) && i < |s.sess|
  {
    var pc := if r == ReadRec && s.sess[i].readIo == AcceptIo then AccDone(i, ok) else Got(i, r, false, ok);
    var pool := CopyConstruct(s.pool, Local(|s.acts|, 0), RecordAddr(r, i));
    SetSess(s, i, WithoutIo(s.sess[i], r)).(pool := pool, acts := s.acts + [pc])
  }

  ghost function Step(s: State, e: Event): State
    requires Shaped(s) && Enabled(s, e)
  {
    match e
    case Start => s.(acts := s.acts + [PaTop])
    case Dequeue(i, r, ok) => TakeCompletion(s, i, r, ok)
    case Do(act, ok, more, pick) => DoStep(s, act, ok, more, pick)
  }
}
