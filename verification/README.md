# Verified model of the session server and the task scheduler

This project models, in Dafny 4.11, the stateful cores of a Windows IOCP game server and of a
work-stealing task scheduler, and proves what they keep in every run.

**Session leasing.** `SparseSet.dfy` is the dense-array slot set with generation-stamped handles, as
a class over arrays. `SparsePool.dfy` is the pool with its counted pointers, as a class; both are
proved against plain functions (`SparseSet.dfy`, `LeasePool.dfy`), and `HandleRuns.dfy` and
`PointerRuns.dfy` carry these to whole runs. The `Protocol*.dfy` files put the pool under the server:
a state machine whose activities are runs of PostAccept and of completion handlers. Every pool call,
every decision under a mutex and every result of a posted operation is a step of its own, so other
activities run between storing a session pointer in an overlapped record and the post it is to cover.
`Protocol.dfy` defines the steps, `ProtocolInvariant.dfy` what they keep, and `ProtocolSteps`, `Cases`,
`Sends` and `Leases` prove it step by step. `ProtocolTheorems` says exactly which steps keep it,
`ProtocolEffects` that the counted protocol refines one without counts, and `ProtocolRuns`, `Accepts`,
`Leaks`, `Endings`, `Dirty`, `Sending` and `Service` what holds in whole runs. `ProtocolReach` and `Scenes` build runs, with
which `ProtocolRace` and `Recycle` show what can happen.

**Byte streams.** `Framing.dfy` is the length-prefixed parser on plain sequences, `OutQueue.dfy` the
outgoing queue on plain sequences, `SessionStreams.dfy` the double-mapped ring and the session class
that runs both over it. `Relay.dfy` has the packet handlers and the greeting. `Hub.dfy` has many
sessions at once, from fragments coming in to partial sends going out; a single SendPacket is a step,
so broadcasts of several readers interleave, and a target that went down may have been replaced by a
later lease of its slot. `HubRuns.dfy` says what every client hears, `HubDelivery.dfy` that all of it
can always still arrive.

**Scheduler.** `Worker.dfy` is the worker class with its two rings, `Scheduler.dfy` all workers under
every interleaving, `CentralQueue.dfy` the simple worker it is compared with, `WorkerLocks.dfy` the
locks that make each section one step, and `WorkStealing.dfy` the single-file scheduler.
`SchedulerProgress.dfy` and `WorkStealingProgress.dfy` show that no reachable state is stuck, and in which
order a worker takes and runs tasks.

Check everything with `dafny verify dfyconfig.toml`.

## Findings

- The claim that a pointer inside a session is never the last one to be released is **false**.
  Broadcast calls SendPacket on other sessions without holding a counted pointer to them. If the
  target's disconnect completes and its handlers finish between GetSession and a failing WSASend, the
  Reset in RegisterWriteInternal is the last release; the deleter then resets the same pointer again
  and the counter of the now idle slot is left at 2^64 - 1. `StepKeepsIff` and `LastResetIffRace` give
  the exact condition for every step, `RaceFromStart` a run from start-up into it, and
  `HolderNeverRaces` and `AtomicSendsAreSafe` two ways in which it cannot happen.
- The claim that every lease starts clean is **false**. A relay that looked its target up before the
  target went down sets the sending flag on the idle slot, its post fails and nothing clears the flag.
  The next client on that slot is never sent a byte. `LeaseStartsDirtyIff` says exactly when a lease
  starts like this, `DirtyLeaseFromStart` gives a run from start-up, `DirtyLeaseIsSilent` the
  consequence and `AtomicLookupsAreClean` a guard. A relay whose post fails on a connected session stalls
  it in the same way, because Broadcast ignores SendPacket's answer (`StalledIff`).
- A failed accept post, a failed disconnect post and a disconnect that completes with an error each
  leave a counted pointer behind for good: the slot is never recycled (`LeakIsForever`). Nothing else
  leaks (`QuietIsIdleIff`).
- With a single thread TryFetchGlobal can ask for one task more than the global queue holds
  (`FetchFitsIff`).
- A chat packet of more than 65527 bytes is relayed as at most seven bytes, because its new size is
  computed modulo 2^16 (`RelayedWholeIff`). One of exactly 65528 bytes becomes an empty packet; sent to a
  quiet session it is a send of no bytes, behind which nothing can go out (`EmptyPacketBlocks`).
- The size field of the greeting leaves out the eight bytes of the handle field, so the end of its text
  is never sent (`GreetingIsCut`).
- The comment on SparseSet::Pop says that it returns a handle that is in the given state; the code
  takes an idle slot and moves it to that state. The model follows the code.

## Hypotheses

- A post on a socket whose disconnect has completed, with either outcome, fails synchronously. So
  does a send on the socket of a slot that is not leased.
- Each successful post has exactly one completion.
- The pool has at least one and fewer than 2^32 slots. Generations may wrap: `RunKeepsLedgerIff` says
  exactly which recycle is harmful, and the protocol never has stale pointers.
- The batching scheduler has at least two threads.

## Model

| member | source | states |
|---|---|---|
| `Handles.EncodeDecode` | Network/Common/Pool/SparseSet.hpp:182-187 | a handle has its index in the lower and its generation in the upper 32 bits, and taking it apart gives both back |
| `Handles.DecodeEncode` | Network/Common/Pool/SparseSet.hpp:170-187 | every 64-bit word is the handle of its two halves |
| `SparseSets.SparseSet.constructor` | Network/Common/Pool/SparseSet.hpp:49-57 | a new set satisfies the permutation, cursor and partition invariant, with all slots idle at generation 0 |
| `SparseSets.SparseSet.IsValid` | Network/Common/Pool/SparseSet.hpp:170-180 | accepts exactly the words that are live handles of the index-to-state map |
| `SparseSets.SparseSet.ValidIffIssued` | Network/Common/Pool/SparseSet.hpp:170-187 | the words accepted are exactly those that GetHandle gives out for the slots |
| `SparseSets.SparseSet.GetHandle` | Network/Common/Pool/SparseSet.hpp:182-187 | the handle of a slot decodes to that slot at its present generation |
| `SparseSets.SparseSet.GetState` | Network/Common/Pool/SparseSet.hpp:189-195 | the abstract state of a live handle, all ones for a dead one |
| `SparseSets.SparseSet.SwapPositions` | Network/Common/Pool/SparseSet.hpp:119-121 | exchanging two dense positions keeps dense a permutation with where as its inverse |
| `SparseSets.SparseSet.IncrementState` | Network/Common/Pool/SparseSet.hpp:106-127 | keeps the whole invariant and moves exactly this slot to the next state, failing exactly at the last one |
| `SparseSets.SparseSet.DecrementState` | Network/Common/Pool/SparseSet.hpp:129-150 | keeps the whole invariant and moves exactly this slot to the previous state, failing exactly at idle |
| `SparseSets.SparseSet.MoveToState` | Network/Common/Pool/SparseSet.hpp:87-105 | succeeds exactly for live handles and existing states, terminates, and changes exactly that slot's state in the index-to-state map, across empty partitions too |
| `SparseSets.SparseSet.Push` | Network/Common/Pool/SparseSet.hpp:76-85 | succeeds exactly for live handles; the slot becomes idle with the next 32-bit generation and nothing else changes |
| `SparseSets.SparseSet.Pop` | Network/Common/Pool/SparseSet.hpp:59-74 | fails exactly when the state does not exist or no slot is idle; otherwise leases one idle slot by its live handle |
| `SparseSets.SparseSet.GetIndicesInState` | Network/Common/Pool/SparseSet.hpp:152-168 | lists every slot of the state, each once, by a live handle |
| `SparseSets.SparseSet.PositionHasState` | Network/Common/Pool/SparseSet.hpp:44-46 | the stretch between two cursors holds only slots of that state |
| `HandleRuns.GenerationCountsRecycles` | Network/Common/Pool/SparseSet.hpp:76-85 | after any run of leases, moves and returns a slot's generation counts its returns modulo 2^32 |
| `HandleRuns.HandleLiveIffWrapped` | Network/Common/Pool/SparseSet.hpp:170-180 | a handle once live is accepted after a run exactly when its slot was returned a multiple of 2^32 times |
| `LeasePool.SharedIsNotLast` | Network/Common/Pool/SparsePool.hpp:100-119 | with two counted pointers to a slot neither release is the last |
| `LeasePool.LastIsOnlyOwner` | Network/Common/Pool/SparsePool.hpp:106-107 | when the last reference goes, exactly one pointer named the slot |
| `LeasePool.ReleaseSettles` | Network/Common/Pool/SparsePool.hpp:100-119 | giving back a surplus reference makes all counts right again; the last one makes the slot idle with a new generation and the deleter finds nothing to reset |
| `LeasePool.AcquireKeeps` | Network/Common/Pool/SparsePool.hpp:49-65 | a lease starts with one reference and keeps every count equal to its number of pointers |
| `LeasePool.CopyConstructKeeps` | Network/Common/Pool/SharedPoolPtr.hpp:48-54 | the copy names what the original names, which keeps its own, and the counts and idleness stay exact, also from a stale pointer |
| `LeasePool.CopyAssignKeeps` | Network/Common/Pool/SharedPoolPtr.hpp:56-72 | assignment makes the target name what the source names and changes no other pointer; counts and idleness stay exact, also when it gives up the last reference to the old slot |
| `LeasePool.SelfAssignment` | Network/Common/Pool/SharedPoolPtr.hpp:57-82 | assigning a pointer to itself, by copy or by move, changes nothing |
| `LeasePool.MoveConstructKeeps` | Network/Common/Pool/SharedPoolPtr.hpp:74-79 | the target names what the source named, the source is null, no other pointer changes, and the counts stay exact without being touched |
| `LeasePool.MoveAssignKeeps` | Network/Common/Pool/SharedPoolPtr.hpp:81-93 | the same for move assignment, which gives up the target's old reference; counts and idleness stay exact |
| `LeasePool.AcquireThenMove` | Network/Server/SessionManager.cpp:48-62 | acquiring into a local and moving it to the table is acquiring in the table |
| `LeasePool.DestroyKeeps` | Network/Common/Pool/SharedPoolPtr.hpp:95-100 | destruction keeps the counts and idleness exact and recycles the slot exactly on the last reference |
| `LeasePool.ResetKeepsIff` | Network/Common/Pool/SharedPoolPtr.hpp:122-132 | Reset keeps the counts exactly unless it is the last release of a pointer stored inside the object it pins, when the counter ends at 2^64 - 1 |
| `LeasePool.ResetLastInside` | Network/Server/SessionManager.cpp:14-20 | the deleter's second Reset of such a pointer wraps the counter of a slot nobody points to |
| `PointerRuns.StepKeepsIff` | Network/Common/Pool/SharedPoolPtr.hpp:36-132 | every pointer operation keeps counts and idleness exact if and only if it is not a recycle that finds a stale pointer with the slot's next handle |
| `PointerRuns.RunKeepsLedgerIff` | Network/Common/Pool/SharedPoolPtr.hpp:36-132 | over every run of acquire, copy, move, assign, reset and destroy each count is at all times the number of pointers with a live handle and a slot is idle exactly at zero, if and only if no recycle brings a stale pointer back to life |
| `PointerRuns.EmptyPoolIsSound` | Network/Common/Pool/SparsePool.hpp:22-25 | a new pool satisfies that invariant |
| `PointerRuns.ReviveBreaks` | Network/Common/Pool/SparseSet.hpp:82-82 | a stale pointer that carries the next handle breaks the counts at the recycle that reaches it, whether by destruction, Reset, copy or move assignment |
| `PointerRuns.StaleUntilFullTurn` | Network/Common/Pool/SparseSet.hpp:76-85 | a handle can be brought back to life by the next recycle exactly when its slot has been recycled one short of a multiple of 2^32 times since it was live |
| `SparsePools.SparsePool.constructor` | Network/Common/Pool/SparsePool.hpp:22-25 | a new pool is idle throughout, with no references and no pointers |
| `SparsePools.SparsePool.AddRef` | Network/Common/Pool/SparsePool.hpp:89-98 | adds one reference to a live handle and does nothing for a dead one |
| `SparsePools.SparsePool.Delete` | Network/Server/SessionManager.cpp:14-20 | the deleter resets exactly the pointers stored in the object, as pointers to the object's own slot |
| `SparsePools.SparsePool.ReleaseRef` | Network/Common/Pool/SparsePool.hpp:100-119 | over the slot arrays, does what the abstract release does, and answers whether it was the last |
| `SparsePools.SparsePool.Acquire` | Network/Common/Pool/SparsePool.hpp:49-65 | null exactly when the state does not exist or nothing is idle, otherwise the abstract lease of an idle slot |
| `SparsePools.SparsePool.CopyConstruct` | Network/Common/Pool/SharedPoolPtr.hpp:48-54 | the stored form does what the abstract copy does |
| `SparsePools.SparsePool.CopyAssign` | Network/Common/Pool/SharedPoolPtr.hpp:56-72 | the stored form does what the abstract assignment does, self-assignment included |
| `SparsePools.SparsePool.MoveConstruct` | Network/Common/Pool/SharedPoolPtr.hpp:74-79 | the stored form does what the abstract move does |
| `SparsePools.SparsePool.MoveAssign` | Network/Common/Pool/SharedPoolPtr.hpp:81-93 | the stored form does what the abstract move assignment does |
| `SparsePools.SparsePool.Destroy` | Network/Common/Pool/SharedPoolPtr.hpp:95-100 | the stored form does what the abstract destruction does |
| `SparsePools.SparsePool.Reset` | Network/Common/Pool/SharedPoolPtr.hpp:122-132 | the stored form does what the abstract reset does, and answers whether it was the last |
| `ProtocolCases.PostAcceptCounts` | Network/Server/Listener.cpp:90-113 | reading, raising and lowering the accept counter keeps the protocol invariant |
| `ProtocolLeases.CreateKeeps` | Network/Server/SessionManager.cpp:48-62 | leasing a session for an accept keeps the invariant; the lease starts pending under the slot's generation with no operation outstanding and no pointer in its records, and inherits the sending flag |
| `ProtocolCases.AcceptEmbedded` | Network/Server/Listener.cpp:121-127 | storing the session pointer in the read record keeps the invariant |
| `ProtocolCases.AcceptPosted` | Network/Server/Listener.cpp:129-148 | either result of posting the accept keeps the invariant |
| `ProtocolCases.AcceptCounted` | Network/Server/IocpCore.cpp:159-161 | lowering the counter for a completed accept and starting PostAccept keeps the invariant |
| `ProtocolLeases.DequeueKeeps` | Network/Server/IocpCore.cpp:137-157 | every outstanding operation's record still holds its pointer when the completion is taken, and taking it keeps the invariant |
| `ProtocolCases.InnerCopied` | Network/Server/IocpCore.cpp:62-88 | the handler's own copy keeps the invariant |
| `ProtocolCases.RecordReset` | Network/Server/IocpCore.cpp:86-88 | resetting the record keeps the invariant and is never the last release |
| `ProtocolCases.ConnectDecided` | Network/Server/Session.cpp:196-210 | either outcome of Connect's decision keeps the invariant |
| `ProtocolCases.ConnectsOnce` | Network/Server/Session.cpp:196-210 | a session becomes connected exactly if it was pending, at most once per lease |
| `ProtocolSends.ReadArmed` | Network/Server/Session.cpp:34-37 | storing the pointer for a receive keeps the invariant; it is missing only if the session is closed |
| `ProtocolSends.ReadPosted` | Network/Server/Session.cpp:39-58 | a posted receive is covered by the pointer in its record |
| `ProtocolSends.ReadRefused` | Network/Server/Session.cpp:43-57 | a failed receive post gives its pointer back without releasing the session |
| `ProtocolSends.NoWriter` | Network/Server/Session.cpp:160-182 | with no send under way and the write mutex free, nobody uses the write record |
| `ProtocolSends.SendStarted` | Network/Server/Session.cpp:105-112 | entering a send section keeps the invariant: one send at a time, its pointer stored |
| `ProtocolSends.SendDrained` | Network/Server/Session.cpp:147-150 | ending the sending state leaves nothing on the write record |
| `ProtocolSends.SendPosted` | Network/Server/Session.cpp:114-133 | a posted send whose pointer was stored is covered |
| `ProtocolSends.SendFailed` | Network/Server/Session.cpp:118-131 | a failed send post keeps the invariant when its pointer is not the last one |
| `ProtocolSending.FailureEndsLease` | Network/Server/IocpCore.cpp:62-135 | whatever fails on a session, be it a completion, a handler or a post of its own handler for the accept, the greeting, the rest of the queue or a receive: when the handler is done, the session is disconnecting or has gone back to the pool |
| `ProtocolSending.StalledIff` | Network/Server/Session.cpp:105-182 | in every race-free run, a pending or connected session that nobody is closing and whose write record nobody uses is marked as sending without a send outstanding if and only if a relay's post failed on its slot since it last went back to the pool |
| `ProtocolSending.FlagFalls` | Network/Server/Session.cpp:147-150 | a session stops being marked as sending only when its handler finds nothing left to send or when it goes back to the pool |
| `ProtocolSends.CloseDecided` | Network/Server/Session.cpp:231-258 | only one activity per lease moves the session to disconnecting |
| `ProtocolSends.DisconnectEmbedded` | Network/Server/Session.cpp:260-262 | the pointer for the disconnect is always found and stored |
| `ProtocolSends.DisconnectPosted` | Network/Server/Session.cpp:264-280 | DisconnectEx is called at most once per lease, and covered if posted |
| `ProtocolSends.TableCleared` | Network/Server/SessionManager.cpp:69-76 | clearing the table entry is never the last release |
| `ProtocolLeases.InnerLeft` | Network/Server/IocpCore.cpp:86-135 | the inner local pointer going out of scope is never the last release |
| `ProtocolLeases.OuterLeft` | Network/Server/IocpCore.cpp:137-174 | dropping a local pointer while others remain keeps the invariant |
| `ProtocolLeases.LastIsAlone` | Network/Common/Pool/SparsePool.hpp:106-107 | when a local pointer is the last one, no operation is outstanding, no record or table entry names the slot, and its disconnect has completed |
| `ProtocolLeases.OuterLeftLast` | Network/Common/Pool/SparsePool.hpp:100-119 | recycling keeps the invariant: the records are empty, the slot is idle and clean with the next generation, and the callback starts PostAccept |
| `ProtocolTheorems.RaceBreaks` | Network/Server/Session.cpp:105-134 | a racing send leaves an operation outstanding without a pointer in its record if its post succeeds, and an idle slot with its counter at 2^64 - 1 if it fails |
| `ProtocolTheorems.LastResetIffRace` | Network/Common/Pool/SharedPoolPtr.hpp:122-132 | a Reset of a pointer in a record or in the table is the last release of its session if and only if it is a racing send that failed |
| `ProtocolTheorems.DeleterFindsNothing` | Network/Server/SessionManager.cpp:14-20 | when the last local pointer goes, the records that the deleter clears hold no pointer, and PostAccept is started |
| `ProtocolTheorems.StepKeepsIff` | Network/Server/IocpCore.cpp:62-174 | every step of the protocol keeps the invariant exactly unless it is a send whose post succeeds without a stored pointer or fails when that pointer is the last |
| `ProtocolEffects.StepAsUncounted` | Network/Common/Pool/SparsePool.hpp:89-119 | off the race the counted protocol does to pointers, slots and session fields exactly what a protocol with plain sets of pointers does |
| `ProtocolRuns.InitialIsGood` | Network/Server/ServerService.hpp:17-32 | a server before its first accept satisfies the invariant |
| `ProtocolRuns.RunKeepsInvariant` | Network/Server/IocpCore.cpp:137-174 | the invariant holds after every run that avoids the race |
| `ProtocolRuns.HolderNeverRaces` | Network/Server/Session.cpp:136-158 | a sender that holds a pointer to its target never races |
| `ProtocolRuns.AtomicSendsAreSafe` | Network/Server/Session.cpp:160-182 | if no other activity moves inside send sections, the invariant holds in every run from start-up |
| `ProtocolRuns.OutstandingIsCovered` | Network/Server/IocpCore.cpp:62-174 | every outstanding operation is pinned by a counted, current pointer in its own record |
| `ProtocolRuns.OutstandingKeepsLease` | Network/Common/Pool/SparsePool.hpp:100-119 | no step cleans, idles or regenerates a slot with an outstanding operation |
| `ProtocolRuns.IdleIffUnreferenced` | Network/Server/SessionManager.cpp:48-76 | a slot is idle exactly when no table entry, record or running activity names it |
| `ProtocolRuns.StepFollowsLifecycle` | Network/Server/Session.cpp:196-285 | a lease only goes from idle to pending, possibly connected, disconnecting and back to idle, clean and with the next generation |
| `ProtocolLeaks.LeakIsForever` | Network/Server/IocpCore.cpp:65-68 | a record that keeps its pointer with no operation and no user keeps its slot leased in every run from then on |
| `ProtocolLeaks.FailedAcceptLeaks` | Network/Server/Listener.cpp:136-146 | an accept that cannot be posted leaves such a record |
| `ProtocolLeaks.FailedDisconnectLeaks` | Network/Server/Session.cpp:266-277 | a disconnect that cannot be posted leaves such a record |
| `ProtocolLeaks.FailedCompletionLeaks` | Network/Server/IocpCore.cpp:65-68 | a disconnect that completes with an error leaves such a record |
| `ProtocolEndings.StepKept` | Network/Server/IocpCore.cpp:62-174 | every pointer in a record or in the table is there for an operation, an activity or one of the three failures |
| `ProtocolEndings.QuietIsIdleIff` | Network/Common/Pool/SparsePool.hpp:100-119 | in every race-free run from start-up, a slot with no operation outstanding and no activity on it is idle if and only if no accept post, disconnect post or disconnect completion ever failed on it |
| `ProtocolEndings.LeaseEndsWhenQuiet` | Network/Server/SessionManager.cpp:14-76 | a lease under way on which nothing fails is over once the slot is quiet: idle, without handle and table entry, and its generation counts its returns |
| `ProtocolDirty.LeaseStartsDirtyIff` | Network/Server/Session.cpp:172-179 | in every race-free run a lease starts with the sending flag set if and only if a relay entered SendPacket on its slot while that was idle |
| `ProtocolDirty.AtomicLookupsAreClean` | Network/Server/SessionManager.cpp:83-91 | if no other activity moves between finding a session in the table and entering its SendPacket, every lease starts clean |
| `ProtocolDirty.DirtyLeaseIsSilent` | Network/Server/Session.cpp:160-182 | a lease that starts with the flag set never has a send outstanding until its slot is returned |
| `ProtocolAccepts.StepKeepsAccepts` | Network/Server/Listener.cpp:90-118 | the accept counter is posted accepts plus reservations under way, at most its limit, and is never lowered at zero |
| `ProtocolAccepts.RunKeepsAccepts` | Network/Server/Listener.cpp:150-153 | the same after every race-free run of PostAccept calls and accept completions |
| `ProtocolAccepts.AcceptsFromStart` | Network/Server/Listener.cpp:90-118 | the same in every race-free run from start-up |
| `ProtocolService.AcceptsAreReplenished` | Network/Server/Listener.cpp:90-118 | in every race-free run in which no accept post failed, the accepts are as many as allowed, or PostAccept is at work, or no session is idle |
| `ProtocolService.BroadcastServesAll` | Network/Server/SessionManager.cpp:78-93 | a reader goes on to its next packet only when it has looked up exactly the sessions that were connected when it took the packet up, without its own |
| `ProtocolService.SuccessKeepsSessions` | Network/Server/IocpCore.cpp:86-135 | in a race-free run in which every operation and handler succeeds no session is ever disconnected |
| `ProtocolRace.RaceIsReachable` | Network/Server/SessionManager.cpp:78-93 | from every good state with a reading session and a quiet connected peer some run wraps the peer's counter |
| `ProtocolRace.RaceFromStart` | Network/Server/Session.cpp:105-134 | from start-up, with two slots and two accepts allowed, some run wraps the counter of any given slot in its last step |
| `ProtocolRace.DirtyLeaseFromStart` | Network/Server/Session.cpp:172-179 | from start-up some race-free run gives any given slot a lease that starts with the sending flag set and cannot send |
| `ProtocolRecycle.DisconnectRecycles` | Network/Server/IocpCore.cpp:101-106 | the handler of a successful disconnect, with no other operation or activity on the session and no earlier failure, runs to an idle, clean slot of the next generation |
| `Framing.ParseIsSound` | Network/Server/Session.cpp:64-90 | the packets executed and the rest are exactly the stream; each packet is well formed and accepted; the rest holds no packet to execute and leaves room in the buffer; the session gives up exactly at a bad size or a refused packet |
| `Framing.ParseSplit` | Network/Server/Session.cpp:61-103 | parsing a stream in two receives is parsing it in one |
| `Framing.RejectionIsFinal` | Network/Server/Session.cpp:71-84 | bytes that arrive after a rejection change neither the packets nor the verdict |
| `Framing.FragmentationIsInvisible` | Network/Server/Session.cpp:61-103 | for every split into receives the packets executed and the point of rejection are those of one pass over the whole stream |
| `Framing.ParseFlatten` | Network/Server/Session.cpp:64-90 | well-formed packets written one after the other parse back to themselves |
| `Framing.FragmentsRoundTrip` | Network/Server/Session.cpp:61-103 | any fragmentation of well-formed packets delivers exactly those packets |
| `Framing.PrefixDeliversPrefix` | Network/Server/Session.cpp:64-90 | a stream broken off anywhere delivers the first packets and rejects nothing |
| `OutQueue.StepKeepsGood` | Network/Server/Session.cpp:105-182 | sent bytes and waiting bytes are together the packets taken in; a session not sending has nothing waiting; an outstanding send covers the front of the queue |
| `OutQueue.CopiedAreTaken` | Network/Server/Session.cpp:160-170 | the packets taken in are exactly those that fitted, in order |
| `OutQueue.WireIsPrefix` | Network/Server/Session.cpp:105-182 | over every interleaving of sends and partial completions the wire carries a prefix of the packets taken in, and all of them once drained |
| `OutQueue.PostCoversAll` | Network/Server/Session.cpp:105-112 | a successful post covers everything that waits, and taking in a packet behind a send under way leaves that send alone |
| `OutQueue.DrainsIff` | Network/Server/Session.cpp:105-182 | in every run in which all posts succeeded and no send broke, what waits is on its way, and some completions put all of it on the wire if and only if the send in flight has a byte to send |
| `OutQueue.NonEmptyDrains` | Network/Server/Session.cpp:136-158 | without empty packets everything can always reach the wire |
| `OutQueue.EmptyPacketBlocks` | Network/Server/Session.cpp:160-182 | an empty packet on a quiet session leaves nothing behind it a way out |
| `SessionStreams.SpanWrite` | Network/Common/MagicBuffer.cpp:35-47 | a byte written through either mapping extends what is read across the wrap |
| `SessionStreams.SpanRenormalised` | Network/Server/Session.cpp:92-95 | subtracting the size once from both offsets changes no byte that is read |
| `SessionStreams.Ring.Append` | Network/Server/Session.cpp:168-170 | copying at the write offset appends to the contents and touches none of the bytes waiting |
| `SessionStreams.Ring.Renormalise` | Network/Server/Session.cpp:142-145 | one conditional subtraction brings the read offset below the size and keeps the contents |
| `SessionStreams.Session.constructor` | Network/Server/Session.cpp:16-23 | a new session has two empty rings and sends nothing |
| `SessionStreams.Session.ExecuteReady` | Network/Server/Session.cpp:64-90 | the parse loop over the ring executes exactly what one pass over the waiting bytes executes, and leaves its rest |
| `SessionStreams.Session.OnRead` | Network/Server/Session.cpp:61-103 | a receive continues the parse; the overflow branch is never the reason to fail, because room is left whenever nothing was rejected |
| `SessionStreams.Session.SendPacket` | Network/Server/Session.cpp:160-182 | over the ring, does what the plain queue does: fails exactly when ring contents and packet exceed the ring or a post it needs fails, appends exactly then when they fit, posts everything if nothing was under way, and never touches the bytes of an outstanding send |
| `SessionStreams.Session.RegisterWrite` | Network/Server/Session.cpp:105-134 | a posted send covers everything waiting in the ring, a failed one nothing |
| `SessionStreams.Session.OnWrite` | Network/Server/Session.cpp:136-158 | over the ring, a partial completion does what the plain queue does |
| `Relay.LittleRoundTrip` | Network/Server/PacketHandler.cpp:38-42 | fields written little-endian read back |
| `Relay.RelayedWholeIff` | Network/Server/PacketHandler.cpp:36-55 | a packet is relayed whole, under its id, with the sender's handle and the original payload, exactly when eight more bytes fit its 16-bit size; a longer one is cut to that size modulo 2^16 |
| `Relay.GreetingIsCut` | Network/Server/Session.cpp:212-216 | the greeting is framed correctly, but the last seven characters of its text and the end mark are not sent |
| `Hub.RelayKeeps` | Network/Server/SessionManager.cpp:83-91 | one SendPacket of one broadcast, among any number of broadcasts under way, keeps every stream right, also when the target's slot has been leased again |
| `Hub.StepKeepsGood` | Network/Server/Session.cpp:61-221 | so does every other step: a receive, taking up a packet, a partial send, a session joining, being greeted or leaving |
| `HubRuns.EndToEnd` | Network/Server/PacketHandler.cpp:36-55 | for every interleaving of senders, any fragmentation in and any partial sends out, each wire is a prefix of whole packets, every one the greeting or a packet of one pass over its sender's stream, rewritten; those of one sender come in its order and never twice |
| `HubRuns.NothingIsMissing` | Network/Server/SessionManager.cpp:78-93 | a connected session whose ring never refused has been given exactly the packets each sender took up since it joined, in that sender's order |
| `HubRuns.GivenCarries` | Network/Server/PacketHandler.cpp:12-55 | each of those packets has the id and the payload of the sender's packet behind the sender's handle, if none was too long to relay |
| `HubRuns.ClientReadsWhatWasCopied` | Network/Server/Session.cpp:160-182 | a client that parses the bytes so far gets no bad frame and, in order, the first of the packets meant for it, each the greeting or with the id and payload of a sender's packet behind the sender's handle, if no packet was too long to relay |
| `HubRuns.NoReuseNoStrays` | Network/Server/SessionManager.cpp:87-90 | a packet reaches a lease that it was not meant for only when a slot is leased again |
| `HubRuns.DueFromOneSender` | Network/Server/PacketHandler.cpp:36-55 | with one sender and no strays, a session is given the greeting and that sender's packets since it joined, one by one as handle and payload |
| `HubDelivery.PacketsAreReceived` | Network/Server/Session.cpp:61-103 | the packets that a sender's broadcasts are about are those of one pass over everything its receives brought |
| `HubDelivery.CanJoin` | Network/Server/Session.cpp:196-229 | a new session with a clean ring can join and be greeted, and the greeting is then on its way |
| `HubDelivery.EverythingCanArrive` | Network/Server/SessionManager.cpp:78-93 | from every good state, all that a reader received can be relayed to its end and all that a listener that kept up is given can reach its wire; it has then been given every packet of the reader since it joined |
| `Workers.FetchFitsIff` | Scheduler/Worker.cpp:19-21 | a fetch asks for at most what the global queue holds exactly unless there is one thread with room for more |
| `Workers.FetchTakesShare` | Scheduler/Worker.cpp:19-21 | a fetch takes its share of the global queue, one over n divided by the threads rounded down, unless ring or batch has room for less |
| `Workers.StealFits` | Scheduler/Worker.cpp:41-43 | a steal fits the thief's ring and takes no more than the victim has |
| `Workers.StealTakesHalf` | Scheduler/Worker.cpp:41-43 | a thief takes half, rounded up, unless ring or batch has room for less |
| `Workers.WindowPush` | Scheduler/Worker.cpp:22-26 | a write at the running tail extends the ring's contents by one task |
| `Workers.Worker.constructor` | Scheduler/Main.cpp:56-61 | a reset worker holds nothing |
| `Workers.Worker.GetNextTask` | Scheduler/Worker.hpp:51-58 | takes the oldest task of the buffer, nothing exactly when it is empty |
| `Workers.Worker.FillBuffer` | Scheduler/Worker.hpp:39-49 | moves a batch, or all there is if that is less, in order from the front of the ring to the back of the buffer |
| `Workers.Worker.TryFetchGlobal` | Scheduler/Worker.cpp:12-29 | moves exactly the share of this thread, as far as ring and batch have room, in order from the front of the global queue to the back of the ring; nothing without both locks |
| `Workers.Worker.TryStealFrom` | Scheduler/Worker.cpp:31-52 | with both locks moves half of the victim's ring, rounded up, as far as ring and batch have room, in order; a worker that drew itself changes nothing |
| `Scheduler.StartIsGood` | Scheduler/Main.cpp:16-28 | the state after MakeTask satisfies the invariant |
| `Scheduler.StepKeepsInv` | Scheduler/Worker.cpp:74-99 | every step keeps all tasks, fits every batch, finds the buffer empty when it fills it and the ring empty when it looks outside, and counts pending tasks exactly |
| `Scheduler.RunKeepsInv` | Scheduler/Worker.cpp:74-99 | the same after every interleaving |
| `Scheduler.ZeroMeansDone` | Scheduler/Main.cpp:35-41 | a count of zero means that no task is left anywhere and every one was run |
| `Scheduler.ExactlyOnce` | Scheduler/Main.cpp:27-61 | no task is run more often than it was made, and exactly that often once stopped; then all rings, buffers and counts are empty and one flush has notified |
| `SchedulerProgress.CanAlwaysFinish` | Scheduler/Worker.cpp:74-99 | from every state that a run reaches some run goes on to the stop with every task run as often as it was made |
| `SchedulerProgress.AloneRunsInOrder` | Scheduler/Worker.cpp:74-99 | a worker that is left alone runs its buffer, its ring and the global queue in this order |
| `SchedulerProgress.StealTakesFirstHalf` | Scheduler/Worker.cpp:31-52 | a thief takes the first half of its victim's ring, rounded up, in order |
| `CentralQueue.StepKeepsInv` | Scheduler/Worker.cpp:101-123 | every step of the simple worker keeps all tasks and counts exactly |
| `CentralQueue.StoppedMeansDone` | Scheduler/Worker.cpp:101-123 | a stopped run of the simple worker has run every task as often as it was made |
| `CentralQueue.SameWork` | Scheduler/Worker.cpp:66-123 | stopped runs of the two schedulers have run the same tasks as often |
| `CentralQueue.CanAlwaysFinish` | Scheduler/Worker.cpp:101-123 | from every state that a run of the simple workers reaches some run finishes all tasks |
| `CentralQueue.AloneRunsInOrder` | Scheduler/Worker.cpp:101-123 | a simple worker that is left alone runs the global queue in order |
| `WorkerLocks.StepKeepsInv` | Scheduler/Worker.cpp:12-52 | every lock has exactly the holder that its sections say, and a worker that looks for tasks outside has an empty ring |
| `WorkerLocks.RunKeepsInv` | Scheduler/Worker.cpp:12-87 | the same after every run |
| `WorkerLocks.NobodyStealsFromItself` | Scheduler/Worker.cpp:31-37 | in every run a worker that draws itself passes over its own empty ring and never holds its own lock as its victim's |
| `WorkerLocks.WaitersWaitForRunners` | Scheduler/Worker.hpp:39-40 | a waiting worker holds no lock, and the one it waits for can always go on and lets go within two steps of its own |
| `WorkerLocks.FreeLocksAreTaken` | Scheduler/Worker.cpp:12-52 | with its locks free and tasks to be had a worker gets into each of its sections |
| `WorkerLocks.SectionsAreExclusive` | Scheduler/Worker.cpp:12-52 | two workers never change the same ring or the global queue at once |
| `WorkStealing.WorkerQueue.constructor` | Scheduler/WorkStealing.cpp:17-22 | a new queue is empty |
| `WorkStealing.WorkerQueue.Push` | Scheduler/WorkStealing.cpp:24-29 | with room left, adds at the back |
| `WorkStealing.WorkerQueue.TryPop` | Scheduler/WorkStealing.cpp:31-39 | takes the newest task, nothing exactly when empty |
| `WorkStealing.WorkerQueue.TrySteal` | Scheduler/WorkStealing.cpp:41-49 | takes the oldest task, nothing exactly when empty |
| `WorkStealing.StepKeepsInv` | Scheduler/WorkStealing.cpp:63-117 | every step keeps all tasks, including those carried between queues, and refills only what was found empty |
| `WorkStealing.NeverOverflowsAndRunsAll` | Scheduler/WorkStealing.cpp:63-117 | in every run no queue holds more than half of its ring although push never checks, every task runs exactly once by the stop, and one report notifies |
| `WorkStealingProgress.CanAlwaysFinish` | Scheduler/WorkStealing.cpp:96-117 | from every state that a run reaches some run goes on to the stop with every task run as often as it was made |
| `WorkStealingProgress.OwnerRunsNewestFirst` | Scheduler/WorkStealing.cpp:31-39 | a worker that is left alone runs its own queue with the newest task first |
| `WorkStealingProgress.ThiefTakesOldest` | Scheduler/WorkStealing.cpp:63-79 | a thief takes its victim's oldest task and puts it into its own queue |
| `WorkStealingProgress.VisitTakes` | Scheduler/WorkStealing.cpp:81-94 | one visit to the global queue takes all of it or half a ring, from the back |

## Left out

- Winsock, IOCP, AcceptEx and DisconnectEx internals, socket options and their return conventions: a post succeeds or fails, and has one completion if it succeeded.
- The mapping calls of MagicBuffer: the mirroring is taken as given and only the addressing is modelled.
- Logging, configuration, start-up, shutdown and benchmark timing.
- Races inside a single pool call or pointer copy, unlocked reads and weak memory: each such call is one step.
- The listener pointer of a session, which PostAccept sets only after the accept is posted, so that a first completion may find it missing.
- Wake-up, fairness and termination of the schedulers: stated are safety, the single zero crossing and that some run always finishes.
- `Workers.Worker.FillBuffer`: requires room in the buffer, because the source does not check; `Scheduler.StepKeepsInv` shows that it is called only with an empty buffer.
- `WorkStealing.WorkerQueue.Push`: requires room in the ring, because the source does not check; `WorkStealing.NeverOverflowsAndRunsAll` shows that there always is.
- `Workers.Worker.TryFetchGlobal`: requires a request that the global queue can meet, because the source takes from an empty queue otherwise; `Workers.FetchFitsIff` gives the exact case.
- `Relay.RelayedWholeIff`: packets with an id that has no handler, and MOVE packets too short for their coordinates, are excluded; the source indexes past its handler table or reads past the packet there.
- `SparsePools.SparsePool.Delete`: a stored pointer that is the last one to another slot would recycle that slot inside the deleter; the sessions' stored pointers pin their own slot, which the protocol invariant shows, so this recursion is not modelled.
- `LeasePool.ReleaseSettles`: pointers stored inside a pooled object are taken to pin that object's own slot, which the protocol invariant shows; the counter's overflow at 2^64 pointers is not modelled.
- The digits of the greeting's text, which may be any 20 bytes, and the order in which Broadcast visits sessions.
- The bytes that a relay leaves in the ring of an idle slot: the protocol model keeps only the sending flag; in the hub they are strays in the ring of the next lease.
- The damage a race does to the lease after it: runs are followed up to the race only.
- WorkStealing's workers that start before the tasks are pushed: the model starts with the tasks in the global queue.
- Legacy directories and test clients.
