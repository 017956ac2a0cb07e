/** The outgoing side of a session on plain sequences: a byte queue with at most one send
    outstanding, and what is put on the wire over any interleaving of sends and completions. */
module OutQueue {
  import opened Framing

  datatype Outstanding = NoSend | Send(len: nat)

  /** queue holds the bytes in the ring; copied the packets SendPacket took in; wire the bytes that
      completed sends put on the connection. */
  datatype Out = Out(queue: seq<Byte>, sending: bool, inFlight: Outstanding, wire: seq<Byte>, copied: seq<Packet>)

  const EMPTY: Out := Out([], false, NoSend, [], [])

  function Post(o: Out, posted: bool): (r: Out)
  {
    o.(inFlight := if posted then Send(|o.queue|) else NoSend)
  }

  predicate Fits(o: Out, p: Packet, size: nat)
  {
    |o.queue| + |p| <= size
  }

  /** SendPacket: refused when it does not fit, appended, and posted unless a send is under way. */
  function Pushed(o: Out, p: Packet, size: nat, posted: bool): (r: Out)
  {
    if !Fits(o, p, size) then o
    else
      var q := o.(queue := o.queue + p, copied := o.copied + [p]);
      if o.sending then q else Post(q.(sending := true), posted)
  }

  /** OnWrite after a completion of n bytes: posts the rest, or stops when all is sent. */
  function Completed(o: Out, n: nat, posted: bool): (r: Out)
    requires n <= |o.queue|
  {
    var q := o.(queue := o.queue[n..], wire := o.wire + o.queue[..n], inFlight := NoSend);
    if q.queue == [] then q.(sending := false) else Post(q, posted)
  }

  datatype Event = Push(p: Packet, posted: bool) | Complete(n: nat, posted: bool) | Break

  /** A send completes with between one byte and all of its bytes, or breaks the connection. */
  ghost predicate Possible(o: Out, e: Event)
  {
    match e
    case Push(_, _) => true
    case Complete(n, _) => o.inFlight.Send? && 0 < n <= o.inFlight.len && n <= |o.queue|
    case Break => o.inFlight.Send?
  }

  ghost function Step(o: Out, e: Event, size: nat): (r: Out)
    requires Possible(o, e)
  {
    match e
    case Push(p, posted) => Pushed(o, p, size, posted)
    case Complete(n, posted) => Completed(o, n, posted)
    case Break => o.(inFlight := NoSend)
  }

  /** What was sent and what still waits are together exactly the packets taken in; without a send
      under way nothing waits; an outstanding send covers bytes at the front of the queue. */
  ghost predicate Good(o: Out, size: nat)
  {
    && o.wire + o.queue == Flatten(o.copied) && |o.queue| <= size
    && (!o.sending ==> o.queue == [] && o.inFlight == NoSend)
    && (o.inFlight.Send? ==> o.inFlight.len <= |o.queue|)
  }

  lemma StepKeepsGood(o: Out, e: Event, size: nat)
    requires Good(o, size) && Possible(o, e)
    ensures Good(Step(o, e, size), size)
  {
    match e
    case Push(p, posted) =>
      FlattenAppend(o.copied, [p]);
      assert Flatten([p]) == p by {
        assert Flatten<Byte>([p][1..]) == [];
      }
      assert o.wire + (o.queue + p) == (o.wire + o.queue) + p;
    case Complete(n, posted) =>
      assert (o.wire + o.queue[..n]) + o.queue[n..] == o.wire + o.queue;
    case Break =>
  }

  ghost predicate Run(o: Out, es: seq<Event>, size: nat)
    decreases |es|
  {
    es == [] || (Possible(o, es[0]) && Run(Step(o, es[0], size), es[1..], size))
  }

  ghost function After(o: Out, es: seq<Event>, size: nat): (r: Out)
    requires Run(o, es, size)
    decreases |es|
  {
    if es == [] then o else After(Step(o, es[0], size), es[1..], size)
  }

  /** The packets that the run's SendPacket calls copied in, in order. */
  ghost function Taken(o: Out, es: seq<Event>, size: nat): (ps: seq<Packet>)
    requires Run(o, es, size)
    decreases |es|
  {
    if es == [] then []
    else
      (if es[0].Push? && Fits(o, es[0].p, size) then [es[0].p] else []) + Taken(Step(o, es[0], size), es[1..], size)
  }

  lemma {:induction false} CopiedAreTaken(o: Out, es: seq<Event>, size: nat)
    requires Run(o, es, size)
    ensures After(o, es, size).copied == o.copied + Taken(o, es, size)
    decreases |es|
  {
    if es != [] {
      CopiedAreTaken(Step(o, es[0], size), es[1..], size);
    }
  }

  lemma {:induction false} RunKeepsGood(o: Out, es: seq<Event>, size: nat)
    requires Good(o, size) && Run(o, es, size)
    ensures Good(After(o, es, size), size)
    decreases |es|
  {
    if es != [] {
      StepKeepsGood(o, es[0], size);
      RunKeepsGood(Step(o, es[0], size), es[1..], size);
    }
  }

  /** Over every interleaving of sends and partial completions the wire carries a prefix of the
      whole packets taken in, in order; all of them once the queue has drained. */
  lemma WireIsPrefix(es: seq<Event>, size: nat)
    requires Run(EMPTY, es, size)
    ensures var o := After(EMPTY, es, size);
      && o.wire <= Flatten(Taken(EMPTY, es, size))
      && o.wire + o.queue == Flatten(Taken(EMPTY, es, size))
      && (!o.sending ==> o.wire == Flatten(Taken(EMPTY, es, size)))
  {
    RunKeepsGood(EMPTY, es, size);
    CopiedAreTaken(EMPTY, es, size);
    var o := After(EMPTY, es, size);
    assert o.copied == Taken(EMPTY, es, size);
    assert o.queue == [] ==> o.wire + o.queue == o.wire;
  }

  // ---------- when all posts succeed ----------

  /** The event puts the front of the queue on its way. */
  ghost predicate Posts(o: Out, e: Event, size: nat)
    requires Possible(o, e)
  {
    match e
    case Push(p, posted) => posted && !o.sending && |o.queue| + |p| <= size
    case Complete(n, posted) => posted && n < |o.queue|
    case Break => false
  }

  /** A post covers everything that waits; an event that does not post leaves a send in flight alone. */
  lemma PostCoversAll(o: Out, e: Event, size: nat)
    requires Good(o, size) && Possible(o, e)
    ensures Posts(o, e, size) ==> Step(o, e, size).inFlight == Send(|Step(o, e, size).queue|)
    ensures e.Push? && !Posts(o, e, size) ==> Step(o, e, size).inFlight == o.inFlight
  {
  }

  ghost predicate Succeeds(e: Event)
  {
    !e.Break? && e.posted
  }

  ghost predicate AllSucceed(es: seq<Event>)
  {
    forall k :: 0 <= k < |es| ==> Succeeds(es[k])
  }

  /** Whatever waits is on its way. */
  ghost predicate Flowing(o: Out, size: nat)
  {
    Good(o, size) && (o.queue != [] ==> o.inFlight.Send?) && (o.sending ==> o.inFlight.Send?)
  }

  lemma {:induction false} RunKeepsFlowing(o: Out, es: seq<Event>, size: nat)
    requires Flowing(o, size) && Run(o, es, size) && AllSucceed(es)
    ensures Flowing(After(o, es, size), size)
    decreases |es|
  {
    if es != [] {
      assert Succeeds(es[0]);
      StepKeepsGood(o, es[0], size);
      RunKeepsFlowing(Step(o, es[0], size), es[1..], size);
    }
  }

  /** The send in flight covers at least one byte, if there is one to send. */
  ghost predicate Moving(o: Out)
  {
    o.queue != [] ==> o.inFlight.Send? && o.inFlight.len > 0
  }

  ghost predicate OnlyCompletions(es: seq<Event>)
  {
    forall k :: 0 <= k < |es| ==> es[k].Complete?
  }

  /** Some completions put everything on the wire. */
  ghost predicate CanDrain(o: Out, size: nat)
  {
    exists es :: Run(o, es, size) && OnlyCompletions(es) && After(o, es, size).wire == Flatten(o.copied)
  }

  lemma TwoSteps(o: Out, e: Event, f: Event, size: nat)
    requires Possible(o, e) && Possible(Step(o, e, size), f)
    ensures Run(o, [e, f], size) && After(o, [e, f], size) == Step(Step(o, e, size), f, size)
  {
    var q := Step(o, e, size);
    var r := Step(q, f, size);
    assert [e, f][1..] == [f] && [f][1..] == [];
    assert Run(r, [], size) && After(r, [], size) == r;
    assert Run(q, [f], size) && After(q, [f], size) == After(r, [f][1..], size);
  }

  /** Two completions suffice: of the bytes in flight, and of those that came after. */
  lemma DrainRun(o: Out, size: nat) returns (es: seq<Event>)
    requires Flowing(o, size) && Moving(o)
    ensures Run(o, es, size) && OnlyCompletions(es) && |es| <= 2 && AllSucceed(es)
    ensures After(o, es, size).queue == []
    ensures After(o, es, size).copied == o.copied && After(o, es, size).wire == Flatten(o.copied)
  {
    if o.queue == [] {
      assert o.wire + o.queue == o.wire;
      return [];
    }
    var first := Complete(o.inFlight.len, true);
    var q := Step(o, first, size);
    StepKeepsGood(o, first, size);
    if q.queue == [] {
      es := [first];
      assert es[1..] == [] && After(o, es, size) == q;
      assert q.wire + q.queue == q.wire;
    } else {
      var second := Complete(|q.queue|, true);
      var r := Step(q, second, size);
      StepKeepsGood(q, second, size);
      es := [first, second];
      TwoSteps(o, first, second, size);
      assert r.wire + r.queue == r.wire;
    }
  }

  /** In every run in which every post succeeded and no send broke, what waits is on its way; and it can
      all reach the wire exactly unless the send in flight covers no byte at all. */
  lemma DrainsIff(es: seq<Event>, size: nat)
    requires Run(EMPTY, es, size) && AllSucceed(es)
    ensures var o := After(EMPTY, es, size);
      && (o.queue != [] ==> o.inFlight.Send?)
      && (CanDrain(o, size) <==> o.queue == [] || o.inFlight.len > 0)
  {
    RunKeepsFlowing(EMPTY, es, size);
    var o := After(EMPTY, es, size);
    if Moving(o) {
      var more := DrainRun(o, size);
    } else {
      forall more: seq<Event> | Run(o, more, size) && OnlyCompletions(more)
        ensures more == []
      {
      }
      assert o.wire != Flatten(o.copied);
    }
  }

  ghost predicate NoEmptyPackets(es: seq<Event>)
  {
    forall k :: 0 <= k < |es| && es[k].Push? ==> es[k].p != []
  }

  lemma {:induction false} NonEmptyMoves(o: Out, es: seq<Event>, size: nat)
    requires Flowing(o, size) && Moving(o) && (o.inFlight.Send? ==> o.inFlight.len > 0)
    requires Run(o, es, size) && AllSucceed(es) && NoEmptyPackets(es)
    ensures Moving(After(o, es, size))
    decreases |es|
  {
    if es != [] {
      assert Succeeds(es[0]) && (es[0].Push? ==> es[0].p != []);
      StepKeepsGood(o, es[0], size);
      NonEmptyMoves(Step(o, es[0], size), es[1..], size);
    }
  }

  /** Without empty packets everything can always reach the wire. */
  lemma NonEmptyDrains(es: seq<Event>, size: nat)
    requires Run(EMPTY, es, size) && AllSucceed(es) && NoEmptyPackets(es)
    ensures CanDrain(After(EMPTY, es, size), size)
  {
    NonEmptyMoves(EMPTY, es, size);
    DrainsIff(es, size);
  }

  /** An empty packet on a quiet session blocks it: a send of no bytes never completes with any, so
      nothing copied in later can go out. */
  lemma EmptyPacketBlocks(p: Packet, size: nat)
    requires p != [] && |p| <= size
    ensures var es := [Push([], true), Push(p, true)];
      Run(EMPTY, es, size) && AllSucceed(es) && !CanDrain(After(EMPTY, es, size), size)
  {
    var es := [Push([], true), Push(p, true)];
    TwoSteps(EMPTY, Push([], true), Push(p, true), size);
    DrainsIff(es, size);
  }
}
