/** Whole runs of the hub: what every client hears of every sender. */
module HubRuns {
  import opened Framing
  import opened Relay
  import opened Hub
  import Q = OutQueue

  ghost predicate Run(h: Hub, es: seq<Event>)
    decreases |es|
  {
    es == [] || (Possible(h, es[0]) && Run(Step(h, es[0]), es[1..]))
  }

  ghost function After(h: Hub, es: seq<Event>): (r: Hub)
    requires Run(h, es)
    ensures |r.members| == |h.members| && r.size == h.size
    decreases |es|
  {
    if es == [] then h else After(Step(h, es[0]), es[1..])
  }

  ghost predicate Fresh(h: Hub)
  {
    forall b :: 0 <= b < |h.members| ==>
      h.members[b].(slot := 0, handle := 0) ==
      Member(0, 0, New, false, [], Parsed([], [], false), 0, {}, [], Q.EMPTY, [], false)
  }

  lemma FreshIsGood(h: Hub)
    requires Fresh(h)
    ensures Good(h)
  {
    forall b | 0 <= b < |h.members|
      ensures var m := h.members[b];
        && m == Member(m.slot, m.handle, New, false, [], Parsed([], [], false), 0, {}, [], Q.EMPTY, [], false)
    {
      assert h.members[b].(slot := 0, handle := 0).phase == h.members[b].phase;
    }
  }

  lemma {:induction false} RunKeepsGood(h: Hub, es: seq<Event>)
    requires Good(h) && Run(h, es)
    ensures Good(After(h, es))
    decreases |es|
  {
    if es != [] {
      StepKeepsGood(h, es[0]);
      RunKeepsGood(Step(h, es[0]), es[1..]);
    }
  }

  // ---------- what a listener hears ----------

  /** The packets among those copied in that sender a sent to this session. */
  ghost function HeardFrom(copied: seq<Packet>, from: seq<Source>, a: nat): seq<Packet>
    requires |copied| == |from|
    decreases |from|
  {
    if from == [] then []
    else
      var n := |from| - 1;
      HeardFrom(copied[..n], from[..n], a) + if from[n].Relayed? && from[n].sender == a then [copied[n]] else []
  }

  /** p is packet k of sender m, rewritten. */
  ghost predicate GivenAs(m: Member, k: nat, p: Packet)
  {
    k < |m.input.packets| && Registered(m.input.packets[k]) && p == Outgoing(m.handle, m.input.packets[k])
  }

  /** The packets got are those of sender m with the given numbers, rewritten. */
  ghost predicate HeardAs(m: Member, got: seq<Packet>, ks: seq<nat>)
  {
    && |got| == |ks|
    && forall n :: 0 <= n < |ks| ==> GivenAs(m, ks[n], got[n])
  }

  lemma {:induction false} HeardIsOwn(h: Hub, copied: seq<Packet>, from: seq<Source>, a: nat)
    requires a < |h.members| && |copied| == |from|
    requires forall n :: 0 <= n < |from| ==> Explains(h, from[n], copied[n])
    ensures HeardAs(h.members[a], HeardFrom(copied, from, a), Own(from, a))
    decreases |from|
  {
    if from != [] {
      var n := |from| - 1;
      HeardIsOwn(h, copied[..n], from[..n], a);
    }
  }

  lemma {:induction false} RangeAt(lo: nat, hi: nat)
    requires lo <= hi
    ensures |Range(lo, hi)| == hi - lo && forall n :: 0 <= n < hi - lo ==> Range(lo, hi)[n] == lo + n
    decreases hi
  {
    if lo < hi {
      RangeAt(lo, hi - 1);
    }
  }

  /** End to end, for every interleaving of any senders, any fragmentation in and any partial sends
      out: what goes out to session c is, byte by byte, a prefix of whole packets, each one the
      greeting or a packet that one pass over its sender's stream yields, rewritten; and the packets of
      any one sender come in the order of that sender's stream, none of them twice. */
  lemma EndToEnd(h: Hub, es: seq<Event>, a: nat, c: nat)
    requires Fresh(h) && Run(h, es) && a < |h.members| && c < |h.members|
    ensures var r := After(h, es);
      var m, x := r.members[c], r.members[a];
      && m.out.wire <= Flatten(m.out.copied) && m.out.wire + m.out.queue == Flatten(m.out.copied)
      && |m.from| == |m.out.copied| && (forall n :: 0 <= n < |m.from| ==> Explains(r, m.from[n], m.out.copied[n]))
      && x.input.packets == Parse(x.stream, r.size, AcceptAll).packets && Increasing(All(m.from, a), x.begun)
      && (!m.refused ==> Greetings(m.from) == if m.greeted then 1 else 0)
  {
    FreshIsGood(h);
    RunKeepsGood(h, es);
    var r := After(h, es);
    assert ReaderGood(r, a) && ListenerGood(r, c) && PairGood(r, a, c);
  }

  /** The packets got are those that sender a took up since session c joined, in the order of a's
      stream, each one rewritten; the packet that a is still working on is missing if the turn of c
      has not come. */
  ghost predicate GivenAll(r: Hub, a: nat, c: nat, got: seq<Packet>)
    requires a < |r.members| && c < |r.members|
  {
    var x, since := r.members[a], r.members[c].since;
    && a < |since| && since[a] <= Upto(r, a, c) <= |x.input.packets| && |got| == Upto(r, a, c) - since[a]
    && forall n :: 0 <= n < |got| ==> GivenAs(x, since[a] + n, got[n])
  }

  /** What the listener gets for those packets, if none was too long: the same id, the sender's handle
      and the payload. */
  lemma GivenCarries(r: Hub, a: nat, c: nat, got: seq<Packet>)
    requires a < |r.members| && c < |r.members| && GivenAll(r, a, c, got) && NoneTooLong(r)
    ensures var x, since := r.members[a], r.members[c].since;
      forall n :: 0 <= n < |got| ==> Carries(got[n], x.handle, x.input.packets[since[a] + n])
  {
    var x, since := r.members[a], r.members[c].since;
    forall n | 0 <= n < |got|
      ensures Carries(got[n], x.handle, x.input.packets[since[a] + n])
    {
      assert GivenAs(x, since[a] + n, got[n]);
      RelayedWholeIff(x.handle, x.input.packets[since[a] + n]);
    }
  }

  lemma GoodIsGiven(r: Hub, a: nat, c: nat)
    requires a < |r.members| && c < |r.members| && a != c
    requires ReaderGood(r, a) && ListenerGood(r, c) && PairGood(r, a, c)
    requires r.members[c].phase == Connected && !r.members[c].refused
    ensures GivenAll(r, a, c, HeardFrom(r.members[c].out.copied, r.members[c].from, a))
  {
    var m := r.members[c];
    HeardIsOwn(r, m.out.copied, m.from, a);
    RangeIsGiven(r, a, c, HeardFrom(m.out.copied, m.from, a));
  }

  lemma RangeIsGiven(r: Hub, a: nat, c: nat, got: seq<Packet>)
    requires a < |r.members| && c < |r.members| && a < |r.members[c].since|
    requires r.members[c].since[a] <= Upto(r, a, c) <= |r.members[a].input.packets|
    requires HeardAs(r.members[a], got, Range(r.members[c].since[a], Upto(r, a, c)))
    ensures GivenAll(r, a, c, got)
  {
    RangeAt(r.members[c].since[a], Upto(r, a, c));
  }

  /** Nothing is missing: a connected session whose ring never refused a packet has been given exactly
      the packets that each sender took up since the session joined, each sender's in the order of its
      stream. */
  lemma NothingIsMissing(h: Hub, es: seq<Event>, a: nat, c: nat)
    requires Fresh(h) && Run(h, es) && a < |h.members| && c < |h.members| && a != c
    requires var m := After(h, es).members[c]; m.phase == Connected && !m.refused
    ensures var r := After(h, es);
      |r.members[c].out.copied| == |r.members[c].from|
      && GivenAll(r, a, c, HeardFrom(r.members[c].out.copied, r.members[c].from, a))
  {
    FreshIsGood(h);
    RunKeepsGood(h, es);
    var r := After(h, es);
    assert ReaderGood(r, a) && ListenerGood(r, c) && PairGood(r, a, c);
    GoodIsGiven(r, a, c);
  }

  ghost predicate NoneTooLong(r: Hub)
  {
    forall a, k :: 0 <= a < |r.members| && 0 <= k < |r.members[a].input.packets| ==>
      |r.members[a].input.packets[k]| + HANDLE_SIZE < 65536
  }

  /** p is a greeting, or what a client should get for packet k of a sender. */
  ghost predicate Reads(r: Hub, x: Source, p: Packet)
  {
    if x.Welcome? then |x.text| <= TEXT_MAX && p == Greeting(x.text)
    else
      && x.sender < |r.members| && x.k < |r.members[x.sender].input.packets|
      && var q := r.members[x.sender].input.packets[x.k];
      |q| >= HEADER && Carries(p, r.members[x.sender].handle, q)
  }

  /** Everything copied in is well framed and carries what it should, if no packet taken up was too
      long to relay. */
  lemma ExplainedIsRead(r: Hub, x: Source, p: Packet)
    requires Explains(r, x, p)
    requires !x.Welcome? ==> |r.members[x.sender].input.packets[x.k]| + HANDLE_SIZE < 65536
    ensures WellFormed(p, 65536) && Reads(r, x, p)
  {
    if x.Welcome? {
      GreetingIsCut(x.text);
    } else {
      RelayedWholeIff(r.members[x.sender].handle, r.members[x.sender].input.packets[x.k]);
      assert |p| < 65536;
    }
  }

  /** The receiving client, parsing the bytes so far with a 64 KiB buffer, never sees a bad frame and
      gets, in order, the first of the packets meant for it: each is the greeting, or has the id and the
      payload of the sender's packet behind the sender's handle; if no packet was too long to relay. */
  lemma ClientReadsWhatWasCopied(h: Hub, es: seq<Event>, c: nat)
    requires Fresh(h) && Run(h, es) && c < |h.members| && NoneTooLong(After(h, es))
    ensures var r := After(h, es);
      var m := r.members[c];
      var got := Parse(m.out.wire, 65536, AcceptAll);
      && !got.rejected && |got.packets| <= |m.from|
      && forall n :: 0 <= n < |got.packets| ==> Reads(r, m.from[n], got.packets[n])
  {
    FreshIsGood(h);
    RunKeepsGood(h, es);
    assert ListenerGood(After(h, es), c);
    GoodIsReadable(After(h, es), c);
  }

  lemma GoodIsReadable(r: Hub, c: nat)
    requires c < |r.members| && ListenerGood(r, c) && NoneTooLong(r)
    ensures var m := r.members[c];
      var got := Parse(m.out.wire, 65536, AcceptAll);
      && !got.rejected && |got.packets| <= |m.from|
      && forall n :: 0 <= n < |got.packets| ==> Reads(r, m.from[n], got.packets[n])
  {
    var m := r.members[c];
    forall n | 0 <= n < |m.out.copied|
      ensures WellFormed(m.out.copied[n], 65536) && Reads(r, m.from[n], m.out.copied[n])
    {
      ExplainedIsRead(r, m.from[n], m.out.copied[n]);
    }
    PrefixDeliversPrefix(m.out.copied, m.out.wire, 65536, AcceptAll);
  }

  // ---------- a single sender ----------

  ghost predicate NoStrays(m: Member)
  {
    forall n :: 0 <= n < |m.from| ==> !m.from[n].Stray?
  }

  /** A packet goes astray only when the slot of its target is leased again: with a slot for every
      lease there are no strays. */
  lemma {:induction false} NoReuseNoStrays(h: Hub, es: seq<Event>)
    requires Run(h, es) && forall b :: 0 <= b < |h.members| ==> NoStrays(h.members[b])
    requires forall b, c :: 0 <= b < c < |h.members| ==> h.members[b].slot != h.members[c].slot
    ensures forall b :: 0 <= b < |h.members| ==> NoStrays(After(h, es).members[b])
    decreases |es|
  {
    if es != [] {
      var t := Step(h, es[0]);
      assert forall b :: 0 <= b < |h.members| ==> t.members[b].slot == h.members[b].slot;
      forall b | 0 <= b < |h.members|
        ensures NoStrays(t.members[b])
      {
        assert NoStrays(h.members[b]);
      }
      NoReuseNoStrays(t, es[1..]);
    }
  }

  /** What was copied in, without the greeting. */
  ghost function Ungreeted(copied: seq<Packet>, from: seq<Source>): seq<Packet>
    requires |copied| == |from|
    decreases |from|
  {
    if from == [] then []
    else
      var n := |from| - 1;
      Ungreeted(copied[..n], from[..n]) + if from[n].Welcome? then [] else [copied[n]]
  }

  lemma {:induction false} OnlyOneHeard(copied: seq<Packet>, from: seq<Source>, a: nat)
    requires |copied| == |from|
    requires forall n :: 0 <= n < |from| ==> from[n].Welcome? || (from[n].Relayed? && from[n].sender == a)
    ensures Ungreeted(copied, from) == HeardFrom(copied, from, a)
    decreases |from|
  {
    if from != [] {
      var n := |from| - 1;
      OnlyOneHeard(copied[..n], from[..n], a);
    }
  }

  /** With one sender and no strays, a connected session that never refused is given the greeting and
      exactly that sender's packets since it joined, one by one as handle and payload. */
  lemma DueFromOneSender(h: Hub, es: seq<Event>, a: nat, c: nat)
    requires Fresh(h) && Run(h, es) && a < |h.members| && c < |h.members| && a != c
    requires var r := After(h, es);
      && r.members[c].phase == Connected && !r.members[c].refused && NoStrays(r.members[c])
      && forall x :: 0 <= x < |r.members| && x != a ==> r.members[x].begun == 0
    ensures var r := After(h, es);
      |r.members[c].out.copied| == |r.members[c].from|
      && GivenAll(r, a, c, Ungreeted(r.members[c].out.copied, r.members[c].from))
  {
    NothingIsMissing(h, es, a, c);
    FreshIsGood(h);
    RunKeepsGood(h, es);
    assert ListenerGood(After(h, es), c);
    OneSenderHeard(After(h, es), a, c);
  }

  lemma OneSenderHeard(r: Hub, a: nat, c: nat)
    requires a < |r.members| && c < |r.members| && ListenerGood(r, c) && NoStrays(r.members[c])
    requires forall x :: 0 <= x < |r.members| && x != a ==> r.members[x].begun == 0
    ensures var m := r.members[c]; Ungreeted(m.out.copied, m.from) == HeardFrom(m.out.copied, m.from, a)
  {
    var m := r.members[c];
    forall n | 0 <= n < |m.from|
      ensures m.from[n].Welcome? || (m.from[n].Relayed? && m.from[n].sender == a)
    {
      assert Explains(r, m.from[n], m.out.copied[n]);
    }
    OnlyOneHeard(m.out.copied, m.from, a);
  }
}
