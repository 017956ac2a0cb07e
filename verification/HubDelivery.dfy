/** What the hub can always still do: a session can join and be greeted, a reader can work through what
    it has, and all of it can reach the wire of every listener that kept up. */
module HubDelivery {
  import opened Framing
  import opened Handles
  import opened Relay
  import opened Hub
  import opened HubRuns
  import Q = OutQueue

  // ---------- what came in ----------

  /** The bytes that the receives of session a brought. */
  ghost function Received(es: seq<Event>, a: nat): seq<Byte>
    decreases |es|
  {
    if es == [] then []
    else (if es[0].Receive? && es[0].a == a then es[0].chunk else []) + Received(es[1..], a)
  }

  lemma StreamStep(h: Hub, e: Event, a: nat)
    requires Possible(h, e) && a < |h.members|
    ensures Step(h, e).members[a].stream == h.members[a].stream + if e.Receive? && e.a == a then e.chunk else []
  {
    assert h.members[a].stream + [] == h.members[a].stream;
  }

  lemma Regroup(s: seq<Byte>, x: seq<Byte>, y: seq<Byte>)
    ensures (s + x) + y == s + (x + y) && s + [] == s && [] + s == s
  {
  }

  lemma {:induction false} StreamIsReceived(h: Hub, es: seq<Event>, a: nat)
    requires Run(h, es) && a < |h.members|
    ensures After(h, es).members[a].stream == h.members[a].stream + Received(es, a)
    decreases |es|
  {
    if es == [] {
      Regroup(h.members[a].stream, [], []);
    } else {
      var news := if es[0].Receive? && es[0].a == a then es[0].chunk else [];
      StreamStep(h, es[0], a);
      StreamIsReceived(Step(h, es[0]), es[1..], a);
      Regroup(h.members[a].stream, news, Received(es[1..], a));
    }
  }

  lemma GoodParses(r: Hub, a: nat)
    requires Good(r) && a < |r.members|
    ensures r.members[a].input == Parse(r.members[a].stream, r.size, AcceptAll)
  {
    assert ReaderGood(r, a);
  }

  lemma FreshStream(h: Hub, a: nat)
    requires Fresh(h) && a < |h.members|
    ensures h.members[a].stream == []
  {
    assert h.members[a].(slot := 0, handle := 0).stream == h.members[a].stream;
  }

  /** From start-up, the packets that a sender's broadcasts are about are those of one pass over
      everything that its receives brought. */
  lemma PacketsAreReceived(h: Hub, es: seq<Event>, a: nat)
    requires Fresh(h) && Run(h, es) && a < |h.members|
    ensures After(h, es).members[a].input == Parse(Received(es, a), h.size, AcceptAll)
  {
    FreshIsGood(h);
    RunKeepsGood(h, es);
    FreshStream(h, a);
    StreamIsReceived(h, es, a);
    Regroup(Received(es, a), [], []);
    GoodParses(After(h, es), a);
  }

  // ---------- runs one after the other ----------

  lemma {:induction false} RunThen(h: Hub, es: seq<Event>, fs: seq<Event>)
    requires Run(h, es) && Run(After(h, es), fs)
    ensures Run(h, es + fs) && After(h, es + fs) == After(After(h, es), fs)
    decreases |es|
  {
    if es == [] {
      assert es + fs == fs;
    } else {
      RunThen(Step(h, es[0]), es[1..], fs);
      assert (es + fs)[1..] == es[1..] + fs;
    }
  }

  lemma RunOne(h: Hub, e: Event)
    requires Possible(h, e)
    ensures Run(h, [e]) && After(h, [e]) == Step(h, e)
  {
    assert [e][1..] == [];
    assert Run(Step(h, e), []) && After(Step(h, e), []) == Step(h, e);
  }

  /** Some run leads from h to t. */
  ghost predicate Leads(h: Hub, t: Hub)
  {
    exists es :: Run(h, es) && After(h, es) == t
  }

  lemma LeadsOne(h: Hub, e: Event)
    requires Possible(h, e)
    ensures Leads(h, Step(h, e))
  {
    RunOne(h, e);
  }

  lemma LeadsThen(h: Hub, t: Hub, u: Hub)
    requires Leads(h, t) && Leads(t, u)
    ensures Leads(h, u)
  {
    var es :| Run(h, es) && After(h, es) == t;
    var fs :| Run(t, fs) && After(t, fs) == u;
    RunThen(h, es, fs);
  }

  lemma LeadsItself(h: Hub)
    ensures Leads(h, h)
  {
    assert Run(h, []) && After(h, []) == h;
  }

  // ---------- joining ----------

  /** The ring's bytes are on their way. */
  ghost predicate Ready(m: Member, size: nat)
  {
    Q.Flowing(m.out, size) && Q.Moving(m.out) && (m.out.inFlight.Send? ==> m.out.inFlight.len > 0) && !m.refused
  }

  /** A new session with a clean ring can join and be greeted; its greeting is then on its way. */
  lemma CanJoin(h: Hub, b: nat, text: seq<Byte>) returns (t: Hub)
    requires Good(h) && Possible(h, Join(b)) && |text| <= TEXT_MAX && h.size >= 64
    requires h.members[b].out == Q.EMPTY && !h.members[b].refused
    ensures Leads(h, t) && Good(t) && |t.members| == |h.members|
    ensures t.members[b].phase == Connected && t.members[b].greeted && Ready(t.members[b], t.size)
    ensures t.members[b].from == [Welcome(text)] && t.members[b].out.copied == [Greeting(text)]
    ensures t.members[b].out.queue == Greeting(text)
  {
    var u := Step(h, Join(b));
    StepKeepsGood(h, Join(b));
    LeadsOne(h, Join(b));
    var e := Greet(b, text, true);
    assert ListenerGood(h, b);
    GreetingIsCut(text);
    StepKeepsGood(u, e);
    LeadsOne(u, e);
    t := Step(u, e);
    LeadsThen(h, u, t);
    assert ListenerGood(t, b);
    assert [] + Greeting(text) == Greeting(text);
  }

  // ---------- draining one listener ----------

  /** Only the outgoing side of c differs, and there only what has been sent. */
  ghost predicate OnlySent(h: Hub, t: Hub, c: nat)
  {
    && c < |h.members| == |t.members| && t == Put(h, c, h.members[c].(out := t.members[c].out))
    && t.members[c].out.copied == h.members[c].out.copied
  }

  lemma Completes(h: Hub, c: nat, n: nat) returns (t: Hub)
    requires Good(h) && c < |h.members| && Ready(h.members[c], h.size)
    requires var o := h.members[c].out; o.inFlight.Send? && 0 < n <= o.inFlight.len
    ensures Leads(h, t) && Good(t) && OnlySent(h, t, c) && Ready(t.members[c], t.size)
    ensures t.members[c].out.queue == h.members[c].out.queue[n..]
    ensures t.members[c].out.queue != [] ==> t.members[c].out.inFlight == Q.Send(|t.members[c].out.queue|)
  {
    var e := Progress(c, Q.Complete(n, true));
    LeadsOne(h, e);
    StepKeepsGood(h, e);
    Q.StepKeepsGood(h.members[c].out, Q.Complete(n, true), h.size);
    t := Step(h, e);
  }

  lemma Drains(h: Hub, c: nat) returns (t: Hub)
    requires Good(h) && c < |h.members| && Ready(h.members[c], h.size)
    ensures Leads(h, t) && Good(t) && OnlySent(h, t, c) && Ready(t.members[c], t.size)
    ensures t.members[c].out.queue == [] && t.members[c].out.wire == Flatten(t.members[c].out.copied)
  {
    if h.members[c].out.queue == [] {
      LeadsItself(h);
      t := h;
    } else {
      var u := Completes(h, c, h.members[c].out.inFlight.len);
      t := u;
      if u.members[c].out.queue != [] {
        t := Completes(u, c, |u.members[c].out.queue|);
        LeadsThen(h, u, t);
      }
    }
    assert t.members[c].out.wire + [] == t.members[c].out.wire;
  }

  // ---------- a reader works through what it has ----------

  /** Reader a can relay all it has, and listener c keeps up. */
  ghost predicate Serving(h: Hub, a: nat, c: nat)
  {
    && Good(h) && a < |h.members| && c < |h.members| && a != c
    && h.members[c].phase == Connected && Ready(h.members[c], h.size)
    && forall k :: 0 <= k < |h.members[a].input.packets| ==> Relayable(h.members[a].input.packets[k], h.size)
  }

  /** A packet with a handler, which leaves room for the handle in its size and in the ring. */
  ghost predicate Relayable(p: Packet, size: nat)
  {
    Registered(p) && |p| + HANDLE_SIZE < 65536 && |p| + HANDLE_SIZE <= size
  }

  lemma RelayableFits(sender: Word64, p: Packet, size: nat)
    requires Relayable(p, size)
    ensures 0 < |Outgoing(sender, p)| <= size
  {
    RelayedWholeIff(sender, p);
  }

  /** What a step of the reader changes: how far it is, and nothing that it has or that c heard before. */
  ghost predicate Onward(h: Hub, t: Hub, a: nat, c: nat)
  {
    && Leads(h, t) && Serving(t, a, c) && |t.members| == |h.members| && t.size == h.size
    && t.members[a].input == h.members[a].input && t.members[a].stream == h.members[a].stream
  }

  lemma OnwardThen(h: Hub, t: Hub, u: Hub, a: nat, c: nat)
    requires Onward(h, t, a, c) && Onward(t, u, a, c)
    ensures Onward(h, u, a, c)
  {
    LeadsThen(h, t, u);
  }

  lemma TakesUp(h: Hub, a: nat, c: nat) returns (t: Hub)
    requires Serving(h, a, c) && h.members[a].rest == {} && h.members[a].begun < |h.members[a].input.packets|
    ensures Onward(h, t, a, c) && t.members[a].begun == h.members[a].begun + 1
  {
    assert Relayable(h.members[a].input.packets[h.members[a].begun], h.size);
    LeadsOne(h, TakeUp(a));
    StepKeepsGood(h, TakeUp(a));
    t := Step(h, TakeUp(a));
  }

  lemma ServesOther(h: Hub, a: nat, b: nat, c: nat) returns (t: Hub)
    requires Serving(h, a, c) && b in h.members[a].rest && b != c
    ensures Onward(h, t, a, c) && t.members[a].begun == h.members[a].begun
    ensures t.members[a].rest == h.members[a].rest - {b}
  {
    assert ReaderGood(h, a);
    var e := Event.Relay(a, b, b, true);
    LeadsOne(h, e);
    StepKeepsGood(h, e);
    RelayEffect(h, a, b, b, true);
    t := Step(h, e);
  }

  lemma ServesListener(h: Hub, a: nat, c: nat) returns (t: Hub)
    requires Serving(h, a, c) && c in h.members[a].rest && h.members[c].out.queue == []
    ensures Onward(h, t, a, c) && t.members[a].begun == h.members[a].begun
    ensures t.members[a].rest == h.members[a].rest - {c}
  {
    assert ReaderGood(h, a) && ListenerGood(h, c);
    var e := Event.Relay(a, c, c, true);
    LeadsOne(h, e);
    StepKeepsGood(h, e);
    RelayEffect(h, a, c, c, true);
    t := Step(h, e);
    ListenerReady(h, t, a, c);
  }

  lemma ListenerReady(h: Hub, t: Hub, a: nat, c: nat)
    requires Serving(h, a, c) && InHand(h.members[a]) && h.members[c].out.queue == [] && t.size == h.size
    requires c < |t.members| && SameListener(Sent(h, a, c, c, true), t.members[c])
    ensures Ready(t.members[c], t.size)
  {
    var k := h.members[a].begun - 1;
    var p := Outgoing(h.members[a].handle, h.members[a].input.packets[k]);
    assert Relayable(h.members[a].input.packets[k], h.size);
    RelayableFits(h.members[a].handle, h.members[a].input.packets[k], h.size);
    Q.StepKeepsGood(h.members[c].out, Q.Push(p, true), h.size);
  }

  lemma ServesDrained(h: Hub, a: nat, c: nat) returns (t: Hub)
    requires Serving(h, a, c) && c in h.members[a].rest
    ensures Onward(h, t, a, c) && t.members[a].begun == h.members[a].begun
    ensures t.members[a].rest == h.members[a].rest - {c}
  {
    var u := Drains(h, c);
    t := ServesListener(u, a, c);
    OnwardThen(h, u, t, a, c);
  }

  /** The reader takes up and relays everything it has. */
  lemma {:induction false} Finishes(h: Hub, a: nat, c: nat) returns (t: Hub)
    requires Serving(h, a, c)
    ensures Onward(h, t, a, c) && t.members[a].begun == |t.members[a].input.packets| && t.members[a].rest == {}
    decreases |h.members[a].input.packets| - h.members[a].begun, |h.members[a].rest|
  {
    assert ReaderGood(h, a);
    if h.members[a].rest != {} {
      var b :| b in h.members[a].rest;
      var u: Hub;
      if b == c {
        u := ServesDrained(h, a, c);
      } else {
        u := ServesOther(h, a, b, c);
      }
      t := Finishes(u, a, c);
      OnwardThen(h, u, t, a, c);
    } else if h.members[a].begun < |h.members[a].input.packets| {
      var u := TakesUp(h, a, c);
      t := Finishes(u, a, c);
      OnwardThen(h, u, t, a, c);
    } else {
      LeadsItself(h);
      t := h;
    }
  }

  /** From every good state: whatever reader a has received can be relayed to its end, and everything
      that listener c is given can reach its wire; c has then been given every packet of a since it
      joined. */
  lemma EverythingCanArrive(h: Hub, a: nat, c: nat) returns (t: Hub)
    requires Serving(h, a, c)
    ensures Leads(h, t) && Good(t) && |t.members| == |h.members| && t.members[a].input == h.members[a].input
    ensures var m, x := t.members[c], t.members[a];
      && m.out.wire == Flatten(m.out.copied) && |m.from| == |m.out.copied|
      && GivenAll(t, a, c, HeardFrom(m.out.copied, m.from, a)) && Upto(t, a, c) == |x.input.packets|
  {
    var u := Finishes(h, a, c);
    t := Drains(u, c);
    LeadsThen(h, u, t);
    assert ReaderGood(t, a) && ListenerGood(t, c) && PairGood(t, a, c);
    GoodIsGiven(t, a, c);
  }
}
