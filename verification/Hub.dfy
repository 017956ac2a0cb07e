/** Many sessions at once: fragments come in, every reader works through its packets and relays each
    one target by target, sends complete in parts, sessions join, are greeted and leave. A single
    SendPacket is a step, so the broadcasts of several readers interleave freely. */
module Hub {
  import opened Framing
  import opened Handles
  import opened Relay
  import Q = OutQueue

  /** New covers everything before Connect: the slot idle before this lease, and the lease pending. */
  datatype Phase = New | Connected | Gone

  /** Where a packet in an outgoing ring came from: the greeting, packet number k of a sender, or such
      a packet whose broadcast was meant for an earlier lease of the same slot. */
  datatype Source = Welcome(text: seq<Byte>) | Relayed(sender: nat, k: nat) | Stray(sender: nat, k: nat)

  /** One lease of a slot. stream is everything it received so far, begun how many of its packets have
      been taken up, and rest the leases that still have to be sent the latest of them. since tells how
      many packets of each sender had been taken up when this lease joined. from names the source of
      every packet in out.copied; refused says that the ring once had no room. */
  datatype Member = Member(
    slot: nat, handle: Word64, phase: Phase, greeted: bool,
    stream: seq<Byte>, input: Parsed, begun: nat, rest: set<nat>,
    since: seq<nat>, out: Q.Out, from: seq<Source>, refused: bool)

  datatype Hub = Hub(members: seq<Member>, size: nat)

  /** Receive completes a receive. TakeUp starts the broadcast of a reader's next packet. Relay is
      SendPacket for target b; if b is gone by then, the slot's table entry may name a later lease c.
      Skip passes over a target whose table entry is found dead. */
  datatype Event =
    | Receive(a: nat, chunk: seq<Byte>)
    | TakeUp(a: nat)
    | Relay(a: nat, b: nat, c: nat, posted: bool)
    | Skip(a: nat, b: nat)
    | Progress(b: nat, e: Q.Event)
    | Join(b: nat)
    | Greet(b: nat, text: seq<Byte>, posted: bool)
    | Leave(b: nat)

  function AcceptAll(p: Packet): bool
  {
    true
  }

  ghost predicate Redirects(h: Hub, b: nat, c: nat)
    requires b < |h.members| && c < |h.members|
  {
    c == b || (h.members[b].phase == Gone && h.members[c].slot == h.members[b].slot)
  }

  ghost predicate Possible(h: Hub, e: Event)
  {
    var n := |h.members|;
    match e
    // a reader works through the packets it has before it receives again
    case Receive(a, _) =>
      && a < n && h.members[a].greeted && !h.members[a].input.rejected
      && h.members[a].begun == |h.members[a].input.packets| && h.members[a].rest == {}
    case TakeUp(a) =>
      && a < n && h.members[a].begun < |h.members[a].input.packets| && h.members[a].rest == {}
      && Registered(h.members[a].input.packets[h.members[a].begun])
    case Relay(a, b, c, _) =>
      a < n && b < n && c < n && b in h.members[a].rest && InHand(h.members[a]) && Redirects(h, b, c)
    case Skip(a, b) => a < n && b < n && b in h.members[a].rest && h.members[b].phase == Gone
    case Progress(b, q) => b < n && !q.Push? && Q.Possible(h.members[b].out, q)
    // a slot has one lease at a time
    case Join(b) =>
      && b < n && h.members[b].phase == New
      && forall c :: 0 <= c < n && h.members[c].phase == Connected ==> h.members[c].slot != h.members[b].slot
    case Greet(b, text, _) => b < n && h.members[b].phase != New && !h.members[b].greeted && |text| <= TEXT_MAX
    case Leave(b) => b < n && h.members[b].phase == Connected
  }

  /** The reader's latest packet can be relayed. */
  ghost predicate InHand(m: Member)
  {
    0 < m.begun <= |m.input.packets| && Registered(m.input.packets[m.begun - 1])
  }

  /** The connected sessions other than the sender. */
  ghost function Targets(h: Hub, a: nat): set<nat>
  {
    set b: nat | b < |h.members| && b != a && h.members[b].phase == Connected
  }

  /** SendPacket on a session. */
  ghost function Pushed(m: Member, p: Packet, source: Source, size: nat, posted: bool): Member
  {
    if Q.Fits(m.out, p, size) then m.(out := Q.Pushed(m.out, p, size, posted), from := m.from + [source])
    else m.(refused := true)
  }

  ghost function Put(h: Hub, b: nat, m: Member): (r: Hub)
    requires b < |h.members|
    ensures |r.members| == |h.members| && r.size == h.size
  {
    h.(members := h.members[b := m])
  }

  ghost function Begun(h: Hub): seq<nat>
  {
    seq(|h.members|, a requires 0 <= a < |h.members| => h.members[a].begun)
  }

  /** SendPacket of sender a's latest packet, meant for b, on the lease c. */
  ghost function Sent(h: Hub, a: nat, b: nat, c: nat, posted: bool): Member
    requires a < |h.members| && c < |h.members| && InHand(h.members[a])
  {
    var k := h.members[a].begun - 1;
    var p := Outgoing(h.members[a].handle, h.members[a].input.packets[k]);
    Pushed(h.members[c], p, if b == c then Relayed(a, k) else Stray(a, k), h.size, posted)
  }

  ghost function Served(h: Hub, a: nat, b: nat): Hub
    requires a < |h.members|
  {
    Put(h, a, h.members[a].(rest := h.members[a].rest - {b}))
  }

  ghost function Step(h: Hub, e: Event): (r: Hub)
    requires Possible(h, e)
    ensures |r.members| == |h.members| && r.size == h.size
  {
    match e
    case Receive(a, chunk) =>
      var m := h.members[a];
      Put(h, a, m.(stream := m.stream + chunk, input := Absorb(m.input, chunk, h.size, AcceptAll)))
    case TakeUp(a) => Put(h, a, h.members[a].(begun := h.members[a].begun + 1, rest := Targets(h, a)))
    case Relay(a, b, c, posted) => Served(Put(h, c, Sent(h, a, b, c, posted)), a, b)
    case Skip(a, b) => Served(h, a, b)
    case Progress(b, q) => Put(h, b, h.members[b].(out := Q.Step(h.members[b].out, q, h.size)))
    case Join(b) => Put(h, b, h.members[b].(phase := Connected, since := Begun(h)))
    case Greet(b, text, posted) =>
      Put(h, b, Pushed(h.members[b].(greeted := true), Greeting(text), Welcome(text), h.size, posted))
    case Leave(b) => Put(h, b, h.members[b].(phase := Gone))
  }

  // ---------- what should have happened ----------

  ghost function Range(lo: nat, hi: nat): seq<nat>
    decreases hi
  {
    if hi <= lo then [] else Range(lo, hi - 1) + [hi - 1]
  }

  /** The numbers of sender a's packets that a session was sent as their target, in ring order. */
  ghost function Own(from: seq<Source>, a: nat): seq<nat>
    decreases |from|
  {
    if from == [] then []
    else
      var x := from[|from| - 1];
      Own(from[..|from| - 1], a) + if x.Relayed? && x.sender == a then [x.k] else []
  }

  /** The same, with the strays. */
  ghost function All(from: seq<Source>, a: nat): seq<nat>
    decreases |from|
  {
    if from == [] then []
    else
      var x := from[|from| - 1];
      All(from[..|from| - 1], a) + if !x.Welcome? && x.sender == a then [x.k] else []
  }

  ghost function Greetings(from: seq<Source>): nat
    decreases |from|
  {
    if from == [] then 0
    else Greetings(from[..|from| - 1]) + if from[|from| - 1].Welcome? then 1 else 0
  }

  lemma OneMore(from: seq<Source>, x: Source, a: nat)
    ensures Own(from + [x], a) == Own(from, a) + if x.Relayed? && x.sender == a then [x.k] else []
    ensures All(from + [x], a) == All(from, a) + if !x.Welcome? && x.sender == a then [x.k] else []
    ensures Greetings(from + [x]) == Greetings(from) + if x.Welcome? then 1 else 0
  {
    assert (from + [x])[..|from|] == from;
  }

  ghost predicate Increasing(ks: seq<nat>, bound: nat)
  {
    && (forall i, j :: 0 <= i < j < |ks| ==> ks[i] < ks[j])
    && (forall i :: 0 <= i < |ks| ==> ks[i] < bound)
  }

  /** Packet p is what the source says. */
  ghost predicate Explains(h: Hub, x: Source, p: Packet)
  {
    if x.Welcome? then |x.text| <= TEXT_MAX && p == Greeting(x.text)
    else
      && x.sender < |h.members| && x.k < h.members[x.sender].begun
      && var m := h.members[x.sender];
      x.k < |m.input.packets| && Registered(m.input.packets[x.k]) && p == Outgoing(m.handle, m.input.packets[x.k])
  }

  /** Sender a has a packet in hand for the slot of c. */
  ghost predicate Awaits(h: Hub, a: nat, c: nat)
    requires a < |h.members| && c < |h.members|
  {
    exists b :: b in h.members[a].rest && b < |h.members| && h.members[b].slot == h.members[c].slot
  }

  /** How many of a's packets have been dealt with as far as c's slot is concerned. */
  ghost function Bound(h: Hub, a: nat, c: nat): int
    requires a < |h.members| && c < |h.members|
  {
    h.members[a].begun - if Awaits(h, a, c) then 1 else 0
  }

  /** The same for c as a target. */
  ghost function Upto(h: Hub, a: nat, c: nat): int
    requires a < |h.members| && c < |h.members|
  {
    h.members[a].begun - if c in h.members[a].rest then 1 else 0
  }

  ghost predicate ReaderGood(h: Hub, a: nat)
    requires a < |h.members|
  {
    var m := h.members[a];
    && m.input == Parse(m.stream, h.size, AcceptAll) && m.begun <= |m.input.packets|
    && (m.rest != {} ==> InHand(m))
    && (forall b :: b in m.rest ==> b < |h.members| && b != a && h.members[b].phase != New)
    && (forall b, c :: b in m.rest && c in m.rest && h.members[b].slot == h.members[c].slot ==> b == c)
  }

  ghost predicate ListenerGood(h: Hub, c: nat)
    requires c < |h.members|
  {
    var m := h.members[c];
    && Q.Good(m.out, h.size) && |m.from| == |m.out.copied|
    && (forall n :: 0 <= n < |m.from| ==> Explains(h, m.from[n], m.out.copied[n]))
    && (!m.refused ==> Greetings(m.from) == if m.greeted then 1 else 0)
    && (m.phase != New ==> |m.since| == |h.members|)
    && (m.phase == New ==> !m.greeted)
  }

  /** In the ring of listener m the packets of sender a come in the order in which a sent them, all of
      them below bound; and while m is connected and its ring never refused one, those meant for m are
      exactly the ones that a took up since m joined, up to upto. */
  ghost predicate Follows(m: Member, a: nat, self: bool, bound: int, upto: int)
  {
    && bound >= 0 && Increasing(All(m.from, a), bound)
    && (m.phase == New || self ==> Own(m.from, a) == [])
    && (m.phase == Connected && !m.refused && !self && a < |m.since| ==>
          m.since[a] <= upto && Own(m.from, a) == Range(m.since[a], upto))
  }

  ghost predicate PairGood(h: Hub, a: nat, c: nat)
    requires a < |h.members| && c < |h.members|
  {
    Follows(h.members[c], a, a == c, Bound(h, a, c), Upto(h, a, c))
  }

  ghost predicate OneLease(h: Hub)
  {
    forall b, c :: 0 <= b < c < |h.members| && h.members[b].phase == h.members[c].phase == Connected ==>
      h.members[b].slot != h.members[c].slot
  }

  ghost predicate Good(h: Hub)
  {
    && OneLease(h)
    && (forall a :: 0 <= a < |h.members| ==> ReaderGood(h, a) && ListenerGood(h, a))
    && (forall a, c :: 0 <= a < |h.members| && 0 <= c < |h.members| ==> PairGood(h, a, c))
  }

  // ---------- what a step leaves alone ----------

  /** No member changes its slot or handle, and no packet or broadcast is taken back. */
  ghost predicate Grows(h: Hub, t: Hub)
  {
    && t.size == h.size && |t.members| == |h.members|
    && forall x :: 0 <= x < |h.members| ==>
      && t.members[x].slot == h.members[x].slot && t.members[x].handle == h.members[x].handle
      && h.members[x].begun <= t.members[x].begun && h.members[x].input.packets <= t.members[x].input.packets
      && (t.members[x].phase == New ==> h.members[x].phase == New)
  }

  lemma StillExplains(h: Hub, t: Hub, x: Source, p: Packet)
    requires Grows(h, t) && Explains(h, x, p)
    ensures Explains(t, x, p)
  {
  }

  ghost predicate SameReader(m: Member, m': Member)
  {
    m'.stream == m.stream && m'.input == m.input && m'.begun == m.begun && m'.rest == m.rest
  }

  ghost predicate SameListener(m: Member, m': Member)
  {
    && m'.out == m.out && m'.from == m.from && m'.refused == m.refused && m'.greeted == m.greeted
    && m'.phase == m.phase && m'.since == m.since
  }

  lemma ReaderSame(h: Hub, t: Hub, a: nat)
    requires Grows(h, t) && a < |h.members| && ReaderGood(h, a) && SameReader(h.members[a], t.members[a])
    ensures ReaderGood(t, a)
  {
  }

  lemma ListenerSame(h: Hub, t: Hub, c: nat)
    requires Grows(h, t) && c < |h.members| && ListenerGood(h, c) && SameListener(h.members[c], t.members[c])
    ensures ListenerGood(t, c)
  {
    var m := t.members[c];
    forall n | 0 <= n < |m.from|
      ensures Explains(t, m.from[n], m.out.copied[n])
    {
      StillExplains(h, t, m.from[n], m.out.copied[n]);
    }
  }

  lemma AwaitsSame(h: Hub, t: Hub, a: nat, c: nat)
    requires Grows(h, t) && a < |h.members| && c < |h.members| && t.members[a].rest == h.members[a].rest
    ensures Awaits(t, a, c) <==> Awaits(h, a, c)
  {
    if Awaits(h, a, c) {
      var b :| b in h.members[a].rest && b < |h.members| && h.members[b].slot == h.members[c].slot;
      assert b in t.members[a].rest && t.members[b].slot == t.members[c].slot;
    }
    if Awaits(t, a, c) {
      var b :| b in t.members[a].rest && b < |t.members| && t.members[b].slot == t.members[c].slot;
      assert b in h.members[a].rest && h.members[b].slot == h.members[c].slot;
    }
  }

  /** What the pair of a reader and a listener is about. */
  ghost predicate SamePair(h: Hub, t: Hub, a: nat, c: nat)
    requires a < |h.members| == |t.members| && c < |h.members|
  {
    && t.members[a].begun == h.members[a].begun && t.members[a].rest == h.members[a].rest
    && var m, m' := h.members[c], t.members[c];
    m'.from == m.from && m'.refused == m.refused && m'.phase == m.phase && m'.since == m.since
  }

  lemma PairSame(h: Hub, t: Hub, a: nat, c: nat)
    requires Grows(h, t) && a < |h.members| && c < |h.members| && PairGood(h, a, c) && SamePair(h, t, a, c)
    ensures PairGood(t, a, c)
  {
    AwaitsSame(h, t, a, c);
  }

  // ---------- the steps ----------

  lemma ReceiveKeeps(h: Hub, a: nat, chunk: seq<Byte>)
    requires Good(h) && Possible(h, Receive(a, chunk))
    ensures Good(Step(h, Receive(a, chunk)))
  {
    var t := Step(h, Receive(a, chunk));
    ParseSplit(h.members[a].stream, chunk, h.size, AcceptAll);
    assert ReaderGood(h, a);
    assert Grows(h, t);
    forall x | 0 <= x < |t.members|
      ensures ReaderGood(t, x) && ListenerGood(t, x)
    {
      if x != a {
        ReaderSame(h, t, x);
      }
      ListenerSame(h, t, x);
    }
    forall x, y | 0 <= x < |t.members| && 0 <= y < |t.members|
      ensures PairGood(t, x, y)
    {
      PairSame(h, t, x, y);
    }
  }

  lemma TakeUpPair(h: Hub, a: nat, c: nat)
    requires Good(h) && Possible(h, TakeUp(a)) && c < |h.members|
    ensures PairGood(Step(h, TakeUp(a)), a, c)
  {
    assert PairGood(h, a, c);
    assert !Awaits(h, a, c);
  }

  lemma TakeUpKeeps(h: Hub, a: nat)
    requires Good(h) && Possible(h, TakeUp(a))
    ensures Good(Step(h, TakeUp(a)))
  {
    var t := Step(h, TakeUp(a));
    assert ReaderGood(h, a);
    assert Grows(h, t);
    forall x | 0 <= x < |t.members|
      ensures ReaderGood(t, x) && ListenerGood(t, x)
    {
      if x != a {
        ReaderSame(h, t, x);
      }
      ListenerSame(h, t, x);
    }
    forall x, y | 0 <= x < |t.members| && 0 <= y < |t.members|
      ensures PairGood(t, x, y)
    {
      if x == a {
        TakeUpPair(h, a, y);
      } else {
        PairSame(h, t, x, y);
      }
    }
  }

  /** A target less: the slot of b is waited for no longer. */
  lemma ServedBound(h: Hub, t: Hub, a: nat, b: nat, c: nat)
    requires Grows(h, t) && a < |h.members| && c < |h.members| && b < |h.members| && ReaderGood(h, a)
    requires b in h.members[a].rest && t.members[a].rest == h.members[a].rest - {b}
    requires t.members[a].begun == h.members[a].begun
    ensures Bound(t, a, c) >= Bound(h, a, c)
    ensures h.members[c].slot == h.members[b].slot ==>
      Bound(h, a, c) == h.members[a].begun - 1 && Bound(t, a, c) == h.members[a].begun
  {
    if Awaits(t, a, c) {
      var b' :| b' in t.members[a].rest && b' < |t.members| && t.members[b'].slot == t.members[c].slot;
      assert b' in h.members[a].rest && h.members[b'].slot == h.members[c].slot;
      assert Awaits(h, a, c);
    }
  }

  /** What serving target b means for a listener whose ring is left alone. */
  lemma ServedPair(h: Hub, t: Hub, a: nat, b: nat, c: nat)
    requires Grows(h, t) && a < |h.members| && c < |h.members| && b < |h.members|
    requires PairGood(h, a, c) && ReaderGood(h, a)
    requires b in h.members[a].rest && t.members[a].rest == h.members[a].rest - {b}
    requires t.members[a].begun == h.members[a].begun
    requires var m, m' := h.members[c], t.members[c];
      m'.from == m.from && m'.phase == m.phase && m'.since == m.since && (m.refused ==> m'.refused)
    requires c == b ==> h.members[b].phase != Connected || t.members[c].refused
    ensures PairGood(t, a, c)
  {
    ServedBound(h, t, a, b, c);
    FollowsOn(h.members[c], t.members[c], a, a == c, Bound(h, a, c), Bound(t, a, c), Upto(h, a, c), Upto(t, a, c));
  }

  lemma FollowsOn(m: Member, m': Member, a: nat, self: bool, bound: int, bound': int, upto: int, upto': int)
    requires Follows(m, a, self, bound, upto) && bound' >= bound
    requires m'.from == m.from && m'.phase == m.phase && m'.since == m.since
    requires m.refused ==> m'.refused
    requires m.phase == Connected && !m'.refused ==> upto' == upto
    ensures Follows(m', a, self, bound', upto')
  {
  }

  lemma ServedReader(h: Hub, t: Hub, a: nat, b: nat)
    requires Grows(h, t) && a < |h.members| && ReaderGood(h, a) && b in h.members[a].rest
    requires SameReader(h.members[a].(rest := h.members[a].rest - {b}), t.members[a])
    ensures ReaderGood(t, a)
  {
  }

  lemma SkipKeeps(h: Hub, a: nat, b: nat)
    requires Good(h) && Possible(h, Skip(a, b))
    ensures Good(Step(h, Skip(a, b)))
  {
    var t := Step(h, Skip(a, b));
    forall x | 0 <= x < |t.members|
      ensures ReaderGood(t, x) && ListenerGood(t, x)
    {
      if x != a {
        ReaderSame(h, t, x);
      } else {
        ServedReader(h, t, a, b);
      }
      ListenerSame(h, t, x);
    }
    forall x, y | 0 <= x < |t.members| && 0 <= y < |t.members|
      ensures PairGood(t, x, y)
    {
      if x == a {
        ServedPair(h, t, a, b, y);
      } else {
        PairSame(h, t, x, y);
      }
    }
  }

  // ---------- SendPacket ----------

  /** Packet p from source x behind all others. */
  lemma SourceAppended(h: Hub, t: Hub, m: Member, m': Member, p: Packet, x: Source)
    requires Grows(h, t) && |m.from| == |m.out.copied| && Explains(h, x, p)
    requires forall n :: 0 <= n < |m.from| ==> Explains(h, m.from[n], m.out.copied[n])
    requires (m'.from == m.from && m'.out.copied == m.out.copied)
      || (m'.from == m.from + [x] && m'.out.copied == m.out.copied + [p])
    ensures |m'.from| == |m'.out.copied|
    ensures forall n :: 0 <= n < |m'.from| ==> Explains(t, m'.from[n], m'.out.copied[n])
  {
    forall n | 0 <= n < |m'.from|
      ensures Explains(t, m'.from[n], m'.out.copied[n])
    {
      if n < |m.from| {
        StillExplains(h, t, m.from[n], m.out.copied[n]);
      } else {
        StillExplains(h, t, x, p);
      }
    }
  }

  /** SendPacket on listener m of c, who has just been marked as greeted if x is the greeting. */
  lemma PushedListener(h: Hub, t: Hub, c: nat, p: Packet, x: Source, posted: bool)
    requires Grows(h, t) && c < |h.members| && ListenerGood(h, c) && Explains(h, x, p)
    requires x.Welcome? ==> !h.members[c].greeted && h.members[c].phase != New
    requires var m := if x.Welcome? then h.members[c].(greeted := true) else h.members[c];
      SameListener(Pushed(m, p, x, h.size, posted), t.members[c])
    ensures ListenerGood(t, c)
  {
    var m := h.members[c];
    Q.StepKeepsGood(m.out, Q.Push(p, posted), h.size);
    OneMore(m.from, x, 0);
    SourceAppended(h, t, m, t.members[c], p, x);
  }

  lemma IncreasingMore(ks: seq<nat>, bound: nat)
    requires Increasing(ks, bound)
    ensures Increasing(ks + [bound], bound + 1)
  {
  }

  /** A packet of the sender itself goes into the ring. */
  lemma FollowsMore(m: Member, m': Member, a: nat, self: bool, x: Source, bound: int, upto: int)
    requires Follows(m, a, self, bound, upto) && !x.Welcome? && x.sender == a && x.k == bound
    requires m'.from == m.from + [x] && m'.phase == m.phase && m'.since == m.since && m'.refused == m.refused
    requires x.Relayed? ==> m.phase != New && !self && upto == bound
    ensures Follows(m', a, self, bound + 1, if x.Relayed? then upto + 1 else upto)
  {
    OneMore(m.from, x, a);
    IncreasingMore(All(m.from, a), bound);
  }

  /** A packet of somebody else, or a greeting. */
  lemma FollowsOther(m: Member, m': Member, a: nat, self: bool, x: Source, bound: int, upto: int)
    requires Follows(m, a, self, bound, upto) && (x.Welcome? || x.sender != a)
    requires m'.from == m.from + [x] && m'.phase == m.phase && m'.since == m.since && m'.refused == m.refused
    ensures Follows(m', a, self, bound, upto)
  {
    OneMore(m.from, x, a);
  }

  /** Whatever SendPacket may have done to the ring of a listener. */
  ghost predicate PushDone(m: Member, m': Member, x: Source)
  {
    && m'.phase == m.phase && m'.since == m.since
    && ((m'.from == m.from + [x] && m'.refused == m.refused) || (m'.from == m.from && m'.refused))
  }

  lemma PairPushed(h: Hub, t: Hub, a: nat, c: nat, x: Source)
    requires Grows(h, t) && a < |h.members| && c < |h.members| && PairGood(h, a, c)
    requires t.members[a].begun == h.members[a].begun && t.members[a].rest == h.members[a].rest
    requires PushDone(h.members[c], t.members[c], x) && (x.Welcome? || x.sender != a)
    ensures PairGood(t, a, c)
  {
    AwaitsSame(h, t, a, c);
    if t.members[c].from == h.members[c].from {
      FollowsOn(h.members[c], t.members[c], a, a == c, Bound(h, a, c), Bound(t, a, c), Upto(h, a, c), Upto(t, a, c));
    } else {
      FollowsOther(h.members[c], t.members[c], a, a == c, x, Bound(h, a, c), Upto(h, a, c));
    }
  }

  /** What the relay of a packet with source x, meant for b, on the lease c changes. */
  ghost predicate RelayDone(h: Hub, t: Hub, a: nat, b: nat, c: nat, x: Source)
    requires a < |h.members| && b < |h.members| && c < |h.members|
  {
    && Grows(h, t) && b in h.members[a].rest && Redirects(h, b, c) && h.members[a].begun > 0
    && x == (if b == c then Relayed(a, h.members[a].begun - 1) else Stray(a, h.members[a].begun - 1))
    && t.members[a].rest == h.members[a].rest - {b} && t.members[a].begun == h.members[a].begun
    && PushDone(h.members[c], t.members[c], x)
  }

  lemma RelayedPair(h: Hub, t: Hub, a: nat, b: nat, c: nat, x: Source)
    requires a < |h.members| && b < |h.members| && c < |h.members| && RelayDone(h, t, a, b, c, x)
    requires PairGood(h, a, c) && ReaderGood(h, a)
    ensures PairGood(t, a, c)
  {
    assert h.members[c].slot == h.members[b].slot;
    if t.members[c].from == h.members[c].from {
      ServedPair(h, t, a, b, c);
    } else {
      ServedBound(h, t, a, b, c);
      FollowsMore(h.members[c], t.members[c], a, a == c, x, Bound(h, a, c), Upto(h, a, c));
    }
  }

  ghost function SourceOf(h: Hub, a: nat, b: nat, c: nat): Source
    requires a < |h.members| && h.members[a].begun > 0
  {
    if b == c then Relayed(a, h.members[a].begun - 1) else Stray(a, h.members[a].begun - 1)
  }

  lemma PushedEffect(m: Member, p: Packet, x: Source, size: nat, posted: bool)
    ensures var r := Pushed(m, p, x, size, posted);
      && PushDone(m, r, x) && SameReader(m, r)
      && r.slot == m.slot && r.handle == m.handle && r.greeted == m.greeted
  {
  }

  lemma RelayEffect(h: Hub, a: nat, b: nat, c: nat, posted: bool)
    requires OneLease(h) && Possible(h, Relay(a, b, c, posted))
    ensures var t := Step(h, Relay(a, b, c, posted));
      && RelayDone(h, t, a, b, c, SourceOf(h, a, b, c)) && OneLease(t)
      && SameListener(Sent(h, a, b, c, posted), t.members[c])
      && forall x :: 0 <= x < |h.members| ==>
        && (x != c ==> SameListener(h.members[x], t.members[x]))
        && (x != a ==> SameReader(h.members[x], t.members[x]))
  {
    var p := Outgoing(h.members[a].handle, h.members[a].input.packets[h.members[a].begun - 1]);
    PushedEffect(h.members[c], p, SourceOf(h, a, b, c), h.size, posted);
    ServedEffect(h, Step(h, Relay(a, b, c, posted)), a, b, c, Sent(h, a, b, c, posted));
  }

  lemma ServedEffect(h: Hub, t: Hub, a: nat, b: nat, c: nat, m: Member)
    requires a < |h.members| && b < |h.members| && c < |h.members| && OneLease(h) && b in h.members[a].rest
    requires SameReader(h.members[c], m) && m.slot == h.members[c].slot && m.handle == h.members[c].handle
    requires m.phase == h.members[c].phase && t == Served(Put(h, c, m), a, b)
    ensures Grows(h, t) && OneLease(t) && SameListener(m, t.members[c])
    ensures t.members[a].rest == h.members[a].rest - {b} && t.members[a].begun == h.members[a].begun
    ensures forall x :: 0 <= x < |h.members| ==>
      && (x != c ==> SameListener(h.members[x], t.members[x]))
      && (x != a ==> SameReader(h.members[x], t.members[x]))
  {
  }

  lemma RelayListener(h: Hub, t: Hub, a: nat, b: nat, c: nat, posted: bool)
    requires Possible(h, Relay(a, b, c, posted)) && Grows(h, t) && ListenerGood(h, c)
    requires SameListener(Sent(h, a, b, c, posted), t.members[c])
    ensures ListenerGood(t, c)
  {
    var p := Outgoing(h.members[a].handle, h.members[a].input.packets[h.members[a].begun - 1]);
    InHandExplained(h, a, b, c, p);
    PushedListener(h, t, c, p, SourceOf(h, a, b, c), posted);
  }

  lemma InHandExplained(h: Hub, a: nat, b: nat, c: nat, p: Packet)
    requires a < |h.members| && InHand(h.members[a])
    requires p == Outgoing(h.members[a].handle, h.members[a].input.packets[h.members[a].begun - 1])
    ensures Explains(h, SourceOf(h, a, b, c), p)
  {
  }

  lemma RelayPair(h: Hub, t: Hub, a: nat, b: nat, c: nat, x: nat, y: nat)
    requires a < |h.members| && b < |h.members| && c < |h.members| && x < |h.members| && y < |h.members|
    requires h.members[a].begun > 0 && RelayDone(h, t, a, b, c, SourceOf(h, a, b, c))
    requires y != c ==> SameListener(h.members[y], t.members[y])
    requires x != a ==> SameReader(h.members[x], t.members[x])
    requires PairGood(h, x, y) && ReaderGood(h, a)
    ensures PairGood(t, x, y)
  {
    if x == a && y == c {
      RelayedPair(h, t, a, b, c, SourceOf(h, a, b, c));
    } else if x == a {
      ServedPair(h, t, a, b, y);
    } else if y == c {
      PairPushed(h, t, x, c, SourceOf(h, a, b, c));
    } else {
      PairSame(h, t, x, y);
    }
  }

  lemma RelayedKeeps(h: Hub, t: Hub, a: nat, b: nat, c: nat)
    requires Good(h) && OneLease(t) && a < |h.members| && b < |h.members| && c < |h.members|
    requires h.members[a].begun > 0 && RelayDone(h, t, a, b, c, SourceOf(h, a, b, c)) && ListenerGood(t, c)
    requires SameReader(h.members[a].(rest := h.members[a].rest - {b}), t.members[a])
    requires forall x :: 0 <= x < |h.members| ==>
      && (x != c ==> SameListener(h.members[x], t.members[x]))
      && (x != a ==> SameReader(h.members[x], t.members[x]))
    ensures Good(t)
  {
    forall x | 0 <= x < |t.members|
      ensures ReaderGood(t, x) && ListenerGood(t, x)
    {
      if x != a {
        ReaderSame(h, t, x);
      } else {
        ServedReader(h, t, a, b);
      }
      if x != c {
        ListenerSame(h, t, x);
      }
    }
    forall x, y | 0 <= x < |t.members| && 0 <= y < |t.members|
      ensures PairGood(t, x, y)
    {
      RelayPair(h, t, a, b, c, x, y);
    }
  }

  lemma RelayKeeps(h: Hub, a: nat, b: nat, c: nat, posted: bool)
    requires Good(h) && Possible(h, Relay(a, b, c, posted))
    ensures Good(Step(h, Relay(a, b, c, posted)))
  {
    var t := Step(h, Relay(a, b, c, posted));
    RelayEffect(h, a, b, c, posted);
    RelayListener(h, t, a, b, c, posted);
    RelayedKeeps(h, t, a, b, c);
  }

  // ---------- a listener on its own ----------

  /** A step that changes member b as a listener only. */
  lemma ListenerKeeps(h: Hub, t: Hub, b: nat)
    requires Good(h) && Grows(h, t) && b < |h.members| && t == Put(h, b, t.members[b])
    requires SameReader(h.members[b], t.members[b]) && OneLease(t) && ListenerGood(t, b)
    requires forall x :: 0 <= x < |h.members| ==> PairGood(t, x, b)
    ensures Good(t)
  {
    forall x | 0 <= x < |t.members|
      ensures ReaderGood(t, x) && ListenerGood(t, x)
    {
      ReaderSame(h, t, x);
      if x != b {
        ListenerSame(h, t, x);
      }
    }
    forall x, y | 0 <= x < |t.members| && 0 <= y < |t.members|
      ensures PairGood(t, x, y)
    {
      if y != b {
        PairSame(h, t, x, y);
      }
    }
  }

  lemma ProgressKeeps(h: Hub, b: nat, q: Q.Event)
    requires Good(h) && Possible(h, Progress(b, q))
    ensures Good(Step(h, Progress(b, q)))
  {
    var t := Step(h, Progress(b, q));
    ProgressListener(h, t, b, q);
    forall x | 0 <= x < |h.members|
      ensures PairGood(t, x, b)
    {
      PairSame(h, t, x, b);
    }
    ListenerKeeps(h, t, b);
  }

  lemma ProgressListener(h: Hub, t: Hub, b: nat, q: Q.Event)
    requires b < |h.members| && ListenerGood(h, b) && !q.Push? && Q.Possible(h.members[b].out, q) && Grows(h, t)
    requires t.members[b] == h.members[b].(out := Q.Step(h.members[b].out, q, h.size))
    ensures ListenerGood(t, b)
  {
    Q.StepKeepsGood(h.members[b].out, q, h.size);
    var m := t.members[b];
    forall n | 0 <= n < |m.from|
      ensures Explains(t, m.from[n], m.out.copied[n])
    {
      StillExplains(h, t, m.from[n], m.out.copied[n]);
    }
  }

  /** Joining or leaving changes the phase, and for who joins the counts to start from. */
  lemma PhaseListener(h: Hub, t: Hub, b: nat)
    requires b < |h.members| && ListenerGood(h, b) && Grows(h, t) && t.members[b].phase != New
    requires t.members[b] == h.members[b].(phase := t.members[b].phase, since := t.members[b].since)
    requires |t.members[b].since| == |h.members|
    ensures ListenerGood(t, b)
  {
    var m := t.members[b];
    forall n | 0 <= n < |m.from|
      ensures Explains(t, m.from[n], m.out.copied[n])
    {
      StillExplains(h, t, m.from[n], m.out.copied[n]);
    }
  }

  lemma JoinPair(h: Hub, t: Hub, b: nat, x: nat)
    requires b < |h.members| && x < |h.members| && Grows(h, t) && PairGood(h, x, b) && ReaderGood(h, x)
    requires h.members[b].phase == New && t == Put(h, b, h.members[b].(phase := Connected, since := Begun(h)))
    ensures PairGood(t, x, b)
  {
    AwaitsSame(h, t, x, b);
    assert b !in h.members[x].rest;
    assert Range(h.members[x].begun, h.members[x].begun) == [];
  }

  lemma JoinKeeps(h: Hub, b: nat)
    requires Good(h) && Possible(h, Join(b))
    ensures Good(Step(h, Join(b)))
  {
    var t := Step(h, Join(b));
    assert Grows(h, t) && OneLease(t);
    PhaseListener(h, t, b);
    forall x | 0 <= x < |h.members|
      ensures PairGood(t, x, b)
    {
      JoinPair(h, t, b, x);
    }
    ListenerKeeps(h, t, b);
  }

  lemma GreetEffect(h: Hub, b: nat, text: seq<Byte>, posted: bool)
    requires OneLease(h) && Possible(h, Greet(b, text, posted))
    ensures var t := Step(h, Greet(b, text, posted));
      && Grows(h, t) && OneLease(t) && SameReader(h.members[b], t.members[b])
      && PushDone(h.members[b], t.members[b], Welcome(text))
  {
    PushedEffect(h.members[b].(greeted := true), Greeting(text), Welcome(text), h.size, posted);
  }

  lemma GreetListener(h: Hub, b: nat, text: seq<Byte>, posted: bool)
    requires Possible(h, Greet(b, text, posted)) && Grows(h, Step(h, Greet(b, text, posted))) && ListenerGood(h, b)
    ensures ListenerGood(Step(h, Greet(b, text, posted)), b)
  {
    var t := Step(h, Greet(b, text, posted));
    PushedListener(h, t, b, Greeting(text), Welcome(text), posted);
  }

  lemma GreetKeeps(h: Hub, b: nat, text: seq<Byte>, posted: bool)
    requires Good(h) && Possible(h, Greet(b, text, posted))
    ensures Good(Step(h, Greet(b, text, posted)))
  {
    var t := Step(h, Greet(b, text, posted));
    GreetEffect(h, b, text, posted);
    GreetListener(h, b, text, posted);
    forall x | 0 <= x < |h.members|
      ensures PairGood(t, x, b)
    {
      PairPushed(h, t, x, b, Welcome(text));
    }
    ListenerKeeps(h, t, b);
  }

  lemma LeavePair(h: Hub, t: Hub, b: nat, x: nat)
    requires b < |h.members| && x < |h.members| && Grows(h, t) && PairGood(h, x, b)
    requires h.members[b].phase == Connected && t == Put(h, b, h.members[b].(phase := Gone))
    ensures PairGood(t, x, b)
  {
    AwaitsSame(h, t, x, b);
  }

  lemma LeaveKeeps(h: Hub, b: nat)
    requires Good(h) && Possible(h, Leave(b))
    ensures Good(Step(h, Leave(b)))
  {
    var t := Step(h, Leave(b));
    assert Grows(h, t) && OneLease(t);
    PhaseListener(h, t, b);
    forall x | 0 <= x < |h.members|
      ensures PairGood(t, x, b)
    {
      LeavePair(h, t, b, x);
    }
    ListenerKeeps(h, t, b);
  }

  /** Every step keeps every stream right. */
  lemma StepKeepsGood(h: Hub, e: Event)
    requires Good(h) && Possible(h, e)
    ensures Good(Step(h, e))
  {
    match e
    case Receive(a, chunk) => ReceiveKeeps(h, a, chunk);
    case TakeUp(a) => TakeUpKeeps(h, a);
    case Relay(a, b, c, posted) => RelayKeeps(h, a, b, c, posted);
    case Skip(a, b) => SkipKeeps(h, a, b);
    case Progress(b, q) => ProgressKeeps(h, b, q);
    case Join(b) => JoinKeeps(h, b);
    case Greet(b, text, posted) => GreetKeeps(h, b, text, posted);
    case Leave(b) => LeaveKeeps(h, b);
  }
}
