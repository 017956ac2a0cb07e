/** Length-prefixed packets on a byte stream: what one pass over a whole stream means, and that any
    way of cutting the stream into receives means the same. */
module Framing {
  type Byte = n: nat | n < 256

  const HEADER: nat := 4

  type Packet = seq<Byte>

  /** The little-endian 16-bit size field at the front. */
  function SizeField(s: seq<Byte>): (n: nat)
    requires |s| >= 2
    ensures n < 65536
  {
    s[0] as nat + 256 * (s[1] as nat)
  }

  function IdField(s: seq<Byte>): (n: nat)
    requires |s| >= 4
  {
    s[2] as nat + 256 * (s[3] as nat)
  }

  /** What the parser has done with a stream: the packets executed, the bytes left over, and
      whether it gave up at them. */
  datatype Parsed = Parsed(packets: seq<Packet>, rest: seq<Byte>, rejected: bool)

  /** One pass over a whole stream, for a buffer of the given size and a handler that accepts or
      refuses each packet. */
  function Parse(s: seq<Byte>, size: nat, accept: Packet -> bool): (p: Parsed)
    ensures |p.rest| <= |s|
    decreases |s|
  {
    if |s| < HEADER then Parsed([], s, false)
    else
      var n := SizeField(s);
      if n < HEADER || n >= size then Parsed([], s, true)
      else if |s| < n then Parsed([], s, false)
      else if !accept(s[..n]) then Parsed([], s, true)
      else
        var p := Parse(s[n..], size, accept);
        p.(packets := [s[..n]] + p.packets)
  }

  function Flatten<T>(ss: seq<seq<T>>): (r: seq<T>)
  {
    if ss == [] then [] else ss[0] + Flatten(ss[1..])
  }

  lemma {:induction false} FlattenAppend<T>(a: seq<seq<T>>, b: seq<seq<T>>)
    ensures Flatten(a + b) == Flatten(a) + Flatten(b)
  {
    if a == [] {
      assert a + b == b;
    } else {
      FlattenAppend(a[1..], b);
      assert (a + b)[1..] == a[1..] + b;
    }
  }

  /** A packet that frames itself and fits a buffer. */
  predicate WellFormed(p: Packet, size: nat)
  {
    HEADER <= |p| < size && SizeField(p) == |p|
  }

  /** The bytes begin with a size that cannot be, or with a whole packet that its handler refuses. */
  ghost predicate BadFront(s: seq<Byte>, size: nat, accept: Packet -> bool)
  {
    && |s| >= HEADER
    && var n := SizeField(s); n < HEADER || n >= size || (n <= |s| && !accept(s[..n]))
  }

  /** They begin with a packet to execute. */
  ghost predicate ReadyFront(s: seq<Byte>, size: nat, accept: Packet -> bool)
  {
    |s| >= HEADER && var n := SizeField(s); HEADER <= n < size && n <= |s| && accept(s[..n])
  }

  /** Nothing is lost or invented, every executed packet was well formed and accepted, and what is
      left over is no whole packet and leaves room in the buffer; the session gives up exactly at a bad
      size or a refused packet. */
  lemma {:induction false} ParseIsSound(s: seq<Byte>, size: nat, accept: Packet -> bool)
    requires size >= HEADER
    ensures var p := Parse(s, size, accept);
      && Flatten(p.packets) + p.rest == s
      && (forall k :: 0 <= k < |p.packets| ==> WellFormed(p.packets[k], size) && accept(p.packets[k]))
      && (!p.rejected ==> |p.rest| < size)
      && (p.rejected <==> BadFront(p.rest, size, accept)) && !ReadyFront(p.rest, size, accept)
    decreases |s|
  {
    var p := Parse(s, size, accept);
    if p.packets != [] {
      var n := SizeField(s);
      ParseIsSound(s[n..], size, accept);
      var q := Parse(s[n..], size, accept);
      assert p.packets[1..] == q.packets;
      assert s == s[..n] + s[n..];
      forall k | 0 <= k < |p.packets|
        ensures WellFormed(p.packets[k], size) && accept(p.packets[k])
      {
        assert k > 0 ==> p.packets[k] == q.packets[k - 1];
      }
    }
  }

  /** The parser goes on with the next receive where it stopped. */
  function Absorb(p: Parsed, chunk: seq<Byte>, size: nat, accept: Packet -> bool): (q: Parsed)
  {
    if p.rejected then p.(rest := p.rest + chunk)
    else
      var q := Parse(p.rest + chunk, size, accept);
      q.(packets := p.packets + q.packets)
  }

  /** With one packet more in front, absorbing goes on the same. */
  lemma AbsorbBehind(first: Packet, p: Parsed, b: seq<Byte>, size: nat, accept: Packet -> bool)
    ensures var q := Absorb(p, b, size, accept);
      Absorb(p.(packets := [first] + p.packets), b, size, accept) == q.(packets := [first] + q.packets)
  {
    var r := Parse(p.rest + b, size, accept);
    assert ([first] + p.packets) + r.packets == [first] + (p.packets + r.packets);
  }

  /** Cutting a stream in two changes nothing. */
  lemma {:induction false} ParseSplit(a: seq<Byte>, b: seq<Byte>, size: nat, accept: Packet -> bool)
    ensures Parse(a + b, size, accept) == Absorb(Parse(a, size, accept), b, size, accept)
    decreases |a|
  {
    if |a| >= HEADER {
      var n := SizeField(a);
      assert SizeField(a + b) == n;
      if HEADER <= n < size && |a| >= n {
        assert (a + b)[..n] == a[..n] && (a + b)[n..] == a[n..] + b;
        if accept(a[..n]) {
          ParseSplit(a[n..], b, size, accept);
          AbsorbBehind(a[..n], Parse(a[n..], size, accept), b, size, accept);
        }
      }
    }
  }

  /** Receives one after the other; after a rejection the session reads no further. */
  function Feed(p: Parsed, chunks: seq<seq<Byte>>, size: nat, accept: Packet -> bool): (r: Parsed)
    decreases |chunks|
  {
    if chunks == [] || p.rejected then p
    else Feed(Absorb(p, chunks[0], size, accept), chunks[1..], size, accept)
  }

  /** Once the parser gave up it stays where it is. */
  lemma {:induction false} RejectionIsFinal(a: seq<Byte>, b: seq<Byte>, size: nat, accept: Packet -> bool)
    requires Parse(a, size, accept).rejected
    ensures Parse(a + b, size, accept).rejected
    ensures Parse(a + b, size, accept).packets == Parse(a, size, accept).packets
  {
    ParseSplit(a, b, size, accept);
  }

  lemma FeedOne(s: seq<Byte>, chunks: seq<seq<Byte>>, size: nat, accept: Packet -> bool)
    requires chunks != [] && !Parse(s, size, accept).rejected
    ensures Feed(Parse(s, size, accept), chunks, size, accept) ==
            Feed(Parse(s + chunks[0], size, accept), chunks[1..], size, accept)
  {
    ParseSplit(s, chunks[0], size, accept);
  }

  /** The chunked and the whole pass agree. */
  ghost predicate Agree(fed: Parsed, whole: Parsed)
  {
    && fed.packets == whole.packets && fed.rejected == whole.rejected
    && fed.rest <= whole.rest && (!whole.rejected ==> fed.rest == whole.rest)
  }

  lemma FeedStops(s: seq<Byte>, chunks: seq<seq<Byte>>, size: nat, accept: Packet -> bool)
    requires Parse(s, size, accept).rejected
    ensures Agree(Feed(Parse(s, size, accept), chunks, size, accept), Parse(s + Flatten(chunks), size, accept))
  {
    ParseSplit(s, Flatten(chunks), size, accept);
  }

  lemma FlattenFrom(s: seq<Byte>, chunks: seq<seq<Byte>>)
    requires chunks != []
    ensures s + Flatten(chunks) == (s + chunks[0]) + Flatten(chunks[1..])
  {
  }

  lemma {:induction false} FeedContinues(s: seq<Byte>, chunks: seq<seq<Byte>>, size: nat, accept: Packet -> bool)
    ensures Agree(Feed(Parse(s, size, accept), chunks, size, accept), Parse(s + Flatten(chunks), size, accept))
    decreases |chunks|
  {
    if chunks == [] {
      assert s + Flatten(chunks) == s;
    } else if Parse(s, size, accept).rejected {
      FeedStops(s, chunks, size, accept);
    } else {
      FeedOne(s, chunks, size, accept);
      FlattenFrom(s, chunks);
      FeedContinues(s + chunks[0], chunks[1..], size, accept);
    }
  }

  /** However a stream is cut into receives, the packets executed and the point of rejection are
      those of a single pass over the whole stream. */
  lemma FragmentationIsInvisible(chunks: seq<seq<Byte>>, size: nat, accept: Packet -> bool)
    ensures var whole := Parse(Flatten(chunks), size, accept);
      var fed := Feed(Parsed([], [], false), chunks, size, accept);
      && fed.packets == whole.packets && fed.rejected == whole.rejected
      && fed.rest <= whole.rest && (!whole.rejected ==> fed.rest == whole.rest)
  {
    FeedContinues([], chunks, size, accept);
    assert [] + Flatten(chunks) == Flatten(chunks);
  }

  /** Packets written one after the other parse back to themselves. */
  lemma {:induction false} ParseFlatten(ps: seq<Packet>, size: nat, accept: Packet -> bool)
    requires forall k :: 0 <= k < |ps| ==> WellFormed(ps[k], size) && accept(ps[k])
    ensures Parse(Flatten(ps), size, accept) == Parsed(ps, [], false)
  {
    if ps != [] {
      ParseFlatten(ps[1..], size, accept);
      var s := Flatten(ps);
      assert s[..|ps[0]|] == ps[0] && s[|ps[0]|..] == Flatten(ps[1..]);
      assert SizeField(s) == SizeField(ps[0]);
    }
  }

  /** Any fragmentation of well-formed packets delivers exactly those packets. */
  lemma FragmentsRoundTrip(ps: seq<Packet>, chunks: seq<seq<Byte>>, size: nat, accept: Packet -> bool)
    requires forall k :: 0 <= k < |ps| ==> WellFormed(ps[k], size) && accept(ps[k])
    requires Flatten(chunks) == Flatten(ps)
    ensures Feed(Parsed([], [], false), chunks, size, accept) == Parsed(ps, [], false)
  {
    ParseFlatten(ps, size, accept);
    FragmentationIsInvisible(chunks, size, accept);
  }

  /** A stream that breaks off inside well-formed packets delivers the first ones and rejects
      nothing. */
  lemma PrefixDeliversPrefix(ps: seq<Packet>, w: seq<Byte>, size: nat, accept: Packet -> bool)
    requires forall k :: 0 <= k < |ps| ==> WellFormed(ps[k], size) && accept(ps[k])
    requires w <= Flatten(ps)
    ensures !Parse(w, size, accept).rejected && Parse(w, size, accept).packets <= ps
  {
    var tail := Flatten(ps)[|w|..];
    assert w + tail == Flatten(ps);
    ParseFlatten(ps, size, accept);
    ParseSplit(w, tail, size, accept);
  }
}
