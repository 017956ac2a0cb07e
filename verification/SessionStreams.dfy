/** Session byte streams over the double-mapped ring: the ring's bytes live at two consecutive
    addresses, so offsets run to twice its size. */
module SessionStreams {
  import opened Framing
  import opened OutQueue

  // ---------- mirrored addressing ----------

  /** The byte at an offset below twice the ring's size. */
  function At(d: seq<Byte>, off: nat): (b: Byte)
    requires off < 2 * |d|
  {
    if off < |d| then d[off] else d[off - |d|]
  }

  /** The bytes at consecutive offsets, as a reader of the mapping sees them. */
  function Span(d: seq<Byte>, from: nat, to: nat): (s: seq<Byte>)
    requires from <= to <= 2 * |d|
    ensures |s| == to - from
    ensures forall k :: 0 <= k < |s| ==> s[k] == At(d, from + k)
  {
    seq<Byte>(to - from, k requires 0 <= k < to - from => At(d, from + k))
  }

  lemma SpanWrite(d: seq<Byte>, from: nat, off: nat, b: Byte)
    requires from < |d| && from <= off < from + |d|
    ensures var i := if off < |d| then off else off - |d|;
      Span(d[i := b], from, off + 1) == Span(d, from, off) + [b]
  {
  }

  /** One subtraction brings offsets back into the first mapping. */
  lemma SpanRenormalised(d: seq<Byte>, from: nat, to: nat)
    requires |d| <= from <= to <= 2 * |d|
    ensures Span(d, from - |d|, to - |d|) == Span(d, from, to)
  {
  }

  class Ring {
    const data: array<Byte>
    var readPos: nat
    var writePos: nat

    /** Offsets stay inside the double mapping. */
    ghost predicate Mapped()
      reads this
    {
      readPos <= writePos < 2 * data.Length && writePos <= readPos + data.Length
    }

    /** Between handlers. */
    ghost predicate Valid()
      reads this
    {
      Mapped() && readPos < data.Length
    }

    ghost function Contents(): (s: seq<Byte>)
      requires Mapped()
      reads this, data
    {
      Span(data[..], readPos, writePos)
    }

    constructor (size: nat)
      requires size > 0
      ensures Valid() && fresh(data) && data.Length == size && readPos == writePos == 0
    {
      data := new Byte[size](_ => 0);
      readPos, writePos := 0, 0;
    }

    /** memcpy to the write offset, or the same done by a completed receive. */
    method Append(bytes: seq<Byte>)
      requires Valid() && writePos + |bytes| <= readPos + data.Length
      modifies this`writePos, data
      ensures Valid() && Contents() == old(Contents()) + bytes && writePos == old(writePos) + |bytes|
      ensures forall off :: readPos <= off < old(writePos) ==> At(data[..], off) == At(old(data[..]), off)
    {
      var k := 0;
      while k < |bytes|
        invariant 0 <= k <= |bytes| && readPos == old(readPos) && writePos == old(writePos) + k
        invariant Valid() && Contents() == old(Contents()) + bytes[..k]
      {
        SpanWrite(data[..], readPos, writePos, bytes[k]);
        var i := if writePos < data.Length then writePos else writePos - data.Length;
        ghost var before := data[..];
        data[i] := bytes[k];
        assert data[..] == before[i := bytes[k]];
        writePos := writePos + 1;
        assert bytes[..k + 1] == bytes[..k] + [bytes[k]];
        k := k + 1;
      }
      assert bytes[..k] == bytes;
      forall off | readPos <= off < old(writePos)
        ensures At(data[..], off) == At(old(data[..]), off)
      {
        assert Contents()[off - readPos] == old(Contents())[off - readPos];
      }
    }

    /** The next n bytes, read through the mapping without copying. */
    method Peek(n: nat) returns (s: seq<Byte>)
      requires Mapped() && n <= writePos - readPos
      ensures s == Contents()[..n]
    {
      s := Span(data[..], readPos, readPos + n);
    }

    method Advance(n: nat)
      requires Mapped() && n <= writePos - readPos
      modifies this`readPos
      ensures Mapped() && Contents() == old(Contents())[n..] && readPos == old(readPos) + n
    {
      readPos := readPos + n;
    }

    method Renormalise()
      requires Mapped()
      modifies this`readPos, this`writePos
      ensures Valid() && Contents() == old(Contents())
    {
      if readPos >= data.Length {
        SpanRenormalised(data[..], readPos, writePos);
        readPos := readPos - data.Length;
        writePos := writePos - data.Length;
      }
    }

    /** Room for the next receive. */
    function Space(): (n: nat)
      requires Valid()
      reads this
    {
      data.Length - writePos + readPos
    }
  }

  // ---------- the session ----------

  /** A whole pass is what is done already and a pass over what remains. */
  ghost predicate Resumes(whole: Parsed, done: seq<Packet>, remaining: Parsed)
  {
    whole == remaining.(packets := done + remaining.packets)
  }

  lemma ParseFirst(s: seq<Byte>, size: nat, accept: Packet -> bool, whole: Parsed, done: seq<Packet>)
    requires HEADER <= |s| && HEADER <= SizeField(s) < size && SizeField(s) <= |s| && accept(s[..SizeField(s)])
    requires Resumes(whole, done, Parse(s, size, accept))
    ensures var n := SizeField(s); Resumes(whole, done + [s[..n]], Parse(s[n..], size, accept))
  {
    var n := SizeField(s);
    var rest := Parse(s[n..], size, accept);
    assert (done + [s[..n]]) + rest.packets == done + ([s[..n]] + rest.packets);
  }

  lemma ParseStops(s: seq<Byte>, size: nat, accept: Packet -> bool, whole: Parsed, done: seq<Packet>)
    requires |s| < HEADER || SizeField(s) < HEADER || SizeField(s) >= size || |s| < SizeField(s)
      || !accept(s[..SizeField(s)])
    requires Resumes(whole, done, Parse(s, size, accept))
    ensures whole.packets == done && whole.rest == s
    ensures whole.rejected <==> |s| >= HEADER && (SizeField(s) < HEADER || SizeField(s) >= size || |s| >= SizeField(s))
  {
  }

  class Session {
    const readOv: Ring
    const writeOv: Ring
    /** Packets the handlers have accepted, in order. */
    var executed: seq<Packet>
    var isSending: bool
    var inFlight: Outstanding
    ghost var wire: seq<Byte>
    ghost var copied: seq<Packet>

    ghost predicate Separate()
      reads this
    {
      readOv != writeOv && readOv.data != writeOv.data && readOv.data.Length >= HEADER
    }

    ghost predicate Valid()
      reads this, readOv, writeOv
    {
      Separate() && readOv.Valid() && writeOv.Valid()
    }

    /** The outgoing side on plain sequences. */
    ghost function View(): (o: Out)
      requires writeOv.Mapped()
      reads this, writeOv, writeOv.data
    {
      Out(writeOv.Contents(), isSending, inFlight, wire, copied)
    }

    constructor (size: nat)
      requires size >= HEADER
      ensures Valid() && executed == [] && readOv.Contents() == [] && View() == EMPTY
      ensures readOv.data.Length == writeOv.data.Length == size
    {
      var r := new Ring(size);
      var w := new Ring(size);
      readOv, writeOv, executed, isSending, inFlight, wire, copied := r, w, [], false, NoSend, [], [];
    }

    /** The parse loop: executes every complete packet, up to the first that is rejected. */
    method ExecuteReady(accept: Packet -> bool) returns (rejected: bool)
      requires Separate() && readOv.Mapped()
      modifies this`executed, readOv`readPos
      ensures readOv.Mapped()
      ensures var p := Parse(old(readOv.Contents()), readOv.data.Length, accept);
        executed == old(executed) + p.packets && readOv.Contents() == p.rest && rejected == p.rejected
    {
      var size := readOv.data.Length;
      ghost var whole := Parse(readOv.Contents(), size, accept);
      ghost var done: seq<Packet> := [];
      assert done + whole.packets == whole.packets;
      while true
        invariant readOv.Mapped() && executed == old(executed) + done
        invariant Resumes(whole, done, Parse(readOv.Contents(), size, accept))
        decreases readOv.writePos - readOv.readPos
      {
        ghost var s := readOv.Contents();
        var available := readOv.writePos - readOv.readPos;
        if available < HEADER {
          ParseStops(s, size, accept, whole, done);
          return false;
        }
        var header := readOv.Peek(HEADER);
        var n := SizeField(header);
        assert n == SizeField(s);
        if n < HEADER || n >= size {
          ParseStops(s, size, accept, whole, done);
          return true;
        }
        if available < n {
          ParseStops(s, size, accept, whole, done);
          return false;
        }
        var packet := readOv.Peek(n);
        if !accept(packet) {
          ParseStops(s, size, accept, whole, done);
          return true;
        }
        executed := executed + [packet];
        ParseFirst(s, size, accept, whole, done);
        done := done + [packet];
        readOv.Advance(n);
      }
    }

    /** A receive of `chunk` into the offered space has completed. Executes what is complete, and
        posts the next receive, whose result is `posted`. The branch for a full buffer is never
        the reason for a failure: after the loop there is always room. */
    method OnRead(chunk: seq<Byte>, accept: Packet -> bool, posted: bool) returns (ok: bool)
      requires Valid() && |chunk| <= readOv.Space()
      modifies this`executed, readOv, readOv.data
      ensures readOv.Mapped()
      ensures var p := Parse(old(readOv.Contents()) + chunk, readOv.data.Length, accept);
        && executed == old(executed) + p.packets
        && readOv.Contents() == p.rest
        && (ok <==> !p.rejected && posted)
        && (!p.rejected ==> Valid() && readOv.Space() > 0)
    {
      ParseIsSound(readOv.Contents() + chunk, readOv.data.Length, accept);
      readOv.Append(chunk);
      var rejected := ExecuteReady(accept);
      if rejected {
        return false;
      }
      readOv.Renormalise();
      if readOv.Space() == 0 {
        return false;
      }
      return posted;
    }

    /** Whether the packet was taken in and, if it had to be posted, posted. */
    method SendPacket(packet: Packet, posted: bool) returns (ok: bool)
      requires Valid()
      modifies this`isSending, this`inFlight, this`copied, writeOv, writeOv.data
      ensures Valid() && View() == Pushed(old(View()), packet, writeOv.data.Length, posted)
      ensures var q, fits := old(View().queue), |old(View().queue)| + |packet| <= writeOv.data.Length;
        && (ok <==> fits && (old(isSending) || posted))
        && View().queue == (if fits then q + packet else q)
        && (fits && !old(isSending) && posted ==> inFlight == Send(|View().queue|))
        && (!fits || old(isSending) ==> inFlight == old(inFlight))
      ensures writeOv.readPos == old(writeOv.readPos)
      // the bytes of an outstanding send are not touched
      ensures forall off :: writeOv.readPos <= off < old(writeOv.writePos) ==>
        At(writeOv.data[..], off) == At(old(writeOv.data[..]), off)
    {
      if writeOv.writePos - writeOv.readPos + |packet| > writeOv.data.Length {
        return false;
      }
      writeOv.Append(packet);
      copied := copied + [packet];
      if !isSending {
        isSending := true;
        RegisterWrite(posted);
        return posted;
      }
      return true;
    }

    method RegisterWrite(posted: bool)
      requires Valid()
      modifies this`inFlight
      ensures View() == Post(old(View()), posted)
      ensures inFlight == if posted then Send(|View().queue|) else NoSend
    {
      inFlight := if posted then Send(writeOv.writePos - writeOv.readPos) else NoSend;
    }

    /** n bytes of the outstanding send went out, as they stand in the ring now. */
    method OnWrite(n: nat, posted: bool) returns (ok: bool)
      requires Valid() && isSending && inFlight.Send? && n <= inFlight.len <= |View().queue|
      modifies this`isSending, this`inFlight, this`wire, writeOv
      ensures Valid() && View() == Completed(old(View()), n, posted)
      ensures ok <==> (isSending ==> posted)
      ensures View().queue == old(View().queue)[n..] && wire == old(wire) + old(View().queue)[..n]
      ensures (isSending <==> View().queue != [])
      ensures inFlight == if isSending && posted then Send(|View().queue|) else NoSend
    {
      ghost var sent := writeOv.Contents()[..n];
      inFlight := NoSend;
      wire := wire + sent;
      writeOv.Advance(n);
      writeOv.Renormalise();
      if writeOv.readPos == writeOv.writePos {
        isSending := false;
        return true;
      }
      RegisterWrite(posted);
      return posted;
    }
  }
}
