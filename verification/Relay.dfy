/** Packet handlers, broadcast, and the path of a packet from one client's stream to the others'. */
module Relay {
  import opened Framing
  import opened Handles

  const MOVE: nat := 1
  const CHAT: nat := 2
  const HANDLE_SIZE: nat := 8
  const MOVE_DATA: nat := 8
  /** A 64-bit number printed in decimal, with its sign. */
  const TEXT_MAX: nat := 20

  // ---------- little-endian fields ----------

  function Little(n: nat, width: nat): (s: seq<Byte>)
    ensures |s| == width
  {
    if width == 0 then [] else [n % 256] + Little(n / 256, width - 1)
  }

  function FromLittle(s: seq<Byte>): (n: nat)
  {
    if s == [] then 0 else s[0] as nat + 256 * FromLittle(s[1..])
  }

  function Power256(width: nat): (n: nat)
    ensures n >= 1
  {
    if width == 0 then 1 else 256 * Power256(width - 1)
  }

  lemma {:induction false} LittleRoundTrip(n: nat, width: nat)
    requires n < Power256(width)
    ensures FromLittle(Little(n, width)) == n
  {
    if width > 0 {
      LittleRoundTrip(n / 256, width - 1);
      assert Little(n, width)[1..] == Little(n / 256, width - 1);
    }
  }

  // ---------- the handlers ----------

  /** Ids with a handler; a MOVE packet must hold the two coordinates its handler reads. */
  predicate Registered(p: Packet)
  {
    |p| >= HEADER && (IdField(p) == CHAT || (IdField(p) == MOVE && |p| >= HEADER + MOVE_DATA))
  }

  /** The buffer that HandleC2S_CHAT or HandleC2S_MOVE fills for a sender. The chat size field is
      computed modulo 2^16. */
  function Rewritten(sender: Word64, p: Packet): (r: seq<Byte>)
    requires Registered(p)
    ensures |r| >= HEADER
  {
    if IdField(p) == CHAT then
      Little((|p| + HANDLE_SIZE) % 65536, 2) + Little(CHAT, 2) + Little(sender, HANDLE_SIZE) + p[HEADER..]
    else
      Little(HEADER + HANDLE_SIZE + MOVE_DATA, 2) + Little(MOVE, 2) + Little(sender, HANDLE_SIZE)
      + p[HEADER..HEADER + MOVE_DATA]
  }

  /** What SendPacket copies of it: as many bytes as its size field says. */
  function Outgoing(sender: Word64, p: Packet): (r: Packet)
    requires Registered(p)
  {
    var b := Rewritten(sender, p);
    if SizeField(b) <= |b| then b[..SizeField(b)] else b
  }

  lemma LittleTwo(n: nat, rest: seq<Byte>)
    requires n < 65536
    ensures SizeField(Little(n, 2) + rest) == n
  {
    var s := Little(n, 2) + rest;
    assert Little(n, 2) == [n % 256] + Little(n / 256, 1);
    assert Little(n / 256, 1) == [n / 256 % 256] + Little(n / 256 / 256, 0);
    assert s[0] == n % 256 && s[1] == n / 256 % 256;
  }

  lemma SizeOfRewritten(sender: Word64, p: Packet)
    requires Registered(p)
    ensures SizeField(Rewritten(sender, p)) ==
      if IdField(p) == CHAT then (|p| + HANDLE_SIZE) % 65536 else HEADER + HANDLE_SIZE + MOVE_DATA
  {
    var b := Rewritten(sender, p);
    if IdField(p) == CHAT {
      LittleTwo((|p| + HANDLE_SIZE) % 65536, b[2..]);
      assert b == Little((|p| + HANDLE_SIZE) % 65536, 2) + b[2..];
    } else {
      LittleTwo(HEADER + HANDLE_SIZE + MOVE_DATA, b[2..]);
      assert b == Little(HEADER + HANDLE_SIZE + MOVE_DATA, 2) + b[2..];
    }
  }

  /** r is what a client should get for packet p of a sender: framed correctly, under the same id, with
      the sender's handle and the payload of p behind the header. */
  ghost predicate Carries(r: Packet, sender: Word64, p: Packet)
    requires |p| >= HEADER
  {
    && |r| >= HEADER + HANDLE_SIZE && SizeField(r) == |r| && IdField(r) == IdField(p)
    && FromLittle(r[HEADER..HEADER + HANDLE_SIZE]) == sender
    && (IdField(p) == CHAT ==> r[HEADER + HANDLE_SIZE..] == p[HEADER..])
    && (IdField(p) == MOVE ==>
          |p| >= HEADER + MOVE_DATA && r[HEADER + HANDLE_SIZE..] == p[HEADER..HEADER + MOVE_DATA])
  }

  /** Id 1 is a move, id 2 a chat, in both directions. */
  lemma IdOfRewritten(sender: Word64, p: Packet)
    requires Registered(p)
    ensures IdField(Rewritten(sender, p)) == IdField(p)
  {
    var b := Rewritten(sender, p);
    LittleTwo(IdField(p), b[4..]);
    assert b[2..] == Little(IdField(p), 2) + b[4..];
    assert IdField(b) == SizeField(b[2..]);
  }

  /** A client packet is relayed whole, as it should be, exactly when its size leaves room for eight
      more bytes in 16 bits; a longer chat is cut to at most seven bytes. */
  lemma RelayedWholeIff(sender: Word64, p: Packet)
    requires Registered(p) && |p| < 65536
    ensures var r := Outgoing(sender, p);
      var whole := IdField(p) == MOVE || |p| + HANDLE_SIZE < 65536;
      && (whole ==> Carries(r, sender, p))
      && (!whole ==> |r| == |p| + HANDLE_SIZE - 65536 < HANDLE_SIZE)
  {
    var b, r := Rewritten(sender, p), Outgoing(sender, p);
    SizeOfRewritten(sender, p);
    IdOfRewritten(sender, p);
    if IdField(p) == MOVE || |p| + HANDLE_SIZE < 65536 {
      assert r == b;
      assert b[HEADER..HEADER + HANDLE_SIZE] == Little(sender, HANDLE_SIZE);
      HandleRoundTrip(sender);
    }
  }

  lemma HandleRoundTrip(sender: Word64)
    ensures FromLittle(Little(sender, HANDLE_SIZE)) == sender
  {
    assert Power256(HANDLE_SIZE) == WORD * WORD by {
      assert Power256(4) == WORD;
    }
    LittleRoundTrip(sender, HANDLE_SIZE);
  }

  // ---------- the greeting ----------

  /** What Connect sends first: a chat packet with an empty handle field and the session's own handle
      as text. Its size field counts the header and the text with its end mark, but not the handle
      field, and SendPacket copies only that many bytes. */
  function Greeting(text: seq<Byte>): (r: Packet)
    requires |text| <= TEXT_MAX
  {
    Little(HEADER + |text| + 1, 2) + Little(CHAT, 2) + (Little(0, HANDLE_SIZE) + text + [0])[..|text| + 1]
  }

  /** The greeting is framed correctly, but the last seven characters of its text and the end mark
      never leave the server. */
  lemma GreetingIsCut(text: seq<Byte>)
    requires |text| <= TEXT_MAX
    ensures var r := Greeting(text);
      && WellFormed(r, 65536) && |r| == HEADER + |text| + 1 && IdField(r) == CHAT
      && (|text| < HANDLE_SIZE ==> |r| <= HEADER + HANDLE_SIZE)
      && (|text| >= HANDLE_SIZE ==> r[HEADER + HANDLE_SIZE..] == text[..|text| - 7])
  {
    var r := Greeting(text);
    LittleTwo(HEADER + |text| + 1, r[2..]);
    assert r == Little(HEADER + |text| + 1, 2) + r[2..];
    LittleTwo(CHAT, r[4..]);
    assert r[2..] == Little(CHAT, 2) + r[4..];
    assert IdField(r) == SizeField(r[2..]);
  }
}
