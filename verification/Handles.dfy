/** 64-bit slot handles: the upper 32 bits are a generation, the lower 32 bits a slot index. */
module Handles {

  const WORD: nat := 0x1_0000_0000

  type Word32 = n: nat | n < WORD
  type Word64 = n: nat | n < WORD * WORD

  const INVALID_HANDLE: Word64 := 0xFFFF_FFFF_FFFF_FFFF

  datatype Handle = Handle(idx: Word32, gen: Word32)

  /** Truncation to 32 bits and a right shift by 32, as IsValid takes a handle apart. */
  function Decode(raw: Word64): (h: Handle)
  {
    Handle(raw % WORD, raw / WORD)
  }

  /** The index is below 2^32, so or-ing it into the shifted generation is a sum. */
  function Encode(h: Handle): (raw: Word64)
  {
    h.gen * WORD + h.idx
  }

  lemma EncodeDecode(h: Handle)
    ensures Decode(Encode(h)) == h && Encode(h) % WORD == h.idx && Encode(h) / WORD == h.gen
  {
    var raw := Encode(h);
    assert raw / WORD == h.gen && raw % WORD == h.idx;
  }

  lemma DecodeEncode(raw: Word64)
    ensures Encode(Decode(raw)) == raw
  {
  }

  /** The next generation of a slot: a 32-bit increment. */
  function NextGen(gen: Word32): (r: Word32)
    ensures r != gen
  {
    (gen + 1) % WORD
  }
}
