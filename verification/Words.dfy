// A 32-bit register as the four bytes a little-endian word access moves.
module Words {
  import opened Messages

  function Pack(b: seq<byte>): bv32
    requires |b| == WORD_SIZE
  {
    (b[0] as bv32) | ((b[1] as bv32) << 8) | ((b[2] as bv32) << 16) | ((b[3] as bv32) << 24)
  }

  function Unpack(w: bv32): (b: seq<byte>)
    ensures |b| == WORD_SIZE
  {
    [(w & 0xff) as byte, ((w >> 8) & 0xff) as byte, ((w >> 16) & 0xff) as byte, ((w >> 24) & 0xff) as byte]
  }

  lemma UnpackPack(b: seq<byte>)
    requires |b| == WORD_SIZE
    ensures Unpack(Pack(b)) == b
  {
  }

  lemma ZeroWord()
    ensures Unpack(0) == [0, 0, 0, 0]
  {
  }
}
