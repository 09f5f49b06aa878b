// The status word of a shared-memory region, as bits and as what they mean.
module ShmemStatus {

  const NEW: bv32 := 0x1
  const ACK: bv32 := 0x2

  // The word field by field: the two protocol bits and the 30 others in place.
  datatype Status = Status(isNew: bool, isAck: bool, rest: bv32)

  function Decode(word: bv32): Status {
    Status(word & NEW != 0, word & ACK != 0, word & 0xffff_fffc)
  }

  // Two words with the same fields are the same word.
  lemma DecodeInjective(v: bv32, w: bv32)
    requires Decode(v) == Decode(w)
    ensures v == w
  {
  }

  lemma StatusBits()
    ensures Decode(1) == Status(true, false, 0) && Decode(2) == Status(false, true, 0)
    ensures Decode(0xffff_fffc) == Status(false, false, 0xffff_fffc)
  {
  }

  // Each update changes its own bit and leaves the other 31 alone.

  lemma RaiseNew(word: bv32)
    ensures Decode(word | NEW) == Decode(word).(isNew := true)
  {
  }

  lemma DropNew(word: bv32)
    ensures Decode(word & !NEW) == Decode(word).(isNew := false)
  {
  }

  lemma RaiseAck(word: bv32)
    ensures Decode(word | ACK) == Decode(word).(isAck := true)
  {
  }

  lemma DropAck(word: bv32)
    ensures Decode(word & !ACK) == Decode(word).(isAck := false)
  {
  }
}
