// The registers of a mailbox channel, from 32-bit words to what the bits mean. The
// driver module works on the meaning; the lemmas here say that nothing is lost.
module MboxRegs {

  // A register as the set of its set bits.

  predicate Bit(w: bv32, k: bv32)
    requires k < 32
  {
    (w >> k) & 1 == 1
  }

  ghost predicate Represents(bits: set<bv32>, w: bv32) {
    && (forall k: bv32 :: k < 32 ==> (k in bits <==> Bit(w, k)))
    && (forall k: bv32 :: k in bits ==> k < 32)
  }

  lemma OrBit(v: bv32, w: bv32, k: bv32)
    requires k < 32
    ensures Bit(v | w, k) == (Bit(v, k) || Bit(w, k))
  {
  }

  lemma ClearBit(v: bv32, w: bv32, k: bv32)
    requires k < 32
    ensures Bit(v & !w, k) == (Bit(v, k) && !Bit(w, k))
  {
  }

  // |= is union, &= ~ is difference, and a shifted 1 is a singleton.

  lemma RaiseIsUnion(s: set<bv32>, v: bv32, t: set<bv32>, w: bv32)
    requires Represents(s, v) && Represents(t, w)
    ensures Represents(s + t, v | w)
  {
    forall k: bv32 | k < 32 ensures k in s + t <==> Bit(v | w, k) {
      OrBit(v, w, k);
    }
  }

  lemma ClearIsDifference(s: set<bv32>, v: bv32, t: set<bv32>, w: bv32)
    requires Represents(s, v) && Represents(t, w)
    ensures Represents(s - t, v & !w)
  {
    forall k: bv32 | k < 32 ensures k in s - t <==> Bit(v & !w, k) {
      ClearBit(v, w, k);
    }
  }

  lemma ShiftIsSingleton(j: bv32)
    requires j < 32
    ensures Represents({j}, 1 << j)
  {
  }

  // EVENT_ENABLE: interrupt index `idx` has bit 2 idx for RCV and 2 idx + 1 for ACK.
  function BitA(idx: bv32): bv32 { 2 * idx }

  function BitB(idx: bv32): bv32 { 2 * idx + 1 }

  // For the indices the register has room for, the bits exist, and the RCV and ACK
  // bits of a device never coincide, whatever its two indices.
  lemma InterruptBits(i: bv32, j: bv32)
    requires i < 16 && j < 16
    ensures BitA(i) < 32 && BitB(j) < 32 && BitA(i) != BitB(j)
    ensures BitA(i) == BitA(j) <==> i == j
    ensures BitB(i) == BitB(j) <==> i == j
  {
  }

  // For instance, device interrupts 2 and 3 have these masks.
  lemma InterruptMasks()
    ensures (1 as bv32) << BitA(2) == 0x10 && (1 as bv32) << BitB(2) == 0x20
    ensures (1 as bv32) << BitA(3) == 0x40 && (1 as bv32) << BitB(3) == 0x80
  {
  }

  lemma NothingIsZero()
    ensures Represents({}, 0)
  {
  }

  // Sets that agree outside `own` stand for words that agree there, bit by bit.
  lemma BitsFollow(s: set<bv32>, v: bv32, t: set<bv32>, w: bv32, own: set<bv32>, k: bv32)
    requires Represents(s, v) && Represents(t, w) && s - own == t - own && k < 32
    ensures k !in own ==> Bit(v, k) == Bit(w, k)
    ensures k in own && t * own == {} ==> !Bit(w, k)
  {
    assert k !in own ==> (k in s <==> k in s - own) && (k in t <==> k in t - own);
    assert k in own && t * own == {} ==> k !in t * own;
  }

  // CONFIG as its four bytes: flags, owner, source and destination.
  datatype Config = Config(flags: bv8, owner: bv8, src: bv8, dest: bv8)

  const UNSECURE: bv8 := 0x1

  // The word hpsc_mbox_chan_config_write puts together.
  function ConfigWord(owner: bv8, src: bv8, dest: bv8): bv32 {
    0x1 | (((owner as bv32) << 8) & 0x0000_ff00) | (((src as bv32) << 16) & 0x00ff_0000)
        | (((dest as bv32) << 24) & 0xff00_0000)
  }

  function ConfigOf(w: bv32): Config {
    Config((w & 0xff) as bv8, ((w & 0x0000_ff00) >> 8) as bv8,
           ((w & 0x00ff_0000) >> 16) as bv8, ((w & 0xff00_0000) >> 24) as bv8)
  }

  // Reading CONFIG back returns every triple that was written.
  lemma ConfigRoundTrip(owner: bv8, src: bv8, dest: bv8)
    ensures ConfigOf(ConfigWord(owner, src, dest)) == Config(UNSECURE, owner, src, dest)
  {
  }

  // For instance, a server 2 that reads from client 3.
  lemma ConfigExample()
    ensures ConfigWord(2, 3, 2) == 0x0203_0201 && ConfigOf(0x0203_0201) == Config(1, 2, 3, 2)
  {
  }

  // The driver compares whole words; comparing the four bytes is the same.
  lemma ConfigInjective(v: bv32, w: bv32)
    ensures ConfigOf(v) == ConfigOf(w) <==> v == w
  {
  }
}
