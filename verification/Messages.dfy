// Bytes, messages and the 64-byte image a message leaves in a transport.
module Messages {

  type byte = bv8

  const MSG_SIZE: nat := 64
  const PAYLOAD_OFFSET: nat := 4
  const PAYLOAD_SIZE: nat := MSG_SIZE - 4
  const WORD_SIZE: nat := 4

  // The bytes of the whole words that cover `sz` bytes.
  function WordBytes(sz: nat): (n: nat)
    ensures n % WORD_SIZE == 0 && sz <= n < sz + WORD_SIZE
  {
    WORD_SIZE * ((sz + WORD_SIZE - 1) / WORD_SIZE)
  }

  function Zeros(n: nat): (z: seq<byte>)
    ensures |z| == n
  {
    seq(n, _ => 0 as byte)
  }

  // What a transport holds once a message of at most 64 bytes has been written:
  // the message, then zeros up to the fixed size.
  function Image(m: seq<byte>): (img: seq<byte>)
    requires |m| <= MSG_SIZE
    ensures |img| == MSG_SIZE
  {
    m + Zeros(MSG_SIZE - |m|)
  }

  lemma ImageAt(m: seq<byte>, k: nat)
    requires |m| <= MSG_SIZE && k < MSG_SIZE
    ensures Image(m)[k] == if k < |m| then m[k] else 0
  {
  }

  // Memory after storing `bytes` at offset `off`.
  function Store(data: seq<byte>, off: nat, bytes: seq<byte>): (d: seq<byte>)
    requires off + |bytes| <= |data|
    ensures |d| == |data|
  {
    data[..off] + bytes + data[off + |bytes|..]
  }

  // Storing the next piece of an image extends the part already written.
  lemma StoreExtends(data: seq<byte>, img: seq<byte>, off: nat, n: nat)
    requires |data| == |img| && off + n <= |img|
    requires data[..off] == img[..off]
    ensures Store(data, off, img[off..off + n])[..off + n] == img[..off + n]
  {
  }

  lemma PrefixGrows(s: seq<byte>, i: nat, j: nat)
    requires i <= j <= |s|
    ensures s[..j] == s[..i] + s[i..j]
  {
  }
}
