// A shared-memory region and the loops that copy into and out of it, a word at a
// time while a whole word is left and then byte by byte.
module Shmem {
  import opened Messages
  import opened ShmemStatus

  // vmem_cpy and mem_vcpy, which differ only in which side is volatile: copies the
  // first `n` bytes.
  method WordCopy(dest: array<byte>, src: array<byte>, n: nat)
    requires dest != src && n <= dest.Length && n <= src.Length
    modifies dest
    ensures dest[..] == src[..n] + old(dest[n..])
  {
    var i := 0;
    while i + WORD_SIZE <= n
      invariant 0 <= i <= n
      invariant forall k :: 0 <= k < i ==> dest[k] == src[k]
      invariant forall k :: i <= k < dest.Length ==> dest[k] == old(dest[k])
    {
      dest[i], dest[i + 1], dest[i + 2], dest[i + 3] := src[i], src[i + 1], src[i + 2], src[i + 3];
      i := i + WORD_SIZE;
    }
    while i < n
      invariant 0 <= i <= n
      invariant forall k :: 0 <= k < i ==> dest[k] == src[k]
      invariant forall k :: i <= k < dest.Length ==> dest[k] == old(dest[k])
    {
      dest[i] := src[i];
      i := i + 1;
    }
  }

  // Sets the `n` bytes from `at` on to `c`.
  method VmemSet(dest: array<byte>, at: nat, c: byte, n: nat)
    requires at + n <= dest.Length
    modifies dest
    ensures dest[..] == old(dest[..at]) + seq(n, _ => c) + old(dest[at + n..])
  {
    var left := n;
    var i := at;
    while left > 0
      invariant 0 <= left <= n && i == at + (n - left)
      invariant forall k :: at <= k < i ==> dest[k] == c
      invariant forall k :: 0 <= k < dest.Length && !(at <= k < i) ==> dest[k] == old(dest[k])
    {
      dest[i] := c;
      i := i + 1;
      left := left - 1;
    }
  }

  class Region {
    const data: array<byte>
    var status: bv32

    ghost predicate Valid() { data.Length == MSG_SIZE }

    constructor (data: array<byte>, status: bv32)
      requires data.Length == MSG_SIZE
      ensures Valid() && this.data == data && this.status == status
    {
      this.data := data;
      this.status := status;
    }

    // Leaves the image of the message, whatever the region held.
    method Write(msg: array<byte>, sz: nat) returns (rc: nat)
      requires Valid() && msg != data && sz <= MSG_SIZE && sz <= msg.Length
      modifies data
      ensures rc == sz && data[..] == Image(msg[..sz])
    {
      WordCopy(data, msg, sz);
      var rem := MSG_SIZE - sz;
      if rem != 0 {
        VmemSet(data, sz, 0, rem);
      }
      assert data[..] == msg[..sz] + Zeros(rem);
      rc := sz;
    }

    // Always the whole region, into a buffer that must have room for it.
    method Read(msg: array<byte>, sz: nat) returns (rc: nat)
      requires Valid() && msg != data && MSG_SIZE <= sz <= msg.Length
      modifies msg
      ensures rc == MSG_SIZE && msg[..] == data[..] + old(msg[MSG_SIZE..])
    {
      WordCopy(msg, data, MSG_SIZE);
      assert data[..MSG_SIZE] == data[..];
      rc := MSG_SIZE;
    }

    method GetStatus() returns (word: bv32)
      ensures word == status
    {
      word := status;
    }

    method IsNew() returns (b: bool)
      ensures b == Decode(status).isNew
    {
      b := status & NEW != 0;
    }

    method IsAck() returns (b: bool)
      ensures b == Decode(status).isAck
    {
      b := status & ACK != 0;
    }

    // Changes the NEW bit and no other.
    method SetNew(val: bool)
      modifies this
      ensures Decode(status) == Decode(old(status)).(isNew := val)
    {
      RaiseNew(status);
      DropNew(status);
      if val {
        status := status | NEW;
      } else {
        status := status & !NEW;
      }
    }

    // Changes the ACK bit and no other.
    method SetAck(val: bool)
      modifies this
      ensures Decode(status) == Decode(old(status)).(isAck := val)
    {
      RaiseAck(status);
      DropAck(status);
      if val {
        status := status | ACK;
      } else {
        status := status & !ACK;
      }
    }
  }
}
