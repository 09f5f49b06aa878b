// The request context of a link, shared between the requester and the callbacks,
// and the shared-memory form of a link.
module Link {
  import opened Messages
  import opened Shmem
  import opened ShmemStatus

  const NO_TASK: nat := 0

  // An event sent, with what the context said at that moment.
  datatype Wakeup = Wakeup(tid: nat, event: bv32, acked: bool, size: nat)

  class RequestCtx {
    var tid: nat
    var eventWait: bv32
    var txAcked: bool
    var replySizeRead: nat
    var sent: seq<Wakeup>

    // The events sent once the requester, if any, has been woken.
    ghost function Woken(delivers: bool): seq<Wakeup>
      reads this
    {
      sent + if tid != NO_TASK && delivers then [Wakeup(tid, eventWait, txAcked, replySizeRead)] else []
    }

    constructor ()
      ensures tid == NO_TASK && !txAcked && sent == []
    {
      tid, eventWait, txAcked, replySizeRead, sent := NO_TASK, 0, false, 0, [];
    }

    // Wakes the requester, if any; panics if the event cannot be delivered to it.
    method Wake(delivers: bool) returns (panic: bool)
      modifies this`sent
      ensures panic <==> tid != NO_TASK && !delivers
      ensures sent == old(Woken(delivers))
    {
      panic := false;
      if tid != NO_TASK {
        if !delivers {
          return true;
        }
        sent := sent + [Wakeup(tid, eventWait, txAcked, replySizeRead)];
      }
    }

    method Ack(delivers: bool) returns (panic: bool)
      modifies this`txAcked, this`sent
      ensures txAcked && (panic <==> tid != NO_TASK && !delivers)
      ensures sent == old(sent) +
              if tid != NO_TASK && delivers then [Wakeup(tid, eventWait, true, replySizeRead)] else []
    {
      txAcked := true;
      panic := Wake(delivers);
    }
  }

  class ShmemLink {
    const ctx: RequestCtx
    const output: Region
    const input: Region

    ghost predicate Valid() { output.Valid() && input.Valid() && output != input && output.data != input.data }

    constructor (output: Region, input: Region)
      requires output.Valid() && input.Valid() && output != input && output.data != input.data
      ensures Valid() && fresh(ctx) && this.output == output && this.input == input
    {
      this.output := output;
      this.input := input;
      this.ctx := new RequestCtx();
    }

    // Leaves the message's image in the outgoing region and announces it there.
    method Write(buf: array<byte>, sz: nat) returns (rc: nat)
      requires Valid() && sz <= MSG_SIZE && sz <= buf.Length && buf != output.data
      modifies output, output.data
      ensures rc == sz && output.data[..] == Image(buf[..sz])
      ensures Decode(output.status) == Decode(old(output.status)).(isNew := true)
    {
      rc := output.Write(buf, sz);
      output.SetNew(true);
    }

    // Copies the incoming region, withdraws its announcement and acknowledges it.
    method Read(buf: array<byte>, sz: nat) returns (rc: nat)
      requires Valid() && MSG_SIZE <= sz <= buf.Length && buf != input.data
      modifies input, buf
      ensures rc == MSG_SIZE && buf[..] == old(input.data[..]) + old(buf[MSG_SIZE..])
      ensures Decode(input.status) == Decode(old(input.status)).(isNew := false, isAck := true)
    {
      rc := input.Read(buf, sz);
      input.SetNew(false);
      input.SetAck(true);
    }

    // The ACK poller's callback: the requester is woken before ACK is cleared, and a
    // panic leaves ACK set.
    method AckCallback(delivers: bool) returns (panic: bool)
      requires Valid()
      modifies ctx`txAcked, ctx`sent, output
      ensures ctx.txAcked && (panic <==> ctx.tid != NO_TASK && !delivers)
      ensures ctx.sent == old(ctx.sent) +
              if ctx.tid != NO_TASK && delivers then [Wakeup(ctx.tid, ctx.eventWait, true, ctx.replySizeRead)] else []
      ensures Decode(output.status) ==
              if panic then Decode(old(output.status)) else Decode(old(output.status)).(isAck := false)
    {
      panic := ctx.Ack(delivers);
      if !panic {
        output.SetAck(false);
      }
    }

    // The NEW poller's callback on a client: the reply goes to the requester's buffer
    // and its size to the context before the requester is woken.
    method ReceiveReply(reply: array<byte>, sz: nat, delivers: bool) returns (panic: bool)
      requires Valid() && MSG_SIZE <= sz <= reply.Length && reply != input.data
      modifies ctx`replySizeRead, ctx`sent, input, reply
      ensures ctx.replySizeRead == MSG_SIZE && reply[..] == old(input.data[..]) + old(reply[MSG_SIZE..])
      ensures Decode(input.status) == Decode(old(input.status)).(isNew := false, isAck := true)
      ensures panic <==> ctx.tid != NO_TASK && !delivers
      ensures ctx.sent == old(ctx.sent) +
              if ctx.tid != NO_TASK && delivers then [Wakeup(ctx.tid, ctx.eventWait, ctx.txAcked, MSG_SIZE)] else []
    {
      ctx.replySizeRead := Read(reply, sz);
      panic := ctx.Wake(delivers);
    }
  }
}
