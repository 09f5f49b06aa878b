// The abstract one-slot channel that both transports implement, and what its
// traces look like.
module SlotChannel {
  import opened Messages

  datatype Slot = Empty | Full(m: seq<byte>) | Taken

  // What the two ends of a link observe: a message becomes visible to the
  // receiver, the receiver holds its own copy, the sender learns of the ACK.
  datatype Event = Send(m: seq<byte>) | Deliver(m: seq<byte>) | Acked

  predicate CanDo(slot: Slot, e: Event) {
    match e
    case Send(m) => slot.Empty? && |m| == MSG_SIZE
    case Deliver(m) => slot == Full(m)
    case Acked => slot.Taken?
  }

  function After(slot: Slot, e: Event): Slot
    requires CanDo(slot, e)
  {
    match e
    case Send(m) => Full(m)
    case Deliver(m) => Taken
    case Acked => Empty
  }

  // The events of `t`, in order, are possible from `slot`.
  predicate IsTrace(slot: Slot, t: seq<Event>)
    decreases |t|, 0
  {
    t == [] || (var u := t[..|t| - 1]; IsTrace(slot, u) && CanDo(EndOf(slot, u), t[|t| - 1]))
  }

  function EndOf(slot: Slot, t: seq<Event>): Slot
    requires IsTrace(slot, t)
    decreases |t|, 1
  {
    if t == [] then slot
    else After(EndOf(slot, t[..|t| - 1]), t[|t| - 1])
  }

  function Sent(t: seq<Event>): seq<seq<byte>> {
    if t == [] then []
    else Sent(t[..|t| - 1]) + (if t[|t| - 1].Send? then [t[|t| - 1].m] else [])
  }

  function Delivered(t: seq<Event>): seq<seq<byte>> {
    if t == [] then []
    else Delivered(t[..|t| - 1]) + (if t[|t| - 1].Deliver? then [t[|t| - 1].m] else [])
  }

  function AckCount(t: seq<Event>): nat {
    if t == [] then 0
    else AckCount(t[..|t| - 1]) + (if t[|t| - 1].Acked? then 1 else 0)
  }

  // How far deliveries and acknowledgements lag behind the sends when a trace
  // leaves the channel in state `slot`.
  predicate Lag(slot: Slot, sent: seq<seq<byte>>, delivered: seq<seq<byte>>, acked: nat) {
    match slot
    case Empty => delivered == sent && acked == |sent|
    case Full(m) => sent == delivered + [m] && acked == |delivered|
    case Taken => delivered == sent && acked + 1 == |sent|
  }

  lemma {:induction false} TraceLag(t: seq<Event>)
    requires IsTrace(Empty, t)
    ensures Lag(EndOf(Empty, t), Sent(t), Delivered(t), AckCount(t))
    decreases |t|
  {
    if t != [] {
      TraceLag(t[..|t| - 1]);
    }
  }

  // Stop-and-wait delivery: what arrives is a prefix of what was sent, in order,
  // nothing twice, and at most one message is unacknowledged.
  lemma Delivery(t: seq<Event>)
    requires IsTrace(Empty, t)
    ensures Delivered(t) <= Sent(t)
    ensures AckCount(t) <= |Delivered(t)| <= |Sent(t)| <= AckCount(t) + 1
  {
    TraceLag(t);
  }

  lemma {:induction false} SentAppend(t: seq<Event>, u: seq<Event>)
    ensures Sent(t + u) == Sent(t) + Sent(u)
    decreases |u|
  {
    if u == [] {
      assert t + u == t;
    } else {
      assert (t + u)[..|t + u| - 1] == t + u[..|u| - 1];
      SentAppend(t, u[..|u| - 1]);
    }
  }

  // Two messages sent, only the first one delivered and acknowledged.
  lemma FourEvents(a: seq<byte>, b: seq<byte>, c: seq<byte>)
    ensures var t := [Send(a), Deliver(b), Acked, Send(c)]; Sent(t) == [a, c] && Delivered(t) == [b]
  {
    var t := [Send(a), Deliver(b), Acked, Send(c)];
    assert t[..3][..2] == t[..2] && t[..2][..1] == t[..1] && t[..1][..0] == [];
    assert Sent(t[..1]) == [a] && Delivered(t[..1]) == [];
    assert Sent(t[..2]) == [a] && Delivered(t[..2]) == [b];
    assert Sent(t[..3]) == [a] && Delivered(t[..3]) == [b];
  }

  // The same with the first message delivered last.
  lemma LateDelivery(a: seq<byte>, b: seq<byte>, c: seq<byte>)
    ensures var t := [Send(a), Acked, Send(c), Deliver(b)]; Sent(t) == [a, c] && Delivered(t) == [b]
  {
    var t := [Send(a), Acked, Send(c), Deliver(b)];
    assert t[..3][..2] == t[..2] && t[..2][..1] == t[..1] && t[..1][..0] == [];
    assert Sent(t[..1]) == [a] && Delivered(t[..1]) == [];
    assert Sent(t[..2]) == [a] && Delivered(t[..2]) == [];
    assert Sent(t[..3]) == [a, c] && Delivered(t[..3]) == [];
  }
}
