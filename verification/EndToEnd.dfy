// The request system over the two real transports, in their smallest steps: message
// build, transport, queue, server, reply and transport again.
module EndToEnd {
  import opened ExchangeOver
  import opened HpscMsg
  import opened Messages
  import opened RequestRuns
  import opened RequestSystem
  import opened Runs
  import opened SlotChannel
  import opened Transport
  import MboxProtocol
  import ShmemProtocol

  lemma EchoOverShmem(s: System<ShmemProtocol.State>, moves: seq<Move<ShmemProtocol.Action>>)
    requires Starts(s, ShmemProtocol.Inv, ShmemProtocol.Abs) && Run(Over(ShmemProtocol.DISCIPLINED), s, moves)
    ensures var f := Final(Over(ShmemProtocol.DISCIPLINED), s, moves); QueueBounded(f) && Echoes(f)
  {
    ShmemDrives();
    ServesEveryClient(ShmemProtocol.DISCIPLINED, ShmemProtocol.Inv, ShmemProtocol.Abs, s, moves);
  }

  lemma EchoOverMbox(s: System<MboxProtocol.State>, moves: seq<Move<MboxProtocol.Action>>)
    requires Starts(s, MboxProtocol.Inv, MboxProtocol.Abs) && Run(Over(MboxProtocol.DISCIPLINED), s, moves)
    ensures var f := Final(Over(MboxProtocol.DISCIPLINED), s, moves); QueueBounded(f) && Echoes(f)
  {
    MboxDrives();
    ServesEveryClient(MboxProtocol.DISCIPLINED, MboxProtocol.Inv, MboxProtocol.Abs, s, moves);
  }

  // The link layer sees one behaviour: whatever history one transport can show, so can
  // the other.
  lemma SameHistories(s: ShmemProtocol.State, c: MboxProtocol.State, t: seq<Event>)
    requires ShmemProtocol.Init(s) && MboxProtocol.Init(c) && !c.ackFirst
    ensures (exists acts :: Run(ShmemProtocol.DISCIPLINED, s, acts) && Trace(ShmemProtocol.DISCIPLINED, s, acts) == t)
       <==> (exists acts :: Run(MboxProtocol.DISCIPLINED, c, acts) && Trace(MboxProtocol.DISCIPLINED, c, acts) == t)
  {
    ShmemProtocol.TracesAreSlotTraces(s, t);
    MboxProtocol.TracesAreSlotTraces(c, t);
  }

  // And exchanges do complete: from rest, over fresh regions or channels, every message
  // the server answers can be exchanged in the transports' own steps.

  lemma ShmemDrives()
    ensures Drives(ShmemProtocol.DISCIPLINED, ShmemProtocol.Inv, ShmemProtocol.Abs,
                   ShmemProtocol.Good, ShmemProtocol.Toward, ShmemProtocol.Distance)
  {
    forall x, a | ShmemProtocol.Inv(x) && ShmemProtocol.DISCIPLINED.can(x, a)
      ensures RefinesAt(ShmemProtocol.DISCIPLINED, ShmemProtocol.Inv, ShmemProtocol.Abs, x, a)
    {
      ShmemProtocol.Refines(x, a);
    }
    forall x, f | ShmemProtocol.Good(x, f)
      ensures Drivable(ShmemProtocol.DISCIPLINED, ShmemProtocol.Abs, ShmemProtocol.Good,
                       ShmemProtocol.Toward, ShmemProtocol.Distance, x, f)
    {
      ShmemProtocol.GoodIsDrivable(x, f);
    }
  }

  lemma MboxDrives()
    ensures Drives(MboxProtocol.DISCIPLINED, MboxProtocol.Inv, MboxProtocol.Abs,
                   MboxProtocol.Good, MboxProtocol.Toward, MboxProtocol.Distance)
  {
    forall x, a | MboxProtocol.Inv(x) && MboxProtocol.DISCIPLINED.can(x, a)
      ensures RefinesAt(MboxProtocol.DISCIPLINED, MboxProtocol.Inv, MboxProtocol.Abs, x, a)
    {
      MboxProtocol.Refines(x, a);
    }
    forall x, f | MboxProtocol.Good(x, f)
      ensures Drivable(MboxProtocol.DISCIPLINED, MboxProtocol.Abs, MboxProtocol.Good,
                       MboxProtocol.Toward, MboxProtocol.Distance, x, f)
    {
      MboxProtocol.GoodIsDrivable(x, f);
    }
  }

  // The link and the server are at rest.
  predicate AtRest<C>(s: System<C>, l: nat) {
    && Shaped(s) && l < |s.outs| && s.layer.ring.Valid() && s.layer.ring.Contents() == []
    && s.layer.handler.Resting? && !s.layer.panicked
    && s.layer.clients[l].phase.Idle? && s.layer.clients[l].recv.None?
  }

  lemma ExchangeOverShmem(s: System<ShmemProtocol.State>, l: nat, msgs: seq<seq<byte>>)
    returns (y: System<ShmemProtocol.State>)
    requires AtRest(s, l) && ShmemProtocol.Init(s.outs[l]) && ShmemProtocol.Init(s.backs[l])
    requires forall k :: 0 <= k < |msgs| ==> |msgs[k]| <= MSG_SIZE && ReplySize(Image(msgs[k])) == MSG_SIZE
    ensures Reaches(Over(ShmemProtocol.DISCIPLINED), s, [], y) && l < |y.layer.clients|
    ensures y.layer.clients[l].done == s.layer.clients[l].done + Exchanges(msgs)
  {
    ShmemDrives();
    y := CompletesAll(ShmemProtocol.DISCIPLINED, ShmemProtocol.Inv, ShmemProtocol.Abs, ShmemProtocol.Good,
                   ShmemProtocol.Toward, ShmemProtocol.Distance, s, l, msgs);
  }

  lemma ExchangeOverMbox(s: System<MboxProtocol.State>, l: nat, msgs: seq<seq<byte>>)
    returns (y: System<MboxProtocol.State>)
    requires AtRest(s, l) && MboxProtocol.Init(s.outs[l]) && MboxProtocol.Init(s.backs[l])
    requires !s.outs[l].ackFirst && !s.backs[l].ackFirst
    requires forall k :: 0 <= k < |msgs| ==> |msgs[k]| <= MSG_SIZE && ReplySize(Image(msgs[k])) == MSG_SIZE
    ensures Reaches(Over(MboxProtocol.DISCIPLINED), s, [], y) && l < |y.layer.clients|
    ensures y.layer.clients[l].done == s.layer.clients[l].done + Exchanges(msgs)
  {
    MboxDrives();
    y := CompletesAll(MboxProtocol.DISCIPLINED, MboxProtocol.Inv, MboxProtocol.Abs, MboxProtocol.Good,
                   MboxProtocol.Toward, MboxProtocol.Distance, s, l, msgs);
  }

  // The reply can overtake the ACK: the reply is in the client's buffer, its request not
  // acknowledged yet, and the client's assertion has failed.
  lemma ReplyFirstOverShmem(s: System<ShmemProtocol.State>, l: nat, msg: seq<byte>)
    returns (y: System<ShmemProtocol.State>)
    requires AtRest(s, l) && ShmemProtocol.Init(s.outs[l]) && ShmemProtocol.Init(s.backs[l])
    requires |msg| <= MSG_SIZE && ReplySize(Image(msg)) == MSG_SIZE
    ensures Reaches(Over(ShmemProtocol.DISCIPLINED), s, [], y) && Shaped(y) && l < |y.outs|
    ensures ShmemProtocol.Abs(y.outs[l]) == Taken
    ensures y.layer.clients[l].rbuf == Reply(Image(msg)) && y.layer.clients[l].phase.Failed?
  {
    ShmemDrives();
    y := ReplyCanComeFirst(ShmemProtocol.DISCIPLINED, ShmemProtocol.Inv, ShmemProtocol.Abs, ShmemProtocol.Good,
                           ShmemProtocol.Toward, ShmemProtocol.Distance, s, l, s.layer.clients[l], msg);
  }

  lemma TooManyOverShmem(s: System<ShmemProtocol.State>, msg: seq<byte>) returns (y: System<ShmemProtocol.State>)
    requires forall l :: 0 <= l < |s.outs| ==> AtRest(s, l) && ShmemProtocol.Init(s.outs[l])
    requires Shaped(s) && s.layer.ring.Valid() && |s.layer.ring.q| <= |s.outs| && |msg| <= MSG_SIZE
    ensures Reaches(Over(ShmemProtocol.DISCIPLINED), s, [], y) && Overrun(y.layer, |s.layer.ring.q| - 1)
  {
    ShmemDrives();
    assert AtRest(s, 0);
    y := TooManyClients(ShmemProtocol.DISCIPLINED, ShmemProtocol.Inv, ShmemProtocol.Abs, ShmemProtocol.Good,
                        ShmemProtocol.Toward, ShmemProtocol.Distance, s, msg);
  }

  // The reply can overtake the ACK: the reply is in the client's buffer, its request not
  // acknowledged yet, and the client's assertion has failed.
  lemma ReplyFirstOverMbox(s: System<MboxProtocol.State>, l: nat, msg: seq<byte>)
    returns (y: System<MboxProtocol.State>)
    requires AtRest(s, l) && MboxProtocol.Init(s.outs[l]) && MboxProtocol.Init(s.backs[l])
    requires !s.outs[l].ackFirst && !s.backs[l].ackFirst
    requires |msg| <= MSG_SIZE && ReplySize(Image(msg)) == MSG_SIZE
    ensures Reaches(Over(MboxProtocol.DISCIPLINED), s, [], y) && Shaped(y) && l < |y.outs|
    ensures MboxProtocol.Abs(y.outs[l]) == Taken
    ensures y.layer.clients[l].rbuf == Reply(Image(msg)) && y.layer.clients[l].phase.Failed?
  {
    MboxDrives();
    y := ReplyCanComeFirst(MboxProtocol.DISCIPLINED, MboxProtocol.Inv, MboxProtocol.Abs, MboxProtocol.Good,
                           MboxProtocol.Toward, MboxProtocol.Distance, s, l, s.layer.clients[l], msg);
  }

  lemma TooManyOverMbox(s: System<MboxProtocol.State>, msg: seq<byte>) returns (y: System<MboxProtocol.State>)
    requires forall l :: 0 <= l < |s.outs| ==> AtRest(s, l) && MboxProtocol.Init(s.outs[l]) && !s.outs[l].ackFirst
    requires Shaped(s) && s.layer.ring.Valid() && |s.layer.ring.q| <= |s.outs| && |msg| <= MSG_SIZE
    ensures Reaches(Over(MboxProtocol.DISCIPLINED), s, [], y) && Overrun(y.layer, |s.layer.ring.q| - 1)
  {
    MboxDrives();
    assert AtRest(s, 0);
    y := TooManyClients(MboxProtocol.DISCIPLINED, MboxProtocol.Inv, MboxProtocol.Abs, MboxProtocol.Good,
                        MboxProtocol.Toward, MboxProtocol.Distance, s, msg);
  }
}
