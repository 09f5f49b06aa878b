// Over every transport that can be driven through the history of a one-slot channel, in
// that transport's own steps: an exchange can be completed, and a reply can overtake the
// ACK of its request.
module ExchangeOver {
  import opened CommandRing
  import opened HpscMsg
  import opened Messages
  import opened Options
  import opened RequestSystem
  import opened Runs
  import opened SlotChannel
  import opened Transport

  // The transport refines the one-slot channel and can be driven along it.
  ghost predicate Drives<C(!new), A(!new)>(m: Machine<C, A, Event>, inv: C -> bool, abs: C -> Slot,
      good: (C, Event) -> bool, toward: (C, Event) -> A, dist: (C, Event) -> nat)
  {
    && (forall x, a :: inv(x) && m.can(x, a) ==> RefinesAt(m, inv, abs, x, a))
    && (forall x, f :: good(x, f) ==> Drivable(m, abs, good, toward, dist, x, f))
  }

  // Whatever can happen next on the channel can be made to happen.
  ghost predicate Ready<C>(c: C, slot: Slot, inv: C -> bool, abs: C -> Slot, good: (C, Event) -> bool) {
    inv(c) && abs(c) == slot && forall f :: CanDo(slot, f) ==> good(c, f)
  }

  // The channels of all links but `l` are as they were.
  ghost predicate OthersSame<C>(x: System<C>, y: System<C>, l: nat) {
    && |y.outs| == |x.outs| && |y.backs| == |x.backs|
    && (forall j :: 0 <= j < |x.outs| && j != l ==> y.outs[j] == x.outs[j])
    && (forall j :: 0 <= j < |x.backs| && j != l ==> y.backs[j] == x.backs[j])
  }

  lemma {:induction false} DriveEvent<C(!new), A(!new)>(m: Machine<C, A, Event>, inv: C -> bool, abs: C -> Slot,
      good: (C, Event) -> bool, toward: (C, Event) -> A, dist: (C, Event) -> nat,
      s: System<C>, x: System<C>, l: nat, dir: Dir, e: Event)
    returns (y: System<C>)
    requires Drives(m, inv, abs, good, toward, dist) && Reaches(Over(m), s, [], x)
    requires Shaped(x) && l < |x.outs| && Accepts(x.layer, l, dir, e)
    requires inv(Chan(x, l, dir)) && good(Chan(x, l, dir), e)
    ensures Reaches(Over(m), s, [], y) && Shaped(y) && l < |y.outs| && y.layer == React(x.layer, l, dir, e)
    ensures CanDo(abs(Chan(x, l, dir)), e)
    ensures Ready(Chan(y, l, dir), After(abs(Chan(x, l, dir)), e), inv, abs, good)
    ensures Chan(y, l, if dir.Out? then Back else Out) == Chan(x, l, if dir.Out? then Back else Out)
    ensures OthersSame(x, y, l)
    decreases dist(Chan(x, l, dir), e)
  {
    var c := Chan(x, l, dir);
    var a := toward(c, e);
    assert Drivable(m, abs, good, toward, dist, c, e);
    assert RefinesAt(m, inv, abs, c, a);
    var v: Move<A> := Transport(l, dir, a);
    assert CanMove(m, x, v);
    ReachesSilently(Over(m), s, [], x, v);
    var z := DoMove(m, x, v);
    if m.show(c, a) == [] {
      y := DriveEvent(m, inv, abs, good, toward, dist, s, z, l, dir, e);
    } else {
      y := z;
    }
  }

  lemma StepAbove<C(!new), A(!new)>(m: Machine<C, A, Event>, s: System<C>, x: System<C>, act: Local)
    requires Reaches(Over(m), s, [], x) && Shaped(x) && CanLocal(x.layer, act)
    ensures Reaches(Over(m), s, [], x.(layer := DoLocal(x.layer, act)))
  {
    var v: Move<A> := Above(act);
    ReachesSilently(Over(m), s, [], x, v);
  }

  // The layer as one link and the server see it.
  predicate View(x: Layer, l: nat, c: Client, h: Handler) {
    l < |x.clients| && x.clients[l] == c && x.handler == h && x.ring.Valid() && !x.panicked
  }

  // The request gets to the server's receive callback.
  lemma Ask<C(!new), A(!new)>(m: Machine<C, A, Event>, inv: C -> bool, abs: C -> Slot,
      good: (C, Event) -> bool, toward: (C, Event) -> A, dist: (C, Event) -> nat,
      s: System<C>, x: System<C>, l: nat, c: Client, h: Handler, msg: seq<byte>)
    returns (y: System<C>)
    requires Drives(m, inv, abs, good, toward, dist) && Reaches(Over(m), s, [], x) && Shaped(x) && l < |x.outs|
    requires Ready(x.outs[l], Empty, inv, abs, good) && |msg| <= MSG_SIZE
    requires View(x.layer, l, c, h) && c.phase.Idle? && c.recv.None?
    ensures Reaches(Over(m), s, [], y) && Shaped(y) && l < |y.outs| && y.backs[l] == x.backs[l] && OthersSame(x, y, l)
    ensures Ready(y.outs[l], Taken, inv, abs, good)
    ensures y.layer == x.layer.(clients := x.layer.clients[l := Carrying(c, Image(msg))])
  {
    var img := Image(msg);
    StepAbove(m, s, x, Call(l, msg));
    y := x.(layer := DoLocal(x.layer, Call(l, msg)));
    y := DriveEvent(m, inv, abs, good, toward, dist, s, y, l, Out, Send(img));
    y := DriveEvent(m, inv, abs, good, toward, dist, s, y, l, Out, Deliver(img));
    assert y.layer.clients == x.layer.clients[l := Carrying(c, img)];
  }

  // The server takes the command from its callback through the queue to its reply.
  lemma Serve<C(!new), A(!new)>(m: Machine<C, A, Event>, s: System<C>, x: System<C>, l: nat, c: Client)
    returns (y: System<C>)
    requires Reaches(Over(m), s, [], x) && Shaped(x) && l < |x.outs| && View(x.layer, l, c, Resting)
    requires c.recv.Some? && |c.recv.value| == MSG_SIZE && ReplySize(c.recv.value) == MSG_SIZE
    requires x.layer.ring.Contents() == []
    ensures Reaches(Over(m), s, [], y) && Shaped(y) && y.outs == x.outs && y.backs == x.backs
    ensures View(y.layer, l, c.(recv := None), Sending(Cmd(l, c.recv.value))) && y.layer.ring.Contents() == []
  {
    var cmd := Cmd(l, c.recv.value);
    GuardsDiffer(x.layer.ring);
    EnqueueIsFifoUnlessOverflow(x.layer.ring, cmd);
    EnqueueIntendedIsFifo(x.layer.ring, cmd);
    StepAbove(m, s, x, Enqueue(l));
    y := x.(layer := DoLocal(x.layer, Enqueue(l)));
    assert y.layer.ring.Contents() == [cmd];
    DequeueIsFifo(y.layer.ring);
    StepAbove(m, s, y, Dequeue);
    y := y.(layer := DoLocal(y.layer, Dequeue));
    StepAbove(m, s, y, Handle);
    y := y.(layer := DoLocal(y.layer, Handle));
  }

  // The reply gets into the client's buffer.
  lemma Answer<C(!new), A(!new)>(m: Machine<C, A, Event>, inv: C -> bool, abs: C -> Slot,
      good: (C, Event) -> bool, toward: (C, Event) -> A, dist: (C, Event) -> nat,
      s: System<C>, x: System<C>, l: nat, c: Client, req: seq<byte>)
    returns (y: System<C>)
    requires Drives(m, inv, abs, good, toward, dist) && Reaches(Over(m), s, [], x) && Shaped(x) && l < |x.outs|
    requires Ready(x.backs[l], Empty, inv, abs, good) && |req| == MSG_SIZE
    requires View(x.layer, l, c, Sending(Cmd(l, req)))
    ensures Reaches(Over(m), s, [], y) && Shaped(y) && l < |y.outs| && y.outs[l] == x.outs[l]
    ensures Ready(y.backs[l], Taken, inv, abs, good) && y.layer.ring == x.layer.ring
    ensures View(y.layer, l, c.(rbuf := Reply(req), got := true), Awaiting(l))
  {
    var r := Reply(req);
    y := DriveEvent(m, inv, abs, good, toward, dist, s, x, l, Back, Send(r));
    y := DriveEvent(m, inv, abs, good, toward, dist, s, y, l, Back, Deliver(r));
  }

  // A request and its reply, before the client is told anything.
  lemma RoundTrip<C(!new), A(!new)>(m: Machine<C, A, Event>, inv: C -> bool, abs: C -> Slot,
      good: (C, Event) -> bool, toward: (C, Event) -> A, dist: (C, Event) -> nat,
      s: System<C>, l: nat, c: Client, msg: seq<byte>, ackFirst: bool)
    returns (y: System<C>)
    requires Drives(m, inv, abs, good, toward, dist) && Shaped(s) && l < |s.outs|
    requires Ready(s.outs[l], Empty, inv, abs, good) && Ready(s.backs[l], Empty, inv, abs, good)
    requires View(s.layer, l, c, Resting) && c.phase.Idle? && c.recv.None? && s.layer.ring.Contents() == []
    requires |msg| <= MSG_SIZE && ReplySize(Image(msg)) == MSG_SIZE
    ensures Reaches(Over(m), s, [], y) && Shaped(y) && l < |y.outs|
    ensures Ready(y.outs[l], if ackFirst then Empty else Taken, inv, abs, good)
    ensures Ready(y.backs[l], Taken, inv, abs, good)
    ensures var d := Carrying(c, Image(msg)).(recv := None, acked := ackFirst);
            View(y.layer, l, d.(rbuf := Reply(Image(msg)), got := true), Awaiting(l)) && y.layer.ring.Contents() == []
  {
    var img := Image(msg);
    var d := Carrying(c, img);
    ReachesSelf(Over(m), s);
    y := Ask(m, inv, abs, good, toward, dist, s, s, l, c, Resting, msg);
    if ackFirst {
      y := DriveEvent(m, inv, abs, good, toward, dist, s, y, l, Out, Acked);
      d := d.(acked := true);
    }
    y := Serve(m, s, y, l, d);
    y := Answer(m, inv, abs, good, toward, dist, s, y, l, d.(recv := None), img);
  }

  // Nothing of link `l` is under way, and the server has nothing to do.
  ghost predicate Rests<C>(s: System<C>, l: nat, inv: C -> bool, abs: C -> Slot, good: (C, Event) -> bool) {
    && Shaped(s) && l < |s.outs|
    && Ready(s.outs[l], Empty, inv, abs, good) && Ready(s.backs[l], Empty, inv, abs, good)
    && View(s.layer, l, s.layer.clients[l], Resting) && s.layer.ring.Contents() == []
    && s.layer.clients[l].phase.Idle? && s.layer.clients[l].recv.None?
  }

  // Every message the server answers can be exchanged, by every client, from rest: the
  // write is acknowledged, the reply arrives, the request returns it, the reply is
  // acknowledged in turn, and all is at rest again.
  lemma Completes<C(!new), A(!new)>(m: Machine<C, A, Event>, inv: C -> bool, abs: C -> Slot,
      good: (C, Event) -> bool, toward: (C, Event) -> A, dist: (C, Event) -> nat,
      s: System<C>, l: nat, msg: seq<byte>)
    returns (y: System<C>)
    requires Drives(m, inv, abs, good, toward, dist) && Rests(s, l, inv, abs, good)
    requires |msg| <= MSG_SIZE && ReplySize(Image(msg)) == MSG_SIZE
    ensures Reaches(Over(m), s, [], y) && Rests(y, l, inv, abs, good)
    ensures y.layer.clients[l].done == s.layer.clients[l].done + [Exchange(Image(msg), Reply(Image(msg)))]
    ensures y.layer.clients[l].acked
  {
    y := RoundTrip(m, inv, abs, good, toward, dist, s, l, s.layer.clients[l], msg, true);
    StepAbove(m, s, y, Return(l));
    y := y.(layer := DoLocal(y.layer, Return(l)));
    y := Calms(m, inv, abs, good, toward, dist, s, y, l, y.layer.clients[l]);
  }

  // The server is told that its reply has arrived, and is free for the next command.
  lemma Calms<C(!new), A(!new)>(m: Machine<C, A, Event>, inv: C -> bool, abs: C -> Slot,
      good: (C, Event) -> bool, toward: (C, Event) -> A, dist: (C, Event) -> nat,
      s: System<C>, x: System<C>, l: nat, c: Client)
    returns (y: System<C>)
    requires Drives(m, inv, abs, good, toward, dist) && Reaches(Over(m), s, [], x) && Shaped(x) && l < |x.outs|
    requires Ready(x.outs[l], Empty, inv, abs, good) && Ready(x.backs[l], Taken, inv, abs, good)
    requires View(x.layer, l, c, Awaiting(l)) && x.layer.ring.Contents() == [] && c.phase.Idle? && c.recv.None?
    ensures Reaches(Over(m), s, [], y) && Rests(y, l, inv, abs, good) && y.layer.clients[l] == c
  {
    y := DriveEvent(m, inv, abs, good, toward, dist, s, x, l, Back, Acked);
    StepAbove(m, s, y, Finish);
    y := y.(layer := DoLocal(y.layer, Finish));
  }

  function Exchanges(msgs: seq<seq<byte>>): (e: seq<Exchange>)
    requires forall k :: 0 <= k < |msgs| ==> |msgs[k]| <= MSG_SIZE
    ensures |e| == |msgs|
  {
    seq(|msgs|, k requires 0 <= k < |msgs| => Exchange(Image(msgs[k]), Reply(Image(msgs[k]))))
  }

  lemma ExchangesNext(done: seq<Exchange>, msgs: seq<seq<byte>>)
    requires msgs != [] && forall k :: 0 <= k < |msgs| ==> |msgs[k]| <= MSG_SIZE
    ensures var last := msgs[|msgs| - 1];
            done + Exchanges(msgs[..|msgs| - 1]) + [Exchange(Image(last), Reply(Image(last)))] == done + Exchanges(msgs)
  {
  }

  // So can any number of them, one after the other.
  lemma {:induction false} CompletesAll<C(!new), A(!new)>(m: Machine<C, A, Event>, inv: C -> bool, abs: C -> Slot,
      good: (C, Event) -> bool, toward: (C, Event) -> A, dist: (C, Event) -> nat,
      s: System<C>, l: nat, msgs: seq<seq<byte>>)
    returns (y: System<C>)
    requires Drives(m, inv, abs, good, toward, dist) && Rests(s, l, inv, abs, good)
    requires forall k :: 0 <= k < |msgs| ==> |msgs[k]| <= MSG_SIZE && ReplySize(Image(msgs[k])) == MSG_SIZE
    ensures Reaches(Over(m), s, [], y) && Rests(y, l, inv, abs, good)
    ensures y.layer.clients[l].done == s.layer.clients[l].done + Exchanges(msgs)
    decreases |msgs|
  {
    if msgs == [] {
      ReachesSelf(Over(m), s);
      y := s;
    } else {
      var before, last := msgs[..|msgs| - 1], msgs[|msgs| - 1];
      var x := CompletesAll(m, inv, abs, good, toward, dist, s, l, before);
      y := Completes(m, inv, abs, good, toward, dist, x, l, last);
      ReachesOn(Over(m), s, [], x, [], y);
      ExchangesNext(s.layer.clients[l].done, msgs);
    }
  }

  // But the reply can also arrive while the request is still unacknowledged: the reply's
  // event ends the first wait and the client's assertion fails.
  lemma ReplyCanComeFirst<C(!new), A(!new)>(m: Machine<C, A, Event>, inv: C -> bool, abs: C -> Slot,
      good: (C, Event) -> bool, toward: (C, Event) -> A, dist: (C, Event) -> nat,
      s: System<C>, l: nat, c: Client, msg: seq<byte>)
    returns (y: System<C>)
    requires Drives(m, inv, abs, good, toward, dist) && Shaped(s) && l < |s.outs|
    requires Ready(s.outs[l], Empty, inv, abs, good) && Ready(s.backs[l], Empty, inv, abs, good)
    requires View(s.layer, l, c, Resting) && c.phase.Idle? && c.recv.None? && s.layer.ring.Contents() == []
    requires |msg| <= MSG_SIZE && ReplySize(Image(msg)) == MSG_SIZE
    ensures Reaches(Over(m), s, [], y) && Shaped(y) && l < |y.outs| && abs(y.outs[l]) == Taken
    ensures y.layer.clients[l].rbuf == Reply(Image(msg)) && y.layer.clients[l].phase.Failed?
  {
    y := RoundTrip(m, inv, abs, good, toward, dist, s, l, c, msg, false);
    StepAbove(m, s, y, AssertFails(l));
    y := y.(layer := DoLocal(y.layer, AssertFails(l)));
  }

  // The one-slot channel itself is such a transport.

  const SLOT: Machine<Slot, Event, Event> :=
    Machine(CanDo, (x, e) => if CanDo(x, e) then After(x, e) else x, (x, e) => [e])

  lemma SlotDrives()
    ensures Drives(SLOT, (x: Slot) => true, (x: Slot) => x, CanDo, (x: Slot, e: Event) => e, (x: Slot, e: Event) => 0)
  {
  }

  lemma CompletesOverSlots(s: System<Slot>, l: nat, msgs: seq<seq<byte>>)
    returns (y: System<Slot>)
    requires Shaped(s) && l < |s.outs| && s.outs[l] == Empty && s.backs[l] == Empty
    requires View(s.layer, l, s.layer.clients[l], Resting) && s.layer.ring.Contents() == []
    requires s.layer.clients[l].phase.Idle? && s.layer.clients[l].recv.None?
    requires forall k :: 0 <= k < |msgs| ==> |msgs[k]| <= MSG_SIZE && ReplySize(Image(msgs[k])) == MSG_SIZE
    ensures Reaches(Over(SLOT), s, [], y) && l < |y.layer.clients|
    ensures y.layer.clients[l].done == s.layer.clients[l].done + Exchanges(msgs)
  {
    SlotDrives();
    y := CompletesAll(SLOT, (x: Slot) => true, (x: Slot) => x, CanDo, (x: Slot, e: Event) => e,
                      (x: Slot, e: Event) => 0, s, l, msgs);
  }
}
