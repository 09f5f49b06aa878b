// What link_shmem_write, link_shmem_read and link_shmem_ack do in one piece is what
// their small steps add up to when nobody else moves.
module ShmemSequential {
  import opened Messages
  import opened Runs
  import opened SlotChannel
  import opened ShmemProtocol

  ghost predicate Can(s: State, t: seq<Event>, x: State) { Reaches(DISCIPLINED, s, t, x) && Inv(x) }

  lemma Then(s: State, t: seq<Event>, x: State, a: Action) returns (y: State)
    requires Can(s, t, x) && Allowed(x, a)
    ensures Can(s, t + Observe(x, a), y) && y == Do(x, a)
  {
    Step(x, a);
    ReachesNext(DISCIPLINED, s, t, x, a);
    y := Do(x, a);
  }

  lemma ThenSilently(s: State, t: seq<Event>, x: State, a: Action) returns (y: State)
    requires Can(s, t, x) && Allowed(x, a) && Observe(x, a) == []
    ensures Can(s, t, y) && y == Do(x, a)
  {
    Step(x, a);
    ReachesSilently(DISCIPLINED, s, t, x, a);
    y := Do(x, a);
  }

  lemma {:induction false} StoreAll(s: State, x: State) returns (y: State)
    requires Can(s, [], x) && x.req.Storing?
    ensures Can(s, [], y) && y == x.(data := Image(x.req.msg), req := LoadingNew(x.req.msg))
    decreases MSG_SIZE - x.req.off
  {
    y := ThenSilently(s, [], x, StoreData);
    if y.req.Storing? {
      y := StoreAll(s, y);
    }
  }

  lemma WriteAddsUp(s: State, m: seq<byte>)
    requires Inv(s) && !s.busy && s.req.Idle? && |m| <= MSG_SIZE
    ensures Reaches(DISCIPLINED, s, [Send(Image(m))],
                    s.(data := Image(m), status := s.status.(isNew := true),
                       req := Waiting, busy := true, woken := false))
  {
    ReachesSelf(DISCIPLINED, s);
    var y := ThenSilently(s, [], s, StartWrite(m));
    y := StoreAll(s, y);
    y := ThenSilently(s, [], y, LoadNew);
    y := Then(s, [], y, StoreNew);
    assert [] + [Send(Image(m))] == [Send(Image(m))];
  }

  lemma {:induction false} ReadAll(s: State, x: State, left: nat) returns (y: State)
    requires Can(s, [], x) && x.rcv.Reading? && OwnerOf(x).ReceiverOwns?
    requires 0 < left && |x.rcv.buf| + WORD_SIZE * left == MSG_SIZE
    ensures Can(s, [], y) && y == x.(rcv := LoadingNewClear(x.data))
    decreases left
  {
    y := ThenSilently(s, [], x, ReadWord);
    if left > 1 {
      y := ReadAll(s, y, left - 1);
    }
  }

  lemma ReadAddsUp(s: State)
    requires Inv(s) && Abs(s).Full? && s.rcv.PollingNew?
    ensures Reaches(DISCIPLINED, s, [Deliver(s.data)], s.(status := s.status.(isNew := false, isAck := true)))
  {
    ReachesSelf(DISCIPLINED, s);
    var y := ThenSilently(s, [], s, PollNew);
    y := ReadAll(s, y, 16);
    y := ThenSilently(s, [], y, LoadNewClear);
    y := ThenSilently(s, [], y, StoreNewClear);
    y := ThenSilently(s, [], y, LoadAckSet);
    y := Then(s, [], y, StoreAckSet);
    assert [] + [Deliver(s.data)] == [Deliver(s.data)];
    assert y == s.(status := s.status.(isNew := false, isAck := true));
  }

  lemma AckAddsUp(s: State)
    requires Inv(s) && OwnerOf(s).AckerOwns? && s.acker.PollingAck?
    ensures Reaches(DISCIPLINED, s, [Acked], s.(status := s.status.(isAck := false), busy := false, woken := true))
  {
    ReachesSelf(DISCIPLINED, s);
    var y := ThenSilently(s, [], s, PollAck);
    y := Then(s, [], y, Wake);
    assert [] + [Acked] == [Acked];
    y := ThenSilently(s, [Acked], y, LoadAckClear);
    y := ThenSilently(s, [Acked], y, StoreAckClear);
  }
}
