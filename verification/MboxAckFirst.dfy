// Why link_mbox_read clears RCV before it raises ACK: with the two register
// writes swapped, even a disciplined sender can lose a message.
module MboxAckFirst {
  import opened Messages
  import opened Runs
  import opened SlotChannel
  import opened MboxProtocol

  // A message is announced nowhere and everybody waits.
  predicate Lost(s: State) {
    && !s.rcvEvent && !s.ackEvent && s.acker.WaitingAck? && s.rcv.WaitingRcv? && s.busy
    && (s.req.Idle? || s.req.Waiting?)
  }

  lemma LostStep(s: State, a: Action)
    requires Lost(s) && Allowed(s, a)
    ensures Lost(Do(s, a)) && Observe(s, a) == []
  {
  }

  // Once lost, a message stays lost: its sender waits for an ACK that never comes.
  lemma LostForever(s: State, acts: seq<Action>)
    requires Lost(s) && Run(DISCIPLINED, s, acts)
    ensures Lost(Final(DISCIPLINED, s, acts)) && Trace(DISCIPLINED, s, acts) == []
  {
    forall x, a | Lost(x) && Allowed(x, a) ensures Lost(Next(x, a)) && Show(x, a) == [] {
      LostStep(x, a);
    }
    Silence(DISCIPLINED, Lost, (a: Action) => false, s, acts);
  }

  // Reachability, one step at a time.
  ghost predicate Can(s: State, t: seq<Event>, x: State) { Reaches(DISCIPLINED, s, t, x) }

  lemma Then(s: State, t: seq<Event>, x: State, a: Action)
    requires Can(s, t, x) && Allowed(x, a)
    ensures Can(s, t + Observe(x, a), Do(x, a))
  {
    ReachesNext(DISCIPLINED, s, t, x, a);
  }

  lemma ThenSilently(s: State, t: seq<Event>, x: State, a: Action)
    requires Can(s, t, x) && Allowed(x, a) && Observe(x, a) == []
    ensures Can(s, t, Do(x, a))
  {
    ReachesSilently(DISCIPLINED, s, t, x, a);
  }

  lemma {:induction false} StoreAll(s: State, t: seq<Event>, x: State) returns (y: State)
    requires Can(s, t, x) && |x.data| == MSG_SIZE
    requires x.req.Storing? && |x.req.msg| <= MSG_SIZE && x.req.reg < REGS
    ensures Can(s, t, y) && |y.data| == MSG_SIZE && y == x.(data := y.data, req := RaisingRcv(x.req.msg))
    decreases REGS - x.req.reg
  {
    ThenSilently(s, t, x, StoreReg);
    y := Do(x, StoreReg);
    if y.req.Storing? {
      y := StoreAll(s, t, y);
    }
  }

  lemma {:induction false} LoadAll(s: State, t: seq<Event>, x: State, left: nat) returns (got: seq<byte>)
    requires Can(s, t, x) && |x.data| == MSG_SIZE && x.ackFirst
    requires x.rcv.Loading? && 0 < left && |x.rcv.buf| + WORD_SIZE * left == MSG_SIZE
    ensures Can(s, t, x.(rcv := RaisingAck(got)))
    decreases left
  {
    var y := Do(x, LoadReg);
    ThenSilently(s, t, x, LoadReg);
    if left > 1 {
      got := LoadAll(s, t, y, left - 1);
      assert x.(rcv := RaisingAck(got)) == y.(rcv := RaisingAck(got));
    } else {
      got := y.rcv.buf;
    }
  }

  lemma Send1(s: State, t: seq<Event>, x: State, m: seq<byte>) returns (y: State)
    requires Can(s, t, x) && |x.data| == MSG_SIZE && x.req.Idle? && !x.busy
    requires |m| <= MSG_SIZE && |m| % WORD_SIZE == 0
    ensures Can(s, t + [Send(Image(m))], y) && |y.data| == MSG_SIZE
    ensures y == x.(data := y.data, rcvEvent := true, req := Waiting, busy := true, woken := false)
  {
    assert m + [] == m;
    ThenSilently(s, t, x, StartWrite(m, []));
    y := StoreAll(s, t, Do(x, StartWrite(m, [])));
    Then(s, t, y, RaiseRcv);
    y := Do(y, RaiseRcv);
  }

  // The receiver copies an announced message.
  lemma Copy(s: State, t: seq<Event>, x: State) returns (got: seq<byte>)
    requires Can(s, t, x) && |x.data| == MSG_SIZE && x.ackFirst && x.rcvEvent && x.rcv.WaitingRcv?
    ensures Can(s, t, x.(rcv := RaisingAck(got)))
  {
    ThenSilently(s, t, x, RcvIrq);
    got := LoadAll(s, t, Do(x, RcvIrq), REGS);
    assert Do(x, RcvIrq).(rcv := RaisingAck(got)) == x.(rcv := RaisingAck(got));
  }

  // The sender's handler runs to its end and the requester returns.
  lemma Ack(s: State, t: seq<Event>, x: State) returns (y: State)
    requires Can(s, t, x) && |x.data| == MSG_SIZE && x.ackEvent && x.acker.WaitingAck? && x.req.Waiting?
    ensures Can(s, t + [Acked], y)
    ensures y == x.(ackEvent := false, req := Idle, busy := false, woken := false)
  {
    ThenSilently(s, t, x, AckIrq);
    y := Do(x, AckIrq);
    Then(s, t, y, Wake);
    y := Do(y, Wake);
    ThenSilently(s, t + [Acked], y, ClearAck);
    y := Do(y, ClearAck);
    ThenSilently(s, t + [Acked], y, Return);
    y := Do(y, Return);
  }

  // Both messages are written in good order, yet clearing RCV late erases the
  // announcement of the second.
  lemma SwappedOrderLosesMessage(s: State, m1: seq<byte>, m2: seq<byte>)
    requires Init(s) && s.ackFirst
    requires |m1| <= MSG_SIZE && |m1| % WORD_SIZE == 0 && |m2| <= MSG_SIZE && |m2| % WORD_SIZE == 0
    ensures exists t, x :: Reaches(DISCIPLINED, s, t, x) && Lost(x) &&
                           Sent(t) == [Image(m1), Image(m2)] && |Delivered(t)| == 1
  {
    ReachesSelf(DISCIPLINED, s);
    var x := Send1(s, [], s, m1);
    var t := [] + [Send(Image(m1))];
    var got := Copy(s, t, x);
    ThenSilently(s, t, x.(rcv := RaisingAck(got)), RaiseAck);
    x := Ack(s, t, Do(x.(rcv := RaisingAck(got)), RaiseAck));
    t := t + [Acked];
    x := Send1(s, t, x, m2);
    t := t + [Send(Image(m2))];
    Then(s, t, x, ClearRcv);
    t := t + [Deliver(got)];
    LateDelivery(Image(m1), got, Image(m2));
    assert t == [Send(Image(m1)), Acked, Send(Image(m2)), Deliver(got)];
    assert Lost(Do(x, ClearRcv));
  }
}
