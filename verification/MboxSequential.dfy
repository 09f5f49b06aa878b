// What the methods of a mailbox link do in one piece is what the small steps of the
// mailbox protocol add up to when nobody else moves.
module MboxSequential {
  import opened Messages
  import opened Runs
  import opened SlotChannel
  import opened MboxProtocol
  import Driver = MboxDriver
  import LinkMbox

  // The registers of the channel hold what the protocol state says.
  predicate Matches(s: State, r: Driver.Regs) {
    s.data == Driver.Bytes(r.data) && s.rcvEvent == (Driver.RCV in r.status) && s.ackEvent == (Driver.ACK in r.status)
  }

  ghost predicate Can(s: State, t: seq<Event>, x: State) { Reaches(DISCIPLINED, s, t, x) && Inv(x) }

  lemma Then(s: State, t: seq<Event>, x: State, a: Action) returns (y: State)
    requires Can(s, t, x) && Allowed(x, a)
    ensures Can(s, t + Observe(x, a), y) && y == Do(x, a)
  {
    Step(x, a);
    ReachesNext(DISCIPLINED, s, t, x, a);
    y := Do(x, a);
  }

  lemma ThenSilently(s: State, t: seq<Event>, x: State, a: Action) returns (y: State)
    requires Can(s, t, x) && Allowed(x, a) && Observe(x, a) == []
    ensures Can(s, t, y) && y == Do(x, a)
  {
    Step(x, a);
    ReachesSilently(DISCIPLINED, s, t, x, a);
    y := Do(x, a);
  }

  lemma {:induction false} StoreAll(s: State, x: State) returns (y: State)
    requires Can(s, [], x) && x.req.Storing?
    ensures Can(s, [], y) && y == x.(data := Image(x.req.msg), req := RaisingRcv(x.req.msg))
    decreases REGS - x.req.reg
  {
    y := ThenSilently(s, [], x, StoreReg);
    if y.req.Storing? {
      y := StoreAll(s, y);
    }
  }

  lemma WriteSteps(s: State, msg: seq<byte>, over: seq<byte>) returns (y: State)
    requires Inv(s) && !s.busy && s.req.Idle? && |msg| <= MSG_SIZE && |over| == WordBytes(|msg|) - |msg|
    ensures Can(s, [Send(Image(msg + over))], y)
    ensures y == s.(data := Image(msg + over), rcvEvent := true, req := Waiting, busy := true, woken := false)
  {
    ReachesSelf(DISCIPLINED, s);
    y := ThenSilently(s, [], s, StartWrite(msg, over));
    y := StoreAll(s, y);
    y := Then(s, [], y, RaiseRcv);
    assert [] + [Send(Image(msg + over))] == [Send(Image(msg + over))];
  }

  // Links.Write
  lemma WriteAddsUp(s: State, r: Driver.Regs, msg: seq<byte>, over: seq<byte>)
    requires Inv(s) && !s.busy && s.req.Idle? && Matches(s, r)
    requires |msg| <= MSG_SIZE && |over| == WordBytes(|msg|) - |msg|
    ensures exists y :: Reaches(DISCIPLINED, s, [Send(Image(msg + over))], y) && y.req.Waiting? && y.busy
                        && Matches(y, r.(data := Driver.Written(msg + over), status := r.status + {Driver.RCV}))
  {
    var y := WriteSteps(s, msg, over);
    Driver.WriteThenRead(msg + over);
  }

  lemma {:induction false} LoadAll(s: State, x: State, left: nat) returns (y: State)
    requires Can(s, [], x) && x.rcv.Loading? && TurnOf(x).ReceiversTurn?
    requires 0 < left && |x.rcv.buf| + WORD_SIZE * left == MSG_SIZE
    ensures Can(s, [], y) && y == x.(rcv := ClearingRcv(x.data))
    decreases left
  {
    y := ThenSilently(s, [], x, LoadReg);
    if left > 1 {
      y := LoadAll(s, y, left - 1);
    }
  }

  // Links.Read, in a receive interrupt: the message delivered is the registers' bytes.
  lemma ReadAddsUp(s: State, r: Driver.Regs, h: Driver.Handler)
    requires Inv(s) && Abs(s).Full? && s.rcv.WaitingRcv? && Matches(s, r) && h != Driver.NoHandler
    ensures exists y :: Reaches(DISCIPLINED, s, [Deliver(Driver.Bytes(r.data))], y) && y.rcv.WaitingRcv?
                        && Matches(y, LinkMbox.Served(r, h, Driver.RCV))
  {
    ReachesSelf(DISCIPLINED, s);
    var y := ThenSilently(s, [], s, RcvIrq);
    y := LoadAll(s, y, REGS);
    y := ThenSilently(s, [], y, ClearRcv);
    y := Then(s, [], y, RaiseAck);
    assert [] + [Deliver(s.data)] == [Deliver(s.data)];
    assert Matches(y, LinkMbox.Served(r, h, Driver.RCV));
  }

  // The acknowledgement callback in an ACK interrupt.
  lemma AckAddsUp(s: State, r: Driver.Regs, h: Driver.Handler)
    requires Inv(s) && TurnOf(s).AckersTurn? && s.acker.WaitingAck? && Matches(s, r)
    ensures exists y :: Reaches(DISCIPLINED, s, [Acked], y) && !y.busy && y.woken
                        && Matches(y, LinkMbox.Served(r, h, Driver.ACK))
  {
    ReachesSelf(DISCIPLINED, s);
    var y := ThenSilently(s, [], s, AckIrq);
    y := Then(s, [], y, Wake);
    assert [] + [Acked] == [Acked];
    y := ThenSilently(s, [Acked], y, ClearAck);
    assert Matches(y, LinkMbox.Served(r, h, Driver.ACK));
  }
}
