// One mailbox channel between a sending link and a receiving link, in small
// steps: every DATA register access and every write to the event set and clear
// registers is separate.
//
// Three sequential processes interleave freely: the requester that writes a
// message, the sender's ACK interrupt handler and the receiver's RCV handler.
module MboxProtocol {
  import opened Messages
  import opened Runs
  import opened SlotChannel
  import opened Transport

  // link_mbox_write, called by the requesting task
  datatype Requester =
    | Idle
    | Storing(msg: seq<byte>, reg: nat)              // DATA registers [0, reg) are stored
    | RaisingRcv(msg: seq<byte>)
    | Waiting                                        // waits for the ACK event or its timeout

  // link_mbox_ack, run by the sender's interrupt B
  datatype Acker =
    | WaitingAck
    | Waking                                         // link_ack: wakes the requester
    | ClearingAck

  // link_mbox_read, run by the receiver's interrupt A
  datatype Receiver =
    | WaitingRcv
    | Loading(buf: seq<byte>)                        // registers read so far
    | ClearingRcv(buf: seq<byte>)
    | RaisingAck(buf: seq<byte>)

  // `ackFirst` says which of the two event writes link_mbox_read does first: in
  // the source RCV is cleared first.
  datatype State = State(data: seq<byte>, rcvEvent: bool, ackEvent: bool,
                         req: Requester, acker: Acker, rcv: Receiver,
                         busy: bool, woken: bool, ackFirst: bool)

  // `over` is what memory holds behind a message that ends within a word.
  datatype Action =
    | StartWrite(msg: seq<byte>, over: seq<byte>) | StoreReg | RaiseRcv | Return | Timeout
    | AckIrq | Wake | ClearAck
    | RcvIrq | LoadReg | ClearRcv | RaiseAck

  const REGS: nat := 16

  predicate Init(s: State) {
    && |s.data| == MSG_SIZE && !s.rcvEvent && !s.ackEvent
    && s.req.Idle? && s.acker.WaitingAck? && s.rcv.WaitingRcv? && !s.busy && !s.woken
  }

  predicate Enabled(s: State, a: Action) {
    && |s.data| == MSG_SIZE
    && match a
       case StartWrite(msg, over) =>
         s.req.Idle? && |msg| <= MSG_SIZE && |over| == WordBytes(|msg|) - |msg|
       case StoreReg => s.req.Storing? && |s.req.msg| <= MSG_SIZE && s.req.reg < REGS
       case RaiseRcv => s.req.RaisingRcv? && |s.req.msg| <= MSG_SIZE
       case Return => s.req.Waiting? && s.woken
       case Timeout => s.req.Waiting? && !s.woken
       case AckIrq => s.acker.WaitingAck?
       case Wake => s.acker.Waking?
       case ClearAck => s.acker.ClearingAck?
       case RcvIrq => s.rcv.WaitingRcv?
       case LoadReg => s.rcv.Loading? && |s.rcv.buf| + WORD_SIZE <= MSG_SIZE
       case ClearRcv => s.rcv.ClearingRcv?
       case RaiseAck => s.rcv.RaisingAck?
  }

  // The discipline: a write starts only once the previous write's ACK handler has
  // returned.
  predicate Orderly(s: State, a: Action) { a.StartWrite? ==> !s.busy }

  function Do(s: State, a: Action): State
    requires Enabled(s, a)
  {
    match a
    case StartWrite(msg, over) => s.(req := Storing(msg + over, 0), busy := true, woken := false)
    case StoreReg =>
      var msg, off := s.req.msg, WORD_SIZE * s.req.reg;
      s.(data := Store(s.data, off, Image(msg)[off..off + WORD_SIZE]),
         req := if s.req.reg + 1 == REGS then RaisingRcv(msg) else Storing(msg, s.req.reg + 1))
    case RaiseRcv => s.(rcvEvent := true, req := Waiting)
    case Return => s.(req := Idle, woken := false)
    case Timeout => s.(req := Idle)
    case AckIrq => if s.ackEvent then s.(acker := Waking) else s
    case Wake => s.(acker := ClearingAck, woken := true)
    case ClearAck => s.(ackEvent := false, acker := WaitingAck, busy := false)
    case RcvIrq => if s.rcvEvent then s.(rcv := Loading([])) else s
    case LoadReg =>
      var buf := s.rcv.buf + s.data[|s.rcv.buf|..|s.rcv.buf| + WORD_SIZE];
      s.(rcv := if |buf| == MSG_SIZE then (if s.ackFirst then RaisingAck(buf) else ClearingRcv(buf)) else Loading(buf))
    case ClearRcv => s.(rcvEvent := false, rcv := if s.ackFirst then WaitingRcv else RaisingAck(s.rcv.buf))
    case RaiseAck => s.(ackEvent := true, rcv := if s.ackFirst then ClearingRcv(s.rcv.buf) else WaitingRcv)
  }

  // What a step shows to the link layer: the written message is announced, the read
  // returns with the receiver's copy, the requester is woken.
  function Observe(s: State, a: Action): seq<Event>
    requires Enabled(s, a)
  {
    match a
    case RaiseRcv => [Send(Image(s.req.msg))]
    case ClearRcv => if s.ackFirst then [Deliver(s.rcv.buf)] else []
    case RaiseAck => if s.ackFirst then [] else [Deliver(s.rcv.buf)]
    case Wake => [Acked]
    case _ => []
  }

  const DISCIPLINED: Machine<State, Action, Event> := Machine(Allowed, Next, Show)

  predicate Allowed(s: State, a: Action) { Enabled(s, a) && Orderly(s, a) }

  function Next(s: State, a: Action): State { if Enabled(s, a) then Do(s, a) else s }

  function Show(s: State, a: Action): seq<Event> { if Enabled(s, a) then Observe(s, a) else [] }

  // Whose turn it is, and what everybody else is doing meanwhile.

  datatype Turn = SendersTurn | ReceiversTurn | AckersTurn

  predicate Writing(s: State) { s.req.Storing? || s.req.RaisingRcv? }

  function TurnOf(s: State): Turn {
    if !s.busy || Writing(s) then SendersTurn
    else if s.ackEvent then AckersTurn
    else ReceiversTurn
  }

  predicate Inv(s: State) {
    && |s.data| == MSG_SIZE && !s.ackFirst
    && match TurnOf(s)
       case SendersTurn => SenderPhase(s)
       case ReceiversTurn => ReceiverPhase(s)
       case AckersTurn =>
         && s.rcv.WaitingRcv? && !s.rcvEvent
         && (s.woken ==> s.acker.ClearingAck?) && (s.req.Waiting? && s.acker.ClearingAck? ==> s.woken)
  }

  predicate SenderPhase(s: State)
    requires |s.data| == MSG_SIZE
  {
    && !s.rcvEvent && !s.ackEvent && s.acker.WaitingAck? && s.rcv.WaitingRcv?
    && (s.busy <==> Writing(s))
    && (Writing(s) ==> |s.req.msg| <= MSG_SIZE && !s.woken)
    && (s.req.Waiting? ==> s.woken)
    && (s.req.Storing? ==> s.req.reg < REGS &&
                           s.data[..WORD_SIZE * s.req.reg] == Image(s.req.msg)[..WORD_SIZE * s.req.reg])
    && (s.req.RaisingRcv? ==> s.data == Image(s.req.msg))
  }

  predicate ReceiverPhase(s: State)
    requires |s.data| == MSG_SIZE
  {
    && s.acker.WaitingAck? && !s.woken
    && (s.rcvEvent <==> !s.rcv.RaisingAck?)
    && (s.rcv.Loading? ==> |s.rcv.buf| < MSG_SIZE && |s.rcv.buf| % WORD_SIZE == 0
                           && s.rcv.buf == s.data[..|s.rcv.buf|])
    && (s.rcv.ClearingRcv? || s.rcv.RaisingAck? ==> s.rcv.buf == s.data)
  }

  // What the channel looks like as a one-slot channel.
  function Abs(s: State): Slot {
    match TurnOf(s)
    case SendersTurn => Empty
    case ReceiversTurn => Full(s.data)
    case AckersTurn => if s.acker.ClearingAck? then Empty else Taken
  }

  // Interrupts that find nothing, and steps that only concern the requesting task.
  predicate IsIdle(s: State, a: Action) {
    a.Return? || a.Timeout? || (a.AckIrq? && !s.ackEvent) || (a.RcvIrq? && !s.rcvEvent)
  }

  // Steps left until the requester may write again.
  function Rank(s: State): nat {
    if !s.busy then 0
    else match s.req
    case Storing(msg, reg) => 31 + if reg < REGS then REGS - reg else 0
    case RaisingRcv(_) => 31
    case _ =>
      if s.ackEvent then
        match s.acker case WaitingAck => 3 case Waking => 2 case ClearingAck => 1
      else
        match s.rcv
        case WaitingRcv => 30
        case Loading(buf) => 6 + if |buf| < MSG_SIZE then (MSG_SIZE - |buf|) / WORD_SIZE else 0
        case ClearingRcv(_) => 5
        case RaisingAck(_) => 4
  }

  // What one step must do: keep the invariant, refine the one-slot channel and
  // make progress unless it is idle.
  predicate StepOk(s: State, a: Action)
    requires Enabled(s, a)
  {
    var s', t := Do(s, a), Observe(s, a);
    && Inv(s')
    && (t == [] ==> Abs(s') == Abs(s))
    && (t != [] ==> CanDo(Abs(s), t[0]) && After(Abs(s), t[0]) == Abs(s'))
    && (!a.StartWrite? ==> if IsIdle(s, a) then Rank(s') == Rank(s) else Rank(s') < Rank(s))
  }

  lemma RequesterStep(s: State, a: Action)
    requires Inv(s) && Allowed(s, a)
    requires a.StartWrite? || a.StoreReg? || a.RaiseRcv? || a.Return? || a.Timeout?
    ensures StepOk(s, a)
  {
    if a.StoreReg? {
      var img, off := Image(s.req.msg), WORD_SIZE * s.req.reg;
      StoreExtends(s.data, img, off, WORD_SIZE);
      assert off + WORD_SIZE == MSG_SIZE ==> img[..MSG_SIZE] == img && Do(s, a).data[..MSG_SIZE] == Do(s, a).data;
    }
  }

  lemma LoadStep(s: State, a: Action)
    requires Inv(s) && Enabled(s, a) && a.LoadReg?
    ensures StepOk(s, a)
  {
  }

  lemma EventStep(s: State, a: Action)
    requires Inv(s) && Enabled(s, a)
    requires a.AckIrq? || a.Wake? || a.ClearAck? || a.RcvIrq? || a.ClearRcv? || a.RaiseAck?
    ensures StepOk(s, a)
  {
  }

  lemma Step(s: State, a: Action)
    requires Inv(s) && Allowed(s, a)
    ensures StepOk(s, a)
  {
    if a.LoadReg? {
      LoadStep(s, a);
    } else if a.StartWrite? || a.StoreReg? || a.RaiseRcv? || a.Return? || a.Timeout? {
      RequesterStep(s, a);
    } else {
      EventStep(s, a);
    }
  }

  // Main results: what holds over every disciplined run from a quiet channel.

  lemma Refines(s: State, a: Action)
    requires Inv(s) && Allowed(s, a)
    ensures RefinesAt(DISCIPLINED, Inv, Abs, s, a)
  {
    Step(s, a);
  }

  lemma RunRefines(s: State, acts: seq<Action>)
    requires Init(s) && !s.ackFirst && Run(DISCIPLINED, s, acts)
    ensures Inv(Final(DISCIPLINED, s, acts))
    ensures IsTrace(Empty, Trace(DISCIPLINED, s, acts))
    ensures EndOf(Empty, Trace(DISCIPLINED, s, acts)) == Abs(Final(DISCIPLINED, s, acts))
  {
    forall x, a | Inv(x) && Allowed(x, a) ensures RefinesAt(DISCIPLINED, Inv, Abs, x, a) {
      Refines(x, a);
    }
    RunIsSlotTrace(DISCIPLINED, Inv, Abs, s, acts);
  }

  // The messages handed to link_mbox_write, as the images they should leave: the
  // message, what the last word reads behind it, and zeros.
  function Requested(acts: seq<Action>): seq<seq<byte>> {
    if acts == [] then []
    else
      var a := acts[|acts| - 1];
      Requested(acts[..|acts| - 1]) +
      if a.StartWrite? && |a.msg + a.over| <= MSG_SIZE then [Image(a.msg + a.over)] else []
  }

  // The image of a write that has not been announced yet.
  function Unsent(s: State): seq<seq<byte>> {
    if Writing(s) && |s.req.msg| <= MSG_SIZE then [Image(s.req.msg)] else []
  }

  lemma StepRequests(s: State, a: Action)
    requires Inv(s) && Allowed(s, a)
    ensures if a.StartWrite? then Unsent(s) == [] && Unsent(Do(s, a)) == [Image(a.msg + a.over)] && Observe(s, a) == []
            else Unsent(s) == Sent(Observe(s, a)) + Unsent(Do(s, a))
  {
    var t := Observe(s, a);
    if t != [] {
      assert t[..|t| - 1] == [];
    }
  }

  lemma {:induction false} RequestsAreSent(s: State, acts: seq<Action>)
    requires Init(s) && !s.ackFirst && Run(DISCIPLINED, s, acts)
    ensures Requested(acts) == Sent(Trace(DISCIPLINED, s, acts)) + Unsent(Final(DISCIPLINED, s, acts))
    decreases |acts|
  {
    if acts != [] {
      var before, a := acts[..|acts| - 1], acts[|acts| - 1];
      RequestsAreSent(s, before);
      RunRefines(s, before);
      var mid := Final(DISCIPLINED, s, before);
      StepRequests(mid, a);
      SentAppend(Trace(DISCIPLINED, s, before), Observe(mid, a));
    }
  }

  // Delivery: because RCV is cleared before ACK is raised, no run loses a message.
  lemma DeliveredInOrder(s: State, acts: seq<Action>)
    requires Init(s) && !s.ackFirst && Run(DISCIPLINED, s, acts)
    ensures var t := Trace(DISCIPLINED, s, acts);
            && Delivered(t) <= Sent(t) <= Requested(acts)
            && AckCount(t) <= |Delivered(t)| <= |Sent(t)| <= AckCount(t) + 1
  {
    RunRefines(s, acts);
    RequestsAreSent(s, acts);
    Delivery(Trace(DISCIPLINED, s, acts));
  }

  // Who waits goes on exactly when the slot is free again, and can time out till then.
  lemma WaitEnds(s: State)
    requires Inv(s) && s.req.Waiting?
    ensures Enabled(s, Return) <==> Abs(s).Empty?
    ensures Enabled(s, Timeout) <==> !Abs(s).Empty?
    ensures forall a :: a in {Return, Timeout} && Enabled(s, a) ==> Do(s, a).req.Idle?
  {
  }

  lemma LagAtEnd(slot: Slot, t: seq<Event>)
    requires Lag(slot, Sent(t), Delivered(t), AckCount(t))
    ensures AckCount(t) + (if slot.Empty? then 0 else 1) == |Sent(t)|
  {
  }

  // So it goes on when its message has been acknowledged, and only then.
  lemma WaitEndsByAck(s: State, acts: seq<Action>)
    requires Init(s) && !s.ackFirst && Run(DISCIPLINED, s, acts) && Final(DISCIPLINED, s, acts).req.Waiting?
    ensures var f, t := Final(DISCIPLINED, s, acts), Trace(DISCIPLINED, s, acts);
            && (Enabled(f, Return) <==> AckCount(t) == |Sent(t)|)
            && (Enabled(f, Timeout) <==> AckCount(t) + 1 == |Sent(t)|)
  {
    RunRefines(s, acts);
    TraceLag(Trace(DISCIPLINED, s, acts));
    LagAtEnd(Abs(Final(DISCIPLINED, s, acts)), Trace(DISCIPLINED, s, acts));
    WaitEnds(Final(DISCIPLINED, s, acts));
  }

  // Progress

  // The step that moves an exchange in flight forward.
  function Advance(s: State): Action {
    match s.req
    case Storing(_, _) => StoreReg
    case RaisingRcv(_) => RaiseRcv
    case _ =>
      if s.ackEvent then
        match s.acker case WaitingAck => AckIrq case Waking => Wake case ClearingAck => ClearAck
      else
        match s.rcv
        case WaitingRcv => RcvIrq
        case Loading(_) => LoadReg
        case ClearingRcv(_) => ClearRcv
        case RaisingAck(_) => RaiseAck
  }

  // No deadlock: until the ACK handler has returned, some step that is not idle
  // is possible, and it brings the end closer.
  lemma CanAdvance(s: State)
    requires Inv(s) && s.busy
    ensures Allowed(s, Advance(s)) && !IsIdle(s, Advance(s)) && !Advance(s).StartWrite?
    ensures Rank(Do(s, Advance(s))) < Rank(s)
  {
  }

  // No livelock: however the processes interleave, a write in flight takes at
  // most Rank(s) steps that are not idle before its ACK handler has returned.
  lemma ExchangeIsBounded(s: State, acts: seq<Action>)
    requires Inv(s) && Run(DISCIPLINED, s, acts)
    requires forall k :: 0 <= k < |acts| ==> !acts[k].StartWrite?
    ensures var f := Final(DISCIPLINED, s, acts);
            && Progress(DISCIPLINED, IsIdle, s, acts) + Rank(f) <= Rank(s)
            && (Progress(DISCIPLINED, IsIdle, s, acts) == Rank(s) ==> !f.busy)
  {
    var starts := (a: Action) => a.StartWrite?;
    forall x, a | Inv(x) && Allowed(x, a)
      ensures Inv(Next(x, a)) && (!starts(a) ==> ProgressesAt(DISCIPLINED, IsIdle, Rank, x, a))
    {
      Step(x, a);
    }
    ProgressIsBounded(DISCIPLINED, Inv, IsIdle, starts, Rank, s, acts);
    var f := Final(DISCIPLINED, s, acts);
    if f.busy {
      CanAdvance(f);
    }
  }

  // Every history of the one-slot channel

  ghost predicate Good(s: State, e: Event) {
    && Inv(s)
    && if Writing(s) then e == Send(Image(s.req.msg)) else CanDo(Abs(s), e)
  }

  function Toward(s: State, e: Event): Action {
    if s.busy then Advance(s)
    else if s.req.Waiting? then Return
    else StartWrite(if e.Send? then e.m else [], [])
  }

  function Distance(s: State, e: Event): nat {
    Rank(s) + if Writing(s) then 0 else if s.req.Waiting? then 300 else 200
  }

  lemma GoodIsDrivable(s: State, e: Event)
    requires Good(s, e)
    ensures Drivable(DISCIPLINED, Abs, Good, Toward, Distance, s, e)
  {
    var a := Toward(s, e);
    if s.busy {
      CanAdvance(s);
    }
    Step(s, a);
    if e.Send? && |e.m| == MSG_SIZE {
      assert e.m + [] == e.m && Image(e.m) == e.m;
    }
  }

  // The link layer cannot tell a mailbox channel from a one-slot channel, in
  // either direction: the histories of disciplined runs are exactly the channel's.
  lemma TracesAreSlotTraces(s: State, t: seq<Event>)
    requires Init(s) && !s.ackFirst
    ensures IsTrace(Empty, t) <==> exists acts :: Run(DISCIPLINED, s, acts) && Trace(DISCIPLINED, s, acts) == t
  {
    forall x, a | Inv(x) && Allowed(x, a) ensures RefinesAt(DISCIPLINED, Inv, Abs, x, a) {
      Refines(x, a);
    }
    forall x, e | Good(x, e) ensures Drivable(DISCIPLINED, Abs, Good, Toward, Distance, x, e) {
      GoodIsDrivable(x, e);
    }
    HistoriesAreSlotHistories(DISCIPLINED, Inv, Abs, Good, Toward, Distance, s, t);
  }
}
