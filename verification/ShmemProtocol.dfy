// One shared-memory region between the sending side of one link and the
// receiving side of its peer, in small steps: every word or byte store, every
// word load, and the load and the store of each status update are separate.
//
// Three sequential processes interleave freely: the requester that writes a
// message, the sender's ACK poller, and the receiver's NEW poller.
module ShmemProtocol {
  import opened Messages
  import opened Runs
  import opened ShmemStatus
  import opened SlotChannel
  import opened Transport

  // link_shmem_write, called by the requesting task
  datatype Requester =
    | Idle
    | Storing(msg: seq<byte>, off: nat)              // bytes [0, off) of the image are stored
    | LoadingNew(msg: seq<byte>)                     // about to load status for |= NEW
    | StoringNew(msg: seq<byte>, raised: Status)     // holds the value to store back
    | Waiting                                        // waits for the ACK event or its timeout

  // the poll task whose callback is link_shmem_ack
  datatype Acker =
    | PollingAck
    | Waking                                         // link_ack: wakes the requester
    | LoadingAckClear
    | StoringAckClear(cleared: Status)

  // the poll task whose callback is link_recv_cmd or link_recv_reply
  datatype Receiver =
    | PollingNew
    | Reading(buf: seq<byte>)                        // what the buffer holds so far
    | LoadingNewClear(buf: seq<byte>)
    | StoringNewClear(buf: seq<byte>, dropped: Status)
    | LoadingAckSet(buf: seq<byte>)
    | StoringAckSet(buf: seq<byte>, acked: Status)

  // `busy` records that the ACK callback for the last write has not returned yet,
  // `woken` that the requester has been sent its event.
  datatype State = State(data: seq<byte>, status: Status,
                         req: Requester, acker: Acker, rcv: Receiver,
                         busy: bool, woken: bool)

  datatype Action =
    | StartWrite(msg: seq<byte>) | StoreData | LoadNew | StoreNew | Return | Timeout
    | PollAck | Wake | LoadAckClear | StoreAckClear
    | PollNew | ReadWord | LoadNewClear | StoreNewClear | LoadAckSet | StoreAckSet

  predicate Init(s: State) {
    && |s.data| == MSG_SIZE && !s.status.isNew && !s.status.isAck
    && s.req.Idle? && s.acker.PollingAck? && s.rcv.PollingNew? && !s.busy && !s.woken
  }

  predicate Enabled(s: State, a: Action) {
    && |s.data| == MSG_SIZE
    && match a
       case StartWrite(msg) => s.req.Idle? && |msg| <= MSG_SIZE
       case StoreData => s.req.Storing? && |s.req.msg| <= MSG_SIZE && s.req.off < MSG_SIZE
       case LoadNew => s.req.LoadingNew?
       case StoreNew => s.req.StoringNew? && |s.req.msg| <= MSG_SIZE
       case Return => s.req.Waiting? && s.woken
       case Timeout => s.req.Waiting? && !s.woken
       case PollAck => s.acker.PollingAck?
       case Wake => s.acker.Waking?
       case LoadAckClear => s.acker.LoadingAckClear?
       case StoreAckClear => s.acker.StoringAckClear?
       case PollNew => s.rcv.PollingNew?
       case ReadWord => s.rcv.Reading? && |s.rcv.buf| + WORD_SIZE <= MSG_SIZE
       case LoadNewClear => s.rcv.LoadingNewClear?
       case StoreNewClear => s.rcv.StoringNewClear?
       case LoadAckSet => s.rcv.LoadingAckSet?
       case StoreAckSet => s.rcv.StoringAckSet?
  }

  // The discipline: a write starts only once the previous write's ACK callback
  // has returned.
  predicate Orderly(s: State, a: Action) { a.StartWrite? ==> !s.busy }

  // Whole words while at least a word of the message is left, then single bytes.
  function StoreLength(msg: seq<byte>, off: nat): nat {
    if off + WORD_SIZE <= |msg| then WORD_SIZE else 1
  }

  function Do(s: State, a: Action): State
    requires Enabled(s, a)
  {
    match a
    case StartWrite(msg) => s.(req := Storing(msg, 0), busy := true, woken := false)
    case StoreData =>
      var msg, next := s.req.msg, s.req.off + StoreLength(s.req.msg, s.req.off);
      s.(data := Store(s.data, s.req.off, Image(msg)[s.req.off..next]),
         req := if next == MSG_SIZE then LoadingNew(msg) else Storing(msg, next))
    case LoadNew => s.(req := StoringNew(s.req.msg, s.status.(isNew := true)))
    case StoreNew => s.(status := s.req.raised, req := Waiting)
    case Return => s.(req := Idle, woken := false)
    case Timeout => s.(req := Idle)
    case PollAck => if s.status.isAck then s.(acker := Waking) else s
    case Wake => s.(acker := LoadingAckClear, woken := true)
    case LoadAckClear => s.(acker := StoringAckClear(s.status.(isAck := false)))
    case StoreAckClear => s.(status := s.acker.cleared, acker := PollingAck, busy := false)
    case PollNew => if s.status.isNew then s.(rcv := Reading([])) else s
    case ReadWord =>
      var buf := s.rcv.buf + s.data[|s.rcv.buf|..|s.rcv.buf| + WORD_SIZE];
      s.(rcv := if |buf| == MSG_SIZE then LoadingNewClear(buf) else Reading(buf))
    case LoadNewClear => s.(rcv := StoringNewClear(s.rcv.buf, s.status.(isNew := false)))
    case StoreNewClear => s.(status := s.rcv.dropped, rcv := LoadingAckSet(s.rcv.buf))
    case LoadAckSet => s.(rcv := StoringAckSet(s.rcv.buf, s.status.(isAck := true)))
    case StoreAckSet => s.(status := s.rcv.acked, rcv := PollingNew)
  }

  // What a step shows to the link layer: the written message is announced, the read
  // returns with the receiver's copy of what memory held, the requester is woken.
  function Observe(s: State, a: Action): seq<Event>
    requires Enabled(s, a)
  {
    match a
    case StoreNew => [Send(Image(s.req.msg))]
    case StoreAckSet => [Deliver(s.rcv.buf)]
    case Wake => [Acked]
    case _ => []
  }

  // Any write of an idle requester, and only those that keep the discipline.
  const UNDISCIPLINED: Machine<State, Action, Event> := Machine(Enabled, Next, Show)
  const DISCIPLINED: Machine<State, Action, Event> := Machine(Allowed, Next, Show)

  predicate Allowed(s: State, a: Action) { Enabled(s, a) && Orderly(s, a) }

  function Next(s: State, a: Action): State { if Enabled(s, a) then Do(s, a) else s }

  function Show(s: State, a: Action): seq<Event> { if Enabled(s, a) then Observe(s, a) else [] }

  // Who may touch the status word, and what everybody else is doing meanwhile.

  datatype Owner = SenderOwns | ReceiverOwns | AckerOwns

  predicate Writing(s: State) { s.req.Storing? || s.req.LoadingNew? || s.req.StoringNew? }

  function OwnerOf(s: State): Owner {
    if !s.busy || Writing(s) then SenderOwns
    else if s.status.isAck then AckerOwns
    else ReceiverOwns
  }

  predicate Inv(s: State) {
    && |s.data| == MSG_SIZE
    && match OwnerOf(s)
       case SenderOwns => SenderPhase(s)
       case ReceiverOwns => ReceiverPhase(s)
       case AckerOwns => AckerPhase(s)
  }

  predicate SenderPhase(s: State)
    requires |s.data| == MSG_SIZE
  {
    && !s.status.isNew && !s.status.isAck && s.acker.PollingAck? && s.rcv.PollingNew?
    && (s.busy <==> Writing(s))
    && (Writing(s) ==> |s.req.msg| <= MSG_SIZE && !s.woken)
    && (s.req.Waiting? ==> s.woken)
    && (s.req.Storing? ==> s.req.off < MSG_SIZE && s.data[..s.req.off] == Image(s.req.msg)[..s.req.off])
    && (s.req.LoadingNew? ==> s.data == Image(s.req.msg))
    && (s.req.StoringNew? ==> s.data == Image(s.req.msg) && s.req.raised == s.status.(isNew := true))
  }

  predicate ReceiverPhase(s: State)
    requires |s.data| == MSG_SIZE
  {
    && s.acker.PollingAck? && !s.woken
    && (s.status.isNew <==> !s.rcv.LoadingAckSet? && !s.rcv.StoringAckSet?)
    && (s.rcv.Reading? ==> |s.rcv.buf| < MSG_SIZE && |s.rcv.buf| % WORD_SIZE == 0
                           && s.rcv.buf == s.data[..|s.rcv.buf|])
    && (!s.rcv.PollingNew? && !s.rcv.Reading? ==> s.rcv.buf == s.data)
    && (s.rcv.StoringNewClear? ==> s.rcv.dropped == s.status.(isNew := false))
    && (s.rcv.StoringAckSet? ==> s.rcv.acked == s.status.(isAck := true))
  }

  // The ACK callback has woken the requester and not cleared ACK yet.
  predicate InAckCallback(s: State) { s.acker.LoadingAckClear? || s.acker.StoringAckClear? }

  predicate AckerPhase(s: State) {
    && s.rcv.PollingNew? && !s.status.isNew
    && (s.woken ==> InAckCallback(s))
    && (s.req.Waiting? && InAckCallback(s) ==> s.woken)
    && (s.acker.StoringAckClear? ==> s.acker.cleared == s.status.(isAck := false))
  }

  // What the region looks like as a one-slot channel.
  function Abs(s: State): Slot {
    match OwnerOf(s)
    case SenderOwns => Empty
    case ReceiverOwns => Full(s.data)
    case AckerOwns => if InAckCallback(s) then Empty else Taken
  }

  // The steps that only look, or that only concern the requesting task.
  predicate IsIdle(s: State, a: Action) {
    || a.Return? || a.Timeout?
    || (a.PollAck? && !s.status.isAck)
    || (a.PollNew? && !s.status.isNew)
  }

  // Steps left until the requester may write again.
  function Rank(s: State): nat {
    if !s.busy then 0
    else match s.req
    case Storing(msg, off) => 40 + if off < MSG_SIZE then MSG_SIZE - off else 0
    case LoadingNew(_) => 40
    case StoringNew(_, _) => 39
    case _ =>
      if s.status.isAck then
        match s.acker case PollingAck => 4 case Waking => 3 case LoadingAckClear => 2 case StoringAckClear(_) => 1
      else
        match s.rcv
        case PollingNew => 38
        case Reading(buf) => 10 + if |buf| < MSG_SIZE then (MSG_SIZE - |buf|) / WORD_SIZE else 0
        case LoadingNewClear(_) => 8
        case StoringNewClear(_, _) => 7
        case LoadingAckSet(_) => 6
        case StoringAckSet(_, _) => 5
  }

  // What one step must do: keep the ownership invariant, refine the one-slot
  // channel, leave the 30 unrelated status bits alone, and make progress unless
  // it is idle.
  predicate StepOk(s: State, a: Action)
    requires Enabled(s, a)
  {
    var s', t := Do(s, a), Observe(s, a);
    && Inv(s') && s'.status.rest == s.status.rest
    && (t == [] ==> Abs(s') == Abs(s))
    && (t != [] ==> CanDo(Abs(s), t[0]) && After(Abs(s), t[0]) == Abs(s'))
    && (!a.StartWrite? ==> if IsIdle(s, a) then Rank(s') == Rank(s) else Rank(s') < Rank(s))
  }

  lemma RequesterStep(s: State, a: Action)
    requires Inv(s) && Allowed(s, a)
    requires a.StartWrite? || a.StoreData? || a.LoadNew? || a.StoreNew? || a.Return? || a.Timeout?
    ensures StepOk(s, a)
  {
    if a.StoreData? {
      var img, next := Image(s.req.msg), s.req.off + StoreLength(s.req.msg, s.req.off);
      StoreExtends(s.data, img, s.req.off, StoreLength(s.req.msg, s.req.off));
      assert next == MSG_SIZE ==> img[..next] == img && Do(s, a).data[..next] == Do(s, a).data;
    }
  }

  lemma AckerStep(s: State, a: Action)
    requires Inv(s) && Enabled(s, a)
    requires a.PollAck? || a.Wake? || a.LoadAckClear? || a.StoreAckClear?
    ensures StepOk(s, a)
  {
  }

  lemma ReadStep(s: State, a: Action)
    requires Inv(s) && Enabled(s, a) && a.ReadWord?
    ensures StepOk(s, a)
  {
    var n := |s.rcv.buf|;
    assert s.data[..n + WORD_SIZE] == s.data[..n] + s.data[n..n + WORD_SIZE];
    assert s.data[..MSG_SIZE] == s.data;
  }

  lemma ReceiverStep(s: State, a: Action)
    requires Inv(s) && Enabled(s, a)
    requires a.PollNew? || a.LoadNewClear? || a.StoreNewClear? || a.LoadAckSet? || a.StoreAckSet?
    ensures StepOk(s, a)
  {
  }

  lemma Step(s: State, a: Action)
    requires Inv(s) && Allowed(s, a)
    ensures StepOk(s, a)
  {
    if a.PollAck? || a.Wake? || a.LoadAckClear? || a.StoreAckClear? {
      AckerStep(s, a);
    } else if a.StartWrite? || a.StoreData? || a.LoadNew? || a.StoreNew? || a.Return? || a.Timeout? {
      RequesterStep(s, a);
    } else if a.ReadWord? {
      ReadStep(s, a);
    } else {
      ReceiverStep(s, a);
    }
  }

  // Main results: what holds over every disciplined run from a quiet region.

  lemma Refines(s: State, a: Action)
    requires Inv(s) && Allowed(s, a)
    ensures RefinesAt(DISCIPLINED, Inv, Abs, s, a)
  {
    Step(s, a);
  }

  lemma RunRefines(s: State, acts: seq<Action>)
    requires Init(s) && Run(DISCIPLINED, s, acts)
    ensures Inv(Final(DISCIPLINED, s, acts))
    ensures IsTrace(Empty, Trace(DISCIPLINED, s, acts))
    ensures EndOf(Empty, Trace(DISCIPLINED, s, acts)) == Abs(Final(DISCIPLINED, s, acts))
  {
    forall x, a | Inv(x) && Allowed(x, a) ensures RefinesAt(DISCIPLINED, Inv, Abs, x, a) {
      Refines(x, a);
    }
    RunIsSlotTrace(DISCIPLINED, Inv, Abs, s, acts);
  }

  // Between the load and the store of a status update nobody else changes the
  // word, and at most one process is between the two: no update is lost, and the
  // 30 bits that carry no meaning keep their values.
  lemma NoUpdateLost(s: State, acts: seq<Action>)
    requires Init(s) && Run(DISCIPLINED, s, acts)
    ensures var f := Final(DISCIPLINED, s, acts);
            && (f.req.StoringNew? ==> f.req.raised == f.status.(isNew := true))
            && (f.acker.StoringAckClear? ==> f.acker.cleared == f.status.(isAck := false))
            && (f.rcv.StoringNewClear? ==> f.rcv.dropped == f.status.(isNew := false))
            && (f.rcv.StoringAckSet? ==> f.rcv.acked == f.status.(isAck := true))
            && !(f.req.StoringNew? && f.acker.StoringAckClear?)
            && !(f.req.StoringNew? && (f.rcv.StoringNewClear? || f.rcv.StoringAckSet?))
            && !(f.acker.StoringAckClear? && (f.rcv.StoringNewClear? || f.rcv.StoringAckSet?))
            && f.status.rest == s.status.rest
  {
    RunRefines(s, acts);
    var rest := s.status.rest;
    var inv := (x: State) => Inv(x) && x.status.rest == rest;
    forall x, a | inv(x) && Allowed(x, a) ensures inv(Next(x, a)) {
      Step(x, a);
    }
    Invariance(DISCIPLINED, inv, s, acts);
  }

  // The messages handed to link_shmem_write, as the images they should leave.
  function Requested(acts: seq<Action>): seq<seq<byte>> {
    if acts == [] then []
    else
      var a := acts[|acts| - 1];
      Requested(acts[..|acts| - 1]) + (if a.StartWrite? && |a.msg| <= MSG_SIZE then [Image(a.msg)] else [])
  }

  // The image of a write that has not been announced yet.
  function Unsent(s: State): seq<seq<byte>> {
    if Writing(s) && |s.req.msg| <= MSG_SIZE then [Image(s.req.msg)] else []
  }

  lemma StepRequests(s: State, a: Action)
    requires Inv(s) && Allowed(s, a)
    ensures if a.StartWrite? then Unsent(s) == [] && Unsent(Do(s, a)) == [Image(a.msg)] && Observe(s, a) == []
            else Unsent(s) == Sent(Observe(s, a)) + Unsent(Do(s, a))
  {
    var t := Observe(s, a);
    if t != [] {
      assert t[..|t| - 1] == [];
    }
  }

  lemma {:induction false} RequestsAreSent(s: State, acts: seq<Action>)
    requires Init(s) && Run(DISCIPLINED, s, acts)
    ensures Requested(acts) == Sent(Trace(DISCIPLINED, s, acts)) + Unsent(Final(DISCIPLINED, s, acts))
    decreases |acts|
  {
    if acts != [] {
      var before, a := acts[..|acts| - 1], acts[|acts| - 1];
      RequestsAreSent(s, before);
      RunRefines(s, before);
      var mid := Final(DISCIPLINED, s, before);
      StepRequests(mid, a);
      SentAppend(Trace(DISCIPLINED, s, before), Observe(mid, a));
    }
  }

  // Delivery: with words stored and loaded one by one, the receiver still gets
  // whole messages, in the order written, none twice, and the sender is never
  // more than one message ahead of its acknowledgements.
  lemma DeliveredInOrder(s: State, acts: seq<Action>)
    requires Init(s) && Run(DISCIPLINED, s, acts)
    ensures var t := Trace(DISCIPLINED, s, acts);
            && Delivered(t) <= Sent(t) <= Requested(acts)
            && AckCount(t) <= |Delivered(t)| <= |Sent(t)| <= AckCount(t) + 1
  {
    RunRefines(s, acts);
    RequestsAreSent(s, acts);
    Delivery(Trace(DISCIPLINED, s, acts));
  }

  // Who waits goes on exactly when the slot is free again, and can time out till then.
  lemma WaitEnds(s: State)
    requires Inv(s) && s.req.Waiting?
    ensures Enabled(s, Return) <==> Abs(s).Empty?
    ensures Enabled(s, Timeout) <==> !Abs(s).Empty?
    ensures forall a :: a in {Return, Timeout} && Enabled(s, a) ==> Do(s, a).req.Idle?
  {
  }

  lemma LagAtEnd(slot: Slot, t: seq<Event>)
    requires Lag(slot, Sent(t), Delivered(t), AckCount(t))
    ensures AckCount(t) + (if slot.Empty? then 0 else 1) == |Sent(t)|
  {
  }

  // So it goes on when its message has been acknowledged, and only then.
  lemma WaitEndsByAck(s: State, acts: seq<Action>)
    requires Init(s) && Run(DISCIPLINED, s, acts) && Final(DISCIPLINED, s, acts).req.Waiting?
    ensures var f, t := Final(DISCIPLINED, s, acts), Trace(DISCIPLINED, s, acts);
            && (Enabled(f, Return) <==> AckCount(t) == |Sent(t)|)
            && (Enabled(f, Timeout) <==> AckCount(t) + 1 == |Sent(t)|)
  {
    RunRefines(s, acts);
    TraceLag(Trace(DISCIPLINED, s, acts));
    LagAtEnd(Abs(Final(DISCIPLINED, s, acts)), Trace(DISCIPLINED, s, acts));
    WaitEnds(Final(DISCIPLINED, s, acts));
  }

  // Progress

  // The step that moves an exchange in flight forward.
  function Advance(s: State): Action {
    match s.req
    case Storing(_, _) => StoreData
    case LoadingNew(_) => LoadNew
    case StoringNew(_, _) => StoreNew
    case _ =>
      if s.status.isAck then
        match s.acker
        case PollingAck => PollAck
        case Waking => Wake
        case LoadingAckClear => LoadAckClear
        case StoringAckClear(_) => StoreAckClear
      else
        match s.rcv
        case PollingNew => PollNew
        case Reading(_) => ReadWord
        case LoadingNewClear(_) => LoadNewClear
        case StoringNewClear(_, _) => StoreNewClear
        case LoadingAckSet(_) => LoadAckSet
        case StoringAckSet(_, _) => StoreAckSet
  }

  // No deadlock: until the ACK callback has returned, some step that is not
  // idle is possible, and it brings the end closer.
  lemma CanAdvance(s: State)
    requires Inv(s) && s.busy
    ensures Allowed(s, Advance(s)) && !IsIdle(s, Advance(s)) && !Advance(s).StartWrite?
    ensures Rank(Do(s, Advance(s))) < Rank(s)
  {
    Step(s, Advance(s));
  }

  // No livelock: however the processes interleave, a write in flight takes at
  // most Rank(s) steps that are not idle before its ACK callback has returned.
  lemma ExchangeIsBounded(s: State, acts: seq<Action>)
    requires Inv(s) && Run(DISCIPLINED, s, acts)
    requires forall k :: 0 <= k < |acts| ==> !acts[k].StartWrite?
    ensures var f := Final(DISCIPLINED, s, acts);
            && Progress(DISCIPLINED, IsIdle, s, acts) + Rank(f) <= Rank(s)
            && (Progress(DISCIPLINED, IsIdle, s, acts) == Rank(s) ==> !f.busy)
  {
    var starts := (a: Action) => a.StartWrite?;
    forall x, a | Inv(x) && Allowed(x, a)
      ensures Inv(Next(x, a)) && (!starts(a) ==> ProgressesAt(DISCIPLINED, IsIdle, Rank, x, a))
    {
      Step(x, a);
    }
    ProgressIsBounded(DISCIPLINED, Inv, IsIdle, starts, Rank, s, acts);
    var f := Final(DISCIPLINED, s, acts);
    if f.busy {
      CanAdvance(f);
    }
  }

  // Every history of the one-slot channel

  ghost predicate Good(s: State, e: Event) {
    && Inv(s)
    && if Writing(s) then e == Send(Image(s.req.msg)) else CanDo(Abs(s), e)
  }

  function Toward(s: State, e: Event): Action {
    if s.busy then Advance(s)
    else if s.req.Waiting? then Return
    else StartWrite(if e.Send? then e.m else [])
  }

  function Distance(s: State, e: Event): nat {
    Rank(s) + if Writing(s) then 0 else if s.req.Waiting? then 300 else 200
  }

  lemma GoodIsDrivable(s: State, e: Event)
    requires Good(s, e)
    ensures Drivable(DISCIPLINED, Abs, Good, Toward, Distance, s, e)
  {
    var a := Toward(s, e);
    if s.busy {
      CanAdvance(s);
    }
    Step(s, a);
    if e.Send? && |e.m| == MSG_SIZE {
      assert Image(e.m) == e.m;
    }
  }

  // The link layer cannot tell a region from a one-slot channel, in either
  // direction: the histories of disciplined runs are exactly the channel's.
  lemma TracesAreSlotTraces(s: State, t: seq<Event>)
    requires Init(s)
    ensures IsTrace(Empty, t) <==> exists acts :: Run(DISCIPLINED, s, acts) && Trace(DISCIPLINED, s, acts) == t
  {
    forall x, a | Inv(x) && Allowed(x, a) ensures RefinesAt(DISCIPLINED, Inv, Abs, x, a) {
      Refines(x, a);
    }
    forall x, e | Good(x, e) ensures Drivable(DISCIPLINED, Abs, Good, Toward, Distance, x, e) {
      GoodIsDrivable(x, e);
    }
    HistoriesAreSlotHistories(DISCIPLINED, Inv, Abs, Good, Toward, Distance, s, t);
  }
}
