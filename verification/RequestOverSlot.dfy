// A client's link_request over one-slot channels to a server that replies at most once.
// The channel and the client's patience rule out most of what can go wrong with the one
// event bit; this is what remains.
module RequestOverSlot {
  import opened LinkRequest
  import opened Options
  import opened RequestWaits
  import opened Runs

  // A channel, messages left aside.
  datatype Way = Free | Announced | Acknowledged

  // The client, its channel to the server and the one back; `hand`: the server has the
  // request and may reply to it.
  datatype Pair = Pair(r: State, out: Way, hand: bool, back: Way)

  datatype Move = Client(a: Action) | Deliver | Ignore | Reply | ReplyAcked

  predicate Starts(c: Pair) {
    Init(c.r) && !c.r.pending && c.out.Free? && !c.hand && !c.back.Announced?
  }

  // Nothing under way in either direction.
  predicate Quiet(c: Pair) { c.out.Free? && !c.hand && !c.back.Announced? && Clean(c.r) }

  // What the channel, the discipline of writing and the client's patience ask of its
  // steps: a write begins when the previous one's ACK callback has returned, link_ack and
  // link_recv_reply run for what the channels hold, and the client stops waiting only if
  // nothing more will come.
  predicate Allows(c: Pair, a: Action) {
    match a
    case Call(kind) => kind.WithReply?
    case Reset => c.out.Free? && c.r.ack.NotRunning?
    case AckStore => c.out.Acknowledged?
    case ReplyStore(_) => c.back.Announced?
    case Timeout => c.r.req.WaitingReply? && Quiet(c)
    case _ => true
  }

  predicate Can(c: Pair, v: Move) {
    match v
    case Client(a) => Enabled(c.r, a) && Allows(c, a)
    case Deliver => c.out.Announced?
    case Ignore => c.hand
    case Reply => c.hand && c.back.Free?
    case ReplyAcked => c.back.Acknowledged?
  }

  function Moved(c: Pair, v: Move): Pair
    requires Can(c, v)
  {
    match v
    case Client(a) =>
      Pair(Do(c.r, a),
           if a.Write? && a.written > 0 then Announced else if a.AckStore? then Free else c.out,
           c.hand,
           if a.ReplyStore? then Acknowledged else c.back)
    case Deliver => c.(out := Acknowledged, hand := true)
    case Ignore => c.(hand := false)
    case Reply => c.(hand := false, back := Announced)
    case ReplyAcked => c.(back := Free)
  }

  function Goes(c: Pair, v: Move): Pair { if Can(c, v) then Moved(c, v) else c }

  function Shows(c: Pair, v: Move): seq<Event> { if v.Client? then Show(c.r, v.a) else [] }

  const COMPOSED: Machine<Pair, Move, Event> := Machine(Can, Goes, Shows)

  predicate AckSent(r: State) { r.txAcked && r.ack.NotRunning? }

  predicate ReplySent(r: State) { r.seen.replied && r.reply.NotRunning? }

  // A request under way: its ACK and its reply come once each.
  predicate Flight(c: Pair) {
    && (c.r.txAcked <==> c.out.Free?)
    && (!c.r.txAcked ==> c.r.ack.NotRunning?)
    && (!c.r.seen.replied ==> c.r.reply.NotRunning?)
    && (c.r.seen.replied ==> !c.hand && !c.out.Announced? && !c.back.Announced?)
    && (c.out.Announced? ==> !c.hand && !c.back.Announced?)
    && (c.hand ==> !c.back.Announced?)
  }

  // One event for each, and the first wait takes one of them, or both merged.
  predicate PairInv(c: Pair) {
    && Inv(c.r)
    && match c.r.req
       case Halted => true
       case WaitingAck(kind, _) =>
         kind.WithReply? && Flight(c) && (c.r.pending <==> AckSent(c.r) || ReplySent(c.r))
       case Checking(kind, _) => kind.WithReply? && Flight(c) && Taken(c.r)
       case WaitingReply => Flight(c) && Taken(c.r)
       case Entered(kind) => kind.WithReply? && Quiet(c)
       case Resetting(kind) => kind.WithReply? && Quiet(c)
       case WritingMsg(kind) => kind.WithReply? && Quiet(c) && !c.r.txAcked && !c.r.seen.replied
       case _ => Quiet(c)
  }

  predicate Taken(r: State) {
    (AckSent(r) || ReplySent(r)) && (r.pending ==> AckSent(r) && ReplySent(r))
  }

  lemma ServerMoves(c: Pair, v: Move)
    requires PairInv(c) && Can(c, v) && !v.Client?
    ensures PairInv(Moved(c, v))
  {
  }

  lemma CallbackMoves(c: Pair, v: Move)
    requires PairInv(c) && Can(c, v) && v.Client? && OfCallback(v.a)
    ensures PairInv(Moved(c, v))
  {
    StepKeepsInv(c.r, v.a);
  }

  lemma RequesterMoves(c: Pair, v: Move)
    requires PairInv(c) && Can(c, v) && v.Client? && !OfCallback(v.a)
    ensures PairInv(Moved(c, v))
  {
    StepKeepsInv(c.r, v.a);
  }

  lemma PairStep(c: Pair, v: Move)
    requires PairInv(c) && Can(c, v)
    ensures PairInv(Moved(c, v))
  {
    if !v.Client? {
      ServerMoves(c, v);
    } else if OfCallback(v.a) {
      CallbackMoves(c, v);
    } else {
      RequesterMoves(c, v);
    }
  }

  lemma PairRun(c: Pair, moves: seq<Move>)
    requires Starts(c) && Run(COMPOSED, c, moves)
    ensures PairInv(Final(COMPOSED, c, moves))
  {
    forall x, v | PairInv(x) && Can(x, v) ensures PairInv(Goes(x, v)) {
      PairStep(x, v);
    }
    Invariance(COMPOSED, PairInv, c, moves);
  }

  // The reply is read while its request's write is not acknowledged yet.
  predicate EarlyReply(c: Pair, v: Move) {
    v.Client? && v.a.ReplyStore? && Writing(c.r.req) && !c.r.txAcked
  }

  // What remains. In every run, nothing stale is around when a write begins and no
  // unanswered request is acked twice; the one step that can break the rules that keep
  // the assertion is a reply that is read before the ACK has been.
  lemma OnlyEarlyReplies(c: Pair, moves: seq<Move>, v: Move)
    requires Starts(c) && Run(COMPOSED, c, moves) && Can(Final(COMPOSED, c, moves), v) && v.Client?
    ensures var f := Final(COMPOSED, c, moves);
            && (v.a.Reset? ==> Clean(f.r)) && AckedOnce(f.r, v.a)
            && (Tight(f.r, v.a) <==> !EarlyReply(f, v))
  {
    PairRun(c, moves);
  }

  // Without early replies the assertion never fails, and every byte count a request
  // returns is that of a reply read in the call.

  const TIMELY: Machine<Pair, Move, Event> := Machine((c, v) => Can(c, v) && !EarlyReply(c, v), Goes, Shows)

  predicate TimelyInv(c: Pair) { PairInv(c) && OnceInv(c.r) }

  lemma TimelyStep(c: Pair, v: Move)
    requires TimelyInv(c) && Can(c, v) && !EarlyReply(c, v)
    ensures TimelyInv(Moved(c, v))
    ensures v.Client? ==> Tight(c.r, v.a) && AckedOnce(c.r, v.a)
  {
    PairStep(c, v);
    if v.Client? {
      OnceStep(c.r, v.a);
    }
  }

  lemma LogStep(c: Pair, v: Move, log: seq<Event>)
    requires TimelyInv(c) && Can(c, v) && !EarlyReply(c, v) && c.r.seen == Read(log) && CountsAreReplies(log)
    ensures Moved(c, v).r.seen == Read(log + Shows(c, v)) && CountsAreReplies(log + Shows(c, v))
  {
    if v.Client? && Emitted(c.r, v.a).Some? {
      CountsGrow(log, Emitted(c.r, v.a).value);
    } else {
      assert log + [] == log;
    }
  }

  lemma {:induction false} TimelyRequestsAreSound(c: Pair, moves: seq<Move>)
    requires Starts(c) && Run(TIMELY, c, moves)
    ensures var f, log := Final(TIMELY, c, moves), Trace(TIMELY, c, moves);
            TimelyInv(f) && f.r.seen == Read(log) && CountsAreReplies(log) && !f.r.req.Halted?
    decreases |moves|
  {
    if moves != [] {
      var before, v := moves[..|moves| - 1], moves[|moves| - 1];
      TimelyRequestsAreSound(c, before);
      var x, log := Final(TIMELY, c, before), Trace(TIMELY, c, before);
      TimelyStep(x, v);
      LogStep(x, v, log);
    }
  }

  // What can happen

  ghost predicate Shown(timely: bool, c: Pair, t: seq<Event>, x: Pair) {
    if timely then Reaches(TIMELY, c, t, x) else Reaches(COMPOSED, c, t, x)
  }

  lemma Then(timely: bool, c: Pair, t: seq<Event>, x: Pair, v: Move) returns (y: Pair)
    requires Shown(timely, c, t, x) && Can(x, v) && (timely ==> !EarlyReply(x, v))
    ensures Shown(timely, c, t + Shows(x, v), y) && y == Moved(x, v)
  {
    if timely {
      ReachesNext(TIMELY, c, t, x, v);
    } else {
      ReachesNext(COMPOSED, c, t, x, v);
    }
    y := Moved(x, v);
  }

  lemma Quietly(timely: bool, c: Pair, t: seq<Event>, x: Pair, v: Move) returns (y: Pair)
    requires Shown(timely, c, t, x) && Can(x, v) && (timely ==> !EarlyReply(x, v)) && Shows(x, v) == []
    ensures Shown(timely, c, t, y) && y == Moved(x, v)
  {
    y := Then(timely, c, t, x, v);
    assert t + [] == t;
  }

  lemma Calls(timely: bool, c: Pair) returns (x: Pair)
    requires Starts(c) && c.back.Free?
    ensures Shown(timely, c, [Called(WithReply), WriteBegan], x)
    ensures x == c.(r := c.r.(hasTid := true, txAcked := false, sizeRead := 0, req := WritingMsg(WithReply),
                              seen := BEGUN_SEEN.(written := None)))
  {
    ReachesSelf(TIMELY, c);
    ReachesSelf(COMPOSED, c);
    x := Then(timely, c, [], c, Client(Call(WithReply)));
    x := Quietly(timely, c, [Called(WithReply)], x, Client(SetTid));
    x := Then(timely, c, [Called(WithReply)], x, Client(Reset));
  }

  // The client has written its request and the server has read it.
  lemma Asked(timely: bool, c: Pair) returns (x: Pair)
    requires Starts(c) && c.back.Free?
    ensures Shown(timely, c, BEGUN, x)
    ensures x == Pair(c.r.(hasTid := true, txAcked := false, sizeRead := 0, req := WaitingAck(WithReply, 64),
                           seen := BEGUN_SEEN), Acknowledged, true, Free)
  {
    x := Calls(timely, c);
    x := Then(timely, c, [Called(WithReply), WriteBegan], x, Client(Write(64)));
    x := Quietly(timely, c, BEGUN, x, Deliver);
  }

  lemma AckArrives(timely: bool, c: Pair, t: seq<Event>, x: Pair) returns (y: Pair)
    requires Shown(timely, c, t, x)
    requires x.out.Acknowledged? && x.r.hasTid && !x.r.req.Halted? && x.r.ack.NotRunning?
    ensures Shown(timely, c, t + [AckRan], y)
    ensures y == x.(out := Free, r := x.r.(txAcked := true, pending := true, seen := Note(x.r.seen, AckRan)))
  {
    y := Then(timely, c, t, x, Client(AckStore));
    y := Quietly(timely, c, t + [AckRan], y, Client(AckCheck));
    y := Quietly(timely, c, t + [AckRan], y, Client(AckSend));
  }

  lemma ReplyArrives(timely: bool, c: Pair, t: seq<Event>, x: Pair, size: nat) returns (y: Pair)
    requires Shown(timely, c, t, x) && (timely ==> x.r.txAcked)
    requires x.hand && x.back.Free? && x.r.hasTid && !x.r.req.Halted? && x.r.reply.NotRunning?
    ensures Shown(timely, c, t + [ReplyRead(size)], y)
    ensures y == x.(hand := false, back := Acknowledged,
                    r := x.r.(sizeRead := size, pending := true, seen := Note(x.r.seen, ReplyRead(size))))
  {
    y := Quietly(timely, c, t, x, Reply);
    y := Then(timely, c, t, y, Client(ReplyStore(size)));
    y := Quietly(timely, c, t + [ReplyRead(size)], y, Client(ReplyCheck));
    y := Quietly(timely, c, t + [ReplyRead(size)], y, Client(ReplySend));
  }

  // The first wait takes the ACK's event.
  lemma AckTaken(timely: bool, c: Pair, t: seq<Event>, x: Pair) returns (y: Pair)
    requires Shown(timely, c, t, x)
    requires x.r.req.WaitingAck? && x.r.req.kind.WithReply? && x.r.pending && x.r.txAcked
    ensures Shown(timely, c, t + [AckWait(true)], y)
    ensures y == x.(r := x.r.(req := WaitingReply, pending := false, seen := Note(x.r.seen, AckWait(true))))
  {
    y := Then(timely, c, t, x, Client(TakeEvent));
    y := Quietly(timely, c, t + [AckWait(true)], y, Client(Assert));
  }

  // A request acknowledged and not dealt with yet by the server.
  lemma Acked(c: Pair) returns (t: seq<Event>, x: Pair)
    requires Starts(c) && c.back.Free?
    ensures t == BEGUN + [AckRan] + [AckWait(true)] && Shown(true, c, t, x)
    ensures x.r.req.WaitingReply? && x.r.hasTid && Clean(x.r) && x.out.Free? && x.hand && x.back.Free? && x.r.txAcked
  {
    x := Asked(true, c);
    x := AckArrives(true, c, BEGUN, x);
    x := AckTaken(true, c, BEGUN + [AckRan], x);
    t := BEGUN + [AckRan] + [AckWait(true)];
  }

  // Back where a call can begin, with nothing under way.
  predicate AtRest(x: Pair) { x.r.req.Outside? && Quiet(x) && x.back.Free? }

  // A request is answered, and everything is at rest again.
  lemma ExchangeCompletes(c: Pair, size: nat)
    requires Starts(c) && c.back.Free?
    ensures exists x :: AtRest(x) && Reaches(TIMELY, c, BEGUN + [AckRan] + [AckWait(true)] + [ReplyRead(size)]
                                             + [ReplyWait(true)] + [Returned(WithReply, size)], x)
  {
    var t, x := Acked(c);
    x := ReplyArrives(true, c, t, x, size);
    t := t + [ReplyRead(size)];
    x := Quietly(true, c, t, x, ReplyAcked);
    x := Then(true, c, t, x, Client(TakeEvent));
    t := t + [ReplyWait(true)];
    x := Then(true, c, t, x, Client(LoadSize));
    t := t + [Returned(WithReply, size)];
    x := Quietly(true, c, t, x, Client(Leave));
    assert Shown(true, c, t, x);
  }

  // One that the server does not answer times out, with the same end.
  lemma IgnoredRequestTimesOut(c: Pair)
    requires Starts(c) && c.back.Free?
    ensures exists x :: AtRest(x) && Reaches(TIMELY, c, BEGUN + [AckRan] + [AckWait(true)] + [ReplyWait(false)]
                                             + [Returned(WithReply, -2)], x)
  {
    var t, x := Acked(c);
    x := Quietly(true, c, t, x, Ignore);
    x := Then(true, c, t, x, Client(Timeout));
    t := t + [ReplyWait(false)];
    x := Then(true, c, t, x, Client(Fail));
    t := t + [Returned(WithReply, -2)];
    x := Quietly(true, c, t, x, Client(Leave));
    assert Shown(true, c, t, x);
  }

  // Two of the three failures remain, the assertion's and the merging of events

  lemma EarlyReplyHalts(c: Pair, size: nat)
    requires Starts(c) && c.back.Free?
    ensures exists t, x :: Reaches(COMPOSED, c, t, x) && x.r.req.Halted?
  {
    var x := Asked(false, c);
    var t := BEGUN;
    x := ReplyArrives(false, c, t, x, size);
    t := t + [ReplyRead(size)];
    x := Then(false, c, t, x, Client(TakeEvent));
    t := t + [AckWait(true)];
    x := Quietly(false, c, t, x, Client(Assert));
    assert Shown(false, c, t, x);
  }

  lemma MergedReplyIsLost(c: Pair, size: nat)
    requires Starts(c) && c.back.Free?
    ensures exists t, x :: Reaches(TIMELY, c, t, x) && Missed(x.r)
  {
    var x := Asked(true, c);
    var t := BEGUN;
    x := AckArrives(true, c, t, x);
    t := t + [AckRan];
    x := ReplyArrives(true, c, t, x, size);
    t := t + [ReplyRead(size)];
    x := AckTaken(true, c, t, x);
    assert Shown(true, c, t + [AckWait(true)], x);
  }
}
