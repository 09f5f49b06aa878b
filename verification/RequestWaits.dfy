// One event bit serves ACK and reply. Three things can go wrong with it; for each, the
// steps that must not happen, and that each of them can really bring it about.
module RequestWaits {
  import opened LinkRequest
  import opened Options
  import opened Runs

  // No event pending, no callback between its steps.
  predicate Clean(s: State) { !s.pending && s.ack.NotRunning? && s.reply.NotRunning? }

  predicate FirstWait(r: Requester) { r.WritingMsg? || r.WaitingAck? }

  // The assertion

  // Nothing stale when a write begins, and no reply read before its write is acked.
  predicate Tight(s: State, a: Action) {
    && (a.Reset? ==> Clean(s))
    && (a.ReplyStore? ==> !(Writing(s.req) && !s.txAcked))
  }

  const TIGHT: Machine<State, Action, Event> := Machine((s, a) => Enabled(s, a) && Tight(s, a), Next, Show)

  // The assertion has failed, or some event can end the first wait without an ACK.
  predicate AtRisk(s: State) {
    || s.req.Halted?
    || (s.req.Checking? && !s.txAcked)
    || (FirstWait(s.req) && !s.txAcked && !Clean(s))
  }

  // The steps ruled out are exactly those that bring the risk about.
  lemma RiskStartsLoose(s: State, a: Action)
    requires !AtRisk(s) && Enabled(s, a)
    ensures AtRisk(Do(s, a)) <==> !Tight(s, a)
  {
  }

  predicate TightInv(s: State) { Inv(s) && !AtRisk(s) }

  lemma TightRun(s: State, acts: seq<Action>)
    requires Init(s) && Run(TIGHT, s, acts)
    ensures TightInv(Final(TIGHT, s, acts))
  {
    forall x, a | TightInv(x) && Enabled(x, a) && Tight(x, a) ensures TightInv(Next(x, a)) {
      StepKeepsInv(x, a);
      RiskStartsLoose(x, a);
    }
    Invariance(TIGHT, TightInv, s, acts);
  }

  // Without them assert(tx_acked) never fails.
  lemma AssertionHolds(s: State, acts: seq<Action>)
    requires Init(s) && Run(TIGHT, s, acts)
    ensures !Final(TIGHT, s, acts).req.Halted?
  {
    TightRun(s, acts);
  }

  // Some run of `m` leads from `s` to `x` and notes nothing but `t`.
  ghost predicate Can(tight: bool, s: State, t: seq<Event>, x: State) {
    if tight then Reaches(TIGHT, s, t, x) else Reaches(SYSTEM, s, t, x)
  }

  lemma Stay(tight: bool, s: State)
    ensures Can(tight, s, [], s)
  {
    ReachesSelf(TIGHT, s);
    ReachesSelf(SYSTEM, s);
  }

  lemma Then(tight: bool, s: State, t: seq<Event>, x: State, a: Action) returns (y: State)
    requires Can(tight, s, t, x) && Enabled(x, a) && (tight ==> Tight(x, a))
    ensures Can(tight, s, t + Show(x, a), y) && y == Do(x, a)
  {
    if tight {
      ReachesNext(TIGHT, s, t, x, a);
    } else {
      ReachesNext(SYSTEM, s, t, x, a);
    }
    y := Do(x, a);
  }

  lemma Quietly(tight: bool, s: State, t: seq<Event>, x: State, a: Action) returns (y: State)
    requires Can(tight, s, t, x) && Enabled(x, a) && (tight ==> Tight(x, a)) && Emitted(x, a).None?
    ensures Can(tight, s, t, y) && y == Do(x, a)
  {
    y := Then(tight, s, t, x, a);
    assert t + [] == t;
  }

  // Nothing noted but the requester's own progress to and through its waits.
  predicate OnlyWaits(t: seq<Event>) {
    forall i :: 0 <= i < |t| ==> t[i].Wrote? || t[i].AckWait? || t[i].ReplyWait?
  }

  // A write still under way is completed, and the first wait takes its event.
  lemma TakeFirst(tight: bool, s: State, x: State) returns (t: seq<Event>, y: State)
    requires Can(tight, s, [], x) && FirstWait(x.req) && x.pending && (x.req.WaitingAck? ==> x.req.written > 0)
    ensures Can(tight, s, t, y) && OnlyWaits(t)
    ensures y.req.Checking? && y.req == Checking(x.req.kind, y.req.written) && y.req.written > 0
    ensures y == x.(req := y.req, pending := false, seen := y.seen)
    ensures y.seen == x.seen.(written := y.seen.written, ackWait := y.seen.ackWait)
  {
    t, y := [], x;
    if y.req.WritingMsg? {
      y := Then(tight, s, t, y, Write(1));
      t := t + [Wrote(1)];
    }
    y := Then(tight, s, t, y, TakeEvent);
    t := t + [AckWait(true)];
  }

  // A callback that has stored its result goes on to send its event.
  lemma FinishAck(tight: bool, s: State, t: seq<Event>, x: State) returns (y: State)
    requires Can(tight, s, t, x) && x.hasTid && !x.req.Halted? && !x.ack.NotRunning?
    ensures Can(tight, s, t, y) && y == x.(ack := NotRunning, pending := true)
  {
    y := x;
    if x.ack.Stored? {
      y := Quietly(tight, s, t, x, AckCheck);
    }
    y := Quietly(tight, s, t, y, AckSend);
  }

  lemma FinishReply(tight: bool, s: State, t: seq<Event>, x: State) returns (y: State)
    requires Can(tight, s, t, x) && x.hasTid && !x.req.Halted? && !x.reply.NotRunning?
    ensures Can(tight, s, t, y) && y == x.(reply := NotRunning, pending := true)
  {
    y := x;
    if x.reply.Stored? {
      y := Quietly(tight, s, t, x, ReplyCheck);
    }
    y := Quietly(tight, s, t, y, ReplySend);
  }

  ghost predicate CanHalt(s: State) { exists t, y :: Reaches(SYSTEM, s, t, y) && OnlyWaits(t) && y.req.Halted? }

  // And from every state at risk the assertion can fail.
  lemma RiskCanHalt(s: State)
    requires Inv(s) && AtRisk(s)
    ensures CanHalt(s)
  {
    Stay(false, s);
    var t, x := [], s;
    if FirstWait(x.req) {
      if !x.ack.NotRunning? {
        x := FinishAck(false, s, [], x);
      } else if !x.reply.NotRunning? {
        x := FinishReply(false, s, [], x);
      }
      t, x := TakeFirst(false, s, x);
    }
    if x.req.Checking? {
      x := Quietly(false, s, t, x, Assert);
    }
    assert Reaches(SYSTEM, s, t, x);
  }

  // So the rule is exact: after a run that keeps it, each step that breaks it can be
  // followed by the assertion's failure.
  lemma LooseStepCanHalt(s: State, acts: seq<Action>, a: Action)
    requires Init(s) && Run(TIGHT, s, acts)
    requires var f := Final(TIGHT, s, acts); Enabled(f, a) && !Tight(f, a)
    ensures CanHalt(Do(Final(TIGHT, s, acts), a))
  {
    TightRun(s, acts);
    var f := Final(TIGHT, s, acts);
    StepKeepsInv(f, a);
    RiskStartsLoose(f, a);
    RiskCanHalt(Do(f, a));
  }

  // An ACK taken for the reply

  // A request with reply whose write has begun and which has no reply yet.
  predicate Unanswered(s: State) {
    (PastAck(s.req) || (Writing(s.req) && s.req.kind.WithReply?)) && s.seen.reply.None?
  }

  // While a request is unanswered link_ack runs for it only once.
  predicate AckedOnce(s: State, a: Action) { a.AckStore? ==> !(Unanswered(s) && s.txAcked) }

  const ONCE: Machine<State, Action, Event> :=
    Machine((s, a) => Enabled(s, a) && Tight(s, a) && AckedOnce(s, a), Next, Show)

  // Then its one event is the ACK's, and it is used up by the first wait.
  predicate OnceInv(s: State) {
    && TightInv(s)
    && (Unanswered(s) ==>
          && s.reply.NotRunning?
          && (FirstWait(s.req) && s.txAcked ==> s.pending == s.ack.NotRunning?)
          && (s.req.Checking? || s.req.WaitingReply? ==> Clean(s))
          && !s.req.ReadingSize?)
  }

  lemma OnceStep(s: State, a: Action)
    requires OnceInv(s) && Enabled(s, a) && Tight(s, a) && AckedOnce(s, a)
    ensures OnceInv(Do(s, a))
  {
    StepKeepsInv(s, a);
    RiskStartsLoose(s, a);
    if OfCallback(a) { OnceCallback(s, a); } else { OnceRequester(s, a); }
  }

  lemma OnceCallback(s: State, a: Action)
    requires OnceInv(s) && Enabled(s, a) && Tight(s, a) && AckedOnce(s, a) && OfCallback(a) && TightInv(Do(s, a))
    ensures OnceInv(Do(s, a))
  {
  }

  lemma OnceRequester(s: State, a: Action)
    requires OnceInv(s) && Enabled(s, a) && Tight(s, a) && !OfCallback(a) && TightInv(Do(s, a))
    ensures OnceInv(Do(s, a))
  {
  }

  // A request's result is a byte count only if a reply of that many bytes was read.
  predicate CountsAreReplies(log: seq<Event>) {
    forall i :: 0 <= i < |log| && log[i].Returned? && log[i].kind.WithReply? && log[i].result >= 0 ==>
      Read(log[..i]).reply == Some(log[i].result)
  }

  lemma CountsGrow(log: seq<Event>, e: Event)
    requires CountsAreReplies(log)
    requires e.Returned? && e.kind.WithReply? && e.result >= 0 ==> Read(log).reply == Some(e.result)
    ensures CountsAreReplies(log + [e]) && Read(log + [e]) == Note(Read(log), e)
  {
    var more := log + [e];
    assert more[..|log|] == log;
    forall i | 0 <= i < |more| && more[i].Returned? && more[i].kind.WithReply? && more[i].result >= 0
      ensures Read(more[..i]).reply == Some(more[i].result)
    {
      if i < |log| {
        assert more[..i] == log[..i];
      }
    }
  }

  lemma {:induction false} ZeroMeansEmptyReply(s: State, acts: seq<Action>)
    requires Init(s) && Run(ONCE, s, acts)
    ensures var f, log := Final(ONCE, s, acts), Trace(ONCE, s, acts);
            OnceInv(f) && f.seen == Read(log) && CountsAreReplies(log)
    decreases |acts|
  {
    if acts != [] {
      var before, a := acts[..|acts| - 1], acts[|acts| - 1];
      ZeroMeansEmptyReply(s, before);
      var x, log := Final(ONCE, s, before), Trace(ONCE, s, before);
      OnceStep(x, a);
      if Emitted(x, a).Some? {
        CountsGrow(log, Emitted(x, a).value);
      } else {
        assert log + [] == log;
      }
    }
  }

  ghost predicate CanReturnZero(s: State) {
    exists t, y :: Reaches(TIGHT, s, t + [Returned(WithReply, 0)], y) && OnlyWaits(t)
  }

  // Exactly then: a second ACK for an unanswered request can be taken for its reply.
  lemma SecondAckCanBeTaken(s: State, acts: seq<Action>)
    requires Init(s) && Run(ONCE, s, acts)
    requires var f := Final(ONCE, s, acts); Enabled(f, AckStore) && !AckedOnce(f, AckStore)
    ensures var y := Do(Final(ONCE, s, acts), AckStore);
            y.seen.reply.None? && CanReturnZero(y)
  {
    ZeroMeansEmptyReply(s, acts);
    var f := Final(ONCE, s, acts);
    var y := Do(f, AckStore);
    StepKeepsInv(f, AckStore);
    TakenForReply(y);
  }

  lemma TakenForReply(y: State)
    requires Inv(y) && !y.ack.NotRunning? && y.txAcked && Unanswered(y) && !y.req.ReadingSize?
    requires FirstWait(y.req) ==> y.pending
    ensures CanReturnZero(y)
  {
    Stay(true, y);
    var t, x := [], y;
    if FirstWait(x.req) {
      t, x := TakeFirst(true, y, x);
    }
    if x.req.Checking? {
      x := Quietly(true, y, t, x, Assert);
    }
    x := FinishAck(true, y, t, x);
    x := Then(true, y, t, x, TakeEvent);
    t := t + [ReplyWait(true)];
    x := Then(true, y, t, x, LoadSize);
    assert Reaches(TIGHT, y, t + [Returned(WithReply, 0)], x);
  }

  // A reply that is missed

  // The requester waits for a reply that has been read, and no event will come.
  predicate Missed(s: State) { s.req.WaitingReply? && s.seen.replied && Clean(s) }

  // Since the last take, or the start of the write, some callback sent its event.
  predicate SentSinceTake(acts: seq<Action>) {
    acts != [] &&
    match acts[|acts| - 1]
    case AckSend => true
    case ReplySend => true
    case TakeEvent => false
    case Reset => false
    case _ => SentSinceTake(acts[..|acts| - 1])
  }

  predicate Waiting(r: Requester) { Writing(r) || PastAck(r) }

  lemma {:induction false} PendingIsSent(s: State, acts: seq<Action>)
    requires Init(s) && Run(TIGHT, s, acts)
    ensures var f := Final(TIGHT, s, acts);
            Inv(f) && (Waiting(f.req) ==> f.pending == SentSinceTake(acts))
    decreases |acts|
  {
    TightRun(s, acts);
    if acts != [] {
      var before := acts[..|acts| - 1];
      PendingIsSent(s, before);
      TightRun(s, before);
    }
  }

  // So a wait is ended by an event if some callback sent one since, and can time out if
  // none did.
  lemma WaitEndsByEvent(s: State, acts: seq<Action>)
    requires Init(s) && Run(TIGHT, s, acts)
    ensures var f := Final(TIGHT, s, acts);
            f.req.WaitingAck? || f.req.WaitingReply? ==>
              && (Enabled(f, TakeEvent) <==> SentSinceTake(acts))
              && (Enabled(f, Timeout) <==> !SentSinceTake(acts))
  {
    PendingIsSent(s, acts);
  }

  // When both callbacks are done, a reply is missed exactly if every event they sent
  // came before the take that ended the first wait.
  lemma MissedExactly(s: State, acts: seq<Action>)
    requires Init(s) && Run(TIGHT, s, acts)
    ensures var f := Final(TIGHT, s, acts);
            f.req.WaitingReply? && f.seen.replied && f.ack.NotRunning? && f.reply.NotRunning? ==>
              (Missed(f) <==> !SentSinceTake(acts))
  {
    PendingIsSent(s, acts);
  }

  // An event that merges with the only other one there is, before the first wait ends.
  predicate Merges(s: State, a: Action) {
    && FirstWait(s.req) && s.req.kind.WithReply? && s.seen.replied && s.pending
    && ((a.AckSend? && s.reply.NotRunning?) || (a.ReplySend? && s.ack.NotRunning?))
  }

  const SEPARATED: Machine<State, Action, Event> :=
    Machine((s, a) => Enabled(s, a) && Tight(s, a) && !Merges(s, a), Next, Show)

  // The events that are pending or about to be sent.
  function Sources(s: State): nat {
    (if s.pending then 1 else 0) + (if s.ack.NotRunning? then 0 else 1) + (if s.reply.NotRunning? then 0 else 1)
  }

  // One for the ACK and one for the reply, until the first wait takes one.
  predicate SeparatedInv(s: State) {
    && TightInv(s)
    && (FirstWait(s.req) && s.req.kind.WithReply? ==>
          && (s.txAcked ==> Sources(s) >= 1)
          && (s.seen.replied ==> s.txAcked && Sources(s) >= 2)
          && (!s.reply.NotRunning? ==> s.seen.replied))
    && (s.req.Checking? && s.req.kind.WithReply? && s.seen.replied ==> Sources(s) >= 1)
    && (s.req.WaitingReply? && s.seen.replied ==> Sources(s) >= 1)
  }

  lemma SeparatedCallback(s: State, a: Action)
    requires SeparatedInv(s) && Enabled(s, a) && Tight(s, a) && !Merges(s, a) && OfCallback(a) && TightInv(Do(s, a))
    ensures SeparatedInv(Do(s, a))
  {
  }

  lemma SeparatedRequester(s: State, a: Action)
    requires SeparatedInv(s) && Enabled(s, a) && Tight(s, a) && !OfCallback(a) && TightInv(Do(s, a))
    ensures SeparatedInv(Do(s, a))
  {
  }

  lemma SeparatedRun(s: State, acts: seq<Action>)
    requires Init(s) && Run(SEPARATED, s, acts)
    ensures SeparatedInv(Final(SEPARATED, s, acts))
  {
    forall x, a | SeparatedInv(x) && Enabled(x, a) && Tight(x, a) && !Merges(x, a) ensures SeparatedInv(Next(x, a)) {
      StepKeepsInv(x, a);
      RiskStartsLoose(x, a);
      if OfCallback(a) { SeparatedCallback(x, a); } else { SeparatedRequester(x, a); }
    }
    Invariance(SEPARATED, SeparatedInv, s, acts);
  }

  // Without such a step no reply is missed.
  lemma ReplyIsNoticed(s: State, acts: seq<Action>)
    requires Init(s) && Run(SEPARATED, s, acts)
    ensures !Missed(Final(SEPARATED, s, acts))
  {
    SeparatedRun(s, acts);
  }

  ghost predicate CanMiss(s: State) { exists t, y :: Reaches(TIGHT, s, t, y) && OnlyWaits(t) && Missed(y) }

  // And each such step can lead to a reply that is missed: the rule is exact.
  lemma MergingStepCanMiss(s: State, acts: seq<Action>, a: Action)
    requires Init(s) && Run(SEPARATED, s, acts)
    requires var f := Final(SEPARATED, s, acts); Enabled(f, a) && Tight(f, a) && Merges(f, a)
    ensures CanMiss(Do(Final(SEPARATED, s, acts), a))
  {
    SeparatedRun(s, acts);
    var f := Final(SEPARATED, s, acts);
    var y := Do(f, a);
    StepKeepsInv(f, a);
    Stay(true, y);
    var t, x := TakeFirst(true, y, y);
    x := Quietly(true, y, t, x, Assert);
    assert Reaches(TIGHT, y, t, x) && Missed(x);
  }

  // What each of the three looks like from the outside

  const BEGUN: seq<Event> := [Called(WithReply), WriteBegan, Wrote(64)]
  const BEGUN_SEEN: Seen := Seen(Some(WithReply), Some(64), None, None, None, false, false)

  // A request is called and its message written.
  lemma Begin(tight: bool, s: State) returns (x: State)
    requires Init(s) && (tight ==> !s.pending)
    ensures Can(tight, s, BEGUN, x)
    ensures x == s.(hasTid := true, txAcked := false, sizeRead := 0, req := WaitingAck(WithReply, 64),
                    seen := BEGUN_SEEN)
  {
    Stay(tight, s);
    x := Then(tight, s, [], s, Call(WithReply));
    x := Quietly(tight, s, [Called(WithReply)], x, SetTid);
    x := Then(tight, s, [Called(WithReply)], x, Reset);
    x := Then(tight, s, [Called(WithReply), WriteBegan], x, Write(64));
  }

  // link_ack and link_recv_reply, from start to end.

  lemma RunAck(tight: bool, s: State, t: seq<Event>, x: State) returns (y: State)
    requires Can(tight, s, t, x) && x.hasTid && !x.req.Halted? && x.ack.NotRunning?
    ensures Can(tight, s, t + [AckRan], y)
    ensures y == x.(txAcked := true, pending := true, seen := Note(x.seen, AckRan))
  {
    y := Then(tight, s, t, x, AckStore);
    y := FinishAck(tight, s, t + [AckRan], y);
  }

  lemma RunReply(tight: bool, s: State, t: seq<Event>, x: State, size: nat) returns (y: State)
    requires Can(tight, s, t, x) && x.hasTid && !x.req.Halted? && x.reply.NotRunning? && (tight ==> x.txAcked)
    ensures Can(tight, s, t + [ReplyRead(size)], y)
    ensures y == x.(sizeRead := size, pending := true, seen := Note(x.seen, ReplyRead(size)))
  {
    y := Then(tight, s, t, x, ReplyStore(size));
    y := FinishReply(tight, s, t + [ReplyRead(size)], y);
  }

  // Both callbacks run before the requester gets to its first wait and the two
  // events merge: the request reports a timeout although the whole reply was read
  // before the requester even started to wait for it.
  lemma MergedReplyIsMissed(s: State, size: nat)
    requires Init(s) && !s.pending
    ensures exists x :: Reaches(TIGHT, s, BEGUN + [AckRan] + [ReplyRead(size)] + [AckWait(true)] + [ReplyWait(false)]
                                          + [Returned(WithReply, -2)], x)
  {
    var x := Begin(true, s);
    var t := BEGUN;
    x := RunAck(true, s, t, x);
    t := t + [AckRan];
    x := RunReply(true, s, t, x, size);
    t := t + [ReplyRead(size)];
    x := Then(true, s, t, x, TakeEvent);
    t := t + [AckWait(true)];
    x := Quietly(true, s, t, x, Assert);
    x := Then(true, s, t, x, Timeout);
    t := t + [ReplyWait(false)];
    x := Then(true, s, t, x, Fail);
  }

  // A leftover event ends the first wait, the ACK's own event the second: the
  // request returns 0 although no reply was read at all.
  lemma AckTakenForReply(s: State)
    requires Init(s) && s.pending
    ensures exists x :: Reaches(SYSTEM, s, BEGUN + [AckWait(true)] + [AckRan] + [ReplyWait(true)]
                                           + [Returned(WithReply, 0)], x)
  {
    var x := Begin(false, s);
    var t := BEGUN;
    x := Then(false, s, t, x, TakeEvent);
    t := t + [AckWait(true)];
    x := RunAck(false, s, t, x);
    t := t + [AckRan];
    x := Quietly(false, s, t, x, Assert);
    x := Then(false, s, t, x, TakeEvent);
    t := t + [ReplyWait(true)];
    x := Then(false, s, t, x, LoadSize);
  }

  // The reply's poller runs before the ACK's: the assertion fails.
  lemma ReplyBeforeAckHalts(s: State, size: nat)
    requires Init(s)
    ensures exists x :: Reaches(SYSTEM, s, BEGUN + [ReplyRead(size)] + [AckWait(true)], x) && x.req.Halted?
  {
    var x := Begin(false, s);
    var t := BEGUN;
    x := RunReply(false, s, t, x, size);
    t := t + [ReplyRead(size)];
    x := Then(false, s, t, x, TakeEvent);
    t := t + [AckWait(true)];
    x := Quietly(false, s, t, x, Assert);
  }
}
