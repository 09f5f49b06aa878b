// link_request and link_request_send against their callbacks: one task at a time
// calls them on a link, while link_ack and link_recv_reply may run at any moment,
// including late, for an exchange that timed out.
module LinkRequest {
  import opened Options
  import opened Runs

  // Which of the two functions the requesting task is in.
  datatype Kind = WithReply | SendOnly

  datatype Requester =
    | Outside
    | Entered(kind: Kind)                    // about to set tid_requester
    | Resetting(kind: Kind)                  // about to clear tx_acked
    | WritingMsg(kind: Kind)                 // in link->write
    | WaitingAck(kind: Kind, written: nat)   // in rtems_event_receive, first time
    | Checking(kind: Kind, written: nat)     // about to assert(tx_acked)
    | WaitingReply                           // in rtems_event_receive, second time
    | ReadingSize                            // about to load reply_sz_read
    | Failing(kind: Kind, result: int)       // nothing written, or a wait that timed out
    | Leaving                                // result fixed, about to clear tid_requester
    | Halted                                 // the assertion failed

  // Between the steps of link_ack and of link_recv_reply.
  datatype Callback = NotRunning | Stored | Sending

  // What happens on the link, as an observer would write it down. A wait is `taken` if an
  // event ended it, and not if it timed out.
  datatype Event =
    | Called(kind: Kind)                     // reply_sz_read cleared, for a request with reply
    | WriteBegan                             // tx_acked cleared, the write follows
    | Wrote(count: nat)                      // link->write returned
    | AckWait(taken: bool)                   // the first wait ended
    | ReplyWait(taken: bool)                 // the second wait ended
    | AckRan                                 // link_ack stored tx_acked
    | ReplyRead(size: nat)                   // link->read returned and reply_sz_read was stored
    | Returned(kind: Kind, result: int)      // the result is fixed

  // What the observer's notes add up to. Of the call under way: what the write returned,
  // how each wait ended, and the byte count of the last reply read. And whether link_ack
  // ran, and a reply was read, since the last write began.
  datatype Seen = Seen(call: Option<Kind>, written: Option<nat>, ackWait: Option<bool>, replyWait: Option<bool>,
                       reply: Option<nat>, acked: bool, replied: bool)

  function Note(seen: Seen, e: Event): Seen {
    match e
    case Called(kind) => Seen(Some(kind), None, None, None, None, seen.acked, seen.replied)
    case WriteBegan => seen.(acked := false, replied := false)
    case Wrote(count) => seen.(written := Some(count))
    case AckWait(taken) => seen.(ackWait := Some(taken))
    case ReplyWait(taken) => seen.(replyWait := Some(taken))
    case AckRan => seen.(acked := true)
    case ReplyRead(size) => seen.(replied := true, reply := Some(size))
    case Returned(_, _) => seen.(call := None)
  }

  const NOTHING: Seen := Seen(None, None, None, None, None, false, false)

  function Read(log: seq<Event>): Seen {
    if log == [] then NOTHING else Note(Read(log[..|log| - 1]), log[|log| - 1])
  }

  // The fields of rctx that carry the handshake, the requester's pending event, where
  // everybody is, and what has been seen so far.
  datatype State = State(hasTid: bool, txAcked: bool, sizeRead: nat, pending: bool,
                         req: Requester, ack: Callback, reply: Callback, seen: Seen)

  datatype Action =
    | Call(kind: Kind) | SetTid | Reset | Write(written: nat) | TakeEvent | Timeout | Assert | LoadSize | Fail | Leave
    | AckStore | AckCheck | AckSend
    | ReplyStore(size: nat) | ReplyCheck | ReplySend

  predicate Init(s: State) {
    !s.hasTid && !s.txAcked && s.req.Outside? && s.ack.NotRunning? && s.reply.NotRunning? && s.seen == Read([])
  }

  predicate Enabled(s: State, a: Action) {
    !s.req.Halted? &&
    match a
    case Call(_) => s.req.Outside?
    case SetTid => s.req.Entered?
    case Reset => s.req.Resetting?
    case Write(_) => s.req.WritingMsg?
    case TakeEvent => (s.req.WaitingAck? || s.req.WaitingReply?) && s.pending
    case Timeout => (s.req.WaitingAck? || s.req.WaitingReply?) && !s.pending
    case Assert => s.req.Checking?
    case LoadSize => s.req.ReadingSize?
    case Fail => s.req.Failing?
    case Leave => s.req.Leaving?
    case AckStore => s.ack.NotRunning?
    case AckCheck => s.ack.Stored?
    case AckSend => s.ack.Sending?
    case ReplyStore(_) => s.reply.NotRunning?
    case ReplyCheck => s.reply.Stored?
    case ReplySend => s.reply.Sending?
  }

  // Once nothing was written or the first wait timed out.
  function Unsent(kind: Kind): Requester { Failing(kind, if kind.SendOnly? then 0 else -1) }

  function Moved(s: State, a: Action): State
    requires Enabled(s, a)
  {
    match a
    case Call(kind) => s.(req := Entered(kind), sizeRead := if kind.WithReply? then 0 else s.sizeRead)
    case SetTid => s.(req := Resetting(s.req.kind), hasTid := true)
    case Reset => s.(req := WritingMsg(s.req.kind), txAcked := false)
    case Write(written) =>
      s.(req := if written == 0 then Unsent(s.req.kind) else WaitingAck(s.req.kind, written))
    case TakeEvent =>
      s.(pending := false, req := if s.req.WaitingAck? then Checking(s.req.kind, s.req.written) else ReadingSize)
    case Timeout => s.(req := if s.req.WaitingAck? then Unsent(s.req.kind) else Failing(WithReply, -2))
    case Assert => s.(req := if !s.txAcked then Halted else if s.req.kind.SendOnly? then Leaving else WaitingReply)
    case LoadSize => s.(req := Leaving)
    // a request whose send failed returns at once and leaves tid_requester set
    case Fail => s.(req := if s.req.result == -1 then Outside else Leaving)
    case Leave => s.(req := Outside, hasTid := false)
    case AckStore => s.(ack := Stored, txAcked := true)
    case AckCheck => s.(ack := if s.hasTid then Sending else NotRunning)
    case AckSend => s.(ack := NotRunning, pending := s.pending || s.hasTid)
    case ReplyStore(size) => s.(reply := Stored, sizeRead := size)
    case ReplyCheck => s.(reply := if s.hasTid then Sending else NotRunning)
    case ReplySend => s.(reply := NotRunning, pending := s.pending || s.hasTid)
  }

  // What a step adds to the log, if anything.
  function Emitted(s: State, a: Action): Option<Event>
    requires Enabled(s, a)
  {
    match a
    case Call(kind) => Some(Called(kind))
    case Reset => Some(WriteBegan)
    case Write(written) => Some(Wrote(written))
    case TakeEvent => Some(if s.req.WaitingAck? then AckWait(true) else ReplyWait(true))
    case Timeout => Some(if s.req.WaitingAck? then AckWait(false) else ReplyWait(false))
    case Assert => if s.txAcked && s.req.kind.SendOnly? then Some(Returned(SendOnly, s.req.written)) else None
    case LoadSize => Some(Returned(WithReply, s.sizeRead))
    case Fail => Some(Returned(s.req.kind, s.req.result))
    case AckStore => Some(AckRan)
    case ReplyStore(size) => Some(ReplyRead(size))
    case _ => None
  }

  function Do(s: State, a: Action): State
    requires Enabled(s, a)
  {
    var e := Emitted(s, a);
    Moved(s, a).(seen := if e.Some? then Note(s.seen, e.value) else s.seen)
  }

  function Next(s: State, a: Action): State { if Enabled(s, a) then Do(s, a) else s }

  function Show(s: State, a: Action): seq<Event> {
    if Enabled(s, a) && Emitted(s, a).Some? then [Emitted(s, a).value] else []
  }

  const SYSTEM: Machine<State, Action, Event> := Machine(Enabled, Next, Show)

  function SizeOf(reply: Option<nat>): nat { match reply case Some(n) => n case None => 0 }

  // The results a call may return after what was seen: each of the two failures exactly
  // for its reasons, and otherwise the count of the write or of the last reply read.
  predicate Justified(seen: Seen, kind: Kind, result: int) {
    && seen.call == Some(kind) && seen.written.Some?
    && match kind
       case SendOnly =>
         && result == (if seen.ackWait == Some(true) then seen.written.value else 0)
         && (result != 0 ==> seen.acked)
       case WithReply =>
         && (result == -1 <==> seen.written == Some(0) || seen.ackWait == Some(false))
         && (result == -2 <==> seen.replyWait == Some(false))
         && (seen.replyWait == Some(true) <==> result >= 0)
         && (seen.replyWait == Some(true) ==> result == SizeOf(seen.reply))
         && (result != -1 ==> seen.acked)
  }

  // What may be noted after what was seen: one call at a time, and in it one write, a
  // first wait only if something was written, a second one only for a request whose
  // first was ended by an event, and a justified result.
  predicate Fits(seen: Seen, e: Event) {
    match e
    case Called(_) => seen.call.None?
    case WriteBegan => seen.call.Some? && seen.written.None?
    case Wrote(_) => seen.call.Some? && seen.written.None?
    case AckWait(_) => SizeOf(seen.written) > 0 && seen.ackWait.None?
    case ReplyWait(_) => seen.call == Some(WithReply) && seen.ackWait == Some(true) && seen.replyWait.None?
    case AckRan => true
    case ReplyRead(_) => true
    case Returned(kind, result) => Justified(seen, kind, result)
  }

  predicate Writing(r: Requester) { r.WritingMsg? || r.WaitingAck? || r.Checking? }

  predicate PastAck(r: Requester) { r.WaitingReply? || r.ReadingSize? }

  // In a request with reply, before its result.
  predicate InRequest(r: Requester) {
    PastAck(r) || ((r.Entered? || r.Resetting? || Writing(r)) && r.kind.WithReply?)
  }

  // How far the call under way has come, by what was seen of it.
  predicate Noted(seen: Seen, r: Requester) {
    match r
    case Outside => seen.call.None?
    case Entered(kind) => seen == Seen(Some(kind), None, None, None, seen.reply, seen.acked, seen.replied)
    case Resetting(kind) => seen == Seen(Some(kind), None, None, None, seen.reply, seen.acked, seen.replied)
    case WritingMsg(kind) => seen == Seen(Some(kind), None, None, None, seen.reply, seen.acked, seen.replied)
    case WaitingAck(kind, n) =>
      n > 0 && seen == Seen(Some(kind), Some(n), None, None, seen.reply, seen.acked, seen.replied)
    case Checking(kind, n) =>
      n > 0 && seen == Seen(Some(kind), Some(n), Some(true), None, seen.reply, seen.acked, seen.replied)
    case WaitingReply => Sent(seen) && seen.replyWait.None?
    case ReadingSize => Sent(seen) && seen.replyWait == Some(true)
    case Failing(kind, result) => Justified(seen, kind, result) && result <= 0 && (kind.WithReply? ==> result < 0)
    case Leaving => seen.call.None?
    case Halted => true
  }

  // The first wait of a request was ended by an event.
  predicate Sent(seen: Seen) {
    seen.call == Some(WithReply) && SizeOf(seen.written) > 0 && seen.ackWait == Some(true) && seen.acked
  }

  // How the fields of rctx and the requester's position follow from what was seen.
  predicate Inv(s: State) {
    && Noted(s.seen, s.req)
    && (Writing(s.req) ==> s.txAcked == s.seen.acked)
    && (PastAck(s.req) ==> s.txAcked)
    && (InRequest(s.req) ==> s.sizeRead == SizeOf(s.seen.reply))
    && (s.req.Resetting? || Writing(s.req) || PastAck(s.req) || s.req.Failing? ==> s.hasTid)
  }

  predicate NoteFits(s: State, a: Action)
    requires Enabled(s, a)
  {
    Emitted(s, a).Some? ==> Fits(s.seen, Emitted(s, a).value)
  }

  predicate OfCallback(a: Action) {
    a.AckStore? || a.AckCheck? || a.AckSend? || a.ReplyStore? || a.ReplyCheck? || a.ReplySend?
  }

  lemma CallbackStep(s: State, a: Action)
    requires Inv(s) && Enabled(s, a) && OfCallback(a)
    ensures Inv(Do(s, a)) && NoteFits(s, a)
  {
  }

  predicate OfWait(a: Action) { a.TakeEvent? || a.Timeout? || a.Assert? || a.LoadSize? }

  lemma WaitStep(s: State, a: Action)
    requires Inv(s) && Enabled(s, a) && OfWait(a)
    ensures Inv(Do(s, a)) && NoteFits(s, a)
  {
  }

  lemma CallStep(s: State, a: Action)
    requires Inv(s) && Enabled(s, a) && !OfCallback(a) && !OfWait(a)
    ensures Inv(Do(s, a)) && NoteFits(s, a)
  {
  }

  lemma StepKeepsInv(s: State, a: Action)
    requires Inv(s) && Enabled(s, a)
    ensures Inv(Do(s, a)) && NoteFits(s, a)
  {
    if OfCallback(a) { CallbackStep(s, a); } else if OfWait(a) { WaitStep(s, a); } else { CallStep(s, a); }
  }

  predicate WellFormed(log: seq<Event>) {
    forall i :: 0 <= i < |log| ==> Fits(Read(log[..i]), log[i])
  }

  lemma LogGrows(log: seq<Event>, e: Event)
    requires WellFormed(log) && Fits(Read(log), e)
    ensures WellFormed(log + [e]) && Read(log + [e]) == Note(Read(log), e)
  {
    var more := log + [e];
    assert more[..|log|] == log;
    forall i | 0 <= i < |more| ensures Fits(Read(more[..i]), more[i]) {
      if i < |log| {
        assert more[..i] == log[..i];
      }
    }
  }

  // In every run, whatever callbacks run when: every result a call returns is
  // the one that follows from what happened since that call began.
  lemma {:induction false} ResultsAreJustified(s: State, acts: seq<Action>)
    requires Init(s) && Run(SYSTEM, s, acts)
    ensures var f, log := Final(SYSTEM, s, acts), Trace(SYSTEM, s, acts);
            Inv(f) && f.seen == Read(log) && WellFormed(log)
    decreases |acts|
  {
    if acts != [] {
      var before, a := acts[..|acts| - 1], acts[|acts| - 1];
      ResultsAreJustified(s, before);
      var x, log := Final(SYSTEM, s, before), Trace(SYSTEM, s, before);
      StepKeepsInv(x, a);
      if Emitted(x, a).Some? {
        LogGrows(log, Emitted(x, a).value);
      } else {
        assert log + [] == log;
      }
    }
  }

  // The requester's steps until its call is over.
  function StepsLeft(r: Requester): nat {
    match r
    case Outside => 0
    case Entered(_) => 9
    case Resetting(_) => 8
    case WritingMsg(_) => 7
    case WaitingAck(_, _) => 6
    case Checking(_, _) => 5
    case WaitingReply => 4
    case ReadingSize => 3
    case Failing(_, _) => 2
    case Leaving => 1
    case Halted => 0
  }

  // Each step a call makes brings its end closer, and no callback moves it away.
  lemma CallEnds(s: State, a: Action)
    requires Enabled(s, a) && !a.Call?
    ensures if OfCallback(a) then Do(s, a).req == s.req else StepsLeft(Do(s, a).req) < StepsLeft(s.req)
  {
  }

  // And it can always go on, unless the assertion has failed.
  lemma CallGoesOn(s: State) returns (a: Action)
    requires !s.req.Outside? && !s.req.Halted?
    ensures Enabled(s, a) && !OfCallback(a) && !a.Call?
  {
    match s.req
    case Entered(_) => a := SetTid;
    case Resetting(_) => a := Reset;
    case WritingMsg(_) => a := Write(0);
    case WaitingAck(_, _) => a := if s.pending then TakeEvent else Timeout;
    case Checking(_, _) => a := Assert;
    case WaitingReply => a := if s.pending then TakeEvent else Timeout;
    case ReadingSize => a := LoadSize;
    case Failing(_, _) => a := Fail;
    case Leaving => a := Leave;
  }

  // After every call but a request whose send failed, tid_requester is clear
  // again; after that one it stays set while nobody waits.
  lemma TidAfterCall(s: State, a: Action)
    requires Inv(s) && Enabled(s, a) && !s.req.Outside? && Do(s, a).req.Outside?
    ensures if a.Leave? then !Do(s, a).hasTid
            else Do(s, a).hasTid && Emitted(s, a) == Some(Returned(WithReply, -1))
  {
  }
}
