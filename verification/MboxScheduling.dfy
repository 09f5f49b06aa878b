// Where the discipline of the mailbox protocol comes from: the ACK interrupt runs to its
// end before the requester does, and a timed-out message is not followed by another.
module MboxScheduling {
  import opened Runs
  import opened SlotChannel
  import opened MboxProtocol

  // The protocol's state, and whether the requester's last wait ended with a timeout.
  datatype Timed = Timed(s: State, timedOut: bool)

  predicate OfRequester(a: Action) {
    a.StartWrite? || a.StoreReg? || a.RaiseRcv? || a.Return? || a.Timeout?
  }

  predicate InAckHandler(s: State) { s.acker.ClearingAck? }

  // The requester does not run while the ACK handler is between waking it and clearing
  // ACK, and after a timeout it does not write again until that write's ACK handler has
  // returned.
  predicate Scheduled(x: Timed, a: Action) {
    && Enabled(x.s, a)
    && (OfRequester(a) ==> !InAckHandler(x.s))
    && (a.StartWrite? && x.timedOut ==> !x.s.busy)
  }

  function TimedNext(x: Timed, a: Action): Timed {
    Timed(Next(x.s, a), if a.Timeout? then true else if a.Return? then false else x.timedOut)
  }

  const SCHEDULED: Machine<Timed, Action, Event> := Machine(Scheduled, TimedNext, (x: Timed, a: Action) => Show(x.s, a))

  predicate ScheduledInv(x: Timed) { Inv(x.s) && (x.s.req.Idle? && x.s.busy ==> x.timedOut) }

  lemma ScheduledStep(x: Timed, a: Action)
    requires ScheduledInv(x) && Scheduled(x, a)
    ensures Allowed(x.s, a) && ScheduledInv(TimedNext(x, a))
  {
    Step(x.s, a);
  }

  // Such runs keep the discipline of the protocol without being told to.
  lemma {:induction false} ScheduledIsDisciplined(x: Timed, acts: seq<Action>)
    requires Init(x.s) && !x.timedOut && !x.s.ackFirst && Run(SCHEDULED, x, acts)
    ensures ScheduledInv(Final(SCHEDULED, x, acts))
    ensures Run(DISCIPLINED, x.s, acts) && Final(DISCIPLINED, x.s, acts) == Final(SCHEDULED, x, acts).s
    ensures Trace(DISCIPLINED, x.s, acts) == Trace(SCHEDULED, x, acts)
    decreases |acts|
  {
    if acts != [] {
      ScheduledIsDisciplined(x, acts[..|acts| - 1]);
      ScheduledStep(Final(SCHEDULED, x, acts[..|acts| - 1]), acts[|acts| - 1]);
    }
  }
}
