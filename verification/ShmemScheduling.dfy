// Where the discipline of the shared-memory protocol comes from: the ACK poller has
// priority over the requester, and a timed-out message is not followed by another.
module ShmemScheduling {
  import opened Runs
  import opened SlotChannel
  import opened ShmemProtocol

  // The protocol's state, and whether the requester's last wait ended with a timeout.
  datatype Timed = Timed(s: State, timedOut: bool)

  predicate OfRequester(a: Action) {
    a.StartWrite? || a.StoreData? || a.LoadNew? || a.StoreNew? || a.Return? || a.Timeout?
  }

  // The requester does not run while the ACK callback is between waking it and clearing
  // ACK, and after a timeout it does not write again until that write's ACK callback has
  // returned.
  predicate Scheduled(x: Timed, a: Action) {
    && Enabled(x.s, a)
    && (OfRequester(a) ==> !InAckCallback(x.s))
    && (a.StartWrite? && x.timedOut ==> !x.s.busy)
  }

  function TimedNext(x: Timed, a: Action): Timed {
    Timed(Next(x.s, a), if a.Timeout? then true else if a.Return? then false else x.timedOut)
  }

  const SCHEDULED: Machine<Timed, Action, Event> := Machine(Scheduled, TimedNext, (x: Timed, a: Action) => Show(x.s, a))

  predicate ScheduledInv(x: Timed) { Inv(x.s) && (x.s.req.Idle? && x.s.busy ==> x.timedOut) }

  lemma ScheduledStep(x: Timed, a: Action)
    requires ScheduledInv(x) && Scheduled(x, a)
    ensures Allowed(x.s, a) && ScheduledInv(TimedNext(x, a))
  {
    Step(x.s, a);
  }

  // Such runs keep the discipline of the protocol without being told to.
  lemma {:induction false} ScheduledIsDisciplined(x: Timed, acts: seq<Action>)
    requires Init(x.s) && !x.timedOut && Run(SCHEDULED, x, acts)
    ensures ScheduledInv(Final(SCHEDULED, x, acts))
    ensures Run(DISCIPLINED, x.s, acts) && Final(DISCIPLINED, x.s, acts) == Final(SCHEDULED, x, acts).s
    ensures Trace(DISCIPLINED, x.s, acts) == Trace(SCHEDULED, x, acts)
    decreases |acts|
  {
    if acts != [] {
      ScheduledIsDisciplined(x, acts[..|acts| - 1]);
      ScheduledStep(Final(SCHEDULED, x, acts[..|acts| - 1]), acts[|acts| - 1]);
    }
  }
}
