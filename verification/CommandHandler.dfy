// The command queue at work: enqueuers in tasks and interrupts, one handler task
// that is started, stopped and started again, and anybody dropping the queue.
// Every read or write of shared state outside the queue's lock is a step.
module CommandHandler {
  import opened CommandRing
  import opened Options
  import opened Command
  import opened Runs

  type Tid = nat
  type Cmd = Item<nat>

  const NONE: Tid := 0

  // What the server returned, what sending the reply returned, and what callbacks are told.
  datatype Outcome = Outcome(replySize: int, sent: nat, status: Status)

  // cmd_handle_task
  datatype Handler =
    | NoTask
    | Dormant                                    // created, cmd_handler set, not started yet
    | Flushing                                   // cmd_flush, about to dequeue
    | Handling(cmd: Cmd)                         // in the server callback or sending the reply
    | CallingOwn(cmd: Cmd, outcome: Outcome)
    | CallingGlobal(cmd: Cmd, outcome: Outcome)
    | Receiving                                  // in rtems_event_receive for NEW or EXIT
    | Exiting

  // cmd_handle_task_start and cmd_handle_task_destroy, called by one task at a time
  datatype Controller = Free | Starting | Stopping | Awaiting

  // cmd_enqueue_cb after the insert
  datatype Enqueuer = Inserted | Sending(target: Tid)

  // What became of a command that left the queue.
  datatype Fate = Handled(cmd: Cmd) | Dropped(cmd: Cmd) | Overwritten(cmd: Cmd)

  // A command completed, how, and whether a global callback was registered just then.
  datatype Done = Done(cmd: Cmd, outcome: Outcome, hasGlobal: bool)

  // `tid` and `running` are cmd_handler's fields; `hTid`, `newBit` and `exitBit`
  // the handler task's id and pending events. The last four are the history.
  datatype State = State(ring: Ring<Cmd>, tid: Tid, running: bool,
                         h: Handler, hTid: Tid, newBit: bool, exitBit: bool,
                         ctl: Controller, enq: map<nat, Enqueuer>, hasGlobal: bool,
                         accepted: seq<Cmd>, gone: seq<Fate>,
                         completed: seq<Done>, calls: seq<Call<nat>>)

  datatype Action =
    | Insert(e: nat, cmd: Cmd) | LoadTid(e: nat) | SendNew(e: nat, reload: bool)
    | Drop | SetGlobal(on: bool)
    | StartSet(t: Tid, stale: bool) | StartTask(reset: bool) | StartFails
    | StopCheck | StopSend(ok: bool) | StopDone
    | Dequeue | Serve(replySize: int, sent: nat) | CallOwn | CallGlobal
    | Receive | Exit

  predicate Init(s: State) {
    && s.ring.Valid() && s.ring.Contents() == [] && s.tid == NONE && !s.running && s.h.NoTask?
    && s.ctl.Free? && s.enq == map[]
    && s.accepted == [] && s.gone == [] && s.completed == [] && s.calls == []
  }

  predicate Enabled(s: State, a: Action) {
    && s.ring.Valid()
    && match a
       case Insert(e, _) => e !in s.enq
       case LoadTid(e) => e in s.enq && s.enq[e].Inserted?
       case SendNew(e, _) => e in s.enq && s.enq[e].Sending?
       case Drop => true
       case SetGlobal(_) => true
       case StartSet(t, _) => s.ctl.Free? && !s.running && t != NONE
       case StartTask(_) => s.ctl.Starting?
       case StartFails => s.ctl.Starting?
       case StopCheck => s.ctl.Free? && s.running
       case StopSend(_) => s.ctl.Stopping?
       case StopDone => s.ctl.Awaiting? && !s.running
       case Dequeue => s.h.Flushing?
       case Serve(_, _) => s.h.Handling?
       case CallOwn => s.h.CallingOwn?
       case CallGlobal => s.h.CallingGlobal?
       case Receive => s.h.Receiving? && (s.newBit || s.exitBit)
       case Exit => s.h.Exiting?
  }

  function Mark(cmds: seq<Cmd>, dropped: bool): (f: seq<Fate>)
    ensures |f| == |cmds|
  {
    seq(|cmds|, i requires 0 <= i < |cmds| => if dropped then Dropped(cmds[i]) else Overwritten(cmds[i]))
  }

  function Do(s: State, a: Action): State
    requires Enabled(s, a)
  {
    match a
    case Insert(e, cmd) =>
      var (r, ok) := s.ring.Enqueue(cmd);
      if !ok then s
      else
        var lost := if s.ring.Overflows() then s.ring.Contents() + [cmd] else [];
        s.(ring := r, enq := s.enq[e := Inserted], accepted := s.accepted + [cmd],
           gone := s.gone + Mark(lost, false))
    case LoadTid(e) =>
      if s.tid == NONE then s.(enq := s.enq - {e}) else s.(enq := s.enq[e := Sending(s.tid)])
    case SendNew(e, reload) =>
      // the compiler may keep the loaded id or load it again
      var target := if reload then s.tid else s.enq[e].target;
      s.(enq := s.enq - {e}, newBit := s.newBit || (target == s.hTid && !s.h.NoTask?))
    case Drop =>
      var (r, n) := s.ring.DropAll();
      s.(ring := r, gone := s.gone + Mark(s.ring.Contents(), true))
    case SetGlobal(on) => s.(hasGlobal := on)
    case StartSet(t, stale) =>
      s.(ctl := Starting, tid := t, running := true, h := Dormant, hTid := t, newBit := stale, exitBit := false)
    case StartTask(reset) =>
      // whether starting a task resets its pending events is left open
      s.(ctl := Free, h := Flushing, newBit := s.newBit && !reset)
    case StartFails => s.(ctl := Free, tid := NONE, running := false, h := NoTask)
    case StopCheck => s.(ctl := Stopping)
    case StopSend(ok) => if ok then s.(ctl := Awaiting, exitBit := true) else s.(ctl := Free)
    case StopDone => s.(ctl := Free, tid := NONE, running := false)
    case Dequeue =>
      var (r, x) := s.ring.Dequeue();
      if x.None? then s.(h := Receiving)
      else s.(ring := r, h := Handling(x.value), gone := s.gone + [Handled(x.value)])
    case Serve(replySize, sent) => s.(h := CallingOwn(s.h.cmd, Outcome(replySize, sent, StatusOf(replySize, sent))))
    case CallOwn =>
      s.(h := CallingGlobal(s.h.cmd, s.h.outcome),
         calls := s.calls + OwnCalls(s.h.cmd, s.h.outcome.status))
    case CallGlobal =>
      s.(h := Flushing, completed := s.completed + [Done(s.h.cmd, s.h.outcome, s.hasGlobal)],
         calls := s.calls + GlobalCalls(s.h.cmd, s.h.outcome.status, s.hasGlobal))
    case Receive =>
      s.(h := if s.exitBit then Exiting else Flushing, newBit := false, exitBit := false)
    case Exit => s.(h := NoTask, running := false)
  }

  const SYSTEM: Machine<State, Action, ()> := Machine(Enabled, Next, (s, a) => [])

  function Next(s: State, a: Action): State { if Enabled(s, a) then Do(s, a) else s }

  // The queue stays a valid ring.
  lemma RingStays(s: State, a: Action)
    requires Enabled(s, a)
    ensures Do(s, a).ring.Valid() && |Do(s, a).ring.q| == |s.ring.q|
  {
    match a {
      case Insert(_, cmd) => EnqueueIsFifoUnlessOverflow(s.ring, cmd);
      case Drop => DropAllEmpties(s.ring);
      case Dequeue => DequeueIsFifo(s.ring);
      case _ =>
    }
  }

  // Start and stop

  predicate ControlInv(s: State) {
    && s.ring.Valid()
    && (!s.h.NoTask? ==> s.running && s.tid == s.hTid != NONE)
    && (s.h.NoTask? ==> !s.running)
    && (s.h.Dormant? <==> s.ctl.Starting?)
    && (s.h.Exiting? ==> s.ctl.Awaiting?)
    && (s.exitBit && !s.h.NoTask? ==> s.ctl.Awaiting?)
    && (s.ctl.Stopping? ==> !s.h.NoTask? && !s.h.Exiting?)
    && (s.ctl.Free? && s.h.NoTask? ==> s.tid == NONE)
    && (s.ctl.Awaiting? ==> s.h.NoTask? || s.h.Exiting? || s.exitBit)
  }

  lemma ControlStep(s: State, a: Action)
    requires ControlInv(s) && Enabled(s, a)
    ensures ControlInv(Do(s, a))
  {
    RingStays(s, a);
  }

  // Stopping

  predicate OfHandler(a: Action) {
    a.Dequeue? || a.Serve? || a.CallOwn? || a.CallGlobal? || a.Receive? || a.Exit?
  }

  function Stage(h: Handler): nat {
    match h
    case NoTask => 0
    case Exiting => 1
    case Receiving => 2
    case Flushing => 3
    case Dormant => 3
    case CallingGlobal(_, _) => 4
    case CallingOwn(_, _) => 5
    case Handling(_) => 6
  }

  // What the handler has left to do until it sleeps or has ended: five steps for each
  // queued command, two for a pending NEW, and those it takes from where it is.
  function Left(s: State): nat
    requires s.ring.Valid()
  {
    5 * |s.ring.Contents()| + (if s.newBit then 2 else 0) + Stage(s.h)
  }

  // What a step of somebody else can add to that.
  function Given(a: Action): nat {
    match a
    case Insert(_, _) => 5
    case SendNew(_, _) => 2
    case StartSet(_, _) => 5
    case _ => 0
  }

  lemma HandlerAdvances(s: State, a: Action)
    requires Enabled(s, a) && OfHandler(a)
    ensures Do(s, a).ring.Valid() && Left(Do(s, a)) < Left(s) && Do(s, a).ctl == s.ctl
  {
    if a.Dequeue? {
      DequeueIsFifo(s.ring);
    }
  }

  lemma OthersAdd(s: State, a: Action)
    requires ControlInv(s) && Enabled(s, a) && !OfHandler(a)
    ensures Do(s, a).ring.Valid() && Left(Do(s, a)) <= Left(s) + Given(a)
  {
    if a.Insert? {
      EnqueueIsFifoUnlessOverflow(s.ring, a.cmd);
      EnqueueIntendedIsFifo(s.ring, a.cmd);
    } else if a.Drop? {
      DropAllEmpties(s.ring);
    }
  }

  // While a stop is awaited, either the handler can go on or the stop is over.
  lemma StopGoesOn(s: State) returns (a: Action)
    requires ControlInv(s) && s.ctl.Awaiting?
    ensures Enabled(s, a) && (if s.h.NoTask? then a.StopDone? else OfHandler(a))
  {
    match s.h
    case NoTask => a := StopDone;
    case Flushing => a := Dequeue;
    case Handling(_) => a := Serve(0, 0);
    case CallingOwn(_, _) => a := CallOwn;
    case CallingGlobal(_, _) => a := CallGlobal;
    case Receiving => a := Receive;
    case Exiting => a := Exit;
  }

  function HandlerSteps(acts: seq<Action>): nat {
    if acts == [] then 0 else HandlerSteps(acts[..|acts| - 1]) + if OfHandler(acts[|acts| - 1]) then 1 else 0
  }

  function AllGiven(acts: seq<Action>): nat {
    if acts == [] then 0 else AllGiven(acts[..|acts| - 1]) + Given(acts[|acts| - 1])
  }

  // In every run, the handler takes no more steps than enqueues, events and starts give it
  // reason for: it never spins, and once told to exit it is soon gone.
  lemma {:induction false} HandlerIsBounded(s: State, acts: seq<Action>)
    requires Init(s) && Run(SYSTEM, s, acts)
    ensures var f := Final(SYSTEM, s, acts);
            ControlInv(f) && HandlerSteps(acts) + Left(f) <= Left(s) + AllGiven(acts)
    decreases |acts|
  {
    if acts != [] {
      var before, a := acts[..|acts| - 1], acts[|acts| - 1];
      HandlerIsBounded(s, before);
      var x := Final(SYSTEM, s, before);
      ControlStep(x, a);
      if OfHandler(a) { HandlerAdvances(x, a); } else { OthersAdd(x, a); }
    }
  }

  ghost predicate Stops(s: State) {
    exists z :: Reaches(SYSTEM, s, [], z) && z.h.NoTask? && !z.running && z.tid == NONE && z.ctl.Free?
  }

  lemma {:induction false} HandlerFinishes(s: State, x: State)
    requires Reaches(SYSTEM, s, [], x) && ControlInv(x) && x.ctl.Awaiting?
    ensures Stops(s)
    decreases Left(x)
  {
    var a := StopGoesOn(x);
    ControlStep(x, a);
    ReachesSilently(SYSTEM, s, [], x, a);
    if OfHandler(a) {
      HandlerAdvances(x, a);
      HandlerFinishes(s, Do(x, a));
    } else {
      assert Reaches(SYSTEM, s, [], Do(x, a));
    }
  }

  // After any run that leaves a handler running, a stop can be made, the handler can finish
  // and the stop return, with no handler left that anybody could wake.
  lemma StopCompletes(s: State, acts: seq<Action>)
    requires Init(s) && Run(SYSTEM, s, acts) && (Final(SYSTEM, s, acts).running || Final(SYSTEM, s, acts).ctl.Awaiting?)
    ensures Stops(Final(SYSTEM, s, acts))
  {
    HandlerIsBounded(s, acts);
    var f := Final(SYSTEM, s, acts);
    ReachesSelf(SYSTEM, f);
    var x := f;
    if x.ctl.Starting? {
      x := ControlGoes(f, x, StartTask(false));
    }
    if x.ctl.Free? {
      x := ControlGoes(f, x, StopCheck);
    }
    if x.ctl.Stopping? {
      x := ControlGoes(f, x, StopSend(true));
    }
    HandlerFinishes(f, x);
  }

  lemma ControlGoes(s: State, x: State, a: Action) returns (y: State)
    requires Reaches(SYSTEM, s, [], x) && ControlInv(x) && Enabled(x, a)
    ensures Reaches(SYSTEM, s, [], y) && ControlInv(y) && y == Do(x, a)
  {
    ControlStep(x, a);
    ReachesSilently(SYSTEM, s, [], x, a);
    y := Do(x, a);
  }

  // No lost wakeup

  // Some enqueuer has inserted its command and is about to wake this handler.
  ghost predicate WakeupDue(s: State) {
    exists e :: e in s.enq && (s.enq[e] == Inserted || s.enq[e] == Sending(s.hTid))
  }

  ghost predicate WakeInv(s: State) {
    && ControlInv(s)
    && (s.h.Receiving? && !s.newBit && !s.exitBit && s.ring.Contents() != [] ==> WakeupDue(s))
  }

  lemma EnqueuerWakes(s: State, a: Action)
    requires WakeInv(s) && Enabled(s, a)
    requires a.Insert? || a.LoadTid? || a.SendNew?
    ensures WakeInv(Do(s, a))
  {
    ControlStep(s, a);
    var s' := Do(s, a);
    if s'.h.Receiving? && !s'.newBit && !s'.exitBit && s'.ring.Contents() != [] {
      match a {
        case Insert(e, cmd) =>
          if s'.enq != s.enq {
            assert s'.enq[e] == Inserted;
          }
        case LoadTid(e) =>
          assert s'.enq[e] == Sending(s'.hTid);
        case SendNew(e, _) =>
          var f :| f in s.enq && (s.enq[f] == Inserted || s.enq[f] == Sending(s.hTid));
          assert f != e && s'.enq[f] == s.enq[f];
      }
    }
  }

  lemma OthersWake(s: State, a: Action)
    requires WakeInv(s) && Enabled(s, a)
    requires !a.Insert? && !a.LoadTid? && !a.SendNew?
    ensures WakeInv(Do(s, a))
  {
    ControlStep(s, a);
    if a.Drop? {
      DropAllEmpties(s.ring);
    } else if a.Dequeue? {
      DequeueIsFifo(s.ring);
    }
    assert Do(s, a).enq == s.enq;
  }

  lemma WakeHolds(s: State, acts: seq<Action>)
    requires Init(s) && Run(SYSTEM, s, acts)
    ensures WakeInv(Final(SYSTEM, s, acts))
  {
    forall x, a | WakeInv(x) && Enabled(x, a) ensures WakeInv(Next(x, a)) {
      if a.Insert? || a.LoadTid? || a.SendNew? { EnqueuerWakes(x, a); } else { OthersWake(x, a); }
    }
    Invariance(SYSTEM, WakeInv, s, acts);
  }

  // In every run, across any number of stops and restarts: a handler blocked with
  // nothing pending while commands are queued is about to be woken, at its own id.
  lemma NoLostWakeup(s: State, acts: seq<Action>)
    requires Init(s) && Run(SYSTEM, s, acts)
    ensures var f := Final(SYSTEM, s, acts);
            && f.ring.Valid()
            && (f.h.Receiving? && !f.newBit && !f.exitBit && f.ring.Contents() != [] ==>
                  f.tid == f.hTid && WakeupDue(f))
            && (f.h.Receiving? && !f.newBit && !f.exitBit && f.enq == map[] ==> f.ring.Contents() == [])
  {
    WakeHolds(s, acts);
  }

  // The handler task is blocked in exactly one place.
  lemma BlockedExactly(s: State)
    requires s.ring.Valid()
    ensures (forall a :: OfHandler(a) ==> !Enabled(s, a)) <==>
            s.h.NoTask? || s.h.Dormant? || (s.h.Receiving? && !s.newBit && !s.exitBit)
  {
    match s.h
    case Flushing => assert Enabled(s, Dequeue);
    case Handling(_) => assert Enabled(s, Serve(0, 0));
    case CallingOwn(_, _) => assert Enabled(s, CallOwn);
    case CallingGlobal(_, _) => assert Enabled(s, CallGlobal);
    case Receiving => assert s.newBit || s.exitBit ==> Enabled(s, Receive);
    case Exiting => assert Enabled(s, Exit);
    case _ =>
  }

  // Callers never wait: a command can be enqueued, the queue dropped and the global callback
  // changed at any time, and at most two more steps finish an enqueue.
  lemma CallersNeverWait(s: State, e: nat, cmd: Cmd, on: bool)
    requires s.ring.Valid()
    ensures Enabled(s, Action.Drop) && Enabled(s, SetGlobal(on)) && (e !in s.enq ==> Enabled(s, Insert(e, cmd)))
    ensures e in s.enq && s.enq[e].Inserted? ==>
              && Enabled(s, LoadTid(e))
              && Do(s, LoadTid(e)).enq == if s.tid == NONE then s.enq - {e} else s.enq[e := Sending(s.tid)]
    ensures e in s.enq && s.enq[e].Sending? ==>
              forall reload :: Enabled(s, SendNew(e, reload)) && Do(s, SendNew(e, reload)).enq == s.enq - {e}
  {
  }

  // Conservation and order

  function Items(gone: seq<Fate>): (items: seq<Cmd>)
    ensures |items| == |gone|
  {
    seq(|gone|, i requires 0 <= i < |gone| => gone[i].cmd)
  }

  const HANDLED: Fate -> bool := (f: Fate) => f.Handled?
  const DROPPED: Fate -> bool := (f: Fate) => f.Dropped?
  const OVERWRITTEN: Fate -> bool := (f: Fate) => f.Overwritten?

  // The commands with a given fate, in the order they left the queue.
  function Select(gone: seq<Fate>, pick: Fate -> bool): seq<Cmd> {
    if gone == [] then []
    else Select(gone[..|gone| - 1], pick) + if pick(gone[|gone| - 1]) then [gone[|gone| - 1].cmd] else []
  }

  lemma ItemsAppend(gone: seq<Fate>, more: seq<Fate>)
    ensures Items(gone + more) == Items(gone) + Items(more)
  {
  }

  lemma {:induction false} SelectMarked(gone: seq<Fate>, cmds: seq<Cmd>, dropped: bool, pick: Fate -> bool)
    requires forall c, d :: pick(Dropped(c)) == pick(Dropped(d)) && pick(Overwritten(c)) == pick(Overwritten(d))
    ensures Select(gone + Mark(cmds, dropped), pick) == Select(gone, pick) +
            if cmds != [] && pick(Mark(cmds, dropped)[0]) then cmds else []
    decreases |cmds|
  {
    if cmds == [] {
      assert gone + Mark(cmds, dropped) == gone;
    } else {
      var g, c := gone + Mark(cmds, dropped), cmds[..|cmds| - 1];
      assert g[..|g| - 1] == gone + Mark(c, dropped);
      SelectMarked(gone, c, dropped, pick);
      assert cmds == c + [cmds[|cmds| - 1]];
    }
  }

  // Every command that left the queue has exactly one of the three fates.
  lemma {:induction false} FatesAddUp(gone: seq<Fate>)
    ensures |gone| == |Select(gone, HANDLED)| + |Select(gone, DROPPED)| + |Select(gone, OVERWRITTEN)|
    decreases |gone|
  {
    if gone != [] {
      FatesAddUp(gone[..|gone| - 1]);
    }
  }

  function InHand(s: State): seq<Cmd> {
    if s.h.Handling? || s.h.CallingOwn? || s.h.CallingGlobal? then [s.h.cmd] else []
  }

  function CompletedCmds(done: seq<Done>): (cmds: seq<Cmd>)
    ensures |cmds| == |done|
  {
    seq(|done|, i requires 0 <= i < |done| => done[i].cmd)
  }

  // What left the queue, followed by what is still in it, is what was accepted, in
  // the same order; what was handled is what completed and what is in hand.
  predicate OrderInv(s: State) {
    && s.ring.Valid()
    && s.accepted == Items(s.gone) + s.ring.Contents()
    && Select(s.gone, HANDLED) == CompletedCmds(s.completed) + InHand(s)
  }

  lemma Regroup(a: seq<Cmd>, b: seq<Cmd>, c: seq<Cmd>)
    ensures a + b + c == a + (b + c) && a + b + [] == a + b
  {
  }

  lemma AcceptKeepsOrder(s: State, a: Action)
    requires OrderInv(s) && Enabled(s, a) && a.Insert? && !s.ring.Overflows()
    ensures OrderInv(Do(s, a))
  {
    EnqueueIsFifoUnlessOverflow(s.ring, a.cmd);
    EnqueueIntendedIsFifo(s.ring, a.cmd);
    assert s.gone + Mark([], false) == s.gone;
    Regroup(Items(s.gone), s.ring.Contents(), [a.cmd]);
  }

  lemma OverflowKeepsOrder(s: State, a: Action)
    requires OrderInv(s) && Enabled(s, a) && a.Insert? && s.ring.Overflows()
    ensures OrderInv(Do(s, a))
  {
    var lost := s.ring.Contents() + [a.cmd];
    EnqueueIsFifoUnlessOverflow(s.ring, a.cmd);
    SelectMarked(s.gone, lost, false, HANDLED);
    ItemsAppend(s.gone, Mark(lost, false));
    assert Items(Mark(lost, false)) == lost;
    Regroup(Items(s.gone), s.ring.Contents(), [a.cmd]);
    Regroup(Items(s.gone), lost, []);
  }

  lemma DropKeepsOrder(s: State, a: Action)
    requires OrderInv(s) && Enabled(s, a) && a.Drop?
    ensures OrderInv(Do(s, a))
  {
    var c := s.ring.Contents();
    DropAllEmpties(s.ring);
    SelectMarked(s.gone, c, true, HANDLED);
    ItemsAppend(s.gone, Mark(c, true));
    assert Items(Mark(c, true)) == c;
    Regroup(Items(s.gone), c, []);
  }

  lemma HandOver(gone: seq<Fate>, c: seq<Cmd>)
    requires c != []
    ensures Items(gone + [Handled(c[0])]) + c[1..] == Items(gone) + c
    ensures Select(gone + [Handled(c[0])], HANDLED) == Select(gone, HANDLED) + [c[0]]
  {
  }

  lemma DequeueKeepsOrder(s: State, a: Action)
    requires OrderInv(s) && Enabled(s, a) && a.Dequeue?
    ensures OrderInv(Do(s, a))
  {
    var c, s' := s.ring.Contents(), Do(s, a);
    DequeueIsFifo(s.ring);
    if c != [] {
      assert s'.gone == s.gone + [Handled(c[0])] && s'.ring.Contents() == c[1..] && InHand(s') == [c[0]];
      HandOver(s.gone, c);
      assert InHand(s) == [] && CompletedCmds(s.completed) + [] == CompletedCmds(s.completed);
    }
  }

  lemma OthersKeepOrder(s: State, a: Action)
    requires OrderInv(s) && Enabled(s, a) && !a.Insert? && !a.Drop? && !a.Dequeue?
    requires ControlInv(s)
    ensures OrderInv(Do(s, a))
  {
    if a.CallGlobal? {
      assert CompletedCmds(Do(s, a).completed) == CompletedCmds(s.completed) + [s.h.cmd];
    }
  }

  lemma OrderStep(s: State, a: Action)
    requires ControlInv(s) && OrderInv(s) && Enabled(s, a)
    ensures OrderInv(Do(s, a))
  {
    if a.Insert? && s.ring.Overflows() {
      OverflowKeepsOrder(s, a);
    } else if a.Insert? {
      AcceptKeepsOrder(s, a);
    } else if a.Drop? {
      DropKeepsOrder(s, a);
    } else if a.Dequeue? {
      DequeueKeepsOrder(s, a);
    } else {
      OthersKeepOrder(s, a);
    }
  }

  // In every run nothing accepted goes unaccounted for, and commands are handled
  // in the order in which they were accepted.
  lemma Conservation(s: State, acts: seq<Action>)
    requires Init(s) && Run(SYSTEM, s, acts)
    ensures var f := Final(SYSTEM, s, acts);
            && f.ring.Valid()
            && f.accepted == Items(f.gone) + f.ring.Contents()
            && Select(f.gone, HANDLED) == CompletedCmds(f.completed) + InHand(f)
            && |f.accepted| == |f.completed| + |InHand(f)| + |f.ring.Contents()|
                               + |Select(f.gone, DROPPED)| + |Select(f.gone, OVERWRITTEN)|
  {
    var inv := (x: State) => ControlInv(x) && OrderInv(x);
    forall x, a | inv(x) && Enabled(x, a) ensures inv(Next(x, a)) {
      ControlStep(x, a);
      OrderStep(x, a);
    }
    Invariance(SYSTEM, inv, s, acts);
    FatesAddUp(Final(SYSTEM, s, acts).gone);
  }

  // Everything queued can still be handled

  // What was handled followed by what is queued.
  function Line(s: State): seq<Cmd>
    requires s.ring.Valid()
  {
    Select(s.gone, HANDLED) + s.ring.Contents()
  }

  // Some run leads from `s` to `x` in which nothing is enqueued, dropped or lost.
  ghost predicate Leads(s: State, x: State) {
    Reaches(SYSTEM, s, [], x) && s.ring.Valid() && WakeInv(x) && Line(x) == Line(s)
  }

  predicate Keeps(a: Action) { !a.Insert? && !a.Drop? }

  lemma LineStays(s: State, a: Action)
    requires Enabled(s, a) && Keeps(a)
    ensures Do(s, a).ring.Valid() && Line(Do(s, a)) == Line(s)
  {
    if a.Dequeue? {
      DequeueIsFifo(s.ring);
      var c := s.ring.Contents();
      if c != [] {
        HandOver(s.gone, c);
        assert c == [c[0]] + c[1..];
        Regroup(Select(s.gone, HANDLED), [c[0]], c[1..]);
      }
    } else {
      GoneGrows(s, a);
      RingKept(s, a);
    }
  }

  lemma RingKept(s: State, a: Action)
    requires Enabled(s, a) && Keeps(a) && !a.Dequeue?
    ensures Do(s, a).ring == s.ring
  {
  }

  lemma Goes(s: State, x: State, a: Action) returns (y: State)
    requires Leads(s, x) && Enabled(x, a) && Keeps(a)
    ensures Leads(s, y) && y == Do(x, a)
  {
    if a.LoadTid? || a.SendNew? { EnqueuerWakes(x, a); } else { OthersWake(x, a); }
    LineStays(x, a);
    ReachesSilently(SYSTEM, s, [], x, a);
    y := Do(x, a);
  }

  predicate Working(h: Handler) { h.Flushing? || h.Handling? || h.CallingOwn? || h.CallingGlobal? }

  // A handler at work gets to the end of the queue.
  lemma {:induction false} Drains(s: State, x: State) returns (y: State)
    requires Leads(s, x) && Working(x.h)
    ensures Leads(s, y) && y.h.Receiving? && y.ring.Contents() == []
    decreases Left(x)
  {
    var a := match x.h
      case Flushing => Dequeue
      case Handling(_) => Serve(0, 0)
      case CallingOwn(_, _) => CallOwn
      case _ => CallGlobal;
    y := Goes(s, x, a);
    DequeueIsFifo(x.ring);
    if Working(y.h) {
      HandlerAdvances(x, a);
      y := Drains(s, y);
    }
  }

  // Whatever the controller is doing comes to an end.
  lemma {:induction false} Settles(s: State, x: State) returns (y: State)
    requires Leads(s, x)
    ensures Leads(s, y) && y.ctl.Free?
    decreases Left(x) + if x.ctl.Awaiting? then 1 else 0
  {
    if x.ctl.Awaiting? {
      var a := StopGoesOn(x);
      if OfHandler(a) {
        HandlerAdvances(x, a);
      }
      y := Goes(s, x, a);
      y := Settles(s, y);
    } else if x.ctl.Stopping? {
      y := Goes(s, x, StopSend(false));
    } else if x.ctl.Starting? {
      y := Goes(s, x, StartTask(false));
    } else {
      y := x;
    }
  }

  // A handler that is asleep although commands are queued is woken by the enqueuer that
  // is about to, and one that was stopped can be started again.
  lemma Starts(s: State, x: State) returns (y: State)
    requires Leads(s, x) && x.ctl.Free? && (x.h.NoTask? || (x.h.Receiving? && x.ring.Contents() != []))
    ensures Leads(s, y) && Working(y.h)
  {
    y := x;
    if y.h.NoTask? {
      y := Goes(s, y, StartSet(1, false));
      y := Goes(s, y, StartTask(false));
    } else {
      if !y.newBit {
        var e :| e in y.enq && (y.enq[e] == Inserted || y.enq[e] == Sending(y.hTid));
        if y.enq[e].Inserted? {
          y := Goes(s, y, LoadTid(e));
        }
        y := Goes(s, y, SendNew(e, false));
      }
      y := Goes(s, y, Receive);
    }
  }

  // After any run, whatever was stopped, started or interrupted: all that is queued can
  // still be handled, in its order, without anything being enqueued.
  lemma AllCanBeHandled(s: State, acts: seq<Action>)
    requires Init(s) && Run(SYSTEM, s, acts)
    ensures var f := Final(SYSTEM, s, acts);
            f.ring.Valid() && exists z: State :: Reaches(SYSTEM, f, [], z) && z.ring.Valid() && z.ring.Contents() == []
                                          && Select(z.gone, HANDLED) == Select(f.gone, HANDLED) + f.ring.Contents()
  {
    WakeHolds(s, acts);
    var f := Final(SYSTEM, s, acts);
    ReachesSelf(SYSTEM, f);
    var z := Settles(f, f);
    if z.h.NoTask? || (z.h.Receiving? && z.ring.Contents() != []) {
      z := Starts(f, z);
    }
    if Working(z.h) {
      z := Drains(f, z);
    }
    assert Select(z.gone, HANDLED) + [] == Select(z.gone, HANDLED);
  }

  // N commands for each enqueue made in the overflowing state.
  function Loss(s: State, acts: seq<Action>): nat
    requires Run(SYSTEM, s, acts)
    decreases |acts|
  {
    if acts == [] then 0
    else
      var before, a := acts[..|acts| - 1], acts[|acts| - 1];
      var f := Final(SYSTEM, s, before);
      Loss(s, before) + if a.Insert? && f.ring.Overflows() then |f.ring.q| else 0
  }

  lemma InsertLoses(s: State, a: Action)
    requires Enabled(s, a) && a.Insert?
    ensures |Select(Do(s, a).gone, OVERWRITTEN)| ==
            |Select(s.gone, OVERWRITTEN)| + if s.ring.Overflows() then |s.ring.q| else 0
  {
    if s.ring.Overflows() {
      PushCollapses(s.ring, a.cmd);
      SelectMarked(s.gone, s.ring.Contents() + [a.cmd], false, OVERWRITTEN);
    } else {
      assert s.gone + Mark([], false) == s.gone;
    }
  }

  lemma HandledIsNotLost(gone: seq<Fate>, cmd: Cmd)
    ensures Select(gone + [Handled(cmd)], OVERWRITTEN) == Select(gone, OVERWRITTEN)
  {
    assert (gone + [Handled(cmd)])[..|gone|] == gone;
  }

  // Only these three steps take commands out of the queue.
  lemma GoneGrows(s: State, a: Action)
    requires Enabled(s, a) && !a.Insert? && !a.Drop? && !a.Dequeue?
    ensures Do(s, a).gone == s.gone
  {
  }

  lemma OthersLoseNothing(s: State, a: Action)
    requires Enabled(s, a) && !a.Insert?
    ensures Select(Do(s, a).gone, OVERWRITTEN) == Select(s.gone, OVERWRITTEN)
  {
    if a.Drop? {
      SelectMarked(s.gone, s.ring.Contents(), true, OVERWRITTEN);
    } else if a.Dequeue? {
      var x := s.ring.Dequeue().1;
      if x.Some? {
        HandledIsNotLost(s.gone, x.value);
      }
    } else {
      GoneGrows(s, a);
    }
  }

  lemma {:induction false} OverwrittenIsLoss(s: State, acts: seq<Action>)
    requires Init(s) && Run(SYSTEM, s, acts)
    ensures |Select(Final(SYSTEM, s, acts).gone, OVERWRITTEN)| == Loss(s, acts)
    decreases |acts|
  {
    if acts != [] {
      var before, a := acts[..|acts| - 1], acts[|acts| - 1];
      OverwrittenIsLoss(s, before);
      var f := Final(SYSTEM, s, before);
      if a.Insert? { InsertLoses(f, a); } else { OthersLoseNothing(f, a); }
    }
  }

  // Each enqueue in the overflowing state loses exactly N commands: the N - 1
  // queued and the new one. Nothing else loses any, so commands accepted equal
  // commands handled, in hand, queued and dropped exactly when there was none.
  lemma AcceptedIsKeptPlusLoss(s: State, acts: seq<Action>)
    requires Init(s) && Run(SYSTEM, s, acts)
    ensures var f := Final(SYSTEM, s, acts);
            && f.ring.Valid()
            && var kept := |f.completed| + |InHand(f)| + |f.ring.Contents()| + |Select(f.gone, DROPPED)|;
               |f.accepted| == kept + Loss(s, acts)
  {
    Conservation(s, acts);
    OverwrittenIsLoss(s, acts);
  }

  // Callbacks

  function CallsOf(done: seq<Done>): seq<Call<nat>> {
    if done == [] then []
    else
      var last := done[|done| - 1];
      CallsOf(done[..|done| - 1]) + Completion(last.cmd, last.outcome.status, last.hasGlobal)
  }

  // The call made so far for the command in hand.
  function Partial(s: State): seq<Call<nat>> {
    if s.h.CallingGlobal? then OwnCalls(s.h.cmd, s.h.outcome.status) else []
  }

  predicate CallInv(s: State) {
    s.calls == CallsOf(s.completed) + Partial(s)
  }

  lemma CallsNext(done: seq<Done>, d: Done)
    ensures CallsOf(done + [d]) ==
            CallsOf(done) + OwnCalls(d.cmd, d.outcome.status) + GlobalCalls(d.cmd, d.outcome.status, d.hasGlobal)
  {
    assert (done + [d])[..|done|] == done;
    CallsRegroup(CallsOf(done), OwnCalls(d.cmd, d.outcome.status), GlobalCalls(d.cmd, d.outcome.status, d.hasGlobal));
  }

  lemma CallsRegroup(a: seq<Call<nat>>, b: seq<Call<nat>>, c: seq<Call<nat>>)
    ensures a + b + c == a + (b + c) && a + [] == a
  {
  }

  lemma CallGlobalStep(s: State, a: Action)
    requires CallInv(s) && Enabled(s, a) && a.CallGlobal?
    ensures CallInv(Do(s, a))
  {
    var d, s' := Done(s.h.cmd, s.h.outcome, s.hasGlobal), Do(s, a);
    assert s'.completed == s.completed + [d] && Partial(s') == [];
    var own, glob := OwnCalls(d.cmd, d.outcome.status), GlobalCalls(d.cmd, d.outcome.status, d.hasGlobal);
    assert s'.calls == CallsOf(s.completed) + own + glob;
    CallsNext(s.completed, d);
    CallsRegroup(s'.calls, [], []);
  }

  lemma CallOwnStep(s: State, a: Action)
    requires CallInv(s) && Enabled(s, a) && a.CallOwn?
    ensures CallInv(Do(s, a))
  {
    CallsRegroup(CallsOf(s.completed), [], []);
  }

  // No other step makes a call, or changes which call comes next.
  predicate CallsNothing(s: State, a: Action)
    requires Enabled(s, a)
  {
    var s' := Do(s, a);
    && s'.calls == s.calls && s'.completed == s.completed
    && s'.h.CallingGlobal? == s.h.CallingGlobal? && (s.h.CallingGlobal? ==> s'.h == s.h)
  }

  lemma HandlerCallsNothing(s: State, a: Action)
    requires Enabled(s, a) && (a.Dequeue? || a.Serve? || a.Receive? || a.Exit?)
    ensures CallsNothing(s, a)
  {
  }

  lemma QueueCallsNothing(s: State, a: Action)
    requires Enabled(s, a) && (a.Insert? || a.LoadTid? || a.SendNew? || a.Drop? || a.SetGlobal?)
    ensures CallsNothing(s, a)
  {
  }

  lemma ControlCallsNothing(s: State, a: Action)
    requires ControlInv(s) && Enabled(s, a)
    requires a.StartSet? || a.StartTask? || a.StartFails? || a.StopCheck? || a.StopSend? || a.StopDone?
    ensures CallsNothing(s, a)
  {
  }

  lemma CallStep(s: State, a: Action)
    requires ControlInv(s) && CallInv(s) && Enabled(s, a)
    ensures CallInv(Do(s, a))
  {
    if a.CallGlobal? {
      CallGlobalStep(s, a);
    } else if a.CallOwn? {
      CallOwnStep(s, a);
    } else {
      if a.Dequeue? || a.Serve? || a.Receive? || a.Exit? {
        HandlerCallsNothing(s, a);
      } else if a.Insert? || a.LoadTid? || a.SendNew? || a.Drop? || a.SetGlobal? {
        QueueCallsNothing(s, a);
      } else {
        ControlCallsNothing(s, a);
      }
      assert CallsNothing(s, a);
    }
  }

  // In every run the callbacks made are those of the completed commands, in
  // completion order: its own callback if it has one and then the global one if
  // one is registered by then, once each and with the same status.
  lemma CallbacksFollowCompletions(s: State, acts: seq<Action>)
    requires Init(s) && Run(SYSTEM, s, acts)
    ensures CallInv(Final(SYSTEM, s, acts))
  {
    var inv := (x: State) => ControlInv(x) && CallInv(x);
    forall x, a | inv(x) && Enabled(x, a) ensures inv(Next(x, a)) {
      ControlStep(x, a);
      CallStep(x, a);
    }
    Invariance(SYSTEM, inv, s, acts);
  }

  // What the callbacks are told

  predicate Calling(h: Handler) { h.CallingOwn? || h.CallingGlobal? }

  predicate Told(o: Outcome) { Reports(o.status, o.replySize, o.sent) }

  predicate ToldInv(s: State) {
    && (Calling(s.h) ==> Told(s.h.outcome))
    && (forall i :: 0 <= i < |s.completed| ==> Told(s.completed[i].outcome))
  }

  lemma ToldStep(s: State, a: Action)
    requires ToldInv(s) && Enabled(s, a)
    ensures ToldInv(Do(s, a))
  {
    if a.CallGlobal? {
      assert Do(s, a).completed == s.completed + [Done(s.h.cmd, s.h.outcome, s.hasGlobal)];
    } else if OfHandler(a) {
      HandlerCallsNothingElse(s, a);
    } else {
      OthersCallNothing(s, a);
    }
  }

  lemma HandlerCallsNothingElse(s: State, a: Action)
    requires ToldInv(s) && Enabled(s, a) && OfHandler(a) && !a.CallGlobal?
    ensures Do(s, a).completed == s.completed && (Calling(Do(s, a).h) ==> Told(Do(s, a).h.outcome))
  {
  }

  lemma OthersCallNothing(s: State, a: Action)
    requires Enabled(s, a) && !OfHandler(a)
    ensures Do(s, a).completed == s.completed && (Calling(Do(s, a).h) ==> Do(s, a).h == s.h)
  {
  }

  // What the last server callback returned, and the reply's send.
  function LastServe(acts: seq<Action>): (int, nat) {
    if acts == [] then (0, 0)
    else
      match acts[|acts| - 1]
      case Serve(replySize, sent) => (replySize, sent)
      case _ => LastServe(acts[..|acts| - 1])
  }

  // Whether a global callback was registered last.
  function Registered(first: bool, acts: seq<Action>): bool {
    if acts == [] then first
    else
      match acts[|acts| - 1]
      case SetGlobal(on) => on
      case _ => Registered(first, acts[..|acts| - 1])
  }

  predicate FollowsActs(s: State, first: bool, acts: seq<Action>) {
    && s.hasGlobal == Registered(first, acts)
    && (Calling(s.h) ==> (s.h.outcome.replySize, s.h.outcome.sent) == LastServe(acts))
  }

  lemma HandlerOnlyCalls(s: State, a: Action)
    requires Enabled(s, a) && OfHandler(a) && !a.Serve? && Calling(Do(s, a).h)
    ensures Calling(s.h) && Do(s, a).h.outcome == s.h.outcome
  {
  }

  lemma GlobalStays(s: State, a: Action)
    requires Enabled(s, a)
    ensures Do(s, a).hasGlobal == if a.SetGlobal? then a.on else s.hasGlobal
  {
  }

  lemma FollowsStep(s: State, first: bool, acts: seq<Action>)
    requires acts != [] && FollowsActs(s, first, acts[..|acts| - 1]) && Enabled(s, acts[|acts| - 1])
    ensures FollowsActs(Do(s, acts[|acts| - 1]), first, acts)
  {
    var a := acts[|acts| - 1];
    var s' := Do(s, a);
    GlobalStays(s, a);
    if Calling(s'.h) {
      if a.Serve? {
        assert s'.h.outcome.replySize == a.replySize && s'.h.outcome.sent == a.sent;
      } else {
        if OfHandler(a) { HandlerOnlyCalls(s, a); } else { OthersCallNothing(s, a); }
      }
    }
  }

  lemma {:induction false} StateFollowsActs(s: State, acts: seq<Action>)
    requires Init(s) && Run(SYSTEM, s, acts)
    ensures ToldInv(Final(SYSTEM, s, acts)) && FollowsActs(Final(SYSTEM, s, acts), s.hasGlobal, acts)
    decreases |acts|
  {
    if acts != [] {
      StateFollowsActs(s, acts[..|acts| - 1]);
      ToldStep(Final(SYSTEM, s, acts[..|acts| - 1]), acts[|acts| - 1]);
      FollowsStep(Final(SYSTEM, s, acts[..|acts| - 1]), s.hasGlobal, acts);
    }
  }

  // In every run each completed command reports what the server and the reply's send
  // answered for it, and has the global callback called if one was registered by then.
  lemma CompletionsReport(s: State, acts: seq<Action>)
    requires Init(s) && Run(SYSTEM, s, acts)
    ensures var f := Final(SYSTEM, s, acts);
            && (forall i :: 0 <= i < |f.completed| ==>
                  var o := f.completed[i].outcome; Reports(o.status, o.replySize, o.sent))
            && (f.ring.Valid() && f.h.CallingGlobal? ==>
                  var o, (replySize, sent) := f.h.outcome, LastServe(acts);
                  && o.replySize == replySize && o.sent == sent
                  && Do(f, CallGlobal).completed == f.completed + [Done(f.h.cmd, o, Registered(s.hasGlobal, acts))])
  {
    StateFollowsActs(s, acts);
  }
}
