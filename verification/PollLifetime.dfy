// A shared-memory link and its two poll tasks: connecting with rollback, closing
// with the stop handshake, and polling, interleaved at every step.
module PollLifetime {
  import opened Options
  import opened Runs

  // shm_poll_task
  datatype Task =
    | Absent
    | Polling                                // in rtems_event_receive for EXIT, with timeout
    | Sampling                               // about to load the region's status
    | InCallback
    | Stopping                               // about to clear `running`
    | Ended

  // One struct shmem_poll: its task, the task's pending EXIT, the running flag,
  // and whether the struct itself is allocated.
  datatype Poller = Poller(task: Task, exitPending: bool, running: bool, memory: bool)

  datatype Which = Recv | Ack

  // Where the task that owns the link is in connect or close.
  datatype Owner =
    | Begin | OpeningOut | OpeningIn | StartingRecv | StartingAck
    | Open
    | Sending(which: Which)                  // shmem_poll_task_destroy: about to send EXIT
    | Awaiting(which: Which)                 // waiting for `running` to be cleared
    | RollbackSending | RollbackAwaiting
    | Freeing
    | Gone

  // `link`, `inRegion` and `outRegion`: whether the link and its two shmem
  // handles are allocated.
  datatype State = State(owner: Owner, link: bool, inRegion: bool, outRegion: bool, recv: Poller, ack: Poller)

  datatype Action =
    | Proceed(ok: bool)
    | SendFails
    | Tick(which: Which, raised: bool)

  const IDLE: Poller := Poller(Absent, false, false, false)

  predicate Init(s: State) {
    s.owner.Begin? && !s.link && !s.inRegion && !s.outRegion && s.recv == IDLE && s.ack == IDLE
  }

  function Get(s: State, w: Which): Poller { if w.Recv? then s.recv else s.ack }

  function Set(s: State, w: Which, p: Poller): State { if w.Recv? then s.(recv := p) else s.(ack := p) }

  predicate Enabled(s: State, a: Action) {
    match a
    case Proceed(_) =>
      && !s.owner.Gone?
      && (s.owner.Awaiting? ==> !Get(s, s.owner.which).running)
      && (s.owner.RollbackAwaiting? ==> !s.recv.running)
    case SendFails => s.owner.Sending? || s.owner.RollbackSending?
    case Tick(w, _) => !Get(s, w).task.Absent? && !Get(s, w).task.Ended?
  }

  function AfterStop(w: Which): Owner { if w.Ack? then Sending(Recv) else Freeing }

  function AllFreed(s: State): State { s.(owner := Gone, link := false, inRegion := false, outRegion := false) }

  // One statement of connect or close; `ok` is the answer of malloc or of
  // rtems_task_start.
  function OwnerStep(s: State, ok: bool): State {
    match s.owner
    case Begin => if ok then s.(link := true, owner := OpeningOut) else s.(owner := Gone)
    case OpeningOut => if ok then s.(outRegion := true, owner := OpeningIn) else AllFreed(s)
    case OpeningIn => if ok then s.(inRegion := true, owner := StartingRecv) else AllFreed(s)
    case StartingRecv =>
      if ok then s.(recv := Poller(Polling, false, true, true), owner := StartingAck) else AllFreed(s)
    case StartingAck =>
      if ok then s.(ack := Poller(Polling, false, true, true), owner := Open) else s.(owner := RollbackSending)
    case Open => s.(owner := Sending(Ack))
    case Sending(w) => Set(s, w, Get(s, w).(exitPending := true)).(owner := Awaiting(w))
    case Awaiting(w) => Set(s, w, Get(s, w).(memory := false)).(owner := AfterStop(w))
    case RollbackSending => s.(recv := s.recv.(exitPending := true), owner := RollbackAwaiting)
    case RollbackAwaiting => AllFreed(s.(recv := s.recv.(memory := false)))
    case Freeing => AllFreed(s)
    case Gone => s
  }

  // One statement of the poll task; `raised` is what it finds in the status word.
  function TaskStep(p: Poller, raised: bool): Poller {
    match p.task
    case Polling => if p.exitPending then p.(task := Stopping, exitPending := false) else p.(task := Sampling)
    case Sampling => p.(task := if raised then InCallback else Polling)
    case InCallback => p.(task := Polling)
    case Stopping => p.(task := Ended, running := false)
    case _ => p
  }

  function Do(s: State, a: Action): State {
    match a
    case Proceed(ok) => OwnerStep(s, ok)
    // the source notes the failure and goes on freeing
    case SendFails =>
      if s.owner.Sending? then s.(owner := AfterStop(s.owner.which)) else AllFreed(s)
    case Tick(w, raised) => Set(s, w, TaskStep(Get(s, w), raised))
  }

  const ANY: Machine<State, Action, ()> := Machine(Enabled, Do, (s, a) => [])

  predicate Proper(s: State, a: Action) { Enabled(s, a) && !a.SendFails? }

  const GOOD: Machine<State, Action, ()> := Machine(Proper, Do, (s, a) => [])

  // A task that can still run.
  predicate Live(p: Poller) { !p.task.Absent? && !p.task.Ended? }

  predicate PollerOk(p: Poller) {
    && (p.running <==> Live(p))
    && (Live(p) ==> p.memory)
  }

  // Started, and not told to exit yet.
  predicate Serving(p: Poller) { Live(p) && !p.exitPending && !p.task.Stopping? }

  predicate Allocated(s: State) { s.link && s.inRegion && s.outRegion }

  // Live tasks of which have been sent EXIT.
  predicate Told(p: Poller) { p.exitPending || p.task.Stopping? || !Live(p) }

  // Its task has ended or was never started, and its struct is freed.
  predicate Released(p: Poller) { !Live(p) && !p.memory }

  predicate AllReleased(s: State) {
    !s.link && !s.inRegion && !s.outRegion && Released(s.recv) && Released(s.ack)
  }

  // How far connect and close have got, against who can still run.
  predicate Inv(s: State) {
    && PollerOk(s.recv) && PollerOk(s.ack)
    && (Live(s.recv) || Live(s.ack) ==> Allocated(s))
    && (match s.owner
        case Begin => !s.link && !s.outRegion && !s.inRegion && Released(s.recv) && Released(s.ack)
        case OpeningOut => s.link && !s.outRegion && !s.inRegion && Released(s.recv) && Released(s.ack)
        case OpeningIn => s.link && s.outRegion && !s.inRegion && Released(s.recv) && Released(s.ack)
        case StartingRecv => Allocated(s) && Released(s.recv) && Released(s.ack)
        case StartingAck | RollbackSending => Serving(s.recv) && Released(s.ack)
        case RollbackAwaiting => s.link && Told(s.recv) && Released(s.ack)
        case Open => Serving(s.recv) && Serving(s.ack)
        case Sending(w) => if w.Ack? then Serving(s.recv) && Serving(s.ack) else Serving(s.recv) && Released(s.ack)
        case Awaiting(w) =>
          s.link && if w.Ack? then Serving(s.recv) && Told(s.ack) else Told(s.recv) && Released(s.ack)
        case Freeing => s.link && Released(s.recv) && Released(s.ack)
        case Gone => AllReleased(s))
  }

  lemma OwnerKeeps(s: State, ok: bool)
    requires Inv(s) && Enabled(s, Proceed(ok))
    ensures Inv(OwnerStep(s, ok))
  {
  }

  lemma TickKeeps(s: State, w: Which, raised: bool)
    requires Inv(s) && Enabled(s, Tick(w, raised))
    ensures Inv(Do(s, Tick(w, raised)))
  {
  }

  // What a poll task may touch at any point: its own struct, the link behind its
  // callback, and the region it polls.
  predicate MayTouch(s: State, w: Which) {
    Get(s, w).memory && s.link && (if w.Recv? then s.inRegion else s.outRegion)
  }

  lemma InvHolds(s: State, acts: seq<Action>)
    requires Init(s) && Run(GOOD, s, acts)
    ensures Inv(Final(GOOD, s, acts))
  {
    forall x, a | Inv(x) && Proper(x, a) ensures Inv(Do(x, a)) {
      if a.Proceed? { OwnerKeeps(x, a.ok); } else { TickKeeps(x, a.which, a.raised); }
    }
    Invariance(GOOD, Inv, s, acts);
  }

  // In every interleaving with connect, rollback and a close whose events are
  // delivered, a poll task that can still run finds everything it touches
  // allocated; and EXIT is only ever sent to a task that has not ended.
  lemma NoUseAfterFree(s: State, acts: seq<Action>)
    requires Init(s) && Run(GOOD, s, acts)
    ensures var f := Final(GOOD, s, acts);
            && (forall w :: Live(Get(f, w)) ==> MayTouch(f, w))
            && (f.owner.Sending? ==> Live(Get(f, f.owner.which)))
            && (f.owner.RollbackSending? ==> Live(f.recv))
            && (f.owner.Gone? ==> !f.recv.running && !f.ack.running)
  {
    InvHolds(s, acts);
  }

  // Steps a task still takes once EXIT is pending.
  function StepsToEnd(p: Poller): nat {
    match p.task case Sampling => 4 case InCallback => 3 case Polling => 2 case Stopping => 1 case _ => 0
  }

  // The wait for `running` ends: with EXIT pending every step of the task brings
  // its end closer, whatever it finds in the status word.
  lemma StopTerminates(p: Poller, raised: bool)
    requires Live(p) && (p.exitPending || p.task.Stopping?)
    ensures var q := TaskStep(p, raised);
            && StepsToEnd(q) < StepsToEnd(p) && (Live(q) ==> q.exitPending || q.task.Stopping?)
            && (!Live(q) ==> !q.running)
  {
  }

  // A connect that failed, and a close, leave nothing allocated.
  lemma NothingLeaks(s: State, acts: seq<Action>)
    requires Init(s) && Run(GOOD, s, acts) && Final(GOOD, s, acts).owner.Gone?
    ensures var f := Final(GOOD, s, acts);
            !f.link && !f.inRegion && !f.outRegion && !f.recv.memory && !f.ack.memory
  {
    InvHolds(s, acts);
  }

  // Steps the owner still takes, were it to close as soon as it can.
  function OwnerSteps(o: Owner): nat {
    match o
    case Begin => 11
    case OpeningOut => 10
    case OpeningIn => 9
    case StartingRecv => 8
    case StartingAck => 7
    case Open => 6
    case Sending(w) => if w.Ack? then 5 else 3
    case Awaiting(w) => if w.Ack? then 4 else 2
    case RollbackSending => 5
    case RollbackAwaiting => 2
    case Freeing => 1
    case Gone => 0
  }

  // The task whose end the owner is waiting for.
  function Awaited(s: State): Option<Which> {
    match s.owner
    case Awaiting(w) => Some(w)
    case RollbackAwaiting => Some(Recv)
    case _ => None
  }

  // Every step of the owner brings its end closer, and while it has to wait, every step of
  // the task that it waits for does.
  lemma OwnerAdvances(s: State, ok: bool)
    requires Inv(s) && Enabled(s, Proceed(ok))
    ensures OwnerSteps(OwnerStep(s, ok).owner) < OwnerSteps(s.owner)
  {
  }

  lemma TaskAdvances(s: State, raised: bool)
    requires Inv(s) && Awaited(s).Some? && !Enabled(s, Proceed(true))
    ensures var w := Awaited(s).value;
            && Enabled(s, Tick(w, raised))
            && Do(s, Tick(w, raised)).owner == s.owner
            && StepsToEnd(Get(Do(s, Tick(w, raised)), w)) < StepsToEnd(Get(s, w))
  {
    StopTerminates(Get(s, Awaited(s).value), raised);
  }

  // So from wherever connect and close have got, a close can come to its end.
  lemma {:induction false} CanFinish(s: State, x: State)
    requires Reaches(GOOD, s, [], x) && Inv(x)
    ensures exists z :: Reaches(GOOD, s, [], z) && z.owner.Gone?
    decreases OwnerSteps(x.owner), if Awaited(x).Some? then StepsToEnd(Get(x, Awaited(x).value)) else 0
  {
    if !x.owner.Gone? {
      var a := if Enabled(x, Proceed(true)) then Proceed(true) else Tick(Awaited(x).value, false);
      if a.Proceed? {
        OwnerAdvances(x, true);
        OwnerKeeps(x, true);
      } else {
        TaskAdvances(x, false);
        TickKeeps(x, a.which, false);
      }
      ReachesSilently(GOOD, s, [], x, a);
      CanFinish(s, Do(x, a));
    }
  }

  lemma CloseCompletes(s: State, acts: seq<Action>)
    requires Init(s) && Run(GOOD, s, acts)
    ensures exists z :: Reaches(GOOD, Final(GOOD, s, acts), [], z) && z.owner.Gone?
  {
    InvHolds(s, acts);
    ReachesSelf(GOOD, Final(GOOD, s, acts));
    CanFinish(Final(GOOD, s, acts), Final(GOOD, s, acts));
  }

  ghost predicate Can(s: State, x: State) { Reaches(ANY, s, [], x) }

  lemma Then(s: State, x: State, a: Action, y: State)
    requires Can(s, x) && Enabled(x, a) && y == Do(x, a)
    ensures Can(s, y)
  {
    ReachesSilently(ANY, s, [], x, a);
  }

  const SERVING: Poller := Poller(Polling, false, true, true)

  lemma Opened(s: State)
    requires Init(s)
    ensures Can(s, State(Open, true, true, true, SERVING, SERVING))
  {
    ReachesSelf(ANY, s);
    var x1 := State(OpeningOut, true, false, false, IDLE, IDLE);
    var x2 := State(OpeningIn, true, false, true, IDLE, IDLE);
    var x3 := State(StartingRecv, true, true, true, IDLE, IDLE);
    var x4 := State(StartingAck, true, true, true, SERVING, IDLE);
    Then(s, s, Proceed(true), x1);
    Then(s, x1, Proceed(true), x2);
    Then(s, x2, Proceed(true), x3);
    Then(s, x3, Proceed(true), x4);
    Then(s, x4, Proceed(true), State(Open, true, true, true, SERVING, SERVING));
  }

  // If the EXIT event cannot be sent, close still frees the link, and the poll
  // task calls back into freed memory.
  lemma FailedSendIsUnsafe(s: State)
    requires Init(s)
    ensures exists x :: Reaches(ANY, s, [], x) && x.ack.task.InCallback? && !MayTouch(x, Ack)
  {
    Opened(s);
    var open := State(Open, true, true, true, SERVING, SERVING);
    var freed := AllFreed(open);
    Then(s, open, Proceed(true), open.(owner := Sending(Ack)));
    Then(s, open.(owner := Sending(Ack)), SendFails, open.(owner := Sending(Recv)));
    Then(s, open.(owner := Sending(Recv)), SendFails, open.(owner := Freeing));
    Then(s, open.(owner := Freeing), Proceed(true), freed);
    Then(s, freed, Tick(Ack, true), freed.(ack := SERVING.(task := Sampling)));
    Then(s, freed.(ack := SERVING.(task := Sampling)), Tick(Ack, true), freed.(ack := SERVING.(task := InCallback)));
  }

  // What a failed send costs

  predicate SomeSendFails(acts: seq<Action>) { exists k :: 0 <= k < |acts| && acts[k].SendFails? }

  // A poll task that was not told to exit, and whose owner will not tell it any more.
  predicate Abandoned(s: State) {
    || (Serving(s.ack) && (s.owner == Sending(Recv) || s.owner == Awaiting(Recv) || s.owner.Freeing? || s.owner.Gone?))
    || (Serving(s.recv) && (s.owner.Freeing? || s.owner.Gone?))
  }

  predicate AbandonedInv(s: State) { Abandoned(s) && (s.owner.Gone? ==> !s.link) }

  lemma AbandonedTick(s: State, a: Action)
    requires AbandonedInv(s) && Enabled(s, a) && a.Tick?
    ensures AbandonedInv(Do(s, a))
  {
  }

  lemma AbandonedStep(s: State, a: Action)
    requires AbandonedInv(s) && Enabled(s, a)
    ensures AbandonedInv(Do(s, a))
  {
    if a.Tick? {
      AbandonedTick(s, a);
    }
  }

  // A failed send abandons the task it was meant for.
  lemma FailureAbandons(s: State)
    requires Inv(s) && Enabled(s, SendFails)
    ensures AbandonedInv(Do(s, SendFails))
  {
  }

  lemma {:induction false} AnyRun(s: State, acts: seq<Action>)
    requires Init(s) && Run(ANY, s, acts)
    ensures if SomeSendFails(acts) then AbandonedInv(Final(ANY, s, acts)) else Inv(Final(ANY, s, acts))
    decreases |acts|
  {
    if acts != [] {
      var before, a := acts[..|acts| - 1], acts[|acts| - 1];
      AnyRun(s, before);
      var x := Final(ANY, s, before);
      assert SomeSendFails(acts) <==> SomeSendFails(before) || a.SendFails? by {
        assert acts == before + [a];
        if SomeSendFails(before) {
          var k :| 0 <= k < |before| && before[k].SendFails?;
          assert acts[k].SendFails?;
        }
      }
      if SomeSendFails(before) {
        AbandonedStep(x, a);
      } else if a.SendFails? {
        FailureAbandons(x);
      } else if a.Proceed? {
        OwnerKeeps(x, a.ok);
      } else {
        TickKeeps(x, a.which, a.raised);
      }
    }
  }

  // Once a link is gone, its live poll tasks find what they touch if and only if no
  // EXIT event failed to be sent.
  lemma SafeIffEverySendSucceeds(s: State, acts: seq<Action>)
    requires Init(s) && Run(ANY, s, acts) && Final(ANY, s, acts).owner.Gone?
    ensures var f := Final(ANY, s, acts);
            (forall w :: Live(Get(f, w)) ==> MayTouch(f, w)) <==> !SomeSendFails(acts)
  {
    AnyRun(s, acts);
    var f := Final(ANY, s, acts);
    if SomeSendFails(acts) {
      assert Live(Get(f, Ack)) || Live(Get(f, Recv));
    }
  }
}
