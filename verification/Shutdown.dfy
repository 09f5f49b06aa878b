// Shutting down: the handler is stopped, the stored links are closed, the queue
// is dropped, while callbacks of links that are still open keep arriving.
module Shutdown {
  import opened Runs

  type LinkId = nat

  datatype Handler = Stopped | Idle | InHand(l: LinkId) | Exiting

  datatype Controller =
    | Start
    | AwaitingExit                       // EXIT sent, waiting for the handler task
    | Draining                           // about to extract the next stored link
    | Disconnecting(l: LinkId)
    | Dropping                           // about to drop the queue
    | Done

  // `live` are the links whose memory is allocated, `callbacks` the receive
  // callbacks that have started and not yet enqueued, `queue` the links of the
  // queued commands, `closed` the links closed so far, `exit` a pending EXIT. The
  // handler is `Stopped` also if it was never started.
  datatype State = State(store: seq<LinkId>, live: set<LinkId>, queue: seq<LinkId>,
                         callbacks: map<nat, LinkId>, h: Handler, exit: bool,
                         ctl: Controller, closed: seq<LinkId>)

  datatype Action =
    | Receive(t: nat, l: LinkId) | Enqueue(t: nat)
    | Take | Finish | NoticeExit | Exit
    | Stop | StopFails | NoHandler | Exited | Extract | Disconnect | DropAll

  predicate Distinct(s: seq<LinkId>) { forall i, j :: 0 <= i < j < |s| ==> s[i] != s[j] }

  predicate Init(s: State) {
    && Distinct(s.store) && (forall i :: 0 <= i < |s.store| ==> s.store[i] in s.live)
    && (forall i :: 0 <= i < |s.queue| ==> s.queue[i] in s.live)
    && s.callbacks == map[] && !s.exit && s.ctl.Start? && s.closed == []
    && !s.h.Exiting? && (s.h.InHand? ==> s.h.l in s.live)
  }

  predicate Enabled(s: State, a: Action) {
    match a
    // a callback runs only on a link that is open and not past its release
    case Receive(t, l) => t !in s.callbacks && l in s.live
    case Enqueue(t) => t in s.callbacks
    case Take => s.h.Idle? && s.queue != []
    case Finish => s.h.InHand?
    case NoticeExit => s.h.Idle? && s.exit
    case Exit => s.h.Exiting?
    // the EXIT event is sent, or cannot be sent, or there is no task to send it to
    case Stop => s.ctl.Start? && !s.h.Stopped?
    case StopFails => s.ctl.Start? && !s.h.Stopped?
    case NoHandler => s.ctl.Start? && s.h.Stopped?
    case Exited => s.ctl.AwaitingExit? && s.h.Stopped?
    case Extract => s.ctl.Draining?
    // closing waits on the channel locks until no callback of the link runs
    case Disconnect => s.ctl.Disconnecting? && s.ctl.l !in s.callbacks.Values
    case DropAll => s.ctl.Dropping?
  }

  function Do(s: State, a: Action): State
    requires Enabled(s, a)
  {
    match a
    case Receive(t, l) => s.(callbacks := s.callbacks[t := l])
    case Enqueue(t) => s.(queue := s.queue + [s.callbacks[t]], callbacks := s.callbacks - {t})
    case Take => s.(h := InHand(s.queue[0]), queue := s.queue[1..])
    case Finish => s.(h := Idle)
    case NoticeExit => s.(h := Exiting, exit := false)
    case Exit => s.(h := Stopped)
    case Stop => s.(exit := true, ctl := AwaitingExit)
    case StopFails => s.(ctl := Draining)
    case NoHandler => s.(ctl := Draining)
    case Exited => s.(ctl := Draining)
    case Extract =>
      if s.store == [] then s.(ctl := Dropping)
      else s.(ctl := Disconnecting(s.store[0]), store := s.store[1..])
    case Disconnect => s.(live := s.live - {s.ctl.l}, closed := s.closed + [s.ctl.l], ctl := Draining)
    case DropAll => s.(queue := [], ctl := Done)
  }

  const ANY: Machine<State, Action, ()> := Machine(Enabled, Next, (s, a) => [])

  predicate Proper(s: State, a: Action) { Enabled(s, a) && !a.StopFails? }

  const GOOD: Machine<State, Action, ()> := Machine(Proper, Next, (s, a) => [])

  function Next(s: State, a: Action): State { if Enabled(s, a) then Do(s, a) else s }

  predicate BeforeDrain(c: Controller) { c.Start? || c.AwaitingExit? }

  // The stored links still to be closed.
  function Remaining(s: State): seq<LinkId> {
    (if s.ctl.Disconnecting? then [s.ctl.l] else []) + s.store
  }

  predicate Inv(s: State, all: seq<LinkId>) {
    && s.closed + Remaining(s) == all
    && (forall t :: t in s.callbacks ==> s.callbacks[t] in s.live)
    && (forall i :: 0 <= i < |Remaining(s)| ==> Remaining(s)[i] in s.live)
    && (forall i :: 0 <= i < |s.closed| ==> s.closed[i] !in s.live)
    && (BeforeDrain(s.ctl) ==> forall i :: 0 <= i < |s.queue| ==> s.queue[i] in s.live)
    && (s.h.InHand? ==> BeforeDrain(s.ctl) && s.h.l in s.live)
    && (s.ctl.AwaitingExit? && !s.h.Stopped? ==> s.exit || s.h.Exiting?)
    && (s.exit || s.h.Exiting? ==> s.ctl.AwaitingExit?) && (s.exit ==> s.h.Idle? || s.h.InHand?)
    && (!BeforeDrain(s.ctl) ==> s.h.Stopped?)
    && (s.ctl.Dropping? || s.ctl.Done? ==> s.store == [])
    && (s.ctl.Done? ==> forall i :: 0 <= i < |s.queue| ==> s.queue[i] in s.live)
  }

  // Closing the next link leaves the ones after it open.
  lemma RestStaysLive(s: State, all: seq<LinkId>)
    requires Distinct(all) && Inv(s, all) && Enabled(s, Disconnect)
    ensures forall i :: 0 <= i < |s.store| ==> s.store[i] in s.live - {s.ctl.l}
  {
    var n := |s.closed|;
    assert all[n] == s.ctl.l;
    forall i | 0 <= i < |s.store| ensures s.store[i] in s.live - {s.ctl.l} {
      assert Remaining(s)[i + 1] == s.store[i];
      assert all[n + 1 + i] == s.store[i];
    }
  }

  lemma DisconnectKeeps(s: State, all: seq<LinkId>)
    requires Distinct(all) && Inv(s, all) && Enabled(s, Disconnect)
    ensures Inv(Do(s, Disconnect), all)
  {
    var s' := Do(s, Disconnect);
    RestStaysLive(s, all);
    assert Remaining(s') == s.store && Remaining(s) == [s.ctl.l] + s.store;
    assert s.closed + [s.ctl.l] + s.store == s.closed + ([s.ctl.l] + s.store);
    forall t | t in s'.callbacks ensures s'.callbacks[t] in s'.live {
      assert s.callbacks[t] in s.callbacks.Values;
    }
  }

  lemma ExtractKeeps(s: State, all: seq<LinkId>)
    requires Inv(s, all) && Enabled(s, Extract)
    ensures Inv(Do(s, Extract), all)
  {
    assert Remaining(Do(s, Extract)) == Remaining(s);
  }

  lemma OthersKeep(s: State, a: Action, all: seq<LinkId>)
    requires Inv(s, all) && Proper(s, a) && !a.Disconnect? && !a.Extract?
    ensures Inv(Do(s, a), all)
  {
    assert Remaining(Do(s, a)) == Remaining(s);
  }

  lemma InvHolds(s: State, acts: seq<Action>)
    requires Init(s) && Run(GOOD, s, acts)
    ensures Inv(Final(GOOD, s, acts), s.store)
  {
    var all := s.store;
    var inv := (x: State) => Inv(x, all);
    forall x, a | inv(x) && Proper(x, a) ensures inv(Next(x, a)) {
      if a.Disconnect? { DisconnectKeeps(x, all); }
      else if a.Extract? { ExtractKeeps(x, all); }
      else { OthersKeep(x, a, all); }
    }
    assert s.closed + Remaining(s) == all;
    Invariance(GOOD, inv, s, acts);
  }

  // Shutdown order. When stopping the handler succeeds, or none is running, in every
  // interleaving with late callbacks: the command in hand never has a freed link, the
  // handler ends only when it is told to, the links closed so far are the stored ones from
  // the front, each once, all of them by the time the queue is dropped, and from then on no
  // queued command has a freed link.
  lemma ShutdownIsSafe(s: State, acts: seq<Action>)
    requires Init(s) && Run(GOOD, s, acts)
    ensures var f := Final(GOOD, s, acts);
            && (f.h.InHand? ==> f.h.l in f.live)
            && (f.h.Exiting? ==> f.ctl.AwaitingExit?)
            && f.closed <= s.store
            && (forall i :: 0 <= i < |f.closed| ==> f.closed[i] !in f.live)
            && (f.ctl.Dropping? || f.ctl.Done? ==> f.closed == s.store)
            && (f.ctl.Done? ==> forall i :: 0 <= i < |f.queue| ==> f.queue[i] in f.live)
  {
    InvHolds(s, acts);
    var f := Final(GOOD, s, acts);
    if f.ctl.Dropping? || f.ctl.Done? {
      assert Remaining(f) == [];
    }
  }

  // The controller's own steps left.
  function Rank(s: State): nat {
    match s.ctl
    case Start => 4 + 2 * |s.store|
    case AwaitingExit => 3 + 2 * |s.store|
    case Draining => 2 + 2 * |s.store|
    case Disconnecting(_) => 3 + 2 * |s.store|
    case Dropping => 1
    case Done => 0
  }

  predicate OfController(a: Action) {
    a.Stop? || a.StopFails? || a.NoHandler? || a.Exited? || a.Extract? || a.Disconnect? || a.DropAll?
  }

  // The drain terminates: each of the controller's steps brings its end closer and
  // nobody else's step moves it away.
  lemma DrainTerminates(s: State, a: Action)
    requires Enabled(s, a)
    ensures if OfController(a) then Rank(Do(s, a)) < Rank(s) else Rank(Do(s, a)) == Rank(s)
  {
  }

  // The steps of others that the controller may have to wait for: the handler's, and
  // those of callbacks that run already.
  function HandlerLeft(h: Handler): nat {
    match h case InHand(_) => 3 case Idle => 2 case Exiting => 1 case Stopped => 0
  }

  predicate Closer(s: State, s': State) {
    || Rank(s') < Rank(s)
    || (Rank(s') == Rank(s) && HandlerLeft(s'.h) < HandlerLeft(s.h))
    || (Rank(s') == Rank(s) && s'.h == s.h && |s'.callbacks| < |s.callbacks|)
  }

  // And it cannot block: until the shutdown is done, some step brings it closer.
  lemma CanAdvance(s: State, acts: seq<Action>) returns (a: Action)
    requires Init(s) && Run(GOOD, s, acts) && !Final(GOOD, s, acts).ctl.Done?
    ensures Proper(Final(GOOD, s, acts), a) && Closer(Final(GOOD, s, acts), Do(Final(GOOD, s, acts), a))
  {
    InvHolds(s, acts);
    a := StepCloser(Final(GOOD, s, acts), s.store);
  }

  lemma StepCloser(f: State, all: seq<LinkId>) returns (a: Action)
    requires Inv(f, all) && !f.ctl.Done?
    ensures Proper(f, a) && Closer(f, Do(f, a))
  {
    match f.ctl
    case Start => a := if f.h.Stopped? then NoHandler else Stop;
    case AwaitingExit => a := HandlerCloser(f, all);
    case Draining => a := Extract;
    case Disconnecting(_) => a := CloseOrWait(f);
    case Dropping => a := DropAll;
  }

  lemma HandlerCloser(f: State, all: seq<LinkId>) returns (a: Action)
    requires Inv(f, all) && f.ctl.AwaitingExit?
    ensures Proper(f, a) && Closer(f, Do(f, a))
  {
    match f.h
    case Stopped => a := Exited;
    case Idle => a := NoticeExit;
    case InHand(_) => a := Finish;
    case Exiting => a := Exit;
  }

  lemma CloseOrWait(f: State) returns (a: Action)
    requires f.ctl.Disconnecting?
    ensures Proper(f, a) && Closer(f, Do(f, a))
  {
    if f.ctl.l in f.callbacks.Values {
      var t :| t in f.callbacks && f.callbacks[t] == f.ctl.l;
      a := Enqueue(t);
      CallbackGone(f.callbacks, t);
    } else {
      a := Disconnect;
    }
  }

  lemma CallbackGone(m: map<nat, LinkId>, t: nat)
    requires t in m
    ensures |m - {t}| < |m|
  {
    assert m.Keys == (m - {t}).Keys + {t};
  }

  // When the handler cannot be stopped

  lemma Then(s: State, x: State, a: Action) returns (y: State)
    requires Reaches(ANY, s, [], x) && Enabled(x, a)
    ensures Reaches(ANY, s, [], y) && y == Do(x, a)
  {
    ReachesSilently(ANY, s, [], x, a);
    y := Do(x, a);
  }

  // The handler works off what is queued.
  lemma {:induction false} WorkOff(s: State, x: State) returns (y: State)
    requires Reaches(ANY, s, [], x) && x.h.Idle?
    ensures Reaches(ANY, s, [], y) && y == x.(queue := [])
    decreases |x.queue|
  {
    if x.queue == [] {
      y := x;
    } else {
      y := Then(s, x, Take);
      y := Then(s, y, Finish);
      y := WorkOff(s, y);
    }
  }

  predicate Unsafe(s: State) { s.h.InHand? && s.h.l !in s.live }

  // A command of a freed link can then be handled, if there is a link to be freed.
  lemma FailedStopIsUnsafe(s: State)
    requires Init(s) && !s.h.Stopped? && s.store != []
    ensures exists x :: Reaches(ANY, s, [], x) && Unsafe(x)
  {
    ReachesSelf(ANY, s);
    var x, l := s, s.store[0];
    if x.h.InHand? {
      x := Then(s, x, Finish);
    }
    x := WorkOff(s, x);
    x := Then(s, x, Receive(0, l));
    x := Then(s, x, Enqueue(0));
    x := Then(s, x, StopFails);
    x := Then(s, x, Extract);
    assert x.callbacks == map[];
    x := Then(s, x, Disconnect);
    x := Then(s, x, Take);
  }

  // Nothing is freed when there is nothing to close.
  predicate NothingFreed(s: State) {
    && s.store == [] && !s.ctl.Disconnecting?
    && (forall t :: t in s.callbacks ==> s.callbacks[t] in s.live)
    && (forall i :: 0 <= i < |s.queue| ==> s.queue[i] in s.live)
    && (s.h.InHand? ==> s.h.l in s.live)
  }

  lemma NothingFreedStep(s: State, a: Action)
    requires NothingFreed(s) && Enabled(s, a)
    ensures NothingFreed(Do(s, a))
  {
  }

  lemma EmptyStoreIsSafe(s: State, acts: seq<Action>)
    requires Init(s) && s.store == [] && Run(ANY, s, acts)
    ensures !Unsafe(Final(ANY, s, acts))
  {
    forall x, a | NothingFreed(x) && Enabled(x, a) ensures NothingFreed(Next(x, a)) {
      NothingFreedStep(x, a);
    }
    Invariance(ANY, NothingFreed, s, acts);
  }

  // Without a handler task there is nothing to stop, and stopping cannot fail.
  lemma {:induction false} NoHandlerIsProper(s: State, acts: seq<Action>)
    requires Init(s) && s.h.Stopped? && Run(ANY, s, acts)
    ensures Run(GOOD, s, acts) && Final(GOOD, s, acts) == Final(ANY, s, acts) && Final(ANY, s, acts).h.Stopped?
    decreases |acts|
  {
    if acts != [] {
      NoHandlerIsProper(s, acts[..|acts| - 1]);
    }
  }

  // So from a given start the shutdown can go wrong if and only if a handler task is
  // running, whose stop can fail, and some link is stored.
  lemma UnsafeExactly(s: State)
    requires Init(s)
    ensures (exists x :: Reaches(ANY, s, [], x) && Unsafe(x)) <==> !s.h.Stopped? && s.store != []
  {
    if !s.h.Stopped? && s.store != [] {
      FailedStopIsUnsafe(s);
    } else {
      forall x | Reaches(ANY, s, [], x) ensures !Unsafe(x) {
        OtherwiseSafe(s, x);
      }
    }
  }

  lemma OtherwiseSafe(s: State, x: State)
    requires Init(s) && (s.h.Stopped? || s.store == []) && Reaches(ANY, s, [], x)
    ensures !Unsafe(x)
  {
    var acts: seq<Action> :| Run(ANY, s, acts) && Trace(ANY, s, acts) == [] && Final(ANY, s, acts) == x;
    if s.store == [] {
      EmptyStoreIsSafe(s, acts);
    } else {
      NoHandlerIsProper(s, acts);
    }
  }
}
